/** The `Message` record of the feed and its synthesized `Codable` conformance:
    seven wire keys, `id` and `author` as Swift `Int` (64-bit), the other five
    as `String`. Decoding is strict: a missing key, a `null`, or a value of
    the wrong JSON type fails the record, and an array of records decodes
    only if every element does. */
module MessageCoding {

  import opened Wrappers
  import opened Json

  /** Swift's `Int` on a 64-bit platform. */
  newtype Int64 = x: int | -0x8000_0000_0000_0000 <= x <= 0x7FFF_FFFF_FFFF_FFFF

  /** One post of the feed; `displayName` travels as `display_name`. */
  datatype Message = Message(
    id: Int64,
    displayName: string,
    title: string,
    message: string,
    image: string,
    date: string,
    author: Int64)

  /** The `CodingKeys` raw values. */
  const IntKeys: set<string> := {"id", "author"}
  const StringKeys: set<string> := {"display_name", "title", "message", "image", "date"}
  const WireKeys: set<string> := IntKeys + StringKeys

  /** A JSON number that a Swift `Int` can hold: integral and in range. */
  ghost predicate IsInt64Number(v: JVal) {
    v.JNum? && v.n.Floor as real == v.n
    && -0x8000_0000_0000_0000 <= v.n.Floor <= 0x7FFF_FFFF_FFFF_FFFF
  }

  /** The shape the strict decoder accepts: an object whose integer keys hold
      Int-sized integral numbers and whose string keys hold strings. Keys
      outside the seven are not looked at. */
  ghost predicate IsMessageObject(v: JVal) {
    && v.JObj?
    && (forall k :: k in IntKeys ==> k in v.fields && IsInt64Number(v.fields[k]))
    && (forall k :: k in StringKeys ==> k in v.fields && v.fields[k].JStr?)
  }

  /** `decode(Int.self, forKey:)`: a number with no fractional part that fits
      in 64 bits; strings, booleans and `null` are refused. */
  function DecodeInt(v: JVal): (r: Option<Int64>)
    ensures r.Some? <==> IsInt64Number(v)
    ensures r.Some? ==> v == JNum(r.value as real)
  {
    if v.JNum? && v.n.Floor as real == v.n
       && -0x8000_0000_0000_0000 <= v.n.Floor <= 0x7FFF_FFFF_FFFF_FFFF
    then Some(v.n.Floor as Int64)
    else None
  }

  /** `decode(String.self, forKey:)`: only a JSON string; no coercion. */
  function DecodeString(v: JVal): (r: Option<string>)
    ensures r.Some? <==> v.JStr?
    ensures r.Some? ==> v == JStr(r.value)
  {
    if v.JStr? then Some(v.s) else None
  }

  /** The encoding side of the conformance: one object with exactly the seven
      wire keys. */
  function EncodeMessage(m: Message): (v: JVal)
    ensures v.JObj? && v.fields.Keys == WireKeys
  {
    JObj(map[
      "id" := JNum(m.id as real),
      "display_name" := JStr(m.displayName),
      "title" := JStr(m.title),
      "message" := JStr(m.message),
      "image" := JStr(m.image),
      "date" := JStr(m.date),
      "author" := JNum(m.author as real)])
  }

  /** Two objects that agree on every wire key (presence and value). */
  ghost predicate AgreeOnWireKeys(f: map<string, JVal>, g: map<string, JVal>) {
    forall k :: k in WireKeys ==> (k in f <==> k in g) && (k in f ==> f[k] == g[k])
  }

  /** The synthesized `init(from:)` for one record. It succeeds exactly on
      the accepted shape. */
  function DecodeMessage(v: JVal): (r: Option<Message>)
    ensures r.Some? <==> IsMessageObject(v)
  {
    if !v.JObj? then None
    else
      var f := v.fields;
      if !("id" in f && "display_name" in f && "title" in f && "message" in f
           && "image" in f && "date" in f && "author" in f)
      then None
      else
        match (DecodeInt(f["id"]), DecodeString(f["display_name"]), DecodeString(f["title"]),
               DecodeString(f["message"]), DecodeString(f["image"]), DecodeString(f["date"]),
               DecodeInt(f["author"]))
        case (Some(id), Some(dn), Some(t), Some(msg), Some(img), Some(d), Some(a)) =>
          Some(Message(id, dn, t, msg, img, d, a))
        case _ => None
  }

  /** A decoded record re-encodes to the very values found under the wire
      keys, so the record is determined by them. */
  lemma DecodedAgreesWithWire(v: JVal)
    requires DecodeMessage(v).Some?
    ensures v.JObj? && AgreeOnWireKeys(v.fields, EncodeMessage(DecodeMessage(v).value).fields)
  {
  }

  /** Decoding what was encoded gives the record back. */
  lemma EncodeDecodeRoundTrip(m: Message)
    ensures DecodeMessage(EncodeMessage(m)) == Some(m)
  {
  }

  /** Keys other than the seven wire keys never change the outcome. */
  lemma DecodeIgnoresExtraKeys(f: map<string, JVal>, g: map<string, JVal>)
    requires AgreeOnWireKeys(f, g)
    ensures DecodeMessage(JObj(f)) == DecodeMessage(JObj(g))
  {
  }

  /** `decode([Message].self, ...)` over the elements of an array,
      all or nothing. */
  function DecodeMessages(xs: seq<JVal>): (r: Option<seq<Message>>)
    ensures r.Some? <==> forall i :: 0 <= i < |xs| ==> DecodeMessage(xs[i]).Some?
    ensures r.Some? ==> |r.value| == |xs|
    ensures r.Some? ==> forall i :: 0 <= i < |xs| ==> DecodeMessage(xs[i]) == Some(r.value[i])
  {
    if xs == [] then Some([])
    else
      match (DecodeMessage(xs[0]), DecodeMessages(xs[1..]))
      case (Some(m), Some(ms)) => Some([m] + ms)
      case _ => None
  }

  /** The top-level document must be an array of records. */
  function DecodeFeed(v: JVal): (r: Option<seq<Message>>)
    ensures r.Some? ==> v.JArr? && |r.value| == |v.items|
    ensures r.Some? <==> v.JArr? && forall i :: 0 <= i < |v.items| ==> IsMessageObject(v.items[i])
  {
    if v.JArr? then DecodeMessages(v.items) else None
  }

  /** Encodes a whole feed, element by element, preserving order. */
  function EncodeMessages(ms: seq<Message>): (xs: seq<JVal>)
    ensures |xs| == |ms|
    ensures forall i :: 0 <= i < |ms| ==> xs[i] == EncodeMessage(ms[i])
  {
    if ms == [] then [] else [EncodeMessage(ms[0])] + EncodeMessages(ms[1..])
  }

  /** Decoding an encoded feed gives the same records in the same order. */
  lemma FeedRoundTrip(ms: seq<Message>)
    ensures DecodeMessages(EncodeMessages(ms)) == Some(ms)
  {
    var xs := EncodeMessages(ms);
    forall i | 0 <= i < |ms| ensures DecodeMessage(xs[i]) == Some(ms[i]) {
      EncodeDecodeRoundTrip(ms[i]);
    }
    var r := DecodeMessages(xs).value;
    assert forall i :: 0 <= i < |ms| ==> Some(r[i]) == DecodeMessage(xs[i]) == Some(ms[i]);
    assert r == ms;
  }

  /** One bad record fails the whole batch, wherever it sits. */
  lemma OneBadRecordFailsBatch(xs: seq<JVal>, i: nat)
    requires i < |xs| && !IsMessageObject(xs[i])
    ensures DecodeMessages(xs) == None
  {
  }

  /** A batch that decodes splits into halves that decode. */
  lemma {:induction false} DecodeMessagesSplit(xs: seq<JVal>, ys: seq<JVal>)
    requires DecodeMessages(xs + ys).Some?
    ensures DecodeMessages(xs).Some? && DecodeMessages(ys).Some?
  {
    var zs := xs + ys;
    forall i | 0 <= i < |xs| ensures DecodeMessage(xs[i]).Some? {
      assert zs[i] == xs[i];
    }
    forall j | 0 <= j < |ys| ensures DecodeMessage(ys[j]).Some? {
      assert zs[|xs| + j] == ys[j];
    }
  }

  /** When both halves and the whole decode, the whole's records are the
      halves' records, in order. */
  lemma {:induction false} DecodeMessagesConcat(xs: seq<JVal>, ys: seq<JVal>)
    requires DecodeMessages(xs + ys).Some? && DecodeMessages(xs).Some? && DecodeMessages(ys).Some?
    ensures DecodeMessages(xs + ys).value == DecodeMessages(xs).value + DecodeMessages(ys).value
  {
    var zs := xs + ys;
    var r, a, b := DecodeMessages(zs).value, DecodeMessages(xs).value, DecodeMessages(ys).value;
    forall i | 0 <= i < |zs| ensures r[i] == (a + b)[i] {
      if i < |xs| {
        assert zs[i] == xs[i];
        assert Some(r[i]) == DecodeMessage(xs[i]) == Some(a[i]);
      } else {
        assert zs[i] == ys[i - |xs|];
        assert Some(r[i]) == DecodeMessage(ys[i - |xs|]) == Some(b[i - |xs|]);
      }
    }
    assert r == a + b;
  }

  /** Two batches that decode join into one that decodes. */
  lemma {:induction false} DecodeMessagesJoin(xs: seq<JVal>, ys: seq<JVal>)
    requires DecodeMessages(xs).Some? && DecodeMessages(ys).Some?
    ensures DecodeMessages(xs + ys).Some?
  {
    var zs := xs + ys;
    forall i | 0 <= i < |zs| ensures DecodeMessage(zs[i]).Some? {
      if i < |xs| {
        assert zs[i] == xs[i];
      } else {
        assert zs[i] == ys[i - |xs|];
      }
    }
  }

  /** Batch decoding commutes with concatenation: decoding two halves and
      joining them is decoding the joined array. */
  lemma {:induction false} DecodeMessagesAppend(xs: seq<JVal>, ys: seq<JVal>)
    ensures DecodeMessages(xs + ys).Some? <==> DecodeMessages(xs).Some? && DecodeMessages(ys).Some?
    ensures DecodeMessages(xs + ys).Some? ==>
              DecodeMessages(xs + ys).value == DecodeMessages(xs).value + DecodeMessages(ys).value
  {
    if DecodeMessages(xs + ys).Some? {
      DecodeMessagesSplit(xs, ys);
      DecodeMessagesConcat(xs, ys);
    } else if DecodeMessages(xs).Some? && DecodeMessages(ys).Some? {
      DecodeMessagesJoin(xs, ys);
    }
  }
}
