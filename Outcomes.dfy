/** What the completion handlers of `login()` and `fetchMessages()` make of a
    finished data task, with the networking and the JSON parser abstracted
    away: a login completion either stores a token or sets an error text, a
    fetch completion either replaces the feed or sets an error text. */
module Outcomes {

  import opened Wrappers
  import opened Json
  import opened MessageCoding

  /** What a data task hands its completion, once the parser has run:
      no data at all (with the transport error's description, if any), data
      the parser rejects, or a parsed document. */
  datatype Response =
    | NoData(errorDescription: Option<string>)
    | Unparseable
    | Parsed(body: JVal)

  const NetworkErrorPrefix: string := "Network error: "
  const UnknownDescription: string := "Unknown"
  const MissingTokenText: string := "Login failed: Missing token in response."
  const BadLoginResponseText: string := "Failed to decode server response."
  const UnknownErrorText: string := "Unknown error"
  const BadFeedText: string := "Failed to decode messages."

  /** `"Network error: \(error?.localizedDescription ?? "Unknown")"`. It can
      never be mistaken for one of the fixed decode or token texts. */
  function NetworkErrorText(description: Option<string>): (t: string)
    ensures NetworkErrorPrefix <= t
    ensures t[|NetworkErrorPrefix|..] == description.GetOr(UnknownDescription)
    ensures t != BadFeedText && t != BadLoginResponseText && t != MissingTokenText
  {
    var t := NetworkErrorPrefix + description.GetOr(UnknownDescription);
    assert t[..|NetworkErrorPrefix|] == NetworkErrorPrefix;
    assert t[1] != BadFeedText[1] && t[0] != BadLoginResponseText[0] && t[0] != MissingTokenText[0];
    t
  }

  /** The response parsed to a JSON object (`as? [String: Any]` succeeded). */
  ghost predicate IsObjectResponse(r: Response) {
    r.Parsed? && r.body.JObj?
  }

  /** The object's `status` is the string "success". */
  ghost predicate ReportsSuccess(r: Response) {
    IsObjectResponse(r) && StringAt(r.body.fields, "status") == Some("success")
  }

  /** The object's `token` is a non-empty string. */
  ghost predicate CarriesToken(r: Response) {
    IsObjectResponse(r) && StringAt(r.body.fields, "token").Some?
    && StringAt(r.body.fields, "token").value != ""
  }

  /** The login completion's decision: `Success(token)` to store, or
      `Failure(text)` for `loginError`. */
  function LoginVerdict(r: Response): (v: Result<string, string>)
    ensures v.Success? <==> ReportsSuccess(r) && CarriesToken(r)
    ensures v.Success? ==> v.value != "" && r.body.fields["token"] == JStr(v.value)
    ensures r.NoData? ==> v == Failure(NetworkErrorText(r.errorDescription))
    ensures r.Unparseable? || (r.Parsed? && !r.body.JObj?) ==> v == Failure(BadLoginResponseText)
    ensures ReportsSuccess(r) && !CarriesToken(r) ==> v == Failure(MissingTokenText)
    ensures IsObjectResponse(r) && !ReportsSuccess(r) ==>
              v == Failure(StringAt(r.body.fields, "message").GetOr(UnknownErrorText))
  {
    match r
    case NoData(e) => Failure(NetworkErrorText(e))
    case Unparseable => Failure(BadLoginResponseText)
    case Parsed(JObj(f)) =>
      if StringAt(f, "status") == Some("success") then
        match StringAt(f, "token")
        case Some(t) => if t != "" then Success(t) else Failure(MissingTokenText)
        case None => Failure(MissingTokenText)
      else
        Failure(StringAt(f, "message").GetOr(UnknownErrorText))
    case Parsed(_) => Failure(BadLoginResponseText)
  }

  /** The fetch completion's decision: `Success(feed)` to replace `messages`
      with, or `Failure(text)` for `fetchError`. A fresh feed lists the
      server's records one for one, in the server's order. */
  function FetchVerdict(r: Response): (v: Result<seq<Message>, string>)
    ensures v.Success? <==>
              r.Parsed? && r.body.JArr? && forall i :: 0 <= i < |r.body.items| ==> IsMessageObject(r.body.items[i])
    ensures v.Success? ==>
              |v.value| == |r.body.items|
              && forall i :: 0 <= i < |r.body.items| ==> DecodeMessage(r.body.items[i]) == Some(v.value[i])
    ensures r.NoData? ==> v == Failure(NetworkErrorText(r.errorDescription))
    ensures v.Failure? && !r.NoData? ==> v.error == BadFeedText
  {
    match r
    case NoData(e) => Failure(NetworkErrorText(e))
    case Unparseable => Failure(BadFeedText)
    case Parsed(body) =>
      match DecodeFeed(body)
      case Some(ms) => Success(ms)
      case None => Failure(BadFeedText)
  }

  /** A server-side error reported as a one-element array holding only
      `status` and `message` is not told apart from a malformed feed: the
      strict decoder fails it, like any other record missing its keys. */
  lemma ErrorMarkerIsBadFeed(status: string, message: string)
    ensures FetchVerdict(Parsed(JArr([JObj(map["status" := JStr(status), "message" := JStr(message)])])))
            == Failure(BadFeedText)
  {
  }
}
