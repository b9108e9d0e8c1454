# Conversa client: session and feed state, verified in Dafny

This project models the one screen of the Conversa message-board client in
Swift (`ContentView`). It covers the seven `@State` fields that hold the
session and the feed, and the three operations that change them: `login()`,
`logout()` and `fetchMessages()`. It also covers the `Message` record, which
is decoded strictly by its synthesized `Codable` conformance.

- `Wrappers.dfy`: `Option` (Swift's `T?` and `??`) and `Result`.
- `Json.dfy`: an already-parsed JSON value (`JVal`) and the lookups
  `dict[key]` / `dict[key] as? String`.
- `MessageCoding.dfy`: `Message` with its seven wire keys (`id`,
  `display_name`, `title`, `message`, `image`, `date`, `author`), where `id`
  and `author` are 64-bit Swift `Int`s. It defines the strict one-record
  decode, its encoding partner and the all-or-nothing `[Message]` decode, with
  round-trip, extra-key, order and concatenation lemmas.
- `Outcomes.dfy`: the finished data task as a `Response` (no data, data the
  parser rejects, or a parsed document), and the decision that each completion
  handler makes from it (`LoginVerdict`, `FetchVerdict`).
- `ContentView.dfy`: class `ContentView` with the seven fields. Each
  operation becomes an issue method (the guard, the spinner, clearing the
  error, and the request text carrying the token held at that moment) and a
  completion method (one atomic main-queue step). The frames (`modifies
  this`field`) say which fields each step may touch. `Valid()` (a stored token
  is never empty) is kept by every step. Two client scenarios follow:
  signing in and loading a one-post feed, and a fetch whose completion comes
  after logout.

What the code does, and what it does not do:
- There is no user id or admin flag: a successful login stores only the
  token.
- Decoding is strict and all-or-nothing: one bad record fails the whole
  feed. There is no tolerant mode, no numeric-string coercion and no
  count of discarded records.
- An error reported as a one-element `[{status, message}]` array is not
  recognised. It fails the strict decode and reads as
  "Failed to decode messages." (`ErrorMarkerIsBadFeed`).
- There are no generation stamps: every fetch completion that arrives
  installs its result, whatever was issued after it.
- Logout changes nothing when it is called. The state is cleared only in
  the request's completion, and `isLoading` and `loginError` are not
  touched.
- A fetch completion that arrives after the logout completion still
  installs its feed, so the view ends signed out but holding messages
  (`FetchOutlivesLogout`).
- There is no create or delete operation.

## Model

| member | source | states |
|---|---|---|
| `Wrappers.Option.GetOr` | src/SwiftTestApp/ContentView.swift:171 | `??` yields the wrapped value when there is one and the default for `nil` (also used at lines 181 and 225) |
| `Json.Lookup` | src/SwiftTestApp/ContentView.swift:163-171 | `json[key]` is present exactly when the key is in the object, and is then that key's value |
| `Json.StringAt` | src/SwiftTestApp/ContentView.swift:163-171 | `json[key] as? String` is a string exactly when the key is present and holds a JSON string, and then it is that string |
| `MessageCoding.DecodeInt` | src/SwiftTestApp/ContentView.swift:5-11 | an `Int` field decodes exactly from an integral JSON number within 64 bits, and the result equals that number |
| `MessageCoding.DecodeString` | src/SwiftTestApp/ContentView.swift:6-10 | a `String` field decodes exactly from a JSON string, with no coercion |
| `MessageCoding.EncodeMessage` | src/SwiftTestApp/ContentView.swift:4-21 | encoding writes an object whose keys are exactly the seven `CodingKeys` raw values |
| `MessageCoding.DecodeMessage` | src/SwiftTestApp/ContentView.swift:4-21 | a value decodes to a `Message` if and only if it is an object with `id`/`author` as Int-sized integers and the five other keys as strings |
| `MessageCoding.DecodedAgreesWithWire` | src/SwiftTestApp/ContentView.swift:13-21 | a decoded record re-encodes to exactly the values found under its wire keys (`displayName` comes from `display_name`) |
| `MessageCoding.EncodeDecodeRoundTrip` | src/SwiftTestApp/ContentView.swift:4-21 | decoding an encoded `Message` gives it back |
| `MessageCoding.DecodeIgnoresExtraKeys` | src/SwiftTestApp/ContentView.swift:13-21 | two objects that agree on the seven wire keys decode alike: extra keys are ignored |
| `MessageCoding.DecodeMessages` | src/SwiftTestApp/ContentView.swift:214 | an array decodes if and only if every element decodes; the result has the same length, and element i is the decode of element i |
| `MessageCoding.DecodeFeed` | src/SwiftTestApp/ContentView.swift:214 | the document decodes if and only if it is an array of well-shaped records, one result per element |
| `MessageCoding.EncodeMessages` | src/SwiftTestApp/ContentView.swift:4 | encoding a feed writes one record per message, in order |
| `MessageCoding.FeedRoundTrip` | src/SwiftTestApp/ContentView.swift:214 | decoding an encoded feed gives the same messages in the same order |
| `MessageCoding.OneBadRecordFailsBatch` | src/SwiftTestApp/ContentView.swift:214 | one malformed record, wherever it sits, fails the whole batch |
| `MessageCoding.DecodeMessagesSplit` | src/SwiftTestApp/ContentView.swift:214 | if a concatenated batch decodes, so do both halves |
| `MessageCoding.DecodeMessagesConcat` | src/SwiftTestApp/ContentView.swift:214 | the records of a concatenated batch are those of the first half followed by those of the second |
| `MessageCoding.DecodeMessagesJoin` | src/SwiftTestApp/ContentView.swift:214 | two batches that decode join into one that decodes |
| `MessageCoding.DecodeMessagesAppend` | src/SwiftTestApp/ContentView.swift:214 | batch decoding commutes with concatenation, in both directions |
| `Outcomes.NetworkErrorText` | src/SwiftTestApp/ContentView.swift:181 | the error text is "Network error: " followed by the description, or "Unknown"; it never equals a fixed decode or token text |
| `Outcomes.LoginVerdict` | src/SwiftTestApp/ContentView.swift:160-182 | a token is accepted if and only if status is the string "success" and token is a non-empty string, and then it is that string. Success without a usable token gives "Login failed: Missing token in response.". Any other status gives the string `message`, or "Unknown error". A non-object gives "Failed to decode server response.". No data gives the network text |
| `Outcomes.FetchVerdict` | src/SwiftTestApp/ContentView.swift:212-227 | a feed is produced if and only if the body is an array of well-shaped records, and then it has the same length and order. No data gives the network text; any other failure gives "Failed to decode messages." |
| `Outcomes.ErrorMarkerIsBadFeed` | src/SwiftTestApp/ContentView.swift:214-220 | a one-element `[{status, message}]` error array is treated as a feed that fails to decode |
| `ContentViewModel.LoginUrl` | src/SwiftTestApp/ContentView.swift:150 | the login request is the fixed `?validate&username=` query followed verbatim by the username, `&password=` and the password |
| `ContentViewModel.LogoutUrl` | src/SwiftTestApp/ContentView.swift:188 | the logout request is the fixed `?logout&token=` query followed verbatim by the token |
| `ContentViewModel.FetchUrl` | src/SwiftTestApp/ContentView.swift:202 | the fetch request is the fixed `?getAll&token=` query followed verbatim by the token |
| `ContentViewModel.ContentView.SignedIn` | src/SwiftTestApp/ContentView.swift:35 | the feed screen is shown exactly when `token` is not `nil` |
| `ContentViewModel.ContentView.Valid` | src/SwiftTestApp/ContentView.swift:164 | the invariant that every step keeps: `token` is never the empty string, because only a non-empty token is ever stored |
| `ContentViewModel.ContentView.constructor` | src/SwiftTestApp/ContentView.swift:25-31 | the initial state is signed out, with empty credentials, no errors, not loading and an empty feed |
| `ContentViewModel.ContentView.EnterCredentials` | src/SwiftTestApp/ContentView.swift:45-51 | the text-field bindings set `username` and `password` and nothing else |
| `ContentViewModel.ContentView.BeginLogin` | src/SwiftTestApp/ContentView.swift:149-153 | with an accepted URL: `isLoading` becomes true, `loginError` is cleared and the request with the current credentials is issued; otherwise nothing changes |
| `ContentViewModel.ContentView.CompleteLogin` | src/SwiftTestApp/ContentView.swift:155-184 | `isLoading` becomes false. An accepted token is stored and `loginError` cleared; on any failure `token` is unchanged and `loginError` is the verdict's text; no other field changes |
| `ContentViewModel.ContentView.BeginLogout` | src/SwiftTestApp/ContentView.swift:187-188 | a request carrying the held token is issued exactly when signed in with an accepted URL; no field changes |
| `ContentViewModel.ContentView.CompleteLogout` | src/SwiftTestApp/ContentView.swift:190-197 | whatever the response: `token`, `username`, `password`, `messages` and `fetchError` are cleared; `loginError` and `isLoading` are left as they were |
| `ContentViewModel.ContentView.BeginFetch` | src/SwiftTestApp/ContentView.swift:201-205 | signed out or with a rejected URL, nothing changes; otherwise `isLoading` becomes true, `fetchError` is cleared and a request carrying the held token is issued |
| `ContentViewModel.ContentView.CompleteFetch` | src/SwiftTestApp/ContentView.swift:207-228 | `isLoading` becomes false. A decoded feed replaces `messages` wholesale and `fetchError` is untouched; on failure `messages` is unchanged and `fetchError` is the verdict's text |
| `ContentViewModel.AliceAcceptedVerdict` | src/SwiftTestApp/ContentView.swift:163-166 | `{status: "success", token: "abc"}` is accepted with token "abc" |
| `ContentViewModel.BobRecordDecodes` | src/SwiftTestApp/ContentView.swift:214-216 | the sample one-post feed decodes to exactly Bob's post |
| `ContentViewModel.SignInAndLoad` | src/SwiftTestApp/ContentView.swift:149-217 | login with a success response and then a fetch leave token "abc" and a feed of exactly Bob's post |
| `ContentViewModel.FetchOutlivesLogout` | src/SwiftTestApp/ContentView.swift:190-217 | a fetch completing after the logout completion leaves the view signed out but holding one message |

## Left out

- SwiftUI layout and rendering (`body`, `loginView`, `messagesView`,
  `AsyncImage`, styling) is UI. Only the fact that the feed is shown exactly
  while a token is held is kept, as `ContentView.SignedIn`.
- `.onAppear { fetchMessages() }` issues a fetch whenever the feed view
  appears, for example right after a successful login. The model leaves
  that call to the caller: `SignInAndLoad` calls `BeginFetch` itself.
- `URLSession` transport is left out. Whether `URL(string:)` accepts the
  interpolated text is a boolean parameter of each issue method; the request
  text is plain concatenation, without percent-encoding.
- `JSONSerialization` and `JSONDecoder` byte parsing are foreign libraries.
  A completion starts from a parsed `JVal` or from "unparseable". The
  parsers' own edge cases are not modelled: top-level fragments, duplicate
  keys, and the exact set of number spellings that decode as `Int`.
- JSON numbers are exact reals. Where the decoder goes through `Double`
  when reading an `Int`, the rounding it may do is not modelled.
- `DispatchQueue.main.async` marshalling is concurrency. Each completion is
  one atomic step, and the separate block that resets `isLoading` is folded
  into it.
- `error?.localizedDescription` is foreign. It is an opaque optional string
  after the "Network error: " prefix.
- `logout()`'s server response is ignored by the code, so the logout
  completion takes no argument.
