/** The session and feed state of the app's single screen: the view's seven
    `@State` fields and the three operations that change them. Each
    operation is split into the step that runs when it is invoked (a guard,
    then the request is issued) and the completion that runs when the data
    task finishes; a completion is one atomic step on the main queue, and
    any number of other steps may run between an issue and its completion. */
module ContentViewModel {

  import opened Wrappers
  import opened Json
  import opened MessageCoding
  import opened Outcomes

  const Endpoint: string := "https://conversa-api.ntigskovde.se/conversa.php"

  const LoginQuery: string := Endpoint + "?validate&username="
  const LogoutQuery: string := Endpoint + "?logout&token="
  const FetchQuery: string := Endpoint + "?getAll&token="

  /** The request texts are built by plain interpolation: the credentials and
      the token follow the fixed query text verbatim, with no percent-encoding. */
  function LoginUrl(username: string, password: string): (r: string)
    ensures LoginQuery <= r
    ensures r[|LoginQuery|..] == username + "&password=" + password
  {
    var r := LoginQuery + username + "&password=" + password;
    assert r[..|LoginQuery|] == LoginQuery;
    assert r[|LoginQuery|..] == username + "&password=" + password;
    r
  }

  function LogoutUrl(token: string): (r: string)
    ensures LogoutQuery <= r && r[|LogoutQuery|..] == token
  {
    var r := LogoutQuery + token;
    assert r[..|LogoutQuery|] == LogoutQuery;
    r
  }

  function FetchUrl(token: string): (r: string)
    ensures FetchQuery <= r && r[|FetchQuery|..] == token
  {
    var r := FetchQuery + token;
    assert r[..|FetchQuery|] == FetchQuery;
    r
  }

  class ContentView {
    var username: string
    var password: string
    var token: Option<string>
    var loginError: Option<string>
    var fetchError: Option<string>
    var isLoading: bool
    var messages: seq<Message>

    /** The invariant every step keeps: a stored token is never empty. */
    ghost predicate Valid()
      reads this
      ensures Valid() <==> token != Some("")
    {
      token.Some? ==> token.value != ""
    }

    /** The screen shows the feed exactly while a token is held. */
    predicate SignedIn()
      reads this
      ensures SignedIn() <==> token != None
    {
      token.Some?
    }

    /** A freshly created view: signed out, nothing typed, nothing loaded. */
    constructor ()
      ensures Valid() && !SignedIn()
      ensures username == "" && password == ""
      ensures token == None && loginError == None && fetchError == None
      ensures !isLoading && messages == []
    {
      username := "";
      password := "";
      token := None;
      loginError := None;
      fetchError := None;
      isLoading := false;
      messages := [];
    }

    /** The text fields' bindings write the credentials. */
    method EnterCredentials(u: string, p: string)
      modifies this`username, this`password
      ensures username == u && password == p
    {
      username := u;
      password := p;
    }

    /** `login()` up to `resume()`. `urlAccepted` says whether Foundation
        accepts the interpolated text as a URL; if not, nothing happens.
        Otherwise the spinner starts, the old login error is cleared, and the
        request for the current credentials is issued. */
    method BeginLogin(urlAccepted: bool) returns (request: Option<string>)
      requires Valid()
      modifies this`isLoading, this`loginError
      ensures Valid()
      ensures request == if urlAccepted then Some(LoginUrl(username, password)) else None
      ensures isLoading == (urlAccepted || old(isLoading))
      ensures loginError == if urlAccepted then None else old(loginError)
    {
      if !urlAccepted {
        return None;
      }
      isLoading := true;
      loginError := None;
      request := Some(LoginUrl(username, password));
    }

    /** The login completion. The spinner stops whatever the response; an
        accepted token is stored and the error cleared; otherwise the token
        stays as it was and the error text is set. */
    method CompleteLogin(response: Response)
      requires Valid()
      modifies this`isLoading, this`token, this`loginError
      ensures Valid() && !isLoading
      ensures LoginVerdict(response).Success? ==>
                token == Some(LoginVerdict(response).value) && loginError == None
      ensures LoginVerdict(response).Failure? ==>
                token == old(token) && loginError == Some(LoginVerdict(response).error)
    {
      isLoading := false;
      match LoginVerdict(response)
      case Success(t) =>
        token := Some(t);
        loginError := None;
      case Failure(e) =>
        loginError := Some(e);
    }

    /** `logout()` up to `resume()`: only while signed in (and the URL is
        accepted) is a request issued, for the token held now. No field
        changes at this point. */
    method BeginLogout(urlAccepted: bool) returns (request: Option<string>)
      ensures request.Some? <==> SignedIn() && urlAccepted
      ensures request.Some? ==> request.value == LogoutUrl(token.value)
    {
      if token.Some? && urlAccepted {
        request := Some(LogoutUrl(token.value));
      } else {
        request := None;
      }
    }

    /** The logout completion, whatever the server answered: the session,
        the credentials, the feed and the fetch error are cleared; the login
        error and the spinner are left alone. */
    method CompleteLogout()
      modifies this`token, this`username, this`password, this`messages, this`fetchError
      ensures Valid() && !SignedIn()
      ensures username == "" && password == "" && messages == [] && fetchError == None
    {
      token := None;
      username := "";
      password := "";
      messages := [];
      fetchError := None;
    }

    /** `fetchMessages()` up to `resume()`: signed out (or with a rejected
        URL) nothing happens; otherwise the spinner starts, the fetch error is
        cleared, and a request carrying the token held now is issued. */
    method BeginFetch(urlAccepted: bool) returns (request: Option<string>)
      requires Valid()
      modifies this`isLoading, this`fetchError
      ensures Valid()
      ensures request.Some? <==> SignedIn() && urlAccepted
      ensures request.Some? ==> request.value == FetchUrl(token.value)
      ensures isLoading == (request.Some? || old(isLoading))
      ensures fetchError == if request.Some? then None else old(fetchError)
    {
      if token.None? || !urlAccepted {
        return None;
      }
      isLoading := true;
      fetchError := None;
      request := Some(FetchUrl(token.value));
    }

    /** The fetch completion. The spinner stops whatever the response; a
        decoded feed replaces `messages` wholesale (the fetch error is not
        touched); on any failure `messages` is kept and the error is set. */
    method CompleteFetch(response: Response)
      requires Valid()
      modifies this`isLoading, this`messages, this`fetchError
      ensures Valid() && !isLoading
      ensures FetchVerdict(response).Success? ==>
                messages == FetchVerdict(response).value && fetchError == old(fetchError)
      ensures FetchVerdict(response).Failure? ==>
                messages == old(messages) && fetchError == Some(FetchVerdict(response).error)
    {
      isLoading := false;
      match FetchVerdict(response)
      case Success(ms) =>
        messages := ms;
      case Failure(e) =>
        fetchError := Some(e);
    }
  }

  /** The record of the sample feed: one post by Bob. */
  function BobRecord(): (v: JVal) {
    JObj(map[
      "id" := JNum(1.0), "display_name" := JStr("Bob"), "title" := JStr("Hi"),
      "message" := JStr("hello"), "image" := JStr(""), "date" := JStr("2024-01-01"),
      "author" := JNum(2.0)])
  }

  const Bob: Message := Message(1, "Bob", "Hi", "hello", "", "2024-01-01", 2)

  /** Bob's wire record is what the encoder writes for his post, so it
      decodes back to it. */
  lemma BobRecordDecodes()
    ensures DecodeFeed(JArr([BobRecord()])) == Some([Bob])
    ensures FetchVerdict(Parsed(JArr([BobRecord()]))) == Success([Bob])
  {
    assert BobRecord() == EncodeMessage(Bob);
    FeedRoundTrip([Bob]);
    assert EncodeMessages([Bob]) == [EncodeMessage(Bob)];
  }

  /** The sample login answer: success with token "abc". */
  function AliceAccepted(): (r: Response) {
    Parsed(JObj(map["status" := JStr("success"), "token" := JStr("abc")]))
  }

  lemma AliceAcceptedVerdict()
    ensures LoginVerdict(AliceAccepted()) == Success("abc")
  {
  }

  /** Sign in as alice, then load a one-post feed: the token is the one the
      server sent and the feed holds exactly Bob's post. */
  method SignInAndLoad() returns (token: Option<string>, feed: seq<Message>)
    ensures token == Some("abc")
    ensures feed == [Message(1, "Bob", "Hi", "hello", "", "2024-01-01", 2)]
  {
    var view := new ContentView();
    view.EnterCredentials("alice", "pw");
    var loginRequest := view.BeginLogin(true);
    AliceAcceptedVerdict();
    view.CompleteLogin(AliceAccepted());
    var fetchRequest := view.BeginFetch(true);
    assert fetchRequest == Some(FetchUrl("abc"));
    BobRecordDecodes();
    view.CompleteFetch(Parsed(JArr([BobRecord()])));
    token, feed := view.token, view.messages;
  }

  /** A fetch issued while signed in whose completion arrives after the
      logout completion still installs its feed: the view ends signed out
      but holding the fetched post. */
  method FetchOutlivesLogout() returns (signedIn: bool, count: nat)
    ensures !signedIn && count == 1
  {
    var view := new ContentView();
    AliceAcceptedVerdict();
    view.CompleteLogin(AliceAccepted());
    var fetchRequest := view.BeginFetch(true);
    var logoutRequest := view.BeginLogout(true);
    view.CompleteLogout();
    BobRecordDecodes();
    view.CompleteFetch(Parsed(JArr([BobRecord()])));
    signedIn, count := view.SignedIn(), |view.messages|;
  }
}
