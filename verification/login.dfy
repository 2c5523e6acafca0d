/**
 * The login form's submit handler. The request, the response body, the token
 * decoder, the browser storage, the authentication context's `login` and the
 * router's `navigate` are replaced by inputs and by logs of what was written
 * or called, so that one submit is a step from one form state to the next.
 */
module Login {
  import opened Wrappers
  import opened Session

  const EmptyFieldsMessage: string := "Please enter both username and password"
  const GenericMessage: string := "An error occurred. Please try again."
  const DashboardPath: string := "/admin-dashboard"
  /** The storage key the access token is kept under. */
  const TokenKey: string := "token"

  /** The JSON body posted to the authentication endpoint. */
  datatype Credentials = Credentials(username: string, password: string)

  /**
   * How the authentication request ends. `None` as a body means that reading
   * the response as JSON failed.
   */
  datatype Reply =
    | NetworkError                    // the request itself rejected
    | Accepted(accessToken: Option<string>) // `response.ok`, with the body's `accessToken`
    | Refused(message: Option<string>)      // not ok, with the body's `message`

  /**
   * Everything one submit can change or cause: the form's state cells, the
   * history of values given to `setError` and `setIsLoading`, the browser
   * storage, and the calls made to `login`, `navigate` and the endpoint.
   */
  datatype FormState = FormState(
    username: string,
    password: string,
    rememberMe: bool,
    isLoading: bool,
    error: string,
    errorLog: seq<string>,
    loadingLog: seq<bool>,
    storage: map<string, string>,
    logins: seq<User>,
    navigations: seq<string>,
    requests: seq<Credentials>)

  function SetError(s: FormState, e: string): FormState {
    s.(error := e, errorLog := s.errorLog + [e])
  }

  function SetLoading(s: FormState, b: bool): FormState {
    s.(isLoading := b, loadingLog := s.loadingLog + [b])
  }

  /**
   * The handler's `try` and `catch`, from just after the request is issued:
   * what each kind of reply does to the storage, the sign-ins, the
   * navigation and the error, leaving the form fields and requests alone.
   */
  function Exchange(s: FormState, reply: Reply, decode: string -> Option<User>): (t: FormState)
    ensures t.username == s.username && t.password == s.password && t.rememberMe == s.rememberMe
    ensures t.isLoading == s.isLoading && t.loadingLog == s.loadingLog && t.requests == s.requests
    ensures |t.errorLog| >= |s.errorLog| && t.errorLog[..|s.errorLog|] == s.errorLog
    ensures reply.Accepted? && reply.accessToken.Some? && decode(reply.accessToken.value).Some? ==>
              t.storage == s.storage[TokenKey := reply.accessToken.value]
              && t.logins == s.logins + [decode(reply.accessToken.value).value]
              && t.navigations == s.navigations + [DashboardPath]
              && t.error == s.error
    ensures reply.Refused? && reply.message.Some? ==>
              t.error == reply.message.value
              && t.storage == s.storage && t.logins == s.logins && t.navigations == s.navigations
    ensures reply.NetworkError? ==>
              t.error == GenericMessage
              && t.storage == s.storage && t.logins == s.logins && t.navigations == s.navigations
    ensures t.navigations != s.navigations ==>
              t.navigations == s.navigations + [DashboardPath]
              && |t.logins| == |s.logins| + 1 && t.logins[..|s.logins|] == s.logins && TokenKey in t.storage
              && decode(t.storage[TokenKey]) == Some(t.logins[|s.logins|])
  {
    match reply
    case NetworkError => SetError(s, GenericMessage)
    case Accepted(None) => SetError(s, GenericMessage)
    case Accepted(Some(token)) =>
      var stored := s.(storage := s.storage[TokenKey := token]);
      (match decode(token)
       case None => SetError(stored, GenericMessage)
       case Some(user) => stored.(logins := stored.logins + [user], navigations := stored.navigations + [DashboardPath]))
    case Refused(None) => SetError(s, GenericMessage)
    case Refused(Some(m)) => SetError(s, m)
  }

  /**
   * One submit of the form, with `reply` the outcome of the request (if one
   * is made) and `decode` the token decoder, `None` where it throws.
   */
  function Submit(s: FormState, reply: Reply, decode: string -> Option<User>): (t: FormState)
    // the credentials and the remember-me box are only read
    ensures t.username == s.username && t.password == s.password && t.rememberMe == s.rememberMe
    // every submit first clears the error
    ensures |t.errorLog| > |s.errorLog| && t.errorLog[..|s.errorLog| + 1] == s.errorLog + [""]
    // an empty field is rejected locally: no request, no loading, nothing else
    ensures s.username == "" || s.password == "" ==>
              t == s.(error := EmptyFieldsMessage, errorLog := s.errorLog + ["", EmptyFieldsMessage])
    // otherwise exactly one request is made and the loading flag goes up and back down
    ensures s.username != "" && s.password != "" ==>
              t.requests == s.requests + [Credentials(s.username, s.password)]
              && t.loadingLog == s.loadingLog + [true, false] && !t.isLoading
    // success: the token is stored verbatim, the decoded user is signed in, the dashboard opens
    ensures s.username != "" && s.password != "" && reply.Accepted? && reply.accessToken.Some?
            && decode(reply.accessToken.value).Some? ==>
              t.storage == s.storage[TokenKey := reply.accessToken.value]
              && t.logins == s.logins + [decode(reply.accessToken.value).value]
              && t.navigations == s.navigations + [DashboardPath]
              && t.error == ""
    // refusal: the server's message is shown, and nothing is stored, signed in or opened
    ensures s.username != "" && s.password != "" && reply.Refused? && reply.message.Some? ==>
              t.error == reply.message.value
              && t.storage == s.storage && t.logins == s.logins && t.navigations == s.navigations
    // a network failure shows the generic message, and nothing is stored, signed in or opened
    ensures s.username != "" && s.password != "" && reply.NetworkError? ==>
              t.error == GenericMessage
              && t.storage == s.storage && t.logins == s.logins && t.navigations == s.navigations
    // the dashboard opens only after a sign-in with the claims of the token just stored
    ensures t.navigations != s.navigations ==>
              t.navigations == s.navigations + [DashboardPath]
              && |t.logins| == |s.logins| + 1 && TokenKey in t.storage
              && decode(t.storage[TokenKey]) == Some(t.logins[|s.logins|])
  {
    var cleared := SetError(s, "");
    if s.username == "" || s.password == "" then
      SetError(cleared, EmptyFieldsMessage)
    else
      var sent := SetLoading(cleared, true).(requests := cleared.requests + [Credentials(s.username, s.password)]);
      var t := SetLoading(Exchange(sent, reply, decode), false);
      assert t.errorLog[..|s.errorLog| + 1] == sent.errorLog;
      t
  }

  /**
   * The two failures the handler cannot tell apart from a network failure: a
   * body that is not JSON, and a token the decoder rejects. In the second the
   * token has already been stored when the decoder throws.
   */
  lemma {:induction false} UnreadableRepliesLookLikeNetworkErrors(
    s: FormState, reply: Reply, decode: string -> Option<User>)
    requires s.username != "" && s.password != ""
    requires reply == Accepted(None) || reply == Refused(None)
             || (reply.Accepted? && reply.accessToken.Some? && decode(reply.accessToken.value).None?)
    ensures Submit(s, reply, decode).error == GenericMessage
    ensures Submit(s, reply, decode).logins == s.logins
    ensures Submit(s, reply, decode).navigations == s.navigations
    ensures Submit(s, reply, decode).storage
            == if reply.Accepted? && reply.accessToken.Some? then s.storage[TokenKey := reply.accessToken.value]
               else s.storage
  {
  }

  /** The remember-me box has no effect on what a submit does. */
  lemma RememberMeIgnored(s: FormState, reply: Reply, decode: string -> Option<User>, remember: bool)
    ensures Submit(s.(rememberMe := remember), reply, decode) == Submit(s, reply, decode).(rememberMe := remember)
  {
  }

  /** The login page's state cells and the effects a submit has outside it. */
  class LoginForm {
    var username: string
    var password: string
    var rememberMe: bool
    var isLoading: bool
    var error: string
    /** Values given to `setError` and `setIsLoading`, in order. */
    ghost var errorLog: seq<string>
    ghost var loadingLog: seq<bool>
    /** Browser storage. */
    var storage: map<string, string>
    /** Users passed to the context's `login`, paths passed to `navigate`, requests posted. */
    var logins: seq<User>
    var navigations: seq<string>
    var requests: seq<Credentials>

    ghost function State(): FormState
      reads this
    {
      FormState(username, password, rememberMe, isLoading, error, errorLog, loadingLog,
                storage, logins, navigations, requests)
    }

    /** A freshly rendered form over the given storage. */
    constructor (storage0: map<string, string>)
      ensures State() == FormState("", "", false, false, "", [], [], storage0, [], [], [])
    {
      username, password, rememberMe, isLoading, error := "", "", false, false, "";
      errorLog, loadingLog := [], [];
      storage, logins, navigations, requests := storage0, [], [], [];
    }

    method SetUsername(u: string)
      modifies this`username
      ensures username == u
    {
      username := u;
    }

    method SetPassword(p: string)
      modifies this`password
      ensures password == p
    {
      password := p;
    }

    method SetRememberMe(b: bool)
      modifies this`rememberMe
      ensures rememberMe == b
    {
      rememberMe := b;
    }

    /** `handleSubmit`, performing the steps of `Submit` one after another. */
    method HandleSubmit(reply: Reply, decode: string -> Option<User>)
      modifies this
      ensures State() == Submit(old(State()), reply, decode)
    {
      error := "";
      errorLog := errorLog + [""];
      if username == "" || password == "" {
        error := EmptyFieldsMessage;
        errorLog := errorLog + [EmptyFieldsMessage];
        return;
      }
      isLoading := true;
      loadingLog := loadingLog + [true];
      requests := requests + [Credentials(username, password)];
      AwaitReply(reply, decode);
      isLoading := false;
      loadingLog := loadingLog + [false];
    }

    /** The body of the handler's `try` and `catch`, once the request is issued. */
    method AwaitReply(reply: Reply, decode: string -> Option<User>)
      modifies this
      ensures State() == Exchange(old(State()), reply, decode)
    {
      match reply {
        case NetworkError =>
          Fail();
        case Accepted(body) =>
          if body.None? {
            Fail();
          } else {
            storage := storage[TokenKey := body.value];
            var decoded := decode(body.value);
            if decoded.None? {
              Fail();
            } else {
              logins := logins + [decoded.value];
              navigations := navigations + [DashboardPath];
            }
          }
        case Refused(body) =>
          if body.None? {
            Fail();
          } else {
            error := body.value;
            errorLog := errorLog + [body.value];
          }
      }
    }

    /** The handler's `catch`: the generic message. */
    method Fail()
      modifies this`error, this`errorLog
      ensures State() == SetError(old(State()), GenericMessage)
    {
      error := GenericMessage;
      errorLog := errorLog + [GenericMessage];
    }
  }
}
