/** The login form's `handleSubmit` and its `isLoading` state. The submission
    is split at its `await`: `Submit` runs up to the request, `Settle` runs the
    continuation with what the request produced. */
module LoginForm {
  import opened Wrappers
  import opened Api
  import opened Fetch
  import AuthRoute

  const FillAllFields := "Veuillez remplir tous les champs"
  const AuthFallback := "Erreur d'authentification"

  /** The three callbacks the page passes in. */
  datatype Callback = OnSuccess | OnExpired(data: Data) | OnError(message: string)

  /** `{username, password, totpCode}` as sent to `/api/auth`. */
  datatype Credentials = Credentials(username: string, password: string, totpCode: string)

  datatype Field = UsernameField | PasswordField | TotpField

  /** The callback the continuation invokes for each outcome of the request:
      a failure of any kind is reported through `onError` alone, an `ok`
      response through `onExpired` exactly when its data says expired. */
  function Settlement(reply: Reply): (cb: Callback)
    ensures cb.OnError? <==> reply.Rejected? || !reply.ok
    ensures cb.OnExpired? <==> reply.Answered? && reply.ok && reply.data.expired
    ensures cb.OnExpired? ==> cb.data == reply.data
    ensures reply.Answered? && !reply.ok ==> cb.message == OrElse(reply.data.message, AuthFallback) && cb.message != ""
    ensures reply.Rejected? ==> cb.message == ErrorText(reply.thrown)
  {
    match reply
    case Rejected(t) => OnError(ErrorText(t))
    case Answered(ok, data) =>
      if !ok then OnError(OrElse(data.message, AuthFallback))
      else if data.expired then OnExpired(data)
      else OnSuccess
  }

  class Form {
    var username: string
    var password: string
    var totpCode: string
    var isLoading: bool
    /** The callbacks invoked so far, in order. */
    var fired: seq<Callback>
    /** The bodies sent to `/api/auth` so far, in order. */
    var sent: seq<Credentials>
    /** Submissions whose continuation after `await` has not run yet. */
    ghost var awaiting: nat

    constructor ()
      ensures username == "" && password == "" && totpCode == "" && !isLoading
      ensures fired == [] && sent == [] && awaiting == 0
    {
      username, password, totpCode := "", "", "";
      isLoading := false;
      fired, sent := [], [];
      awaiting := 0;
    }

    /** The inputs' `onChange` handlers. */
    method Change(field: Field, value: string)
      modifies this
      ensures username == (if field == UsernameField then value else old(username))
      ensures password == (if field == PasswordField then value else old(password))
      ensures totpCode == (if field == TotpField then value else old(totpCode))
      ensures isLoading == old(isLoading) && fired == old(fired) && sent == old(sent) && awaiting == old(awaiting)
    {
      match field
      case UsernameField => username := value;
      case PasswordField => password := value;
      case TotpField => totpCode := value;
    }

    /** `handleSubmit` up to its `await`: an empty field calls `onError` and
        sends nothing, leaving `isLoading` alone; otherwise `isLoading` is set
        and the request is sent. */
    method Submit() returns (started: bool)
      modifies this
      ensures started <==> username != "" && password != "" && totpCode != ""
      ensures username == old(username) && password == old(password) && totpCode == old(totpCode)
      ensures !started ==>
        fired == old(fired) + [OnError(FillAllFields)] && sent == old(sent) &&
        isLoading == old(isLoading) && awaiting == old(awaiting)
      ensures started ==>
        fired == old(fired) && sent == old(sent) + [Credentials(username, password, totpCode)] &&
        isLoading && awaiting == old(awaiting) + 1
    {
      if username == "" || password == "" || totpCode == "" {
        fired := fired + [OnError(FillAllFields)];
        return false;
      }
      isLoading := true;
      sent := sent + [Credentials(username, password, totpCode)];
      awaiting := awaiting + 1;
      return true;
    }

    /** The continuation: exactly one callback, then `finally` resets `isLoading`. */
    method Settle(reply: Reply)
      requires awaiting > 0
      modifies this
      ensures fired == old(fired) + [Settlement(reply)]
      ensures !isLoading && awaiting == old(awaiting) - 1
      ensures username == old(username) && password == old(password) && totpCode == old(totpCode)
      ensures sent == old(sent)
    {
      var cb := Settlement(reply);
      fired := fired + [cb];
      isLoading := false;
      awaiting := awaiting - 1;
    }

    /** A whole submission: exactly one callback is invoked, and `isLoading`
        ends false whenever a request was sent. */
    method HandleSubmit(reply: Reply) returns (started: bool)
      modifies this
      ensures started <==> old(username) != "" && old(password) != "" && old(totpCode) != ""
      ensures username == old(username) && password == old(password) && totpCode == old(totpCode)
      ensures |fired| == |old(fired)| + 1 && fired[..|old(fired)|] == old(fired)
      ensures fired[|old(fired)|] == if started then Settlement(reply) else OnError(FillAllFields)
      ensures started ==> !isLoading && sent == old(sent) + [Credentials(username, password, totpCode)]
      ensures !started ==> isLoading == old(isLoading) && sent == old(sent)
      ensures awaiting == old(awaiting)
    {
      started := Submit();
      if started {
        Settle(reply);
      }
    }
  }

  /** The body the form sends, as `/api/auth` reads it. */
  function AsBody(c: Credentials): AuthRoute.LoginBody
  {
    AuthRoute.LoginBody(Some(c.username), Some(c.password), Some(c.totpCode))
  }

  /** A failure the server reports always reaches `onError` with a non-empty
      message, and it is the server's message when there is one. */
  lemma ServerFailureMessage(data: Data)
    ensures Settlement(Answered(false, data)).OnError?
    ensures Settlement(Answered(false, data)).message != ""
    ensures Truthy(data.message) ==> Settlement(Answered(false, data)).message == data.message.value
  {
  }

  /** What `/api/auth` answers decides the callback: the plain success shape
      gives `onSuccess`, the renewal gives `onExpired` with both QR strings,
      and every message the route sends (400, 401, 500) reaches `onError`. */
  lemma RouteAnswerReachesCallback(body: Result<AuthRoute.LoginBody>,
                                   authenticate: (string, string, string) -> Result<AuthRoute.AuthResult>,
                                   generatePassword: string -> Result<Generated>,
                                   generateTotp: string -> Result<Generated>)
    ensures var r := AuthRoute.Post(body, authenticate, generatePassword, generateTotp).response;
      var cb := Settlement(Deliver(r));
      (cb == OnSuccess <==> r.body.LoggedIn?) &&
      (cb.OnExpired? <==> r.body.Renewed?) &&
      (r.body.Renewed? ==> cb.data.passwordQr == r.body.passwordQr && cb.data.totpQr == r.body.totpQr) &&
      (r.body.Message? ==> cb == OnError(r.body.message))
  {

  }
}
