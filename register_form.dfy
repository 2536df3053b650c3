/** The registration form's `handleSubmit` and its `isLoading` state, split
    at the `await` like the login form. */
module RegisterForm {
  import opened Wrappers
  import opened Api
  import opened Fetch
  import RegisterRoute

  const BothRequired := "Le nom d'utilisateur et l'email sont requis"
  const RegisterFallback := "Erreur lors de l'inscription"

  /** The two callbacks the page passes in. */
  datatype Callback = OnSuccess(data: Data) | OnError(message: string)

  /** `{username, email, company}` as sent to `/api/register`. */
  datatype Signup = Signup(username: string, email: string, company: string)

  datatype Field = UsernameField | EmailField | CompanyField

  /** The callback the continuation invokes: `onSuccess` with the data for an
      `ok` response, `onError` otherwise. */
  function Settlement(reply: Reply): (cb: Callback)
    ensures cb.OnSuccess? <==> reply.Answered? && reply.ok
    ensures cb.OnSuccess? ==> cb.data == reply.data
    ensures reply.Answered? && !reply.ok ==> cb.message == OrElse(reply.data.message, RegisterFallback) && cb.message != ""
    ensures reply.Rejected? ==> cb.message == ErrorText(reply.thrown)
  {
    match reply
    case Rejected(t) => OnError(ErrorText(t))
    case Answered(ok, data) =>
      if !ok then OnError(OrElse(data.message, RegisterFallback))
      else OnSuccess(data)
  }

  class Form {
    var username: string
    var email: string
    var company: string
    var isLoading: bool
    /** The callbacks invoked so far, in order. */
    var fired: seq<Callback>
    /** The bodies sent to `/api/register` so far, in order. */
    var sent: seq<Signup>
    /** Submissions whose continuation after `await` has not run yet. */
    ghost var awaiting: nat

    constructor ()
      ensures username == "" && email == "" && company == "" && !isLoading
      ensures fired == [] && sent == [] && awaiting == 0
    {
      username, email, company := "", "", "";
      isLoading := false;
      fired, sent := [], [];
      awaiting := 0;
    }

    /** The inputs' `onChange` handlers. */
    method Change(field: Field, value: string)
      modifies this
      ensures username == (if field == UsernameField then value else old(username))
      ensures email == (if field == EmailField then value else old(email))
      ensures company == (if field == CompanyField then value else old(company))
      ensures isLoading == old(isLoading) && fired == old(fired) && sent == old(sent) && awaiting == old(awaiting)
    {
      match field
      case UsernameField => username := value;
      case EmailField => email := value;
      case CompanyField => company := value;
    }

    /** `handleSubmit` up to its `await`: an empty username or email calls
        `onError` and sends nothing; an empty company does not block, and
        the company is sent along. */
    method Submit() returns (started: bool)
      modifies this
      ensures started <==> username != "" && email != ""
      ensures username == old(username) && email == old(email) && company == old(company)
      ensures !started ==>
        fired == old(fired) + [OnError(BothRequired)] && sent == old(sent) &&
        isLoading == old(isLoading) && awaiting == old(awaiting)
      ensures started ==>
        fired == old(fired) && sent == old(sent) + [Signup(username, email, company)] &&
        isLoading && awaiting == old(awaiting) + 1
    {
      if username == "" || email == "" {
        fired := fired + [OnError(BothRequired)];
        return false;
      }
      isLoading := true;
      sent := sent + [Signup(username, email, company)];
      awaiting := awaiting + 1;
      return true;
    }

    /** The continuation: exactly one callback, then `finally` resets `isLoading`. */
    method Settle(reply: Reply)
      requires awaiting > 0
      modifies this
      ensures fired == old(fired) + [Settlement(reply)]
      ensures !isLoading && awaiting == old(awaiting) - 1
      ensures username == old(username) && email == old(email) && company == old(company)
      ensures sent == old(sent)
    {
      var cb := Settlement(reply);
      fired := fired + [cb];
      isLoading := false;
      awaiting := awaiting - 1;
    }

    /** A whole submission: exactly one callback is invoked, and `isLoading`
        ends false whenever a request was sent. */
    method HandleSubmit(reply: Reply) returns (started: bool)
      modifies this
      ensures started <==> old(username) != "" && old(email) != ""
      ensures username == old(username) && email == old(email) && company == old(company)
      ensures |fired| == |old(fired)| + 1 && fired[..|old(fired)|] == old(fired)
      ensures fired[|old(fired)|] == if started then Settlement(reply) else OnError(BothRequired)
      ensures started ==> !isLoading && sent == old(sent) + [Signup(username, email, company)]
      ensures !started ==> isLoading == old(isLoading) && sent == old(sent)
      ensures awaiting == old(awaiting)
    {
      started := Submit();
      if started {
        Settle(reply);
      }
    }
  }

  /** A failure the server reports always reaches `onError` with a non-empty
      message, and it is the server's message when there is one. */
  lemma ServerFailureMessage(data: Data)
    ensures Settlement(Answered(false, data)).OnError?
    ensures Settlement(Answered(false, data)).message != ""
    ensures Truthy(data.message) ==> Settlement(Answered(false, data)).message == data.message.value
  {
  }

  /** The body the form sends, as `/api/register` reads it. */
  function AsBody(s: Signup): RegisterRoute.RegisterBody
  {
    RegisterRoute.RegisterBody(Some(s.username), Some(s.email), Some(s.company))
  }

  /** Whatever the form sends passes the route's validation, and the route's
      answer decides the callback: `onSuccess` with both QR strings for a
      registration, `onError` with the route's message otherwise. */
  lemma RouteAnswerReachesCallback(s: Signup, generatePassword: string -> Result<Generated>,
                                   generateTotp: string -> Result<Generated>)
    requires s.username != "" && s.email != ""
    ensures var r := RegisterRoute.Post(Ok(AsBody(s)), generatePassword, generateTotp).response;
      var cb := Settlement(Deliver(r));
      r.status != 400 &&
      (cb.OnSuccess? <==> r.body.Registered?) &&
      (r.body.Registered? ==> cb.data.passwordQr == r.body.passwordQr && cb.data.totpQr == r.body.totpQr) &&
      (r.body.Message? ==> cb == OnError(r.body.message))
  {
  }
}
