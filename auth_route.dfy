/** `POST /api/auth`: validate the three fields, ask the authentication
    backend, and on expiry mint both replacement credentials. The backends are
    given functions (`Err` when the awaited call throws); the simulated ones of
    the route file are instances. */
module AuthRoute {
  import opened Wrappers
  import opened Api

  const FieldsRequired := "Tous les champs sont requis"
  const InvalidCredentials := "Identifiants invalides"
  const InternalError := "Une erreur est survenue lors de l'authentification"

  /** The destructured request body. */
  datatype LoginBody = LoginBody(username: Option<string>, password: Option<string>, totpCode: Option<string>)

  /** `{success, expired}` from the authentication backend. */
  datatype AuthResult = AuthResult(success: bool, expired: bool)

  predicate AllGiven(b: LoginBody)
  {
    Truthy(b.username) && Truthy(b.password) && Truthy(b.totpCode)
  }

  /** The calls a request makes when it goes all the way to renewal. */
  function RenewalTrace(b: LoginBody): seq<Call>
    requires AllGiven(b)
  {
    [AuthenticateCall(b.username.value, b.password.value, b.totpCode.value),
     PasswordCall(b.username.value), TotpCall(b.username.value)]
  }

  /** `POST(request)`; `body` is `Err` when `request.json()` or the
      destructuring throws. Every status is one of four, a 500 never carries
      the thrown text, and the calls made are always the first calls of the
      renewal sequence, in that order. */
  function Post(body: Result<LoginBody>, authenticate: (string, string, string) -> Result<AuthResult>,
                generatePassword: string -> Result<Generated>, generateTotp: string -> Result<Generated>): (h: Handled)
    ensures h.response.status in {200, 400, 401, 500}
    ensures h.response.status == 500 ==> h.response.body == Message(InternalError)
    ensures body.Err? ==> h.response == Response(500, Message(InternalError))
    ensures h.response.status == 401 ==> h.response.body == Message(InvalidCredentials)
    ensures body.Ok? && AllGiven(body.value) ==> h.calls <= RenewalTrace(body.value) && |h.calls| >= 1
    ensures !(body.Ok? && AllGiven(body.value)) ==> h.calls == []
  {
    match body
    case Err(_) => Handled(Response(500, Message(InternalError)), [])
    case Ok(b) =>
      if !AllGiven(b) then Handled(Response(400, Message(FieldsRequired)), [])
      else
        var username := b.username.value;
        var trace := RenewalTrace(b);
        match authenticate(username, b.password.value, b.totpCode.value)
        case Err(_) => Handled(Response(500, Message(InternalError)), trace[..1])
        case Ok(auth) =>
          if auth.expired then
            match generatePassword(username)
            case Err(_) => Handled(Response(500, Message(InternalError)), trace[..2])
            case Ok(passwordResponse) =>
              match generateTotp(username)
              case Err(_) => Handled(Response(500, Message(InternalError)), trace)
              case Ok(totpResponse) =>
                Handled(Response(200, Renewed(passwordResponse.qrCode, totpResponse.qrCode)), trace)
          else if !auth.success then Handled(Response(401, Message(InvalidCredentials)), trace[..1])
          else Handled(Response(200, LoggedIn(username)), trace[..1])
  }

  /** A 500 happens exactly when something threw: the body could not be read,
      or one of the awaited backend calls threw (for a renewal, either
      generator, the password generator being called first). */
  lemma ThrownGives500(b: LoginBody, authenticate: (string, string, string) -> Result<AuthResult>,
                       generatePassword: string -> Result<Generated>, generateTotp: string -> Result<Generated>)
    requires AllGiven(b)
    ensures var u := b.username.value;
      var auth := authenticate(u, b.password.value, b.totpCode.value);
      Post(Ok(b), authenticate, generatePassword, generateTotp).response.status == 500 <==>
        (auth.Err? ||
         (auth.value.expired && (generatePassword(u).Err? || generateTotp(u).Err?)))
    ensures var u := b.username.value;
      var auth := authenticate(u, b.password.value, b.totpCode.value);
      auth.Ok? && auth.value.expired && generatePassword(u).Err? ==>
        Post(Ok(b), authenticate, generatePassword, generateTotp).calls == RenewalTrace(b)[..2]
  {
  }

  /** A missing or empty field gives 400 and no backend is called. */
  lemma MissingFieldGives400(b: LoginBody, authenticate: (string, string, string) -> Result<AuthResult>,
                             generatePassword: string -> Result<Generated>, generateTotp: string -> Result<Generated>)
    requires !AllGiven(b)
    ensures Post(Ok(b), authenticate, generatePassword, generateTotp)
              == Handled(Response(400, Message(FieldsRequired)), [])
  {
  }

  /** Expiry is tested first: an expired result never gives the plain success
      shape, and when both generators answer it is the renewal with their two
      QR strings, generate-password called before generate-TOTP. */
  lemma ExpiredRenews(b: LoginBody, authenticate: (string, string, string) -> Result<AuthResult>,
                      generatePassword: string -> Result<Generated>, generateTotp: string -> Result<Generated>)
    requires AllGiven(b)
    requires var r := authenticate(b.username.value, b.password.value, b.totpCode.value); r.Ok? && r.value.expired
    ensures !Post(Ok(b), authenticate, generatePassword, generateTotp).response.body.LoggedIn?
    ensures generatePassword(b.username.value).Ok? && generateTotp(b.username.value).Ok? ==>
      Post(Ok(b), authenticate, generatePassword, generateTotp)
        == Handled(Response(200, Renewed(generatePassword(b.username.value).value.qrCode,
                                         generateTotp(b.username.value).value.qrCode)),
                   RenewalTrace(b))
  {
  }

  /** A rejection that is not an expiry gives 401 with the same message
      whichever field was wrong, and nothing is generated. */
  lemma RejectedGives401(b: LoginBody, authenticate: (string, string, string) -> Result<AuthResult>,
                         generatePassword: string -> Result<Generated>, generateTotp: string -> Result<Generated>)
    requires AllGiven(b)
    requires authenticate(b.username.value, b.password.value, b.totpCode.value) == Ok(AuthResult(false, false))
    ensures Post(Ok(b), authenticate, generatePassword, generateTotp)
              == Handled(Response(401, Message(InvalidCredentials)), [AuthenticateCall(b.username.value, b.password.value, b.totpCode.value)])
  {
  }

  /** A non-expired success echoes the request's username. */
  lemma SuccessEchoesUsername(b: LoginBody, authenticate: (string, string, string) -> Result<AuthResult>,
                              generatePassword: string -> Result<Generated>, generateTotp: string -> Result<Generated>)
    requires AllGiven(b)
    requires authenticate(b.username.value, b.password.value, b.totpCode.value) == Ok(AuthResult(true, false))
    ensures Post(Ok(b), authenticate, generatePassword, generateTotp).response
              == Response(200, LoggedIn(b.username.value))
  {
  }

  /** The simulated `authenticateUser`: always `success: true`; `expired` is
      the outcome of `Math.random() > 0.7`. */
  function SimAuthenticate(expired: bool): (string, string, string) -> Result<AuthResult>
  {
    (username: string, password: string, totpCode: string) => Ok(AuthResult(true, expired))
  }

  /** The route as shipped, wired to its simulated backends. */
  function PostSimulated(body: Result<LoginBody>, expired: bool): Handled
  {
    Post(body, SimAuthenticate(expired), (u: string) => Ok(SimGeneratePassword(u)), (u: string) => Ok(SimGenerateTotp(u)))
  }

  /** With the simulated backends 401 cannot happen, and a renewal carries two
      different QR strings for the requested username. */
  lemma SimulatedNever401(body: Result<LoginBody>, expired: bool)
    ensures PostSimulated(body, expired).response.status != 401
    ensures body.Ok? && AllGiven(body.value) ==>
      var u := body.value.username.value;
      PostSimulated(body, expired).response.body ==
        (if expired then Renewed(SimGeneratePassword(u).qrCode, SimGenerateTotp(u).qrCode) else LoggedIn(u))
    ensures PostSimulated(body, expired).response.body.Renewed? ==>
      PostSimulated(body, expired).response.body.passwordQr != PostSimulated(body, expired).response.body.totpQr
  {
    if body.Ok? && AllGiven(body.value) {
      SimulatedUrisDiffer(body.value.username.value);
    }
  }
}
