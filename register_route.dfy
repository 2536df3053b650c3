/** `POST /api/register`: validate username and email, then call the
    password generator and the TOTP generator and return both QR strings.
    `company` is destructured by nobody. */
module RegisterRoute {
  import opened Wrappers
  import opened Api

  const FieldsRequired := "Le nom d'utilisateur et l'email sont requis"
  const InternalError := "Une erreur est survenue lors de l'inscription"

  /** The request body; `company` is optional. */
  datatype RegisterBody = RegisterBody(username: Option<string>, email: Option<string>, company: Option<string>)

  predicate BothGiven(b: RegisterBody)
  {
    Truthy(b.username) && Truthy(b.email)
  }

  /** `POST(request)`; `body` is `Err` when `request.json()` or the
      destructuring throws. A 500 never carries the thrown text and the calls
      made are the first calls of "password, then TOTP" for the username. */
  function Post(body: Result<RegisterBody>, generatePassword: string -> Result<Generated>,
                generateTotp: string -> Result<Generated>): (h: Handled)
    ensures h.response.status in {200, 400, 500}
    ensures h.response.status == 500 ==> h.response.body == Message(InternalError)
    ensures body.Err? ==> h.response == Response(500, Message(InternalError))
    ensures body.Ok? && BothGiven(body.value) ==>
      h.calls <= [PasswordCall(body.value.username.value), TotpCall(body.value.username.value)] && |h.calls| >= 1
    ensures !(body.Ok? && BothGiven(body.value)) ==> h.calls == []
  {
    match body
    case Err(_) => Handled(Response(500, Message(InternalError)), [])
    case Ok(b) =>
      if !BothGiven(b) then Handled(Response(400, Message(FieldsRequired)), [])
      else
        var username := b.username.value;
        match generatePassword(username)
        case Err(_) => Handled(Response(500, Message(InternalError)), [PasswordCall(username)])
        case Ok(passwordResponse) =>
          match generateTotp(username)
          case Err(_) => Handled(Response(500, Message(InternalError)), [PasswordCall(username), TotpCall(username)])
          case Ok(totpResponse) =>
            Handled(Response(200, Registered(username, passwordResponse.qrCode, totpResponse.qrCode)),
                    [PasswordCall(username), TotpCall(username)])
  }

  /** A 500 happens exactly when something threw: the body could not be read,
      or one of the two generators threw; a throwing password generator
      stops before the TOTP generator is called. */
  lemma ThrownGives500(b: RegisterBody, generatePassword: string -> Result<Generated>,
                       generateTotp: string -> Result<Generated>)
    requires BothGiven(b)
    ensures var u := b.username.value;
      Post(Ok(b), generatePassword, generateTotp).response.status == 500 <==>
        (generatePassword(u).Err? || generateTotp(u).Err?)
    ensures var u := b.username.value;
      generatePassword(u).Err? ==> Post(Ok(b), generatePassword, generateTotp).calls == [PasswordCall(u)]
  {
  }

  /** A missing username or email gives 400 and neither generator is called. */
  lemma MissingFieldGives400(b: RegisterBody, generatePassword: string -> Result<Generated>,
                             generateTotp: string -> Result<Generated>)
    requires !BothGiven(b)
    ensures Post(Ok(b), generatePassword, generateTotp) == Handled(Response(400, Message(FieldsRequired)), [])
  {
  }

  /** The response and the calls do not depend on `company`. */
  lemma CompanyIgnored(b: RegisterBody, company: Option<string>, generatePassword: string -> Result<Generated>,
                       generateTotp: string -> Result<Generated>)
    ensures Post(Ok(b), generatePassword, generateTotp) == Post(Ok(b.(company := company)), generatePassword, generateTotp)
  {
  }

  /** When both generators answer, the response carries the username and
      their two QR strings, the password generator called first. */
  lemma RegistersBoth(b: RegisterBody, generatePassword: string -> Result<Generated>,
                      generateTotp: string -> Result<Generated>)
    requires BothGiven(b)
    requires generatePassword(b.username.value).Ok? && generateTotp(b.username.value).Ok?
    ensures Post(Ok(b), generatePassword, generateTotp) ==
      Handled(Response(200, Registered(b.username.value, generatePassword(b.username.value).value.qrCode,
                                       generateTotp(b.username.value).value.qrCode)),
              [PasswordCall(b.username.value), TotpCall(b.username.value)])
  {
  }

  /** The route as shipped, wired to its simulated generators. */
  function PostSimulated(body: Result<RegisterBody>): Handled
  {
    Post(body, (u: string) => Ok(SimGeneratePassword(u)), (u: string) => Ok(SimGenerateTotp(u)))
  }

  /** With the simulated generators every valid request registers, with two
      different QR strings that depend on the username only. */
  lemma SimulatedRegistration(b: RegisterBody)
    requires BothGiven(b)
    ensures var u := b.username.value;
      PostSimulated(Ok(b)).response ==
        Response(200, Registered(u, SimGeneratePassword(u).qrCode, SimGenerateTotp(u).qrCode))
    ensures PostSimulated(Ok(b)).response.body.passwordQr != PostSimulated(Ok(b)).response.body.totpQr
  {

  }
}
