/** What the two Next.js API routes have in common: the JSON bodies they send,
    the trace of backend calls a request makes, and the simulated
    generate-password and generate-TOTP backends, which both route files
    define identically. */
module Api {
  import opened Wrappers

  /** The JSON bodies the routes answer with; an optional QR field is
      `undefined` (and so dropped) when the backend result had none. */
  datatype Body =
    | Message(message: string)
    | LoggedIn(username: string)
    | Renewed(passwordQr: Option<string>, totpQr: Option<string>)
    | Registered(username: string, passwordQr: Option<string>, totpQr: Option<string>)

  datatype Response = Response(status: int, body: Body)

  /** One awaited call to a backend function, with its arguments. */
  datatype Call =
    | AuthenticateCall(username: string, password: string, totpCode: string)
    | PasswordCall(username: string)
    | TotpCall(username: string)

  /** The route's response and the backend calls it made, in order. */
  datatype Handled = Handled(response: Response, calls: seq<Call>)

  /** `{success, qrCode}` as a generator returns it; the routes never read `success`. */
  datatype Generated = Generated(success: bool, qrCode: Option<string>)

  const UriPrefix := "otpauth://totp/COFRAP:"
  const PasswordSecret := "JBSWY3DPEHPK3PXP"
  const TotpSecret := "HXDMVJECJJWSRB3HWIZR4IFUGFTMXBOZ"

  /** The template string both simulated generators fill in. */
  function SimulatedUri(username: string, secret: string): (uri: string)
  {
    UriPrefix + username + "?secret=" + secret + "&issuer=COFRAP&algorithm=SHA1&digits=6&period=30"
  }

  /** The simulated `generatePassword(username)`. */
  function SimGeneratePassword(username: string): Generated
  {
    Generated(true, Some(SimulatedUri(username, PasswordSecret)))
  }

  /** The simulated `generateTOTP(username)`. */
  function SimGenerateTotp(username: string): Generated
  {
    Generated(true, Some(SimulatedUri(username, TotpSecret)))
  }

  /** Both simulated QR strings start with `otpauth://totp/COFRAP:<username>`,
      are determined by the username, and differ from each other (their
      secrets differ in the first character). */
  lemma SimulatedUrisDiffer(username: string)
    ensures SimGeneratePassword(username).qrCode.Some? && SimGenerateTotp(username).qrCode.Some?
    ensures UriPrefix + username <= SimGeneratePassword(username).qrCode.value
    ensures UriPrefix + username <= SimGenerateTotp(username).qrCode.value
    ensures SimGeneratePassword(username).qrCode != SimGenerateTotp(username).qrCode
  {

  }
}
