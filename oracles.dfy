/** The library calls the OpenFaaS handlers depend on. Their internals (Fernet,
    pyotp, qrcode with base64) are not modelled: each is a given function. */
module Oracles {
  import opened Wrappers

  datatype Libs = Libs(
    /** `Fernet(key).encrypt(data)`; `Err` when Fernet raises (a malformed key). */
    encrypt: (string, string) -> Result<string>,
    /** `Fernet(key).decrypt(token)`; `None` when it raises (bad key or token). */
    decrypt: (string, string) -> Option<string>,
    /** `pyotp.TOTP(secret).verify(code)`. */
    verifyTotp: (string, string) -> bool,
    /** `pyotp.TOTP(secret).provisioning_uri(name=username, issuer_name=issuer)`. */
    provisioningUri: (string, string, string) -> string,
    /** `generate_qr_code(data)`: a `data:image/png;base64,...` URI of the QR image. */
    qrImage: string -> string)

  /** The issuer name both TOTP handlers pass to `provisioning_uri`. */
  const Issuer := "COFRAP"

  const KeyNotConfigured := "Clé de chiffrement non configurée"

  /** Fernet's promise for one key: what it encrypts it decrypts back. */
  ghost predicate RoundTrips(libs: Libs, key: string)
  {
    forall data :: libs.encrypt(key, data).Ok? ==>
      libs.decrypt(key, libs.encrypt(key, data).value) == Some(data)
  }
}
