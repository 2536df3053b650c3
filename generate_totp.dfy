/** The top-level `generate_totp` OpenFaaS function: a fresh TOTP secret,
    encrypted and upserted into the `mfa` column, returned as a provisioning
    URI. The upsert is shared with the build copy of the function. */
module GenerateTotp {
  import opened Wrappers
  import opened Oracles
  import opened Users

  /** The request handling both generate-totp copies share, from the parsed
      request on (`username`, `key` and `dbFault` as for generate-password).
      `secret` is the outcome of `pyotp.random_base32()`; `qrCode` is what the
      copy returns for the provisioning URI. */
  function SaveSecret(users: Table, username: Result<Option<string>>, secret: string, qrCode: string,
                      key: Result<string>, dbFault: Option<string>, now: int, libs: Libs): (o: Step<GenReply>)
  {
    match username
    case Err(e) => Step(GenFailure(e), users)
    case Ok(name) =>
      if !Truthy(name) then Step(GenFailure(UsernameRequired), users)
      else match key
        case Err(e) => Step(GenFailure(e), users)
        case Ok(k) =>
          if k == "" then Step(GenFailure(KeyNotConfigured), users)
          else match libs.encrypt(k, secret)
            case Err(e) => Step(GenFailure(e), users)
            case Ok(token) =>
              if dbFault.Some? then Step(GenFailure(dbFault.value), users)
              else Step(GenSuccess(name.value, qrCode), UpsertMfa(users, name.value, token, now))
  }

  /** `generate_totp_uri(username, secret)`. */
  function TotpUri(libs: Libs, username: string, secret: string): (uri: string)
  {
    libs.provisioningUri(username, secret, Issuer)
  }

  /** `handle`: validate, draw the secret, build the URI, read the key,
      encrypt, update or insert, and return the URI as `qrCode`. */
  method Handle(db: UserStore, username: Result<Option<string>>, secret: string,
                key: Result<string>, dbFault: Option<string>, now: int, libs: Libs) returns (reply: GenReply)
    modifies db
    ensures var uri := if username.Ok? && username.value.Some? then TotpUri(libs, username.value.value, secret) else "";
      var o := SaveSecret(old(db.users), username, secret, uri, key, dbFault, now, libs);
      reply == o.reply && db.users == o.users
  {
    if username.Err? {
      return GenFailure(username.message);
    }
    var name := username.value;
    if !Truthy(name) {
      return GenFailure(UsernameRequired);
    }
    var uri := TotpUri(libs, name.value, secret);
    if key.Err? {
      return GenFailure(key.message);
    }
    if key.value == "" {
      return GenFailure(KeyNotConfigured);
    }
    var token := libs.encrypt(key.value, secret);
    if token.Err? {
      return GenFailure(token.message);
    }
    if dbFault.Some? {
      return GenFailure(dbFault.value);
    }
    var row := db.Find(name.value);
    if row.Some? {
      db.UpdateMfa(name.value, token.value, now);
    } else {
      db.InsertWithMfa(name.value, token.value, now);
    }
    return GenSuccess(name.value, uri);
  }

  /** Every failure leaves the table unchanged; every success is the
      update-or-insert of the encrypted secret under the requested name. */
  lemma SaveSecretEffect(users: Table, username: Result<Option<string>>, secret: string, qrCode: string,
                         key: Result<string>, dbFault: Option<string>, now: int, libs: Libs)
    ensures var o := SaveSecret(users, username, secret, qrCode, key, dbFault, now, libs);
      (o.reply.GenFailure? ==> o.users == users) &&
      (username.Err? ==> o.reply == GenFailure(username.message)) &&
      (username.Ok? && Truthy(username.value) && key.Err? ==> o.reply == GenFailure(key.message)) &&
      ((username.Ok? && Truthy(username.value) && key.Ok? && key.value != "" &&
        libs.encrypt(key.value, secret).Err?) ==> o.reply == GenFailure(libs.encrypt(key.value, secret).message)) &&
      ((username.Ok? && Truthy(username.value) && key.Ok? && key.value != "" &&
        libs.encrypt(key.value, secret).Ok? && dbFault.Some?) ==> o.reply == GenFailure(dbFault.value)) &&
      (o.reply.GenSuccess? <==>
         username.Ok? && Truthy(username.value) && key.Ok? && key.value != "" &&
         libs.encrypt(key.value, secret).Ok? && dbFault.None?) &&
      (o.reply.GenSuccess? ==>
         o.reply.username == username.value.value && o.reply.qrCode == qrCode &&
         o.users == UpsertMfa(users, username.value.value, libs.encrypt(key.value, secret).value, now))
  {
  }

  /** On success the URI returned is the one for this username and for the
      very secret whose token was stored; an existing row keeps its password,
      a new row gets the empty one, and other rows are untouched. */
  lemma UriOfStoredSecret(users: Table, name: string, secret: string, key: string, now: int, libs: Libs)
    requires RoundTrips(libs, key)
    requires SaveSecret(users, Ok(Some(name)), secret, TotpUri(libs, name, secret), Ok(key), None, now, libs).reply.GenSuccess?
    ensures var o := SaveSecret(users, Ok(Some(name)), secret, TotpUri(libs, name, secret), Ok(key), None, now, libs);
      name in o.users && o.users[name].mfa.Some? &&
      libs.decrypt(key, o.users[name].mfa.value) == Some(secret) &&
      o.reply.qrCode == TotpUri(libs, o.reply.username, secret) && o.reply.username == name &&
      o.users[name].gendate == now && !o.users[name].expired &&
      o.users[name].password == (if name in users then users[name].password else "") &&
      (forall n :: n in users && n != name ==> o.users[n] == users[n])
  {

  }
}
