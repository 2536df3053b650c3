/** The `authenticate` OpenFaaS function: a fixed ladder of early returns over
    one user row, whose only write marks stale credentials as expired. */
module Authenticate {
  import opened Wrappers
  import opened Oracles
  import opened Users

  /** `timedelta(days=180)` in seconds. */
  const ExpirySeconds := 180 * 86400

  const FieldsRequired := "Tous les champs sont requis"
  const UserNotFound := "Utilisateur non trouvé"
  const DecryptionFailed := "Erreur de déchiffrement"
  const WrongPassword := "Mot de passe incorrect"
  const WrongCode := "Code d'authentification incorrect"

  /** `check_expiration`: more than 180 days have passed since `gendate`
      (both in whole seconds). */
  predicate CheckExpiration(gendate: int, now: int)
  {
    now > gendate + ExpirySeconds
  }

  /** The fields of the JSON request; `None` for a missing key. */
  datatype LoginRequest = LoginRequest(username: Option<string>, password: Option<string>, totpCode: Option<string>)

  /** `{success: false, message}`, `{success: true, expired: true}`, or
      `{success: true, username, expired: false}`. */
  datatype AuthReply = Denied(message: string) | Expired | Granted(username: string)

  predicate AllFieldsGiven(req: LoginRequest)
  {
    Truthy(req.username) && Truthy(req.password) && Truthy(req.totpCode)
  }

  /** `decrypt_data` on a column that may be NULL: decrypting NULL raises. */
  function DecryptColumn(libs: Libs, key: string, token: Option<string>): Option<string>
  {
    if token.Some? then libs.decrypt(key, token.value) else None
  }

  /** `handle` as a function of the table before the call. `request` is `Err`
      when `json.loads` raises; `key` is `ENCRYPTION_KEY` from the environment;
      `dbFault` is the message of an exception from connecting. */
  function Evaluate(users: Table, request: Result<LoginRequest>, key: Option<string>,
                    dbFault: Option<string>, now: int, libs: Libs): (o: Step<AuthReply>)
  {
    match request
    case Err(e) => Step(Denied(e), users)
    case Ok(req) =>
      if !AllFieldsGiven(req) then Step(Denied(FieldsRequired), users)
      else if !Truthy(key) then Step(Denied(KeyNotConfigured), users)
      else if dbFault.Some? then Step(Denied(dbFault.value), users)
      else
        var name := req.username.value;
        if name !in users then Step(Denied(UserNotFound), users)
        else
          var row := users[name];
          if row.expired then Step(Expired, users)
          else if CheckExpiration(row.gendate, now) then Step(Expired, MarkExpired(users, name))
          else
            var password := libs.decrypt(key.value, row.password);
            var secret := DecryptColumn(libs, key.value, row.mfa);
            if password.None? || secret.None? then Step(Denied(DecryptionFailed), users)
            else if req.password.value != password.value then Step(Denied(WrongPassword), users)
            else if !libs.verifyTotp(secret.value, req.totpCode.value) then Step(Denied(WrongCode), users)
            else Step(Granted(name), users)
  }

  /** `handle`, issuing its one possible write through the store. */
  method Handle(db: UserStore, request: Result<LoginRequest>, key: Option<string>,
                dbFault: Option<string>, now: int, libs: Libs) returns (reply: AuthReply)
    modifies db
    ensures reply == Evaluate(old(db.users), request, key, dbFault, now, libs).reply
    ensures db.users == Evaluate(old(db.users), request, key, dbFault, now, libs).users
  {
    if request.Err? {
      return Denied(request.message);
    }
    var req := request.value;
    if !Truthy(req.username) || !Truthy(req.password) || !Truthy(req.totpCode) {
      return Denied(FieldsRequired);
    }
    if !Truthy(key) {
      return Denied(KeyNotConfigured);
    }
    if dbFault.Some? {
      return Denied(dbFault.value);
    }
    var name := req.username.value;
    var row := db.Find(name);
    if row.None? {
      return Denied(UserNotFound);
    }
    var user := row.value;
    if user.expired {
      return Expired;
    }
    if CheckExpiration(user.gendate, now) {
      db.SetExpired(name);
      return Expired;
    }
    var password := libs.decrypt(key.value, user.password);
    var secret := DecryptColumn(libs, key.value, user.mfa);
    if password.None? || secret.None? {
      return Denied(DecryptionFailed);
    }
    if req.password.value != password.value {
      return Denied(WrongPassword);
    }
    if !libs.verifyTotp(secret.value, req.totpCode.value) {
      return Denied(WrongCode);
    }
    return Granted(name);
  }

  /** Credentials are still valid at exactly 180 days, expired one second
      later, and stay expired from then on. */
  lemma ExpiryBoundary(gendate: int, now: int, later: int)
    requires now <= later
    ensures !CheckExpiration(gendate, gendate + ExpirySeconds)
    ensures CheckExpiration(gendate, gendate + ExpirySeconds + 1)
    ensures CheckExpiration(gendate, now) ==> CheckExpiration(gendate, later)
  {
  }

  /** A missing or empty field is refused before the key or the table is
      consulted: the answer and the table are the same whatever the table. */
  lemma MissingFieldRefused(req: LoginRequest, key: Option<string>, dbFault: Option<string>, now: int, libs: Libs)
    requires !AllFieldsGiven(req)
    ensures forall t: Table :: Evaluate(t, Ok(req), key, dbFault, now, libs) == Step(Denied(FieldsRequired), t)
  {
  }

  /** An exception reaches the caller as a failure carrying its message, with
      the table unchanged: a request that is not JSON, or a failed connection
      once the fields and the key have passed. */
  lemma ExceptionReported(users: Table, req: LoginRequest, e: string, key: Option<string>,
                          fault: string, now: int, libs: Libs)
    ensures Evaluate(users, Err(e), key, None, now, libs) == Step(Denied(e), users)
    ensures AllFieldsGiven(req) && Truthy(key) ==>
      Evaluate(users, Ok(req), key, Some(fault), now, libs) == Step(Denied(fault), users)
  {
  }

  /** A missing key is refused before the table is consulted. */
  lemma MissingKeyRefused(req: LoginRequest, key: Option<string>, dbFault: Option<string>, now: int, libs: Libs)
    requires AllFieldsGiven(req) && !Truthy(key)
    ensures forall t: Table :: Evaluate(t, Ok(req), key, dbFault, now, libs) == Step(Denied(KeyNotConfigured), t)
  {
  }

  /** An unknown username is refused and nothing is written. */
  lemma UnknownUserRefused(users: Table, req: LoginRequest, key: Option<string>, now: int, libs: Libs)
    requires AllFieldsGiven(req) && Truthy(key)
    requires req.username.value !in users
    ensures Evaluate(users, Ok(req), key, None, now, libs) == Step(Denied(UserNotFound), users)
  {
  }

  /** A row already flagged expired answers `expired` whatever password and
      code are given and whatever the libraries would say: neither is checked. */
  lemma FlaggedRowIsExpired(users: Table, req: LoginRequest, key: Option<string>, now: int, libs: Libs)
    requires AllFieldsGiven(req) && Truthy(key)
    requires req.username.value in users && users[req.username.value].expired
    ensures Evaluate(users, Ok(req), key, None, now, libs) == Step(Expired, users)
  {
  }

  /** A stale row is flagged (that row only) and the answer is `expired`. */
  lemma StaleRowFlagged(users: Table, req: LoginRequest, key: Option<string>, now: int, libs: Libs)
    requires AllFieldsGiven(req) && Truthy(key)
    requires req.username.value in users
    requires !users[req.username.value].expired && CheckExpiration(users[req.username.value].gendate, now)
    ensures Evaluate(users, Ok(req), key, None, now, libs) == Step(Expired, MarkExpired(users, req.username.value))
  {
  }

  /** The flag is the only write: every call leaves the table as it was or
      flags the requested user's row, and the latter only when it answers `expired`. */
  lemma OnlyWriteIsExpiryFlag(users: Table, request: Result<LoginRequest>, key: Option<string>,
                              dbFault: Option<string>, now: int, libs: Libs)
    ensures var o := Evaluate(users, request, key, dbFault, now, libs);
      o.users == users ||
      (request.Ok? && request.value.username.Some? && request.value.username.value in users &&
       o.reply == Expired && o.users == MarkExpired(users, request.value.username.value))
  {
  }

  /** Calling again with the same inputs on the table the first call left gives
      the same answer and the same table: the expiry write is idempotent. */
  lemma Idempotent(users: Table, request: Result<LoginRequest>, key: Option<string>,
                   dbFault: Option<string>, now: int, libs: Libs)
    ensures var o := Evaluate(users, request, key, dbFault, now, libs);
      Evaluate(o.users, request, key, dbFault, now, libs) == o
  {

  }

  /** Access is granted exactly when the row exists, is neither flagged nor
      stale, both columns decrypt, the password matches and the code verifies. */
  lemma GrantedExactly(users: Table, req: LoginRequest, key: Option<string>, dbFault: Option<string>,
                       now: int, libs: Libs)
    ensures var o := Evaluate(users, Ok(req), key, dbFault, now, libs);
      o.reply.Granted? <==>
        (AllFieldsGiven(req) && Truthy(key) && dbFault.None? &&
         var name := req.username.value;
         name in users && !users[name].expired && !CheckExpiration(users[name].gendate, now) &&
         libs.decrypt(key.value, users[name].password) == Some(req.password.value) &&
         DecryptColumn(libs, key.value, users[name].mfa).Some? &&
         libs.verifyTotp(DecryptColumn(libs, key.value, users[name].mfa).value, req.totpCode.value))
    ensures var o := Evaluate(users, Ok(req), key, dbFault, now, libs);
      o.reply.Granted? ==> o.reply.username == req.username.value && o.users == users
  {
  }

  /** A password mismatch is reported whatever the TOTP check would say. */
  lemma PasswordCheckedBeforeCode(users: Table, req: LoginRequest, key: Option<string>, now: int,
                                  libs: Libs, other: Libs)
    requires AllFieldsGiven(req) && Truthy(key)
    requires req.username.value in users
    requires var row := users[req.username.value];
      !row.expired && !CheckExpiration(row.gendate, now) &&
      libs.decrypt(key.value, row.password).Some? &&
      libs.decrypt(key.value, row.password).value != req.password.value &&
      DecryptColumn(libs, key.value, row.mfa).Some?
    requires other == libs.(verifyTotp := other.verifyTotp)
    ensures Evaluate(users, Ok(req), key, None, now, libs) == Step(Denied(WrongPassword), users)
    ensures Evaluate(users, Ok(req), key, None, now, other) == Step(Denied(WrongPassword), users)
  {
  }

  /** Credentials as the two generators store them authenticate: after
      generate-password and then generate-totp for `name`, logging in within 180
      days of the second with the issued password and a code the TOTP check
      accepts for the issued secret is granted. */
  lemma ProvisionedCredentialsGranted(t: Table, name: string, password: string, secret: string,
                                      code: string, key: string, libs: Libs,
                                      first: int, second: int, now: int)
    requires name != "" && password != "" && code != "" && key != ""
    requires RoundTrips(libs, key)
    requires libs.encrypt(key, password).Ok? && libs.encrypt(key, secret).Ok?
    requires libs.verifyTotp(secret, code)
    requires now <= second + ExpirySeconds
    ensures var issued := UpsertMfa(UpsertPassword(t, name, libs.encrypt(key, password).value, first),
                                    name, libs.encrypt(key, secret).value, second);
      Evaluate(issued, Ok(LoginRequest(Some(name), Some(password), Some(code))), Some(key), None, now, libs)
        == Step(Granted(name), issued)
  {

  }
}
