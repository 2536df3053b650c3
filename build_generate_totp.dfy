/** The build copy of `generate-totp`. It shares the update-or-insert with
    the top-level copy and returns the QR image of the provisioning URI,
    rendered before the key is read. */
module BuildGenerateTotp {
  import opened Wrappers
  import opened Oracles
  import opened Users
  import opened GenerateTotp

  /** `handle`: validate, draw the secret, build the URI, render its QR image,
      read the key, encrypt, update or insert, and return the image as `qrCode`. */
  method Handle(db: UserStore, username: Result<Option<string>>, secret: string,
                key: Result<string>, dbFault: Option<string>, now: int, libs: Libs) returns (reply: GenReply)
    modifies db
    ensures var image := if username.Ok? && username.value.Some?
                         then libs.qrImage(TotpUri(libs, username.value.value, secret)) else "";
      var o := SaveSecret(old(db.users), username, secret, image, key, dbFault, now, libs);
      reply == o.reply && db.users == o.users
  {
    if username.Err? {
      return GenFailure(username.message);
    }
    var name := username.value;
    if !Truthy(name) {
      return GenFailure(UsernameRequired);
    }
    var uri := TotpUri(libs, name.value, secret);
    var qrCode := libs.qrImage(uri);
    if key.Err? {
      return GenFailure(key.message);
    }
    if key.value == "" {
      return GenFailure(KeyNotConfigured);
    }
    var token := libs.encrypt(key.value, secret);
    if token.Err? {
      return GenFailure(token.message);
    }
    if dbFault.Some? {
      return GenFailure(dbFault.value);
    }
    var row := db.Find(name.value);
    if row.Some? {
      db.UpdateMfa(name.value, token.value, now);
    } else {
      db.InsertWithMfa(name.value, token.value, now);
    }
    return GenSuccess(name.value, qrCode);
  }

  /** The image returned on success is that of the URI for this username and
      for the very secret whose token was stored. */
  lemma ImageOfStoredSecret(users: Table, name: string, secret: string, key: string, now: int, libs: Libs)
    requires name != "" && RoundTrips(libs, key)
    ensures var image := libs.qrImage(TotpUri(libs, name, secret));
      var o := SaveSecret(users, Ok(Some(name)), secret, image, Ok(key), None, now, libs);
      (o.reply.GenSuccess? ==>
         o.reply.qrCode == image && name in o.users && o.users[name].mfa.Some? &&
         libs.decrypt(key, o.users[name].mfa.value) == Some(secret)) &&
      (key == "" ==> o == Step(GenFailure(KeyNotConfigured), users))
  {

  }
}
