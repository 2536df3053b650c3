/** The build copy of `generate-password`. It shares the generator and the
    update-or-insert with the top-level copy; it differs in returning the QR
    image of the password (computed before the key is read) and in taking the
    database password from the environment, which is not modelled. */
module BuildGeneratePassword {
  import opened Wrappers
  import opened Oracles
  import opened Users
  import opened GeneratePassword

  /** `handle`: validate, generate, render the QR image, read the key,
      encrypt, update or insert, and return the image as `qrCode`. */
  method Handle(db: UserStore, username: Result<Option<string>>, picks: seq<nat>, swaps: seq<nat>,
                key: Result<string>, dbFault: Option<string>, now: int, libs: Libs) returns (reply: GenReply)
    requires ValidPicks(DefaultLength, picks) && ValidSwaps(|picks|, swaps)
    modifies db
    ensures var password := Generated(DefaultLength, picks, swaps);
      var o := SavePassword(old(db.users), username, password, libs.qrImage(password), key, dbFault, now, libs);
      reply == o.reply && db.users == o.users
  {
    if username.Err? {
      return GenFailure(username.message);
    }
    var name := username.value;
    if !Truthy(name) {
      return GenFailure(UsernameRequired);
    }
    var password := Generate(DefaultLength, picks, swaps);
    var qrCode := libs.qrImage(password);
    if key.Err? {
      return GenFailure(key.message);
    }
    if key.value == "" {
      return GenFailure(KeyNotConfigured);
    }
    var token := libs.encrypt(key.value, password);
    if token.Err? {
      return GenFailure(token.message);
    }
    if dbFault.Some? {
      return GenFailure(dbFault.value);
    }
    var row := db.Find(name.value);
    if row.Some? {
      db.UpdatePassword(name.value, token.value, now);
    } else {
      db.InsertWithPassword(name.value, token.value, now);
    }
    return GenSuccess(name.value, qrCode);
  }

  /** The image returned on success is rendered from the very password whose
      token was stored; a missing key fails with the table unchanged although
      the image was already rendered. */
  lemma ImageOfStoredPassword(users: Table, name: string, picks: seq<nat>, swaps: seq<nat>,
                              key: string, now: int, libs: Libs)
    requires ValidPicks(DefaultLength, picks) && ValidSwaps(|picks|, swaps)
    requires name != "" && RoundTrips(libs, key)
    ensures var password := Generated(DefaultLength, picks, swaps);
      var o := SavePassword(users, Ok(Some(name)), password, libs.qrImage(password), Ok(key), None, now, libs);
      (o.reply.GenSuccess? ==>
         o.reply.qrCode == libs.qrImage(password) && name in o.users &&
         libs.decrypt(key, o.users[name].password) == Some(password)) &&
      (key == "" ==> o == Step(GenFailure(KeyNotConfigured), users))
  {

  }
}
