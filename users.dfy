/** The PostgreSQL `users` table the OpenFaaS handlers share, keyed by username.
    Connections, cursors and SQL text are not modelled; each statement the
    handlers issue is one method of `UserStore`, and the combined effect of each
    handler's update-or-insert is one function on `Table`. */
module Users {
  import opened Wrappers

  /** One row: the Fernet token of the password, the Fernet token of the TOTP
      secret (`None` for SQL NULL: a row inserted by generate_password has no
      `mfa`), the generation time in seconds since the epoch, the expiry flag. */
  datatype UserRecord = UserRecord(password: string, mfa: Option<string>, gendate: int, expired: bool)

  type Table = map<string, UserRecord>

  /** What a handler returns, together with the table it leaves behind. */
  datatype Step<R> = Step(reply: R, users: Table)

  /** What the four generate handlers reply: `{success: false, message}` or
      `{success: true, username, qrCode}`. */
  datatype GenReply = GenFailure(message: string) | GenSuccess(username: string, qrCode: string)

  const UsernameRequired := "Le nom d'utilisateur est requis"

  /** `UPDATE users SET expired = TRUE` on the row of `name`. */
  function MarkExpired(t: Table, name: string): (r: Table)
    requires name in t
    ensures r.Keys == t.Keys
    ensures r[name].expired
    ensures r[name].password == t[name].password && r[name].mfa == t[name].mfa
    ensures r[name].gendate == t[name].gendate
    ensures forall n :: n in t && n != name ==> r[n] == t[n]
  {
    t[name := t[name].(expired := true)]
  }

  /** The update-or-insert of generate-password: an existing row gets the new
      password token, `gendate := now` and `expired := false` and keeps its
      `mfa`; a new row has no `mfa`. */
  function UpsertPassword(t: Table, name: string, token: string, now: int): (r: Table)
    ensures r.Keys == t.Keys + {name}
    ensures r[name].password == token && r[name].gendate == now && !r[name].expired
    ensures r[name].mfa == if name in t then t[name].mfa else None
    ensures forall n :: n in t && n != name ==> r[n] == t[n]
  {
    if name in t then t[name := t[name].(password := token, gendate := now, expired := false)]
    else t[name := UserRecord(token, None, now, false)]
  }

  /** The update-or-insert of generate-totp: an existing row gets the new
      secret token, `gendate := now` and `expired := false` and keeps its
      password; a new row gets the empty password. */
  function UpsertMfa(t: Table, name: string, token: string, now: int): (r: Table)
    ensures r.Keys == t.Keys + {name}
    ensures r[name].mfa == Some(token) && r[name].gendate == now && !r[name].expired
    ensures r[name].password == if name in t then t[name].password else ""
    ensures forall n :: n in t && n != name ==> r[n] == t[n]
  {
    if name in t then t[name := t[name].(mfa := Some(token), gendate := now, expired := false)]
    else t[name := UserRecord("", Some(token), now, false)]
  }

  /** The table in place. Every method is one SQL statement a handler issues
      (committed: the handlers commit before they return success). */
  class UserStore {
    var users: Table

    constructor (rows: Table)
      ensures users == rows
    {
      users := rows;
    }

    /** `SELECT ... FROM users WHERE username = %s` with `fetchone()`. */
    function Find(name: string): (r: Option<UserRecord>)
      reads this
      ensures r.Some? <==> name in users
      ensures r.Some? ==> r.value == users[name]
    {
      if name in users then Some(users[name]) else None
    }

    /** `UPDATE users SET expired = %s WHERE id = %s` with `True`. */
    method SetExpired(name: string)
      requires name in users
      modifies this
      ensures users == old(users)[name := old(users)[name].(expired := true)]
    {
      users := users[name := users[name].(expired := true)];
    }

    /** `UPDATE users SET password = %s, gendate = %s, expired = %s WHERE username = %s`. */
    method UpdatePassword(name: string, token: string, now: int)
      requires name in users
      modifies this
      ensures users == old(users)[name := old(users)[name].(password := token, gendate := now, expired := false)]
    {
      users := users[name := users[name].(password := token, gendate := now, expired := false)];
    }

    /** `INSERT INTO users (username, password, gendate, expired) VALUES (...)`. */
    method InsertWithPassword(name: string, token: string, now: int)
      requires name !in users
      modifies this
      ensures users == old(users)[name := UserRecord(token, None, now, false)]
    {
      users := users[name := UserRecord(token, None, now, false)];
    }

    /** `UPDATE users SET mfa = %s, gendate = %s, expired = %s WHERE username = %s`. */
    method UpdateMfa(name: string, token: string, now: int)
      requires name in users
      modifies this
      ensures users == old(users)[name := old(users)[name].(mfa := Some(token), gendate := now, expired := false)]
    {
      users := users[name := users[name].(mfa := Some(token), gendate := now, expired := false)];
    }

    /** `INSERT INTO users (username, password, mfa, gendate, expired)` with password `''`. */
    method InsertWithMfa(name: string, token: string, now: int)
      requires name !in users
      modifies this
      ensures users == old(users)[name := UserRecord("", Some(token), now, false)]
    {
      users := users[name := UserRecord("", Some(token), now, false)];
    }
  }
}
