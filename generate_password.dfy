/** The top-level `generate_password` OpenFaaS function: a random password
    with one character of each class, shuffled, encrypted and upserted. The
    generator and the upsert are shared with the build copy of the function. */
module GeneratePassword {
  import opened Wrappers
  import opened Oracles
  import opened Users

  const Lowercase := "abcdefghijklmnopqrstuvwxyz"
  const Uppercase := "ABCDEFGHIJKLMNOPQRSTUVWXYZ"
  const Digits := "0123456789"
  const Special := "!@#$%^&*()-_=+[]{}|;:,.<>?"
  const AllChars := Lowercase + Uppercase + Digits + Special

  /** The default of `generate_password(length=24)`, the only length the
      handlers use. */
  const DefaultLength := 24

  /** Four forced characters plus `range(length - 4)` more, which is empty
      when `length < 4`. */
  function PasswordSize(length: int): nat
  {
    4 + if length < 4 then 0 else length - 4
  }

  /** The outcomes of the `random.choice` calls, as indices: one in each class
      for the first four, one in the union for the rest. */
  predicate ValidPicks(length: int, picks: seq<nat>)
  {
    && |picks| == PasswordSize(length)
    && picks[0] < |Lowercase| && picks[1] < |Uppercase|
    && picks[2] < |Digits| && picks[3] < |Special|
    && forall k :: 4 <= k < |picks| ==> picks[k] < |AllChars|
  }

  /** The outcomes of `random.shuffle`: it swaps position `i` with a position
      `swaps[i] <= i`, for `i` from the last down to 1 (`swaps[0]` is unused). */
  predicate ValidSwaps(n: int, swaps: seq<nat>)
  {
    |swaps| == n && forall i :: 0 <= i < |swaps| ==> swaps[i] <= i
  }

  /** The list before shuffling. */
  function Drawn(length: int, picks: seq<nat>): (s: string)
    requires ValidPicks(length, picks)
  {
    [Lowercase[picks[0]], Uppercase[picks[1]], Digits[picks[2]], Special[picks[3]]]
      + seq(|picks| - 4, k requires 0 <= k < |picks| - 4 => AllChars[picks[k + 4]])
  }

  function Swap(s: string, i: nat, j: nat): string
    requires i < |s| && j < |s|
  {
    s[i := s[j]][j := s[i]]
  }

  /** `s` after the shuffle steps for positions `i - 1` down to 1. */
  function Shuffled(s: string, swaps: seq<nat>, i: nat): (r: string)
    requires i <= |s| && ValidSwaps(|s|, swaps)
    ensures |r| == |s|
    decreases i
  {
    if i <= 1 then s else Shuffled(Swap(s, i - 1, swaps[i - 1]), swaps, i - 1)
  }

  /** What `generate_password(length)` returns for the given random outcomes. */
  function Generated(length: int, picks: seq<nat>, swaps: seq<nat>): (password: string)
    requires ValidPicks(length, picks) && ValidSwaps(|picks|, swaps)
  {
    Shuffled(Drawn(length, picks), swaps, |picks|)
  }

  /** At least one lowercase letter, uppercase letter, digit and special character. */
  predicate HasEveryClass(s: string)
  {
    && (exists c :: c in s && c in Lowercase)
    && (exists c :: c in s && c in Uppercase)
    && (exists c :: c in s && c in Digits)
    && (exists c :: c in s && c in Special)
  }

  /** `generate_password(length)`: the list is built in place, then shuffled in place. */
  method Generate(length: int, picks: seq<nat>, swaps: seq<nat>) returns (password: string)
    requires ValidPicks(length, picks) && ValidSwaps(|picks|, swaps)
    ensures password == Generated(length, picks, swaps)
    ensures |password| == PasswordSize(length) && (length >= 4 ==> |password| == length)
    ensures multiset(password) == multiset(Drawn(length, picks))
    ensures HasEveryClass(password)
    ensures forall c :: c in password ==> c in AllChars
  {
    var n := |picks|;
    ghost var drawn := Drawn(length, picks);
    var a := new char[n];
    a[0], a[1], a[2], a[3] := Lowercase[picks[0]], Uppercase[picks[1]], Digits[picks[2]], Special[picks[3]];
    var k := 4;
    while k < n
      invariant 4 <= k <= n
      invariant a[..k] == drawn[..k]
    {
      DrawnAt(length, picks, k);
      a[k] := AllChars[picks[k]];
      k := k + 1;
    }
    assert a[..] == drawn;
    Shuffle(a, swaps);
    password := a[..];
    GeneratedWellFormed(length, picks, swaps);
  }

  /** `random.shuffle(x)`: for `i` from the last position down to 1, swap
      `x[i]` with `x[j]` for the drawn `j <= i`. */
  method Shuffle(a: array<char>, swaps: seq<nat>)
    requires ValidSwaps(a.Length, swaps)
    modifies a
    ensures a[..] == Shuffled(old(a[..]), swaps, a.Length)
  {
    var i := a.Length;
    while i > 1
      invariant 0 <= i <= a.Length
      invariant Shuffled(a[..], swaps, i) == Shuffled(old(a[..]), swaps, a.Length)
    {
      ghost var before := a[..];
      var j := swaps[i - 1];
      var t := a[i - 1];
      a[i - 1] := a[j];
      a[j] := t;
      assert a[..] == Swap(before, i - 1, j);
      i := i - 1;
    }
  }

  /** The positions of the list before shuffling. */
  lemma DrawnAt(length: int, picks: seq<nat>, k: nat)
    requires ValidPicks(length, picks) && k < |picks|
    ensures |Drawn(length, picks)| == |picks|
    ensures k == 0 ==> Drawn(length, picks)[k] == Lowercase[picks[0]]
    ensures k == 1 ==> Drawn(length, picks)[k] == Uppercase[picks[1]]
    ensures k == 2 ==> Drawn(length, picks)[k] == Digits[picks[2]]
    ensures k == 3 ==> Drawn(length, picks)[k] == Special[picks[3]]
    ensures k >= 4 ==> Drawn(length, picks)[k] == AllChars[picks[k]]
  {
  }

  lemma SwapPermutes(s: string, i: nat, j: nat)
    requires i < |s| && j < |s|
    ensures multiset(Swap(s, i, j)) == multiset(s)
  {
    if i != j {
      var t := s[i := s[j]];
      assert multiset(t) == multiset(s) - multiset{s[i]} + multiset{s[j]};
    }
  }

  /** The shuffle only reorders: every outcome is a permutation of its input. */
  lemma {:induction false} ShuffledPermutes(s: string, swaps: seq<nat>, i: nat)
    requires i <= |s| && ValidSwaps(|s|, swaps)
    ensures multiset(Shuffled(s, swaps, i)) == multiset(s)
    decreases i
  {
    if i > 1 {
      SwapPermutes(s, i - 1, swaps[i - 1]);
      ShuffledPermutes(Swap(s, i - 1, swaps[i - 1]), swaps, i - 1);
    }
  }

  lemma DrawnInUnion(length: int, picks: seq<nat>, k: nat)
    requires ValidPicks(length, picks) && k < |picks|
    ensures |Drawn(length, picks)| == |picks| && Drawn(length, picks)[k] in AllChars
  {
    DrawnAt(length, picks, k);
    var s := Drawn(length, picks);
    if k == 0 {
      assert s[k] in Lowercase;
    } else if k == 1 {
      assert s[k] in Uppercase;
    } else if k == 2 {
      assert s[k] in Digits;
    } else if k == 3 {
      assert s[k] in Special;
    }
  }

  /** Before shuffling: one character of each class in front, and every
      character is from the union of the four classes. */
  lemma DrawnWellFormed(length: int, picks: seq<nat>)
    requires ValidPicks(length, picks)
    ensures HasEveryClass(Drawn(length, picks))
    ensures forall c :: c in Drawn(length, picks) ==> c in AllChars
  {
    var s := Drawn(length, picks);
    DrawnAt(length, picks, 0);
    DrawnAt(length, picks, 1);
    DrawnAt(length, picks, 2);
    DrawnAt(length, picks, 3);
    assert s[0] in s && s[1] in s && s[2] in s && s[3] in s;
    forall c | c in s
      ensures c in AllChars
    {
      var k :| 0 <= k < |s| && s[k] == c;
      DrawnInUnion(length, picks, k);
    }
  }

  /** Two strings with the same multiset have the same characters, so the
      class and alphabet properties carry over. */
  lemma SameElements(s: string, r: string)
    requires multiset(s) == multiset(r)
    requires HasEveryClass(s) && forall c :: c in s ==> c in AllChars
    ensures HasEveryClass(r) && forall c :: c in r ==> c in AllChars
  {
    forall c | c in r ensures c in s {
      assert c in multiset(r);
    }
    forall c | c in s ensures c in r {
      assert c in multiset(s);
    }
  }

  /** For every random outcome: the length, the four classes, the alphabet. */
  lemma GeneratedWellFormed(length: int, picks: seq<nat>, swaps: seq<nat>)
    requires ValidPicks(length, picks) && ValidSwaps(|picks|, swaps)
    ensures var p := Generated(length, picks, swaps);
      |p| == PasswordSize(length) && (length >= 4 ==> |p| == length) && (length < 4 ==> |p| == 4) &&
      multiset(p) == multiset(Drawn(length, picks)) &&
      HasEveryClass(p) && forall c :: c in p ==> c in AllChars
  {
    ShuffledPermutes(Drawn(length, picks), swaps, |picks|);
    DrawnWellFormed(length, picks);
    SameElements(Drawn(length, picks), Generated(length, picks, swaps));
  }

  /** The request handling both generate-password copies share, from the
      parsed request on: `username` is `Err` when `json.loads` raises, `key`
      is `Err` when reading the secret file raises, `dbFault` is an exception
      from connecting. `qrCode` is what the copy returns for `password`. */
  function SavePassword(users: Table, username: Result<Option<string>>, password: string, qrCode: string,
                        key: Result<string>, dbFault: Option<string>, now: int, libs: Libs): (o: Step<GenReply>)
  {
    match username
    case Err(e) => Step(GenFailure(e), users)
    case Ok(name) =>
      if !Truthy(name) then Step(GenFailure(UsernameRequired), users)
      else match key
        case Err(e) => Step(GenFailure(e), users)
        case Ok(k) =>
          if k == "" then Step(GenFailure(KeyNotConfigured), users)
          else match libs.encrypt(k, password)
            case Err(e) => Step(GenFailure(e), users)
            case Ok(token) =>
              if dbFault.Some? then Step(GenFailure(dbFault.value), users)
              else Step(GenSuccess(name.value, qrCode), UpsertPassword(users, name.value, token, now))
  }

  /** `handle`: validate, generate, read the key, encrypt, update or insert,
      and return the plaintext password as `qrCode`. */
  method Handle(db: UserStore, username: Result<Option<string>>, picks: seq<nat>, swaps: seq<nat>,
                key: Result<string>, dbFault: Option<string>, now: int, libs: Libs) returns (reply: GenReply)
    requires ValidPicks(DefaultLength, picks) && ValidSwaps(|picks|, swaps)
    modifies db
    ensures var password := Generated(DefaultLength, picks, swaps);
      var o := SavePassword(old(db.users), username, password, password, key, dbFault, now, libs);
      reply == o.reply && db.users == o.users
  {
    if username.Err? {
      return GenFailure(username.message);
    }
    var name := username.value;
    if !Truthy(name) {
      return GenFailure(UsernameRequired);
    }
    var password := Generate(DefaultLength, picks, swaps);
    if key.Err? {
      return GenFailure(key.message);
    }
    if key.value == "" {
      return GenFailure(KeyNotConfigured);
    }
    var token := libs.encrypt(key.value, password);
    if token.Err? {
      return GenFailure(token.message);
    }
    if dbFault.Some? {
      return GenFailure(dbFault.value);
    }
    var row := db.Find(name.value);
    if row.Some? {
      db.UpdatePassword(name.value, token.value, now);
    } else {
      db.InsertWithPassword(name.value, token.value, now);
    }
    return GenSuccess(name.value, password);
  }

  /** Every failure leaves the table unchanged; every success is the
      update-or-insert of the encrypted password under the requested name. */
  lemma SaveEffect(users: Table, username: Result<Option<string>>, password: string, qrCode: string,
                   key: Result<string>, dbFault: Option<string>, now: int, libs: Libs)
    ensures var o := SavePassword(users, username, password, qrCode, key, dbFault, now, libs);
      (o.reply.GenFailure? ==> o.users == users) &&
      (username.Err? ==> o.reply == GenFailure(username.message)) &&
      (username.Ok? && Truthy(username.value) && key.Err? ==> o.reply == GenFailure(key.message)) &&
      ((username.Ok? && Truthy(username.value) && key.Ok? && key.value != "" &&
        libs.encrypt(key.value, password).Err?) ==> o.reply == GenFailure(libs.encrypt(key.value, password).message)) &&
      ((username.Ok? && Truthy(username.value) && key.Ok? && key.value != "" &&
        libs.encrypt(key.value, password).Ok? && dbFault.Some?) ==> o.reply == GenFailure(dbFault.value)) &&
      (o.reply.GenSuccess? <==>
         username.Ok? && Truthy(username.value) && key.Ok? && key.value != "" &&
         libs.encrypt(key.value, password).Ok? && dbFault.None?) &&
      (o.reply.GenSuccess? ==>
         o.reply.username == username.value.value && o.reply.qrCode == qrCode &&
         o.users == UpsertPassword(users, username.value.value, libs.encrypt(key.value, password).value, now))
  {
  }

  /** On success the stored token decrypts to exactly the password the reply
      was made from, and the user's `mfa` and every other row are untouched. */
  lemma StoredPasswordIsIssued(users: Table, name: string, password: string, qrCode: string,
                               key: string, now: int, libs: Libs)
    requires RoundTrips(libs, key)
    requires SavePassword(users, Ok(Some(name)), password, qrCode, Ok(key), None, now, libs).reply.GenSuccess?
    ensures var o := SavePassword(users, Ok(Some(name)), password, qrCode, Ok(key), None, now, libs);
      name in o.users && libs.decrypt(key, o.users[name].password) == Some(password) &&
      o.users[name].gendate == now && !o.users[name].expired &&
      (name in users ==> o.users[name].mfa == users[name].mfa) &&
      (forall n :: n in users && n != name ==> o.users[n] == users[n])
  {

  }
}
