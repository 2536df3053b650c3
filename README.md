# COFRAP account management, modelled in Dafny

COFRAP manages user accounts whose credentials are a generated password and a
TOTP secret. Three OpenFaaS functions work on a PostgreSQL `users` table:

- `generate_password` draws a 24-character password with one character of
  each class, shuffles it, encrypts it with Fernet and updates or inserts the
  user's row.
- `generate_totp` draws a TOTP secret, encrypts it into the `mfa` column and
  returns its provisioning URI.
- `authenticate` runs a fixed ladder of checks over one row. Credentials older
  than 180 days are flagged expired, and that flag is the function's only
  write.

Each of the two generators exists twice, a top-level copy and a `build/`
copy. The build copies return a QR image instead of the raw value. There is
also a Next.js front end:

- two API routes with simulated backends;
- a login form and a registration form whose submissions set and reset
  `isLoading` and end in exactly one callback;
- a page that keeps the active tab, a notice and the last QR strings.

## Modules

- `Wrappers`: `Option`, `Result`, and JavaScript/Python truthiness of an
  optional string.
- `Oracles`: the library calls as opaque functions collected in `Libs`:
  - Fernet encrypt and decrypt;
  - pyotp verification and the provisioning URI;
  - QR rendering.

  `RoundTrips` says that decryption undoes encryption under a key.
- `Users`:
  - a row (`UserRecord`) and the table (`map` from username to row);
  - the three writes as functions on the map;
  - the class `UserStore`, whose methods are the SQL statements the handlers
    issue.
- `Authenticate`: `Evaluate` states what `handle` answers and what it leaves
  in the table. The method `Handle` performs it against a `UserStore`.
- `GeneratePassword`:
  - the generator itself, building an array and shuffling it in place as
    `random.shuffle` does;
  - the shared `SavePassword` specification;
  - the top-level handler.
- `BuildGeneratePassword`: the build copy's handler.
- `GenerateTotp`, `BuildGenerateTotp`: the same pair of handlers for the TOTP
  secret.
- `Api`: the bodies both routes return, the trace of backend calls, and the
  simulated backends.
- `AuthRoute`, `RegisterRoute`: the two `POST` handlers.
- `Fetch`: what a form receives from `fetch` and `response.json()`.
- `LoginForm`, `RegisterForm`: the form state as classes. `handleSubmit` is
  split at its `await` into `Submit` and `Settle`.
- `HomePage`:
  - the page state as a class;
  - the alert and QR panel as functions of that state;
  - end-to-end scenarios that go from a form through a route to the page.

Random choices are inputs. `picks` holds the indices returned by
`random.choice`. `swaps` holds the positions `random.shuffle` draws, where
position `i` is swapped with position `swaps[i] <= i`. The authenticate
clock is an input, `now`, in whole seconds. The same goes for the generated
TOTP secret, the simulated `Math.random() > 0.7` (a boolean `expired`) and the
moment a `showMessage` timer fires (a call to `ClearFires`).

Exceptions are modelled as follows:

- A request that is not JSON is `Err`.
- A secret file that cannot be read is `Err`.
- A failing encryption returns `Err`.
- A failed database connection is a `dbFault` message.

In the three OpenFaaS handlers each of these reaches the reply as
`success: false` with its message. The two Next.js routes differ: a body that
is not JSON, or a backend call that throws, gives HTTP 500 with the route's
fixed message, never the thrown text.

## Model

| member | source | states |
|---|---|---|
| Wrappers.OrElse | components/login-form.tsx:46 | `v \|\| fallback`: a truthy value is kept, otherwise the fallback; a non-empty fallback always gives a non-empty text |
| Users.MarkExpired | openfaas/authenticate/handler.py:79-83 | flagging a row sets only its `expired`, keeps its other fields and every other row, and adds no key |
| Users.UpsertPassword | openfaas/generate_password/handler.py:86-97 | the row gets the token, `gendate = now` and `expired = false`, keeps its `mfa` (none for a new row), other rows unchanged, exactly one key added at most |
| Users.UpsertMfa | openfaas/generate_totp/handler.py:74-85 | the row gets `mfa`, `gendate = now` and `expired = false`, keeps its password ('' for a new row), other rows unchanged |
| Users.UserStore.constructor | openfaas/authenticate/handler.py:9-17 | the store opens on the given table |
| Users.UserStore.Find | openfaas/authenticate/handler.py:59-63 | definition of `SELECT … WHERE username` with `fetchone`: a row exactly when the username is a key, and that row; `Authenticate.UnknownUserRefused` and `Authenticate.GrantedExactly` state what the handlers do with it |
| Users.UserStore.SetExpired | openfaas/authenticate/handler.py:79-83 | `UPDATE users SET expired` on an existing row: the table becomes `MarkExpired` of the old one |
| Users.UserStore.UpdatePassword | openfaas/generate_password/handler.py:88-91 | `UPDATE … SET password, gendate, expired` on an existing row |
| Users.UserStore.InsertWithPassword | openfaas/generate_password/handler.py:94-97 | `INSERT` of a new row with the password, no `mfa` |
| Users.UserStore.UpdateMfa | openfaas/generate_totp/handler.py:76-79 | `UPDATE … SET mfa, gendate, expired` on an existing row |
| Users.UserStore.InsertWithMfa | openfaas/generate_totp/handler.py:82-85 | `INSERT` of a new row with password '' and the `mfa` |
| Authenticate.Handle | openfaas/authenticate/handler.py:38-114 | the reply and the new table are those `Evaluate` gives for the old table |
| Authenticate.ExpiryBoundary | openfaas/authenticate/handler.py:29-36 | not expired at exactly 180 days, expired one second later, and expired stays expired as time passes |
| Authenticate.MissingFieldRefused | openfaas/authenticate/handler.py:47-48 | an empty or missing field gives "Tous les champs sont requis" for every table, which is left as it was |
| Authenticate.ExceptionReported | openfaas/authenticate/handler.py:113-114 | a parse error or a connection error becomes a failure with its message and no write |
| Authenticate.MissingKeyRefused | openfaas/authenticate/handler.py:51-53 | without a key the failure is the same for every table, which is left as it was |
| Authenticate.UnknownUserRefused | openfaas/authenticate/handler.py:65-67 | an unknown username gives "Utilisateur non trouvé" and no write |
| Authenticate.FlaggedRowIsExpired | openfaas/authenticate/handler.py:72-74 | a flagged row answers expired whatever the password, the code and the libraries |
| Authenticate.StaleRowFlagged | openfaas/authenticate/handler.py:77-85 | a row older than 180 days is flagged (that row only) and the answer is expired |
| Authenticate.OnlyWriteIsExpiryFlag | openfaas/authenticate/handler.py:59-111 | every call leaves the table as it was or flags the requested row, the latter only when answering expired |
| Authenticate.Idempotent | openfaas/authenticate/handler.py:72-85 | a second identical call on the table the first left gives the same answer and the same table |
| Authenticate.GrantedExactly | openfaas/authenticate/handler.py:88-111 | access is granted if and only if the row exists, is neither flagged nor stale, both columns decrypt, the password matches and the code verifies; the reply echoes the username |
| Authenticate.PasswordCheckedBeforeCode | openfaas/authenticate/handler.py:95-103 | a password mismatch is reported whatever the TOTP check would say |
| Authenticate.ProvisionedCredentialsGranted | openfaas/authenticate/handler.py:88-111 | after generate-password then generate-totp, logging in within 180 days with the issued password and an accepted code is granted |
| GeneratePassword.Shuffled | openfaas/generate_password/handler.py:46 | a shuffle keeps the length |
| GeneratePassword.Generate | openfaas/generate_password/handler.py:25-48 | for every random outcome: `length` characters (4 when `length < 4`), one of each class, only characters of the union, a permutation of the drawn list |
| GeneratePassword.Shuffle | openfaas/generate_password/handler.py:46 | the in-place Fisher–Yates pass leaves the array equal to `Shuffled` of its old contents |
| GeneratePassword.DrawnAt | openfaas/generate_password/handler.py:34-43 | the list before shuffling: one forced pick per class in front, then picks from the union |
| GeneratePassword.SwapPermutes | openfaas/generate_password/handler.py:46 | one swap keeps the multiset of characters |
| GeneratePassword.ShuffledPermutes | openfaas/generate_password/handler.py:46 | the shuffle only reorders: the multiset of characters is unchanged |
| GeneratePassword.DrawnInUnion | openfaas/generate_password/handler.py:28-43 | every drawn character belongs to lowercase + uppercase + digits + special |
| GeneratePassword.DrawnWellFormed | openfaas/generate_password/handler.py:34-43 | before shuffling the list has every class and only characters of the union |
| GeneratePassword.SameElements | openfaas/generate_password/handler.py:46 | class coverage and alphabet carry over to any permutation |
| GeneratePassword.GeneratedWellFormed | openfaas/build/generate-password/function/handler.py:26-49 | the generator's length, class, alphabet and permutation properties, for every random outcome; the top-level copy (openfaas/generate_password/handler.py:25-48) is the same function |
| GeneratePassword.Handle | openfaas/generate_password/handler.py:55-111 | the reply and the new table are those of `SavePassword` for the generated password, returned as `qrCode` |
| GeneratePassword.SaveEffect | openfaas/generate_password/handler.py:62-101 | every failure leaves the table unchanged; each of the four exceptions (parse, key file, encryption, connection) gives a failure carrying its own message; success happens if and only if the username is truthy, the key is non-empty, encryption and the connection succeed, and then the table is the upsert under that name |
| GeneratePassword.StoredPasswordIsIssued | openfaas/generate_password/handler.py:66-108 | on success the stored token decrypts to exactly the password returned, with `gendate = now`, not expired, `mfa` and other rows untouched |
| BuildGeneratePassword.Handle | openfaas/build/generate-password/function/handler.py:76-135 | the reply and the new table are those of `SavePassword` with the QR image of the generated password as `qrCode` |
| BuildGeneratePassword.ImageOfStoredPassword | openfaas/build/generate-password/function/handler.py:87-132 | the returned image is rendered from the very password whose token was stored; an empty key fails with the table unchanged although the image was rendered |
| GenerateTotp.Handle | openfaas/generate_totp/handler.py:39-99 | the reply and the new table are those of `SaveSecret` with the provisioning URI as `qrCode` |
| GenerateTotp.SaveSecretEffect | openfaas/generate_totp/handler.py:46-89 | every failure leaves the table unchanged; each of the four exceptions (parse, key file, encryption, connection) gives a failure carrying its own message; success happens if and only if all steps pass, and then the table is the `mfa` upsert |
| GenerateTotp.UriOfStoredSecret | openfaas/generate_totp/handler.py:50-96 | the returned URI is for this username and the very secret stored; the password is kept, or '' for a new row; other rows untouched |
| BuildGenerateTotp.Handle | openfaas/build/generate-totp/function/handler.py:57-118 | the reply and the new table are those of `SaveSecret` with the QR image of the URI as `qrCode` |
| BuildGenerateTotp.ImageOfStoredSecret | openfaas/build/generate-totp/function/handler.py:68-115 | the returned image is that of the URI for the stored secret; an empty key fails with no write |
| Api.SimulatedUrisDiffer | app/api/auth/route.ts:56-70 | both simulated QR strings start with `otpauth://totp/COFRAP:<username>` and are never equal; the register route's copies (app/api/register/route.ts:33-49) are identical |
| AuthRoute.Post | app/api/auth/route.ts:4-42 | status is 200, 400, 401 or 500; 500 and 401 carry fixed messages; an unreadable body gives 500; backend calls happen only for a complete body, in the order authenticate, password, TOTP |
| AuthRoute.ThrownGives500 | app/api/auth/route.ts:38-41 | for a complete body, 500 happens if and only if `authenticate` threw, or the result was expired and a generator threw; a throwing password generator stops the TOTP call |
| AuthRoute.MissingFieldGives400 | app/api/auth/route.ts:9-11 | a missing field gives 400 with no backend call |
| AuthRoute.ExpiredRenews | app/api/auth/route.ts:17-28 | an expired result gives 200 with both new QR strings, password generator first, and never the plain success shape |
| AuthRoute.RejectedGives401 | app/api/auth/route.ts:30-32 | not expired and not successful gives 401 "Identifiants invalides" |
| AuthRoute.SuccessEchoesUsername | app/api/auth/route.ts:34-37 | success echoes the request's username |
| AuthRoute.SimulatedNever401 | app/api/auth/route.ts:45-54 | with the simulated backends 401 is unreachable and only `expired` varies |
| RegisterRoute.Post | app/api/register/route.ts:4-30 | status is 200, 400 or 500; 500 carries a fixed message; an unreadable body gives 500; the generators are called only for a complete body, password first |
| RegisterRoute.ThrownGives500 | app/api/register/route.ts:26-29 | for a complete body, 500 happens if and only if a generator threw; a throwing password generator stops the TOTP call |
| RegisterRoute.MissingFieldGives400 | app/api/register/route.ts:9-11 | a missing username or email gives 400 with no generator call |
| RegisterRoute.CompanyIgnored | app/api/register/route.ts:7 | the response and the calls do not depend on `company` |
| RegisterRoute.RegistersBoth | app/api/register/route.ts:15-25 | otherwise 200 with the username and both QR strings, password generator first |
| RegisterRoute.SimulatedRegistration | app/api/register/route.ts:33-49 | with the simulated generators every valid request registers with two different QR strings |
| Fetch.DataOf | components/login-form.tsx:43 | the parsed body: `expired` is truthy only for a renewal, `message` present only for a message body, the QR fields carried over |
| Fetch.Deliver | components/login-form.tsx:35-45 | definition of what `fetch` hands the form: `response.ok` is a 2xx status and the data is the route's body; `LoginForm.RouteAnswerReachesCallback` and `RegisterForm.RouteAnswerReachesCallback` state what the forms do with it |
| LoginForm.Settlement | components/login-form.tsx:43-55 | `onError` if and only if the request threw or was not ok, with the server's message or the fallback; `onExpired(data)` if and only if ok and expired; otherwise `onSuccess` |
| LoginForm.Form.constructor | components/login-form.tsx:18-21 | empty fields, not loading, nothing fired or sent |
| LoginForm.Form.Change | components/login-form.tsx:72-102 | an input's `onChange` sets its field only |
| LoginForm.Form.Submit | components/login-form.tsx:26-41 | an empty field fires "Veuillez remplir tous les champs", sends nothing and leaves `isLoading`; otherwise sets `isLoading` and sends the three fields |
| LoginForm.Form.Settle | components/login-form.tsx:43-58 | the continuation fires exactly one callback and resets `isLoading` |
| LoginForm.Form.HandleSubmit | components/login-form.tsx:23-59 | a submission fires exactly one callback, sends a request exactly when all three fields are non-empty, sends the fields as they were, leaves them unchanged, and leaves `isLoading` false when it sent a request |
| LoginForm.ServerFailureMessage | components/login-form.tsx:45-47 | a non-ok response reaches `onError` with a non-empty text, the server's when it has one |
| LoginForm.RouteAnswerReachesCallback | components/login-form.tsx:43-55 | each answer of `/api/auth` reaches the matching callback: plain success, renewal with both QR strings, any message as `onError` |
| RegisterForm.Settlement | components/register-form.tsx:42-50 | `onSuccess(data)` if and only if ok; otherwise `onError` with the server's message or "Erreur lors de l'inscription", or the thrown error's text |
| RegisterForm.Form.constructor | components/register-form.tsx:17-20 | empty fields, not loading, nothing fired or sent |
| RegisterForm.Form.Change | components/register-form.tsx:67-97 | an input's `onChange` sets its field only |
| RegisterForm.Form.Submit | components/register-form.tsx:25-40 | an empty username or email fires the required-fields error and sends nothing; an empty company does not block and is sent |
| RegisterForm.Form.Settle | components/register-form.tsx:42-53 | the continuation fires exactly one callback and resets `isLoading` |
| RegisterForm.Form.HandleSubmit | components/register-form.tsx:22-54 | a submission fires exactly one callback, sends a request exactly when username and email are non-empty, sends the fields as they were, leaves them unchanged, and leaves `isLoading` false when it sent a request |
| RegisterForm.ServerFailureMessage | components/register-form.tsx:44-46 | a non-ok response reaches `onError` with a non-empty text, the server's when it has one |
| RegisterForm.RouteAnswerReachesCallback | components/register-form.tsx:34-50 | what the form sends always passes the route's validation; a registration reaches `onSuccess` with both QR strings, any message reaches `onError` |
| HomePage.Home.constructor | app/page.tsx:20-22 | login tab, empty notice, no QR strings |
| HomePage.Home.ShowMessage | app/page.tsx:24-28 | sets the notice and schedules one clear; tab and QR strings unchanged |
| HomePage.Home.ClearFires | app/page.tsx:27 | a scheduled clear empties the notice unconditionally |
| HomePage.Home.HandleRegisterSuccess | app/page.tsx:30-40 | keeps both QR strings, shows the success notice, switches to the QR codes tab |
| HomePage.Home.HandleLoginSuccess | app/page.tsx:42-44 | changes only the notice |
| HomePage.Home.HandleLoginExpired | app/page.tsx:46-56 | keeps the renewed QR strings, shows a warning, switches to the QR codes tab |
| HomePage.Home.OnLoginCallback | app/page.tsx:105-109 | the login form's three callbacks; `onError` shows an error with tab and QR strings unchanged |
| HomePage.Home.OnRegisterCallback | app/page.tsx:113-116 | the registration form's two callbacks; `onError` shows an error with tab and QR strings unchanged |
| HomePage.Home.SelectTab | app/page.tsx:93-96 | selecting a tab changes only the tab |
| HomePage.AlertTitle | app/page.tsx:82-87 | Succès for success, Erreur for error, Attention for anything else, each if and only if |
| HomePage.AlertConsistent | app/page.tsx:67-87 | the alert's colour, icon and title are chosen by the same test and always agree |
| HomePage.QrPanel | app/page.tsx:121-147 | each QR block is shown if and only if its string is truthy, the placeholder if and only if neither is |
| HomePage.FirstRender | app/page.tsx:20-22 | the first render shows no alert and only the placeholder |
| HomePage.StaleTimerScenario | app/page.tsx:24-28 | the clear scheduled for a first notice also removes a second notice shown before it fires |
| HomePage.RegistrationShowsBothCodes | app/page.tsx:112-147 | a registration through the form and the shipped route ends on the QR codes tab with both codes and a success alert |
| HomePage.ExpiredLoginShowsNewCodes | app/page.tsx:104-147 | an expired login, with the body the form sent given to the shipped route, ends on the QR codes tab with both codes and a warning |
| HomePage.IncompleteLoginShowsError | app/page.tsx:104-110 | an incomplete login form shows its own error, stays on the login tab and shows no QR code |

## Left out

- Fernet, pyotp and qrcode are opaque functions. Their internals (AES and HMAC,
  RFC 6238 codes and time windows, the otpauth URI format, PNG and base64
  encoding) are outside the model. Only `RoundTrips` is assumed, and only
  where a lemma requires it.
- `pyotp.TOTP(...).verify` raising on a malformed secret is not modelled.
  Verification is a total boolean oracle.
- psycopg2 is not modelled. Connections, cursors, commits and closes are
  reduced to the table map plus one connection fault (`dbFault`) checked
  before the first query. Faults during a later query or commit are left out.
- Looking a row up with `fetchone` assumes usernames are unique: the table is
  a map keyed by username. The row `id` is not kept.
- Where the database password comes from is not modelled, because it is
  configuration I/O. The top-level copies read it with `get_secret`; the build
  copies read it from the environment. Reading the key file is an input of
  type `Result`.
- `datetime.fromtimestamp`, local time and DST are not modelled: timestamps are
  whole seconds. A NULL `gendate` (a `TypeError` in `check_expiration`) is left
  out.
- JSON fields are optional strings. Non-string JSON values (numbers, arrays)
  and their truthiness are left out.
- `random.choice`, `random.shuffle` and `pyotp.random_base32` are inputs. So
  is `Math.random() > 0.7`, as a boolean. Their distributions are not modelled.
- Callbacks are not modelled as throwing. In the source, an `onSuccess` or
  `onExpired` that throws inside the `try` would also trigger `onError`.
- React rendering, JSX layout, the disabled button, `setTimeout` timing and the
  scheduling of `fetch` and `await` are not modelled. A timer expiring is an
  explicit `ClearFires` call, and a request in flight is the split between
  `Submit` and `Settle`.
- `console.error` logging in the routes is not modelled, because it is output
  only.
- components/qr-code-display.tsx is not part of this model: it only draws a
  string as a QR canvas.
- next.config.js is not part of this model: it is build configuration.
- openfaas/generate_password/index.py is not part of this model: it is HTTP
  plumbing.
- HomePage.QrPanel: a QR block is shown when its string is truthy, as the JSX
  `qrData.password && …` tests. A non-null empty string therefore shows
  nothing, which is stricter than "non-null".
