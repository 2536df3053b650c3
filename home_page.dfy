/** The `Home` page: its three pieces of state (`activeTab`, `message`,
    `qrData`), the handlers it passes to the two forms, and what it renders
    from that state. A `setTimeout` scheduled by `showMessage` is a pending
    clear; when it fires is left to the caller. */
module HomePage {
  import opened Wrappers
  import opened Fetch
  import AuthRoute
  import RegisterRoute
  import LoginForm
  import RegisterForm

  datatype Tab = LoginTab | RegisterTab | QrCodesTab

  /** `{type, content}`; the empty notice shows nothing. */
  datatype Notice = Notice(kind: string, content: string)

  /** `{password, totp}`: the two QR strings last received. */
  datatype QrData = QrData(password: Option<string>, totp: Option<string>)

  const Success := "success"
  const Error := "error"
  const Warning := "warning"

  const AccountCreated := "Compte créé avec succès! Scannez les QR codes pour obtenir votre mot de passe et configurer votre authentification à deux facteurs."
  const LoginSucceeded := "Authentification réussie!"
  const CredentialsExpired := "Vos identifiants ont expiré. Veuillez scanner les nouveaux QR codes."

  class Home {
    var activeTab: Tab
    var message: Notice
    var qrData: QrData
    /** Timers scheduled by `showMessage` that have not fired yet. */
    ghost var pendingClears: nat

    constructor ()
      ensures activeTab == LoginTab && message == Notice("", "") && qrData == QrData(None, None)
      ensures pendingClears == 0
    {
      activeTab := LoginTab;
      message := Notice("", "");
      qrData := QrData(None, None);
      pendingClears := 0;
    }

    /** `showMessage`: set the notice and schedule one clear. */
    method ShowMessage(kind: string, content: string)
      modifies this
      ensures message == Notice(kind, content) && pendingClears == old(pendingClears) + 1
      ensures activeTab == old(activeTab) && qrData == old(qrData)
    {
      message := Notice(kind, content);
      pendingClears := pendingClears + 1;
    }

    /** One scheduled timer firing: it empties the notice whatever is shown
        now, including a notice set after the timer was scheduled. */
    method ClearFires()
      requires pendingClears > 0
      modifies this
      ensures message == Notice("", "") && pendingClears == old(pendingClears) - 1
      ensures activeTab == old(activeTab) && qrData == old(qrData)
    {
      message := Notice("", "");
      pendingClears := pendingClears - 1;
    }

    /** `handleRegisterSuccess`: keep both QR strings, announce the account
        and switch to the QR codes tab. */
    method HandleRegisterSuccess(data: Data)
      modifies this
      ensures qrData == QrData(data.passwordQr, data.totpQr)
      ensures message == Notice(Success, AccountCreated) && activeTab == QrCodesTab
      ensures pendingClears == old(pendingClears) + 1
    {
      qrData := QrData(data.passwordQr, data.totpQr);
      ShowMessage(Success, AccountCreated);
      activeTab := QrCodesTab;
    }

    /** `handleLoginSuccess`: only the notice changes. */
    method HandleLoginSuccess()
      modifies this
      ensures message == Notice(Success, LoginSucceeded)
      ensures activeTab == old(activeTab) && qrData == old(qrData)
      ensures pendingClears == old(pendingClears) + 1
    {
      ShowMessage(Success, LoginSucceeded);
    }

    /** `handleLoginExpired`: keep the renewed QR strings, warn, and switch
        to the QR codes tab. */
    method HandleLoginExpired(data: Data)
      modifies this
      ensures qrData == QrData(data.passwordQr, data.totpQr)
      ensures message == Notice(Warning, CredentialsExpired) && activeTab == QrCodesTab
      ensures pendingClears == old(pendingClears) + 1
    {
      qrData := QrData(data.passwordQr, data.totpQr);
      ShowMessage(Warning, CredentialsExpired);
      activeTab := QrCodesTab;
    }

    /** The `LoginForm` props: `onError` shows the message as an error. */
    method OnLoginCallback(cb: LoginForm.Callback)
      modifies this
      ensures cb.OnError? ==> message == Notice(Error, cb.message) && activeTab == old(activeTab) && qrData == old(qrData)
      ensures cb.OnSuccess? ==> message == Notice(Success, LoginSucceeded) && activeTab == old(activeTab) && qrData == old(qrData)
      ensures cb.OnExpired? ==>
        message == Notice(Warning, CredentialsExpired) && activeTab == QrCodesTab &&
        qrData == QrData(cb.data.passwordQr, cb.data.totpQr)
      ensures pendingClears == old(pendingClears) + 1
    {
      match cb
      case OnSuccess => HandleLoginSuccess();
      case OnExpired(data) => HandleLoginExpired(data);
      case OnError(msg) => ShowMessage(Error, msg);
    }

    /** The `RegisterForm` props: `onError` shows the message as an error. */
    method OnRegisterCallback(cb: RegisterForm.Callback)
      modifies this
      ensures cb.OnError? ==> message == Notice(Error, cb.message) && activeTab == old(activeTab) && qrData == old(qrData)
      ensures cb.OnSuccess? ==>
        message == Notice(Success, AccountCreated) && activeTab == QrCodesTab &&
        qrData == QrData(cb.data.passwordQr, cb.data.totpQr)
      ensures pendingClears == old(pendingClears) + 1
    {
      match cb
      case OnSuccess(data) => HandleRegisterSuccess(data);
      case OnError(msg) => ShowMessage(Error, msg);
    }

    /** The tabs' `onValueChange`. */
    method SelectTab(tab: Tab)
      modifies this
      ensures activeTab == tab && message == old(message) && qrData == old(qrData)
      ensures pendingClears == old(pendingClears)
    {
      activeTab := tab;
    }
  }

  /** The alert is rendered exactly when the content is non-empty. */
  predicate AlertShown(m: Notice)
  {
    m.content != ""
  }

  datatype Tone = Green | Red | Yellow
  datatype Icon = CheckIcon | CircleIcon

  /** The alert's title: any type other than success and error is a warning. */
  function AlertTitle(m: Notice): (title: string)
    ensures title == "Succès" <==> m.kind == Success
    ensures title == "Erreur" <==> m.kind == Error
    ensures title == "Attention" <==> m.kind != Success && m.kind != Error
  {
    if m.kind == Success then "Succès" else if m.kind == Error then "Erreur" else "Attention"
  }

  /** The alert's colour classes, chosen by the same test as the title. */
  function AlertTone(m: Notice): Tone
  {
    if m.kind == Success then Green else if m.kind == Error then Red else Yellow
  }

  /** The alert's icon: a check mark for success only. */
  function AlertIcon(m: Notice): Icon
  {
    if m.kind == Success then CheckIcon else CircleIcon
  }

  /** Title, colour and icon always agree. */
  lemma AlertConsistent(m: Notice)
    ensures AlertTone(m) == Green <==> AlertTitle(m) == "Succès"
    ensures AlertTone(m) == Red <==> AlertTitle(m) == "Erreur"
    ensures AlertTone(m) == Yellow <==> AlertTitle(m) == "Attention"
    ensures AlertIcon(m) == CheckIcon <==> AlertTone(m) == Green
  {
  }

  /** Which blocks of the QR codes tab are rendered. */
  datatype QrView = QrView(password: bool, totp: bool, placeholder: bool)

  /** Each QR block is shown when its string is truthy, the "nothing to show"
      text exactly when neither is. */
  function QrPanel(q: QrData): (v: QrView)
    ensures v.password <==> Truthy(q.password)
    ensures v.totp <==> Truthy(q.totp)
    ensures v.placeholder <==> !v.password && !v.totp
  {
    var p := Truthy(q.password);
    var t := Truthy(q.totp);
    QrView(p, t, !p && !t)
  }

  /** The page's first render shows no alert and, on the QR codes tab, only
      the placeholder. */
  method FirstRender() returns (alert: bool, view: QrView, tab: Tab)
    ensures !alert && view == QrView(false, false, true) && tab == LoginTab
  {
    var home := new Home();
    alert := AlertShown(home.message);
    view := QrPanel(home.qrData);
    tab := home.activeTab;
  }

  /** A timer cannot tell notices apart: the clear scheduled for a first
      notice also removes a second one shown before it fires. */
  method StaleTimerScenario(first: string, second: string) returns (shown: bool)
    ensures !shown
  {
    var home := new Home();
    home.ShowMessage(Error, first);
    home.ShowMessage(Success, second);
    home.ClearFires();
    shown := AlertShown(home.message);
  }

  /** A complete registration against the shipped route: the form sends the
      request, the route answers with the simulated QR strings, and the page
      switches to the QR codes tab with both codes rendered and a success
      alert. */
  method RegistrationShowsBothCodes(username: string, email: string, company: string)
    returns (view: QrView, tab: Tab, title: string, alert: bool)
    requires username != "" && email != ""
    ensures view == QrView(true, true, false) && tab == QrCodesTab
    ensures title == "Succès" && alert
  {
    var form := new RegisterForm.Form();
    form.Change(RegisterForm.UsernameField, username);
    form.Change(RegisterForm.EmailField, email);
    form.Change(RegisterForm.CompanyField, company);
    var started := form.Submit();
    var request := form.sent[|form.sent| - 1];
    assert request == RegisterForm.Signup(username, email, company);
    var body := RegisterForm.AsBody(request);
    RegisterRoute.SimulatedRegistration(body);
    Api.SimulatedUrisDiffer(username);
    var response := RegisterRoute.PostSimulated(Ok(body)).response;
    form.Settle(Deliver(response));
    var home := new Home();
    home.OnRegisterCallback(form.fired[|form.fired| - 1]);
    view := QrPanel(home.qrData);
    tab := home.activeTab;
    title := AlertTitle(home.message);
    alert := AlertShown(home.message);
  }

  /** A login whose credentials have expired, against the shipped route:
      the page warns and shows both renewed codes. */
  method ExpiredLoginShowsNewCodes(username: string, password: string, totpCode: string)
    returns (view: QrView, tab: Tab, title: string)
    requires username != "" && password != "" && totpCode != ""
    ensures view == QrView(true, true, false) && tab == QrCodesTab
    ensures title == "Attention"
  {
    var form := new LoginForm.Form();
    form.Change(LoginForm.UsernameField, username);
    form.Change(LoginForm.PasswordField, password);
    form.Change(LoginForm.TotpField, totpCode);
    var started := form.Submit();
    var request := form.sent[|form.sent| - 1];
    assert request == LoginForm.Credentials(username, password, totpCode);
    var body := LoginForm.AsBody(request);
    AuthRoute.SimulatedNever401(Ok(body), true);
    Api.SimulatedUrisDiffer(username);
    var response := AuthRoute.PostSimulated(Ok(body), true).response;
    form.Settle(Deliver(response));
    var home := new Home();
    home.OnLoginCallback(form.fired[|form.fired| - 1]);
    view := QrPanel(home.qrData);
    tab := home.activeTab;
    title := AlertTitle(home.message);
  }

  /** A login form submitted with a field left empty: the page shows the
      form's own error, stays on the login tab and shows no QR code. */
  method IncompleteLoginShowsError(username: string, password: string)
    returns (shown: Notice, title: string, tab: Tab, view: QrView)
    ensures shown == Notice(Error, LoginForm.FillAllFields) && title == "Erreur"
    ensures tab == LoginTab && view == QrView(false, false, true)
  {
    var form := new LoginForm.Form();
    form.Change(LoginForm.UsernameField, username);
    form.Change(LoginForm.PasswordField, password);
    var started := form.Submit();
    var home := new Home();
    home.OnLoginCallback(form.fired[|form.fired| - 1]);
    shown := home.message;
    title := AlertTitle(shown);
    tab := home.activeTab;
    view := QrPanel(home.qrData);
  }
}
