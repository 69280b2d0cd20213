/** The login and registration screen (src/screens/LoginScreen.tsx): autofill from
    the route or from the last registered user, the session check on mount, and the
    blank-field gates in front of the login and register calls. */
module LoginScreen {
  import opened Js
  import opened Storage

  const LAST_USER_KEY := "lastRegisteredUser"

  datatype Tab = LoginTab | RegisterTab

  datatype FormData = FormData(username: string, password: string, fullName: string)

  /** The Login route's optional parameters. */
  datatype LoginParams = LoginParams(username: Option<string>, password: Option<string>, fullName: Option<string>)

  /** The record stored under `lastRegisteredUser`, as JSON.parse reads it back. */
  datatype StoredUser = StoredUser(username: string, password: string, fullName: Option<string>)

  /** What `login` is called with. */
  datatype Credentials = Credentials(username: string, password: string)

  /** What `register` is called with. */
  datatype Registration = Registration(username: string, password: string, fullName: string)

  /** `x ?? ''` and `x || ''` on an optional string. */
  function OrEmpty(x: Option<string>): (s: string)
    ensures x.Some? ==> s == x.value
    ensures x.None? ==> s == ""
  {
    if x.Some? then x.value else ""
  }

  /** `route?.params?.username && route?.params?.password` */
  predicate ParamsGiven(params: Option<LoginParams>) {
    params.Some? && OrEmpty(params.value.username) != "" && OrEmpty(params.value.password) != ""
  }

  /** `fillFromParamsOrStorage`: route parameters win when they carry both username
      and password; otherwise a non-empty stored record that `decode` (JSON.parse)
      reads fills the three fields; anything else leaves the form as it was. */
  function Autofill(form: FormData, params: Option<LoginParams>, stored: Option<string>,
                    decode: string -> Option<StoredUser>): (form': FormData)
    ensures ParamsGiven(params) ==>
              form' == FormData(params.value.username.value, params.value.password.value,
                                OrEmpty(params.value.fullName))
    ensures !ParamsGiven(params) && stored.Some? && stored.value != "" && decode(stored.value).Some? ==>
              var u := decode(stored.value).value;
              form' == FormData(u.username, u.password, OrEmpty(u.fullName))
    ensures !ParamsGiven(params) && !(stored.Some? && stored.value != "" && decode(stored.value).Some?) ==>
              form' == form
  {
    if ParamsGiven(params) then
      FormData(OrEmpty(params.value.username), OrEmpty(params.value.password), OrEmpty(params.value.fullName))
    else if stored.Some? && stored.value != "" then
      match decode(stored.value)
      case Some(u) => FormData(u.username, u.password, OrEmpty(u.fullName))
      case None => form
    else form
  }

  /** When the route carries credentials the store plays no part: any two stores give
      the same form. */
  lemma ParamsIgnoreStorage(form: FormData, params: Option<LoginParams>, s1: Option<string>, s2: Option<string>,
                            decode: string -> Option<StoredUser>)
    requires ParamsGiven(params)
    ensures Autofill(form, params, s1, decode) == Autofill(form, params, s2, decode)
  {
  }

  /** The login gate: no call when the trimmed username or the trimmed password is
      empty; otherwise the username goes trimmed and the password exactly as typed. */
  function LoginCall(form: FormData): (call: Option<Credentials>)
    ensures call.None? <==> IsBlank(form.username) || IsBlank(form.password)
    ensures call.Some? ==> call.value.username == Trim(form.username) && call.value.password == form.password
  {
    if IsBlank(form.username) || IsBlank(form.password) then None
    else Some(Credentials(Trim(form.username), form.password))
  }

  /** The register gate: the same emptiness test; the full name goes trimmed. */
  function RegisterCall(form: FormData): (call: Option<Registration>)
    ensures call.None? <==> IsBlank(form.username) || IsBlank(form.password)
    ensures call.Some? ==>
              call.value == Registration(Trim(form.username), form.password, Trim(form.fullName))
  {
    if IsBlank(form.username) || IsBlank(form.password) then None
    else Some(Registration(Trim(form.username), form.password, Trim(form.fullName)))
  }

  /** A password of spaces passes neither gate, although it would be sent untrimmed. */
  lemma BlankPasswordBlocked(username: string, password: string, fullName: string)
    requires password != "" && forall i :: 0 <= i < |password| ==> IsSpace(password[i])
    ensures LoginCall(FormData(username, password, fullName)).None?
    ensures RegisterCall(FormData(username, password, fullName)).None?
  {
    BlankIffAllSpace(password);
  }

  class LoginScreen {
    const storage: AsyncStorage
    var activeTab: Tab
    var form: FormData
    var loading: bool
    var initialLoading: bool

    constructor (storage: AsyncStorage)
      ensures this.storage == storage && activeTab == LoginTab && form == FormData("", "", "")
      ensures !loading && initialLoading
    {
      this.storage := storage;
      activeTab := LoginTab;
      form := FormData("", "", "");
      loading := false;
      initialLoading := true;
    }

    /** The autofill effect, run whenever the route changes. */
    method FillFromParamsOrStorage(params: Option<LoginParams>, decode: string -> Option<StoredUser>)
      modifies this
      ensures form == Autofill(old(form), params, Lookup(storage.items, LAST_USER_KEY), decode)
      ensures activeTab == old(activeTab) && loading == old(loading) && initialLoading == old(initialLoading)
    {
      if ParamsGiven(params) {
        form := FormData(OrEmpty(params.value.username), OrEmpty(params.value.password),
                         OrEmpty(params.value.fullName));
        return;
      }
      var last := storage.GetItem(LAST_USER_KEY);
      if last.Some? && last.value != "" {
        var user := decode(last.value);
        if user.Some? {
          form := FormData(user.value.username, user.value.password, OrEmpty(user.value.fullName));
        }
      }
    }

    /** `checkAuthStatus`, given what `isAuthenticated` resolves to: it moves on to the
        main screen exactly when that is true, and clears the spinner in every case. */
    method CheckAuthStatus(authenticated: Outcome<bool>) returns (toMain: bool)
      modifies this
      ensures toMain <==> authenticated == Returned(true)
      ensures !initialLoading && form == old(form) && activeTab == old(activeTab) && loading == old(loading)
    {
      toMain := authenticated.Returned? && authenticated.value;
      initialLoading := false;
    }

    /** `handleLogin`, given what the login call resolves to: returns the call made (if
        any) and the dialog shown. */
    method HandleLogin(reply: Outcome<Value>) returns (call: Option<Credentials>, dialog: Dialog)
      modifies this
      ensures call == LoginCall(old(form))
      ensures call.None? ==> dialog == Dialog("Error", "Por favor completa todos los campos")
      ensures call.Some? && reply.Returned? ==> dialog == Dialog("¡Bienvenido!", "Has iniciado sesión exitosamente")
      ensures call.Some? && reply.Threw? ==> dialog == Dialog("Error", reply.error.message)
      ensures form == old(form) && activeTab == old(activeTab) && initialLoading == old(initialLoading)
      ensures call.None? ==> loading == old(loading)
      ensures call.Some? ==> !loading
    {
      call := LoginCall(form);
      if call.None? {
        dialog := Dialog("Error", "Por favor completa todos los campos");
        return;
      }
      loading := true;
      match reply {
        case Returned(_) => dialog := Dialog("¡Bienvenido!", "Has iniciado sesión exitosamente");
        case Threw(e) => dialog := Dialog("Error", e.message);
      }
      loading := false;
    }

    /** `handleRegister`, given what the register call resolves to. */
    method HandleRegister(reply: Outcome<Value>) returns (call: Option<Registration>, dialog: Dialog)
      modifies this
      ensures call == RegisterCall(old(form))
      ensures call.None? ==> dialog == Dialog("Error", "Por favor completa todos los campos requeridos")
      ensures call.Some? && reply.Returned? ==>
                dialog == Dialog("¡Registro exitoso!", "Tu cuenta ha sido creada. Ahora puedes iniciar sesión.")
      ensures call.Some? && reply.Threw? ==> dialog == Dialog("Error", reply.error.message)
      ensures form == old(form) && activeTab == old(activeTab) && initialLoading == old(initialLoading)
      ensures call.None? ==> loading == old(loading)
      ensures call.Some? ==> !loading
    {
      call := RegisterCall(form);
      if call.None? {
        dialog := Dialog("Error", "Por favor completa todos los campos requeridos");
        return;
      }
      loading := true;
      match reply {
        case Returned(_) =>
          dialog := Dialog("¡Registro exitoso!", "Tu cuenta ha sido creada. Ahora puedes iniciar sesión.");
        case Threw(e) => dialog := Dialog("Error", e.message);
      }
      loading := false;
    }

    /** The registration dialog's "OK": back to the login tab with the password
        cleared and the username kept. */
    method ConfirmRegistered()
      modifies this
      ensures activeTab == LoginTab
      ensures form == FormData(old(form).username, "", old(form).fullName)
      ensures loading == old(loading) && initialLoading == old(initialLoading)
    {
      activeTab := LoginTab;
      form := form.(password := "");
    }
  }
}
