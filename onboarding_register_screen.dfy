/** The onboarding account screen (src/screens/onboarding/OnboardingRegisterScreen.tsx):
    checks the three fields, keeps the username and password in the store for the
    login screen's autofill, and moves on to Login with them; it calls no backend. */
module OnboardingRegisterScreen {
  import opened Js
  import opened Storage
  import LoginScreen

  const EMPTY_FIELDS := Dialog("Error", "Todos los campos son obligatorios.")
  const MISMATCH := Dialog("Error", "Las contraseñas no coinciden.")
  const SUCCESS := Dialog("Éxito", "Registro exitoso. Ahora puedes iniciar sesión.")

  /** How `handleRegister` ends: stopped with a dialog, or registered locally and on
      the way to Login with these route parameters. */
  datatype RegisterResult =
    | Refused(dialog: Dialog)
    | Registered(dialog: Dialog, params: LoginScreen.LoginParams)

  /** The checks, in order: no field empty (untrimmed, so a space counts as text),
      then the password and its confirmation equal. */
  function CheckFields(username: string, password: string, confirmPassword: string): (d: Option<Dialog>)
    ensures username == "" || password == "" || confirmPassword == "" ==> d == Some(EMPTY_FIELDS)
    ensures username != "" && password != "" && confirmPassword != "" && password != confirmPassword
            ==> d == Some(MISMATCH)
    ensures d.None? <==> username != "" && password != "" && password == confirmPassword
  {
    if username == "" || password == "" || confirmPassword == "" then Some(EMPTY_FIELDS)
    else if password != confirmPassword then Some(MISMATCH)
    else None
  }

  /** `{ username, password }`: the stored record has no full name. */
  function StoredRecord(username: string, password: string): (v: Value)
    ensures v.JObj? && v.fields.Keys == {"username", "password"}
    ensures v.fields["username"] == JStr(username) && v.fields["password"] == JStr(password)
  {
    JObj(map["username" := JStr(username), "password" := JStr(password)])
  }

  class OnboardingRegisterScreen {
    const storage: AsyncStorage
    var username: string
    var password: string
    var confirmPassword: string
    var loading: bool

    constructor (storage: AsyncStorage)
      ensures this.storage == storage && username == "" && password == "" && confirmPassword == "" && !loading
    {
      this.storage := storage;
      username := "";
      password := "";
      confirmPassword := "";
      loading := false;
    }

    /** `handleRegister`, with `encode` for JSON.stringify. */
    method HandleRegister(encode: Value -> string) returns (result: RegisterResult)
      modifies this, storage
      ensures CheckFields(username, password, confirmPassword).Some? ==>
                result == Refused(CheckFields(username, password, confirmPassword).value)
                && storage.items == old(storage.items) && loading == old(loading)
      ensures CheckFields(username, password, confirmPassword).None? ==>
                storage.items == old(storage.items)[LoginScreen.LAST_USER_KEY := encode(StoredRecord(username, password))]
                && result == Registered(SUCCESS, LoginScreen.LoginParams(Some(username), Some(password), None))
                && !loading
      ensures username == old(username) && password == old(password) && confirmPassword == old(confirmPassword)
    {
      var problem := CheckFields(username, password, confirmPassword);
      if problem.Some? {
        return Refused(problem.value);
      }
      loading := true;
      storage.SetItem(LoginScreen.LAST_USER_KEY, encode(StoredRecord(username, password)));
      result := Registered(SUCCESS, LoginScreen.LoginParams(Some(username), Some(password), None));
      loading := false;
    }
  }

  /** The route parameters a local registration hands to Login fill its form with
      that username and password and an empty full name, whatever the store holds. */
  lemma RegisteredFillsLogin(username: string, password: string, confirmPassword: string,
                             form: LoginScreen.FormData, stored: Option<string>,
                             decode: string -> Option<LoginScreen.StoredUser>)
    requires CheckFields(username, password, confirmPassword).None?
    ensures LoginScreen.Autofill(form, Some(LoginScreen.LoginParams(Some(username), Some(password), None)), stored, decode)
            == LoginScreen.FormData(username, password, "")
  {
  }

  /** Without route parameters, the stored record fills the same fields, provided
      JSON.parse reads back what JSON.stringify wrote. */
  lemma StoredRecordFillsLogin(username: string, password: string, form: LoginScreen.FormData,
                               encode: Value -> string, decode: string -> Option<LoginScreen.StoredUser>)
    requires encode(StoredRecord(username, password)) != ""
    requires decode(encode(StoredRecord(username, password))) == Some(LoginScreen.StoredUser(username, password, None))
    ensures LoginScreen.Autofill(form, None, Some(encode(StoredRecord(username, password))), decode)
            == LoginScreen.FormData(username, password, "")
  {
  }
}
