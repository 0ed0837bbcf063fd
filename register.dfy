/** The registration form (app/register.tsx:19-50): the checks made before
    `register` is called, the user data it receives, and the message shown when
    it throws. */
module Register {
  import opened Common
  import opened Entities
  import AppStore

  const RequiredMissing := "Nama lengkap, email, dan password harus diisi"
  const PasswordTooShort := "Password harus minimal 6 karakter"
  const RegisterFailed := "Terjadi kesalahan saat registrasi. Silakan coba lagi."

  /** The message that stops a registration, if any. Name, email and password
      are required; a password shorter than six characters is refused; the
      required-field message wins when both apply. */
  function RegisterError(fullName: string, email: string, password: string): (r: Option<string>)
    ensures r == None <==> fullName != "" && email != "" && password != "" && |password| >= MinPasswordLength
    ensures fullName == "" || email == "" || password == "" ==> r == Some(RequiredMissing)
    ensures fullName != "" && email != "" && password != "" && |password| < MinPasswordLength ==>
      r == Some(PasswordTooShort)
  {
    if fullName == "" || email == "" || password == "" then Some(RequiredMissing)
    else if |password| < MinPasswordLength then Some(PasswordTooShort)
    else None
  }

  class RegisterScreen {
    const store: AppStore.Store
    var fullName: string
    var email: string
    var password: string
    var phone: string
    var address: string
    var error: string
    var isLoading: bool

    constructor (store: AppStore.Store)
      ensures this.store == store
      ensures fullName == "" && email == "" && password == "" && phone == "" && address == ""
      ensures error == "" && !isLoading
    {
      this.store := store;
      fullName, email, password, phone, address := "", "", "", "", "";
      error, isLoading := "", false;
    }

    /** `handleRegister()`. A refused form calls nothing. Otherwise `register`
        receives the five fields (phone and address even when empty) and the
        screen moves on only when it succeeds. */
    method HandleRegister(created: Outcome<Option<User>>) returns (sent: Option<User>, navigated: bool)
      requires store.Valid()
      modifies this`error, this`isLoading, store
      ensures store.Valid()
      ensures RegisterError(fullName, email, password).Some? ==>
        && sent == None && !navigated
        && error == RegisterError(fullName, email, password).value
        && isLoading == old(isLoading)
        && unchanged(store)
      ensures RegisterError(fullName, email, password).None? ==>
        && sent == Some(User(None, email, Some(password), fullName, Some(phone), Some(address)))
        && !isLoading
        && navigated == AppStore.RegisterThrown(created).None?
        && (var t := AppStore.RegisterThrown(created);
            error == if t.None? then "" else DisplayMessage(t.value, RegisterFailed))
        && store.user == (if navigated then created.value else old(store.user))
        && store.orders == (if navigated then [] else old(store.orders))
        && (var t := AppStore.RegisterThrown(created);
            store.error == if t.None? then None else Some(DisplayMessage(t.value, AppStore.RegisterFallback)))
        && !store.isLoading
        && store.cart == old(store.cart)
    {
      var refusal := RegisterError(fullName, email, password);
      if refusal.Some? {
        error := refusal.value;
        return None, false;
      }
      error := "";
      isLoading := true;
      var data := User(None, email, Some(password), fullName, Some(phone), Some(address));
      sent := Some(data);
      var thrown := store.Register(data, created);
      if thrown.None? {
        navigated := true;
      } else {
        error := DisplayMessage(thrown.value, RegisterFailed);
        navigated := false;
      }
      isLoading := false;
    }
  }
}
