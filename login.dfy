/** The sign-in form (app/login.tsx:33-53): the required-field check, the call
    to the store's `login`, and the message shown when it throws. */
module Login {
  import opened Common
  import opened Entities
  import AppStore

  const RequiredMissing := "Email dan password harus diisi"
  const LoginFailed := "Login gagal. Periksa email dan password Anda."

  /** The message that stops a sign-in, if any: both fields are required. */
  function LoginError(email: string, password: string): (r: Option<string>)
    ensures r == None <==> email != "" && password != ""
    ensures r != None ==> r == Some(RequiredMissing)
  {
    if email == "" || password == "" then Some(RequiredMissing) else None
  }

  class LoginScreen {
    const store: AppStore.Store
    var email: string
    var password: string
    var error: string
    var isLoading: bool

    constructor (store: AppStore.Store)
      ensures this.store == store
      ensures email == "" && password == "" && error == "" && !isLoading
    {
      this.store := store;
      email, password, error, isLoading := "", "", "", false;
    }

    /** `handleLogin()`. A refused form calls nothing. Otherwise the error is
        cleared, the store's `login` runs, and the screen moves on to the tabs
        only once it has succeeded. */
    method HandleLogin(auth: Outcome<Option<User>>, fetched: Outcome<Option<seq<Order>>>)
      returns (called: bool, navigated: bool)
      requires store.Valid()
      modifies this`error, this`isLoading, store
      ensures store.Valid()
      ensures called == LoginError(email, password).None?
      ensures !called ==>
        && !navigated
        && error == RequiredMissing
        && isLoading == old(isLoading)
        && unchanged(store)
      ensures called ==>
        && !isLoading
        && navigated == AppStore.LoginThrown(auth, fetched).None?
        && (var t := AppStore.LoginThrown(auth, fetched);
            error == if t.None? then "" else DisplayMessage(t.value, LoginFailed))
        && store.user == (if auth.Resolved? && auth.value.Some? then auth.value else old(store.user))
        && store.orders == (if navigated then AppStore.OrdersOrEmpty(fetched.value) else old(store.orders))
        && (var t := AppStore.LoginThrown(auth, fetched);
            store.error == if t.None? then None else Some(DisplayMessage(t.value, AppStore.LoginFallback)))
        && !store.isLoading
        && store.cart == old(store.cart)
    {
      var refusal := LoginError(email, password);
      if refusal.Some? {
        error := refusal.value;
        return false, false;
      }
      called := true;
      error := "";
      isLoading := true;
      var thrown := store.Login(email, password, auth, fetched);
      if thrown.None? {
        navigated := true;
      } else {
        error := DisplayMessage(thrown.value, LoginFailed);
        navigated := false;
      }
      isLoading := false;
    }
  }

  /** A sign-in with credentials the backend rejects: the screen stays, both the
      screen and the store show the rejection's message, and nobody is signed in. */
  method UnknownCredentialsScenario(rejection: string)
    returns (called: bool, navigated: bool, shown: string, storeError: Option<string>, signedIn: Option<User>)
    ensures called && !navigated
    ensures shown == rejection && storeError == Some(rejection)
    ensures signedIn == None
  {
    var store := new AppStore.Store();
    var screen := new LoginScreen(store);
    screen.email, screen.password := "bad@x.com", "wrong";
    called, navigated := screen.HandleLogin(Rejected(ErrorObject(rejection)), Resolved(None));
    shown, storeError, signedIn := screen.error, store.error, store.user;
  }
}
