/** The application store (store.ts): one mutable record holding the session
    user, the order ledger, the cart, a loading flag and an error message. Every
    backend call an action awaits is a parameter holding how that call settles,
    and every action runs as one atomic step. */
module AppStore {
  import opened Common
  import opened Entities
  import Cart

  const LoginFallback := "Terjadi kesalahan saat login"
  const LoginRefused := "Login gagal"
  const RegisterFallback := "Terjadi kesalahan saat registrasi"
  const RegisterRefused := "Registrasi gagal"
  const LogoutFallback := "Terjadi kesalahan saat logout"
  const CreateOrderFallback := "Terjadi kesalahan saat membuat pesanan"
  const FetchOrdersFallback := "Terjadi kesalahan saat mengambil data pesanan"

  /** What `login` throws: the rejection of the credential check, an `Error`
      when it resolves with no user, or the rejection of the order fetch that
      follows a successful credential check. */
  function LoginThrown(auth: Outcome<Option<User>>, fetched: Outcome<Option<seq<Order>>>): (r: Option<Thrown>)
    ensures r.None? <==> auth.Resolved? && auth.value.Some? && fetched.Resolved?
    ensures auth.Rejected? ==> r == Some(auth.thrown)
    ensures auth.Resolved? && auth.value.None? ==> r == Some(ErrorObject(LoginRefused))
    ensures auth.Resolved? && auth.value.Some? && fetched.Rejected? ==> r == Some(fetched.thrown)
  {
    match auth
    case Rejected(t) => Some(t)
    case Resolved(None) => Some(ErrorObject(LoginRefused))
    case Resolved(Some(_)) => if fetched.Rejected? then Some(fetched.thrown) else None
  }

  /** What `register` throws: the rejection of the insert, or an `Error` when it
      resolves with no user. */
  function RegisterThrown(created: Outcome<Option<User>>): (r: Option<Thrown>)
    ensures r.None? <==> created.Resolved? && created.value.Some?
    ensures created.Rejected? ==> r == Some(created.thrown)
    ensures created.Resolved? && created.value.None? ==> r == Some(ErrorObject(RegisterRefused))
  {
    match created
    case Rejected(t) => Some(t)
    case Resolved(None) => Some(ErrorObject(RegisterRefused))
    case Resolved(Some(_)) => None
  }

  /** `orders || []`: a fetch that resolves with `null` empties the ledger. */
  function OrdersOrEmpty(fetched: Option<seq<Order>>): seq<Order> {
    fetched.GetOr([])
  }

  /** `user?.id` is truthy: there is a user and its id is a non-empty string. */
  predicate HasUserId(user: Option<User>) {
    user.Some? && user.value.id.Some? && user.value.id.value != ""
  }

  class Store {
    var user: Option<User>
    var orders: seq<Order>
    var isLoading: bool
    var error: Option<string>
    var cart: seq<CartItem>

    /** The store invariant: the cart holds at most one entry per product and no
        quantity below 1. */
    ghost predicate Valid()
      reads this
    {
      Cart.CartValid(cart)
    }

    constructor ()
      ensures Valid()
      ensures user == None && orders == [] && !isLoading && error == None && cart == []
    {
      user, orders, isLoading, error, cart := None, [], false, None, [];
    }

    /** `login(email, password)`: the user is stored as soon as the credential
        check succeeds, before the orders are fetched, so a failed fetch leaves
        the user signed in with the error recorded. */
    method Login(email: string, password: string, auth: Outcome<Option<User>>, fetched: Outcome<Option<seq<Order>>>)
      returns (thrown: Option<Thrown>)
      requires Valid()
      modifies this`user, this`orders, this`isLoading, this`error
      ensures Valid() && !isLoading
      ensures thrown == LoginThrown(auth, fetched)
      ensures user == if auth.Resolved? && auth.value.Some? then auth.value else old(user)
      ensures orders == if thrown.None? then OrdersOrEmpty(fetched.value) else old(orders)
      ensures error == if thrown.None? then None else Some(DisplayMessage(thrown.value, LoginFallback))
    {
      isLoading, error := true, None;
      match auth {
        case Rejected(t) =>
          thrown := Some(t);
        case Resolved(None) =>
          thrown := Some(ErrorObject(LoginRefused));
        case Resolved(Some(u)) =>
          user := Some(u);
          match fetched {
            case Rejected(t) =>
              thrown := Some(t);
            case Resolved(list) =>
              orders := OrdersOrEmpty(list);
              thrown := None;
          }
      }
      if thrown.Some? {
        error := Some(DisplayMessage(thrown.value, LoginFallback));
      }
      isLoading := false;
    }

    /** `register(userData)`: a created user becomes the session user with an
        empty order ledger. */
    method Register(data: User, created: Outcome<Option<User>>) returns (thrown: Option<Thrown>)
      requires Valid()
      modifies this`user, this`orders, this`isLoading, this`error
      ensures Valid() && !isLoading
      ensures thrown == RegisterThrown(created)
      ensures thrown.None? ==> user == created.value && orders == [] && error == None
      ensures thrown.Some? ==> user == old(user) && orders == old(orders)
      ensures thrown.Some? ==> error == Some(DisplayMessage(thrown.value, RegisterFallback))
    {
      isLoading, error := true, None;
      thrown := RegisterThrown(created);
      if thrown.None? {
        user, orders := created.value, [];
      } else {
        error := Some(DisplayMessage(thrown.value, RegisterFallback));
      }
      isLoading := false;
    }

    /** `logout()`: once the backend session is closed the user and the order
        ledger are cleared; the cart is kept. */
    method Logout(signOut: Outcome<()>) returns (thrown: Option<Thrown>)
      requires Valid()
      modifies this`user, this`orders, this`isLoading, this`error
      ensures Valid() && !isLoading
      ensures signOut.Resolved? ==> thrown == None && user == None && orders == [] && error == None
      ensures signOut.Rejected? ==> thrown == Some(signOut.thrown) && user == old(user) && orders == old(orders)
      ensures signOut.Rejected? ==> error == Some(DisplayMessage(signOut.thrown, LogoutFallback))
    {
      isLoading, error := true, None;
      match signOut {
        case Resolved(_) =>
          user, orders := None, [];
          thrown := None;
        case Rejected(t) =>
          error := Some(DisplayMessage(t, LogoutFallback));
          thrown := Some(t);
      }
      isLoading := false;
    }

    /** `logout()` as written. It reads `supabase` from the default export of the
        database module, which has no such member, so reading `.auth` on it throws
        a `TypeError` before anything is signed out; `typeError` is the engine's
        message for it. */
    method LogoutAsWritten(typeError: string) returns (thrown: Option<Thrown>)
      requires Valid()
      modifies this`user, this`orders, this`isLoading, this`error
      ensures Valid() && !isLoading
      ensures thrown == Some(ErrorObject(typeError))
      ensures user == old(user) && orders == old(orders)
      ensures error == Some(typeError)
    {
      thrown := Logout(Rejected(ErrorObject(typeError)));
    }

    /** `setUser(user)`: replaces the session user and nothing else. */
    method SetUser(u: Option<User>)
      modifies this`user
      ensures user == u
    {
      user := u;
    }

    /** `createOrder(data)`: the order the backend returns is put in front of the
        ledger only once the backend has confirmed it; the cart is never touched. */
    method CreateOrder(data: NewOrder, created: Outcome<Order>) returns (thrown: Option<Thrown>)
      requires Valid()
      modifies this`orders, this`isLoading, this`error
      ensures Valid() && !isLoading
      ensures created.Resolved? ==> thrown == None && orders == [created.value] + old(orders) && error == None
      ensures created.Rejected? ==> thrown == Some(created.thrown) && orders == old(orders)
      ensures created.Rejected? ==> error == Some(DisplayMessage(created.thrown, CreateOrderFallback))
    {
      isLoading, error := true, None;
      match created {
        case Resolved(o) =>
          orders := [o] + orders;
          thrown := None;
        case Rejected(t) =>
          error := Some(DisplayMessage(t, CreateOrderFallback));
          thrown := Some(t);
      }
      isLoading := false;
    }

    /** `fetchOrders()`: without a user id it returns at once and touches nothing,
        not even the loading flag or the error; otherwise it replaces the ledger
        with what the backend returns. */
    method FetchOrders(fetched: Outcome<Option<seq<Order>>>) returns (thrown: Option<Thrown>)
      requires Valid()
      modifies this`orders, this`isLoading, this`error
      ensures Valid()
      ensures !HasUserId(user) ==> thrown == None && orders == old(orders)
      ensures !HasUserId(user) ==> isLoading == old(isLoading) && error == old(error)
      ensures HasUserId(user) ==> !isLoading
      ensures HasUserId(user) && fetched.Resolved? ==>
        thrown == None && orders == OrdersOrEmpty(fetched.value) && error == None
      ensures HasUserId(user) && fetched.Rejected? ==> thrown == Some(fetched.thrown) && orders == old(orders)
      ensures HasUserId(user) && fetched.Rejected? ==>
        error == Some(DisplayMessage(fetched.thrown, FetchOrdersFallback))
    {
      if !HasUserId(user) {
        return None;
      }
      isLoading, error := true, None;
      match fetched {
        case Resolved(list) =>
          orders := OrdersOrEmpty(list);
          thrown := None;
        case Rejected(t) =>
          error := Some(DisplayMessage(t, FetchOrdersFallback));
          thrown := Some(t);
      }
      isLoading := false;
    }

    method SetLoading(b: bool)
      modifies this`isLoading
      ensures isLoading == b
    {
      isLoading := b;
    }

    method SetError(e: Option<string>)
      modifies this`error
      ensures error == e
    {
      error := e;
    }

    method ClearError()
      modifies this`error
      ensures error == None
    {
      error := None;
    }

    /** `addToCart(p)`: one more unit of an entry already in the cart, or a new
        entry with quantity 1 at the end. */
    method AddToCart(p: Product)
      requires Valid()
      modifies this`cart
      ensures Valid()
      ensures cart == Cart.AddToCart(old(cart), p)
    {
      Cart.AddPreservesValid(cart, p);
      cart := Cart.AddToCart(cart, p);
    }

    /** `removeFromCart(id)`: drops every entry with that id. */
    method RemoveFromCart(id: string)
      requires Valid()
      modifies this`cart
      ensures Valid()
      ensures cart == Cart.RemoveFromCart(old(cart), id)
    {
      Cart.RemovePreservesValid(cart, id);
      cart := Cart.RemoveFromCart(cart, id);
    }

    /** `updateQuantity(id, q)`: refused when `q < 1`. */
    method UpdateQuantity(id: string, q: int)
      requires Valid()
      modifies this`cart
      ensures Valid()
      ensures cart == Cart.UpdateQuantity(old(cart), id, q)
    {
      if q < 1 {
        return;
      }
      Cart.UpdatePreservesValid(cart, id, q);
      cart := Cart.UpdateQuantity(cart, id, q);
    }

    method ClearCart()
      modifies this`cart
      ensures Valid() && cart == []
    {
      cart := [];
    }
  }

  /** Logging out as written never signs anybody out: a signed-in user is still
      signed in afterwards and the store shows the `TypeError`'s message. */
  method SignedInLogoutKeepsUser(u: User, typeError: string) returns (after: Option<User>, shown: Option<string>)
    ensures after == Some(u)
    ensures shown == Some(typeError)
  {
    var store := new Store();
    store.SetUser(Some(u));
    var _ := store.LogoutAsWritten(typeError);
    after, shown := store.user, store.error;
  }
}
