/** The checkout screen (app/payment.tsx): the cart total, the checks made
    before an order is placed, the order data sent, and the order in which the
    order is created and the cart cleared. */
module Payment {
  import opened Common
  import opened Entities
  import Cart
  import AppStore

  const CashOnDelivery := "cod"
  const BankTransfer := "transfer"
  const NoSenderAccount := "-"
  const AddressMissing := "Alamat pengiriman belum diatur. Silakan lengkapi profil Anda terlebih dahulu."
  const SenderAccountMissing := "Mohon masukkan nomor rekening pengirim"
  const PaymentFailed := "Terjadi kesalahan saat memproses pembayaran. Silakan coba lagi."

  /** The amount shown and charged: `price * quantity` summed over the cart from
      left to right, starting at 0. */
  function Total(cart: seq<CartItem>): int {
    if cart == [] then 0
    else Total(cart[..|cart| - 1]) + cart[|cart| - 1].price * cart[|cart| - 1].quantity
  }

  lemma {:induction false} TotalAppend(a: seq<CartItem>, b: seq<CartItem>)
    ensures Total(a + b) == Total(a) + Total(b)
  {
    if b == [] {
      assert a + b == a;
    } else {
      assert (a + b)[..|a + b| - 1] == a + b[..|b| - 1];
      TotalAppend(a, b[..|b| - 1]);
    }
  }

  /** Replacing one entry changes the total by exactly that entry's share. */
  lemma {:induction false} TotalReplace(cart: seq<CartItem>, k: nat, e: CartItem)
    requires k < |cart|
    ensures Total(cart[k := e]) == Total(cart) - cart[k].price * cart[k].quantity + e.price * e.quantity
  {
    var n := |cart|;
    if k == n - 1 {
      assert cart[k := e][..n - 1] == cart[..n - 1];
    } else {
      assert cart[k := e][..n - 1] == cart[..n - 1][k := e];
      TotalReplace(cart[..n - 1], k, e);
    }
  }

  /** With no negative prices, a valid cart never totals below zero. */
  lemma {:induction false} TotalNonNegative(cart: seq<CartItem>)
    requires Cart.CartValid(cart)
    requires forall i | 0 <= i < |cart| :: cart[i].price >= 0
    ensures Total(cart) >= 0
  {
    if cart != [] {
      var n := |cart|;
      var front := cart[..n - 1];
      assert Cart.CartValid(front) by {
        forall i, j | 0 <= i < j < n - 1 ensures front[i].id != front[j].id {
          assert front[i] == cart[i] && front[j] == cart[j];
        }
      }
      TotalNonNegative(front);
      assert cart[n - 1].price * cart[n - 1].quantity >= 0;
    }
  }

  /** Swapping one entry's share `price * was` for `price * now` in a total. */
  lemma ShareChange(total: int, replaced: int, price: int, was: int, now: int)
    requires replaced == total - price * was + price * now
    ensures replaced == total + price * (now - was)
  {
  }

  /** Giving the entry at `k` quantity `q` changes the total by its price times
      the change in quantity. */
  lemma TotalRequantify(cart: seq<CartItem>, k: nat, q: int)
    requires k < |cart|
    ensures Total(cart[k := cart[k].(quantity := q)]) == Total(cart) + cart[k].price * (q - cart[k].quantity)
  {
    var e := cart[k].(quantity := q);
    assert Total(cart[k := e]) == Total(cart) - cart[k].price * cart[k].quantity + cart[k].price * q by {
      TotalReplace(cart, k, e);
    }
    ShareChange(Total(cart), Total(cart[k := e]), cart[k].price, cart[k].quantity, q);
  }

  lemma TotalBumped(cart: seq<CartItem>, k: nat)
    requires k < |cart|
    ensures Total(cart[k := cart[k].(quantity := cart[k].quantity + 1)]) == Total(cart) + cart[k].price
  {
    TotalRequantify(cart, k, cart[k].quantity + 1);
    assert cart[k].price * (cart[k].quantity + 1 - cart[k].quantity) == cart[k].price;
  }

  /** In a valid cart the entry at `k` is the only one carrying its id, so a
      `map` that changes the entries with that id changes position `k` alone. */
  lemma OnlyAt(cart: seq<CartItem>, k: nat, e: CartItem, r: seq<CartItem>)
    requires Cart.CartValid(cart) && k < |cart| && |r| == |cart| && r[k] == e
    requires forall i | 0 <= i < |cart| && cart[i].id != cart[k].id :: r[i] == cart[i]
    ensures r == cart[k := e]
  {
    forall i | 0 <= i < |cart| ensures r[i] == cart[k := e][i] {
      if i != k {
        assert cart[i].id != cart[k].id;
      }
    }
  }

  /** Adding a product already in the cart raises the total by the unit price
      of the entry in the cart (not the price passed in). */
  lemma TotalAfterAddExisting(cart: seq<CartItem>, p: Product, k: nat)
    requires Cart.CartValid(cart) && k < |cart| && cart[k].id == p.id
    ensures Total(Cart.AddToCart(cart, p)) == Total(cart) + cart[k].price
  {
    OnlyAt(cart, k, cart[k].(quantity := cart[k].quantity + 1), Cart.AddToCart(cart, p));
    TotalBumped(cart, k);
  }

  /** Adding a product not yet in the cart raises the total by its price. */
  lemma TotalAfterAddNew(cart: seq<CartItem>, p: Product)
    requires !Cart.Contains(cart, p.id)
    ensures Total(Cart.AddToCart(cart, p)) == Total(cart) + p.price
  {
    var e := Cart.NewEntry(p);
    assert Total([e]) == p.price by {
      assert [e][..0] == [];
    }
    TotalAppend(cart, [e]);
  }

  /** Setting an entry's quantity to `q >= 1` changes the total by its price times
      the change in quantity (a refused update leaves the cart, hence the total,
      as it was). */
  lemma TotalAfterUpdate(cart: seq<CartItem>, id: string, q: int, k: nat)
    requires Cart.CartValid(cart) && q >= 1 && k < |cart| && cart[k].id == id
    ensures Total(Cart.UpdateQuantity(cart, id, q)) == Total(cart) + cart[k].price * (q - cart[k].quantity)
  {
    OnlyAt(cart, k, cart[k].(quantity := q), Cart.UpdateQuantity(cart, id, q));
    TotalRequantify(cart, k, q);
  }

  /** In a valid cart, entry k's id occurs neither before nor after it. */
  lemma SingleCopy(cart: seq<CartItem>, k: nat)
    requires Cart.CartValid(cart) && k < |cart|
    ensures !Cart.Contains(cart[..k], cart[k].id) && !Cart.Contains(cart[k + 1..], cart[k].id)
  {
    var before, after := cart[..k], cart[k + 1..];
    forall j | 0 <= j < k ensures before[j].id != cart[k].id {
      assert before[j] == cart[j];
    }
    forall j | 0 <= j < |after| ensures after[j].id != cart[k].id {
      assert after[j] == cart[k + 1 + j];
    }
  }

  /** Removing the id of entry k, which occurs nowhere else, leaves the entries
      on either side of it. */
  lemma {:induction false} RemoveAt(cart: seq<CartItem>, k: nat)
    requires k < |cart|
    requires !Cart.Contains(cart[..k], cart[k].id) && !Cart.Contains(cart[k + 1..], cart[k].id)
    ensures Cart.RemoveFromCart(cart, cart[k].id) == cart[..k] + cart[k + 1..]
  {
    var id := cart[k].id;
    if k == 0 {
      assert cart[k + 1..] == cart[1..];
    } else {
      var tail := cart[1..];
      assert cart[0] == cart[..k][0];
      assert tail[k - 1] == cart[k];
      assert tail[..k - 1] == cart[1..k];
      assert tail[k..] == cart[k + 1..];
      var front := tail[..k - 1];
      assert !Cart.Contains(front, id) by {
        forall j | 0 <= j < k - 1 ensures front[j].id != id {
          assert front[j] == cart[..k][j + 1];
        }
      }
      RemoveAt(tail, k - 1);
      assert cart[..k] == [cart[0]] + tail[..k - 1];
    }
  }

  /** The total is the total before entry k, plus entry k's share, plus the total after it. */
  lemma TotalAt(cart: seq<CartItem>, k: nat)
    requires k < |cart|
    ensures Total(cart) == Total(cart[..k]) + cart[k].price * cart[k].quantity + Total(cart[k + 1..])
  {
    var before, here, after := cart[..k], [cart[k]], cart[k + 1..];
    assert cart == before + here + after;
    assert Total(here) == cart[k].price * cart[k].quantity by {
      assert here[..0] == [];
    }
    TotalAppend(before + here, after);
    TotalAppend(before, here);
  }

  /** Removing a product lowers the total by that entry's whole share. */
  lemma TotalAfterRemove(cart: seq<CartItem>, k: nat)
    requires Cart.CartValid(cart) && k < |cart|
    ensures Total(Cart.RemoveFromCart(cart, cart[k].id)) == Total(cart) - cart[k].price * cart[k].quantity
  {
    SingleCopy(cart, k);
    RemoveAt(cart, k);
    TotalAt(cart, k);
    TotalAppend(cart[..k], cart[k + 1..]);
  }

  /** Adding product P1 (25000) twice and P2 (30000) once to an empty cart gives
      two entries, P1 with quantity 2 and P2 with quantity 1, totalling 80000. */
  lemma TwoProductsScenario(p1: Product, p2: Product)
    requires p1.price == 25000 && p2.price == 30000 && p1.id != p2.id
    ensures Cart.AddToCart(Cart.AddTimes([], p1, 2), p2)
      == [Cart.NewEntry(p1).(quantity := 2), Cart.NewEntry(p2)]
    ensures Total(Cart.AddToCart(Cart.AddTimes([], p1, 2), p2)) == 80000
  {
    var first, second := Cart.NewEntry(p1).(quantity := 2), Cart.NewEntry(p2);
    var c := Cart.AddTimes([], p1, 2);
    assert c == [first] by {
      Cart.RepeatedAdds([], p1, 2);
    }
    assert Cart.AddToCart(c, p2) == [first, second] by {
      assert !Cart.Contains(c, p2.id);
    }
    assert Total([first]) == 50000 by {
      assert [first][..0] == [];
    }
    assert Total([second]) == 30000 by {
      assert [second][..0] == [];
    }
    TotalAppend([first], [second]);
    assert [first] + [second] == [first, second];
  }

  /** A delivery address is set: `user?.address` is truthy. */
  predicate HasAddress(user: Option<User>) {
    user.Some? && user.value.address.Some? && user.value.address.value != ""
  }

  /** The message that stops a checkout, if any: the address check runs first,
      then a bank transfer needs a sender account. */
  function CheckoutError(user: Option<User>, paymentMethod: string, senderAccount: string): (r: Option<string>)
    ensures r == None <==> HasAddress(user) && (paymentMethod == BankTransfer ==> senderAccount != "")
    ensures !HasAddress(user) ==> r == Some(AddressMissing)
    ensures HasAddress(user) && r != None ==> r == Some(SenderAccountMissing)
  {
    if !HasAddress(user) then Some(AddressMissing)
    else if paymentMethod == BankTransfer && senderAccount == "" then Some(SenderAccountMissing)
    else None
  }

  class PaymentScreen {
    const store: AppStore.Store
    var selectedMethod: string
    var senderAccount: string
    var isLoading: bool
    var error: string

    constructor (store: AppStore.Store)
      ensures this.store == store
      ensures selectedMethod == CashOnDelivery && senderAccount == "" && !isLoading && error == ""
    {
      this.store := store;
      selectedMethod, senderAccount, isLoading, error := CashOnDelivery, "", false, "";
    }

    /** `handleConfirmPayment()`. A refused checkout calls nothing. Otherwise the
        order data is built from the current cart and user, the order is created,
        and only once that succeeds is the cart cleared and the orders screen shown. */
    method ConfirmPayment(created: Outcome<Order>) returns (sent: Option<NewOrder>, navigated: bool)
      requires store.Valid()
      modifies this`isLoading, this`error, store
      ensures store.Valid() && store.user == old(store.user)
      ensures CheckoutError(old(store.user), selectedMethod, senderAccount).Some? ==>
        && sent == None && !navigated
        && error == CheckoutError(old(store.user), selectedMethod, senderAccount).value
        && isLoading == old(isLoading)
        && unchanged(store)
      ensures CheckoutError(old(store.user), selectedMethod, senderAccount).None? ==>
        && sent.Some?
        && sent.value.userId == old(store.user).value.id
        && sent.value.items == old(store.cart)
        && sent.value.totalPrice == Total(old(store.cart))
        && sent.value.status == StatusProcessing
        && sent.value.paymentMethod == selectedMethod
        && sent.value.senderAccount == (if selectedMethod == BankTransfer then senderAccount else NoSenderAccount)
        && sent.value.address == old(store.user).value.address.value
        && !isLoading && !store.isLoading
        && navigated == created.Resolved?
      ensures CheckoutError(old(store.user), selectedMethod, senderAccount).None? && created.Resolved? ==>
        && store.cart == []
        && store.orders == [created.value] + old(store.orders)
        && error == "" && store.error == None
      ensures CheckoutError(old(store.user), selectedMethod, senderAccount).None? && created.Rejected? ==>
        && store.cart == old(store.cart)
        && store.orders == old(store.orders)
        && store.error == Some(DisplayMessage(created.thrown, AppStore.CreateOrderFallback))
        && error == PaymentFailed
    {
      var refusal := CheckoutError(store.user, selectedMethod, senderAccount);
      if refusal.Some? {
        error := refusal.value;
        return None, false;
      }
      isLoading := true;
      error := "";
      var u := store.user.value;
      var payload := NewOrder(
        u.id, store.cart, Total(store.cart), StatusProcessing, selectedMethod,
        if selectedMethod == BankTransfer then senderAccount else NoSenderAccount,
        u.address.value);
      sent := Some(payload);
      var thrown := store.CreateOrder(payload, created);
      if thrown.None? {
        store.ClearCart();
        navigated := true;
      } else {
        error := PaymentFailed;
        navigated := false;
      }
      isLoading := false;
    }
  }
}
