/** The cart ledger of the store (store.ts:171-208): the new cart each cart
    action computes from the old one, and the cart invariant those actions keep. */
module Cart {
  import opened Common
  import opened Entities

  /** Some entry carries `id`: `cart.find(i => i.id === id)` finds an entry. */
  predicate Contains(cart: seq<CartItem>, id: string) {
    exists i | 0 <= i < |cart| :: cart[i].id == id
  }

  /** The cart invariant: at most one entry per product id, and every quantity at least 1. */
  predicate CartValid(cart: seq<CartItem>) {
    && (forall i, j | 0 <= i < j < |cart| :: cart[i].id != cart[j].id)
    && (forall i | 0 <= i < |cart| :: cart[i].quantity >= 1)
  }

  /** The entry for a product not yet in the cart: `{...item, quantity: 1}`. */
  function NewEntry(p: Product): CartItem {
    CartItem(p.id, p.name, p.price, 1, p.image, p.description)
  }

  /** `cart.map(i => i.id === id ? {...i, quantity: i.quantity + 1} : i)` */
  function Increment(cart: seq<CartItem>, id: string): (r: seq<CartItem>)
    ensures |r| == |cart| && forall i | 0 <= i < |cart| :: r[i].id == cart[i].id
    ensures forall i | 0 <= i < |cart| && cart[i].id == id :: r[i] == cart[i].(quantity := cart[i].quantity + 1)
    ensures forall i | 0 <= i < |cart| && cart[i].id != id :: r[i] == cart[i]
  {
    seq(|cart|, i requires 0 <= i < |cart| =>
      if cart[i].id == id then cart[i].(quantity := cart[i].quantity + 1) else cart[i])
  }

  /** The cart after `addToCart(p)`: an entry already carrying `p.id` gets one more
      unit and keeps its place and its own name and price; otherwise the product
      is appended with quantity 1. */
  function AddToCart(cart: seq<CartItem>, p: Product): (r: seq<CartItem>)
    ensures Contains(r, p.id)
    ensures |r| == if Contains(cart, p.id) then |cart| else |cart| + 1
    ensures forall i | 0 <= i < |cart| && cart[i].id == p.id ::
      r[i] == cart[i].(quantity := cart[i].quantity + 1)
    ensures forall i | 0 <= i < |cart| && cart[i].id != p.id :: r[i] == cart[i]
    ensures !Contains(cart, p.id) ==> r == cart + [NewEntry(p)]
  {
    if Contains(cart, p.id) then
      Increment(cart, p.id)
    else
      var r := cart + [NewEntry(p)];
      assert r[|cart|].id == p.id;
      r
  }

  /** The cart after `removeFromCart(id)`: `cart.filter(item => item.id !== id)`. */
  function RemoveFromCart(cart: seq<CartItem>, id: string): (r: seq<CartItem>)
    ensures !Contains(r, id)
    ensures forall x :: x in r <==> x in cart && x.id != id
    ensures !Contains(cart, id) ==> r == cart
    ensures |r| <= |cart|
  {
    if cart == [] then []
    else if cart[0].id == id then RemoveFromCart(cart[1..], id)
    else [cart[0]] + RemoveFromCart(cart[1..], id)
  }

  /** The cart after `updateQuantity(id, q)`: nothing happens when `q < 1`; otherwise
      every entry carrying `id` gets quantity `q` and nothing else changes. */
  function UpdateQuantity(cart: seq<CartItem>, id: string, q: int): (r: seq<CartItem>)
    ensures q < 1 ==> r == cart
    ensures |r| == |cart|
    ensures forall i | 0 <= i < |cart| && cart[i].id != id :: r[i] == cart[i]
    ensures q >= 1 ==> forall i | 0 <= i < |cart| && cart[i].id == id :: r[i] == cart[i].(quantity := q)
  {
    if q < 1 then
      cart
    else
      seq(|cart|, i requires 0 <= i < |cart| =>
        if cart[i].id == id then cart[i].(quantity := q) else cart[i])
  }

  /** `addToCart(p)` called `n` times in a row. */
  function AddTimes(cart: seq<CartItem>, p: Product, n: nat): seq<CartItem> {
    if n == 0 then cart else AddToCart(AddTimes(cart, p, n - 1), p)
  }

  lemma AddPreservesValid(cart: seq<CartItem>, p: Product)
    requires CartValid(cart)
    ensures CartValid(AddToCart(cart, p))
  {
  }

  /** Filtering out one id never brings back an id the cart did not hold. */
  lemma {:induction false} RemoveKeepsAbsent(cart: seq<CartItem>, id: string, other: string)
    requires !Contains(cart, other)
    ensures !Contains(RemoveFromCart(cart, id), other)
  {
    if cart != [] {
      assert !Contains(cart[1..], other) by {
        forall j | 0 <= j < |cart[1..]| ensures cart[1..][j].id != other {
          assert cart[1..][j] == cart[j + 1];
        }
      }
      RemoveKeepsAbsent(cart[1..], id, other);
    }
  }

  lemma ConsValid(x: CartItem, rest: seq<CartItem>)
    requires CartValid(rest) && x.quantity >= 1 && !Contains(rest, x.id)
    ensures CartValid([x] + rest)
  {
    var r := [x] + rest;
    forall i, j | 0 <= i < j < |r| ensures r[i].id != r[j].id {
      assert r[j] == rest[j - 1];
      if i > 0 {
        assert r[i] == rest[i - 1];
      }
    }
  }

  lemma {:induction false} RemovePreservesValid(cart: seq<CartItem>, id: string)
    requires CartValid(cart)
    ensures CartValid(RemoveFromCart(cart, id))
  {
    if cart != [] {
      var tail := cart[1..];
      assert CartValid(tail) by {
        forall i, j | 0 <= i < j < |tail| ensures tail[i].id != tail[j].id {
          assert tail[i] == cart[i + 1] && tail[j] == cart[j + 1];
        }
      }
      RemovePreservesValid(tail, id);
      if cart[0].id != id {
        assert !Contains(tail, cart[0].id) by {
          forall j | 0 <= j < |tail| ensures tail[j].id != cart[0].id {
            assert tail[j] == cart[j + 1];
          }
        }
        RemoveKeepsAbsent(tail, id, cart[0].id);
        ConsValid(cart[0], RemoveFromCart(tail, id));
      }
    }
  }

  lemma UpdatePreservesValid(cart: seq<CartItem>, id: string, q: int)
    requires CartValid(cart)
    ensures CartValid(UpdateQuantity(cart, id, q))
  {
  }

  /** Adding the same product `n >= 1` times to a cart that lacks it leaves the
      old entries as they were and exactly one entry for the product, at the end,
      whose quantity is `n`. */
  lemma {:induction false} RepeatedAdds(cart: seq<CartItem>, p: Product, n: nat)
    requires !Contains(cart, p.id) && n >= 1
    ensures AddTimes(cart, p, n) == cart + [NewEntry(p).(quantity := n)]
  {
    if n > 1 {
      RepeatedAdds(cart, p, n - 1);
      var prev := AddTimes(cart, p, n - 1);
      assert prev[|cart|].id == p.id;
      var r := AddToCart(prev, p);
      assert |r| == |prev|;
      forall i | 0 <= i < |r| ensures r[i] == (cart + [NewEntry(p).(quantity := n)])[i] {
        if i < |cart| {
          assert prev[i] == cart[i];
        }
      }
    }
  }

  /** Filtering distributes over concatenation: the entries kept stay in their
      relative order. */
  lemma {:induction false} RemoveAppend(a: seq<CartItem>, b: seq<CartItem>, id: string)
    ensures RemoveFromCart(a + b, id) == RemoveFromCart(a, id) + RemoveFromCart(b, id)
  {
    if a != [] {
      assert (a + b)[0] == a[0];
      assert (a + b)[1..] == a[1..] + b;
      RemoveAppend(a[1..], b, id);
    } else {
      assert a + b == b;
    }
  }

  lemma {:induction false} RemoveIncrement(cart: seq<CartItem>, id: string)
    ensures RemoveFromCart(Increment(cart, id), id) == RemoveFromCart(cart, id)
  {
    if cart != [] {
      assert Increment(cart, id)[1..] == Increment(cart[1..], id);
      RemoveIncrement(cart[1..], id);
    }
  }

  /** Removing a product undoes adding it: after `addToCart(p)` then
      `removeFromCart(p.id)` the cart is what removing `p.id` alone gives, and
      when `p.id` was absent that is the cart before the add. */
  lemma RemoveUndoesAdd(cart: seq<CartItem>, p: Product)
    ensures RemoveFromCart(AddToCart(cart, p), p.id) == RemoveFromCart(cart, p.id)
    ensures !Contains(cart, p.id) ==> RemoveFromCart(AddToCart(cart, p), p.id) == cart
  {
    if Contains(cart, p.id) {
      RemoveIncrement(cart, p.id);
    } else {
      RemoveAppend(cart, [NewEntry(p)], p.id);
      assert RemoveFromCart([NewEntry(p)], p.id) == [];
    }
  }
}
