/** The notification feed (app/notification.tsx:19-83): a function of the order
    list. Each order gives a "received" notification and, for the statuses
    `processing` and `delivered`, one status notification; the per-order lists
    are concatenated and then sorted by date, newest first. */
module Notifications {
  import opened Common
  import opened Entities

  const CreatedTitle := "Pesanan Diterima"
  const ProcessingTitle := "Pesanan Sedang Diproses"
  const DeliveredTitle := "Pesanan Selesai"
  const MessagePrefix := "Pesanan: "
  const CreatedSuffix := "-created"
  const ProcessingSuffix := "-processing"
  const DeliveredSuffix := "-delivered"
  const NameSeparator := ", "

  datatype Notification = Notification(id: string, title: string, message: string, date: string, orderId: string)

  /** The moment a notification is dated with: the order's `created_at`, or the
      clock reading `Date.now()` when that string is empty. */
  datatype Moment = Stamp(text: string) | Clock(millis: int)

  /** What the feed depends on besides the orders: `JSON.parse` (no value when it
      throws), the `id-ID` date formatter, the clock, and the number of
      milliseconds `new Date(text).getTime()` reads back from a formatted date. */
  datatype Runtime = Runtime(
    parse: string -> Option<Json>,
    format: Moment -> string,
    now: int,
    key: string -> int)

  /** `parts.join(sep)`. */
  function Join(parts: seq<string>, sep: string): string {
    if parts == [] then ""
    else if |parts| == 1 then parts[0]
    else parts[0] + sep + Join(parts[1..], sep)
  }

  function DigitChar(d: nat): char
    requires d < 10
  {
    "0123456789"[d]
  }

  function Digits(n: nat): string {
    if n < 10 then [DigitChar(n)] else Digits(n / 10) + [DigitChar(n % 10)]
  }

  /** A whole number written as JavaScript writes it. */
  function Decimal(n: int): string {
    if n < 0 then "-" + Digits(-n) else Digits(n)
  }

  /** How `Array.prototype.join` writes one element: null as nothing, nested
      arrays joined with commas, objects as `[object Object]`. */
  function JoinText(v: Json): string {
    match v
    case JNull => ""
    case JBool(b) => if b then "true" else "false"
    case JNumber(n) => Decimal(n)
    case JString(s) => s
    case JArray(es) => Join(seq(|es|, i requires 0 <= i < |es| => JoinText(es[i])), ",")
    case JObject(_) => "[object Object]"
  }

  /** The text an item contributes: its `name` property as the join writes it,
      and nothing for an item without one. A null item also contributes nothing
      (`item?.name`). */
  function NameText(item: Json): string {
    match item
    case JObject(fields) => if "name" in fields then JoinText(fields["name"]) else ""
    case _ => ""
  }

  /** `typeof items === 'string' ? JSON.parse(items) : items`, with a parse that
      throws giving `[]`. */
  function DecodeItems(items: Json, rt: Runtime): Json {
    match items
    case JString(s) => rt.parse(s).GetOr(JArray([]))
    case _ => items
  }

  /** The item names of a decoded item list joined with ", "; empty when the
      value is not an array. */
  function ItemNames(items: Json): string {
    match items
    case JArray(es) => Join(seq(|es|, i requires 0 <= i < |es| => NameText(es[i])), NameSeparator)
    case _ => ""
  }

  /** The same step as written: `items.map(item => item.name)` reads `name` of
      every element, which throws a TypeError (no value here) when an element is
      null. The throw happens outside the `try`, so the whole feed fails. */
  function ItemNamesAsWritten(items: Json): (r: Option<string>)
    ensures r.None? <==> items.JArray? && JNull in items.elems
    ensures r.Some? ==> r.value == ItemNames(items)
  {
    match items
    case JArray(es) =>
      if exists i | 0 <= i < |es| :: es[i] == JNull then None
      else Some(ItemNames(items))
    case _ => Some("")
  }

  /** The source's version and the null-safe one agree on every item list that
      holds no null. */
  lemma AsWrittenAgreesWithoutNull(items: Json)
    requires items.JArray? ==> forall i | 0 <= i < |items.elems| :: items.elems[i] != JNull
    ensures ItemNamesAsWritten(items) == Some(ItemNames(items))
  {
  }

  /** An item list `[null]` (for instance the JSON text "[null]") makes the
      source's version throw, while the null-safe version gives an empty name. */
  lemma NullItemThrows()
    ensures ItemNamesAsWritten(JArray([JNull])).None?
    ensures ItemNames(JArray([JNull])) == ""
  {
    assert JArray([JNull]).elems[0] == JNull;
  }

  /** Decoding never fails: text that does not parse and a value that is not an
      array both give an empty list of names. */
  lemma UnreadableItemsHaveNoNames(items: Json, rt: Runtime)
    requires !DecodeItems(items, rt).JArray? || (items.JString? && rt.parse(items.s).None?)
    ensures ItemNames(DecodeItems(items, rt)) == ""
  {
  }

  /** The item snapshot as the backend stores a cart: one object per entry, with
      the entry's fields under their column names. */
  function CartJson(cart: seq<CartItem>): Json {
    JArray(seq(|cart|, i requires 0 <= i < |cart| => EntryJson(cart[i])))
  }

  function EntryJson(e: CartItem): Json {
    var fields := map[
      "id" := JString(e.id), "name" := JString(e.name), "price" := JNumber(e.price),
      "quantity" := JNumber(e.quantity), "image" := JString(e.image)];
    JObject(if e.description.Some? then fields["description" := JString(e.description.value)] else fields)
  }

  /** The notification message of an order placed from a cart lists the names of
      the cart's entries, in cart order, separated by ", ". */
  lemma CartNamesInMessage(cart: seq<CartItem>)
    ensures ItemNames(CartJson(cart)) == Join(seq(|cart|, i requires 0 <= i < |cart| => cart[i].name), NameSeparator)
  {
    var es := CartJson(cart).elems;
    var names := seq(|es|, i requires 0 <= i < |es| => NameText(es[i]));
    forall i | 0 <= i < |cart| ensures names[i] == cart[i].name {
      assert es[i] == EntryJson(cart[i]);
      assert "name" in es[i].fields && es[i].fields["name"] == JString(cart[i].name);
    }
    assert names == seq(|cart|, i requires 0 <= i < |cart| => cart[i].name);
  }

  function MomentOf(o: Order, now: int): Moment {
    if o.createdAt == "" then Clock(now) else Stamp(o.createdAt)
  }

  /** The date every notification of `o` carries. */
  function DateOf(o: Order, rt: Runtime): string {
    rt.format(MomentOf(o, rt.now))
  }

  /** The message every notification of `o` carries. */
  function MessageOf(o: Order, rt: Runtime): string {
    MessagePrefix + ItemNames(DecodeItems(o.items, rt))
  }

  /** How many notifications an order with this status gets. */
  function CountFor(status: string): nat {
    if status == StatusProcessing || status == StatusDelivered then 2 else 1
  }

  /** The notifications of one order: "received" first, then the one status
      notification `processing` or `delivered` call for. All of them share the
      order's message, date and id. */
  function OrderNotifications(o: Order, rt: Runtime): (r: seq<Notification>)
    ensures |r| == CountFor(o.status)
    ensures r[0].id == o.id + CreatedSuffix && r[0].title == CreatedTitle
    ensures forall i | 1 <= i < |r| :: r[i].title != CreatedTitle
    ensures o.status == StatusProcessing ==> r[1].id == o.id + ProcessingSuffix && r[1].title == ProcessingTitle
    ensures o.status == StatusDelivered ==> r[1].id == o.id + DeliveredSuffix && r[1].title == DeliveredTitle
    ensures forall i | 0 <= i < |r| ::
      r[i].message == MessageOf(o, rt) && r[i].date == DateOf(o, rt) && r[i].orderId == o.id
  {
    var message, date := MessageOf(o, rt), DateOf(o, rt);
    var created := Notification(o.id + CreatedSuffix, CreatedTitle, message, date, o.id);
    if o.status == StatusProcessing then
      [created, Notification(o.id + ProcessingSuffix, ProcessingTitle, message, date, o.id)]
    else if o.status == StatusDelivered then
      [created, Notification(o.id + DeliveredSuffix, DeliveredTitle, message, date, o.id)]
    else
      [created]
  }

  /** `orders.map(...).flat()`: the per-order lists one after the other. */
  function Flatten(orders: seq<Order>, rt: Runtime): seq<Notification> {
    if orders == [] then [] else OrderNotifications(orders[0], rt) + Flatten(orders[1..], rt)
  }

  /** The number of notifications the statuses of `orders` call for. */
  function ExpectedCount(orders: seq<Order>): nat {
    if orders == [] then 0 else CountFor(orders[0].status) + ExpectedCount(orders[1..])
  }

  lemma {:induction false} FlattenLength(orders: seq<Order>, rt: Runtime)
    ensures |Flatten(orders, rt)| == ExpectedCount(orders)
  {
    if orders != [] {
      FlattenLength(orders[1..], rt);
    }
  }

  /** Each order's notifications form one contiguous block of the flattened
      list, the blocks in order-list order. */
  lemma {:induction false} FlattenBlocks(orders: seq<Order>, k: nat, rt: Runtime)
    requires k < |orders|
    ensures Flatten(orders, rt)
      == Flatten(orders[..k], rt) + OrderNotifications(orders[k], rt) + Flatten(orders[k + 1..], rt)
  {
    if k == 0 {
      assert orders[..0] == [];
    } else {
      FlattenBlocks(orders[1..], k - 1, rt);
      assert orders[1..][..k - 1] == orders[1..k];
      assert orders[1..][k - 1 + 1..] == orders[k + 1..];
      assert orders[..k][1..] == orders[1..k];
      assert orders[..k][0] == orders[0];
    }
  }

  /** Newest first by the date read back from each notification. */
  ghost predicate Descending(s: seq<Notification>, key: string -> int) {
    forall i, j | 0 <= i < j < |s| :: key(s[i].date) >= key(s[j].date)
  }

  /** Puts `n` in front of the first entry it is not older than, so among equal
      dates the earlier entry stays first. */
  function InsertByDate(n: Notification, sorted: seq<Notification>, key: string -> int): (r: seq<Notification>)
    ensures multiset(r) == multiset(sorted) + multiset{n}
  {
    if sorted == [] || key(sorted[0].date) <= key(n.date) then
      [n] + sorted
    else
      assert sorted == [sorted[0]] + sorted[1..];
      [sorted[0]] + InsertByDate(n, sorted[1..], key)
  }

  /** A newest-first list stays newest first with an entry in front that is at
      least as new as every entry of the list. */
  lemma DescendingCons(x: Notification, s: seq<Notification>, key: string -> int)
    requires Descending(s, key)
    requires forall y | y in s :: key(y.date) <= key(x.date)
    ensures Descending([x] + s, key)
  {
    var r := [x] + s;
    forall i, j | 0 <= i < j < |r| ensures key(r[i].date) >= key(r[j].date) {
      assert r[j] == s[j - 1];
      if i > 0 {
        assert r[i] == s[i - 1];
      }
    }
  }

  /** The tail of a newest-first list is newest first, and its head is at least
      as new as every entry. */
  lemma DescendingHead(s: seq<Notification>, key: string -> int)
    requires Descending(s, key) && s != []
    ensures Descending(s[1..], key)
    ensures forall y | y in s :: key(y.date) <= key(s[0].date)
  {
    var tail := s[1..];
    forall i, j | 0 <= i < j < |tail| ensures key(tail[i].date) >= key(tail[j].date) {
      assert tail[i] == s[i + 1] && tail[j] == s[j + 1];
    }
  }

  lemma {:induction false} InsertKeepsDescending(n: Notification, sorted: seq<Notification>, key: string -> int)
    requires Descending(sorted, key)
    ensures Descending(InsertByDate(n, sorted, key), key)
  {
    if sorted == [] {
      DescendingCons(n, sorted, key);
    } else if key(sorted[0].date) <= key(n.date) {
      DescendingHead(sorted, key);
      DescendingCons(n, sorted, key);
    } else {
      DescendingHead(sorted, key);
      var tail := sorted[1..];
      InsertKeepsDescending(n, tail, key);
      var rest := InsertByDate(n, tail, key);
      forall x | x in rest ensures key(x.date) <= key(sorted[0].date) {
        assert x in multiset(rest);
        if x != n {
          assert x in multiset(tail);
          assert x in sorted;
        }
      }
      DescendingCons(sorted[0], rest, key);
    }
  }

  /** `list.sort((a, b) => key(b.date) - key(a.date))`: a stable sort, newest
      first. */
  function SortByDate(s: seq<Notification>, key: string -> int): (r: seq<Notification>)
    ensures multiset(r) == multiset(s)
    ensures |r| == |s|
    ensures Descending(r, key)
  {
    if s == [] then []
    else
      assert s == [s[0]] + s[1..];
      InsertKeepsDescending(s[0], SortByDate(s[1..], key), key);
      InsertByDate(s[0], SortByDate(s[1..], key), key)
  }

  /** The feed shown: all notifications, sorted by date. */
  function Feed(orders: seq<Order>, rt: Runtime): seq<Notification> {
    SortByDate(Flatten(orders, rt), rt.key)
  }

  /** The entries of `s` whose date has key `v`, in their order in `s`. */
  function WithKey(s: seq<Notification>, key: string -> int, v: int): seq<Notification> {
    if s == [] then []
    else (if key(s[0].date) == v then [s[0]] else []) + WithKey(s[1..], key, v)
  }

  /** Inserting `n` puts it in front of every entry with the same key, and leaves
      the entries of every other key in their order. */
  lemma {:induction false} InsertWithKey(n: Notification, xs: seq<Notification>, key: string -> int, v: int)
    ensures WithKey(InsertByDate(n, xs, key), key, v) == (if key(n.date) == v then [n] else []) + WithKey(xs, key, v)
  {
    var r := InsertByDate(n, xs, key);
    if xs == [] || key(xs[0].date) <= key(n.date) {
      assert r[0] == n && r[1..] == xs;
    } else {
      var rest := InsertByDate(n, xs[1..], key);
      assert r[0] == xs[0] && r[1..] == rest;
      InsertWithKey(n, xs[1..], key, v);
    }
  }

  /** The sort is stable: for every key, the entries with that key come out in
      the order they went in. */
  lemma {:induction false} SortIsStable(s: seq<Notification>, key: string -> int, v: int)
    ensures WithKey(SortByDate(s, key), key, v) == WithKey(s, key, v)
  {
    if s != [] {
      SortIsStable(s[1..], key, v);
      InsertWithKey(s[0], SortByDate(s[1..], key), key, v);
    }
  }

  /** Notifications with the same date keep their flattened order in the feed;
      in particular an order's "received" notification stays ahead of its
      status notification, which carries the same date. */
  lemma FeedIsStable(orders: seq<Order>, rt: Runtime, v: int)
    ensures WithKey(Feed(orders, rt), rt.key, v) == WithKey(Flatten(orders, rt), rt.key, v)
  {
    SortIsStable(Flatten(orders, rt), rt.key, v);
  }

  /** The feed is a rearrangement of the per-order notifications, so it holds
      as many entries as the statuses call for. */
  lemma FeedIsPermutation(orders: seq<Order>, rt: Runtime)
    ensures multiset(Feed(orders, rt)) == multiset(Flatten(orders, rt))
    ensures |Feed(orders, rt)| == ExpectedCount(orders)
  {
    FlattenLength(orders, rt);
  }

  /** Sorting a list that is already newest first changes nothing: ties are not
      reordered. */
  lemma {:induction false} SortKeepsSorted(s: seq<Notification>, key: string -> int)
    requires Descending(s, key)
    ensures SortByDate(s, key) == s
  {
    if s != [] {
      assert Descending(s[1..], key) by {
        forall i, j | 0 <= i < j < |s| - 1 ensures key(s[1..][i].date) >= key(s[1..][j].date) {
          assert s[1..][i] == s[i + 1] && s[1..][j] == s[j + 1];
        }
      }
      SortKeepsSorted(s[1..], key);
      assert s == [s[0]] + s[1..];
    }
  }

  /** The orders are newest first by the date their notifications carry. */
  ghost predicate OrdersDescending(orders: seq<Order>, rt: Runtime) {
    forall i, j | 0 <= i < j < |orders| :: rt.key(DateOf(orders[i], rt)) >= rt.key(DateOf(orders[j], rt))
  }

  lemma {:induction false} FlattenDatesBounded(orders: seq<Order>, rt: Runtime, bound: int)
    requires forall i | 0 <= i < |orders| :: rt.key(DateOf(orders[i], rt)) <= bound
    ensures forall x | x in Flatten(orders, rt) :: rt.key(x.date) <= bound
  {
    if orders != [] {
      FlattenDatesBounded(orders[1..], rt, bound);
      assert rt.key(DateOf(orders[0], rt)) <= bound;
    }
  }

  lemma {:induction false} FlattenDescending(orders: seq<Order>, rt: Runtime)
    requires OrdersDescending(orders, rt)
    ensures Descending(Flatten(orders, rt), rt.key)
  {
    if orders != [] {
      var rest := orders[1..];
      var top := rt.key(DateOf(orders[0], rt));
      assert OrdersDescending(rest, rt) by {
        forall i, j | 0 <= i < j < |rest|
          ensures rt.key(DateOf(rest[i], rt)) >= rt.key(DateOf(rest[j], rt))
        {
          assert rest[i] == orders[i + 1] && rest[j] == orders[j + 1];
        }
      }
      FlattenDescending(rest, rt);
      assert forall i | 0 <= i < |rest| :: rt.key(DateOf(rest[i], rt)) <= top by {
        forall i | 0 <= i < |rest| ensures rt.key(DateOf(rest[i], rt)) <= top {
          assert rest[i] == orders[i + 1];
        }
      }
      FlattenDatesBounded(rest, rt, top);
      var block, tail := OrderNotifications(orders[0], rt), Flatten(rest, rt);
      var all := block + tail;
      forall i, j | 0 <= i < j < |all| ensures rt.key(all[i].date) >= rt.key(all[j].date) {
        if j < |block| {
        } else if i < |block| {
          assert all[j] == tail[j - |block|];
          assert all[j] in tail;
        } else {
          assert all[i] == tail[i - |block|] && all[j] == tail[j - |block|];
        }
      }
    }
  }

  /** When the orders come newest first (the backend returns them ordered by
      `created_at` descending) and their dates read back in that order, the feed
      is the flattened list itself: each order's notifications together, in
      order-list order, "received" before the status notification. */
  lemma NewestFirstFeed(orders: seq<Order>, rt: Runtime)
    requires OrdersDescending(orders, rt)
    ensures Feed(orders, rt) == Flatten(orders, rt)
  {
    FlattenDescending(orders, rt);
    SortKeepsSorted(Flatten(orders, rt), rt.key);
  }

  /** Two orders, one `processing` dated later and one `delivered` dated earlier:
      four notifications, the later order's two first. */
  lemma TwoOrdersScenario(later: Order, earlier: Order, rt: Runtime)
    requires later.status == StatusProcessing && earlier.status == StatusDelivered
    requires rt.key(DateOf(later, rt)) > rt.key(DateOf(earlier, rt))
    ensures |Feed([later, earlier], rt)| == 4
    ensures Feed([later, earlier], rt) == OrderNotifications(later, rt) + OrderNotifications(earlier, rt)
  {
    var orders := [later, earlier];
    assert OrdersDescending(orders, rt);
    NewestFirstFeed(orders, rt);
    assert orders[1..] == [earlier];
    assert Flatten([earlier], rt) == OrderNotifications(earlier, rt) + Flatten([], rt);
  }
}
