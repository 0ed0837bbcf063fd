/** The records the app passes around: users, cart entries, orders and the
    loosely typed JSON item snapshot stored with an order. */
module Entities {
  import opened Common

  /** A user record (`UserData`). The id is missing until the backend assigns one;
      the password is present only in the data sent at registration. */
  datatype User = User(
    id: Option<string>,
    email: string,
    password: Option<string>,
    fullName: string,
    phone: Option<string>,
    address: Option<string>)

  /** What the menu hands to `addToCart`: a cart entry without its quantity. */
  datatype Product = Product(id: string, name: string, price: int, image: string, description: Option<string>)

  /** A cart entry. Prices are whole rupiah and quantities whole items. */
  datatype CartItem = CartItem(
    id: string,
    name: string,
    price: int,
    quantity: int,
    image: string,
    description: Option<string>)

  /** A JSON value, as `JSON.parse` returns it or as the backend hands back a
      structured column. Numbers are whole numbers in this model. */
  datatype Json =
    | JNull
    | JBool(b: bool)
    | JNumber(n: int)
    | JString(s: string)
    | JArray(elems: seq<Json>)
    | JObject(fields: map<string, Json>)

  /** An order row as the backend returns it (`OrderData`). `items` is untyped in
      the source: a JSON-encoded string or an already structured value. */
  datatype Order = Order(
    id: string,
    userId: string,
    items: Json,
    totalPrice: int,
    status: string,
    paymentMethod: string,
    senderAccount: string,
    address: string,
    createdAt: string,
    updatedAt: string)

  /** The data sent to create an order: an order without id and timestamps. The
      user id is optional because the checkout passes `user.id!`, which is
      `undefined` when the user record has no id. */
  datatype NewOrder = NewOrder(
    userId: Option<string>,
    items: seq<CartItem>,
    totalPrice: int,
    status: string,
    paymentMethod: string,
    senderAccount: string,
    address: string)

  const StatusProcessing := "processing"
  const StatusDelivered := "delivered"
}
