/**
 * The records the storefront keeps and the browser local storage that holds them.
 * Each storage key is a field of `LocalStore`; the JSON encoding is not modelled,
 * so a key holds its decoded value directly.
 */
module Storage {
  import opened Wrappers

  /** The five order states; any state may follow any other. */
  datatype Status = Pending | Processing | Shipped | Delivered | Cancelled

  /** The address part of an order, copied from the checkout form. */
  datatype ShippingSnapshot = ShippingSnapshot(
    address: string, city: string, state: string, zip: string, country: string,
    phone: Option<string>)

  /** One line of an order, snapshotted from the cart when the order is created. */
  datatype LineItem = LineItem(
    id: int, productId: int, name: string, price: Option<int>, quantity: int,
    size: string, color: Option<string>, image: string)

  /** Amounts in cents. */
  datatype Totals = Totals(subtotal: int, shipping: int, tax: int, total: int)

  /** An order of the ledger; timestamps are milliseconds since the epoch. */
  datatype Order = Order(
    orderId: string, email: string, fullName: string, shipping: ShippingSnapshot,
    items: seq<LineItem>, totals: Totals, status: Status, orderDate: int, updatedAt: int)

  /** A saved shipping address of a user. */
  datatype Address = Address(
    id: string, name: string, address: string, city: string, state: string,
    zip: string, country: string)

  datatype Preferences = Preferences(newsletter: bool, notifications: bool)

  /** A registered account; the password is kept in plain text, as the storefront does. */
  datatype User = User(
    id: string, name: string, email: string, password: string, registeredDate: int,
    shippingAddresses: seq<Address>, defaultAddressId: Option<string>,
    preferences: Preferences)

  /** A message of the simulated inbox; `id` and `date` are absent when the caller gave none. */
  datatype InboxMessage = InboxMessage(
    id: Option<string>, date: Option<int>, subject: string, preview: string, content: string)

  /** One line of the shopping cart; name, price and image are copied from the catalog. */
  datatype CartItem = CartItem(
    id: int, productId: int, name: string, price: int, image: string, size: string,
    quantity: int, color: Option<string>)

  /** The browser's local storage for this origin. */
  class LocalStore {
    /** key `users` */
    var users: seq<User>
    /** key `currentUser`, absent when nobody is signed in */
    var currentUser: Option<User>
    /** key `isLoggedIn`, a string flag */
    var loggedInFlag: Option<string>
    /** key `cart` */
    var cart: seq<CartItem>
    /** key `orders` */
    var orders: seq<Order>
    /** key `userEmails`: inbox messages by e-mail address */
    var userEmails: map<string, seq<InboxMessage>>

    /** A fresh origin: every key is absent, which the stores read as empty. */
    constructor ()
      ensures users == [] && currentUser == None && loggedInFlag == None
      ensures cart == [] && orders == [] && userEmails == map[]
    {
      users := [];
      currentUser := None;
      loggedInFlag := None;
      cart := [];
      orders := [];
      userEmails := map[];
    }
  }
}
