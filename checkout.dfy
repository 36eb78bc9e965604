/**
 * The checkout page: the shipping form's validators, the whole-form check that
 * evaluates every field, the order pipeline (validate, refuse an empty cart,
 * create the order, clear the cart, send the confirmation) and the autofill
 * from the signed-in user's default address.
 */
module Checkout {
  import opened Wrappers
  import opened Text
  import opened Money
  import opened Storage
  import opened Seqs
  import Orders
  import Auth
  import Profile
  import Shop

  /**
   * The raw values of the checkout form; `None` stands for an element the page
   * does not have.
   */
  datatype CheckoutForm = CheckoutForm(
    fullName: Option<string>, email: Option<string>, address: Option<string>, city: Option<string>,
    state: Option<string>, zip: Option<string>, country: Option<string>, phone: Option<string>)

  /** `document.getElementById(f)?.value.trim()` */
  function Trimmed(v: Option<string>): (r: Option<string>)
    ensures r.Some? <==> v.Some?
    ensures r.Some? ==> Trim(r.value) == r.value
    ensures r.Some? ==> (r.value == "" <==> AllWhitespace(v.value))
  {
    match v
    case Some(s) =>
      TrimIdempotent(s);
      TrimEmptyIff(s);
      Some(Trim(s))
    case None => None
  }

  // ---------------------------------------------------------------- validators

  /** `validateField`: passes when the page has no such element, else when the value is not blank. */
  predicate ValidateField(value: Option<string>) {
    value.None? || (value.value != "" && Trim(value.value) != "")
  }

  /** `validateEmailField`: a present, non-empty value matching the e-mail pattern. */
  predicate ValidateEmailField(email: Option<string>) {
    email.Some? && email.value != "" && IsValidEmail(email.value)
  }

  /** `validateZipField`: a present value that is not blank; unlike the others, a missing element fails. */
  predicate ValidateZipField(zip: Option<string>) {
    zip.Some? && zip.value != "" && Trim(zip.value) != ""
  }

  /** A present value fails exactly when it is whitespace only; the zip check also fails a missing element. */
  lemma ValidatorsFailOnBlank(v: string)
    ensures !ValidateField(Some(v)) <==> AllWhitespace(v)
    ensures !ValidateZipField(Some(v)) <==> AllWhitespace(v)
    ensures ValidateField(None) && !ValidateZipField(None)
  {
    TrimEmptyIff(v);
  }

  /** The e-mail check is the e-mail pattern, on a present value. */
  lemma ValidateEmailFieldIsPattern(e: string)
    ensures ValidateEmailField(Some(e)) <==> MatchesEmailRegex(e)
    ensures !ValidateEmailField(None)
  {
    EmailRegexEquivalent(e);
  }

  /** The seven checks of `validateForm`, in its order. */
  datatype CheckoutField = NameField | EmailField | AddressField | CityField | StateField | ZipField | CountryField

  /** The check of one field passes; all but the country are trimmed first. */
  predicate Passes(form: CheckoutForm, field: CheckoutField) {
    match field
    case NameField => ValidateField(Trimmed(form.fullName))
    case EmailField => ValidateEmailField(Trimmed(form.email))
    case AddressField => ValidateField(Trimmed(form.address))
    case CityField => ValidateField(Trimmed(form.city))
    case StateField => ValidateField(Trimmed(form.state))
    case ZipField => ValidateZipField(Trimmed(form.zip))
    case CountryField => ValidateField(form.country)
  }

  /** All seven checks pass. */
  predicate FormValid(form: CheckoutForm) {
    ValidateField(Trimmed(form.fullName)) && ValidateEmailField(Trimmed(form.email)) &&
    ValidateField(Trimmed(form.address)) && ValidateField(Trimmed(form.city)) &&
    ValidateField(Trimmed(form.state)) && ValidateZipField(Trimmed(form.zip)) &&
    ValidateField(form.country)
  }

  lemma FormValidIffAllPass(form: CheckoutForm)
    ensures FormValid(form) <==> forall field :: Passes(form, field)
  {
    if !FormValid(form) {
      if !Passes(form, NameField) {}
      else if !Passes(form, EmailField) {}
      else if !Passes(form, AddressField) {}
      else if !Passes(form, CityField) {}
      else if !Passes(form, StateField) {}
      else if !Passes(form, ZipField) {}
      else { assert !Passes(form, CountryField); }
    }
  }

  /** Which field shows its error after `validateForm`. */
  datatype FormErrors = FormErrors(
    name: bool, email: bool, address: bool, city: bool, state: bool, zip: bool, country: bool)

  predicate Flagged(e: FormErrors, field: CheckoutField) {
    match field
    case NameField => e.name
    case EmailField => e.email
    case AddressField => e.address
    case CityField => e.city
    case StateField => e.state
    case ZipField => e.zip
    case CountryField => e.country
  }

  /**
   * `validateForm`: every one of the seven checks runs, whatever the earlier
   * ones gave, so every failing field is flagged; the answer is whether all passed.
   */
  method ValidateForm(form: CheckoutForm) returns (isValid: bool, errors: FormErrors)
    ensures isValid <==> FormValid(form)
    ensures forall field :: Flagged(errors, field) <==> !Passes(form, field)
  {
    var fullName := Trimmed(form.fullName);
    var email := Trimmed(form.email);
    var address := Trimmed(form.address);
    var city := Trimmed(form.city);
    var state := Trimmed(form.state);
    var zip := Trimmed(form.zip);
    var country := form.country;
    isValid := true;
    errors := FormErrors(false, false, false, false, false, false, false);
    if !ValidateField(fullName) {
      errors := errors.(name := true);
      isValid := false;
    }
    if !ValidateEmailField(email) {
      errors := errors.(email := true);
      isValid := false;
    }
    if !ValidateField(address) {
      errors := errors.(address := true);
      isValid := false;
    }
    if !ValidateField(city) {
      errors := errors.(city := true);
      isValid := false;
    }
    if !ValidateField(state) {
      errors := errors.(state := true);
      isValid := false;
    }
    if !ValidateZipField(zip) {
      errors := errors.(zip := true);
      isValid := false;
    }
    if !ValidateField(country) {
      errors := errors.(country := true);
      isValid := false;
    }
    FormValidIffAllPass(form);
  }

  // ---------------------------------------------------------------- the order

  /**
   * The order's address: the signed-in user's, lowercased and trimmed, when
   * that is not empty; otherwise the form's, lowercased and trimmed.
   */
  function OrderEmail(signedIn: Option<string>, formEmail: Option<string>): (r: string)
    ensures signedIn.Some? && Normalize(signedIn.value) != "" ==> r == Normalize(signedIn.value)
    ensures (signedIn.None? || Normalize(signedIn.value) == "") ==>
      r == Normalize(Trimmed(formEmail).GetOr(""))
  {
    var userEmail := if signedIn.Some? && signedIn.value != "" then Normalize(signedIn.value) else "";
    if userEmail != "" then userEmail else Normalize(Trimmed(formEmail).GetOr(""))
  }

  /** Whoever placed it, the order's address is in normal form, so the owner's order list finds it. */
  lemma OrderEmailNormalized(signedIn: Option<string>, formEmail: Option<string>)
    ensures Normalize(OrderEmail(signedIn, formEmail)) == OrderEmail(signedIn, formEmail)
  {
    if signedIn.Some? && Normalize(signedIn.value) != "" {
      NormalizeIdempotent(signedIn.value);
    } else {
      NormalizeIdempotent(Trimmed(formEmail).GetOr(""));
    }
  }

  /** A form that passed validation always yields a non-empty order address. */
  lemma ValidFormHasOrderEmail(signedIn: Option<string>, form: CheckoutForm)
    requires FormValid(form)
    ensures OrderEmail(signedIn, form.email) != ""
  {
    if signedIn.None? || Normalize(signedIn.value) == "" {
      ValidEmailNormalizes(Trimmed(form.email).value);
    }
  }

  /**
   * The `shipping` object: each field read with `.value.trim()`, which throws when
   * the element is missing (the country is not trimmed); an empty phone is `null`.
   */
  function ShippingOf(form: CheckoutForm, orderEmail: string): (r: Option<Orders.ShippingInput>)
    ensures r.Some? <==> form.fullName.Some? && form.address.Some? && form.city.Some? &&
                         form.state.Some? && form.zip.Some? && form.country.Some?
    ensures r.Some? ==> r.value.email == orderEmail && r.value.phone == Orders.OrNull(Trimmed(form.phone))
  {
    if form.fullName.Some? && form.address.Some? && form.city.Some? && form.state.Some? &&
       form.zip.Some? && form.country.Some?
    then Some(Orders.ShippingInput(
      Trim(form.fullName.value), orderEmail, Trim(form.address.value), Trim(form.city.value),
      Trim(form.state.value), Trim(form.zip.value), form.country.value, Orders.OrNull(Trimmed(form.phone))))
    else None
  }

  /** A cart line as `createOrder` reads it. */
  function ItemOf(c: CartItem): Orders.ItemInput {
    Orders.ItemInput(c.id, c.productId, c.name, Some(c.price), Some(c.quantity), c.size, c.color, c.image)
  }

  function ItemsOf(cart: seq<CartItem>): (r: seq<Orders.ItemInput>)
    ensures |r| == |cart| && forall i :: 0 <= i < |cart| ==> r[i] == ItemOf(cart[i])
  {
    seq(|cart|, i requires 0 <= i < |cart| => ItemOf(cart[i]))
  }

  /** When no line has a zero quantity, the order's subtotal is the total the cart showed. */
  lemma {:induction false} SubtotalIsCartValue(cart: seq<CartItem>)
    requires forall i :: 0 <= i < |cart| ==> cart[i].quantity != 0
    ensures Orders.Subtotal(ItemsOf(cart)) == Shop.CartValue(cart)
    decreases |cart|
  {
    if cart != [] {
      var init := cart[..|cart| - 1];
      assert ItemsOf(cart)[..|cart| - 1] == ItemsOf(init);
      SubtotalIsCartValue(init);
    }
  }

  /**
   * What `processOrder` answers for a form, the stored cart and the signed-in
   * address: `None` for an invalid form, an empty cart or a missing form element
   * (the caught error), else the order `createOrder` builds.
   */
  function Placed(form: CheckoutForm, cart: seq<CartItem>, signedIn: Option<string>,
                  now: Orders.Clock, random: nat): (r: Option<Order>)
    ensures r.Some? <==> FormValid(form) && cart != [] && ShippingOf(form, "").Some?
  {
    if !FormValid(form) || cart == [] then None
    else match ShippingOf(form, OrderEmail(signedIn, form.email))
      case None => None
      case Some(shipping) =>
        Some(Orders.NewOrder(ItemsOf(cart), shipping, Orders.GenerateOrderId(now, random), now.millis))
  }

  /**
   * A placed order belongs to the order address, is pending, its totals add up,
   * and it holds one line per cart line whose subtotal is the cart's value.
   */
  lemma PlacedOrder(form: CheckoutForm, cart: seq<CartItem>, signedIn: Option<string>,
                    now: Orders.Clock, random: nat)
    requires Placed(form, cart, signedIn, now, random).Some?
    ensures var o := Placed(form, cart, signedIn, now, random).value;
      o.email == OrderEmail(signedIn, form.email) && o.email != "" &&
      o.status == Pending && Orders.WellFormed(o) && o.orderId == Orders.GenerateOrderId(now, random) &&
      |o.items| == |cart| &&
      ((forall i :: 0 <= i < |cart| ==> cart[i].quantity != 0) ==> o.totals.subtotal == Shop.CartValue(cart))
  {
    var o := Placed(form, cart, signedIn, now, random).value;
    var shipping := ShippingOf(form, OrderEmail(signedIn, form.email)).value;
    assert o == Orders.NewOrder(ItemsOf(cart), shipping, Orders.GenerateOrderId(now, random), now.millis);
    OrderEmailNormalized(signedIn, form.email);
    ValidFormHasOrderEmail(signedIn, form);
    Orders.NewOrderWellFormed(ItemsOf(cart), shipping, Orders.GenerateOrderId(now, random), now.millis);
    if forall i :: 0 <= i < |cart| ==> cart[i].quantity != 0 {
      SubtotalIsCartValue(cart);
    }
  }

  const ConfirmationSubject := "Order Confirmation - "
  const ConfirmationPreview := "Thank you for your order! Total: $"

  /** The confirmation message: the order's identifier and its total; the stamp is left to `addUserEmail` and the body is not modelled. */
  function Confirmation(o: Order): (m: InboxMessage)
    ensures m.id.None? && m.date.None?
  {
    InboxMessage(None, None, ConfirmationSubject + o.orderId,
                 ConfirmationPreview + FormatCents(o.totals.total), "")
  }

  /** The subject reads back to the order's identifier and the preview to its total in cents. */
  lemma ConfirmationReadsBack(o: Order)
    ensures var m := Confirmation(o);
      |ConfirmationSubject| <= |m.subject| && m.subject[..|ConfirmationSubject|] == ConfirmationSubject &&
      m.subject[|ConfirmationSubject|..] == o.orderId &&
      |ConfirmationPreview| <= |m.preview| && m.preview[..|ConfirmationPreview|] == ConfirmationPreview &&
      (o.totals.total >= 0 ==> ReadsAsCents(m.preview[|ConfirmationPreview|..], o.totals.total))
  {
    var m := Confirmation(o);
    assert m.preview[|ConfirmationPreview|..] == FormatCents(o.totals.total);
    if o.totals.total >= 0 {
      FormatCentsParses(o.totals.total);
    }
  }

  /** The address of an optional user. */
  function EmailOf(u: Option<User>): (r: Option<string>)
    ensures r.Some? <==> u.Some?
    ensures r.Some? ==> r.value == u.value.email
  {
    if u.Some? then Some(u.value.email) else None
  }

  /** The ledger, the accounts and the cart live in the same local storage. */
  class CheckoutManager {
    const auth: Auth.AuthManager
    const orders: Orders.OrderManager

    constructor (auth: Auth.AuthManager, orders: Orders.OrderManager)
      requires orders.store == auth.store
      ensures this.auth == auth && this.orders == orders
    {
      this.auth := auth;
      this.orders := orders;
    }

    /** `clearCart` */
    method ClearCart()
      modifies auth.store`cart
      ensures auth.store.cart == []
    {
      auth.store.cart := [];
    }

    /** The tail of `processOrder`: save the order, clear the cart, send the confirmation. */
    method Complete(items: seq<Orders.ItemInput>, shipping: Orders.ShippingInput,
                    now: Orders.Clock, random: nat, stamp: nat) returns (r: Result<Order, Orders.OrderError>)
      requires orders.store == auth.store
      modifies auth.store`cart, auth.store`orders, auth.store`userEmails
      ensures r.Failure? ==> unchanged(auth.store)
      ensures r.Success? <==> items != [] && shipping.email != ""
      ensures r.Success? ==>
        r.value == Orders.NewOrder(items, shipping, Orders.GenerateOrderId(now, random), now.millis) &&
        auth.store.orders == old(auth.store.orders) + [r.value] && auth.store.cart == [] &&
        auth.store.userEmails == Auth.Inboxed(old(auth.store.userEmails), auth.Recipient(), Auth.Stamped(Confirmation(r.value), stamp))
    {
      r := orders.CreateOrder(Some(items), Some(shipping), now, random);
      if r.Failure? {
        return;
      }
      Finish(r.value, stamp);
    }

    /** Clears the cart, then sends the confirmation of `order`. */
    method Finish(order: Order, stamp: nat)
      modifies auth.store`cart, auth.store`userEmails
      ensures auth.store.cart == []
      ensures auth.store.userEmails == Auth.Inboxed(old(auth.store.userEmails), auth.Recipient(), Auth.Stamped(Confirmation(order), stamp))
    {
      ClearCart();
      auth.AddUserEmail(Confirmation(order), stamp);
    }

    /**
     * `processOrder`: the answer is `Placed`; nothing is written unless an order
     * was placed, and then the order is saved, the cart cleared and the
     * confirmation put first in the signed-in user's inbox. The signed-in user is
     * reloaded only once the form and the cart have passed.
     */
    method ProcessOrder(form: CheckoutForm, now: Orders.Clock, random: nat, stamp: nat) returns (r: Option<Order>)
      requires orders.store == auth.store
      modifies auth, auth.store`cart, auth.store`orders, auth.store`userEmails
      ensures r == Placed(form, old(auth.store.cart), EmailOf(old(auth.Reloaded())), now, random)
      ensures auth.currentUser ==
        if FormValid(form) && old(auth.store.cart) != [] then old(auth.Reloaded()) else old(auth.currentUser)
      ensures r.None? ==> unchanged(auth.store)
      ensures r.Some? ==>
        auth.store.orders == old(auth.store.orders) + [r.value] && auth.store.cart == [] &&
        auth.store.userEmails == Auth.Inboxed(old(auth.store.userEmails), auth.Recipient(), Auth.Stamped(Confirmation(r.value), stamp))
    {
      var isValid, errors := ValidateForm(form);
      if !isValid {
        return None;
      }
      var cart := auth.store.cart;
      if |cart| == 0 {
        return None;
      }
      var user := auth.GetCurrentUser();
      var signedIn := if user.Some? then Some(user.value.email) else None;
      assert signedIn == EmailOf(old(auth.Reloaded()));
      var email := OrderEmail(signedIn, form.email);
      var shipping := ShippingOf(form, email);
      if shipping.None? {
        return None;
      }
      ValidFormHasOrderEmail(signedIn, form);
      var created := Complete(ItemsOf(cart), shipping.value, now, random, stamp);
      r := Some(created.value);
    }
  }

  // ---------------------------------------------------------------- autofill

  /** The default address autofill uses: the saved one whose identifier the user marked, when there is one. */
  function DefaultAddress(u: User): (r: Option<Address>)
    ensures r.Some? <==>
      u.defaultAddressId.Some? && u.defaultAddressId.value != "" &&
      Profile.HasAddress(u.shippingAddresses, u.defaultAddressId.value)
    ensures r.Some? ==> r.value in u.shippingAddresses && r.value.id == u.defaultAddressId.value
  {
    if u.defaultAddressId.Some? && u.defaultAddressId.value != "" then
      SavedAddress(u.shippingAddresses, u.defaultAddressId.value)
    else None
  }

  /** `addresses.find(addr => addr.id === id)` */
  function SavedAddress(addresses: seq<Address>, id: string): (r: Option<Address>)
    ensures r.Some? <==> Profile.HasAddress(addresses, id)
    ensures r.Some? ==> r.value in addresses && r.value.id == id
  {
    var i := FindIndex(addresses, (a: Address) => a.id == id);
    if i < |addresses| then Some(addresses[i]) else None
  }

  /** A user whose default points at a saved address gets that address filled in. */
  lemma ValidDefaultIsFilled(u: User)
    requires Profile.DefaultValid(u) && u.defaultAddressId.Some? && u.defaultAddressId.value != ""
    ensures DefaultAddress(u).Some? && DefaultAddress(u).value.id == u.defaultAddressId.value
  {
  }

  /** `el && value` then `el.value = value`: a present element takes a non-empty value. */
  function Fill(field: Option<string>, value: string): (r: Option<string>)
    ensures r.Some? <==> field.Some?
    ensures field.Some? && value != "" ==> r == Some(value)
    ensures value == "" ==> r == field
  {
    if field.Some? && value != "" then Some(value) else field
  }

  /**
   * `fillAddressForm`: the address fields take the saved address's non-empty
   * values; a saved address has no phone, so the phone field is kept.
   */
  function FillAddress(form: CheckoutForm, a: Address): CheckoutForm {
    form.(address := Fill(form.address, a.address), city := Fill(form.city, a.city), state := Fill(form.state, a.state),
          zip := Fill(form.zip, a.zip), country := Fill(form.country, a.country))
  }

  /** Filling the same address twice is filling it once. */
  lemma FillAddressIdempotent(form: CheckoutForm, a: Address)
    ensures FillAddress(FillAddress(form, a), a) == FillAddress(form, a)
  {
  }

  /** `autoFillShippingInfo`: name and address from the account, then the default address's fields. */
  function AutoFill(form: CheckoutForm, u: User): CheckoutForm {
    var f := form.(fullName := Fill(form.fullName, u.name), email := Fill(form.email, u.email));
    match DefaultAddress(u)
    case None => f
    case Some(a) => FillAddress(f, a)
  }

  /** A registered address passes the e-mail check once filled in. */
  lemma AutoFilledEmailValidates(form: CheckoutForm, u: User)
    requires form.email.Some? && IsValidEmail(u.email)
    ensures ValidateEmailField(Trimmed(AutoFill(form, u).email))
  {
    ValidEmailIsTrimmed(u.email);
  }

  /** Autofill with no default address leaves the address fields as they were. */
  lemma AutoFillWithoutDefault(form: CheckoutForm, u: User)
    requires DefaultAddress(u).None?
    ensures AutoFill(form, u).address == form.address && AutoFill(form, u).zip == form.zip &&
            AutoFill(form, u).country == form.country
  {
  }

  /** `clearAddressForm`: every present address field, and the phone, becomes empty. */
  function ClearAddress(form: CheckoutForm): CheckoutForm {
    var clear := (v: Option<string>) => if v.Some? then Some("") else None;
    form.(address := clear(form.address), city := clear(form.city), state := clear(form.state),
          zip := clear(form.zip), country := clear(form.country), phone := clear(form.phone))
  }

  /** The zip check fails an empty and a missing field alike, so a cleared form never validates. */
  lemma ClearedFormNeverValidates(form: CheckoutForm)
    ensures !FormValid(ClearAddress(form))
  {
  }

  /**
   * The change handler of the saved-address selector: "new" clears the address
   * fields, another non-empty identifier fills in the saved address it names.
   */
  function SelectAddress(form: CheckoutForm, addresses: seq<Address>, selectedId: string): (r: CheckoutForm)
    ensures selectedId == "new" ==> r == ClearAddress(form)
    ensures selectedId != "new" && selectedId != "" && Profile.HasAddress(addresses, selectedId) ==>
      exists a :: a in addresses && a.id == selectedId && r == FillAddress(form, a)
    ensures selectedId == "" || (selectedId != "new" && !Profile.HasAddress(addresses, selectedId)) ==> r == form
  {
    if selectedId == "new" then ClearAddress(form)
    else if selectedId != "" then
      match SavedAddress(addresses, selectedId)
      case Some(a) => FillAddress(form, a)
      case None => form
    else form
  }

  /**
   * `setupCheckout`: autofill for a signed-in user, then, when the user has saved
   * addresses, the selector's initial choice (the option marked as the default)
   * is filled in.
   */
  function SetupCheckout(form: CheckoutForm, user: Option<User>): CheckoutForm {
    match user
    case None => form
    case Some(u) =>
      var f := AutoFill(form, u);
      if |u.shippingAddresses| > 0 && u.defaultAddressId.Some? then
        var id := InitialSelection(u);
        if id != "" && id != "new" then SelectAddress(f, u.shippingAddresses, id) else f
      else f
  }

  /** The selector's initial value: the default's identifier when an option carries it, else the blank option. */
  function InitialSelection(u: User): string
    requires u.defaultAddressId.Some?
  {
    if Profile.HasAddress(u.shippingAddresses, u.defaultAddressId.value) then u.defaultAddressId.value else ""
  }

  /** The selector's initial fill repeats what autofill did, so the page shows autofill's result. */
  lemma SetupIsAutoFill(form: CheckoutForm, u: User)
    ensures SetupCheckout(form, Some(u)) == AutoFill(form, u)
  {
    var f := AutoFill(form, u);
    if |u.shippingAddresses| > 0 && u.defaultAddressId.Some? {
      var id := InitialSelection(u);
      if id != "new" && id != "" {
        var a := SavedAddress(u.shippingAddresses, id).value;
        assert DefaultAddress(u) == Some(a);
        FillAddressIdempotent(form.(fullName := Fill(form.fullName, u.name), email := Fill(form.email, u.email)), a);
      }
    }
  }
}
