/**
 * The data side of the profile page, js/profile-manager.js: the personal-info
 * form with its e-mail cascade, the address book with its default choice, and
 * the password form.
 */
module Profile {
  import opened Wrappers
  import opened Text
  import opened Seqs
  import opened Storage
  import opened Auth
  import Orders

  // ---------------------------------------------------------------- validators

  /** `validateName`: at least two characters once trimmed. */
  predicate ValidateName(name: string) {
    |Trim(name)| >= 2
  }

  /** `validatePassword`: at least six characters. */
  predicate ValidatePassword(password: string) {
    |password| >= 6
  }

  /** Whitespace around a name does not change whether it validates. */
  lemma ValidateNameIgnoresPadding(p: string, name: string, q: string)
    requires AllWhitespace(p) && AllWhitespace(q)
    ensures ValidateName(p + Trim(name) + q) <==> ValidateName(name)
  {
    TrimIgnoresPadding(p, name, q);
  }

  /** An account created by `register` has a name the profile form accepts. */
  lemma RegisteredNameValidates(name: string, email: string, password: string, now: nat)
    requires RegistrationError([], name, email, password).None?
    ensures ValidateName(NewUser(name, email, password, now).name)
  {
    TrimIdempotent(name);
  }

  // ---------------------------------------------------------------- addresses

  /** The six checks of the address form. */
  datatype AddressField = NameField | StreetField | CityField | StateField | ZipField | CountryField

  /** The raw values of the address form and its "make default" box. */
  datatype AddressForm = AddressForm(
    name: string, address: string, city: string, state: string, zip: string, country: string,
    makeDefault: bool)

  /** `addressData`: every value trimmed. */
  function FormAddress(id: string, f: AddressForm): Address {
    Address(id, Trim(f.name), Trim(f.address), Trim(f.city), Trim(f.state), Trim(f.zip), Trim(f.country))
  }

  /** `this.currentEditingAddressId || 'addr-' + Date.now()` */
  function NewAddressId(editing: Option<string>, now: nat): string {
    match Orders.OrNull(editing)
    case Some(id) => id
    case None => "addr-" + Digits(now)
  }

  /** All six checks pass. */
  predicate AddressAcceptable(a: Address) {
    ValidateName(a.name) && |a.address| >= 5 && |a.city| >= 2 && |a.state| >= 2 &&
    IsValidZip(a.zip) && a.country != ""
  }

  /** The check of one field of the address form fails. */
  predicate Fails(a: Address, field: AddressField) {
    match field
    case NameField => !ValidateName(a.name)
    case StreetField => |a.address| < 5
    case CityField => |a.city| < 2
    case StateField => |a.state| < 2
    case ZipField => !IsValidZip(a.zip)
    case CountryField => a.country == ""
  }

  /** Which field of the address form shows its error message. */
  datatype AddressErrors = AddressErrors(name: bool, street: bool, city: bool, state: bool, zip: bool, country: bool)

  predicate Shown(e: AddressErrors, field: AddressField) {
    match field
    case NameField => e.name
    case StreetField => e.street
    case CityField => e.city
    case StateField => e.state
    case ZipField => e.zip
    case CountryField => e.country
  }

  /** The form is refused exactly when some check fails. */
  lemma AcceptableIffNoFailure(a: Address)
    ensures AddressAcceptable(a) <==> forall field :: !Fails(a, field)
  {
    if !AddressAcceptable(a) {
      if !ValidateName(a.name) { assert Fails(a, NameField); }
      else if |a.address| < 5 { assert Fails(a, StreetField); }
      else if |a.city| < 2 { assert Fails(a, CityField); }
      else if |a.state| < 2 { assert Fails(a, StateField); }
      else if !IsValidZip(a.zip) { assert Fails(a, ZipField); }
      else { assert Fails(a, CountryField); }
    }
  }

  predicate HasAddress(addrs: seq<Address>, id: string) {
    exists i :: 0 <= i < |addrs| && addrs[i].id == id
  }

  /** The default choice is empty or names an address the user has. */
  predicate DefaultValid(u: User) {
    u.defaultAddressId.None? || HasAddress(u.shippingAddresses, u.defaultAddressId.value)
  }

  /** The first address with the identifier becomes `a`; without one, the list is as it was. */
  function ReplaceAddress(addrs: seq<Address>, id: string, a: Address): (r: seq<Address>)
    ensures |r| == |addrs|
    ensures !HasAddress(addrs, id) ==> r == addrs
    ensures HasAddress(addrs, id) ==>
      exists i :: 0 <= i < |addrs| && addrs[i].id == id && r == addrs[i := a] &&
                  forall j :: 0 <= j < i ==> addrs[j].id != id
  {
    var i := FindIndex(addrs, (x: Address) => x.id == id);
    if i < |addrs| then addrs[i := a] else addrs
  }

  /** The user after an address submit: edit in place or append, then the default box. */
  function SaveAddress(u: User, a: Address, editing: Option<string>, makeDefault: bool): User {
    u.(shippingAddresses := if editing.Some? then ReplaceAddress(u.shippingAddresses, editing.value, a)
                            else u.shippingAddresses + [a],
       defaultAddressId := if makeDefault then Some(a.id) else u.defaultAddressId)
  }

  /**
   * Adding appends one address; editing keeps the count and replaces the address
   * being edited; a checked box points the default at the saved address. No other
   * field of the user changes.
   */
  lemma SaveAddressShape(u: User, a: Address, editing: Option<string>, makeDefault: bool)
    ensures var v := SaveAddress(u, a, editing, makeDefault);
      (editing.None? ==> v.shippingAddresses == u.shippingAddresses + [a] &&
                         |v.shippingAddresses| == |u.shippingAddresses| + 1) &&
      (editing.Some? ==> |v.shippingAddresses| == |u.shippingAddresses|) &&
      (editing.Some? && HasAddress(u.shippingAddresses, editing.value) ==> a in v.shippingAddresses) &&
      v.defaultAddressId == (if makeDefault then Some(a.id) else u.defaultAddressId) &&
      v.(shippingAddresses := u.shippingAddresses, defaultAddressId := u.defaultAddressId) == u
  {
    if editing.Some? && HasAddress(u.shippingAddresses, editing.value) {
      var i := FindIndex(u.shippingAddresses, (x: Address) => x.id == editing.value);
      assert SaveAddress(u, a, editing, makeDefault).shippingAddresses[i] == a;
    }
  }

  /**
   * A submit keeps the default choice valid, unless it edits an address that is
   * no longer there with the box checked: then the default names a missing address.
   */
  lemma SaveAddressKeepsDefaultValid(u: User, a: Address, editing: Option<string>, makeDefault: bool)
    requires DefaultValid(u)
    requires editing.Some? ==> a.id == editing.value
    ensures editing.None? || HasAddress(u.shippingAddresses, editing.value) || !makeDefault ==>
      DefaultValid(SaveAddress(u, a, editing, makeDefault))
    ensures editing.Some? && !HasAddress(u.shippingAddresses, editing.value) && makeDefault ==>
      !DefaultValid(SaveAddress(u, a, editing, makeDefault))
  {
    var v := SaveAddress(u, a, editing, makeDefault);
    if editing.Some? && HasAddress(u.shippingAddresses, editing.value) {
      var i := FindIndex(u.shippingAddresses, (x: Address) => x.id == editing.value);
      assert v.shippingAddresses == u.shippingAddresses[i := a];
      assert forall j :: 0 <= j < |u.shippingAddresses| ==> v.shippingAddresses[j].id == u.shippingAddresses[j].id;
      if u.defaultAddressId.Some? && !makeDefault {
        var k :| 0 <= k < |u.shippingAddresses| && u.shippingAddresses[k].id == u.defaultAddressId.value;
        assert v.shippingAddresses[k].id == u.defaultAddressId.value;
      }
      assert v.shippingAddresses[i].id == a.id;
    } else if editing.None? {
      assert v.shippingAddresses[|u.shippingAddresses|] == a;
      if u.defaultAddressId.Some? && !makeDefault {
        var k :| 0 <= k < |u.shippingAddresses| && u.shippingAddresses[k].id == u.defaultAddressId.value;
        assert v.shippingAddresses[k].id == u.defaultAddressId.value;
      }
    }
  }

  /** `deleteAddress`: drop every address with the identifier; clear the default only if it named it. */
  function RemoveAddress(u: User, id: string): (v: User)
    ensures !HasAddress(v.shippingAddresses, id)
    ensures forall i :: 0 <= i < |u.shippingAddresses| && u.shippingAddresses[i].id != id ==>
      u.shippingAddresses[i] in v.shippingAddresses
    ensures v.defaultAddressId == if u.defaultAddressId == Some(id) then None else u.defaultAddressId
    ensures v.(shippingAddresses := u.shippingAddresses, defaultAddressId := u.defaultAddressId) == u
  {
    u.(shippingAddresses := Filter(u.shippingAddresses, (a: Address) => a.id != id),
       defaultAddressId := if u.defaultAddressId == Some(id) then None else u.defaultAddressId)
  }

  /** Deleting keeps the default choice valid. */
  lemma RemoveAddressKeepsDefaultValid(u: User, id: string)
    requires DefaultValid(u)
    ensures DefaultValid(RemoveAddress(u, id))
  {
    var v := RemoveAddress(u, id);
    if v.defaultAddressId.Some? {
      var k :| 0 <= k < |u.shippingAddresses| && u.shippingAddresses[k].id == u.defaultAddressId.value;
      assert u.shippingAddresses[k] in v.shippingAddresses;
    }
  }

  /** `setDefaultAddress` once the address is known to exist. */
  function MakeDefault(u: User, id: string): (v: User)
    requires HasAddress(u.shippingAddresses, id)
    ensures DefaultValid(v) && v.defaultAddressId == Some(id)
    ensures v.(defaultAddressId := u.defaultAddressId) == u
  {
    u.(defaultAddressId := Some(id))
  }

  // ---------------------------------------------------------------- e-mail cascade

  /** `updateOrdersEmail`: every order with exactly the old address gets the new one. */
  function RetagOrders(orders: seq<Order>, oldEmail: string, newEmail: string): (r: seq<Order>)
    ensures |r| == |orders|
    ensures forall i :: 0 <= i < |orders| ==>
      r[i] == if orders[i].email == oldEmail then orders[i].(email := newEmail) else orders[i]
  {
    seq(|orders|, i requires 0 <= i < |orders| =>
      if orders[i].email == oldEmail then orders[i].(email := newEmail) else orders[i])
  }

  function CountWithEmail(orders: seq<Order>, email: string): nat {
    |Filter(orders, (o: Order) => o.email == email)|
  }

  /**
   * After the cascade no order keeps the old address, and the new address owns
   * its own orders plus the ones the old address had.
   */
  lemma {:induction false} RetagMovesOrders(orders: seq<Order>, oldEmail: string, newEmail: string)
    requires oldEmail != newEmail
    ensures CountWithEmail(RetagOrders(orders, oldEmail, newEmail), oldEmail) == 0
    ensures CountWithEmail(RetagOrders(orders, oldEmail, newEmail), newEmail) ==
      CountWithEmail(orders, oldEmail) + CountWithEmail(orders, newEmail)
  {
    if orders != [] {
      var r := RetagOrders(orders, oldEmail, newEmail);
      assert r[1..] == RetagOrders(orders[1..], oldEmail, newEmail);
      RetagMovesOrders(orders[1..], oldEmail, newEmail);
    }
  }

  /** `allEmails[key] || []` */
  function InboxAt(m: map<string, seq<InboxMessage>>, key: string): seq<InboxMessage> {
    if key in m then m[key] else []
  }

  /**
   * `updateEmailsEmail`: when the old address has an inbox it is stored under the
   * new address and the old key is deleted; otherwise nothing changes.
   */
  function MoveInbox(m: map<string, seq<InboxMessage>>, oldEmail: string, newEmail: string): (r: map<string, seq<InboxMessage>>)
    ensures oldEmail !in m ==> r == m
    ensures oldEmail in m ==>
      oldEmail !in r && (oldEmail != newEmail ==> newEmail in r && r[newEmail] == m[oldEmail]) &&
      r.Keys == m.Keys - {oldEmail} + (if oldEmail != newEmail then {newEmail} else {})
    ensures forall k :: k in m && k != oldEmail && k != newEmail ==> k in r && r[k] == m[k]
  {
    if oldEmail in m then m[newEmail := m[oldEmail]] - {oldEmail} else m
  }

  /** The address the personal-info form stores: `email.toLowerCase().trim()` of the trimmed input. */
  function StoredEmail(typed: string): string {
    Normalize(typed)
  }

  /** Where the cascade sends the old address's data, as the form is written: the typed address, when it differs from the old one. */
  function CascadeTargetAsWritten(typed: string, oldEmail: string): Option<string> {
    if typed != oldEmail then Some(typed) else None
  }

  /** Where it should send it: the address actually stored, when that differs from the old one. */
  function CascadeTarget(typed: string, oldEmail: string): (r: Option<string>)
    ensures r.Some? ==> r.value == StoredEmail(typed) && r.value != oldEmail
    ensures r.None? ==> StoredEmail(typed) == oldEmail
  {
    if StoredEmail(typed) != oldEmail then Some(StoredEmail(typed)) else None
  }

  function InboxAfter(m: map<string, seq<InboxMessage>>, oldEmail: string, target: Option<string>): map<string, seq<InboxMessage>> {
    match target
    case Some(t) => MoveInbox(m, oldEmail, t)
    case None => m
  }

  function OrdersAfter(orders: seq<Order>, oldEmail: string, target: Option<string>): seq<Order> {
    match target
    case Some(t) => RetagOrders(orders, oldEmail, t)
    case None => orders
  }

  /**
   * With the cascade aimed at the stored address, the user's inbox is found under
   * the address the account now has, and so are the orders that carried the old one.
   */
  lemma CascadeKeepsDataReachable(m: map<string, seq<InboxMessage>>, orders: seq<Order>,
                                  oldEmail: string, typed: string)
    requires oldEmail in m
    ensures InboxAt(InboxAfter(m, oldEmail, CascadeTarget(typed, oldEmail)), StoredEmail(typed)) == m[oldEmail]
    ensures forall i :: 0 <= i < |orders| && orders[i].email == oldEmail ==>
      OrdersAfter(orders, oldEmail, CascadeTarget(typed, oldEmail))[i].email == StoredEmail(typed)
  {
  }

  /**
   * As written, retyping the address with a capital letter sends the inbox and the
   * orders to the capitalized key, while the account keeps the lowercase address:
   * the inbox is no longer found under the account's address, nor the order by an
   * exact-address lookup.
   */
  lemma CascadeAsWrittenLosesInbox()
    ensures var m := map["a@b.co" := [InboxMessage(None, None, "Welcome", "", "")]];
      var order := Orders.NewOrder([], Orders.ShippingInput("", "a@b.co", "", "", "", "", "", None), "ORD-1", 0);
      StoredEmail("A@b.co") == "a@b.co" &&
      InboxAt(m, "a@b.co") != [] &&
      InboxAt(InboxAfter(m, "a@b.co", CascadeTargetAsWritten("A@b.co", "a@b.co")), StoredEmail("A@b.co")) == [] &&
      OrdersAfter([order], "a@b.co", CascadeTargetAsWritten("A@b.co", "a@b.co"))[0].email != StoredEmail("A@b.co")
  {
    CapitalizedAddressStoresLowercase();
    var m := map["a@b.co" := [InboxMessage(None, None, "Welcome", "", "")]];
    assert CascadeTargetAsWritten("A@b.co", "a@b.co") == Some("A@b.co");
    var moved := MoveInbox(m, "a@b.co", "A@b.co");
    assert moved.Keys == {"A@b.co"};
  }

  lemma CapitalizedAddressStoresLowercase()
    ensures StoredEmail("A@b.co") == "a@b.co"
  {
    assert ToLower("A@b.co") == "a@b.co";
    NoWhitespaceTrim("a@b.co");
  }

  lemma NoWhitespaceTrim(s: string)
    requires NoWhitespace(s)
    ensures Trim(s) == s
  {
    TrimUnchanged(s);
  }

  /** The check that an address is not already used by an account other than the one with exactly the old address. */
  predicate EmailTakenByOther(users: seq<User>, typed: string, oldEmail: string) {
    exists i :: 0 <= i < |users| && ToLower(users[i].email) == ToLower(typed) && users[i].email != oldEmail
  }

  /** The user after the personal-info form: the trimmed name, and the stored address when it changed. */
  function RenamedUser(u: User, name: string, typed: string): User {
    u.(name := name, email := if CascadeTarget(typed, u.email).Some? then StoredEmail(typed) else u.email)
  }

  /** An accepted change of address keeps the addresses distinct. */
  lemma RenameKeepsEmailsDistinct(users: seq<User>, i: nat, name: string, typed: string)
    requires EmailsDistinct(users) && i < |users| && IsValidEmail(typed)
    requires CascadeTarget(typed, users[i].email).Some? ==> !EmailTakenByOther(users, typed, users[i].email)
    ensures EmailsDistinct(users[i := RenamedUser(users[i], name, typed)])
  {
    var v := RenamedUser(users[i], name, typed);
    var us := users[i := v];
    ValidEmailNormalizes(typed);
    ToLowerIdempotent(typed);
    assert ToLower(v.email) == ToLower(users[i].email) || ToLower(v.email) == ToLower(typed);
    forall j | 0 <= j < |users| && j != i
      ensures ToLower(us[j].email) != ToLower(v.email)
    {
      assert users[j].email != users[i].email;
    }
    forall a, b | 0 <= a < b < |us|
      ensures ToLower(us[a].email) != ToLower(us[b].email)
    {
      if a != i && b != i {
        assert us[a] == users[a] && us[b] == users[b];
      }
    }
  }

  // ---------------------------------------------------------------- forms

  /** How a personal-info submit ends. */
  datatype InfoOutcome = InfoNameInvalid | InfoEmailInvalid | InfoSignedOut | InfoEmailTaken | InfoNoAccount | InfoSaved

  /** How an address submit ends; the invalid answer carries every failed check. */
  datatype AddressOutcome =
    | AddressInvalid(errors: AddressErrors)
    | AddressSignedOut | AddressNoAccount
    | AddressSaved(address: Address)

  /** The three fields of the password form. */
  datatype PasswordField = CurrentField | NewField | ConfirmField

  /** How a password submit ends. */
  datatype PasswordOutcome =
    | PasswordSignedOut
    | PasswordInvalid(errors: set<PasswordField>)
    | PasswordRejected(reason: AuthError)
    | PasswordChanged

  /** The password form's checks pass: the current one is right, the new one is acceptable and confirmed. */
  predicate PasswordFormValid(stored: string, current: string, newPassword: string, confirm: string) {
    current != "" && stored == current &&
    newPassword != "" && ValidatePassword(newPassword) && stored != newPassword &&
    confirm != "" && newPassword == confirm
  }

  /** `ProfileManager` over the account store. */
  class ProfileManager {
    const auth: AuthManager
    var currentEditingAddressId: Option<string>

    constructor (auth: AuthManager)
      ensures this.auth == auth && currentEditingAddressId == None
    {
      this.auth := auth;
      currentEditingAddressId := None;
    }

    /** `openAddAddressModal` and `closeAddressModal`: the form goes back to adding. */
    method CloseAddressModal()
      modifies this
      ensures currentEditingAddressId == None
    {
      currentEditingAddressId := None;
    }

    /** `editAddress`: start editing only an address the signed-in user has. */
    method EditAddress(addressId: string)
      modifies this, auth
      ensures auth.currentUser == if old(auth.currentUser).None? then auth.store.currentUser else old(auth.currentUser)
      ensures currentEditingAddressId ==
        if auth.currentUser.Some? && HasAddress(auth.currentUser.value.shippingAddresses, addressId)
        then Some(addressId) else old(currentEditingAddressId)
    {
      var user := auth.GetCurrentUser();
      if user.None? || !HasAddress(user.value.shippingAddresses, addressId) {
        return;
      }
      currentEditingAddressId := Some(addressId);
    }

    /** `updateCurrentUser`: the whole record goes through `updateUser`. */
    method UpdateCurrentUser(u: User) returns (r: Result<SafeUser, AuthError>)
      modifies auth, auth.store`users, auth.store`currentUser, auth.store`loggedInFlag
      ensures r.Failure? ==>
        auth.store.users == old(auth.store.users) && auth.currentUser == old(auth.currentUser)
      ensures r.Success? <==>
        old(auth.IsLoggedIn()) && IndexOfEmail(old(auth.store.users), old(auth.currentUser).value.email) < |old(auth.store.users)|
      ensures r.Success? ==>
        var i := IndexOfEmail(old(auth.store.users), old(auth.currentUser).value.email);
        var merged := Merge(old(auth.store.users)[i], FullUpdate(u));
        auth.store.users == old(auth.store.users)[i := merged] && auth.currentUser == Some(merged)
    {
      r := auth.UpdateUser(FullUpdate(u));
    }

    /**
     * Writes the user at `i` and syncs the signed-in copy through `updateCurrentUser`.
     * When `i` is the account with the signed-in address, the sync leaves the table
     * as written: it merges the record into itself when the address is kept, and
     * finds no account when the address was changed and addresses are distinct.
     */
    method WriteUser(i: nat, u: User)
      requires i < |auth.store.users|
      modifies auth, auth.store`users, auth.store`currentUser, auth.store`loggedInFlag
      ensures auth.currentUser.Some? <==> old(auth.currentUser).Some?
      ensures old(auth.currentUser).Some? && i == IndexOfEmail(old(auth.store.users), old(auth.currentUser).value.email) &&
              (u.email == old(auth.currentUser).value.email || EmailsDistinct(old(auth.store.users))) ==>
        auth.store.users == old(auth.store.users)[i := u]
      ensures old(auth.currentUser).Some? && u.email == old(auth.currentUser).value.email ==>
        auth.currentUser.value.email == old(auth.currentUser).value.email
    {
      var before := auth.store.users;
      auth.store.users := auth.store.users[i := u];
      if auth.currentUser.Some? && i == IndexOfEmail(before, auth.currentUser.value.email) {
        if u.email == auth.currentUser.value.email {
          IndexOfEmailAfterWrite(before, u.email, u);
          MergeFull(u, u);
        } else if EmailsDistinct(before) {
          IndexOfEmailAfterRename(before, auth.currentUser.value.email, u);
        }
      }
      var _ := UpdateCurrentUser(u);
    }

    /** The six checks of `handleAddressSubmit`, each evaluated, each failure recorded. */
    method CheckAddress(a: Address) returns (isValid: bool, errors: AddressErrors)
      ensures forall field :: Shown(errors, field) <==> Fails(a, field)
      ensures isValid <==> AddressAcceptable(a)
    {
      isValid := true;
      errors := AddressErrors(false, false, false, false, false, false);
      if !ValidateName(a.name) {
        errors := errors.(name := true);
        isValid := false;
      }
      if |a.address| < 5 {
        errors := errors.(street := true);
        isValid := false;
      }
      if |a.city| < 2 {
        errors := errors.(city := true);
        isValid := false;
      }
      if |a.state| < 2 {
        errors := errors.(state := true);
        isValid := false;
      }
      if !IsValidZip(a.zip) {
        errors := errors.(zip := true);
        isValid := false;
      }
      if a.country == "" {
        errors := errors.(country := true);
        isValid := false;
      }
      AcceptableIffNoFailure(a);
    }

    /**
     * `handleAddressSubmit`: all six checks are evaluated and every failing one is
     * reported, with nothing changed; otherwise the address is saved to the
     * signed-in user's record, and the form goes back to adding.
     */
    method HandleAddressSubmit(f: AddressForm, now: nat) returns (outcome: AddressOutcome)
      modifies this, auth, auth.store`users, auth.store`currentUser, auth.store`loggedInFlag
      ensures var a := FormAddress(NewAddressId(old(currentEditingAddressId), now), f);
        (outcome.AddressInvalid? <==> !AddressAcceptable(a)) &&
        (outcome.AddressInvalid? ==> forall field :: Shown(outcome.errors, field) <==> Fails(a, field)) &&
        (outcome.AddressSaved? ==> outcome.address == a)
      ensures !outcome.AddressSaved? ==> auth.store.users == old(auth.store.users)
      ensures outcome.AddressInvalid? ==>
        auth.currentUser == old(auth.currentUser) && currentEditingAddressId == old(currentEditingAddressId)
      ensures outcome.AddressSaved? ==>
        auth.currentUser.Some? &&
        var i := IndexOfEmail(old(auth.store.users), auth.currentUser.value.email);
        i < |old(auth.store.users)| &&
        auth.store.users == old(auth.store.users)[i := SaveAddress(old(auth.store.users)[i], outcome.address,
                                                                   Orders.OrNull(old(currentEditingAddressId)), f.makeDefault)] &&
        currentEditingAddressId == None
    {
      var a := FormAddress(NewAddressId(currentEditingAddressId, now), f);
      var isValid, errors := CheckAddress(a);
      if !isValid {
        return AddressInvalid(errors);
      }
      outcome := StoreAddress(a, f.makeDefault);
    }

    /** The saving half of `handleAddressSubmit`, once the checks have passed. */
    method StoreAddress(a: Address, makeDefault: bool) returns (outcome: AddressOutcome)
      modifies this, auth, auth.store`users, auth.store`currentUser, auth.store`loggedInFlag
      ensures outcome == AddressSignedOut || outcome == AddressNoAccount || outcome == AddressSaved(a)
      ensures !outcome.AddressSaved? ==> auth.store.users == old(auth.store.users)
      ensures outcome.AddressSaved? ==>
        auth.currentUser.Some? &&
        var i := IndexOfEmail(old(auth.store.users), auth.currentUser.value.email);
        i < |old(auth.store.users)| &&
        auth.store.users == old(auth.store.users)[i := SaveAddress(old(auth.store.users)[i], a,
                                                                   Orders.OrNull(old(currentEditingAddressId)), makeDefault)] &&
        currentEditingAddressId == None
    {
      var user := auth.GetCurrentUser();
      if user.None? {
        return AddressSignedOut;
      }
      var i := IndexOfEmail(auth.store.users, user.value.email);
      if i == |auth.store.users| {
        return AddressNoAccount;
      }
      var updated := SaveAddress(auth.store.users[i], a, Orders.OrNull(currentEditingAddressId), makeDefault);
      WriteUser(i, updated);
      CloseAddressModal();
      outcome := AddressSaved(a);
    }

    /** `deleteAddress` (the confirmation taken as given); answers whether a record was written. */
    method DeleteAddress(addressId: string) returns (written: bool)
      modifies auth, auth.store`users, auth.store`currentUser, auth.store`loggedInFlag
      ensures !written ==> auth.store.users == old(auth.store.users)
      ensures written ==>
        auth.currentUser.Some? &&
        var i := IndexOfEmail(old(auth.store.users), auth.currentUser.value.email);
        i < |old(auth.store.users)| &&
        auth.store.users == old(auth.store.users)[i := RemoveAddress(old(auth.store.users)[i], addressId)]
    {
      var user := auth.GetCurrentUser();
      if user.None? {
        return false;
      }
      var i := IndexOfEmail(auth.store.users, user.value.email);
      if i == |auth.store.users| {
        return false;
      }
      WriteUser(i, RemoveAddress(auth.store.users[i], addressId));
      written := true;
    }

    /** `setDefaultAddress`: only an address the stored record has can become the default. */
    method SetDefaultAddress(addressId: string) returns (written: bool)
      modifies auth, auth.store`users, auth.store`currentUser, auth.store`loggedInFlag
      ensures !written ==> auth.store.users == old(auth.store.users)
      ensures written ==>
        auth.currentUser.Some? &&
        var i := IndexOfEmail(old(auth.store.users), auth.currentUser.value.email);
        i < |old(auth.store.users)| && HasAddress(old(auth.store.users)[i].shippingAddresses, addressId) &&
        auth.store.users == old(auth.store.users)[i := MakeDefault(old(auth.store.users)[i], addressId)]
      ensures old(auth.currentUser).Some? && auth.store.currentUser == old(auth.store.currentUser) ==>
        var i := IndexOfEmail(old(auth.store.users), old(auth.currentUser).value.email);
        i < |old(auth.store.users)| && !HasAddress(old(auth.store.users)[i].shippingAddresses, addressId) ==> !written
    {
      var user := auth.GetCurrentUser();
      if user.None? {
        return false;
      }
      var i := IndexOfEmail(auth.store.users, user.value.email);
      if i == |auth.store.users| || !HasAddress(auth.store.users[i].shippingAddresses, addressId) {
        return false;
      }
      WriteUser(i, MakeDefault(auth.store.users[i], addressId));
      written := true;
    }

    /** `updateOrdersEmail`: the `forEach` that rewrites the address of the old address's orders. */
    method UpdateOrdersEmail(oldEmail: string, newEmail: string)
      modifies auth.store`orders
      ensures auth.store.orders == RetagOrders(old(auth.store.orders), oldEmail, newEmail)
    {
      var orders := auth.store.orders;
      for i := 0 to |orders|
        invariant |orders| == |old(auth.store.orders)|
        invariant forall j :: 0 <= j < i ==> orders[j] == RetagOrders(old(auth.store.orders), oldEmail, newEmail)[j]
        invariant forall j :: i <= j < |orders| ==> orders[j] == old(auth.store.orders)[j]
      {
        if orders[i].email == oldEmail {
          orders := orders[i := orders[i].(email := newEmail)];
        }
      }
      auth.store.orders := orders;
    }

    /** `updateEmailsEmail` */
    method UpdateEmailsEmail(oldEmail: string, newEmail: string)
      modifies auth.store`userEmails
      ensures auth.store.userEmails == MoveInbox(old(auth.store.userEmails), oldEmail, newEmail)
    {
      var all := auth.store.userEmails;
      if oldEmail in all {
        all := all[newEmail := all[oldEmail]];
        all := all - {oldEmail};
        auth.store.userEmails := all;
      }
    }

    /**
     * `handleInfoSubmit`, with the cascade aimed at the stored address: checks the
     * trimmed name, then the address, then that someone is signed in, then that the
     * address is free; then updates the account with exactly the old address and,
     * when the address changed, its orders and inbox.
     */
    method HandleInfoSubmit(nameInput: string, emailInput: string) returns (outcome: InfoOutcome)
      modifies auth, auth.store`users, auth.store`currentUser, auth.store`loggedInFlag,
               auth.store`orders, auth.store`userEmails
      ensures !ValidateName(Trim(nameInput)) ==> outcome == InfoNameInvalid
      ensures ValidateName(Trim(nameInput)) && !IsValidEmail(Trim(emailInput)) ==> outcome == InfoEmailInvalid
      ensures outcome != InfoSaved ==>
        auth.store.users == old(auth.store.users) && auth.store.orders == old(auth.store.orders) &&
        auth.store.userEmails == old(auth.store.userEmails)
      ensures outcome == InfoSaved ==>
        ValidateName(Trim(nameInput)) && IsValidEmail(Trim(emailInput)) && auth.currentUser.Some? &&
        old(auth.Reloaded()).Some? &&
        var typed := Trim(emailInput);
        var oldEmail := old(auth.Reloaded()).value.email;
        var i := IndexOfEmail(old(auth.store.users), oldEmail);
        i < |old(auth.store.users)| &&
        (CascadeTarget(typed, oldEmail).Some? ==> !EmailTakenByOther(old(auth.store.users), typed, oldEmail)) &&
        auth.store.orders == OrdersAfter(old(auth.store.orders), oldEmail, CascadeTarget(typed, oldEmail)) &&
        auth.store.userEmails == InboxAfter(old(auth.store.userEmails), oldEmail, CascadeTarget(typed, oldEmail)) &&
        (CascadeTarget(typed, oldEmail).None? || EmailsDistinct(old(auth.store.users)) ==>
          auth.store.users == old(auth.store.users)[i := RenamedUser(old(auth.store.users)[i], Trim(nameInput), typed)])
      ensures EmailsDistinct(old(auth.store.users)) ==> EmailsDistinct(auth.store.users)
    {
      var name := Trim(nameInput);
      var typed := Trim(emailInput);
      if !ValidateName(name) {
        return InfoNameInvalid;
      }
      if !IsValidEmail(typed) {
        return InfoEmailInvalid;
      }
      var user := auth.GetCurrentUser();
      if user.None? {
        return InfoSignedOut;
      }
      var oldEmail := user.value.email;
      var target := CascadeTarget(typed, oldEmail);
      if target.Some? && EmailTakenByOther(auth.store.users, typed, oldEmail) {
        return InfoEmailTaken;
      }
      var users := auth.store.users;
      var i := IndexOfEmail(users, oldEmail);
      if i == |users| {
        return InfoNoAccount;
      }
      ApplyInfo(i, name, typed);
      outcome := InfoSaved;
    }

    /**
     * The saving half of `handleInfoSubmit` for the account at `i`, which holds the
     * signed-in address: the cascade, then the account with the new name and address.
     */
    method ApplyInfo(i: nat, name: string, typed: string)
      requires i < |auth.store.users| && auth.currentUser.Some?
      requires i == IndexOfEmail(auth.store.users, auth.currentUser.value.email)
      requires IsValidEmail(typed)
      requires CascadeTarget(typed, auth.currentUser.value.email).Some? ==>
        !EmailTakenByOther(auth.store.users, typed, auth.currentUser.value.email)
      modifies auth, auth.store`users, auth.store`currentUser, auth.store`loggedInFlag,
               auth.store`orders, auth.store`userEmails
      ensures auth.currentUser.Some?
      ensures var oldEmail := old(auth.currentUser).value.email;
        auth.store.orders == OrdersAfter(old(auth.store.orders), oldEmail, CascadeTarget(typed, oldEmail)) &&
        auth.store.userEmails == InboxAfter(old(auth.store.userEmails), oldEmail, CascadeTarget(typed, oldEmail))
      ensures CascadeTarget(typed, old(auth.currentUser).value.email).None? || EmailsDistinct(old(auth.store.users)) ==>
        auth.store.users == old(auth.store.users)[i := RenamedUser(old(auth.store.users)[i], name, typed)]
      ensures EmailsDistinct(old(auth.store.users)) ==> EmailsDistinct(auth.store.users)
    {
      var users := auth.store.users;
      var oldEmail := auth.currentUser.value.email;
      var updated := RenamedUser(users[i], name, typed);
      Cascade(oldEmail, CascadeTarget(typed, oldEmail));
      if EmailsDistinct(users) {
        RenameKeepsEmailsDistinct(users, i, name, typed);
      }
      WriteUser(i, updated);
    }

    /** The order and inbox half of `handleInfoSubmit`: moves both when the address changed. */
    method Cascade(oldEmail: string, target: Option<string>)
      modifies auth.store`orders, auth.store`userEmails
      ensures auth.store.orders == OrdersAfter(old(auth.store.orders), oldEmail, target)
      ensures auth.store.userEmails == InboxAfter(old(auth.store.userEmails), oldEmail, target)
    {
      if target.Some? {
        UpdateOrdersEmail(oldEmail, target.value);
        UpdateEmailsEmail(oldEmail, target.value);
      }
    }

    /** The address `getCurrentUserFull` looks up: the signed-in one, else the stored one, else none. */
    function FullUserEmail(): string
      reads auth, auth.store
    {
      if auth.Reloaded().Some? && auth.Reloaded().value.email != "" then auth.Reloaded().value.email
      else if auth.store.currentUser.Some? then auth.store.currentUser.value.email
      else ""
    }

    /** The account `getCurrentUserFull` finds. */
    function FullUser(): (r: Option<User>)
      reads auth, auth.store
      ensures FullUserEmail() == "" ==> r == None
      ensures FullUserEmail() != "" ==> (r.Some? <==> EmailExists(auth.store.users, FullUserEmail()))
      ensures r.Some? ==> r.value in auth.store.users && SameEmail(r.value, FullUserEmail())
      ensures r.Some? ==>
        exists i :: 0 <= i < |auth.store.users| && auth.store.users[i] == r.value &&
                    forall j :: 0 <= j < i ==> !SameEmail(auth.store.users[j], FullUserEmail())
    {
      if FullUserEmail() == "" then None else UserByEmail(auth.store.users, FullUserEmail())
    }

    /**
     * The profile page's `getCurrentUserFull`: the stored account whose address
     * matches the signed-in one, ignoring case, or `null`.
     */
    method CurrentUserFull() returns (r: Option<User>)
      modifies auth
      ensures auth.currentUser == old(auth.Reloaded())
      ensures r == old(FullUser())
    {
      var user := auth.GetCurrentUser();
      var email := "";
      if user.Some? && user.value.email != "" {
        email := user.value.email;
      }
      if email == "" && auth.store.currentUser.Some? {
        email := auth.store.currentUser.value.email;
      }
      if email == "" {
        return None;
      }
      r := UserByEmail(auth.store.users, email);
    }

    /**
     * `handlePasswordSubmit`: all three fields are checked against the stored
     * account and every failing one is reported; only a valid form reaches
     * `changePassword`, whose answer is passed on.
     */
    method HandlePasswordSubmit(current: string, newPassword: string, confirm: string) returns (outcome: PasswordOutcome)
      modifies auth, auth.store`users, auth.store`currentUser, auth.store`loggedInFlag
      ensures outcome == PasswordSignedOut <==> old(FullUser()).None?
      ensures old(FullUser()).Some? ==>
        var stored := old(FullUser()).value.password;
        (outcome.PasswordInvalid? <==> !PasswordFormValid(stored, current, newPassword, confirm)) &&
        (outcome.PasswordInvalid? ==>
          (CurrentField in outcome.errors <==> current == "" || stored != current) &&
          (NewField in outcome.errors <==> newPassword == "" || !ValidatePassword(newPassword) || stored == newPassword) &&
          (ConfirmField in outcome.errors <==> confirm == "" || newPassword != confirm))
      ensures !outcome.PasswordChanged? ==> auth.store.users == old(auth.store.users)
      ensures outcome.PasswordChanged? ==>
        auth.currentUser.Some? &&
        var i := IndexOfEmail(old(auth.store.users), auth.currentUser.value.email);
        i < |old(auth.store.users)| &&
        auth.store.users == old(auth.store.users)[i := old(auth.store.users)[i].(password := newPassword)]
    {
      var user := CurrentUserFull();
      if user.None? {
        return PasswordSignedOut;
      }
      var stored := user.value.password;
      var isValid := true;
      var errors: set<PasswordField> := {};
      if current == "" || stored != current {
        errors := errors + {CurrentField};
        isValid := false;
      }
      if newPassword == "" || !ValidatePassword(newPassword) || stored == newPassword {
        errors := errors + {NewField};
        isValid := false;
      }
      if confirm == "" || newPassword != confirm {
        errors := errors + {ConfirmField};
        isValid := false;
      }
      if !isValid {
        return PasswordInvalid(errors);
      }
      var r := auth.ChangePassword(current, newPassword);
      if r.Failure? {
        return PasswordRejected(r.error);
      }
      outcome := PasswordChanged;
    }
  }
}
