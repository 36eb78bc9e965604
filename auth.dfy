/**
 * The account store of js/auth-manager.js: registration, sign-in, the signed-in
 * user, profile updates, password changes and the per-user inbox.
 */
module Auth {
  import opened Wrappers
  import opened Text
  import opened Seqs
  import opened Storage

  /** The `message` of each `{ success: false }` answer. */
  datatype AuthError =
    | NameTooShort | InvalidEmail | PasswordTooShort | EmailTaken
    | CredentialsRequired | InvalidCredentials
    | NotLoggedIn | UserNotFound
    | CurrentPasswordRequired | CurrentPasswordIncorrect
    | NewPasswordRequired | NewPasswordTooShort | PasswordUnchanged

  /** A user as handed out to pages: every field but the password. */
  datatype SafeUser = SafeUser(
    id: string, name: string, email: string, registeredDate: int,
    shippingAddresses: seq<Address>, defaultAddressId: Option<string>,
    preferences: Preferences)

  /** `getSafeUser` on a user that is there. */
  function Safe(u: User): SafeUser {
    SafeUser(u.id, u.name, u.email, u.registeredDate, u.shippingAddresses,
             u.defaultAddressId, u.preferences)
  }

  /** `getSafeUser`: `null` stays `null`. */
  function GetSafeUser(u: Option<User>): (r: Option<SafeUser>)
    ensures r.Some? <==> u.Some?
  {
    match u
    case None => None
    case Some(x) => Some(Safe(x))
  }

  /** Puts a password back on a safe view. */
  function WithPassword(s: SafeUser, password: string): User {
    User(s.id, s.name, s.email, password, s.registeredDate, s.shippingAddresses,
         s.defaultAddressId, s.preferences)
  }

  /** The safe view drops the password and nothing else: the user can be rebuilt from it and the password. */
  lemma SafeRoundTrip(u: User)
    ensures WithPassword(Safe(u), u.password) == u
    ensures Safe(WithPassword(Safe(u), "")) == Safe(u)
  {
  }

  /** The safe view does not depend on the password. */
  lemma SafeIgnoresPassword(u: User, password: string)
    ensures Safe(u.(password := password)) == Safe(u)
  {
  }

  // ---------------------------------------------------------------- lookups

  /** `u.email.toLowerCase() === email.toLowerCase()` */
  predicate SameEmail(u: User, email: string) {
    ToLower(u.email) == ToLower(email)
  }

  /** No two accounts share an address, ignoring case: what `register` keeps true. */
  predicate EmailsDistinct(users: seq<User>) {
    forall i, j :: 0 <= i < j < |users| ==> ToLower(users[i].email) != ToLower(users[j].email)
  }

  /** `emailExists`: some account has the address, ignoring case. */
  predicate EmailExists(users: seq<User>, email: string) {
    exists i :: 0 <= i < |users| && SameEmail(users[i], email)
  }

  /** An appended account is taken exactly when the earlier ones or the new one has the address. */
  lemma EmailExistsAppend(users: seq<User>, u: User, email: string)
    ensures EmailExists(users + [u], email) <==> EmailExists(users, email) || SameEmail(u, email)
  {
    var all := users + [u];
    if EmailExists(users, email) {
      var i :| 0 <= i < |users| && SameEmail(users[i], email);
      assert all[i] == users[i];
    }
    if SameEmail(u, email) {
      assert all[|users|] == u;
    }
    if EmailExists(all, email) {
      var i :| 0 <= i < |all| && SameEmail(all[i], email);
      if i < |users| {
        assert all[i] == users[i];
      }
    }
  }

  /** The case of the address asked about does not matter. */
  lemma EmailExistsIgnoresCase(users: seq<User>, email: string)
    ensures EmailExists(users, ToLower(email)) <==> EmailExists(users, email)
  {
    ToLowerIdempotent(email);
  }

  /** `getUserByEmail`: the first account with that address, ignoring case. */
  function UserByEmail(users: seq<User>, email: string): (r: Option<User>)
    ensures r.Some? <==> EmailExists(users, email)
    ensures r.Some? ==> SameEmail(r.value, email)
    ensures r.Some? ==>
      exists i :: 0 <= i < |users| && users[i] == r.value &&
                  forall j :: 0 <= j < i ==> !SameEmail(users[j], email)
  {
    var i := FindIndex(users, (u: User) => SameEmail(u, email));
    if i < |users| then Some(users[i]) else None
  }

  predicate Credentials(u: User, email: string, password: string) {
    SameEmail(u, email) && u.password == password
  }

  /** The `find` in `login`: the first account with that address, ignoring case, and exactly that password. */
  function Authenticate(users: seq<User>, email: string, password: string): (r: Option<User>)
    ensures r.Some? <==> exists i :: 0 <= i < |users| && Credentials(users[i], email, password)
    ensures r.Some? ==> r.value in users && Credentials(r.value, email, password)
  {
    var i := FindIndex(users, (u: User) => Credentials(u, email, password));
    if i < |users| then Some(users[i]) else None
  }

  /**
   * With distinct addresses, signing in finds exactly the account `getUserByEmail`
   * finds, and succeeds exactly when its password is the one given.
   */
  lemma AuthenticateIsLookupThenCompare(users: seq<User>, email: string, password: string)
    requires EmailsDistinct(users)
    ensures Authenticate(users, email, password) ==
      match UserByEmail(users, email)
      case Some(u) => if u.password == password then Some(u) else None
      case None => None
  {
    var p := (u: User) => SameEmail(u, email);
    var q := (u: User) => Credentials(u, email, password);
    var i, k := FindIndex(users, p), FindIndex(users, q);
    if k < |users| {
      assert i <= k;
    } else if i < |users| {
      assert !q(users[i]);
    }
  }

  // ---------------------------------------------------------------- registration

  /** The account `register` creates. */
  function NewUser(name: string, email: string, password: string, now: nat): User {
    User("user-" + Digits(now), Trim(name), Normalize(email), password, now, [], None,
         Preferences(false, true))
  }

  /** The first check `register` fails, or `None` when all pass. */
  function RegistrationError(users: seq<User>, name: string, email: string, password: string): (r: Option<AuthError>)
    ensures r == None <==>
      |Trim(name)| >= 2 && IsValidEmail(email) && |password| >= 6 && !EmailExists(users, email)
  {
    if |Trim(name)| < 2 then Some(NameTooShort)
    else if !IsValidEmail(email) then Some(InvalidEmail)
    else if |password| < 6 then Some(PasswordTooShort)
    else if EmailExists(users, email) then Some(EmailTaken)
    else None
  }

  /**
   * A new account has the trimmed name, no addresses and no default; a valid
   * address is stored in its lowercase form, which compares like the address typed.
   */
  lemma NewUserEmail(name: string, email: string, password: string, now: nat)
    requires IsValidEmail(email)
    ensures var nu := NewUser(name, email, password, now);
      nu.email == ToLower(email) && SameEmail(nu, email) && nu.name == Trim(name) &&
      nu.shippingAddresses == [] && nu.defaultAddressId == None && nu.password == password
  {
    ValidEmailNormalizes(email);
    ToLowerIdempotent(email);
  }

  /** Registering keeps the addresses distinct. */
  lemma RegisterKeepsEmailsDistinct(users: seq<User>, name: string, email: string, password: string, now: nat)
    requires RegistrationError(users, name, email, password) == None
    ensures EmailsDistinct(users) ==> EmailsDistinct(users + [NewUser(name, email, password, now)])
  {
    NewUserEmail(name, email, password, now);
    var nu := NewUser(name, email, password, now);
    var us := users + [nu];
    if EmailsDistinct(users) {
      forall i, j | 0 <= i < j < |us| ensures ToLower(us[i].email) != ToLower(us[j].email) {
        if j == |users| {
          assert !SameEmail(users[i], email);
        }
      }
    }
  }

  /** The account just registered signs in with the address as typed and its password. */
  lemma RegisteredUserCanSignIn(users: seq<User>, name: string, email: string, password: string, now: nat)
    requires RegistrationError(users, name, email, password) == None
    ensures Authenticate(users + [NewUser(name, email, password, now)], email, password) ==
      Some(NewUser(name, email, password, now))
  {
    NewUserEmail(name, email, password, now);
    var nu := NewUser(name, email, password, now);
    var us := users + [nu];
    var q := (u: User) => Credentials(u, email, password);
    var k := FindIndex(us, q);
    assert q(us[|users|]);
  }

  // ---------------------------------------------------------------- updates

  /** The fields `updateUser` is given; an absent key is `None`. */
  datatype UserUpdate = UserUpdate(
    id: Option<string>, name: Option<string>, email: Option<string>, password: Option<string>,
    registeredDate: Option<int>,
    shippingAddresses: Option<seq<Address>>, defaultAddressId: Option<Option<string>>,
    preferences: Option<Preferences>)

  /** An update carrying only a password, as `changePassword` sends. */
  function PasswordOnly(password: string): UserUpdate {
    UserUpdate(None, None, None, Some(password), None, None, None, None)
  }

  /** A whole user record passed as the update, as the profile page's `updateCurrentUser` sends. */
  function FullUpdate(u: User): UserUpdate {
    UserUpdate(Some(u.id), Some(u.name), Some(u.email), Some(u.password), Some(u.registeredDate),
               Some(u.shippingAddresses), Some(u.defaultAddressId), Some(u.preferences))
  }

  /**
   * `{ ...user, ...safeUpdates }` with the password set afterwards only when one
   * was given and is not empty.
   */
  function Merge(u: User, upd: UserUpdate): User {
    User(
      upd.id.GetOr(u.id),
      upd.name.GetOr(u.name),
      upd.email.GetOr(u.email),
      if upd.password.Some? && upd.password.value != "" then upd.password.value else u.password,
      upd.registeredDate.GetOr(u.registeredDate),
      upd.shippingAddresses.GetOr(u.shippingAddresses),
      upd.defaultAddressId.GetOr(u.defaultAddressId),
      upd.preferences.GetOr(u.preferences))
  }

  /** Applying an update twice is applying it once. */
  lemma MergeIdempotent(u: User, upd: UserUpdate)
    ensures Merge(Merge(u, upd), upd) == Merge(u, upd)
  {
  }

  /** The password of an update never reaches the safe view, and an empty password changes nothing. */
  lemma MergeKeepsPasswordApart(u: User, upd: UserUpdate)
    ensures Safe(Merge(u, upd)) == Safe(Merge(u, upd.(password := None)))
    ensures upd.password == Some("") ==> Merge(u, upd) == Merge(u, upd.(password := None))
    ensures Merge(u, PasswordOnly("")) == u
  {
  }

  /**
   * A whole record sent as the update replaces every field, except that an empty
   * password keeps the stored one; sent over itself, it changes nothing.
   */
  lemma MergeFull(stored: User, u: User)
    ensures Merge(stored, FullUpdate(u)) == u.(password := if u.password != "" then u.password else stored.password)
    ensures Merge(u, FullUpdate(u)) == u
  {
  }

  /** A password-only update with a non-empty password changes the password and nothing else. */
  lemma PasswordOnlyChangesPassword(u: User, password: string)
    requires password != ""
    ensures Merge(u, PasswordOnly(password)) == u.(password := password)
  {
  }

  /** The first account with exactly that address (the `findIndex` of `updateUser`), or `|users|`. */
  function IndexOfEmail(users: seq<User>, email: string): (i: nat)
    ensures i <= |users|
    ensures i < |users| ==> users[i].email == email
    ensures forall j :: 0 <= j < i ==> users[j].email != email
  {
    FindIndex(users, (u: User) => u.email == email)
  }

  /** Overwriting the found account with one of the same address leaves it the one found. */
  lemma IndexOfEmailAfterWrite(users: seq<User>, email: string, u: User)
    requires IndexOfEmail(users, email) < |users| && u.email == email
    ensures IndexOfEmail(users[IndexOfEmail(users, email) := u], email) == IndexOfEmail(users, email)
  {
    var i := IndexOfEmail(users, email);
    var k := IndexOfEmail(users[i := u], email);
    assert users[i := u][i].email == email;
    assert k <= i;
  }

  /** With distinct addresses, no account keeps the exact address of one that has been given another. */
  lemma IndexOfEmailAfterRename(users: seq<User>, email: string, u: User)
    requires EmailsDistinct(users) && IndexOfEmail(users, email) < |users| && u.email != email
    ensures IndexOfEmail(users[IndexOfEmail(users, email) := u], email) == |users|
  {
    var i := IndexOfEmail(users, email);
    assert forall j :: 0 <= j < |users| && j != i ==> users[j].email != email;
  }

  /** `AuthManager`: the signed-in user held in memory, over the `users`, `currentUser`, `isLoggedIn` and `userEmails` keys. */
  class AuthManager {
    const store: LocalStore
    var currentUser: Option<User>

    /** `new AuthManager()`: starts signed out, then loads the stored user. */
    constructor (store: LocalStore)
      ensures this.store == store && currentUser == store.currentUser
    {
      this.store := store;
      currentUser := store.currentUser;
    }

    /** `init`: reloads the stored user when there is one and otherwise keeps the one in memory. */
    method Init()
      modifies this
      ensures currentUser == if store.currentUser.Some? then store.currentUser else old(currentUser)
    {
      if store.currentUser.Some? {
        currentUser := store.currentUser;
      }
    }

    /** `isLoggedIn`: a user in memory and the stored flag `'true'`. */
    predicate IsLoggedIn()
      reads this, store
    {
      currentUser.Some? && store.loggedInFlag == Some("true")
    }

    /** `setCurrentUser`: a user signs in; `null` signs out. */
    method SetCurrentUser(u: Option<User>)
      modifies this, store`currentUser, store`loggedInFlag
      ensures currentUser == u && store.currentUser == u
      ensures store.loggedInFlag == Some(if u.Some? then "true" else "false")
      ensures IsLoggedIn() <==> u.Some?
    {
      currentUser := u;
      store.currentUser := u;
      store.loggedInFlag := Some(if u.Some? then "true" else "false");
    }

    /** `logout` */
    method Logout()
      modifies this, store`currentUser, store`loggedInFlag
      ensures currentUser == None && store.currentUser == None && store.loggedInFlag == Some("false")
      ensures !IsLoggedIn()
    {
      currentUser := None;
      store.currentUser := None;
      store.loggedInFlag := Some("false");
    }

    /**
     * `register`: the first failing check wins and nothing changes; otherwise one
     * account is appended and signed in, and its safe view is returned.
     */
    method Register(name: string, email: string, password: string, now: nat) returns (r: Result<SafeUser, AuthError>)
      modifies this, store`users, store`currentUser, store`loggedInFlag
      ensures RegistrationError(old(store.users), name, email, password).Some? ==>
        r == Failure(RegistrationError(old(store.users), name, email, password).value) &&
        store.users == old(store.users) && currentUser == old(currentUser) &&
        store.currentUser == old(store.currentUser) && store.loggedInFlag == old(store.loggedInFlag)
      ensures RegistrationError(old(store.users), name, email, password).None? ==>
        var nu := NewUser(name, email, password, now);
        r == Success(Safe(nu)) && store.users == old(store.users) + [nu] &&
        currentUser == Some(nu) && store.currentUser == Some(nu) && IsLoggedIn()
      ensures EmailsDistinct(old(store.users)) ==> EmailsDistinct(store.users)
    {
      var err := RegistrationError(store.users, name, email, password);
      if err.Some? {
        return Failure(err.value);
      }
      var nu := NewUser(name, email, password, now);
      RegisterKeepsEmailsDistinct(store.users, name, email, password, now);
      store.users := store.users + [nu];
      SetCurrentUser(Some(nu));
      r := Success(Safe(nu));
    }

    /**
     * `login`: both fields are required; the first account matching the address,
     * ignoring case, and the password, exactly, is signed in. A failure changes nothing.
     */
    method Login(email: string, password: string) returns (r: Result<SafeUser, AuthError>)
      modifies this, store`currentUser, store`loggedInFlag
      ensures email == "" || password == "" ==> r == Failure(CredentialsRequired)
      ensures email != "" && password != "" && Authenticate(store.users, email, password).None? ==>
        r == Failure(InvalidCredentials)
      ensures r.Success? <==>
        email != "" && password != "" &&
        exists i :: 0 <= i < |store.users| && Credentials(store.users[i], email, password)
      ensures r.Success? ==>
        var u := Authenticate(store.users, email, password).value;
        r.value == Safe(u) && currentUser == Some(u) && store.currentUser == Some(u) && IsLoggedIn()
      ensures r.Failure? ==>
        currentUser == old(currentUser) && store.currentUser == old(store.currentUser) &&
        store.loggedInFlag == old(store.loggedInFlag)
    {
      if email == "" || password == "" {
        return Failure(CredentialsRequired);
      }
      var found := Authenticate(store.users, email, password);
      if found.None? {
        return Failure(InvalidCredentials);
      }
      SetCurrentUser(found);
      r := Success(Safe(found.value));
    }

    /** The user `getCurrentUser` hands out: the one in memory, else the stored one that `init` reloads. */
    function Reloaded(): Option<User>
      reads this, store
    {
      if currentUser.None? then store.currentUser else currentUser
    }

    /** `getCurrentUser`: reloads when nobody is in memory, then hands out the safe view. */
    method GetCurrentUser() returns (r: Option<SafeUser>)
      modifies this
      ensures currentUser == old(Reloaded())
      ensures r == GetSafeUser(currentUser)
    {
      if currentUser.None? {
        Init();
      }
      r := GetSafeUser(currentUser);
    }

    /**
     * `getCurrentUserFull`: after a reload, the stored account with the signed-in
     * address, ignoring case, falling back to the user in memory.
     */
    method GetCurrentUserFull() returns (r: Option<User>)
      modifies this
      ensures currentUser == if old(currentUser).None? then store.currentUser else old(currentUser)
      ensures currentUser.None? || currentUser.value.email == "" ==> r == None
      ensures currentUser.Some? && currentUser.value.email != "" ==>
        r == match UserByEmail(store.users, currentUser.value.email)
             case Some(u) => Some(u)
             case None => currentUser
    {
      if currentUser.None? {
        Init();
      }
      if currentUser.None? || currentUser.value.email == "" {
        return None;
      }
      var full := UserByEmail(store.users, currentUser.value.email);
      r := if full.Some? then full else currentUser;
    }

    /**
     * `updateUser`: refuses when signed out or when no account has exactly the
     * signed-in address; otherwise merges the update into the first such account,
     * leaves every other account alone and signs the merged account in.
     */
    method UpdateUser(upd: UserUpdate) returns (r: Result<SafeUser, AuthError>)
      modifies this, store`users, store`currentUser, store`loggedInFlag
      ensures !old(IsLoggedIn()) ==> r == Failure(NotLoggedIn)
      ensures old(IsLoggedIn()) && IndexOfEmail(old(store.users), old(currentUser).value.email) == |old(store.users)| ==>
        r == Failure(UserNotFound)
      ensures r.Failure? ==>
        store.users == old(store.users) && currentUser == old(currentUser) &&
        store.currentUser == old(store.currentUser) && store.loggedInFlag == old(store.loggedInFlag)
      ensures r.Success? <==>
        old(IsLoggedIn()) && IndexOfEmail(old(store.users), old(currentUser).value.email) < |old(store.users)|
      ensures r.Success? ==>
        old(IsLoggedIn()) &&
        var i := IndexOfEmail(old(store.users), old(currentUser).value.email);
        i < |old(store.users)| &&
        var merged := Merge(old(store.users)[i], upd);
        store.users == old(store.users)[i := merged] &&
        currentUser == Some(merged) && store.currentUser == Some(merged) && IsLoggedIn() &&
        r.value == Safe(merged)
    {
      if !IsLoggedIn() {
        return Failure(NotLoggedIn);
      }
      var i := IndexOfEmail(store.users, currentUser.value.email);
      if i == |store.users| {
        return Failure(UserNotFound);
      }
      var merged := Merge(store.users[i], upd);
      store.users := store.users[i := merged];
      SetCurrentUser(Some(merged));
      r := Success(Safe(merged));
    }

    /** The first check `changePassword` fails, or `None` when all pass. */
    function PasswordChangeError(current: string, newPassword: string): (r: Option<AuthError>)
      reads this, store
      ensures r == None <==>
        IsLoggedIn() && current != "" && currentUser.value.password == current &&
        |newPassword| >= 6 && newPassword != current
    {
      if !IsLoggedIn() then Some(NotLoggedIn)
      else if current == "" then Some(CurrentPasswordRequired)
      else if currentUser.value.password != current then Some(CurrentPasswordIncorrect)
      else if newPassword == "" then Some(NewPasswordRequired)
      else if |newPassword| < 6 then Some(NewPasswordTooShort)
      else if current == newPassword then Some(PasswordUnchanged)
      else None
    }

    /**
     * `changePassword`: the first failing check wins and nothing changes; otherwise
     * the signed-in account's password, and nothing else, is replaced.
     */
    method ChangePassword(current: string, newPassword: string) returns (r: Result<SafeUser, AuthError>)
      modifies this, store`users, store`currentUser, store`loggedInFlag
      ensures old(PasswordChangeError(current, newPassword)).Some? ==>
        r == Failure(old(PasswordChangeError(current, newPassword)).value)
      ensures r.Failure? ==>
        store.users == old(store.users) && currentUser == old(currentUser) &&
        store.currentUser == old(store.currentUser) && store.loggedInFlag == old(store.loggedInFlag)
      ensures (old(PasswordChangeError(current, newPassword)).None? &&
               IndexOfEmail(old(store.users), old(currentUser).value.email) < |old(store.users)|) ==> r.Success?
      ensures r.Success? ==>
        old(PasswordChangeError(current, newPassword)).None? &&
        var i := IndexOfEmail(old(store.users), old(currentUser).value.email);
        i < |old(store.users)| &&
        store.users == old(store.users)[i := old(store.users)[i].(password := newPassword)] &&
        currentUser == Some(store.users[i]) && IsLoggedIn()
    {
      var err := PasswordChangeError(current, newPassword);
      if err.Some? {
        return Failure(err.value);
      }
      ghost var i := IndexOfEmail(store.users, currentUser.value.email);
      r := UpdateUser(PasswordOnly(newPassword));
      if r.Success? {
        PasswordOnlyChangesPassword(old(store.users)[i], newPassword);
      }
    }

    /** `getUserOrders`: signed out gives nothing; otherwise the orders with exactly the signed-in address. */
    function GetUserOrders(): (r: seq<Order>)
      reads this, store
      ensures !IsLoggedIn() ==> r == []
      ensures IsLoggedIn() ==>
        (forall i :: 0 <= i < |r| ==> r[i] in store.orders && r[i].email == currentUser.value.email) &&
        forall i :: 0 <= i < |store.orders| && store.orders[i].email == currentUser.value.email ==>
          store.orders[i] in r
    {
      if !IsLoggedIn() then []
      else
        var e := currentUser.value.email;
        Filter(store.orders, (o: Order) => o.email == e)
    }

    /** `getUserEmails`: signed out gives nothing; otherwise the signed-in address's inbox, empty when it has none. */
    function GetUserEmails(): (r: seq<InboxMessage>)
      reads this, store
      ensures !IsLoggedIn() ==> r == []
      ensures IsLoggedIn() && currentUser.value.email in store.userEmails ==>
        r == store.userEmails[currentUser.value.email]
      ensures IsLoggedIn() && currentUser.value.email !in store.userEmails ==> r == []
    {
      if IsLoggedIn() && currentUser.value.email in store.userEmails
      then store.userEmails[currentUser.value.email]
      else []
    }

    /** Whose inbox `addUserEmail` writes to: the signed-in user's, if any. */
    function Recipient(): (r: Option<string>)
      reads this, store
    {
      if IsLoggedIn() then Some(currentUser.value.email) else None
    }

    /** The inbox `addUserEmail` writes to is the one `getUserEmails` reads, and there is one exactly when signed in. */
    lemma RecipientIsReadInbox()
      ensures Recipient().Some? <==> IsLoggedIn()
      ensures Recipient().None? ==> GetUserEmails() == []
      ensures Recipient().Some? ==>
        GetUserEmails() == if Recipient().value in store.userEmails then store.userEmails[Recipient().value] else []
    {
    }

    /**
     * `addUserEmail`: signed out does nothing; otherwise the message, stamped with
     * an id and a date unless it carries its own, goes to the front of the signed-in
     * address's inbox, which is created when missing. Other inboxes are untouched.
     */
    method AddUserEmail(data: InboxMessage, now: nat)
      modifies store`userEmails
      ensures store.userEmails == Inboxed(old(store.userEmails), Recipient(), Stamped(data, now))
      ensures IsLoggedIn() ==> GetUserEmails() == [Stamped(data, now)] + old(GetUserEmails())
    {
      if !IsLoggedIn() {
        return;
      }
      var key := currentUser.value.email;
      var before := if key in store.userEmails then store.userEmails[key] else [];
      store.userEmails := store.userEmails[key := [Stamped(data, now)] + before];
    }
  }

  /** The inboxes after `m` is put first in the recipient's, if there is one. */
  function Inboxed(inboxes: map<string, seq<InboxMessage>>, recipient: Option<string>, m: InboxMessage)
    : (r: map<string, seq<InboxMessage>>)
    ensures recipient.Some? ==> recipient.value in r && |r[recipient.value]| > 0 && r[recipient.value][0] == m
    ensures recipient.Some? && recipient.value in inboxes ==> r[recipient.value][1..] == inboxes[recipient.value]
    ensures forall k :: k in inboxes && (recipient.None? || k != recipient.value) ==> k in r && r[k] == inboxes[k]
  {
    match recipient
    case None => inboxes
    case Some(key) => inboxes[key := [m] + (if key in inboxes then inboxes[key] else [])]
  }

  /** Filing adds at most the recipient's key, and a recipient without an inbox gets one holding just the message. */
  lemma InboxedKeys(inboxes: map<string, seq<InboxMessage>>, recipient: Option<string>, m: InboxMessage)
    ensures Inboxed(inboxes, recipient, m).Keys == inboxes.Keys + (if recipient.Some? then {recipient.value} else {})
    ensures recipient.Some? && recipient.value !in inboxes ==> Inboxed(inboxes, recipient, m)[recipient.value] == [m]
  {
  }

  /** `{ id: 'email-' + Date.now(), date: new Date(), ...emailData }`: the caller's own id and date win. */
  function Stamped(data: InboxMessage, now: nat): (m: InboxMessage)
    ensures m.id.Some? && m.date.Some?
    ensures m.subject == data.subject && m.preview == data.preview && m.content == data.content
    ensures data.id.Some? ==> m.id == data.id
    ensures data.date.Some? ==> m.date == data.date
  {
    data.(id := if data.id.Some? then data.id else Some("email-" + Digits(now)),
          date := if data.date.Some? then data.date else Some(now))
  }

  /**
   * When the ledger was written by `createOrder` and the signed-in address is in
   * its stored (normalized) form, the exact-match lookup of `getUserOrders` here
   * and the normalized lookup of the order ledger agree.
   */
  lemma ExactLookupMatchesLedger(orders: seq<Order>, email: string)
    requires email != "" && email == Normalize(email)
    requires forall i :: 0 <= i < |orders| ==> orders[i].email == Normalize(orders[i].email)
    ensures Filter(orders, (o: Order) => o.email == email) ==
      Filter(orders, (o: Order) => Normalize(o.email) == Normalize(email))
  {
    FilterSameTest(orders, (o: Order) => o.email == email,
                   (o: Order) => Normalize(o.email) == Normalize(email));
  }
}
