/**
 * The records the authentication module keeps in browser storage (users
 * with their addresses, the session, orders) and the pure lookups and list
 * transformations the module applies to them.
 *
 * Timestamps are milliseconds since the epoch (the source stores them as
 * ISO-8601 strings of the same instants); amounts are integer cents.
 */
module Records {
  import opened Optional
  import opened Text
  import Search

  // ---------------------------------------------------------------------
  // Users
  // ---------------------------------------------------------------------

  datatype Preferences = Preferences(newsletter: bool, language: String)

  const DEFAULT_PREFERENCES: Preferences := Preferences(false, "fr")

  datatype User = User(
    id: String,
    email: String,
    password: String,
    firstName: String,
    lastName: String,
    phone: Option<String>,
    createdAt: int,
    updatedAt: int,
    addresses: seq<Address>,
    savedCards: seq<String>,
    preferences: Preferences,
    resetToken: Option<String>,
    resetTokenExpires: Option<int>)

  /** A user as handed to callers: everything but the credential and the reset token. */
  datatype PublicUser = PublicUser(
    id: String,
    email: String,
    firstName: String,
    lastName: String,
    phone: Option<String>,
    createdAt: int,
    updatedAt: int,
    addresses: seq<Address>,
    savedCards: seq<String>,
    preferences: Preferences)

  /** `sanitizeUser`: drop `password`, `resetToken` and `resetTokenExpires`. */
  function Sanitize(u: User): PublicUser {
    PublicUser(u.id, u.email, u.firstName, u.lastName, u.phone, u.createdAt, u.updatedAt,
               u.addresses, u.savedCards, u.preferences)
  }

  /** Nothing secret survives sanitising: users that differ only in secrets look the same. */
  lemma SanitizeHidesSecrets(u: User, password: String, token: Option<String>, expires: Option<int>)
    ensures Sanitize(u.(password := password, resetToken := token, resetTokenExpires := expires)) == Sanitize(u)
    ensures Sanitize(u).id == u.id && Sanitize(u).email == u.email && Sanitize(u).addresses == u.addresses
  {
  }

  /** `findUserByEmail`: the first user whose e-mail equals `email` ignoring case. */
  function FindUserByEmail(users: seq<User>, email: String): (r: Option<User>)
    ensures r.Some? ==> r.value in users && EqualsIgnoringCase(r.value.email, email)
    ensures r.Some? ==>
      exists i :: 0 <= i < |users| && users[i] == r.value &&
                  forall j :: 0 <= j < i ==> !EqualsIgnoringCase(users[j].email, email)
    ensures r.None? <==> forall u :: u in users ==> !EqualsIgnoringCase(u.email, email)
  {
    Search.Find(users, (u: User) => EqualsIgnoringCase(u.email, email))
  }

  /** `findUserById`. */
  function FindUserById(users: seq<User>, id: String): (r: Option<User>)
    ensures r.Some? ==> r.value in users && r.value.id == id
    ensures r.Some? ==>
      exists i :: 0 <= i < |users| && users[i] == r.value &&
                  forall j :: 0 <= j < i ==> users[j].id != id
    ensures r.None? <==> forall u :: u in users ==> u.id != id
  {
    Search.Find(users, (u: User) => u.id == id)
  }

  /** `users.findIndex(u => u.id === id)`. */
  function IndexOfUser(users: seq<User>, id: String): (r: int)
    ensures -1 <= r < |users|
    ensures r >= 0 ==> users[r].id == id && forall j :: 0 <= j < r ==> users[j].id != id
    ensures r == -1 <==> forall j :: 0 <= j < |users| ==> users[j].id != id
  {
    Search.FindIndex(users, (u: User) => u.id == id)
  }

  /** `users.filter(u => u.id !== id)`. */
  function WithoutUser(users: seq<User>, id: String): (r: seq<User>)
    ensures forall u :: u in r <==> u in users && u.id != id
  {
    Search.Filter(users, (u: User) => u.id != id)
  }

  /** `users.find(u => u.resetToken === token)`. */
  function FindUserByResetToken(users: seq<User>, token: String): (r: Option<User>)
    ensures r.Some? ==> r.value in users && r.value.resetToken == Some(token)
    ensures r.Some? ==>
      exists i :: 0 <= i < |users| && users[i] == r.value &&
                  forall j :: 0 <= j < i ==> users[j].resetToken != Some(token)
    ensures r.None? <==> forall u :: u in users ==> u.resetToken != Some(token)
  {
    Search.Find(users, (u: User) => u.resetToken == Some(token))
  }

  /**
   * The directory invariant: e-mails are stored lower-cased and no two
   * users share one.
   */
  ghost predicate DirectoryValid(users: seq<User>) {
    && (forall i :: 0 <= i < |users| ==> IsLowerCase(users[i].email))
    && (forall i, j :: 0 <= i < j < |users| ==> users[i].email != users[j].email)
  }

  /** A lower-cased e-mail that the lookup does not find differs from every stored one. */
  lemma UnknownEmailIsFresh(users: seq<User>, email: String)
    requires DirectoryValid(users)
    requires FindUserByEmail(users, email).None?
    ensures forall i :: 0 <= i < |users| ==> users[i].email != ToLower(email)
  {
    forall i | 0 <= i < |users|
      ensures users[i].email != ToLower(email)
    {
      assert users[i] in users;
      LowerCaseIsFixed(users[i].email);
      LowerCaseIsFixed(email);
    }
  }

  /** Appending a user under an e-mail the lookup does not find keeps the directory valid. */
  lemma AppendKeepsDirectoryValid(users: seq<User>, u: User, email: String)
    requires DirectoryValid(users)
    requires FindUserByEmail(users, email).None?
    requires u.email == ToLower(email)
    ensures DirectoryValid(users + [u])
  {
    UnknownEmailIsFresh(users, email);
    LowerCaseIsFixed(email);
  }

  /** Replacing one user keeps the directory valid when the e-mail is unchanged or unknown. */
  lemma ReplaceKeepsDirectoryValid(users: seq<User>, i: nat, v: User, email: String)
    requires DirectoryValid(users)
    requires i < |users|
    requires v.email == users[i].email ||
             (FindUserByEmail(users, email).None? && v.email == ToLower(email))
    ensures DirectoryValid(users[i := v])
  {
    if v.email != users[i].email {
      UnknownEmailIsFresh(users, email);
      LowerCaseIsFixed(email);
    }
  }

  /** Removing users keeps the directory valid. */
  lemma {:induction false} FilterKeepsDirectoryValid(users: seq<User>, p: User -> bool)
    requires DirectoryValid(users)
    ensures DirectoryValid(Search.Filter(users, p))
  {
    if users != [] {
      var rest := users[1..];
      assert DirectoryValid(rest) by {
        assert forall i :: 0 <= i < |rest| ==> rest[i] == users[i + 1];
      }
      FilterKeepsDirectoryValid(rest, p);
      var kept := Search.Filter(rest, p);
      if p(users[0]) {
        forall j | 0 <= j < |kept|
          ensures kept[j].email != users[0].email
        {
          assert kept[j] in rest;
          var k :| 0 <= k < |rest| && rest[k] == kept[j];
          assert rest[k] == users[k + 1];
        }
        var r := [users[0]] + kept;
        assert Search.Filter(users, p) == r;
        assert forall j :: 1 <= j < |r| ==> r[j] == kept[j - 1];
      }
    }
  }

  // ---------------------------------------------------------------------
  // Addresses
  // ---------------------------------------------------------------------

  /** The fields the address form supplies to `addAddress`. */
  datatype AddressForm = AddressForm(
    addressLabel: String, firstName: String, lastName: String, street: String, street2: String,
    postal: String, city: String, country: String, phone: String)

  datatype Address = Address(
    id: String,
    addressLabel: String, firstName: String, lastName: String, street: String, street2: String,
    postal: String, city: String, country: String, phone: String,
    isDefault: bool,
    createdAt: int,
    updatedAt: Option<int>)

  /** The keys an `updateAddress` call supplies; an absent key leaves the field alone. */
  datatype AddressPatch = AddressPatch(
    id: Option<String>,
    addressLabel: Option<String>, firstName: Option<String>, lastName: Option<String>,
    street: Option<String>, street2: Option<String>, postal: Option<String>,
    city: Option<String>, country: Option<String>, phone: Option<String>,
    isDefault: Option<bool>,
    createdAt: Option<int>)

  function Or<T>(o: Option<T>, otherwise: T): T {
    if o.Some? then o.value else otherwise
  }

  /** The address `addAddress` builds: the form's fields, a new id, default iff the list was empty. */
  function NewAddress(id: String, f: AddressForm, existing: seq<Address>, now: int): (a: Address)
    ensures a.isDefault <==> existing == []
    ensures a.id == id && a.createdAt == now && a.updatedAt.None?
  {
    Address(id, f.addressLabel, f.firstName, f.lastName, f.street, f.street2, f.postal, f.city,
            f.country, f.phone, |existing| == 0, now, None)
  }

  /** `{...a, ...patch, updatedAt: now}`. */
  function PatchAddress(a: Address, p: AddressPatch, now: int): Address {
    Address(Or(p.id, a.id), Or(p.addressLabel, a.addressLabel), Or(p.firstName, a.firstName),
            Or(p.lastName, a.lastName), Or(p.street, a.street), Or(p.street2, a.street2),
            Or(p.postal, a.postal), Or(p.city, a.city), Or(p.country, a.country),
            Or(p.phone, a.phone), Or(p.isDefault, a.isDefault), Or(p.createdAt, a.createdAt),
            Some(now))
  }

  /** `addresses.findIndex(a => a.id === id)`. */
  function IndexOfAddress(addresses: seq<Address>, id: String): (r: int)
    ensures -1 <= r < |addresses|
    ensures r >= 0 ==> addresses[r].id == id && forall j :: 0 <= j < r ==> addresses[j].id != id
    ensures r == -1 <==> forall j :: 0 <= j < |addresses| ==> addresses[j].id != id
  {
    Search.FindIndex(addresses, (a: Address) => a.id == id)
  }

  /** `addresses.filter(a => a.id !== id)`: every address with that id goes, the rest keep their order. */
  function WithoutAddress(addresses: seq<Address>, id: String): (r: seq<Address>)
    ensures forall a :: a in r <==> a in addresses && a.id != id
  {
    Search.Filter(addresses, (a: Address) => a.id != id)
  }

  /** Deleting from a concatenation deletes from each part in place. */
  lemma WithoutAddressKeepsOrder(front: seq<Address>, back: seq<Address>, id: String)
    ensures WithoutAddress(front + back, id) == WithoutAddress(front, id) + WithoutAddress(back, id)
  {
    Search.FilterConcat(front, back, (a: Address) => a.id != id);
  }

  /** `addresses.map(a => ({...a, isDefault: a.id === id}))`. */
  function WithDefault(addresses: seq<Address>, id: String): (r: seq<Address>)
    ensures |r| == |addresses|
    ensures forall i :: 0 <= i < |r| ==> (r[i].isDefault <==> addresses[i].id == id)
    ensures forall i :: 0 <= i < |r| ==> r[i].(isDefault := addresses[i].isDefault) == addresses[i]
  {
    seq(|addresses|, i requires 0 <= i < |addresses| => addresses[i].(isDefault := addresses[i].id == id))
  }

  ghost predicate DistinctAddressIds(addresses: seq<Address>) {
    forall i, j :: 0 <= i < j < |addresses| ==> addresses[i].id != addresses[j].id
  }

  /** How many addresses carry the default flag. */
  function CountDefaults(addresses: seq<Address>): nat {
    if addresses == [] then 0
    else (if addresses[0].isDefault then 1 else 0) + CountDefaults(addresses[1..])
  }

  lemma {:induction false} CountDefaultsAppend(addresses: seq<Address>, a: Address)
    ensures CountDefaults(addresses + [a]) == CountDefaults(addresses) + (if a.isDefault then 1 else 0)
  {
    if addresses != [] {
      assert (addresses + [a])[1..] == addresses[1..] + [a];
      CountDefaultsAppend(addresses[1..], a);
    }
  }

  /** A list counts at most one default exactly when no two of its addresses are default. */
  lemma {:induction false} AtMostOneDefault(addresses: seq<Address>)
    ensures CountDefaults(addresses) <= 1 <==>
      forall i, j :: 0 <= i < j < |addresses| && addresses[i].isDefault ==> !addresses[j].isDefault
  {
    if addresses != [] {
      var rest := addresses[1..];
      AtMostOneDefault(rest);
      NoDefaults(rest);
      assert forall i :: 0 <= i < |rest| ==> rest[i] == addresses[i + 1];
    }
  }

  lemma {:induction false} NoDefaults(addresses: seq<Address>)
    ensures CountDefaults(addresses) == 0 <==> forall i :: 0 <= i < |addresses| ==> !addresses[i].isDefault
  {
    if addresses != [] {
      NoDefaults(addresses[1..]);
      assert forall i :: 1 <= i < |addresses| ==> addresses[i] == addresses[1..][i - 1];
    }
  }

  /**
   * After `setDefaultAddress(id)` on a list with distinct ids, exactly one
   * address is the default if one has that id, and none otherwise.
   */
  lemma {:induction false} SetDefaultLeavesOne(addresses: seq<Address>, id: String)
    requires DistinctAddressIds(addresses)
    ensures CountDefaults(WithDefault(addresses, id)) ==
      if exists i :: 0 <= i < |addresses| && addresses[i].id == id then 1 else 0
  {
    if addresses != [] {
      var rest := addresses[1..];
      assert DistinctAddressIds(rest) by {
        assert forall i :: 0 <= i < |rest| ==> rest[i] == addresses[i + 1];
      }
      SetDefaultLeavesOne(rest, id);
      assert WithDefault(addresses, id)[1..] == WithDefault(rest, id);
      if addresses[0].id == id {
        assert forall i :: 0 <= i < |rest| ==> rest[i] == addresses[i + 1];
        assert !exists i :: 0 <= i < |rest| && rest[i].id == id;
      } else {
        assert (exists i :: 0 <= i < |addresses| && addresses[i].id == id) <==>
               (exists i :: 0 <= i < |rest| && rest[i].id == id) by {
          if i :| 0 <= i < |addresses| && addresses[i].id == id {
            assert rest[i - 1] == addresses[i];
          }
          if i :| 0 <= i < |rest| && rest[i].id == id {
            assert addresses[i + 1] == rest[i];
          }
        }
      }
    }
  }

  /** `addAddress` makes the first address the default and never adds a second default. */
  lemma AddAddressDefaults(addresses: seq<Address>, id: String, f: AddressForm, now: int)
    ensures CountDefaults(addresses + [NewAddress(id, f, addresses, now)]) ==
      if addresses == [] then 1 else CountDefaults(addresses)
  {
    CountDefaultsAppend(addresses, NewAddress(id, f, addresses, now));
  }

  /**
   * Deleting the default address leaves the list without any default:
   * no other address is promoted.
   */
  lemma DeleteDefaultLeavesNone(addresses: seq<Address>, i: nat)
    requires i < |addresses| && addresses[i].isDefault
    requires CountDefaults(addresses) <= 1
    ensures CountDefaults(WithoutAddress(addresses, addresses[i].id)) == 0
  {
    var id := addresses[i].id;
    var r := WithoutAddress(addresses, id);
    AtMostOneDefault(addresses);
    forall k | 0 <= k < |r|
      ensures !r[k].isDefault
    {
      assert r[k] in addresses;
      var j :| 0 <= j < |addresses| && addresses[j] == r[k];
    }
    NoDefaults(r);
  }

  // ---------------------------------------------------------------------
  // Sessions
  // ---------------------------------------------------------------------

  /** A session record with a snapshot of the user's identity at login. */
  datatype Session = Session(
    userId: String, email: String, firstName: String, lastName: String,
    createdAt: int, expiresAt: int)

  /** Seven days in milliseconds. */
  const SESSION_TTL_MS: int := 7 * 24 * 60 * 60 * 1000

  /** The session `createSession` builds for u at time now. */
  function SessionFor(u: User, now: int): (s: Session)
    ensures s.expiresAt == s.createdAt + SESSION_TTL_MS
  {
    Session(u.id, u.email, u.firstName, u.lastName, now, now + SESSION_TTL_MS)
  }

  // ---------------------------------------------------------------------
  // Orders
  // ---------------------------------------------------------------------

  datatype OrderStatus = Pending | Processing | Shipped | Delivered | Cancelled

  datatype StatusEntry = StatusEntry(status: OrderStatus, date: int, message: String)

  datatype OrderItem = OrderItem(productId: String, name: String, color: String, quantity: int, unitPrice: int)

  /** A shipping or billing snapshot, kept as the caller's key/value pairs. */
  type Snapshot = map<String, String>

  /** What the checkout hands to `createOrder`. */
  datatype OrderRequest = OrderRequest(
    email: String, items: seq<OrderItem>, shipping: Snapshot, billing: Snapshot, total: int)

  datatype Order = Order(
    id: String,
    userId: Option<String>,
    email: String,
    items: seq<OrderItem>,
    shipping: Snapshot,
    billing: Snapshot,
    total: int,
    status: OrderStatus,
    statusHistory: seq<StatusEntry>,
    trackingNumber: Option<String>,
    createdAt: int,
    updatedAt: int)

  const ORDER_RECEIVED: String := "Commande reçue"

  /** The status log is non-empty and ends with the current status. */
  predicate StatusLogConsistent(o: Order) {
    |o.statusHistory| > 0 && o.statusHistory[|o.statusHistory| - 1].status == o.status
  }

  /** `orders.filter(o => o.userId === userId)`. */
  function OrdersOf(orders: seq<Order>, userId: String): (r: seq<Order>)
    ensures forall o :: o in r <==> o in orders && o.userId == Some(userId)
  {
    Search.Filter(orders, (o: Order) => o.userId == Some(userId))
  }

  ghost predicate NewestFirst(orders: seq<Order>) {
    forall i, j :: 0 <= i < j < |orders| ==> orders[i].createdAt >= orders[j].createdAt
  }

  /** Place o before the first order that is not newer than it. */
  function InsertNewestFirst(o: Order, sorted: seq<Order>): (r: seq<Order>)
    ensures multiset(r) == multiset(sorted) + multiset{o}
  {
    if sorted == [] || sorted[0].createdAt <= o.createdAt then
      [o] + sorted
    else
      assert sorted == [sorted[0]] + sorted[1..];
      [sorted[0]] + InsertNewestFirst(o, sorted[1..])
  }

  lemma {:induction false} InsertBounded(o: Order, sorted: seq<Order>, bound: int)
    requires o.createdAt <= bound
    requires forall k :: 0 <= k < |sorted| ==> sorted[k].createdAt <= bound
    ensures forall k :: 0 <= k < |InsertNewestFirst(o, sorted)| ==> InsertNewestFirst(o, sorted)[k].createdAt <= bound
  {
    if !(sorted == [] || sorted[0].createdAt <= o.createdAt) {
      InsertBounded(o, sorted[1..], bound);
    }
  }

  lemma {:induction false} InsertKeepsNewestFirst(o: Order, sorted: seq<Order>)
    requires NewestFirst(sorted)
    ensures NewestFirst(InsertNewestFirst(o, sorted))
  {
    if !(sorted == [] || sorted[0].createdAt <= o.createdAt) {
      var tail := sorted[1..];
      InsertKeepsNewestFirst(o, tail);
      InsertBounded(o, tail, sorted[0].createdAt);
      var rest := InsertNewestFirst(o, tail);
      var r := [sorted[0]] + rest;
      assert forall k :: 1 <= k < |r| ==> r[k] == rest[k - 1];
    }
  }

  /** `.sort((a, b) => b.createdAt - a.createdAt)`: newest first, a permutation of the input. */
  function SortNewestFirst(orders: seq<Order>): (r: seq<Order>)
    ensures multiset(r) == multiset(orders)
  {
    if orders == [] then []
    else
      assert orders == [orders[0]] + orders[1..];
      InsertNewestFirst(orders[0], SortNewestFirst(orders[1..]))
  }

  lemma {:induction false} SortIsNewestFirst(orders: seq<Order>)
    ensures NewestFirst(SortNewestFirst(orders))
  {
    if orders != [] {
      SortIsNewestFirst(orders[1..]);
      InsertKeepsNewestFirst(orders[0], SortNewestFirst(orders[1..]));
    }
  }

  /** Whether an order was created at time t. */
  function CreatedAtTime(t: int): Order -> bool {
    (o: Order) => o.createdAt == t
  }

  /** Inserting o puts it before every order of its own time that was already there. */
  lemma {:induction false} InsertKeepsTies(o: Order, sorted: seq<Order>, t: int)
    ensures Search.Filter(InsertNewestFirst(o, sorted), CreatedAtTime(t)) ==
            (if o.createdAt == t then [o] else []) + Search.Filter(sorted, CreatedAtTime(t))
  {
    if sorted == [] || sorted[0].createdAt <= o.createdAt {
      assert ([o] + sorted)[1..] == sorted;
    } else {
      var tail := sorted[1..];
      InsertKeepsTies(o, tail, t);
      assert ([sorted[0]] + InsertNewestFirst(o, tail))[1..] == InsertNewestFirst(o, tail);
    }
  }

  /**
   * The sort is stable, as `Array.prototype.sort` is: orders created at the
   * same time keep their input order.
   */
  lemma {:induction false} SortIsStable(orders: seq<Order>, t: int)
    ensures Search.Filter(SortNewestFirst(orders), CreatedAtTime(t)) == Search.Filter(orders, CreatedAtTime(t))
  {
    if orders != [] {
      SortIsStable(orders[1..], t);
      InsertKeepsTies(orders[0], SortNewestFirst(orders[1..]), t);
    }
  }

  /** What `getOrders` lists for a signed-in user: exactly that user's orders, newest first. */
  function OrderHistory(orders: seq<Order>, userId: String): (r: seq<Order>)
    ensures NewestFirst(r)
    ensures multiset(r) == multiset(OrdersOf(orders, userId))
    ensures forall o :: o in r <==> o in orders && o.userId == Some(userId)
  {
    var r := SortNewestFirst(OrdersOf(orders, userId));
    SortIsNewestFirst(OrdersOf(orders, userId));
    assert forall o :: o in r <==> o in multiset(r);
    r
  }

  /** `getOrderById`. */
  function OrderById(orders: seq<Order>, orderId: String): (r: Option<Order>)
    ensures r.Some? ==> r.value in orders && r.value.id == orderId
    ensures r.Some? ==>
      exists i :: 0 <= i < |orders| && orders[i] == r.value &&
                  forall j :: 0 <= j < i ==> orders[j].id != orderId
    ensures r.None? <==> forall o :: o in orders ==> o.id != orderId
  {
    Search.Find(orders, (o: Order) => o.id == orderId)
  }

  /** `getOrderByIdAndEmail`: guest tracking, the e-mail compared ignoring case. */
  function OrderByIdAndEmail(orders: seq<Order>, orderId: String, email: String): (r: Option<Order>)
    ensures r.Some? ==> r.value in orders && r.value.id == orderId && EqualsIgnoringCase(r.value.email, email)
    ensures r.Some? ==>
      exists i :: 0 <= i < |orders| && orders[i] == r.value &&
                  forall j :: 0 <= j < i ==> !(orders[j].id == orderId && EqualsIgnoringCase(orders[j].email, email))
    ensures r.None? <==> forall o :: o in orders ==> !(o.id == orderId && EqualsIgnoringCase(o.email, email))
  {
    Search.Find(orders, (o: Order) => o.id == orderId && EqualsIgnoringCase(o.email, email))
  }
}
