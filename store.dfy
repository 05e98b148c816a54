/** The client-side state layer of src/store/index.ts: the session store,
    the inventory, the user directory and the assignment ledger, held by one
    object `AppStore`, plus the list functions that specify its handlers.

    The directory keeps two lists, as the source does: the visible `users`
    of the directory store and the module-level backing array `mockUsers`
    that `login` searches. At start-up the visible list IS the backing array
    (store/index.ts:197), so an in-place `mockUsers.push` also lands in it;
    the flag `shared` records whether that aliasing still holds. The first
    `set` on the directory store replaces the visible list by a fresh array
    and ends the aliasing for good. */
module Store {
  import opened Seqs
  import opened Types

  // ----- Bootstrap data (store/index.ts:6-93); every seed is stamped `now`.

  function SeedProducts(now: Time): seq<Product>
  {
    [ Product(1, "Rice", 45, 100, "kg", Some(""), now),
      Product(2, "Wheat", 30, 150, "kg", Some(""), now),
      Product(3, "Sugar", 50, 75, "kg", Some(""), now),
      Product(4, "Oil", 120, 50, "liter", Some(""), now) ]
  }

  function SeedUsers(now: Time): seq<User>
  {
    [ User(1, "Admin User", "admin@example.com", "password", Admin,
           None, Some("Mumbai"), Some("9876543210"), None, now),
      User(2, "Shop User", "shop@example.com", "password", Shopkeeper,
           None, Some("Delhi"), Some("9876543211"), Some("123456789012"), now),
      User(3, "Customer User", "customer@example.com", "password", Customer,
           Some("SC12345"), Some("Bangalore"), Some("9876543212"), None, now) ]
  }

  function SeedAssignments(now: Time): seq<Assignment>
  {
    [ Assignment(1, 1, "Rice", 3, "Customer User", 1, "Admin User", 10, now) ]
  }

  // ----- Records the handlers create.

  /** `{ ...product, id: String(id), createdAt }` */
  function ProductFromDraft(d: ProductDraft, id: Id, now: Time): Product
  {
    Product(id, d.name, d.mrp, d.quantity, d.unit, d.image, now)
  }

  /** `{ ...user, id: String(id), createdAt }` */
  function UserFromDraft(d: UserDraft, id: Id, now: Time): User
  {
    User(id, d.name, d.email, d.password, d.role, d.smartCardNumber, d.city,
         d.contactNumber, d.aadharNumber, now)
  }

  /** The record `register` builds: always a customer, never an Aadhaar number. */
  function CustomerFromRegistration(d: RegisterData, id: Id, now: Time): User
  {
    User(id, d.name, d.email, d.password, Customer, d.smartCardNumber, d.city,
         d.contactNumber, None, now)
  }

  /** `{ ...assignment, id: String(id), createdAt }` */
  function AssignmentFromDraft(d: AssignmentDraft, id: Id, now: Time): Assignment
  {
    Assignment(id, d.productId, d.productName, d.userId, d.userName, d.assignedBy,
               d.assignedByName, d.quantity, now)
  }

  // ----- Queries.

  /** The login key: exact, case-sensitive equality of all three fields. */
  predicate CredentialsMatch(u: User, email: string, role: Role, password: string)
  {
    u.email == email && u.role == role && u.password == password
  }

  /** `mockUsers.find(...)` in `login`: the first record with that key. */
  function FindByCredentials(users: seq<User>, email: string, role: Role, password: string): (r: Option<User>)
    ensures r.Some? <==> exists u :: u in users && CredentialsMatch(u, email, role, password)
    ensures r.Some? ==> r.value in users && CredentialsMatch(r.value, email, role, password)
    ensures r.Some? ==> exists i :: (0 <= i < |users| && users[i] == r.value &&
                                   forall j :: 0 <= j < i ==> !CredentialsMatch(users[j], email, role, password))
  {
    Find(users, (u: User) => CredentialsMatch(u, email, role, password))
  }

  /** `users.filter(user => user.role === role)`, order and multiplicity kept. */
  function WithRole(users: seq<User>, role: Role): (r: seq<User>)
    ensures forall u :: u in r <==> u in users && u.role == role
    ensures forall u :: multiset(r)[u] == if u.role == role then multiset(users)[u] else 0
  {
    var keep := (u: User) => u.role == role;
    FilterSpec(users, keep);
    Filter(users, keep)
  }

  /** `users.find(user => user.id === id)`: the first user with that id. */
  function UserWithId(users: seq<User>, id: Id): (r: Option<User>)
    ensures r.None? <==> forall u :: u in users ==> u.id != id
    ensures r.Some? ==> r.value in users && r.value.id == id
    ensures r.Some? ==> exists i :: (0 <= i < |users| && users[i] == r.value &&
                                   forall j :: 0 <= j < i ==> users[j].id != id)
  {
    Find(users, (u: User) => u.id == id)
  }

  /** `products.find(p => p.id === id)`: the first product with that id. */
  function ProductWithId(products: seq<Product>, id: Id): (r: Option<Product>)
    ensures r.None? <==> forall p :: p in products ==> p.id != id
    ensures r.Some? ==> r.value in products && r.value.id == id
    ensures r.Some? ==> exists i :: (0 <= i < |products| && products[i] == r.value &&
                                   forall j :: 0 <= j < i ==> products[j].id != id)
  {
    Find(products, (p: Product) => p.id == id)
  }

  /** `getAssignmentsByUser`: the entries whose recipient is `userId`. */
  function AssignmentsOfUser(ledger: seq<Assignment>, userId: Id): (r: seq<Assignment>)
    ensures forall a :: a in r <==> a in ledger && a.userId == userId
    ensures |r| <= |ledger|
  {
    var keep := (a: Assignment) => a.userId == userId;
    FilterSpec(ledger, keep);
    Filter(ledger, keep)
  }

  /** `getAssignmentsByAssignedBy`: the entries whose issuer is `issuer`. */
  function AssignmentsIssuedBy(ledger: seq<Assignment>, issuer: Id): (r: seq<Assignment>)
    ensures forall a :: a in r <==> a in ledger && a.assignedBy == issuer
    ensures |r| <= |ledger|
  {
    var keep := (a: Assignment) => a.assignedBy == issuer;
    FilterSpec(ledger, keep);
    Filter(ledger, keep)
  }

  // ----- Updates of whole lists.

  /** `products.map(p => p.id === id ? { ...p, ...patch } : p)` */
  function UpdateProducts(products: seq<Product>, id: Id, patch: ProductPatch): (r: seq<Product>)
    ensures |r| == |products|
    ensures forall i :: 0 <= i < |products| ==>
              r[i] == if products[i].id == id then MergeProduct(products[i], patch) else products[i]
  {
    MapWhere(products, (p: Product) => p.id == id, (p: Product) => MergeProduct(p, patch))
  }

  /** `products.filter(p => p.id !== id)` */
  function RemoveProducts(products: seq<Product>, id: Id): (r: seq<Product>)
    ensures forall p :: p in r <==> p in products && p.id != id
    ensures forall p: Product :: p.id != id ==> multiset(r)[p] == multiset(products)[p]
  {
    var keep := (p: Product) => p.id != id;
    FilterSpec(products, keep);
    Filter(products, keep)
  }

  /** `users.map(u => u.id === id ? { ...u, ...patch } : u)`: every match. */
  function UpdateUsers(users: seq<User>, id: Id, patch: UserPatch): (r: seq<User>)
    ensures |r| == |users|
    ensures forall i :: 0 <= i < |users| ==>
              r[i] == if users[i].id == id then MergeUser(users[i], patch) else users[i]
  {
    MapWhere(users, (u: User) => u.id == id, (u: User) => MergeUser(u, patch))
  }

  /** `mockUsers[mockUsers.findIndex(...)] = { ... }`: the first match only. */
  function UpdateFirstUser(users: seq<User>, id: Id, patch: UserPatch): (r: seq<User>)
    ensures |r| == |users|
    ensures (forall i :: 0 <= i < |users| ==> users[i].id != id) ==> r == users
    ensures forall k ::
              (0 <= k < |users| && users[k].id == id && forall j :: 0 <= j < k ==> users[j].id != id) ==>
              r == users[k := MergeUser(users[k], patch)]
  {
    match IndexWhere(users, (u: User) => u.id == id)
    case None => users
    case Some(k) => users[k := MergeUser(users[k], patch)]
  }

  /** `users.filter(u => u.id !== id)` */
  function RemoveUsers(users: seq<User>, id: Id): (r: seq<User>)
    ensures forall u :: u in r <==> u in users && u.id != id
    ensures forall u: User :: u.id != id ==> multiset(r)[u] == multiset(users)[u]
  {
    var keep := (u: User) => u.id != id;
    FilterSpec(users, keep);
    Filter(users, keep)
  }

  /** The inventory side effect of `addAssignment` (store/index.ts:265-270):
      the FIRST product with the id supplies the old quantity, and
      `updateProduct` then writes `old - q` into every product with that id.
      There is no floor. */
  function ApplyStockEffect(products: seq<Product>, productId: Id, q: int): (r: seq<Product>)
    ensures |r| == |products|
    ensures ProductWithId(products, productId).None? ==> r == products
    ensures ProductWithId(products, productId).Some? ==>
              forall i :: 0 <= i < |products| ==>
                r[i] == if products[i].id == productId
                        then products[i].(quantity := ProductWithId(products, productId).value.quantity - q)
                        else products[i]
  {
    match ProductWithId(products, productId)
    case None => products
    case Some(p) => UpdateProducts(products, p.id, NoProductChanges.(quantity := Some(p.quantity - q)))
  }

  // ----- Invariants of the lists.

  /** Entry `i` carries id `i + 1`: what "id = length + 1" gives without deletes. */
  ghost predicate ProductIdsArePositions(products: seq<Product>)
  {
    forall i :: 0 <= i < |products| ==> products[i].id == i + 1
  }

  ghost predicate LedgerIdsArePositions(ledger: seq<Assignment>)
  {
    forall i :: 0 <= i < |ledger| ==> ledger[i].id == i + 1
  }

  ghost predicate UniqueProductIds(products: seq<Product>)
  {
    forall i, j :: 0 <= i < j < |products| ==> products[i].id != products[j].id
  }

  // ----- Facts about the list updates.

  /** Positional ids are unique ids. */
  lemma PositionsAreUnique(products: seq<Product>)
    requires ProductIdsArePositions(products)
    ensures UniqueProductIds(products)
  {
  }

  /** Updating products never changes an id, the length or the order of ids,
      so it keeps ids positional; a patch for an absent id is a no-op. */
  lemma UpdateProductsKeepsIds(products: seq<Product>, id: Id, patch: ProductPatch)
    ensures forall i :: 0 <= i < |products| ==> UpdateProducts(products, id, patch)[i].id == products[i].id
    ensures ProductIdsArePositions(products) ==> ProductIdsArePositions(UpdateProducts(products, id, patch))
    ensures (forall p :: p in products ==> p.id != id) ==> UpdateProducts(products, id, patch) == products
  {
    var r := UpdateProducts(products, id, patch);
    if forall p :: p in products ==> p.id != id {
      assert forall i :: 0 <= i < |products| ==> r[i] == products[i];
    }
  }

  /** Removing an id that no product has is a no-op; removal keeps the
      survivors in their order. */
  lemma {:induction false} RemoveProductsAbsent(products: seq<Product>, id: Id)
    requires forall p :: p in products ==> p.id != id
    ensures RemoveProducts(products, id) == products
  {
    FilterAllPass(products, (p: Product) => p.id != id);
  }

  /** Removing products splits over concatenation: the survivors keep their order. */
  lemma RemoveProductsKeepsOrder(a: seq<Product>, b: seq<Product>, id: Id)
    ensures RemoveProducts(a + b, id) == RemoveProducts(a, id) + RemoveProducts(b, id)
  {
    FilterConcat(a, b, (p: Product) => p.id != id);
  }

  /** One step of the removal: the head survives exactly when its id differs. */
  lemma RemoveProductsCons(p: Product, rest: seq<Product>, id: Id)
    ensures RemoveProducts([p] + rest, id) == (if p.id != id then [p] else []) + RemoveProducts(rest, id)
  {
    FilterCons(p, rest, (p: Product) => p.id != id);
  }

  /** Removing an id that only the product at `k` carries removes exactly
      that product. */
  lemma RemoveProductsUnique(products: seq<Product>, k: nat)
    requires k < |products|
    requires forall i :: 0 <= i < |products| && i != k ==> products[i].id != products[k].id
    ensures RemoveProducts(products, products[k].id) == products[..k] + products[k + 1..]
  {
    var id := products[k].id;
    var before, after := products[..k], products[k + 1..];
    assert products == (before + [products[k]]) + after;
    assert RemoveProducts(before, id) == before by {
      RemoveProductsAbsent(before, id);
    }
    assert RemoveProducts(after, id) == after by {
      RemoveProductsAbsent(after, id);
    }
    assert RemoveProducts([products[k]], id) == [] by {
      RemoveProductsCons(products[k], [], id);
      assert [products[k]] + [] == [products[k]];
    }
    assert RemoveProducts(before + [products[k]], id) == before by {
      RemoveProductsKeepsOrder(before, [products[k]], id);
    }
    RemoveProductsKeepsOrder(before + [products[k]], after, id);
  }

  /** With unique ids, the stock effect lowers exactly the product with that
      id by exactly `q`, and touches nothing else. */
  lemma StockEffectExact(products: seq<Product>, k: nat, q: int)
    requires UniqueProductIds(products)
    requires k < |products|
    ensures var r := ApplyStockEffect(products, products[k].id, q);
      && r[k] == products[k].(quantity := products[k].quantity - q)
      && forall i :: 0 <= i < |products| && i != k ==> r[i] == products[i]
  {
    var id := products[k].id;
    FindUnique(products, (p: Product) => p.id == id, k);
  }

  /** Appending a product at id `length + 1` keeps ids positional. */
  lemma AppendProductKeepsPositions(products: seq<Product>, d: ProductDraft, now: Time)
    requires ProductIdsArePositions(products)
    ensures ProductIdsArePositions(products + [ProductFromDraft(d, |products| + 1, now)])
  {
  }

  /** Ids come from the length, so deleting any product but the last from
      a list with positional ids makes the next added product take the id
      that the last product still carries. */
  lemma DeleteThenAddReusesId(products: seq<Product>, k: nat, d: ProductDraft, now: Time)
    requires ProductIdsArePositions(products)
    requires k + 1 < |products|
    ensures var after := RemoveProducts(products, k + 1);
      && |after| == |products| - 1
      && products[|products| - 1] in after
      && ProductFromDraft(d, |after| + 1, now).id == products[|products| - 1].id
  {
    PositionsAreUnique(products);
    RemoveProductsUnique(products, k);
    assert products[|products| - 1] in products[k + 1..];
  }

  /** Appending a ledger entry at id `length + 1` keeps ids positional. */
  lemma AppendEntryKeepsPositions(ledger: seq<Assignment>, d: AssignmentDraft, now: Time)
    requires LedgerIdsArePositions(ledger)
    ensures LedgerIdsArePositions(ledger + [AssignmentFromDraft(d, |ledger| + 1, now)])
  {
  }

  /** The whole state of the four stores. */
  class AppStore {
    // session store
    var currentUser: Option<User>
    var isAuthenticated: bool
    // inventory
    var products: seq<Product>
    // directory: the visible list, the backing array, and whether they are one array
    var users: seq<User>
    var mockUsers: seq<User>
    var shared: bool
    // ledger
    var assignments: seq<Assignment>

    ghost predicate Valid()
      reads this
    {
      && (shared ==> users == mockUsers)
      && (isAuthenticated <==> currentUser.Some?)
    }

    /** The state right after module load. */
    constructor (now: Time)
      ensures Valid()
      ensures currentUser == None && !isAuthenticated
      ensures products == SeedProducts(now)
      ensures users == SeedUsers(now) && mockUsers == SeedUsers(now) && shared
      ensures assignments == SeedAssignments(now)
    {
      currentUser := None;
      isAuthenticated := false;
      products := SeedProducts(now);
      users := SeedUsers(now);
      mockUsers := SeedUsers(now);
      shared := true;
      assignments := SeedAssignments(now);
    }

    /** `login`: succeeds iff the backing array holds the exact key; the
        session is then the first such record, otherwise it is kept. */
    method Login(email: string, password: string, role: Role) returns (ok: bool)
      requires Valid()
      modifies this`currentUser, this`isAuthenticated
      ensures Valid()
      ensures ok <==> exists u :: u in mockUsers && CredentialsMatch(u, email, role, password)
      ensures ok ==> currentUser == FindByCredentials(mockUsers, email, role, password) && isAuthenticated
      ensures !ok ==> currentUser == old(currentUser) && isAuthenticated == old(isAuthenticated)
    {
      var user := FindByCredentials(mockUsers, email, role, password);
      if user.Some? {
        currentUser, isAuthenticated := user, true;
        ok := true;
      } else {
        ok := false;
      }
    }

    /** `register`: appends a customer with id `mockUsers.length + 1` to the
        backing array (and so to the visible list while they are shared),
        logs it in, and reports success; no duplicate check. */
    method Register(data: RegisterData, now: Time) returns (ok: bool)
      requires Valid()
      modifies this`mockUsers, this`users, this`currentUser, this`isAuthenticated
      ensures Valid() && ok
      ensures var u := CustomerFromRegistration(data, |old(mockUsers)| + 1, now);
        && mockUsers == old(mockUsers) + [u]
        && users == (if shared then old(users) + [u] else old(users))
        && currentUser == Some(u) && isAuthenticated
    {
      var newUser := CustomerFromRegistration(data, |mockUsers| + 1, now);
      mockUsers := mockUsers + [newUser];
      if shared {
        users := mockUsers;
      }
      currentUser, isAuthenticated := Some(newUser), true;
      ok := true;
    }

    /** `logout`: clears the session and nothing else. */
    method Logout()
      requires Valid()
      modifies this`currentUser, this`isAuthenticated
      ensures Valid()
      ensures currentUser == None && !isAuthenticated
    {
      currentUser, isAuthenticated := None, false;
    }

    // ----- inventory

    /** `addProduct`: appends one product with id `products.length + 1`. */
    method AddProduct(draft: ProductDraft, now: Time)
      modifies this`products
      ensures products == old(products) + [ProductFromDraft(draft, |old(products)| + 1, now)]
      ensures ProductIdsArePositions(old(products)) ==> ProductIdsArePositions(products)
    {
      if ProductIdsArePositions(products) {
        AppendProductKeepsPositions(products, draft, now);
      }
      products := products + [ProductFromDraft(draft, |products| + 1, now)];
    }

    /** `updateProduct`: merges into every product with the id. */
    method UpdateProduct(id: Id, patch: ProductPatch)
      modifies this`products
      ensures products == UpdateProducts(old(products), id, patch)
    {
      products := UpdateProducts(products, id, patch);
    }

    /** `deleteProduct`: drops every product with the id. */
    method DeleteProduct(id: Id)
      modifies this`products
      ensures products == RemoveProducts(old(products), id)
    {
      products := RemoveProducts(products, id);
    }

    // ----- directory

    /** `addUser`: the id comes from the backing array's length; the push
        into the backing array happens first, so while the lists are shared
        the new user ends up in the visible list twice. */
    method AddUser(draft: UserDraft, now: Time)
      requires Valid()
      modifies this`mockUsers, this`users, this`shared
      ensures Valid() && !shared
      ensures var u := UserFromDraft(draft, |old(mockUsers)| + 1, now);
        && mockUsers == old(mockUsers) + [u]
        && users == (if old(shared) then old(users) + [u, u] else old(users) + [u])
    {
      var newUser := UserFromDraft(draft, |mockUsers| + 1, now);
      mockUsers := mockUsers + [newUser];
      var current := if shared then mockUsers else users;
      users := current + [newUser];
      shared := false;
    }

    /** `updateUser`: the visible list merges every match; the backing array,
        independently, only its first match. */
    method UpdateUser(id: Id, patch: UserPatch)
      requires Valid()
      modifies this`mockUsers, this`users, this`shared
      ensures Valid() && !shared
      ensures users == UpdateUsers(old(users), id, patch)
      ensures mockUsers == UpdateFirstUser(old(mockUsers), id, patch)
    {
      users := UpdateUsers(users, id, patch);
      mockUsers := UpdateFirstUser(mockUsers, id, patch);
      shared := false;
    }

    /** `deleteUser`: both lists drop the id; the ledger is not touched. */
    method DeleteUser(id: Id)
      requires Valid()
      modifies this`mockUsers, this`users, this`shared
      ensures Valid() && !shared
      ensures users == RemoveUsers(old(users), id)
      ensures mockUsers == RemoveUsers(old(mockUsers), id)
    {
      users := RemoveUsers(users, id);
      mockUsers := RemoveUsers(mockUsers, id);
      shared := false;
    }

    // ----- ledger

    /** `addAssignment`: appends one entry with id `assignments.length + 1`
        (the ledger only grows) and applies the stock effect. */
    method AddAssignment(draft: AssignmentDraft, now: Time)
      modifies this`assignments, this`products
      ensures assignments == old(assignments) + [AssignmentFromDraft(draft, |old(assignments)| + 1, now)]
      ensures products == ApplyStockEffect(old(products), draft.productId, draft.quantity)
      ensures LedgerIdsArePositions(old(assignments)) ==> LedgerIdsArePositions(assignments)
    {
      var ledger, stock := assignments, products;
      var grown := ledger + [AssignmentFromDraft(draft, |ledger| + 1, now)];
      var adjusted := ApplyStockEffect(stock, draft.productId, draft.quantity);
      assert LedgerIdsArePositions(ledger) ==> LedgerIdsArePositions(grown) by {
        if LedgerIdsArePositions(ledger) {
          AppendEntryKeepsPositions(ledger, draft, now);
        }
      }
      assignments, products := grown, adjusted;
    }
  }
}
