/** Runs of the stores from their start-up state, each stated as what it
    must produce: sign-in with the seeded accounts, the duplicated entry
    that the first `addUser` leaves in the visible list, and the stock
    effect without a floor. */
module Scenarios {
  import opened Seqs
  import opened Types
  import opened Store

  /** The seeded admin can sign in as admin, but the same email and
      password under the customer tab are refused. */
  method AdminSignIn(now: Time) returns (asAdmin: bool, asCustomer: bool)
    ensures asAdmin && !asCustomer
  {
    var store := new AppStore(now);
    ghost var seed := store.mockUsers;
    assert seed[0] in seed && CredentialsMatch(seed[0], "admin@example.com", Admin, "password");
    assert forall u :: u in seed ==> !CredentialsMatch(u, "admin@example.com", Customer, "password") by {
      assert seed == [seed[0], seed[1], seed[2]];
    }
    asAdmin := store.Login("admin@example.com", "password", Admin);
    store.Logout();
    asCustomer := store.Login("admin@example.com", "password", Customer);
  }

  /** While the visible list is still the backing array, the first
      `addUser` shows the new user twice; the second one, after the lists
      have been separated, shows it once. */
  method AddUsersFromStart(now: Time, d1: UserDraft, d2: UserDraft)
      returns (visibleAfterFirst: nat, backingAfterFirst: nat, visibleAfterSecond: nat, backingAfterSecond: nat)
    ensures visibleAfterFirst == 5 && backingAfterFirst == 4
    ensures visibleAfterSecond == 6 && backingAfterSecond == 5
  {
    var store := new AppStore(now);
    store.AddUser(d1, now);
    visibleAfterFirst, backingAfterFirst := |store.users|, |store.mockUsers|;
    store.AddUser(d2, now);
    visibleAfterSecond, backingAfterSecond := |store.users|, |store.mockUsers|;
  }

  /** A registration at start-up lands in both lists through the shared
      array, and the new customer is signed in under id 4. */
  method RegisterFromStart(now: Time, d: RegisterData) returns (visible: nat, backing: nat, signedIn: Option<Id>)
    ensures visible == 4 && backing == 4 && signedIn == Some(4)
  {
    var store := new AppStore(now);
    var _ := store.Register(d, now);
    visible, backing := |store.users|, |store.mockUsers|;
    signedIn := if store.currentUser.Some? then Some(store.currentUser.value.id) else None;
  }

  /** The admin assigning 10 kg of rice from the seed stock to the seeded
      customer leaves 90 kg and a second ledger entry with id 2. */
  method AssignRiceFromStart(now: Time) returns (rice: int, entries: nat, newId: Id)
    ensures rice == 90 && entries == 2 && newId == 2
  {
    var store := new AppStore(now);
    FindHead(store.products, (p: Product) => p.id == 1);
    store.AddAssignment(AssignmentDraft(1, "Rice", 3, "Customer User", 1, "Admin User", 10), now);
    rice, entries, newId := store.products[0].quantity, |store.assignments|, store.assignments[1].id;
  }

  /** Nothing stops an assignment larger than the stock: with 5 litres of
      oil left, assigning 10 leaves -5. */
  method NoFloorOnStock(now: Time) returns (oil: int)
    ensures oil == -5
  {
    var store := new AppStore(now);
    store.UpdateProduct(4, NoProductChanges.(quantity := Some(5)));
    var products := store.products;
    assert products[3].id == 4;
    FindUnique(products, (p: Product) => p.id == 4, 3);
    store.AddAssignment(AssignmentDraft(4, "Oil", 3, "Customer User", 2, "Shop User", 10), now);
    oil := store.products[3].quantity;
  }

  /** Ledger ids follow positions from the seeded entry on. */
  method LedgerIdsFromStart(now: Time, d1: AssignmentDraft, d2: AssignmentDraft) returns (ids: seq<Id>)
    ensures ids == [1, 2, 3]
  {
    var store := new AppStore(now);
    store.AddAssignment(d1, now);
    store.AddAssignment(d2, now);
    ids := [store.assignments[0].id, store.assignments[1].id, store.assignments[2].id];
  }
}
