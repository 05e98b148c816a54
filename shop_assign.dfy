/** The shopkeeper's product assignment page of
    src/pages/shopkeeper/AssignProducts.tsx: find a customer by mobile
    number, pick a product, confirm an amount. */
module ShopAssignPage {
  import opened Seqs
  import opened Types
  import opened Store
  import opened AssignGuards

  /** The customer search: customers whose contact number is set and
      contains the query, in directory order. */
  function FilteredCustomers(users: seq<User>, query: string): (r: seq<User>)
    ensures forall u :: u in r <==>
      u in users && u.role == Customer && u.contactNumber.Some? && Contains(u.contactNumber.value, query)
    ensures |r| <= |users|
  {
    var keep := (u: User) => u.role == Customer && u.contactNumber.Some? && Contains(u.contactNumber.value, query);
    FilterSpec(users, keep);
    Filter(users, keep)
  }

  /** The empty query, which every number contains, lists every customer
      that has a contact number. */
  lemma EmptyQueryListsAllReachable(users: seq<User>)
    ensures forall u :: u in FilteredCustomers(users, "") <==>
      u in users && u.role == Customer && u.contactNumber.Some?
  {
    forall u | u in users && u.role == Customer && u.contactNumber.Some?
      ensures u in FilteredCustomers(users, "")
    {
      ContainsEmpty(u.contactNumber.value);
    }
  }

  /** A match is a customer whose number holds the query at some offset. */
  lemma FilteredCustomersMatchAtOffset(users: seq<User>, query: string, u: User)
    requires u in FilteredCustomers(users, query)
    ensures u.role == Customer && u.contactNumber.Some?
    ensures exists i: nat :: OccursAt(u.contactNumber.value, query, i)
  {
    ContainsAtOffset(u.contactNumber.value, query);
  }

  /** The Search button is disabled while the query is empty. */
  predicate SearchEnabled(query: string)
  {
    query != ""
  }
  /** Once the Search button is enabled, every customer the dialog lists
      has a non-empty number at least as long as the query. */
  lemma SearchListsOnlyHolders(users: seq<User>, query: string, u: User)
    requires SearchEnabled(query) && u in FilteredCustomers(users, query)
    ensures u.contactNumber.Some? && |query| <= |u.contactNumber.value| && u.contactNumber.value != ""
  {
    FilteredCustomersMatchAtOffset(users, query, u);
  }


  /** The page's selection state. */
  datatype SearchState = SearchState(query: string, selectedUser: Option<User>, userDialogOpen: bool)

  /** `handleSelectUser`: remember the customer and close the search dialog. */
  function SelectUser(s: SearchState, u: User): (r: SearchState)
    ensures r.selectedUser == Some(u) && !r.userDialogOpen
    ensures r.query == s.query
  {
    s.(selectedUser := Some(u), userDialogOpen := false)
  }

  /** The Assign button of a product row. */
  predicate AssignEnabled(selectedUser: Option<User>, p: Product)
  {
    selectedUser.Some? && InStock(p)
  }
  /** An enabled Assign button opens a dialog in which an amount (one unit,
      at least) can be confirmed; a row out of stock has no such amount. */
  lemma EnabledAssignCanConfirm(selectedUser: Option<User>, p: Product)
    ensures AssignEnabled(selectedUser, p) ==> Confirmable(1, p)
    ensures !InStock(p) ==> forall q :: !Confirmable(q, p)
  {
    SomeAmountConfirmable(p);
  }


  /** `handleAssignSubmit`: nothing happens without a chosen customer, a
      dialog product and a signed-in user; otherwise exactly one entry is
      added with the customer as recipient and the shopkeeper as issuer. */
  method Submit(store: AppStore, selectedUser: Option<User>, selectedProduct: Option<Product>, q: int, now: Time)
      returns (submitted: bool)
    modifies store`assignments, store`products
    ensures submitted <==> selectedUser.Some? && selectedProduct.Some? && store.currentUser.Some?
    ensures !submitted ==>
      store.assignments == old(store.assignments) && store.products == old(store.products)
    ensures submitted ==>
      var p, c, s := selectedProduct.value, selectedUser.value, store.currentUser.value;
      var d := AssignmentDraft(p.id, p.name, c.id, c.name, s.id, s.name, q);
      && store.assignments == old(store.assignments) + [AssignmentFromDraft(d, |old(store.assignments)| + 1, now)]
      && store.products == ApplyStockEffect(old(store.products), p.id, q)
    ensures submitted && Confirmable(q, selectedProduct.value)
            && ProductWithId(old(store.products), selectedProduct.value.id) == selectedProduct ==>
      StockNonNegative(store.products, selectedProduct.value.id)
  {
    if selectedUser.None? || selectedProduct.None? || store.currentUser.None? {
      return false;
    }
    var p, c, s := selectedProduct.value, selectedUser.value, store.currentUser.value;
    ghost var before := store.products;
    store.AddAssignment(AssignmentDraft(p.id, p.name, c.id, c.name, s.id, s.name, q), now);
    if Confirmable(q, p) && ProductWithId(before, p.id) == selectedProduct {
      ConfirmedAssignmentKeepsStock(before, p, q);
    }
    submitted := true;
  }
}
