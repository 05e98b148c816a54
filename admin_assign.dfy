/** The admin's product assignment page of
    src/pages/admin/AssignProducts.tsx: pick a shopkeeper, pick a product,
    confirm an amount. */
module AdminAssignPage {
  import opened Seqs
  import opened Types
  import opened Store
  import opened AssignGuards

  /** The shopkeeper picker lists the shopkeepers of the directory, in
      directory order and as often as they occur there. */
  function Shopkeepers(users: seq<User>): (r: seq<User>)
    ensures forall u :: u in r <==> u in users && u.role == Shopkeeper
    ensures forall u: User :: u.role == Shopkeeper ==> multiset(r)[u] == multiset(users)[u]
    ensures forall u :: u in r ==> u.role != Admin && u.role != Customer
  {
    WithRole(users, Shopkeeper)
  }

  /** The Assign button of a product row: a shopkeeper is picked (the
      picker's empty value is None) and the product is in stock. */
  predicate AssignEnabled(selectedUserId: Option<Id>, p: Product)
  {
    selectedUserId.Some? && InStock(p)
  }
  /** An enabled Assign button opens a dialog in which an amount (one unit,
      at least) can be confirmed; a row out of stock has no such amount. */
  lemma EnabledAssignCanConfirm(selectedUserId: Option<Id>, p: Product)
    ensures AssignEnabled(selectedUserId, p) ==> Confirmable(1, p)
    ensures !InStock(p) ==> forall q :: !Confirmable(q, p)
  {
    SomeAmountConfirmable(p);
  }


  /** The ledger entry a confirmation builds: the product, the chosen
      shopkeeper as recipient, the signed-in admin as issuer. */
  function AssignmentData(product: Product, recipient: User, issuer: User, q: int): AssignmentDraft
  {
    AssignmentDraft(product.id, product.name, recipient.id, recipient.name, issuer.id, issuer.name, q)
  }

  /** `handleAssignSubmit`: nothing happens without a picked id, a dialog
      product and a signed-in user, or when the picked id names nobody in
      the directory; otherwise exactly one entry is added. When the dialog's
      product is the store's current record for its id and the amount was
      confirmable, no stock goes below zero. */
  method Submit(store: AppStore, selectedUserId: Option<Id>, selectedProduct: Option<Product>, q: int, now: Time)
      returns (submitted: bool)
    modifies store`assignments, store`products
    ensures submitted <==>
      && selectedUserId.Some? && selectedProduct.Some? && store.currentUser.Some?
      && UserWithId(store.users, selectedUserId.value).Some?
    ensures !submitted ==>
      store.assignments == old(store.assignments) && store.products == old(store.products)
    ensures submitted ==>
      var d := AssignmentData(selectedProduct.value, UserWithId(store.users, selectedUserId.value).value,
                              store.currentUser.value, q);
      && store.assignments == old(store.assignments) + [AssignmentFromDraft(d, |old(store.assignments)| + 1, now)]
      && store.products == ApplyStockEffect(old(store.products), selectedProduct.value.id, q)
    ensures submitted && Confirmable(q, selectedProduct.value)
            && ProductWithId(old(store.products), selectedProduct.value.id) == selectedProduct ==>
      StockNonNegative(store.products, selectedProduct.value.id)
  {
    if selectedUserId.None? || selectedProduct.None? || store.currentUser.None? {
      return false;
    }
    var shopkeeper := UserWithId(store.users, selectedUserId.value);
    if shopkeeper.None? {
      return false;
    }
    var product := selectedProduct.value;
    ghost var before := store.products;
    store.AddAssignment(AssignmentData(product, shopkeeper.value, store.currentUser.value, q), now);
    if Confirmable(q, product) && ProductWithId(before, product.id) == selectedProduct {
      ConfirmedAssignmentKeepsStock(before, product, q);
    }
    submitted := true;
  }
}
