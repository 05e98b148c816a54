/** The customer's purchase page of src/pages/customer/BuyProducts.tsx: one
    Buy button per product card, each buying a single unit. */
module BuyProductsPage {
  import opened Seqs
  import opened Types
  import opened Store
  import opened AssignGuards

  /** Every purchase is booked as issued by this fixed shop account,
      whoever serves the customer. */
  const ShopIssuerId: Id := 2
  const ShopIssuerName := "Shop User"

  /** The Buy button is disabled once the card shows no stock. */
  predicate BuyEnabled(p: Product)
  {
    InStock(p)
  }

  /** The ledger entry of one purchase. */
  function PurchaseData(p: Product, customer: User): (d: AssignmentDraft)
    ensures d.quantity == 1
    ensures d.productId == p.id && d.productName == p.name
    ensures d.userId == customer.id && d.userName == customer.name
    ensures d.assignedBy == ShopIssuerId && d.assignedByName == ShopIssuerName
  {
    AssignmentDraft(p.id, p.name, customer.id, customer.name, ShopIssuerId, ShopIssuerName, 1)
  }

  /** `handleBuyProduct`: nothing happens when nobody is signed in;
      otherwise one unit is booked to the signed-in customer. */
  method Buy(store: AppStore, product: Product, now: Time) returns (bought: bool)
    modifies store`assignments, store`products
    ensures bought <==> store.currentUser.Some?
    ensures !bought ==>
      store.assignments == old(store.assignments) && store.products == old(store.products)
    ensures bought ==>
      && store.assignments == old(store.assignments)
           + [AssignmentFromDraft(PurchaseData(product, store.currentUser.value), |old(store.assignments)| + 1, now)]
      && store.products == ApplyStockEffect(old(store.products), product.id, 1)
  {
    if store.currentUser.None? {
      return false;
    }
    store.AddAssignment(PurchaseData(product, store.currentUser.value), now);
    bought := true;
  }

  /** A purchase through an enabled button never takes stock below zero,
      provided the card shows the store's first product with that id. */
  lemma PurchaseKeepsStock(products: seq<Product>, p: Product)
    requires ProductWithId(products, p.id) == Some(p)
    requires BuyEnabled(p)
    ensures forall i :: 0 <= i < |products| && products[i].id == p.id ==>
      ApplyStockEffect(products, p.id, 1)[i].quantity >= 0
  {
    ConfirmedAssignmentKeepsStock(products, p, 1);
  }

  /** The proviso matters: once a delete and an add have given two products
      the same id, the second card can be in stock while the first is empty,
      and buying from the second drives both to -1. */
  lemma DuplicateIdDefeatsBuyGuard()
    ensures var products := [Product(4, "Oil", 120, 0, "liter", Some(""), 0),
                             Product(4, "Dal", 90, 5, "kg", Some(""), 0)];
      && BuyEnabled(products[1])
      && ApplyStockEffect(products, 4, 1)[0].quantity == -1
      && ApplyStockEffect(products, 4, 1)[1].quantity == -1
  {
    var products := [Product(4, "Oil", 120, 0, "liter", Some(""), 0),
                     Product(4, "Dal", 90, 5, "kg", Some(""), 0)];
    FindHead(products, (p: Product) => p.id == 4);
  }
}
