/** The two button guards that the admin and shopkeeper assignment pages
    and the customer purchase page share, and what they buy together with
    the stock effect of `addAssignment`. */
module AssignGuards {
  import opened Seqs
  import opened Types
  import opened Store

  /** A product row's action button is enabled only while stock is left
      (`disabled={... || product.quantity <= 0}`). */
  predicate InStock(p: Product)
  {
    p.quantity > 0
  }

  /** The dialog's Confirm button: disabled when `q <= 0 || q > quantity`. */
  predicate Confirmable(q: int, p: Product)
  {
    !(q <= 0 || q > p.quantity)
  }

  /** Some amount can be confirmed exactly when the product is in stock,
      which is when the row's button that opens the dialog is enabled. */
  lemma SomeAmountConfirmable(p: Product)
    ensures (exists q :: Confirmable(q, p)) <==> InStock(p)
  {
    if InStock(p) {
      assert Confirmable(1, p);
    }
  }

  /** No product carrying the id has negative stock. */
  ghost predicate StockNonNegative(products: seq<Product>, id: Id)
  {
    forall i :: 0 <= i < |products| && products[i].id == id ==> products[i].quantity >= 0
  }

  /** When the dialog's product is the one the store finds under its id,
      a confirmed amount leaves every product with that id at a stock of at
      least zero, lowered by exactly that amount. */
  lemma ConfirmedAssignmentKeepsStock(products: seq<Product>, p: Product, q: int)
    requires ProductWithId(products, p.id) == Some(p)
    requires Confirmable(q, p)
    ensures var r := ApplyStockEffect(products, p.id, q);
      forall i :: 0 <= i < |products| && products[i].id == p.id ==>
        r[i].quantity == p.quantity - q >= 0
    ensures StockNonNegative(ApplyStockEffect(products, p.id, q), p.id)
  {
  }
}
