/** The customer dashboard of src/pages/customer/Dashboard.tsx: the entries
    booked to the signed-in customer, the quantity received, the three
    newest entries and the amount spent. */
module CustomerDashboardPage {
  import opened Seqs
  import opened Types
  import opened Store
  import opened LedgerViews

  /** `assignments.filter(a => a.userId === currentUser?.id)` */
  function MyPurchases(ledger: seq<Assignment>, currentUser: Option<User>): (r: seq<Assignment>)
    ensures forall a :: a in r <==> currentUser.Some? && a in ledger && a.userId == currentUser.value.id
    ensures |r| <= |ledger|
  {
    if currentUser.None? then [] else AssignmentsOfUser(ledger, currentUser.value.id)
  }

  const RecentCount := 3

  /** The purchased total is the sum over the customer's entries (0 when
      there are none). */
  function TotalPurchased(ledger: seq<Assignment>, currentUser: Option<User>): (n: int)
    ensures n == TotalQuantity(MyPurchases(ledger, currentUser))
    ensures MyPurchases(ledger, currentUser) == [] ==> n == 0
  {
    TotalQuantityBounds(MyPurchases(ledger, currentUser));
    TotalQuantity(MyPurchases(ledger, currentUser))
  }

  /** The three newest of the customer's entries (all of them when there
      are fewer), newest first. */
  function RecentPurchases(ledger: seq<Assignment>, currentUser: Option<User>): (r: seq<Assignment>)
    ensures var mine := MyPurchases(ledger, currentUser);
      && |r| == (if |mine| < RecentCount then |mine| else RecentCount)
      && multiset(r) <= multiset(mine)
      && KeepsNewest(mine, r)
    ensures NewestFirst(r)
    ensures forall a :: a in r ==> currentUser.Some? && a in ledger && a.userId == currentUser.value.id
  {
    var mine := MyPurchases(ledger, currentUser);
    NewestFromInput(mine, RecentCount);
    Newest(mine, RecentCount)
  }

  /** One entry's amount: price times quantity when its product still
      exists (looked up by id, first match), nothing otherwise. Prices are
      whole numbers here. */
  function LineAmount(products: seq<Product>, a: Assignment): int
  {
    match ProductWithId(products, a.productId)
    case None => 0
    case Some(p) => p.mrp * a.quantity
  }

  /** `myAssignments.reduce(...)` over the line amounts. */
  function TotalSpent(products: seq<Product>, s: seq<Assignment>): int
  {
    if s == [] then 0 else TotalSpent(products, s[..|s| - 1]) + LineAmount(products, s[|s| - 1])
  }

  /** An entry whose product is gone adds nothing to the amount spent. */
  lemma MissingProductAddsNothing(products: seq<Product>, s: seq<Assignment>, a: Assignment)
    requires forall p :: p in products ==> p.id != a.productId
    ensures TotalSpent(products, s + [a]) == TotalSpent(products, s)
  {
    assert (s + [a])[..|s|] == s;
  }

  /** When none of the entries' products exist any more, nothing was spent. */
  lemma {:induction false} NothingSpentOnVanishedProducts(products: seq<Product>, s: seq<Assignment>)
    requires forall i, p :: 0 <= i < |s| && p in products ==> p.id != s[i].productId
    ensures TotalSpent(products, s) == 0
  {
    if s != [] {
      NothingSpentOnVanishedProducts(products, s[..|s| - 1]);
    }
  }
}
