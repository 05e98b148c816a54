/** The shopkeeper dashboard of src/pages/shopkeeper/Dashboard.tsx: the
    entries the signed-in shopkeeper issued, their total quantity, the
    number of distinct recipients and the five newest. */
module ShopDashboardPage {
  import opened Seqs
  import opened Types
  import opened Store
  import opened LedgerViews

  /** `assignments.filter(a => a.assignedBy === currentUser?.id)`: with
      nobody signed in the id is undefined and nothing matches. */
  function MyAssignments(ledger: seq<Assignment>, currentUser: Option<User>): (r: seq<Assignment>)
    ensures forall a :: a in r <==> currentUser.Some? && a in ledger && a.assignedBy == currentUser.value.id
    ensures |r| <= |ledger|
  {
    if currentUser.None? then [] else AssignmentsIssuedBy(ledger, currentUser.value.id)
  }

  /** The three figures and the recent list the page shows. */
  datatype Summary = Summary(totalAssignedQuantity: int, totalCustomers: nat, recent: seq<Assignment>)

  const RecentCount := 5

  /** The summary of the shopkeeper's entries: the total is 0 and there are
      no customers when there are no entries; there are never more
      customers than entries; the recent list holds the five newest of the
      shopkeeper's own entries (all of them when there are fewer), newest
      first. */
  function Summarize(ledger: seq<Assignment>, currentUser: Option<User>): (s: Summary)
    ensures var mine := MyAssignments(ledger, currentUser);
      && s.totalAssignedQuantity == TotalQuantity(mine)
      && s.totalCustomers == |RecipientIds(mine)|
      && (mine == [] ==> s.totalAssignedQuantity == 0 && s.totalCustomers == 0)
      && s.totalCustomers <= |mine|
      && |s.recent| == (if |mine| < RecentCount then |mine| else RecentCount)
      && NewestFirst(s.recent) && multiset(s.recent) <= multiset(mine) && KeepsNewest(mine, s.recent)
      && (forall a :: a in s.recent ==> currentUser.Some? && a in ledger && a.assignedBy == currentUser.value.id)
  {
    var mine := MyAssignments(ledger, currentUser);
    NewestFromInput(mine, RecentCount);
    TotalQuantityBounds(mine);
    Summary(TotalQuantity(mine), DistinctRecipientCount(mine), Newest(mine, RecentCount))
  }
}
