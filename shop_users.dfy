/** The shopkeeper's customer list of src/pages/shopkeeper/ShopUsers.tsx:
    the customers this shopkeeper has issued to, each with the date of the
    latest such entry. */
module ShopUsersPage {
  import opened Seqs
  import opened Types
  import opened Store
  import opened LedgerViews

  /** The shopkeeper's entries; none when nobody is signed in. */
  function ShopkeeperAssignments(ledger: seq<Assignment>, currentUser: Option<User>): (r: seq<Assignment>)
    ensures currentUser.None? ==> r == []
    ensures forall a :: a in r <==> currentUser.Some? && a in ledger && a.assignedBy == currentUser.value.id
  {
    if currentUser.Some? then AssignmentsIssuedBy(ledger, currentUser.value.id) else []
  }

  /** A ledger entry issued by the signed-in user to `userId`. */
  ghost predicate IssuedTo(ledger: seq<Assignment>, currentUser: Option<User>, userId: Id)
  {
    currentUser.Some? && exists a :: a in ledger && a.assignedBy == currentUser.value.id && a.userId == userId
  }

  /** `shopCustomers`: the directory's customers, in directory order and as
      often as they occur there, that received an entry from the signed-in
      user; a recipient without the customer role is never listed. */
  function ShopCustomers(users: seq<User>, ledger: seq<Assignment>, currentUser: Option<User>): (r: seq<User>)
    ensures forall u :: u in r <==> u in users && u.role == Customer && IssuedTo(ledger, currentUser, u.id)
    ensures forall u :: u in users && u.role == Customer && IssuedTo(ledger, currentUser, u.id) ==>
      multiset(r)[u] == multiset(users)[u]
    ensures currentUser.None? ==> r == []
  {
    var served := RecipientIds(ShopkeeperAssignments(ledger, currentUser));
    assert forall u: User :: u.id in served <==> IssuedTo(ledger, currentUser, u.id) by {
      forall u: User ensures u.id in served <==> IssuedTo(ledger, currentUser, u.id) {
        if IssuedTo(ledger, currentUser, u.id) {
          var a :| a in ledger && a.assignedBy == currentUser.value.id && a.userId == u.id;
          assert a in ShopkeeperAssignments(ledger, currentUser);
        }
      }
    }
    var keep := (c: User) => c.id in served;
    var r := Filter(WithRole(users, Customer), keep);
    FilterSpec(WithRole(users, Customer), keep);
    assert currentUser.None? ==> r == [] by {
      if currentUser.None? {
        assert served == {};
        FilterNonePass(WithRole(users, Customer), keep);
      }
    }
    r
  }

  /** The "Last Purchase" cell: the newest of the shopkeeper's entries for
      that customer, or nothing. */
  function LatestAssignment(mine: seq<Assignment>, customerId: Id): (r: Option<Assignment>)
    ensures r.Some? <==> exists a :: a in mine && a.userId == customerId
    ensures r.Some? ==> r.value in mine && r.value.userId == customerId
    ensures r.Some? ==> forall a :: a in mine && a.userId == customerId ==> a.createdAt <= r.value.createdAt
  {
    var theirs := AssignmentsOfUser(mine, customerId);
    if |theirs| > 0 then
      var sorted := SortNewest(theirs);
      assert sorted[0] in multiset(theirs);
      assert forall a :: a in theirs ==> a in multiset(sorted);
      Some(sorted[0])
    else
      None
  }

  /** Every listed customer has a latest entry, so "Never" is never shown. */
  lemma ListedCustomerHasLatest(users: seq<User>, ledger: seq<Assignment>, currentUser: Option<User>, c: User)
    requires c in ShopCustomers(users, ledger, currentUser)
    ensures LatestAssignment(ShopkeeperAssignments(ledger, currentUser), c.id).Some?
  {
    var a :| a in ledger && a.assignedBy == currentUser.value.id && a.userId == c.id;
    assert a in ShopkeeperAssignments(ledger, currentUser);
  }
}
