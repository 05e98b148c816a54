/** Derived views of a list of ledger entries that the dashboard pages
    compute with `reduce`, `new Set(...)`, `sort` and `slice`. The pages copy
    the list before sorting it (`[...myAssignments].sort(...)`), so every view
    here is a function of its input and leaves the ledger as it was. */
module LedgerViews {
  import opened Types

  /** Ordered by `createdAt`, newest first, as the comparator
      `(a, b) => b.createdAt - a.createdAt` asks. */
  ghost predicate NewestFirst(s: seq<Assignment>)
  {
    forall i, j :: 0 <= i < j < |s| ==> s[i].createdAt >= s[j].createdAt
  }

  /** Inserts `x` after every entry at least as new, so entries with equal
      timestamps keep their ledger order. */
  function InsertByTime(sorted: seq<Assignment>, x: Assignment): (r: seq<Assignment>)
    ensures |r| == |sorted| + 1
    ensures multiset(r) == multiset(sorted) + multiset{x}
  {
    if sorted == [] then [x]
    else if sorted[0].createdAt < x.createdAt then [x] + sorted
    else
      assert sorted == [sorted[0]] + sorted[1..];
      [sorted[0]] + InsertByTime(sorted[1..], x)
  }

  /** Inserting into a newest-first list keeps it newest first. */
  lemma {:induction false} InsertKeepsOrder(sorted: seq<Assignment>, x: Assignment)
    requires NewestFirst(sorted)
    ensures NewestFirst(InsertByTime(sorted, x))
  {
    if sorted != [] && sorted[0].createdAt >= x.createdAt {
      var rest := InsertByTime(sorted[1..], x);
      InsertKeepsOrder(sorted[1..], x);
      forall j | 0 <= j < |rest| ensures sorted[0].createdAt >= rest[j].createdAt {
        assert rest[j] in multiset(rest);
        assert rest[j] in sorted[1..] || rest[j] == x;
      }
    }
  }

  /** A stable sort, newest first: the order `Array.prototype.sort` gives. */
  function SortNewest(s: seq<Assignment>): (r: seq<Assignment>)
    ensures |r| == |s|
    ensures multiset(r) == multiset(s)
    ensures NewestFirst(r)
  {
    if s == [] then []
    else
      assert s == s[..|s| - 1] + [s[|s| - 1]];
      InsertKeepsOrder(SortNewest(s[..|s| - 1]), s[|s| - 1]);
      InsertByTime(SortNewest(s[..|s| - 1]), s[|s| - 1])
  }

  /** No entry of `s` that `r` leaves out is newer than an entry `r` keeps. */
  ghost predicate KeepsNewest(s: seq<Assignment>, r: seq<Assignment>)
  {
    forall a, b :: a in r && b in multiset(s) - multiset(r) ==> b.createdAt <= a.createdAt
  }

  /** A prefix of a newest-first arrangement of `s` keeps its newest entries. */
  lemma SliceKeepsNewest(s: seq<Assignment>, sorted: seq<Assignment>, k: nat)
    requires multiset(sorted) == multiset(s) && NewestFirst(sorted) && k <= |sorted|
    ensures KeepsNewest(s, sorted[..k])
  {
    var kept, rest := sorted[..k], sorted[k..];
    assert sorted == kept + rest;
    assert multiset(s) - multiset(kept) == multiset(rest);
    forall a: Assignment, b: Assignment | a in kept && b in multiset(rest) ensures b.createdAt <= a.createdAt {
      var i :| 0 <= i < k && kept[i] == a;
      var j :| 0 <= j < |rest| && rest[j] == b;
      assert sorted[i] == a && sorted[k + j] == b;
    }
  }

  /** `[...s].sort(newest first).slice(0, k)`: the k newest entries (all of
      them when there are fewer), newest first. */
  function Newest(s: seq<Assignment>, k: nat): (r: seq<Assignment>)
    ensures |r| == if |s| < k then |s| else k
    ensures multiset(r) <= multiset(s)
    ensures NewestFirst(r)
    ensures KeepsNewest(s, r)
  {
    var sorted := SortNewest(s);
    if |sorted| <= k then
      assert multiset(s) - multiset(sorted) == multiset{};
      sorted
    else
      assert sorted == sorted[..k] + sorted[k..];
      SliceKeepsNewest(s, sorted, k);
      sorted[..k]
  }

  /** Everything `Newest` keeps comes from the input. */
  lemma NewestFromInput(s: seq<Assignment>, k: nat)
    ensures forall a :: a in Newest(s, k) ==> a in s
  {
    var r := Newest(s, k);
    forall a | a in r ensures a in s {
      assert a in multiset(r);
    }
  }

  /** `s.reduce((total, a) => total + a.quantity, 0)` */
  function TotalQuantity(s: seq<Assignment>): int
  {
    if s == [] then 0 else TotalQuantity(s[..|s| - 1]) + s[|s| - 1].quantity
  }

  /** The sum over a concatenation is the sum of the sums. */
  lemma {:induction false} TotalQuantityConcat(a: seq<Assignment>, b: seq<Assignment>)
    ensures TotalQuantity(a + b) == TotalQuantity(a) + TotalQuantity(b)
    decreases |b|
  {
    if b == [] {
      assert a + b == a;
    } else {
      assert (a + b)[..|a + b| - 1] == a + b[..|b| - 1];
      TotalQuantityConcat(a, b[..|b| - 1]);
    }
  }

  /** The sum is zero on no entries, and non-negative when every entry is. */
  lemma {:induction false} TotalQuantityBounds(s: seq<Assignment>)
    ensures s == [] ==> TotalQuantity(s) == 0
    ensures (forall i :: 0 <= i < |s| ==> s[i].quantity >= 0) ==> TotalQuantity(s) >= 0
  {
    if s != [] {
      TotalQuantityBounds(s[..|s| - 1]);
    }
  }

  /** `new Set(s.map(a => a.userId))` */
  function RecipientIds(s: seq<Assignment>): set<Id>
  {
    set a | a in s :: a.userId
  }

  /** There are never more distinct recipients than entries. */
  lemma {:induction false} RecipientIdsBound(s: seq<Assignment>)
    ensures |RecipientIds(s)| <= |s|
    decreases |s|
  {
    if s != [] {
      var init := s[..|s| - 1];
      assert s == init + [s[|s| - 1]];
      assert RecipientIds(s) == RecipientIds(init) + {s[|s| - 1].userId};
      RecipientIdsBound(init);
    }
  }

  /** `new Set(...).size`: the number of distinct recipients. */
  function DistinctRecipientCount(s: seq<Assignment>): (n: nat)
    ensures n <= |s|
    ensures s == [] ==> n == 0
  {
    RecipientIdsBound(s);
    |RecipientIds(s)|
  }
}
