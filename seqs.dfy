/** Generic list operations that the stores and pages use through JavaScript's
    Array methods: `filter`, `find`, `findIndex`, element-wise `map` with a
    conditional, and `String.prototype.includes`. Each is defined once here,
    with the facts about it that the rest of the model relies on. */
module Seqs {

  datatype Option<T> = None | Some(value: T)

  /** `s.filter(p)`: the elements satisfying `p`, in their original order. */
  function Filter<T(!new)>(s: seq<T>, p: T -> bool): (r: seq<T>)
    ensures |r| <= |s|
  {
    if s == [] then []
    else (if p(s[0]) then [s[0]] else []) + Filter(s[1..], p)
  }

  /** What the filter keeps: exactly the passing elements, each as often as
      it occurs in the input. */
  lemma {:induction false} FilterSpec<T(!new)>(s: seq<T>, p: T -> bool)
    ensures forall x :: x in Filter(s, p) <==> x in s && p(x)
    ensures forall x :: multiset(Filter(s, p))[x] == if p(x) then multiset(s)[x] else 0
  {
    if s != [] {
      assert s == [s[0]] + s[1..];
      FilterSpec(s[1..], p);
    }
  }

  /** One step of the filter: the head is kept exactly when it passes. */
  lemma FilterCons<T(!new)>(x: T, s: seq<T>, p: T -> bool)
    ensures Filter([x] + s, p) == (if p(x) then [x] else []) + Filter(s, p)
  {
    assert ([x] + s)[1..] == s;
  }

  /** Filtering distributes over concatenation: this is what "order
      preserving" means for a filter. */
  lemma {:induction false} FilterConcat<T(!new)>(a: seq<T>, b: seq<T>, p: T -> bool)
    ensures Filter(a + b, p) == Filter(a, p) + Filter(b, p)
  {
    if a == [] {
      assert a + b == b;
    } else {
      var head := if p(a[0]) then [a[0]] else [];
      calc {
        Filter(a + b, p);
      == { assert a + b == [a[0]] + (a[1..] + b); FilterCons(a[0], a[1..] + b, p); }
        head + Filter(a[1..] + b, p);
      == { FilterConcat(a[1..], b, p); }
        head + (Filter(a[1..], p) + Filter(b, p));
      == { assert a == [a[0]] + a[1..]; FilterCons(a[0], a[1..], p); }
        Filter(a, p) + Filter(b, p);
      }
    }
  }

  /** A filter that every element passes is the identity. */
  lemma {:induction false} FilterAllPass<T(!new)>(s: seq<T>, p: T -> bool)
    requires forall i :: 0 <= i < |s| ==> p(s[i])
    ensures Filter(s, p) == s
  {
    if s != [] {
      FilterAllPass(s[1..], p);
    }
  }

  /** A filter that no element passes yields the empty list. */
  lemma {:induction false} FilterNonePass<T(!new)>(s: seq<T>, p: T -> bool)
    requires forall i :: 0 <= i < |s| ==> !p(s[i])
    ensures Filter(s, p) == []
  {
    if s != [] {
      FilterNonePass(s[1..], p);
    }
  }

  /** Filtering twice with the same predicate is filtering once. */
  lemma FilterIdempotent<T(!new)>(s: seq<T>, p: T -> bool)
    ensures Filter(Filter(s, p), p) == Filter(s, p)
  {
    var r := Filter(s, p);
    FilterSpec(s, p);
    forall i | 0 <= i < |r| ensures p(r[i]) {
      assert r[i] in r;
    }
    FilterAllPass(r, p);
  }

  /** `s.findIndex(p)`, with -1 written as None. */
  function IndexWhere<T>(s: seq<T>, p: T -> bool): (r: Option<nat>)
    ensures r.None? <==> forall i :: 0 <= i < |s| ==> !p(s[i])
    ensures r.Some? ==> r.value < |s| && p(s[r.value])
    ensures r.Some? ==> forall j :: 0 <= j < r.value ==> !p(s[j])
  {
    if s == [] then None
    else if p(s[0]) then Some(0)
    else match IndexWhere(s[1..], p)
      case None => None
      case Some(k) => Some(k + 1)
  }

  /** `s.find(p)`: the first element satisfying `p`, or nothing. */
  function Find<T(!new)>(s: seq<T>, p: T -> bool): (r: Option<T>)
    ensures r.None? <==> forall x :: x in s ==> !p(x)
    ensures r.Some? ==> r.value in s && p(r.value)
    ensures r.Some? ==> exists i :: 0 <= i < |s| && s[i] == r.value && forall j :: 0 <= j < i ==> !p(s[j])
  {
    match IndexWhere(s, p)
    case None => None
    case Some(i) => Some(s[i])
  }

  /** A `find` over a list whose first element passes returns that element. */
  lemma FindHead<T(!new)>(s: seq<T>, p: T -> bool)
    requires s != [] && p(s[0])
    ensures Find(s, p) == Some(s[0])
  {
  }

  /** When exactly the element at `k` passes, `find` returns it. */
  lemma FindUnique<T(!new)>(s: seq<T>, p: T -> bool, k: nat)
    requires k < |s| && p(s[k])
    requires forall i :: 0 <= i < |s| && i != k ==> !p(s[i])
    ensures Find(s, p) == Some(s[k])
  {
  }

  /** Appending to a list does not change a `find` that already succeeds;
      one that fails on the list is decided by the appended part. */
  lemma FindConcat<T(!new)>(a: seq<T>, b: seq<T>, p: T -> bool)
    ensures Find(a, p).Some? ==> Find(a + b, p) == Find(a, p)
    ensures Find(a, p).None? ==> Find(a + b, p) == Find(b, p)
  {
    var i, j := IndexWhere(a + b, p), IndexWhere(a, p);
    if j.Some? {
      assert (a + b)[j.value] == a[j.value];
      assert i.Some? && i.value <= j.value;
      assert a[i.value] == (a + b)[i.value];
    } else {
      var k := IndexWhere(b, p);
      if k.Some? {
        assert (a + b)[|a| + k.value] == b[k.value];
        assert i.Some?;
        assert i.value >= |a|;
        assert (a + b)[i.value] == b[i.value - |a|];
      } else {
        assert forall x :: x in a + b ==> x in a || x in b;
      }
    }
  }

  /** `s.map(x => p(x) ? f(x) : x)`: `f` applied exactly where `p` holds. */
  function MapWhere<T>(s: seq<T>, p: T -> bool, f: T -> T): (r: seq<T>)
    ensures |r| == |s|
    ensures forall i :: 0 <= i < |s| ==> r[i] == if p(s[i]) then f(s[i]) else s[i]
  {
    if s == [] then []
    else [if p(s[0]) then f(s[0]) else s[0]] + MapWhere(s[1..], p, f)
  }

  /** A conditional map that matches nothing leaves the list as it was. */
  lemma MapWhereNoMatch<T>(s: seq<T>, p: T -> bool, f: T -> T)
    requires forall i :: 0 <= i < |s| ==> !p(s[i])
    ensures MapWhere(s, p, f) == s
  {
  }

  /** `s.includes(sub)` on strings: `sub` occurs in `s` at some offset. */
  predicate Contains<T(==)>(s: seq<T>, sub: seq<T>)
    decreases |s|
  {
    sub <= s || (|s| > 0 && Contains(s[1..], sub))
  }

  /** `sub` occurs in `s` starting at offset `i`. */
  predicate OccursAt<T(==)>(s: seq<T>, sub: seq<T>, i: nat)
  {
    i + |sub| <= |s| && s[i..i + |sub|] == sub
  }

  /** `Contains` is exactly "occurs at some offset". */
  lemma {:induction false} ContainsAtOffset<T>(s: seq<T>, sub: seq<T>)
    ensures Contains(s, sub) <==> exists i: nat :: OccursAt(s, sub, i)
    decreases |s|
  {
    if sub <= s {
      assert OccursAt(s, sub, 0);
    } else if |s| == 0 {
      assert forall i: nat :: !OccursAt(s, sub, i);
    } else {
      ContainsAtOffset(s[1..], sub);
      if i: nat :| OccursAt(s, sub, i) {
        if i > 0 {
          assert s[1..][i - 1..i - 1 + |sub|] == s[i..i + |sub|];
          assert OccursAt(s[1..], sub, i - 1);
        }
      }
      if Contains(s[1..], sub) {
        var i: nat :| OccursAt(s[1..], sub, i);
        assert s[1..][i..i + |sub|] == s[i + 1..i + 1 + |sub|];
        assert OccursAt(s, sub, i + 1);
      }
    }
  }

  /** Every string includes the empty string. */
  lemma ContainsEmpty<T>(s: seq<T>)
    ensures Contains(s, [])
  {
  }
}
