/** Stable sorting by a comparator, as Go's sort.SliceStable does it. */
module Sorting {
  import opened Common

  /** What a comparator must be for sorting to mean anything: a strict weak order. */
  ghost predicate StrictWeak<T(!new)>(before: (T, T) -> bool) {
    && (forall x, y :: before(x, y) ==> !before(y, x))
    && (forall x, y, z :: before(x, z) ==> before(x, y) || before(y, z))
  }

  predicate Sorted<T>(xs: seq<T>, before: (T, T) -> bool) {
    forall i, j :: 0 <= i < j < |xs| ==> !before(xs[j], xs[i])
  }

  /** x goes after everything it is not strictly before. */
  function Insert<T>(sorted: seq<T>, x: T, before: (T, T) -> bool): seq<T> {
    if |sorted| == 0 || !before(x, sorted[|sorted| - 1]) then sorted + [x]
    else Insert(sorted[..|sorted| - 1], x, before) + [sorted[|sorted| - 1]]
  }

  function Sort<T>(xs: seq<T>, before: (T, T) -> bool): seq<T> {
    if |xs| == 0 then [] else Insert(Sort(xs[..|xs| - 1], before), xs[|xs| - 1], before)
  }

  method StableSort<T>(xs: seq<T>, before: (T, T) -> bool) returns (sorted: seq<T>)
    ensures sorted == Sort(xs, before)
  {
    sorted := [];
    for i := 0 to |xs|
      invariant sorted == Sort(xs[..i], before)
    {
      assert xs[..i + 1][..i] == xs[..i];
      sorted := Insert(sorted, xs[i], before);
    }
    assert xs[..|xs|] == xs;
  }

  lemma {:induction false} InsertPermutes<T>(sorted: seq<T>, x: T, before: (T, T) -> bool)
    ensures multiset(Insert(sorted, x, before)) == multiset(sorted) + multiset{x}
    decreases |sorted|
  {
    if !(|sorted| == 0 || !before(x, sorted[|sorted| - 1])) {
      InsertPermutes(sorted[..|sorted| - 1], x, before);
      assert sorted == sorted[..|sorted| - 1] + [sorted[|sorted| - 1]];
    }
  }

  lemma {:induction false} SortPermutes<T>(xs: seq<T>, before: (T, T) -> bool)
    ensures multiset(Sort(xs, before)) == multiset(xs)
    ensures |Sort(xs, before)| == |xs|
    decreases |xs|
  {
    if |xs| > 0 {
      SortPermutes(xs[..|xs| - 1], before);
      InsertPermutes(Sort(xs[..|xs| - 1], before), xs[|xs| - 1], before);
      assert xs == xs[..|xs| - 1] + [xs[|xs| - 1]];
    }
    assert |multiset(Sort(xs, before))| == |Sort(xs, before)| && |multiset(xs)| == |xs|;
  }

  /** The comparator does not separate x and y. */
  predicate Tied<T>(x: T, y: T, before: (T, T) -> bool) { !before(x, y) && !before(y, x) }

  /** The elements of xs tied with y, in their order. */
  function Ties<T>(xs: seq<T>, y: T, before: (T, T) -> bool): seq<T> {
    if |xs| == 0 then []
    else
      var front, last := xs[..|xs| - 1], xs[|xs| - 1];
      Ties(front, y, before) + if Tied(last, y, before) then [last] else []
  }

  lemma {:induction false} InsertStable<T(!new)>(sorted: seq<T>, x: T, y: T, before: (T, T) -> bool)
    requires StrictWeak(before)
    ensures Ties(Insert(sorted, x, before), y, before) == Ties(sorted, y, before) + if Tied(x, y, before) then [x] else []
    decreases |sorted|
  {
    if |sorted| == 0 || !before(x, sorted[|sorted| - 1]) {
      assert (sorted + [x])[..|sorted|] == sorted;
    } else {
      var front, last := sorted[..|sorted| - 1], sorted[|sorted| - 1];
      InsertStable(front, x, y, before);
      var inner := Insert(front, x, before);
      assert (inner + [last])[..|inner|] == inner;
      assert !(Tied(x, y, before) && Tied(last, y, before));
    }
  }

  lemma {:induction false} TiesFirst<T>(x: T, rest: seq<T>, y: T, before: (T, T) -> bool)
    requires Tied(x, y, before)
    ensures Ties([x] + rest, y, before) == [x] + Ties(rest, y, before)
    decreases |rest|
  {
    var all := [x] + rest;
    if |rest| == 0 {
      assert all[..0] == [];
    } else {
      assert all[..|all| - 1] == [x] + rest[..|rest| - 1];
      TiesFirst(x, rest[..|rest| - 1], y, before);
    }
  }

  /** Stability: sorting keeps the order of elements the comparator does not separate. */
  lemma {:induction false} SortIsStable<T(!new)>(xs: seq<T>, y: T, before: (T, T) -> bool)
    requires StrictWeak(before)
    ensures Ties(Sort(xs, before), y, before) == Ties(xs, y, before)
    decreases |xs|
  {
    if |xs| > 0 {
      var front, last := xs[..|xs| - 1], xs[|xs| - 1];
      SortIsStable(front, y, before);
      InsertStable(Sort(front, before), last, y, before);
    }
  }

  lemma NotBeforeTransitive<T(!new)>(x: T, y: T, z: T, before: (T, T) -> bool)
    requires StrictWeak(before) && !before(x, y) && (y == z || !before(y, z))
    ensures !before(x, z)
  {
  }

  lemma {:induction false} InsertSorted<T(!new)>(sorted: seq<T>, x: T, before: (T, T) -> bool)
    requires StrictWeak(before) && Sorted(sorted, before)
    ensures Sorted(Insert(sorted, x, before), before)
    decreases |sorted|
  {
    var r := Insert(sorted, x, before);
    if |sorted| > 0 {
      var front, last := sorted[..|sorted| - 1], sorted[|sorted| - 1];
      if before(x, last) {
        InsertSorted(front, x, before);
        InsertPermutes(front, x, before);
        var inner := Insert(front, x, before);
        forall i | 0 <= i < |inner| ensures !before(last, inner[i]) {
          assert inner[i] in multiset(inner);
          assert inner[i] == x || inner[i] in front;
        }
      } else {
        forall i | 0 <= i < |sorted| ensures !before(x, sorted[i]) {
          NotBeforeTransitive(x, last, sorted[i], before);
        }
      }
    }
  }

  lemma {:induction false} SortSorted<T(!new)>(xs: seq<T>, before: (T, T) -> bool)
    requires StrictWeak(before)
    ensures Sorted(Sort(xs, before), before)
    decreases |xs|
  {
    if |xs| > 0 {
      SortSorted(xs[..|xs| - 1], before);
      InsertSorted(Sort(xs[..|xs| - 1], before), xs[|xs| - 1], before);
    }
  }

  /** The comparator separates any two different elements of xs. */
  predicate Decides<T(==)>(xs: seq<T>, before: (T, T) -> bool) {
    forall x, y :: x in xs && y in xs && x != y ==> before(x, y) || before(y, x)
  }

  lemma LastIsLargest<T>(u: seq<T>, y: T, before: (T, T) -> bool)
    requires |u| > 0 && Sorted(u, before) && y in multiset(u)
    ensures y == u[|u| - 1] || !before(u[|u| - 1], y)
  {
    assert y in u;
  }

  lemma FrontMultiset<T>(u: seq<T>)
    requires |u| > 0
    ensures multiset(u[..|u| - 1]) == multiset(u) - multiset{u[|u| - 1]}
  {
    assert u == u[..|u| - 1] + [u[|u| - 1]];
  }

  lemma SameLast<T>(u: seq<T>, v: seq<T>, before: (T, T) -> bool)
    requires multiset(u) == multiset(v) && |u| > 0 && |v| > 0
    requires Sorted(u, before) && Sorted(v, before) && Decides(u, before)
    ensures u[|u| - 1] == v[|v| - 1]
  {
    var x, y := u[|u| - 1], v[|v| - 1];
    assert x in multiset(u) && y in multiset(v);
    LastIsLargest(u, y, before);
    LastIsLargest(v, x, before);
    assert x in u && y in u;
  }

  lemma FrontKeeps<T>(u: seq<T>, before: (T, T) -> bool)
    requires |u| > 0 && Sorted(u, before)
    ensures Sorted(u[..|u| - 1], before) && (Decides(u, before) ==> Decides(u[..|u| - 1], before))
  {
    var front := u[..|u| - 1];
    assert forall x :: x in front ==> x in u;
  }

  lemma {:induction false} SortedUnique<T>(u: seq<T>, v: seq<T>, before: (T, T) -> bool)
    requires multiset(u) == multiset(v)
    requires Sorted(u, before) && Sorted(v, before) && Decides(u, before)
    ensures u == v
    decreases |u|
  {
    assert |u| == |multiset(u)| == |multiset(v)| == |v|;
    if |u| > 0 {
      SameLast(u, v, before);
      FrontMultiset(u);
      FrontMultiset(v);
      FrontKeeps(u, before);
      FrontKeeps(v, before);
      SortedUnique(u[..|u| - 1], v[..|v| - 1], before);
      Reassemble(u, v);
    }
  }

  lemma Reassemble<T>(u: seq<T>, v: seq<T>)
    requires |u| == |v| > 0 && u[..|u| - 1] == v[..|v| - 1] && u[|u| - 1] == v[|v| - 1]
    ensures u == v
  {
    assert u == u[..|u| - 1] + [u[|u| - 1]] && v == v[..|v| - 1] + [v[|v| - 1]];
  }

  /** When the comparator decides every pair, the result does not depend on the input order. */
  lemma SortIgnoresOrder<T(!new)>(xs: seq<T>, ys: seq<T>, before: (T, T) -> bool)
    requires StrictWeak(before) && multiset(xs) == multiset(ys) && Decides(xs, before)
    ensures Sort(xs, before) == Sort(ys, before)
  {
    SortSorted(xs, before);
    SortSorted(ys, before);
    SortPermutes(xs, before);
    SortPermutes(ys, before);
    forall x | x in Sort(xs, before) ensures x in xs { assert x in multiset(Sort(xs, before)); }
    SortedUnique(Sort(xs, before), Sort(ys, before), before);
  }

  lemma {:induction false} SortFixpoint<T>(xs: seq<T>, before: (T, T) -> bool)
    requires Sorted(xs, before)
    ensures Sort(xs, before) == xs
    decreases |xs|
  {
    if |xs| > 0 {
      SortFixpoint(xs[..|xs| - 1], before);
      assert xs == xs[..|xs| - 1] + [xs[|xs| - 1]];
    }
  }

  // ---- Element-wise images ----

  function Mapped<T, U>(xs: seq<T>, f: T -> U): (r: seq<U>)
    ensures |r| == |xs| && forall i :: 0 <= i < |xs| ==> r[i] == f(xs[i])
  {
    if |xs| == 0 then [] else Mapped(xs[..|xs| - 1], f) + [f(xs[|xs| - 1])]
  }

  lemma RemoveAt<T>(xs: seq<T>, rest: seq<T>, j: nat)
    requires j < |xs| && rest == xs[..j] + xs[j + 1..]
    ensures multiset(xs) == multiset(rest) + multiset{xs[j]}
  {
    assert xs == xs[..j] + [xs[j]] + xs[j + 1..];
  }

  lemma TakeOut<T>(xs: seq<T>, x: T) returns (rest: seq<T>)
    requires x in xs
    ensures multiset(xs) == multiset(rest) + multiset{x} && forall y :: y in xs && y != x ==> y in rest
  {
    var j :| 0 <= j < |xs| && xs[j] == x;
    rest := xs[..j] + xs[j + 1..];
    RemoveAt(xs, rest, j);
  }

  /** Removing before or after mapping is the same. */
  lemma MappedRest<T, U>(xs: seq<T>, rest: seq<T>, ys: seq<U>, zs: seq<U>, j: nat, f: T -> U)
    requires j < |xs| && rest == xs[..j] + xs[j + 1..]
    requires |ys| == |xs| && forall i :: 0 <= i < |xs| ==> ys[i] == f(xs[i])
    requires |zs| == |rest| && forall i :: 0 <= i < |rest| ==> zs[i] == f(rest[i])
    ensures zs == ys[..j] + ys[j + 1..]
  {
  }

  lemma MappedRemove<T, U>(xs: seq<T>, j: nat, f: T -> U)
    requires j < |xs|
    ensures multiset(Mapped(xs, f)) == multiset(Mapped(xs[..j] + xs[j + 1..], f)) + multiset{f(xs[j])}
  {
    var rest := xs[..j] + xs[j + 1..];
    var ys, zs := Mapped(xs, f), Mapped(rest, f);
    MappedRest(xs, rest, ys, zs, j, f);
    RemoveAt(ys, zs, j);
  }

  lemma {:induction false} MappedPermute<T, U>(xs: seq<T>, ys: seq<T>, f: T -> U)
    requires multiset(xs) == multiset(ys)
    ensures multiset(Mapped(xs, f)) == multiset(Mapped(ys, f))
    decreases |xs|
  {
    assert |xs| == |multiset(xs)| == |multiset(ys)| == |ys|;
    if |xs| > 0 {
      var last := xs[|xs| - 1];
      assert last in multiset(ys);
      var j :| 0 <= j < |ys| && ys[j] == last;
      var rest := ys[..j] + ys[j + 1..];
      assert ys == ys[..j] + [last] + ys[j + 1..];
      FrontMultiset(xs);
      assert multiset(rest) == multiset(ys) - multiset{last};
      MappedRemove(ys, j, f);
      MappedPermute(xs[..|xs| - 1], rest, f);
    }
  }
}
