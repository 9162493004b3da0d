/** Layer fingerprints and the byte-weighted overlap score. */
module Fingerprint {
  import opened Common

  /** Content digest of each distinct regular file, with the size of one instance. */
  type Print = map<Digest, int>

  // ---- score ----

  /** Sum of w over s, in whatever order elements are drawn. */
  ghost function SumOver(s: set<Digest>, w: Digest -> int): int {
    if s == {} then 0
    else
      var d :| d in s;
      w(d) + SumOver(s - {d}, w)
  }

  /** Drawing any element first gives the same sum: Go's random map order cannot change a score. */
  lemma {:induction false} SumOverDraw(s: set<Digest>, d: Digest, w: Digest -> int)
    requires d in s
    ensures SumOver(s, w) == w(d) + SumOver(s - {d}, w)
    decreases |s|
  {
    var e :| e in s && SumOver(s, w) == w(e) + SumOver(s - {e}, w);
    if e != d {
      SumOverDraw(s - {e}, d, w);
      SumOverDraw(s - {d}, e, w);
      assert s - {e} - {d} == s - {d} - {e};
    }
  }

  ghost function Size(target: Print): Digest -> int {
    d => if d in target then target[d] else 0
  }

  /** Byte-weighted intersection; a missing fingerprint on either side scores 0. */
  ghost function Overlap(target: Option<Print>, candidate: Option<Print>): int {
    if target.None? || candidate.None? then 0
    else SumOver(target.value.Keys * candidate.value.Keys, Size(target.value))
  }

  method Score(target: Option<Print>, candidate: Option<Print>) returns (total: int)
    ensures total == Overlap(target, candidate)
  {
    if target.None? || candidate.None? { return 0; }
    total := 0;
    var todo := target.value.Keys;
    ghost var shared := candidate.value.Keys;
    while todo != {}
      invariant todo <= target.value.Keys
      invariant total + SumOver(todo * shared, Size(target.value)) == Overlap(target, candidate)
      decreases |todo|
    {
      var d :| d in todo;
      if d in candidate.value {
        SumOverDraw(todo * shared, d, Size(target.value));
        assert todo * shared - {d} == (todo - {d}) * shared;
        total := total + target.value[d];
      } else {
        assert todo * shared == (todo - {d}) * shared;
      }
      todo := todo - {d};
    }
    assert todo * shared == {};
  }

  lemma {:induction false} SumOverSame(s: set<Digest>, v: Digest -> int, w: Digest -> int)
    requires forall d :: d in s ==> v(d) == w(d)
    ensures SumOver(s, v) == SumOver(s, w)
    decreases |s|
  {
    if s != {} {
      var d :| d in s;
      SumOverDraw(s, d, v);
      SumOverDraw(s, d, w);
      SumOverSame(s - {d}, v, w);
    }
  }

  /** The score file by file: one of n bytes adds n when the candidate has it and nothing when it has not, from
      nothing at the start; and without a fingerprint on either side there is no score. */
  lemma OverlapIsBytes(target: Print, candidate: Print, d: Digest, n: int)
    requires d !in target
    ensures Overlap(Some(target[d := n]), Some(candidate)) == Overlap(Some(target), Some(candidate)) + if d in candidate then n else 0
    ensures Overlap(Some(map[]), Some(candidate)) == 0
    ensures Overlap(None, Some(candidate)) == 0 && Overlap(Some(target), None) == 0 && Overlap(None, None) == 0
  {
    var more := target[d := n];
    var a, b := more.Keys * candidate.Keys, target.Keys * candidate.Keys;
    SumOverSame(b, Size(more), Size(target));
    if d in candidate {
      SumOverDraw(a, d, Size(more));
      assert a - {d} == b;
    } else {
      assert a == b;
    }
    var none: Print := map[];
    assert none.Keys * candidate.Keys == {};
  }

  lemma {:induction false} SumOverMonotone(a: set<Digest>, b: set<Digest>, w: Digest -> int)
    requires a <= b && forall d :: d in b ==> 0 <= w(d)
    ensures 0 <= SumOver(a, w) <= SumOver(b, w)
    ensures (exists d :: d in b - a && w(d) > 0) ==> SumOver(a, w) < SumOver(b, w)
    decreases |b|
  {
    if b != {} {
      var d :| d in b && SumOver(b, w) == w(d) + SumOver(b - {d}, w);
      if d in a {
        SumOverDraw(a, d, w);
        SumOverMonotone(a - {d}, b - {d}, w);
        assert (b - {d}) - (a - {d}) == b - a;
      } else {
        SumOverMonotone(a, b - {d}, w);
        if x :| x in b - a && w(x) > 0 {
          if x != d { assert x in (b - {d}) - a; }
        }
      }
    }
  }

  predicate Positive(p: Print) { forall d :: d in p ==> 0 < p[d] }

  /** A score never exceeds the target's own weight, and reaches it exactly when the candidate holds every file. */
  lemma PerfectScore(target: Print, candidate: Print)
    requires Positive(target)
    ensures 0 <= Overlap(Some(target), Some(candidate)) <= Overlap(Some(target), Some(target))
    ensures Overlap(Some(target), Some(candidate)) == Overlap(Some(target), Some(target)) <==> target.Keys <= candidate.Keys
  {
    var both := target.Keys * candidate.Keys;
    assert target.Keys * target.Keys == target.Keys;
    SumOverMonotone(both, target.Keys, Size(target));
    if target.Keys <= candidate.Keys {
      assert both == target.Keys;
    } else {
      var d :| d in target.Keys && d !in candidate.Keys;
      assert d in target.Keys - both && Size(target)(d) > 0;
    }
  }

  // ---- fingerprintTar ----

  /** What the tar reader yields: a regular file, anything else, or an unreadable header or body. */
  datatype Item = Regular(content: Bytes) | Special | BadHeader | BadBody

  function FileDigest(h: HashFn, content: Bytes): Digest { DigestOf(h, "sha256", content) }

  predicate Readable(items: seq<Item>) {
    forall i :: 0 <= i < |items| ==> items[i].Regular? || items[i].Special?
  }

  /** First instance of each content wins. */
  function PrintOf(h: HashFn, items: seq<Item>): Print {
    if |items| == 0 then map[]
    else
      var rest := PrintOf(h, items[..|items| - 1]);
      var it := items[|items| - 1];
      if it.Regular? && FileDigest(h, it.content) !in rest then rest[FileDigest(h, it.content) := |it.content|] else rest
  }

  /** cancelledAt is the number of entries after which the context is found cancelled, if ever. */
  method FingerprintTar(h: HashFn, items: seq<Item>, cancelledAt: Option<nat>) returns (r: Option<Print>)
    ensures r.Some? <==> Readable(items) && (cancelledAt.None? || cancelledAt.value > |items|)
    ensures r.Some? ==> r.value == PrintOf(h, items)
  {
    var fp: Print := map[];
    var i := 0;
    while true
      invariant 0 <= i <= |items| && Readable(items[..i])
      invariant fp == PrintOf(h, items[..i])
      invariant cancelledAt.None? || cancelledAt.value >= i
      decreases |items| - i
    {
      if cancelledAt == Some(i) { return None; }
      if i == |items| { break; }
      match items[i] {
        case BadHeader => return None;
        case BadBody => return None;
        case Special =>
        case Regular(content) =>
          var d := FileDigest(h, content);
          if d !in fp { fp := fp[d := |content|]; }
      }
      assert items[..i + 1][..i] == items[..i];
      i := i + 1;
    }
    assert items[..|items|] == items;
    return Some(fp);
  }

  /** The fingerprint is a set of contents: exactly the regular files, each with the size of an instance. */
  lemma {:induction false} PrintContents(h: HashFn, items: seq<Item>)
    ensures forall d :: d in PrintOf(h, items) <==> exists i :: 0 <= i < |items| && items[i].Regular? && FileDigest(h, items[i].content) == d
    ensures forall d :: d in PrintOf(h, items) ==>
      exists i :: 0 <= i < |items| && items[i].Regular? && FileDigest(h, items[i].content) == d && PrintOf(h, items)[d] == |items[i].content|
    decreases |items|
  {
    if |items| > 0 {
      var front := items[..|items| - 1];
      PrintContents(h, front);
      var p, q := PrintOf(h, items), PrintOf(h, front);
      forall d ensures d in p <==> exists i :: 0 <= i < |items| && items[i].Regular? && FileDigest(h, items[i].content) == d {
        if d in q {
          var i :| 0 <= i < |front| && front[i].Regular? && FileDigest(h, front[i].content) == d;
          assert items[i] == front[i];
        }
        if i :| 0 <= i < |items| && items[i].Regular? && FileDigest(h, items[i].content) == d {
          if i < |front| { assert front[i] == items[i]; }
        }
      }
      forall d | d in p
        ensures exists i :: 0 <= i < |items| && items[i].Regular? && FileDigest(h, items[i].content) == d && p[d] == |items[i].content|
      {
        if d in q {
          var i :| 0 <= i < |front| && front[i].Regular? && FileDigest(h, front[i].content) == d && q[d] == |front[i].content|;
          assert items[i] == front[i];
        } else {
          assert items[|items| - 1].Regular?;
        }
      }
    }
  }

  predicate SameFiles(a: seq<Item>, b: seq<Item>) {
    forall it :: it in a && it.Regular? ==> it in b
  }

  /** No two different contents of these entries share a digest. */
  predicate CollisionFree(h: HashFn, items: seq<Item>) {
    forall i, j | 0 <= i < |items| && 0 <= j < |items| && items[i].Regular? && items[j].Regular? ::
      FileDigest(h, items[i].content) == FileDigest(h, items[j].content) ==> items[i].content == items[j].content
  }

  /** Reordering or repeating files, or adding directories and links, leaves the fingerprint unchanged. */
  lemma PrintIsOrderFree(h: HashFn, a: seq<Item>, b: seq<Item>)
    requires SameFiles(a, b) && SameFiles(b, a) && CollisionFree(h, a + b)
    ensures PrintOf(h, a) == PrintOf(h, b)
  {
    PrintContents(h, a);
    PrintContents(h, b);
    var p, q := PrintOf(h, a), PrintOf(h, b);
    PrintKeysWithin(h, a, b);
    PrintKeysWithin(h, b, a);
    forall d | d in p ensures p[d] == q[d] {
      var i :| 0 <= i < |a| && a[i].Regular? && FileDigest(h, a[i].content) == d && p[d] == |a[i].content|;
      var j :| 0 <= j < |b| && b[j].Regular? && FileDigest(h, b[j].content) == d && q[d] == |b[j].content|;
      assert (a + b)[i] == a[i] && (a + b)[|a| + j] == b[j];
    }
  }

  lemma PrintKeysWithin(h: HashFn, a: seq<Item>, b: seq<Item>)
    requires SameFiles(a, b)
    ensures PrintOf(h, a).Keys <= PrintOf(h, b).Keys
  {
    PrintContents(h, a);
    PrintContents(h, b);
    forall d | d in PrintOf(h, a) ensures d in PrintOf(h, b) {
      var i :| 0 <= i < |a| && a[i].Regular? && FileDigest(h, a[i].content) == d;
      assert a[i] in a;
      var j :| 0 <= j < |b| && b[j] == a[i];
    }
  }
}
