/** Vocabulary shared by every component: bytes, digests, options, finite sums. */
module Common {

  newtype byte = b: int | 0 <= b < 256
  type Bytes = seq<byte>

  datatype Option<+T> = None | Some(value: T)

  /** An OCI digest: an algorithm name, a colon, and the encoded hash. */
  type Digest = string

  /** Lower-case hex length of each registered algorithm; 0 for any other name. */
  function HexLength(alg: string): nat {
    if alg == "sha256" then 64
    else if alg == "sha384" then 96
    else if alg == "sha512" then 128
    else 0
  }

  predicate KnownAlgorithm(alg: string) {
    alg == "sha256" || alg == "sha384" || alg == "sha512"
  }

  /** The registered names all have six letters, so the colon is at index 6. */
  function Algorithm(d: Digest): string {
    if |d| >= 7 then d[..6] else ""
  }

  function Encoded(d: Digest): string {
    if |d| >= 7 then d[7..] else ""
  }

  predicate Canonical(d: Digest) {
    && |d| >= 7
    && d[6] == ':'
    && KnownAlgorithm(Algorithm(d))
    && |Encoded(d)| == HexLength(Algorithm(d))
  }

  /** A hash function: algorithm name and content to encoded hash. */
  type HashFn = (string, Bytes) -> string

  ghost predicate LawfulHash(h: HashFn) {
    forall alg, data :: KnownAlgorithm(alg) ==> |h(alg, data)| == HexLength(alg)
  }

  function DigestOf(h: HashFn, alg: string, data: Bytes): Digest {
    alg + ":" + h(alg, data)
  }

  /** Whether data is what digest d names: the check every consumer makes. */
  predicate Matches(h: HashFn, d: Digest, data: Bytes) {
    KnownAlgorithm(Algorithm(d)) && DigestOf(h, Algorithm(d), data) == d
  }

  /** Only canonical digests can ever match content. */
  lemma MatchIsCanonical(h: HashFn, d: Digest, data: Bytes)
    requires LawfulHash(h) && Matches(h, d, data)
    ensures Canonical(d)
  {
    var alg := Algorithm(d);
    assert d == alg + ":" + h(alg, data);
    assert d[7..] == h(alg, data);
  }

  /** What a canonical digest looks like: 71, 103 or 135 letters, by its algorithm. */
  lemma CanonicalMeans(d: Digest)
    ensures Canonical(d) <==>
      || (|d| == 71 && d[..7] == "sha256:")
      || (|d| == 103 && d[..7] == "sha384:")
      || (|d| == 135 && d[..7] == "sha512:")
  {
    if |d| >= 7 {
      assert d[..7] == d[..6] + [d[6]];
      assert "sha256:"[..6] == "sha256" && "sha384:"[..6] == "sha384" && "sha512:"[..6] == "sha512";
      assert "sha256:" == "sha256" + ":" && "sha384:" == "sha384" + ":" && "sha512:" == "sha512" + ":";
    }
  }

  /** Content matches a digest exactly when one of the three algorithms names it so. */
  lemma MatchMeans(h: HashFn, d: Digest, data: Bytes)
    ensures Matches(h, d, data) <==>
      d == "sha256:" + h("sha256", data) || d == "sha384:" + h("sha384", data) || d == "sha512:" + h("sha512", data)
  {
    assert "sha256:" == "sha256" + ":" && "sha384:" == "sha384" + ":" && "sha512:" == "sha512" + ":";
    forall alg | alg in {"sha256", "sha384", "sha512"} && d == alg + ":" + h(alg, data) ensures Algorithm(d) == alg {
      assert d[..6] == alg;
    }
  }

  /** File names use only the encoded half, and that half still identifies a canonical digest. */
  lemma EncodedInjective(d: Digest, e: Digest)
    requires Canonical(d) && Canonical(e)
    requires Encoded(d) == Encoded(e)
    ensures d == e
  {
    assert d == Algorithm(d) + [':'] + Encoded(d);
    assert e == Algorithm(e) + [':'] + Encoded(e);
  }

  // ---- Lexicographic order on strings, the order of Go's < on digests ----

  predicate LexLess(a: string, b: string)
    decreases |a|
  {
    if |b| == 0 then false
    else if |a| == 0 then true
    else a[0] < b[0] || (a[0] == b[0] && LexLess(a[1..], b[1..]))
  }

  lemma {:induction false} LexTrichotomy(a: string, b: string)
    ensures a == b ==> !LexLess(a, b) && !LexLess(b, a)
    ensures a != b ==> LexLess(a, b) != LexLess(b, a)
    decreases |a|
  {
    if |a| > 0 && |b| > 0 {
      LexTrichotomy(a[1..], b[1..]);
      assert a == [a[0]] + a[1..] && b == [b[0]] + b[1..];
    }
  }

  lemma {:induction false} LexTransitive(a: string, b: string, c: string)
    requires LexLess(a, b) && LexLess(b, c)
    ensures LexLess(a, c)
    decreases |a|
  {
    if |a| > 0 && a[0] == b[0] == c[0] {
      LexTransitive(a[1..], b[1..], c[1..]);
    }
  }

  /** Where two strings differ: b goes on after a, or at the first difference a has the smaller letter. */
  lemma {:induction false} LexExact(a: string, b: string)
    ensures LexLess(a, b) <==> (a < b || exists k :: 0 <= k < |a| && k < |b| && a[..k] == b[..k] && a[k] < b[k])
    decreases |a|
  {
    if |a| > 0 && |b| > 0 && a[0] == b[0] {
      LexExact(a[1..], b[1..]);
      if k :| 0 <= k < |a[1..]| && k < |b[1..]| && a[1..][..k] == b[1..][..k] && a[1..][k] < b[1..][k] {
        assert a[..k + 1] == [a[0]] + a[1..][..k] && b[..k + 1] == [b[0]] + b[1..][..k];
        assert a[k + 1] < b[k + 1];
      }
      if k :| 0 <= k < |a| && k < |b| && a[..k] == b[..k] && a[k] < b[k] {
        assert a[1..][..k - 1] == a[..k][1..] && b[1..][..k - 1] == b[..k][1..];
        assert a[1..][k - 1] < b[1..][k - 1];
      }
    } else if |a| > 0 && |b| > 0 {
      assert a[..0] == b[..0];
      forall k | 0 < k < |a| && k < |b| ensures a[..k] != b[..k] { assert a[..k][0] != b[..k][0]; }
    }
  }

  /** 2 to the n. */
  function Pow2(n: nat): (p: nat)
    ensures p > 0
  {
    if n == 0 then 1 else 2 * Pow2(n - 1)
  }

  // ---- Finite sums over sequences ----

  function Total<T(!new)>(xs: seq<T>, w: T -> int): int {
    if |xs| == 0 then 0 else w(xs[0]) + Total(xs[1..], w)
  }

  lemma {:induction false} TotalUpdate<T(!new)>(xs: seq<T>, i: nat, x: T, w: T -> int)
    requires i < |xs|
    ensures Total(xs[i := x], w) == Total(xs, w) - w(xs[i]) + w(x)
    decreases |xs|
  {
    var ys := xs[i := x];
    if i == 0 {
      assert ys[1..] == xs[1..];
    } else {
      assert ys[1..] == xs[1..][i - 1 := x];
      TotalUpdate(xs[1..], i - 1, x, w);
    }
  }

  lemma {:induction false} TotalAppend<T(!new)>(xs: seq<T>, x: T, w: T -> int)
    ensures Total(xs + [x], w) == Total(xs, w) + w(x)
    decreases |xs|
  {
    if |xs| == 0 {
      assert xs + [x] == [x];
    } else {
      assert (xs + [x])[1..] == xs[1..] + [x];
      TotalAppend(xs[1..], x, w);
    }
  }

  /** Pointwise-smaller weights have a smaller sum. */
  lemma {:induction false} TotalMonotone<T(!new)>(xs: seq<T>, v: T -> int, w: T -> int)
    requires forall i :: 0 <= i < |xs| ==> v(xs[i]) <= w(xs[i])
    ensures Total(xs, v) <= Total(xs, w)
    decreases |xs|
  {
    if |xs| > 0 {
      assert forall i :: 0 <= i < |xs[1..]| ==> xs[1..][i] == xs[i + 1];
      TotalMonotone(xs[1..], v, w);
    }
  }

  lemma {:induction false} TotalZero<T(!new)>(xs: seq<T>, w: T -> int)
    requires forall i :: 0 <= i < |xs| ==> w(xs[i]) == 0
    ensures Total(xs, w) == 0
    decreases |xs|
  {
    if |xs| > 0 {
      assert forall i :: 0 <= i < |xs[1..]| ==> xs[1..][i] == xs[i + 1];
      TotalZero(xs[1..], w);
    }
  }

  /** Any one element is at most the sum of non-negative weights. */
  lemma {:induction false} TotalAtLeast<T(!new)>(xs: seq<T>, k: nat, w: T -> int)
    requires k < |xs|
    requires forall i :: 0 <= i < |xs| ==> 0 <= w(xs[i])
    ensures w(xs[k]) <= Total(xs, w)
    decreases |xs|
  {
    assert forall i :: 0 <= i < |xs[1..]| ==> xs[1..][i] == xs[i + 1];
    TotalNonNegative(xs[1..], w);
    if k > 0 {
      TotalAtLeast(xs[1..], k - 1, w);
    }
  }

  lemma {:induction false} TotalNonNegative<T(!new)>(xs: seq<T>, w: T -> int)
    requires forall i :: 0 <= i < |xs| ==> 0 <= w(xs[i])
    ensures 0 <= Total(xs, w)
    decreases |xs|
  {
    if |xs| > 0 {
      assert forall i :: 0 <= i < |xs[1..]| ==> xs[1..][i] == xs[i + 1];
      TotalNonNegative(xs[1..], w);
    }
  }

  // ---- Counting ----

  function Below(n: nat): (r: set<nat>)
    ensures forall i: nat :: i in r <==> i < n
    ensures |r| == n
  {
    if n == 0 then {} else Below(n - 1) + {n - 1}
  }

  predicate NoRepeats<T(==)>(xs: seq<T>) {
    forall p, q :: 0 <= p < q < |xs| ==> xs[p] != xs[q]
  }

  function Elements<T>(xs: seq<T>): set<T> {
    set x | x in xs
  }

  lemma ElementsAppend<T>(xs: seq<T>, x: T)
    ensures Elements(xs + [x]) == Elements(xs) + {x}
    ensures NoRepeats(xs) && x !in Elements(xs) ==> NoRepeats(xs + [x])
  {
    var ys := xs + [x];
    assert forall i :: 0 <= i < |xs| ==> ys[i] == xs[i] && xs[i] in Elements(xs);
    assert ys[|xs|] == x;
    forall y ensures y in Elements(ys) <==> y in Elements(xs) + {x} {
      if y in Elements(xs) { assert y in ys; }
    }
  }

  /** A set's elements in some order, as iterating over a map yields its keys. */
  method SetSlice<T(==)>(s: set<T>) returns (out: seq<T>)
    ensures NoRepeats(out) && Elements(out) == s
  {
    out := [];
    var todo := s;
    while todo != {}
      invariant todo <= s && NoRepeats(out) && Elements(out) == s - todo
      decreases |todo|
    {
      var x :| x in todo;
      ElementsAppend(out, x);
      out, todo := out + [x], todo - {x};
    }
  }

  lemma {:induction false} NoRepeatsSize<T>(xs: seq<T>)
    requires NoRepeats(xs)
    ensures |Elements(xs)| == |xs|
    decreases |xs|
  {
    if |xs| > 0 {
      var front, last := xs[..|xs| - 1], xs[|xs| - 1];
      NoRepeatsSize(front);
      assert xs == front + [last];
      assert Elements(xs) == Elements(front) + {last};
    }
  }

  lemma {:induction false} CountOnce<T>(xs: seq<T>, e: T)
    requires NoRepeats(xs)
    ensures multiset(xs)[e] == if e in xs then 1 else 0
    decreases |xs|
  {
    if |xs| > 0 {
      CountOnce(xs[..|xs| - 1], e);
      assert xs == xs[..|xs| - 1] + [xs[|xs| - 1]];
    }
  }

  lemma RepeatCountsTwice<T>(xs: seq<T>, p: nat, q: nat)
    requires p < q < |xs| && xs[p] == xs[q]
    ensures multiset(xs)[xs[p]] >= 2
  {
    var rest := xs[p + 1..];
    assert rest[q - p - 1] == xs[q] && xs[q] in multiset(rest);
    assert xs == xs[..p] + [xs[p]] + rest;
  }

  /** A permutation of a duplicate-free list is duplicate-free. */
  lemma SameCounts<T>(xs: seq<T>, ys: seq<T>)
    requires multiset(xs) == multiset(ys) && NoRepeats(ys)
    ensures NoRepeats(xs)
  {
    forall p, q | 0 <= p < q < |xs| ensures xs[p] != xs[q] {
      CountOnce(ys, xs[p]);
      if xs[p] == xs[q] { RepeatCountsTwice(xs, p, q); }
    }
  }

  /** A duplicate-free list of exactly the numbers below n has length n. */
  lemma DistinctIndices(log: seq<nat>, n: nat)
    requires NoRepeats(log)
    requires forall i: nat :: i in log <==> i < n
    ensures |log| == n
  {
    assert Elements(log) == Below(n);
    NoRepeatsSize(log);
  }
}
