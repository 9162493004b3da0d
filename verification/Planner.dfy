/**
 * Per-layer encoding decisions: which baselines to try (PickTopK) and which of the
 * tried encodings to keep (PlanShippedTopK), with the spill files they leave behind.
 */
module Planner {
  import opened Common
  import opened Diff
  import opened Fingerprint
  import opened Sorting
  import opened Workdir
  import Budget

  datatype Meta = Meta(digest: Digest, size: int, mediaType: string)
  datatype Scored = Scored(meta: Meta, score: int)

  function AbsDelta(a: int, b: int): int { if a > b then a - b else b - a }

  /** Score descending, then size-closeness, then digest. */
  predicate Better(a: Scored, b: Scored, targetSize: int) {
    if a.score != b.score then a.score > b.score
    else if AbsDelta(a.meta.size, targetSize) != AbsDelta(b.meta.size, targetSize) then
      AbsDelta(a.meta.size, targetSize) < AbsDelta(b.meta.size, targetSize)
    else LexLess(a.meta.digest, b.meta.digest)
  }

  function Ranking(targetSize: int): (Scored, Scored) -> bool {
    (a: Scored, b: Scored) => Better(a, b, targetSize)
  }

  function ByDigest(): (Meta, Meta) -> bool {
    (a: Meta, b: Meta) => LexLess(a.digest, b.digest)
  }

  lemma LexWeak(a: string, b: string, c: string)
    ensures LexLess(a, b) ==> !LexLess(b, a)
    ensures LexLess(a, c) ==> LexLess(a, b) || LexLess(b, c)
  {
    LexTrichotomy(a, b);
    LexTrichotomy(b, c);
    if LexLess(a, c) && !LexLess(a, b) && a != b {
      LexTransitive(b, a, c);
    }
  }

  lemma RankingIsStrictWeak(targetSize: int)
    ensures StrictWeak(Ranking(targetSize))
  {
    forall x, y, z
      ensures Ranking(targetSize)(x, y) ==> !Ranking(targetSize)(y, x)
      ensures Ranking(targetSize)(x, z) ==> Ranking(targetSize)(x, y) || Ranking(targetSize)(y, z)
    {
      LexWeak(x.meta.digest, y.meta.digest, z.meta.digest);
    }
  }

  /** Equal digests describe the same layer. */
  predicate Uniform(ms: seq<Meta>) {
    forall a, b :: a in ms && b in ms && a.digest == b.digest ==> a == b
  }

  ghost function Scorer(prints: map<Digest, Option<Print>>, targetFP: Option<Print>): Meta -> Scored {
    (m: Meta) => Scored(m, Overlap(targetFP, Lookup(prints, m.digest)))
  }

  /** Each baseline with its overlap; a missing target fingerprint scores everything 0. */
  ghost function Candidates(ms: seq<Meta>, prints: map<Digest, Option<Print>>, targetFP: Option<Print>): seq<Scored> {
    Mapped(ms, Scorer(prints, targetFP))
  }

  /** Go's map read: absent and failed fingerprints are both nil. */
  function Lookup(prints: map<Digest, Option<Print>>, d: Digest): Option<Print> {
    if d in prints then prints[d] else None
  }

  function Unscored(ss: seq<Scored>): seq<Meta> {
    Mapped(ss, (x: Scored) => x.meta)
  }

  function Take<T>(xs: seq<T>, k: int): seq<T> {
    if k <= 0 then [] else if k >= |xs| then xs else xs[..k]
  }

  ghost function Ranked(ms: seq<Meta>, prints: map<Digest, Option<Print>>, targetFP: Option<Print>, targetSize: int): seq<Scored> {
    Sort(Candidates(ms, prints, targetFP), Ranking(targetSize))
  }

  ghost function TopK(ms: seq<Meta>, prints: map<Digest, Option<Print>>, targetFP: Option<Print>, targetSize: int, k: int): seq<Meta> {
    Take(Unscored(Ranked(ms, prints, targetFP, targetSize)), k)
  }

  /** Different baselines never tie when equal digests describe the same layer. */
  lemma UniformSeparates(ms: seq<Meta>, prints: map<Digest, Option<Print>>, targetFP: Option<Print>, targetSize: int)
    requires Uniform(ms)
    ensures Separated(ms, prints, targetFP, targetSize)
  {
    forall a, b | a in ms && b in ms && a != b ensures Ranking(targetSize)(Scorer(prints, targetFP)(a), Scorer(prints, targetFP)(b))
      || Ranking(targetSize)(Scorer(prints, targetFP)(b), Scorer(prints, targetFP)(a))
    {
      LexTrichotomy(a.digest, b.digest);
    }
  }

  /** The choice depends on which baselines there are, not on the order the manifest lists them. */
  lemma TopKIgnoresOrder(ms: seq<Meta>, ns: seq<Meta>, prints: map<Digest, Option<Print>>, targetFP: Option<Print>, targetSize: int, k: int)
    requires multiset(ms) == multiset(ns) && Uniform(ms)
    ensures TopK(ms, prints, targetFP, targetSize, k) == TopK(ns, prints, targetFP, targetSize, k)
  {
    UniformSeparates(ms, prints, targetFP, targetSize);
    SeparatedIgnoresOrder(ms, ns, prints, targetFP, targetSize);
  }

  /** The choice from ms depends on which baselines there are alone. */
  ghost predicate OrderFree(ms: seq<Meta>, prints: map<Digest, Option<Print>>, targetFP: Option<Print>, targetSize: int) {
    forall ns: seq<Meta>, k: int :: multiset(ns) == multiset(ms) ==>
      TopK(ns, prints, targetFP, targetSize, k) == TopK(ms, prints, targetFP, targetSize, k)
  }

  /** No two different baselines of ms tie in score, size distance and digest. */
  ghost predicate Separated(ms: seq<Meta>, prints: map<Digest, Option<Print>>, targetFP: Option<Print>, targetSize: int) {
    forall a, b :: a in ms && b in ms && a != b ==>
      !Tied(Scorer(prints, targetFP)(a), Scorer(prints, targetFP)(b), Ranking(targetSize))
  }

  lemma RankedAreScored(ms: seq<Meta>, prints: map<Digest, Option<Print>>, targetFP: Option<Print>, targetSize: int, i: nat)
    requires i < |Ranked(ms, prints, targetFP, targetSize)|
    ensures Ranked(ms, prints, targetFP, targetSize)[i] == Scorer(prints, targetFP)(Ranked(ms, prints, targetFP, targetSize)[i].meta)
  {
    var ranked, cands := Ranked(ms, prints, targetFP, targetSize), Candidates(ms, prints, targetFP);
    RankedIsSorted(ms, prints, targetFP, targetSize);
    assert ranked[i] in multiset(cands);
    var j :| 0 <= j < |cands| && cands[j] == ranked[i];
  }

  /** The whole choice determines the whole ranking. */
  lemma ChoiceIsRanking(xs: seq<Meta>, ys: seq<Meta>, prints: map<Digest, Option<Print>>, targetFP: Option<Print>, targetSize: int)
    requires |xs| == |ys| && TopK(xs, prints, targetFP, targetSize, |xs|) == TopK(ys, prints, targetFP, targetSize, |xs|)
    ensures Ranked(xs, prints, targetFP, targetSize) == Ranked(ys, prints, targetFP, targetSize)
  {
    var r, s := Ranked(xs, prints, targetFP, targetSize), Ranked(ys, prints, targetFP, targetSize);
    SortPermutes(Candidates(xs, prints, targetFP), Ranking(targetSize));
    SortPermutes(Candidates(ys, prints, targetFP), Ranking(targetSize));
    assert Unscored(r) == Unscored(s);
    forall i | 0 <= i < |r| ensures r[i] == s[i] {
      assert Unscored(r)[i] == Unscored(s)[i];
      RankedAreScored(xs, prints, targetFP, targetSize, i);
      RankedAreScored(ys, prints, targetFP, targetSize, i);
    }
  }

  /** Of two baselines that tie, the one listed first is ranked first. */
  lemma TieShows(a: Meta, b: Meta, rest: seq<Meta>, prints: map<Digest, Option<Print>>, targetFP: Option<Print>, targetSize: int)
    requires a != b && Tied(Scorer(prints, targetFP)(a), Scorer(prints, targetFP)(b), Ranking(targetSize))
    ensures Ranked([a, b] + rest, prints, targetFP, targetSize) != Ranked([b, a] + rest, prints, targetFP, targetSize)
  {
    var x := Scorer(prints, targetFP)(a);
    assert [a, b] + rest == [a] + ([b] + rest) && [b, a] + rest == [b] + ([a] + rest);
    LexTrichotomy(a.digest, a.digest);
    StartsWith(a, [b] + rest, prints, targetFP, targetSize, x);
    StartsWith(b, [a] + rest, prints, targetFP, targetSize, x);
  }

  lemma StartsWith(m: Meta, rest: seq<Meta>, prints: map<Digest, Option<Print>>, targetFP: Option<Print>, targetSize: int, y: Scored)
    requires Tied(Scorer(prints, targetFP)(m), y, Ranking(targetSize))
    ensures var ties := Ties(Ranked([m] + rest, prints, targetFP, targetSize), y, Ranking(targetSize));
      |ties| > 0 && ties[0] == Scorer(prints, targetFP)(m)
  {
    RankingIsStrictWeak(targetSize);
    SortIsStable(Candidates([m] + rest, prints, targetFP), y, Ranking(targetSize));
    assert Candidates([m] + rest, prints, targetFP) == [Scorer(prints, targetFP)(m)] + Candidates(rest, prints, targetFP);
    TiesFirst(Scorer(prints, targetFP)(m), Candidates(rest, prints, targetFP), y, Ranking(targetSize));
  }

  lemma TwoUpFront(ms: seq<Meta>, a: Meta, b: Meta) returns (rest: seq<Meta>)
    requires a in ms && b in ms && a != b
    ensures multiset([a, b] + rest) == multiset(ms) && multiset([b, a] + rest) == multiset(ms)
  {
    var others := TakeOut(ms, a);
    rest := TakeOut(others, b);
    assert multiset([a, b] + rest) == multiset{a} + multiset{b} + multiset(rest);
    assert multiset([b, a] + rest) == multiset{b} + multiset{a} + multiset(rest);
  }

  /** Exactly when the choice does not depend on the order the manifest lists the baselines in. */
  lemma OrderFreeIff(ms: seq<Meta>, prints: map<Digest, Option<Print>>, targetFP: Option<Print>, targetSize: int)
    ensures OrderFree(ms, prints, targetFP, targetSize) <==> Separated(ms, prints, targetFP, targetSize)
  {
    if Separated(ms, prints, targetFP, targetSize) {
      forall ns: seq<Meta>, k: int | multiset(ns) == multiset(ms)
        ensures TopK(ns, prints, targetFP, targetSize, k) == TopK(ms, prints, targetFP, targetSize, k)
      {
        SeparatedIgnoresOrder(ms, ns, prints, targetFP, targetSize);
      }
    } else {
      var a, b :| a in ms && b in ms && a != b && Tied(Scorer(prints, targetFP)(a), Scorer(prints, targetFP)(b), Ranking(targetSize));
      TieNotFree(ms, a, b, prints, targetFP, targetSize);
    }
  }

  lemma TieNotFree(ms: seq<Meta>, a: Meta, b: Meta, prints: map<Digest, Option<Print>>, targetFP: Option<Print>, targetSize: int)
    requires a in ms && b in ms && a != b && Tied(Scorer(prints, targetFP)(a), Scorer(prints, targetFP)(b), Ranking(targetSize))
    ensures !OrderFree(ms, prints, targetFP, targetSize)
  {
    var rest := TwoUpFront(ms, a, b);
    TieShows(a, b, rest, prints, targetFP, targetSize);
    ChoicesDiffer([a, b] + rest, [b, a] + rest, prints, targetFP, targetSize);
    NotFree(ms, [a, b] + rest, [b, a] + rest, prints, targetFP, targetSize, |[a, b] + rest|);
  }

  lemma NotFree(ms: seq<Meta>, xs: seq<Meta>, ys: seq<Meta>, prints: map<Digest, Option<Print>>, targetFP: Option<Print>,
      targetSize: int, k: int)
    requires multiset(xs) == multiset(ms) && multiset(ys) == multiset(ms)
    requires TopK(xs, prints, targetFP, targetSize, k) != TopK(ys, prints, targetFP, targetSize, k)
    ensures !OrderFree(ms, prints, targetFP, targetSize)
  {
  }

  lemma ChoicesDiffer(xs: seq<Meta>, ys: seq<Meta>, prints: map<Digest, Option<Print>>, targetFP: Option<Print>, targetSize: int)
    requires |xs| == |ys| && Ranked(xs, prints, targetFP, targetSize) != Ranked(ys, prints, targetFP, targetSize)
    ensures TopK(xs, prints, targetFP, targetSize, |xs|) != TopK(ys, prints, targetFP, targetSize, |xs|)
  {
    if TopK(xs, prints, targetFP, targetSize, |xs|) == TopK(ys, prints, targetFP, targetSize, |xs|) {
      ChoiceIsRanking(xs, ys, prints, targetFP, targetSize);
    }
  }

  lemma SeparatedIgnoresOrder(ms: seq<Meta>, ns: seq<Meta>, prints: map<Digest, Option<Print>>, targetFP: Option<Print>, targetSize: int)
    requires multiset(ms) == multiset(ns) && Separated(ms, prints, targetFP, targetSize)
    ensures Ranked(ms, prints, targetFP, targetSize) == Ranked(ns, prints, targetFP, targetSize)
  {
    var cm := Candidates(ms, prints, targetFP);
    forall x, y | x in cm && y in cm && x != y ensures Ranking(targetSize)(x, y) || Ranking(targetSize)(y, x) {
      var i :| 0 <= i < |cm| && cm[i] == x;
      var j :| 0 <= j < |cm| && cm[j] == y;
      assert ms[i] in ms && ms[j] in ms && ms[i] != ms[j];
      assert !Tied(x, y, Ranking(targetSize));
    }
    MappedPermute(ms, ns, Scorer(prints, targetFP));
    RankingIsStrictWeak(targetSize);
    SortIgnoresOrder(cm, Candidates(ns, prints, targetFP), Ranking(targetSize));
  }

  lemma TieKeepsFirst(a: Meta, b: Meta, prints: map<Digest, Option<Print>>, targetFP: Option<Print>, targetSize: int)
    requires a.digest == b.digest && AbsDelta(a.size, targetSize) == AbsDelta(b.size, targetSize)
    ensures TopK([a, b], prints, targetFP, targetSize, 1) == [a]
  {
    var before := Ranking(targetSize);
    var cands := Candidates([a, b], prints, targetFP);
    var x, y := cands[0], cands[1];
    LexTrichotomy(a.digest, b.digest);
    assert !before(y, x);
    assert cands[..1] == [x] && [x][..0] == [];
    assert Sort([x], before) == [x];
    assert Sort(cands, before) == [x, y];
  }

  /** Repeats of one digest that differ only in media type, or lie equally far from the target's size, tie
      in every key, and then the manifest's order does show. */
  lemma TiesFollowListOrder(a: Meta, b: Meta, prints: map<Digest, Option<Print>>, targetFP: Option<Print>, targetSize: int)
    requires a.digest == b.digest && AbsDelta(a.size, targetSize) == AbsDelta(b.size, targetSize)
    ensures TopK([a, b], prints, targetFP, targetSize, 1) == TopK([b, a], prints, targetFP, targetSize, 1) <==> a == b
  {
    TieKeepsFirst(a, b, prints, targetFP, targetSize);
    TieKeepsFirst(b, a, prints, targetFP, targetSize);
  }

  /** A smaller k chooses a prefix of what a larger k chooses, min(k, n) long. */
  lemma TopKIsPrefix(ms: seq<Meta>, prints: map<Digest, Option<Print>>, targetFP: Option<Print>, targetSize: int, k: int, l: int)
    requires 0 <= k <= l
    ensures TopK(ms, prints, targetFP, targetSize, k) <= TopK(ms, prints, targetFP, targetSize, l)
    ensures |TopK(ms, prints, targetFP, targetSize, k)| == if k < |ms| then k else |ms|
  {
    SortPermutes(Candidates(ms, prints, targetFP), Ranking(targetSize));
  }

  lemma RankedIsSorted(ms: seq<Meta>, prints: map<Digest, Option<Print>>, targetFP: Option<Print>, targetSize: int)
    ensures Sorted(Ranked(ms, prints, targetFP, targetSize), Ranking(targetSize))
    ensures multiset(Ranked(ms, prints, targetFP, targetSize)) == multiset(Candidates(ms, prints, targetFP))
  {
    RankingIsStrictWeak(targetSize);
    SortSorted(Candidates(ms, prints, targetFP), Ranking(targetSize));
    SortPermutes(Candidates(ms, prints, targetFP), Ranking(targetSize));
  }

  /** How many bytes of the target baseline m is known to hold. */
  ghost function SharedBytes(m: Meta, prints: map<Digest, Option<Print>>, targetFP: Option<Print>): int {
    Overlap(targetFP, if m.digest in prints then prints[m.digest] else None)
  }

  /** The ranking in numbers: the more shared bytes the earlier; among equals the nearer in size; among those the
      smaller digest. */
  predicate InOrder(a: Meta, b: Meta, sharedA: int, sharedB: int, targetSize: int) {
    var da := if a.size >= targetSize then a.size - targetSize else targetSize - a.size;
    var db := if b.size >= targetSize then b.size - targetSize else targetSize - b.size;
    sharedA > sharedB || (sharedA == sharedB && (da < db || (da == db && !LexLess(b.digest, a.digest))))
  }

  lemma RankedInOrder(ms: seq<Meta>, prints: map<Digest, Option<Print>>, targetFP: Option<Print>, targetSize: int, i: nat, j: nat)
    requires i < j < |Ranked(ms, prints, targetFP, targetSize)|
    ensures var a := Ranked(ms, prints, targetFP, targetSize)[i].meta; var b := Ranked(ms, prints, targetFP, targetSize)[j].meta;
      InOrder(a, b, SharedBytes(a, prints, targetFP), SharedBytes(b, prints, targetFP), targetSize)
  {
    RankedIsSorted(ms, prints, targetFP, targetSize);
    RankedAreScored(ms, prints, targetFP, targetSize, i);
    RankedAreScored(ms, prints, targetFP, targetSize, j);
    var ranked := Ranked(ms, prints, targetFP, targetSize);
    assert !Ranking(targetSize)(ranked[j], ranked[i]);
    LexTrichotomy(ranked[i].meta.digest, ranked[j].meta.digest);
  }

  /** What the choice leaves out is nowhere before what it takes. */
  lemma LeftOutComesLater(ms: seq<Meta>, prints: map<Digest, Option<Print>>, targetFP: Option<Print>, targetSize: int, k: int, taken: Meta, left: Meta)
    requires taken in TopK(ms, prints, targetFP, targetSize, k)
    requires left in multiset(ms) - multiset(TopK(ms, prints, targetFP, targetSize, k))
    ensures InOrder(taken, left, SharedBytes(taken, prints, targetFP), SharedBytes(left, prints, targetFP), targetSize)
    ensures SharedBytes(taken, prints, targetFP) >= SharedBytes(left, prints, targetFP)
  {
    var top, metas := TopK(ms, prints, targetFP, targetSize, k), Unscored(Ranked(ms, prints, targetFP, targetSize));
    RankedPermutes(ms, prints, targetFP, targetSize);
    var i, j := HeadAndTail(metas, top, taken, left);
    RankedInOrder(ms, prints, targetFP, targetSize, i, j);
  }

  lemma HeadAndTail(all: seq<Meta>, head: seq<Meta>, taken: Meta, left: Meta) returns (i: nat, j: nat)
    requires head <= all && taken in head && left in multiset(all) - multiset(head)
    ensures i < j < |all| && all[i] == taken && all[j] == left
  {
    var n := |head|;
    assert all == head + all[n..];
    assert multiset(all) == multiset(head) + multiset(all[n..]);
    assert left in multiset(all[n..]);
    var m :| 0 <= m < |all[n..]| && all[n..][m] == left;
    i :| 0 <= i < n && head[i] == taken;
    j := n + m;
  }

  lemma RankedPermutes(ms: seq<Meta>, prints: map<Digest, Option<Print>>, targetFP: Option<Print>, targetSize: int)
    ensures multiset(Unscored(Ranked(ms, prints, targetFP, targetSize))) == multiset(ms)
  {
    var cands := Candidates(ms, prints, targetFP);
    RankedIsSorted(ms, prints, targetFP, targetSize);
    MappedPermute(Ranked(ms, prints, targetFP, targetSize), cands, (x: Scored) => x.meta);
    assert Unscored(cands) == ms;
  }

  /** The chosen baselines are the head of the whole ranking: nothing left out beats anything chosen. */
  lemma TopKIsBest(ms: seq<Meta>, prints: map<Digest, Option<Print>>, targetFP: Option<Print>, targetSize: int, k: int, i: nat, j: nat)
    requires i < |TopK(ms, prints, targetFP, targetSize, k)| <= j < |ms|
    ensures |Ranked(ms, prints, targetFP, targetSize)| == |ms|
    ensures TopK(ms, prints, targetFP, targetSize, k)[i] == Ranked(ms, prints, targetFP, targetSize)[i].meta
    ensures !Better(Ranked(ms, prints, targetFP, targetSize)[j], Ranked(ms, prints, targetFP, targetSize)[i], targetSize)
  {
    RankedIsSorted(ms, prints, targetFP, targetSize);
    var ranked := Ranked(ms, prints, targetFP, targetSize);
    assert |multiset(ranked)| == |ranked| && |multiset(Candidates(ms, prints, targetFP))| == |ms|;
    assert !Ranking(targetSize)(ranked[j], ranked[i]);
  }

  // ---- Trying the candidates ----

  /** The delta codec: encode (reference, target, window log), the size of a plain
      compressed target, and decode (reference, patch). */
  datatype Codec = Codec(
    encode: (Bytes, Bytes, int) -> Option<Bytes>,
    fullSize: (Bytes, int) -> Option<int>,
    decode: (Bytes, Bytes) -> Option<Bytes>)

  /** Decoding undoes encoding and no frame is empty. */
  ghost predicate LawfulCodec(c: Codec) {
    forall r, t, w :: c.encode(r, t, w).Some? ==>
      |c.encode(r, t, w).value| > 0 && c.decode(r, c.encode(r, t, w).value) == Some(t)
  }

  /** What trying one candidate gives: its baseline was never fetched, the encoder failed, or a patch. */
  datatype Attempt = Unprimed | EncodeFailed | Made(patch: Bytes)

  /** One layer's search: spill name and attempt per candidate, the plain compressed size, the declared size. */
  datatype Search = Search(names: seq<Path>, attempts: seq<Attempt>, full: int, raw: int, files: Files)

  /** best is -1 while the raw target is still the winner. */
  datatype Scan = Scan(failed: bool, best: int, size: int, files: Files)

  predicate Shaped(p: Search) { |p.names| == |p.attempts| }

  /** One candidate's effect on the running best and on the spill files. */
  function ScanStep(p: Search, i: nat, prev: Scan): (r: Scan)
    requires Shaped(p) && i < |p.names| && -1 <= prev.best < i
    ensures -1 <= r.best <= i
  {
    match p.attempts[i]
    case Unprimed => prev.(failed := true)
    case EncodeFailed => prev.(failed := true, files := prev.files - {p.names[i]})
    case Made(patch) =>
      var written := prev.files[p.names[i] := patch];
      if |patch| < p.full && |patch| < p.raw && |patch| < prev.size then
        Scan(false, i, |patch|, if prev.best >= 0 then written - {p.names[prev.best]} else written)
      else
        prev.(files := written - {p.names[i]})
  }

  /** The state after the first i candidates; the first failure ends the search. */
  function ScanTo(p: Search, i: nat): (r: Scan)
    requires Shaped(p) && i <= |p.names|
    ensures -1 <= r.best < i
  {
    if i == 0 then Scan(false, -1, p.raw, p.files)
    else
      var prev := ScanTo(p, i - 1);
      if prev.failed then prev else ScanStep(p, i - 1, prev)
  }

  predicate AllMade(p: Search, i: nat) {
    i <= |p.attempts| && forall j :: 0 <= j < i ==> p.attempts[j].Made?
  }

  predicate Eligible(p: Search, j: nat)
    requires j < |p.attempts| && p.attempts[j].Made?
  {
    |p.attempts[j].patch| < p.full && |p.attempts[j].patch| < p.raw
  }

  /** The search fails exactly when some candidate could not be tried. */
  lemma {:induction false} ScanFailsIff(p: Search, i: nat)
    requires Shaped(p) && i <= |p.names|
    ensures ScanTo(p, i).failed <==> !AllMade(p, i)
    decreases i
  {
    if i > 0 { ScanFailsIff(p, i - 1); }
  }

  /** The winner is the first smallest patch strictly below the compressed and the raw size, if there is one. */
  lemma {:induction false} ScanIsArgmin(p: Search, i: nat)
    requires Shaped(p) && AllMade(p, i)
    ensures var r := ScanTo(p, i);
      && (r.best == -1 ==> r.size == p.raw && forall j :: 0 <= j < i ==> !Eligible(p, j))
      && (r.best >= 0 ==>
            && Eligible(p, r.best) && r.size == |p.attempts[r.best].patch|
            && (forall j :: 0 <= j < r.best ==> |p.attempts[j].patch| > r.size)
            && (forall j :: 0 <= j < i ==> |p.attempts[j].patch| >= r.size))
    decreases i
  {
    ScanFailsIff(p, i);
    if i > 0 {
      ScanFailsIff(p, i - 1);
      ScanIsArgmin(p, i - 1);
      var r, prev := ScanTo(p, i), ScanTo(p, i - 1);
      if r.best == i - 1 {
        forall j | 0 <= j < r.best ensures |p.attempts[j].patch| > r.size {
          if prev.best < 0 { assert !Eligible(p, j); }
        }
      }
    }
  }

  /** The winner's spill outlives the search iff nobody removes its name afterwards: not a later
      candidate's cleanup, and not the discarding of the winner it replaced. */
  predicate NameKept(p: Search, w: nat, i: nat)
    requires Shaped(p) && w < i <= |p.names|
  {
    && (ScanTo(p, w).best >= 0 ==> p.names[ScanTo(p, w).best] != p.names[w])
    && (forall j :: w < j < i ==> p.names[j] != p.names[w])
  }

  lemma {:induction false} WinnerSurvivesIff(p: Search, i: nat)
    requires Shaped(p) && AllMade(p, i) && ScanTo(p, i).best >= 0
    ensures var r := ScanTo(p, i); var w := r.best;
      && (p.names[w] in r.files <==> NameKept(p, w, i))
      && (p.names[w] in r.files ==> r.files[p.names[w]] == p.attempts[w].patch)
    decreases i
  {
    ScanFailsIff(p, i);
    ScanFailsIff(p, i - 1);
    var r, w := ScanTo(p, i), ScanTo(p, i).best;
    if w < i - 1 {
      WinnerSurvivesIff(p, i - 1);
      assert NameKept(p, w, i) <==> NameKept(p, w, i - 1) && p.names[i - 1] != p.names[w];
    }
  }

  predicate Named(p: Search, i: nat, q: Path)
    requires i <= |p.names|
  {
    exists j :: 0 <= j < i && p.names[j] == q
  }

  lemma {:induction false} DistinctNamesAt(p: Search, i: nat, q: Path)
    requires Shaped(p) && AllMade(p, i) && NoRepeats(p.names)
    ensures var r := ScanTo(p, i);
      if r.best >= 0 && q == p.names[r.best] then q in r.files && r.files[q] == p.attempts[r.best].patch
      else (q in r.files <==> q in p.files && !Named(p, i, q)) && (q in r.files ==> r.files[q] == p.files[q])
    decreases i
  {
    if i > 0 {
      ScanFailsIff(p, i - 1);
      DistinctNamesAt(p, i - 1, q);
      assert Named(p, i, q) <==> Named(p, i - 1, q) || q == p.names[i - 1];
    }
  }

  /** With distinct spill names the search leaves exactly the winner's spill and no other. */
  lemma DistinctNamesLeaveWinner(p: Search)
    requires Shaped(p) && AllMade(p, |p.names|) && NoRepeats(p.names)
    ensures var r := ScanTo(p, |p.names|);
      r.files == (p.files - Elements(p.names)) + (if r.best >= 0 then map[p.names[r.best] := p.attempts[r.best].patch] else map[])
  {
    var n := |p.names|;
    var r := ScanTo(p, n);
    var expected := (p.files - Elements(p.names)) + (if r.best >= 0 then map[p.names[r.best] := p.attempts[r.best].patch] else map[]);
    forall q ensures q in r.files <==> q in expected
      ensures q in r.files ==> r.files[q] == expected[q]
    {
      DistinctNamesAt(p, n, q);
      assert Named(p, n, q) <==> q in Elements(p.names);
    }
  }

  /** Only spill names of this search are ever written or removed, failed or not. */
  lemma {:induction false} ScanFrame(p: Search, i: nat, q: Path)
    requires Shaped(p) && i <= |p.names| && q !in p.names
    ensures q in ScanTo(p, i).files <==> q in p.files
    ensures q in p.files ==> ScanTo(p, i).files[q] == p.files[q]
    decreases i
  {
    if i > 0 {
      ScanFrame(p, i - 1, q);
      assert p.names[i - 1] in p.names;
      if ScanTo(p, i - 1).best >= 0 { assert p.names[ScanTo(p, i - 1).best] in p.names; }
    }
  }

  /** Why repeated baseline layers are a hazard: two candidates of the same baseline share a spill
      name, and whichever of them wins, its file is deleted. */
  lemma RepeatDeletesWinner(p: Search)
    requires Shaped(p) && |p.names| == 2 && AllMade(p, 2)
    requires p.names[0] == p.names[1] && Eligible(p, 0)
    ensures ScanTo(p, 2).best >= 0 && p.names[ScanTo(p, 2).best] !in ScanTo(p, 2).files
  {
    assert ScanTo(p, 1) == Scan(false, 0, |p.attempts[0].patch|, p.files[p.names[0] := p.attempts[0].patch]);
    WinnerSurvivesIff(p, 2);
  }

  ghost predicate WinnerKept(p: Search)
    requires Shaped(p)
  {
    var r := ScanTo(p, |p.names|);
    r.best >= 0 ==> p.names[r.best] in r.files
  }

  /** Every error-free search over these spill names keeps its winner's file. */
  ghost predicate NamesSafe(names: seq<Path>) {
    forall p: Search :: p.names == names && Shaped(p) && AllMade(p, |names|) ==> WinnerKept(p)
  }

  /** The first of the smallest patches wins; when its name comes again later, its file goes. */
  lemma SmallestLosesFile(p: Search, i: nat, j: nat)
    requires Shaped(p) && AllMade(p, |p.names|) && i < j < |p.names| && p.names[i] == p.names[j]
    requires Eligible(p, i) && (forall n :: 0 <= n < |p.names| ==> |p.attempts[n].patch| >= |p.attempts[i].patch|)
    requires forall n :: 0 <= n < i && |p.attempts[n].patch| == |p.attempts[i].patch| ==> p.names[n] == p.names[i]
    ensures !WinnerKept(p)
  {
    ScanIsArgmin(p, |p.names|);
    WinnerSurvivesIff(p, |p.names|);
  }

  /** A search in which candidate i alone has the smallest patch. */
  function SmallAt(names: seq<Path>, i: nat): (p: Search)
    ensures p.names == names && Shaped(p) && AllMade(p, |names|) && p.full == 3 && p.raw == 3
    ensures forall n :: 0 <= n < |names| ==> p.attempts[n].Made? && |p.attempts[n].patch| == if n == i then 1 else 2
  {
    Search(names, seq(|names|, n => if n == i then Made([0]) else Made([0, 0])), 3, 3, map[])
  }

  /** The names alone decide: the winner's file outlives every search over them exactly when none repeats. */
  lemma NamesSafeIff(names: seq<Path>)
    ensures NamesSafe(names) <==> NoRepeats(names)
  {
    if NoRepeats(names) {
      forall p: Search | p.names == names && Shaped(p) && AllMade(p, |names|) ensures WinnerKept(p) {
        DistinctNamesLeaveWinner(p);
      }
    } else {
      var i, j :| 0 <= i < j < |names| && names[i] == names[j];
      SmallestLosesFile(SmallAt(names, i), i, j);
      assert !WinnerKept(SmallAt(names, i));
    }
  }

  predicate Extends(p: Search, q: Search, i: nat) {
    && Shaped(p) && Shaped(q) && i <= |p.names| && i <= |q.names|
    && p.names[..i] == q.names[..i] && p.attempts[..i] == q.attempts[..i]
    && p.full == q.full && p.raw == q.raw && p.files == q.files
  }

  lemma {:induction false} ScanPrefix(p: Search, q: Search, i: nat)
    requires Extends(p, q, i)
    ensures ScanTo(p, i) == ScanTo(q, i)
    decreases i
  {
    if i > 0 {
      assert p.names[..i - 1] == p.names[..i][..i - 1] && q.names[..i - 1] == q.names[..i][..i - 1];
      assert p.attempts[..i - 1] == p.attempts[..i][..i - 1] && q.attempts[..i - 1] == q.attempts[..i][..i - 1];
      ScanPrefix(p, q, i - 1);
      assert p.names[i - 1] == p.names[..i][i - 1] && q.names[i - 1] == q.names[..i][i - 1];
      assert p.attempts[i - 1] == p.attempts[..i][i - 1] && q.attempts[i - 1] == q.attempts[..i][i - 1];
      var b := ScanTo(p, i - 1).best;
      if b >= 0 { assert p.names[b] == p.names[..i][b] && q.names[b] == q.names[..i][b]; }
    }
  }

  predicate SameAt(f: Files, g: Files, x: Path) {
    (x in f <==> x in g) && (x in f ==> f[x] == g[x])
  }

  /** Candidate n's patch is on the live disk f but not compared yet; the running best's file, unless the two share
      a name, is as in the search p from the start. */
  predicate Written(p: Search, n: nat, f: Files, patch: Bytes)
    requires Shaped(p) && n < |p.names|
  {
    var prev := ScanTo(p, n);
    && !prev.failed && p.attempts[n] == Made(patch) && p.names[n] in f && f[p.names[n]] == patch
    && (prev.best >= 0 && p.names[prev.best] != p.names[n] ==> SameAt(f, prev.files, p.names[prev.best]))
  }

  /** Comparing it with the running best and removing the loser comes out as in that search, whatever else has
      happened to the disk. */
  lemma LiveStep(p: Search, n: nat, f: Files, patch: Bytes)
    requires Shaped(p) && n < |p.names| && Written(p, n, f, patch)
    ensures var prev, r := ScanTo(p, n), ScanTo(p, n + 1);
      var wins := |patch| < p.full && |patch| < p.raw && |patch| < prev.size;
      var after := if !wins then f - {p.names[n]} else if prev.best >= 0 then f - {p.names[prev.best]} else f;
      && !r.failed && r.best == (if wins then n else prev.best) && r.size == (if wins then |patch| else prev.size)
      && (r.best >= 0 ==> SameAt(after, r.files, p.names[r.best]))
  {
  }

  /** Looking at more candidates never makes the kept size larger. */
  lemma {:induction false} ScanShrinks(p: Search, i: nat, j: nat)
    requires Shaped(p) && i <= j <= |p.names|
    ensures ScanTo(p, j).size <= ScanTo(p, i).size
    decreases j
  {
    if i < j { ScanShrinks(p, i, j - 1); }
  }

  // ---- Planning one layer ----

  const CODEC_TAG := "zstd-patch"

  /** Everything one pair's planner works with; paths lists the baselines that were fetched. */
  datatype Env = Env(
    baseline: seq<Meta>,
    prints: map<Digest, Option<Print>>,
    paths: map<Digest, Path>,
    printer: (string, Bytes) -> Option<Print>,
    codec: Codec,
    windowLog: int)

  datatype Outcome = PlanFailed | Planned(entry: BlobEntry, payload: Path)

  function FullEntry(s: BlobRef): BlobEntry { BlobEntry(s.size, s.mediaType, Full, "", "", s.size) }

  function PatchEntry(s: BlobRef, from: Digest, size: int): BlobEntry {
    BlobEntry(s.size, s.mediaType, Patch, CODEC_TAG, from, size)
  }

  function Prefix8(x: string): string { if |x| >= 8 then x[..8] else x }

  function SpillName(target: Digest, baseline: Digest): Path {
    SpillFile(Encoded(target), Prefix8(Encoded(baseline)))
  }

  function Try(e: Env, files: Files, target: Bytes, wl: int, d: Digest): Attempt {
    if d !in e.paths then Unprimed
    else if e.paths[d] !in files then EncodeFailed
    else
      match e.codec.encode(files[e.paths[d]], target, wl)
      case None => EncodeFailed
      case Some(patch) => Made(patch)
  }

  function SearchOf(e: Env, files: Files, s: BlobRef, target: Bytes, full: int, cands: seq<Meta>): (p: Search)
    ensures Shaped(p) && |p.names| == |cands|
  {
    var wl := Budget.ResolveWindowLog(e.windowLog, s.size);
    Search(Mapped(cands, (c: Meta) => SpillName(s.digest, c.digest)),
           Mapped(cands, (c: Meta) => Try(e, files, target, wl, c.digest)),
           full, s.size, files)
  }

  ghost function Chosen(e: Env, files: Files, s: BlobRef, target: Path, k: int): seq<Meta>
    requires target in files
  {
    TopK(e.baseline, e.prints, e.printer(s.mediaType, files[target]), s.size, k)
  }

  /** The candidates for a layer: min(k, n) of the pair's baselines, and none left out shares more bytes with the
      layer, or as many and is nearer to its size. */
  lemma ChosenAreNearest(e: Env, files: Files, s: BlobRef, target: Path, k: nat, taken: Meta, left: Meta)
    requires target in files && taken in Chosen(e, files, s, target, k)
    requires left in multiset(e.baseline) - multiset(Chosen(e, files, s, target, k))
    ensures var fp := e.printer(s.mediaType, files[target]);
      InOrder(taken, left, SharedBytes(taken, e.prints, fp), SharedBytes(left, e.prints, fp), s.size)
    ensures |Chosen(e, files, s, target, k)| == if k < |e.baseline| then k else |e.baseline|
  {
    var fp := e.printer(s.mediaType, files[target]);
    LeftOutComesLater(e.baseline, e.prints, fp, s.size, k, taken, left);
    TopKIsPrefix(e.baseline, e.prints, fp, s.size, k, k);
  }

  function FullSize(e: Env, s: BlobRef, target: Bytes): Option<int> {
    e.codec.fullSize(target, Budget.ResolveWindowLog(e.windowLog, s.size))
  }

  function SearchOutcome(s: BlobRef, target: Path, cands: seq<Meta>, p: Search): Outcome
    requires Shaped(p) && |p.names| == |cands|
  {
    var r := ScanTo(p, |cands|);
    if r.failed then PlanFailed
    else if r.best < 0 then Planned(FullEntry(s), target)
    else Planned(PatchEntry(s, cands[r.best].digest, r.size), p.names[r.best])
  }

  /** The outcome of PlanShippedTopK and the files it leaves. */
  ghost function PlanSpec(e: Env, files: Files, s: BlobRef, target: Path, k: int): (Outcome, Files) {
    if target !in files then (PlanFailed, files)
    else
      var cands := Chosen(e, files, s, target, k);
      if |cands| == 0 then (Planned(FullEntry(s), target), files)
      else
        match FullSize(e, s, files[target])
        case None => (PlanFailed, files)
        case Some(full) =>
          var p := SearchOf(e, files, s, files[target], full, cands);
          (SearchOutcome(s, target, cands, p), ScanTo(p, |cands|).files)
  }

  predicate Listed(ms: seq<Meta>, d: Digest) {
    exists m :: m in ms && m.digest == d
  }

  lemma RankedFrom(baseline: seq<Meta>, prints: map<Digest, Option<Print>>, fp: Option<Print>, ranked: seq<Scored>, i: nat)
    requires multiset(ranked) == multiset(Candidates(baseline, prints, fp)) && i < |ranked|
    ensures ranked[i].meta in baseline
  {
    var cands := Candidates(baseline, prints, fp);
    assert ranked[i] in multiset(cands);
    var j :| 0 <= j < |cands| && cands[j] == ranked[i];
    assert baseline[j] == ranked[i].meta;
  }

  lemma TopKMembers(ms: seq<Meta>, prints: map<Digest, Option<Print>>, fp: Option<Print>, size: int, k: int, i: nat)
    requires i < |TopK(ms, prints, fp, size, k)|
    ensures TopK(ms, prints, fp, size, k)[i] in ms
  {
    var ranked := Ranked(ms, prints, fp, size);
    RankedIsSorted(ms, prints, fp, size);
    assert TopK(ms, prints, fp, size, k)[i] == ranked[i].meta;
    RankedFrom(ms, prints, fp, ranked, i);
  }

  /** Every chosen candidate is one of the pair's baseline layers. */
  lemma ChosenAreBaselines(e: Env, files: Files, s: BlobRef, target: Path, k: int, i: nat)
    requires target in files && i < |Chosen(e, files, s, target, k)|
    ensures Chosen(e, files, s, target, k)[i] in e.baseline
  {
    TopKMembers(e.baseline, e.prints, e.printer(s.mediaType, files[target]), s.size, k, i);
  }

  /** What an outcome promises about its payload, given that the payload is still there. */
  ghost predicate OutcomeSound(e: Env, files: Files, s: BlobRef, target: Path, out: Outcome, after: Files) {
    out.Planned? ==>
      var full := out.entry == FullEntry(s) && out.payload == target && target in after && target in files && after[target] == files[target];
      var patched :=
        && out.entry == PatchEntry(s, out.entry.patchFrom, out.entry.archiveSize)
        && Listed(e.baseline, out.entry.patchFrom)
        && out.payload == SpillName(s.digest, out.entry.patchFrom)
        && out.entry.archiveSize < s.size
        && target in files && out.entry.patchFrom in e.paths && e.paths[out.entry.patchFrom] in files
        && (out.payload in after ==>
              && |after[out.payload]| == out.entry.archiveSize
              && e.codec.encode(files[e.paths[out.entry.patchFrom]], files[target], Budget.ResolveWindowLog(e.windowLog, s.size))
                   == Some(after[out.payload]));
      full || patched
  }

  /** Whatever is planned, it is this layer: its size and media type, and the codec's tag on a patch alone. */
  lemma PlanDescribesLayer(e: Env, files: Files, s: BlobRef, target: Path, k: int)
    ensures var out := PlanSpec(e, files, s, target, k).0; out.Planned? ==>
      && out.entry.size == s.size && out.entry.mediaType == s.mediaType
      && (out.entry.encoding == Full || out.entry.encoding == Patch)
      && (out.entry.encoding == Full ==> out.entry.codec == "" && out.entry.patchFrom == "" && out.entry.archiveSize == s.size)
      && (out.entry.encoding == Patch ==> out.entry.codec == "zstd-patch")
  {
  }

  /** The patch of a baseline, when it can be made. */
  predicate PatchOf(e: Env, files: Files, s: BlobRef, target: Bytes, d: Digest, patch: Bytes) {
    d in e.paths && e.paths[d] in files
    && e.codec.encode(files[e.paths[d]], target, Budget.ResolveWindowLog(e.windowLog, s.size)) == Some(patch)
  }

  /** Some candidate's patch cannot be had: it was not fetched, its file is gone, or the encoder fails on it. */
  predicate SomeUntriable(e: Env, files: Files, s: BlobRef, target: Bytes, cands: seq<Meta>) {
    exists i :: 0 <= i < |cands| && Untriable(e, files, s, target, cands[i].digest)
  }

  predicate Untriable(e: Env, files: Files, s: BlobRef, target: Bytes, d: Digest) {
    d !in e.paths || e.paths[d] !in files
    || e.codec.encode(files[e.paths[d]], target, Budget.ResolveWindowLog(e.windowLog, s.size)).None?
  }

  /** A plan fails exactly when the target is gone, or there are candidates and the plain size or one of their patches
      cannot be had. */
  lemma PlanFailsIff(e: Env, files: Files, s: BlobRef, target: Path, k: int)
    ensures PlanSpec(e, files, s, target, k).0.PlanFailed? <==>
      target in files ==>
        && |Chosen(e, files, s, target, k)| > 0
        && (e.codec.fullSize(files[target], Budget.ResolveWindowLog(e.windowLog, s.size)).None?
            || SomeUntriable(e, files, s, files[target], Chosen(e, files, s, target, k)))
  {
    if target !in files { return; }
    var cands, plain := Chosen(e, files, s, target, k), FullSize(e, s, files[target]);
    if |cands| > 0 && plain.Some? {
      var p := SearchOf(e, files, s, files[target], plain.value, cands);
      ScanFailsIff(p, |cands|);
      forall i | 0 <= i < |cands| ensures p.attempts[i].Made? <==> !Untriable(e, files, s, files[target], cands[i].digest) {
        assert p.attempts[i] == Try(e, files, files[target], Budget.ResolveWindowLog(e.windowLog, s.size), cands[i].digest);
      }
    }
  }

  /** Otherwise it takes a patch of the smallest size, strictly below the plain and the declared one, from the first
      candidate that has it; and when no candidate's patch is below both, the layer in full. */
  lemma PlanIsBest(e: Env, files: Files, s: BlobRef, target: Path, k: int)
    requires target in files && PlanSpec(e, files, s, target, k).0.Planned?
    ensures var out := PlanSpec(e, files, s, target, k).0; var cands := Chosen(e, files, s, target, k);
      var plain := e.codec.fullSize(files[target], Budget.ResolveWindowLog(e.windowLog, s.size));
      if out.entry.encoding == Patch then
        && plain.Some? && out.entry.archiveSize < plain.value && out.entry.archiveSize < s.size
        && FirstSmallest(e, files, s, files[target], cands, out.entry)
      else
        |cands| > 0 ==> plain.Some? && NoneBelow(e, files, s, files[target], cands, plain.value)
  {
    var cands, plain := Chosen(e, files, s, target, k), FullSize(e, s, files[target]);
    if |cands| > 0 && plain.Some? {
      var p := SearchOf(e, files, s, files[target], plain.value, cands);
      AttemptsArePatches(e, files, s, files[target], plain.value, cands);
      ScanFailsIff(p, |cands|);
      ScanIsArgmin(p, |cands|);
      BestIsFirst(e, files, s, files[target], cands, p);
      NoBestIsNoneBelow(e, files, s, files[target], cands, p);
    }
  }

  ghost predicate NoneBelow(e: Env, files: Files, s: BlobRef, target: Bytes, cands: seq<Meta>, plain: int) {
    forall i, patch :: 0 <= i < |cands| && PatchOf(e, files, s, target, cands[i].digest, patch) ==> |patch| >= plain || |patch| >= s.size
  }

  lemma {:induction false} NoBestIsNoneBelow(e: Env, files: Files, s: BlobRef, target: Bytes, cands: seq<Meta>, p: Search)
    requires Shaped(p) && |p.names| == |cands| && AllMade(p, |cands|) && p.raw == s.size
    requires forall i, patch :: 0 <= i < |cands| ==> (p.attempts[i] == Made(patch) <==> PatchOf(e, files, s, target, cands[i].digest, patch))
    ensures ScanTo(p, |cands|).best < 0 ==> NoneBelow(e, files, s, target, cands, p.full)
  {
    ScanIsArgmin(p, |cands|);
    if ScanTo(p, |cands|).best < 0 {
      forall i, patch | 0 <= i < |cands| && PatchOf(e, files, s, target, cands[i].digest, patch)
        ensures |patch| >= p.full || |patch| >= s.size
      {
        assert p.attempts[i] == Made(patch) && !Eligible(p, i);
      }
    }
  }

  ghost predicate FirstSmallest(e: Env, files: Files, s: BlobRef, target: Bytes, cands: seq<Meta>, entry: BlobEntry) {
    exists w, patch :: 0 <= w < |cands| && FirstSmallestAt(e, files, s, target, cands, entry, w, patch)
  }

  ghost predicate FirstSmallestAt(e: Env, files: Files, s: BlobRef, target: Bytes, cands: seq<Meta>, entry: BlobEntry, w: nat, patch: Bytes)
    requires w < |cands|
  {
    && PatchOf(e, files, s, target, cands[w].digest, patch) && entry.patchFrom == cands[w].digest && entry.archiveSize == |patch|
    && forall j, other :: 0 <= j < |cands| && PatchOf(e, files, s, target, cands[j].digest, other) ==>
         |other| >= |patch| && (j < w ==> |other| > |patch|)
  }

  lemma AttemptsArePatches(e: Env, files: Files, s: BlobRef, target: Bytes, full: int, cands: seq<Meta>)
    ensures var p := SearchOf(e, files, s, target, full, cands);
      forall i, patch :: 0 <= i < |cands| ==> (p.attempts[i] == Made(patch) <==> PatchOf(e, files, s, target, cands[i].digest, patch))
  {
    var p := SearchOf(e, files, s, target, full, cands);
    forall i | 0 <= i < |cands| ensures p.attempts[i] == Try(e, files, target, Budget.ResolveWindowLog(e.windowLog, s.size), cands[i].digest) {
    }
  }

  lemma {:induction false} BestIsFirst(e: Env, files: Files, s: BlobRef, target: Bytes, cands: seq<Meta>, p: Search)
    requires Shaped(p) && |p.names| == |cands| && AllMade(p, |cands|)
    requires forall i, patch :: 0 <= i < |cands| ==> (p.attempts[i] == Made(patch) <==> PatchOf(e, files, s, target, cands[i].digest, patch))
    ensures var r := ScanTo(p, |cands|);
      r.best >= 0 ==> FirstSmallest(e, files, s, target, cands, PatchEntry(s, cands[r.best].digest, r.size))
  {
    ScanIsArgmin(p, |cands|);
    var r := ScanTo(p, |cands|);
    if r.best >= 0 {
      var patch := p.attempts[r.best].patch;
      assert PatchOf(e, files, s, target, cands[r.best].digest, patch);
      assert FirstSmallestAt(e, files, s, target, cands, PatchEntry(s, cands[r.best].digest, r.size), r.best, patch);
    }
  }

  predicate NoSpill(p: Path) { !p.SpillFile? }

  lemma PlanIsSound(e: Env, files: Files, s: BlobRef, target: Path, k: int)
    requires NoSpill(target)
    ensures var (out, after) := PlanSpec(e, files, s, target, k); OutcomeSound(e, files, s, target, out, after)
    ensures forall q :: NoSpill(q) || q.name != Encoded(s.digest) ==>
      var after := PlanSpec(e, files, s, target, k).1; (q in after <==> q in files) && (q in files ==> after[q] == files[q])
  {
    if target in files && |Chosen(e, files, s, target, k)| > 0 && FullSize(e, s, files[target]).Some? {
      var cands := Chosen(e, files, s, target, k);
      var p := SearchOf(e, files, s, files[target], FullSize(e, s, files[target]).value, cands);
      var r := ScanTo(p, |cands|);
      forall q | NoSpill(q) || q.name != Encoded(s.digest)
        ensures (q in r.files <==> q in files) && (q in files ==> r.files[q] == files[q])
      {
        ScanFrame(p, |cands|, q);
      }
      ScanFailsIff(p, |cands|);
      if !r.failed {
        ScanIsArgmin(p, |cands|);
        if r.best >= 0 {
          WinnerSurvivesIff(p, |cands|);
          ChosenAreBaselines(e, files, s, target, k, r.best);
          assert p.attempts[r.best] == Try(e, files, files[target], Budget.ResolveWindowLog(e.windowLog, s.size), cands[r.best].digest);
        }
      }
    }
  }

  /** Two disks that agree on everything the planner reads. */
  ghost predicate SameInputs(e: Env, f: Files, g: Files, target: Path) {
    && (target in f <==> target in g) && (target in f ==> f[target] == g[target])
    && forall d :: d in e.paths ==> (e.paths[d] in f <==> e.paths[d] in g) && (e.paths[d] in f ==> f[e.paths[d]] == g[e.paths[d]])
  }

  lemma {:induction false} ScanIgnoresOtherFiles(p: Search, q: Search, i: nat)
    requires Shaped(p) && Shaped(q) && i <= |p.names| && p == q.(files := p.files)
    ensures var a := ScanTo(p, i); var b := ScanTo(q, i); a.failed == b.failed && a.best == b.best && a.size == b.size
    decreases i
  {
    if i > 0 { ScanIgnoresOtherFiles(p, q, i - 1); }
  }

  /** The plan is a function of the target's and the baselines' bytes: other files, stale spills included, do not matter. */
  lemma PlanIsDeterministic(e: Env, f: Files, g: Files, s: BlobRef, target: Path, k: int)
    requires NoSpill(target) && SameInputs(e, f, g, target)
    ensures var (a, fa) := PlanSpec(e, f, s, target, k); var (b, gb) := PlanSpec(e, g, s, target, k);
      && a == b
      && (a.Planned? ==> (a.payload in fa <==> a.payload in gb) && (a.payload in fa ==> fa[a.payload] == gb[a.payload]))
  {
    if target in f {
      var cands := Chosen(e, f, s, target, k);
      if |cands| > 0 && FullSize(e, s, f[target]).Some? {
        var p, q := SearchFor(e, f, s, target, k), SearchFor(e, g, s, target, k);
        assert p.names == q.names;
        assert p.attempts == q.attempts;
        ScanIgnoresOtherFiles(p, q, |cands|);
        var r := ScanTo(p, |cands|);
        ScanFailsIff(p, |cands|);
        if !r.failed {
          if r.best >= 0 {
            WinnerSurvivesIff(p, |cands|);
            WinnerSurvivesIff(q, |cands|);
            ScanIgnoresOtherFiles(p, q, r.best);
          } else {
            ScanFrame(p, |cands|, target);
            ScanFrame(q, |cands|, target);
          }
        }
      }
    }
  }

  /** When the candidates' spill names differ pairwise, the payload is there and is the only spill left. */
  lemma PlanOwnsItsFiles(e: Env, files: Files, s: BlobRef, target: Path, k: int)
    requires NoSpill(target) && target in files
    requires NoRepeats(Mapped(Chosen(e, files, s, target, k), (c: Meta) => SpillName(s.digest, c.digest)))
    requires forall q :: q in files ==> NoSpill(q) || q.name != Encoded(s.digest)
    ensures var (out, after) := PlanSpec(e, files, s, target, k);
      out.Planned? ==>
        && out.payload in after
        && (forall q :: q in after && !NoSpill(q) && q.name == Encoded(s.digest) ==> q == out.payload)
        && (out.entry.encoding == Patch ==> |after[out.payload]| == out.entry.archiveSize)
  {
    PlanIsSound(e, files, s, target, k);
    var cands := Chosen(e, files, s, target, k);
    if |cands| > 0 && FullSize(e, s, files[target]).Some? {
      var p := SearchFor(e, files, s, target, k);
      ScanFailsIff(p, |cands|);
      if !ScanTo(p, |cands|).failed { OnlyWinnerLeft(p, target, s.digest); }
    }
  }

  lemma OnlyWinnerLeft(p: Search, target: Path, d: Digest)
    requires Shaped(p) && AllMade(p, |p.names|) && NoRepeats(p.names) && NoSpill(target) && target in p.files
    requires forall i :: 0 <= i < |p.names| ==> p.names[i].SpillFile?
    requires forall q :: q in p.files ==> NoSpill(q) || q.name != Encoded(d)
    ensures var r := ScanTo(p, |p.names|); var payload := if r.best < 0 then target else p.names[r.best];
      payload in r.files && forall q :: q in r.files && !NoSpill(q) && q.name == Encoded(d) ==> q == payload
  {
    DistinctNamesLeaveWinner(p);
  }

  ghost function SearchFor(e: Env, files: Files, s: BlobRef, target: Path, k: int): (p: Search)
    requires target in files && FullSize(e, s, files[target]).Some?
    ensures Shaped(p) && |p.names| == |Chosen(e, files, s, target, k)|
  {
    SearchOf(e, files, s, files[target], FullSize(e, s, files[target]).value, Chosen(e, files, s, target, k))
  }

  /** The planned size is the search's size; without candidates it is the raw size. */
  lemma PlannedSize(e: Env, files: Files, s: BlobRef, target: Path, k: int)
    requires target in files
    ensures |Chosen(e, files, s, target, k)| == 0 ==>
      PlanSpec(e, files, s, target, k).0.Planned? && PlanSpec(e, files, s, target, k).0.entry.archiveSize == s.size
    ensures |Chosen(e, files, s, target, k)| > 0 ==>
      (PlanSpec(e, files, s, target, k).0.Planned? <==>
         FullSize(e, s, files[target]).Some? && AllMade(SearchFor(e, files, s, target, k), |Chosen(e, files, s, target, k)|))
    ensures |Chosen(e, files, s, target, k)| > 0 && PlanSpec(e, files, s, target, k).0.Planned? ==>
      PlanSpec(e, files, s, target, k).0.entry.archiveSize == ScanTo(SearchFor(e, files, s, target, k), |Chosen(e, files, s, target, k)|).size
  {
    var cands := Chosen(e, files, s, target, k);
    if |cands| > 0 && FullSize(e, s, files[target]).Some? {
      var p := SearchFor(e, files, s, target, k);
      ScanFailsIff(p, |cands|);
      if AllMade(p, |cands|) { ScanIsArgmin(p, |cands|); }
    }
  }

  lemma SearchesNest(e: Env, files: Files, s: BlobRef, target: Path, k: nat, l: nat)
    requires k <= l && target in files && FullSize(e, s, files[target]).Some?
    ensures var ck := Chosen(e, files, s, target, k); var cl := Chosen(e, files, s, target, l);
      |ck| <= |cl| && Extends(SearchFor(e, files, s, target, k), SearchFor(e, files, s, target, l), |ck|)
  {
    TopKIsPrefix(e.baseline, e.prints, e.printer(s.mediaType, files[target]), s.size, k, l);
    var pk, pl := SearchFor(e, files, s, target, k), SearchFor(e, files, s, target, l);
    var n := |pk.names|;
    assert pk.names[..n] == pl.names[..n] && pk.attempts[..n] == pl.attempts[..n];
  }

  /** A larger K never increases the planned archive size, provided the larger search is error-free. */
  lemma LargerKNeverWorse(e: Env, files: Files, s: BlobRef, target: Path, k: nat, l: nat)
    requires k <= l && PlanSpec(e, files, s, target, l).0.Planned?
    ensures PlanSpec(e, files, s, target, k).0.Planned?
    ensures PlanSpec(e, files, s, target, l).0.entry.archiveSize <= PlanSpec(e, files, s, target, k).0.entry.archiveSize
  {
    PlannedSize(e, files, s, target, k);
    PlannedSize(e, files, s, target, l);
    TopKIsPrefix(e.baseline, e.prints, e.printer(s.mediaType, files[target]), s.size, k, l);
    if |Chosen(e, files, s, target, l)| > 0 {
      SearchesNest(e, files, s, target, k, l);
      var pk, pl := SearchFor(e, files, s, target, k), SearchFor(e, files, s, target, l);
      var n := |pk.names|;
      assert forall j :: 0 <= j < n ==> pk.attempts[j] == pl.attempts[..n][j];
      ScanPrefix(pk, pl, n);
      ScanShrinks(pl, n, |pl.names|);
      ScanShrinks(pl, 0, |pl.names|);
    }
  }

  /** What the layer costs in the end: a failed plan falls back to shipping it in full. */
  function FinalSize(out: Outcome, s: BlobRef): int {
    match out
    case PlanFailed => s.size
    case Planned(e, _) => e.archiveSize
  }

  /** Looking at more candidates costs bytes in exactly one case: an added candidate cannot be tried,
      so the layer is shipped in full, and the smaller K had planned a patch. */
  lemma LargerKWorseIff(e: Env, files: Files, s: BlobRef, target: Path, k: nat, l: nat)
    requires k <= l && NoSpill(target)
    ensures var few := PlanSpec(e, files, s, target, k).0; var many := PlanSpec(e, files, s, target, l).0;
      FinalSize(many, s) > FinalSize(few, s) <==> many.PlanFailed? && few.Planned? && few.entry.encoding == Patch
  {
    PlanIsSound(e, files, s, target, k);
    if PlanSpec(e, files, s, target, l).0.Planned? { LargerKNeverWorse(e, files, s, target, k, l); }
  }

  // ---- The planner object ----

  ghost function Filled(ms: seq<Meta>, prints: map<Digest, Option<Print>>, paths: map<Digest, Path>, files: Files,
      printer: (string, Bytes) -> Option<Print>): map<Digest, Option<Print>>
  {
    if |ms| == 0 then prints
    else
      var rest := Filled(ms[..|ms| - 1], prints, paths, files, printer);
      var b := ms[|ms| - 1];
      if b.digest in rest then rest
      else if b.digest in paths && paths[b.digest] in files then rest[b.digest := printer(b.mediaType, files[paths[b.digest]])]
      else rest[b.digest := None]
  }

  /** Priming honours every seeded fingerprint, failed ones included, and leaves no baseline without an entry. */
  lemma {:induction false} FilledHonoursSeeds(ms: seq<Meta>, prints: map<Digest, Option<Print>>, paths: map<Digest, Path>, files: Files,
      printer: (string, Bytes) -> Option<Print>)
    ensures forall d :: d in prints ==> d in Filled(ms, prints, paths, files, printer) && Filled(ms, prints, paths, files, printer)[d] == prints[d]
    ensures forall m :: m in ms ==> m.digest in Filled(ms, prints, paths, files, printer)
    decreases |ms|
  {
    if |ms| > 0 {
      FilledHonoursSeeds(ms[..|ms| - 1], prints, paths, files, printer);
      assert ms == ms[..|ms| - 1] + [ms[|ms| - 1]];
    }
  }

  predicate Fetched(paths: map<Digest, Path>, files: Files, d: Digest) { d in paths && paths[d] in files }

  /** After priming a listed baseline has its seeded fingerprint; without one, that of its fetched bytes under a media
      type it is listed with; and without those, none. */
  lemma {:induction false} FilledMeans(ms: seq<Meta>, prints: map<Digest, Option<Print>>, paths: map<Digest, Path>, files: Files,
      printer: (string, Bytes) -> Option<Print>, d: Digest)
    ensures d in prints ==> d in Filled(ms, prints, paths, files, printer) && Filled(ms, prints, paths, files, printer)[d] == prints[d]
    ensures d !in prints ==> (d in Filled(ms, prints, paths, files, printer) <==> Listed(ms, d))
    ensures d !in prints && Listed(ms, d) ==>
      if Fetched(paths, files, d)
      then exists m :: m in ms && m.digest == d && Filled(ms, prints, paths, files, printer)[d] == printer(m.mediaType, files[paths[d]])
      else Filled(ms, prints, paths, files, printer)[d] == None
    decreases |ms|
  {
    if |ms| > 0 {
      var front, last := ms[..|ms| - 1], ms[|ms| - 1];
      FilledMeans(front, prints, paths, files, printer, d);
      assert ms == front + [last];
      assert Listed(ms, d) <==> Listed(front, d) || last.digest == d by {
        if Listed(front, d) {
          var m :| m in front && m.digest == d;
          assert m in ms;
        }
        assert last in ms;
      }
    }
  }

  /** A sorting by digest, not necessarily a stable one. */
  ghost predicate SortsByDigest(slice: seq<Meta> -> seq<Meta>) {
    forall ms :: multiset(slice(ms)) == multiset(ms) && Sorted(slice(ms), ByDigest())
  }

  class LayerPlanner {
    const baseline: seq<Meta>
    const paths: map<Digest, Path>
    const printer: (string, Bytes) -> Option<Print>
    const codec: Codec
    const windowLog: int
    var prints: map<Digest, Option<Print>>
    var primed: bool

    ghost function EnvNow(): Env
      reads this
    {
      Env(baseline, prints, paths, printer, codec, windowLog)
    }

    /** slice stands for sort.Slice, which leaves the order of repeated digests open. */
    constructor (ms: seq<Meta>, slice: seq<Meta> -> seq<Meta>, paths: map<Digest, Path>, printer: (string, Bytes) -> Option<Print>,
        codec: Codec, windowLog: int)
      requires SortsByDigest(slice)
      ensures baseline == slice(ms) && Sorted(baseline, ByDigest()) && multiset(baseline) == multiset(ms)
      ensures this.paths == paths && this.printer == printer && this.codec == codec && this.windowLog == windowLog
      ensures forall i, j :: 0 <= i < j < |baseline| ==> !LexLess(baseline[j].digest, baseline[i].digest)
      ensures prints == map[] && !primed
    {
      baseline := slice(ms);
      this.paths, this.printer, this.codec, this.windowLog := paths, printer, codec, windowLog;
      prints, primed := map[], false;
    }

    method SeedBaselineFingerprints(fps: map<Digest, Option<Print>>)
      modifies this`prints
      ensures forall d :: d in prints <==> d in old(prints) || (d in fps && Listed(baseline, d))
      ensures forall d :: d in prints ==>
        prints[d] == if d in fps && (Listed(baseline, d)) then fps[d] else old(prints)[d]
    {
      for i := 0 to |baseline|
        invariant forall d :: d in prints <==> d in old(prints) || (d in fps && Listed(baseline[..i], d))
        invariant forall d :: d in prints ==>
          prints[d] == if d in fps && (Listed(baseline[..i], d)) then fps[d] else old(prints)[d]
      {
        var b := baseline[i];
        assert baseline[..i + 1] == baseline[..i] + [b];
        if b.digest in fps { prints := prints[b.digest := fps[b.digest]]; }
        forall d ensures Listed(baseline[..i + 1], d) <==> Listed(baseline[..i], d) || d == b.digest {
          if d == b.digest { assert b in baseline[..i + 1]; }
        }
      }
      assert baseline[..|baseline|] == baseline;
    }

    /** Runs once per planner. */
    method EnsureBaselineFP(disk: Disk)
      modifies this`prints, this`primed
      ensures primed
      ensures prints == if old(primed) then old(prints) else Filled(baseline, old(prints), paths, disk.files, printer)
    {
      if primed { return; }
      for i := 0 to |baseline|
        invariant prints == Filled(baseline[..i], old(prints), paths, disk.files, printer)
      {
        var b := baseline[i];
        assert baseline[..i + 1][..i] == baseline[..i];
        if b.digest !in prints {
          if b.digest in paths && paths[b.digest] in disk.files {
            prints := prints[b.digest := printer(b.mediaType, disk.files[paths[b.digest]])];
          } else {
            prints := prints[b.digest := None];
          }
        }
      }
      assert baseline[..|baseline|] == baseline;
      primed := true;
    }

    method PickTopK(disk: Disk, targetFP: Option<Print>, targetSize: int, k: int) returns (out: seq<Meta>)
      modifies this`prints, this`primed
      ensures prints == if old(primed) || k <= 0 || |baseline| == 0 then old(prints) else Filled(baseline, old(prints), paths, disk.files, printer)
      ensures old(primed) ==> primed
      ensures out == TopK(baseline, prints, targetFP, targetSize, k)
    {
      if k <= 0 || |baseline| == 0 {
        SortPermutes(Candidates(baseline, prints, targetFP), Ranking(targetSize));
        return [];
      }
      EnsureBaselineFP(disk);
      var cands := ScoreBaselines(targetFP);
      cands := StableSort(cands, Ranking(targetSize));
      out := FirstMetas(cands, k);
    }

    method ScoreBaselines(targetFP: Option<Print>) returns (cands: seq<Scored>)
      ensures cands == Candidates(baseline, prints, targetFP)
    {
      cands := [];
      for i := 0 to |baseline|
        invariant |cands| == i
        invariant forall j :: 0 <= j < i ==> cands[j] == Scorer(prints, targetFP)(baseline[j])
      {
        var s := 0;
        if targetFP.Some? { s := Score(targetFP, Lookup(prints, baseline[i].digest)); }
        cands := cands + [Scored(baseline[i], s)];
      }
    }

    method FirstMetas(cands: seq<Scored>, k: int) returns (out: seq<Meta>)
      requires k > 0
      ensures out == Take(Unscored(cands), k)
    {
      var n := if k > |cands| then |cands| else k;
      out := [];
      for i := 0 to n
        invariant |out| == i && forall j :: 0 <= j < i ==> out[j] == cands[j].meta
      {
        out := out + [cands[i].meta];
      }
    }

    method PlanShippedTopK(disk: Disk, s: BlobRef, target: Path, k: int) returns (out: Outcome)
      requires NoSpill(target) && forall d :: d in paths ==> NoSpill(paths[d])
      modifies this`prints, this`primed, disk
      ensures primed
      ensures prints == if old(primed) then old(prints) else Filled(baseline, old(prints), paths, old(disk.files), printer)
      ensures (out, disk.files) == PlanSpec(EnvNow(), old(disk.files), s, target, k)
    {
      EnsureBaselineFP(disk);
      if target !in disk.files { return PlanFailed; }
      var targetFP := printer(s.mediaType, disk.files[target]);
      var cands := PickTopK(disk, targetFP, s.size, k);
      if |cands| == 0 { return Planned(FullEntry(s), target); }
      var full := codec.fullSize(disk.files[target], Budget.ResolveWindowLog(windowLog, s.size));
      if full.None? { return PlanFailed; }
      ghost var p := SearchNow(disk.files, s, target, full.value, cands);
      out := TryCandidates(disk, s, target, full.value, cands, p);
    }

    lemma ScanTurn(p: Search, i: nat, next: Scan)
      requires Shaped(p) && i < |p.names| && !ScanTo(p, i).failed && next == ScanStep(p, i, ScanTo(p, i))
      ensures next == ScanTo(p, i + 1) && (next.failed ==> ScanTo(p, |p.names|) == next)
    {
      ScanEndsAt(p, i + 1);
    }

    /** The encode loop: one spill per candidate, the running best kept, every loser removed. */
    method TryCandidates(disk: Disk, s: BlobRef, target: Path, full: int, cands: seq<Meta>, ghost p: Search) returns (out: Outcome)
      requires NoSpill(target) && target in disk.files && forall d :: d in paths ==> NoSpill(paths[d])
      requires Shaped(p) && |p.names| == |cands| && p.full == full && p.raw == s.size && p.files == disk.files
      requires forall i :: 0 <= i < |cands| ==> p.names[i] == SpillName(s.digest, cands[i].digest)
      requires forall i :: 0 <= i < |cands| ==> p.attempts[i] == TryNow(p.files, target, s, cands[i].digest)
      modifies disk
      ensures disk.files == ScanTo(p, |cands|).files
      ensures out == SearchOutcome(s, target, cands, p)
    {
      var best, bestSize := -1, s.size;
      ghost var scan := ScanTo(p, 0);
      for i := 0 to |cands|
        invariant scan == ScanTo(p, i) && scan == Scan(false, best, bestSize, disk.files)
      {
        ghost var next := ScanStep(p, i, scan);
        ScanTurn(p, i, next);
        TryUnaffected(p, i, target, s, cands[i].digest);
        var ok, size := TryOne(disk, s, target, full, cands, i, best, bestSize);
        if !ok { return PlanFailed; }
        if size < bestSize { best, bestSize := i, size; }
        scan := next;
      }
      out := if best < 0 then Planned(FullEntry(s), target)
             else Planned(PatchEntry(s, cands[best].digest, bestSize), SpillName(s.digest, cands[best].digest));
    }

    ghost function TryNow(files: Files, target: Path, s: BlobRef, d: Digest): Attempt
      requires target in files
    {
      if d !in paths then Unprimed
      else if paths[d] !in files then EncodeFailed
      else
        match codec.encode(files[paths[d]], files[target], Budget.ResolveWindowLog(windowLog, s.size))
        case None => EncodeFailed
        case Some(patch) => Made(patch)
    }

    ghost function SearchNow(files: Files, s: BlobRef, target: Path, full: int, cands: seq<Meta>): (p: Search)
      reads this
      requires target in files
      ensures p == SearchOf(EnvNow(), files, s, files[target], full, cands)
      ensures Shaped(p) && |p.names| == |cands| && p.full == full && p.raw == s.size && p.files == files
      ensures forall i :: 0 <= i < |cands| ==> p.names[i] == SpillName(s.digest, cands[i].digest)
      ensures forall i :: 0 <= i < |cands| ==> p.attempts[i] == TryNow(files, target, s, cands[i].digest)
    {
      SearchOf(EnvNow(), files, s, files[target], full, cands)
    }

    /** Spills never touch the target or a baseline, so a later attempt sees the same inputs. */
    lemma TryUnaffected(p: Search, i: nat, target: Path, s: BlobRef, d: Digest)
      requires Shaped(p) && i <= |p.names| && target in p.files && NoSpill(target)
      requires forall x :: x in paths ==> NoSpill(paths[x])
      requires forall j :: 0 <= j < |p.names| ==> !NoSpill(p.names[j])
      ensures target in ScanTo(p, i).files && TryNow(ScanTo(p, i).files, target, s, d) == TryNow(p.files, target, s, d)
    {
      ScanFrame(p, i, target);
      if d in paths { ScanFrame(p, i, paths[d]); }
    }

    /** Encodes candidate i into its spill; afterwards only the better of it and the running best is on disk.
        Returns the size that now counts. */
    method TryOne(disk: Disk, s: BlobRef, target: Path, full: int, cands: seq<Meta>, i: nat, best: int, bestSize: int)
      returns (ok: bool, size: int)
      requires i < |cands| && -1 <= best < i && target in disk.files
      modifies disk
      ensures var name := SpillName(s.digest, cands[i].digest);
        match TryNow(old(disk.files), target, s, cands[i].digest)
        case Unprimed => !ok && disk.files == old(disk.files)
        case EncodeFailed => !ok && disk.files == old(disk.files) - {name}
        case Made(patch) =>
          var written := old(disk.files)[name := patch];
          ok &&
          if |patch| < full && |patch| < s.size && |patch| < bestSize then
            size == |patch|
            && disk.files == if best >= 0 then written - {SpillName(s.digest, cands[best].digest)} else written
          else size == bestSize && disk.files == written - {name}
    {
      ok, size := false, bestSize;
      if cands[i].digest !in paths { return; }
      var refPath := paths[cands[i].digest];
      var candPath := SpillName(s.digest, cands[i].digest);
      var patch := None;
      if refPath in disk.files {
        patch := codec.encode(disk.files[refPath], disk.files[target], Budget.ResolveWindowLog(windowLog, s.size));
      }
      if patch.None? {
        disk.Remove(candPath);
        return;
      }
      ok := true;
      disk.Write(candPath, patch.value);
      var patchSize := |patch.value|;
      if patchSize < full && patchSize < s.size && patchSize < bestSize {
        if best >= 0 { disk.Remove(SpillName(s.digest, cands[best].digest)); }
        size := patchSize;
      } else {
        disk.Remove(candPath);
      }
    }
  }

  /** Once failed, a search stays as it is. */
  lemma {:induction false} ScanEndsAt(p: Search, i: nat)
    requires Shaped(p) && i <= |p.names|
    ensures ScanTo(p, i).failed ==> ScanTo(p, |p.names|) == ScanTo(p, i)
    decreases |p.names| - i
  {
    if i < |p.names| { ScanEndsAt(p, i + 1); }
  }
}
