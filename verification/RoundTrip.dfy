/**
 * Diff, then apply.  From what planning and priming prepare, through the encode phase and the
 * sidecar, to preflight and the blobs an importer serves: when does apply give back the target?
 */
module RoundTrip {
  import opened Common
  import opened Diff
  import opened Sorting
  import opened Workdir
  import opened Planner
  import opened BlobPool
  import opened Encode
  import opened Compose
  import P = Preflight
  import Budget

  /** One (baseline, target) pair after its manifests are parsed; manifests are named by digest. */
  datatype Pair = Pair(
    name: string,
    baselineManifest: Digest,
    baseline: seq<Meta>,
    baselineConfig: Digest,
    manifest: Digest,
    mediaType: string,
    target: seq<BlobRef>,
    config: BlobRef)

  /** The registries' contents are one table: equal digests name equal bytes. */
  datatype Input = Input(h: HashFn, codec: Codec, pairs: seq<Pair>, store: map<Digest, Bytes>)

  function Layers(p: Pair): set<Digest> { set m | m in p.baseline :: m.digest }

  function BaselineOf(p: Pair): P.Manifest {
    P.Manifest(Mapped(p.baseline, (m: Meta) => m.digest), p.baselineConfig)
  }

  function Holdings(p: Pair): set<Digest> { P.Available(BaselineOf(p)) }

  lemma HoldingsAre(p: Pair)
    ensures forall d :: d in Holdings(p) <==> d in Layers(p) || (p.baselineConfig != "" && d == p.baselineConfig)
  {
    var ds := Mapped(p.baseline, (m: Meta) => m.digest);
    forall d ensures d in Elements(ds) <==> d in Layers(p) {
      if d in ds {
        var i :| 0 <= i < |ds| && ds[i] == d;
        assert p.baseline[i] in p.baseline && p.baseline[i].digest == d;
      }
      if d in Layers(p) {
        var m :| m in p.baseline && m.digest == d;
        var i :| 0 <= i < |p.baseline| && p.baseline[i] == m;
        assert ds[i] == d;
      }
    }
  }

  /** Everything the manifests list is in the store, and the store is honest. */
  ghost predicate Consistent(x: Input) {
    && LawfulHash(x.h) && LawfulCodec(x.codec)
    && (forall d :: d in x.store ==> Matches(x.h, d, x.store[d]))
    && (forall p :: 0 <= p < |x.pairs| ==> PairStored(x, x.pairs[p]))
  }

  predicate PairStored(x: Input, p: Pair) {
    && p.manifest in x.store && p.config.digest in x.store && p.baselineManifest in x.store
    && Algorithm(p.manifest) == "sha256"
    && (forall b :: b in p.target ==> b.digest in x.store)
    && (forall d :: d in Holdings(p) ==> d in x.store)
  }

  // ---- Planning ----

  function JobsFor(n: nat, refs: seq<BlobRef>): seq<Job> { Mapped(refs, (b: BlobRef) => Job(n, b)) }

  function JobsOf(pairs: seq<Pair>): seq<Job> {
    if |pairs| == 0 then []
    else
      var n := |pairs| - 1;
      JobsOf(pairs[..n]) + JobsFor(n, Select(pairs[n].target, Layers(pairs[n]), false))
  }

  predicate Ships(pairs: seq<Pair>, job: Job) {
    job.pair < |pairs| && job.s in pairs[job.pair].target && job.s.digest !in Layers(pairs[job.pair])
  }

  /** The submission loop sees exactly the target layers their own baseline lacks. */
  lemma {:induction false} JobsExact(pairs: seq<Pair>)
    ensures forall job :: job in JobsOf(pairs) <==> Ships(pairs, job)
    decreases |pairs|
  {
    if |pairs| > 0 {
      var n := |pairs| - 1;
      var front := pairs[..n];
      JobsExact(front);
      var refs := Select(pairs[n].target, Layers(pairs[n]), false);
      SelectMembers(pairs[n].target, Layers(pairs[n]), false);
      var last := JobsFor(n, refs);
      forall job ensures job in JobsOf(pairs) <==> Ships(pairs, job) {
        if job in last {
          var i :| 0 <= i < |last| && last[i] == job;
          assert job == Job(n, refs[i]) && refs[i] in refs;
        }
        if job.pair == n && job.s in refs {
          var i :| 0 <= i < |refs| && refs[i] == job.s;
          assert last[i] == job;
        }
        assert job in JobsOf(front) ==> job.pair < n;
        assert job.pair < n ==> (Ships(front, job) <==> Ships(pairs, job));
      }
    }
  }

  /** The layers pair p submits, in the order it submits them. */
  function OfPair(jobs: seq<Job>, p: nat): seq<BlobRef> {
    if |jobs| == 0 then []
    else
      var last := jobs[|jobs| - 1];
      OfPair(jobs[..|jobs| - 1], p) + if last.pair == p then [last.s] else []
  }

  /** Pair by pair, and of each pair the layers its baseline lacks, in the manifest's order. */
  lemma JobsInOrder(pairs: seq<Pair>, p: nat)
    requires p < |pairs|
    ensures PairsAscend(JobsOf(pairs)) && OfPair(JobsOf(pairs), p) == Select(pairs[p].target, Layers(pairs[p]), false)
  {
    JobsAscend(pairs);
    PairInOrder(pairs, p);
  }

  predicate PairsAscend(jobs: seq<Job>) { forall i, j :: 0 <= i < j < |jobs| ==> jobs[i].pair <= jobs[j].pair }

  lemma {:induction false} JobsAscend(pairs: seq<Pair>)
    ensures PairsAscend(JobsOf(pairs))
    decreases |pairs|
  {
    if |pairs| > 0 {
      var n := |pairs| - 1;
      JobsAscend(pairs[..n]);
      JobsBefore(pairs[..n]);
      AscendAppend(JobsOf(pairs[..n]), JobsFor(n, Select(pairs[n].target, Layers(pairs[n]), false)), n);
    }
  }

  lemma AscendAppend(a: seq<Job>, b: seq<Job>, n: nat)
    requires PairsAscend(a) && (forall i :: 0 <= i < |a| ==> a[i].pair < n) && forall i :: 0 <= i < |b| ==> b[i].pair == n
    ensures PairsAscend(a + b)
  {
  }

  lemma {:induction false} PairInOrder(pairs: seq<Pair>, p: nat)
    requires p < |pairs|
    ensures OfPair(JobsOf(pairs), p) == Select(pairs[p].target, Layers(pairs[p]), false)
    decreases |pairs|
  {
    var n := |pairs| - 1;
    JobsBefore(pairs[..n]);
    OfPairNext(JobsOf(pairs[..n]), n, Select(pairs[n].target, Layers(pairs[n]), false), p);
    if p < n { PairInOrder(pairs[..n], p); }
  }

  lemma JobsBefore(pairs: seq<Pair>)
    ensures forall i :: 0 <= i < |JobsOf(pairs)| ==> JobsOf(pairs)[i].pair < |pairs|
  {
    JobsExact(pairs);
    forall i | 0 <= i < |JobsOf(pairs)| ensures JobsOf(pairs)[i].pair < |pairs| { assert JobsOf(pairs)[i] in JobsOf(pairs); }
  }

  lemma OfPairNext(front: seq<Job>, n: nat, last: seq<BlobRef>, p: nat)
    requires forall i :: 0 <= i < |front| ==> front[i].pair < n
    ensures OfPair(front + JobsFor(n, last), p) == if p == n then last else OfPair(front, p)
  {
    OfPairAppend(front, JobsFor(n, last), p);
    OfPairAlone(n, last, p);
    if p == n { OfPairNone(front, n); }
  }

  lemma {:induction false} OfPairAppend(a: seq<Job>, b: seq<Job>, p: nat)
    ensures OfPair(a + b, p) == OfPair(a, p) + OfPair(b, p)
    decreases |b|
  {
    if |b| == 0 {
      assert a + b == a;
    } else {
      assert (a + b)[..|a + b| - 1] == a + b[..|b| - 1];
      OfPairAppend(a, b[..|b| - 1], p);
    }
  }

  lemma {:induction false} OfPairAlone(n: nat, refs: seq<BlobRef>, p: nat)
    ensures OfPair(JobsFor(n, refs), p) == if p == n then refs else []
    decreases |refs|
  {
    if |refs| > 0 {
      var front := refs[..|refs| - 1];
      assert JobsFor(n, refs) == JobsFor(n, front) + [Job(n, refs[|refs| - 1])];
      OfPairAlone(n, front, p);
      assert refs == front + [refs[|refs| - 1]];
    }
  }

  lemma {:induction false} OfPairNone(jobs: seq<Job>, p: nat)
    requires forall i :: 0 <= i < |jobs| ==> jobs[i].pair != p
    ensures OfPair(jobs, p) == []
    decreases |jobs|
  {
    if |jobs| > 0 { OfPairNone(jobs[..|jobs| - 1], p); }
  }

  function SeedKeys(pairs: seq<Pair>): set<Digest> {
    (set p | p in pairs :: p.manifest) + (set p | p in pairs :: p.config.digest)
  }

  /** Some pair lists manifest or config d with this entry's size and media type. */
  ghost predicate SeedDescribed(x: Input, d: Digest, e: BlobEntry) {
    exists p :: p in x.pairs && SeedOf(x, p, d, e)
  }

  predicate SeedOf(x: Input, p: Pair, d: Digest, e: BlobEntry) {
    || (d == p.manifest && d in x.store && e.size == |x.store[d]| && e.mediaType == p.mediaType)
    || (d == p.config.digest && e.size == p.config.size && e.mediaType == p.config.mediaType)
  }

  /** Some pair that ships layer d lists it with this entry's size and media type; a patch has the codec's tag. */
  ghost predicate LayerDescribed(x: Input, d: Digest, e: BlobEntry) {
    exists p, r :: p in x.pairs && LayerOf(p, r, d, e)
  }

  predicate LayerOf(p: Pair, r: BlobRef, d: Digest, e: BlobEntry) {
    && r in p.target && r.digest == d && d !in Layers(p)
    && e.size == r.size && e.mediaType == r.mediaType && (e.encoding == Patch ==> e.codec == "zstd-patch")
  }

  ghost predicate Described(x: Input, d: Digest, e: BlobEntry) {
    if d in SeedKeys(x.pairs) then SeedDescribed(x, d, e) else LayerDescribed(x, d, e)
  }

  /** What planning, seeding and priming hand to the encode phase. */
  ghost predicate Setup(x: Input, c: Ctx) {
    && CtxBase(c) && c.jobs == JobsOf(x.pairs) && |c.envs| == |x.pairs|
    && (forall p :: 0 <= p < |c.envs| ==> EnvFits(x, c, c.envs[p], x.pairs[p]))
    && (forall d :: d in c.content && d in x.store ==> c.content[d] == x.store[d])
    && c.seeds.Keys == SeedKeys(x.pairs) && (forall d :: d in c.seeds ==> SeedDescribed(x, d, c.seeds[d]))
    && (forall d :: d in c.seeds ==> c.seeds[d].encoding == Full && EntryOk(c.seeds[d]) && d in x.store && BlobPath(d) in c.base && c.base[BlobPath(d)] == x.store[d])
  }

  /** A pair's planner knows its baseline, and whatever was fetched is what the store holds. */
  ghost predicate EnvFits(x: Input, c: Ctx, e: Env, p: Pair) {
    && multiset(e.baseline) == multiset(p.baseline) && e.codec == x.codec
    && (forall d :: d in e.paths && d in x.store && e.paths[d] in c.base ==> c.base[e.paths[d]] == x.store[d])
  }

  // ---- What a finished export means ----

  /** A blob of the bundle: its table entry and its archived bytes. */
  datatype Bundle = Bundle(blobs: map<Digest, BlobEntry>, files: map<Digest, Bytes>)

  /** The archive: every registered digest with its file. */
  ghost function BundleFrom(entries: map<Digest, BlobEntry>, files: Files): Bundle {
    Bundle(entries, map d | d in entries && BlobPath(d) in files :: files[BlobPath(d)])
  }

  ghost function BundleOf(s: State): Bundle { BundleFrom(s.entries, s.files) }

  ghost predicate PlainIn(x: Input, b: Bundle, d: Digest) {
    && d in b.blobs && d in b.files && d in x.store
    && b.blobs[d].encoding == Full && EntryOk(b.blobs[d]) && b.files[d] == x.store[d]
  }

  /** Shipped once, by tuple j, as a patch against one of that pair's own baseline layers. */
  ghost predicate PatchIn(x: Input, c: Ctx, b: Bundle, d: Digest, j: nat) {
    && d in b.blobs && d in b.files && d in x.store
    && j < |c.jobs| && c.jobs[j].s.digest == d && c.jobs[j].pair < |x.pairs| && Refs(c.jobs, d) <= 1 && !c.off
    && b.blobs[d] == PatchEntry(c.jobs[j].s, b.blobs[d].patchFrom, |b.files[d]|)
    && 0 < |b.files[d]| < c.jobs[j].s.size
    && Listed(x.pairs[c.jobs[j].pair].baseline, b.blobs[d].patchFrom)
    && b.blobs[d].patchFrom in x.store
    && x.codec.decode(x.store[b.blobs[d].patchFrom], b.files[d]) == Some(x.store[d])
  }

  ghost predicate Meaning(x: Input, c: Ctx, b: Bundle, d: Digest) {
    PlainIn(x, b, d) || exists j :: PatchIn(x, c, b, d, j)
  }

  /** The canonical result of one tuple, in terms of the store. */
  lemma CanonMeans(x: Input, c: Ctx, j: nat)
    requires Consistent(x) && Setup(x, c) && Known(c, j) && Kept(c, j)
    ensures var d := c.jobs[j].s.digest; var e := CanonEntry(c, j); var data := CanonBytes(c, j);
      || (e == FullEntry(c.jobs[j].s) && data == c.content[d])
      || (&& !Forced(c, d) && e == PatchEntry(c.jobs[j].s, e.patchFrom, |data|) && 0 < |data| < c.jobs[j].s.size
          && Listed(c.envs[c.jobs[j].pair].baseline, e.patchFrom)
          && e.patchFrom in c.envs[c.jobs[j].pair].paths && c.envs[c.jobs[j].pair].paths[e.patchFrom] in c.base
          && x.codec.decode(c.base[c.envs[c.jobs[j].pair].paths[e.patchFrom]], data) == Some(c.content[d]))
  {
    if !TakesFull(c, j) {
      var s := c.jobs[j].s;
      var env := c.envs[c.jobs[j].pair];
      assert EnvFits(x, c, env, x.pairs[c.jobs[j].pair]);
      PlanIsSound(env, c.base[Target(s.digest) := c.content[s.digest]], s, Target(s.digest), c.k);
    }
  }

  lemma JobsShip(x: Input, c: Ctx, j: nat)
    requires Setup(x, c) && j < |c.jobs|
    ensures Ships(x.pairs, c.jobs[j])
  {
    JobsExact(x.pairs);
    assert c.jobs[j] in JobsOf(x.pairs);
  }

  lemma ListedPermute(xs: seq<Meta>, ys: seq<Meta>, d: Digest)
    requires multiset(xs) == multiset(ys) && Listed(xs, d)
    ensures Listed(ys, d)
  {
    var m :| m in xs && m.digest == d;
    assert m in multiset(xs);
    assert m in ys;
  }

  lemma ListedHeld(p: Pair, d: Digest)
    requires Listed(p.baseline, d)
    ensures d in Layers(p) && d in Holdings(p)
  {
    HoldingsAre(p);
  }

  /** Tuple j's digest as a finished pool holds it. */
  lemma ShippedMeans(x: Input, c: Ctx, b: Bundle, j: nat)
    requires Consistent(x) && Setup(x, c) && Known(c, j) && Kept(c, j)
    requires var d := c.jobs[j].s.digest; d in b.blobs && d in b.files && b.blobs[d] == CanonEntry(c, j) && b.files[d] == CanonBytes(c, j)
    ensures Meaning(x, c, b, c.jobs[j].s.digest)
  {
    var d := c.jobs[j].s.digest;
    var pair := x.pairs[c.jobs[j].pair];
    JobsShip(x, c, j);
    assert PairStored(x, pair);
    CanonMeans(x, c, j);
    if b.blobs[d] != FullEntry(c.jobs[j].s) || b.files[d] != c.content[d] {
      assert EnvFits(x, c, c.envs[c.jobs[j].pair], pair);
      ListedPermute(c.envs[c.jobs[j].pair].baseline, pair.baseline, b.blobs[d].patchFrom);
      ListedHeld(pair, b.blobs[d].patchFrom);
      assert PatchIn(x, c, b, d, j);
    }
  }

  lemma ResultMeans(x: Input, c: Ctx, entries: map<Digest, BlobEntry>, files: Files, d: Digest)
    requires Consistent(x) && Setup(x, c) && NoneLost(c)
    requires d in Reference(c) && Holds(Reference(c), entries, files, d)
    ensures Meaning(x, c, BundleFrom(entries, files), d)
  {
    if d in c.seeds {
      assert PlainIn(x, BundleFrom(entries, files), d);
    } else {
      var j := FirstJob(c.jobs, d);
      assert PayloadSafe(c, j);
      ShippedMeans(x, c, BundleFrom(entries, files), j);
    }
  }

  /** An export's bundle: its digests are the manifests, configs and shipped layers, each with its meaning. */
  ghost predicate Exported(x: Input, c: Ctx, b: Bundle) {
    && b.blobs.Keys == SeedKeys(x.pairs) + Shipped(c.jobs)
    && (forall d :: d in b.blobs ==> Meaning(x, c, b, d))
    && (forall d :: d in b.blobs ==> Described(x, d, b.blobs[d]))
  }

  lemma ResultDescribed(x: Input, c: Ctx, d: Digest)
    requires Setup(x, c) && NoneLost(c) && d in Reference(c)
    ensures Described(x, d, Reference(c)[d].0)
  {
    if d !in c.seeds {
      var j := FirstJob(c.jobs, d);
      assert PayloadSafe(c, j);
      TupleDescribed(x, c, j, CanonEntry(c, j));
    }
  }

  /** A pool that is the reference result holds the store's bytes, plainly or as patches that decode to them. */
  lemma ResultExported(x: Input, c: Ctx, entries: map<Digest, BlobEntry>, files: Files)
    requires Consistent(x) && Setup(x, c) && NoneLost(c) && HoldsAll(Reference(c), entries, files)
    ensures Exported(x, c, BundleFrom(entries, files))
  {
    var r := Reference(c);
    assert r.Keys == SeedKeys(x.pairs) + Shipped(c.jobs);
    forall d | d in entries ensures Meaning(x, c, BundleFrom(entries, files), d) && Described(x, d, entries[d]) {
      assert Holds(r, entries, files, d);
      ResultMeans(x, c, entries, files, d);
      ResultDescribed(x, c, d);
    }
  }

  /** Tuple j's entry describes the layer it was submitted for. */
  lemma TupleDescribed(x: Input, c: Ctx, j: nat, e: BlobEntry)
    requires Setup(x, c) && Known(c, j) && c.jobs[j].s.digest !in c.seeds
    requires e == CanonEntry(c, j) || e == FullEntry(c.jobs[j].s)
    ensures Described(x, c.jobs[j].s.digest, e)
  {
    CanonDescribes(c, j);
    JobsShip(x, c, j);
    assert x.pairs[c.jobs[j].pair] in x.pairs;
    assert LayerOf(x.pairs[c.jobs[j].pair], c.jobs[j].s, c.jobs[j].s.digest, e);
  }

  lemma EndedDescribed(x: Input, c: Ctx, s: State, d: Digest)
    requires Setup(x, c) && d in s.entries && EntryCanon(c, s, d)
    ensures Described(x, d, s.entries[d])
  {
    if d !in c.seeds {
      var j: nat :| Known(c, j) && c.jobs[j].s.digest == d && Yields(c, s.slipped, j, s.entries[d], s.files[BlobPath(d)]);
      TupleDescribed(x, c, j, s.entries[d]);
    }
  }

  lemma SlippedMeans(x: Input, c: Ctx, b: Bundle, j: nat)
    requires Consistent(x) && Setup(x, c) && Known(c, j)
    requires var d := c.jobs[j].s.digest; d in b.blobs && d in b.files && b.blobs[d] == FullEntry(c.jobs[j].s) && b.files[d] == c.content[d]
    ensures Meaning(x, c, b, c.jobs[j].s.digest)
  {
    JobsShip(x, c, j);
    assert PairStored(x, x.pairs[c.jobs[j].pair]);
  }

  lemma EndedMeans(x: Input, c: Ctx, s: State, d: Digest)
    requires Consistent(x) && Setup(x, c) && d in s.entries && EntryCanon(c, s, d)
    ensures Meaning(x, c, BundleOf(s), d)
  {
    if d in c.seeds {
      assert PlainIn(x, BundleOf(s), d);
    } else {
      var j: nat :| Known(c, j) && c.jobs[j].s.digest == d && Yields(c, s.slipped, j, s.entries[d], s.files[BlobPath(d)]);
      if s.entries[d] == FullEntry(c.jobs[j].s) && s.files[BlobPath(d)] == c.content[d] {
        SlippedMeans(x, c, BundleOf(s), j);
      } else {
        ShippedMeans(x, c, BundleOf(s), j);
      }
    }
  }

  /** So does the pool of every error-free export, whatever its schedule, whichever descriptor came first, and
      wherever planning slipped. */
  lemma ExportMeans(x: Input, c: Ctx, workers: int, budget: int, s: State)
    requires Consistent(x) && Setup(x, c) && Reached(c, workers, budget, s) && Complete(c, s)
    ensures Exported(x, c, BundleOf(s))
  {
    ReachedInv(c, workers, budget, s);
    FinalKeys(c, s);
    forall d | d in s.entries ensures Meaning(x, c, BundleOf(s), d) && Described(x, d, s.entries[d]) {
      EndedMeans(x, c, s, d);
      EndedDescribed(x, c, s, d);
    }
  }

  // ---- Applying ----

  /** A baseline that serves byte for byte what its manifest lists, and nothing else. */
  function SourceOf(x: Input, p: Pair): Digest -> Fetch {
    (d: Digest) => if d in Holdings(p) && d in x.store then Got(x.store[d]) else NotFound
  }

  function WorldOf(x: Input, b: Bundle, i: nat): World
    requires i < |x.pairs|
  {
    World(x.h, x.codec.decode, b.blobs, b.files, SourceOf(x, x.pairs[i]))
  }

  /** Spooled bytes are the store's, whichever image spooled them. */
  predicate Agrees(x: Input, spool: Spool) {
    forall d :: d in spool ==> d in x.store && spool[d] == x.store[d]
  }

  /** What copying an image reads: its layers, then its config. */
  function Wanted(p: Pair): seq<Digest> { Mapped(p.target, (b: BlobRef) => b.digest) + [p.config.digest] }

  /** The layers in the manifest's order, then the config. */
  lemma WantedAre(p: Pair)
    ensures |Wanted(p)| == |p.target| + 1 && Wanted(p)[|p.target|] == p.config.digest
    ensures forall k :: 0 <= k < |p.target| ==> Wanted(p)[k] == p.target[k].digest
  {
  }

  lemma WantedStored(x: Input, i: nat, d: Digest)
    requires Consistent(x) && i < |x.pairs| && d in Wanted(x.pairs[i])
    ensures d in x.store
    ensures d == x.pairs[i].config.digest || exists b :: b in x.pairs[i].target && b.digest == d
  {
    var p := x.pairs[i];
    assert PairStored(x, p);
    var k :| 0 <= k < |Wanted(p)| && Wanted(p)[k] == d;
    if k < |p.target| { assert p.target[k] in p.target && p.target[k].digest == d; }
  }

  /** A wanted digest the bundle lacks is a layer of the image's own baseline. */
  lemma UnshippedIsHeld(x: Input, jobs: seq<Job>, i: nat, d: Digest)
    requires Consistent(x) && jobs == JobsOf(x.pairs)
    requires i < |x.pairs| && d in Wanted(x.pairs[i]) && d !in SeedKeys(x.pairs) + Shipped(jobs)
    ensures d in Holdings(x.pairs[i])
  {
    var p := x.pairs[i];
    WantedStored(x, i, d);
    assert p in x.pairs;
    assert d != p.config.digest;
    var r :| r in p.target && r.digest == d;
    HoldingsAre(p);
    if d !in Layers(p) { ShippedIfLacking(x.pairs, i, r); }
  }

  lemma ShippedIfLacking(pairs: seq<Pair>, i: nat, r: BlobRef)
    requires i < |pairs| && r in pairs[i].target && r.digest !in Layers(pairs[i])
    ensures r.digest in Shipped(JobsOf(pairs))
  {
    JobsExact(pairs);
    var jobs := JobsOf(pairs);
    assert Ships(pairs, Job(i, r));
    var j :| 0 <= j < |jobs| && jobs[j] == Job(i, r);
    assert jobs[j].s.digest == r.digest;
  }

  /** What an importer needs to know of a bundle. */
  ghost predicate Decodes(x: Input, b: Bundle, d: Digest) {
    && d in b.blobs && d in b.files && d in x.store
    && match b.blobs[d].encoding
       case Full => b.files[d] == x.store[d]
       case Patch => b.blobs[d].patchFrom in x.store && x.codec.decode(x.store[b.blobs[d].patchFrom], b.files[d]) == Some(x.store[d])
       case _ => false
  }

  predicate WantMet(x: Input, b: Bundle, i: nat, d: Digest)
    requires i < |x.pairs|
  {
    d in x.store && (d !in b.blobs ==> d in Holdings(x.pairs[i]))
  }

  ghost predicate Sound(x: Input, b: Bundle) {
    && (forall d :: d in x.store ==> Matches(x.h, d, x.store[d]))
    && (forall d :: d in b.blobs ==> Decodes(x, b, d))
    && (forall i, d :: 0 <= i < |x.pairs| && d in Wanted(x.pairs[i]) ==> WantMet(x, b, i, d))
    && (forall i, d :: 0 <= i < |x.pairs| && d in Holdings(x.pairs[i]) ==> d in x.store)
  }

  lemma ExportSound(x: Input, c: Ctx, b: Bundle)
    requires Consistent(x) && c.jobs == JobsOf(x.pairs) && Exported(x, c, b)
    ensures Sound(x, b)
  {
    forall d | d in b.blobs ensures Decodes(x, b, d) { assert Meaning(x, c, b, d); }
    forall i, d | 0 <= i < |x.pairs| && d in Wanted(x.pairs[i]) ensures WantMet(x, b, i, d) {
      WantedStored(x, i, d);
      if d !in b.blobs { UnshippedIsHeld(x, c.jobs, i, d); }
    }
    forall i, d | 0 <= i < |x.pairs| && d in Holdings(x.pairs[i]) ensures d in x.store { assert PairStored(x, x.pairs[i]); }
  }

  /** The patch source of d, if the bundle carries d as a patch, can be had from image i's baseline or the spool. */
  predicate Reachable(b: Bundle, p: Pair, spool: Spool, d: Digest) {
    d in b.blobs && b.blobs[d].encoding == Patch ==> b.blobs[d].patchFrom in Holdings(p) || b.blobs[d].patchFrom in spool
  }

  /** The spool answers with the store's bytes for whatever the baseline holds or was spooled before. */
  lemma SpooledIs(x: Input, b: Bundle, i: nat, spool: Spool, e: Digest)
    requires i < |x.pairs| && Agrees(x, spool) && (e in Holdings(x.pairs[i]) ==> e in x.store)
    ensures e in Holdings(x.pairs[i]) || e in spool ==> e in x.store && FromSpool(WorldOf(x, b, i), spool, e) == Got(x.store[e])
    ensures e !in Holdings(x.pairs[i]) && e !in spool ==> FromSpool(WorldOf(x, b, i), spool, e) == NotFound
  {
  }

  /** Serving, given what the one table entry and the one baseline answer are. */
  lemma ServeDecoded(w: World, spool: Spool, d: Digest, ref: Bytes, data: Bytes)
    requires d in w.blobs && w.blobs[d].encoding == Patch && d in w.files && Matches(w.h, d, data)
    requires FromSpool(w, spool, w.blobs[d].patchFrom) == Got(ref) && Matches(w.h, w.blobs[d].patchFrom, ref)
    requires w.decode(ref, w.files[d]) == Some(data)
    ensures Serve(w, spool, d) == Served(data)
  {
  }

  /** A wanted blob comes back exactly, or its patch source is missing; nothing else can happen. */
  lemma ServeExact(x: Input, b: Bundle, i: nat, spool: Spool, d: Digest)
    requires Sound(x, b) && i < |x.pairs| && d in Wanted(x.pairs[i]) && Agrees(x, spool)
    ensures d in x.store
    ensures Reachable(b, x.pairs[i], spool, d) ==> Serve(WorldOf(x, b, i), spool, d) == Served(x.store[d])
    ensures !Reachable(b, x.pairs[i], spool, d) ==>
      Serve(WorldOf(x, b, i), spool, d) == Refused(MissingPatchSource(d, b.blobs[d].patchFrom))
  {
    assert WantMet(x, b, i, d);
    if d !in b.blobs {
      SpooledIs(x, b, i, spool, d);
    } else {
      assert Decodes(x, b, d);
      if b.blobs[d].encoding == Patch {
        var from := b.blobs[d].patchFrom;
        SpooledIs(x, b, i, spool, from);
        if Reachable(b, x.pairs[i], spool, d) {
          ServeDecoded(WorldOf(x, b, i), spool, d, x.store[from], x.store[d]);
        }
      }
    }
  }

  lemma SpoolStaysAgreeing(x: Input, b: Bundle, i: nat, spool: Spool, d: Digest)
    requires i < |x.pairs| && Agrees(x, spool)
    ensures Agrees(x, SpoolNext(WorldOf(x, b, i), spool, d))
  {
  }

  /** The stored bytes of a list of digests. */
  function Stored(x: Input, ds: seq<Digest>): seq<Bytes>
    requires forall d :: d in ds ==> d in x.store
  {
    if |ds| == 0 then [] else Stored(x, ds[..|ds| - 1]) + [x.store[ds[|ds| - 1]]]
  }

  /** The spool grows by this image's own baseline digests only. */
  predicate Grown(p: Pair, before: Spool, after: Spool) {
    && (forall d :: d in before ==> d in after)
    && (forall d :: d in after ==> d in before || d in Holdings(p))
  }

  lemma SpoolGrows(x: Input, b: Bundle, i: nat, spool: Spool, d: Digest)
    requires i < |x.pairs|
    ensures Grown(x.pairs[i], spool, SpoolNext(WorldOf(x, b, i), spool, d))
  {
  }

  /** What copying the blobs ds comes to. */
  predicate CopyMeans(x: Input, b: Bundle, p: Pair, spool: Spool, ds: seq<Digest>, r: Copied)
    requires forall d :: d in ds ==> d in x.store
  {
    && (r.why.None? <==> forall d :: d in ds ==> Reachable(b, p, spool, d))
    && (r.why.None? ==> r.blobs == Stored(x, ds))
    && (r.why.Some? ==> r.why.value.MissingPatchSource?)
    && Agrees(x, r.spool) && Grown(p, spool, r.spool)
  }

  /** Whatever agreeing bytes the spool holds, a whole copy returns the stored bytes in order exactly when every
      patch source is in the image's own baseline or spooled already; otherwise a source is missing. */
  lemma {:induction false} CopyExact(x: Input, b: Bundle, i: nat, spool: Spool, ds: seq<Digest>)
    requires Sound(x, b) && i < |x.pairs| && Agrees(x, spool)
    requires forall d :: d in ds ==> d in x.store && d in Wanted(x.pairs[i])
    ensures CopyMeans(x, b, x.pairs[i], spool, ds, ServeAll(WorldOf(x, b, i), spool, ds))
    decreases |ds|
  {
    if |ds| > 0 {
      var front, d := ds[..|ds| - 1], ds[|ds| - 1];
      CopyExact(x, b, i, spool, front);
      var p := ServeAll(WorldOf(x, b, i), spool, front);
      ServeExact(x, b, i, p.spool, d);
      SpoolStaysAgreeing(x, b, i, p.spool, d);
      SpoolGrows(x, b, i, p.spool, d);
      CopyOneMore(x, b, x.pairs[i], spool, ds, p, Serve(WorldOf(x, b, i), p.spool, d), SpoolNext(WorldOf(x, b, i), p.spool, d));
    }
  }

  lemma CopyOneMore(x: Input, b: Bundle, p: Pair, spool: Spool, ds: seq<Digest>, prev: Copied, served: Served, after: Spool)
    requires |ds| > 0 && (forall d :: d in ds ==> d in x.store) && CopyMeans(x, b, p, spool, ds[..|ds| - 1], prev)
    requires Agrees(x, after) && Grown(p, prev.spool, after)
    requires var d := ds[|ds| - 1];
      if Reachable(b, p, prev.spool, d) then served == Served(x.store[d])
      else served == Refused(MissingPatchSource(d, b.blobs[d].patchFrom))
    ensures CopyMeans(x, b, p, spool, ds,
              if prev.why.Some? then prev
              else if served.Served? then Copied(prev.blobs + [served.data], None, after)
              else Copied(prev.blobs, Some(served.why), after))
  {
    var front, d := ds[..|ds| - 1], ds[|ds| - 1];
    assert Reachable(b, p, prev.spool, d) <==> Reachable(b, p, spool, d);
    assert forall e :: e in ds <==> e in front || e == d;
  }

  lemma PatchSpools(x: Input, b: Bundle, i: nat, spool: Spool, d: Digest)
    requires Sound(x, b) && i < |x.pairs| && Agrees(x, spool)
    requires Serve(WorldOf(x, b, i), spool, d).Served?
    ensures d in b.blobs && b.blobs[d].encoding == Patch ==> b.blobs[d].patchFrom in SpoolNext(WorldOf(x, b, i), spool, d)
  {
  }

  /** A finished copy leaves every patch source it used in the spool. */
  lemma {:induction false} CopyLeavesSources(x: Input, b: Bundle, i: nat, spool: Spool, ds: seq<Digest>)
    requires Sound(x, b) && i < |x.pairs| && Agrees(x, spool) && ServeAll(WorldOf(x, b, i), spool, ds).why.None?
    requires forall d :: d in ds ==> d in x.store && d in Wanted(x.pairs[i])
    ensures forall d :: d in ds && d in b.blobs && b.blobs[d].encoding == Patch ==>
      b.blobs[d].patchFrom in ServeAll(WorldOf(x, b, i), spool, ds).spool
    decreases |ds|
  {
    if |ds| > 0 {
      var front, d := ds[..|ds| - 1], ds[|ds| - 1];
      CopyLeavesSources(x, b, i, spool, front);
      CopyExact(x, b, i, spool, front);
      var p := ServeAll(WorldOf(x, b, i), spool, front);
      PatchSpools(x, b, i, p.spool, d);
      SpoolGrows(x, b, i, p.spool, d);
    }
  }

  /** The condition for image i, which can be read off the sidecar, the baseline's manifest and the spool. */
  predicate SourcesAt(b: Bundle, p: Pair, spool: Spool) {
    forall d :: d in Wanted(p) ==> Reachable(b, p, spool, d)
  }

  /** Every patch source is in the image's own baseline, so nothing depends on the other images. */
  predicate SourcesHeld(b: Bundle, p: Pair) { SourcesAt(b, p, map[]) }

  /**
   * Round trip for a bundle: image i, applied to its own baseline with whatever agreeing bytes the images
   * before it have left in the shared spool, yields exactly the target's layers and config if and
   * only if every patch it meets has its source there; and the spool it leaves agrees again.
   */
  lemma RoundTripIff(x: Input, b: Bundle, i: nat, spool: Spool)
    requires Sound(x, b) && i < |x.pairs| && Agrees(x, spool) && forall d :: d in Wanted(x.pairs[i]) ==> d in x.store
    ensures var r := ServeAll(WorldOf(x, b, i), spool, Wanted(x.pairs[i]));
      && (SourcesAt(b, x.pairs[i], spool) <==> r.why.None? && r.blobs == Stored(x, Wanted(x.pairs[i])))
      && Agrees(x, r.spool) && Grown(x.pairs[i], spool, r.spool)
  {
    CopyExact(x, b, i, spool, Wanted(x.pairs[i]));
  }

  // ---- When the condition holds ----

  /** Layer d of image i comes from its own baseline in the plan, yet the bundle carries another pair's patch for it. */
  predicate Crossed(b: Bundle, p: Pair, d: Digest) {
    d in Wanted(p) && d in Layers(p) && d in b.blobs && b.blobs[d].encoding == Patch
  }

  /** A patch some image ships itself has its source in that image's baseline. */
  lemma OwnPatchReachable(x: Input, c: Ctx, b: Bundle, i: nat, r: BlobRef)
    requires c.jobs == JobsOf(x.pairs) && i < |x.pairs| && Ships(x.pairs, Job(i, r))
    requires r.digest in b.blobs && Meaning(x, c, b, r.digest)
    ensures Reachable(b, x.pairs[i], map[], r.digest)
  {
    if b.blobs[r.digest].encoding == Patch {
      var j: nat :| PatchIn(x, c, b, r.digest, j);
      JobsExact(x.pairs);
      var n :| 0 <= n < |c.jobs| && c.jobs[n] == Job(i, r);
      if n < j { RefsSeparate(c.jobs, n, j); } else if j < n { RefsSeparate(c.jobs, j, n); }
      ListedHeld(x.pairs[i], b.blobs[r.digest].patchFrom);
    }
  }

  /** The seeded entries of a finished pool are still the seeds. */
  ghost predicate SeedsKept(c: Ctx, b: Bundle) {
    forall d :: d in c.seeds ==> d in b.blobs && b.blobs[d] == c.seeds[d]
  }

  /** Only crossed layers can lack their source, so the condition is about those alone. */
  lemma OnlyCrossedMatter(x: Input, c: Ctx, b: Bundle, i: nat)
    requires Consistent(x) && Setup(x, c) && Exported(x, c, b) && SeedsKept(c, b) && i < |x.pairs|
    ensures SourcesHeld(b, x.pairs[i]) <==>
      forall d :: Crossed(b, x.pairs[i], d) ==> b.blobs[d].patchFrom in Holdings(x.pairs[i])
  {
    var p := x.pairs[i];
    forall d | d in Wanted(p) && !Crossed(b, p, d) ensures Reachable(b, p, map[], d) {
      WantedStored(x, i, d);
      if d in b.blobs && d !in Layers(p) {
        assert Meaning(x, c, b, d);
        if r :| r in p.target && r.digest == d {
          OwnPatchReachable(x, c, b, i, r);
        } else {
          assert p in x.pairs;
          assert d in SeedKeys(x.pairs);
        }
      }
    }
  }

  /** No image reuses a layer that another pair ships: checkable before exporting. */
  predicate NoLayerCrosses(pairs: seq<Pair>) {
    forall i, k :: 0 <= i < |pairs| && 0 <= k < |pairs| ==> Apart(pairs[i], pairs[k])
  }

  predicate Apart(p: Pair, q: Pair) {
    forall d, r :: d in Wanted(p) && d in Layers(p) && r in q.target && r.digest == d ==> d in Layers(q)
  }

  /** Some pair ships a crossed layer, and that pair's baseline holds the source. */
  lemma CrossedShipper(x: Input, c: Ctx, b: Bundle, d: Digest) returns (k: nat)
    requires c.jobs == JobsOf(x.pairs) && Meaning(x, c, b, d) && d in b.blobs && b.blobs[d].encoding == Patch
    ensures k < |x.pairs| && !c.off && b.blobs[d].patchFrom in Holdings(x.pairs[k])
    ensures d !in Layers(x.pairs[k]) && exists r :: r in x.pairs[k].target && r.digest == d
  {
    var j: nat :| PatchIn(x, c, b, d, j);
    k := c.jobs[j].pair;
    JobsExact(x.pairs);
    assert c.jobs[j] in JobsOf(x.pairs);
    ListedHeld(x.pairs[k], b.blobs[d].patchFrom);
  }

  lemma ReusedIsNotShipped(pairs: seq<Pair>, i: nat, k: nat, d: Digest)
    requires NoLayerCrosses(pairs) && i < |pairs| && k < |pairs|
    requires d in Wanted(pairs[i]) && d in Layers(pairs[i]) && exists r :: r in pairs[k].target && r.digest == d
    ensures d in Layers(pairs[k])
  {
    assert Apart(pairs[i], pairs[k]);
  }

  /** One image, mode off, no layer crossing pairs, or baselines holding the same blobs. */
  predicate Safe(x: Input, c: Ctx) {
    |x.pairs| == 1 || c.off || NoLayerCrosses(x.pairs) || SameHoldings(x.pairs)
  }

  lemma SafeCrossing(x: Input, c: Ctx, b: Bundle, i: nat, d: Digest)
    requires c.jobs == JobsOf(x.pairs) && Meaning(x, c, b, d) && i < |x.pairs| && Safe(x, c) && Crossed(b, x.pairs[i], d)
    ensures b.blobs[d].patchFrom in Holdings(x.pairs[i])
  {
    var k := CrossedShipper(x, c, b, d);
    if NoLayerCrosses(x.pairs) { ReusedIsNotShipped(x.pairs, i, k, d); }
  }

  /** Four situations known before exporting in which every image of the bundle round-trips. */
  lemma SafeBundles(x: Input, c: Ctx, b: Bundle, i: nat)
    requires Consistent(x) && Setup(x, c) && Exported(x, c, b) && SeedsKept(c, b) && i < |x.pairs|
    requires Safe(x, c)
    ensures SourcesHeld(b, x.pairs[i])
  {
    forall d | Crossed(b, x.pairs[i], d) ensures b.blobs[d].patchFrom in Holdings(x.pairs[i]) {
      assert Meaning(x, c, b, d);
      SafeCrossing(x, c, b, i, d);
    }
    OnlyCrossedMatter(x, c, b, i);
  }

  predicate SameHoldings(pairs: seq<Pair>) {
    forall i, k :: 0 <= i < |pairs| && 0 <= k < |pairs| ==> Holdings(pairs[i]) == Holdings(pairs[k])
  }

  // ---- Preflight agrees ----

  lemma WantedLayers(p: Pair, layers: seq<Digest>)
    requires layers == Mapped(p.target, (b: BlobRef) => b.digest)
    ensures forall d :: d in Wanted(p) <==> d in layers || d == p.config.digest
  {
    forall d ensures d in Wanted(p) <==> d in layers || d == p.config.digest {
      if d in layers {
        var k :| 0 <= k < |layers| && layers[k] == d;
        assert Wanted(p)[k] == d;
      }
      assert Wanted(p)[|layers|] == p.config.digest;
    }
  }

  /** For an exported bundle the preflight report is the round-trip condition itself: it never lists a reuse
      layer, its missing patch sources are in the spool exactly when all sources are at hand, and the
      verdict is Ok exactly when the baseline alone has them. */
  lemma PreflightDecides(x: Input, b: Bundle, i: nat, spool: Spool, r: P.Report)
    requires Sound(x, b) && i < |x.pairs| && P.SourcesNamed(b.blobs)
    requires x.pairs[i].config.digest in b.blobs && b.blobs[x.pairs[i].config.digest].encoding == Full
    requires P.Scanned(r, b.blobs, Mapped(x.pairs[i].target, (t: BlobRef) => t.digest), BaselineOf(x.pairs[i]))
    ensures P.AllSpooled(r, spool) <==> SourcesAt(b, x.pairs[i], spool)
    ensures r.verdict == P.Ok <==> SourcesHeld(b, x.pairs[i])
    ensures r.verdict != P.MissingReuse
  {
    var p := x.pairs[i];
    var layers := Mapped(p.target, (t: BlobRef) => t.digest);
    WantedLayers(p, layers);
    NothingReused(x, b, i, layers);
    SourcesBySet(b, p, layers, spool);
    SourcesBySet(b, p, layers, map[]);
    SpooledBySet(r, b.blobs, layers, BaselineOf(p), spool);
    SpooledBySet(r, b.blobs, layers, BaselineOf(p), map[]);
    P.VerdictByLists(r, b.blobs, layers, BaselineOf(p));
  }

  lemma NothingReused(x: Input, b: Bundle, i: nat, layers: seq<Digest>)
    requires Sound(x, b) && i < |x.pairs| && forall d :: d in layers ==> d in Wanted(x.pairs[i])
    ensures P.ReuseSet(b.blobs, layers) - Holdings(x.pairs[i]) == {}
  {
    forall d | d in P.ReuseSet(b.blobs, layers) ensures d in Holdings(x.pairs[i]) { assert WantMet(x, b, i, d); }
  }

  lemma SourcesBySet(b: Bundle, p: Pair, layers: seq<Digest>, spool: Spool)
    requires P.SourcesNamed(b.blobs) && p.config.digest in b.blobs && b.blobs[p.config.digest].encoding == Full
    requires forall d :: d in Wanted(p) <==> d in layers || d == p.config.digest
    ensures SourcesAt(b, p, spool) <==> forall e :: e in P.PatchSet(b.blobs, layers) - Holdings(p) ==> e in spool
  {
    if SourcesAt(b, p, spool) {
      forall e | e in P.PatchSet(b.blobs, layers) - Holdings(p) ensures e in spool {
        var d :| d in layers && P.Patched(b.blobs, d) && b.blobs[d].patchFrom == e;
        assert Reachable(b, p, spool, d);
      }
    } else {
      var d :| d in Wanted(p) && !Reachable(b, p, spool, d);
      assert b.blobs[d].patchFrom in P.PatchSet(b.blobs, layers);
    }
  }

  lemma SpooledBySet(r: P.Report, blobs: map<Digest, BlobEntry>, layers: seq<Digest>, base: P.Manifest, spool: Spool)
    requires P.Scanned(r, blobs, layers, base) && P.ReuseSet(blobs, layers) - P.Available(base) == {}
    ensures P.AllSpooled(r, spool) <==> forall e :: e in P.PatchSet(blobs, layers) - P.Available(base) ==> e in spool
  {
    assert forall i :: 0 <= i < |r.missingReuse| ==> r.missingReuse[i] in Elements(r.missingReuse);
    forall e ensures e in r.missingPatch <==> e in P.PatchSet(blobs, layers) - P.Available(base) {
      assert e in r.missingPatch <==> e in Elements(r.missingPatch);
    }
    forall i | 0 <= i < |r.missingPatch| ensures r.missingPatch[i] in r.missingPatch {}
  }

  // ---- The sidecar ----

  function ImageOf(p: Pair): ImageEntry { ImageEntry(p.name, p.baselineManifest, p.manifest, p.mediaType) }

  function SidecarOf(blobs: map<Digest, BlobEntry>, pairs: seq<Pair>, platform: string): Sidecar {
    Sidecar(platform, true, blobs, Mapped(pairs, (p: Pair) => ImageOf(p)))
  }

  /** The sidecar lists each pair under its own names: image i is pair i's target over pair i's baseline. */
  lemma SidecarLists(blobs: map<Digest, BlobEntry>, pairs: seq<Pair>, platform: string, i: nat)
    requires i < |pairs|
    ensures var s := SidecarOf(blobs, pairs, platform);
      && s.platform == platform && s.hasBlobs && s.blobs == blobs && |s.images| == |pairs|
      && s.images[i].name == pairs[i].name
      && s.images[i].baselineManifest == pairs[i].baselineManifest
      && s.images[i].targetManifest == pairs[i].manifest
      && s.images[i].targetMediaType == pairs[i].mediaType
  {
  }

  method CopyEntries(entries: map<Digest, BlobEntry>) returns (blobs: map<Digest, BlobEntry>)
    ensures blobs == entries
  {
    blobs := map[];
    var todo := entries.Keys;
    while todo != {}
      invariant todo <= entries.Keys && blobs.Keys == entries.Keys - todo
      invariant forall d :: d in blobs ==> blobs[d] == entries[d]
      decreases |todo|
    {
      var d :| d in todo;
      blobs := blobs[d := entries[d]];
      todo := todo - {d};
    }
  }

  method AssembleSidecar(entries: map<Digest, BlobEntry>, pairs: seq<Pair>, platform: string) returns (s: Sidecar)
    ensures s == SidecarOf(entries, pairs, platform)
  {
    var blobs := CopyEntries(entries);
    var images: seq<ImageEntry> := [];
    for i := 0 to |pairs|
      invariant |images| == i && forall j :: 0 <= j < i ==> images[j] == ImageOf(pairs[j])
    {
      images := images + [ImageOf(pairs[i])];
    }
    assert images == Mapped(pairs, (p: Pair) => ImageOf(p));
    s := Sidecar(platform, true, blobs, images);
  }

  predicate NameFits(pairs: seq<Pair>, i: nat)
    requires i < |pairs|
  {
    NameOk(pairs[i].name) && forall j :: 0 <= j < i ==> pairs[j].name != pairs[i].name
  }

  /** Every pair's name is well formed and new. */
  predicate NamesOk(pairs: seq<Pair>) { forall i :: 0 <= i < |pairs| ==> NameFits(pairs, i) }

  lemma EntriesValid(x: Input, c: Ctx, b: Bundle, d: Digest)
    requires Consistent(x) && d in b.blobs && Meaning(x, c, b, d)
    ensures EntryOk(b.blobs[d])
    ensures b.blobs[d].encoding == Full || (b.blobs[d].encoding == Patch && !c.off && b.blobs[d].patchFrom != "")
  {
    if !PlainIn(x, b, d) {
      var j: nat :| PatchIn(x, c, b, d, j);
      var from := b.blobs[d].patchFrom;
      MatchIsCanonical(x.h, from, x.store[from]);
    }
  }

  lemma ImageValid(x: Input, b: Bundle, platform: string, i: nat)
    requires Consistent(x) && SeedKeys(x.pairs) <= b.blobs.Keys && i < |x.pairs|
    ensures ImageOk(SidecarOf(b.blobs, x.pairs, platform), i) <==> NameFits(x.pairs, i)
  {
    ManifestsNamed(x, i);
    ImageOfPair(SidecarOf(b.blobs, x.pairs, platform), x.pairs, i);
  }

  lemma ManifestsNamed(x: Input, i: nat)
    requires Consistent(x) && i < |x.pairs|
    ensures x.pairs[i].manifest != "" && x.pairs[i].baselineManifest != "" && x.pairs[i].manifest in SeedKeys(x.pairs)
  {
    var p := x.pairs[i];
    assert PairStored(x, p);
    assert p in x.pairs;
    MatchIsCanonical(x.h, p.manifest, x.store[p.manifest]);
    MatchIsCanonical(x.h, p.baselineManifest, x.store[p.baselineManifest]);
  }

  lemma ImageOfPair(s: Sidecar, pairs: seq<Pair>, i: nat)
    requires i < |pairs| == |s.images| && forall j :: 0 <= j < |pairs| ==> s.images[j] == ImageOf(pairs[j])
    requires pairs[i].manifest != "" && pairs[i].baselineManifest != "" && pairs[i].manifest in s.blobs
    ensures ImageOk(s, i) <==> NameFits(pairs, i)
  {
    assert forall j :: 0 <= j < i ==> s.images[j].name == pairs[j].name;
  }

  lemma AllEntriesValid(x: Input, c: Ctx, b: Bundle)
    requires Consistent(x) && Exported(x, c, b)
    ensures forall d :: d in b.blobs ==> EntryOk(b.blobs[d])
    ensures c.off ==> forall d :: d in b.blobs ==> b.blobs[d].encoding == Full
    ensures P.SourcesNamed(b.blobs)
  {
    forall d | d in b.blobs ensures EntryOk(b.blobs[d]) && (c.off ==> b.blobs[d].encoding == Full) && (b.blobs[d].encoding == Patch ==> b.blobs[d].patchFrom != "") {
      assert Meaning(x, c, b, d);
      EntriesValid(x, c, b, d);
    }
  }

  lemma AllImagesValid(x: Input, b: Bundle, platform: string)
    requires Consistent(x) && SeedKeys(x.pairs) <= b.blobs.Keys
    ensures (forall i :: 0 <= i < |x.pairs| ==> ImageOk(SidecarOf(b.blobs, x.pairs, platform), i)) <==> NamesOk(x.pairs)
  {
    forall i | 0 <= i < |x.pairs| ensures ImageOk(SidecarOf(b.blobs, x.pairs, platform), i) <==> NameFits(x.pairs, i) {
      ImageValid(x, b, platform, i);
    }
  }

  /** Every exported sidecar validates, given what the command line checks: a platform, at least one
      pair and well-formed distinct names; without one of these it does not. */
  lemma ExportedSidecarValid(x: Input, c: Ctx, b: Bundle, platform: string)
    requires Consistent(x) && Exported(x, c, b)
    ensures SidecarOk(SidecarOf(b.blobs, x.pairs, platform)) <==> platform != "" && |x.pairs| > 0 && NamesOk(x.pairs)
  {
    AllEntriesValid(x, c, b);
    AllImagesValid(x, b, platform);
  }

  /** p ships d, which its own baseline lacks, and that baseline has a layer from. */
  predicate Provides(p: Pair, d: Digest, from: Digest) {
    Listed(p.baseline, from) && (exists r :: r in p.target && r.digest == d) && d !in Layers(p)
  }

  /** A patch entry's source is always a baseline layer of the one pair that ships it, and it is a saving. */
  lemma PatchProvenance(x: Input, c: Ctx, b: Bundle, d: Digest)
    requires Consistent(x) && Setup(x, c) && Exported(x, c, b) && d in b.blobs && b.blobs[d].encoding == Patch
    ensures exists k :: 0 <= k < |x.pairs| && Provides(x.pairs[k], d, b.blobs[d].patchFrom)
    ensures 0 < b.blobs[d].archiveSize < b.blobs[d].size && b.blobs[d].archiveSize == |b.files[d]|
  {
    assert Meaning(x, c, b, d);
    var j: nat :| PatchIn(x, c, b, d, j);
    JobsShip(x, c, j);
    assert Provides(x.pairs[c.jobs[j].pair], d, b.blobs[d].patchFrom);
  }

  // ---- The whole way ----

  lemma FinishedSeeds(c: Ctx, workers: int, budget: int, s: State)
    requires CtxBase(c) && Reached(c, workers, budget, s) && Complete(c, s)
    ensures SeedsKept(c, BundleOf(s))
  {
    ReachedInv(c, workers, budget, s);
    forall d | d in c.seeds ensures d in s.entries && s.entries[d] == c.seeds[d] { assert EntryCanon(c, s, d); }
  }

  /** The config ships in full, so the condition and preflight may both ignore it. */
  lemma ConfigIsFull(x: Input, c: Ctx, b: Bundle, i: nat)
    requires Setup(x, c) && SeedsKept(c, b) && i < |x.pairs|
    ensures x.pairs[i].config.digest in b.blobs && b.blobs[x.pairs[i].config.digest].encoding == Full
  {
    assert x.pairs[i] in x.pairs;
    assert x.pairs[i].config.digest in SeedKeys(x.pairs);
  }

  lemma FinishedBundle(x: Input, c: Ctx, workers: int, budget: int, s: State)
    requires Consistent(x) && Setup(x, c) && Reached(c, workers, budget, s) && Complete(c, s)
    ensures Exported(x, c, BundleOf(s)) && Sound(x, BundleOf(s)) && SeedsKept(c, BundleOf(s)) && P.SourcesNamed(BundleOf(s).blobs)
  {
    ExportMeans(x, c, workers, budget, s);
    ExportSound(x, c, BundleOf(s));
    FinishedSeeds(c, workers, budget, s);
    AllEntriesValid(x, c, BundleOf(s));
  }

  lemma VerdictIsRoundTrip(x: Input, b: Bundle, i: nat, spool: Spool, r: P.Report)
    requires Sound(x, b) && i < |x.pairs| && P.SourcesNamed(b.blobs) && Agrees(x, spool)
    requires x.pairs[i].config.digest in b.blobs && b.blobs[x.pairs[i].config.digest].encoding == Full
    requires P.Scanned(r, b.blobs, Mapped(x.pairs[i].target, (t: BlobRef) => t.digest), BaselineOf(x.pairs[i]))
    requires forall d :: d in Wanted(x.pairs[i]) ==> d in x.store
    ensures P.AllSpooled(r, spool) <==>
      (var copied := ServeAll(WorldOf(x, b, i), spool, Wanted(x.pairs[i]));
       copied.why.None? && copied.blobs == Stored(x, Wanted(x.pairs[i])))
  {
    PreflightDecides(x, b, i, spool, r);
    RoundTripIff(x, b, i, spool);
  }

  /**
   * Apply undoes diff.  Take any consistent input and any error-free export of it, under any schedule,
   * worker count and budget, and scan image i's own baseline.  Copying the image from the bundle, with
   * the spool as the images before it left it, returns the target's layers and config byte for byte
   * exactly when that spool holds whatever the scan listed as missing; the verdict is Ok when
   * that is nothing, so an accepted image comes back after any others and before any.
   */
  lemma ApplyUndoesDiff(x: Input, c: Ctx, workers: int, budget: int, s: State, i: nat, spool: Spool, r: P.Report)
    requires Consistent(x) && Setup(x, c) && Reached(c, workers, budget, s) && Complete(c, s) && i < |x.pairs|
    requires forall d :: d in Wanted(x.pairs[i]) ==> d in x.store
    requires Agrees(x, spool)
    requires P.Scanned(r, s.entries, Mapped(x.pairs[i].target, (t: BlobRef) => t.digest), BaselineOf(x.pairs[i]))
    ensures P.AllSpooled(r, spool) <==>
      (var copied := ServeAll(WorldOf(x, BundleOf(s), i), spool, Wanted(x.pairs[i]));
       copied.why.None? && copied.blobs == Stored(x, Wanted(x.pairs[i])))
    ensures r.verdict == P.Ok <==> P.AllSpooled(r, map[])
  {
    FinishedBundle(x, c, workers, budget, s);
    ConfigIsFull(x, c, BundleOf(s), i);
    VerdictIsRoundTrip(x, BundleOf(s), i, spool, r);
    PreflightDecides(x, BundleOf(s), i, map[], r);
  }

  lemma SafeFinished(x: Input, c: Ctx, workers: int, budget: int, s: State, i: nat)
    requires Consistent(x) && Setup(x, c) && Reached(c, workers, budget, s) && Complete(c, s) && i < |x.pairs| && Safe(x, c)
    ensures Sound(x, BundleOf(s)) && SourcesHeld(BundleOf(s), x.pairs[i])
  {
    FinishedBundle(x, c, workers, budget, s);
    SafeBundles(x, c, BundleOf(s), i);
  }

  lemma HeldCopies(x: Input, b: Bundle, i: nat, spool: Spool)
    requires Sound(x, b) && i < |x.pairs| && SourcesHeld(b, x.pairs[i]) && Agrees(x, spool)
    requires forall d :: d in Wanted(x.pairs[i]) ==> d in x.store
    ensures var copied := ServeAll(WorldOf(x, b, i), spool, Wanted(x.pairs[i]));
      copied.why.None? && copied.blobs == Stored(x, Wanted(x.pairs[i]))
  {
    assert forall d :: d in Wanted(x.pairs[i]) ==> Reachable(b, x.pairs[i], map[], d);
    CopyExact(x, b, i, spool, Wanted(x.pairs[i]));
  }

  /**
   * For one image always, and for a bundle in mode off, or whose reused layers nobody ships, or whose
   * baselines hold the same blobs, every image comes back byte for byte, whatever agreeing bytes other
   * images have spooled before it.
   */
  lemma SafeExportsRoundTrip(x: Input, c: Ctx, workers: int, budget: int, s: State, i: nat, spool: Spool)
    requires Consistent(x) && Setup(x, c) && Reached(c, workers, budget, s) && Complete(c, s) && i < |x.pairs|
    requires forall d :: d in Wanted(x.pairs[i]) ==> d in x.store
    requires Safe(x, c) && Agrees(x, spool)
    ensures var copied := ServeAll(WorldOf(x, BundleOf(s), i), spool, Wanted(x.pairs[i]));
      copied.why.None? && copied.blobs == Stored(x, Wanted(x.pairs[i]))
  {
    SafeFinished(x, c, workers, budget, s, i);
    HeldCopies(x, BundleOf(s), i, spool);
  }
}
