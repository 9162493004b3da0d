/** The export from parsed pairs to a sidecar: plan, seed, count, guard, encode, assemble. */
module Exporter {
  import opened Common
  import opened Fingerprint
  import opened Diff
  import opened Sorting
  import opened Workdir
  import opened Planner
  import opened BlobPool
  import opened Encode
  import opened Encoder
  import opened RoundTrip
  import Budget
  import ES = ExportSpool

  /** What each pair ships: the target layers its baseline lacks, in order. */
  predicate PlansOf(pairs: seq<Pair>, shipped: seq<seq<BlobRef>>) {
    |shipped| == |pairs| && forall p :: 0 <= p < |pairs| ==> shipped[p] == Select(pairs[p].target, Layers(pairs[p]), false)
  }

  /** Every pair's plan and the submission order they give. */
  method PlanPairs(pairs: seq<Pair>) returns (shipped: seq<seq<BlobRef>>, jobs: seq<Job>)
    ensures jobs == JobsOf(pairs) && PlansOf(pairs, shipped)
  {
    shipped, jobs := [], [];
    for n := 0 to |pairs|
      invariant PlansOf(pairs[..n], shipped) && jobs == JobsOf(pairs[..n])
    {
      assert pairs[..n + 1][..n] == pairs[..n];
      var refs := PlanPair(pairs[n]);
      ghost var before := shipped;
      shipped := shipped + [refs];
      assert forall p :: 0 <= p < n ==> shipped[p] == before[p] && pairs[..n + 1][p] == pairs[..n][p];
      jobs := jobs + JobsFor(n, refs);
    }
    assert pairs[..|pairs|] == pairs;
  }

  method PlanPair(p: Pair) returns (shipped: seq<BlobRef>)
    ensures shipped == Select(p.target, Layers(p), false)
  {
    var digests := Mapped(p.baseline, (m: Meta) => m.digest);
    LayersAre(p, digests);
    var plan := ComputePlan(p.target, digests);
    shipped := plan.shipped;
  }

  lemma LayersAre(p: Pair, digests: seq<Digest>)
    requires digests == Mapped(p.baseline, (m: Meta) => m.digest)
    ensures Elements(digests) == Layers(p)
  {
    forall d ensures d in Elements(digests) <==> d in Layers(p) {
      if d in digests {
        var i :| 0 <= i < |digests| && digests[i] == d;
        assert p.baseline[i] in p.baseline && p.baseline[i].digest == d;
      }
      if d in Layers(p) {
        var m :| m in p.baseline && m.digest == d;
        var i :| 0 <= i < |p.baseline| && p.baseline[i] == m;
        assert digests[i] == d;
      }
    }
  }

  /** All baseline layers of the first n pairs. */
  function Baselines(pairs: seq<Pair>): seq<Meta> {
    if |pairs| == 0 then [] else Baselines(pairs[..|pairs| - 1]) + pairs[|pairs| - 1].baseline
  }

  /** Each distinct digest once, with the descriptor it was first listed with. */
  predicate Deduplicated(out: seq<Meta>, all: seq<Meta>) {
    && NoRepeats(Mapped(out, (m: Meta) => m.digest))
    && (forall m :: m in out ==> FirstListed(all, m))
    && (forall m :: m in all ==> Listed(out, m.digest))
  }

  predicate FirstListed(all: seq<Meta>, m: Meta) {
    exists i :: 0 <= i < |all| && all[i] == m && NotBefore(all, i, m.digest)
  }

  predicate NotBefore(all: seq<Meta>, i: nat, d: Digest)
    requires i <= |all|
  {
    forall j :: 0 <= j < i ==> all[j].digest != d
  }

  lemma FirstStays(out: seq<Meta>, all: seq<Meta>, m: Meta)
    requires forall x :: x in out ==> FirstListed(all, x)
    requires forall x :: x in all ==> Listed(out, x.digest)
    ensures forall x :: x in (if Listed(out, m.digest) then out else out + [m]) ==> FirstListed(all + [m], x)
  {
    var more := all + [m];
    forall x | x in out ensures FirstListed(more, x) {
      var i :| 0 <= i < |all| && all[i] == x && NotBefore(all, i, x.digest);
      assert more[i] == x && NotBefore(more, i, x.digest);
    }
    if !Listed(out, m.digest) {
      forall j | 0 <= j < |all| ensures all[j].digest != m.digest { assert all[j] in all; }
      assert more[|all|] == m && NotBefore(more, |all|, m.digest);
    }
  }

  lemma DedupNext(out: seq<Meta>, all: seq<Meta>, m: Meta)
    requires Deduplicated(out, all)
    ensures Deduplicated(if Listed(out, m.digest) then out else out + [m], all + [m])
    ensures forall d :: Listed(out + [m], d) <==> Listed(out, d) || d == m.digest
  {
    ListedNext(out, m);
    FirstStays(out, all, m);
    var digests := (x: Meta) => x.digest;
    if !Listed(out, m.digest) {
      forall d | d in Elements(Mapped(out, digests)) ensures d != m.digest {
        var i :| 0 <= i < |out| && Mapped(out, digests)[i] == d;
        assert out[i] in out;
      }
      ElementsAppend(Mapped(out, digests), m.digest);
      assert Mapped(out + [m], digests) == Mapped(out, digests) + [m.digest];
      AllListedNext(out, all, m);
    }
  }

  lemma AllListedNext(out: seq<Meta>, all: seq<Meta>, m: Meta)
    requires forall x :: x in all ==> Listed(out, x.digest)
    ensures forall x :: x in all + [m] ==> Listed(out + [m], x.digest)
  {
    ListedNext(out, m);
  }

  predicate SeenExact(seen: set<Digest>, out: seq<Meta>) {
    (forall d :: d in seen ==> Listed(out, d)) && forall m :: m in out ==> m.digest in seen
  }

  /** What priming submits: one fetch per distinct baseline digest of the whole bundle. */
  method PrimeList(pairs: seq<Pair>) returns (out: seq<Meta>)
    ensures Deduplicated(out, Baselines(pairs))
  {
    out := [];
    var seen: set<Digest> := {};
    for n := 0 to |pairs|
      invariant Deduplicated(out, Baselines(pairs[..n])) && SeenExact(seen, out)
    {
      assert pairs[..n + 1][..n] == pairs[..n];
      out, seen := PrimePair(pairs[n].baseline, out, seen, Baselines(pairs[..n]));
    }
    assert pairs[..|pairs|] == pairs;
  }

  method PrimePair(ms: seq<Meta>, before: seq<Meta>, known: set<Digest>, ghost all: seq<Meta>) returns (out: seq<Meta>, seen: set<Digest>)
    requires Deduplicated(before, all) && SeenExact(known, before)
    ensures Deduplicated(out, all + ms) && SeenExact(seen, out)
  {
    out, seen := before, known;
    assert all + ms[..0] == all;
    for i := 0 to |ms|
      invariant Deduplicated(out, all + ms[..i]) && SeenExact(seen, out)
    {
      out, seen := PrimeOne(ms[i], out, seen, all + ms[..i]);
      assert all + ms[..i + 1] == all + ms[..i] + [ms[i]];
    }
    assert ms[..|ms|] == ms;
  }

  lemma SeenNext(known: set<Digest>, out: seq<Meta>, m: Meta)
    requires SeenExact(known, out)
    ensures SeenExact(known + {m.digest}, out + [m])
  {
    ListedNext(out, m);
  }

  method PrimeOne(m: Meta, before: seq<Meta>, known: set<Digest>, ghost all: seq<Meta>) returns (out: seq<Meta>, seen: set<Digest>)
    requires Deduplicated(before, all) && SeenExact(known, before)
    ensures Deduplicated(out, all + [m]) && SeenExact(seen, out)
  {
    DedupNext(before, all, m);
    out, seen := before, known;
    if m.digest !in known {
      out, seen := before + [m], known + {m.digest};
      SeenNext(known, before, m);
    }
  }

  lemma ListedNext(out: seq<Meta>, m: Meta)
    ensures forall d :: Listed(out + [m], d) <==> Listed(out, d) || d == m.digest
  {
    forall d ensures Listed(out + [m], d) <==> Listed(out, d) || d == m.digest {
      if Listed(out, d) {
        var x :| x in out && x.digest == d;
        assert x in out + [m];
      }
      assert m in out + [m];
    }
  }

  lemma SeedKeysNext(pairs: seq<Pair>, n: nat)
    requires n < |pairs|
    ensures SeedKeys(pairs[..n + 1]) == SeedKeys(pairs[..n]) + {pairs[n].manifest, pairs[n].config.digest}
  {
    assert pairs[..n + 1] == pairs[..n] + [pairs[n]];
    var a, b := SeedKeys(pairs[..n + 1]), SeedKeys(pairs[..n]) + {pairs[n].manifest, pairs[n].config.digest};
    assert pairs[n] in pairs[..n + 1];
    forall d ensures d in a <==> d in b {
      if d in a {
        var p :| p in pairs[..n + 1] && (p.manifest == d || p.config.digest == d);
        assert p in pairs[..n] || p == pairs[n];
      }
      if d in SeedKeys(pairs[..n]) {
        var p :| p in pairs[..n] && (p.manifest == d || p.config.digest == d);
        assert p in pairs[..n + 1];
      }
    }
  }

  /** The two registrations of one pair. */
  function AfterPair(at: (map<Digest, BlobEntry>, Files), store: map<Digest, Bytes>, p: Pair): (map<Digest, BlobEntry>, Files)
    requires p.manifest in store && p.config.digest in store
  {
    AfterRegister(AfterRegister(at, p.manifest, store[p.manifest], ManifestEntry(store[p.manifest], p.mediaType)),
                  p.config.digest, store[p.config.digest], ConfigEntry(p.config))
  }

  lemma SeedPair(store: map<Digest, Bytes>, p: Pair, at: (map<Digest, BlobEntry>, Files))
    requires SeedsHold(store, at) && p.manifest in store && p.config.digest in store
    requires Canonical(p.manifest) && Canonical(p.config.digest)
    ensures SeedsHold(store, AfterPair(at, store, p)) && SameButBlobs(at.1, AfterPair(at, store, p).1)
    ensures AfterPair(at, store, p).0.Keys == at.0.Keys + {p.manifest, p.config.digest}
  {
    RegisterKeeps(store, at, p.manifest, ManifestEntry(store[p.manifest], p.mediaType));
    var mid := AfterRegister(at, p.manifest, store[p.manifest], ManifestEntry(store[p.manifest], p.mediaType));
    RegisterKeeps(store, mid, p.config.digest, ConfigEntry(p.config));
  }

  /** A pair's manifest is named by its own hash, and both its digests are canonical. */
  lemma PairDigests(x: Input, p: Pair)
    requires Consistent(x) && PairStored(x, p)
    ensures DigestOf(x.h, "sha256", x.store[p.manifest]) == p.manifest
    ensures Canonical(p.manifest) && Canonical(p.config.digest)
  {
    MatchIsCanonical(x.h, p.manifest, x.store[p.manifest]);
    MatchIsCanonical(x.h, p.config.digest, x.store[p.config.digest]);
  }

  /** Every seeded entry has the size and media type some pair gives that manifest or config. */
  ghost predicate SeedsDescribed(x: Input, entries: map<Digest, BlobEntry>) {
    forall d :: d in entries ==> SeedDescribed(x, d, entries[d])
  }

  lemma SeedPairDescribed(x: Input, p: Pair, at: (map<Digest, BlobEntry>, Files))
    requires SeedsDescribed(x, at.0) && p in x.pairs && p.manifest in x.store && p.config.digest in x.store
    ensures SeedsDescribed(x, AfterPair(at, x.store, p).0)
  {
    var mid := AfterRegister(at, p.manifest, x.store[p.manifest], ManifestEntry(x.store[p.manifest], p.mediaType));
    assert SeedOf(x, p, p.manifest, ManifestEntry(x.store[p.manifest], p.mediaType)) && SeedOf(x, p, p.config.digest, ConfigEntry(p.config));
    assert SeedsDescribed(x, mid.0);
  }

  method SeedOnePair(x: Input, p: Pair, disk: Disk, pool: BlobPool.Pool)
    requires Consistent(x) && PairStored(x, p) && pool.Valid() && SeedsHold(x.store, (pool.entries, disk.files))
    requires p in x.pairs && SeedsDescribed(x, pool.entries)
    modifies disk, pool
    ensures SeedsDescribed(x, pool.entries)
    ensures pool.Valid() && pool.shipRefs == old(pool.shipRefs)
    ensures SeedsHold(x.store, (pool.entries, disk.files)) && SameButBlobs(old(disk.files), disk.files)
    ensures pool.entries.Keys == old(pool.entries).Keys + {p.manifest, p.config.digest}
  {
    PairDigests(x, p);
    SeedPair(x.store, p, (pool.entries, disk.files));
    SeedPairDescribed(x, p, (pool.entries, disk.files));
    SeedManifestAndConfig(x.h, disk, pool, x.store[p.manifest], p.mediaType, x.store[p.config.digest], p.config);
  }

  method SeedAll(x: Input, disk: Disk, pool: BlobPool.Pool)
    requires Consistent(x) && pool.Valid() && pool.entries == map[]
    modifies disk, pool
    ensures pool.Valid() && pool.shipRefs == old(pool.shipRefs)
    ensures SeedsHold(x.store, (pool.entries, disk.files)) && pool.entries.Keys == SeedKeys(x.pairs)
    ensures SeedsDescribed(x, pool.entries)
    ensures SameButBlobs(old(disk.files), disk.files)
  {
    for n := 0 to |x.pairs|
      invariant pool.Valid() && pool.shipRefs == old(pool.shipRefs)
      invariant SeedsHold(x.store, (pool.entries, disk.files)) && pool.entries.Keys == SeedKeys(x.pairs[..n])
      invariant SameButBlobs(old(disk.files), disk.files) && SeedsDescribed(x, pool.entries)
    {
      assert PairStored(x, x.pairs[n]) && x.pairs[n] in x.pairs;
      SeedKeysNext(x.pairs, n);
      SeedOnePair(x, x.pairs[n], disk, pool);
    }
    assert x.pairs[..|x.pairs|] == x.pairs;
  }

  /** The baseline spool's table: what it lists holds stored bytes. */
  predicate SpoolFits(x: Input, paths: map<Digest, Path>, files: Files) {
    forall d :: d in paths ==> SpooledAs(x, paths[d], d, files)
  }

  predicate SpooledAs(x: Input, q: Path, d: Digest, files: Files) {
    q.BaselineFile? && (d in x.store && q in files ==> files[q] == x.store[d])
  }

  function SpoolPaths(s: ES.State): map<Digest, Path> { map d | d in s.entries :: s.entries[d].path }

  /** What the spool hands over fits whenever the sources served stored bytes and no committing flight lost a
      tee write: then, and only then, every listed baseline is complete. */
  lemma PrimedSpoolFits(x: Input, run: seq<ES.Action>, s: ES.State)
    requires ES.Runs(ES.Init(), run, s)
    requires forall d :: d in s.entries ==> d in x.store && d in s.fetched && d in s.author && s.fetched[d] == x.store[d]
    ensures SpoolFits(x, SpoolPaths(s), s.files) <==> forall d :: d in s.entries ==> !ES.Tears(run, s.author[d])
  {
    ES.FileIsStream(run, s);
    var paths := SpoolPaths(s);
    forall d | d in s.entries ensures SpooledAs(x, paths[d], d, s.files) <==> !ES.Tears(run, s.author[d]) {
      assert ES.Holds(s.files, d, s.fetched[d]) <==> !ES.Tears(run, s.author[d]);
    }
    if SpoolFits(x, paths, s.files) {
      forall d | d in s.entries ensures !ES.Tears(run, s.author[d]) { assert d in paths; }
    }
  }

  /** e is what a planner for p works with. */
  ghost predicate EnvFor(e: Env, p: Pair, paths: map<Digest, Path>, codec: Codec) {
    multiset(e.baseline) == multiset(p.baseline) && e.paths == paths && e.codec == codec
  }

  ghost predicate EnvsFor(envs: seq<Env>, pairs: seq<Pair>, paths: map<Digest, Path>, codec: Codec) {
    |envs| == |pairs| && forall p :: 0 <= p < |envs| ==> EnvFor(envs[p], pairs[p], paths, codec)
  }

  /** e's planner is seeded with the spool's fingerprints and primed from the fetched files. */
  ghost predicate EnvPrimed(e: Env, fps: map<Digest, Option<Print>>, printer: (string, Bytes) -> Option<Print>, windowLog: int, files: Files) {
    && e.printer == printer && e.windowLog == windowLog
    && forall d :: Listed(e.baseline, d) ==> d in e.prints && PrintFits(e, fps, files, d)
  }

  ghost predicate PrintFits(e: Env, fps: map<Digest, Option<Print>>, files: Files, d: Digest)
    requires d in e.prints
  {
    if d in fps then e.prints[d] == fps[d]
    else if Fetched(e.paths, files, d)
    then exists m :: m in e.baseline && m.digest == d && e.prints[d] == e.printer(m.mediaType, files[e.paths[d]])
    else e.prints[d] == None
  }

  lemma PrimedFits(e: Env, seeded: map<Digest, Option<Print>>, fps: map<Digest, Option<Print>>, files: Files)
    requires forall d :: d in seeded <==> d in fps && Listed(e.baseline, d)
    requires forall d :: d in seeded ==> seeded[d] == fps[d]
    requires e.prints == Filled(e.baseline, seeded, e.paths, files, e.printer)
    ensures EnvPrimed(e, fps, e.printer, e.windowLog, files)
  {
    forall d | Listed(e.baseline, d) ensures d in e.prints && PrintFits(e, fps, files, d) {
      FilledMeans(e.baseline, seeded, e.paths, files, e.printer, d);
    }
  }

  /** One pair's planner, seeded with the spool's fingerprints and primed. */
  method MakePlanner(p: Pair, slice: seq<Meta> -> seq<Meta>, paths: map<Digest, Path>, fps: map<Digest, Option<Print>>,
      printer: (string, Bytes) -> Option<Print>, codec: Codec, windowLog: int, disk: Disk) returns (planner: LayerPlanner, env: Env)
    requires SortsByDigest(slice)
    ensures fresh(planner) && PlannerReady(env, planner) && EnvFor(env, p, paths, codec)
    ensures EnvPrimed(env, fps, printer, windowLog, disk.files)
  {
    planner := new LayerPlanner(p.baseline, slice, paths, printer, codec, windowLog);
    planner.SeedBaselineFingerprints(fps);
    ghost var seeded := planner.prints;
    planner.EnsureBaselineFP(disk);
    env := Env(planner.baseline, planner.prints, planner.paths, planner.printer, planner.codec, planner.windowLog);
    PrimedFits(env, seeded, fps, disk.files);
  }

  method MakePlanners(pairs: seq<Pair>, slice: seq<Meta> -> seq<Meta>, paths: map<Digest, Path>, fps: map<Digest, Option<Print>>,
      printer: (string, Bytes) -> Option<Print>, codec: Codec, windowLog: int, disk: Disk) returns (planners: seq<LayerPlanner>, envs: seq<Env>)
    requires SortsByDigest(slice)
    ensures forall p :: 0 <= p < |planners| ==> fresh(planners[p])
    ensures PlannersReady(envs, planners) && EnvsFor(envs, pairs, paths, codec)
    ensures forall p :: 0 <= p < |envs| ==> EnvPrimed(envs[p], fps, printer, windowLog, disk.files)
  {
    planners, envs := [], [];
    for n := 0 to |pairs|
      invariant |planners| == n && forall p :: 0 <= p < n ==> fresh(planners[p])
      invariant PlannersReady(envs, planners) && EnvsFor(envs, pairs[..n], paths, codec)
      invariant forall p :: 0 <= p < n ==> EnvPrimed(envs[p], fps, printer, windowLog, disk.files)
    {
      var planner, env := MakePlanner(pairs[n], slice, paths, fps, printer, codec, windowLog, disk);
      planners, envs := planners + [planner], envs + [env];
    }
    assert pairs[..|pairs|] == pairs;
  }

  lemma JobsStored(x: Input, job: Job)
    requires Consistent(x) && job in JobsOf(x.pairs)
    ensures job.pair < |x.pairs| && job.s.digest in x.store && Canonical(job.s.digest)
  {
    JobsExact(x.pairs);
    assert PairStored(x, x.pairs[job.pair]);
    MatchIsCanonical(x.h, job.s.digest, x.store[job.s.digest]);
  }

  lemma PathsFit(x: Input, paths: map<Digest, Path>, files: Files, base: Files)
    requires SpoolFits(x, paths, files) && SameButBlobs(files, base)
    ensures forall d :: d in paths ==> paths[d].BaselineFile?
    ensures forall d :: d in paths && d in x.store && paths[d] in base ==> base[paths[d]] == x.store[d]
  {
    forall d | d in paths
      ensures paths[d].BaselineFile?
      ensures d in x.store && paths[d] in base ==> base[paths[d]] == x.store[d]
    {
      assert SpooledAs(x, paths[d], d, files);
    }
  }

  lemma CtxHolds(x: Input, c: Ctx, paths: map<Digest, Path>, files: Files)
    requires Consistent(x) && EnvsFor(c.envs, x.pairs, paths, x.codec) && SpoolFits(x, paths, files)
    requires SameButBlobs(files, c.base)
    requires c.jobs == JobsOf(x.pairs) && c.content == x.store && SeedsHold(x.store, (c.seeds, c.base))
    ensures CtxBase(c)
  {
    forall j | 0 <= j < |c.jobs|
      ensures c.jobs[j].pair < |c.envs| && c.jobs[j].s.digest in c.content && Canonical(c.jobs[j].s.digest)
    {
      JobsStored(x, c.jobs[j]);
    }
    PathsFit(x, paths, files, c.base);
    forall p, d | 0 <= p < |c.envs| && d in c.envs[p].paths ensures c.envs[p].paths[d].BaselineFile? {
      assert EnvFor(c.envs[p], x.pairs[p], paths, x.codec);
    }
  }

  lemma SetupHolds(x: Input, c: Ctx, paths: map<Digest, Path>, files: Files)
    requires Consistent(x) && EnvsFor(c.envs, x.pairs, paths, x.codec) && SpoolFits(x, paths, files)
    requires SameButBlobs(files, c.base)
    requires c.jobs == JobsOf(x.pairs) && c.content == x.store
    requires SeedsHold(x.store, (c.seeds, c.base)) && c.seeds.Keys == SeedKeys(x.pairs) && SeedsDescribed(x, c.seeds)
    ensures Setup(x, c)
  {
    CtxHolds(x, c, paths, files);
    PathsFit(x, paths, files, c.base);
    forall p | 0 <= p < |c.envs| ensures EnvFits(x, c, c.envs[p], x.pairs[p]) {
      assert EnvFor(c.envs[p], x.pairs[p], paths, x.codec);
    }
  }

  datatype Built = OverBudget(layer: Digest) | Failed | Done(sidecar: Sidecar)

  /** The guard's loops over the plans see exactly the layers that will be submitted. */
  lemma FitsTransfers(pairs: seq<Pair>, shipped: seq<seq<BlobRef>>, windowLog: int, memBudget: int)
    requires PlansOf(pairs, shipped)
    ensures AllFit(JobsOf(pairs), windowLog, memBudget) <==>
      forall p, q :: 0 <= p < |shipped| && 0 <= q < |shipped[p]| ==> Budget.LayerEstimate(windowLog, shipped[p][q].size) <= memBudget
  {
    var jobs := JobsOf(pairs);
    JobsExact(pairs);
    forall p, q | AllFit(jobs, windowLog, memBudget) && 0 <= p < |shipped| && 0 <= q < |shipped[p]|
      ensures Budget.LayerEstimate(windowLog, shipped[p][q].size) <= memBudget
    {
      SelectMembers(pairs[p].target, Layers(pairs[p]), false);
      assert shipped[p][q] in shipped[p];
      assert Ships(pairs, Job(p, shipped[p][q]));
      var j :| 0 <= j < |jobs| && jobs[j] == Job(p, shipped[p][q]);
    }
    if forall p, q :: 0 <= p < |shipped| && 0 <= q < |shipped[p]| ==> Budget.LayerEstimate(windowLog, shipped[p][q].size) <= memBudget {
      forall j | 0 <= j < |jobs| ensures Budget.LayerEstimate(windowLog, jobs[j].s.size) <= memBudget {
        var p := jobs[j].pair;
        assert jobs[j] in jobs;
        SelectMembers(pairs[p].target, Layers(pairs[p]), false);
        assert jobs[j].s in shipped[p];
      }
    }
  }

  /** r is shipped, and nothing shipped has a larger estimate. */
  predicate LargestShipped(shipped: seq<seq<BlobRef>>, r: BlobRef, windowLog: int) {
    && (exists p :: 0 <= p < |shipped| && r in shipped[p])
    && forall p, q :: 0 <= p < |shipped| && 0 <= q < |shipped[p]| ==>
         Budget.LayerEstimate(windowLog, shipped[p][q].size) <= Budget.LayerEstimate(windowLog, r.size)
  }

  /** Fail fast on the layer that cannot fit a positive budget. */
  method Guard(pairs: seq<Pair>, shipped: seq<seq<BlobRef>>, windowLog: int, memBudget: int) returns (offender: Option<Digest>)
    requires PlansOf(pairs, shipped)
    ensures offender.None? <==> memBudget <= 0 || AllFit(JobsOf(pairs), windowLog, memBudget)
    ensures offender.Some? ==> LargestJob(JobsOf(pairs), offender.value, windowLog, memBudget)
  {
    offender := None;
    if memBudget > 0 {
      FitsTransfers(pairs, shipped, windowLog, memBudget);
      offender := Budget.CheckSingleLayerFits(shipped, windowLog, memBudget);
      if offender.Some? {
        ghost var p, q :| 0 <= p < |shipped| && 0 <= q < |shipped[p]| && shipped[p][q].digest == offender.value
          && Budget.LayerEstimate(windowLog, shipped[p][q].size) > memBudget
          && forall i, j :: 0 <= i < |shipped| && 0 <= j < |shipped[i]| ==>
               Budget.LayerEstimate(windowLog, shipped[i][j].size) <= Budget.LayerEstimate(windowLog, shipped[p][q].size);
        assert LargestShipped(shipped, shipped[p][q], windowLog);
        LargestTransfers(pairs, shipped, shipped[p][q], windowLog, memBudget);
      }
    }
  }

  /** One of the submitted layers with the largest estimate. */
  predicate LargestJob(jobs: seq<Job>, d: Digest, windowLog: int, memBudget: int) {
    exists j :: 0 <= j < |jobs| && LargestAt(jobs, j, d, windowLog, memBudget)
  }

  predicate LargestAt(jobs: seq<Job>, j: nat, d: Digest, windowLog: int, memBudget: int)
    requires j < |jobs|
  {
    && jobs[j].s.digest == d && Budget.LayerEstimate(windowLog, jobs[j].s.size) > memBudget
    && forall i :: 0 <= i < |jobs| ==> Budget.LayerEstimate(windowLog, jobs[i].s.size) <= Budget.LayerEstimate(windowLog, jobs[j].s.size)
  }

  lemma LargestTransfers(pairs: seq<Pair>, shipped: seq<seq<BlobRef>>, r: BlobRef, windowLog: int, memBudget: int)
    requires PlansOf(pairs, shipped) && LargestShipped(shipped, r, windowLog) && Budget.LayerEstimate(windowLog, r.size) > memBudget
    ensures LargestJob(JobsOf(pairs), r.digest, windowLog, memBudget)
  {
    var jobs := JobsOf(pairs);
    JobsExact(pairs);
    var p :| 0 <= p < |shipped| && r in shipped[p];
    SelectMembers(pairs[p].target, Layers(pairs[p]), false);
    assert Ships(pairs, Job(p, r));
    var j :| 0 <= j < |jobs| && jobs[j] == Job(p, r);
    forall i | 0 <= i < |jobs| ensures Budget.LayerEstimate(windowLog, jobs[i].s.size) <= Budget.LayerEstimate(windowLog, r.size) {
      var q := jobs[i].pair;
      assert jobs[i] in jobs;
      SelectMembers(pairs[q].target, Layers(pairs[q]), false);
      assert jobs[i].s in shipped[q];
    }
    assert LargestAt(jobs, j, r.digest, windowLog, memBudget);
  }

  /** Seed every pair's manifest and config, plan every pair, count what is shipped, check the budget. */
  method Prepare(x: Input, disk: Disk, pool: BlobPool.Pool, windowLog: int, memBudget: int) returns (jobs: seq<Job>, offender: Option<Digest>)
    requires Consistent(x) && pool.Valid() && pool.entries == map[] && pool.shipRefs == map[]
    modifies disk, pool
    ensures jobs == JobsOf(x.pairs) && pool.Valid() && Counted(pool, jobs)
    ensures SeedsHold(x.store, (pool.entries, disk.files)) && pool.entries.Keys == SeedKeys(x.pairs)
    ensures SeedsDescribed(x, pool.entries)
    ensures SameButBlobs(old(disk.files), disk.files)
    ensures offender.None? <==> memBudget <= 0 || AllFit(jobs, windowLog, memBudget)
    ensures offender.Some? ==> LargestJob(jobs, offender.value, windowLog, memBudget)
  {
    SeedAll(x, disk, pool);
    var shipped;
    shipped, jobs := PlanPairs(x.pairs);
    CountAllShipped(pool, jobs);
    offender := Guard(x.pairs, shipped, windowLog, memBudget);
  }

  method EncodeAndAssemble(x: Input, c: Ctx, planners: seq<LayerPlanner>, disk: Disk, pool: BlobPool.Pool, platform: string) returns (r: Built)
    requires Consistent(x) && Setup(x, c) && PlannersReady(c.envs, planners)
    requires pool.Valid() && pool.entries == c.seeds && disk.files == c.base && Counted(pool, c.jobs)
    modifies disk, pool, set p | 0 <= p < |planners| :: planners[p]
    ensures r.Done? ==> r.sidecar == SidecarOf(pool.entries, x.pairs, platform) && Exported(x, c, BundleFrom(pool.entries, disk.files))
    ensures r.Done? ==> HoldsAll(Reference(c), pool.entries, disk.files)
    ensures !r.OverBudget? && (r.Done? <==> NoneLost(c))
  {
    var ok := EncodeTargets(c, disk, pool, planners);
    if !ok { return Built.Failed; }
    ResultExported(x, c, pool.entries, disk.files);
    var sidecar := AssembleSidecar(pool.entries, x.pairs, platform);
    r := Done(sidecar);
  }

  /**
   * One worker's export.  It starts only when every shipped layer's estimate fits the budget, and then
   * succeeds exactly when planning loses no payload; on success the sidecar lists a bundle from which every digest decodes to the stored bytes.
   */
  method BuildBundle(x: Input, slice: seq<Meta> -> seq<Meta>, paths: map<Digest, Path>, fps: map<Digest, Option<Print>>,
      printer: (string, Bytes) -> Option<Print>, disk: Disk, pool: BlobPool.Pool,
      off: bool, k: int, windowLog: int, memBudget: int, platform: string) returns (r: Built, ghost c: Ctx)
    requires SortsByDigest(slice)
    requires Consistent(x) && SpoolFits(x, paths, disk.files)
    requires pool.Valid() && pool.entries == map[] && pool.shipRefs == map[]
    modifies disk, pool
    ensures r.OverBudget? <==> memBudget > 0 && !AllFit(JobsOf(x.pairs), windowLog, memBudget)
    ensures r.OverBudget? ==> LargestJob(JobsOf(x.pairs), r.layer, windowLog, memBudget)
    ensures !r.OverBudget? ==> Setup(x, c) && c.off == off && c.k == k && c.windowLog == windowLog && (r.Done? <==> NoneLost(c))
    ensures !r.OverBudget? ==> forall p :: 0 <= p < |c.envs| ==> EnvPrimed(c.envs[p], fps, printer, windowLog, c.base)
    ensures r.Done? ==> r.sidecar == SidecarOf(pool.entries, x.pairs, platform) && Exported(x, c, BundleFrom(pool.entries, disk.files))
    ensures r.Done? ==> HoldsAll(Reference(c), pool.entries, disk.files)
  {
    ghost var before := disk.files;
    var jobs, offender := Prepare(x, disk, pool, windowLog, memBudget);
    if offender.Some? {
      c := Ctx(jobs, [], x.store, off, k, windowLog, map[], map[]);
      return OverBudget(offender.value), c;
    }
    var planners, envs := MakePlanners(x.pairs, slice, paths, fps, printer, x.codec, windowLog, disk);
    c := Ctx(jobs, envs, x.store, off, k, windowLog, pool.entries, disk.files);
    SetupHolds(x, c, paths, before);
    r := EncodeAndAssemble(x, Ctx(jobs, envs, x.store, off, k, windowLog, pool.entries, disk.files), planners, disk, pool, platform);
  }
}
