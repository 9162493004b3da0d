/**
 * The encode phase as one goroutine executes it: seeding, counting, and the loop over the
 * shipped layers with a single worker.  Its result is the reference every schedule meets.
 */
module Encoder {
  import opened Common
  import opened Diff
  import opened Workdir
  import opened Planner
  import opened BlobPool
  import opened Encode

  /** What one registration makes of a table and a disk: first write wins. */
  function AfterRegister(at: (map<Digest, BlobEntry>, Files), d: Digest, payload: Bytes, e: BlobEntry): (map<Digest, BlobEntry>, Files) {
    if d in at.0 then at else (at.0[d := e], at.1[BlobPath(d) := payload])
  }

  function ManifestEntry(manifest: Bytes, mediaType: string): BlobEntry {
    BlobEntry(|manifest|, mediaType, Full, "", "", |manifest|)
  }

  function ConfigEntry(desc: BlobRef): BlobEntry { BlobEntry(desc.size, desc.mediaType, Full, "", "", desc.size) }

  /** Manifest and config always ship full; a digest already in the pool keeps its first entry. */
  method SeedManifestAndConfig(h: HashFn, disk: Disk, pool: BlobPool.Pool, manifest: Bytes, mediaType: string, config: Bytes, desc: BlobRef)
    requires pool.Valid()
    modifies pool, disk
    ensures pool.Valid() && pool.shipRefs == old(pool.shipRefs)
    ensures (pool.entries, disk.files) ==
      AfterRegister(AfterRegister((old(pool.entries), old(disk.files)), DigestOf(h, "sha256", manifest), manifest, ManifestEntry(manifest, mediaType)),
                 desc.digest, config, ConfigEntry(desc))
  {
    var mf := DigestOf(h, "sha256", manifest);
    pool.AddEntryIfAbsent(disk, mf, manifest, BlobEntry(|manifest|, mediaType, Full, "", "", |manifest|));
    pool.AddEntryIfAbsent(disk, desc.digest, config, BlobEntry(desc.size, desc.mediaType, Full, "", "", desc.size));
  }

  /** Every listed blob is there with the stored bytes, as a full entry. */
  ghost predicate SeedsHold(store: map<Digest, Bytes>, at: (map<Digest, BlobEntry>, Files)) {
    forall d :: d in at.0 ==>
      && Canonical(d) && d in store && at.0[d].encoding == Full && EntryOk(at.0[d])
      && BlobPath(d) in at.1 && at.1[BlobPath(d)] == store[d]
  }

  ghost predicate SameButBlobs(f: Files, g: Files) {
    forall q: Path :: !q.BlobFile? ==> (q in g <==> q in f) && (q in g ==> g[q] == f[q])
  }

  /** Registering stored bytes keeps the pool honest, adds just that digest and touches no other kind of file. */
  lemma RegisterKeeps(store: map<Digest, Bytes>, at: (map<Digest, BlobEntry>, Files), d: Digest, e: BlobEntry)
    requires SeedsHold(store, at) && d in store && Canonical(d) && e.encoding == Full && EntryOk(e)
    ensures var r := AfterRegister(at, d, store[d], e);
      && SeedsHold(store, r) && r.0.Keys == at.0.Keys + {d}
      && (forall x :: x in at.0 ==> r.0[x] == at.0[x])
      && SameButBlobs(at.1, r.1)
  {
    var r := AfterRegister(at, d, store[d], e);
    forall x | x in r.0 ensures BlobPath(x) in r.1 && r.1[BlobPath(x)] == store[x] {
      if x != d && Encoded(x) == Encoded(d) { EncodedInjective(x, d); }
    }
  }

  /** The pool's reference counts are those of the tuples. */
  ghost predicate Counted(pool: BlobPool.Pool, jobs: seq<Job>)
    reads pool
  {
    forall d :: pool.RefCount(d) == Refs(jobs, d)
  }

  method CountAllShipped(pool: BlobPool.Pool, jobs: seq<Job>)
    requires pool.Valid() && pool.shipRefs == map[]
    modifies pool`shipRefs
    ensures Counted(pool, jobs)
  {
    for i := 0 to |jobs|
      invariant forall d :: pool.RefCount(d) == Refs(jobs[..i], d)
    {
      assert jobs[..i + 1][..i] == jobs[..i];
      pool.CountShipped(jobs[i].s.digest);
    }
    assert jobs[..|jobs|] == jobs;
  }

  /** What one encode relies on: its pair's planner is primed and the baselines are untouched. */
  ghost predicate Prepared(c: Ctx, j: nat, disk: Disk, pool: BlobPool.Pool, planner: LayerPlanner)
    reads disk, pool, planner
  {
    && CtxBase(c) && Known(c, j) && pool.Valid()
    && planner.primed && planner.EnvNow() == c.envs[c.jobs[j].pair]
    && BaselinesKept(c, disk.files)
    && Counted(pool, c.jobs)
  }

  /** d's blob has become data with entry e; f, m are the disk and table before, g, n after. */
  ghost predicate Adopts(d: Digest, e: BlobEntry, data: Bytes, f: Files, m: map<Digest, BlobEntry>, g: Files, n: map<Digest, BlobEntry>) {
    n == m[d := e] && BlobPath(d) in g && g[BlobPath(d)] == data && Target(d) !in g && TouchesOnly(f, g, Encoded(d))
  }

  lemma AdoptsAfter(d: Digest, e: BlobEntry, data: Bytes, start: Files, f: Files, m: map<Digest, BlobEntry>, g: Files, n: map<Digest, BlobEntry>)
    requires Adopts(d, e, data, f, m, g, n) && TouchesOnly(start, f, Encoded(d))
    ensures Adopts(d, e, data, start, m, g, n)
  {
  }

  /** The payload is renamed into the pool; a spooled target left beside it goes. */
  method AdoptPayload(disk: Disk, pool: BlobPool.Pool, d: Digest, payload: Path, e: BlobEntry) returns (ok: bool)
    requires pool.Valid() && d !in pool.entries
    requires !payload.BlobFile? && !payload.BaselineFile? && payload.name == Encoded(d)
    modifies disk, pool
    ensures pool.Valid() && pool.shipRefs == old(pool.shipRefs) && (ok <==> payload in old(disk.files))
    ensures ok ==> Adopts(d, e, old(disk.files)[payload], old(disk.files), old(pool.entries), disk.files, pool.entries)
  {
    ok := pool.AddEntryFromPath(disk, d, payload, e);
    if ok && payload != Target(d) { disk.Remove(Target(d)); }
  }

  /** One layer: spool, decide, adopt.  It fails only when the planned payload was lost. */
  method EncodeOneShipped(c: Ctx, j: nat, disk: Disk, pool: BlobPool.Pool, planner: LayerPlanner) returns (ok: bool)
    requires Prepared(c, j, disk, pool, planner) && c.jobs[j].s.digest !in pool.entries
    modifies disk, pool, planner`prints, planner`primed
    ensures pool.Valid() && pool.shipRefs == old(pool.shipRefs)
    ensures planner.primed && planner.prints == old(planner.prints)
    ensures ok <==> Kept(c, j)
    ensures ok ==> Adopts(c.jobs[j].s.digest, CanonEntry(c, j), CanonBytes(c, j), old(disk.files), old(pool.entries), disk.files, pool.entries)
  {
    var s := c.jobs[j].s;
    var target := Target(s.digest);
    ghost var entries, start := pool.entries, disk.files;
    disk.Write(target, c.content[s.digest]);
    ghost var spooled := disk.files;
    if pool.RefCount(s.digest) > 1 || c.off {
      ok := AdoptPayload(disk, pool, s.digest, target, FullEntry(s));
    } else {
      PlanIsCanonical(c, disk.files, j);
      var out := planner.PlanShippedTopK(disk, s, target, c.k);
      assert out == PlanOf(c, j).0 && TouchesOnly(start, disk.files, Encoded(s.digest));
      spooled := disk.files;
      if out.PlanFailed? {
        ok := AdoptPayload(disk, pool, s.digest, target, FullEntry(s));
      } else {
        ok := AdoptPayload(disk, pool, s.digest, out.payload, out.entry);
      }
    }
    if ok { AdoptsAfter(s.digest, CanonEntry(c, j), CanonBytes(c, j), start, spooled, entries, disk.files, pool.entries); }
  }

  lemma CanonIsSet(c: Ctx, j: nat)
    requires Known(c, j)
    ensures !CanonEntry(c, j).encoding.Unset?
  {
    if !TakesFull(c, j) {
      var s := c.jobs[j].s;
      PlanIsSound(c.envs[c.jobs[j].pair], c.base[Target(s.digest) := c.content[s.digest]], s, Target(s.digest), c.k);
    }
  }

  /** The same against a listed result: success delivers exactly what is listed. */
  method EncodeListed(c: Ctx, n: nat, disk: Disk, pool: BlobPool.Pool, planner: LayerPlanner, ghost want: (BlobEntry, Bytes)) returns (ok: bool)
    requires n < |c.jobs| && Prepared(c, n, disk, pool, planner) && c.jobs[n].s.digest !in pool.entries
    requires want == CanonOf(c, n)
    modifies disk, pool, planner`prints, planner`primed
    ensures pool.Valid() && pool.shipRefs == old(pool.shipRefs)
    ensures planner.primed && planner.prints == old(planner.prints)
    ensures Kept(c, n) ==> ok
    ensures ok ==> !want.0.encoding.Unset?
    ensures ok ==> Adopts(c.jobs[n].s.digest, want.0, want.1, old(disk.files), old(pool.entries), disk.files, pool.entries)
  {
    CanonIsSet(c, n);
    ok := EncodeOneShipped(c, n, disk, pool, planner);
  }

  /** The serial pool after the first n tuples agrees with r on the seeds and on what was shipped so far. */
  ghost predicate SerialUpTo(r: Result, seeds: set<Digest>, jobs: seq<Job>, n: nat, entries: map<Digest, BlobEntry>, files: Files)
    requires n <= |jobs|
  {
    && entries.Keys == seeds + Shipped(jobs[..n])
    && (forall d :: d in entries ==> Holds(r, entries, files, d))
    && (forall d :: d in entries && d !in seeds ==> !entries[d].encoding.Unset?)
  }

  lemma ShippedNext(jobs: seq<Job>, n: nat)
    requires n < |jobs|
    ensures Shipped(jobs[..n + 1]) == Shipped(jobs[..n]) + {jobs[n].s.digest}
  {
    var a, b := Shipped(jobs[..n + 1]), Shipped(jobs[..n]) + {jobs[n].s.digest};
    forall x | x in b ensures x in a {
      if x in Shipped(jobs[..n]) {
        var i :| 0 <= i < n && jobs[..n][i].s.digest == x;
        assert jobs[..n + 1][i].s.digest == x;
      } else {
        assert jobs[..n + 1][n].s.digest == x;
      }
    }
    forall x | x in a ensures x in b {
      var i :| 0 <= i < n + 1 && jobs[..n + 1][i].s.digest == x;
      if i < n { assert jobs[..n][i].s.digest == x; }
    }
  }

  lemma SerialAdd(r: Result, seeds: set<Digest>, jobs: seq<Job>, n: nat, entries: map<Digest, BlobEntry>, files: Files,
      e: BlobEntry, after: Files)
    requires n < |jobs| && SerialUpTo(r, seeds, jobs, n, entries, files)
    requires var d := jobs[n].s.digest;
      && Canonical(d) && d !in entries && !e.encoding.Unset? && TouchesOnly(files, after, Encoded(d))
      && d in r && r[d].0 == e && BlobPath(d) in after && after[BlobPath(d)] == r[d].1
    requires forall d :: d in entries ==> Canonical(d)
    ensures SerialUpTo(r, seeds, jobs, n + 1, entries[jobs[n].s.digest := e], after)
  {
    var d := jobs[n].s.digest;
    var more := entries[d := e];
    ShippedNext(jobs, n);
    forall x | x in more ensures Holds(r, more, after, x) {
      if x != d {
        assert Holds(r, entries, files, x);
        BlobUntouched(files, after, x, d);
      }
    }
  }

  lemma BlobUntouched(files: Files, after: Files, x: Digest, d: Digest)
    requires TouchesOnly(files, after, Encoded(d)) && Canonical(x) && Canonical(d) && x != d
    ensures BlobPath(x) in files ==> BlobPath(x) in after && after[BlobPath(x)] == files[BlobPath(x)]
  {
    if Encoded(x) == Encoded(d) { EncodedInjective(x, d); }
  }

  lemma SerialStart(c: Ctx)
    requires CtxBase(c)
    ensures SerialUpTo(Reference(c), c.seeds.Keys, c.jobs, 0, c.seeds, c.base)
  {
  }

  /** No earlier tuple has the digest of tuple n. */
  predicate IsFirst(jobs: seq<Job>, n: nat)
    requires n < |jobs|
  {
    jobs[n].s.digest !in Shipped(jobs[..n])
  }

  /** r lists the canonical result of tuple n, when that is the first of its digest and the digest was not seeded. */
  ghost predicate Lists(r: Result, c: Ctx, n: nat)
    requires n < |c.jobs|
  {
    c.jobs[n].s.digest !in c.seeds && IsFirst(c.jobs, n) ==> c.jobs[n].s.digest in r && r[c.jobs[n].s.digest] == CanonOf(c, n)
  }

  /** A digest the pool lacks after n tuples is one whose first tuple comes now. */
  lemma AbsentIsListed(c: Ctx, n: nat, r: Result, seeds: set<Digest>, entries: map<Digest, BlobEntry>, files: Files)
    requires n < |c.jobs| && Lists(r, c, n) && SerialUpTo(r, seeds, c.jobs, n, entries, files)
    requires c.jobs[n].s.digest in c.seeds ==> c.jobs[n].s.digest in seeds
    ensures c.jobs[n].s.digest !in entries ==> c.jobs[n].s.digest in r && r[c.jobs[n].s.digest] == CanonOf(c, n)
  {
  }

  /** One turn of the loop: what is already in the pool is skipped.  r is any table that lists want for this tuple. */
  method EncodeNext(c: Ctx, n: nat, disk: Disk, pool: BlobPool.Pool, planner: LayerPlanner, ghost r: Result, ghost seeds: set<Digest>)
    returns (ok: bool)
    requires n < |c.jobs| && Prepared(c, n, disk, pool, planner)
    requires SerialUpTo(r, seeds, c.jobs, n, pool.entries, disk.files)
    requires Lists(r, c, n)
    requires forall d :: d in pool.entries ==> Canonical(d)
    requires c.jobs[n].s.digest in c.seeds ==> c.jobs[n].s.digest in seeds
    modifies disk, pool, planner`prints, planner`primed
    ensures pool.Valid() && pool.shipRefs == old(pool.shipRefs)
    ensures planner.primed && planner.prints == old(planner.prints)
    ensures PayloadSafe(c, n) ==> ok
    ensures ok ==> SerialUpTo(r, seeds, c.jobs, n + 1, pool.entries, disk.files)
    ensures ok ==> BaselinesKept(c, disk.files)
    ensures ok ==> forall d :: d in pool.entries ==> Canonical(d)
  {
    var d := c.jobs[n].s.digest;
    if d in pool.entries {
      ShippedNext(c.jobs, n);
      return true;
    }
    AbsentIsListed(c, n, r, seeds, pool.entries, disk.files);
    ghost var entries, files := pool.entries, disk.files;
    ok := EncodeListed(c, n, disk, pool, planner, r[d]);
    if ok { SerialAdd(r, seeds, c.jobs, n, entries, files, r[d].0, disk.files); }
  }

  ghost predicate PlannerReady(e: Env, planner: LayerPlanner)
    reads planner
  {
    planner.primed && planner.EnvNow() == e
  }

  ghost predicate PlannersReady(envs: seq<Env>, planners: seq<LayerPlanner>)
    reads planners
  {
    |planners| == |envs| && forall p :: 0 <= p < |planners| ==> PlannerReady(envs[p], planners[p])
  }

  /** The loop with one worker; the first failure stops it. */
  method EncodeLoop(c: Ctx, disk: Disk, pool: BlobPool.Pool, planners: seq<LayerPlanner>, ghost r: Result) returns (ok: bool)
    requires CtxBase(c) && pool.Valid() && pool.entries == c.seeds && BaselinesKept(c, disk.files)
    requires SerialUpTo(r, c.seeds.Keys, c.jobs, 0, pool.entries, disk.files)
    requires PlannersReady(c.envs, planners)
    requires Counted(pool, c.jobs)
    requires forall n :: 0 <= n < |c.jobs| ==> Lists(r, c, n)
    modifies disk, pool, set p | 0 <= p < |planners| :: planners[p]
    ensures ok ==> SerialUpTo(r, c.seeds.Keys, c.jobs, |c.jobs|, pool.entries, disk.files)
    ensures NoneLost(c) ==> ok
  {
    for n := 0 to |c.jobs|
      invariant pool.Valid() && Counted(pool, c.jobs)
      invariant PlannersReady(c.envs, planners)
      invariant BaselinesKept(c, disk.files)
      invariant SerialUpTo(r, c.seeds.Keys, c.jobs, n, pool.entries, disk.files)
      invariant forall d :: d in pool.entries ==> Canonical(d)
    {
      assert Known(c, n) && Lists(r, c, n);
      ok := EncodeNext(c, n, disk, pool, planners[c.jobs[n].pair], r, c.seeds.Keys);
      if !ok { return; }
    }
    return true;
  }

  lemma ReferenceLists(c: Ctx)
    ensures forall n :: 0 <= n < |c.jobs| ==> Lists(Reference(c), c, n)
  {
    forall n | 0 <= n < |c.jobs| ensures Lists(Reference(c), c, n) {
      if IsFirst(c.jobs, n) { FirstIsFirst(c.jobs, n); }
    }
  }

  lemma FirstIsFirst(jobs: seq<Job>, n: nat)
    requires n < |jobs| && IsFirst(jobs, n)
    ensures jobs[n].s.digest in Shipped(jobs) && FirstJob(jobs, jobs[n].s.digest) == n
  {
    var d := jobs[n].s.digest;
    assert d in Shipped(jobs);
    forall k | 0 <= k < n ensures jobs[k].s.digest != d { assert jobs[..n][k].s.digest in Shipped(jobs[..n]); }
  }

  method EncodeTargets(c: Ctx, disk: Disk, pool: BlobPool.Pool, planners: seq<LayerPlanner>) returns (ok: bool)
    requires CtxBase(c) && pool.Valid() && pool.entries == c.seeds && disk.files == c.base
    requires PlannersReady(c.envs, planners)
    requires Counted(pool, c.jobs)
    modifies disk, pool, set p | 0 <= p < |planners| :: planners[p]
    ensures ok <==> NoneLost(c)
    ensures ok ==> HoldsAll(Reference(c), pool.entries, disk.files)
  {
    ghost var r := Reference(c);
    SerialStart(c);
    ReferenceLists(c);
    ok := EncodeLoop(c, disk, pool, planners, r);
    if ok { SerialLostNothing(c, pool.entries, disk.files); }
  }

  /** A lost payload has no place in the reference result, so a pool that is the reference lost none. */
  lemma SerialLostNothing(c: Ctx, entries: map<Digest, BlobEntry>, files: Files)
    requires CtxBase(c) && SerialUpTo(Reference(c), c.seeds.Keys, c.jobs, |c.jobs|, entries, files)
    ensures HoldsAll(Reference(c), entries, files) && NoneLost(c)
  {
    assert c.jobs[..|c.jobs|] == c.jobs;
    assert Reference(c).Keys == c.seeds.Keys + Shipped(c.jobs);
    forall j | 0 <= j < |c.jobs| ensures PayloadSafe(c, j) {
      if Known(c, j) && c.jobs[j].s.digest !in c.seeds {
        var d := c.jobs[j].s.digest;
        assert d in Shipped(c.jobs) && Holds(Reference(c), entries, files, d);
        KeptIsPerDigest(c, FirstJob(c.jobs, d), j);
      }
    }
  }

  /** When digests have one descriptor, any schedule's final pool is the serial one, byte for byte. */
  lemma EveryScheduleIsSerial(c: Ctx, workers: int, budget: int, s: State, entries: map<Digest, BlobEntry>, files: Files)
    requires CtxOk(c) && Reached(c, workers, budget, s) && Complete(c, s) && Steady(s)
    requires HoldsAll(Reference(c), entries, files)
    ensures s.entries == entries
    ensures forall d :: d in entries ==> BlobPath(d) in s.files && BlobPath(d) in files && s.files[BlobPath(d)] == files[BlobPath(d)]
  {
    FinalPool(c, workers, budget, s);
    OnePool(Reference(c), s.entries, s.files, entries, files);
  }
}
