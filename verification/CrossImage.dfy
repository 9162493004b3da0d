/**
 * A bundle that breaks an image.  Image 0 ships layer t as a patch against its baseline layer b.
 * Image 1 already has t in its own baseline and reuses it, but the bundle's one table sends it to
 * the patch, whose source b it does not have.
 */
module CrossImage {
  import opened Common
  import opened Diff
  import opened Sorting
  import opened Workdir
  import opened Planner
  import opened BlobPool
  import opened Encode
  import opened Compose
  import opened RoundTrip
  import Budget

  // ---- The situation ----

  /** Five blobs and a codec for which t is cheap to patch from b. */
  datatype Case = Case(
    h: HashFn, codec: Codec,
    b: Digest, t: Digest, config: Digest, manifest: Digest, baseline: Digest,
    store: map<Digest, Bytes>, size: int, full: int, patch: Bytes)

  ghost predicate Fits(k: Case) {
    && LawfulHash(k.h) && LawfulCodec(k.codec)
    && NoRepeats([k.b, k.t, k.config, k.manifest, k.baseline])
    && k.store.Keys == {k.b, k.t, k.config, k.manifest, k.baseline}
    && (forall d :: d in k.store ==> Matches(k.h, d, k.store[d]) && Canonical(d))
    && Algorithm(k.manifest) == "sha256"
    && Cheap(k)
  }

  /** The patch from b is smaller than the plain compressed layer and than its declared size. */
  predicate Cheap(k: Case)
    requires k.b in k.store && k.t in k.store
  {
    var wl := Budget.ResolveWindowLog(0, k.size);
    && k.codec.encode(k.store[k.b], k.store[k.t], wl) == Some(k.patch)
    && k.codec.fullSize(k.store[k.t], wl) == Some(k.full)
    && |k.patch| < k.full && |k.patch| < k.size
  }

  function Layer(k: Case): BlobRef { BlobRef(k.t, k.size, "layer") }

  function PairOn(k: Case, name: string, d: Digest): Pair {
    Pair(name, k.baseline, [Meta(d, k.size, "layer")], "", k.manifest, "manifest", [Layer(k)], BlobRef(k.config, 3, "config"))
  }

  function Pairs(k: Case): seq<Pair> { [PairOn(k, "first", k.b), PairOn(k, "second", k.t)] }

  function In(k: Case): Input { Input(k.h, k.codec, Pairs(k), k.store) }

  lemma Differ(k: Case)
    requires Fits(k)
    ensures k.b != k.t && k.b != k.config && k.b != k.manifest && k.t != k.config && k.t != k.manifest && k.config != k.manifest
    ensures k.b in k.store && k.t in k.store && k.config in k.store && k.manifest in k.store && k.baseline in k.store
  {
    var all := [k.b, k.t, k.config, k.manifest, k.baseline];
    assert all[0] != all[1] && all[0] != all[2] && all[0] != all[3] && all[1] != all[2] && all[1] != all[3] && all[2] != all[3];
  }

  lemma LayersOf(k: Case, name: string, d: Digest)
    ensures Layers(PairOn(k, name, d)) == {d} && Holdings(PairOn(k, name, d)) == {d}
  {
    var p := PairOn(k, name, d);
    assert p.baseline[0] in p.baseline;
    assert Layers(p) == {d};
    HoldingsAre(p);
  }

  lemma PairIsStored(k: Case, name: string, d: Digest)
    requires Fits(k) && d in k.store
    ensures PairStored(In(k), PairOn(k, name, d))
  {
    Differ(k);
    LayersOf(k, name, d);
    OnlyTarget(k, name, d);
  }

  lemma OnlyTarget(k: Case, name: string, d: Digest)
    ensures forall b :: b in PairOn(k, name, d).target ==> b.digest == k.t
  {
    assert PairOn(k, name, d).target == [Layer(k)];
  }

  lemma InputConsistent(k: Case)
    requires Fits(k)
    ensures Consistent(In(k))
  {
    Differ(k);
    PairIsStored(k, "first", k.b);
    PairIsStored(k, "second", k.t);
    TwoPairsStored(In(k));
  }

  lemma TwoPairsStored(x: Input)
    requires |x.pairs| == 2 && PairStored(x, x.pairs[0]) && PairStored(x, x.pairs[1])
    ensures forall p :: 0 <= p < |x.pairs| ==> PairStored(x, x.pairs[p])
  {
  }

  lemma OnlyFirstShips(k: Case)
    requires k.b != k.t
    ensures JobsOf(Pairs(k)) == [Job(0, Layer(k))]
  {
    LayersOf(k, "first", k.b);
    LayersOf(k, "second", k.t);
    var p := Pairs(k)[0];
    assert Select([Layer(k)], {k.b}, false) == [Layer(k)] by { assert [Layer(k)][..0] == []; }
    assert Select([Layer(k)], {k.t}, false) == [] by { assert [Layer(k)][..0] == []; }
    assert Pairs(k)[..1] == [p] && [p][..0] == [];
    assert JobsOf([p]) == [Job(0, Layer(k))];
    assert JobsFor(1, []) == [];
  }

  // ---- The export ----

  function Seed(size: int, mediaType: string): BlobEntry { BlobEntry(size, mediaType, Full, "", "", size) }

  function Seeds(k: Case): map<Digest, BlobEntry>
    requires k.manifest in k.store
  {
    map[k.manifest := Seed(|k.store[k.manifest]|, "manifest"), k.config := Seed(3, "config")]
  }

  function SpoolFile(k: Case): Path { BaselineFile(Encoded(k.b)) }

  function Disk(k: Case): Files
    requires k.b in k.store && k.manifest in k.store && k.config in k.store
  {
    map[SpoolFile(k) := k.store[k.b], BlobPath(k.manifest) := k.store[k.manifest], BlobPath(k.config) := k.store[k.config]]
  }

  function EnvOn(k: Case, d: Digest): Env {
    Env([Meta(d, k.size, "layer")], map[], map[k.b := SpoolFile(k)], (m: string, data: Bytes) => None, k.codec, 0)
  }

  function Export(k: Case): Ctx
    requires k.b in k.store && k.manifest in k.store && k.config in k.store
  {
    Ctx(JobsOf(Pairs(k)), [EnvOn(k, k.b), EnvOn(k, k.t)], k.store, false, 1, 0, Seeds(k), Disk(k))
  }

  lemma SeedPathsDiffer(k: Case)
    requires Fits(k)
    ensures BlobPath(k.manifest) != BlobPath(k.config)
  {
    Differ(k);
    if Encoded(k.manifest) == Encoded(k.config) { EncodedInjective(k.manifest, k.config); }
  }

  lemma EnvPaths(k: Case, d: Digest)
    ensures forall x :: x in EnvOn(k, d).paths ==> x == k.b && EnvOn(k, d).paths[x] == SpoolFile(k) && EnvOn(k, d).paths[x].BaselineFile?
  {
  }

  lemma SpoolStored(k: Case)
    requires k.b in k.store && k.manifest in k.store && k.config in k.store
    ensures SpoolFile(k) in Disk(k) && Disk(k)[SpoolFile(k)] == k.store[k.b]
  {
  }

  lemma SeedsStored(k: Case)
    requires Fits(k) && k.b in k.store && k.manifest in k.store && k.config in k.store
    ensures forall d :: d in Seeds(k) ==>
      && Canonical(d) && Seeds(k)[d].encoding == Full && EntryOk(Seeds(k)[d])
      && BlobPath(d) in Disk(k) && Disk(k)[BlobPath(d)] == k.store[d]
  {
    SeedPathsDiffer(k);
    forall d | d in Seeds(k)
      ensures Canonical(d) && Seeds(k)[d].encoding == Full && EntryOk(Seeds(k)[d])
      ensures BlobPath(d) in Disk(k) && Disk(k)[BlobPath(d)] == k.store[d]
    {
      if d == k.manifest { SeedOn(|k.store[k.manifest]|, "manifest"); } else { SeedOn(3, "config"); }
    }
  }

  lemma SeedOn(size: int, mediaType: string)
    ensures Seed(size, mediaType).encoding == Full && EntryOk(Seed(size, mediaType))
  {
  }

  predicate PathsAreBaselines(e: Env) { forall d :: d in e.paths ==> e.paths[d].BaselineFile? }

  lemma OneJobCtx(c: Ctx, job: Job)
    requires c.jobs == [job] && job.pair < |c.envs| && job.s.digest in c.content && Canonical(job.s.digest)
    requires forall p :: 0 <= p < |c.envs| ==> PathsAreBaselines(c.envs[p])
    requires forall d :: d in c.seeds ==> Canonical(d) && BlobPath(d) in c.base
    ensures CtxOk(c)
  {
    forall p, d | 0 <= p < |c.envs| && d in c.envs[p].paths ensures c.envs[p].paths[d].BaselineFile? {
      assert PathsAreBaselines(c.envs[p]);
    }
  }

  lemma ExportCtxOk(k: Case)
    requires Fits(k)
    ensures k.b in k.store && k.manifest in k.store && k.config in k.store && CtxOk(Export(k))
  {
    Differ(k);
    OnlyFirstShips(k);
    SeedsStored(k);
    EnvsAreBaselines(k, Export(k).envs);
    OneJobCtx(Export(k), Job(0, Layer(k)));
  }

  lemma EnvsAreBaselines(k: Case, envs: seq<Env>)
    requires envs == [EnvOn(k, k.b), EnvOn(k, k.t)]
    ensures forall p :: 0 <= p < |envs| ==> PathsAreBaselines(envs[p])
  {
    EnvPaths(k, k.b);
    EnvPaths(k, k.t);
  }

  lemma EnvFitsPair(k: Case, c: Ctx, d: Digest, name: string)
    requires k.b in k.store && SpoolFile(k) in c.base && c.base[SpoolFile(k)] == k.store[k.b]
    ensures EnvFits(In(k), c, EnvOn(k, d), PairOn(k, name, d))
  {
    EnvPaths(k, d);
  }

  lemma ExportSetup(k: Case)
    requires Fits(k)
    ensures k.b in k.store && k.manifest in k.store && k.config in k.store && Setup(In(k), Export(k))
  {
    ExportCtxOk(k);
    SpoolStored(k);
    EnvsFit(k, Export(k));
    SeedsFit(k, Export(k));
  }

  lemma SeedsFit(k: Case, c: Ctx)
    requires Fits(k) && k.b in k.store && k.manifest in k.store && k.config in k.store && c.seeds == Seeds(k) && c.base == Disk(k)
    ensures c.seeds.Keys == SeedKeys(Pairs(k)) && forall d :: d in c.seeds ==> SeedDescribed(In(k), d, c.seeds[d])
    ensures forall d :: d in c.seeds ==>
      && c.seeds[d].encoding == Full && EntryOk(c.seeds[d]) && d in k.store && BlobPath(d) in c.base && c.base[BlobPath(d)] == k.store[d]
  {
    SeedsStored(k);
    SeedKeysAre(k);
    SeedsListed(k);
  }

  lemma SeedsListed(k: Case)
    requires Fits(k) && k.manifest in k.store && k.config in k.store
    ensures forall d :: d in Seeds(k) ==> SeedDescribed(In(k), d, Seeds(k)[d])
  {
    var p := PairOn(k, "first", k.b);
    assert Pairs(k)[0] == p && p in In(k).pairs;
    assert k.manifest != k.config by { Differ(k); }
    forall d | d in Seeds(k) ensures SeedDescribed(In(k), d, Seeds(k)[d]) {
      assert SeedOf(In(k), p, d, Seeds(k)[d]) by { SeedIsListed(k, p, d); }
    }
  }

  lemma SeedIsListed(k: Case, p: Pair, d: Digest)
    requires k.manifest != k.config && k.manifest in k.store && k.config in k.store && d in Seeds(k)
    requires p.manifest == k.manifest && p.mediaType == "manifest" && p.config == BlobRef(k.config, 3, "config")
    ensures SeedOf(In(k), p, d, Seeds(k)[d])
  {
  }

  lemma EnvsFit(k: Case, c: Ctx)
    requires k.b in k.store && SpoolFile(k) in c.base && c.base[SpoolFile(k)] == k.store[k.b]
    requires c.envs == [EnvOn(k, k.b), EnvOn(k, k.t)]
    ensures forall p :: 0 <= p < |c.envs| ==> EnvFits(In(k), c, c.envs[p], In(k).pairs[p])
  {
    forall p | 0 <= p < |c.envs| ensures EnvFits(In(k), c, c.envs[p], In(k).pairs[p]) {
      if p == 0 { EnvFitsPair(k, c, k.b, "first"); } else { EnvFitsPair(k, c, k.t, "second"); }
    }
  }

  lemma SeedKeysAre(k: Case)
    ensures SeedKeys(Pairs(k)) == {k.manifest, k.config}
  {
    assert Pairs(k)[0] in Pairs(k);
  }

  /** The only candidate is b. */
  lemma ChoosesB(k: Case, files: Files)
    requires Target(k.t) in files
    ensures Chosen(EnvOn(k, k.b), files, Layer(k), Target(k.t), 1) == [Meta(k.b, k.size, "layer")]
  {
    var e := EnvOn(k, k.b);
    var fp := e.printer("layer", files[Target(k.t)]);
    TopKIsPrefix(e.baseline, e.prints, fp, k.size, 1, 1);
    TopKMembers(e.baseline, e.prints, fp, k.size, 1, 0);
    assert TopK(e.baseline, e.prints, fp, k.size, 1)[0] == Meta(k.b, k.size, "layer");
  }

  /** A one-candidate search with a cheap patch keeps it. */
  lemma SearchKeeps(p: Search, patch: Bytes)
    requires Shaped(p) && |p.names| == 1 && p.attempts[0] == Made(patch) && |patch| < p.full && |patch| < p.raw
    ensures ScanTo(p, 1) == Scan(false, 0, |patch|, p.files[p.names[0] := patch])
  {
    assert ScanTo(p, 0) == Scan(false, -1, p.raw, p.files);
  }

  /** So the plan is a patch from b, and its payload is there. */
  lemma PlansPatch(k: Case, files: Files)
    requires k.b in k.store && k.t in k.store && Cheap(k)
    requires SpoolFile(k) in files && files[SpoolFile(k)] == k.store[k.b]
    requires Target(k.t) in files && files[Target(k.t)] == k.store[k.t]
    ensures var (out, after) := PlanSpec(EnvOn(k, k.b), files, Layer(k), Target(k.t), 1);
      out == Planned(PatchEntry(Layer(k), k.b, |k.patch|), SpillName(k.t, k.b)) && out.payload in after
  {
    ChoosesB(k, files);
    var e := EnvOn(k, k.b);
    var cands := [Meta(k.b, k.size, "layer")];
    var p := SearchOf(e, files, Layer(k), files[Target(k.t)], k.full, cands);
    assert p.attempts[0] == Try(e, files, k.store[k.t], Budget.ResolveWindowLog(0, k.size), k.b);
    SearchKeeps(p, k.patch);
  }

  lemma ShippedOnce(k: Case)
    ensures Refs([Job(0, Layer(k))], k.t) == 1
  {
    assert [Job(0, Layer(k))][..0] == [];
  }

  /** The canonical result of a tuple that is not forced and whose plan succeeds is the plan's. */
  lemma CanonIsPlan(c: Ctx, j: nat)
    requires Known(c, j) && !Forced(c, c.jobs[j].s.digest)
    requires PlanOf(c, j).0.Planned? && PlanOf(c, j).0.payload in PlanOf(c, j).1
    ensures CanonEntry(c, j) == PlanOf(c, j).0.entry && Kept(c, j)
  {
  }

  /** c exports exactly this case. */
  predicate Exports(k: Case, c: Ctx)
    requires k.b in k.store
  {
    && c.jobs == [Job(0, Layer(k))] && |c.envs| == 2 && !c.off && c.k == 1
    && SpoolFile(k) in c.base && c.base[SpoolFile(k)] == k.store[k.b] && k.t !in c.seeds
  }

  lemma OneJobPatch(k: Case, c: Ctx)
    requires k.b in k.store && k.t in k.store && Cheap(k) && Exports(k, c) && c.envs[0] == EnvOn(k, k.b) && c.content == k.store
    ensures Known(c, 0) && Kept(c, 0) && CanonEntry(c, 0) == PatchEntry(Layer(k), k.b, |k.patch|)
  {
    ShippedOnce(k);
    PlansPatch(k, c.base[Target(k.t) := k.store[k.t]]);
    CanonIsPlan(c, 0);
  }

  lemma OneJobKept(k: Case, c: Ctx)
    requires k.b in k.store && k.t in k.store && Cheap(k) && Exports(k, c) && c.envs[0] == EnvOn(k, k.b) && c.content == k.store
    ensures NoneLost(c)
  {
    OneJobPatch(k, c);
  }

  /** Every finished export of the case carries t as a patch from b, unless its planning slipped and t went in full. */
  lemma OneJobCarries(k: Case, c: Ctx, workers: int, budget: int, s: State)
    requires k.b in k.store && k.t in k.store && Cheap(k) && Exports(k, c) && c.envs[0] == EnvOn(k, k.b) && c.content == k.store
    requires CtxBase(c) && Reached(c, workers, budget, s) && Complete(c, s)
    ensures Carries(k, s)
  {
    OneJobPatch(k, c);
    ReachedInv(c, workers, budget, s);
    CompletedJob(c, s, 0);
    OnlyTupleYields(c, s, k.t);
  }

  /** With one tuple, an entry is what that tuple yields. */
  lemma OnlyTupleYields(c: Ctx, s: State, d: Digest)
    requires Inv(c, s) && |c.jobs| == 1 && d in s.entries && d !in c.seeds
    ensures Known(c, 0) && BlobPath(d) in s.files && Yields(c, s.slipped, 0, s.entries[d], s.files[BlobPath(d)])
  {
    assert EntryCanon(c, s, d);
    var j: nat :| Known(c, j) && c.jobs[j].s.digest == d && Yields(c, s.slipped, j, s.entries[d], s.files[BlobPath(d)]);
    assert j == 0;
  }

  predicate Carries(k: Case, s: State) {
    && k.t in s.entries
    && (s.entries[k.t] == PatchEntry(Layer(k), k.b, |k.patch|) || (k.t in s.slipped && s.entries[k.t] == FullEntry(Layer(k))))
  }

  lemma ExportShape(k: Case)
    requires Fits(k)
    ensures k.b in k.store && k.t in k.store && k.manifest in k.store && k.config in k.store
    ensures Exports(k, Export(k)) && Export(k).envs[0] == EnvOn(k, k.b) && Export(k).content == k.store
  {
    Differ(k);
    OnlyFirstShips(k);
    SpoolStored(k);
  }

  lemma FinishedCarriesPatch(k: Case, workers: int, budget: int, s: State)
    requires Fits(k) && k.b in k.store && k.manifest in k.store && k.config in k.store
    requires Reached(Export(k), workers, budget, s) && Complete(Export(k), s)
    ensures Carries(k, s)
  {
    ExportCtxOk(k);
    ExportShape(k);
    OneJobCarries(k, Export(k), workers, budget, s);
  }

  // ---- The import ----

  /** However the export finished, image 1's layer t, which its baseline holds, ends in a missing patch source
      exactly when no image before it has spooled b, or else t was shipped in full because its planning slipped. */
  lemma SecondImageBreaks(k: Case, workers: int, budget: int, s: State, spool: Spool)
    requires Fits(k) && k.b in k.store && k.manifest in k.store && k.config in k.store
    requires Reached(Export(k), workers, budget, s) && Complete(Export(k), s)
    requires Agrees(In(k), spool)
    ensures k.t in Holdings(Pairs(k)[1]) && k.t in Wanted(Pairs(k)[1]) && k.t in k.store && k.t in s.entries
    ensures s.entries[k.t].encoding == Full ==> k.t in s.slipped
    ensures Serve(WorldOf(In(k), BundleOf(s), 1), spool, k.t)
      == if k.b in spool || s.entries[k.t].encoding == Full then Served(k.store[k.t]) else Refused(MissingPatchSource(k.t, k.b))
  {
    BundleSound(k, workers, budget, s);
    FinishedCarriesPatch(k, workers, budget, s);
    PatchBreaks(k, BundleOf(s), spool);
  }

  lemma PatchBreaks(k: Case, b: Bundle, spool: Spool)
    requires Fits(k) && Sound(In(k), b) && Agrees(In(k), spool)
    requires k.t in b.blobs && (b.blobs[k.t] == PatchEntry(Layer(k), k.b, |k.patch|) || b.blobs[k.t] == FullEntry(Layer(k)))
    ensures k.t in Holdings(Pairs(k)[1]) && k.t in Wanted(Pairs(k)[1]) && k.t in k.store
    ensures Serve(WorldOf(In(k), b, 1), spool, k.t)
      == if k.b in spool || b.blobs[k.t].encoding == Full then Served(k.store[k.t]) else Refused(MissingPatchSource(k.t, k.b))
  {
    Differ(k);
    LayersOf(k, "second", k.t);
    assert Wanted(Pairs(k)[1])[0] == k.t;
    ServeExact(In(k), b, 1, spool, k.t);
  }

  /** From the very same bundle the first image comes back exactly: it reuses nothing, so nothing crosses.
      Its copy spools b if t is a patch, so after it the second image is served too: the order of the images decides. */
  lemma FirstImageWorks(k: Case, workers: int, budget: int, s: State)
    requires Fits(k) && k.b in k.store && k.manifest in k.store && k.config in k.store
    requires Reached(Export(k), workers, budget, s) && Complete(Export(k), s)
    requires k.t in k.store && forall d :: d in Wanted(In(k).pairs[0]) ==> d in In(k).store
    ensures var copied := ServeAll(WorldOf(In(k), BundleOf(s), 0), map[], Wanted(In(k).pairs[0]));
      && copied.why.None? && copied.blobs == Stored(In(k), Wanted(In(k).pairs[0]))
      && Agrees(In(k), copied.spool)
      && Serve(WorldOf(In(k), BundleOf(s), 1), copied.spool, k.t) == Served(k.store[k.t])
  {
    BundleSound(k, workers, budget, s);
    FirstSourcesHeld(k, workers, budget, s);
    RoundTripIff(In(k), BundleOf(s), 0, map[]);
    FinishedCarriesPatch(k, workers, budget, s);
    if s.entries[k.t].encoding == Patch { FirstSpoolsSource(k, BundleOf(s)); }
    SecondImageBreaks(k, workers, budget, s, ServeAll(WorldOf(In(k), BundleOf(s), 0), map[], Wanted(In(k).pairs[0])).spool);
  }

  lemma FirstWanted(k: Case)
    requires Fits(k)
    ensures k.t in Wanted(In(k).pairs[0]) && forall d :: d in Wanted(In(k).pairs[0]) ==> d in In(k).store
  {
    WantedOf(k, "first", k.b);
    assert [k.t, k.config][0] == k.t && forall d :: d in [k.t, k.config] ==> d == k.t || d == k.config;
    Differ(k);
  }

  lemma FirstSpoolsSource(k: Case, b: Bundle)
    requires Fits(k) && Sound(In(k), b) && ServeAll(WorldOf(In(k), b, 0), map[], Wanted(In(k).pairs[0])).why.None?
    requires k.t in b.blobs && b.blobs[k.t] == PatchEntry(Layer(k), k.b, |k.patch|)
    ensures k.b in ServeAll(WorldOf(In(k), b, 0), map[], Wanted(In(k).pairs[0])).spool
  {
    FirstWanted(k);
    CopyLeavesSources(In(k), b, 0, map[], Wanted(In(k).pairs[0]));
  }

  lemma FirstSourcesHeld(k: Case, workers: int, budget: int, s: State)
    requires Fits(k) && k.b in k.store && k.manifest in k.store && k.config in k.store
    requires Reached(Export(k), workers, budget, s) && Complete(Export(k), s)
    ensures SourcesHeld(BundleOf(s), In(k).pairs[0])
  {
    InputConsistent(k);
    ExportSetup(k);
    FinishedBundle(In(k), Export(k), workers, budget, s);
    Differ(k);
    FirstReusesNothing(k);
    OnlyCrossedMatter(In(k), Export(k), BundleOf(s), 0);
  }

  lemma WantedOf(k: Case, name: string, d: Digest)
    ensures Wanted(PairOn(k, name, d)) == [k.t, k.config]
  {
    var w := Wanted(PairOn(k, name, d));
    assert |w| == 2 && w[0] == k.t && w[1] == k.config;
  }

  lemma FirstReusesNothing(k: Case)
    requires k.b != k.t && k.b != k.config
    ensures forall d :: d in Wanted(In(k).pairs[0]) ==> d !in Layers(In(k).pairs[0])
  {
    LayersOf(k, "first", k.b);
    WantedOf(k, "first", k.b);
    assert In(k).pairs[0] == PairOn(k, "first", k.b);
  }

  lemma BundleSound(k: Case, workers: int, budget: int, s: State)
    requires Fits(k) && k.b in k.store && k.manifest in k.store && k.config in k.store
    requires Reached(Export(k), workers, budget, s) && Complete(Export(k), s)
    ensures Sound(In(k), BundleOf(s))
  {
    InputConsistent(k);
    ExportSetup(k);
    FinishedBundle(In(k), Export(k), workers, budget, s);
  }

  /** And it can always finish. */
  lemma ExportFinishes(k: Case, workers: int, budget: int)
    requires Fits(k) && k.b in k.store && k.manifest in k.store && k.config in k.store
    ensures exists s :: Reached(Export(k), workers, budget, s) && Complete(Export(k), s) && Steady(s)
  {
    ExportCtxOk(k);
    ExportShape(k);
    OneJobKept(k, Export(k));
    CompleteRunIff(Export(k), workers, budget);
  }

  // ---- A concrete case: contents are runs of zeros, a digest repeats the letter of its content's length ----

  function Zeros(n: nat): Bytes { seq(n, _ => 0 as byte) }

  function Letter(n: nat): char {
    if n == 1 then 'a' else if n == 2 then 'b' else if n == 3 then 'c' else if n == 4 then 'd' else if n == 5 then 'e' else 'f'
  }

  function Repeat(c: char, n: nat): string { seq(n, _ => c) }

  function Hash(): HashFn { (alg: string, data: Bytes) => Repeat(Letter(|data|), HexLength(alg)) }

  /** The digest of n zeros. */
  function NameOf(n: nat): Digest { DigestOf(Hash(), "sha256", Zeros(n)) }

  lemma NameShape(n: nat)
    ensures NameOf(n)[..6] == "sha256" && NameOf(n)[7..] == Repeat(Letter(n), 64) && Algorithm(NameOf(n)) == "sha256"
    ensures Canonical(NameOf(n)) && Matches(Hash(), NameOf(n), Zeros(n))
  {
  }

  lemma NamesDiffer(m: nat, n: nat)
    requires Letter(m) != Letter(n)
    ensures NameOf(m) != NameOf(n)
  {
    NameShape(m);
    NameShape(n);
    assert NameOf(m)[7..][0] != NameOf(n)[7..][0];
  }

  /** Any short run of zeros encodes to its length. */
  function ZeroCodec(): Codec {
    Codec(
      (r: Bytes, t: Bytes, w: int) => if |t| < 256 && t == Zeros(|t|) then Some([|t| as byte]) else None,
      (t: Bytes, w: int) => Some(100),
      (r: Bytes, p: Bytes) => if |p| == 1 then Some(Zeros(p[0] as int)) else None)
  }

  function Example(): Case {
    Case(Hash(), ZeroCodec(), NameOf(1), NameOf(2), NameOf(3), NameOf(4), NameOf(5),
         map[NameOf(1) := Zeros(1), NameOf(2) := Zeros(2), NameOf(3) := Zeros(3), NameOf(4) := Zeros(4), NameOf(5) := Zeros(5)],
         100, 100, [2])
  }

  lemma ExampleNames()
    ensures NoRepeats([NameOf(1), NameOf(2), NameOf(3), NameOf(4), NameOf(5)])
  {
    forall m, n | 1 <= m < n <= 5 ensures NameOf(m) != NameOf(n) { NamesDiffer(m, n); }
    var all := [NameOf(1), NameOf(2), NameOf(3), NameOf(4), NameOf(5)];
    assert forall i :: 0 <= i < 5 ==> all[i] == NameOf(i + 1);
  }

  lemma ExampleStored()
    ensures forall n :: 1 <= n <= 5 ==> NameOf(n) in Example().store && Example().store[NameOf(n)] == Zeros(n)
  {
    forall m, n | 1 <= m < n <= 5 ensures NameOf(m) != NameOf(n) { NamesDiffer(m, n); }
  }

  lemma ExampleFits()
    ensures Fits(Example())
  {
    ExampleNames();
    ExampleHonest();
    ExampleCheap();
    NameShape(4);
    ExampleLaws();
  }

  lemma ExampleLaws()
    ensures LawfulHash(Example().h) && LawfulCodec(Example().codec)
    ensures var k := Example(); k.store.Keys == {k.b, k.t, k.config, k.manifest, k.baseline}
  {
  }

  lemma ExampleHonest()
    ensures forall d :: d in Example().store ==> Matches(Hash(), d, Example().store[d]) && Canonical(d)
  {
    ExampleStored();
    forall d | d in Example().store ensures Matches(Hash(), d, Example().store[d]) && Canonical(d) {
      var n :| 1 <= n <= 5 && d == NameOf(n);
      NameShape(n);
    }
  }

  lemma ExampleCheap()
    ensures NameOf(1) in Example().store && NameOf(2) in Example().store && Cheap(Example())
  {
    ExampleStored();
    assert Zeros(2) == Zeros(|Zeros(2)|);
  }

  /** One concrete bundle: under every worker count and budget it finishes, its second image cannot be
      applied first, and can be after the first one. */
  lemma ConcreteBundleBreaks(workers: int, budget: int)
    ensures var k := Example(); k.b in k.store && k.manifest in k.store && k.config in k.store
    ensures var k := Example();
      exists s :: Reached(Export(k), workers, budget, s) && Complete(Export(k), s) && Steady(s)
        && Serve(WorldOf(In(k), BundleOf(s), 1), map[], k.t) == Refused(MissingPatchSource(k.t, k.b))
        && Serve(WorldOf(In(k), BundleOf(s), 1), ServeAll(WorldOf(In(k), BundleOf(s), 0), map[], Wanted(In(k).pairs[0])).spool, k.t).Served?
  {
    var k := Example();
    ExampleFits();
    FirstWanted(k);
    Differ(k);
    ExportFinishes(k, workers, budget);
    var s :| Reached(Export(k), workers, budget, s) && Complete(Export(k), s) && Steady(s);
    SecondImageBreaks(k, workers, budget, s, map[]);
    FirstImageWorks(k, workers, budget, s);
  }
}
