/**
 * Two manifests that disagree.  Both images ship layer t, each under a size of its own.  Each comes
 * back byte for byte, and the check that ends the apply refuses one of them.
 */
module SizeClash {
  import opened Common
  import opened Diff
  import opened Sorting
  import opened Workdir
  import opened Planner
  import opened BlobPool
  import opened Encode
  import opened Compose
  import opened RoundTrip
  import opened Restored
  import C = CrossImage
  import Invariant

  /** Five blobs, two of them manifests that list t as size and as other. */
  datatype Case = Case(
    h: HashFn, codec: Codec, parse: Parser,
    t: Digest, config: Digest, first: Digest, second: Digest, baseline: Digest,
    store: map<Digest, Bytes>, size: int, other: int)

  ghost predicate Fits(k: Case) {
    && LawfulHash(k.h) && LawfulCodec(k.codec)
    && NoRepeats([k.t, k.config, k.first, k.second, k.baseline])
    && k.store.Keys == {k.t, k.config, k.first, k.second, k.baseline}
    && (forall d :: d in k.store ==> Matches(k.h, d, k.store[d]) && Canonical(d))
    && Algorithm(k.first) == "sha256" && Algorithm(k.second) == "sha256"
    && 0 < k.size && 0 < k.other && k.size != k.other
    && k.parse("manifest", k.store[k.first]) == [Invariant.LayerRef(k.t, k.size)]
    && k.parse("manifest", k.store[k.second]) == [Invariant.LayerRef(k.t, k.other)]
  }

  function PairOf(k: Case, name: string, manifest: Digest, size: int): Pair {
    Pair(name, k.baseline, [], "", manifest, "manifest", [BlobRef(k.t, size, "layer")], BlobRef(k.config, 3, "config"))
  }

  function One(k: Case): Pair { PairOf(k, "first", k.first, k.size) }

  function Two(k: Case): Pair { PairOf(k, "second", k.second, k.other) }

  function In(k: Case): Input { Input(k.h, k.codec, [One(k), Two(k)], k.store) }

  function Jobs(k: Case): seq<Job> { [Job(0, BlobRef(k.t, k.size, "layer")), Job(1, BlobRef(k.t, k.other, "layer"))] }

  function Bare(k: Case): Env { Env([], map[], map[], (m: string, data: Bytes) => None, k.codec, 0) }

  function Seeds(k: Case): map<Digest, BlobEntry>
    requires k.first in k.store && k.second in k.store
  {
    map[k.first := C.Seed(|k.store[k.first]|, "manifest"), k.second := C.Seed(|k.store[k.second]|, "manifest"), k.config := C.Seed(3, "config")]
  }

  function Disk(k: Case): Files
    requires k.first in k.store && k.second in k.store && k.config in k.store
  {
    map[BlobPath(k.first) := k.store[k.first], BlobPath(k.second) := k.store[k.second], BlobPath(k.config) := k.store[k.config]]
  }

  /** Everything goes in full. */
  function Export(k: Case): Ctx
    requires k.first in k.store && k.second in k.store && k.config in k.store
  {
    Ctx(Jobs(k), [Bare(k), Bare(k)], k.store, true, 1, 0, Seeds(k), Disk(k))
  }

  predicate Distinct(k: Case) {
    k.first != k.second && k.first != k.config && k.second != k.config && k.first in k.store && k.second in k.store && k.config in k.store
  }

  lemma Differ(k: Case)
    requires Fits(k)
    ensures k.t != k.first && k.t != k.second && k.t != k.config
    ensures Distinct(k) && k.t in k.store && k.baseline in k.store
  {
    var all := [k.t, k.config, k.first, k.second, k.baseline];
    assert all[0] != all[1] && all[0] != all[2] && all[0] != all[3] && all[1] != all[2] && all[1] != all[3] && all[2] != all[3];
  }

  lemma PathsDiffer(k: Case)
    requires Fits(k)
    ensures BlobPath(k.first) != BlobPath(k.second) && BlobPath(k.first) != BlobPath(k.config) && BlobPath(k.second) != BlobPath(k.config)
  {
    Differ(k);
    if Encoded(k.first) == Encoded(k.second) { EncodedInjective(k.first, k.second); }
    if Encoded(k.first) == Encoded(k.config) { EncodedInjective(k.first, k.config); }
    if Encoded(k.second) == Encoded(k.config) { EncodedInjective(k.second, k.config); }
  }

  lemma PairIsStored(k: Case, name: string, manifest: Digest, size: int)
    requires Fits(k) && manifest in k.store && Algorithm(manifest) == "sha256"
    ensures PairStored(In(k), PairOf(k, name, manifest, size))
  {
    var p := PairOf(k, name, manifest, size);
    Differ(k);
    HoldingsAre(p);
    assert Layers(p) == {};
    assert p.target == [BlobRef(k.t, size, "layer")];
  }

  lemma IsConsistent(k: Case)
    requires Fits(k)
    ensures Consistent(In(k))
  {
    Differ(k);
    PairIsStored(k, "first", k.first, k.size);
    PairIsStored(k, "second", k.second, k.other);
    C.TwoPairsStored(In(k));
  }

  lemma SelectsAll(r: BlobRef)
    ensures Select([r], {}, false) == [r]
  {
    assert [r][..0] == [];
  }

  lemma JobsOfOne(a: Pair, r: BlobRef)
    requires a.baseline == [] && a.target == [r]
    ensures JobsOf([a]) == [Job(0, r)]
  {
    SelectsAll(r);
    assert Layers(a) == {} && [a][..0] == [];
    assert JobsFor(0, [r]) == [Job(0, r)];
  }

  lemma JobsOfTwo(a: Pair, b: Pair, r: BlobRef, q: BlobRef)
    requires a.baseline == [] && b.baseline == [] && a.target == [r] && b.target == [q]
    ensures JobsOf([a, b]) == [Job(0, r), Job(1, q)]
  {
    JobsOfOne(a, r);
    SelectsAll(q);
    assert [a, b][..1] == [a] && Layers(b) == {};
    assert JobsFor(1, [q]) == [Job(1, q)];
  }

  lemma JobsAre(k: Case)
    ensures JobsOf(In(k).pairs) == Jobs(k)
  {
    JobsOfTwo(One(k), Two(k), BlobRef(k.t, k.size, "layer"), BlobRef(k.t, k.other, "layer"));
  }

  lemma SeedKeysAre(k: Case)
    ensures SeedKeys(In(k).pairs) == {k.first, k.second, k.config}
  {
    assert In(k).pairs[0] == One(k) && In(k).pairs[1] == Two(k);
    assert One(k) in In(k).pairs && Two(k) in In(k).pairs;
  }

  lemma ManifestSeed(x: Input, p: Pair)
    requires p in x.pairs && p.manifest in x.store && p.mediaType == "manifest"
    ensures SeedDescribed(x, p.manifest, C.Seed(|x.store[p.manifest]|, "manifest"))
  {
    assert SeedOf(x, p, p.manifest, C.Seed(|x.store[p.manifest]|, "manifest"));
  }

  lemma ConfigSeed(x: Input, p: Pair)
    requires p in x.pairs && p.config.size == 3 && p.config.mediaType == "config"
    ensures SeedDescribed(x, p.config.digest, C.Seed(3, "config"))
  {
    assert SeedOf(x, p, p.config.digest, C.Seed(3, "config"));
  }

  lemma SeedsListed(k: Case)
    requires Distinct(k)
    ensures forall d :: d in Seeds(k) ==> SeedDescribed(In(k), d, Seeds(k)[d])
  {
    var a, b, x := One(k), Two(k), In(k);
    assert x.pairs[0] == a && x.pairs[1] == b;
    assert a in x.pairs && b in x.pairs;
    ManifestSeed(x, a);
    ManifestSeed(x, b);
    ConfigSeed(x, a);
    SeedValues(k);
  }

  lemma SeedValues(k: Case)
    requires Distinct(k)
    ensures Seeds(k).Keys == {k.first, k.second, k.config}
    ensures Seeds(k)[k.first] == C.Seed(|k.store[k.first]|, "manifest") && Seeds(k)[k.second] == C.Seed(|k.store[k.second]|, "manifest")
    ensures Seeds(k)[k.config] == C.Seed(3, "config")
  {
  }

  lemma DiskHolds(k: Case)
    requires Fits(k) && k.first in k.store && k.second in k.store && k.config in k.store
    ensures BlobPath(k.first) in Disk(k) && Disk(k)[BlobPath(k.first)] == k.store[k.first]
    ensures BlobPath(k.second) in Disk(k) && Disk(k)[BlobPath(k.second)] == k.store[k.second]
    ensures BlobPath(k.config) in Disk(k) && Disk(k)[BlobPath(k.config)] == k.store[k.config]
  {
    PathsDiffer(k);
  }

  lemma SeedsCanonical(k: Case)
    requires Fits(k) && Distinct(k)
    ensures Canonical(k.first) && Canonical(k.second) && Canonical(k.config)
  {
  }

  lemma SeedIsFull(k: Case, d: Digest)
    requires Distinct(k) && d in Seeds(k)
    ensures Seeds(k)[d].encoding == Full && EntryOk(Seeds(k)[d])
  {
    SeedValues(k);
    C.SeedOn(|k.store[k.first]|, "manifest");
    C.SeedOn(|k.store[k.second]|, "manifest");
    C.SeedOn(3, "config");
  }

  lemma SeedsStored(k: Case)
    requires Fits(k) && Distinct(k)
    ensures forall d :: d in Seeds(k) ==>
      && Canonical(d) && Seeds(k)[d].encoding == Full && EntryOk(Seeds(k)[d])
      && BlobPath(d) in Disk(k) && Disk(k)[BlobPath(d)] == k.store[d]
  {
    DiskHolds(k);
    SeedsCanonical(k);
    SeedKeysOnly(k);
    forall d | d in Seeds(k) ensures Seeds(k)[d].encoding == Full && EntryOk(Seeds(k)[d]) { SeedIsFull(k, d); }
  }

  lemma SeedKeysOnly(k: Case)
    requires Distinct(k)
    ensures forall d :: d in Seeds(k) ==> d == k.first || d == k.second || d == k.config
  {
    SeedValues(k);
  }

  lemma EnvsFit(k: Case, c: Ctx)
    requires c.envs == [Bare(k), Bare(k)]
    ensures forall p :: 0 <= p < |c.envs| ==> EnvFits(In(k), c, c.envs[p], In(k).pairs[p])
  {
    assert One(k).baseline == [] && Two(k).baseline == [];
    BareFits(k, c, One(k));
    BareFits(k, c, Two(k));
  }

  lemma BareFits(k: Case, c: Ctx, p: Pair)
    requires p.baseline == []
    ensures EnvFits(In(k), c, Bare(k), p)
  {
  }

  lemma CtxFits(k: Case, c: Ctx)
    requires c.jobs == Jobs(k) && c.envs == [Bare(k), Bare(k)] && k.t in c.content && Canonical(k.t)
    requires forall d :: d in c.seeds ==> Canonical(d) && BlobPath(d) in c.base
    ensures CtxBase(c)
  {
    assert Bare(k).paths == map[];
  }

  lemma OffKeeps(c: Ctx)
    requires c.off
    ensures NoneLost(c)
  {
  }

  lemma ExportOk(k: Case)
    requires Fits(k)
    ensures k.first in k.store && k.second in k.store && k.config in k.store && Setup(In(k), Export(k)) && NoneLost(Export(k))
  {
    Differ(k);
    var c := Export(k);
    SeedsStored(k);
    CtxFits(k, c);
    SetsUp(k, c);
    OffKeeps(c);
  }

  lemma SeedsAreListed(k: Case, c: Ctx)
    requires Distinct(k) && c.seeds == Seeds(k)
    ensures c.seeds.Keys == SeedKeys(In(k).pairs) && forall d :: d in c.seeds ==> SeedDescribed(In(k), d, c.seeds[d])
  {
    SeedKeysAre(k);
    SeedValues(k);
    SeedsListed(k);
  }

  lemma SeedsAreStored(k: Case, c: Ctx)
    requires Fits(k) && Distinct(k) && c.seeds == Seeds(k) && c.base == Disk(k)
    ensures forall d :: d in c.seeds ==>
      && c.seeds[d].encoding == Full && EntryOk(c.seeds[d]) && d in k.store && BlobPath(d) in c.base && c.base[BlobPath(d)] == k.store[d]
  {
    SeedsStored(k);
    SeedValues(k);
  }

  lemma SetsUp(k: Case, c: Ctx)
    requires Fits(k) && Distinct(k)
    requires CtxBase(c) && c.jobs == Jobs(k) && c.envs == [Bare(k), Bare(k)] && c.content == k.store
    requires c.seeds == Seeds(k) && c.base == Disk(k)
    ensures Setup(In(k), c)
  {
    JobsAre(k);
    EnvsFit(k, c);
    SeedsAreListed(k, c);
    SeedsAreStored(k, c);
    assert |c.envs| == |In(k).pairs| == 2;
  }

  lemma RefsOfPair(k: Case, name: string, manifest: Digest, size: int)
    ensures RefsOf(PairOf(k, name, manifest, size)) == [Invariant.LayerRef(k.t, size)]
  {
  }

  lemma OneIsPlain(x: Input, p: Pair, r: BlobRef)
    requires p.target == [r] && r.size > 0 && r.digest !in SeedKeys(x.pairs)
    ensures PlainLayers(x, p)
  {
  }

  lemma TwoArePlain(x: Input, a: Pair, b: Pair)
    requires x.pairs == [a, b] && PlainLayers(x, a) && PlainLayers(x, b)
    ensures LayersPlain(x)
  {
  }

  lemma ParsesTwo(x: Input, a: Pair, b: Pair, parse: Parser)
    requires x.pairs == [a, b] && a.manifest in x.store && b.manifest in x.store
    requires parse(a.mediaType, x.store[a.manifest]) == RefsOf(a) && parse(b.mediaType, x.store[b.manifest]) == RefsOf(b)
    requires |RefsOf(a)| == |RefsOf(b)| == 1
    ensures Parses(x, parse) && ListOnce(x)
  {
  }

  lemma ParsesThem(k: Case)
    requires Fits(k)
    ensures Parses(In(k), k.parse) && ListOnce(In(k))
  {
    RefsOfPair(k, "first", k.first, k.size);
    RefsOfPair(k, "second", k.second, k.other);
    Differ(k);
    ParsesTwo(In(k), One(k), Two(k), k.parse);
  }

  lemma LayerIsNoSeed(k: Case)
    requires k.t != k.first && k.t != k.second && k.t != k.config
    ensures k.t !in SeedKeys(In(k).pairs)
  {
    SeedKeysAre(k);
  }

  lemma ArePlain(k: Case)
    requires Fits(k)
    ensures LayersPlain(In(k))
  {
    Differ(k);
    LayerIsNoSeed(k);
    OneIsPlain(In(k), One(k), BlobRef(k.t, k.size, "layer"));
    OneIsPlain(In(k), Two(k), BlobRef(k.t, k.other, "layer"));
    TwoArePlain(In(k), One(k), Two(k));
  }

  lemma TheyDisagree(k: Case)
    requires Fits(k) && k.first in k.store && k.second in k.store && k.config in k.store
    ensures !ShippedSizesAgree(In(k), Export(k))
  {
    var a, b := In(k).pairs[0], In(k).pairs[1];
    assert Jobs(k)[0].s.digest in Shipped(Jobs(k));
    assert a.target[0] in a.target && b.target[0] in b.target;
    assert !SizedAlike(a, b, k.t);
  }

  /** Image i comes back byte for byte. */
  ghost predicate Restores(k: Case, b: Bundle, i: nat, spool: Spool)
    requires i < 2
  {
    && (forall d :: d in Wanted(In(k).pairs[i]) ==> d in k.store)
    && var copied := ServeAll(WorldOf(In(k), b, i), spool, Wanted(In(k).pairs[i]));
       copied.why.None? && copied.blobs == Stored(In(k), Wanted(In(k).pairs[i]))
  }

  lemma ComesBack(k: Case, workers: int, budget: int, s: State, i: nat, spool: Spool)
    requires Fits(k) && k.first in k.store && k.second in k.store && k.config in k.store
    requires Agrees(In(k), spool) && i < 2 && Reached(Export(k), workers, budget, s) && Complete(Export(k), s)
    ensures Restores(k, BundleOf(s), i, spool)
  {
    IsConsistent(k);
    ExportOk(k);
    forall d | d in Wanted(In(k).pairs[i]) ensures d in k.store { WantedStored(In(k), i, d); }
    SafeExportsRoundTrip(In(k), Export(k), workers, budget, s, i, spool);
  }

  lemma NotBoth(x: Input, b: Bundle, parse: Parser)
    requires |x.pairs| == 2 && !EveryImagePasses(x, b, parse)
    ensures !Passes(x, b, parse, 0) || !Passes(x, b, parse, 1)
  {
    var i :| 0 <= i < |x.pairs| && !Passes(x, b, parse, i);
    assert i == 0 || i == 1;
  }

  lemma NotBothPass(k: Case, workers: int, budget: int, s: State)
    requires Fits(k) && k.first in k.store && k.second in k.store && k.config in k.store
    requires Reached(Export(k), workers, budget, s) && Complete(Export(k), s)
    ensures !Passes(In(k), BundleOf(s), k.parse, 0) || !Passes(In(k), BundleOf(s), k.parse, 1)
  {
    IsConsistent(k);
    ExportOk(k);
    FinishedBundle(In(k), Export(k), workers, budget, s);
    ParsesThem(k);
    ArePlain(k);
    TheyDisagree(k);
    EveryImagePassesIff(In(k), Export(k), BundleOf(s), k.parse);
    NotBoth(In(k), BundleOf(s), k.parse);
  }

  /** However such an export finished, every image comes back from every agreeing spool, and yet not both pass. */
  lemma ExactButRefused(k: Case, workers: int, budget: int, s: State)
    requires Fits(k) && k.first in k.store && k.second in k.store && k.config in k.store
    requires Reached(Export(k), workers, budget, s) && Complete(Export(k), s)
    ensures forall i, spool :: 0 <= i < 2 && Agrees(In(k), spool) ==> Restores(k, BundleOf(s), i, spool)
    ensures !Passes(In(k), BundleOf(s), k.parse, 0) || !Passes(In(k), BundleOf(s), k.parse, 1)
  {
    NotBothPass(k, workers, budget, s);
    forall i, spool | 0 <= i < 2 && Agrees(In(k), spool) ensures Restores(k, BundleOf(s), i, spool) {
      ComesBack(k, workers, budget, s, i, spool);
    }
  }

  // ---- A concrete case ----

  function Example(): Case {
    Case(C.Hash(), C.ZeroCodec(), (mediaType: string, raw: Bytes) => [Invariant.LayerRef(C.NameOf(2), if |raw| == 4 then 2 else 3)],
         C.NameOf(2), C.NameOf(3), C.NameOf(4), C.NameOf(1), C.NameOf(5), C.Example().store, 2, 3)
  }

  lemma ExampleFits()
    ensures Fits(Example())
  {
    var k := Example();
    C.ExampleLaws();
    C.ExampleHonest();
    C.ExampleStored();
    C.NameShape(4);
    C.NameShape(1);
    ExampleNames();
    assert k.store[k.first] == C.Zeros(4) && k.store[k.second] == C.Zeros(1);
  }

  lemma ExampleNames()
    ensures NoRepeats([C.NameOf(2), C.NameOf(3), C.NameOf(4), C.NameOf(1), C.NameOf(5)])
  {
    var ns := [2, 3, 4, 1, 5];
    var all := [C.NameOf(2), C.NameOf(3), C.NameOf(4), C.NameOf(1), C.NameOf(5)];
    forall i, j | 0 <= i < j < 5 ensures all[i] != all[j] { C.NamesDiffer(ns[i], ns[j]); }
  }

  /** One such bundle: under every worker count and budget it can be exported without error, and then the check
      refuses an image that is exactly right. */
  lemma ConcreteRefusal(workers: int, budget: int)
    ensures var k := Example();
      && k.first in k.store && k.second in k.store && k.config in k.store
      && exists s :: Reached(Export(k), workers, budget, s) && Complete(Export(k), s) && Refuses(k, BundleOf(s))
  {
    var k := Example();
    ExampleFits();
    ExportOk(k);
    CompleteRunIff(Export(k), workers, budget);
    var s :| Reached(Export(k), workers, budget, s) && Complete(Export(k), s) && Steady(s);
    ExactButRefused(k, workers, budget, s);
    assert Agrees(In(k), map[]);
    assert Refuses(k, BundleOf(s));
  }

  ghost predicate Refuses(k: Case, b: Bundle) {
    exists i :: 0 <= i < 2 && Restores(k, b, i, map[]) && !Passes(In(k), b, k.parse, i)
  }
}
