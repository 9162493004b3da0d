/**
 * The check that ends an apply, on an image that came back exactly: the layers the sidecar's manifest
 * lists, weighed against the sidecar's table.  Does a restored image always pass?
 */
module Restored {
  import opened Common
  import opened Diff
  import opened Sorting
  import opened BlobPool
  import opened Encode
  import opened Compose
  import opened RoundTrip
  import Invariant
  import P = Preflight

  /** A manifest's bytes, under a media type, to the layers it lists. */
  type Parser = (string, Bytes) -> seq<Invariant.LayerRef>

  function RefsOf(p: Pair): seq<Invariant.LayerRef> { Mapped(p.target, (r: BlobRef) => Invariant.LayerRef(r.digest, r.size)) }

  /** The stored manifests are those of the pairs' targets. */
  ghost predicate Parses(x: Input, parse: Parser) {
    forall p :: p in x.pairs ==> p.manifest in x.store && parse(p.mediaType, x.store[p.manifest]) == RefsOf(p)
  }

  /** What the check expects: the manifest blob the sidecar names for image i, as archived. */
  function Expected(parse: Parser, s: Sidecar, files: map<Digest, Bytes>, i: nat): Option<Invariant.Image>
    requires i < |s.images|
  {
    var e := s.images[i];
    if e.targetManifest !in files then None
    else Some(Invariant.Image(parse(e.targetMediaType, files[e.targetManifest]), e.targetMediaType, e.targetManifest))
  }

  /** What the check finds: the destination's manifest, named by its own bytes. */
  function Found(h: HashFn, parse: Parser, mediaType: string, raw: Bytes): Invariant.Image {
    Invariant.Image(parse(mediaType, raw), mediaType, DigestOf(h, "sha256", raw))
  }

  /** Image i's check passes on a destination that received the target manifest unconverted. */
  ghost predicate Passes(x: Input, b: Bundle, parse: Parser, i: nat)
    requires i < |x.pairs|
  {
    var p := x.pairs[i];
    var want := Expected(parse, SidecarOf(b.blobs, x.pairs, ""), b.files, i);
    p.manifest in x.store && want.Some? && Invariant.Faithful(want.value, Found(x.h, parse, p.mediaType, x.store[p.manifest]), b.blobs)
  }

  /** Both readings are the pair's target. */
  lemma ReadsTarget(x: Input, c: Ctx, b: Bundle, parse: Parser, i: nat)
    requires Consistent(x) && Setup(x, c) && Exported(x, c, b) && SeedsKept(c, b) && Parses(x, parse) && i < |x.pairs|
    ensures var p := x.pairs[i]; var target := Invariant.Image(RefsOf(p), p.mediaType, p.manifest);
      && p.manifest in x.store && Expected(parse, SidecarOf(b.blobs, x.pairs, ""), b.files, i) == Some(target)
      && Found(x.h, parse, p.mediaType, x.store[p.manifest]) == target
  {
    var p := x.pairs[i];
    assert p in x.pairs && PairStored(x, p);
    SidecarLists(b.blobs, x.pairs, "", i);
    ManifestArchived(x, c, b, p);
    assert Matches(x.h, p.manifest, x.store[p.manifest]);
  }

  /** Manifests are archived as they are. */
  lemma ManifestArchived(x: Input, c: Ctx, b: Bundle, p: Pair)
    requires Setup(x, c) && Exported(x, c, b) && SeedsKept(c, b) && p in x.pairs && p.manifest in x.store
    ensures p.manifest in b.files && b.files[p.manifest] == x.store[p.manifest]
  {
    assert p.manifest in SeedKeys(x.pairs) && Meaning(x, c, b, p.manifest);
    assert b.blobs[p.manifest].encoding == Full;
  }

  /** Wherever the table has a positive size for a layer of p, it is the one p lists. */
  predicate TableAgrees(p: Pair, blobs: map<Digest, BlobEntry>) {
    forall r :: r in p.target && r.digest in blobs && blobs[r.digest].size > 0 ==> r.size == blobs[r.digest].size
  }

  lemma RefsListed(p: Pair)
    ensures forall l :: l in RefsOf(p) ==> exists r :: r in p.target && r.digest == l.digest && r.size == l.size
    ensures forall r :: r in p.target ==> Invariant.LayerRef(r.digest, r.size) in RefsOf(p)
  {
    var refs := RefsOf(p);
    forall l | l in refs ensures exists r :: r in p.target && r.digest == l.digest && r.size == l.size {
      var k :| 0 <= k < |refs| && refs[k] == l;
      assert p.target[k] in p.target;
    }
    forall r | r in p.target ensures Invariant.LayerRef(r.digest, r.size) in refs {
      var k :| 0 <= k < |p.target| && p.target[k] == r;
      assert refs[k] == Invariant.LayerRef(r.digest, r.size);
    }
  }

  /** A restored image passes exactly when the table's positive sizes are the ones its manifest lists. */
  lemma RestoredPassesIff(x: Input, c: Ctx, b: Bundle, parse: Parser, i: nat)
    requires Consistent(x) && Setup(x, c) && Exported(x, c, b) && SeedsKept(c, b) && Parses(x, parse) && i < |x.pairs|
    requires Invariant.OneSizePerDigest(RefsOf(x.pairs[i]))
    ensures Passes(x, b, parse, i) <==> TableAgrees(x.pairs[i], b.blobs)
  {
    var p := x.pairs[i];
    ReadsTarget(x, c, b, parse, i);
    RefsListed(p);
    Invariant.PassesAgainstItself(Invariant.Image(RefsOf(p), p.mediaType, p.manifest), b.blobs);
  }

  // ---- In terms of the manifests alone ----

  predicate SizedAlike(p: Pair, q: Pair, d: Digest) {
    forall r, t :: r in p.target && t in q.target && r.digest == d && t.digest == d ==> r.size == t.size
  }

  /** No pair gives a layer that some pair ships another size than any other pair does. */
  ghost predicate ShippedSizesAgree(x: Input, c: Ctx) {
    forall d, p, q :: d in Shipped(c.jobs) && p in x.pairs && q in x.pairs ==> SizedAlike(p, q, d)
  }

  /** Each manifest gives a layer one size, however often it lists it. */
  predicate ListOnce(x: Input) { forall p :: p in x.pairs ==> Invariant.OneSizePerDigest(RefsOf(p)) }

  ghost predicate EveryImagePasses(x: Input, b: Bundle, parse: Parser) {
    forall i :: 0 <= i < |x.pairs| ==> Passes(x, b, parse, i)
  }

  /** Layers have positive sizes and are nobody's manifest or config. */
  predicate LayersPlain(x: Input) { forall p :: p in x.pairs ==> PlainLayers(x, p) }

  predicate PlainLayers(x: Input, p: Pair) { forall r :: r in p.target ==> r.size > 0 && r.digest !in SeedKeys(x.pairs) }

  /** The table's size of a shipped layer is that of a pair that ships it. */
  lemma TableSize(x: Input, c: Ctx, b: Bundle, d: Digest) returns (q: Pair, t: BlobRef)
    requires Exported(x, c, b) && d in b.blobs && d !in SeedKeys(x.pairs)
    ensures q in x.pairs && t in q.target && t.digest == d && t.size == b.blobs[d].size
  {
    assert Described(x, d, b.blobs[d]);
    q, t :| q in x.pairs && LayerOf(q, t, d, b.blobs[d]);
  }

  lemma AlikeAgrees(x: Input, c: Ctx, b: Bundle, p: Pair)
    requires Exported(x, c, b) && LayersPlain(x) && p in x.pairs && ShippedSizesAgree(x, c)
    ensures TableAgrees(p, b.blobs)
  {
    forall r | r in p.target && r.digest in b.blobs && b.blobs[r.digest].size > 0 ensures r.size == b.blobs[r.digest].size {
      assert PlainLayers(x, p);
      var q, t := TableSize(x, c, b, r.digest);
      assert SizedAlike(p, q, r.digest);
    }
  }

  lemma AgreesAlike(x: Input, c: Ctx, b: Bundle, d: Digest, p: Pair, q: Pair)
    requires Exported(x, c, b) && LayersPlain(x) && p in x.pairs && q in x.pairs && d in Shipped(c.jobs)
    requires TableAgrees(p, b.blobs) && TableAgrees(q, b.blobs)
    ensures SizedAlike(p, q, d)
  {
    forall r, t | r in p.target && t in q.target && r.digest == d && t.digest == d ensures r.size == t.size {
      assert PlainLayers(x, p);
      var o, u := TableSize(x, c, b, d);
      assert PlainLayers(x, o);
    }
  }

  /**
   * Does every restored image of a bundle pass?  For manifests that list each of their own layers with one
   * positive size, exactly when no two of them disagree on the size of a layer that some image ships, for
   * whichever descriptor came first then refuses the images that list the other size.
   */
  lemma EveryImagePassesIff(x: Input, c: Ctx, b: Bundle, parse: Parser)
    requires Consistent(x) && Setup(x, c) && Exported(x, c, b) && SeedsKept(c, b) && Parses(x, parse) && LayersPlain(x)
    requires ListOnce(x)
    ensures EveryImagePasses(x, b, parse) <==> ShippedSizesAgree(x, c)
  {
    forall i | 0 <= i < |x.pairs| ensures Passes(x, b, parse, i) <==> TableAgrees(x.pairs[i], b.blobs) {
      assert x.pairs[i] in x.pairs;
      RestoredPassesIff(x, c, b, parse, i);
    }
    AllAgreeIff(x, c, b);
  }

  lemma AllAgreeIff(x: Input, c: Ctx, b: Bundle)
    requires Exported(x, c, b) && LayersPlain(x)
    ensures (forall i :: 0 <= i < |x.pairs| ==> TableAgrees(x.pairs[i], b.blobs)) <==> ShippedSizesAgree(x, c)
  {
    if ShippedSizesAgree(x, c) {
      forall i | 0 <= i < |x.pairs| ensures TableAgrees(x.pairs[i], b.blobs) { AlikeAgrees(x, c, b, x.pairs[i]); }
    }
    if forall i :: 0 <= i < |x.pairs| ==> TableAgrees(x.pairs[i], b.blobs) {
      forall d, p, q | d in Shipped(c.jobs) && p in x.pairs && q in x.pairs ensures SizedAlike(p, q, d) {
        AgreesAlike(x, c, b, d, p, q);
      }
    }
  }

  /**
   * The whole way round.  From any error-free export, under any schedule, with a spool that holds what
   * preflight listed as missing: the image comes back byte for byte, and its check passes, given that the
   * manifests agree on the sizes of what they list.
   */
  lemma RestoredImagePasses(x: Input, c: Ctx, workers: int, budget: int, s: State, i: nat, spool: Spool, r: P.Report, parse: Parser)
    requires Consistent(x) && Setup(x, c) && Reached(c, workers, budget, s) && Complete(c, s) && i < |x.pairs|
    requires forall d :: d in Wanted(x.pairs[i]) ==> d in x.store
    requires Agrees(x, spool) && P.AllSpooled(r, spool)
    requires P.Scanned(r, s.entries, Mapped(x.pairs[i].target, (t: BlobRef) => t.digest), BaselineOf(x.pairs[i]))
    requires Parses(x, parse) && LayersPlain(x) && ShippedSizesAgree(x, c) && Invariant.OneSizePerDigest(RefsOf(x.pairs[i]))
    ensures var copied := ServeAll(WorldOf(x, BundleOf(s), i), spool, Wanted(x.pairs[i]));
      copied.why.None? && copied.blobs == Stored(x, Wanted(x.pairs[i]))
    ensures Passes(x, BundleOf(s), parse, i)
  {
    ApplyUndoesDiff(x, c, workers, budget, s, i, spool, r);
    FinishedBundle(x, c, workers, budget, s);
    RestoredPassesIff(x, c, BundleOf(s), parse, i);
    AlikeAgrees(x, c, BundleOf(s), x.pairs[i]);
  }
}
