/** After a copy: does the destination hold the image the sidecar describes? */
module Invariant {
  import opened Common
  import opened Diff

  datatype LayerRef = LayerRef(digest: Digest, size: int)

  function Digests(layers: seq<LayerRef>): set<Digest> { set l | l in layers :: l.digest }

  method DigestSet(layers: seq<LayerRef>) returns (s: set<Digest>)
    ensures s == Digests(layers)
  {
    s := {};
    for i := 0 to |layers|
      invariant s == Digests(layers[..i])
    {
      DigestsNext(layers, i);
      s := s + {layers[i].digest};
    }
    assert layers[..|layers|] == layers;
  }

  lemma DigestsNext(layers: seq<LayerRef>, i: nat)
    requires i < |layers|
    ensures Digests(layers[..i + 1]) == Digests(layers[..i]) + {layers[i].digest}
  {
    assert layers[..i + 1] == layers[..i] + [layers[i]];
  }

  /** The two set differences, each without repeats. */
  method LayerSetDiff(expected: seq<LayerRef>, actual: seq<LayerRef>) returns (missing: seq<Digest>, unexpected: seq<Digest>)
    ensures Elements(missing) == Digests(expected) - Digests(actual) && NoRepeats(missing)
    ensures Elements(unexpected) == Digests(actual) - Digests(expected) && NoRepeats(unexpected)
  {
    var want := DigestSet(expected);
    var have := DigestSet(actual);
    missing := SetSlice(want - have);
    unexpected := SetSlice(have - want);
  }

  /** The last size listed for d, as a map filled in order keeps it. */
  function LastSize(layers: seq<LayerRef>, d: Digest): Option<int> {
    if |layers| == 0 then None
    else if layers[|layers| - 1].digest == d then Some(layers[|layers| - 1].size)
    else LastSize(layers[..|layers| - 1], d)
  }

  lemma {:induction false} LastSizeExact(layers: seq<LayerRef>, d: Digest)
    ensures LastSize(layers, d).Some? <==> d in Digests(layers)
    ensures LastSize(layers, d).Some? ==> exists l :: l in layers && l.digest == d && l.size == LastSize(layers, d).value
    decreases |layers|
  {
    if |layers| > 0 {
      var front, last := layers[..|layers| - 1], layers[|layers| - 1];
      LastSizeExact(front, d);
      DigestsNext(layers, |layers| - 1);
      assert layers[..|layers|] == layers;
      assert last in layers;
    }
  }

  /** The sidecar's size is authoritative when it has a positive one. */
  function WantSize(e: LayerRef, blobs: map<Digest, BlobEntry>): int {
    if e.digest in blobs && blobs[e.digest].size > 0 then blobs[e.digest].size else e.size
  }

  predicate SizeFits(e: LayerRef, actual: seq<LayerRef>, blobs: map<Digest, BlobEntry>) {
    var got := LastSize(actual, e.digest);
    got.None? || got.value == WantSize(e, blobs)
  }

  method SizesByDigest(layers: seq<LayerRef>) returns (m: map<Digest, int>)
    ensures forall d :: if d in m then LastSize(layers, d) == Some(m[d]) else LastSize(layers, d).None?
  {
    m := map[];
    for i := 0 to |layers|
      invariant forall d :: if d in m then LastSize(layers[..i], d) == Some(m[d]) else LastSize(layers[..i], d).None?
    {
      assert layers[..i + 1][..i] == layers[..i];
      m := m[layers[i].digest := layers[i].size];
    }
    assert layers[..|layers|] == layers;
  }

  /** The first expected layer whose destination size is wrong. */
  method VerifyPerLayerSize(expected: seq<LayerRef>, actual: seq<LayerRef>, blobs: map<Digest, BlobEntry>) returns (bad: Option<nat>)
    ensures bad.None? <==> forall i :: 0 <= i < |expected| ==> SizeFits(expected[i], actual, blobs)
    ensures bad.Some? ==> bad.value < |expected| && !SizeFits(expected[bad.value], actual, blobs)
    ensures bad.Some? ==> forall i :: 0 <= i < bad.value ==> SizeFits(expected[i], actual, blobs)
  {
    var byDigest := SizesByDigest(actual);
    for i := 0 to |expected|
      invariant forall j :: 0 <= j < i ==> SizeFits(expected[j], actual, blobs)
    {
      var e := expected[i];
      assert SizeFits(e, actual, blobs) <==> e.digest !in byDigest || byDigest[e.digest] == WantSize(e, blobs);
      if e.digest in byDigest && byDigest[e.digest] != WantSize(e, blobs) { return Some(i); }
    }
    return None;
  }

  /** One manifest as read: its layers, its media type, its digest. */
  datatype Image = Image(layers: seq<LayerRef>, mediaType: string, manifest: Digest)

  datatype Outcome =
    | Holds
    | LayerSetMismatch(missing: seq<Digest>, unexpected: seq<Digest>)
    | SizeMismatch(index: nat)
    | ManifestMismatch

  /** What a nil result stands for. */
  predicate Faithful(expected: Image, actual: Image, blobs: map<Digest, BlobEntry>) {
    && Digests(expected.layers) == Digests(actual.layers)
    && (forall i :: 0 <= i < |expected.layers| ==> LastSize(actual.layers, expected.layers[i].digest) == Some(WantSize(expected.layers[i], blobs)))
    && (expected.mediaType == actual.mediaType ==> expected.manifest == actual.manifest)
  }

  method VerifyApplyInvariant(expected: Image, actual: Image, blobs: map<Digest, BlobEntry>) returns (r: Outcome)
    ensures r == Holds <==> Faithful(expected, actual, blobs)
    ensures r.LayerSetMismatch? <==> Digests(expected.layers) != Digests(actual.layers)
    ensures r.LayerSetMismatch? ==>
      Elements(r.missing) == Digests(expected.layers) - Digests(actual.layers) && Elements(r.unexpected) == Digests(actual.layers) - Digests(expected.layers)
    ensures r.SizeMismatch? ==> r.index < |expected.layers| && !SizeFits(expected.layers[r.index], actual.layers, blobs)
    ensures r.ManifestMismatch? ==> expected.mediaType == actual.mediaType && expected.manifest != actual.manifest
  {
    var missing, unexpected := LayerSetDiff(expected.layers, actual.layers);
    EmptyDifference(missing, unexpected, Digests(expected.layers), Digests(actual.layers));
    if |missing| + |unexpected| > 0 { return LayerSetMismatch(missing, unexpected); }
    var bad := VerifyPerLayerSize(expected.layers, actual.layers, blobs);
    SizesAllListed(expected, actual, blobs);
    if bad.Some? { return SizeMismatch(bad.value); }
    if expected.mediaType == actual.mediaType && actual.manifest != expected.manifest { return ManifestMismatch; }
    return Holds;
  }

  lemma EmptyDifference(missing: seq<Digest>, unexpected: seq<Digest>, want: set<Digest>, have: set<Digest>)
    requires Elements(missing) == want - have && Elements(unexpected) == have - want
    ensures |missing| + |unexpected| == 0 <==> want == have
  {
    if |missing| > 0 { assert missing[0] in Elements(missing); }
    if |unexpected| > 0 { assert unexpected[0] in Elements(unexpected); }
    forall d | |missing| + |unexpected| == 0 ensures d in want <==> d in have {
      assert d in want && d !in have ==> d in Elements(missing);
      assert d in have && d !in want ==> d in Elements(unexpected);
    }
  }

  /** With equal digest sets no expected layer is skipped by the size check. */
  lemma SizesAllListed(expected: Image, actual: Image, blobs: map<Digest, BlobEntry>)
    requires Digests(expected.layers) == Digests(actual.layers)
    ensures forall i :: 0 <= i < |expected.layers| ==>
      (SizeFits(expected.layers[i], actual.layers, blobs) <==>
       LastSize(actual.layers, expected.layers[i].digest) == Some(WantSize(expected.layers[i], blobs)))
  {
    forall i | 0 <= i < |expected.layers|
      ensures SizeFits(expected.layers[i], actual.layers, blobs) <==>
        LastSize(actual.layers, expected.layers[i].digest) == Some(WantSize(expected.layers[i], blobs))
    {
      LastSizeExact(actual.layers, expected.layers[i].digest);
      assert expected.layers[i].digest in Digests(expected.layers);
    }
  }

  /** l lists e's digest with the sidecar's size when that is positive and with e's own otherwise. */
  predicate RightlyListed(l: LayerRef, e: LayerRef, blobs: map<Digest, BlobEntry>) {
    && l.digest == e.digest
    && (e.digest in blobs && blobs[e.digest].size > 0 ==> l.size == blobs[e.digest].size)
    && (e.digest !in blobs || blobs[e.digest].size <= 0 ==> l.size == e.size)
  }

  /** What a passed check means, layer by layer: the destination lists each expected layer rightly, and no other. */
  lemma HoldsMeans(expected: Image, actual: Image, blobs: map<Digest, BlobEntry>, e: LayerRef)
    requires Faithful(expected, actual, blobs) && e in expected.layers
    ensures exists l :: l in actual.layers && RightlyListed(l, e, blobs)
    ensures forall l :: l in actual.layers ==> exists x :: x in expected.layers && x.digest == l.digest
  {
    var i :| 0 <= i < |expected.layers| && expected.layers[i] == e;
    LastSizeExact(actual.layers, e.digest);
    assert LastSize(actual.layers, expected.layers[i].digest) == Some(WantSize(expected.layers[i], blobs));
    forall l | l in actual.layers ensures exists x :: x in expected.layers && x.digest == l.digest {
      assert l.digest in Digests(actual.layers);
      assert l.digest in Digests(expected.layers);
    }
  }

  /** An image passes against itself exactly when the table's positive sizes are the listed ones, given that it
      lists each digest with one size. */
  lemma PassesAgainstItself(image: Image, blobs: map<Digest, BlobEntry>)
    requires OneSizePerDigest(image.layers)
    ensures Faithful(image, image, blobs) <==>
      forall e :: e in image.layers && e.digest in blobs && blobs[e.digest].size > 0 ==> blobs[e.digest].size == e.size
  {
    forall e | e in image.layers ensures LastSize(image.layers, e.digest) == Some(e.size) {
      LastSizeExact(image.layers, e.digest);
      assert e.digest in Digests(image.layers);
    }
    if Faithful(image, image, blobs) {
      forall e | e in image.layers && e.digest in blobs && blobs[e.digest].size > 0 ensures blobs[e.digest].size == e.size {
        var i :| 0 <= i < |image.layers| && image.layers[i] == e;
        assert LastSize(image.layers, image.layers[i].digest) == Some(WantSize(image.layers[i], blobs));
      }
    }
  }

  // ---- How far the check reaches ----

  /** Every listed size, not just the last one of each digest, is the wanted one. */
  predicate EverySizeRight(expected: Image, actual: Image, blobs: map<Digest, BlobEntry>) {
    forall l, e :: l in actual.layers && e in expected.layers && l.digest == e.digest ==> l.size == WantSize(e, blobs)
  }

  predicate OneSizePerDigest(layers: seq<LayerRef>) {
    forall a, b :: a in layers && b in layers && a.digest == b.digest ==> a.size == b.size
  }

  /** A passed check pins every listed size exactly when the destination lists each digest with one size. */
  lemma SoundForEverySize(expected: Image, actual: Image, blobs: map<Digest, BlobEntry>)
    requires Faithful(expected, actual, blobs)
    ensures EverySizeRight(expected, actual, blobs) <==> OneSizePerDigest(actual.layers)
  {
    forall e | e in expected.layers ensures LastSize(actual.layers, e.digest) == Some(WantSize(e, blobs)) {
      var i :| 0 <= i < |expected.layers| && expected.layers[i] == e;
    }
    if OneSizePerDigest(actual.layers) {
      forall l, e | l in actual.layers && e in expected.layers && l.digest == e.digest ensures l.size == WantSize(e, blobs) {
        LastSizeExact(actual.layers, e.digest);
      }
    }
    if EverySizeRight(expected, actual, blobs) {
      forall a, b | a in actual.layers && b in actual.layers && a.digest == b.digest ensures a.size == b.size {
        assert a.digest in Digests(actual.layers);
        var e :| e in expected.layers && e.digest == a.digest;
      }
    }
  }

  /** A destination that lists a digest twice passes with any wrong first size. */
  lemma RepeatedDigestSlipsThrough(d: Digest, right: int, wrong: int, mediaType: string, manifest: Digest)
    requires Canonical(d) && right != wrong
    ensures var e := Image([LayerRef(d, right)], mediaType, manifest);
      var a := Image([LayerRef(d, wrong), LayerRef(d, right)], mediaType, manifest);
      Faithful(e, a, map[]) && !EverySizeRight(e, a, map[])
  {
    var x, y := LayerRef(d, wrong), LayerRef(d, right);
    var e, a := Image([y], mediaType, manifest), Image([x, y], mediaType, manifest);
    assert x in a.layers && y in e.layers;
    assert Digests(e.layers) == {d};
    assert Digests(a.layers) == {d} by { assert y in a.layers; }
  }

  /** A passed check vouches for the destination's manifest exactly when no format conversion took place. */
  lemma ConversionSkipsManifest(expected: Image, actual: Image, blobs: map<Digest, BlobEntry>)
    requires Faithful(expected, actual, blobs)
    ensures (forall other :: Faithful(expected, actual.(manifest := other), blobs) ==> other == expected.manifest)
      <==> expected.mediaType == actual.mediaType
  {
    var other := expected.manifest + "0";
    assert |other| != |expected.manifest|;
    if expected.mediaType != actual.mediaType { assert Faithful(expected, actual.(manifest := other), blobs); }
  }
}
