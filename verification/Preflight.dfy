/** Scanning a baseline's manifest for what a bundle needs from it, before anything is applied. */
module Preflight {
  import opened Common
  import opened Diff
  import opened Compose

  /** A parsed manifest; config is empty when it lists none. */
  datatype Manifest = Manifest(layers: seq<Digest>, config: Digest)

  datatype Verdict = Ok | MissingPatch | MissingReuse | ScanError | SchemaError

  datatype Report = Report(name: string, verdict: Verdict, missingPatch: seq<Digest>, missingReuse: seq<Digest>)

  // ---- What an image needs ----

  function ReuseSet(blobs: map<Digest, BlobEntry>, layers: seq<Digest>): set<Digest> {
    set d | d in layers && d !in blobs
  }

  predicate Patched(blobs: map<Digest, BlobEntry>, d: Digest) {
    d in blobs && blobs[d].encoding == Patch && blobs[d].patchFrom != ""
  }

  function PatchSet(blobs: map<Digest, BlobEntry>, layers: seq<Digest>): set<Digest> {
    set d | d in layers && Patched(blobs, d) :: blobs[d].patchFrom
  }

  /** What the baseline's manifest says it holds; the config blob counts. */
  function Available(base: Manifest): set<Digest> {
    Elements(base.layers) + if base.config != "" then {base.config} else {}
  }

  method ComputeRequired(blobs: map<Digest, BlobEntry>, layers: seq<Digest>) returns (reuse: set<Digest>, patches: set<Digest>)
    ensures reuse == ReuseSet(blobs, layers) && patches == PatchSet(blobs, layers)
  {
    reuse, patches := {}, {};
    for i := 0 to |layers|
      invariant reuse == ReuseSet(blobs, layers[..i]) && patches == PatchSet(blobs, layers[..i])
    {
      RequiredNext(blobs, layers, i);
      var d := layers[i];
      if d !in blobs {
        reuse := reuse + {d};
      } else if blobs[d].encoding == Patch && blobs[d].patchFrom != "" {
        patches := patches + {blobs[d].patchFrom};
      }
    }
    assert layers[..|layers|] == layers;
  }

  lemma RequiredNext(blobs: map<Digest, BlobEntry>, layers: seq<Digest>, i: nat)
    requires i < |layers|
    ensures var d := layers[i];
      && ReuseSet(blobs, layers[..i + 1]) == ReuseSet(blobs, layers[..i]) + (if d !in blobs then {d} else {})
      && PatchSet(blobs, layers[..i + 1]) == PatchSet(blobs, layers[..i]) + (if Patched(blobs, d) then {blobs[d].patchFrom} else {})
  {
    assert layers[..i + 1] == layers[..i] + [layers[i]];
  }

  /** The elements of want that have lacks, in order. */
  function Absent(want: seq<Digest>, have: set<Digest>): seq<Digest> {
    if |want| == 0 then []
    else
      var rest := Absent(want[..|want| - 1], have);
      if want[|want| - 1] in have then rest else rest + [want[|want| - 1]]
  }

  lemma {:induction false} AbsentExact(want: seq<Digest>, have: set<Digest>)
    ensures Elements(Absent(want, have)) == Elements(want) - have
    ensures NoRepeats(want) ==> NoRepeats(Absent(want, have))
    decreases |want|
  {
    if |want| > 0 {
      var front, last := want[..|want| - 1], want[|want| - 1];
      AbsentExact(front, have);
      assert want == front + [last];
      ElementsAppend(front, last);
      ElementsAppend(Absent(front, have), last);
    }
  }

  method DigestsNotIn(want: seq<Digest>, have: set<Digest>) returns (out: seq<Digest>)
    ensures out == Absent(want, have)
  {
    out := [];
    for i := 0 to |want|
      invariant out == Absent(want[..i], have)
    {
      assert want[..i + 1][..i] == want[..i];
      if want[i] !in have { out := out + [want[i]]; }
    }
    assert want[..|want|] == want;
  }

  /** The report's lists are exactly the needed digests the baseline lacks, without repeats, and
      the verdict names the patch sources first. */
  predicate Scanned(r: Report, blobs: map<Digest, BlobEntry>, layers: seq<Digest>, base: Manifest) {
    var patches, reuse := PatchSet(blobs, layers) - Available(base), ReuseSet(blobs, layers) - Available(base);
    && Elements(r.missingPatch) == patches && Elements(r.missingReuse) == reuse
    && NoRepeats(r.missingPatch) && NoRepeats(r.missingReuse)
    && r.verdict == if patches != {} then MissingPatch else if reuse != {} then MissingReuse else Ok
  }

  /** An image to scan: its target's layers and its baseline's manifest, each absent when unparseable. */
  datatype Image = Image(name: string, target: Option<seq<Digest>>)

  predicate ScanOk(r: Report, blobs: map<Digest, BlobEntry>, img: Image, base: Option<Manifest>) {
    && r.name == img.name
    && match img.target {
         case None => r == Report(img.name, SchemaError, [], [])
         case Some(layers) =>
           match base
           case None => r == Report(img.name, ScanError, [], [])
           case Some(b) => Scanned(r, blobs, layers, b)
       }
  }

  method ScanOneImage(blobs: map<Digest, BlobEntry>, img: Image, base: Option<Manifest>) returns (r: Report)
    ensures ScanOk(r, blobs, img, base)
  {
    if img.target.None? { return Report(img.name, SchemaError, [], []); }
    var reuse, patches := ComputeRequired(blobs, img.target.value);
    var reuseList := SetSlice(reuse);
    var patchList := SetSlice(patches);
    if base.None? { return Report(img.name, ScanError, [], []); }
    var have := {};
    for i := 0 to |base.value.layers|
      invariant have == Elements(base.value.layers[..i])
    {
      assert base.value.layers[..i + 1] == base.value.layers[..i] + [base.value.layers[i]];
      have := have + {base.value.layers[i]};
    }
    assert base.value.layers[..|base.value.layers|] == base.value.layers;
    if base.value.config != "" { have := have + {base.value.config}; }
    var missingPatch := DigestsNotIn(patchList, have);
    var missingReuse := DigestsNotIn(reuseList, have);
    AbsentExact(patchList, have);
    AbsentExact(reuseList, have);
    if |missingPatch| == 0 && |missingReuse| == 0 {
      return Report(img.name, Ok, [], []);
    }
    var verdict := MissingReuse;
    if |missingPatch| > 0 {
      assert missingPatch[0] in Elements(missingPatch);
      verdict := MissingPatch;
    } else {
      assert missingReuse[0] in Elements(missingReuse);
    }
    r := Report(img.name, verdict, missingPatch, missingReuse);
  }

  /** Later entries of the resolved list win, as in a map filled in order. */
  function Resolved(resolved: seq<(string, Option<Manifest>)>, name: string): Option<Option<Manifest>> {
    if |resolved| == 0 then None
    else if resolved[|resolved| - 1].0 == name then Some(resolved[|resolved| - 1].1)
    else Resolved(resolved[..|resolved| - 1], name)
  }

  predicate NamesDiffer(resolved: seq<(string, Option<Manifest>)>) {
    forall i, j :: 0 <= i < j < |resolved| ==> resolved[i].0 != resolved[j].0
  }

  predicate Names(resolved: seq<(string, Option<Manifest>)>, name: string) {
    exists j :: 0 <= j < |resolved| && resolved[j].0 == name
  }

  /** Each image finds its own baseline. */
  lemma {:induction false} ResolvedFinds(resolved: seq<(string, Option<Manifest>)>, j: nat)
    requires j < |resolved| && NamesDiffer(resolved)
    ensures Resolved(resolved, resolved[j].0) == Some(resolved[j].1)
    decreases |resolved|
  {
    if j < |resolved| - 1 { ResolvedFinds(resolved[..|resolved| - 1], j); }
  }

  lemma {:induction false} ResolvedIffNamed(resolved: seq<(string, Option<Manifest>)>, name: string)
    ensures Resolved(resolved, name).Some? <==> Names(resolved, name)
    decreases |resolved|
  {
    if |resolved| > 0 {
      var front := resolved[..|resolved| - 1];
      ResolvedIffNamed(front, name);
      if j :| 0 <= j < |front| && front[j].0 == name { assert resolved[j].0 == name; }
      if j :| 0 <= j < |resolved| && resolved[j].0 == name && j < |front| { assert front[j].0 == name; }
    }
  }

  predicate Row(r: Report, blobs: map<Digest, BlobEntry>, img: Image, resolved: seq<(string, Option<Manifest>)>) {
    match Resolved(resolved, img.name)
    case None => r == Report(img.name, ScanError, [], [])
    case Some(base) => ScanOk(r, blobs, img, base)
  }

  predicate Unparseable(img: Image, resolved: seq<(string, Option<Manifest>)>) {
    img.target.None? && Resolved(resolved, img.name).Some?
  }

  /** One report per image in sidecar order; an unparseable target manifest is fatal and ends the scan. */
  method RunPreflight(blobs: map<Digest, BlobEntry>, images: seq<Image>, resolved: seq<(string, Option<Manifest>)>)
    returns (reports: seq<Report>, anyFail: bool, fatal: bool)
    ensures |reports| <= |images|
    ensures forall i :: 0 <= i < |reports| ==> Row(reports[i], blobs, images[i], resolved)
    ensures NamesDiffer(resolved) ==> forall i, j :: 0 <= i < |reports| && 0 <= j < |resolved| && images[i].name == resolved[j].0 ==>
      ScanOk(reports[i], blobs, images[i], resolved[j].1)
    ensures forall i :: 0 <= i < |reports| && !Names(resolved, images[i].name) ==> reports[i] == Report(images[i].name, ScanError, [], [])
    ensures fatal <==> exists i :: 0 <= i < |images| && Unparseable(images[i], resolved)
    ensures fatal <==> exists i :: 0 <= i < |images| && images[i].target.None? && Names(resolved, images[i].name)
    ensures !fatal ==> |reports| == |images|
    ensures fatal ==> |reports| < |images| && Unparseable(images[|reports|], resolved)
    ensures forall i :: 0 <= i < |reports| ==> reports[i].verdict != SchemaError
    ensures anyFail <==> fatal || exists i :: 0 <= i < |reports| && reports[i].verdict != Ok
  {
    var byName: map<string, Option<Manifest>> := map[];
    for i := 0 to |resolved|
      invariant forall n :: (n in byName <==> Resolved(resolved[..i], n).Some?) && (n in byName ==> Resolved(resolved[..i], n) == Some(byName[n]))
    {
      assert resolved[..i + 1][..i] == resolved[..i];
      byName := byName[resolved[i].0 := resolved[i].1];
    }
    assert resolved[..|resolved|] == resolved;
    reports, anyFail, fatal := [], false, false;
    for i := 0 to |images|
      invariant |reports| == i && forall j :: 0 <= j < i ==> Row(reports[j], blobs, images[j], resolved)
      invariant forall j :: 0 <= j < i ==> !Unparseable(images[j], resolved) && reports[j].verdict != SchemaError
      invariant anyFail <==> exists j :: 0 <= j < i && reports[j].verdict != Ok
    {
      if images[i].name !in byName {
        reports := reports + [Report(images[i].name, ScanError, [], [])];
        assert reports[i].verdict != Ok;
        anyFail := true;
      } else {
        var r := ScanOneImage(blobs, images[i], byName[images[i].name]);
        if r.verdict == SchemaError {
          assert Unparseable(images[i], resolved);
          RowsMean(reports, blobs, images, resolved);
          return reports, true, true;
        }
        if r.verdict != Ok { anyFail := true; }
        ghost var before := reports;
        reports := reports + [r];
        assert forall j :: 0 <= j < i ==> reports[j] == before[j];
        assert reports[i] == r;
      }
    }
    RowsMean(reports, blobs, images, resolved);
  }

  /** What the rows say without the look-up: each named image is scanned against its own baseline, any other is a
      scan error, and only a named image can be unparseable. */
  lemma RowsMean(reports: seq<Report>, blobs: map<Digest, BlobEntry>, images: seq<Image>, resolved: seq<(string, Option<Manifest>)>)
    requires |reports| <= |images| && forall i :: 0 <= i < |reports| ==> Row(reports[i], blobs, images[i], resolved)
    ensures NamesDiffer(resolved) ==> forall i, j :: 0 <= i < |reports| && 0 <= j < |resolved| && images[i].name == resolved[j].0 ==>
      ScanOk(reports[i], blobs, images[i], resolved[j].1)
    ensures forall i :: 0 <= i < |reports| && !Names(resolved, images[i].name) ==> reports[i] == Report(images[i].name, ScanError, [], [])
    ensures forall i :: 0 <= i < |images| ==>
      (Unparseable(images[i], resolved) <==> images[i].target.None? && Names(resolved, images[i].name))
  {
    forall i, j | NamesDiffer(resolved) && 0 <= i < |reports| && 0 <= j < |resolved| && images[i].name == resolved[j].0
      ensures ScanOk(reports[i], blobs, images[i], resolved[j].1)
    {
      ResolvedFinds(resolved, j);
      assert Row(reports[i], blobs, images[i], resolved);
    }
    forall i | 0 <= i < |images| ensures Resolved(resolved, images[i].name).Some? <==> Names(resolved, images[i].name) {
      ResolvedIffNamed(resolved, images[i].name);
    }
    forall i | 0 <= i < |reports| && !Names(resolved, images[i].name) ensures reports[i] == Report(images[i].name, ScanError, [], []) {
      assert Row(reports[i], blobs, images[i], resolved);
    }
  }

  // ---- Exactness, whatever the shared spool holds already ----

  /** The baseline source answers for exactly what its manifest lists. */
  ghost predicate SourceServes(w: World, base: Manifest) {
    forall d :: w.source(d) != NotFound <==> d in Available(base)
  }

  /** Patches name a source, as a validated sidecar's do. */
  predicate SourcesNamed(blobs: map<Digest, BlobEntry>) {
    forall d :: d in blobs && blobs[d].encoding == Patch ==> blobs[d].patchFrom != ""
  }

  predicate MissingError(s: Served) {
    s.Refused? && (s.why.MissingReuseLayer? || s.why.MissingPatchSource?)
  }

  /** Every digest the report lists as missing is in the spool: another image has fetched it. */
  predicate AllSpooled(r: Report, spool: Spool) {
    && (forall i :: 0 <= i < |r.missingReuse| ==> r.missingReuse[i] in spool)
    && (forall i :: 0 <= i < |r.missingPatch| ==> r.missingPatch[i] in spool)
  }

  /** Where d's bytes can come from. */
  ghost predicate AtHand(base: Manifest, spool: Spool, d: Digest) { d in spool || d in Available(base) }

  /** One blob ends in a missing error exactly when what it needs is neither spooled nor in the baseline's manifest. */
  lemma MissingExact(w: World, spool: Spool, base: Manifest, d: Digest)
    requires SourceServes(w, base) && SourcesNamed(w.blobs)
    ensures Serve(w, spool, d) == Refused(MissingReuseLayer(d)) <==> d !in w.blobs && !AtHand(base, spool, d)
    ensures forall p :: Serve(w, spool, d) == Refused(MissingPatchSource(d, p)) <==>
      Patched(w.blobs, d) && w.blobs[d].patchFrom == p && !AtHand(base, spool, p)
    ensures MissingError(Serve(w, spool, d)) <==> Needs(w, d).Some? && !AtHand(base, spool, Needs(w, d).value)
  {
  }

  /** The reported sets, less what is spooled, are exactly the digests whose absence a copy would run into. */
  lemma MissingSetsExact(w: World, spool: Spool, r: Report, layers: seq<Digest>, base: Manifest)
    requires SourceServes(w, base) && SourcesNamed(w.blobs) && Scanned(r, w.blobs, layers, base)
    ensures forall d :: d in r.missingReuse && d !in spool <==> d in layers && Serve(w, spool, d) == Refused(MissingReuseLayer(d))
    ensures forall p :: p in r.missingPatch && p !in spool <==>
      exists d :: d in layers && Serve(w, spool, d) == Refused(MissingPatchSource(d, p))
  {
    forall d ensures d in r.missingReuse && d !in spool <==> d in layers && Serve(w, spool, d) == Refused(MissingReuseLayer(d)) {
      MissingExact(w, spool, base, d);
      assert d in r.missingReuse <==> d in Elements(r.missingReuse);
    }
    forall p
      ensures p in r.missingPatch && p !in spool <==> exists d :: d in layers && Serve(w, spool, d) == Refused(MissingPatchSource(d, p))
    {
      assert p in r.missingPatch <==> p in Elements(r.missingPatch);
      if p in r.missingPatch {
        var d :| d in layers && Patched(w.blobs, d) && w.blobs[d].patchFrom == p;
        MissingExact(w, spool, base, d);
      }
      if d :| d in layers && Serve(w, spool, d) == Refused(MissingPatchSource(d, p)) {
        MissingExact(w, spool, base, d);
        assert p in PatchSet(w.blobs, layers);
      }
    }
  }

  /**
   * No layer of the image can end in a missing error exactly when everything the report lists is in
   * the spool by then; so an Ok verdict holds against every spool, and any other verdict against
   * every spool in which no other image left what is missing.
   */
  lemma PreflightExact(w: World, spool: Spool, r: Report, layers: seq<Digest>, base: Manifest)
    requires SourceServes(w, base) && SourcesNamed(w.blobs) && Scanned(r, w.blobs, layers, base)
    ensures (forall d :: d in layers ==> !MissingError(Serve(w, spool, d))) <==> AllSpooled(r, spool)
    ensures r.verdict == Ok <==> r.missingReuse == [] && r.missingPatch == []
    ensures r.verdict == MissingPatch <==> r.missingPatch != []
    ensures r.verdict == MissingReuse <==> r.missingReuse != [] && r.missingPatch == []
  {
    MissingSetsExact(w, spool, r, layers, base);
    forall d | d in layers && MissingError(Serve(w, spool, d)) ensures !AllSpooled(r, spool) {
      MissingExact(w, spool, base, d);
      if d in w.blobs { assert Serve(w, spool, d) == Refused(MissingPatchSource(d, w.blobs[d].patchFrom)); }
    }
    if !AllSpooled(r, spool) { SomeMissing(w, spool, r, layers); }
    VerdictByLists(r, w.blobs, layers, base);
  }

  lemma SomeMissing(w: World, spool: Spool, r: Report, layers: seq<Digest>)
    requires !AllSpooled(r, spool)
    requires forall d :: d in r.missingReuse && d !in spool ==> d in layers && Serve(w, spool, d) == Refused(MissingReuseLayer(d))
    requires forall p :: p in r.missingPatch && p !in spool ==>
      exists d :: d in layers && Serve(w, spool, d) == Refused(MissingPatchSource(d, p))
    ensures exists d :: d in layers && MissingError(Serve(w, spool, d))
  {
    if i :| 0 <= i < |r.missingReuse| && r.missingReuse[i] !in spool {
      assert MissingError(Serve(w, spool, r.missingReuse[i]));
    } else {
      var i :| 0 <= i < |r.missingPatch| && r.missingPatch[i] !in spool;
      var d :| d in layers && Serve(w, spool, d) == Refused(MissingPatchSource(d, r.missingPatch[i]));
    }
  }

  lemma VerdictByLists(r: Report, blobs: map<Digest, BlobEntry>, layers: seq<Digest>, base: Manifest)
    requires Scanned(r, blobs, layers, base)
    ensures r.verdict == Ok <==> r.missingReuse == [] && r.missingPatch == []
    ensures r.verdict == MissingPatch <==> r.missingPatch != []
    ensures r.verdict == MissingReuse <==> r.missingReuse != [] && r.missingPatch == []
  {
    if |r.missingReuse| > 0 { assert r.missingReuse[0] in Elements(r.missingReuse); }
    if |r.missingPatch| > 0 { assert r.missingPatch[0] in Elements(r.missingPatch); }
    assert Elements<Digest>([]) == {};
  }

  /** Copying puts only digests of this image's own baseline into the spool, and takes none out. */
  lemma {:induction false} CopySpools(w: World, spool: Spool, base: Manifest, ds: seq<Digest>)
    requires SourceServes(w, base)
    ensures forall d :: d in spool ==> d in ServeAll(w, spool, ds).spool
    ensures forall d :: d in ServeAll(w, spool, ds).spool ==> AtHand(base, spool, d)
    decreases |ds|
  {
    if |ds| > 0 { CopySpools(w, spool, base, ds[..|ds| - 1]); }
  }

  /** A whole copy never stops for a missing digest when what the report lists was spooled before; after an
      Ok verdict that is every copy, from every spool. */
  lemma {:induction false} OkNeverMisses(w: World, spool: Spool, r: Report, layers: seq<Digest>, base: Manifest, ds: seq<Digest>)
    requires SourceServes(w, base) && SourcesNamed(w.blobs) && Scanned(r, w.blobs, layers, base)
    requires r.verdict == Ok || AllSpooled(r, spool)
    requires forall d :: d in ds ==> d in layers
    ensures var c := ServeAll(w, spool, ds); c.why.Some? ==> !MissingError(Refused(c.why.value))
    decreases |ds|
  {
    if |ds| > 0 {
      var front := ds[..|ds| - 1];
      OkNeverMisses(w, spool, r, layers, base, front);
      CopySpools(w, spool, base, front);
      PreflightExact(w, ServeAll(w, spool, front).spool, r, layers, base);
      PreflightExact(w, spool, r, layers, base);
    }
  }

  /** Otherwise a whole copy of the layers always stops, since copying fetches nothing the baseline lacks. */
  lemma {:induction false} RejectedAlwaysStops(w: World, spool: Spool, r: Report, layers: seq<Digest>, base: Manifest)
    requires SourceServes(w, base) && SourcesNamed(w.blobs) && Scanned(r, w.blobs, layers, base) && !AllSpooled(r, spool)
    ensures ServeAll(w, spool, layers).why.Some?
  {
    PreflightExact(w, spool, r, layers, base);
    var d :| d in layers && MissingError(Serve(w, spool, d));
    var i :| 0 <= i < |layers| && layers[i] == d;
    CopySpools(w, spool, base, layers[..i]);
    MissingExact(w, spool, base, d);
    MissingExact(w, ServeAll(w, spool, layers[..i]).spool, base, d);
    assert layers[..i + 1][..i] == layers[..i];
    RefusalStops(w, spool, layers, i + 1);
  }

  /** Everything spooled so far came from this image's own baseline. */
  ghost predicate Isolated(w: World, spool: Spool) {
    forall d :: d in spool ==> w.source(d) == Got(spool[d])
  }

  /** Against a spool of this image's own the verdict alone decides; the bytes of one more digest
      spooled by another image hide a missing layer. */
  lemma SharedSpoolHides(w: World, spool: Spool, r: Report, layers: seq<Digest>, base: Manifest, d: Digest, data: Bytes)
    requires SourceServes(w, base) && SourcesNamed(w.blobs) && Scanned(r, w.blobs, layers, base)
    requires Isolated(w, spool) && SpoolOk(w.h, spool)
    ensures AllSpooled(r, spool) <==> r.verdict == Ok
    ensures r.missingReuse == [d] && r.missingPatch == [] && Matches(w.h, d, data) ==>
      && r.verdict == MissingReuse && SpoolOk(w.h, spool[d := data])
      && AllSpooled(r, spool[d := data]) && !AllSpooled(r, spool)
  {
    VerdictByLists(r, w.blobs, layers, base);
    forall m | m in r.missingReuse || m in r.missingPatch ensures m !in spool {
      assert m in Elements(r.missingReuse) || m in Elements(r.missingPatch);
    }
    if !(r.verdict == Ok) { NotAllSpooled(r, spool); }
  }

  lemma NotAllSpooled(r: Report, spool: Spool)
    requires r.missingReuse != [] || r.missingPatch != []
    requires forall m | m in r.missingReuse || m in r.missingPatch :: m !in spool
    ensures !AllSpooled(r, spool)
  {
    if |r.missingReuse| > 0 { assert r.missingReuse[0] in r.missingReuse; }
    if |r.missingPatch| > 0 { assert r.missingPatch[0] in r.missingPatch; }
  }
}
