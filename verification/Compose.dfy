/** Serving one image's blobs from a bundle and a baseline, with every byte checked against its digest. */
module Compose {
  import opened Common
  import opened Diff

  // ---- The verifying reader ----

  datatype Kind = ShippedBlob | AssembledBlob

  /** What one read reports beside its bytes. */
  datatype Status = More | Eof | Mismatch(kind: Kind) | IoError

  class VerifyingReader {
    const h: HashFn
    const data: Bytes          // the open file
    const expected: Digest
    const kind: Kind
    var pos: nat
    var hashed: Bytes          // what the hasher has consumed
    ghost var delivered: Bytes // what the caller has received

    ghost predicate Valid()
      reads this
    {
      pos <= |data| && hashed == data[..pos] && delivered == hashed
    }

    constructor (h: HashFn, data: Bytes, expected: Digest, kind: Kind)
      ensures Valid() && delivered == []
      ensures this.h == h && this.data == data && this.expected == expected && this.kind == kind
    {
      this.h, this.data, this.expected, this.kind := h, data, expected, kind;
      pos, hashed, delivered := 0, [], [];
    }

    /** One read of at most want bytes; n is how many the file returns, broken an I/O error. */
    method Read(want: nat, n: nat, broken: bool) returns (chunk: Bytes, status: Status)
      requires Valid() && n <= want && (n == 0 ==> want == 0 || pos == |data|)
      modifies this`pos, this`hashed, this`delivered
      ensures Valid() && delivered == old(delivered) + chunk
      ensures status.More? && want > 0 ==> |chunk| > 0
      ensures status.Eof? ==> delivered == data && Matches(h, expected, delivered)
      ensures status.Mismatch? ==> status.kind == kind && delivered == data && !Matches(h, expected, delivered)
      ensures status.IoError? <==> broken
    {
      chunk := [];
      if broken { return chunk, IoError; }
      if want > 0 && pos == |data| {
        assert data[..pos] == data;
        status := if Matches(h, expected, hashed) then Eof else Mismatch(kind);
        return;
      }
      var end := if pos + n < |data| then pos + n else |data|;
      chunk := data[pos..end];
      assert data[..pos] + data[pos..end] == data[..end];
      pos, hashed, delivered := end, hashed + chunk, delivered + chunk;
      status := More;
    }
  }

  /** Reading to the end with any positive chunk sizes: all of the file, and clean only if it matches. */
  method ReadAll(r: VerifyingReader, size: nat -> nat) returns (out: Bytes, status: Status)
    requires r.Valid() && r.delivered == [] && forall k :: size(k) > 0
    modifies r
    ensures out == r.data
    ensures status == if Matches(r.h, r.expected, r.data) then Eof else Mismatch(r.kind)
  {
    out, status := [], More;
    var k := 0;
    while status.More?
      invariant r.Valid() && out == r.delivered && (status.More? || status.Eof? || status.Mismatch?)
      invariant status.Eof? ==> out == r.data && Matches(r.h, r.expected, out)
      invariant status.Mismatch? ==> status.kind == r.kind && out == r.data && !Matches(r.h, r.expected, out)
      decreases |r.data| - r.pos, status.More?
    {
      var chunk;
      var n := if r.pos == |r.data| then 0 else size(k);
      ghost var before := r.delivered;
      chunk, status := r.Read(size(k), n, false);
      out := out + chunk;
      assert |r.delivered| == |before| + |chunk|;
      k := k + 1;
    }
  }

  // ---- Serving a blob ----

  /** What the baseline source answers for a digest. */
  datatype Fetch = NotFound | Broken | Got(data: Bytes)

  /** One image's view: the bundle's table and extracted files, the baseline and the decoder. */
  datatype World = World(
    h: HashFn,
    decode: (Bytes, Bytes) -> Option<Bytes>,
    blobs: map<Digest, BlobEntry>,
    files: map<Digest, Bytes>,
    source: Digest -> Fetch)

  datatype Failure =
    | MissingReuseLayer(d: Digest)
    | MissingPatchSource(target: Digest, from: Digest)
    | BaselineMismatch(d: Digest)
    | BaselineBroken(d: Digest)
    | NoBundleFile(d: Digest)
    | DecodeFailed(d: Digest)
    | UnknownEncodingOf(d: Digest)
    | ShippedMismatch(d: Digest)
    | AssemblyMismatch(d: Digest)

  datatype Served = Served(data: Bytes) | Refused(why: Failure)

  /** Committed contents by digest, the abstract value of the import spool. */
  type Spool = map<Digest, Bytes>

  /** Every spooled file hashes to its digest: what ImportSpool proves of every run. */
  ghost predicate SpoolOk(h: HashFn, spool: Spool) {
    forall d :: d in spool ==> Matches(h, d, spool[d])
  }

  /** What spooling d yields: its bytes, or why not. */
  function FromSpool(w: World, spool: Spool, d: Digest): Fetch {
    if d in spool then Got(spool[d]) else w.source(d)
  }

  function SpoolAfter(w: World, spool: Spool, d: Digest): Spool {
    match FromSpool(w, spool, d)
    case Got(data) => if d !in spool && Matches(w.h, d, data) then spool[d := data] else spool
    case _ => spool
  }

  function Reuse(w: World, spool: Spool, d: Digest): Served {
    match FromSpool(w, spool, d)
    case NotFound => Refused(MissingReuseLayer(d))
    case Broken => Refused(BaselineBroken(d))
    case Got(data) => if d in spool || Matches(w.h, d, data) then Served(data) else Refused(BaselineMismatch(d))
  }

  function FromBundle(w: World, d: Digest): Served {
    if d !in w.files then Refused(NoBundleFile(d))
    else if Matches(w.h, d, w.files[d]) then Served(w.files[d])
    else Refused(ShippedMismatch(d))
  }

  function FromPatch(w: World, spool: Spool, d: Digest, from: Digest): Served {
    match FromSpool(w, spool, from)
    case NotFound => Refused(MissingPatchSource(d, from))
    case Broken => Refused(BaselineBroken(from))
    case Got(ref) =>
      if from !in spool && !Matches(w.h, from, ref) then Refused(BaselineMismatch(from))
      else if d !in w.files then Refused(DecodeFailed(d))
      else
        match w.decode(ref, w.files[d])
        case None => Refused(DecodeFailed(d))
        case Some(out) => if Matches(w.h, d, out) then Served(out) else Refused(AssemblyMismatch(d))
  }

  /** A blob fetched and read to its end. */
  function Serve(w: World, spool: Spool, d: Digest): Served {
    if d !in w.blobs then Reuse(w, spool, d)
    else
      match w.blobs[d].encoding
      case Full => FromBundle(w, d)
      case Patch => FromPatch(w, spool, d, w.blobs[d].patchFrom)
      case _ => Refused(UnknownEncodingOf(d))
  }

  /** The digest GetBlob asks the baseline for, if any. */
  function Needs(w: World, d: Digest): Option<Digest> {
    if d !in w.blobs then Some(d) else if w.blobs[d].encoding == Patch then Some(w.blobs[d].patchFrom) else None
  }

  function SpoolNext(w: World, spool: Spool, d: Digest): Spool {
    match Needs(w, d)
    case None => spool
    case Some(x) => SpoolAfter(w, spool, x)
  }

  /** Where a needed blob's bytes come from: the spool, else the source, if that answers with matching bytes. */
  predicate Obtained(w: World, spool: Spool, x: Digest, data: Bytes) {
    if x in spool then data == spool[x] else w.source(x) == Got(data) && Matches(w.h, x, data)
  }

  /** Every way a bundle file can be served or refused, by its cause. */
  lemma FullOutcomes(w: World, spool: Spool, d: Digest)
    requires d in w.blobs && w.blobs[d].encoding != Patch
    ensures forall data :: Serve(w, spool, d) == Served(data) <==>
      w.blobs[d].encoding == Full && d in w.files && data == w.files[d] && Matches(w.h, d, data)
    ensures Serve(w, spool, d) == Refused(UnknownEncodingOf(d)) <==> w.blobs[d].encoding != Full
    ensures Serve(w, spool, d) == Refused(NoBundleFile(d)) <==> w.blobs[d].encoding == Full && d !in w.files
    ensures Serve(w, spool, d) == Refused(ShippedMismatch(d)) <==>
      w.blobs[d].encoding == Full && d in w.files && !Matches(w.h, d, w.files[d])
  {
  }

  /** Every way a blob the bundle lacks can be served or refused. */
  lemma ReuseOutcomes(w: World, spool: Spool, d: Digest)
    requires d !in w.blobs
    ensures forall data :: Serve(w, spool, d) == Served(data) <==> Obtained(w, spool, d, data)
    ensures Serve(w, spool, d) == Refused(MissingReuseLayer(d)) <==> d !in spool && w.source(d) == NotFound
    ensures Serve(w, spool, d) == Refused(BaselineBroken(d)) <==> d !in spool && w.source(d) == Broken
    ensures Serve(w, spool, d) == Refused(BaselineMismatch(d)) <==>
      d !in spool && exists data :: w.source(d) == Got(data) && !Matches(w.h, d, data)
  {
  }

  /** Every way a patched blob can be served or refused. */
  lemma PatchOutcomes(w: World, spool: Spool, d: Digest)
    requires d in w.blobs && w.blobs[d].encoding == Patch
    ensures var from := w.blobs[d].patchFrom;
      && (forall out :: Serve(w, spool, d) == Served(out) <==>
            Matches(w.h, d, out) && exists base :: Obtained(w, spool, from, base) && d in w.files && w.decode(base, w.files[d]) == Some(out))
      && (Serve(w, spool, d) == Refused(MissingPatchSource(d, from)) <==> from !in spool && w.source(from) == NotFound)
      && (Serve(w, spool, d) == Refused(BaselineBroken(from)) <==> from !in spool && w.source(from) == Broken)
      && (Serve(w, spool, d) == Refused(BaselineMismatch(from)) <==>
            from !in spool && exists data :: w.source(from) == Got(data) && !Matches(w.h, from, data))
      && (Serve(w, spool, d) == Refused(DecodeFailed(d)) <==>
            exists base :: Obtained(w, spool, from, base) && (d !in w.files || w.decode(base, w.files[d]) == None))
      && (Serve(w, spool, d) == Refused(AssemblyMismatch(d)) <==>
            exists base, out :: Obtained(w, spool, from, base) && d in w.files && w.decode(base, w.files[d]) == Some(out) && !Matches(w.h, d, out))
  {
    var from := w.blobs[d].patchFrom;
    var f := FromSpool(w, spool, from);
    if f.Got? && (from in spool || Matches(w.h, from, f.data)) {
      assert Obtained(w, spool, from, f.data);
      assert forall base :: Obtained(w, spool, from, base) ==> base == f.data;
    }
  }

  /** Integrity: whatever the bundle, the decoder and the baseline hold, served bytes hash to the digest. */
  lemma ServedMatches(w: World, spool: Spool, d: Digest)
    requires SpoolOk(w.h, spool)
    ensures Serve(w, spool, d).Served? ==> Matches(w.h, d, Serve(w, spool, d).data)
    ensures SpoolOk(w.h, SpoolNext(w, spool, d))
  {
  }

  /** Copying one image: its blobs one after another, stopping at the first refusal. */
  datatype Copied = Copied(blobs: seq<Bytes>, why: Option<Failure>, spool: Spool)

  function ServeAll(w: World, spool: Spool, ds: seq<Digest>): Copied {
    if |ds| == 0 then Copied([], None, spool)
    else
      var p := ServeAll(w, spool, ds[..|ds| - 1]);
      var d := ds[|ds| - 1];
      if p.why.Some? then p
      else
        match Serve(w, p.spool, d)
        case Served(data) => Copied(p.blobs + [data], None, SpoolNext(w, p.spool, d))
        case Refused(why) => Copied(p.blobs, Some(why), SpoolNext(w, p.spool, d))
  }

  /** A refusal ends the copy for good. */
  lemma {:induction false} RefusalStops(w: World, spool: Spool, ds: seq<Digest>, i: nat)
    requires i <= |ds| && ServeAll(w, spool, ds[..i]).why.Some?
    ensures ServeAll(w, spool, ds) == ServeAll(w, spool, ds[..i])
    decreases |ds|
  {
    if i < |ds| {
      assert ds[..|ds| - 1][..i] == ds[..i];
      RefusalStops(w, spool, ds[..|ds| - 1], i);
    } else {
      assert ds[..i] == ds;
    }
  }

  /** Each copied blob hashes to its digest. */
  predicate AllMatch(h: HashFn, ds: seq<Digest>, blobs: seq<Bytes>) {
    |blobs| <= |ds| && forall i :: 0 <= i < |blobs| ==> Matches(h, ds[i], blobs[i])
  }

  lemma AllMatchNext(h: HashFn, ds: seq<Digest>, blobs: seq<Bytes>, data: Bytes)
    requires |ds| > 0 && AllMatch(h, ds[..|ds| - 1], blobs)
    ensures AllMatch(h, ds, blobs)
    ensures |blobs| == |ds| - 1 && Matches(h, ds[|ds| - 1], data) ==> AllMatch(h, ds, blobs + [data])
  {
    assert forall i :: 0 <= i < |blobs| ==> ds[i] == ds[..|ds| - 1][i];
  }

  /** A finished copy has every blob, and each hashes to its digest. */
  lemma {:induction false} CopiedMatches(w: World, spool: Spool, ds: seq<Digest>)
    requires SpoolOk(w.h, spool)
    ensures var c := ServeAll(w, spool, ds);
      SpoolOk(w.h, c.spool) && AllMatch(w.h, ds, c.blobs) && (c.why.None? <==> |c.blobs| == |ds|)
    decreases |ds|
  {
    if |ds| > 0 {
      var front, d := ds[..|ds| - 1], ds[|ds| - 1];
      CopiedMatches(w, spool, front);
      var p := ServeAll(w, spool, front);
      ServedMatches(w, p.spool, d);
      var r := Serve(w, p.spool, d);
      AllMatchNext(w.h, ds, p.blobs, if r.Served? then r.data else []);
    }
  }

  // ---- The image source object ----

  datatype Opened = Reader(r: VerifyingReader, scratch: Option<nat>) | Slurped(data: Bytes) | Failed(why: Failure)

  class ImageSource {
    const w: World
    var spool: Spool
    var scratch: map<nat, Bytes>     // decoded outputs not yet closed

    constructor (w: World, spool: Spool)
      ensures this.w == w && this.spool == spool && scratch == map[]
    {
      this.w, this.spool, scratch := w, spool, map[];
    }

    /** The spool's answer for d; only verified bytes are kept. */
    method GetOrSpool(d: Digest) returns (f: Fetch, verified: bool)
      modifies this`spool
      ensures spool == SpoolAfter(w, old(spool), d)
      ensures f == FromSpool(w, old(spool), d)
      ensures f.Got? ==> (verified <==> d in old(spool) || Matches(w.h, d, f.data))
    {
      if d in spool { return Got(spool[d]), true; }
      f := w.source(d);
      verified := false;
      if f.Got? && Matches(w.h, d, f.data) {
        spool := spool[d := f.data];
        verified := true;
      }
    }

    method FetchVerifiedBaselineBlob(d: Digest) returns (o: Opened)
      modifies this`spool
      ensures spool == SpoolAfter(w, old(spool), d)
      ensures o.Slurped? ==> Reuse(w, old(spool), d) == Served(o.data)
      ensures o.Failed? ==> Reuse(w, old(spool), d) == Refused(o.why)
      ensures !o.Reader?
    {
      var f, verified := GetOrSpool(d);
      match f {
        case NotFound => o := Failed(MissingReuseLayer(d));
        case Broken => o := Failed(BaselineBroken(d));
        case Got(data) => o := if verified then Slurped(data) else Failed(BaselineMismatch(d));
      }
    }

    method ServeFull(d: Digest) returns (o: Opened)
      ensures d !in w.files ==> o == Failed(NoBundleFile(d))
      ensures d in w.files ==> o.Reader? && fresh(o.r) && o.scratch.None? && Opens(o.r, w.files[d], d, ShippedBlob)
    {
      if d !in w.files { return Failed(NoBundleFile(d)); }
      var r := new VerifyingReader(w.h, w.files[d], d, ShippedBlob);
      o := Reader(r, None);
    }

    ghost predicate Opens(r: VerifyingReader, data: Bytes, d: Digest, kind: Kind)
      reads r
    {
      r.Valid() && r.delivered == [] && r.h == w.h && r.data == data && r.expected == d && r.kind == kind
    }

    /** serial names a scratch file nobody else has; it survives only inside the returned reader. */
    method ServePatch(d: Digest, from: Digest, serial: nat) returns (o: Opened)
      requires serial !in scratch
      modifies this
      ensures spool == SpoolAfter(w, old(spool), from)
      ensures o.Failed? ==> scratch == old(scratch) && FromPatch(w, old(spool), d, from) == Refused(o.why)
      ensures o.Reader? ==>
        && fresh(o.r) && o.scratch == Some(serial) && scratch == old(scratch)[serial := o.r.data]
        && Opens(o.r, o.r.data, d, AssembledBlob)
        && FromPatch(w, old(spool), d, from) ==
             if Matches(w.h, d, o.r.data) then Served(o.r.data) else Refused(AssemblyMismatch(d))
      ensures !o.Slurped?
    {
      var f, verified := GetOrSpool(from);
      match f {
        case NotFound => return Failed(MissingPatchSource(d, from));
        case Broken => return Failed(BaselineBroken(from));
        case Got(ref) =>
          if !verified { return Failed(BaselineMismatch(from)); }
          scratch := scratch[serial := []];
          var out := if d in w.files then w.decode(ref, w.files[d]) else None;
          match out {
            case None =>
              scratch := scratch - {serial};
              return Failed(DecodeFailed(d));
            case Some(bytes) =>
              scratch := scratch[serial := bytes];
              var r := new VerifyingReader(w.h, bytes, d, AssembledBlob);
              o := Reader(r, Some(serial));
          }
      }
    }

    method GetBlob(d: Digest, serial: nat) returns (o: Opened)
      requires serial !in scratch
      modifies this
      ensures spool == SpoolNext(w, old(spool), d)
      ensures o.Failed? ==> scratch == old(scratch) && Serve(w, old(spool), d) == Refused(o.why)
      ensures o.Slurped? ==> scratch == old(scratch) && Serve(w, old(spool), d) == Served(o.data)
      ensures o.Reader? ==>
        && fresh(o.r) && Opens(o.r, o.r.data, d, o.r.kind)
        && scratch == (if o.scratch.Some? then old(scratch)[serial := o.r.data] else old(scratch))
        && (o.scratch.Some? ==> o.scratch == Some(serial))
        && Serve(w, old(spool), d) ==
             if Matches(w.h, d, o.r.data) then Served(o.r.data)
             else Refused(if o.r.kind.ShippedBlob? then ShippedMismatch(d) else AssemblyMismatch(d))
    {
      if d !in w.blobs {
        o := FetchVerifiedBaselineBlob(d);
        return;
      }
      match w.blobs[d].encoding {
        case Full => o := ServeFull(d);
        case Patch => o := ServePatch(d, w.blobs[d].patchFrom, serial);
        case _ => o := Failed(UnknownEncodingOf(d));
      }
    }

    /** The caller's whole use of one blob: open, read to the end in any chunking, close. */
    method CopyBlob(d: Digest, serial: nat, size: nat -> nat) returns (result: Served)
      requires serial !in scratch && forall k :: size(k) > 0
      modifies this
      ensures result == Serve(w, old(spool), d) && spool == SpoolNext(w, old(spool), d)
      ensures scratch == old(scratch)
    {
      var o := GetBlob(d, serial);
      match o {
        case Failed(why) => result := Refused(why);
        case Slurped(data) => result := Served(data);
        case Reader(r, tmp) =>
          var out, status := ReadAll(r, size);
          result := if status.Eof? then Served(out) else Refused(if r.kind.ShippedBlob? then ShippedMismatch(d) else AssemblyMismatch(d));
          if tmp.Some? { scratch := scratch - {tmp.value}; }
      }
    }

    /** One image's layers and config, one at a time. */
    method CopyImage(ds: seq<Digest>, serial: nat, size: nat -> nat) returns (blobs: seq<Bytes>, why: Option<Failure>)
      requires serial !in scratch && forall k :: size(k) > 0
      modifies this
      ensures ServeAll(w, old(spool), ds) == Copied(blobs, why, spool)
      ensures scratch == old(scratch)
    {
      blobs, why := [], None;
      for i := 0 to |ds|
        invariant ServeAll(w, old(spool), ds[..i]) == Copied(blobs, None, spool)
        invariant scratch == old(scratch)
      {
        assert ds[..i + 1][..i] == ds[..i];
        var result := CopyBlob(ds[i], serial, size);
        match result {
          case Served(data) => blobs := blobs + [data];
          case Refused(f) =>
            why := Some(f);
            RefusalStops(w, old(spool), ds, i + 1);
            return;
        }
      }
      assert ds[..|ds|] == ds;
    }
  }
}
