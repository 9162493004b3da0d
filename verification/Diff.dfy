/** Blob descriptors, the plan partition and the sidecar schema. */
module Diff {
  import opened Common

  /** Unrecognized covers every other value the field can carry. */
  datatype Encoding = Unset | Full | Patch | Unrecognized(text: string)

  datatype BlobRef = BlobRef(digest: Digest, size: int, mediaType: string)

  datatype BlobEntry = BlobEntry(
    size: int, mediaType: string, encoding: Encoding, codec: string, patchFrom: Digest, archiveSize: int)

  // ---- ComputePlan ----

  datatype Plan = Plan(shipped: seq<BlobRef>, required: seq<BlobRef>)

  /** The elements of target whose digest is (or is not) among the known ones, in order. */
  function Select(target: seq<BlobRef>, known: set<Digest>, present: bool): seq<BlobRef> {
    if |target| == 0 then []
    else
      var rest := Select(target[..|target| - 1], known, present);
      var last := target[|target| - 1];
      if (last.digest in known) == present then rest + [last] else rest
  }

  method ComputePlan(target: seq<BlobRef>, baseline: seq<Digest>) returns (plan: Plan)
    ensures plan.required == Select(target, Elements(baseline), true)
    ensures plan.shipped == Select(target, Elements(baseline), false)
  {
    var known: set<Digest> := {};
    for i := 0 to |baseline|
      invariant known == Elements(baseline[..i])
    {
      assert baseline[..i + 1] == baseline[..i] + [baseline[i]];
      known := known + {baseline[i]};
    }
    assert baseline[..|baseline|] == baseline;
    var shipped, required := [], [];
    for i := 0 to |target|
      invariant required == Select(target[..i], known, true)
      invariant shipped == Select(target[..i], known, false)
    {
      assert target[..i + 1][..i] == target[..i];
      if target[i].digest in known {
        required := required + [target[i]];
      } else {
        shipped := shipped + [target[i]];
      }
    }
    assert target[..|target|] == target;
    plan := Plan(shipped, required);
  }

  /** sub is what remains of whole after deleting some elements. */
  predicate Subsequence<T(==)>(sub: seq<T>, whole: seq<T>)
    decreases |whole|
  {
    if |sub| == 0 then true
    else if |whole| == 0 then false
    else if sub[|sub| - 1] == whole[|whole| - 1] then
      Subsequence(sub[..|sub| - 1], whole[..|whole| - 1])
    else Subsequence(sub, whole[..|whole| - 1])
  }

  lemma {:induction false} SubsequenceSkip<T>(sub: seq<T>, whole: seq<T>, x: T)
    requires Subsequence(sub, whole)
    ensures Subsequence(sub, whole + [x])
    decreases |whole|, 1
  {
    assert (whole + [x])[..|whole|] == whole;
    if |sub| > 0 && sub[|sub| - 1] == x {
      SubsequenceFront(sub, whole);
    }
  }

  lemma {:induction false} SubsequenceFront<T>(sub: seq<T>, whole: seq<T>)
    requires Subsequence(sub, whole) && |sub| > 0
    ensures Subsequence(sub[..|sub| - 1], whole)
    decreases |whole|, 0
  {
    var front := whole[..|whole| - 1];
    assert whole == front + [whole[|whole| - 1]];
    if sub[|sub| - 1] == whole[|whole| - 1] {
      SubsequenceSkip(sub[..|sub| - 1], front, whole[|whole| - 1]);
    } else {
      SubsequenceFront(sub, front);
      SubsequenceSkip(sub[..|sub| - 1], front, whole[|whole| - 1]);
    }
  }

  lemma {:induction false} SelectKeepsOrder(target: seq<BlobRef>, known: set<Digest>, present: bool)
    ensures Subsequence(Select(target, known, present), target)
    decreases |target|
  {
    if |target| > 0 {
      var front, last := target[..|target| - 1], target[|target| - 1];
      var rest := Select(front, known, present);
      SelectKeepsOrder(front, known, present);
      assert target == front + [last];
      if (last.digest in known) == present {
        assert (rest + [last])[..|rest|] == rest;
      } else {
        SubsequenceSkip(rest, front, last);
      }
    }
  }

  lemma {:induction false} SelectMembers(target: seq<BlobRef>, known: set<Digest>, present: bool)
    ensures forall b :: b in Select(target, known, present) <==> b in target && (b.digest in known) == present
    decreases |target|
  {
    if |target| > 0 {
      SelectMembers(target[..|target| - 1], known, present);
      assert target == target[..|target| - 1] + [target[|target| - 1]];
    }
  }

  lemma {:induction false} SelectSplits(target: seq<BlobRef>, known: set<Digest>)
    ensures multiset(Select(target, known, true)) + multiset(Select(target, known, false)) == multiset(target)
    decreases |target|
  {
    if |target| > 0 {
      var front, last := target[..|target| - 1], target[|target| - 1];
      SelectSplits(front, known);
      var yes, no := Select(front, known, true), Select(front, known, false);
      assert target == front + [last];
      assert multiset(target) == multiset(front) + multiset{last};
      if last.digest in known {
        assert Select(target, known, true) == yes + [last] && Select(target, known, false) == no;
      } else {
        assert Select(target, known, true) == yes && Select(target, known, false) == no + [last];
      }
    }
  }

  /** The plan loses nothing, repeats nothing and keeps the target's order on both sides. */
  lemma PlanPartitions(target: seq<BlobRef>, known: set<Digest>)
    ensures Subsequence(Select(target, known, true), target)
    ensures Subsequence(Select(target, known, false), target)
    ensures multiset(Select(target, known, true)) + multiset(Select(target, known, false)) == multiset(target)
  {
    SelectKeepsOrder(target, known, true);
    SelectKeepsOrder(target, known, false);
    SelectSplits(target, known);
  }

  // ---- Sidecar ----

  datatype ImageEntry = ImageEntry(
    name: string,
    baselineManifest: Digest,
    targetManifest: Digest,
    targetMediaType: string)

  /** hasBlobs distinguishes an absent blob table from an empty one. */
  datatype Sidecar = Sidecar(
    platform: string,
    hasBlobs: bool,
    blobs: map<Digest, BlobEntry>,
    images: seq<ImageEntry>)

  datatype Fault =
    | PlatformRequired
    | BlobsRequired
    | ImagesRequired
    | BadName(index: nat)
    | DuplicateName(index: nat)
    | TargetManifestRequired(index: nat)
    | TargetManifestNotInBlobs(index: nat)
    | BaselineManifestRequired(index: nat)
    | FullSetsPatchFields(digest: Digest)
    | FullSizeMismatch(digest: Digest)
    | PatchNeedsCodec(digest: Digest)
    | PatchNeedsSource(digest: Digest)
    | PatchSizeOutOfRange(digest: Digest)
    | UnknownEncoding(digest: Digest)

  predicate NameStart(c: char) { 'a' <= c <= 'z' || 'A' <= c <= 'Z' || '0' <= c <= '9' }
  predicate NameRest(c: char) { NameStart(c) || c == '_' || c == '.' || c == '-' }

  predicate NameOk(n: string) {
    |n| > 0 && NameStart(n[0]) && forall i :: 1 <= i < |n| ==> NameRest(n[i])
  }

  const LOWER := "abcdefghijklmnopqrstuvwxyz"
  const UPPER := "ABCDEFGHIJKLMNOPQRSTUVWXYZ"
  const DIGITS := "0123456789"

  /** The letters a name may have, spelled out. */
  lemma NameLetters(c: char)
    ensures NameStart(c) <==> c in LOWER || c in UPPER || c in DIGITS
    ensures NameRest(c) <==> NameStart(c) || c in "_.-"
  {
    LowerLetters(c);
    UpperLetters(c);
    DigitLetters(c);
  }

  lemma LowerLetters(c: char)
    ensures 'a' <= c <= 'z' <==> c in LOWER
  {
    if 'a' <= c <= 'z' { assert LOWER[c as int - 'a' as int] == c; }
  }

  lemma UpperLetters(c: char)
    ensures 'A' <= c <= 'Z' <==> c in UPPER
  {
    if 'A' <= c <= 'Z' { assert UPPER[c as int - 'A' as int] == c; }
  }

  lemma DigitLetters(c: char)
    ensures '0' <= c <= '9' <==> c in DIGITS
  {
    if '0' <= c <= '9' { assert DIGITS[c as int - '0' as int] == c; }
  }

  predicate EntryOk(b: BlobEntry) {
    match b.encoding
    case Full => b.codec == "" && b.patchFrom == "" && b.archiveSize == b.size
    case Patch => b.codec != "" && b.patchFrom != "" && 0 < b.archiveSize < b.size
    case _ => false
  }

  predicate ImageOk(s: Sidecar, i: nat)
    requires i < |s.images|
  {
    var img := s.images[i];
    && NameOk(img.name)
    && (forall j :: 0 <= j < i ==> s.images[j].name != img.name)
    && img.targetManifest != "" && img.targetManifest in s.blobs
    && img.baselineManifest != ""
  }

  predicate SidecarOk(s: Sidecar) {
    && s.platform != "" && s.hasBlobs && |s.images| > 0
    && (forall i :: 0 <= i < |s.images| ==> ImageOk(s, i))
    && (forall d :: d in s.blobs ==> EntryOk(s.blobs[d]))
  }

  predicate ImageFault(f: Fault) {
    f.BadName? || f.DuplicateName? || f.TargetManifestRequired? || f.TargetManifestNotInBlobs? || f.BaselineManifestRequired?
  }

  predicate EntryFault(f: Fault) {
    || f.FullSetsPatchFields? || f.FullSizeMismatch? || f.PatchNeedsCodec? || f.PatchNeedsSource?
    || f.PatchSizeOutOfRange? || f.UnknownEncoding?
  }

  method ValidateBlobEntry(d: Digest, b: BlobEntry) returns (r: Option<Fault>)
    ensures r.None? <==> EntryOk(b)
    ensures r.Some? ==> EntryFault(r.value) && r.value.digest == d
    ensures r == Some(FullSetsPatchFields(d)) <==> b.encoding == Full && (b.codec != "" || b.patchFrom != "")
    ensures r == Some(FullSizeMismatch(d)) <==> b.encoding == Full && b.codec == "" && b.patchFrom == "" && b.archiveSize != b.size
    ensures r == Some(PatchNeedsCodec(d)) <==> b.encoding == Patch && b.codec == ""
    ensures r == Some(PatchNeedsSource(d)) <==> b.encoding == Patch && b.codec != "" && b.patchFrom == ""
    ensures r == Some(PatchSizeOutOfRange(d)) <==>
      b.encoding == Patch && b.codec != "" && b.patchFrom != "" && (b.archiveSize <= 0 || b.archiveSize >= b.size)
    ensures r == Some(UnknownEncoding(d)) <==> b.encoding != Full && b.encoding != Patch
  {
    match b.encoding {
      case Full =>
        if b.codec != "" || b.patchFrom != "" { return Some(FullSetsPatchFields(d)); }
        if b.archiveSize != b.size { return Some(FullSizeMismatch(d)); }
      case Patch =>
        if b.codec == "" { return Some(PatchNeedsCodec(d)); }
        if b.patchFrom == "" { return Some(PatchNeedsSource(d)); }
        if b.archiveSize <= 0 || b.archiveSize >= b.size { return Some(PatchSizeOutOfRange(d)); }
      case _ =>
        return Some(UnknownEncoding(d));
    }
    return None;
  }

  /** The fault of one image entry, given the names seen before it. */
  method ValidateImage(s: Sidecar, i: nat, seen: set<string>) returns (r: Option<Fault>)
    requires i < |s.images|
    requires forall n :: n in seen <==> exists j :: 0 <= j < i && s.images[j].name == n
    ensures r.None? <==> ImageOk(s, i)
    ensures r.Some? ==> ImageFault(r.value) && r.value.index == i
    ensures var img := s.images[i]; var again := exists j :: 0 <= j < i && s.images[j].name == img.name;
      && (r == Some(BadName(i)) <==> !NameOk(img.name))
      && (r == Some(DuplicateName(i)) <==> NameOk(img.name) && again)
      && (r == Some(TargetManifestRequired(i)) <==> NameOk(img.name) && !again && img.targetManifest == "")
      && (r == Some(TargetManifestNotInBlobs(i)) <==>
            NameOk(img.name) && !again && img.targetManifest != "" && img.targetManifest !in s.blobs)
      && (r == Some(BaselineManifestRequired(i)) <==>
            NameOk(img.name) && !again && img.targetManifest != "" && img.targetManifest in s.blobs && img.baselineManifest == "")
  {
    var img := s.images[i];
    if !NameOk(img.name) { return Some(BadName(i)); }
    if img.name in seen { return Some(DuplicateName(i)); }
    if img.targetManifest == "" { return Some(TargetManifestRequired(i)); }
    if img.targetManifest !in s.blobs { return Some(TargetManifestNotInBlobs(i)); }
    if img.baselineManifest == "" { return Some(BaselineManifestRequired(i)); }
    assert forall j :: 0 <= j < i ==> s.images[j].name in seen;
    return None;
  }

  /** Accepts exactly the well-formed sidecars; an image fault is always that of the first bad image. */
  method Validate(s: Sidecar) returns (r: Option<Fault>)
    ensures r.None? <==> SidecarOk(s)
    ensures r == Some(PlatformRequired) <==> s.platform == ""
    ensures r.Some? && ImageFault(r.value) ==>
      r.value.index < |s.images| && !ImageOk(s, r.value.index) && forall j :: 0 <= j < r.value.index ==> ImageOk(s, j)
    ensures r.Some? && EntryFault(r.value) ==>
      && (forall j :: 0 <= j < |s.images| ==> ImageOk(s, j))
      && r.value.digest in s.blobs && !EntryOk(s.blobs[r.value.digest])
  {
    if s.platform == "" { return Some(PlatformRequired); }
    if !s.hasBlobs { return Some(BlobsRequired); }
    if |s.images| == 0 { return Some(ImagesRequired); }
    var seen: set<string> := {};
    for i := 0 to |s.images|
      invariant forall n :: n in seen <==> exists j :: 0 <= j < i && s.images[j].name == n
      invariant forall j :: 0 <= j < i ==> ImageOk(s, j)
    {
      r := ValidateImage(s, i, seen);
      if r.Some? { return; }
      ghost var was := seen;
      seen := seen + {s.images[i].name};
      forall n ensures n in seen <==> exists j :: 0 <= j < i + 1 && s.images[j].name == n {
        assert n in was <==> exists j :: 0 <= j < i && s.images[j].name == n;
        assert n == s.images[i].name ==> exists j :: 0 <= j < i + 1 && s.images[j].name == n;
      }
    }
    var todo := s.blobs.Keys;
    while todo != {}
      invariant todo <= s.blobs.Keys
      invariant forall d :: d in s.blobs && d !in todo ==> EntryOk(s.blobs[d])
      decreases |todo|
    {
      var d :| d in todo;
      r := ValidateBlobEntry(d, s.blobs[d]);
      if r.Some? { return; }
      todo := todo - {d};
    }
    return None;
  }

  method RequiresZstd(s: Sidecar) returns (r: bool)
    ensures r <==> exists d :: d in s.blobs && s.blobs[d].encoding == Patch
  {
    var todo := s.blobs.Keys;
    while todo != {}
      invariant todo <= s.blobs.Keys
      invariant forall d :: d in s.blobs && d !in todo ==> s.blobs[d].encoding != Patch
      decreases |todo|
    {
      var d :| d in todo;
      if s.blobs[d].encoding == Patch { return true; }
      todo := todo - {d};
    }
    return false;
  }
}
