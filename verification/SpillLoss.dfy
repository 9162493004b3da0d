/**
 * When a planned payload gets lost.  A spill is named after the target and eight letters of the
 * baseline's digest, so two chosen baselines with one name share a file, and the cleanup of the
 * later one removes what the earlier one won.
 */
module SpillLoss {
  import opened Common
  import opened Diff
  import opened Sorting
  import opened Workdir
  import opened Planner
  import Budget

  /** The planned payload is there. */
  ghost predicate PlanKept(e: Env, files: Files, s: BlobRef, target: Path, k: int) {
    var (out, after) := PlanSpec(e, files, s, target, k);
    out.Planned? ==> out.payload in after
  }

  /** Fetched baselines are named by the encoded half of their digests. */
  predicate SpoolNamed(e: Env) {
    forall d :: d in e.paths ==> e.paths[d] == BaselineFile(Encoded(d))
  }

  /** The candidates for a target with these bytes. */
  ghost function Picks(e: Env, s: BlobRef, data: Bytes, k: int): seq<Meta> {
    TopK(e.baseline, e.prints, e.printer(s.mediaType, data), s.size, k)
  }

  function SpillNames(target: Digest, cands: seq<Meta>): (names: seq<Path>)
    ensures |names| == |cands| && forall i :: 0 <= i < |cands| ==> names[i] == SpillName(target, cands[i].digest)
  {
    Mapped(cands, (c: Meta) => SpillName(target, c.digest))
  }

  /** Two baselines share a spill exactly when the first eight letters of their encoded digests agree. */
  lemma SpillsShared(target: Digest, a: Digest, b: Digest)
    requires Canonical(a) && Canonical(b)
    ensures SpillName(target, a) == SpillName(target, b) <==> a[7..15] == b[7..15]
  {
    assert Encoded(a)[..8] == a[7..15] && Encoded(b)[..8] == b[7..15];
  }

  predicate AllFetched(e: Env, cands: seq<Meta>) {
    forall i :: 0 <= i < |cands| ==> cands[i].digest in e.paths
  }

  /** Whatever the codec does and whatever the baselines hold, the payload is there. */
  ghost predicate AlwaysKept(e: Env, s: BlobRef, target: Path, data: Bytes, k: int) {
    forall codec: Codec, files: Files :: LawfulCodec(codec) && target in files && files[target] == data ==>
      PlanKept(e.(codec := codec), files, s, target, k)
  }

  /** A plan keeps its payload exactly when its search does not reach the end or keeps its winner's file. */
  lemma KeptBySearch(e: Env, files: Files, s: BlobRef, target: Path, k: int, cands: seq<Meta>, full: int)
    requires NoSpill(target) && target in files && cands == Chosen(e, files, s, target, k)
    requires |cands| > 0 && FullSize(e, s, files[target]) == Some(full)
    ensures var p := SearchOf(e, files, s, files[target], full, cands);
      PlanKept(e, files, s, target, k) <==> !AllMade(p, |cands|) || WinnerKept(p)
  {
    var p := SearchOf(e, files, s, files[target], full, cands);
    ScanFailsIff(p, |cands|);
    forall i | 0 <= i < |p.names| ensures p.names[i] != target {
      AttemptIsTry(e, files, s, files[target], full, cands, i);
    }
    ScanFrame(p, |cands|, target);
  }

  lemma EasilyKept(e: Env, files: Files, s: BlobRef, target: Path, k: int)
    requires NoSpill(target)
    requires target !in files || |Chosen(e, files, s, target, k)| == 0 || FullSize(e, s, files[target]).None?
    ensures PlanKept(e, files, s, target, k)
  {
  }

  lemma AttemptIsTry(e: Env, files: Files, s: BlobRef, data: Bytes, full: int, cands: seq<Meta>, i: nat)
    requires i < |cands|
    ensures SearchOf(e, files, s, data, full, cands).names[i] == SpillName(s.digest, cands[i].digest)
    ensures SearchOf(e, files, s, data, full, cands).attempts[i]
      == Try(e, files, data, Budget.ResolveWindowLog(e.windowLog, s.size), cands[i].digest)
  {
  }

  /** No frame is empty, so a target of at most one byte is never beaten. */
  lemma TinyTargetKept(e: Env, files: Files, s: BlobRef, data: Bytes, full: int, cands: seq<Meta>)
    requires LawfulCodec(e.codec) && s.size <= 1 && AllMade(SearchOf(e, files, s, data, full, cands), |cands|)
    ensures WinnerKept(SearchOf(e, files, s, data, full, cands))
  {
    var p := SearchOf(e, files, s, data, full, cands);
    ScanIsArgmin(p, |cands|);
    forall i | 0 <= i < |cands| ensures !Eligible(p, i) {
      AttemptIsTry(e, files, s, data, full, cands, i);
    }
  }

  lemma SafeNamesKeep(e: Env, files: Files, s: BlobRef, target: Path, k: int)
    requires LawfulCodec(e.codec) && NoSpill(target) && target in files
    requires var cands := Picks(e, s, files[target], k);
      NoRepeats(SpillNames(s.digest, cands)) || s.size <= 1 || !AllFetched(e, cands)
    ensures PlanKept(e, files, s, target, k)
  {
    var cands := Picks(e, s, files[target], k);
    var full := FullSize(e, s, files[target]);
    if |cands| == 0 || full.None? {
      EasilyKept(e, files, s, target, k);
    } else {
      var p := SearchOf(e, files, s, files[target], full.value, cands);
      KeptBySearch(e, files, s, target, k, cands, full.value);
      if AllMade(p, |cands|) {
        forall i | 0 <= i < |cands| ensures cands[i].digest in e.paths && p.names[i] == SpillName(s.digest, cands[i].digest) {
          AttemptIsTry(e, files, s, files[target], full.value, cands, i);
        }
        if s.size <= 1 {
          TinyTargetKept(e, files, s, files[target], full.value, cands);
        } else {
          assert p.names == SpillNames(s.digest, cands);
          NamesSafeIff(p.names);
        }
      }
    }
  }

  /** The choice for any K has distinct spill names exactly when the whole baseline has. */
  lemma WholeBaselineDecides(e: Env, s: BlobRef, data: Bytes)
    ensures (forall k: nat :: NoRepeats(SpillNames(s.digest, Picks(e, s, data, k)))) <==> NoRepeats(SpillNames(s.digest, e.baseline))
  {
    var fp := e.printer(s.mediaType, data);
    var n := |e.baseline|;
    var all := Picks(e, s, data, n);
    AllPicked(e, s, data);
    MappedPermute(all, e.baseline, (c: Meta) => SpillName(s.digest, c.digest));
    if NoRepeats(SpillNames(s.digest, e.baseline)) {
      SameCounts(SpillNames(s.digest, all), SpillNames(s.digest, e.baseline));
      forall k: nat ensures NoRepeats(SpillNames(s.digest, Picks(e, s, data, k))) {
        TopKIsPrefix(e.baseline, e.prints, fp, s.size, k, if k < n then n else k);
        TopKIsPrefix(e.baseline, e.prints, fp, s.size, n, if k < n then n else k);
        PrefixDistinct(s.digest, Picks(e, s, data, k), all);
      }
    } else if NoRepeats(SpillNames(s.digest, all)) {
      SameCounts(SpillNames(s.digest, e.baseline), SpillNames(s.digest, all));
    }
  }

  lemma AllPicked(e: Env, s: BlobRef, data: Bytes)
    ensures multiset(Picks(e, s, data, |e.baseline|)) == multiset(e.baseline)
  {
    var fp := e.printer(s.mediaType, data);
    var cands := Candidates(e.baseline, e.prints, fp);
    RankedIsSorted(e.baseline, e.prints, fp, s.size);
    MappedPermute(Ranked(e.baseline, e.prints, fp, s.size), cands, (x: Scored) => x.meta);
    assert Unscored(cands) == e.baseline;
  }

  lemma PrefixDistinct(target: Digest, few: seq<Meta>, many: seq<Meta>)
    requires few <= many && NoRepeats(SpillNames(target, many))
    ensures NoRepeats(SpillNames(target, few))
  {
    assert forall i :: 0 <= i < |few| ==> SpillNames(target, few)[i] == SpillNames(target, many)[i];
  }

  // ---- Otherwise some codec and some baselines lose it ----

  /** Only a baseline whose one byte is 1 is worth patching from. */
  function OneGoodBaseline(data: Bytes): Codec {
    Codec((r: Bytes, t: Bytes, w: int) => if t != data then None else if r == [1] then Some([1]) else Some([1, 1]),
          (t: Bytes, w: int) => Some(100),
          (r: Bytes, p: Bytes) => Some(data))
  }

  lemma OneGoodIsLawful(data: Bytes)
    ensures LawfulCodec(OneGoodBaseline(data))
  {
  }

  function Baselines(cands: seq<Meta>, good: Path): (f: Files)
    ensures forall i :: 0 <= i < |cands| ==>
      var q := BaselineFile(Encoded(cands[i].digest)); q in f && f[q] == if q == good then [1] else [0]
    ensures forall q :: q in f ==> q.BaselineFile?
  {
    if |cands| == 0 then map[]
    else
      var last := cands[|cands| - 1];
      var q := BaselineFile(Encoded(last.digest));
      Baselines(cands[..|cands| - 1], good)[q := if q == good then [1] else [0]]
  }

  lemma GoodTry(e: Env, files: Files, data: Bytes, wl: int, good: Path, d: Digest)
    requires e.codec == OneGoodBaseline(data) && d in e.paths && e.paths[d] in files
    requires files[e.paths[d]] == if e.paths[d] == good then [1] else [0]
    ensures Try(e, files, data, wl, d) == Made(if e.paths[d] == good then [1] else [1, 1])
  {
  }

  /** Candidate i's baseline alone is good, and candidate j shares its spill name. */
  lemma SearchLoses(e: Env, files: Files, s: BlobRef, data: Bytes, cands: seq<Meta>, i: nat, j: nat)
    requires i < j < |cands| && SpoolNamed(e) && AllFetched(e, cands) && s.size > 1 && e.codec == OneGoodBaseline(data)
    requires SpillName(s.digest, cands[i].digest) == SpillName(s.digest, cands[j].digest)
    requires forall n :: 0 <= n < |cands| ==> var q := BaselineFile(Encoded(cands[n].digest));
      q in files && files[q] == if q == BaselineFile(Encoded(cands[i].digest)) then [1] else [0]
    ensures var p := SearchOf(e, files, s, data, 100, cands); AllMade(p, |cands|) && !WinnerKept(p)
  {
    var p := SearchOf(e, files, s, data, 100, cands);
    var good := BaselineFile(Encoded(cands[i].digest));
    var wl := Budget.ResolveWindowLog(e.windowLog, s.size);
    forall n | 0 <= n < |cands|
      ensures p.names[n] == SpillName(s.digest, cands[n].digest)
      ensures p.attempts[n] == Made(if e.paths[cands[n].digest] == good then [1] else [1, 1])
    {
      AttemptIsTry(e, files, s, data, 100, cands, n);
      GoodTry(e, files, data, wl, good, cands[n].digest);
    }
    SmallestLosesFile(p, i, j);
  }

  lemma RepeatedNamesLose(e: Env, s: BlobRef, target: Path, data: Bytes, k: int)
    requires SpoolNamed(e) && target.TargetFile? && s.size > 1
    requires var cands := Picks(e, s, data, k); AllFetched(e, cands) && !NoRepeats(SpillNames(s.digest, cands))
    ensures !AlwaysKept(e, s, target, data, k)
  {
    var cands := Picks(e, s, data, k);
    var names := SpillNames(s.digest, cands);
    var i, j :| 0 <= i < j < |names| && names[i] == names[j];
    var f := e.(codec := OneGoodBaseline(data));
    var files := Baselines(cands, BaselineFile(Encoded(cands[i].digest)))[target := data];
    OneGoodIsLawful(data);
    SearchLoses(f, files, s, data, cands, i, j);
    KeptBySearch(f, files, s, target, k, cands, 100);
    assert LawfulCodec(f.codec) && !PlanKept(e.(codec := f.codec), files, s, target, k);
  }

  /**
   * Which spills are safe can be told before encoding: the planned payload is there, whatever the
   * codec does and whatever the baselines hold, exactly when the chosen baselines' spill names
   * differ, or the layer has at most one byte, or a chosen baseline was never fetched.
   */
  lemma AlwaysKeptIff(e: Env, s: BlobRef, target: Path, data: Bytes, k: int)
    requires SpoolNamed(e) && target.TargetFile?
    ensures AlwaysKept(e, s, target, data, k) <==>
      var cands := Picks(e, s, data, k);
      NoRepeats(SpillNames(s.digest, cands)) || s.size <= 1 || !AllFetched(e, cands)
  {
    var cands := Picks(e, s, data, k);
    if NoRepeats(SpillNames(s.digest, cands)) || s.size <= 1 || !AllFetched(e, cands) {
      forall codec: Codec, files: Files | LawfulCodec(codec) && target in files && files[target] == data
        ensures PlanKept(e.(codec := codec), files, s, target, k)
      {
        SafeNamesKeep(e.(codec := codec), files, s, target, k);
      }
    } else {
      RepeatedNamesLose(e, s, target, data, k);
    }
  }
}
