/**
 * Phase two of the export: every shipped layer is spooled, planned and adopted under the
 * admission pool.  The machine below interleaves the submission loop, the scheduler and
 * the steps of every running encode; the theorem is that the schedule does not matter.
 */
module Encode {
  import opened Common
  import opened Diff
  import opened Workdir
  import opened Planner
  import opened BlobPool
  import Budget
  import A = Admission

  /** One (pair, shipped layer) tuple of the submission loop. */
  datatype Job = Job(pair: nat, s: BlobRef)

  /** Everything fixed before the phase starts: the tuples in submission order, each pair's planner
      inputs, the bytes the target sources serve, and the disk with baselines and seeded blobs. */
  datatype Ctx = Ctx(
    jobs: seq<Job>,
    envs: seq<Env>,
    content: map<Digest, Bytes>,
    off: bool,
    k: int,
    windowLog: int,
    seeds: map<Digest, BlobEntry>,
    base: Files)

  /** What preparing an export guarantees. */
  ghost predicate CtxBase(c: Ctx) {
    && (forall j :: 0 <= j < |c.jobs| ==>
          c.jobs[j].pair < |c.envs| && c.jobs[j].s.digest in c.content && Canonical(c.jobs[j].s.digest))
    && (forall p, d :: 0 <= p < |c.envs| && d in c.envs[p].paths ==> c.envs[p].paths[d].BaselineFile?)
    && (forall d :: d in c.seeds ==> Canonical(d) && BlobPath(d) in c.base)
  }

  /** A digest that was not seeded is listed with one size and one media type everywhere. */
  predicate DescriptorsFixed(jobs: seq<Job>, seeded: set<Digest>) {
    forall i, j :: 0 <= i < |jobs| && 0 <= j < |jobs| && jobs[i].s.digest == jobs[j].s.digest && jobs[i].s.digest !in seeded ==>
      jobs[i].s == jobs[j].s
  }

  ghost predicate CtxOk(c: Ctx) { CtxBase(c) && DescriptorsFixed(c.jobs, c.seeds.Keys) }

  // ---- What each digest must end up as ----

  /** How many tuples ship d: the pool's reference count. */
  function Refs(jobs: seq<Job>, d: Digest): nat {
    if |jobs| == 0 then 0
    else Refs(jobs[..|jobs| - 1], d) + if jobs[|jobs| - 1].s.digest == d then 1 else 0
  }

  lemma {:induction false} RefsPositive(jobs: seq<Job>, i: nat)
    requires i < |jobs|
    ensures Refs(jobs, jobs[i].s.digest) >= 1
    decreases |jobs|
  {
    if i < |jobs| - 1 {
      assert jobs[..|jobs| - 1][i] == jobs[i];
      RefsPositive(jobs[..|jobs| - 1], i);
    }
  }

  /** Two different tuples of one digest push its count past one. */
  lemma {:induction false} RefsSeparate(jobs: seq<Job>, i: nat, j: nat)
    requires i < j < |jobs| && jobs[i].s.digest == jobs[j].s.digest
    ensures Refs(jobs, jobs[i].s.digest) >= 2
    decreases |jobs|
  {
    var front := jobs[..|jobs| - 1];
    assert front[i] == jobs[i];
    if j == |jobs| - 1 {
      RefsPositive(front, i);
    } else {
      assert front[j] == jobs[j];
      RefsSeparate(front, i, j);
    }
  }

  function Target(d: Digest): Path { TargetFile(Encoded(d)) }

  predicate Forced(c: Ctx, d: Digest) { c.off || Refs(c.jobs, d) > 1 }

  ghost predicate Known(c: Ctx, j: nat) {
    j < |c.jobs| && c.jobs[j].pair < |c.envs| && c.jobs[j].s.digest in c.content
  }

  ghost function PlanOf(c: Ctx, j: nat): (Outcome, Files)
    requires Known(c, j)
  {
    var s := c.jobs[j].s;
    PlanSpec(c.envs[c.jobs[j].pair], c.base[Target(s.digest) := c.content[s.digest]], s, Target(s.digest), c.k)
  }

  ghost predicate TakesFull(c: Ctx, j: nat)
    requires Known(c, j)
  {
    Forced(c, c.jobs[j].s.digest) || PlanOf(c, j).0.PlanFailed?
  }

  ghost function CanonEntry(c: Ctx, j: nat): BlobEntry
    requires Known(c, j)
  {
    if TakesFull(c, j) then FullEntry(c.jobs[j].s) else PlanOf(c, j).0.entry
  }

  ghost function CanonPayload(c: Ctx, j: nat): Path
    requires Known(c, j)
  {
    if TakesFull(c, j) then Target(c.jobs[j].s.digest) else PlanOf(c, j).0.payload
  }

  /** The payload's bytes; empty when colliding spill names lost the payload, in which case adoption fails. */
  ghost function CanonBytes(c: Ctx, j: nat): Bytes
    requires Known(c, j)
  {
    if TakesFull(c, j) then c.content[c.jobs[j].s.digest]
    else if PlanOf(c, j).0.payload in PlanOf(c, j).1 then PlanOf(c, j).1[PlanOf(c, j).0.payload]
    else []
  }

  /** Whatever a tuple becomes, it is listed with the size and media type of its own descriptor. */
  lemma CanonDescribes(c: Ctx, j: nat)
    requires Known(c, j)
    ensures CanonEntry(c, j).size == c.jobs[j].s.size && CanonEntry(c, j).mediaType == c.jobs[j].s.mediaType
    ensures CanonEntry(c, j).encoding == Patch ==> CanonEntry(c, j).codec == "zstd-patch"
  {
    var s := c.jobs[j].s;
    PlanDescribesLayer(c.envs[c.jobs[j].pair], c.base[Target(s.digest) := c.content[s.digest]], s, Target(s.digest), c.k);
  }

  /** A digest shipped twice is forced to full, so which tuple is encoded does not matter. */
  lemma CanonIsPerDigest(c: Ctx, i: nat, j: nat)
    requires CtxOk(c) && Known(c, i) && Known(c, j) && c.jobs[i].s.digest == c.jobs[j].s.digest && c.jobs[i].s.digest !in c.seeds
    ensures CanonEntry(c, i) == CanonEntry(c, j) && CanonBytes(c, i) == CanonBytes(c, j) && Kept(c, i) == Kept(c, j)
  {
    if i < j { RefsSeparate(c.jobs, i, j); } else if j < i { RefsSeparate(c.jobs, j, i); }
  }

  /** Whether the payload is kept does not even depend on the descriptors. */
  lemma KeptIsPerDigest(c: Ctx, i: nat, j: nat)
    requires Known(c, i) && Known(c, j) && c.jobs[i].s.digest == c.jobs[j].s.digest
    ensures Kept(c, i) == Kept(c, j)
  {
    if i != j {
      if i < j { RefsSeparate(c.jobs, i, j); } else { RefsSeparate(c.jobs, j, i); }
      assert Forced(c, c.jobs[i].s.digest);
      assert TakesFull(c, i) && TakesFull(c, j);
    }
  }

  /** Two tuples ship one digest with one result exactly when their descriptors agree: this is the hypothesis
      confluence needs, since the first writer's entry is the one that stays. */
  lemma DescriptorsMustAgree(c: Ctx, i: nat, j: nat)
    requires Known(c, i) && Known(c, j) && i != j && c.jobs[i].s.digest == c.jobs[j].s.digest
    ensures CanonEntry(c, i) == CanonEntry(c, j) <==> c.jobs[i].s == c.jobs[j].s
  {
    if i < j { RefsSeparate(c.jobs, i, j); } else { RefsSeparate(c.jobs, j, i); }
  }

  // ---- The machine ----

  /** Where a running encode is. */
  datatype Pc =
    | Start
    | Spooled                                       // target file written
    | Trying(cands: seq<Meta>, full: int, n: nat, best: int, size: int)   // the first n candidates tried
    | Weighing(cands: seq<Meta>, full: int, n: nat, best: int, size: int, made: nat)   // candidate n's spill is written
    | Ready(payload: Path, entry: BlobEntry)        // encoding decided
    | Checked(payload: Path, entry: BlobEntry)      // pool looked up, digest absent
    | Adopted(entry: BlobEntry)                     // payload renamed into place
    | Registered                                    // pool holds the digest
    | Finished                                      // leftover target removed

  /** slipped: the digests whose planning failed for a reason outside the export's input. */
  datatype State = State(
    pool: A.Pool,
    files: Files,
    entries: map<Digest, BlobEntry>,
    jobOf: seq<nat>,
    pcs: seq<Pc>,
    cursor: nat,
    slipped: set<Digest>)

  datatype Action =
    | SubmitNext
    | Sched(a: A.Action)
    | Spool(i: nat)
    | Decide(i: nat)
    | TryNext(i: nat)
    | Weigh(i: nat)
    | Settle(i: nat)
    | PlanSlips(i: nat, left: Files)                // an error no input explains; left: the spills it leaves behind
    | Check(i: nat)
    | Adopt(i: nat)
    | Register(i: nat)
    | Cleanup(i: nat)
    | Return(i: nat)
    | Fail(i: nat, out: A.Outcome)

  function Init(c: Ctx, workers: int, budget: int): State {
    State(A.Init(workers, budget), c.base, c.seeds, [], [], 0, {})
  }

  predicate RunningAt(s: State, i: nat) {
    i < |s.pool.tasks| && s.pool.tasks[i].phase.Running? && i < |s.pcs| && i < |s.jobOf|
  }

  predicate SchedulerOnly(a: A.Action) { !a.Submit? && !a.Finish? }

  /** The encoding starts: forced or hopeless layers are shipped in full, any other goes through its candidates. */
  ghost function StartPlan(c: Ctx, f: Files, j: nat): Pc
    requires Known(c, j)
  {
    var s := c.jobs[j].s;
    var e, target := c.envs[c.jobs[j].pair], Target(s.digest);
    if Forced(c, s.digest) || target !in f then Ready(target, FullEntry(s))
    else
      var cands, full := Chosen(e, f, s, target, c.k), FullSize(e, s, f[target]);
      if |cands| == 0 || full.None? then Ready(target, FullEntry(s))
      else Trying(cands, full.value, 0, -1, s.size)
  }

  predicate CanTry(f: Files, p: Pc, s: BlobRef) {
    p.Trying? && p.n < |p.cands| && -1 <= p.best < p.n && Target(s.digest) in f
  }

  /** One more candidate is encoded into its spill; a failure ships the layer in full. */
  ghost function TryOnce(c: Ctx, f: Files, j: nat, p: Pc): (Pc, Files)
    requires Known(c, j) && CanTry(f, p, c.jobs[j].s)
  {
    var s := c.jobs[j].s;
    var d := p.cands[p.n].digest;
    var name, full := SpillName(s.digest, d), Ready(Target(s.digest), FullEntry(s));
    var e := c.envs[c.jobs[j].pair];
    match Try(e, f, f[Target(s.digest)], Budget.ResolveWindowLog(e.windowLog, s.size), d)
    case Unprimed => (full, f)
    case EncodeFailed => (full, f - {name})
    case Made(patch) => (Weighing(p.cands, p.full, p.n, p.best, p.size, |patch|), f[name := patch])
  }

  predicate CanWeigh(p: Pc) { p.Weighing? && p.n < |p.cands| && -1 <= p.best < p.n }

  /** The worse of it and the running best is removed. */
  function WeighOnce(f: Files, s: BlobRef, p: Pc): (Pc, Files)
    requires CanWeigh(p)
  {
    if p.made < p.full && p.made < s.size && p.made < p.size then
      (Trying(p.cands, p.full, p.n + 1, p.n, p.made), if p.best >= 0 then f - {SpillName(s.digest, p.cands[p.best].digest)} else f)
    else
      (Trying(p.cands, p.full, p.n + 1, p.best, p.size), f - {SpillName(s.digest, p.cands[p.n].digest)})
  }

  predicate CanSettle(p: Pc) { p.Trying? && p.n == |p.cands| && -1 <= p.best < p.n }

  function Settled(s: BlobRef, p: Pc): Pc
    requires CanSettle(p)
  {
    if p.best < 0 then Ready(Target(s.digest), FullEntry(s))
    else Ready(SpillName(s.digest, p.cands[p.best].digest), PatchEntry(s, p.cands[p.best].digest, p.size))
  }

  predicate Searching(p: Pc) { p.Trying? || p.Weighing? }

  predicate SpillOf(q: Path, d: Digest) { q.SpillFile? && q.name == Encoded(d) }

  /** The disk when the spills of d have become left. */
  function WithSpills(f: Files, d: Digest, left: Files): Files {
    (map q | q in f && !SpillOf(q, d) :: f[q]) + left
  }

  /** Planning is under way, and may meet an error: a full disk, a killed encoder, a cancelled context. */
  ghost predicate CanSlip(c: Ctx, p: Pc, d: Digest, left: Files) {
    (p.Spooled? || Searching(p)) && !Forced(c, d) && forall q :: q in left ==> SpillOf(q, d)
  }

  ghost predicate Enabled(c: Ctx, s: State, a: Action) {
    match a
    case SubmitNext => s.cursor < |c.jobs|
    case Sched(x) => SchedulerOnly(x) && A.Enabled(s.pool, x)
    case Spool(i) => RunningAt(s, i) && Known(c, s.jobOf[i]) && s.pcs[i].Start?
    case Decide(i) => RunningAt(s, i) && Known(c, s.jobOf[i]) && s.pcs[i].Spooled?
    case TryNext(i) => RunningAt(s, i) && Known(c, s.jobOf[i]) && CanTry(s.files, s.pcs[i], c.jobs[s.jobOf[i]].s)
    case Weigh(i) => RunningAt(s, i) && Known(c, s.jobOf[i]) && CanWeigh(s.pcs[i])
    case Settle(i) => RunningAt(s, i) && Known(c, s.jobOf[i]) && CanSettle(s.pcs[i])
    case PlanSlips(i, left) => RunningAt(s, i) && Known(c, s.jobOf[i]) && CanSlip(c, s.pcs[i], c.jobs[s.jobOf[i]].s.digest, left)
    case Check(i) => RunningAt(s, i) && Known(c, s.jobOf[i]) && s.pcs[i].Ready?
    case Adopt(i) => RunningAt(s, i) && Known(c, s.jobOf[i]) && s.pcs[i].Checked? && s.pcs[i].payload in s.files
    case Register(i) => RunningAt(s, i) && Known(c, s.jobOf[i]) && s.pcs[i].Adopted?
    case Cleanup(i) => RunningAt(s, i) && Known(c, s.jobOf[i]) && s.pcs[i].Registered?
    case Return(i) => RunningAt(s, i) && Known(c, s.jobOf[i]) && s.pcs[i].Finished?
    case Fail(i, out) => RunningAt(s, i) && !out.Succeeded?
  }

  ghost function Next(c: Ctx, s: State, a: Action): State
    requires Enabled(c, s, a)
  {
    match a
    case SubmitNext =>
      var r := c.jobs[s.cursor].s;
      if r.digest in s.entries then s.(cursor := s.cursor + 1)
      else
        State(A.Next(s.pool, A.Action.Submit(r.digest, Budget.LayerEstimate(c.windowLog, r.size))),
              s.files, s.entries, s.jobOf + [s.cursor], s.pcs + [Start], s.cursor + 1, s.slipped)
    case Sched(x) => s.(pool := A.Next(s.pool, x))
    case Spool(i) =>
      var d := c.jobs[s.jobOf[i]].s.digest;
      s.(files := s.files[Target(d) := c.content[d]], pcs := s.pcs[i := Spooled])
    case Decide(i) => s.(pcs := s.pcs[i := StartPlan(c, s.files, s.jobOf[i])])
    case TryNext(i) =>
      var (p, after) := TryOnce(c, s.files, s.jobOf[i], s.pcs[i]);
      s.(files := after, pcs := s.pcs[i := p])
    case Weigh(i) =>
      var (p, after) := WeighOnce(s.files, c.jobs[s.jobOf[i]].s, s.pcs[i]);
      s.(files := after, pcs := s.pcs[i := p])
    case Settle(i) => s.(pcs := s.pcs[i := Settled(c.jobs[s.jobOf[i]].s, s.pcs[i])])
    case PlanSlips(i, left) =>
      var r := c.jobs[s.jobOf[i]].s;
      s.(files := WithSpills(s.files, r.digest, left), pcs := s.pcs[i := Ready(Target(r.digest), FullEntry(r))],
         slipped := s.slipped + {r.digest})
    case Check(i) =>
      if c.jobs[s.jobOf[i]].s.digest in s.entries then
        s.(files := s.files - {s.pcs[i].payload}, pcs := s.pcs[i := Registered])
      else s.(pcs := s.pcs[i := Checked(s.pcs[i].payload, s.pcs[i].entry)])
    case Adopt(i) =>
      var src := s.pcs[i].payload;
      s.(files := (s.files - {src})[BlobPath(c.jobs[s.jobOf[i]].s.digest) := s.files[src]], pcs := s.pcs[i := Adopted(s.pcs[i].entry)])
    case Register(i) =>
      var d := c.jobs[s.jobOf[i]].s.digest;
      s.(entries := if d in s.entries then s.entries else s.entries[d := s.pcs[i].entry], pcs := s.pcs[i := Registered])
    case Cleanup(i) => s.(files := s.files - {Target(c.jobs[s.jobOf[i]].s.digest)}, pcs := s.pcs[i := Finished])
    case Return(i) => s.(pool := A.Next(s.pool, A.Finish(i, A.Succeeded)))
    case Fail(i, out) => s.(pool := A.Next(s.pool, A.Finish(i, out)))
  }

  ghost predicate Runs(c: Ctx, s: State, run: seq<Action>, t: State)
    decreases |run|
  {
    if |run| == 0 then s == t
    else Enabled(c, s, run[0]) && Runs(c, Next(c, s, run[0]), run[1..], t)
  }

  // ---- The invariant ----

  /** What tuple j may end up as: its canonical result, or, when its planning slipped, the layer in full. */
  ghost predicate Yields(c: Ctx, slipped: set<Digest>, j: nat, e: BlobEntry, data: Bytes)
    requires Known(c, j)
  {
    || (Kept(c, j) && e == CanonEntry(c, j) && data == CanonBytes(c, j))
    || (c.jobs[j].s.digest in slipped && e == FullEntry(c.jobs[j].s) && data == c.content[c.jobs[j].s.digest])
  }

  /** d's registered entry and file are exactly what was seeded, or what some tuple of d yields. */
  ghost predicate EntryCanon(c: Ctx, s: State, d: Digest)
    requires d in s.entries
  {
    && Canonical(d) && BlobPath(d) in s.files
    && if d in c.seeds then s.entries[d] == c.seeds[d] && BlobPath(d) in c.base && s.files[BlobPath(d)] == c.base[BlobPath(d)]
       else exists j: nat :: Known(c, j) && c.jobs[j].s.digest == d && Yields(c, s.slipped, j, s.entries[d], s.files[BlobPath(d)])
  }

  ghost predicate EncodeOk(c: Ctx, s: State, i: nat)
    requires i < |s.pool.tasks| && i < |s.pcs| && i < |s.jobOf|
  {
    var t := s.pool.tasks[i];
    var j := s.jobOf[i];
    && Known(c, j) && j < s.cursor && t.key == c.jobs[j].s.digest && t.key !in c.seeds
    && (A.Before(t.phase) ==> s.pcs[i].Start?)
    && (t.phase.Running? ==>
          match s.pcs[i]
          case Start => true
          case Spooled => Target(t.key) in s.files && s.files[Target(t.key)] == c.content[t.key]
          case Trying(_, _, _, _, _) => TryingOk(c, s.files, j, s.pcs[i])
          case Weighing(_, _, _, _, _, _) => WeighingOk(c, s.files, j, s.pcs[i])
          case Ready(p, e) => PayloadOk(c, s, j, p, e)
          case Checked(p, e) => PayloadOk(c, s, j, p, e) && t.key !in s.entries
          case Adopted(e) =>
            && t.key !in s.entries && BlobPath(t.key) in s.files
            && Yields(c, s.slipped, j, e, s.files[BlobPath(t.key)])
          case Registered => t.key in s.entries
          case Finished => t.key in s.entries)
    && (t.ran == Some(A.Succeeded) ==> t.key in s.entries)
  }

  /** The disk the plan of tuple j is defined on. */
  ghost function PlanDisk(c: Ctx, j: nat): Files
    requires Known(c, j)
  {
    c.base[Target(c.jobs[j].s.digest) := c.content[c.jobs[j].s.digest]]
  }

  /** The whole search of tuple j, on that disk. */
  ghost function CanonSearch(c: Ctx, j: nat, p: Pc): (q: Search)
    requires Known(c, j) && Searching(p)
    ensures Planner.Shaped(q) && |q.names| == |p.cands|
  {
    var s := c.jobs[j].s;
    SearchOf(c.envs[c.jobs[j].pair], PlanDisk(c, j), s, c.content[s.digest], p.full, p.cands)
  }

  /** The target is there, and the search is over the candidates of tuple j. */
  ghost predicate SearchOk(c: Ctx, f: Files, j: nat, p: Pc)
    requires Known(c, j) && Searching(p)
  {
    var s := c.jobs[j].s;
    var e, target := c.envs[c.jobs[j].pair], Target(s.digest);
    && !Forced(c, s.digest) && target in f && f[target] == c.content[s.digest]
    && p.cands == Chosen(e, PlanDisk(c, j), s, target, c.k) && |p.cands| > 0
    && FullSize(e, s, c.content[s.digest]) == Some(p.full) && p.n <= |p.cands|
  }

  /** Amid all the other encodes, the candidates tried so far came out as in the search of tuple j alone. */
  ghost predicate TryingOk(c: Ctx, f: Files, j: nat, p: Pc)
    requires Known(c, j) && p.Trying?
  {
    SearchOk(c, f, j, p) && ScanSoFar(CanonSearch(c, j, p), f, p)
  }

  /** So they did, and the next one's patch is written. */
  ghost predicate WeighingOk(c: Ctx, f: Files, j: nat, p: Pc)
    requires Known(c, j) && p.Weighing?
  {
    SearchOk(c, f, j, p) && p.n < |p.cands| && WrittenSoFar(CanonSearch(c, j, p), f, p)
  }

  ghost predicate WrittenSoFar(q: Search, f: Files, p: Pc)
    requires Planner.Shaped(q) && p.Weighing? && p.n < |q.names|
  {
    var r := ScanTo(q, p.n);
    && p.best == r.best && p.size == r.size && q.attempts[p.n].Made? && |q.attempts[p.n].patch| == p.made
    && Written(q, p.n, f, q.attempts[p.n].patch)
  }

  ghost predicate ScanSoFar(q: Search, f: Files, p: Pc)
    requires Planner.Shaped(q) && p.Trying? && p.n <= |q.names|
  {
    var r := ScanTo(q, p.n);
    !r.failed && p.best == r.best && p.size == r.size && (r.best >= 0 ==> SameAt(f, r.files, q.names[r.best]))
  }

  ghost predicate PayloadOk(c: Ctx, s: State, j: nat, p: Path, e: BlobEntry)
    requires Known(c, j)
  {
    && !p.BlobFile? && !p.BaselineFile? && p.name == Encoded(c.jobs[j].s.digest)
    && (p in s.files ==> Yields(c, s.slipped, j, e, s.files[p]))
    && (Kept(c, j) || p.TargetFile? ==> p in s.files)
  }

  /** The planner's spills do not collide in a way that loses the winner. */
  ghost predicate Kept(c: Ctx, j: nat)
    requires Known(c, j)
  {
    TakesFull(c, j) || PlanOf(c, j).0.payload in PlanOf(c, j).1
  }

  ghost predicate Covered(c: Ctx, s: State, n: nat)
    requires n < |c.jobs|
  {
    c.jobs[n].s.digest in s.entries || exists i :: 0 <= i < |s.pool.tasks| && s.pool.tasks[i].key == c.jobs[n].s.digest
  }

  ghost predicate Inv(c: Ctx, s: State) {
    && A.Inv(s.pool)
    && |s.pcs| == |s.jobOf| == |s.pool.tasks| && s.cursor <= |c.jobs|
    && (forall i :: 0 <= i < |s.pool.tasks| ==> EncodeOk(c, s, i))
    && (forall d :: d in s.entries ==> EntryCanon(c, s, d))
    && (forall d :: d in c.seeds ==> d in s.entries)
    && BaselinesKept(c, s.files)
    && (forall n :: 0 <= n < s.cursor ==> Covered(c, s, n))
  }

  ghost predicate BaselinesKept(c: Ctx, f: Files) {
    forall q: Path :: q.BaselineFile? ==> (q in f <==> q in c.base) && (q in c.base ==> f[q] == c.base[q])
  }

  lemma InitInv(c: Ctx, workers: int, budget: int)
    requires CtxBase(c)
    ensures Inv(c, Init(c, workers, budget))
  {
    A.InitInv(workers, budget);
  }

  // ---- Footprints: an encode of d touches only files named after d ----

  ghost predicate TouchesOnly(f: Files, g: Files, name: string) {
    forall q: Path :: q.BaselineFile? || q.name != name ==> (q in f <==> q in g) && (q in f ==> f[q] == g[q])
  }

  ghost predicate RegistersOnly(m: map<Digest, BlobEntry>, n: map<Digest, BlobEntry>, d: Digest) {
    forall x :: x != d ==> (x in m <==> x in n) && (x in m ==> m[x] == n[x])
  }

  /** Another encode is unaffected: its digest differs, hence so do all its file names. */
  lemma EncodeFrame(c: Ctx, s: State, t: State, i: nat, d: Digest)
    requires i < |s.pool.tasks| == |t.pool.tasks| && |s.pcs| == |t.pcs| && i < |s.pcs| && s.jobOf == t.jobOf && i < |s.jobOf|
    requires EncodeOk(c, s, i) && t.pool.tasks[i] == s.pool.tasks[i] && t.pcs[i] == s.pcs[i] && t.cursor == s.cursor
    requires TouchesOnly(s.files, t.files, Encoded(d)) && RegistersOnly(s.entries, t.entries, d)
    requires Canonical(d) && Canonical(s.pool.tasks[i].key)
    requires (s.pool.tasks[i].phase.Running? ==> s.pool.tasks[i].key != d) && (d in s.entries ==> d in t.entries)
    requires s.slipped <= t.slipped
    ensures EncodeOk(c, t, i)
  {
    if s.pool.tasks[i].phase.Running? && Encoded(s.pool.tasks[i].key) == Encoded(d) {
      EncodedInjective(s.pool.tasks[i].key, d);
    }
  }

  lemma EntryFrame(c: Ctx, s: State, t: State, x: Digest, d: Digest)
    requires x in s.entries && x != d && EntryCanon(c, s, x) && Canonical(d)
    requires TouchesOnly(s.files, t.files, Encoded(d)) && RegistersOnly(s.entries, t.entries, d) && s.slipped <= t.slipped
    ensures x in t.entries && EntryCanon(c, t, x)
  {
    if Encoded(x) == Encoded(d) { EncodedInjective(x, d); }
  }

  // ---- The steps of one encode ----

  predicate IsBody(a: Action) { a.Spool? || a.Decide? || a.TryNext? || a.Weigh? || a.Settle? || a.PlanSlips? || a.Check? || a.Adopt? || a.Register? || a.Cleanup? }

  ghost predicate BodyResult(c: Ctx, s: State, t: State, i: nat)
    requires i < |s.pool.tasks| && |s.pcs| == |s.jobOf| == |s.pool.tasks|
  {
    var d := s.pool.tasks[i].key;
    && t.pool == s.pool && t.jobOf == s.jobOf && t.cursor == s.cursor
    && |t.pcs| == |s.pcs| && (forall j :: 0 <= j < |s.pcs| && j != i ==> t.pcs[j] == s.pcs[j])
    && TouchesOnly(s.files, t.files, Encoded(d)) && RegistersOnly(s.entries, t.entries, d)
    && (d in s.entries ==> d in t.entries) && s.slipped <= t.slipped
    && EncodeOk(c, t, i) && (d in t.entries ==> EntryCanon(c, t, d))
    && BaselinesKept(c, t.files)
  }

  /** The part of the invariant one encode relies on. */
  ghost predicate Local(c: Ctx, s: State, i: nat) {
    && |s.pcs| == |s.jobOf| == |s.pool.tasks| && i < |s.pool.tasks|
    && EncodeOk(c, s, i) && Canonical(s.pool.tasks[i].key)
    && (s.pool.tasks[i].key in s.entries ==> EntryCanon(c, s, s.pool.tasks[i].key))
    && BaselinesKept(c, s.files)
  }

  /** A step of encode i that leaves the pool's table and blobs alone. */
  lemma BodyMoves(c: Ctx, s: State, t: State, i: nat)
    requires Local(c, s, i) && t.pool == s.pool && t.jobOf == s.jobOf && t.cursor == s.cursor && t.entries == s.entries
    requires s.slipped <= t.slipped && |t.pcs| == |s.pcs| && forall j :: 0 <= j < |s.pcs| && j != i ==> t.pcs[j] == s.pcs[j]
    requires forall x: Path :: !SpillOf(x, s.pool.tasks[i].key) ==> SameAt(t.files, s.files, x)
    requires EncodeOk(c, t, i)
    ensures BodyResult(c, s, t, i)
  {
    var d := s.pool.tasks[i].key;
    forall q: Path | !SpillOf(q, d) ensures (q in s.files <==> q in t.files) && (q in s.files ==> s.files[q] == t.files[q]) {
      assert SameAt(t.files, s.files, q);
    }
  }

  lemma SpoolStep(c: Ctx, s: State, i: nat)
    requires Local(c, s, i) && Enabled(c, s, Spool(i))
    ensures BodyResult(c, s, Next(c, s, Spool(i)), i)
  {
  }

  /** The plan made on the live disk is the canonical one. */
  lemma PlanIsCanonical(c: Ctx, f: Files, j: nat)
    requires CtxBase(c) && Known(c, j) && BaselinesKept(c, f)
    requires var d := c.jobs[j].s.digest; Target(d) in f && f[Target(d)] == c.content[d]
    ensures var job := c.jobs[j]; var d := job.s.digest;
      var (out, after) := PlanSpec(c.envs[job.pair], f, job.s, Target(d), c.k);
      && TouchesOnly(f, after, Encoded(d)) && BaselinesKept(c, after)
      && (forall x :: (BlobPath(x) in after <==> BlobPath(x) in f) && (BlobPath(x) in after ==> after[BlobPath(x)] == f[BlobPath(x)]))
      && Target(d) in after && after[Target(d)] == c.content[d]
      && out == PlanOf(c, j).0
      && (out.Planned? ==>
            && !out.payload.BlobFile? && !out.payload.BaselineFile? && out.payload.name == Encoded(d)
            && (out.payload in after <==> out.payload in PlanOf(c, j).1)
            && (out.payload in after ==> after[out.payload] == PlanOf(c, j).1[out.payload]))
  {
    var job := c.jobs[j];
    var d := job.s.digest;
    var e, start := c.envs[job.pair], c.base[Target(d) := c.content[d]];
    PlanIsSound(e, f, job.s, Target(d), c.k);
    PlanIsDeterministic(e, f, start, job.s, Target(d), c.k);
    var after := PlanSpec(e, f, job.s, Target(d), c.k).1;
    forall q: Path | NoSpill(q) || q.name != Encoded(d)
      ensures (q in after <==> q in f) && (q in f ==> after[q] == f[q])
    {
    }
  }

  lemma DecideForced(c: Ctx, s: State, i: nat)
    requires Local(c, s, i) && Enabled(c, s, Decide(i)) && Forced(c, s.pool.tasks[i].key)
    ensures BodyResult(c, s, Next(c, s, Decide(i)), i)
  {
    var t := Next(c, s, Decide(i));
    assert PayloadOk(c, t, s.jobOf[i], t.pcs[i].payload, t.pcs[i].entry);
  }

  /** Without candidates, or without a plain compressed size, the plan is the layer in full. */
  lemma NothingToTry(c: Ctx, j: nat)
    requires Known(c, j) && !Forced(c, c.jobs[j].s.digest)
    requires var s := c.jobs[j].s; var e := c.envs[c.jobs[j].pair];
      |Chosen(e, PlanDisk(c, j), s, Target(s.digest), c.k)| == 0 || FullSize(e, s, c.content[s.digest]).None?
    ensures CanonEntry(c, j) == FullEntry(c.jobs[j].s) && CanonPayload(c, j) == Target(c.jobs[j].s.digest)
    ensures CanonBytes(c, j) == c.content[c.jobs[j].s.digest] && Kept(c, j)
  {
  }

  lemma DecidePlanned(c: Ctx, s: State, i: nat)
    requires Local(c, s, i) && Enabled(c, s, Decide(i)) && !Forced(c, s.pool.tasks[i].key)
    ensures BodyResult(c, s, Next(c, s, Decide(i)), i)
  {
    var j := s.jobOf[i];
    var ref := c.jobs[j].s;
    var e := c.envs[c.jobs[j].pair];
    var t := Next(c, s, Decide(i));
    assert Chosen(e, s.files, ref, Target(ref.digest), c.k) == Chosen(e, PlanDisk(c, j), ref, Target(ref.digest), c.k);
    if t.pcs[i].Ready? {
      NothingToTry(c, j);
      assert PayloadOk(c, t, j, t.pcs[i].payload, t.pcs[i].entry);
    } else {
      assert TryingOk(c, t.files, j, t.pcs[i]);
    }
  }

  lemma DecideStep(c: Ctx, s: State, i: nat)
    requires Local(c, s, i) && Enabled(c, s, Decide(i))
    ensures BodyResult(c, s, Next(c, s, Decide(i)), i)
  {
    if Forced(c, s.pool.tasks[i].key) { DecideForced(c, s, i); } else { DecidePlanned(c, s, i); }
  }

  /** A try on the live disk reads the same target and baseline as on the plan's own disk. */
  lemma LiveTry(c: Ctx, f: Files, j: nat, p: Pc)
    requires CtxBase(c) && Known(c, j) && BaselinesKept(c, f) && p.Trying? && SearchOk(c, f, j, p) && p.n < |p.cands|
    ensures var s := c.jobs[j].s; var e := c.envs[c.jobs[j].pair]; var q := CanonSearch(c, j, p);
      && q.names[p.n] == SpillName(s.digest, p.cands[p.n].digest)
      && Try(e, f, f[Target(s.digest)], Budget.ResolveWindowLog(e.windowLog, s.size), p.cands[p.n].digest) == q.attempts[p.n]
  {
    var e, d := c.envs[c.jobs[j].pair], p.cands[p.n].digest;
    if d in e.paths { assert e.paths[d].BaselineFile? && SameAt(f, PlanDisk(c, j), e.paths[d]); }
  }

  /** Every name of the search is a spill of its target. */
  lemma SearchNames(c: Ctx, j: nat, p: Pc, x: Path)
    requires Known(c, j) && Searching(p) && x in CanonSearch(c, j, p).names
    ensures x.SpillFile? && x.name == Encoded(c.jobs[j].s.digest)
  {
  }

  /** One try comes out as the search alone says. */
  lemma TryIs(c: Ctx, f: Files, j: nat, p: Pc)
    requires CtxBase(c) && Known(c, j) && BaselinesKept(c, f) && CanTry(f, p, c.jobs[j].s) && SearchOk(c, f, j, p)
    ensures var q := CanonSearch(c, j, p); var name := q.names[p.n]; var s := c.jobs[j].s;
      SpillOf(name, s.digest) &&
      TryOnce(c, f, j, p) ==
        match q.attempts[p.n]
        case Unprimed => (Ready(Target(s.digest), FullEntry(s)), f)
        case EncodeFailed => (Ready(Target(s.digest), FullEntry(s)), f - {name})
        case Made(patch) => (Weighing(p.cands, p.full, p.n, p.best, p.size, |patch|), f[name := patch])
  {
    LiveTry(c, f, j, p);
  }

  /** So it writes what that search would, or fails as it does. */
  lemma TryAgrees(c: Ctx, f: Files, j: nat, p: Pc)
    requires CtxBase(c) && Known(c, j) && BaselinesKept(c, f) && CanTry(f, p, c.jobs[j].s) && TryingOk(c, f, j, p)
    ensures var (r, after) := TryOnce(c, f, j, p);
      && (forall x: Path :: !SpillOf(x, c.jobs[j].s.digest) ==> SameAt(after, f, x))
      && (if r.Weighing? then WeighingOk(c, after, j, r)
          else r == Ready(Target(c.jobs[j].s.digest), FullEntry(c.jobs[j].s)) && ScanTo(CanonSearch(c, j, p), p.n + 1).failed)
  {
    TryIs(c, f, j, p);
    TryFrame(c, f, j, p);
    var q := CanonSearch(c, j, p);
    if q.attempts[p.n].Made? {
      WrittenAfter(q, f, p, q.attempts[p.n].patch);
      SearchGoesOn(c, f, TryOnce(c, f, j, p).1, j, p, TryOnce(c, f, j, p).0);
    } else {
      NotMadeFails(q, p.n);
    }
  }

  lemma TryFrame(c: Ctx, f: Files, j: nat, p: Pc)
    requires Known(c, j) && CanTry(f, p, c.jobs[j].s)
    ensures forall x: Path :: !SpillOf(x, c.jobs[j].s.digest) ==> SameAt(TryOnce(c, f, j, p).1, f, x)
  {
  }

  lemma NotMadeFails(q: Search, n: nat)
    requires Planner.Shaped(q) && n < |q.names| && !q.attempts[n].Made?
    ensures ScanTo(q, n + 1).failed
  {
  }

  lemma WrittenAfter(q: Search, f: Files, p: Pc, patch: Bytes)
    requires Planner.Shaped(q) && p.Trying? && p.n < |q.names| && ScanSoFar(q, f, p) && q.attempts[p.n] == Made(patch)
    ensures WrittenSoFar(q, f[q.names[p.n] := patch], Weighing(p.cands, p.full, p.n, p.best, p.size, |patch|))
  {
  }

  /** The search stays the same one as long as the target stays. */
  lemma SearchGoesOn(c: Ctx, f: Files, g: Files, j: nat, p: Pc, r: Pc)
    requires Known(c, j) && Searching(p) && Searching(r) && SearchOk(c, f, j, p)
    requires r.cands == p.cands && r.full == p.full && r.n <= |r.cands| && SameAt(g, f, Target(c.jobs[j].s.digest))
    ensures SearchOk(c, g, j, r) && CanonSearch(c, j, r) == CanonSearch(c, j, p)
  {
  }

  /** Weighing it against the running best removes what the search alone would. */
  lemma WeighAgrees(c: Ctx, f: Files, j: nat, p: Pc)
    requires Known(c, j) && CanWeigh(p) && WeighingOk(c, f, j, p)
    ensures var (r, after) := WeighOnce(f, c.jobs[j].s, p);
      && (forall x: Path :: !SpillOf(x, c.jobs[j].s.digest) ==> SameAt(after, f, x))
      && TryingOk(c, after, j, r)
  {
    var q, s := CanonSearch(c, j, p), c.jobs[j].s;
    var (r, after) := WeighOnce(f, s, p);
    WeighFrame(f, s, p);
    WeighScan(q, f, s, p);
    SearchGoesOn(c, f, after, j, p, r);
  }

  lemma WeighFrame(f: Files, s: BlobRef, p: Pc)
    requires CanWeigh(p)
    ensures forall x: Path :: !SpillOf(x, s.digest) ==> SameAt(WeighOnce(f, s, p).1, f, x)
  {
  }

  lemma WeighScan(q: Search, f: Files, s: BlobRef, p: Pc)
    requires Planner.Shaped(q) && CanWeigh(p) && |q.names| == |p.cands| && q.full == p.full && q.raw == s.size
    requires forall i :: 0 <= i < |q.names| ==> q.names[i] == SpillName(s.digest, p.cands[i].digest)
    requires WrittenSoFar(q, f, p)
    ensures var (r, after) := WeighOnce(f, s, p); ScanSoFar(q, after, r)
  {
    LiveStep(q, p.n, f, q.attempts[p.n].patch);
  }

  /** What the finished or failed search says about the plan. */
  lemma SearchIsPlan(c: Ctx, f: Files, j: nat, p: Pc)
    requires Known(c, j) && p.Trying? && SearchOk(c, f, j, p)
    ensures PlanOf(c, j) == (SearchOutcome(c.jobs[j].s, Target(c.jobs[j].s.digest), p.cands, CanonSearch(c, j, p)), ScanTo(CanonSearch(c, j, p), |p.cands|).files)
  {
  }

  lemma FailedSearch(c: Ctx, f: Files, j: nat, p: Pc)
    requires Known(c, j) && p.Trying? && SearchOk(c, f, j, p) && p.n < |p.cands| && ScanTo(CanonSearch(c, j, p), p.n + 1).failed
    ensures TakesFull(c, j)
  {
    SearchIsPlan(c, f, j, p);
    ScanEndsAt(CanonSearch(c, j, p), p.n + 1);
  }

  lemma TryStep(c: Ctx, s: State, i: nat)
    requires CtxBase(c) && Local(c, s, i) && Enabled(c, s, TryNext(i))
    ensures BodyResult(c, s, Next(c, s, TryNext(i)), i)
  {
    var j := s.jobOf[i];
    var t := Next(c, s, TryNext(i));
    TryAgrees(c, s.files, j, s.pcs[i]);
    if t.pcs[i].Ready? {
      FailedSearch(c, s.files, j, s.pcs[i]);
      assert PayloadOk(c, t, j, t.pcs[i].payload, t.pcs[i].entry);
    }
    BodyMoves(c, s, t, i);
  }

  lemma WeighStep(c: Ctx, s: State, i: nat)
    requires Local(c, s, i) && Enabled(c, s, Weigh(i))
    ensures BodyResult(c, s, Next(c, s, Weigh(i)), i)
  {
    WeighAgrees(c, s.files, s.jobOf[i], s.pcs[i]);
    BodyMoves(c, s, Next(c, s, Weigh(i)), i);
  }

  lemma SettleAgrees(c: Ctx, f: Files, j: nat, p: Pc)
    requires Known(c, j) && CanSettle(p) && TryingOk(c, f, j, p)
    ensures var r := Settled(c.jobs[j].s, p);
      && r.entry == CanonEntry(c, j) && r.payload == CanonPayload(c, j)
      && (r.payload in f ==> f[r.payload] == CanonBytes(c, j)) && (Kept(c, j) <==> r.payload in f)
  {
    var q := CanonSearch(c, j, p);
    var s := c.jobs[j].s;
    SearchIsPlan(c, f, j, p);
    forall x | x in q.names ensures x != Target(s.digest) { SearchNames(c, j, p, x); }
    ScanFrame(q, p.n, Target(s.digest));
  }

  lemma SettleStep(c: Ctx, s: State, i: nat)
    requires Local(c, s, i) && Enabled(c, s, Settle(i))
    ensures BodyResult(c, s, Next(c, s, Settle(i)), i)
  {
    var j := s.jobOf[i];
    var t := Next(c, s, Settle(i));
    SettleAgrees(c, s.files, j, s.pcs[i]);
    assert PayloadOk(c, t, j, t.pcs[i].payload, t.pcs[i].entry);
  }

  /** An error while planning: the spooled target is shipped in full, whatever spills are left. */
  lemma SlipStep(c: Ctx, s: State, i: nat, left: Files)
    requires Local(c, s, i) && Enabled(c, s, PlanSlips(i, left))
    ensures BodyResult(c, s, Next(c, s, PlanSlips(i, left)), i)
  {
    var d := s.pool.tasks[i].key;
    var p := Ready(Target(d), FullEntry(c.jobs[s.jobOf[i]].s));
    SlipTo(c, s, s.(files := WithSpills(s.files, d, left), pcs := s.pcs[i := p], slipped := s.slipped + {d}), i, left);
  }

  lemma SlipTo(c: Ctx, s: State, t: State, i: nat, left: Files)
    requires Local(c, s, i) && RunningAt(s, i) && CanSlip(c, s.pcs[i], s.pool.tasks[i].key, left)
    requires var d := s.pool.tasks[i].key;
      t == s.(files := WithSpills(s.files, d, left), pcs := s.pcs[i := Ready(Target(d), FullEntry(c.jobs[s.jobOf[i]].s))],
              slipped := s.slipped + {d})
    ensures BodyResult(c, s, t, i)
  {
    var d := s.pool.tasks[i].key;
    SpillsAside(s.files, d, left);
    assert SameAt(t.files, s.files, Target(d));
    SlippedPays(c, t, s.jobOf[i]);
    BodyMoves(c, s, t, i);
  }

  lemma SpillsAside(f: Files, d: Digest, left: Files)
    requires forall q :: q in left ==> SpillOf(q, d)
    ensures forall q :: !SpillOf(q, d) ==> SameAt(WithSpills(f, d, left), f, q)
  {
  }

  lemma SlippedPays(c: Ctx, t: State, j: nat)
    requires Known(c, j)
    requires var d := c.jobs[j].s.digest; d in t.slipped && Target(d) in t.files && t.files[Target(d)] == c.content[d]
    ensures PayloadOk(c, t, j, Target(c.jobs[j].s.digest), FullEntry(c.jobs[j].s))
  {
  }

  /** The digest is there already: the payload goes, the entry stays. */
  lemma CheckFound(c: Ctx, s: State, i: nat)
    requires Local(c, s, i) && Enabled(c, s, Check(i)) && s.pool.tasks[i].key in s.entries
    ensures BodyResult(c, s, Next(c, s, Check(i)), i)
  {
    var t := Next(c, s, Check(i));
    assert t.entries == s.entries && t.files == s.files - {s.pcs[i].payload} && t.pcs == s.pcs[i := Registered];
    assert BlobPath(s.pool.tasks[i].key) in t.files;
  }

  lemma CheckAbsent(c: Ctx, s: State, i: nat)
    requires Local(c, s, i) && Enabled(c, s, Check(i)) && s.pool.tasks[i].key !in s.entries
    ensures BodyResult(c, s, Next(c, s, Check(i)), i)
  {
    var t := Next(c, s, Check(i));
    assert t.entries == s.entries && t.files == s.files && t.pcs == s.pcs[i := Checked(s.pcs[i].payload, s.pcs[i].entry)];
    assert PayloadOk(c, t, s.jobOf[i], s.pcs[i].payload, s.pcs[i].entry);
  }

  lemma CheckStep(c: Ctx, s: State, i: nat)
    requires Local(c, s, i) && Enabled(c, s, Check(i))
    ensures BodyResult(c, s, Next(c, s, Check(i)), i)
  {
    if s.pool.tasks[i].key in s.entries { CheckFound(c, s, i); } else { CheckAbsent(c, s, i); }
  }

  lemma AdoptStep(c: Ctx, s: State, i: nat)
    requires Local(c, s, i) && Enabled(c, s, Adopt(i))
    ensures BodyResult(c, s, Next(c, s, Adopt(i)), i)
  {
    var t, src, d := Next(c, s, Adopt(i)), s.pcs[i].payload, s.pool.tasks[i].key;
    assert t.entries == s.entries && t.pcs == s.pcs[i := Adopted(s.pcs[i].entry)];
    assert t.files == (s.files - {src})[BlobPath(d) := s.files[src]];
  }

  lemma RegisterStep(c: Ctx, s: State, i: nat)
    requires Local(c, s, i) && Enabled(c, s, Register(i))
    ensures BodyResult(c, s, Next(c, s, Register(i)), i)
  {
    var t, j, d := Next(c, s, Register(i)), s.jobOf[i], s.pool.tasks[i].key;
    assert Known(c, j) && c.jobs[j].s.digest == d && Yields(c, t.slipped, j, t.entries[d], t.files[BlobPath(d)]);
  }

  lemma CleanupStep(c: Ctx, s: State, i: nat)
    requires Local(c, s, i) && Enabled(c, s, Cleanup(i))
    ensures BodyResult(c, s, Next(c, s, Cleanup(i)), i)
  {
  }

  predicate Plans(a: Action) { a.Decide? || a.TryNext? || a.Weigh? || a.Settle? || a.PlanSlips? }

  lemma PlanningStep(c: Ctx, s: State, a: Action)
    requires CtxBase(c) && Enabled(c, s, a) && Plans(a) && Local(c, s, a.i)
    ensures BodyResult(c, s, Next(c, s, a), a.i)
  {
    match a
    case Decide(i) => DecideStep(c, s, i);
    case TryNext(i) => TryStep(c, s, i);
    case Weigh(i) => WeighStep(c, s, i);
    case Settle(i) => SettleStep(c, s, i);
    case PlanSlips(i, left) => SlipStep(c, s, i, left);
  }

  lemma BodyStep(c: Ctx, s: State, a: Action)
    requires CtxBase(c) && Inv(c, s) && Enabled(c, s, a) && IsBody(a)
    ensures BodyResult(c, s, Next(c, s, a), a.i)
  {
    assert EncodeOk(c, s, a.i);
    assert Local(c, s, a.i);
    if Plans(a) { PlanningStep(c, s, a); } else { FilingStep(c, s, a); }
  }

  lemma FilingStep(c: Ctx, s: State, a: Action)
    requires Enabled(c, s, a) && IsBody(a) && !Plans(a) && Local(c, s, a.i)
    ensures BodyResult(c, s, Next(c, s, a), a.i)
  {
    match a
    case Spool(i) => SpoolStep(c, s, i);
    case Check(i) => CheckStep(c, s, i);
    case Adopt(i) => AdoptStep(c, s, i);
    case Register(i) => RegisterStep(c, s, i);
    case Cleanup(i) => CleanupStep(c, s, i);
  }

  /** No other encode notices. */
  lemma BodyFrames(c: Ctx, s: State, t: State, i: nat)
    requires CtxBase(c) && Inv(c, s) && RunningAt(s, i) && BodyResult(c, s, t, i)
    ensures Canonical(s.pool.tasks[i].key) && forall j :: 0 <= j < |t.pool.tasks| ==> EncodeOk(c, t, j)
  {
    var d := s.pool.tasks[i].key;
    assert EncodeOk(c, s, i) && Canonical(d);
    forall j | 0 <= j < |t.pool.tasks| ensures EncodeOk(c, t, j) {
      assert EncodeOk(c, s, j);
      if j != i {
        A.RunningKeysDiffer(s.pool, i, j);
        EncodeFrame(c, s, t, j, d);
      }
    }
  }

  lemma InvBody(c: Ctx, s: State, t: State, i: nat)
    requires CtxBase(c) && Inv(c, s) && RunningAt(s, i) && BodyResult(c, s, t, i)
    ensures Inv(c, t)
  {
    var d := s.pool.tasks[i].key;
    BodyFrames(c, s, t, i);
    forall x | x in t.entries ensures EntryCanon(c, t, x) {
      if x != d { EntryFrame(c, s, t, x, d); }
    }
    forall n | 0 <= n < t.cursor ensures Covered(c, t, n) { assert Covered(c, s, n); }
  }

  // ---- The scheduler's steps ----

  lemma TaskMove(c: Ctx, s: State, x: A.Action, j: nat)
    requires |s.pcs| == |s.jobOf| == |s.pool.tasks| && j < |s.pool.tasks| && EncodeOk(c, s, j)
    requires A.Enabled(s.pool, x) && A.TaskStep(x)
    requires x.Finish? && x.out.Succeeded? ==> s.pool.tasks[x.i].key in s.entries
    ensures var t := s.(pool := A.Next(s.pool, x)); |t.pool.tasks| == |s.pool.tasks| && EncodeOk(c, t, j)
  {
    A.MoveShape(s.pool, x);
    A.PhaseFlow(s.pool, x);
    var p := A.Next(s.pool, x);
    TaskChange(c, s, p, x.i, j);
  }

  /** An encode's condition reads only its task's key, ran flag and broad phase. */
  lemma TaskChange(c: Ctx, s: State, p: A.Pool, i: nat, j: nat)
    requires |s.pcs| == |s.jobOf| == |s.pool.tasks| && i < |s.pool.tasks| && j < |s.pool.tasks| && EncodeOk(c, s, j)
    requires A.Moved(s.pool, p, i)
    requires var a := s.pool.tasks[i].phase; var b := p.tasks[i].phase;
      (b.Running? || A.Before(b) ==> A.Before(a))
    requires p.tasks[i].ran == Some(A.Succeeded) ==> s.pool.tasks[i].ran == Some(A.Succeeded) || s.pool.tasks[i].key in s.entries
    ensures EncodeOk(c, s.(pool := p), j)
  {
    if j != i { assert p.tasks[j] == s.pool.tasks[j]; }
  }

  lemma TasksMove(c: Ctx, s: State, x: A.Action)
    requires |s.pcs| == |s.jobOf| == |s.pool.tasks| && forall j :: 0 <= j < |s.pool.tasks| ==> EncodeOk(c, s, j)
    requires A.Enabled(s.pool, x) && A.TaskStep(x)
    requires x.Finish? && x.out.Succeeded? ==> s.pool.tasks[x.i].key in s.entries
    ensures var p := A.Next(s.pool, x);
      |p.tasks| == |s.pool.tasks| && forall j :: 0 <= j < |p.tasks| ==> EncodeOk(c, s.(pool := p), j)
  {
    A.MoveShape(s.pool, x);
    forall j | 0 <= j < |s.pool.tasks| ensures EncodeOk(c, s.(pool := A.Next(s.pool, x)), j) { TaskMove(c, s, x, j); }
  }

  lemma SchedulerStep(c: Ctx, s: State, x: A.Action)
    requires CtxBase(c) && Inv(c, s) && A.Enabled(s.pool, x) && A.TaskStep(x)
    requires x.Finish? && x.out.Succeeded? ==> s.pool.tasks[x.i].key in s.entries
    ensures Inv(c, s.(pool := A.Next(s.pool, x)))
  {
    A.InvStep(s.pool, x);
    A.MoveShape(s.pool, x);
    TasksMove(c, s, x);
    PoolMoves(c, s, A.Next(s.pool, x));
  }

  /** Moving the pool alone keeps everything that does not mention phases. */
  lemma PoolMoves(c: Ctx, s: State, p: A.Pool)
    requires Inv(c, s) && A.Inv(p) && |p.tasks| == |s.pool.tasks|
    requires forall i :: 0 <= i < |p.tasks| ==> p.tasks[i].key == s.pool.tasks[i].key
    requires forall j :: 0 <= j < |p.tasks| ==> EncodeOk(c, s.(pool := p), j)
    ensures Inv(c, s.(pool := p))
  {
    var t := s.(pool := p);
    forall d | d in t.entries ensures EntryCanon(c, t, d) { assert EntryCanon(c, s, d); }
    forall n | 0 <= n < t.cursor ensures Covered(c, t, n) { assert Covered(c, s, n); }
  }

  lemma SameEntries(c: Ctx, s: State, t: State)
    requires t.entries == s.entries && t.files == s.files && t.slipped == s.slipped
    requires forall d :: d in s.entries ==> EntryCanon(c, s, d)
    ensures forall d :: d in t.entries ==> EntryCanon(c, t, d)
  {
    forall d | d in t.entries ensures EntryCanon(c, t, d) { assert EntryCanon(c, s, d); }
  }

  /** An encode whose task, program counter and world are unchanged is unaffected by a later cursor. */
  lemma EncodeSame(c: Ctx, s: State, t: State, j: nat)
    requires j < |s.pool.tasks| && j < |s.pcs| && j < |s.jobOf| && EncodeOk(c, s, j)
    requires j < |t.pool.tasks| && j < |t.pcs| && j < |t.jobOf|
    requires t.pool.tasks[j] == s.pool.tasks[j] && t.pcs[j] == s.pcs[j] && t.jobOf[j] == s.jobOf[j]
    requires t.files == s.files && t.entries == s.entries && s.cursor <= t.cursor && t.slipped == s.slipped
    ensures EncodeOk(c, t, j)
  {
  }

  lemma SubmitEncodes(c: Ctx, s: State)
    requires CtxBase(c) && Inv(c, s) && Enabled(c, s, SubmitNext)
    ensures var t := Next(c, s, SubmitNext);
      |t.pcs| == |t.jobOf| == |t.pool.tasks| && forall j :: 0 <= j < |t.pool.tasks| ==> EncodeOk(c, t, j)
  {
    var t := Next(c, s, SubmitNext);
    SubmitShape(c, s);
    forall j | 0 <= j < |t.pool.tasks| ensures EncodeOk(c, t, j) {
      if j < |s.pool.tasks| {
        assert EncodeOk(c, s, j);
        EncodeSame(c, s, t, j);
      } else {
        FreshEncode(c, s, j);
      }
    }
  }

  lemma SubmitShape(c: Ctx, s: State)
    requires Inv(c, s) && Enabled(c, s, SubmitNext)
    ensures var t := Next(c, s, SubmitNext); var n := |s.pool.tasks|;
      && t.files == s.files && t.entries == s.entries && t.slipped == s.slipped && s.cursor < t.cursor
      && |t.pcs| == |t.jobOf| == |t.pool.tasks| && n <= |t.pool.tasks| <= n + 1
      && forall j :: 0 <= j < n ==> t.pool.tasks[j] == s.pool.tasks[j] && t.pcs[j] == s.pcs[j] && t.jobOf[j] == s.jobOf[j]
  {
  }

  lemma FreshEncode(c: Ctx, s: State, j: nat)
    requires CtxBase(c) && Inv(c, s) && Enabled(c, s, SubmitNext) && j == |s.pool.tasks| < |Next(c, s, SubmitNext).pool.tasks|
    ensures var t := Next(c, s, SubmitNext); j < |t.pcs| && j < |t.jobOf| && EncodeOk(c, t, j)
  {
    var t := Next(c, s, SubmitNext);
    assert t.pcs[j].Start? && t.jobOf[j] == s.cursor && t.pool.tasks[j].phase.Spawned? && t.pool.tasks[j].ran.None?;
  }

  lemma SubmitCovers(c: Ctx, s: State)
    requires Inv(c, s) && Enabled(c, s, SubmitNext)
    ensures var t := Next(c, s, SubmitNext); forall n :: 0 <= n < t.cursor ==> Covered(c, t, n)
  {
    SubmitShape(c, s);
    SubmittedCovered(c, s);
    CoveredNext(c, s, Next(c, s, SubmitNext));
  }

  lemma CoveredNext(c: Ctx, s: State, t: State)
    requires s.cursor < |c.jobs| && t.cursor == s.cursor + 1 && t.entries == s.entries && |s.pool.tasks| <= |t.pool.tasks|
    requires forall i :: 0 <= i < |s.pool.tasks| ==> t.pool.tasks[i] == s.pool.tasks[i]
    requires Covered(c, t, s.cursor) && forall n :: 0 <= n < s.cursor ==> Covered(c, s, n)
    ensures forall n :: 0 <= n < t.cursor ==> Covered(c, t, n)
  {
    forall n | 0 <= n < t.cursor ensures Covered(c, t, n) {
      if n < s.cursor { CoveredStays(c, s, t, n); }
    }
  }

  lemma SubmittedCovered(c: Ctx, s: State)
    requires Enabled(c, s, SubmitNext)
    ensures Next(c, s, SubmitNext).cursor == s.cursor + 1 && Covered(c, Next(c, s, SubmitNext), s.cursor)
  {
    var t := Next(c, s, SubmitNext);
    if c.jobs[s.cursor].s.digest !in s.entries { assert t.pool.tasks[|s.pool.tasks|].key == c.jobs[s.cursor].s.digest; }
  }

  lemma CoveredStays(c: Ctx, s: State, t: State, n: nat)
    requires n < |c.jobs| && Covered(c, s, n) && t.entries == s.entries && |s.pool.tasks| <= |t.pool.tasks|
    requires forall i :: 0 <= i < |s.pool.tasks| ==> t.pool.tasks[i] == s.pool.tasks[i]
    ensures Covered(c, t, n)
  {
    if i :| 0 <= i < |s.pool.tasks| && s.pool.tasks[i].key == c.jobs[n].s.digest {
      assert t.pool.tasks[i].key == c.jobs[n].s.digest;
    }
  }

  lemma SubmitStep(c: Ctx, s: State)
    requires CtxBase(c) && Inv(c, s) && Enabled(c, s, SubmitNext)
    ensures Inv(c, Next(c, s, SubmitNext))
  {
    var r := c.jobs[s.cursor].s;
    if r.digest !in s.entries { A.InvStep(s.pool, A.Action.Submit(r.digest, Budget.LayerEstimate(c.windowLog, r.size))); }
    SubmitEncodes(c, s);
    SameEntries(c, s, Next(c, s, SubmitNext));
    SubmitCovers(c, s);
  }

  lemma CancelStep(c: Ctx, s: State, x: A.Action)
    requires Inv(c, s) && x.Cancel? && A.Enabled(s.pool, x)
    ensures Inv(c, s.(pool := A.Next(s.pool, x)))
  {
    A.InvStep(s.pool, x);
    var p := A.Next(s.pool, x);
    forall j | 0 <= j < |p.tasks| ensures EncodeOk(c, s.(pool := p), j) { EncodeSame(c, s, s.(pool := p), j); }
    PoolMoves(c, s, p);
  }

  lemma ReturnStep(c: Ctx, s: State, i: nat)
    requires CtxBase(c) && Inv(c, s) && Enabled(c, s, Return(i))
    ensures Inv(c, Next(c, s, Return(i)))
  {
    assert EncodeOk(c, s, i);
    SchedulerStep(c, s, A.Finish(i, A.Succeeded));
  }

  lemma BodyKeepsInv(c: Ctx, s: State, a: Action)
    requires CtxBase(c) && Inv(c, s) && Enabled(c, s, a) && IsBody(a)
    ensures Inv(c, Next(c, s, a))
  {
    BodyStep(c, s, a);
    InvBody(c, s, Next(c, s, a), a.i);
  }

  lemma InvStep(c: Ctx, s: State, a: Action)
    requires CtxBase(c) && Inv(c, s) && Enabled(c, s, a)
    ensures Inv(c, Next(c, s, a))
  {
    match a
    case SubmitNext => SubmitStep(c, s);
    case Sched(x) =>
      if x.Cancel? { CancelStep(c, s, x); } else { SchedulerStep(c, s, x); }
    case Return(i) => ReturnStep(c, s, i);
    case Fail(i, out) => SchedulerStep(c, s, A.Finish(i, out));
    case _ => BodyKeepsInv(c, s, a);
  }

  lemma {:induction false} InvRuns(c: Ctx, s: State, run: seq<Action>, t: State)
    requires CtxBase(c) && Inv(c, s) && Runs(c, s, run, t)
    ensures Inv(c, t)
    decreases |run|
  {
    if |run| > 0 {
      InvStep(c, s, run[0]);
      InvRuns(c, Next(c, s, run[0]), run[1..], t);
    }
  }

  // ---- Confluence ----

  /** The phase is over and Wait returned nil. */
  predicate Complete(c: Ctx, s: State) {
    s.cursor == |c.jobs| && A.AllDone(s.pool) && s.pool.firstErr.None?
  }

  /** No planning met an error outside the export's input. */
  predicate Steady(s: State) { s.slipped == {} }

  lemma SlipsOnly(c: Ctx, s: State, a: Action)
    requires Enabled(c, s, a)
    ensures s.slipped <= Next(c, s, a).slipped
    ensures if a.PlanSlips? then Next(c, s, a).slipped != {} else Next(c, s, a).slipped == s.slipped
  {
    if a.PlanSlips? { assert c.jobs[s.jobOf[a.i]].s.digest in Next(c, s, a).slipped; }
  }

  /** A state is steady exactly when its run took no such step. */
  lemma {:induction false} SteadyRuns(c: Ctx, s: State, run: seq<Action>, t: State)
    requires Runs(c, s, run, t)
    ensures s.slipped <= t.slipped
    ensures Steady(t) <==> Steady(s) && forall k :: 0 <= k < |run| ==> !run[k].PlanSlips?
    decreases |run|
  {
    if |run| > 0 {
      SlipsOnly(c, s, run[0]);
      SteadyRuns(c, Next(c, s, run[0]), run[1..], t);
      assert forall k :: 0 <= k < |run| ==> run[k] == if k == 0 then run[0] else run[1..][k - 1];
      if forall k :: 0 <= k < |run| ==> !run[k].PlanSlips? {
        assert forall k :: 0 <= k < |run[1..]| ==> run[1..][k] == run[k + 1];
      }
    }
  }

  ghost predicate Reached(c: Ctx, workers: int, budget: int, s: State) {
    exists run :: Runs(c, Init(c, workers, budget), run, s)
  }

  function Shipped(jobs: seq<Job>): set<Digest> {
    set j | 0 <= j < |jobs| :: jobs[j].s.digest
  }

  /** The reference result: for every digest of the bundle its sidecar entry and its bytes. */
  type Result = map<Digest, (BlobEntry, Bytes)>

  /** The first tuple of d in submission order. */
  function FirstJob(jobs: seq<Job>, d: Digest): (j: nat)
    requires d in Shipped(jobs)
    ensures j < |jobs| && jobs[j].s.digest == d && forall k :: 0 <= k < j ==> jobs[k].s.digest != d
  {
    var front := jobs[..|jobs| - 1];
    assert forall k :: 0 <= k < |front| ==> front[k] == jobs[k];
    if d in Shipped(front) then FirstJob(front, d) else
      assert forall k :: 0 <= k < |front| ==> front[k].s.digest in Shipped(front);
      |jobs| - 1
  }

  /** No listable entry stands for a tuple whose payload is lost. */
  ghost function CanonOf(c: Ctx, j: nat): (BlobEntry, Bytes) {
    if Known(c, j) && Kept(c, j) then (CanonEntry(c, j), CanonBytes(c, j)) else (BlobEntry(0, "", Unset, "", "", 0), [])
  }

  /** Seeds as they were seeded, every other shipped digest as its first tuple alone determines. */
  ghost function Reference(c: Ctx): Result {
    map d | d in c.seeds.Keys + Shipped(c.jobs) ::
      if d in c.seeds then (c.seeds[d], if BlobPath(d) in c.base then c.base[BlobPath(d)] else []) else CanonOf(c, FirstJob(c.jobs, d))
  }

  ghost predicate Holds(r: Result, entries: map<Digest, BlobEntry>, files: Files, d: Digest) {
    d in r && d in entries && entries[d] == r[d].0 && BlobPath(d) in files && files[BlobPath(d)] == r[d].1
  }

  /** The pool is exactly r: its digests, their entries and their bytes. */
  ghost predicate HoldsAll(r: Result, entries: map<Digest, BlobEntry>, files: Files) {
    entries.Keys == r.Keys && forall d :: d in r ==> Holds(r, entries, files, d)
  }

  /** There is only one pool that is r. */
  lemma OnePool(r: Result, entries: map<Digest, BlobEntry>, files: Files, entries': map<Digest, BlobEntry>, files': Files)
    requires HoldsAll(r, entries, files) && HoldsAll(r, entries', files')
    ensures entries == entries'
    ensures forall d :: d in entries ==> BlobPath(d) in files && BlobPath(d) in files' && files[BlobPath(d)] == files'[BlobPath(d)]
  {
    forall d | d in entries
      ensures d in entries' && entries[d] == entries'[d] && BlobPath(d) in files && BlobPath(d) in files' && files[BlobPath(d)] == files'[BlobPath(d)]
    {
      assert Holds(r, entries, files, d) && Holds(r, entries', files', d);
    }
  }

  lemma ReferenceAt(c: Ctx, j: nat)
    requires CtxOk(c) && j < |c.jobs| && c.jobs[j].s.digest !in c.seeds
    ensures c.jobs[j].s.digest in Reference(c) && Reference(c)[c.jobs[j].s.digest] == CanonOf(c, j)
    ensures Known(c, j) && (Kept(c, j) ==> CanonOf(c, j) == (CanonEntry(c, j), CanonBytes(c, j)))
  {
    var d := c.jobs[j].s.digest;
    assert d in Shipped(c.jobs);
    CanonIsPerDigest(c, FirstJob(c.jobs, d), j);
  }

  lemma ReachedInv(c: Ctx, workers: int, budget: int, s: State)
    requires CtxBase(c) && Reached(c, workers, budget, s)
    ensures Inv(c, s)
  {
    var run :| Runs(c, Init(c, workers, budget), run, s);
    InitInv(c, workers, budget);
    InvRuns(c, Init(c, workers, budget), run, s);
  }

  /** The finished pool of any schedule in which no planning slipped is the reference result. */
  lemma FinalPool(c: Ctx, workers: int, budget: int, s: State)
    requires CtxOk(c) && Reached(c, workers, budget, s) && Complete(c, s) && Steady(s)
    ensures HoldsAll(Reference(c), s.entries, s.files)
  {
    ReachedInv(c, workers, budget, s);
    FinalKeys(c, s);
    forall d | d in Reference(c) ensures Holds(Reference(c), s.entries, s.files, d) {
      FinalDigest(c, s, d);
    }
  }

  lemma FinalKeys(c: Ctx, s: State)
    requires Inv(c, s) && Complete(c, s)
    ensures s.entries.Keys == c.seeds.Keys + Shipped(c.jobs)
  {
    forall d | d in s.entries ensures d in c.seeds.Keys + Shipped(c.jobs) {
      assert EntryCanon(c, s, d);
    }
    forall j: nat | j < |c.jobs| ensures c.jobs[j].s.digest in s.entries { CompletedJob(c, s, j); }
  }

  lemma FinalDigest(c: Ctx, s: State, d: Digest)
    requires CtxOk(c) && Inv(c, s) && Steady(s) && d in s.entries && d in Reference(c)
    ensures Holds(Reference(c), s.entries, s.files, d)
  {
    assert EntryCanon(c, s, d);
    if d !in c.seeds {
      var k: nat :| Known(c, k) && c.jobs[k].s.digest == d && Yields(c, s.slipped, k, s.entries[d], s.files[BlobPath(d)]);
      ReferenceAt(c, k);
    }
  }

  /** An error-free export lost no payload, but where planning slipped and nothing was at stake. */
  lemma CompleteMeansKept(c: Ctx, workers: int, budget: int, s: State, j: nat)
    requires CtxBase(c) && Reached(c, workers, budget, s) && Complete(c, s) && Known(c, j) && c.jobs[j].s.digest !in c.seeds
    ensures Kept(c, j) || c.jobs[j].s.digest in s.slipped
  {
    ReachedInv(c, workers, budget, s);
    var d := c.jobs[j].s.digest;
    CompletedJob(c, s, j);
    assert EntryCanon(c, s, d);
    var k: nat :| Known(c, k) && c.jobs[k].s.digest == d && Yields(c, s.slipped, k, s.entries[d], s.files[BlobPath(d)]);
    KeptIsPerDigest(c, j, k);
  }

  lemma CompletedJob(c: Ctx, s: State, j: nat)
    requires Inv(c, s) && Complete(c, s) && j < |c.jobs|
    ensures c.jobs[j].s.digest in s.entries
  {
    assert Covered(c, s, j);
    if i :| 0 <= i < |s.pool.tasks| && s.pool.tasks[i].key == c.jobs[j].s.digest {
      A.WaitVerdict(s.pool);
      assert A.FlightSucceeded(s.pool, i);
      assert EncodeOk(c, s, s.pool.tasks[i].phase.flight);
    }
  }

  /**
   * Confluence: any two error-free exports of the same input, under any schedules, worker counts
   * and memory budgets, end with the same entries and the same bytes for every digest, unless in
   * one of them planning met an error from outside the input.
   */
  lemma Confluence(c: Ctx, w1: int, b1: int, s: State, w2: int, b2: int, t: State)
    requires CtxOk(c)
    requires Reached(c, w1, b1, s) && Complete(c, s) && Steady(s)
    requires Reached(c, w2, b2, t) && Complete(c, t) && Steady(t)
    ensures s.entries == t.entries
    ensures forall d :: d in s.entries ==>
      BlobPath(d) in s.files && BlobPath(d) in t.files && s.files[BlobPath(d)] == t.files[BlobPath(d)]
  {
    FinalPool(c, w1, b1, s);
    FinalPool(c, w2, b2, t);
    OnePool(Reference(c), s.entries, s.files, t.entries, t.files);
  }

  /** No payload of the export was lost. */
  ghost predicate NoneLost(c: Ctx) { forall j :: 0 <= j < |c.jobs| ==> PayloadSafe(c, j) }

  ghost predicate PayloadSafe(c: Ctx, j: nat) {
    Known(c, j) && c.jobs[j].s.digest !in c.seeds ==> Kept(c, j)
  }

  // ---- Memory ----

  /** What the fail-fast guard checks. */
  predicate AllFit(jobs: seq<Job>, windowLog: int, memBudget: int) {
    forall j :: 0 <= j < |jobs| ==> Budget.LayerEstimate(windowLog, jobs[j].s.size) <= memBudget
  }

  predicate RawsFit(p: A.Pool, budget: int) {
    p.budget == budget && forall i :: 0 <= i < |p.tasks| ==> p.tasks[i].raw <= budget
  }

  lemma RawsStep(c: Ctx, s: State, a: Action, budget: int)
    requires AllFit(c.jobs, c.windowLog, budget) && Enabled(c, s, a) && RawsFit(s.pool, budget)
    ensures RawsFit(Next(c, s, a).pool, budget)
  {
    match a
    case Sched(x) => if !x.Cancel? { A.MoveShape(s.pool, x); }
    case Return(i) => A.MoveShape(s.pool, A.Finish(i, A.Succeeded));
    case Fail(i, out) => A.MoveShape(s.pool, A.Finish(i, out));
    case _ =>
  }

  lemma {:induction false} RawsRuns(c: Ctx, s: State, run: seq<Action>, t: State, budget: int)
    requires AllFit(c.jobs, c.windowLog, budget) && Runs(c, s, run, t) && RawsFit(s.pool, budget)
    ensures RawsFit(t.pool, budget)
    decreases |run|
  {
    if |run| > 0 {
      RawsStep(c, s, run[0], budget);
      RawsRuns(c, Next(c, s, run[0]), run[1..], t, budget);
    }
  }

  /** Each task asks for its own layer's estimate. */
  predicate RawsAre(c: Ctx, s: State) {
    && |s.jobOf| == |s.pool.tasks|
    && forall i :: 0 <= i < |s.pool.tasks| ==> RawIs(c, s, i)
  }

  predicate RawIs(c: Ctx, s: State, i: nat)
    requires i < |s.pool.tasks| == |s.jobOf|
  {
    s.jobOf[i] < |c.jobs| && s.pool.tasks[i].raw == Budget.RssForWindowLog(Budget.ResolveWindowLog(c.windowLog, c.jobs[s.jobOf[i]].s.size))
  }

  lemma RawsAreStep(c: Ctx, s: State, a: Action)
    requires RawsAre(c, s) && Enabled(c, s, a)
    ensures RawsAre(c, Next(c, s, a))
  {
    var t := Next(c, s, a);
    match a
    case SubmitNext =>
      forall i | 0 <= i < |t.pool.tasks| ensures |t.jobOf| == |t.pool.tasks| && RawIs(c, t, i) {
        if i < |s.pool.tasks| { assert RawIs(c, s, i); }
      }
    case Sched(x) => if !x.Cancel? { A.MoveShape(s.pool, x); } RawsSame(c, s, t);
    case Return(i) => A.MoveShape(s.pool, A.Finish(i, A.Succeeded)); RawsSame(c, s, t);
    case Fail(i, out) => A.MoveShape(s.pool, A.Finish(i, out)); RawsSame(c, s, t);
    case _ => RawsSame(c, s, t);
  }

  lemma RawsSame(c: Ctx, s: State, t: State)
    requires RawsAre(c, s) && t.jobOf == s.jobOf && |t.pool.tasks| == |s.pool.tasks|
    requires forall i :: 0 <= i < |s.pool.tasks| ==> t.pool.tasks[i].raw == s.pool.tasks[i].raw
    ensures RawsAre(c, t)
  {
    forall i | 0 <= i < |t.pool.tasks| ensures RawIs(c, t, i) { assert RawIs(c, s, i); }
  }

  lemma {:induction false} RawsAreRuns(c: Ctx, s: State, run: seq<Action>, t: State)
    requires RawsAre(c, s) && Runs(c, s, run, t)
    ensures RawsAre(c, t)
    decreases |run|
  {
    if |run| > 0 {
      RawsAreStep(c, s, run[0]);
      RawsAreRuns(c, Next(c, s, run[0]), run[1..], t);
    }
  }

  /** Once the guard has passed, at every point of every export the running layers' true estimates fit the budget. */
  lemma ExportWithinBudget(c: Ctx, workers: int, budget: int, run: seq<Action>, s: State)
    requires CtxBase(c) && budget > 0 && AllFit(c.jobs, c.windowLog, budget)
    requires Runs(c, Init(c, workers, budget), run, s)
    ensures Total(s.pool.tasks, A.RunningRaw()) <= budget && RawsAre(c, s)
  {
    InitInv(c, workers, budget);
    InvRuns(c, Init(c, workers, budget), run, s);
    RawsAreRuns(c, Init(c, workers, budget), run, s);
    RawsRuns(c, Init(c, workers, budget), run, s, budget);
    forall i | 0 <= i < |s.pool.tasks| ensures A.RunningRaw()(s.pool.tasks[i]) <= A.RunningEst()(s.pool.tasks[i]) {
      assert A.TaskOk(s.pool, i);
    }
    TotalMonotone(s.pool.tasks, A.RunningRaw(), A.RunningEst());
    A.RunningWithin(s.pool);
  }

  // ---- Every export whose payloads survive planning can finish ----

  predicate Benign(a: Action) {
    !a.Fail? && !a.PlanSlips? && (a.Sched? ==> !a.a.Cancel? && !a.a.Abandon?)
  }

  /** What a running encode does next when nothing fails. */
  function BodyAction(p: Pc, i: nat): Action {
    match p
    case Start => Spool(i)
    case Spooled => Decide(i)
    case Trying(cands, _, n, _, _) => if n < |cands| then TryNext(i) else Settle(i)
    case Weighing(_, _, _, _, _, _) => Weigh(i)
    case Ready(_, _) => Check(i)
    case Checked(_, _) => Adopt(i)
    case Adopted(_) => Register(i)
    case Registered => Cleanup(i)
    case Finished => Return(i)
  }

  /** It can always go on when its payload is not lost. */
  lemma BodyEnabled(c: Ctx, s: State, i: nat)
    requires i < |s.pool.tasks| && |s.pcs| == |s.jobOf| == |s.pool.tasks| && EncodeOk(c, s, i) && PayloadSafe(c, s.jobOf[i])
    requires s.pool.tasks[i].phase.Running?
    ensures Enabled(c, s, BodyAction(s.pcs[i], i)) && Benign(BodyAction(s.pcs[i], i))
  {
  }

  lemma ExportProgress(c: Ctx, s: State) returns (a: Action)
    requires CtxBase(c) && Inv(c, s) && NoneLost(c)
    requires s.cursor < |c.jobs| || !A.AllDone(s.pool)
    ensures Enabled(c, s, a) && Benign(a)
  {
    if s.cursor < |c.jobs| { return SubmitNext; }
    var x := A.Progress(s.pool);
    if !x.Finish? { return Sched(x); }
    var i := x.i;
    assert EncodeOk(c, s, i) && PayloadSafe(c, s.jobOf[i]);
    BodyEnabled(c, s, i);
    a := BodyAction(s.pcs[i], i);
  }

  /** No search has more candidates. */
  function Most(c: Ctx): nat { if c.k > 0 then c.k else 0 }

  function PcRank(most: nat): Pc -> int {
    (p: Pc) =>
      match p
      case Start => 2 * most + 7
      case Spooled => 2 * most + 6
      case Trying(cands, _, n, _, _) => if n < |cands| then 5 + 2 * (|cands| - n) else 5
      case Weighing(cands, _, n, _, _, _) => if n < |cands| then 4 + 2 * (|cands| - n) else 5
      case Ready(_, _) => 4
      case Checked(_, _) => 3
      case Adopted(_) => 2
      case Registered => 1
      case Finished => 0
  }

  function Rank(c: Ctx, s: State): int {
    (20 + 2 * Most(c)) * (|c.jobs| - s.cursor) + A.Rank(s.pool) + Total(s.pcs, PcRank(Most(c)))
  }

  lemma RankIsNat(c: Ctx, s: State)
    requires s.cursor <= |c.jobs|
    ensures Rank(c, s) >= 0
  {
    A.RankBounds(s.pool);
    TotalNonNegative(s.pcs, PcRank(Most(c)));
    assert (20 + 2 * Most(c)) * (|c.jobs| - s.cursor) >= 0;
  }

  lemma SubmitRank(c: Ctx, s: State)
    requires Enabled(c, s, SubmitNext)
    ensures Rank(c, Next(c, s, SubmitNext)) < Rank(c, s)
  {
    var r := c.jobs[s.cursor].s;
    var each := 20 + 2 * Most(c);
    assert each * (|c.jobs| - (s.cursor + 1)) == each * (|c.jobs| - s.cursor) - each;
    if r.digest !in s.entries {
      var p := A.Next(s.pool, A.Action.Submit(r.digest, Budget.LayerEstimate(c.windowLog, r.size)));
      TotalAppend(s.pcs, Start, PcRank(Most(c)));
      TotalAppend(s.pool.tasks, p.tasks[|s.pool.tasks|], A.PhaseRank());
      assert A.PhaseRank()(p.tasks[|s.pool.tasks|]) == 9;
    }
  }

  lemma StartRank(c: Ctx, f: Files, j: nat)
    requires Known(c, j)
    ensures PcRank(Most(c))(StartPlan(c, f, j)) < 2 * Most(c) + 6
  {
    var s := c.jobs[j].s;
    if Target(s.digest) in f && c.k > 0 {
      var e := c.envs[c.jobs[j].pair];
      TopKIsPrefix(e.baseline, e.prints, e.printer(s.mediaType, f[Target(s.digest)]), s.size, c.k, c.k);
    }
  }

  lemma PcLowers(c: Ctx, s: State, a: Action)
    requires Enabled(c, s, a) && IsBody(a)
    ensures var t := Next(c, s, a);
      |t.pcs| == |s.pcs| && t.pcs == s.pcs[a.i := t.pcs[a.i]] && PcRank(Most(c))(t.pcs[a.i]) < PcRank(Most(c))(s.pcs[a.i])
  {
    if Plans(a) { PlanLowers(c, s, a); }
  }

  lemma PlanLowers(c: Ctx, s: State, a: Action)
    requires Enabled(c, s, a) && Plans(a)
    ensures var t := Next(c, s, a);
      |t.pcs| == |s.pcs| && t.pcs == s.pcs[a.i := t.pcs[a.i]] && PcRank(Most(c))(t.pcs[a.i]) < PcRank(Most(c))(s.pcs[a.i])
  {
    if a.Decide? { StartRank(c, s.files, s.jobOf[a.i]); }
    else if a.TryNext? { TryRank(c, s.files, s.jobOf[a.i], s.pcs[a.i], Most(c)); }
    else if a.Weigh? { WeighRank(s.files, c.jobs[s.jobOf[a.i]].s, s.pcs[a.i], Most(c)); }
  }

  lemma TryRank(c: Ctx, f: Files, j: nat, p: Pc, most: nat)
    requires Known(c, j) && CanTry(f, p, c.jobs[j].s)
    ensures PcRank(most)(TryOnce(c, f, j, p).0) < PcRank(most)(p)
  {
  }

  lemma WeighRank(f: Files, s: BlobRef, p: Pc, most: nat)
    requires CanWeigh(p)
    ensures PcRank(most)(WeighOnce(f, s, p).0) < PcRank(most)(p)
  {
  }

  lemma BodyRank(c: Ctx, s: State, a: Action)
    requires Enabled(c, s, a) && IsBody(a)
    ensures Next(c, s, a).cursor == s.cursor && Next(c, s, a).pool == s.pool
    ensures Total(Next(c, s, a).pcs, PcRank(Most(c))) < Total(s.pcs, PcRank(Most(c)))
  {
    var t := Next(c, s, a);
    PcLowers(c, s, a);
    TotalUpdate(s.pcs, a.i, t.pcs[a.i], PcRank(Most(c)));
  }

  lemma RankDecreases(c: Ctx, s: State, a: Action)
    requires Enabled(c, s, a)
    ensures Rank(c, Next(c, s, a)) < Rank(c, s)
  {
    match a
    case SubmitNext => SubmitRank(c, s);
    case Sched(x) => A.RankDecreases(s.pool, x);
    case Return(i) => A.RankDecreases(s.pool, A.Finish(i, A.Succeeded));
    case Fail(i, out) => A.RankDecreases(s.pool, A.Finish(i, out));
    case _ => BodyRank(c, s, a);
  }

  lemma {:induction false} FinishRun(c: Ctx, s: State) returns (run: seq<Action>, t: State)
    requires CtxBase(c) && Inv(c, s) && NoneLost(c) && A.Clean(s.pool)
    ensures Runs(c, s, run, t) && Complete(c, t) && t.slipped == s.slipped
    decreases Rank(c, s)
  {
    RankIsNat(c, s);
    if s.cursor == |c.jobs| && A.AllDone(s.pool) {
      run, t := [], s;
      A.CleanHasNoError(s.pool);
    } else {
      var a := ExportProgress(c, s);
      InvStep(c, s, a);
      RankDecreases(c, s, a);
      SlipsOnly(c, s, a);
      assert A.Clean(Next(c, s, a).pool) by { CleanStep(c, s, a); }
      var rest, u := FinishRun(c, Next(c, s, a));
      run, t := [a] + rest, u;
      assert run[0] == a && run[1..] == rest;
    }
  }

  lemma CleanStep(c: Ctx, s: State, a: Action)
    requires Enabled(c, s, a) && (Benign(a) || a.PlanSlips?) && A.Clean(s.pool) && A.Inv(s.pool)
    ensures A.Clean(Next(c, s, a).pool)
  {
    match a
    case SubmitNext =>
      var r := c.jobs[s.cursor].s;
      if r.digest !in s.entries { A.CleanStep(s.pool, A.Action.Submit(r.digest, Budget.LayerEstimate(c.windowLog, r.size))); }
    case Sched(x) => A.CleanStep(s.pool, x);
    case Return(i) => A.CleanStep(s.pool, A.Finish(i, A.Succeeded));
    case _ =>
  }

  /** For every worker count and budget: some run in which no planning slips completes without error exactly when
      planning loses no payload. */
  lemma CompleteRunIff(c: Ctx, workers: int, budget: int)
    requires CtxBase(c)
    ensures (exists s :: Reached(c, workers, budget, s) && Complete(c, s) && Steady(s)) <==> NoneLost(c)
  {
    if NoneLost(c) {
      InitInv(c, workers, budget);
      var run, s := FinishRun(c, Init(c, workers, budget));
      assert Reached(c, workers, budget, s);
    }
    forall s, j | Reached(c, workers, budget, s) && Complete(c, s) && Steady(s) && 0 <= j < |c.jobs| ensures PayloadSafe(c, j) {
      if Known(c, j) && c.jobs[j].s.digest !in c.seeds { CompleteMeansKept(c, workers, budget, s, j); }
    }
  }
}
