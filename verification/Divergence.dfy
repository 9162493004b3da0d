/**
 * What confluence of the encode phase needs.  Of several tuples of one digest the first to reach
 * the pool writes the entry, and every one of them can be first; so exports agree exactly when
 * tuples of one digest carry one descriptor.
 */
module Divergence {
  import opened Common
  import opened Diff
  import opened Planner
  import opened BlobPool
  import opened Encode
  import A = Admission

  lemma RunsFrom(c: Ctx, s: State, a: Action, n: State, rest: seq<Action>, u: State)
    requires Enabled(c, s, a) && n == Next(c, s, a) && Runs(c, n, rest, u)
    ensures Runs(c, s, [a] + rest, u)
  {
    assert ([a] + rest)[0] == a && ([a] + rest)[1..] == rest;
  }

  lemma {:induction false} RunsAppend(c: Ctx, s: State, run: seq<Action>, t: State, more: seq<Action>, u: State)
    requires Runs(c, s, run, t) && Runs(c, t, more, u)
    ensures Runs(c, s, run + more, u)
    decreases |run|
  {
    if |run| == 0 {
      assert run + more == more;
    } else {
      var a, rest := run[0], run[1..];
      assert run + more == [a] + (rest + more);
      RunsAppend(c, Next(c, s, a), rest, t, more, u);
      RunsFrom(c, s, a, Next(c, s, a), rest + more, u);
    }
  }

  lemma OneStep(c: Ctx, s: State, a: Action)
    requires Enabled(c, s, a)
    ensures Runs(c, s, [a], Next(c, s, a))
  {
    RunsFrom(c, s, a, Next(c, s, a), [], Next(c, s, a));
    assert [a] + [] == [a];
  }

  // ---- Submitting, with no goroutine scheduled yet ----

  /** The first n tuples are submitted and nothing else has happened. */
  ghost predicate Quiet(c: Ctx, s: State, n: nat) {
    && Inv(c, s) && A.Clean(s.pool) && s.cursor == n && s.entries == c.seeds && Steady(s)
    && forall i :: 0 <= i < |s.pool.tasks| ==> s.pool.tasks[i].phase.Spawned?
  }

  /** The last task is tuple n's, if that was submitted. */
  ghost predicate LastIs(c: Ctx, s: State, n: nat) {
    n < |c.jobs| && c.jobs[n].s.digest !in c.seeds ==> 0 < |s.pool.tasks| == |s.jobOf| && s.jobOf[|s.jobOf| - 1] == n
  }

  lemma SubmitQuietly(c: Ctx, s: State, n: nat)
    requires CtxBase(c) && Quiet(c, s, n) && n < |c.jobs|
    ensures Enabled(c, s, SubmitNext) && Quiet(c, Next(c, s, SubmitNext), n + 1) && LastIs(c, Next(c, s, SubmitNext), n)
  {
    SubmitStep(c, s);
    CleanStep(c, s, SubmitNext);
  }

  lemma {:induction false} SubmitUpTo(c: Ctx, workers: int, budget: int, n: nat) returns (run: seq<Action>, s: State)
    requires CtxBase(c) && n < |c.jobs|
    ensures Runs(c, Init(c, workers, budget), run, s) && Quiet(c, s, n + 1) && LastIs(c, s, n)
    decreases n
  {
    var start := Init(c, workers, budget);
    var before;
    if n == 0 {
      InitInv(c, workers, budget);
      before, s := [], start;
    } else {
      before, s := SubmitUpTo(c, workers, budget, n - 1);
    }
    SubmitQuietly(c, s, n);
    OneStep(c, s, SubmitNext);
    RunsAppend(c, start, before, s, [SubmitNext], Next(c, s, SubmitNext));
    run, s := before + [SubmitNext], Next(c, s, SubmitNext);
  }

  // ---- One goroutine scheduled alone ----

  /** Task i alone has moved, and it has not reached the pool yet. */
  ghost predicate Solo(c: Ctx, s: State, i: nat) {
    && Inv(c, s) && A.Clean(s.pool) && s.entries == c.seeds && Steady(s) && i < |s.pool.tasks|
    && (forall j :: 0 <= j < |s.pool.tasks| && j != i ==> s.pool.tasks[j].phase.Spawned?)
    && !s.pool.tasks[i].phase.Joined? && (A.Before(s.pool.tasks[i].phase) || s.pool.tasks[i].phase.Running?)
  }

  /** Its tuple's entry is the registered one. */
  ghost predicate Wrote(c: Ctx, s: State, j: nat) {
    Known(c, j) && c.jobs[j].s.digest in s.entries && s.entries[c.jobs[j].s.digest] == CanonEntry(c, j)
  }

  /** Every encode has yet to start or is in the pool. */
  predicate Calm(s: State) { forall k :: 0 <= k < |s.pcs| ==> s.pcs[k].Start? || s.pcs[k].Registered? }

  /** Nobody else leads or holds anything. */
  lemma NobodyElse(p: A.Pool, i: nat)
    requires A.Inv(p) && i < |p.tasks| && forall j :: 0 <= j < |p.tasks| && j != i ==> p.tasks[j].phase.Spawned?
    ensures p.tasks[i].phase.Spawned? ==> p.tasks[i].key !in p.flights
    ensures p.tasks[i].phase.WantWorker? ==> A.Enabled(p, A.GrantWorker(i))
    ensures p.tasks[i].phase.WantMem? ==> A.Enabled(p, A.GrantMem(i))
  {
    A.FlightHasLeader(p, p.tasks[i].key);
    assert A.TaskOk(p, i);
    if p.tasks[i].phase.WantWorker? { TotalZero(p.tasks, A.WorkerWeight()); }
    if p.tasks[i].phase.WantMem? { TotalZero(p.tasks, A.MemWeight(p.budget)); }
  }

  function GateStep(p: A.Phase, i: nat): A.Action {
    if p.Spawned? then A.Enter(i)
    else if p.Leading? then A.QueueWorker(i)
    else if p.WantWorker? then A.GrantWorker(i)
    else if p.Permitted? then A.QueueMem(i)
    else A.GrantMem(i)
  }

  lemma GateMoves(p: A.Pool, i: nat)
    requires A.Inv(p) && i < |p.tasks| && forall j :: 0 <= j < |p.tasks| && j != i ==> p.tasks[j].phase.Spawned?
    requires A.Before(p.tasks[i].phase) && !p.tasks[i].phase.Joined?
    ensures var x := GateStep(p.tasks[i].phase, i); A.Enabled(p, x) && A.TaskStep(x) && SchedulerOnly(x)
    ensures var q := A.Next(p, GateStep(p.tasks[i].phase, i));
      && |q.tasks| == |p.tasks| && (forall j :: 0 <= j < |p.tasks| && j != i ==> q.tasks[j] == p.tasks[j])
      && !q.tasks[i].phase.Joined? && (A.Before(q.tasks[i].phase) || q.tasks[i].phase.Running?)
  {
    NobodyElse(p, i);
  }

  lemma SoloGate(c: Ctx, s: State, i: nat) returns (a: Action)
    requires CtxBase(c) && Solo(c, s, i) && A.Before(s.pool.tasks[i].phase)
    ensures Enabled(c, s, a) && Benign(a) && Solo(c, Next(c, s, a), i) && Next(c, s, a).jobOf == s.jobOf
  {
    GateMoves(s.pool, i);
    a := Sched(GateStep(s.pool.tasks[i].phase, i));
    InvStep(c, s, a);
    CleanStep(c, s, a);
  }

  lemma SoloEnabled(c: Ctx, s: State, i: nat)
    requires Solo(c, s, i) && s.pool.tasks[i].phase.Running? && PayloadSafe(c, s.jobOf[i])
    ensures RunningAt(s, i) && Known(c, s.jobOf[i]) && c.jobs[s.jobOf[i]].s.digest !in s.entries
    ensures Enabled(c, s, BodyAction(s.pcs[i], i))
    ensures s.pcs[i].Adopted? ==> s.pcs[i].entry == CanonEntry(c, s.jobOf[i])
    ensures !s.pcs[i].Registered? && !s.pcs[i].Finished?
  {
    assert EncodeOk(c, s, i);
    BodyEnabled(c, s, i);
  }

  lemma BodyEffect(c: Ctx, s: State, i: nat)
    requires RunningAt(s, i) && Known(c, s.jobOf[i]) && c.jobs[s.jobOf[i]].s.digest !in s.entries
    requires Enabled(c, s, BodyAction(s.pcs[i], i)) && !s.pcs[i].Registered? && !s.pcs[i].Finished?
    ensures var t := Next(c, s, BodyAction(s.pcs[i], i)); var d := c.jobs[s.jobOf[i]].s.digest;
      && |t.pcs| == |s.pcs| && t.pcs == s.pcs[i := t.pcs[i]] && (s.pcs[i].Adopted? ==> t.pcs[i].Registered?)
      && t.pool == s.pool && t.jobOf == s.jobOf && t.slipped == s.slipped
      && t.entries == if s.pcs[i].Adopted? then s.entries[d := s.pcs[i].entry] else s.entries
  {
  }

  lemma SoloAfter(c: Ctx, s: State, t: State, i: nat, j: nat)
    requires Solo(c, s, i) && t.pool == s.pool && t.slipped == s.slipped && Known(c, j)
    requires i < |s.pcs| == |t.pcs| && t.pcs == s.pcs[i := t.pcs[i]]
    requires t.entries == s.entries || (t.entries == s.entries[c.jobs[j].s.digest := CanonEntry(c, j)] && t.pcs[i].Registered?)
    ensures Inv(c, t) ==> A.Clean(t.pool) && (Solo(c, t, i) || (Wrote(c, t, j) && Calm(t)))
  {
    if t.entries != s.entries {
      forall k | 0 <= k < |s.pcs| && k != i ensures s.pcs[k].Start? { assert EncodeOk(c, s, k); }
    }
  }

  lemma SoloBody(c: Ctx, s: State, i: nat) returns (a: Action)
    requires Solo(c, s, i) && s.pool.tasks[i].phase.Running? && PayloadSafe(c, s.jobOf[i])
    ensures Enabled(c, s, a) && Benign(a) && Next(c, s, a).jobOf == s.jobOf && Next(c, s, a).slipped == s.slipped
    ensures Inv(c, Next(c, s, a)) ==>
      A.Clean(Next(c, s, a).pool) && (Solo(c, Next(c, s, a), i) || (Wrote(c, Next(c, s, a), s.jobOf[i]) && Calm(Next(c, s, a))))
  {
    a := BodyAction(s.pcs[i], i);
    SoloEnabled(c, s, i);
    BodyEffect(c, s, i);
    SoloAfter(c, s, Next(c, s, a), i, s.jobOf[i]);
  }

  lemma {:induction false} SoloRun(c: Ctx, s: State, i: nat) returns (run: seq<Action>, t: State)
    requires CtxBase(c) && Solo(c, s, i) && PayloadSafe(c, s.jobOf[i])
    ensures Runs(c, s, run, t) && Inv(c, t) && A.Clean(t.pool) && Wrote(c, t, s.jobOf[i]) && Steady(t) && Calm(t)
    decreases Rank(c, s)
  {
    RankIsNat(c, s);
    var a;
    if A.Before(s.pool.tasks[i].phase) { a := SoloGate(c, s, i); } else { a := SoloBody(c, s, i); }
    var u := Next(c, s, a);
    OneStep(c, s, a);
    InvStep(c, s, a);
    RankDecreases(c, s, a);
    if !Solo(c, u, i) {
      run, t := [a], u;
    } else {
      run, t := SoloRun(c, u, i);
      RunsAppend(c, s, [a], u, run, t);
      run := [a] + run;
    }
  }

  // ---- First writer wins ----

  lemma EntryStays(c: Ctx, s: State, a: Action, d: Digest)
    requires Enabled(c, s, a) && d in s.entries
    ensures d in Next(c, s, a).entries && Next(c, s, a).entries[d] == s.entries[d]
  {
  }

  lemma {:induction false} EntryForever(c: Ctx, s: State, run: seq<Action>, t: State, d: Digest)
    requires Runs(c, s, run, t) && d in s.entries
    ensures d in t.entries && t.entries[d] == s.entries[d]
    decreases |run|
  {
    if |run| > 0 {
      EntryStays(c, s, run[0], d);
      EntryForever(c, Next(c, s, run[0]), run[1..], t, d);
    }
  }

  lemma LastIsSolo(c: Ctx, s: State, n: nat)
    requires Quiet(c, s, n + 1) && LastIs(c, s, n) && n < |c.jobs| && c.jobs[n].s.digest !in c.seeds
    ensures 0 < |s.pool.tasks| == |s.jobOf| && s.jobOf[|s.jobOf| - 1] == n && Solo(c, s, |s.pool.tasks| - 1)
  {
  }

  lemma WriteFirst(c: Ctx, workers: int, budget: int, j: nat) returns (run: seq<Action>, t: State)
    requires CtxBase(c) && j < |c.jobs| && c.jobs[j].s.digest !in c.seeds && Kept(c, j)
    ensures Runs(c, Init(c, workers, budget), run, t) && Inv(c, t) && A.Clean(t.pool) && Wrote(c, t, j) && Steady(t) && Calm(t)
  {
    var before, s := SubmitUpTo(c, workers, budget, j);
    LastIsSolo(c, s, j);
    var drive;
    drive, t := SoloRun(c, s, |s.pool.tasks| - 1);
    RunsAppend(c, Init(c, workers, budget), before, s, drive, t);
    run := before + drive;
  }

  lemma FinishWritten(c: Ctx, workers: int, budget: int, run: seq<Action>, t: State, j: nat) returns (u: State)
    requires CtxBase(c) && NoneLost(c) && Runs(c, Init(c, workers, budget), run, t)
    requires Inv(c, t) && A.Clean(t.pool) && Wrote(c, t, j) && Steady(t)
    ensures Reached(c, workers, budget, u) && Complete(c, u) && Steady(u) && Wrote(c, u, j)
  {
    var rest;
    rest, u := FinishRun(c, t);
    RunsAppend(c, Init(c, workers, budget), run, t, rest, u);
    EntryForever(c, t, rest, u, c.jobs[j].s.digest);
  }

  /** Whatever tuple of an unseeded digest one picks, some error-free export registers that tuple's entry. */
  lemma AnyTupleCanBeFirst(c: Ctx, workers: int, budget: int, j: nat)
    requires CtxBase(c) && NoneLost(c) && j < |c.jobs| && c.jobs[j].s.digest !in c.seeds
    ensures exists s :: Reached(c, workers, budget, s) && Complete(c, s) && Steady(s) && Wrote(c, s, j)
  {
    assert PayloadSafe(c, j);
    var run, t := WriteFirst(c, workers, budget, j);
    var u := FinishWritten(c, workers, budget, run, t, j);
  }

  ghost predicate SameResult(s: State, t: State) {
    && s.entries == t.entries
    && forall d :: d in s.entries ==>
         BlobPath(d) in s.files && BlobPath(d) in t.files && s.files[BlobPath(d)] == t.files[BlobPath(d)]
  }

  /** An error-free export under some worker count and budget. */
  ghost predicate Ended(c: Ctx, s: State) {
    Complete(c, s) && exists workers, budget :: Reached(c, workers, budget, s)
  }

  /** Error-free exports of one input agree, whatever the schedules, worker counts and budgets, as long as no
      planning meets an error from outside the input. */
  ghost predicate Confluent(c: Ctx) {
    forall s, t :: Ended(c, s) && Steady(s) && Ended(c, t) && Steady(t) ==> SameResult(s, t)
  }

  /**
   * Exactly when exports are confluent: when none completes, because planning loses a payload, or when
   * every digest that was not seeded is listed with one descriptor.
   */
  lemma ConfluentIff(c: Ctx)
    requires CtxBase(c)
    ensures Confluent(c) <==> !NoneLost(c) || DescriptorsFixed(c.jobs, c.seeds.Keys)
  {
    if !NoneLost(c) {
      forall s | Steady(s) ensures !Ended(c, s) {
        if w, b :| Reached(c, w, b, s) { CompleteRunIff(c, w, b); }
      }
    } else if DescriptorsFixed(c.jobs, c.seeds.Keys) {
      forall s, t | Ended(c, s) && Steady(s) && Ended(c, t) && Steady(t) ensures SameResult(s, t) {
        var w1, b1 :| Reached(c, w1, b1, s);
        var w2, b2 :| Reached(c, w2, b2, t);
        Confluence(c, w1, b1, s, w2, b2, t);
      }
    } else {
      var i, j :| 0 <= i < |c.jobs| && 0 <= j < |c.jobs| && c.jobs[i].s.digest == c.jobs[j].s.digest
        && c.jobs[i].s.digest !in c.seeds && c.jobs[i].s != c.jobs[j].s;
      AnyTupleCanBeFirst(c, 1, 0, i);
      AnyTupleCanBeFirst(c, 1, 0, j);
      var s :| Reached(c, 1, 0, s) && Complete(c, s) && Steady(s) && Wrote(c, s, i);
      var t :| Reached(c, 1, 0, t) && Complete(c, t) && Steady(t) && Wrote(c, t, j);
      DescriptorsMustAgree(c, i, j);
      assert Ended(c, s) && Ended(c, t) && !SameResult(s, t);
    }
  }

  /** One digest listed with two sizes, everything shipped in full. */
  function TwoSizes(d: Digest, e: Env): Ctx {
    Ctx([Job(0, BlobRef(d, 1, "layer")), Job(0, BlobRef(d, 2, "layer"))], [e], map[d := []], true, 1, 0, map[], map[])
  }

  /** Such an export can end in two ways. */
  lemma TwoSizesDiverge(d: Digest, e: Env)
    requires Canonical(d) && forall x :: x in e.paths ==> e.paths[x].BaselineFile?
    ensures CtxBase(TwoSizes(d, e)) && !Confluent(TwoSizes(d, e))
  {
    var c := TwoSizes(d, e);
    assert NoneLost(c);
    assert c.jobs[0].s.digest == c.jobs[1].s.digest && c.jobs[0].s != c.jobs[1].s;
    ConfluentIff(c);
  }
}
