/**
 * Planning that fails for a reason outside the export's input: a full disk, a killed encoder, a
 * cancelled context.  The layer is then shipped in full.  So every export can finish, and the
 * bundle no longer depends on the input alone, except where nothing would have been patched anyway.
 */
module Fallback {
  import opened Common
  import opened Diff
  import opened Workdir
  import opened Planner
  import opened BlobPool
  import opened Encode
  import opened Divergence
  import A = Admission

  // ---- A run that ships every layer in full ----

  /** On its way to be shipped in full. */
  predicate InFull(p: Pc) {
    && !Searching(p) && (p.Ready? || p.Checked? ==> p.payload.TargetFile?)
    && (p.Ready? || p.Checked? || p.Adopted? ==> p.entry.encoding == Full)
  }

  predicate AllInFull(s: State) { forall i :: 0 <= i < |s.pcs| ==> InFull(s.pcs[i]) }

  /** As nothing fails, but every planning slips at once. */
  ghost function FullAction(c: Ctx, p: Pc, i: nat, d: Digest): Action {
    if p.Spooled? && !Forced(c, d) then PlanSlips(i, map[]) else BodyAction(p, i)
  }

  lemma FullEnabled(c: Ctx, s: State, i: nat)
    requires i < |s.pool.tasks| && |s.pcs| == |s.jobOf| == |s.pool.tasks| && EncodeOk(c, s, i)
    requires s.pool.tasks[i].phase.Running? && InFull(s.pcs[i])
    ensures var a := FullAction(c, s.pcs[i], i, s.pool.tasks[i].key); Enabled(c, s, a) && (Benign(a) || a.PlanSlips?)
  {
  }

  /** What such a step registers is full. */
  ghost predicate FullStep(s: State, t: State) {
    && AllInFull(t)
    && forall d :: d in t.entries && d !in s.entries ==> t.entries[d].encoding == Full
  }

  lemma FullKeeps(c: Ctx, s: State, i: nat)
    requires i < |s.pool.tasks| && |s.pcs| == |s.jobOf| == |s.pool.tasks| && EncodeOk(c, s, i) && AllInFull(s)
    requires s.pool.tasks[i].phase.Running? && Enabled(c, s, FullAction(c, s.pcs[i], i, s.pool.tasks[i].key))
    ensures FullStep(s, Next(c, s, FullAction(c, s.pcs[i], i, s.pool.tasks[i].key)))
  {
  }

  lemma PoolKeeps(c: Ctx, s: State, a: Action)
    requires Enabled(c, s, a) && (a.SubmitNext? || a.Sched?) && AllInFull(s)
    ensures FullStep(s, Next(c, s, a))
  {
  }

  lemma FullProgress(c: Ctx, s: State) returns (a: Action)
    requires Inv(c, s) && AllInFull(s) && (s.cursor < |c.jobs| || !A.AllDone(s.pool))
    ensures Enabled(c, s, a) && (Benign(a) || a.PlanSlips?) && FullStep(s, Next(c, s, a))
  {
    if s.cursor < |c.jobs| {
      a := SubmitNext;
      PoolKeeps(c, s, a);
      return;
    }
    var x := A.Progress(s.pool);
    if !x.Finish? {
      a := Sched(x);
      PoolKeeps(c, s, a);
    } else {
      assert EncodeOk(c, s, x.i);
      FullEnabled(c, s, x.i);
      FullKeeps(c, s, x.i);
      a := FullAction(c, s.pcs[x.i], x.i, s.pool.tasks[x.i].key);
    }
  }

  lemma {:induction false} FinishInFull(c: Ctx, s: State) returns (run: seq<Action>, t: State)
    requires CtxBase(c) && Inv(c, s) && A.Clean(s.pool) && AllInFull(s)
    ensures Runs(c, s, run, t) && Complete(c, t)
    ensures forall d :: d in t.entries && d !in s.entries ==> t.entries[d].encoding == Full
    decreases Rank(c, s)
  {
    RankIsNat(c, s);
    if s.cursor == |c.jobs| && A.AllDone(s.pool) {
      run, t := [], s;
      A.CleanHasNoError(s.pool);
    } else {
      var a := FullProgress(c, s);
      var u := Next(c, s, a);
      InvStep(c, s, a);
      RankDecreases(c, s, a);
      CleanStep(c, s, a);
      var rest;
      rest, t := FinishInFull(c, u);
      RunsFrom(c, s, a, u, rest, t);
      run := [a] + rest;
      forall d | d in t.entries && d !in s.entries ensures t.entries[d].encoding == Full {
        if d in u.entries { EntryForever(c, u, rest, t, d); }
      }
    }
  }

  /** Every digest that was not seeded is listed in full. */
  predicate PatchFree(c: Ctx, s: State) {
    forall d :: d in s.entries && d !in c.seeds ==> s.entries[d].encoding == Full
  }

  /** Every export can finish without error, lost payloads or not: a layer whose planning fails goes in full. */
  lemma EveryExportCanFinish(c: Ctx, workers: int, budget: int)
    requires CtxBase(c)
    ensures exists s :: Reached(c, workers, budget, s) && Complete(c, s) && PatchFree(c, s)
  {
    InitInv(c, workers, budget);
    var run, s := FinishInFull(c, Init(c, workers, budget));
    assert Reached(c, workers, budget, s);
  }

  // ---- When the schedule and the errors leave no trace ----

  lemma FirstThenFull(c: Ctx, j: nat) returns (u: State)
    requires CtxBase(c) && j < |c.jobs| && c.jobs[j].s.digest !in c.seeds && Kept(c, j)
    ensures Ended(c, u) && Wrote(c, u, j)
  {
    var run, t := WriteFirst(c, 1, 0, j);
    CalmIsInFull(t);
    u := FullAfter(c, run, t, j);
  }

  lemma CalmIsInFull(s: State)
    requires Calm(s)
    ensures AllInFull(s)
  {
  }

  lemma FullAfter(c: Ctx, run: seq<Action>, t: State, j: nat) returns (u: State)
    requires CtxBase(c) && Runs(c, Init(c, 1, 0), run, t) && Inv(c, t) && A.Clean(t.pool) && AllInFull(t) && Wrote(c, t, j)
    ensures Reached(c, 1, 0, u) && Complete(c, u) && Wrote(c, u, j)
  {
    var rest;
    rest, u := FinishInFull(c, t);
    RunsAppend(c, Init(c, 1, 0), run, t, rest, u);
    EntryForever(c, t, rest, u, c.jobs[j].s.digest);
  }

  /** A canonical entry that is full stands for the spooled target. */
  lemma FullIsContent(c: Ctx, j: nat)
    requires Known(c, j) && CanonEntry(c, j).encoding == Full
    ensures CanonEntry(c, j) == FullEntry(c.jobs[j].s) && CanonBytes(c, j) == c.content[c.jobs[j].s.digest]
  {
    if !TakesFull(c, j) {
      var s := c.jobs[j].s;
      PlanIsSound(c.envs[c.jobs[j].pair], PlanDisk(c, j), s, Target(s.digest), c.k);
    }
  }

  /** No tuple's canonical result is a patch. */
  ghost predicate NothingPatched(c: Ctx) {
    forall j :: 0 <= j < |c.jobs| && c.jobs[j].s.digest !in c.seeds ==> ShipsFull(c, j)
  }

  ghost predicate ShipsFull(c: Ctx, j: nat) { Known(c, j) && Kept(c, j) ==> CanonEntry(c, j).encoding == Full }

  lemma EndsInFull(c: Ctx, s: State, d: Digest) returns (k: nat)
    requires CtxBase(c) && NothingPatched(c) && Inv(c, s) && d in s.entries && d !in c.seeds
    ensures k < |c.jobs| && c.jobs[k].s.digest == d && d in c.content && BlobPath(d) in s.files
    ensures s.entries[d] == FullEntry(c.jobs[k].s) && s.files[BlobPath(d)] == c.content[d]
  {
    assert EntryCanon(c, s, d);
    k :| Known(c, k) && c.jobs[k].s.digest == d && Yields(c, s.slipped, k, s.entries[d], s.files[BlobPath(d)]);
    assert ShipsFull(c, k);
    if Kept(c, k) { FullIsContent(c, k); }
  }

  lemma AgreeInFull(c: Ctx, s: State, t: State)
    requires CtxOk(c) && NothingPatched(c) && Inv(c, s) && Complete(c, s) && Inv(c, t) && Complete(c, t)
    ensures SameResult(s, t)
  {
    FinalKeys(c, s);
    FinalKeys(c, t);
    forall d | d in s.entries ensures SameAtDigest(s, t, d) { AgreeAt(c, s, t, d); }
    SameDigests(s, t);
  }

  lemma SameDigests(s: State, t: State)
    requires s.entries.Keys == t.entries.Keys && forall d :: d in s.entries ==> SameAtDigest(s, t, d)
    ensures SameResult(s, t)
  {
  }

  ghost predicate SameAtDigest(s: State, t: State, d: Digest) {
    && d in s.entries && d in t.entries && s.entries[d] == t.entries[d]
    && BlobPath(d) in s.files && BlobPath(d) in t.files && s.files[BlobPath(d)] == t.files[BlobPath(d)]
  }

  lemma AgreeAt(c: Ctx, s: State, t: State, d: Digest)
    requires CtxOk(c) && NothingPatched(c) && Inv(c, s) && Inv(c, t) && d in s.entries && d in t.entries
    ensures SameAtDigest(s, t, d)
  {
    if d in c.seeds {
      assert EntryCanon(c, s, d) && EntryCanon(c, t, d);
    } else {
      var i := EndsInFull(c, s, d);
      var j := EndsInFull(c, t, d);
    }
  }

  lemma EndedInv(c: Ctx, s: State)
    requires CtxBase(c) && Ended(c, s)
    ensures Inv(c, s) && Complete(c, s)
  {
    var workers, budget :| Reached(c, workers, budget, s);
    ReachedInv(c, workers, budget, s);
  }

  lemma TwoDescriptorsShow(c: Ctx, i: nat, j: nat)
    requires CtxBase(c) && i < |c.jobs| && j < |c.jobs| && c.jobs[i].s.digest == c.jobs[j].s.digest
    requires c.jobs[i].s.digest !in c.seeds && c.jobs[i].s != c.jobs[j].s
    ensures exists s, t :: Ended(c, s) && Ended(c, t) && !SameResult(s, t)
  {
    if i < j { RefsSeparate(c.jobs, i, j); } else { RefsSeparate(c.jobs, j, i); }
    assert TakesFull(c, i) && TakesFull(c, j);
    var s := FirstThenFull(c, i);
    var t := FirstThenFull(c, j);
    DescriptorsMustAgree(c, i, j);
    assert !SameResult(s, t);
  }

  lemma PatchShows(c: Ctx, j: nat)
    requires CtxBase(c) && j < |c.jobs| && c.jobs[j].s.digest !in c.seeds && !ShipsFull(c, j)
    ensures exists s, t :: Ended(c, s) && Ended(c, t) && !SameResult(s, t)
  {
    var s := FirstThenFull(c, j);
    EveryExportCanFinish(c, 1, 0);
    var t :| Reached(c, 1, 0, t) && Complete(c, t) && PatchFree(c, t);
    assert Ended(c, t) && !SameResult(s, t);
  }

  /**
   * Exactly when any two error-free exports agree even though planning may fail for outside reasons: when
   * every digest that was not seeded has one descriptor and none of them would be shipped as a patch.
   */
  lemma AgreeAnywayIff(c: Ctx)
    requires CtxBase(c)
    ensures (forall s, t :: Ended(c, s) && Ended(c, t) ==> SameResult(s, t))
      <==> DescriptorsFixed(c.jobs, c.seeds.Keys) && NothingPatched(c)
  {
    if !DescriptorsFixed(c.jobs, c.seeds.Keys) {
      var i, j :| 0 <= i < |c.jobs| && 0 <= j < |c.jobs| && c.jobs[i].s.digest == c.jobs[j].s.digest
        && c.jobs[i].s.digest !in c.seeds && c.jobs[i].s != c.jobs[j].s;
      TwoDescriptorsShow(c, i, j);
    } else if !NothingPatched(c) {
      var j :| 0 <= j < |c.jobs| && c.jobs[j].s.digest !in c.seeds && !ShipsFull(c, j);
      PatchShows(c, j);
    } else {
      forall s, t | Ended(c, s) && Ended(c, t) ensures SameResult(s, t) {
        EndedInv(c, s);
        EndedInv(c, t);
        AgreeInFull(c, s, t);
      }
    }
  }
}
