/**
 * The three-gate scheduler: singleflight, then the worker semaphore, then the
 * memory semaphore, with an errgroup collecting results.  Every goroutine is a
 * task; every atomic section of it is one action; a run is any sequence of
 * enabled actions.  Both semaphores are first-in first-out: a waiting task holds a
 * ticket and only the smallest ticket may be granted.
 */
module Admission {
  import opened Common

  type Key = string

  /** How the submitted function (or an acquire) ended. */
  datatype Outcome = Succeeded | Errored | Panicked

  datatype Phase =
    | Spawned                       // goroutine started, not yet inside singleflight
    | Joined(leader: nat)           // waits for the result of leader's flight
    | Leading                       // leads a flight, on its way to the worker semaphore
    | WantWorker(ticket: nat)       // queued on the worker semaphore
    | Permitted                     // holds a worker permit, on its way to the memory semaphore
    | WantMem(ticket: nat)          // queued on the memory semaphore
    | Running                       // holds everything; the submitted function runs
    | Unwinding(out: Outcome)       // function over, both permits still held
    | HoldsWorker(out: Outcome)     // memory returned, worker permit still held
    | Unlocked(out: Outcome)        // nothing held, flight still registered
    | Done(ok: bool, flight: nat)   // goroutine returned; flight names the leader

  /** raw is the estimate the caller passed, est the clamped one; ran is how the function ended, once it has. */
  datatype Task = Task(key: Key, raw: int, est: int, phase: Phase, ran: Option<Outcome>)

  datatype Pool = Pool(
    workers: int,
    budget: int,
    tasks: seq<Task>,
    flights: map<Key, nat>,
    workerUsed: int,
    memUsed: int,
    nextTicket: nat,
    cancelled: bool,
    firstErr: Option<nat>,
    log: seq<nat>)                  // tasks whose function ended, in order

  datatype Action =
    | Submit(key: Key, estimate: int)
    | Cancel
    | Enter(i: nat)
    | QueueWorker(i: nat)
    | GrantWorker(i: nat)
    | QueueMem(i: nat)
    | GrantMem(i: nat)
    | Abandon(i: nat)
    | Finish(i: nat, out: Outcome)
    | ReleaseMem(i: nat)
    | ReleaseWorker(i: nat)
    | EndFlight(i: nat)
    | Wake(i: nat)

  function Init(workers: int, budget: int): Pool {
    Pool(if workers < 1 then 1 else workers, budget, [], map[], 0, 0, 0, false, None, [])
  }

  /** Submit's clamp into [1, budget]; a non-positive budget leaves only the lower bound. */
  function Clamp(estimate: int, budget: int): int {
    var e := if estimate < 1 then 1 else estimate;
    if budget > 0 && e > budget then budget else e
  }

  predicate Leads(p: Phase) {
    p.Leading? || p.WantWorker? || p.Permitted? || p.WantMem? || p.Running? || p.Unwinding? || p.HoldsWorker? || p.Unlocked?
  }

  /** First in, first out: nobody queued on the same gate has an older ticket. */
  predicate OldestWorker(s: Pool, t: nat) {
    forall j :: 0 <= j < |s.tasks| && s.tasks[j].phase.WantWorker? ==> t <= s.tasks[j].phase.ticket
  }

  predicate OldestMem(s: Pool, t: nat) {
    forall j :: 0 <= j < |s.tasks| && s.tasks[j].phase.WantMem? ==> t <= s.tasks[j].phase.ticket
  }

  predicate Enabled(s: Pool, a: Action) {
    match a
    case Submit(_, _) => true
    case Cancel => !s.cancelled
    case Enter(i) => i < |s.tasks| && s.tasks[i].phase.Spawned?
    case QueueWorker(i) => i < |s.tasks| && s.tasks[i].phase.Leading?
    case GrantWorker(i) =>
      && i < |s.tasks| && s.tasks[i].phase.WantWorker?
      && s.workerUsed + 1 <= s.workers && OldestWorker(s, s.tasks[i].phase.ticket)
    case QueueMem(i) => i < |s.tasks| && s.tasks[i].phase.Permitted?
    case GrantMem(i) =>
      && i < |s.tasks| && s.tasks[i].phase.WantMem?
      && s.memUsed + s.tasks[i].est <= s.budget && OldestMem(s, s.tasks[i].phase.ticket)
    case Abandon(i) =>
      s.cancelled && i < |s.tasks| && (s.tasks[i].phase.WantWorker? || s.tasks[i].phase.WantMem?)
    case Finish(i, _) => i < |s.tasks| && s.tasks[i].phase.Running?
    case ReleaseMem(i) => i < |s.tasks| && s.tasks[i].phase.Unwinding?
    case ReleaseWorker(i) => i < |s.tasks| && s.tasks[i].phase.HoldsWorker?
    case EndFlight(i) => i < |s.tasks| && s.tasks[i].phase.Unlocked?
    case Wake(i) =>
      && i < |s.tasks| && s.tasks[i].phase.Joined?
      && s.tasks[i].phase.leader < |s.tasks| && s.tasks[s.tasks[i].phase.leader].phase.Done?
  }

  function SetPhase(s: Pool, i: nat, p: Phase): Pool
    requires i < |s.tasks|
  {
    s.(tasks := s.tasks[i := s.tasks[i].(phase := p)])
  }

  /** The goroutine returns: a non-nil error cancels the group and only the first is kept. */
  function Return(s: Pool, i: nat, ok: bool, flight: nat): Pool
    requires i < |s.tasks|
  {
    var t := SetPhase(s, i, Done(ok, flight));
    if ok then t
    else t.(cancelled := true, firstErr := if s.firstErr.None? then Some(i) else s.firstErr)
  }

  function Next(s: Pool, a: Action): Pool
    requires Enabled(s, a)
  {
    match a
    case Submit(k, e) => s.(tasks := s.tasks + [Task(k, e, Clamp(e, s.budget), Spawned, None)])
    case Cancel => s.(cancelled := true)
    case Enter(i) =>
      var k := s.tasks[i].key;
      if k in s.flights then SetPhase(s, i, Joined(s.flights[k]))
      else SetPhase(s, i, Leading).(flights := s.flights[k := i])
    case QueueWorker(i) => SetPhase(s, i, WantWorker(s.nextTicket)).(nextTicket := s.nextTicket + 1)
    case GrantWorker(i) => SetPhase(s.(workerUsed := s.workerUsed + 1), i, if s.budget > 0 then Permitted else Running)
    case QueueMem(i) => SetPhase(s, i, WantMem(s.nextTicket)).(nextTicket := s.nextTicket + 1)
    case GrantMem(i) => SetPhase(s.(memUsed := s.memUsed + s.tasks[i].est), i, Running)
    case Abandon(i) =>
      if s.tasks[i].phase.WantMem? then SetPhase(s, i, HoldsWorker(Errored)) else SetPhase(s, i, Unlocked(Errored))
    case Finish(i, out) =>
      var p := if s.budget > 0 then Unwinding(out) else HoldsWorker(out);
      s.(tasks := s.tasks[i := s.tasks[i].(phase := p, ran := Some(out))], log := s.log + [i])
    case ReleaseMem(i) =>
      SetPhase(s.(memUsed := s.memUsed - s.tasks[i].est), i, HoldsWorker(s.tasks[i].phase.out))
    case ReleaseWorker(i) => SetPhase(s.(workerUsed := s.workerUsed - 1), i, Unlocked(s.tasks[i].phase.out))
    case EndFlight(i) =>
      Return(s.(flights := s.flights - {s.tasks[i].key}), i, s.tasks[i].phase.out.Succeeded?, i)
    case Wake(i) =>
      var l := s.tasks[i].phase.leader;
      Return(s, i, s.tasks[l].phase.ok, l)
  }

  /** s --actions--> t. */
  predicate Runs(s: Pool, run: seq<Action>, t: Pool)
    decreases |run|
  {
    if |run| == 0 then s == t
    else Enabled(s, run[0]) && Runs(Next(s, run[0]), run[1..], t)
  }

  // ---- What live tasks hold ----

  predicate HasWorker(p: Phase) { p.Permitted? || p.WantMem? || p.Running? || p.Unwinding? || p.HoldsWorker? }
  predicate HasMem(p: Phase) { p.Running? || p.Unwinding? }

  function WorkerWeight(): Task -> int { (t: Task) => if HasWorker(t.phase) then 1 else 0 }
  function MemWeight(budget: int): Task -> int { (t: Task) => if budget > 0 && HasMem(t.phase) then t.est else 0 }
  function RunningWeight(): Task -> int { (t: Task) => if t.phase.Running? then 1 else 0 }
  function RunningEst(): Task -> int { (t: Task) => if t.phase.Running? then t.est else 0 }
  function RunningRaw(): Task -> int { (t: Task) => if t.phase.Running? then t.raw else 0 }

  // ---- The invariant ----

  predicate HoldingsExact(s: Pool) {
    && s.workerUsed == Total(s.tasks, WorkerWeight()) && s.workerUsed <= s.workers
    && s.memUsed == Total(s.tasks, MemWeight(s.budget)) && (s.budget > 0 ==> s.memUsed <= s.budget)
  }

  predicate FlightOk(s: Pool, k: Key)
    requires k in s.flights
  {
    s.flights[k] < |s.tasks| && s.tasks[s.flights[k]].key == k && Leads(s.tasks[s.flights[k]].phase)
  }

  predicate LeaderOk(s: Pool, i: nat)
    requires i < |s.tasks|
  {
    s.tasks[i].key in s.flights && s.flights[s.tasks[i].key] == i
  }

  /** The singleflight map registers exactly the leading tasks, one per key. */
  predicate FlightsExact(s: Pool) {
    && (forall k :: k in s.flights ==> FlightOk(s, k))
    && (forall i :: 0 <= i < |s.tasks| && Leads(s.tasks[i].phase) ==> LeaderOk(s, i))
  }

  /** Task i led a flight of its own and returned its result. */
  predicate Landed(s: Pool, i: nat)
    requires i < |s.tasks|
  {
    s.tasks[i].phase.Done? && s.tasks[i].phase.flight == i
  }

  /** The function has not started. */
  predicate Before(p: Phase) {
    p.Spawned? || p.Joined? || p.Leading? || p.WantWorker? || p.Permitted? || p.WantMem?
  }

  predicate TaskOk(s: Pool, i: nat)
    requires i < |s.tasks|
  {
    var t := s.tasks[i];
    && t.est == Clamp(t.raw, s.budget)
    && (t.phase.Permitted? || t.phase.WantMem? || t.phase.Unwinding? ==> s.budget > 0)
    && (Before(t.phase) || t.phase.Running? ==> t.ran.None?)
    && (t.phase.Unwinding? ==> t.ran == Some(t.phase.out))
    && (t.phase.HoldsWorker? || t.phase.Unlocked? ==> t.ran == Some(t.phase.out) || (t.ran.None? && t.phase.out.Errored?))
    && (t.phase.Joined? ==>
          && t.phase.leader < |s.tasks| && t.phase.leader != i
          && s.tasks[t.phase.leader].key == t.key
          && (Leads(s.tasks[t.phase.leader].phase) || Landed(s, t.phase.leader)))
    && (t.phase.Done? ==>
          && t.phase.flight < |s.tasks|
          && s.tasks[t.phase.flight].key == t.key
          && s.tasks[t.phase.flight].phase.Done? && s.tasks[t.phase.flight].phase.ok == t.phase.ok
          && s.tasks[t.phase.flight].phase.flight == t.phase.flight
          && (t.phase.ok <==> s.tasks[t.phase.flight].ran == Some(Succeeded)))
  }

  predicate ErrorExact(s: Pool) {
    && (s.firstErr.None? ==> forall i :: 0 <= i < |s.tasks| && s.tasks[i].phase.Done? ==> s.tasks[i].phase.ok)
    && (s.firstErr.Some? ==>
          && s.cancelled && s.firstErr.value < |s.tasks|
          && s.tasks[s.firstErr.value].phase.Done? && !s.tasks[s.firstErr.value].phase.ok)
  }

  predicate LogExact(s: Pool) {
    && (forall p :: 0 <= p < |s.log| ==> s.log[p] < |s.tasks| && s.tasks[s.log[p]].ran.Some?)
    && (forall i :: 0 <= i < |s.tasks| && s.tasks[i].ran.Some? ==> i in s.log)
    && NoRepeats(s.log)
  }

  predicate Inv(s: Pool) {
    && 1 <= s.workers
    && HoldingsExact(s)
    && FlightsExact(s)
    && (forall i :: 0 <= i < |s.tasks| ==> TaskOk(s, i))
    && ErrorExact(s)
    && LogExact(s)
  }

  lemma InitInv(workers: int, budget: int)
    ensures Inv(Init(workers, budget))
  {
  }

  /** A move changes one task, and of it only the phase and the ran flag. */
  predicate Moved(s: Pool, t: Pool, i: nat)
    requires i < |s.tasks|
  {
    && |t.tasks| == |s.tasks|
    && t.tasks == s.tasks[i := t.tasks[i]]
    && t.tasks[i].key == s.tasks[i].key && t.tasks[i].raw == s.tasks[i].raw && t.tasks[i].est == s.tasks[i].est
    && t.budget == s.budget && t.workers == s.workers
  }

  lemma MoveShape(s: Pool, a: Action)
    requires Enabled(s, a) && TaskStep(a)
    ensures a.i < |s.tasks| && Moved(s, Next(s, a), a.i)
  {
  }

  /** How a task can come to run: only from a queue; and no step leads back. */
  lemma PhaseFlow(s: Pool, a: Action)
    requires Enabled(s, a) && TaskStep(a)
    ensures var p := s.tasks[a.i].phase; var q := Next(s, a).tasks[a.i].phase;
      && (q.Running? ==> p.WantWorker? || p.WantMem?)
      && !q.Spawned?
      && (q.Joined? || q.Leading? ==> p.Spawned?)
      && (q.WantWorker? ==> p.Leading?)
      && (q.Permitted? ==> p.WantWorker?)
      && (q.WantMem? ==> p.Permitted?)
    ensures Next(s, a).tasks[a.i].ran == if a.Finish? then Some(a.out) else s.tasks[a.i].ran
  {
  }

  lemma HoldingsStep(s: Pool, a: Action)
    requires HoldingsExact(s) && Enabled(s, a)
    requires TaskStep(a) ==> TaskOk(s, a.i)
    ensures HoldingsExact(Next(s, a))
  {
    var t := Next(s, a);
    if a.Submit? {
      TotalAppend(s.tasks, t.tasks[|s.tasks|], WorkerWeight());
      TotalAppend(s.tasks, t.tasks[|s.tasks|], MemWeight(s.budget));
    } else if !a.Cancel? {
      MoveShape(s, a);
      TotalUpdate(s.tasks, a.i, t.tasks[a.i], WorkerWeight());
      TotalUpdate(s.tasks, a.i, t.tasks[a.i], MemWeight(s.budget));
      HoldingsDelta(s, a);
    }
  }

  /** The counters move by exactly what the acting task's weight moves by. */
  lemma HoldingsDelta(s: Pool, a: Action)
    requires HoldingsExact(s) && Enabled(s, a) && TaskStep(a)
    requires TaskOk(s, a.i)
    ensures var t := Next(s, a);
      && t.workerUsed == s.workerUsed - WorkerWeight()(s.tasks[a.i]) + WorkerWeight()(t.tasks[a.i])
      && t.memUsed == s.memUsed - MemWeight(s.budget)(s.tasks[a.i]) + MemWeight(s.budget)(t.tasks[a.i])
      && t.workerUsed <= t.workers && (t.budget > 0 ==> t.memUsed <= t.budget)
  {
    if a.GrantWorker? || a.GrantMem? { HoldingsGrow(s, a); } else { HoldingsShrink(s, a); }
  }

  lemma HoldingsGrow(s: Pool, a: Action)
    requires HoldingsExact(s) && Enabled(s, a) && (a.GrantWorker? || a.GrantMem?) && TaskOk(s, a.i)
    ensures var t := Next(s, a);
      && t.workerUsed == s.workerUsed - WorkerWeight()(s.tasks[a.i]) + WorkerWeight()(t.tasks[a.i])
      && t.memUsed == s.memUsed - MemWeight(s.budget)(s.tasks[a.i]) + MemWeight(s.budget)(t.tasks[a.i])
      && t.workerUsed <= t.workers && (t.budget > 0 ==> t.memUsed <= t.budget)
  {
  }

  lemma HoldingsShrink(s: Pool, a: Action)
    requires HoldingsExact(s) && Enabled(s, a) && TaskStep(a) && !a.GrantWorker? && !a.GrantMem? && TaskOk(s, a.i)
    ensures var t := Next(s, a);
      && t.workerUsed == s.workerUsed - WorkerWeight()(s.tasks[a.i]) + WorkerWeight()(t.tasks[a.i])
      && t.memUsed == s.memUsed - MemWeight(s.budget)(s.tasks[a.i]) + MemWeight(s.budget)(t.tasks[a.i])
      && t.workerUsed <= t.workers && (t.budget > 0 ==> t.memUsed <= t.budget)
  {
    assert s.tasks[a.i].est >= 1;
  }

  /** What each action does to the singleflight map. */
  lemma FlightsShape(s: Pool, a: Action)
    requires Enabled(s, a) && TaskStep(a)
    ensures var t := Next(s, a); var k := s.tasks[a.i].key;
      if a.Enter? && k !in s.flights then t.flights == s.flights[k := a.i] && Leads(t.tasks[a.i].phase)
      else if a.EndFlight? then t.flights == s.flights - {k} && !Leads(t.tasks[a.i].phase)
      else t.flights == s.flights && Leads(t.tasks[a.i].phase) == Leads(s.tasks[a.i].phase)
  {
  }

  lemma FlightsStep(s: Pool, a: Action)
    requires FlightsExact(s) && Enabled(s, a)
    ensures FlightsExact(Next(s, a))
  {
    if a.Submit? || a.Cancel? {
      FlightsIdle(s, Next(s, a));
    } else {
      MoveShape(s, a);
      FlightsShape(s, a);
      FlightsMove(s, Next(s, a), a.i, a.Enter? && s.tasks[a.i].key !in s.flights, a.EndFlight?);
    }
  }

  lemma FlightsIdle(s: Pool, t: Pool)
    requires FlightsExact(s) && t.flights == s.flights
    requires |s.tasks| <= |t.tasks| && t.tasks[..|s.tasks|] == s.tasks
    requires forall i :: |s.tasks| <= i < |t.tasks| ==> !Leads(t.tasks[i].phase)
    ensures FlightsExact(t)
  {
    assert forall i :: 0 <= i < |s.tasks| ==> t.tasks[i] == t.tasks[..|s.tasks|][i];
    forall k | k in t.flights ensures FlightOk(t, k) { assert FlightOk(s, k); }
    forall i | 0 <= i < |t.tasks| && Leads(t.tasks[i].phase) ensures LeaderOk(t, i) { assert LeaderOk(s, i); }
  }

  lemma FlightsMove(s: Pool, t: Pool, i: nat, opens: bool, closes: bool)
    requires FlightsExact(s) && i < |s.tasks| && Moved(s, t, i)
    requires opens ==> s.tasks[i].key !in s.flights && t.flights == s.flights[s.tasks[i].key := i] && Leads(t.tasks[i].phase)
    requires !opens && closes ==>
      Leads(s.tasks[i].phase) && t.flights == s.flights - {s.tasks[i].key} && !Leads(t.tasks[i].phase)
    requires !opens && !closes ==> t.flights == s.flights && Leads(t.tasks[i].phase) == Leads(s.tasks[i].phase)
    ensures FlightsExact(t)
  {
    forall k | k in t.flights ensures FlightOk(t, k) {
      if k in s.flights { assert FlightOk(s, k); }
      if Leads(s.tasks[i].phase) { assert LeaderOk(s, i); }
    }
    forall j | 0 <= j < |t.tasks| && Leads(t.tasks[j].phase) ensures LeaderOk(t, j) {
      if Leads(s.tasks[j].phase) { assert LeaderOk(s, j); }
      if Leads(s.tasks[i].phase) { assert LeaderOk(s, i); }
    }
  }

  /** Another task's local condition survives a move. */
  lemma TaskFrame(s: Pool, a: Action, i: nat)
    requires Enabled(s, a) && i < |s.tasks| && TaskOk(s, i)
    requires TaskStep(a) ==> a.i != i
    ensures i < |Next(s, a).tasks| && TaskOk(Next(s, a), i)
  {
    var t := Next(s, a);
    if TaskStep(a) {
      MoveShape(s, a);
      ActorKeeps(s, a);
      assert t.tasks[i] == s.tasks[i];
    }
  }

  /** A task never stops leading except by finishing, and a finished task never changes. */
  lemma ActorKeeps(s: Pool, a: Action)
    requires Enabled(s, a) && TaskStep(a)
    ensures !s.tasks[a.i].phase.Done?
    ensures Leads(s.tasks[a.i].phase) ==> Leads(Next(s, a).tasks[a.i].phase) || Next(s, a).tasks[a.i].phase.Done?
    ensures Leads(s.tasks[a.i].phase) && Next(s, a).tasks[a.i].phase.Done? ==> Next(s, a).tasks[a.i].phase.flight == a.i
  {
  }

  lemma QuietActor(s: Pool, a: Action)
    requires Enabled(s, a) && TaskStep(a) && !a.Enter? && !a.Wake? && TaskOk(s, a.i)
    ensures TaskOk(Next(s, a), a.i)
  {
  }

  lemma TaskActor(s: Pool, a: Action)
    requires Enabled(s, a) && TaskStep(a)
    requires TaskOk(s, a.i) && FlightsExact(s)
    requires forall i :: 0 <= i < |s.tasks| ==> TaskOk(s, i)
    ensures TaskOk(Next(s, a), a.i)
  {
    if a.Enter? {
      var k := s.tasks[a.i].key;
      if k in s.flights { assert FlightOk(s, k); }
    } else if a.Wake? {
      assert TaskOk(s, s.tasks[a.i].phase.leader);
    } else {
      QuietActor(s, a);
    }
  }

  lemma TasksStep(s: Pool, a: Action)
    requires FlightsExact(s) && Enabled(s, a)
    requires forall i :: 0 <= i < |s.tasks| ==> TaskOk(s, i)
    ensures forall i :: 0 <= i < |Next(s, a).tasks| ==> TaskOk(Next(s, a), i)
  {
    var t := Next(s, a);
    if TaskStep(a) { MoveShape(s, a); TaskActor(s, a); }
    forall i | 0 <= i < |t.tasks| ensures TaskOk(t, i) {
      if i < |s.tasks| && (a.Submit? || a.Cancel? || i != a.i) { TaskFrame(s, a, i); }
    }
  }

  lemma LogStep(s: Pool, a: Action)
    requires LogExact(s) && Enabled(s, a)
    requires a.Finish? ==> s.tasks[a.i].ran.None?
    ensures LogExact(Next(s, a))
  {
    var t := Next(s, a);
    if a.Finish? {
      MoveShape(s, a);
      assert t.log[|s.log|] == a.i;
      forall i | 0 <= i < |t.tasks| && t.tasks[i].ran.Some? ensures i in t.log {
        if i != a.i { assert i in s.log; }
      }
    } else {
      LogFrame(s, a);
    }
  }

  /** Only the end of a function is logged. */
  lemma LogFrame(s: Pool, a: Action)
    requires Enabled(s, a) && !a.Finish?
    ensures Next(s, a).log == s.log && |s.tasks| <= |Next(s, a).tasks|
    ensures forall i :: 0 <= i < |s.tasks| ==> Next(s, a).tasks[i].ran == s.tasks[i].ran
    ensures forall i :: |s.tasks| <= i < |Next(s, a).tasks| ==> Next(s, a).tasks[i].ran.None?
  {
  }

  lemma ErrorStep(s: Pool, a: Action)
    requires ErrorExact(s) && Enabled(s, a)
    ensures ErrorExact(Next(s, a))
  {
    if TaskStep(a) { MoveShape(s, a); ActorKeeps(s, a); }
  }

  /** Every action keeps the invariant, whatever the functions return and whenever the context is cancelled. */
  lemma InvStep(s: Pool, a: Action)
    requires Inv(s) && Enabled(s, a)
    ensures Inv(Next(s, a))
  {
    if TaskStep(a) { assert TaskOk(s, a.i); }
    HoldingsStep(s, a);
    FlightsStep(s, a);
    TasksStep(s, a);
    LogStep(s, a);
    ErrorStep(s, a);
  }

  lemma {:induction false} InvRuns(s: Pool, run: seq<Action>, t: Pool)
    requires Inv(s) && Runs(s, run, t)
    ensures Inv(t) && t.budget == s.budget && t.workers == s.workers
    decreases |run|
  {
    if |run| > 0 {
      InvStep(s, run[0]);
      InvRuns(Next(s, run[0]), run[1..], t);
    }
  }

  // ---- Safety over every run ----

  lemma RunningKeysDiffer(s: Pool, i: nat, j: nat)
    requires FlightsExact(s) && i < |s.tasks| && j < |s.tasks| && i != j
    ensures s.tasks[i].phase.Running? && s.tasks[j].phase.Running? ==> s.tasks[i].key != s.tasks[j].key
  {
    if s.tasks[i].phase.Running? && s.tasks[j].phase.Running? {
      assert LeaderOk(s, i) && LeaderOk(s, j);
    }
  }

  /** The running functions' clamped estimates fit what the memory semaphore has given out. */
  lemma RunningWithin(s: Pool)
    requires Inv(s) && s.budget > 0
    ensures Total(s.tasks, RunningEst()) <= s.budget
  {
    forall i | 0 <= i < |s.tasks| ensures RunningEst()(s.tasks[i]) <= MemWeight(s.budget)(s.tasks[i]) { assert TaskOk(s, i); }
    TotalMonotone(s.tasks, RunningEst(), MemWeight(s.budget));
  }

  /** At most `workers` functions run, within the memory budget, never two of the same key. */
  lemma SafetyEveryRun(workers: int, budget: int, run: seq<Action>, s: Pool)
    requires Runs(Init(workers, budget), run, s)
    ensures Total(s.tasks, RunningWeight()) <= if workers < 1 then 1 else workers
    ensures budget > 0 ==> Total(s.tasks, RunningEst()) <= budget
    ensures forall i, j | 0 <= i < |s.tasks| && 0 <= j < |s.tasks| && s.tasks[i].phase.Running? && s.tasks[j].phase.Running? ::
              s.tasks[i].key == s.tasks[j].key ==> i == j
    ensures s.workerUsed == Total(s.tasks, WorkerWeight()) && s.memUsed == Total(s.tasks, MemWeight(budget))
  {
    InitInv(workers, budget);
    InvRuns(Init(workers, budget), run, s);
    TotalMonotone(s.tasks, RunningWeight(), WorkerWeight());
    if budget > 0 { RunningWithin(s); }
    forall i, j | 0 <= i < |s.tasks| && 0 <= j < |s.tasks| && s.tasks[i].phase.Running? && s.tasks[j].phase.Running?
      && s.tasks[i].key == s.tasks[j].key ensures i == j
    {
      assert LeaderOk(s, i) && LeaderOk(s, j);
    }
  }

  // ---- What is reserved, and for whom ----

  /** The submissions of a run, in order. */
  function Submissions(run: seq<Action>): seq<(Key, int)> {
    if |run| == 0 then []
    else (if run[0].Submit? then [(run[0].key, run[0].estimate)] else []) + Submissions(run[1..])
  }

  function Asked(tasks: seq<Task>): seq<(Key, int)> { seq(|tasks|, i requires 0 <= i < |tasks| => (tasks[i].key, tasks[i].raw)) }

  lemma AskedStep(s: Pool, a: Action)
    requires Enabled(s, a)
    ensures Asked(Next(s, a).tasks) == Asked(s.tasks) + if a.Submit? then [(a.key, a.estimate)] else []
  {
    if TaskStep(a) { MoveShape(s, a); }
  }

  lemma Associative<T>(a: seq<T>, b: seq<T>, c: seq<T>)
    ensures a + b + c == a + (b + c)
  {
  }

  lemma {:induction false} AskedRuns(s: Pool, run: seq<Action>, t: Pool)
    requires Runs(s, run, t)
    ensures Asked(t.tasks) == Asked(s.tasks) + Submissions(run)
    decreases |run|
  {
    if |run| > 0 {
      var first := if run[0].Submit? then [(run[0].key, run[0].estimate)] else [];
      AskedStep(s, run[0]);
      AskedRuns(Next(s, run[0]), run[1..], t);
      Associative(Asked(s.tasks), first, Submissions(run[1..]));
    }
  }

  /** Every submission is one task, and what is reserved for it is its own estimate, but at least one byte and at
      most a positive budget. */
  lemma Reservations(workers: int, budget: int, run: seq<Action>, s: Pool)
    requires Runs(Init(workers, budget), run, s)
    ensures Asked(s.tasks) == Submissions(run)
    ensures forall i :: 0 <= i < |s.tasks| ==>
      var t := s.tasks[i];
      && (1 <= t.raw && (t.raw <= budget || budget <= 0) ==> t.est == t.raw)
      && (t.raw < 1 ==> t.est == 1)
      && (t.raw > budget > 0 ==> t.est == budget)
  {
    InitInv(workers, budget);
    InvRuns(Init(workers, budget), run, s);
    AskedRuns(Init(workers, budget), run, s);
    assert Asked(Init(workers, budget).tasks) == [];
    forall i | 0 <= i < |s.tasks| ensures s.tasks[i].est == Clamp(s.tasks[i].raw, budget) { assert TaskOk(s, i); }
  }

  /** A task's estimate as submitted, at least one byte, while it holds memory. */
  function HeldRaw(): Task -> int { (t: Task) => if HasMem(t.phase) then if t.raw < 1 then 1 else t.raw else 0 }

  predicate RoomFor(s: Pool, i: nat, budget: int)
    requires i < |s.tasks|
  {
    Total(s.tasks, HeldRaw()) + (if s.tasks[i].raw < 1 then 1 else s.tasks[i].raw) <= budget
  }

  /** Nothing but want of room keeps the oldest waiter out: it gets a worker exactly while fewer than `workers` are
      taken, and memory whenever its estimate fits beside those of the holders, all as submitted. */
  lemma GatesOpen(workers: int, budget: int, run: seq<Action>, s: Pool, i: nat)
    requires Runs(Init(workers, budget), run, s) && i < |s.tasks|
    ensures s.tasks[i].phase.WantWorker? && OldestWorker(s, s.tasks[i].phase.ticket) ==>
      (Enabled(s, GrantWorker(i)) <==> Total(s.tasks, WorkerWeight()) < if workers < 1 then 1 else workers)
    ensures s.tasks[i].phase.WantMem? && OldestMem(s, s.tasks[i].phase.ticket) && RoomFor(s, i, budget) ==> Enabled(s, GrantMem(i))
  {
    InitInv(workers, budget);
    InvRuns(Init(workers, budget), run, s);
    assert TaskOk(s, i);
    forall j | 0 <= j < |s.tasks| ensures MemWeight(budget)(s.tasks[j]) <= HeldRaw()(s.tasks[j]) { assert TaskOk(s, j); }
    TotalMonotone(s.tasks, MemWeight(budget), HeldRaw());
  }

  // ---- First come, first served ----

  /** Tickets given out so far are below the next one. */
  predicate TicketsBelow(s: Pool) {
    forall i :: 0 <= i < |s.tasks| ==>
      && (s.tasks[i].phase.WantWorker? ==> s.tasks[i].phase.ticket < s.nextTicket)
      && (s.tasks[i].phase.WantMem? ==> s.tasks[i].phase.ticket < s.nextTicket)
  }

  lemma TicketsStep(s: Pool, a: Action)
    requires TicketsBelow(s) && Enabled(s, a)
    ensures TicketsBelow(Next(s, a)) && s.nextTicket <= Next(s, a).nextTicket
  {
    if TaskStep(a) { MoveShape(s, a); }
  }

  /** Task j has not come to the worker gate yet, stands behind ticket t there, or has left without a permit. */
  predicate BehindWorker(s: Pool, t: nat, j: nat) {
    j < |s.tasks| ==> !HasWorker(s.tasks[j].phase) && (s.tasks[j].phase.WantWorker? ==> t < s.tasks[j].phase.ticket)
  }

  predicate BehindMem(s: Pool, t: nat, j: nat) {
    j < |s.tasks| ==> !HasMem(s.tasks[j].phase) && (s.tasks[j].phase.WantMem? ==> t < s.tasks[j].phase.ticket)
  }

  lemma WorkerQueueStep(s: Pool, a: Action, i: nat, j: nat)
    requires TicketsBelow(s) && Enabled(s, a) && i < |s.tasks| && s.tasks[i].phase.WantWorker?
    requires BehindWorker(s, s.tasks[i].phase.ticket, j)
    ensures i < |Next(s, a).tasks|
    ensures Next(s, a).tasks[i].phase == s.tasks[i].phase ==> BehindWorker(Next(s, a), s.tasks[i].phase.ticket, j)
    ensures Next(s, a).tasks[i].phase.WantWorker? ==> Next(s, a).tasks[i].phase == s.tasks[i].phase
  {
    if TaskStep(a) { MoveShape(s, a); }
  }

  lemma MemQueueStep(s: Pool, a: Action, i: nat, j: nat)
    requires TicketsBelow(s) && Enabled(s, a) && i < |s.tasks| && s.tasks[i].phase.WantMem? && s.budget > 0
    requires BehindMem(s, s.tasks[i].phase.ticket, j)
    ensures i < |Next(s, a).tasks|
    ensures Next(s, a).tasks[i].phase == s.tasks[i].phase ==> BehindMem(Next(s, a), s.tasks[i].phase.ticket, j)
    ensures Next(s, a).tasks[i].phase.WantMem? ==> Next(s, a).tasks[i].phase == s.tasks[i].phase
  {
    if TaskStep(a) { MoveShape(s, a); }
  }

  /** Nobody who comes to the worker gate after task i holds a permit while i still waits there. */
  lemma {:induction false} WorkersInTurn(s: Pool, run: seq<Action>, t: Pool, i: nat, j: nat)
    requires Runs(s, run, t) && TicketsBelow(s) && i < |s.tasks| && s.tasks[i].phase.WantWorker?
    requires BehindWorker(s, s.tasks[i].phase.ticket, j)
    ensures i < |t.tasks| && (t.tasks[i].phase == s.tasks[i].phase ==> BehindWorker(t, s.tasks[i].phase.ticket, j))
    ensures t.tasks[i].phase.WantWorker? ==> t.tasks[i].phase == s.tasks[i].phase
    decreases |run|
  {
    if |run| > 0 {
      var u := Next(s, run[0]);
      WorkerQueueStep(s, run[0], i, j);
      TicketsStep(s, run[0]);
      if u.tasks[i].phase == s.tasks[i].phase { WorkersInTurn(u, run[1..], t, i, j); } else { NeverBackToWorkers(u, run[1..], t, i); }
    }
  }

  lemma {:induction false} MemoryInTurn(s: Pool, run: seq<Action>, t: Pool, i: nat, j: nat)
    requires Runs(s, run, t) && TicketsBelow(s) && i < |s.tasks| && s.tasks[i].phase.WantMem? && s.budget > 0
    requires BehindMem(s, s.tasks[i].phase.ticket, j)
    ensures i < |t.tasks| && (t.tasks[i].phase == s.tasks[i].phase ==> BehindMem(t, s.tasks[i].phase.ticket, j))
    ensures t.tasks[i].phase.WantMem? ==> t.tasks[i].phase == s.tasks[i].phase
    decreases |run|
  {
    if |run| > 0 {
      var u := Next(s, run[0]);
      MemQueueStep(s, run[0], i, j);
      TicketsStep(s, run[0]);
      if TaskStep(run[0]) { MoveShape(s, run[0]); }
      if u.tasks[i].phase == s.tasks[i].phase { MemoryInTurn(u, run[1..], t, i, j); } else { NeverBackToMemory(u, run[1..], t, i); }
    }
  }

  predicate PastWorkerGate(p: Phase) { HasWorker(p) || p.Unlocked? || p.Done? }
  predicate PastMemGate(p: Phase) { p.Running? || p.Unwinding? || p.HoldsWorker? || p.Unlocked? || p.Done? }

  lemma {:induction false} NeverBackToWorkers(s: Pool, run: seq<Action>, t: Pool, i: nat)
    requires Runs(s, run, t) && i < |s.tasks| && PastWorkerGate(s.tasks[i].phase)
    ensures i < |t.tasks| && PastWorkerGate(t.tasks[i].phase)
    decreases |run|
  {
    if |run| > 0 {
      if TaskStep(run[0]) { MoveShape(s, run[0]); }
      NeverBackToWorkers(Next(s, run[0]), run[1..], t, i);
    }
  }

  lemma {:induction false} NeverBackToMemory(s: Pool, run: seq<Action>, t: Pool, i: nat)
    requires Runs(s, run, t) && i < |s.tasks| && PastMemGate(s.tasks[i].phase)
    ensures i < |t.tasks| && PastMemGate(t.tasks[i].phase)
    decreases |run|
  {
    if |run| > 0 {
      if TaskStep(run[0]) { MoveShape(s, run[0]); }
      NeverBackToMemory(Next(s, run[0]), run[1..], t, i);
    }
  }

  lemma {:induction false} TicketsRuns(s: Pool, run: seq<Action>, t: Pool)
    requires TicketsBelow(s) && Runs(s, run, t)
    ensures TicketsBelow(t)
    decreases |run|
  {
    if |run| > 0 {
      TicketsStep(s, run[0]);
      TicketsRuns(Next(s, run[0]), run[1..], t);
    }
  }

  /** First come, first served: from any reachable state on, as long as task i waits at a gate, no task that had not
      come to that gate when i stood there already gets through it. */
  lemma FirstComeFirstServed(workers: int, budget: int, before: seq<Action>, s: Pool, run: seq<Action>, t: Pool, i: nat, j: nat)
    requires Runs(Init(workers, budget), before, s) && Runs(s, run, t) && i < |s.tasks|
    ensures i < |t.tasks|
    ensures s.tasks[i].phase.WantWorker? && t.tasks[i].phase.WantWorker? && (j < |s.tasks| ==> s.tasks[j].phase.Spawned? || s.tasks[j].phase.Leading?) ==>
      (j < |t.tasks| ==> !HasWorker(t.tasks[j].phase))
    ensures s.tasks[i].phase.WantMem? && t.tasks[i].phase.WantMem? && (j < |s.tasks| ==> Before(s.tasks[j].phase) && !s.tasks[j].phase.WantMem?) ==>
      (j < |t.tasks| ==> !HasMem(t.tasks[j].phase))
  {
    InitInv(workers, budget);
    InvRuns(Init(workers, budget), before, s);
    TicketsRuns(Init(workers, budget), before, s);
    assert TaskOk(s, i);
    TasksStay(s, run, t);
    if s.tasks[i].phase.WantWorker? && (j < |s.tasks| ==> s.tasks[j].phase.Spawned? || s.tasks[j].phase.Leading?) {
      WorkersInTurn(s, run, t, i, j);
    }
    if s.tasks[i].phase.WantMem? && (j < |s.tasks| ==> Before(s.tasks[j].phase) && !s.tasks[j].phase.WantMem?) {
      MemoryInTurn(s, run, t, i, j);
    }
  }

  lemma {:induction false} TasksStay(s: Pool, run: seq<Action>, t: Pool)
    requires Runs(s, run, t)
    ensures |s.tasks| <= |t.tasks|
    decreases |run|
  {
    if |run| > 0 {
      if TaskStep(run[0]) { MoveShape(s, run[0]); }
      TasksStay(Next(s, run[0]), run[1..], t);
    }
  }

  // ---- The first error, and waiters after it ----

  /** Once an error is kept it stays: what Wait returns is the first goroutine to return one. */
  lemma {:induction false} FirstErrorStays(s: Pool, run: seq<Action>, t: Pool)
    requires Runs(s, run, t) && s.firstErr.Some?
    ensures t.firstErr == s.firstErr
    decreases |run|
  {
    if |run| > 0 { FirstErrorStays(Next(s, run[0]), run[1..], t); }
  }

  /** And the goroutine that is kept is the one that just returned without success. */
  lemma FirstErrorIsReturn(s: Pool, a: Action)
    requires Enabled(s, a) && s.firstErr.None? && Next(s, a).firstErr.Some?
    ensures (a.EndFlight? || a.Wake?) && Next(s, a).firstErr == Some(a.i) && Next(s, a).cancelled
    ensures a.i < |Next(s, a).tasks| && Next(s, a).tasks[a.i].phase.Done? && !Next(s, a).tasks[a.i].phase.ok
    ensures a.EndFlight? ==> s.tasks[a.i].phase.Unlocked? && !s.tasks[a.i].phase.out.Succeeded?
  {
  }

  function LeaveSteps(p: Phase, i: nat): seq<Action> {
    if p.WantMem? then [Abandon(i), ReleaseWorker(i), EndFlight(i)] else [Abandon(i), EndFlight(i)]
  }

  /** After cancellation a waiter needs nobody else to return, and its function never runs. */
  lemma CancelledWaiterLeaves(s: Pool, i: nat) returns (t: Pool)
    requires Inv(s) && s.cancelled && i < |s.tasks| && (s.tasks[i].phase.WantWorker? || s.tasks[i].phase.WantMem?)
    ensures Runs(s, LeaveSteps(s.tasks[i].phase, i), t)
    ensures |t.tasks| == |s.tasks| && t.tasks[i].phase == Done(false, i) && t.tasks[i].ran.None?
  {
    assert TaskOk(s, i);
    var a := Next(s, Abandon(i));
    var b := if s.tasks[i].phase.WantMem? then Next(a, ReleaseWorker(i)) else a;
    t := Next(b, EndFlight(i));
    var steps := LeaveSteps(s.tasks[i].phase, i);
    assert Runs(b, [EndFlight(i)], t) by { assert [EndFlight(i)][1..] == []; }
    if s.tasks[i].phase.WantMem? {
      assert steps[1..][1..] == [EndFlight(i)];
      assert Runs(a, steps[1..], t);
    } else {
      assert steps[1..] == [EndFlight(i)];
    }
  }

  predicate AllDone(s: Pool) {
    forall i :: 0 <= i < |s.tasks| ==> s.tasks[i].phase.Done?
  }

  lemma FlightHasLeader(s: Pool, k: Key)
    requires FlightsExact(s)
    ensures k in s.flights ==> s.flights[k] < |s.tasks| && Leads(s.tasks[s.flights[k]].phase)
  {
    if k in s.flights { assert FlightOk(s, k); }
  }

  /** At quiescence both semaphores and the flight table are empty again, errors and panics included. */
  lemma QuiescenceReleasesAll(s: Pool)
    requires Inv(s) && AllDone(s)
    ensures s.workerUsed == 0 && s.memUsed == 0 && s.flights == map[]
  {
    TotalZero(s.tasks, WorkerWeight());
    TotalZero(s.tasks, MemWeight(s.budget));
    forall k ensures k !in s.flights {
      FlightHasLeader(s, k);
    }
  }

  /** Task i returned the result of a flight of its key whose function ran and succeeded. */
  predicate FlightSucceeded(s: Pool, i: nat)
    requires i < |s.tasks|
  {
    && s.tasks[i].phase.Done?
    && s.tasks[i].phase.flight < |s.tasks|
    && s.tasks[s.tasks[i].phase.flight].key == s.tasks[i].key
    && s.tasks[s.tasks[i].phase.flight].ran == Some(Succeeded)
  }

  /** Wait's verdict: nil exactly when the function of every submission's flight succeeded. */
  lemma WaitVerdict(s: Pool)
    requires Inv(s) && AllDone(s)
    ensures s.firstErr.None? <==> forall i :: 0 <= i < |s.tasks| ==> FlightSucceeded(s, i)
  {
    forall i | 0 <= i < |s.tasks| ensures FlightSucceeded(s, i) <==> s.tasks[i].phase.ok {
      assert TaskOk(s, i);
    }
    if s.firstErr.Some? {
      assert !FlightSucceeded(s, s.firstErr.value);
    }
  }

  /** With pairwise distinct keys nothing is collapsed: every submission leads its own flight. */
  lemma DistinctKeysAllRun(s: Pool)
    requires Inv(s) && AllDone(s) && s.firstErr.None?
    requires forall i, j :: 0 <= i < j < |s.tasks| ==> s.tasks[i].key != s.tasks[j].key
    ensures forall i :: 0 <= i < |s.tasks| ==> s.tasks[i].ran == Some(Succeeded)
    ensures |s.log| == |s.tasks|
    ensures forall i :: 0 <= i < |s.tasks| ==> i in s.log
  {
    forall i | 0 <= i < |s.tasks| ensures s.tasks[i].ran == Some(Succeeded) {
      assert TaskOk(s, i);
      assert s.tasks[i].phase.flight == i;
    }
    assert forall i: nat :: i in s.log ==> exists p :: 0 <= p < |s.log| && s.log[p] == i;
    DistinctIndices(s.log, |s.tasks|);
  }

  // ---- Progress and termination ----

  /** Among the waiters on the worker gate the one with the smallest ticket. */
  lemma {:induction false} OldestWorkerExists(s: Pool, i: nat) returns (m: nat)
    requires i < |s.tasks| && s.tasks[i].phase.WantWorker?
    ensures m < |s.tasks| && s.tasks[m].phase.WantWorker? && OldestWorker(s, s.tasks[m].phase.ticket)
    decreases s.tasks[i].phase.ticket
  {
    if OldestWorker(s, s.tasks[i].phase.ticket) {
      m := i;
    } else {
      var j :| 0 <= j < |s.tasks| && s.tasks[j].phase.WantWorker? && s.tasks[j].phase.ticket < s.tasks[i].phase.ticket;
      m := OldestWorkerExists(s, j);
    }
  }

  lemma {:induction false} OldestMemExists(s: Pool, i: nat) returns (m: nat)
    requires i < |s.tasks| && s.tasks[i].phase.WantMem?
    ensures m < |s.tasks| && s.tasks[m].phase.WantMem? && OldestMem(s, s.tasks[m].phase.ticket)
    decreases s.tasks[i].phase.ticket
  {
    if OldestMem(s, s.tasks[i].phase.ticket) {
      m := i;
    } else {
      var j :| 0 <= j < |s.tasks| && s.tasks[j].phase.WantMem? && s.tasks[j].phase.ticket < s.tasks[i].phase.ticket;
      m := OldestMemExists(s, j);
    }
  }

  /** Phases that can always move by themselves. */
  predicate Ready(p: Phase) {
    p.Spawned? || p.Leading? || p.Permitted? || p.Running? || p.Unwinding? || p.HoldsWorker? || p.Unlocked?
  }

  /** No deadlock: until every goroutine has returned, some goroutine can step, even under first-in first-out queues. */
  lemma Progress(s: Pool) returns (a: Action)
    requires Inv(s) && !AllDone(s)
    ensures Enabled(s, a) && TaskStep(a) && !a.Abandon?
  {
    if i :| 0 <= i < |s.tasks| && Ready(s.tasks[i].phase) {
      match s.tasks[i].phase
      case Spawned => a := Enter(i);
      case Leading => a := QueueWorker(i);
      case Permitted => a := QueueMem(i);
      case Running => a := Finish(i, Succeeded);
      case Unwinding(_) => a := ReleaseMem(i);
      case HoldsWorker(_) => a := ReleaseWorker(i);
      case Unlocked(_) => a := EndFlight(i);
    } else if i :| 0 <= i < |s.tasks| && s.tasks[i].phase.WantMem? {
      TotalZero(s.tasks, MemWeight(s.budget));
      var m := OldestMemExists(s, i);
      assert TaskOk(s, m);
      a := GrantMem(m);
    } else if i :| 0 <= i < |s.tasks| && s.tasks[i].phase.WantWorker? {
      TotalZero(s.tasks, WorkerWeight());
      var m := OldestWorkerExists(s, i);
      a := GrantWorker(m);
    } else {
      var i :| 0 <= i < |s.tasks| && !s.tasks[i].phase.Done?;
      assert TaskOk(s, i);
      a := Wake(i);
    }
  }

  function PhaseRank(): Task -> int {
    (t: Task) =>
      match t.phase
      case Spawned => 9
      case Leading => 8
      case WantWorker(_) => 7
      case Permitted => 6
      case WantMem(_) => 5
      case Running => 4
      case Unwinding(_) => 3
      case HoldsWorker(_) => 2
      case Unlocked(_) => 1
      case Joined(_) => 1
      case Done(_, _) => 0
  }

  function Rank(s: Pool): int {
    Total(s.tasks, PhaseRank()) + if s.cancelled then 0 else 1
  }

  lemma RankBounds(s: Pool)
    ensures 0 <= Rank(s) <= 9 * |s.tasks| + 1
  {
    TotalNonNegative(s.tasks, PhaseRank());
    RankAtMost(s.tasks);
  }

  lemma {:induction false} RankAtMost(ts: seq<Task>)
    ensures Total(ts, PhaseRank()) <= 9 * |ts|
    decreases |ts|
  {
    if |ts| > 0 { RankAtMost(ts[1..]); }
  }

  /** Every action but a new submission strictly lowers the rank. */
  lemma RankDecreases(s: Pool, a: Action)
    requires Enabled(s, a) && !a.Submit?
    ensures Rank(Next(s, a)) < Rank(s)
  {
    if !a.Cancel? {
      var t := Next(s, a);
      MoveShape(s, a);
      TotalUpdate(s.tasks, a.i, t.tasks[a.i], PhaseRank());
    }
  }

  predicate Closed(run: seq<Action>) {
    forall k :: 0 <= k < |run| ==> !run[k].Submit?
  }

  /** Once submission stops, no run is longer than the rank: no livelock. */
  lemma {:induction false} RunsAreBounded(s: Pool, run: seq<Action>, t: Pool)
    requires Runs(s, run, t) && Closed(run)
    ensures |run| + Rank(t) <= Rank(s)
    decreases |run|
  {
    if |run| > 0 {
      RankDecreases(s, run[0]);
      assert forall k :: 0 <= k < |run[1..]| ==> run[1..][k] == run[k + 1];
      RunsAreBounded(Next(s, run[0]), run[1..], t);
    }
  }

  predicate TaskStep(a: Action) { !a.Submit? && !a.Cancel? }

  /** No goroutine can move. */
  ghost predicate Stuck(s: Pool) {
    forall a :: TaskStep(a) ==> !Enabled(s, a)
  }

  /** With everything returned no goroutine can move, and otherwise one can. */
  lemma StuckIffDone(s: Pool)
    requires Inv(s)
    ensures Stuck(s) <==> AllDone(s)
  {
    if AllDone(s) {
      forall a | TaskStep(a) ensures !Enabled(s, a) {}
    } else {
      var a := Progress(s);
      assert TaskStep(a) && Enabled(s, a);
    }
  }

  /**
   * Wait returns: from any reachable state every run without further submissions has at most
   * 9 steps per task plus one, and when it can go no further every goroutine has
   * returned and every permit is back.
   */
  lemma WaitReturns(workers: int, budget: int, before: seq<Action>, s: Pool, run: seq<Action>, t: Pool)
    requires Runs(Init(workers, budget), before, s)
    requires Runs(s, run, t) && Closed(run)
    ensures |run| <= 9 * |s.tasks| + 1
    ensures Stuck(t) <==> AllDone(t)
    ensures AllDone(t) ==> t.workerUsed == 0 && t.memUsed == 0 && t.flights == map[]
  {
    InitInv(workers, budget);
    InvRuns(Init(workers, budget), before, s);
    InvRuns(s, run, t);
    RunsAreBounded(s, run, t);
    RankBounds(s);
    RankBounds(t);
    StuckIffDone(t);
    if AllDone(t) { QuiescenceReleasesAll(t); }
  }

  // ---- Runs in which nothing fails ----

  predicate CleanTask(t: Task) {
    && t.ran != Some(Errored) && t.ran != Some(Panicked)
    && (t.phase.Unwinding? || t.phase.HoldsWorker? || t.phase.Unlocked? ==> t.phase.out.Succeeded?)
    && (t.phase.Done? ==> t.phase.ok)
  }

  predicate Clean(s: Pool) {
    !s.cancelled && forall i :: 0 <= i < |s.tasks| ==> CleanTask(s.tasks[i])
  }

  lemma CleanStep(s: Pool, a: Action)
    requires Inv(s) && Clean(s) && Enabled(s, a)
    requires !a.Cancel? && !a.Abandon? && (a.Finish? ==> a.out.Succeeded?)
    ensures Clean(Next(s, a))
  {
    if TaskStep(a) {
      MoveShape(s, a);
      assert CleanTask(s.tasks[a.i]);
      CleanActor(s, a);
      var t := Next(s, a);
      forall i | 0 <= i < |t.tasks| ensures CleanTask(t.tasks[i]) {
        if i != a.i { assert t.tasks[i] == s.tasks[i]; }
      }
    }
  }

  lemma CleanActor(s: Pool, a: Action)
    requires Clean(s) && Enabled(s, a) && TaskStep(a) && !a.Abandon? && (a.Finish? ==> a.out.Succeeded?)
    ensures CleanTask(Next(s, a).tasks[a.i]) && !Next(s, a).cancelled
  {
    assert CleanTask(s.tasks[a.i]);
    if a.Wake? { assert CleanTask(s.tasks[s.tasks[a.i].phase.leader]); }
  }

  lemma CleanHasNoError(s: Pool)
    requires Inv(s) && Clean(s)
    ensures s.firstErr.None?
  {
  }

  // ---- The pool itself, one method per atomic section ----

  class AdmissionPool {
    var workers: int
    var memBudget: int
    var tasks: seq<Task>
    var flights: map<Key, nat>     // the singleflight group
    var workerUsed: int            // workerSem
    var memUsed: int               // memSem, unused unless memBudget > 0
    var nextTicket: nat
    var cancelled: bool            // gctx
    var firstErr: Option<nat>      // kept by the errgroup
    ghost var log: seq<nat>

    ghost function State(): Pool
      reads this
    {
      Pool(workers, memBudget, tasks, flights, workerUsed, memUsed, nextTicket, cancelled, firstErr, log)
    }

    ghost predicate Valid()
      reads this
    {
      Inv(State())
    }

    constructor (workers: int, memoryBudget: int)
      ensures Valid() && State() == Init(workers, memoryBudget)
    {
      this.workers := if workers < 1 then 1 else workers;
      memBudget := memoryBudget;
      tasks, flights := [], map[];
      workerUsed, memUsed, nextTicket := 0, 0, 0;
      cancelled, firstErr, log := false, None, [];
      new;
      InitInv(workers, memoryBudget);
    }

    method Submit(key: Key, estimate: int)
      requires Valid()
      modifies this
      ensures Valid() && State() == Next(old(State()), Action.Submit(key, estimate))
    {
      ghost var after := Next(State(), Action.Submit(key, estimate));
      InvStep(State(), Action.Submit(key, estimate));
      var e := estimate;
      if e < 1 { e := 1; }
      if memBudget > 0 && e > memBudget { e := memBudget; }
      tasks := tasks + [Task(key, estimate, e, Spawned, None)];
      assert State() == after;
    }

    /** The goroutine reaches singleflight: it joins a registered flight or opens one. */
    method EnterFlight(i: nat)
      requires Valid() && Enabled(State(), Enter(i))
      modifies this
      ensures Valid() && State() == Next(old(State()), Enter(i))
    {
      ghost var after := Next(State(), Enter(i));
      InvStep(State(), Enter(i));
      var key := tasks[i].key;
      if key in flights {
        tasks := tasks[i := tasks[i].(phase := Joined(flights[key]))];
      } else {
        flights := flights[key := i];
        tasks := tasks[i := tasks[i].(phase := Leading)];
      }
      assert State() == after;
    }

    /** A leader arrives at the worker semaphore, behind everyone already queued there. */
    method ReachWorkerGate(i: nat)
      requires Valid() && Enabled(State(), Action.QueueWorker(i))
      modifies this
      ensures Valid() && State() == Next(old(State()), Action.QueueWorker(i))
    {
      ghost var after := Next(State(), Action.QueueWorker(i));
      InvStep(State(), Action.QueueWorker(i));
      tasks := tasks[i := tasks[i].(phase := WantWorker(nextTicket))];
      nextTicket := nextTicket + 1;
      assert State() == after;
    }

    method AcquireWorker(i: nat)
      requires Valid() && Enabled(State(), Action.GrantWorker(i))
      modifies this
      ensures Valid() && State() == Next(old(State()), Action.GrantWorker(i))
    {
      ghost var after := Next(State(), Action.GrantWorker(i));
      InvStep(State(), Action.GrantWorker(i));
      workerUsed := workerUsed + 1;
      tasks := tasks[i := tasks[i].(phase := if memBudget > 0 then Permitted else Running)];
      assert State() == after;
    }

    /** A permitted leader arrives at the memory semaphore, behind everyone already queued there. */
    method ReachMemGate(i: nat)
      requires Valid() && Enabled(State(), Action.QueueMem(i))
      modifies this
      ensures Valid() && State() == Next(old(State()), Action.QueueMem(i))
    {
      ghost var after := Next(State(), Action.QueueMem(i));
      InvStep(State(), Action.QueueMem(i));
      tasks := tasks[i := tasks[i].(phase := WantMem(nextTicket))];
      nextTicket := nextTicket + 1;
      assert State() == after;
    }

    method AcquireMem(i: nat)
      requires Valid() && Enabled(State(), Action.GrantMem(i))
      modifies this
      ensures Valid() && State() == Next(old(State()), Action.GrantMem(i))
    {
      ghost var after := Next(State(), Action.GrantMem(i));
      InvStep(State(), Action.GrantMem(i));
      memUsed := memUsed + tasks[i].est;
      tasks := tasks[i := tasks[i].(phase := Running)];
      assert State() == after;
    }

    /** A queued acquire gives up because the group's context is cancelled. */
    method AbandonAcquire(i: nat)
      requires Valid() && Enabled(State(), Action.Abandon(i))
      modifies this
      ensures Valid() && State() == Next(old(State()), Action.Abandon(i))
    {
      ghost var after := Next(State(), Action.Abandon(i));
      InvStep(State(), Action.Abandon(i));
      var p := if tasks[i].phase.WantMem? then HoldsWorker(Errored) else Unlocked(Errored);
      tasks := tasks[i := tasks[i].(phase := p)];
      assert State() == after;
    }

    method FunctionReturns(i: nat, out: Outcome)
      requires Valid() && Enabled(State(), Action.Finish(i, out))
      modifies this
      ensures Valid() && State() == Next(old(State()), Action.Finish(i, out))
    {
      ghost var after := Next(State(), Action.Finish(i, out));
      InvStep(State(), Action.Finish(i, out));
      var p := if memBudget > 0 then Unwinding(out) else HoldsWorker(out);
      tasks := tasks[i := tasks[i].(phase := p, ran := Some(out))];
      log := log + [i];
      assert State() == after;
    }

    /** First deferred release. */
    method GiveBackMem(i: nat)
      requires Valid() && Enabled(State(), Action.ReleaseMem(i))
      modifies this
      ensures Valid() && State() == Next(old(State()), Action.ReleaseMem(i))
    {
      ghost var after := Next(State(), Action.ReleaseMem(i));
      InvStep(State(), Action.ReleaseMem(i));
      memUsed := memUsed - tasks[i].est;
      tasks := tasks[i := tasks[i].(phase := HoldsWorker(tasks[i].phase.out))];
      assert State() == after;
    }

    /** Second deferred release. */
    method GiveBackWorker(i: nat)
      requires Valid() && Enabled(State(), Action.ReleaseWorker(i))
      modifies this
      ensures Valid() && State() == Next(old(State()), Action.ReleaseWorker(i))
    {
      ghost var after := Next(State(), Action.ReleaseWorker(i));
      InvStep(State(), Action.ReleaseWorker(i));
      workerUsed := workerUsed - 1;
      tasks := tasks[i := tasks[i].(phase := Unlocked(tasks[i].phase.out))];
      assert State() == after;
    }

    /** The leader deregisters its flight and returns, recovering a panic into an error. */
    method LeaderReturns(i: nat)
      requires Valid() && Enabled(State(), Action.EndFlight(i))
      modifies this
      ensures Valid() && State() == Next(old(State()), Action.EndFlight(i))
    {
      ghost var after := Next(State(), Action.EndFlight(i));
      InvStep(State(), Action.EndFlight(i));
      flights := flights - {tasks[i].key};
      GroupReturn(i, tasks[i].phase.out.Succeeded?, i);
      assert State() == after;
    }

    /** A joined goroutine receives the leader's result and returns it. */
    method JoinerReturns(i: nat)
      requires Valid() && Enabled(State(), Action.Wake(i))
      modifies this
      ensures Valid() && State() == Next(old(State()), Action.Wake(i))
    {
      ghost var after := Next(State(), Action.Wake(i));
      InvStep(State(), Action.Wake(i));
      var l := tasks[i].phase.leader;
      GroupReturn(i, tasks[l].phase.ok, l);
      assert State() == after;
    }

    method GroupReturn(i: nat, ok: bool, flight: nat)
      requires i < |tasks|
      modifies this
      ensures State() == Return(old(State()), i, ok, flight)
    {
      tasks := tasks[i := tasks[i].(phase := Done(ok, flight))];
      if !ok {
        cancelled := true;
        if firstErr.None? { firstErr := Some(i); }
      }
    }

    /** What Wait hands back once every goroutine has returned. */
    method Wait() returns (err: Option<nat>)
      requires Valid() && AllDone(State())
      ensures err.None? <==> forall i :: 0 <= i < |tasks| ==> FlightSucceeded(State(), i)
      ensures err.Some? ==> err.value < |tasks| && !FlightSucceeded(State(), err.value)
    {
      WaitVerdict(State());
      if firstErr.Some? { assert TaskOk(State(), firstErr.value); }
      err := firstErr;
    }
  }
}
