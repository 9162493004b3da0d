/**
 * The bounded errgroup used for priming: a channel of n slots, a guard that gives
 * cancellation priority at the start of Submit, and a deferred slot return.
 */
module WorkerPool {
  import opened Common

  datatype Outcome = Succeeded | Errored | Panicked

  datatype Phase =
    | Called                  // Submit entered, context not looked at yet
    | Selecting               // in the select between cancellation and a slot
    | Refusing                // will only report the context's error
    | Running                 // holds a slot
    | Exiting(out: Outcome)   // function over, deferred slot return pending
    | Returning(ok: bool)
    | Done(ok: bool)

  /** late: the context was already cancelled when Submit began; ran: how the function ended. */
  datatype Call = Call(late: bool, phase: Phase, ran: Option<Outcome>)

  datatype State = State(slots: int, calls: seq<Call>, used: int, cancelled: bool, failed: bool)

  datatype Action =
    | Begin
    | Cancel
    | Check(i: nat)
    | Take(i: nat)
    | GiveUp(i: nat)
    | Finish(i: nat, out: Outcome)
    | Release(i: nat)
    | Return(i: nat)

  function Init(n: int): State {
    State(if n < 1 then 1 else n, [], 0, false, false)
  }

  predicate Enabled(s: State, a: Action) {
    match a
    case Begin => true
    case Cancel => true
    case Check(i) => i < |s.calls| && s.calls[i].phase.Called?
    case Take(i) => i < |s.calls| && s.calls[i].phase.Selecting? && s.used < s.slots
    case GiveUp(i) => i < |s.calls| && s.calls[i].phase.Selecting? && s.cancelled
    case Finish(i, _) => i < |s.calls| && s.calls[i].phase.Running?
    case Release(i) => i < |s.calls| && s.calls[i].phase.Exiting?
    case Return(i) => i < |s.calls| && (s.calls[i].phase.Refusing? || s.calls[i].phase.Returning?)
  }

  function SetPhase(s: State, i: nat, p: Phase): State
    requires i < |s.calls|
  {
    s.(calls := s.calls[i := s.calls[i].(phase := p)])
  }

  function Next(s: State, a: Action): State
    requires Enabled(s, a)
  {
    match a
    case Begin => s.(calls := s.calls + [Call(s.cancelled, Called, None)])
    case Cancel => s.(cancelled := true)
    case Check(i) => SetPhase(s, i, if s.cancelled then Refusing else Selecting)
    case Take(i) => SetPhase(s.(used := s.used + 1), i, Running)
    case GiveUp(i) => SetPhase(s, i, Refusing)
    case Finish(i, out) => s.(calls := s.calls[i := s.calls[i].(phase := Exiting(out), ran := Some(out))])
    case Release(i) => SetPhase(s.(used := s.used - 1), i, Returning(s.calls[i].phase.out.Succeeded?))
    case Return(i) =>
      var ok := s.calls[i].phase.Returning? && s.calls[i].phase.ok;
      var t := SetPhase(s, i, Done(ok));
      if ok then t else t.(cancelled := true, failed := true)
  }

  predicate Runs(s: State, run: seq<Action>, t: State)
    decreases |run|
  {
    if |run| == 0 then s == t
    else Enabled(s, run[0]) && Runs(Next(s, run[0]), run[1..], t)
  }

  function SlotWeight(): Call -> int { (c: Call) => if c.phase.Running? || c.phase.Exiting? then 1 else 0 }
  function RunningWeight(): Call -> int { (c: Call) => if c.phase.Running? then 1 else 0 }

  predicate CallOk(s: State, c: Call) {
    && (c.late ==> s.cancelled && c.ran.None? && (c.phase.Called? || c.phase.Refusing? || c.phase == Done(false)))
    && (c.phase.Called? || c.phase.Selecting? || c.phase.Refusing? || c.phase.Running? ==> c.ran.None?)
    && (c.phase.Exiting? ==> c.ran == Some(c.phase.out))
    && (c.phase.Returning? || c.phase.Done? ==> (c.phase.ok <==> c.ran == Some(Succeeded)))
    && (c.phase == Done(false) ==> s.failed)
  }

  predicate SlotsExact(s: State) {
    s.used == Total(s.calls, SlotWeight()) && s.used <= s.slots
  }

  predicate FailureExact(s: State) {
    s.failed ==> s.cancelled && exists i :: 0 <= i < |s.calls| && s.calls[i].phase == Done(false)
  }

  predicate Inv(s: State) {
    && 1 <= s.slots
    && SlotsExact(s)
    && (forall i :: 0 <= i < |s.calls| ==> CallOk(s, s.calls[i]))
    && FailureExact(s)
  }

  lemma SlotsStep(s: State, a: Action)
    requires SlotsExact(s) && Enabled(s, a)
    ensures SlotsExact(Next(s, a))
  {
    var t := Next(s, a);
    if a.Begin? {
      TotalAppend(s.calls, t.calls[|s.calls|], SlotWeight());
    } else if !a.Cancel? {
      assert t.calls == s.calls[a.i := t.calls[a.i]];
      TotalUpdate(s.calls, a.i, t.calls[a.i], SlotWeight());
    }
  }

  lemma CallsStep(s: State, a: Action)
    requires Enabled(s, a)
    requires forall i :: 0 <= i < |s.calls| ==> CallOk(s, s.calls[i])
    ensures forall i :: 0 <= i < |Next(s, a).calls| ==> CallOk(Next(s, a), Next(s, a).calls[i])
  {
    var t := Next(s, a);
    forall i | 0 <= i < |t.calls| ensures CallOk(t, t.calls[i]) {
      if i < |s.calls| { assert CallOk(s, s.calls[i]); }
    }
  }

  lemma FailureStep(s: State, a: Action)
    requires FailureExact(s) && Enabled(s, a)
    ensures FailureExact(Next(s, a))
  {
    var t := Next(s, a);
    if t.failed {
      if s.failed {
        var i :| 0 <= i < |s.calls| && s.calls[i].phase == Done(false);
        assert t.calls[i].phase == Done(false);
      } else {
        assert t.calls[a.i].phase == Done(false);
      }
    }
  }

  lemma InvStep(s: State, a: Action)
    requires Inv(s) && Enabled(s, a)
    ensures Inv(Next(s, a))
  {
    SlotsStep(s, a);
    CallsStep(s, a);
    FailureStep(s, a);
  }

  lemma {:induction false} InvRuns(s: State, run: seq<Action>, t: State)
    requires Inv(s) && Runs(s, run, t)
    ensures Inv(t) && t.slots == s.slots
    decreases |run|
  {
    if |run| > 0 {
      InvStep(s, run[0]);
      InvRuns(Next(s, run[0]), run[1..], t);
    }
  }

  predicate AllDone(s: State) { forall i :: 0 <= i < |s.calls| ==> s.calls[i].phase.Done? }

  /** When every goroutine has returned the slots are back, and no error is held exactly when all ran and succeeded. */
  lemma Verdict(s: State)
    requires Inv(s) && AllDone(s)
    ensures s.used == 0 && (!s.failed <==> forall i :: 0 <= i < |s.calls| ==> s.calls[i].ran == Some(Succeeded))
  {
    TotalZero(s.calls, SlotWeight());
    forall i | 0 <= i < |s.calls| ensures CallOk(s, s.calls[i]) {}
    if s.failed {
      var i :| 0 <= i < |s.calls| && s.calls[i].phase == Done(false);
      assert CallOk(s, s.calls[i]);
    }
  }

  /** Over every run: at most n functions run, a Submit begun after cancellation never runs its function,
      every slot is back once all goroutines have returned, and Wait is nil exactly when every
      submission ran and succeeded. */
  lemma EveryRun(n: int, run: seq<Action>, s: State)
    requires Runs(Init(n), run, s)
    ensures Total(s.calls, RunningWeight()) <= if n < 1 then 1 else n
    ensures forall i :: 0 <= i < |s.calls| && s.calls[i].late ==> s.calls[i].ran.None? && !s.calls[i].phase.Running?
    ensures AllDone(s) ==> s.used == 0 && (!s.failed <==> forall i :: 0 <= i < |s.calls| ==> s.calls[i].ran == Some(Succeeded))
  {
    InvRuns(Init(n), run, s);
    TotalMonotone(s.calls, RunningWeight(), SlotWeight());
    forall i | 0 <= i < |s.calls| ensures CallOk(s, s.calls[i]) {}
    if AllDone(s) { Verdict(s); }
  }

  /** A waiting Submit gets a slot exactly while fewer than n functions hold one: nothing else keeps it out. */
  lemma SlotIsFree(n: int, run: seq<Action>, s: State, i: nat)
    requires Runs(Init(n), run, s) && i < |s.calls| && s.calls[i].phase.Selecting?
    ensures Enabled(s, Take(i)) <==> Total(s.calls, SlotWeight()) < if n < 1 then 1 else n
  {
    InvRuns(Init(n), run, s);
  }

  /** Until every goroutine has returned some goroutine can step: a Submit blocked on a full pool waits for a running function. */
  lemma Progress(s: State) returns (a: Action)
    requires Inv(s)
    requires exists i :: 0 <= i < |s.calls| && !s.calls[i].phase.Done?
    ensures Enabled(s, a) && !a.Begin? && !a.Cancel?
  {
    if i :| 0 <= i < |s.calls| && !s.calls[i].phase.Done? && !s.calls[i].phase.Selecting? {
      match s.calls[i].phase
      case Called => a := Check(i);
      case Refusing => a := Return(i);
      case Running => a := Finish(i, Succeeded);
      case Exiting(_) => a := Release(i);
      case Returning(_) => a := Return(i);
    } else {
      var i :| 0 <= i < |s.calls| && s.calls[i].phase.Selecting?;
      TotalZero(s.calls, SlotWeight());
      a := Take(i);
    }
  }

  class Pool {
    var slots: int
    var calls: seq<Call>
    var used: int        // the buffered channel's length
    var cancelled: bool
    var failed: bool     // the errgroup holds an error

    ghost function Contents(): State
      reads this
    {
      State(slots, calls, used, cancelled, failed)
    }

    ghost predicate Valid()
      reads this
    {
      Inv(Contents())
    }

    constructor (n: int)
      ensures Valid() && Contents() == Init(n)
    {
      slots := if n < 1 then 1 else n;
      calls, used, cancelled, failed := [], 0, false, false;
    }

    method BeginSubmit() returns (i: nat)
      requires Valid()
      modifies this
      ensures Valid() && Contents() == Next(old(Contents()), Begin) && i == old(|calls|)
    {
      InvStep(Contents(), Begin);
      i := |calls|;
      calls := calls + [Call(cancelled, Called, None)];
    }

    /** The guard before the select, the reason a late Submit cannot slip through. */
    method CheckContext(i: nat)
      requires Valid() && Enabled(Contents(), Check(i))
      modifies this
      ensures Valid() && Contents() == Next(old(Contents()), Check(i))
    {
      InvStep(Contents(), Check(i));
      calls := calls[i := calls[i].(phase := if cancelled then Refusing else Selecting)];
    }

    method TakeSlot(i: nat)
      requires Valid() && Enabled(Contents(), Take(i))
      modifies this
      ensures Valid() && Contents() == Next(old(Contents()), Take(i))
    {
      InvStep(Contents(), Take(i));
      used := used + 1;
      calls := calls[i := calls[i].(phase := Running)];
    }

    method GiveUpWaiting(i: nat)
      requires Valid() && Enabled(Contents(), GiveUp(i))
      modifies this
      ensures Valid() && Contents() == Next(old(Contents()), GiveUp(i))
    {
      InvStep(Contents(), GiveUp(i));
      calls := calls[i := calls[i].(phase := Refusing)];
    }

    method FunctionReturns(i: nat, out: Outcome)
      requires Valid() && Enabled(Contents(), Finish(i, out))
      modifies this
      ensures Valid() && Contents() == Next(old(Contents()), Finish(i, out))
    {
      InvStep(Contents(), Finish(i, out));
      calls := calls[i := calls[i].(phase := Exiting(out), ran := Some(out))];
    }

    /** Runs on panic too: the slot goes back before the panic is recovered. */
    method ReturnSlot(i: nat)
      requires Valid() && Enabled(Contents(), Release(i))
      modifies this
      ensures Valid() && Contents() == Next(old(Contents()), Release(i))
    {
      InvStep(Contents(), Release(i));
      used := used - 1;
      calls := calls[i := calls[i].(phase := Returning(calls[i].phase.out.Succeeded?))];
    }

    method GoroutineReturns(i: nat)
      requires Valid() && Enabled(Contents(), Return(i))
      modifies this
      ensures Valid() && Contents() == Next(old(Contents()), Return(i))
    {
      InvStep(Contents(), Return(i));
      var ok := calls[i].phase.Returning? && calls[i].phase.ok;
      calls := calls[i := calls[i].(phase := Done(ok))];
      if !ok { cancelled, failed := true, true; }
    }

    /** Returns once every goroutine has: nil exactly when every submission ran and succeeded. */
    method Wait() returns (isNil: bool)
      requires Valid() && AllDone(Contents())
      ensures isNil <==> forall i :: 0 <= i < |calls| ==> calls[i].ran == Some(Succeeded)
    {
      Verdict(Contents());
      isNil := !failed;
    }
  }
}
