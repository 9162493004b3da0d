/**
 * The exporter's baseline spool.  A layer is streamed straight into its final file while a
 * fingerprinter reads as much of the stream as it likes; there is no temporary file, so a committed
 * file survives only because the flight's re-check keeps every later caller from opening it again.
 *
 * A write that fails while the fingerprinter pulls the tee is reported to the fingerprinter alone,
 * whose errors do not stop the spooling: the bytes are consumed but not stored.  So a committed file
 * is the fetched stream exactly when no such write was lost.
 */
module ExportSpool {
  import opened Common
  import opened Fingerprint
  import opened Workdir

  /** fp is None when fingerprinting failed. */
  datatype Entry = Entry(path: Path, fp: Option<Print>)

  datatype Phase =
    | Called
    | Missed
    | Joined(leader: nat)
    | Leading                                                       // inside the flight, re-check pending
    | Fetching
    | Printing(stream: Bytes, pos: nat)                             // the fingerprinter pulls the tee
    | Draining(stream: Bytes, pos: nat, fp: Option<Print>)
    | Synced(stream: Bytes, fp: Option<Print>)
    | Failing                                                       // deferred removal pending
    | Settled(r: Option<Entry>)
    | Returned(r: Option<Entry>)

  datatype Task = Task(d: Digest, phase: Phase)

  /** fetched: for every commit, the bytes its fetch delivered; author: the task that committed;
      torn: the tasks that lost bytes in the fingerprint pass. */
  datatype State = State(
    files: Files, entries: map<Digest, Entry>, flights: map<Digest, nat>, tasks: seq<Task>,
    fetched: map<Digest, Bytes>, author: map<Digest, nat>, torn: set<nat>)

  datatype Action =
    | Call(d: Digest)
    | Lookup(i: nat)
    | Enter(i: nat)
    | Recheck(i: nat)
    | FetchFails(i: nat)
    | Create(i: nat, stream: Bytes)
    | Pull(i: nat, n: nat)                        // the fingerprinter reads n bytes through the tee
    | Tear(i: nat, n: nat, written: nat)          // a pull whose write stores only written bytes
    | Printed(i: nat, fp: Option<Print>)       // it stops, wherever it got to
    | Drain(i: nat, n: nat)
    | Sync(i: nat)
    | CopyFails(i: nat)
    | Commit(i: nat)
    | Cleanup(i: nat)
    | Land(i: nat)
    | Wake(i: nat)

  function PathFor(d: Digest): Path { BaselineFile(Encoded(d)) }

  /** Layer digests are canonical; NonCanonicalDigestsCollide shows why that matters. */
  predicate Enabled(s: State, a: Action) {
    match a
    case Call(d) => Canonical(d)
    case Lookup(i) => i < |s.tasks| && s.tasks[i].phase.Called?
    case Enter(i) => i < |s.tasks| && s.tasks[i].phase.Missed?
    case Recheck(i) => i < |s.tasks| && s.tasks[i].phase.Leading?
    case FetchFails(i) => i < |s.tasks| && s.tasks[i].phase.Fetching?
    case Create(i, _) => i < |s.tasks| && s.tasks[i].phase.Fetching?
    case Pull(i, n) =>
      && i < |s.tasks| && s.tasks[i].phase.Printing? && s.tasks[i].phase.pos + n <= |s.tasks[i].phase.stream|
      && PathFor(s.tasks[i].d) in s.files
    case Tear(i, n, written) =>
      && i < |s.tasks| && s.tasks[i].phase.Printing? && s.tasks[i].phase.pos + n <= |s.tasks[i].phase.stream|
      && PathFor(s.tasks[i].d) in s.files && written < n
    case Printed(i, _) => i < |s.tasks| && s.tasks[i].phase.Printing?
    case Drain(i, n) =>
      && i < |s.tasks| && s.tasks[i].phase.Draining? && s.tasks[i].phase.pos + n <= |s.tasks[i].phase.stream|
      && PathFor(s.tasks[i].d) in s.files
    case Sync(i) => i < |s.tasks| && s.tasks[i].phase.Draining? && s.tasks[i].phase.pos == |s.tasks[i].phase.stream|
    case CopyFails(i) => i < |s.tasks| && (s.tasks[i].phase.Draining? || s.tasks[i].phase.Synced?)
    case Commit(i) => i < |s.tasks| && s.tasks[i].phase.Synced?
    case Cleanup(i) => i < |s.tasks| && s.tasks[i].phase.Failing?
    case Land(i) => i < |s.tasks| && s.tasks[i].phase.Settled?
    case Wake(i) =>
      && i < |s.tasks| && s.tasks[i].phase.Joined?
      && s.tasks[i].phase.leader < |s.tasks| && s.tasks[s.tasks[i].phase.leader].phase.Returned?
  }

  function Go(s: State, i: nat, p: Phase): State
    requires i < |s.tasks|
  {
    s.(tasks := s.tasks[i := s.tasks[i].(phase := p)])
  }

  /** Writing through the tee: the open file grows by stream[pos..pos + n]. */
  function Tee(files: Files, p: Path, stream: Bytes, pos: nat, n: nat): Files
    requires pos + n <= |stream| && p in files
  {
    files[p := files[p] + stream[pos..pos + n]]
  }

  function Found(s: State, d: Digest): Option<Entry> { if d in s.entries then Some(s.entries[d]) else None }

  function Next(s: State, a: Action): State
    requires Enabled(s, a)
  {
    match a
    case Call(d) => s.(tasks := s.tasks + [Task(d, Called)])
    case Lookup(i) => Go(s, i, if s.tasks[i].d in s.entries then Returned(Found(s, s.tasks[i].d)) else Missed)
    case Enter(i) =>
      if s.tasks[i].d in s.flights then Go(s, i, Joined(s.flights[s.tasks[i].d]))
      else Go(s.(flights := s.flights[s.tasks[i].d := i]), i, Leading)
    case Recheck(i) => Go(s, i, if s.tasks[i].d in s.entries then Settled(Found(s, s.tasks[i].d)) else Fetching)
    case FetchFails(i) => Go(s, i, Settled(None))
    case Create(i, stream) => Go(s.(files := s.files[PathFor(s.tasks[i].d) := []]), i, Printing(stream, 0))
    case Pull(i, n) =>
      var p := s.tasks[i].phase;
      Go(s.(files := Tee(s.files, PathFor(s.tasks[i].d), p.stream, p.pos, n)), i, Printing(p.stream, p.pos + n))
    case Tear(i, n, written) =>
      var p := s.tasks[i].phase;
      Go(s.(files := Tee(s.files, PathFor(s.tasks[i].d), p.stream, p.pos, written), torn := s.torn + {i}), i, Printing(p.stream, p.pos + n))
    case Printed(i, fp) => Go(s, i, Draining(s.tasks[i].phase.stream, s.tasks[i].phase.pos, fp))
    case Drain(i, n) =>
      var p := s.tasks[i].phase;
      Go(s.(files := Tee(s.files, PathFor(s.tasks[i].d), p.stream, p.pos, n)), i, Draining(p.stream, p.pos + n, p.fp))
    case Sync(i) => Go(s, i, Synced(s.tasks[i].phase.stream, s.tasks[i].phase.fp))
    case CopyFails(i) => Go(s, i, Failing)
    case Commit(i) =>
      var d := s.tasks[i].d;
      var e := Entry(PathFor(d), s.tasks[i].phase.fp);
      Go(s.(entries := s.entries[d := e], fetched := s.fetched[d := s.tasks[i].phase.stream], author := s.author[d := i]),
         i, Settled(Some(e)))
    case Cleanup(i) => Go(s.(files := s.files - {PathFor(s.tasks[i].d)}), i, Settled(None))
    case Land(i) => Go(s.(flights := s.flights - {s.tasks[i].d}), i, Returned(s.tasks[i].phase.r))
    case Wake(i) => Go(s, i, Returned(s.tasks[s.tasks[i].phase.leader].phase.r))
  }

  predicate Runs(s: State, run: seq<Action>, t: State)
    decreases |run|
  {
    if |run| == 0 then s == t
    else Enabled(s, run[0]) && Runs(Next(s, run[0]), run[1..], t)
  }

  function Init(): State { State(map[], map[], map[], [], map[], map[], {}) }

  /** Two malformed digests may name one file, so the spool needs canonical ones. */
  lemma NonCanonicalDigestsCollide(rest: string)
    ensures "sha256:" + rest != "sha512:" + rest
    ensures PathFor("sha256:" + rest) == PathFor("sha512:" + rest)
  {
    assert ("sha256:" + rest)[3] != ("sha512:" + rest)[3];
    assert ("sha256:" + rest)[7..] == rest && ("sha512:" + rest)[7..] == rest;
  }

  // ---- The invariant ----

  /** Past the re-check and before the commit: the only phases that touch the file. */
  predicate Busy(p: Phase) { p.Fetching? || p.Printing? || p.Draining? || p.Synced? || p.Failing? }
  predicate Leads(p: Phase) { p.Leading? || Busy(p) || p.Settled? }
  predicate Won(p: Phase) { (p.Settled? || p.Returned?) && p.r.Some? }

  predicate Holds(files: Files, d: Digest, data: Bytes) { PathFor(d) in files && files[PathFor(d)] == data }

  /** d's file is what was read so far, or is shorter once a write was lost. */
  predicate Stored(files: Files, d: Digest, data: Bytes, torn: bool) {
    PathFor(d) in files && if torn then |files[PathFor(d)]| < |data| else files[PathFor(d)] == data
  }

  predicate Ended(p: Phase) { p.Settled? || p.Returned? }

  predicate EntryOk(s: State, d: Digest)
    requires d in s.entries
  {
    && Canonical(d) && d in s.fetched && d in s.author && s.entries[d].path == PathFor(d)
    && s.author[d] < |s.tasks| && s.tasks[s.author[d]].d == d && Ended(s.tasks[s.author[d]].phase)
    && Stored(s.files, d, s.fetched[d], s.author[d] in s.torn)
  }

  predicate FlightOk(s: State, d: Digest)
    requires d in s.flights
  {
    s.flights[d] < |s.tasks| && s.tasks[s.flights[d]].d == d && Leads(s.tasks[s.flights[d]].phase)
  }

  predicate WrittenOk(files: Files, t: Task, torn: bool) {
    match t.phase
    case Printing(x, pos) => pos <= |x| && Stored(files, t.d, x[..pos], torn)
    case Draining(x, pos, _) => pos <= |x| && Stored(files, t.d, x[..pos], torn)
    case Synced(x, _) => Stored(files, t.d, x, torn)
    case _ => true
  }

  /** Nothing has been read yet. */
  predicate Early(p: Phase) { p.Called? || p.Missed? || p.Joined? || p.Leading? || p.Fetching? }

  predicate TaskOk(s: State, i: nat)
    requires i < |s.tasks|
  {
    var t := s.tasks[i];
    && Canonical(t.d)
    && (Leads(t.phase) ==> t.d in s.flights && s.flights[t.d] == i)
    && (Busy(t.phase) ==> t.d !in s.entries)
    && WrittenOk(s.files, t, i in s.torn) && (Early(t.phase) ==> i !in s.torn)
    && (Won(t.phase) ==> t.d in s.entries && t.phase.r == Some(s.entries[t.d]))
    && (t.phase.Joined? ==>
          && t.phase.leader < |s.tasks| && s.tasks[t.phase.leader].d == t.d
          && (Leads(s.tasks[t.phase.leader].phase) || s.tasks[t.phase.leader].phase.Returned?))
  }

  predicate Inv(s: State) {
    && (forall d :: d in s.entries ==> EntryOk(s, d))
    && (forall d :: d in s.flights ==> FlightOk(s, d))
    && (forall i :: 0 <= i < |s.tasks| ==> TaskOk(s, i))
    && (forall i :: i in s.torn ==> i < |s.tasks|)
  }

  lemma InitInv()
    ensures Inv(Init())
  {
  }

  // ---- Steps ----

  predicate Moved(s: State, t: State, i: nat)
    requires i < |s.tasks|
  {
    |t.tasks| == |s.tasks| && t.tasks == s.tasks[i := t.tasks[i]] && t.tasks[i].d == s.tasks[i].d
  }

  /** A step touches the file of its own digest only, and only while that digest is not committed. */
  ghost predicate Effect(s: State, t: State, i: nat)
    requires i < |s.tasks|
  {
    var d := s.tasks[i].d;
    && (forall q :: q in s.files && q != PathFor(d) ==> q in t.files && t.files[q] == s.files[q])
    && (!Busy(s.tasks[i].phase) ==> t.files == s.files)
    && (forall x :: x in s.entries && x != d ==> x in t.entries && t.entries[x] == s.entries[x])
    && (forall x :: x in t.entries && x !in s.entries ==> x == d)
    && (forall x :: x in s.fetched && x != d ==> x in t.fetched && t.fetched[x] == s.fetched[x])
    && (forall x :: x in s.author && x != d ==> x in t.author && t.author[x] == s.author[x])
    && (!Busy(s.tasks[i].phase) ==> t.entries == s.entries && t.fetched == s.fetched && t.author == s.author)
    && s.torn <= t.torn && t.torn <= s.torn + {i} && (t.torn != s.torn ==> Busy(s.tasks[i].phase))
  }

  lemma StepShape(s: State, a: Action)
    requires Enabled(s, a) && !a.Call?
    ensures a.i < |s.tasks| && Moved(s, Next(s, a), a.i)
  {
  }

  predicate Writes(a: Action) { a.Create? || a.Pull? || a.Tear? || a.Drain? || a.Cleanup? }

  lemma WriteEffect(s: State, a: Action)
    requires Enabled(s, a) && Writes(a)
    ensures Effect(s, Next(s, a), a.i)
  {
  }

  lemma StepEffect(s: State, a: Action)
    requires Enabled(s, a) && !a.Call?
    ensures Effect(s, Next(s, a), a.i)
  {
    if Writes(a) { WriteEffect(s, a); }
  }

  lemma StepFlights(s: State, a: Action)
    requires Enabled(s, a) && !a.Call?
    ensures var t := Next(s, a); var d := s.tasks[a.i].d;
      if a.Enter? && d !in s.flights then t.flights == s.flights[d := a.i] && Leads(t.tasks[a.i].phase) && !Leads(s.tasks[a.i].phase)
      else if a.Land? then t.flights == s.flights - {d} && Leads(s.tasks[a.i].phase) && t.tasks[a.i].phase.Returned?
      else t.flights == s.flights && Leads(t.tasks[a.i].phase) == Leads(s.tasks[a.i].phase)
    ensures !s.tasks[a.i].phase.Returned?
  {
  }

  lemma FlightsKept(s: State, a: Action)
    requires Enabled(s, a) && !a.Call? && TaskOk(s, a.i)
    requires forall d :: d in s.flights ==> FlightOk(s, d)
    ensures forall d :: d in Next(s, a).flights ==> FlightOk(Next(s, a), d)
  {
    StepShape(s, a);
    StepFlights(s, a);
    var t := Next(s, a);
    forall d | d in t.flights ensures FlightOk(t, d) {
      if d in s.flights { assert FlightOk(s, d); }
    }
  }

  /** An uncommitted digest's file is written by its one leader, so no other task's file changes. */
  lemma OtherFile(s: State, a: Action, d: Digest)
    requires Enabled(s, a) && !a.Call? && Canonical(d) && Canonical(s.tasks[a.i].d)
    requires PathFor(d) in s.files
    requires d != s.tasks[a.i].d || !Busy(s.tasks[a.i].phase)
    ensures Holds(Next(s, a).files, d, s.files[PathFor(d)])
  {
    StepEffect(s, a);
    if PathFor(d) == PathFor(s.tasks[a.i].d) { EncodedInjective(d, s.tasks[a.i].d); }
  }

  lemma OtherWritten(s: State, a: Action, j: nat)
    requires Enabled(s, a) && !a.Call? && j < |s.tasks| && j != a.i
    requires TaskOk(s, a.i) && TaskOk(s, j)
    ensures WrittenOk(Next(s, a).files, s.tasks[j], j in s.torn)
  {
    var p := s.tasks[j].phase;
    if p.Printing? || p.Draining? || p.Synced? { OtherFile(s, a, s.tasks[j].d); }
  }

  lemma OtherTask(s: State, a: Action, j: nat)
    requires Enabled(s, a) && !a.Call? && j < |s.tasks| && j != a.i
    requires TaskOk(s, a.i) && TaskOk(s, j)
    ensures j < |Next(s, a).tasks| && TaskOk(Next(s, a), j)
  {
    StepShape(s, a);
    StepEffect(s, a);
    StepFlights(s, a);
    OtherWritten(s, a, j);
    assert Next(s, a).tasks[j] == s.tasks[j];
  }

  predicate LookStep(a: Action) { a.Lookup? || a.Recheck? || a.Land? }
  predicate JoinStep(a: Action) { a.Enter? || a.Wake? }
  predicate FailStep(a: Action) { a.FetchFails? || a.CopyFails? || a.Cleanup? }

  lemma ActingLook(s: State, a: Action)
    requires Enabled(s, a) && LookStep(a) && TaskOk(s, a.i)
    ensures TaskOk(Next(s, a), a.i)
  {
    var t := Next(s, a);
    assert t.files == s.files && t.entries == s.entries;
  }

  lemma ActingJoin(s: State, a: Action)
    requires Enabled(s, a) && JoinStep(a) && TaskOk(s, a.i)
    requires a.Enter? && s.tasks[a.i].d in s.flights ==> FlightOk(s, s.tasks[a.i].d)
    requires a.Wake? ==> TaskOk(s, s.tasks[a.i].phase.leader)
    ensures TaskOk(Next(s, a), a.i)
  {
    var t := Next(s, a);
    assert t.files == s.files && t.entries == s.entries;
  }

  lemma ActingFail(s: State, a: Action)
    requires Enabled(s, a) && FailStep(a) && TaskOk(s, a.i)
    ensures TaskOk(Next(s, a), a.i)
  {
    assert Next(s, a).entries == s.entries;
  }

  lemma ActingCopy(s: State, a: Action)
    requires Enabled(s, a) && (a.Pull? || a.Drain?) && TaskOk(s, a.i)
    ensures TaskOk(Next(s, a), a.i)
  {
    if a.Pull? { ActingPull(s, a); } else { ActingDrain(s, a); }
  }

  lemma ActingPull(s: State, a: Action)
    requires Enabled(s, a) && a.Pull? && TaskOk(s, a.i)
    ensures TaskOk(Next(s, a), a.i)
  {
    var p := s.tasks[a.i].phase;
    assert p.stream[..p.pos] + p.stream[p.pos..p.pos + a.n] == p.stream[..p.pos + a.n];
  }

  lemma ActingDrain(s: State, a: Action)
    requires Enabled(s, a) && a.Drain? && TaskOk(s, a.i)
    ensures TaskOk(Next(s, a), a.i)
  {
    var p := s.tasks[a.i].phase;
    assert p.stream[..p.pos] + p.stream[p.pos..p.pos + a.n] == p.stream[..p.pos + a.n];
  }

  lemma ActingTear(s: State, a: Action)
    requires Enabled(s, a) && a.Tear? && TaskOk(s, a.i)
    ensures TaskOk(Next(s, a), a.i)
  {
    var p := s.tasks[a.i].phase;
    var path := PathFor(s.tasks[a.i].d);
    assert |s.files[path]| <= p.pos;
    assert |Next(s, a).files[path]| == |s.files[path]| + a.written;
  }

  lemma ActingWrite(s: State, a: Action)
    requires Enabled(s, a) && (a.Create? || a.Printed? || a.Sync? || a.Commit?) && TaskOk(s, a.i)
    ensures TaskOk(Next(s, a), a.i)
  {
    if a.Sync? { assert s.tasks[a.i].phase.stream[..s.tasks[a.i].phase.pos] == s.tasks[a.i].phase.stream; }
  }

  lemma EntryKept(s: State, a: Action, d: Digest)
    requires Enabled(s, a) && !a.Call? && TaskOk(s, a.i) && d in s.entries && EntryOk(s, d)
    ensures d in Next(s, a).entries && EntryOk(Next(s, a), d)
  {
    StepShape(s, a);
    StepEffect(s, a);
    StepFlights(s, a);
    OtherFile(s, a, d);
    EndedStays(s, a);
  }

  /** A finished call is never busy again. */
  lemma EndedStays(s: State, a: Action)
    requires Enabled(s, a) && !a.Call?
    ensures Ended(s.tasks[a.i].phase) ==> Ended(Next(s, a).tasks[a.i].phase) && Next(s, a).torn == s.torn
  {
  }

  lemma EntryMade(s: State, i: nat)
    requires Enabled(s, Commit(i)) && TaskOk(s, i)
    ensures s.tasks[i].d in Next(s, Commit(i)).entries && EntryOk(Next(s, Commit(i)), s.tasks[i].d)
  {
  }

  lemma EntriesKept(s: State, a: Action)
    requires Enabled(s, a) && !a.Call? && TaskOk(s, a.i)
    requires forall d :: d in s.entries ==> EntryOk(s, d)
    ensures forall d :: d in Next(s, a).entries ==> EntryOk(Next(s, a), d)
  {
    StepEffect(s, a);
    var t := Next(s, a);
    forall d | d in t.entries ensures EntryOk(t, d) {
      if d in s.entries { EntryKept(s, a, d); } else { EntryMade(s, a.i); }
    }
  }

  lemma CallStep(s: State, a: Action)
    requires Inv(s) && Enabled(s, a) && a.Call?
    ensures Inv(Next(s, a))
  {
    var t := Next(s, a);
    forall d | d in t.entries ensures EntryOk(t, d) { assert EntryOk(s, d); }
    forall d | d in t.flights ensures FlightOk(t, d) { assert FlightOk(s, d); }
    forall i | 0 <= i < |t.tasks| ensures TaskOk(t, i) {
      if i < |s.tasks| { assert TaskOk(s, i) && t.tasks[i] == s.tasks[i]; }
    }
  }

  lemma InvStep(s: State, a: Action)
    requires Inv(s) && Enabled(s, a)
    ensures Inv(Next(s, a))
  {
    var t := Next(s, a);
    if a.Call? {
      CallStep(s, a);
    } else {
      assert TaskOk(s, a.i);
      StepShape(s, a);
      FlightsKept(s, a);
      EntriesKept(s, a);
      forall j | 0 <= j < |t.tasks| ensures TaskOk(t, j) {
        assert TaskOk(s, j);
        if j == a.i { ActingStep(s, a); } else { OtherTask(s, a, j); }
      }
    }
  }

  lemma ActingStep(s: State, a: Action)
    requires Inv(s) && Enabled(s, a) && !a.Call?
    ensures TaskOk(Next(s, a), a.i)
  {
    assert TaskOk(s, a.i);
    if a.Wake? { assert TaskOk(s, s.tasks[a.i].phase.leader); }
    if LookStep(a) { ActingLook(s, a); }
    else if JoinStep(a) { ActingJoin(s, a); }
    else if FailStep(a) { ActingFail(s, a); }
    else if a.Pull? || a.Drain? { ActingCopy(s, a); }
    else if a.Tear? { ActingTear(s, a); }
    else { ActingWrite(s, a); }
  }

  // ---- Every run ----

  /**
   * A committed entry is immutable: whatever later callers do, at every later state the entry is the
   * same and its file still holds, byte for byte, what was there at the commit.
   */
  lemma {:induction false} CommittedForever(s: State, run: seq<Action>, t: State, d: Digest)
    requires Inv(s) && Runs(s, run, t) && d in s.entries
    ensures d in t.entries && t.entries[d] == s.entries[d]
    ensures PathFor(d) in s.files && Holds(t.files, d, s.files[PathFor(d)])
    decreases |run|
  {
    assert EntryOk(s, d);
    if |run| > 0 {
      InvStep(s, run[0]);
      CommittedStep(s, run[0], d);
      CommittedForever(Next(s, run[0]), run[1..], t, d);
    }
  }

  lemma CommittedStep(s: State, a: Action, d: Digest)
    requires Inv(s) && Enabled(s, a) && d in s.entries
    ensures d in Next(s, a).entries && Next(s, a).entries[d] == s.entries[d]
    ensures PathFor(d) in s.files && Holds(Next(s, a).files, d, s.files[PathFor(d)])
  {
    assert EntryOk(s, d);
    if !a.Call? {
      assert TaskOk(s, a.i);
      StepEffect(s, a);
      OtherFile(s, a, d);
    }
  }

  /** Task i lost bytes to a failed tee write somewhere in the run. */
  predicate Tears(run: seq<Action>, i: nat) { exists k :: 0 <= k < |run| && run[k].Tear? && run[k].i == i }

  /** The history set is what the run shows. */
  lemma {:induction false} TornExactly(s: State, run: seq<Action>, t: State)
    requires Runs(s, run, t)
    ensures forall i: nat :: i in t.torn <==> i in s.torn || Tears(run, i)
    decreases |run|
  {
    if |run| > 0 {
      var u := Next(s, run[0]);
      TornExactly(u, run[1..], t);
      forall i: nat ensures i in t.torn <==> i in s.torn || Tears(run, i) {
        TearsSplit(run, i);
        TornStep(s, run[0], i);
      }
    }
  }

  lemma TearsSplit(run: seq<Action>, i: nat)
    requires |run| > 0
    ensures Tears(run, i) <==> (run[0].Tear? && run[0].i == i) || Tears(run[1..], i)
  {
    if Tears(run[1..], i) {
      var k :| 0 <= k < |run[1..]| && run[1..][k].Tear? && run[1..][k].i == i;
      assert run[k + 1].Tear? && run[k + 1].i == i;
    }
    if Tears(run, i) {
      var k :| 0 <= k < |run| && run[k].Tear? && run[k].i == i;
      if k > 0 { assert run[1..][k - 1] == run[k]; }
    }
  }

  lemma TornStep(s: State, a: Action, i: nat)
    requires Enabled(s, a)
    ensures i in Next(s, a).torn <==> i in s.torn || (a.Tear? && a.i == i)
  {
  }

  /**
   * For every run and every committed digest: its file is exactly the fetched stream, whatever prefix the
   * fingerprinter consumed and whether or not it succeeded, if and only if no tee write of the flight that
   * committed it was lost; otherwise the file is strictly shorter.
   */
  lemma FileIsStream(run: seq<Action>, s: State)
    requires Runs(Init(), run, s)
    ensures forall d :: d in s.entries ==>
      && d in s.fetched && d in s.author && s.entries[d].path == PathFor(d) && PathFor(d) in s.files
      && (Holds(s.files, d, s.fetched[d]) <==> !Tears(run, s.author[d]))
      && (Tears(run, s.author[d]) ==> |s.files[PathFor(d)]| < |s.fetched[d]|)
    ensures forall i :: 0 <= i < |s.tasks| && Won(s.tasks[i].phase) ==>
      s.tasks[i].d in s.entries && s.tasks[i].phase.r == Some(s.entries[s.tasks[i].d])
  {
    InitInv();
    InvRuns(Init(), run, s);
    TornExactly(Init(), run, s);
    forall d | d in s.entries
      ensures d in s.fetched && d in s.author && s.entries[d].path == PathFor(d) && PathFor(d) in s.files
      ensures Holds(s.files, d, s.fetched[d]) <==> !Tears(run, s.author[d])
      ensures Tears(run, s.author[d]) ==> |s.files[PathFor(d)]| < |s.fetched[d]|
    {
      assert EntryOk(s, d);
    }
    forall i | 0 <= i < |s.tasks| && Won(s.tasks[i].phase)
      ensures s.tasks[i].d in s.entries && s.tasks[i].phase.r == Some(s.entries[s.tasks[i].d])
    {
      assert TaskOk(s, i);
    }
  }

  // ---- Nothing fails without a cause, and fingerprints are the reported ones ----

  /** A run in which no fetch and no copy fails. */
  predicate SmoothRuns(s: State, run: seq<Action>, t: State)
    decreases |run|
  {
    if |run| == 0 then s == t
    else Enabled(s, run[0]) && !run[0].FetchFails? && !run[0].CopyFails? && SmoothRuns(Next(s, run[0]), run[1..], t)
  }

  predicate NoneFailed(s: State) {
    forall i :: 0 <= i < |s.tasks| ==>
      !s.tasks[i].phase.Failing? && (s.tasks[i].phase.Settled? || s.tasks[i].phase.Returned? ==> s.tasks[i].phase.r.Some?)
  }

  lemma SmoothStep(s: State, a: Action)
    requires NoneFailed(s) && Enabled(s, a) && !a.FetchFails? && !a.CopyFails?
    ensures NoneFailed(Next(s, a))
  {
    if !a.Call? {
      StepShape(s, a);
      SmoothActor(s, a);
      var t := Next(s, a);
      assert forall i :: 0 <= i < |t.tasks| && i != a.i ==> t.tasks[i] == s.tasks[i];
    }
  }

  lemma SmoothActor(s: State, a: Action)
    requires NoneFailed(s) && Enabled(s, a) && !a.Call? && !a.FetchFails? && !a.CopyFails?
    ensures var p := Next(s, a).tasks[a.i].phase; !p.Failing? && (p.Settled? || p.Returned? ==> p.r.Some?)
  {
  }

  /** A call comes back empty-handed only after some fetch or copy failed. */
  lemma {:induction false} SmoothRunsSucceed(s: State, run: seq<Action>, t: State)
    requires NoneFailed(s) && SmoothRuns(s, run, t)
    ensures Runs(s, run, t) && forall i :: 0 <= i < |t.tasks| && t.tasks[i].phase.Returned? ==> t.tasks[i].phase.r.Some?
    decreases |run|
  {
    if |run| > 0 {
      SmoothStep(s, run[0]);
      SmoothRunsSucceed(Next(s, run[0]), run[1..], t);
    }
  }

  /** Task i's fingerprinter reported fp somewhere in the run. */
  predicate Reported(run: seq<Action>, i: nat, fp: Option<Print>) { exists k :: 0 <= k < |run| && run[k] == Printed(i, fp) }

  predicate Carries(s: State, i: nat, fp: Option<Print>) {
    i < |s.tasks| && (s.tasks[i].phase.Draining? || s.tasks[i].phase.Synced?) && s.tasks[i].phase.fp == fp
  }

  predicate Entered(s: State, d: Digest, i: nat, fp: Option<Print>) {
    d in s.entries && d in s.author && s.author[d] == i && s.entries[d].fp == fp
  }

  lemma CarriedFrom(s: State, a: Action, i: nat, fp: Option<Print>)
    requires Enabled(s, a) && Carries(Next(s, a), i, fp)
    ensures Carries(s, i, fp) || a == Printed(i, fp)
  {
  }

  lemma EnteredFrom(s: State, a: Action, d: Digest, i: nat, fp: Option<Print>)
    requires Enabled(s, a) && Entered(Next(s, a), d, i, fp)
    ensures Entered(s, d, i, fp) || Carries(s, i, fp)
  {
  }

  lemma ReportedSooner(run: seq<Action>, i: nat, fp: Option<Print>)
    requires |run| > 0
    ensures run[0] == Printed(i, fp) || Reported(run[1..], i, fp) ==> Reported(run, i, fp)
  {
    if k :| 0 <= k < |run[1..]| && run[1..][k] == Printed(i, fp) { assert run[k + 1] == Printed(i, fp); }
  }

  lemma {:induction false} PrintsFrom(s: State, run: seq<Action>, t: State, d: Digest, i: nat, fp: Option<Print>)
    requires Runs(s, run, t)
    ensures Carries(t, i, fp) ==> Carries(s, i, fp) || Reported(run, i, fp)
    ensures Entered(t, d, i, fp) ==> Entered(s, d, i, fp) || Carries(s, i, fp) || Reported(run, i, fp)
    decreases |run|
  {
    if |run| > 0 {
      var u := Next(s, run[0]);
      PrintsFrom(u, run[1..], t, d, i, fp);
      ReportedSooner(run, i, fp);
      if Carries(u, i, fp) { CarriedFrom(s, run[0], i, fp); }
      if Entered(u, d, i, fp) { EnteredFrom(s, run[0], d, i, fp); }
    }
  }

  /** In every run a committed entry carries the fingerprint its own flight's fingerprinter reported. */
  lemma PrintIsReported(run: seq<Action>, s: State, d: Digest)
    requires Runs(Init(), run, s) && d in s.entries
    ensures d in s.author && Reported(run, s.author[d], s.entries[d].fp)
  {
    FileIsStream(run, s);
    PrintsFrom(Init(), run, s, d, s.author[d], s.entries[d].fp);
  }

  /** One caller, one flight: the only write fails, the fingerprinter gives up, the drain finds nothing left. */
  function TornRun(d: Digest, stream: Bytes): seq<Action> {
    [Call(d), Lookup(0), Enter(0), Recheck(0)] + [Create(0, stream), Tear(0, |stream|, 0)] + [Printed(0, None), Sync(0), Commit(0)]
  }

  /** Such a run commits an empty file for any non-empty stream, without an error to anyone. */
  lemma LostWriteCommits(d: Digest, stream: Bytes) returns (s: State)
    requires Canonical(d) && |stream| > 0
    ensures Runs(Init(), TornRun(d, stream), s)
    ensures d in s.entries && s.fetched == map[d := stream] && Holds(s.files, d, []) && s.tasks == [Task(d, Settled(Some(s.entries[d])))]
  {
    var first, second, third := [Call(d), Lookup(0), Enter(0), Recheck(0)], [Create(0, stream), Tear(0, |stream|, 0)], [Printed(0, None), Sync(0), Commit(0)];
    var s3 := State(map[], map[], map[d := 0], [Task(d, Fetching)], map[], map[], {});
    var s5 := State(map[PathFor(d) := []], map[], map[d := 0], [Task(d, Printing(stream, |stream|))], map[], map[], {0});
    TornStart(d, s3);
    TornMiddle(d, stream, s3, s5);
    s := TornEnd(d, stream, s5);
    RunsAppend(Init(), first, s3, second, s5);
    RunsAppend(Init(), first + second, s5, third, s);
  }

  /** One such run, spelled out: the layer is one byte long and the disk is full. */
  lemma ConcreteLostWrite() returns (s: State)
    ensures var d := "sha256:" + Zeros64();
      && Runs(Init(), TornRun(d, [7]), s) && d in s.entries && d in s.fetched
      && s.fetched[d] == [7] && Holds(s.files, d, [])
  {
    var d := "sha256:" + Zeros64();
    assert d[..6] == "sha256" && d[7..] == Zeros64();
    s := LostWriteCommits(d, [7]);
  }

  function Zeros64(): string { seq(64, _ => '0') }

  lemma RunsFrom(s: State, a: Action, n: State, rest: seq<Action>, u: State)
    requires Enabled(s, a) && n == Next(s, a) && Runs(n, rest, u)
    ensures Runs(s, [a] + rest, u)
  {
    assert ([a] + rest)[0] == a && ([a] + rest)[1..] == rest;
  }

  lemma {:induction false} RunsAppend(s: State, first: seq<Action>, t: State, second: seq<Action>, u: State)
    requires Runs(s, first, t) && Runs(t, second, u)
    ensures Runs(s, first + second, u)
    decreases |first|
  {
    if |first| == 0 {
      assert first + second == second;
    } else {
      var a, rest := first[0], first[1..];
      assert first + second == [a] + (rest + second);
      RunsAppend(Next(s, a), rest, t, second, u);
      RunsFrom(s, a, Next(s, a), rest + second, u);
    }
  }

  lemma TornStart(d: Digest, s3: State)
    requires Canonical(d) && s3 == State(map[], map[], map[d := 0], [Task(d, Fetching)], map[], map[], {})
    ensures Runs(Init(), [Call(d), Lookup(0), Enter(0), Recheck(0)], s3)
  {
    var s0 := State(map[], map[], map[], [Task(d, Called)], map[], map[], {});
    var s1 := s0.(tasks := [Task(d, Missed)]);
    var s2 := s0.(flights := map[d := 0], tasks := [Task(d, Leading)]);
    assert Next(Init(), Call(d)) == s0 && Next(s0, Lookup(0)) == s1 && Next(s1, Enter(0)) == s2 && Next(s2, Recheck(0)) == s3;
    assert Runs(s3, [], s3);
    assert [Recheck(0)][1..] == [];
    assert Runs(s2, [Recheck(0)], s3);
    assert [Enter(0), Recheck(0)][1..] == [Recheck(0)];
    assert Runs(s1, [Enter(0), Recheck(0)], s3);
    assert [Lookup(0), Enter(0), Recheck(0)][1..] == [Enter(0), Recheck(0)];
    assert Runs(s0, [Lookup(0), Enter(0), Recheck(0)], s3);
    assert [Call(d), Lookup(0), Enter(0), Recheck(0)][1..] == [Lookup(0), Enter(0), Recheck(0)];
  }

  lemma TornMiddle(d: Digest, stream: Bytes, s3: State, s5: State)
    requires |stream| > 0 && s3 == State(map[], map[], map[d := 0], [Task(d, Fetching)], map[], map[], {})
    requires s5 == State(map[PathFor(d) := []], map[], map[d := 0], [Task(d, Printing(stream, |stream|))], map[], map[], {0})
    ensures Runs(s3, [Create(0, stream), Tear(0, |stream|, 0)], s5)
  {
    var s4 := s3.(files := map[PathFor(d) := []], tasks := [Task(d, Printing(stream, 0))]);
    assert Next(s3, Create(0, stream)) == s4 && Next(s4, Tear(0, |stream|, 0)) == s5;
    assert Runs(s5, [], s5);
    assert [Tear(0, |stream|, 0)][1..] == [];
    assert Runs(s4, [Tear(0, |stream|, 0)], s5);
    assert [Create(0, stream), Tear(0, |stream|, 0)][1..] == [Tear(0, |stream|, 0)];
  }

  lemma TornEnd(d: Digest, stream: Bytes, s5: State) returns (s8: State)
    requires s5 == State(map[PathFor(d) := []], map[], map[d := 0], [Task(d, Printing(stream, |stream|))], map[], map[], {0})
    ensures Runs(s5, [Printed(0, None), Sync(0), Commit(0)], s8)
    ensures d in s8.entries && s8.fetched == map[d := stream] && Holds(s8.files, d, []) && s8.tasks == [Task(d, Settled(Some(s8.entries[d])))]
  {
    var s6 := s5.(tasks := [Task(d, Draining(stream, |stream|, None))]);
    var s7 := s5.(tasks := [Task(d, Synced(stream, None))]);
    s8 := Next(s7, Commit(0));
    assert Next(s5, Printed(0, None)) == s6 && Next(s6, Sync(0)) == s7;
    assert Runs(s8, [], s8);
    assert [Commit(0)][1..] == [];
    assert Runs(s7, [Commit(0)], s8);
    assert [Sync(0), Commit(0)][1..] == [Commit(0)];
    assert Runs(s6, [Sync(0), Commit(0)], s8);
    assert [Printed(0, None), Sync(0), Commit(0)][1..] == [Sync(0), Commit(0)];
  }

  lemma {:induction false} InvRuns(s: State, run: seq<Action>, t: State)
    requires Inv(s) && Runs(s, run, t)
    ensures Inv(t)
    decreases |run|
  {
    if |run| > 0 {
      InvStep(s, run[0]);
      InvRuns(Next(s, run[0]), run[1..], t);
    }
  }

  /** After a digest is committed no call fetches it or opens its file. */
  lemma NoSecondFetch(s: State, run: seq<Action>, t: State, a: Action)
    requires Inv(s) && Runs(s, run, t) && Enabled(t, a) && (a.FetchFails? || a.Create?)
    ensures t.tasks[a.i].d !in s.entries
  {
    InvRuns(s, run, t);
    assert TaskOk(t, a.i);
    if t.tasks[a.i].d in s.entries { CommittedForever(s, run, t, t.tasks[a.i].d); }
  }

  // ---- The spool object ----

  class BaselineSpool {
    var files: Files
    var entries: map<Digest, Entry>
    var flights: map<Digest, nat>
    var tasks: seq<Task>
    ghost var fetched: map<Digest, Bytes>
    ghost var author: map<Digest, nat>
    ghost var torn: set<nat>

    ghost function Snapshot(): State
      reads this
    {
      State(files, entries, flights, tasks, fetched, author, torn)
    }

    ghost predicate Valid()
      reads this
    {
      Inv(Snapshot())
    }

    constructor ()
      ensures Valid() && Snapshot() == Init()
    {
      files, entries, flights, tasks := map[], map[], map[], [];
      fetched, author, torn := map[], map[], {};
    }

    /** The start of GetOrSpool: the caller arrives and takes the fast path when d is committed. */
    method Arrive(d: Digest) returns (i: nat)
      requires Valid() && Canonical(d)
      modifies this
      ensures Valid() && i == |old(tasks)| && Snapshot() == Next(Next(old(Snapshot()), Call(d)), Lookup(i))
      ensures tasks[i].phase.Returned? <==> d in old(entries)
    {
      i := |tasks|;
      ghost var s := Snapshot();
      InvStep(s, Call(d));
      InvStep(Next(s, Call(d)), Lookup(i));
      tasks := tasks + [Task(d, if d in entries then Returned(Some(entries[d])) else Missed)];
      assert Snapshot() == Next(Next(s, Call(d)), Lookup(i));
    }

    method EnterFlight(i: nat)
      requires Valid() && Enabled(Snapshot(), Enter(i))
      modifies this
      ensures Valid() && Snapshot() == Next(old(Snapshot()), Enter(i))
    {
      ghost var after := Next(Snapshot(), Enter(i));
      InvStep(Snapshot(), Enter(i));
      var d := tasks[i].d;
      if d in flights {
        tasks := tasks[i := tasks[i].(phase := Joined(flights[d]))];
      } else {
        flights := flights[d := i];
        tasks := tasks[i := tasks[i].(phase := Leading)];
      }
      assert Snapshot() == after;
    }

    method RecheckInFlight(i: nat)
      requires Valid() && Enabled(Snapshot(), Recheck(i))
      modifies this`tasks
      ensures Valid() && Snapshot() == Next(old(Snapshot()), Recheck(i))
    {
      InvStep(Snapshot(), Recheck(i));
      var d := tasks[i].d;
      tasks := tasks[i := tasks[i].(phase := if d in entries then Settled(Some(entries[d])) else Fetching)];
    }

    method CreateFile(i: nat, stream: Bytes)
      requires Valid() && Enabled(Snapshot(), Create(i, stream))
      modifies this
      ensures Valid() && Snapshot() == Next(old(Snapshot()), Create(i, stream))
    {
      ghost var after := Next(Snapshot(), Create(i, stream));
      InvStep(Snapshot(), Create(i, stream));
      files := files[PathFor(tasks[i].d) := []];
      tasks := tasks[i := tasks[i].(phase := Printing(stream, 0))];
      assert Snapshot() == after;
    }

    method PullTee(i: nat, n: nat)
      requires Valid() && Enabled(Snapshot(), Pull(i, n))
      modifies this
      ensures Valid() && Snapshot() == Next(old(Snapshot()), Pull(i, n))
    {
      ghost var after := Next(Snapshot(), Pull(i, n));
      InvStep(Snapshot(), Pull(i, n));
      var p := tasks[i].phase;
      files := Tee(files, PathFor(tasks[i].d), p.stream, p.pos, n);
      tasks := tasks[i := tasks[i].(phase := Printing(p.stream, p.pos + n))];
      assert Snapshot() == after;
    }

    /** The same pull when the file takes only written of the n bytes: only the fingerprinter hears of it. */
    method TearTee(i: nat, n: nat, written: nat)
      requires Valid() && Enabled(Snapshot(), Tear(i, n, written))
      modifies this
      ensures Valid() && Snapshot() == Next(old(Snapshot()), Tear(i, n, written))
    {
      ghost var after := Next(Snapshot(), Tear(i, n, written));
      InvStep(Snapshot(), Tear(i, n, written));
      var p := tasks[i].phase;
      files := Tee(files, PathFor(tasks[i].d), p.stream, p.pos, written);
      tasks := tasks[i := tasks[i].(phase := Printing(p.stream, p.pos + n))];
      torn := torn + {i};
      assert Snapshot() == after;
    }

    method FingerprintDone(i: nat, fp: Option<Print>)
      requires Valid() && Enabled(Snapshot(), Printed(i, fp))
      modifies this`tasks
      ensures Valid() && Snapshot() == Next(old(Snapshot()), Printed(i, fp))
    {
      InvStep(Snapshot(), Printed(i, fp));
      tasks := tasks[i := tasks[i].(phase := Draining(tasks[i].phase.stream, tasks[i].phase.pos, fp))];
    }

    method DrainTee(i: nat, n: nat)
      requires Valid() && Enabled(Snapshot(), Drain(i, n))
      modifies this
      ensures Valid() && Snapshot() == Next(old(Snapshot()), Drain(i, n))
    {
      ghost var after := Next(Snapshot(), Drain(i, n));
      InvStep(Snapshot(), Drain(i, n));
      var p := tasks[i].phase;
      files := Tee(files, PathFor(tasks[i].d), p.stream, p.pos, n);
      tasks := tasks[i := tasks[i].(phase := Draining(p.stream, p.pos + n, p.fp))];
      assert Snapshot() == after;
    }

    /** One read of the discarding copy. */
    method DrainChunk(i: nat, chunk: nat)
      requires Valid() && i < |tasks| && tasks[i].phase.Draining? && chunk > 0 && tasks[i].phase.pos < |tasks[i].phase.stream|
      modifies this
      ensures Valid() && entries == old(entries) && flights == old(flights) && fetched == old(fetched) && author == old(author) && torn == old(torn)
      ensures |tasks| == |old(tasks)| && tasks[i].d == old(tasks)[i].d && tasks[i].phase.Draining?
      ensures tasks[i].phase.stream == old(tasks)[i].phase.stream && tasks[i].phase.fp == old(tasks)[i].phase.fp
      ensures old(tasks)[i].phase.pos < tasks[i].phase.pos <= |tasks[i].phase.stream|
      ensures files - {PathFor(tasks[i].d)} == old(files) - {PathFor(tasks[i].d)}
    {
      assert TaskOk(Snapshot(), i);
      var rest := |tasks[i].phase.stream| - tasks[i].phase.pos;
      DrainTee(i, if chunk < rest then chunk else rest);
    }

    /** The copy to the discard sink, read by read until the stream is exhausted, then the sync.  The file is
        then the whole stream unless the fingerprint pass lost bytes. */
    method DrainAll(i: nat, chunk: nat)
      requires Valid() && i < |tasks| && tasks[i].phase.Draining? && chunk > 0
      modifies this
      ensures Valid() && entries == old(entries) && flights == old(flights) && fetched == old(fetched) && author == old(author) && torn == old(torn)
      ensures |tasks| == |old(tasks)| && tasks[i].d == old(tasks)[i].d
      ensures tasks[i].phase == Synced(old(tasks)[i].phase.stream, old(tasks)[i].phase.fp)
      ensures Stored(files, tasks[i].d, old(tasks)[i].phase.stream, i in torn)
      ensures files - {PathFor(tasks[i].d)} == old(files) - {PathFor(tasks[i].d)}
    {
      assert TaskOk(Snapshot(), i);
      while tasks[i].phase.pos < |tasks[i].phase.stream|
        invariant Valid() && entries == old(entries) && flights == old(flights) && fetched == old(fetched) && author == old(author) && torn == old(torn)
        invariant |tasks| == |old(tasks)| && tasks[i].d == old(tasks)[i].d && tasks[i].phase.Draining?
        invariant tasks[i].phase.stream == old(tasks)[i].phase.stream && tasks[i].phase.fp == old(tasks)[i].phase.fp
        invariant tasks[i].phase.pos <= |tasks[i].phase.stream|
        invariant files - {PathFor(tasks[i].d)} == old(files) - {PathFor(tasks[i].d)}
        decreases |tasks[i].phase.stream| - tasks[i].phase.pos
      {
        DrainChunk(i, chunk);
      }
      SyncFile(i);
    }

    method SyncFile(i: nat)
      requires Valid() && Enabled(Snapshot(), Sync(i))
      modifies this`tasks
      ensures Valid() && Snapshot() == Next(old(Snapshot()), Sync(i))
      ensures Stored(files, tasks[i].d, tasks[i].phase.stream, i in torn)
    {
      InvStep(Snapshot(), Sync(i));
      tasks := tasks[i := tasks[i].(phase := Synced(tasks[i].phase.stream, tasks[i].phase.fp))];
      assert TaskOk(Snapshot(), i);
    }

    method Record(i: nat)
      requires Valid() && Enabled(Snapshot(), Commit(i))
      modifies this
      ensures Valid() && Snapshot() == Next(old(Snapshot()), Commit(i))
    {
      ghost var after := Next(Snapshot(), Commit(i));
      InvStep(Snapshot(), Commit(i));
      var e := Entry(PathFor(tasks[i].d), tasks[i].phase.fp);
      entries := entries[tasks[i].d := e];
      fetched := fetched[tasks[i].d := tasks[i].phase.stream];
      author := author[tasks[i].d := i];
      tasks := tasks[i := tasks[i].(phase := Settled(Some(e)))];
      assert Snapshot() == after;
    }

    /** A failed fetch leaves nothing; a failed drain, sync or close leaves a file to remove. */
    method GiveUp(i: nat)
      requires Valid() && (Enabled(Snapshot(), FetchFails(i)) || Enabled(Snapshot(), CopyFails(i)))
      modifies this`tasks
      ensures Valid()
      ensures Snapshot() == Next(old(Snapshot()), if old(tasks)[i].phase.Fetching? then FetchFails(i) else CopyFails(i))
    {
      if tasks[i].phase.Fetching? {
        InvStep(Snapshot(), FetchFails(i));
        tasks := tasks[i := tasks[i].(phase := Settled(None))];
      } else {
        InvStep(Snapshot(), CopyFails(i));
        tasks := tasks[i := tasks[i].(phase := Failing)];
      }
    }

    method RemovePartial(i: nat)
      requires Valid() && Enabled(Snapshot(), Cleanup(i))
      modifies this
      ensures Valid() && Snapshot() == Next(old(Snapshot()), Cleanup(i))
    {
      ghost var after := Next(Snapshot(), Cleanup(i));
      InvStep(Snapshot(), Cleanup(i));
      files := files - {PathFor(tasks[i].d)};
      tasks := tasks[i := tasks[i].(phase := Settled(None))];
      assert Snapshot() == after;
    }

    method LeaveFlight(i: nat) returns (r: Option<Entry>)
      requires Valid() && Enabled(Snapshot(), Land(i))
      modifies this
      ensures Valid() && Snapshot() == Next(old(Snapshot()), Land(i))
      ensures r.Some? ==> r == Found(Snapshot(), tasks[i].d) && Stored(files, tasks[i].d, fetched[tasks[i].d], author[tasks[i].d] in torn)
    {
      ghost var after := Next(Snapshot(), Land(i));
      InvStep(Snapshot(), Land(i));
      r := tasks[i].phase.r;
      flights := flights - {tasks[i].d};
      tasks := tasks[i := tasks[i].(phase := Returned(r))];
      assert Snapshot() == after;
      assert TaskOk(Snapshot(), i);
      assert r.Some? ==> EntryOk(Snapshot(), tasks[i].d);
    }

    method Receive(i: nat) returns (r: Option<Entry>)
      requires Valid() && Enabled(Snapshot(), Wake(i))
      modifies this`tasks
      ensures Valid() && Snapshot() == Next(old(Snapshot()), Wake(i))
      ensures r.Some? ==> r == Found(Snapshot(), tasks[i].d)
    {
      InvStep(Snapshot(), Wake(i));
      r := tasks[tasks[i].phase.leader].phase.r;
      tasks := tasks[i := tasks[i].(phase := Returned(r))];
      assert TaskOk(Snapshot(), i);
    }

    /** What the planners are seeded with: one print, possibly the failure mark, per committed digest. */
    method SnapshotFingerprints() returns (out: map<Digest, Option<Print>>)
      requires Valid()
      ensures out.Keys == entries.Keys && forall d :: d in out ==> out[d] == entries[d].fp
    {
      out := PrintsOf(entries);
    }
  }

  method PrintsOf(entries: map<Digest, Entry>) returns (out: map<Digest, Option<Print>>)
    ensures out.Keys == entries.Keys && forall d :: d in out ==> out[d] == entries[d].fp
  {
    out := map[];
    var todo := entries.Keys;
    while todo != {}
      invariant todo <= entries.Keys && out.Keys == entries.Keys - todo
      invariant forall d :: d in out ==> out[d] == entries[d].fp
      decreases |todo|
    {
      var d :| d in todo;
      out := out[d := entries[d].fp];
      todo := todo - {d};
    }
  }
}
