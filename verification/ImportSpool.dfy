/**
 * The importer's baseline spool: a blob is streamed to a temporary file while it is hashed,
 * verified, renamed into place and only then listed.  Callers normally share one flight per
 * digest, but a writer may bypass the flight; the machine below allows both, in any
 * interleaving, with arbitrary fetched bytes and failures at every point.
 */
module ImportSpool {
  import opened Common

  datatype Path = Final(name: string) | Tmp(name: string, serial: nat)
  type Files = map<Path, Bytes>

  datatype Phase =
    | Called                                 // GetOrSpool entered
    | Missed                                 // fast-path lookup missed
    | Joined(leader: nat)
    | Leading                                // inside the flight, re-check pending
    | Fetching
    | Streaming(tmp: Path, hashed: Bytes)    // hashed is what the hasher has consumed
    | Verified(tmp: Path)
    | Renamed
    | Failing(tmp: Path)                     // deferred removal pending
    | Settled(r: Option<Path>)               // result known, flight still registered
    | Returned(r: Option<Path>)

  /** direct: a caller of spoolOnce that bypasses the flight. */
  datatype Task = Task(d: Digest, direct: bool, phase: Phase)

  /** viaFlight: digests committed by a flight leader. */
  datatype State = State(files: Files, entries: map<Digest, Path>, flights: map<Digest, nat>, tasks: seq<Task>, viaFlight: set<Digest>)

  datatype Action =
    | Call(d: Digest, direct: bool)
    | Lookup(i: nat)
    | Enter(i: nat)
    | Recheck(i: nat)
    | FetchFails(i: nat)
    | CreateTmp(i: nat, serial: nat)
    | Chunk(i: nat, data: Bytes)
    | StreamFails(i: nat)
    | Verify(i: nat)
    | Rename(i: nat)
    | RenameFails(i: nat)
    | Commit(i: nat)
    | Cleanup(i: nat)
    | Land(i: nat)
    | Wake(i: nat)

  function Init(): State { State(map[], map[], map[], [], {}) }

  function PathFor(d: Digest): Path { Final(Encoded(d)) }

  predicate Enabled(s: State, a: Action) {
    match a
    case Call(_, _) => true
    case Lookup(i) => i < |s.tasks| && s.tasks[i].phase.Called?
    case Enter(i) => i < |s.tasks| && s.tasks[i].phase.Missed?
    case Recheck(i) => i < |s.tasks| && s.tasks[i].phase.Leading?
    case FetchFails(i) => i < |s.tasks| && s.tasks[i].phase.Fetching?
    case CreateTmp(i, n) => i < |s.tasks| && s.tasks[i].phase.Fetching? && Tmp(Encoded(s.tasks[i].d), n) !in s.files
    case Chunk(i, _) => i < |s.tasks| && s.tasks[i].phase.Streaming? && s.tasks[i].phase.tmp in s.files
    case StreamFails(i) => i < |s.tasks| && s.tasks[i].phase.Streaming?
    case Verify(i) => i < |s.tasks| && s.tasks[i].phase.Streaming?
    case Rename(i) => i < |s.tasks| && s.tasks[i].phase.Verified? && s.tasks[i].phase.tmp in s.files
    case RenameFails(i) => i < |s.tasks| && s.tasks[i].phase.Verified?
    case Commit(i) => i < |s.tasks| && s.tasks[i].phase.Renamed?
    case Cleanup(i) => i < |s.tasks| && s.tasks[i].phase.Failing?
    case Land(i) => i < |s.tasks| && s.tasks[i].phase.Settled?
    case Wake(i) =>
      && i < |s.tasks| && s.tasks[i].phase.Joined?
      && s.tasks[i].phase.leader < |s.tasks| && s.tasks[s.tasks[i].phase.leader].phase.Returned?
  }

  function Go(s: State, i: nat, p: Phase): State
    requires i < |s.tasks|
  {
    s.(tasks := s.tasks[i := s.tasks[i].(phase := p)])
  }

  function Found(s: State, d: Digest): Option<Path> { if d in s.entries then Some(s.entries[d]) else None }

  function Next(h: HashFn, s: State, a: Action): State
    requires Enabled(s, a)
  {
    match a
    case Call(d, direct) => s.(tasks := s.tasks + [Task(d, direct, if direct then Fetching else Called)])
    case Lookup(i) => Go(s, i, if s.tasks[i].d in s.entries then Returned(Found(s, s.tasks[i].d)) else Missed)
    case Enter(i) =>
      if s.tasks[i].d in s.flights then Go(s, i, Joined(s.flights[s.tasks[i].d]))
      else Go(s.(flights := s.flights[s.tasks[i].d := i]), i, Leading)
    case Recheck(i) => Go(s, i, if s.tasks[i].d in s.entries then Settled(Found(s, s.tasks[i].d)) else Fetching)
    case FetchFails(i) => Go(s, i, Settled(None))
    case CreateTmp(i, n) =>
      var tmp := Tmp(Encoded(s.tasks[i].d), n);
      Go(s.(files := s.files[tmp := []]), i, Streaming(tmp, []))
    case Chunk(i, data) =>
      var p := s.tasks[i].phase;
      Go(s.(files := s.files[p.tmp := s.files[p.tmp] + data]), i, Streaming(p.tmp, p.hashed + data))
    case StreamFails(i) => Go(s, i, Failing(s.tasks[i].phase.tmp))
    case Verify(i) =>
      var p := s.tasks[i].phase;
      Go(s, i, if Matches(h, s.tasks[i].d, p.hashed) then Verified(p.tmp) else Failing(p.tmp))
    case Rename(i) =>
      var tmp := s.tasks[i].phase.tmp;
      Go(s.(files := (s.files - {tmp})[PathFor(s.tasks[i].d) := s.files[tmp]]), i, Renamed)
    case RenameFails(i) => Go(s, i, Failing(s.tasks[i].phase.tmp))
    case Commit(i) =>
      var d := s.tasks[i].d;
      Go(s.(entries := s.entries[d := PathFor(d)], viaFlight := if s.tasks[i].direct then s.viaFlight else s.viaFlight + {d}),
         i, Settled(Some(PathFor(d))))
    case Cleanup(i) => Go(s.(files := s.files - {s.tasks[i].phase.tmp}), i, Settled(None))
    case Land(i) =>
      Go(if s.tasks[i].direct then s else s.(flights := s.flights - {s.tasks[i].d}), i, Returned(s.tasks[i].phase.r))
    case Wake(i) => Go(s, i, Returned(s.tasks[s.tasks[i].phase.leader].phase.r))
  }

  predicate Runs(h: HashFn, s: State, run: seq<Action>, t: State)
    decreases |run|
  {
    if |run| == 0 then s == t
    else Enabled(s, run[0]) && Runs(h, Next(h, s, run[0]), run[1..], t)
  }

  // ---- The invariant ----

  predicate Working(p: Phase) { p.Fetching? || p.Streaming? || p.Verified? || p.Renamed? || p.Failing? }
  predicate Leads(t: Task) { !t.direct && (t.phase.Leading? || Working(t.phase) || t.phase.Settled?) }
  predicate OwnsTmp(p: Phase) { p.Streaming? || p.Verified? || p.Failing? }
  predicate Won(p: Phase) { (p.Settled? || p.Returned?) && p.r.Some? }

  /** The canonical file of d is there and hashes to d. */
  predicate Published(h: HashFn, files: Files, d: Digest) {
    PathFor(d) in files && Matches(h, d, files[PathFor(d)])
  }

  predicate EntryOk(h: HashFn, s: State, d: Digest)
    requires d in s.entries
  {
    s.entries[d] == PathFor(d) && Published(h, s.files, d)
  }

  predicate FlightOk(s: State, d: Digest)
    requires d in s.flights
  {
    s.flights[d] < |s.tasks| && s.tasks[s.flights[d]].d == d && Leads(s.tasks[s.flights[d]])
  }

  predicate TaskOk(h: HashFn, s: State, i: nat)
    requires i < |s.tasks|
  {
    var t := s.tasks[i];
    && (Leads(t) ==> t.d in s.flights && s.flights[t.d] == i)
    && (OwnsTmp(t.phase) ==> t.phase.tmp.Tmp? && t.phase.tmp in s.files)
    && (t.phase.Streaming? ==> t.phase.tmp in s.files && s.files[t.phase.tmp] == t.phase.hashed)
    && (t.phase.Verified? ==> t.phase.tmp in s.files && Matches(h, t.d, s.files[t.phase.tmp]))
    && (t.phase.Renamed? ==> Published(h, s.files, t.d))
    && (Won(t.phase) ==> t.d in s.entries && t.phase.r == Some(s.entries[t.d]))
    && (!t.direct && Working(t.phase) ==> t.d !in s.viaFlight)
    && (t.direct ==> Working(t.phase) || t.phase.Settled? || t.phase.Returned?)
    && (t.phase.Joined? ==>
          && t.phase.leader < |s.tasks| && s.tasks[t.phase.leader].d == t.d && !s.tasks[t.phase.leader].direct
          && (Leads(s.tasks[t.phase.leader]) || s.tasks[t.phase.leader].phase.Returned?))
  }

  predicate TmpsSeparate(s: State) {
    forall i, j | 0 <= i < j < |s.tasks| && OwnsTmp(s.tasks[i].phase) && OwnsTmp(s.tasks[j].phase) ::
      s.tasks[i].phase.tmp != s.tasks[j].phase.tmp
  }

  predicate Owned(s: State, p: Path) {
    exists i :: 0 <= i < |s.tasks| && OwnsTmp(s.tasks[i].phase) && s.tasks[i].phase.tmp == p
  }

  predicate Justified(s: State, d: Digest) {
    exists i :: 0 <= i < |s.tasks| && s.tasks[i].d == d && Won(s.tasks[i].phase)
  }

  predicate Inv(h: HashFn, s: State) {
    && (forall d :: d in s.entries ==> EntryOk(h, s, d) && Justified(s, d))
    && (forall d :: d in s.flights ==> FlightOk(s, d))
    && (forall i :: 0 <= i < |s.tasks| ==> TaskOk(h, s, i))
    && TmpsSeparate(s)
    && (forall p :: p in s.files && p.Tmp? ==> Owned(s, p))
    && s.viaFlight <= s.entries.Keys
  }

  lemma InitInv(h: HashFn)
    ensures Inv(h, Init())
  {
  }

  predicate Moved(s: State, t: State, i: nat)
    requires i < |s.tasks|
  {
    && |t.tasks| == |s.tasks| && t.tasks == s.tasks[i := t.tasks[i]]
    && t.tasks[i].d == s.tasks[i].d && t.tasks[i].direct == s.tasks[i].direct
  }

  /** What one step may do to the disk and the table: it touches its own temporary file, and the
      canonical file of its digest only by putting matching bytes there; entries never change or go. */
  ghost predicate Effect(h: HashFn, s: State, t: State, i: nat)
    requires i < |s.tasks|
  {
    var d := s.tasks[i].d;
    && (forall q :: q in s.files && !(OwnsTmp(s.tasks[i].phase) && q == s.tasks[i].phase.tmp) && q != PathFor(d) ==>
          q in t.files && t.files[q] == s.files[q])
    && (PathFor(d) in s.files ==> PathFor(d) in t.files && (t.files[PathFor(d)] == s.files[PathFor(d)] || Matches(h, d, t.files[PathFor(d)])))
    && (forall x :: x in s.entries ==> x in t.entries && t.entries[x] == (if x == d then PathFor(d) else s.entries[x]))
    && (forall x :: x in t.entries && x !in s.entries ==> x == d)
    && s.viaFlight <= t.viaFlight && t.viaFlight <= s.viaFlight + {d}
  }

  lemma StepShape(h: HashFn, s: State, a: Action)
    requires Enabled(s, a) && !a.Call?
    ensures a.i < |s.tasks| && Moved(s, Next(h, s, a), a.i)
  {
  }

  lemma StepEffect(h: HashFn, s: State, a: Action)
    requires Enabled(s, a) && !a.Call? && TaskOk(h, s, a.i)
    requires s.tasks[a.i].d in s.entries ==> EntryOk(h, s, s.tasks[a.i].d)
    ensures Effect(h, s, Next(h, s, a), a.i)
  {
  }

  /** A published file stays published: a rename over it brings bytes with the same digest. */
  lemma StaysPublished(h: HashFn, s: State, t: State, i: nat, d: Digest)
    requires LawfulHash(h) && i < |s.tasks| && Effect(h, s, t, i) && Published(h, s.files, d)
    requires OwnsTmp(s.tasks[i].phase) ==> s.tasks[i].phase.tmp.Tmp?
    ensures Published(h, t.files, d)
  {
    MatchIsCanonical(h, d, s.files[PathFor(d)]);
    var e := s.tasks[i].d;
    if PathFor(d) == PathFor(e) && t.files[PathFor(e)] != s.files[PathFor(e)] {
      MatchIsCanonical(h, e, t.files[PathFor(e)]);
      EncodedInjective(d, e);
    }
  }

  /** Who leads what after a step: unchanged, a flight opened, or a flight ended. */
  ghost predicate FlightsMove(s: State, t: State, i: nat)
    requires i < |s.tasks| && i < |t.tasks|
  {
    var d := s.tasks[i].d;
    && !s.tasks[i].phase.Returned?
    && (|| (t.flights == s.flights && Leads(t.tasks[i]) == Leads(s.tasks[i]))
        || (d !in s.flights && t.flights == s.flights[d := i] && Leads(t.tasks[i]) && !Leads(s.tasks[i]))
        || (t.flights == s.flights - {d} && Leads(s.tasks[i]) && t.tasks[i].phase.Returned?))
  }

  lemma StepFlights(h: HashFn, s: State, a: Action)
    requires Enabled(s, a) && !a.Call? && TaskOk(h, s, a.i)
    ensures a.i < |Next(h, s, a).tasks| && FlightsMove(s, Next(h, s, a), a.i)
  {
  }

  lemma FlightsKept(h: HashFn, s: State, a: Action)
    requires Enabled(s, a) && !a.Call?
    requires forall d :: d in s.flights ==> FlightOk(s, d)
    requires TaskOk(h, s, a.i)
    ensures forall d :: d in Next(h, s, a).flights ==> FlightOk(Next(h, s, a), d)
  {
    StepShape(h, s, a);
    StepFlights(h, s, a);
    var t := Next(h, s, a);
    forall d | d in t.flights ensures FlightOk(t, d) {
      if d in s.flights { assert FlightOk(s, d); }
    }
  }

  /** A digest enters viaFlight only from its leader's commit, which leaves the flights alone. */
  ghost predicate ViaMove(s: State, t: State, i: nat)
    requires i < |s.tasks|
  {
    || t.viaFlight == s.viaFlight
    || (t.viaFlight == s.viaFlight + {s.tasks[i].d} && Leads(s.tasks[i]) && t.flights == s.flights)
  }

  lemma ViaFlightStep(h: HashFn, s: State, a: Action)
    requires Enabled(s, a) && !a.Call? && TaskOk(h, s, a.i)
    ensures ViaMove(s, Next(h, s, a), a.i)
  {
  }

  /** Another task's condition survives any move with these effects. */
  lemma OtherTask(h: HashFn, s: State, t: State, i: nat, j: nat)
    requires LawfulHash(h) && i < |s.tasks| && j < |s.tasks| && i != j
    requires Moved(s, t, i) && Effect(h, s, t, i) && FlightsMove(s, t, i) && ViaMove(s, t, i)
    requires TaskOk(h, s, i) && TaskOk(h, s, j) && TmpsSeparate(s)
    requires s.tasks[i].d in s.entries ==> s.entries[s.tasks[i].d] == PathFor(s.tasks[i].d)
    ensures TaskOk(h, t, j)
  {
    assert t.tasks[j] == s.tasks[j];
    if OwnsTmp(s.tasks[j].phase) && OwnsTmp(s.tasks[i].phase) {
      assert s.tasks[j].phase.tmp != s.tasks[i].phase.tmp;
    }
    if s.tasks[j].phase.Renamed? { StaysPublished(h, s, t, i, s.tasks[j].d); }
  }

  predicate TableStep(a: Action) { a.Lookup? || a.Enter? || a.Recheck? || a.Wake? }
  predicate WriteStep(a: Action) { a.CreateTmp? || a.Chunk? || a.Rename? }

  lemma ActingTable(h: HashFn, s: State, a: Action)
    requires Enabled(s, a) && TableStep(a) && TaskOk(h, s, a.i)
    requires a.Enter? && s.tasks[a.i].d in s.flights ==> FlightOk(s, s.tasks[a.i].d)
    requires a.Wake? ==> TaskOk(h, s, s.tasks[a.i].phase.leader)
    requires s.viaFlight <= s.entries.Keys
    ensures TaskOk(h, Next(h, s, a), a.i)
  {
    var d := s.tasks[a.i].d;
    var t := Next(h, s, a);
    assert !s.tasks[a.i].direct;
    assert t.files == s.files && t.entries == s.entries && t.viaFlight == s.viaFlight;
  }

  lemma ActingWrite(h: HashFn, s: State, a: Action)
    requires Enabled(s, a) && WriteStep(a) && TaskOk(h, s, a.i)
    ensures TaskOk(h, Next(h, s, a), a.i)
  {
    var t := Next(h, s, a);
    assert t.entries == s.entries && t.viaFlight == s.viaFlight && t.flights == s.flights;
    assert t.tasks[a.i].d == s.tasks[a.i].d && t.tasks[a.i].direct == s.tasks[a.i].direct;
    if a.Rename? {
      assert t.files[PathFor(s.tasks[a.i].d)] == s.files[s.tasks[a.i].phase.tmp];
    }
  }

  lemma ActingCommit(h: HashFn, s: State, i: nat)
    requires Enabled(s, Commit(i)) && TaskOk(h, s, i)
    ensures TaskOk(h, Next(h, s, Commit(i)), i)
  {
    var t := Next(h, s, Commit(i));
    assert t.tasks[i].phase == Settled(Some(PathFor(s.tasks[i].d)));
    assert t.entries[s.tasks[i].d] == PathFor(s.tasks[i].d);
  }

  lemma ActingRest(h: HashFn, s: State, a: Action)
    requires Enabled(s, a) && !a.Call? && !TableStep(a) && !WriteStep(a) && !a.Commit? && TaskOk(h, s, a.i)
    ensures TaskOk(h, Next(h, s, a), a.i)
  {
    var t := Next(h, s, a);
    assert t.entries == s.entries && t.viaFlight == s.viaFlight;
    assert t.tasks[a.i].d == s.tasks[a.i].d && t.tasks[a.i].direct == s.tasks[a.i].direct;
  }

  lemma ActingTask(h: HashFn, s: State, a: Action)
    requires Enabled(s, a) && !a.Call? && TaskOk(h, s, a.i)
    requires a.Enter? && s.tasks[a.i].d in s.flights ==> FlightOk(s, s.tasks[a.i].d)
    requires a.Wake? ==> TaskOk(h, s, s.tasks[a.i].phase.leader)
    requires s.viaFlight <= s.entries.Keys
    ensures TaskOk(h, Next(h, s, a), a.i)
  {
    if TableStep(a) { ActingTable(h, s, a); }
    else if WriteStep(a) { ActingWrite(h, s, a); }
    else if a.Commit? { ActingCommit(h, s, a.i); }
    else { ActingRest(h, s, a); }
  }

  predicate HoldsTmp(s: State, i: nat)
    requires i < |s.tasks|
  {
    OwnsTmp(s.tasks[i].phase) ==> s.tasks[i].phase.tmp.Tmp? && s.tasks[i].phase.tmp in s.files
  }

  /** A task's temporary file is created by it, kept while it owns it, and gone when it lets go. */
  ghost predicate TmpMove(s: State, t: State, i: nat)
    requires i < |s.tasks| && Moved(s, t, i)
  {
    var p, q := s.tasks[i].phase, t.tasks[i].phase;
    && (OwnsTmp(q) && OwnsTmp(p) ==> q.tmp == p.tmp)
    && (OwnsTmp(q) && !OwnsTmp(p) ==> q.tmp !in s.files)
    && (OwnsTmp(p) && !OwnsTmp(q) ==> p.tmp !in t.files)
    && (forall x: Path :: x.Tmp? && x in t.files && x !in s.files ==> OwnsTmp(q) && q.tmp == x)
  }

  /** A step that is neither a write nor a removal leaves the disk and the ownership alone. */
  lemma TmpStays(h: HashFn, s: State, a: Action)
    requires Enabled(s, a) && !a.Call? && !WriteStep(a) && !a.Cleanup? && HoldsTmp(s, a.i)
    ensures Moved(s, Next(h, s, a), a.i) && TmpMove(s, Next(h, s, a), a.i)
  {
    assert Next(h, s, a).files == s.files;
  }

  lemma TmpWritten(h: HashFn, s: State, a: Action)
    requires Enabled(s, a) && (WriteStep(a) || a.Cleanup?) && HoldsTmp(s, a.i)
    ensures Moved(s, Next(h, s, a), a.i) && TmpMove(s, Next(h, s, a), a.i)
  {
  }

  lemma TmpMoves(h: HashFn, s: State, a: Action)
    requires Enabled(s, a) && !a.Call? && HoldsTmp(s, a.i)
    ensures Moved(s, Next(h, s, a), a.i) && TmpMove(s, Next(h, s, a), a.i)
  {
    if WriteStep(a) || a.Cleanup? { TmpWritten(h, s, a); } else { TmpStays(h, s, a); }
  }

  lemma SeparateKept(s: State, t: State, i: nat)
    requires i < |s.tasks| && Moved(s, t, i) && TmpMove(s, t, i) && TmpsSeparate(s)
    requires forall j :: 0 <= j < |s.tasks| ==> HoldsTmp(s, j)
    ensures TmpsSeparate(t)
  {
    forall j, k | 0 <= j < k < |t.tasks| && OwnsTmp(t.tasks[j].phase) && OwnsTmp(t.tasks[k].phase)
      ensures t.tasks[j].phase.tmp != t.tasks[k].phase.tmp
    {
      assert HoldsTmp(s, j) && HoldsTmp(s, k);
      assert j != i ==> t.tasks[j] == s.tasks[j];
      assert k != i ==> t.tasks[k] == s.tasks[k];
    }
  }

  lemma OwnersKept(s: State, t: State, i: nat)
    requires i < |s.tasks| && Moved(s, t, i) && TmpMove(s, t, i)
    requires forall p :: p in s.files && p.Tmp? ==> Owned(s, p)
    ensures forall p :: p in t.files && p.Tmp? ==> Owned(t, p)
  {
    forall p | p in t.files && p.Tmp? ensures Owned(t, p) {
      if p in s.files {
        assert Owned(s, p);
        var k :| 0 <= k < |s.tasks| && OwnsTmp(s.tasks[k].phase) && s.tasks[k].phase.tmp == p;
        assert k != i ==> t.tasks[k] == s.tasks[k];
        assert OwnsTmp(t.tasks[k].phase) && t.tasks[k].phase.tmp == p;
      } else {
        assert OwnsTmp(t.tasks[i].phase) && t.tasks[i].phase.tmp == p;
      }
    }
  }

  lemma TmpsKept(h: HashFn, s: State, a: Action)
    requires Enabled(s, a) && !a.Call? && TmpsSeparate(s)
    requires forall i :: 0 <= i < |s.tasks| ==> HoldsTmp(s, i)
    requires forall p :: p in s.files && p.Tmp? ==> Owned(s, p)
    ensures TmpsSeparate(Next(h, s, a))
    ensures forall p :: p in Next(h, s, a).files && p.Tmp? ==> Owned(Next(h, s, a), p)
  {
    TmpMoves(h, s, a);
    SeparateKept(s, Next(h, s, a), a.i);
    OwnersKept(s, Next(h, s, a), a.i);
  }

  lemma EntryKept(h: HashFn, s: State, t: State, i: nat, d: Digest)
    requires LawfulHash(h) && i < |s.tasks| && Moved(s, t, i) && Effect(h, s, t, i) && TaskOk(h, s, i)
    requires Won(s.tasks[i].phase) ==> Won(t.tasks[i].phase)
    requires d in s.entries && EntryOk(h, s, d) && Justified(s, d)
    ensures d in t.entries && EntryOk(h, t, d) && Justified(t, d)
  {
    StaysPublished(h, s, t, i, d);
    var k :| 0 <= k < |s.tasks| && s.tasks[k].d == d && Won(s.tasks[k].phase);
    assert t.tasks[k].d == d && Won(t.tasks[k].phase);
  }

  lemma EntriesKept(h: HashFn, s: State, a: Action)
    requires LawfulHash(h) && Inv(h, s) && Enabled(s, a) && !a.Call?
    ensures forall d :: d in Next(h, s, a).entries ==> EntryOk(h, Next(h, s, a), d) && Justified(Next(h, s, a), d)
    ensures Next(h, s, a).viaFlight <= Next(h, s, a).entries.Keys
  {
    var t := Next(h, s, a);
    assert TaskOk(h, s, a.i);
    if s.tasks[a.i].d in s.entries { assert EntryOk(h, s, s.tasks[a.i].d); }
    StepShape(h, s, a);
    StepEffect(h, s, a);
    CommitEffect(h, s, a);
    forall d | d in t.entries ensures EntryOk(h, t, d) && Justified(t, d) {
      if d in s.entries {
        assert EntryOk(h, s, d) && Justified(s, d);
        EntryKept(h, s, t, a.i, d);
      } else {
        assert t.tasks[a.i].d == d && Won(t.tasks[a.i].phase);
      }
    }
  }

  /** A new entry comes only from a commit, and a finished success stays one. */
  lemma CommitEffect(h: HashFn, s: State, a: Action)
    requires Enabled(s, a) && !a.Call? && TaskOk(h, s, a.i)
    ensures var t := Next(h, s, a); var d := s.tasks[a.i].d;
      && (d in t.entries && d !in s.entries ==> t.entries[d] == PathFor(d) && Published(h, t.files, d) && Won(t.tasks[a.i].phase))
      && (t.viaFlight != s.viaFlight ==> d in t.entries)
      && (Won(s.tasks[a.i].phase) ==> Won(t.tasks[a.i].phase))
  {
  }

  lemma CallStep(h: HashFn, s: State, a: Action)
    requires Inv(h, s) && a.Call?
    ensures Inv(h, Next(h, s, a))
  {
    var t := Next(h, s, a);
    var n := |s.tasks|;
    assert forall i :: 0 <= i < n ==> t.tasks[i] == s.tasks[i];
    forall d | d in t.entries ensures EntryOk(h, t, d) && Justified(t, d) {
      assert EntryOk(h, s, d) && Justified(s, d);
      var k :| 0 <= k < |s.tasks| && s.tasks[k].d == d && Won(s.tasks[k].phase);
      assert t.tasks[k].d == d;
    }
    forall d | d in t.flights ensures FlightOk(t, d) { assert FlightOk(s, d); }
    forall i | 0 <= i < |t.tasks| ensures TaskOk(h, t, i) {
      if i < n { assert TaskOk(h, s, i); }
    }
    forall p | p in t.files && p.Tmp? ensures Owned(t, p) {
      assert Owned(s, p);
      var k :| 0 <= k < |s.tasks| && OwnsTmp(s.tasks[k].phase) && s.tasks[k].phase.tmp == p;
      assert t.tasks[k] == s.tasks[k];
    }
  }

  lemma TasksKept(h: HashFn, s: State, a: Action)
    requires LawfulHash(h) && Inv(h, s) && Enabled(s, a) && !a.Call?
    ensures forall j :: 0 <= j < |Next(h, s, a).tasks| ==> TaskOk(h, Next(h, s, a), j)
  {
    var t := Next(h, s, a);
    assert TaskOk(h, s, a.i);
    if s.tasks[a.i].d in s.entries { assert EntryOk(h, s, s.tasks[a.i].d); }
    StepShape(h, s, a);
    StepEffect(h, s, a);
    StepFlights(h, s, a);
    ViaFlightStep(h, s, a);
    forall j | 0 <= j < |t.tasks| ensures TaskOk(h, t, j) {
      assert TaskOk(h, s, j);
      if j == a.i {
        if a.Wake? { assert TaskOk(h, s, s.tasks[a.i].phase.leader); }
        ActingTask(h, s, a);
      } else {
        OtherTask(h, s, t, a.i, j);
      }
    }
  }

  lemma InvStep(h: HashFn, s: State, a: Action)
    requires LawfulHash(h) && Inv(h, s) && Enabled(s, a)
    ensures Inv(h, Next(h, s, a))
  {
    if a.Call? {
      CallStep(h, s, a);
    } else {
      assert TaskOk(h, s, a.i);
      StepShape(h, s, a);
      FlightsKept(h, s, a);
      forall j | 0 <= j < |s.tasks| ensures HoldsTmp(s, j) { assert TaskOk(h, s, j); }
      TmpsKept(h, s, a);
      EntriesKept(h, s, a);
      TasksKept(h, s, a);
    }
  }

  lemma {:induction false} InvRuns(h: HashFn, s: State, run: seq<Action>, t: State)
    requires LawfulHash(h) && Inv(h, s) && Runs(h, s, run, t)
    ensures Inv(h, t)
    decreases |run|
  {
    if |run| > 0 {
      InvStep(h, s, run[0]);
      InvRuns(h, Next(h, s, run[0]), run[1..], t);
    }
  }

  // ---- Every run ----

  // ---- Nothing fails without a cause ----

  /** A fetch, copy or rename that fails, or bytes that do not hash to the digest. */
  predicate Fails(h: HashFn, s: State, a: Action)
    requires Enabled(s, a)
  {
    || a.FetchFails? || a.StreamFails? || a.RenameFails?
    || (a.Verify? && DigestOf(h, Algorithm(s.tasks[a.i].d), s.tasks[a.i].phase.hashed) != s.tasks[a.i].d)
    || (a.Verify? && !KnownAlgorithm(Algorithm(s.tasks[a.i].d)))
  }

  /** A run in which no step fails. */
  predicate SmoothRuns(h: HashFn, s: State, run: seq<Action>, t: State)
    decreases |run|
  {
    if |run| == 0 then s == t
    else Enabled(s, run[0]) && !Fails(h, s, run[0]) && SmoothRuns(h, Next(h, s, run[0]), run[1..], t)
  }

  predicate NoneFailed(s: State) {
    forall i :: 0 <= i < |s.tasks| ==>
      !s.tasks[i].phase.Failing? && (s.tasks[i].phase.Settled? || s.tasks[i].phase.Returned? ==> s.tasks[i].phase.r.Some?)
  }

  lemma SmoothStep(h: HashFn, s: State, a: Action)
    requires NoneFailed(s) && Enabled(s, a) && !Fails(h, s, a)
    ensures NoneFailed(Next(h, s, a))
  {
  }

  lemma {:induction false} SmoothIsRun(h: HashFn, s: State, run: seq<Action>, t: State)
    requires NoneFailed(s) && SmoothRuns(h, s, run, t)
    ensures NoneFailed(t) && Runs(h, s, run, t)
    decreases |run|
  {
    if |run| > 0 {
      SmoothStep(h, s, run[0]);
      SmoothIsRun(h, Next(h, s, run[0]), run[1..], t);
    }
  }

  /** A call comes back empty-handed only after some fetch, copy or rename failed or some bytes did not match:
      without one every call that is back has the digest's path, the digest is listed, and the file hashes to it. */
  lemma SmoothRunsSucceed(h: HashFn, run: seq<Action>, s: State, i: nat)
    requires LawfulHash(h) && SmoothRuns(h, Init(), run, s) && i < |s.tasks| && s.tasks[i].phase.Returned?
    ensures var d := s.tasks[i].d; s.tasks[i].phase.r == Some(PathFor(d)) && d in s.entries && Published(h, s.files, d)
  {
    SmoothIsRun(h, Init(), run, s);
    InitInv(h);
    InvRuns(h, Init(), run, s);
    assert TaskOk(h, s, i);
    assert EntryOk(h, s, s.tasks[i].d);
  }

  /**
   * Whatever bytes are fetched, however the steps interleave and even with writers that bypass the
   * flight, a listed or returned path is the digest's own file and its contents hash to the digest.
   */
  lemma SafetyEveryRun(h: HashFn, run: seq<Action>, s: State)
    requires LawfulHash(h) && Runs(h, Init(), run, s)
    ensures forall d :: d in s.entries ==> s.entries[d] == PathFor(d) && Published(h, s.files, d)
    ensures forall i :: 0 <= i < |s.tasks| && Won(s.tasks[i].phase) ==>
      s.tasks[i].phase.r == Some(PathFor(s.tasks[i].d)) && Published(h, s.files, s.tasks[i].d)
  {
    InitInv(h);
    InvRuns(h, Init(), run, s);
    forall d | d in s.entries ensures s.entries[d] == PathFor(d) && Published(h, s.files, d) { assert EntryOk(h, s, d); }
    forall i | 0 <= i < |s.tasks| && Won(s.tasks[i].phase)
      ensures s.tasks[i].phase.r == Some(PathFor(s.tasks[i].d)) && Published(h, s.files, s.tasks[i].d)
    {
      assert TaskOk(h, s, i);
      assert EntryOk(h, s, s.tasks[i].d);
    }
  }

  /** What has been promised stays true: from any later point the entry and its verified file are still there. */
  lemma {:induction false} EntriesPersist(h: HashFn, s: State, run: seq<Action>, t: State, d: Digest)
    requires LawfulHash(h) && Inv(h, s) && Runs(h, s, run, t) && d in s.entries
    ensures d in t.entries && t.entries[d] == s.entries[d] && Published(h, t.files, d)
    decreases |run|
  {
    assert EntryOk(h, s, d);
    if |run| > 0 {
      var u := Next(h, s, run[0]);
      InvStep(h, s, run[0]);
      if !run[0].Call? {
        assert TaskOk(h, s, run[0].i);
        StepEffect(h, s, run[0]);
      }
      EntriesPersist(h, u, run[1..], t, d);
    }
  }

  /** The steps that consume a fetch's outcome; only a task that called fetch takes them. */
  predicate Fetches(s: State, a: Action) {
    (a.FetchFails? || a.CreateTmp?) && Enabled(s, a) && !s.tasks[a.i].direct
  }

  lemma {:induction false} ViaFlightPersists(h: HashFn, s: State, run: seq<Action>, t: State, d: Digest)
    requires LawfulHash(h) && Inv(h, s) && Runs(h, s, run, t) && d in s.viaFlight
    ensures d in t.viaFlight && Inv(h, t)
    decreases |run|
  {
    if |run| > 0 {
      InvStep(h, s, run[0]);
      if !run[0].Call? { assert TaskOk(h, s, run[0].i); ViaFlightStep(h, s, run[0]); }
      ViaFlightPersists(h, Next(h, s, run[0]), run[1..], t, d);
    }
  }

  /** Once a flight has committed a digest, no flight ever fetches it again. */
  lemma NoFetchAfterCommit(h: HashFn, s: State, run: seq<Action>, t: State, a: Action)
    requires LawfulHash(h) && Inv(h, s) && Runs(h, s, run, t) && Fetches(t, a)
    ensures t.tasks[a.i].d !in s.viaFlight
  {
    InvRuns(h, s, run, t);
    assert TaskOk(h, t, a.i);
    if t.tasks[a.i].d in s.viaFlight { ViaFlightPersists(h, s, run, t, t.tasks[a.i].d); }
  }

  predicate Quiet(s: State) { forall i :: 0 <= i < |s.tasks| ==> s.tasks[i].phase.Returned? }

  lemma QuietFlights(s: State, d: Digest)
    requires Quiet(s) && d in s.flights
    ensures !FlightOk(s, d)
  {
  }

  /** When every call is back no temporary file and no flight is left, and exactly the successes are listed. */
  lemma Quiescence(h: HashFn, run: seq<Action>, s: State)
    requires LawfulHash(h) && Runs(h, Init(), run, s) && Quiet(s)
    ensures forall p :: p in s.files ==> p.Final?
    ensures s.flights == map[]
    ensures forall d :: d in s.entries <==> Justified(s, d)
  {
    InitInv(h);
    InvRuns(h, Init(), run, s);
    assert forall p | p in s.files && p.Tmp? :: Owned(s, p);
    if d :| d in s.flights { QuietFlights(s, d); }
    forall d ensures d in s.entries <==> Justified(s, d) {
      if d in s.entries { assert Justified(s, d); }
      if Justified(s, d) {
        var k :| 0 <= k < |s.tasks| && s.tasks[k].d == d && Won(s.tasks[k].phase);
        assert TaskOk(h, s, k);
      }
    }
  }

  /** No caller waits for something that cannot happen: a joined caller's leader can always move. */
  lemma Progress(h: HashFn, s: State) returns (a: Action)
    requires Inv(h, s) && !Quiet(s)
    ensures Enabled(s, a) && !a.Call? && !a.Chunk?
  {
    var i: nat :| i < |s.tasks| && !s.tasks[i].phase.Returned?;
    assert TaskOk(h, s, i);
    var k := i;
    if s.tasks[i].phase.Joined? {
      k := s.tasks[i].phase.leader;
      if s.tasks[k].phase.Returned? { return Wake(i); }
      assert TaskOk(h, s, k);
    }
    match s.tasks[k].phase
    case Called => a := Lookup(k);
    case Missed => a := Enter(k);
    case Leading => a := Recheck(k);
    case Fetching => a := FetchFails(k);
    case Streaming(_, _) => a := Verify(k);
    case Verified(_) => a := Rename(k);
    case Renamed => a := Commit(k);
    case Failing(_) => a := Cleanup(k);
    case Settled(_) => a := Land(k);
  }

  function PhaseRank(): Task -> int {
    (t: Task) =>
      match t.phase
      case Called => 11
      case Missed => 10
      case Joined(_) => 1
      case Leading => 9
      case Fetching => 8
      case Streaming(_, _) => 7
      case Verified(_) => 6
      case Renamed => 2
      case Failing(_) => 5
      case Settled(_) => 1
      case Returned(_) => 0
  }

  function Rank(s: State): int { Total(s.tasks, PhaseRank()) }

  /** Every step of a call but a chunk of its stream brings it nearer its end, so calls with finite streams return. */
  lemma RankStep(h: HashFn, s: State, a: Action)
    requires Enabled(s, a) && !a.Call?
    ensures a.Chunk? ==> Rank(Next(h, s, a)) == Rank(s)
    ensures !a.Chunk? ==> Rank(Next(h, s, a)) < Rank(s)
  {
    StepShape(h, s, a);
    var t := Next(h, s, a);
    TotalUpdate(s.tasks, a.i, t.tasks[a.i], PhaseRank());
  }

  // ---- The spool object ----

  /** One method per atomic section; each is proved to be the machine's step. */
  class BaselineSpool {
    const h: HashFn
    var files: Files                       // the spool directory
    var entries: map<Digest, Path>
    var flights: map<Digest, nat>          // the singleflight group
    var tasks: seq<Task>                   // callers in progress
    ghost var viaFlight: set<Digest>

    ghost function Snapshot(): State
      reads this
    {
      State(files, entries, flights, tasks, viaFlight)
    }

    ghost predicate Valid()
      reads this
    {
      LawfulHash(h) && Inv(h, Snapshot())
    }

    ghost predicate CanDo(a: Action)
      reads this
    {
      Valid() && Enabled(Snapshot(), a)
    }

    constructor (h: HashFn)
      requires LawfulHash(h)
      ensures Valid() && Snapshot() == Init() && this.h == h
    {
      this.h := h;
      files, entries, flights, tasks, viaFlight := map[], map[], map[], [], {};
      new;
      InitInv(h);
    }

    /** The committed path of d, if there is one. */
    function Lookup(d: Digest): (r: Option<Path>)
      requires Valid()
      reads this
      ensures r.Some? ==> r.value in files && Matches(h, d, files[r.value])
    {
      if d in entries then assert EntryOk(h, Snapshot(), d); Some(entries[d]) else None
    }

    method Begin(d: Digest, direct: bool) returns (i: nat)
      requires Valid()
      modifies this
      ensures Valid() && i == |old(tasks)| && Snapshot() == Next(h, old(Snapshot()), Call(d, direct))
    {
      InvStep(h, Snapshot(), Call(d, direct));
      i := |tasks|;
      tasks := tasks + [Task(d, direct, if direct then Fetching else Called)];
    }

    method FastPath(i: nat)
      requires CanDo(Action.Lookup(i))
      modifies this`tasks
      ensures Valid() && Snapshot() == Next(h, old(Snapshot()), Action.Lookup(i))
    {
      InvStep(h, Snapshot(), Action.Lookup(i));
      var hit := Lookup(tasks[i].d);
      tasks := tasks[i := tasks[i].(phase := if hit.Some? then Returned(hit) else Missed)];
    }

    method EnterFlight(i: nat)
      requires CanDo(Enter(i))
      modifies this
      ensures Valid() && Snapshot() == Next(h, old(Snapshot()), Enter(i))
    {
      ghost var after := Next(h, Snapshot(), Enter(i));
      InvStep(h, Snapshot(), Enter(i));
      var d := tasks[i].d;
      if d in flights {
        tasks := tasks[i := tasks[i].(phase := Joined(flights[d]))];
      } else {
        flights := flights[d := i];
        tasks := tasks[i := tasks[i].(phase := Leading)];
      }
      assert Snapshot() == after;
    }

    method RecheckInFlight(i: nat)
      requires CanDo(Recheck(i))
      modifies this`tasks
      ensures Valid() && Snapshot() == Next(h, old(Snapshot()), Recheck(i))
    {
      InvStep(h, Snapshot(), Recheck(i));
      var hit := Lookup(tasks[i].d);
      tasks := tasks[i := tasks[i].(phase := if hit.Some? then Settled(hit) else Fetching)];
    }

    method OpenTmp(i: nat, serial: nat)
      requires CanDo(CreateTmp(i, serial))
      modifies this
      ensures Valid() && Snapshot() == Next(h, old(Snapshot()), CreateTmp(i, serial))
    {
      ghost var after := Next(h, Snapshot(), CreateTmp(i, serial));
      InvStep(h, Snapshot(), CreateTmp(i, serial));
      var tmp := Tmp(Encoded(tasks[i].d), serial);
      files := files[tmp := []];
      tasks := tasks[i := tasks[i].(phase := Streaming(tmp, []))];
      assert Snapshot() == after;
    }

    /** The tee: each chunk reaches the file and the hasher. */
    method CopyChunk(i: nat, data: Bytes)
      requires CanDo(Chunk(i, data))
      modifies this
      ensures Valid() && Snapshot() == Next(h, old(Snapshot()), Chunk(i, data))
    {
      ghost var after := Next(h, Snapshot(), Chunk(i, data));
      InvStep(h, Snapshot(), Chunk(i, data));
      var p := tasks[i].phase;
      files := files[p.tmp := files[p.tmp] + data];
      tasks := tasks[i := tasks[i].(phase := Streaming(p.tmp, p.hashed + data))];
      assert Snapshot() == after;
    }

    method VerifyDigest(i: nat)
      requires CanDo(Verify(i))
      modifies this`tasks
      ensures Valid() && Snapshot() == Next(h, old(Snapshot()), Verify(i))
    {
      InvStep(h, Snapshot(), Verify(i));
      var p := tasks[i].phase;
      tasks := tasks[i := tasks[i].(phase := if Matches(h, tasks[i].d, p.hashed) then Verified(p.tmp) else Failing(p.tmp))];
    }

    method Publish(i: nat)
      requires CanDo(Rename(i))
      modifies this
      ensures Valid() && Snapshot() == Next(h, old(Snapshot()), Rename(i))
    {
      ghost var after := Next(h, Snapshot(), Rename(i));
      InvStep(h, Snapshot(), Rename(i));
      var tmp := tasks[i].phase.tmp;
      files := (files - {tmp})[PathFor(tasks[i].d) := files[tmp]];
      tasks := tasks[i := tasks[i].(phase := Renamed)];
      assert Snapshot() == after;
    }

    method Record(i: nat)
      requires CanDo(Commit(i))
      modifies this
      ensures Valid() && Snapshot() == Next(h, old(Snapshot()), Commit(i))
    {
      ghost var after := Next(h, Snapshot(), Commit(i));
      InvStep(h, Snapshot(), Commit(i));
      var d := tasks[i].d;
      entries := entries[d := PathFor(d)];
      viaFlight := if tasks[i].direct then viaFlight else viaFlight + {d};
      tasks := tasks[i := tasks[i].(phase := Settled(Some(PathFor(d))))];
      assert Snapshot() == after;
    }

    /** A failed fetch, copy or rename: nothing is recorded; an open temporary file waits for removal. */
    method GiveUp(i: nat)
      requires CanDo(FetchFails(i)) || CanDo(StreamFails(i)) || CanDo(RenameFails(i))
      modifies this`tasks
      ensures Valid()
      ensures Snapshot() == Next(h, old(Snapshot()),
        if old(tasks)[i].phase.Fetching? then FetchFails(i) else if old(tasks)[i].phase.Streaming? then StreamFails(i) else RenameFails(i))
    {
      if tasks[i].phase.Fetching? {
        InvStep(h, Snapshot(), FetchFails(i));
        tasks := tasks[i := tasks[i].(phase := Settled(None))];
      } else {
        InvStep(h, Snapshot(), if tasks[i].phase.Streaming? then StreamFails(i) else RenameFails(i));
        tasks := tasks[i := tasks[i].(phase := Failing(tasks[i].phase.tmp))];
      }
    }

    method RemoveTmp(i: nat)
      requires CanDo(Cleanup(i))
      modifies this
      ensures Valid() && Snapshot() == Next(h, old(Snapshot()), Cleanup(i))
    {
      ghost var after := Next(h, Snapshot(), Cleanup(i));
      InvStep(h, Snapshot(), Cleanup(i));
      files := files - {tasks[i].phase.tmp};
      tasks := tasks[i := tasks[i].(phase := Settled(None))];
      assert Snapshot() == after;
    }

    method LeaveFlight(i: nat) returns (r: Option<Path>)
      requires CanDo(Land(i))
      modifies this
      ensures Valid() && Snapshot() == Next(h, old(Snapshot()), Land(i))
      ensures r.Some? ==> r.value in files && Matches(h, tasks[i].d, files[r.value])
    {
      ghost var after := Next(h, Snapshot(), Land(i));
      InvStep(h, Snapshot(), Land(i));
      r := tasks[i].phase.r;
      flights := if tasks[i].direct then flights else flights - {tasks[i].d};
      tasks := tasks[i := tasks[i].(phase := Returned(r))];
      assert Snapshot() == after;
      Delivered(i);
    }

    method Receive(i: nat) returns (r: Option<Path>)
      requires CanDo(Wake(i))
      modifies this`tasks
      ensures Valid() && Snapshot() == Next(h, old(Snapshot()), Wake(i))
      ensures r.Some? ==> r.value in files && Matches(h, tasks[i].d, files[r.value])
    {
      InvStep(h, Snapshot(), Wake(i));
      r := tasks[tasks[i].phase.leader].phase.r;
      tasks := tasks[i := tasks[i].(phase := Returned(r))];
      Delivered(i);
    }

    lemma Delivered(i: nat)
      requires Valid() && i < |tasks| && tasks[i].phase.Returned?
      ensures var r := tasks[i].phase.r; r.Some? ==> r.value in files && Matches(h, tasks[i].d, files[r.value])
    {
      assert TaskOk(h, Snapshot(), i);
      if tasks[i].phase.r.Some? { assert EntryOk(h, Snapshot(), tasks[i].d); }
    }
  }
}
