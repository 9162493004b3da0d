/** The per-image report of an import: serial or pooled, it has one row per image in a fixed order. */
module Report {
  import opened Common
  import opened Sorting
  import A = Admission
  import P = Preflight

  datatype RowStatus = Applied | ComposeFailed | InvariantFailed | SkippedPreflight

  datatype Row = Row(name: string, status: RowStatus, why: string)

  const BUDGET_SENTINEL := "<budget>"

  // ---- Preflight's verdicts ----

  /** Names of the accepted images, in preflight order. */
  function OkNames(rs: seq<P.Report>): seq<string> {
    if |rs| == 0 then []
    else
      var last := rs[|rs| - 1];
      OkNames(rs[..|rs| - 1]) + if last.verdict == P.Ok then [last.name] else []
  }

  function Rejected(rs: seq<P.Report>): map<string, P.Report> {
    if |rs| == 0 then map[]
    else
      var last := rs[|rs| - 1];
      var rest := Rejected(rs[..|rs| - 1]);
      if last.verdict == P.Ok then rest else rest[last.name := last]
  }

  method SplitPreflight(rs: seq<P.Report>) returns (list: seq<string>, skipped: map<string, P.Report>)
    ensures list == OkNames(rs) && skipped == Rejected(rs)
  {
    list, skipped := [], map[];
    for i := 0 to |rs|
      invariant list == OkNames(rs[..i]) && skipped == Rejected(rs[..i])
    {
      assert rs[..i + 1][..i] == rs[..i];
      if rs[i].verdict == P.Ok { list := list + [rs[i].name]; } else { skipped := skipped[rs[i].name := rs[i]]; }
    }
    assert rs[..|rs|] == rs;
  }

  function SkipRow(r: P.Report): Row {
    Row(r.name, SkippedPreflight, if r.verdict == P.MissingPatch then "patch source" else if r.verdict == P.MissingReuse then "reuse layer" else "preflight")
  }

  /** One row per rejected image, in sidecar order. */
  function SkipRows(images: seq<string>, skipped: map<string, P.Report>): seq<Row> {
    if |images| == 0 then []
    else
      var last := images[|images| - 1];
      SkipRows(images[..|images| - 1], skipped) + if last in skipped then [SkipRow(skipped[last])] else []
  }

  method MergePreflightSkips(rows: seq<Row>, images: seq<string>, skipped: map<string, P.Report>) returns (out: seq<Row>)
    ensures out == rows + SkipRows(images, skipped)
  {
    out := rows;
    for i := 0 to |images|
      invariant out == rows + SkipRows(images[..i], skipped)
    {
      assert images[..i + 1][..i] == images[..i];
      if images[i] in skipped { out := out + [SkipRow(skipped[images[i]])]; }
    }
    assert images[..|images|] == images;
  }

  // ---- Sorting by the apply list ----

  /** The position of name in the list; names outside it rank last. */
  function RankOf(list: seq<string>, name: string): (r: nat)
    ensures r <= |list|
    ensures r < |list| ==> list[r] == name
  {
    RankIn(list, |list|, name)
  }

  function RankIn(list: seq<string>, n: nat, name: string): (r: nat)
    requires n <= |list|
    ensures r < n || r == |list|
    ensures r < n ==> list[r] == name
  {
    if n == 0 then |list| else if list[n - 1] == name then n - 1 else RankIn(list, n - 1, name)
  }

  lemma {:induction false} RankFinds(list: seq<string>, n: nat, i: nat)
    requires i < n <= |list| && NoRepeats(list)
    ensures RankIn(list, n, list[i]) == i
    decreases n
  {
    if i < n - 1 { RankFinds(list, n - 1, i); }
  }

  function ByRank(list: seq<string>): (Row, Row) -> bool {
    (a: Row, b: Row) => RankOf(list, a.name) < RankOf(list, b.name)
  }

  method SortResults(rows: seq<Row>, list: seq<string>) returns (sorted: seq<Row>)
    ensures sorted == Sort(rows, ByRank(list))
  {
    sorted := StableSort(rows, ByRank(list));
  }

  /** What applying each image gives; estimate is None when the image's manifest cannot be read. */
  datatype Batch = Batch(list: seq<string>, estimate: string -> Option<int>, outcome: string -> Row)

  ghost predicate BatchOk(b: Batch) {
    NoRepeats(b.list) && forall n :: n in b.list ==> b.outcome(n).name == n
  }

  function Serial(b: Batch): seq<Row> { Mapped(b.list, b.outcome) }

  lemma SerialIsSorted(b: Batch)
    requires BatchOk(b)
    ensures Sorted(Serial(b), ByRank(b.list))
  {
    forall i, j | 0 <= i < j < |b.list| ensures !ByRank(b.list)(Serial(b)[j], Serial(b)[i]) {
      RankFinds(b.list, |b.list|, i);
      RankFinds(b.list, |b.list|, j);
    }
  }

  /** Whatever order the rows arrived in, sorting them by the apply list gives the serial report. */
  lemma ArrivalOrderVanishes(b: Batch, rows: seq<Row>)
    requires BatchOk(b) && multiset(rows) == multiset(Serial(b))
    ensures Sort(rows, ByRank(b.list)) == Serial(b)
  {
    var before := ByRank(b.list);
    forall x, y | x in rows && y in rows && x != y ensures before(x, y) || before(y, x) {
      assert x in multiset(Serial(b)) && y in multiset(Serial(b));
      var i :| 0 <= i < |b.list| && Serial(b)[i] == x;
      var j :| 0 <= j < |b.list| && Serial(b)[j] == y;
      RankFinds(b.list, |b.list|, i);
      RankFinds(b.list, |b.list|, j);
    }
    SortIgnoresOrder(rows, Serial(b), before);
    SerialIsSorted(b);
    SortFixpoint(Serial(b), before);
  }

  /** The inline path: rows in list order, stopping early when cancelled or, in strict mode, after a failure. */
  method ImportSerial(b: Batch, fits: bool, strict: bool, live: nat) returns (rows: seq<Row>)
    requires BatchOk(b)
    ensures !fits ==> rows == [Row("<budget>", ComposeFailed, "budget")]
    ensures fits ==> rows <= Serial(b)
    ensures fits && !strict ==> |rows| == if live < |b.list| then live else |b.list|
    ensures fits && strict ==> forall i :: 0 <= i < |rows| - 1 ==> rows[i].status == Applied
    ensures fits && strict && |rows| < |b.list| ==> |rows| == live || (|rows| > 0 && rows[|rows| - 1].status != Applied)
  {
    if !fits { return [Row(BUDGET_SENTINEL, ComposeFailed, "budget")]; }
    rows := [];
    var i := 0;
    while i < |b.list|
      invariant 0 <= i <= |b.list| && i <= live && rows == Serial(b)[..i]
      invariant strict ==> forall j :: 0 <= j < i ==> rows[j].status == Applied
    {
      if i >= live { break; }
      var r := b.outcome(b.list[i]);
      rows := rows + [r];
      i := i + 1;
      if strict && r.status != Applied { break; }
    }
    PrefixSorted(b, rows);
    SortFixpoint(rows, ByRank(b.list));
    rows := SortResults(rows, b.list);
  }

  lemma PrefixSorted(b: Batch, rows: seq<Row>)
    requires BatchOk(b) && rows <= Serial(b)
    ensures Sorted(rows, ByRank(b.list))
  {
    SerialIsSorted(b);
  }

  // ---- The pooled path ----

  /** The submission loop, the scheduler and the running closures; done lists the images recorded so far. */
  datatype State = State(pool: A.Pool, cursor: nat, rows: seq<Row>, done: seq<string>)

  /** Partial mode: closures always succeed, and nothing is cancelled. */
  datatype Action = SubmitNext | Sched(a: A.Action) | Record(i: nat) | Return(i: nat)

  function Init(workers: int, budget: int): State { State(A.Init(workers, budget), 0, [], []) }

  predicate Runs1(s: State, i: nat) { i < |s.pool.tasks| && s.pool.tasks[i].phase.Running? }

  predicate Enabled(b: Batch, s: State, a: Action) {
    match a
    case SubmitNext => s.cursor < |b.list|
    case Sched(x) => A.TaskStep(x) && !x.Finish? && A.Enabled(s.pool, x)
    case Record(i) => Runs1(s, i) && s.pool.tasks[i].key !in s.done
    case Return(i) => Runs1(s, i) && s.pool.tasks[i].key in s.done
  }

  function Add(b: Batch, s: State, name: string): State {
    s.(rows := s.rows + [b.outcome(name)], done := s.done + [name])
  }

  function Next(b: Batch, s: State, a: Action): State
    requires Enabled(b, s, a)
  {
    match a
    case SubmitNext =>
      var n := b.list[s.cursor];
      (match b.estimate(n)
       case None => Add(b, s, n)
       case Some(e) => s.(pool := A.Next(s.pool, A.Action.Submit(n, e)))).(cursor := s.cursor + 1)
    case Sched(x) => s.(pool := A.Next(s.pool, x))
    case Record(i) => Add(b, s, s.pool.tasks[i].key)
    case Return(i) => s.(pool := A.Next(s.pool, A.Finish(i, A.Succeeded)))
  }

  predicate Runs(b: Batch, s: State, run: seq<Action>, t: State)
    decreases |run|
  {
    if |run| == 0 then s == t
    else Enabled(b, s, run[0]) && Runs(b, Next(b, s, run[0]), run[1..], t)
  }

  predicate Tracked(s: State, n: string) {
    n in s.done || exists i :: 0 <= i < |s.pool.tasks| && s.pool.tasks[i].key == n
  }

  predicate TaskKnown(b: Batch, s: State, i: nat)
    requires i < |s.pool.tasks| && s.cursor <= |b.list|
  {
    s.pool.tasks[i].key in b.list[..s.cursor] && (s.pool.tasks[i].ran.Some? ==> s.pool.tasks[i].key in s.done)
  }

  predicate KeysDiffer(p: A.Pool) {
    forall i, j :: 0 <= i < j < |p.tasks| ==> p.tasks[i].key != p.tasks[j].key
  }

  ghost predicate Inv(b: Batch, s: State) {
    && A.Inv(s.pool) && A.Clean(s.pool) && KeysDiffer(s.pool) && s.cursor <= |b.list|
    && (forall i :: 0 <= i < |s.pool.tasks| ==> TaskKnown(b, s, i))
    && NoRepeats(s.done) && (forall n :: n in s.done ==> n in b.list[..s.cursor])
    && s.rows == Mapped(s.done, b.outcome)
    && (forall k :: 0 <= k < s.cursor ==> Tracked(s, b.list[k]))
  }

  lemma InitInv(b: Batch, workers: int, budget: int)
    ensures Inv(b, Init(workers, budget))
  {
    A.InitInv(workers, budget);
  }

  /** A scheduler step changes no key and no ran flag but by a return. */
  lemma PoolStep(b: Batch, s: State, x: A.Action)
    requires Inv(b, s) && A.Enabled(s.pool, x) && A.TaskStep(x)
    requires x.Finish? ==> x.out.Succeeded? && s.pool.tasks[x.i].key in s.done
    ensures Inv(b, s.(pool := A.Next(s.pool, x)))
  {
    var t := s.(pool := A.Next(s.pool, x));
    A.InvStep(s.pool, x);
    A.CleanStep(s.pool, x);
    A.MoveShape(s.pool, x);
    A.PhaseFlow(s.pool, x);
    forall i | 0 <= i < |t.pool.tasks| ensures TaskKnown(b, t, i) && t.pool.tasks[i].key == s.pool.tasks[i].key {
      assert TaskKnown(b, s, i);
    }
    forall k | 0 <= k < t.cursor ensures Tracked(t, b.list[k]) {
      assert Tracked(s, b.list[k]);
      if i :| 0 <= i < |s.pool.tasks| && s.pool.tasks[i].key == b.list[k] {
        assert t.pool.tasks[i].key == b.list[k];
      }
    }
  }

  /** Recording a name that was not recorded before. */
  lemma AddStep(b: Batch, s: State, n: string, cursor: nat)
    requires Inv(b, s) && n !in s.done && s.cursor <= cursor <= |b.list| && n in b.list[..cursor]
    requires forall k :: s.cursor <= k < cursor ==> b.list[k] == n
    ensures Inv(b, Add(b, s, n).(cursor := cursor))
  {
    var t := Add(b, s, n).(cursor := cursor);
    ElementsAppend(s.done, n);
    assert t.done[..|s.done|] == s.done;
    assert b.list[..s.cursor] == b.list[..cursor][..s.cursor];
    forall i | 0 <= i < |t.pool.tasks| ensures TaskKnown(b, t, i) { assert TaskKnown(b, s, i); }
    forall k | 0 <= k < t.cursor ensures Tracked(t, b.list[k]) {
      if k < s.cursor { assert Tracked(s, b.list[k]); } else { assert b.list[k] == t.done[|s.done|]; }
    }
  }

  lemma FreshName(b: Batch, s: State)
    requires BatchOk(b) && Inv(b, s) && s.cursor < |b.list|
    ensures b.list[s.cursor] !in b.list[..s.cursor] && b.list[s.cursor] !in s.done
    ensures forall i :: 0 <= i < |s.pool.tasks| ==> s.pool.tasks[i].key != b.list[s.cursor]
  {
    assert b.list[s.cursor] !in b.list[..s.cursor];
    forall i | 0 <= i < |s.pool.tasks| ensures s.pool.tasks[i].key != b.list[s.cursor] { assert TaskKnown(b, s, i); }
  }

  lemma SubmitStep(b: Batch, s: State, e: int)
    requires BatchOk(b) && Inv(b, s) && s.cursor < |b.list|
    ensures Inv(b, s.(pool := A.Next(s.pool, A.Action.Submit(b.list[s.cursor], e)), cursor := s.cursor + 1))
  {
    var n := b.list[s.cursor];
    var x := A.Action.Submit(n, e);
    var t := s.(pool := A.Next(s.pool, x), cursor := s.cursor + 1);
    FreshName(b, s);
    A.InvStep(s.pool, x);
    A.CleanStep(s.pool, x);
    assert b.list[..t.cursor] == b.list[..s.cursor] + [n];
    var last := |s.pool.tasks|;
    assert t.pool.tasks[last].key == n && t.pool.tasks[last].ran.None?;
    forall i | 0 <= i < |t.pool.tasks| ensures TaskKnown(b, t, i) {
      if i < last { assert TaskKnown(b, s, i) && t.pool.tasks[i] == s.pool.tasks[i]; }
    }
    forall k | 0 <= k < t.cursor ensures Tracked(t, b.list[k]) {
      if k < s.cursor {
        assert Tracked(s, b.list[k]);
        if i :| 0 <= i < last && s.pool.tasks[i].key == b.list[k] { assert t.pool.tasks[i].key == b.list[k]; }
      }
    }
  }

  lemma InvStep(b: Batch, s: State, a: Action)
    requires BatchOk(b) && Inv(b, s) && Enabled(b, s, a)
    ensures Inv(b, Next(b, s, a))
  {
    match a
    case SubmitNext =>
      var n := b.list[s.cursor];
      FreshName(b, s);
      match b.estimate(n) {
        case None =>
          assert b.list[..s.cursor + 1][s.cursor] == n;
          AddStep(b, s, n, s.cursor + 1);
        case Some(e) => SubmitStep(b, s, e);
      }
    case Sched(x) => PoolStep(b, s, x);
    case Record(i) =>
      assert TaskKnown(b, s, i);
      AddStep(b, s, s.pool.tasks[i].key, s.cursor);
    case Return(i) => PoolStep(b, s, A.Finish(i, A.Succeeded));
  }

  lemma {:induction false} InvRuns(b: Batch, s: State, run: seq<Action>, t: State)
    requires BatchOk(b) && Inv(b, s) && Runs(b, s, run, t)
    ensures Inv(b, t)
    decreases |run|
  {
    if |run| > 0 {
      InvStep(b, s, run[0]);
      InvRuns(b, Next(b, s, run[0]), run[1..], t);
    }
  }

  /** When the pool is done every image has been recorded exactly once. */
  lemma AllRecorded(b: Batch, s: State)
    requires BatchOk(b) && Inv(b, s) && s.cursor == |b.list| && A.AllDone(s.pool)
    ensures multiset(s.done) == multiset(b.list)
  {
    A.CleanHasNoError(s.pool);
    A.DistinctKeysAllRun(s.pool);
    assert b.list[..|b.list|] == b.list;
    forall n | n in b.list ensures n in s.done {
      var k :| 0 <= k < |b.list| && b.list[k] == n;
      assert Tracked(s, b.list[k]);
      if i :| 0 <= i < |s.pool.tasks| && s.pool.tasks[i].key == n { assert TaskKnown(b, s, i); }
    }
    forall n ensures multiset(s.done)[n] == multiset(b.list)[n] {
      CountOnce(s.done, n);
      CountOnce(b.list, n);
    }
  }

  /**
   * In partial mode, for every worker count, budget and interleaving, the pool's report after the final
   * sort is the serial report, row for row.
   */
  lemma PooledIsSerial(b: Batch, workers: int, budget: int, run: seq<Action>, s: State)
    requires BatchOk(b) && Runs(b, Init(workers, budget), run, s) && s.cursor == |b.list| && A.AllDone(s.pool)
    ensures Sort(s.rows, ByRank(b.list)) == Serial(b)
  {
    InitInv(b, workers, budget);
    InvRuns(b, Init(workers, budget), run, s);
    AllRecorded(b, s);
    MappedPermute(s.done, b.list, b.outcome);
    ArrivalOrderVanishes(b, s.rows);
  }

  /** The pooled import never gets stuck before every image is recorded. */
  lemma PooledProgress(b: Batch, s: State) returns (a: Action)
    requires BatchOk(b) && Inv(b, s) && (s.cursor < |b.list| || !A.AllDone(s.pool))
    ensures Enabled(b, s, a)
  {
    if s.cursor < |b.list| { return SubmitNext; }
    var x := A.Progress(s.pool);
    if !x.Finish? { return Sched(x); }
    if s.pool.tasks[x.i].key in s.done { a := Return(x.i); } else { a := Record(x.i); }
  }

  // ---- The final report ----

  function Names(rows: seq<Row>): seq<string> { Mapped(rows, (r: Row) => r.name) }

  function ReportNames(rs: seq<P.Report>): seq<string> { Mapped(rs, (r: P.Report) => r.name) }

  function Final(rs: seq<P.Report>, rows: seq<Row>): seq<Row> { rows + SkipRows(ReportNames(rs), Rejected(rs)) }

  /** The names of the rejected images, in preflight order. */
  function BadNames(rs: seq<P.Report>): seq<string> {
    if |rs| == 0 then []
    else
      var last := rs[|rs| - 1];
      BadNames(rs[..|rs| - 1]) + if last.verdict == P.Ok then [] else [last.name]
  }

  lemma {:induction false} NamesSplit(rs: seq<P.Report>)
    ensures multiset(OkNames(rs)) + multiset(BadNames(rs)) == multiset(ReportNames(rs))
    decreases |rs|
  {
    if |rs| > 0 { NamesSplit(rs[..|rs| - 1]); }
  }

  /** A name is rejected exactly by its own report. */
  lemma {:induction false} RejectedExact(rs: seq<P.Report>, i: nat)
    requires i < |rs| && NoRepeats(ReportNames(rs))
    ensures rs[i].name in Rejected(rs) <==> rs[i].verdict != P.Ok
    ensures rs[i].verdict != P.Ok ==> Rejected(rs)[rs[i].name] == rs[i]
    decreases |rs|
  {
    var front := rs[..|rs| - 1];
    assert forall k :: 0 <= k < |front| ==> ReportNames(rs)[k] == ReportNames(front)[k] == front[k].name;
    assert ReportNames(rs)[|rs| - 1] == rs[|rs| - 1].name;
    if i < |rs| - 1 {
      RejectedExact(front, i);
    } else {
      NotRejectedElsewhere(front, rs[i].name);
    }
  }

  lemma {:induction false} NotRejectedElsewhere(rs: seq<P.Report>, n: string)
    requires forall k :: 0 <= k < |rs| ==> rs[k].name != n
    ensures n !in Rejected(rs)
    decreases |rs|
  {
    if |rs| > 0 { NotRejectedElsewhere(rs[..|rs| - 1], n); }
  }

  /** The skip rows are the rejected reports' rows, in preflight order. */
  lemma {:induction false} SkipRowsExact(rs: seq<P.Report>, n: nat)
    requires n <= |rs| && NoRepeats(ReportNames(rs))
    ensures Names(SkipRows(ReportNames(rs)[..n], Rejected(rs))) == BadNames(rs[..n])
    ensures forall r :: r in SkipRows(ReportNames(rs)[..n], Rejected(rs)) ==> r.status == SkippedPreflight
    decreases n
  {
    if n > 0 {
      SkipRowsExact(rs, n - 1);
      RejectedExact(rs, n - 1);
      assert ReportNames(rs)[..n][..n - 1] == ReportNames(rs)[..n - 1];
      assert rs[..n][..n - 1] == rs[..n - 1];
      assert ReportNames(rs)[..n][n - 1] == rs[n - 1].name;
    }
  }

  /** The row is for this report's image, and its reason is the verdict's. */
  predicate Tells(r: Row, of: P.Report) {
    && r.name == of.name && r.status == SkippedPreflight
    && (r.why == "patch source" <==> of.verdict == P.MissingPatch)
    && (r.why == "reuse layer" <==> of.verdict == P.MissingReuse)
  }

  /** Every rejected image has a row in the report that names it and says what its baseline lacks. */
  lemma {:induction false} SkipReasons(rs: seq<P.Report>, n: nat, i: nat)
    requires i < n <= |rs| && NoRepeats(ReportNames(rs)) && rs[i].verdict != P.Ok
    ensures exists r :: r in SkipRows(ReportNames(rs)[..n], Rejected(rs)) && Tells(r, rs[i])
    decreases n
  {
    var names := ReportNames(rs);
    assert names[..n][..n - 1] == names[..n - 1] && names[..n][n - 1] == rs[n - 1].name;
    RejectedExact(rs, n - 1);
    if i < n - 1 {
      SkipReasons(rs, n - 1, i);
      var r :| r in SkipRows(names[..n - 1], Rejected(rs)) && Tells(r, rs[i]);
      assert r in SkipRows(names[..n], Rejected(rs));
    } else {
      ReasonsDiffer();
      assert SkipRow(rs[i]) in SkipRows(names[..n], Rejected(rs));
    }
  }

  lemma ReasonsDiffer()
    ensures "patch source" != "reuse layer" && "patch source" != "preflight" && "reuse layer" != "preflight"
  {
    assert |"patch source"| == 12 && |"reuse layer"| == 11 && |"preflight"| == 9;
  }

  lemma {:induction false} NamesAppend(xs: seq<Row>, ys: seq<Row>)
    ensures Names(xs + ys) == Names(xs) + Names(ys)
  {
    assert forall i :: 0 <= i < |xs + ys| ==> Names(xs + ys)[i] == (Names(xs) + Names(ys))[i];
  }

  /** A repeated element counts at least twice. */
  lemma AllSkips(rs: seq<P.Report>)
    requires NoRepeats(ReportNames(rs))
    ensures Names(SkipRows(ReportNames(rs), Rejected(rs))) == BadNames(rs)
    ensures forall r :: r in SkipRows(ReportNames(rs), Rejected(rs)) ==> r.status == SkippedPreflight
  {
    SkipRowsExact(rs, |rs|);
    assert ReportNames(rs)[..|rs|] == ReportNames(rs) && rs[..|rs|] == rs;
  }

  lemma SerialNames(b: Batch)
    requires BatchOk(b)
    ensures Names(Serial(b)) == b.list
  {
    assert forall i :: 0 <= i < |b.list| ==> Names(Serial(b))[i] == b.list[i];
  }

  /** Applied images come first, in preflight order, then the skipped ones in theirs. */
  lemma FinalOrder(rs: seq<P.Report>, b: Batch)
    requires NoRepeats(ReportNames(rs)) && b.list == OkNames(rs) && BatchOk(b)
    ensures Names(Final(rs, Serial(b))) == OkNames(rs) + BadNames(rs)
    ensures forall r :: r in Final(rs, Serial(b))[|OkNames(rs)|..] ==> r.status == SkippedPreflight
  {
    var skips := SkipRows(ReportNames(rs), Rejected(rs));
    AllSkips(rs);
    SerialNames(b);
    NamesAppend(Serial(b), skips);
    assert Final(rs, Serial(b))[|OkNames(rs)|..] == skips;
  }

  /** Conservation: with distinct image names the final report names every image exactly once. */
  lemma EveryImageOnce(rs: seq<P.Report>, b: Batch)
    requires NoRepeats(ReportNames(rs)) && b.list == OkNames(rs) && BatchOk(b)
    ensures multiset(Names(Final(rs, Serial(b)))) == multiset(ReportNames(rs))
    ensures NoRepeats(Names(Final(rs, Serial(b))))
  {
    FinalOrder(rs, b);
    NamesSplit(rs);
    SameCounts(Names(Final(rs, Serial(b))), ReportNames(rs));
  }
}
