/**
 * Importing the accepted images of an exported bundle together.  All blob requests of all images
 * interleave on the one spool; what a request needs from a baseline is fetched through the flight
 * of its digest, so by the source of whichever image leads that flight.
 */
module SharedImport {
  import opened Common
  import opened Diff
  import opened Compose
  import opened Sorting
  import E = Encode
  import opened RoundTrip
  import P = Preflight
  import R = Report

  /** How far one blob request has come. */
  datatype Progress =
    | Asked
    | HasSource          // what it needs from a baseline is spooled
    | Over(r: Served)    // read to its end, or refused

  /** at[i][q] is image i's request for the q-th blob it wants; images left out have no requests. */
  datatype State = State(spool: Spool, at: seq<seq<Progress>>)

  datatype Action =
    | Fetch(i: nat, q: nat, leader: nat)   // joins, or leads, the flight led by image leader
    | Finish(i: nat, q: nat)

  ghost predicate AcceptedOnly(x: Input, b: Bundle, images: set<nat>) {
    forall i :: i in images ==> i < |x.pairs| && SourcesHeld(b, x.pairs[i])
  }

  function Init(x: Input, images: set<nat>, spool: Spool): State {
    State(spool, seq(|x.pairs|, i requires 0 <= i < |x.pairs| => if i in images then seq(|Wanted(x.pairs[i])|, _ => Asked) else []))
  }

  predicate Present(x: Input, s: State, i: nat, q: nat) {
    i < |s.at| && i < |x.pairs| && q < |s.at[i]| && q < |Wanted(x.pairs[i])|
  }

  /** What the request asks a baseline for, if anything. */
  function Need(x: Input, b: Bundle, i: nat, q: nat): Option<Digest>
    requires i < |x.pairs| && q < |Wanted(x.pairs[i])|
  {
    Needs(WorldOf(x, b, i), Wanted(x.pairs[i])[q])
  }

  /** Some request of image l needs e, so l can lead e's flight. */
  ghost predicate CanLead(x: Input, b: Bundle, s: State, l: nat, e: Digest) {
    exists q :: 0 <= q && Present(x, s, l, q) && Need(x, b, l, q) == Some(e)
  }

  ghost predicate Enabled(x: Input, b: Bundle, s: State, a: Action) {
    match a
    case Fetch(i, q, l) =>
      && Present(x, s, i, q) && s.at[i][q].Asked?
      && Need(x, b, i, q).Some? && l < |x.pairs| && CanLead(x, b, s, l, Need(x, b, i, q).value)
    case Finish(i, q) =>
      Present(x, s, i, q) && (s.at[i][q].HasSource? || (s.at[i][q].Asked? && Need(x, b, i, q).None?))
  }

  function Put(s: State, i: nat, q: nat, p: Progress): State
    requires i < |s.at| && q < |s.at[i]|
  {
    s.(at := s.at[i := s.at[i][q := p]])
  }

  /** Image i's view with the flight leader's source in the place of its own. */
  function Through(x: Input, b: Bundle, i: nat, l: nat): World
    requires i < |x.pairs| && l < |x.pairs|
  {
    WorldOf(x, b, i).(source := SourceOf(x, x.pairs[l]))
  }

  ghost function Next(x: Input, b: Bundle, s: State, a: Action): State
    requires Enabled(x, b, s, a)
  {
    match a
    case Fetch(i, q, l) =>
      var w, e := Through(x, b, i, l), Need(x, b, i, q).value;
      var t := s.(spool := SpoolAfter(w, s.spool, e));
      Put(t, i, q, if e in t.spool then HasSource else Over(Serve(w, s.spool, Wanted(x.pairs[i])[q])))
    case Finish(i, q) => Put(s, i, q, Over(Serve(WorldOf(x, b, i), s.spool, Wanted(x.pairs[i])[q])))
  }

  ghost predicate Runs(x: Input, b: Bundle, s: State, run: seq<Action>, t: State)
    decreases |run|
  {
    if |run| == 0 then s == t
    else Enabled(x, b, s, run[0]) && Runs(x, b, Next(x, b, s, run[0]), run[1..], t)
  }

  // ---- The invariant ----

  predicate RequestOk(x: Input, b: Bundle, s: State, i: nat, q: nat)
    requires Present(x, s, i, q)
  {
    match s.at[i][q]
    case Asked => true
    case HasSource => Need(x, b, i, q).Some? && Need(x, b, i, q).value in s.spool
    case Over(r) => Wanted(x.pairs[i])[q] in x.store && r == Served(x.store[Wanted(x.pairs[i])[q]])
  }

  predicate Shaped(x: Input, images: set<nat>, s: State) {
    |s.at| == |x.pairs| && forall i :: 0 <= i < |s.at| ==> |s.at[i]| == if i in images then |Wanted(x.pairs[i])| else 0
  }

  ghost predicate Inv(x: Input, b: Bundle, images: set<nat>, s: State) {
    && Shaped(x, images, s) && Agrees(x, s.spool)
    && forall i, q :: 0 <= i && 0 <= q && Present(x, s, i, q) ==> RequestOk(x, b, s, i, q)
  }

  lemma InitInv(x: Input, b: Bundle, images: set<nat>, spool: Spool)
    requires Agrees(x, spool)
    ensures Inv(x, b, images, Init(x, images, spool))
  {
  }

  /** What an accepted image needs, its own baseline holds; so whoever leads the flight serves the store's bytes. */
  lemma NeedHeld(x: Input, b: Bundle, i: nat, q: nat)
    requires Sound(x, b) && i < |x.pairs| && SourcesHeld(b, x.pairs[i]) && q < |Wanted(x.pairs[i])|
    ensures Need(x, b, i, q).Some? ==> Need(x, b, i, q).value in Holdings(x.pairs[i]) && Need(x, b, i, q).value in x.store
  {
    var d := Wanted(x.pairs[i])[q];
    assert d in Wanted(x.pairs[i]);
    assert WantMet(x, b, i, d);
    if d in b.blobs { assert Reachable(b, x.pairs[i], map[], d); }
  }

  lemma LeaderFetches(x: Input, b: Bundle, i: nat, l: nat, spool: Spool, e: Digest)
    requires Sound(x, b) && i < |x.pairs| && l < |x.pairs| && Agrees(x, spool) && e in Holdings(x.pairs[l]) && e in x.store
    ensures SpoolAfter(Through(x, b, i, l), spool, e) == spool[e := x.store[e]]
  {
  }

  lemma FetchStep(x: Input, b: Bundle, images: set<nat>, s: State, i: nat, q: nat, l: nat)
    requires Sound(x, b) && AcceptedOnly(x, b, images) && Inv(x, b, images, s) && Enabled(x, b, s, Fetch(i, q, l))
    ensures var e := Need(x, b, i, q).value;
      e in x.store && Next(x, b, s, Fetch(i, q, l)) == Put(s.(spool := s.spool[e := x.store[e]]), i, q, HasSource)
  {
    var e := Need(x, b, i, q).value;
    var p :| 0 <= p && Present(x, s, l, p) && Need(x, b, l, p) == Some(e);
    assert l in images;
    NeedHeld(x, b, l, p);
    LeaderFetches(x, b, i, l, s.spool, e);
  }

  lemma FinishStep(x: Input, b: Bundle, images: set<nat>, s: State, i: nat, q: nat)
    requires Sound(x, b) && AcceptedOnly(x, b, images) && Inv(x, b, images, s) && Enabled(x, b, s, Finish(i, q))
    ensures Wanted(x.pairs[i])[q] in x.store
    ensures Next(x, b, s, Finish(i, q)) == Put(s, i, q, Over(Served(x.store[Wanted(x.pairs[i])[q]])))
  {
    var d := Wanted(x.pairs[i])[q];
    assert d in Wanted(x.pairs[i]);
    assert RequestOk(x, b, s, i, q) && i in images;
    assert Reachable(b, x.pairs[i], map[], d);
    ServeExact(x, b, i, s.spool, d);
  }

  /** Putting one request forward while the spool grows keeps every other request's condition. */
  lemma PutKeeps(x: Input, b: Bundle, images: set<nat>, s: State, spool: Spool, i: nat, q: nat, p: Progress)
    requires Inv(x, b, images, s) && Present(x, s, i, q)
    requires Agrees(x, spool) && forall d :: d in s.spool ==> d in spool
    requires var t := Put(s.(spool := spool), i, q, p); Present(x, t, i, q) && RequestOk(x, b, t, i, q)
    ensures Inv(x, b, images, Put(s.(spool := spool), i, q, p))
  {
    var t := Put(s.(spool := spool), i, q, p);
    forall j, r | 0 <= j && 0 <= r && Present(x, t, j, r) ensures RequestOk(x, b, t, j, r) {
      if j != i || r != q { assert Present(x, s, j, r) && t.at[j][r] == s.at[j][r]; assert RequestOk(x, b, s, j, r); }
    }
  }

  lemma InvStep(x: Input, b: Bundle, images: set<nat>, s: State, a: Action)
    requires Sound(x, b) && AcceptedOnly(x, b, images) && Inv(x, b, images, s) && Enabled(x, b, s, a)
    ensures Inv(x, b, images, Next(x, b, s, a))
  {
    match a
    case Fetch(i, q, l) =>
      FetchStep(x, b, images, s, i, q, l);
      var e := Need(x, b, i, q).value;
      PutKeeps(x, b, images, s, s.spool[e := x.store[e]], i, q, HasSource);
    case Finish(i, q) =>
      FinishStep(x, b, images, s, i, q);
      PutKeeps(x, b, images, s, s.spool, i, q, Over(Served(x.store[Wanted(x.pairs[i])[q]])));
  }

  lemma {:induction false} InvRuns(x: Input, b: Bundle, images: set<nat>, s: State, run: seq<Action>, t: State)
    requires Sound(x, b) && AcceptedOnly(x, b, images) && Inv(x, b, images, s) && Runs(x, b, s, run, t)
    ensures Inv(x, b, images, t)
    decreases |run|
  {
    if |run| > 0 {
      InvStep(x, b, images, s, run[0]);
      InvRuns(x, b, images, Next(x, b, s, run[0]), run[1..], t);
    }
  }

  /** Why only accepted images may take part: a caller shares its flight leader's fate, so it gets what it
      needs exactly when that is spooled or in the leader's baseline, whatever its own baseline holds. */
  lemma LeaderDecides(x: Input, b: Bundle, s: State, i: nat, q: nat, l: nat)
    requires Sound(x, b) && Agrees(x, s.spool) && Enabled(x, b, s, Fetch(i, q, l))
    ensures var e := Need(x, b, i, q).value; var p := Next(x, b, s, Fetch(i, q, l)).at[i][q];
      && (p.HasSource? <==> e in s.spool || e in Holdings(x.pairs[l]))
      && (!p.HasSource? ==> p.Over? && p.r.Refused?)
  {
    var e := Need(x, b, i, q).value;
    if e in Holdings(x.pairs[l]) {
      assert e in x.store;
      LeaderFetches(x, b, i, l, s.spool, e);
    }
  }

  // ---- Every run ----

  /** A request that is over. */
  function Answer(p: Progress): Option<Bytes> {
    if p.Over? && p.r.Served? then Some(p.r.data) else None
  }

  predicate AllOver(s: State) {
    forall i :: 0 <= i < |s.at| ==> RowOver(s.at[i])
  }

  predicate RowOver(row: seq<Progress>) { forall q :: 0 <= q < |row| ==> row[q].Over? }

  /** No request of an accepted image is ever refused, whoever fetched for it and whatever ran beside it. */
  lemma NothingRefused(x: Input, b: Bundle, images: set<nat>, spool: Spool, run: seq<Action>, s: State, i: nat, q: nat)
    requires Sound(x, b) && AcceptedOnly(x, b, images) && Agrees(x, spool) && Runs(x, b, Init(x, images, spool), run, s)
    requires Present(x, s, i, q) && s.at[i][q].Over?
    ensures Wanted(x.pairs[i])[q] in x.store && s.at[i][q].r == Served(x.store[Wanted(x.pairs[i])[q]])
  {
    InitInv(x, b, images, spool);
    InvRuns(x, b, images, Init(x, images, spool), run, s);
    assert RequestOk(x, b, s, i, q);
  }

  lemma {:induction false} StoredAt(x: Input, ds: seq<Digest>, q: nat)
    requires (forall d :: d in ds ==> d in x.store) && q < |ds|
    ensures |Stored(x, ds)| == |ds| && ds[q] in ds && Stored(x, ds)[q] == x.store[ds[q]]
    decreases |ds|
  {
    var front := ds[..|ds| - 1];
    assert forall d :: d in front ==> d in ds;
    if q < |front| { StoredAt(x, front, q); }
    StoredSize(x, ds);
    StoredSize(x, front);
  }

  lemma {:induction false} StoredSize(x: Input, ds: seq<Digest>)
    requires forall d :: d in ds ==> d in x.store
    ensures |Stored(x, ds)| == |ds|
    decreases |ds|
  {
    if |ds| > 0 { StoredSize(x, ds[..|ds| - 1]); }
  }

  predicate AllServed(row: seq<Progress>) { forall q :: 0 <= q < |row| ==> Answer(row[q]).Some? }

  /** The image's blobs, in the order its manifest lists them. */
  function Blobs(row: seq<Progress>): seq<Bytes>
    requires AllServed(row)
  {
    seq(|row|, q requires 0 <= q < |row| => Answer(row[q]).value)
  }

  /** The requests of image i were all served, with exactly its target's blobs in order. */
  predicate IsBack(x: Input, i: nat, row: seq<Progress>) {
    && i < |x.pairs| && (forall d :: d in Wanted(x.pairs[i]) ==> d in x.store)
    && AllServed(row) && Blobs(row) == Stored(x, Wanted(x.pairs[i]))
  }

  lemma RowIsStored(x: Input, row: seq<Progress>, ds: seq<Digest>)
    requires |row| == |ds| && forall q :: 0 <= q < |ds| ==> ds[q] in x.store && Answer(row[q]) == Some(x.store[ds[q]])
    ensures (forall d :: d in ds ==> d in x.store) && AllServed(row) && Blobs(row) == Stored(x, ds)
  {
    forall d | d in ds ensures d in x.store { var q :| 0 <= q < |ds| && ds[q] == d; }
    StoredSize(x, ds);
    forall q | 0 <= q < |ds| ensures Blobs(row)[q] == Stored(x, ds)[q] { StoredAt(x, ds, q); }
  }

  /**
   * Import of an exported bundle: the accepted images, all at once on one spool that may hold anything
   * agreeing, under any interleaving of their blob requests and any choice of flight leaders.  When
   * every request is over each image has exactly its target's blobs, and the spool still agrees.
   */
  lemma EveryImageComesBack(x: Input, b: Bundle, images: set<nat>, spool: Spool, run: seq<Action>, s: State, i: nat)
    requires Sound(x, b) && AcceptedOnly(x, b, images) && Agrees(x, spool)
    requires Runs(x, b, Init(x, images, spool), run, s) && AllOver(s) && i in images
    ensures i < |s.at| && IsBack(x, i, s.at[i]) && Agrees(x, s.spool)
  {
    InitInv(x, b, images, spool);
    InvRuns(x, b, images, Init(x, images, spool), run, s);
    var ds := Wanted(x.pairs[i]);
    assert RowOver(s.at[i]);
    forall q | 0 <= q < |ds| ensures ds[q] in x.store && Answer(s.at[i][q]) == Some(x.store[ds[q]]) {
      assert RequestOk(x, b, s, i, q);
    }
    RowIsStored(x, s.at[i], ds);
  }

  /** The accepted images of a scan. */
  function Accepted(reports: seq<P.Report>): set<nat> { set i: nat | i < |reports| && reports[i].verdict == P.Ok }

  /** One report per image, each the scan of that image's own baseline. */
  predicate Scans(x: Input, blobs: map<Digest, BlobEntry>, reports: seq<P.Report>) {
    && |reports| == |x.pairs|
    && forall j :: 0 <= j < |reports| ==>
         P.Scanned(reports[j], blobs, Mapped(x.pairs[j].target, (t: BlobRef) => t.digest), BaselineOf(x.pairs[j]))
  }

  lemma AcceptedHold(x: Input, c: E.Ctx, workers: int, budget: int, s: E.State, reports: seq<P.Report>)
    requires Consistent(x) && Setup(x, c) && E.Reached(c, workers, budget, s) && E.Complete(c, s) && Scans(x, s.entries, reports)
    ensures Sound(x, BundleOf(s)) && AcceptedOnly(x, BundleOf(s), Accepted(reports))
  {
    FinishedBundle(x, c, workers, budget, s);
    forall j | j in Accepted(reports) ensures SourcesHeld(BundleOf(s), x.pairs[j]) {
      ConfigIsFull(x, c, BundleOf(s), j);
      PreflightDecides(x, BundleOf(s), j, map[], reports[j]);
    }
  }

  /**
   * The whole way.  Export any consistent input under any schedule, scan every baseline, and import the
   * images the scan accepts, all at once: when every request is over, each accepted image has
   * exactly the blobs its target has.
   */
  lemma ImportUndoesExport(x: Input, c: E.Ctx, workers: int, budget: int, s: E.State, reports: seq<P.Report>,
      spool: Spool, run: seq<Action>, t: State, i: nat)
    requires Consistent(x) && Setup(x, c) && E.Reached(c, workers, budget, s) && E.Complete(c, s) && Scans(x, s.entries, reports)
    requires Agrees(x, spool) && Runs(x, BundleOf(s), Init(x, Accepted(reports), spool), run, t) && AllOver(t)
    requires i < |reports| && reports[i].verdict == P.Ok
    ensures i < |t.at| && IsBack(x, i, t.at[i])
  {
    AcceptedHold(x, c, workers, budget, s, reports);
    EveryImageComesBack(x, BundleOf(s), Accepted(reports), spool, run, t, i);
  }

  /** The import never gets stuck: every request can lead its own flight. */
  lemma Progresses(x: Input, b: Bundle, images: set<nat>, s: State) returns (a: Action)
    requires Inv(x, b, images, s) && !AllOver(s)
    ensures Enabled(x, b, s, a)
  {
    var i :| 0 <= i < |s.at| && !RowOver(s.at[i]);
    var q :| 0 <= q < |s.at[i]| && !s.at[i][q].Over?;
    assert Present(x, s, i, q);
    if s.at[i][q].Asked? && Need(x, b, i, q).Some? {
      assert CanLead(x, b, s, i, Need(x, b, i, q).value);
      a := Fetch(i, q, i);
    } else {
      a := Finish(i, q);
    }
  }

  function Weight(): Progress -> int { (p: Progress) => if p.Asked? then 2 else if p.HasSource? then 1 else 0 }

  function RowWeight(): seq<Progress> -> int { (row: seq<Progress>) => Total(row, Weight()) }

  function Rank(s: State): int { Total(s.at, RowWeight()) }

  lemma RankDecreases(x: Input, b: Bundle, s: State, a: Action)
    requires Enabled(x, b, s, a)
    ensures Rank(Next(x, b, s, a)) < Rank(s)
  {
    var i, q := a.i, a.q;
    var t := Next(x, b, s, a);
    TotalUpdate(s.at[i], q, t.at[i][q], Weight());
    TotalUpdate(s.at, i, t.at[i], RowWeight());
  }

  lemma RankIsNat(s: State)
    ensures Rank(s) >= 0
  {
    forall i | 0 <= i < |s.at| ensures RowWeight()(s.at[i]) >= 0 { TotalNonNegative(s.at[i], Weight()); }
    TotalNonNegative(s.at, RowWeight());
  }

  /** And it ends: no run is longer than two steps per request. */
  lemma {:induction false} RunsAreBounded(x: Input, b: Bundle, s: State, run: seq<Action>, t: State)
    requires Runs(x, b, s, run, t)
    ensures |run| + Rank(t) <= Rank(s)
    decreases |run|
  {
    if |run| > 0 {
      RankDecreases(x, b, s, run[0]);
      RunsAreBounded(x, b, Next(x, b, s, run[0]), run[1..], t);
    }
  }

  // ---- The report's outcomes ----

  /** The row of an image whose requests are over. */
  function Outcome(name: string, row: seq<Progress>): R.Row {
    if AllServed(row) then R.Row(name, R.Applied, "") else R.Row(name, R.ComposeFailed, "")
  }

  /** The batch the report is about: every accepted image is applied. */
  function BatchOf(x: Input, list: seq<string>, estimate: string -> Option<int>): R.Batch {
    R.Batch(list, estimate, (n: string) => R.Row(n, R.Applied, ""))
  }

  /** So an image's outcome does not depend on the schedule: every finished run gives the row the batch fixes. */
  lemma OutcomesAreFixed(x: Input, b: Bundle, images: set<nat>, spool: Spool, run: seq<Action>, s: State, i: nat,
      list: seq<string>, estimate: string -> Option<int>)
    requires Sound(x, b) && AcceptedOnly(x, b, images) && Agrees(x, spool)
    requires Runs(x, b, Init(x, images, spool), run, s) && AllOver(s) && i in images && NoRepeats(list)
    ensures i < |s.at| && i < |x.pairs| && R.BatchOk(BatchOf(x, list, estimate))
    ensures BatchOf(x, list, estimate).outcome(x.pairs[i].name) == Outcome(x.pairs[i].name, s.at[i])
  {
    EveryImageComesBack(x, b, images, spool, run, s, i);
  }
}
