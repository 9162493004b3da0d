/** Memory estimates, the fail-fast guards of export and import, and the whole-run memory bound. */
module Budget {
  import opened Common
  import opened Diff
  import opened Admission

  const MIB: int := 0x10_0000
  const GIB: int := 0x4000_0000

  function RssForWindowLog(wl: int): int {
    if wl == 27 then 256 * MIB
    else if wl == 28 then 512 * MIB
    else if wl == 29 then GIB
    else if wl == 30 then 2 * GIB
    else 4 * GIB
  }

  function ResolveWindowLog(user: int, layerSize: int): int {
    if user != 0 then user
    else if layerSize <= 128 * MIB then 27
    else if layerSize <= GIB then 30
    else 31
  }

  function LayerEstimate(user: int, layerSize: int): int {
    RssForWindowLog(ResolveWindowLog(user, layerSize))
  }

  lemma WindowPowers()
    ensures Pow2(27) == 0x800_0000 && Pow2(28) == 0x1000_0000 && Pow2(29) == 0x2000_0000 && Pow2(30) == 0x4000_0000 && Pow2(31) == 0x8000_0000
  {
    assert Pow2(8) == 0x100;
    assert Pow2(16) == 0x1_0000;
    assert Pow2(24) == 0x100_0000;
  }

  /** In automatic mode the window is the smallest of the three on offer that covers the layer, up to 2 GiB, and the
      largest one beyond; a window the user names is taken as it is. */
  lemma WindowCovers(user: int, layerSize: int)
    ensures user != 0 ==> ResolveWindowLog(user, layerSize) == user
    ensures ResolveWindowLog(0, layerSize) in {27, 30, 31}
    ensures layerSize <= Pow2(31) ==> layerSize <= Pow2(ResolveWindowLog(0, layerSize))
    ensures forall w: nat :: w in {27, 30, 31} && layerSize <= Pow2(w) ==> ResolveWindowLog(0, layerSize) <= w
    ensures layerSize > Pow2(31) ==> ResolveWindowLog(0, layerSize) == 31
  {
    WindowPowers();
  }

  /** The estimate is twice the window for every window log of the table, and 4 GiB for any other. */
  lemma EstimateIsTwoWindows(wl: nat)
    ensures 27 <= wl <= 31 ==> RssForWindowLog(wl) == 2 * Pow2(wl)
    ensures !(27 <= wl <= 31) ==> RssForWindowLog(wl) == 4 * Pow2(30)
  {
    WindowPowers();
  }

  /** Window logs outside the table get the largest entry, so the estimate drops exactly when
      stepping from below the table into its lower four rows. */
  lemma EstimateMonotoneIff(a: int, b: int)
    requires a <= b
    ensures RssForWindowLog(a) <= RssForWindowLog(b) <==> !(a < 27 && 27 <= b <= 30)
  {
  }

  /** In automatic mode a larger layer never gets a smaller estimate. */
  lemma EstimateMonotoneAuto(small: int, large: int)
    requires small <= large
    ensures LayerEstimate(0, small) <= LayerEstimate(0, large)
  {
  }

  /** The first layer with the largest estimate, if that exceeds the budget. */
  method CheckSingleLayerFits(plans: seq<seq<BlobRef>>, windowLog: int, memBudget: int) returns (offender: Option<Digest>)
    requires memBudget > 0
    ensures offender.None? <==>
      forall p, q :: 0 <= p < |plans| && 0 <= q < |plans[p]| ==> LayerEstimate(windowLog, plans[p][q].size) <= memBudget
    ensures offender.Some? ==>
      exists p, q :: 0 <= p < |plans| && 0 <= q < |plans[p]| && plans[p][q].digest == offender.value
        && LayerEstimate(windowLog, plans[p][q].size) > memBudget
        && forall i, j :: 0 <= i < |plans| && 0 <= j < |plans[i]| ==>
             LayerEstimate(windowLog, plans[i][j].size) <= LayerEstimate(windowLog, plans[p][q].size)
  {
    var maxEst, offending := 0, "";
    ghost var bp, bq := 0, 0;
    for p := 0 to |plans|
      invariant 0 <= maxEst
      invariant forall i, j :: 0 <= i < p && 0 <= j < |plans[i]| ==> LayerEstimate(windowLog, plans[i][j].size) <= maxEst
      invariant maxEst > 0 ==> 0 <= bp < |plans| && 0 <= bq < |plans[bp]| && plans[bp][bq].digest == offending
                               && LayerEstimate(windowLog, plans[bp][bq].size) == maxEst
    {
      for q := 0 to |plans[p]|
        invariant 0 <= maxEst
        invariant forall i, j :: 0 <= i < p && 0 <= j < |plans[i]| ==> LayerEstimate(windowLog, plans[i][j].size) <= maxEst
        invariant forall j :: 0 <= j < q ==> LayerEstimate(windowLog, plans[p][j].size) <= maxEst
        invariant maxEst > 0 ==> 0 <= bp < |plans| && 0 <= bq < |plans[bp]| && plans[bp][bq].digest == offending
                                 && LayerEstimate(windowLog, plans[bp][bq].size) == maxEst
      {
        var e := LayerEstimate(windowLog, plans[p][q].size);
        if e > maxEst {
          maxEst, offending := e, plans[p][q].digest;
          bp, bq := p, q;
        }
      }
    }
    if maxEst > memBudget { return Some(offending); }
    return None;
  }

  // ---- Import side ----

  /** The largest estimate among an image's shipped layers, 0 when it ships none. */
  function ImageEstimate(layers: seq<Digest>, blobs: map<Digest, BlobEntry>, user: int): int {
    if |layers| == 0 then 0
    else
      var rest := ImageEstimate(layers[..|layers| - 1], blobs, user);
      var d := layers[|layers| - 1];
      if d in blobs && LayerEstimate(user, blobs[d].size) > rest then LayerEstimate(user, blobs[d].size) else rest
  }

  method EstimatePerImage(layers: seq<Digest>, blobs: map<Digest, BlobEntry>, user: int) returns (maxEst: int)
    ensures maxEst == ImageEstimate(layers, blobs, user)
  {
    maxEst := 0;
    for i := 0 to |layers|
      invariant maxEst == ImageEstimate(layers[..i], blobs, user)
    {
      assert layers[..i + 1][..i] == layers[..i];
      if layers[i] in blobs {
        var est := LayerEstimate(user, blobs[layers[i]].size);
        if est > maxEst { maxEst := est; }
      }
    }
    assert layers[..|layers|] == layers;
  }

  /** The estimate covers every shipped layer, one at a time, and is attained unless nothing is shipped. */
  lemma {:induction false} ImageEstimateIsMax(layers: seq<Digest>, blobs: map<Digest, BlobEntry>, user: int)
    ensures forall d :: d in layers && d in blobs ==> LayerEstimate(user, blobs[d].size) <= ImageEstimate(layers, blobs, user)
    ensures ImageEstimate(layers, blobs, user) == 0
         || exists d :: d in layers && d in blobs && LayerEstimate(user, blobs[d].size) == ImageEstimate(layers, blobs, user)
    decreases |layers|
  {
    if |layers| > 0 {
      ImageEstimateIsMax(layers[..|layers| - 1], blobs, user);
      assert layers == layers[..|layers| - 1] + [layers[|layers| - 1]];
      assert layers[|layers| - 1] in layers;
    }
  }

  /** The first image that cannot fit; a non-positive budget disables the guard. */
  method CheckSingleImageFits(images: seq<seq<Digest>>, blobs: map<Digest, BlobEntry>, user: int, memBudget: int)
    returns (offender: Option<nat>)
    ensures memBudget <= 0 ==> offender.None?
    ensures memBudget > 0 ==>
      (offender.None? <==> forall i :: 0 <= i < |images| ==> ImageEstimate(images[i], blobs, user) <= memBudget)
    ensures offender.Some? ==>
      && offender.value < |images| && ImageEstimate(images[offender.value], blobs, user) > memBudget
      && forall j :: 0 <= j < offender.value ==> ImageEstimate(images[j], blobs, user) <= memBudget
  {
    if memBudget <= 0 { return None; }
    for i := 0 to |images|
      invariant forall j :: 0 <= j < i ==> ImageEstimate(images[j], blobs, user) <= memBudget
    {
      var est := EstimatePerImage(images[i], blobs, user);
      if est > memBudget { return Some(i); }
    }
    return None;
  }

  // ---- Memory over a whole run of the scheduler ----

  predicate SubmitsWithin(run: seq<Action>, budget: int) {
    forall k :: 0 <= k < |run| && run[k].Submit? ==> run[k].estimate <= budget
  }

  lemma {:induction false} RawsStayWithin(s: Admission.Pool, run: seq<Action>, t: Admission.Pool, budget: int)
    requires Runs(s, run, t) && SubmitsWithin(run, budget)
    requires forall i :: 0 <= i < |s.tasks| ==> s.tasks[i].raw <= budget
    ensures forall i :: 0 <= i < |t.tasks| ==> t.tasks[i].raw <= budget
    decreases |run|
  {
    if |run| > 0 {
      if TaskStep(run[0]) { MoveShape(s, run[0]); }
      assert forall k :: 0 <= k < |run[1..]| ==> run[1..][k] == run[k + 1];
      RawsStayWithin(Next(s, run[0]), run[1..], t, budget);
    }
  }

  /**
   * When every submitted estimate passed the guard, the clamp never lowers one, so at every point
   * of every run the running tasks' true estimates together stay within the budget.
   */
  lemma RunWithinBudget(workers: int, budget: int, run: seq<Action>, s: Admission.Pool)
    requires budget > 0
    requires Runs(Init(workers, budget), run, s) && SubmitsWithin(run, budget)
    ensures forall i :: 0 <= i < |s.tasks| ==> s.tasks[i].raw <= s.tasks[i].est
    ensures Total(s.tasks, RunningRaw()) <= budget
  {
    InitInv(workers, budget);
    InvRuns(Init(workers, budget), run, s);
    RawsStayWithin(Init(workers, budget), run, s, budget);
    forall i | 0 <= i < |s.tasks| ensures s.tasks[i].raw <= s.tasks[i].est { assert TaskOk(s, i); }
    TotalMonotone(s.tasks, RunningRaw(), RunningEst());
    SafetyEveryRun(workers, budget, run, s);
  }

  function LiveWeight(live: Task -> int): Task -> int {
    (t: Task) => if t.phase.Running? then live(t) else 0
  }

  /**
   * Import: each running image decodes one shipped layer at a time and reserved its own maximum,
   * so the live decoders' estimates together stay within the budget.
   */
  lemma ImportWithinBudget(images: map<Key, seq<Digest>>, blobs: map<Digest, BlobEntry>, user: int,
      workers: int, budget: int, run: seq<Action>, s: Admission.Pool, decoding: map<Key, Digest>)
    requires budget > 0
    requires forall n :: n in images ==> ImageEstimate(images[n], blobs, user) <= budget
    requires forall k :: 0 <= k < |run| && run[k].Submit? ==>
      run[k].key in images && run[k].estimate == ImageEstimate(images[run[k].key], blobs, user)
    requires Runs(Init(workers, budget), run, s)
    requires forall n :: n in decoding ==> n in images && decoding[n] in images[n] && decoding[n] in blobs
    ensures Total(s.tasks, LiveWeight((t: Task) =>
              if t.key in decoding && decoding[t.key] in blobs then LayerEstimate(user, blobs[decoding[t.key]].size) else 0)) <= budget
  {
    var live := (t: Task) =>
      if t.key in decoding && decoding[t.key] in blobs then LayerEstimate(user, blobs[decoding[t.key]].size) else 0;
    RunWithinBudget(workers, budget, run, s);
    RawsAreEstimates(images, blobs, user, Init(workers, budget), run, s);
    forall i | 0 <= i < |s.tasks| ensures LiveWeight(live)(s.tasks[i]) <= RunningEst()(s.tasks[i]) {
      var t := s.tasks[i];
      InitInv(workers, budget);
      InvRuns(Init(workers, budget), run, s);
      assert TaskOk(s, i);
      if t.key in decoding { ImageEstimateIsMax(images[t.key], blobs, user); }
    }
    TotalMonotone(s.tasks, LiveWeight(live), RunningEst());
    SafetyEveryRun(workers, budget, run, s);
  }

  lemma {:induction false} RawsAreEstimates(images: map<Key, seq<Digest>>, blobs: map<Digest, BlobEntry>, user: int,
      s: Admission.Pool, run: seq<Action>, t: Admission.Pool)
    requires Runs(s, run, t)
    requires forall k :: 0 <= k < |run| && run[k].Submit? ==>
      run[k].key in images && run[k].estimate == ImageEstimate(images[run[k].key], blobs, user)
    requires forall i :: 0 <= i < |s.tasks| ==>
      s.tasks[i].key in images && s.tasks[i].raw == ImageEstimate(images[s.tasks[i].key], blobs, user)
    ensures forall i :: 0 <= i < |t.tasks| ==>
      t.tasks[i].key in images && t.tasks[i].raw == ImageEstimate(images[t.tasks[i].key], blobs, user)
    decreases |run|
  {
    if |run| > 0 {
      if TaskStep(run[0]) { MoveShape(s, run[0]); }
      assert forall k :: 0 <= k < |run[1..]| ==> run[1..][k] == run[k + 1];
      RawsAreEstimates(images, blobs, user, Next(s, run[0]), run[1..], t);
    }
  }
}
