/**
 * Two baselines a planner handles badly, both with real candidates: one lists a layer twice, so that
 * its own cleanup removes the patch it kept; the other has a candidate that was never fetched.
 */
module LostPatch {
  import opened Common
  import opened Diff
  import opened Sorting
  import opened Workdir
  import opened Fingerprint
  import opened Planner
  import opened Encode
  import opened Divergence
  import opened Fallback
  import opened CrossImage
  import Budget

  // ---- A baseline that lists its layer twice ----

  function TwiceEnv(k: Case): Env {
    EnvOn(k, k.b).(baseline := [Meta(k.b, k.size, "layer"), Meta(k.b, k.size, "layer")])
  }

  lemma ChoosesTwice(k: Case, files: Files, n: nat)
    requires Target(k.t) in files && n >= 2
    ensures Chosen(TwiceEnv(k), files, Layer(k), Target(k.t), n) == TwiceEnv(k).baseline
  {
    var e := TwiceEnv(k);
    var fp := e.printer("layer", files[Target(k.t)]);
    TopKIsPrefix(e.baseline, e.prints, fp, k.size, 0, n);
    TopKIsPrefix(e.baseline, e.prints, fp, k.size, n, n);
    TopKMembers(e.baseline, e.prints, fp, k.size, n, 0);
    TopKMembers(e.baseline, e.prints, fp, k.size, n, 1);
  }

  /** Both candidates give the same patch; the first wins, and cleaning up the second removes its file. */
  lemma SearchRemoves(p: Search, patch: Bytes)
    requires Shaped(p) && |p.names| == 2 && p.names[0] == p.names[1]
    requires p.attempts[0] == Made(patch) && p.attempts[1] == Made(patch) && |patch| < p.full && |patch| < p.raw
    ensures ScanTo(p, 2) == Scan(false, 0, |patch|, p.files[p.names[0] := patch] - {p.names[0]})
  {
    assert ScanTo(p, 0) == Scan(false, -1, p.raw, p.files);
    assert ScanTo(p, 1) == Scan(false, 0, |patch|, p.files[p.names[0] := patch]);
    assert p.files[p.names[0] := patch][p.names[1] := patch] == p.files[p.names[0] := patch];
  }

  /** The plan is a patch whose payload is not there. */
  lemma PlansLostPatch(k: Case, files: Files, n: nat)
    requires n >= 2 && k.b in k.store && k.t in k.store && Cheap(k)
    requires SpoolFile(k) in files && files[SpoolFile(k)] == k.store[k.b]
    requires Target(k.t) in files && files[Target(k.t)] == k.store[k.t]
    ensures var (out, after) := PlanSpec(TwiceEnv(k), files, Layer(k), Target(k.t), n);
      out == Planned(PatchEntry(Layer(k), k.b, |k.patch|), SpillName(k.t, k.b)) && out.payload !in after
  {
    ChoosesTwice(k, files, n);
    var e := TwiceEnv(k);
    var p := SearchOf(e, files, Layer(k), files[Target(k.t)], k.full, e.baseline);
    assert p.attempts[0] == Try(e, files, k.store[k.t], Budget.ResolveWindowLog(0, k.size), k.b);
    SearchRemoves(p, k.patch);
  }

  /** The export of that one layer with n candidates. */
  function TwiceExport(k: Case, n: int): Ctx
    requires k.b in k.store
  {
    Ctx([Job(0, Layer(k))], [TwiceEnv(k)], k.store, false, n, 0, map[], map[SpoolFile(k) := k.store[k.b]])
  }

  lemma TwiceCtxOk(k: Case, n: int)
    requires Fits(k)
    ensures k.b in k.store && k.t in k.store && CtxOk(TwiceExport(k, n)) && Known(TwiceExport(k, n), 0)
  {
    Differ(k);
    EnvPaths(k, k.b);
    var c := TwiceExport(k, n);
    forall p | 0 <= p < |c.envs| ensures PathsAreBaselines(c.envs[p]) {
    }
    OneJobCtx(c, Job(0, Layer(k)));
  }

  lemma NotForced(k: Case, n: int)
    requires k.b in k.store
    ensures !Forced(TwiceExport(k, n), k.t)
  {
    ShippedOnce(k);
  }

  lemma TwiceNotKept(k: Case, n: nat)
    requires Fits(k) && n >= 2
    ensures k.b in k.store && Known(TwiceExport(k, n), 0) && !Kept(TwiceExport(k, n), 0)
  {
    TwiceCtxOk(k, n);
    var c := TwiceExport(k, n);
    NotForced(k, n);
    PlansLostPatch(k, c.base[Target(k.t) := k.store[k.t]], n);
  }

  /** With two or more candidates no schedule, worker count or budget ever finishes this export without error, unless
      planning that layer fails for some other reason and it goes in full. */
  lemma RepeatNeverFinishes(k: Case, n: nat, workers: int, budget: int)
    requires Fits(k) && n >= 2
    ensures k.b in k.store && CtxOk(TwiceExport(k, n))
    ensures forall s :: Reached(TwiceExport(k, n), workers, budget, s) && Complete(TwiceExport(k, n), s) ==> k.t in s.slipped
  {
    TwiceCtxOk(k, n);
    TwiceNotKept(k, n);
    forall s | Reached(TwiceExport(k, n), workers, budget, s) && Complete(TwiceExport(k, n), s) ensures k.t in s.slipped {
      CompleteMeansKept(TwiceExport(k, n), workers, budget, s, 0);
    }
  }

  /** One such export, on concrete blobs. */
  lemma ConcreteExportFails(workers: int, budget: int)
    ensures Example().b in Example().store && CtxOk(TwiceExport(Example(), 2))
    ensures !exists s :: Reached(TwiceExport(Example(), 2), workers, budget, s) && Complete(TwiceExport(Example(), 2), s) && Steady(s)
  {
    ExampleFits();
    RepeatNeverFinishes(Example(), 2, workers, budget);
  }

  // ---- A planning error that shows ----

  /** The two-image export ends in two ways when planning its one shipped layer may fail for an outside reason. */
  lemma SlipShows(k: Case)
    requires Fits(k)
    ensures k.b in k.store && k.manifest in k.store && k.config in k.store
    ensures exists s, t :: Ended(Export(k), s) && Ended(Export(k), t) && !SameResult(s, t)
  {
    ExportCtxOk(k);
    ExportShape(k);
    OneJobPatch(k, Export(k));
    PatchShows(Export(k), 0);
  }

  // ---- A candidate that was never fetched ----

  /** The second baseline layer is one byte larger, so it ranks second. */
  function PartlyFetched(k: Case): Env {
    EnvOn(k, k.b).(baseline := [Meta(k.b, k.size, "layer"), Meta(k.config, k.size + 1, "layer")])
  }

  lemma RanksSecond(k: Case, fp: Option<Print>)
    ensures TopK(PartlyFetched(k).baseline, map[], fp, k.size, 1) == [Meta(k.b, k.size, "layer")]
    ensures TopK(PartlyFetched(k).baseline, map[], fp, k.size, 2) == PartlyFetched(k).baseline
  {
    var before := Ranking(k.size);
    var cands := Candidates(PartlyFetched(k).baseline, map[], fp);
    var x, y := cands[0], cands[1];
    assert !before(y, x);
    assert cands[..1] == [x] && [x][..0] == [];
    assert Sort([x], before) == [x];
    assert Sort(cands, before) == [x, y];
  }

  lemma OneGivesPatch(k: Case, files: Files)
    requires k.b in k.store && k.t in k.store && Cheap(k)
    requires SpoolFile(k) in files && files[SpoolFile(k)] == k.store[k.b]
    requires Target(k.t) in files && files[Target(k.t)] == k.store[k.t]
    ensures PlanSpec(PartlyFetched(k), files, Layer(k), Target(k.t), 1).0
      == Planned(PatchEntry(Layer(k), k.b, |k.patch|), SpillName(k.t, k.b))
  {
    var e := PartlyFetched(k);
    RanksSecond(k, None);
    var p := SearchOf(e, files, Layer(k), files[Target(k.t)], k.full, [Meta(k.b, k.size, "layer")]);
    assert p.attempts[0] == Try(e, files, k.store[k.t], Budget.ResolveWindowLog(0, k.size), k.b);
    SearchKeeps(p, k.patch);
  }

  lemma TwoFail(k: Case, files: Files)
    requires k.b != k.config && k.t in k.store
    requires Target(k.t) in files && files[Target(k.t)] == k.store[k.t]
    ensures PlanSpec(PartlyFetched(k), files, Layer(k), Target(k.t), 2).0 == PlanFailed
  {
    var e := PartlyFetched(k);
    RanksSecond(k, None);
    var full := FullSize(e, Layer(k), files[Target(k.t)]);
    if full.Some? {
      var q := SearchOf(e, files, Layer(k), files[Target(k.t)], full.value, e.baseline);
      assert q.attempts[1] == Try(e, files, files[Target(k.t)], Budget.ResolveWindowLog(0, k.size), k.config);
      ScanFailsIff(q, 2);
    }
  }

  /** One candidate gives a patch; a second one cannot be tried, and the layer is shipped in full. */
  lemma SecondCandidateHurts(k: Case, files: Files)
    requires Fits(k) && k.b in k.store && k.t in k.store
    requires SpoolFile(k) in files && files[SpoolFile(k)] == k.store[k.b]
    requires Target(k.t) in files && files[Target(k.t)] == k.store[k.t]
    ensures var few := PlanSpec(PartlyFetched(k), files, Layer(k), Target(k.t), 1).0;
      var many := PlanSpec(PartlyFetched(k), files, Layer(k), Target(k.t), 2).0;
      few.Planned? && many == PlanFailed && FinalSize(many, Layer(k)) > FinalSize(few, Layer(k))
  {
    Differ(k);
    OneGivesPatch(k, files);
    TwoFail(k, files);
  }

  function SpooledDisk(k: Case): Files
    requires k.b in k.store && k.t in k.store
  {
    map[SpoolFile(k) := k.store[k.b], Target(k.t) := k.store[k.t]]
  }

  /** Such an input, on concrete blobs. */
  lemma ConcreteSecondHurts()
    ensures var k := Example(); k.b in k.store && k.t in k.store && LawfulCodec(k.codec)
    ensures var k := Example();
      var few := PlanSpec(PartlyFetched(k), SpooledDisk(k), Layer(k), Target(k.t), 1).0;
      var many := PlanSpec(PartlyFetched(k), SpooledDisk(k), Layer(k), Target(k.t), 2).0;
      FinalSize(many, Layer(k)) > FinalSize(few, Layer(k))
  {
    ExampleFits();
    Differ(Example());
    SecondCandidateHurts(Example(), SpooledDisk(Example()));
  }
}
