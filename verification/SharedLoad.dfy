/** Requests for one unloaded model share one load and its outcome, in any run. */
module SharedLoad {
  import opened Wrappers
  import opened Machine
  import opened LineSteps
  import opened Frames
  import opened Shapes
  import opened Links
  import opened LinkSteps
  import opened TaskSteps
  import opened Base
  import opened SafeSteps
  import opened Runs

  /** A record keeps its variant, and once it is ready, it stays ready with the error it had. */
  predicate Final(a: Record, b: Record) {
    b.variant == a.variant && (a.ready ==> b.ready && b.error == a.error)
  }

  predicate AllFinal(recs: seq<Record>, recs': seq<Record>) {
    |recs| <= |recs'| && forall r | 0 <= r < |recs| :: Final(recs[r], recs'[r])
  }

  /** Moreover no load was asked for. */
  predicate Steady(a: Record, b: Record) {
    Final(a, b) && b.loads == a.loads
  }

  predicate AllSteady(recs: seq<Record>, recs': seq<Record>) {
    |recs| <= |recs'| && forall r | 0 <= r < |recs| :: Steady(recs[r], recs'[r])
  }

  lemma LightSteady(s: State, s': State)
    requires Light(s, s')
    ensures AllSteady(s.recs, s'.recs)
  {
    forall r | 0 <= r < |s.recs|
      ensures Steady(s.recs[r], s'.recs[r])
    {
      assert Touch(s.recs[r], s'.recs[r]);
    }
  }

  lemma CommitSteady(cfg: Config, s: State, t: Tid, conflicts: seq<Rid>)
    requires t in s.reqs && s.reqs[t].name in cfg.catalogue
    ensures AllSteady(s.recs, Commit(cfg, s, t, conflicts).recs)
  {
  }

  lemma ObservedSteady(cfg: Config, s: State, t: Tid, activity: Option<Activity>)
    requires t in s.reqs && s.reqs[t].pc.Observing? && RequestShape(cfg, |s.recs|, s.reqs[t])
    ensures AllSteady(s.recs, DoObserved(cfg, s, t, activity).recs)
  {
    ObservedCases(cfg, s, t, activity);
    if Light(s, DoObserved(cfg, s, t, activity)) {
      LightSteady(s, DoObserved(cfg, s, t, activity));
    } else {
      var s0 := Noticed(s, t, activity.value);
      assert Light(s, s0);
      LightSteady(s, s0);
      CommitSteady(cfg, s0, t, s.reqs[t].pc.conflicts);
    }
  }

  lemma TakePlaceLockSteady(cfg: Config, s: State, t: Tid, conflicts: seq<Rid>)
    requires t in s.reqs && s.reqs[t].name in cfg.catalogue && LoadedShape(s.recs, s.loaded)
    requires InRange(conflicts, |s.recs|)
    ensures AllSteady(s.recs, DoTakePlaceLock(cfg, s, t, conflicts).recs)
  {
    TakePlaceLockCases(cfg, s, t, conflicts);
    if Light(s, DoTakePlaceLock(cfg, s, t, conflicts)) {
      LightSteady(s, DoTakePlaceLock(cfg, s, t, conflicts));
    } else {
      CommitSteady(cfg, s, t, conflicts);
    }
  }

  lemma SurveyedSteady(cfg: Config, s: State, t: Tid, survey: Survey)
    requires Shape(cfg, s) && PcInv(cfg, s) && t in s.reqs && s.reqs[t].pc.Surveying?
    requires FoundIds(survey.found) <= cfg.catalogue.Keys
    ensures AllSteady(s.recs, DoSurveyed(cfg, s, t, survey).recs)
  {
    SurveyedPrefix(cfg, s, t, survey);
    var s' := DoSurveyed(cfg, s, t, survey);
    forall r | 0 <= r < |s.recs|
      ensures Steady(s.recs[r], s'.recs[r])
    {
      assert s'.recs[..|s.recs|][r] == s.recs[r];
    }
  }

  lemma TrackSteady(s: State, r: Rid, decode: Option<int>)
    requires r < |s.recs|
    ensures AllSteady(s.recs, TrackOne(s, r, decode).recs)
  {
  }

  lemma FailedSteady(s: State, k: Kid, error: string)
    requires k < |s.tasks| && TaskShape(|s.recs|, s.tasks[k]) && !s.recs[s.tasks[k].model].ready
    ensures AllSteady(s.recs, DoUnloadFailed(s, k, error).recs)
  {
  }

  lemma LoadSteady(s: State, k: Kid, failure: Option<string>, decode: Option<int>)
    requires k < |s.tasks| && TaskShape(|s.recs|, s.tasks[k]) && !s.recs[s.tasks[k].model].ready
    ensures AllSteady(s.recs, DoLoadReturned(s, k, failure).recs)
    ensures AllSteady(s.recs, DoBaselineRead(s, k, decode).recs)
  {
  }

  lemma ConfirmedSteady(s: State, k: Kid, gone: bool)
    requires k < |s.tasks| && TaskShape(|s.recs|, s.tasks[k]) && !s.recs[s.tasks[k].model].ready
    ensures AllSteady(s.recs, DoConfirmed(s, k, gone).recs)
  {
  }

  /** Only starting a swap and a returned unload ever ask for a load. */
  lemma StepSteady(cfg: Config, s: State, a: Action, s': State)
    requires Valid(cfg) && BaseInv(cfg, s) && Step(cfg, s, a, s') && !a.StartSwap? && !a.Unloaded?
    ensures AllSteady(s.recs, s'.recs)
  {
    if ByRequest(a) && !a.Arrive? { assert RequestShape(cfg, |s.recs|, s.reqs[a.t]); }
    if Plain(a) {
      PlainFacts(cfg, s, a);
      LightSteady(s, s');
    } else if a.Observed? {
      ObservedSteady(cfg, s, a.t, a.activity);
    } else if a.TakePlaceLock? {
      TakePlaceLockSteady(cfg, s, a.t, a.conflicts);
    } else if a.Surveyed? {
      SurveyedSteady(cfg, s, a.t, a.survey);
    } else if a.TrackNext? {
      TrackSteady(s, s.reqs[a.t].pc.todo[0], a.decode);
    } else if a.StartupTrack? {
      TrackSteady(s, s.startup[0], a.decode);
    } else if ByTask(a) {
      TaskSteady(cfg, s, a);
    }
  }

  lemma TaskSteady(cfg: Config, s: State, a: Action)
    requires BaseInv(cfg, s) && Enabled(cfg, s, a) && ByTask(a) && !a.StartSwap? && !a.Unloaded?
    ensures AllSteady(s.recs, Apply(cfg, s, a).recs)
  {
    TaskFacts(cfg, s, a.k);
    if a.UnloadFailed? {
      FailedSteady(s, a.k, a.error);
    } else if a.LoadReturned? {
      LoadSteady(s, a.k, a.failure, None);
    } else if a.BaselineRead? {
      LoadSteady(s, a.k, None, a.decode);
    } else {
      ConfirmedSteady(s, a.k, a.gone);
    }
  }

  lemma StartSwapFinal(s: State, k: Kid)
    requires k < |s.tasks| && TaskShape(|s.recs|, s.tasks[k])
    ensures AllFinal(s.recs, DoStartSwap(s, k).recs)
  {
  }

  lemma UnloadedFinal(s: State, s': State, k: Kid)
    requires k < |s.tasks| && TaskShape(|s.recs|, s.tasks[k]) && s.tasks[k].stage.Unloading?
    requires UnloadEffect(s, s', k) && s.tasks[k].model != s.tasks[k].victims[s.tasks[k].next]
    ensures AllFinal(s.recs, s'.recs)
  {
  }

  lemma StepFinal(cfg: Config, s: State, a: Action, s': State)
    requires Valid(cfg) && BaseInv(cfg, s) && Step(cfg, s, a, s')
    ensures AllFinal(s.recs, s'.recs)
  {
    if a.StartSwap? {
      TaskFacts(cfg, s, a.k);
      StartSwapFinal(s, a.k);
    } else if a.Unloaded? {
      TaskFacts(cfg, s, a.k);
      assert s.tasks[a.k].victims[s.tasks[a.k].next] in s.tasks[a.k].victims;
      UnloadHasEffect(s, a.k);
      UnloadedFinal(s, s', a.k);
    } else {
      StepSteady(cfg, s, a, s');
      assert forall r | 0 <= r < |s.recs| :: Steady(s.recs[r], s'.recs[r]);
    }
  }

  lemma NextFinal(cfg: Config, ss: seq<State>, acts: seq<Action>, i: nat)
    requires Run(cfg, ss, acts) && i < |acts|
    ensures AllFinal(ss[i].recs, ss[i + 1].recs)
  {
    RunHasBase(cfg, ss, acts, i);
    assert Step(cfg, ss[i], acts[i], ss[i + 1]);
    StepFinal(cfg, ss[i], acts[i], ss[i + 1]);
  }

  lemma {:induction false} ChainFinal(ss: seq<State>, i: nat, j: nat, r: Rid)
    requires i <= j < |ss| && r < |ss[i].recs| && ss[i].recs[r].ready
    requires forall k | i <= k < j :: AllFinal(ss[k].recs, ss[k + 1].recs)
    ensures r < |ss[j].recs| && ss[j].recs[r].ready && ss[j].recs[r].error == ss[i].recs[r].error
  {
    if i < j {
      ChainFinal(ss, i, j - 1, r);
      assert AllFinal(ss[j - 1].recs, ss[j - 1 + 1].recs);
      assert Final(ss[j - 1].recs[r], ss[j].recs[r]);
    }
  }

  /** Over any stretch of a run, a ready record keeps its outcome. */
  lemma OutcomeIsFinal(cfg: Config, ss: seq<State>, acts: seq<Action>, i: nat, j: nat, r: Rid)
    requires Run(cfg, ss, acts) && i <= j < |ss| && r < |ss[i].recs| && ss[i].recs[r].ready
    ensures r < |ss[j].recs| && ss[j].recs[r].ready && ss[j].recs[r].error == ss[i].recs[r].error
  {
    forall k | i <= k < j
      ensures AllFinal(ss[k].recs, ss[k + 1].recs)
    {
      NextFinal(cfg, ss, acts, k);
    }
    ChainFinal(ss, i, j, r);
  }

  /** All requests that wait for a record and are not cancelled are admitted, or all fail alike. */
  lemma JoinersShareTheirFate(cfg: Config, ss: seq<State>, acts: seq<Action>, i: nat, j: nat)
    requires Run(cfg, ss, acts) && i <= j < |acts| && acts[i].JoinWake? && acts[j].JoinWake?
    requires acts[i].t in ss[i].reqs && acts[j].t in ss[j].reqs
    requires ss[i].reqs[acts[i].t].pc == ss[j].reqs[acts[j].t].pc
    ensures acts[i].t in ss[i + 1].reqs && acts[j].t in ss[j + 1].reqs
    ensures ss[i + 1].reqs[acts[i].t].pc == ss[j + 1].reqs[acts[j].t].pc
    ensures var pc := ss[i + 1].reqs[acts[i].t].pc;
            pc.Admitted? || (pc.Ended? && pc.outcome.Refused? && pc.outcome.why.LoadFailed?)
  {
    assert Step(cfg, ss[i], acts[i], ss[i + 1]) && Step(cfg, ss[j], acts[j], ss[j + 1]);
    var r := ss[i].reqs[acts[i].t].pc.rid;
    assert RequestShape(cfg, |ss[i].recs|, ss[i].reqs[acts[i].t]);
    assert RequestShape(cfg, |ss[j].recs|, ss[j].reqs[acts[j].t]);
    OutcomeIsFinal(cfg, ss, acts, i, j, r);
    WakeOutcome(ss[i], acts[i].t);
    WakeOutcome(ss[j], acts[j].t);
  }

  lemma WakeOutcome(s: State, t: Tid)
    requires t in s.reqs && s.reqs[t].pc.Joining? && s.reqs[t].pc.rid < |s.recs|
    ensures var r := s.reqs[t].pc.rid;
            t in DoJoinWake(s, t).reqs
            && DoJoinWake(s, t).reqs[t].pc ==
               if s.recs[r].error.None? then Admitted(r) else Ended(Refused(LoadFailed(s.recs[r].error.value)))
  {
  }

  // ----- One load

  /**
   A step that asks a server to load a record does so for the first time, and every victim of
   its swap has had its unload return.
   */
  ghost predicate FirstAsk(s: State, a: Action, s': State, r: Rid) {
    && (a.StartSwap? || a.Unloaded?) && a.k < |s.tasks| && a.k < |s'.tasks|
    && s.tasks[a.k].model == r && r < |s.recs| && r < |s'.recs|
    && s.recs[r].loads == 0 && s'.recs[r].loads == 1 && !s.recs[r].ready
    && forall j | 0 <= j < |s.tasks[a.k].victims| ::
         s.tasks[a.k].victims[j] < |s'.recs| && s'.recs[s.tasks[a.k].victims[j]].unloaded
  }

  lemma StartSwapAsks(cfg: Config, s: State, k: Kid, r: Rid)
    requires BaseInv(cfg, s) && k < |s.tasks| && s.tasks[k].stage.Starting? && r < |s.recs|
    ensures TaskShape(|s.recs|, s.tasks[k]) && r < |DoStartSwap(s, k).recs|
    ensures DoStartSwap(s, k).recs[r].loads != s.recs[r].loads ==> FirstAsk(s, StartSwap(k), DoStartSwap(s, k), r)
  {
    TaskFacts(cfg, s, k);
  }

  lemma UnloadedAsks(cfg: Config, s: State, s': State, k: Kid, r: Rid)
    requires BaseInv(cfg, s) && k < |s.tasks| && s.tasks[k].stage.Unloading? && r < |s.recs|
    requires TaskShape(|s.recs|, s.tasks[k]) && UnloadEffect(s, s', k)
    ensures s'.recs[r].loads != s.recs[r].loads ==> FirstAsk(s, Unloaded(k), s', r)
  {
    TaskFacts(cfg, s, k);
    var task := s.tasks[k];
    assert task.victims[task.next] in task.victims;
    if s'.recs[r].loads != s.recs[r].loads {
      forall j | 0 <= j < |task.victims|
        ensures s'.recs[task.victims[j]].unloaded
      {
        assert VictimLinked(s.recs[task.victims[j]], k, j < task.next);
        assert task.victims[j] in task.victims;
      }
    }
  }

  lemma StepAsks(cfg: Config, s: State, a: Action, s': State, r: Rid)
    requires Valid(cfg) && BaseInv(cfg, s) && Step(cfg, s, a, s') && r < |s.recs| && r < |s'.recs|
    ensures s.recs[r].loads <= 1
    ensures s'.recs[r].loads != s.recs[r].loads ==> FirstAsk(s, a, s', r)
  {
    assert RecordLinked(s.tasks, s.recs[r], r);
    if a.StartSwap? {
      StartSwapAsks(cfg, s, a.k, r);
    } else if a.Unloaded? {
      TaskFacts(cfg, s, a.k);
      UnloadHasEffect(s, a.k);
      UnloadedAsks(cfg, s, s', a.k, r);
    } else {
      StepSteady(cfg, s, a, s');
      assert Steady(s.recs[r], s'.recs[r]);
    }
  }

  /** Each record causes at most one load, asked for only after its victims' unloads returned. */
  lemma LoadsOnceAfterUnloads(cfg: Config, ss: seq<State>, acts: seq<Action>, i: nat, r: Rid)
    requires Run(cfg, ss, acts) && i < |acts| && r < |ss[i].recs|
    ensures ss[i].recs[r].loads <= 1
    ensures r < |ss[i + 1].recs|
    ensures ss[i + 1].recs[r].loads != ss[i].recs[r].loads ==> FirstAsk(ss[i], acts[i], ss[i + 1], r)
  {
    RunHasBase(cfg, ss, acts, i);
    assert Step(cfg, ss[i], acts[i], ss[i + 1]);
    StepFinal(cfg, ss[i], acts[i], ss[i + 1]);
    StepAsks(cfg, ss[i], acts[i], ss[i + 1], r);
  }
}
