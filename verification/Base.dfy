/** The record-keeping invariant, kept by every step whatever the surveys report. */
module Base {
  import opened Wrappers
  import opened Machine
  import opened Line
  import opened LineSteps
  import opened Frames
  import opened Shapes
  import opened Counts
  import opened Links
  import opened UseSteps
  import opened LinkSteps
  import opened TaskSteps

  ghost predicate BaseInv(cfg: Config, s: State) {
    && Shape(cfg, s) && LineInv(cfg, s) && CountInv(s)
    && UseInv(s) && LinkInv(s) && PcInv(cfg, s)
  }

  lemma LightStep(cfg: Config, s: State, a: Action)
    requires BaseInv(cfg, s) && Valid(cfg) && Enabled(cfg, s, a)
    requires a.Arrive? || a.TakeCheckLock? || a.TrackDone? || a.Wake?
    ensures UseInv(Apply(cfg, s, a))
    ensures Shape(cfg, Apply(cfg, s, a)) && LinkInv(Apply(cfg, s, a)) && PcInv(cfg, Apply(cfg, s, a))
  {
    LightMoveKeepsShape(cfg, s, a);
    LightMoveShape(cfg, s, a);
    ShortLight(cfg, s, a);
    if !a.Arrive? {
      assert RequestShape(cfg, |s.recs|, s.reqs[a.t]);
    }
    assert Apply(cfg, s, a).recs == s.recs;
    LightKeeps(cfg, s, Apply(cfg, s, a), a.t);
  }

  lemma LookStep(cfg: Config, s: State, t: Tid)
    requires BaseInv(cfg, s) && Valid(cfg) && t in s.reqs && s.reqs[t].pc.Looking?
    ensures RequestShape(cfg, |s.recs|, s.reqs[t])
    ensures var s' := DoLook(cfg, s, t); UseInv(s') && Shape(cfg, s') && LinkInv(s') && PcInv(cfg, s')
  {
    assert RequestShape(cfg, |s.recs|, s.reqs[t]);
    LookUse(cfg, s, t);
    LookLight(cfg, s, t);
    LookShape(cfg, s, t);
    LightShape(cfg, s, DoLook(cfg, s, t), t);
    LookPc(cfg, s, t);
    LightKeeps(cfg, s, DoLook(cfg, s, t), t);
  }

  lemma LookPc(cfg: Config, s: State, t: Tid)
    requires Shape(cfg, s) && t in s.reqs && s.reqs[t].name in cfg.catalogue
    ensures Carefree(DoLook(cfg, s, t).reqs[t].pc)
  {
  }

  lemma JoinedStep(cfg: Config, s: State, t: Tid)
    requires BaseInv(cfg, s) && Valid(cfg) && t in s.reqs && PcShape(|s.recs|, s.reqs[t].pc)
    ensures s.reqs[t].pc.Joining? && s.recs[s.reqs[t].pc.rid].ready ==> Upheld(cfg, DoJoinWake(s, t))
    ensures s.reqs[t].pc.Admitted? ==> Upheld(cfg, DoRelease(s, t))
    ensures Upheld(cfg, DoCancel(s, t))
  {
    LeaveUse(cfg, s, t);
    JoinedKeepShape(cfg, s, t);
    assert RequestShape(cfg, |s.recs|, s.reqs[t]);
    JoinedShape(cfg, s, t);
    JoinedLight(s, t);
    if s.reqs[t].pc.Joining? { LightKeeps(cfg, s, DoJoinWake(s, t), t); }
    if s.reqs[t].pc.Admitted? { LightKeeps(cfg, s, DoRelease(s, t), t); }
    LightKeeps(cfg, s, DoCancel(s, t), t);
  }

  ghost predicate Upheld(cfg: Config, s: State) {
    Shape(cfg, s) && UseInv(s) && LinkInv(s) && PcInv(cfg, s)
  }

  lemma TaskStep(cfg: Config, s: State, a: Action)
    requires BaseInv(cfg, s) && Valid(cfg) && Enabled(cfg, s, a) && ByTask(a)
    ensures Upheld(cfg, Apply(cfg, s, a))
  {
    TaskFacts(cfg, s, a.k);
    TaskStepKeepsShape(cfg, s, a);
    TaskSettles(cfg, s, a);
    TaskStepMoved(cfg, s, a);
    PcSame(cfg, s, Apply(cfg, s, a));
    if a.StartSwap? || a.Unloaded? || a.UnloadFailed? {
      SwapStep(cfg, s, a);
    } else {
      LoadStep(cfg, s, a);
    }
  }

  lemma SwapStep(cfg: Config, s: State, a: Action)
    requires BaseInv(cfg, s) && Enabled(cfg, s, a) && (a.StartSwap? || a.Unloaded? || a.UnloadFailed?)
    ensures Shape(cfg, Apply(cfg, s, a)) && UseInv(Apply(cfg, s, a)) && LinkInv(Apply(cfg, s, a))
  {
    TaskFacts(cfg, s, a.k);
    match a
    case StartSwap(k) => StartSwapLinks(cfg, s, k); StartSwapUse(s, k);
    case Unloaded(k) => UnloadedLinks(cfg, s, k); UnloadedUse(s, k);
    case UnloadFailed(k, error) => UnloadFailedLinks(cfg, s, k, error); UnloadFailedUse(s, k, error);
  }

  lemma LoadStep(cfg: Config, s: State, a: Action)
    requires BaseInv(cfg, s) && Enabled(cfg, s, a) && (a.LoadReturned? || a.BaselineRead? || a.Confirmed?)
    ensures Shape(cfg, Apply(cfg, s, a)) && UseInv(Apply(cfg, s, a)) && LinkInv(Apply(cfg, s, a))
  {
    TaskFacts(cfg, s, a.k);
    match a
    case LoadReturned(k, failure) => LoadReturnedLinks(cfg, s, k, failure); LoadUse(s, k, failure, None, false);
    case BaselineRead(k, decode) => BaselineReadLinks(cfg, s, k, decode); LoadUse(s, k, None, decode, false);
    case Confirmed(k, gone) => ConfirmedLinks(cfg, s, k, gone); LoadUse(s, k, None, None, gone);
  }

  lemma TrackStep(cfg: Config, s: State, a: Action)
    requires BaseInv(cfg, s) && Valid(cfg) && Enabled(cfg, s, a) && (a.TrackNext? || a.StartupTrack?)
    ensures Upheld(cfg, Apply(cfg, s, a))
  {
    if a.TrackNext? {
      TrackNextLinks(cfg, s, a.t, a.decode);
      TrackOneUse(s, s.reqs[a.t].pc.todo[0], a.decode);
    } else {
      StartupLinks(cfg, s, a.decode);
      TrackOneUse(s, s.startup[0], a.decode);
    }
  }

  lemma TickStep(cfg: Config, s: State, a: Action)
    requires BaseInv(cfg, s) && Valid(cfg) && Enabled(cfg, s, a) && (a.Tick? || a.Vanish? || a.Appear?)
    ensures Upheld(cfg, Apply(cfg, s, a))
  {
    var s' := Apply(cfg, s, a);
    StepKeepsShape(cfg, s, a);
    assert s'.recs == s.recs && s'.tasks == s.tasks && s'.reqs == s.reqs && s'.startup == s.startup;
    PcSame(cfg, s, s');
    assert forall k | 0 <= k < |s.tasks| :: TaskShape(|s.recs|, s.tasks[k]) && TaskLinked(s.recs, s.tasks[k], k);
  }

  lemma RestUpheld(cfg: Config, s: State, a: Action)
    requires BaseInv(cfg, s) && Valid(cfg) && Enabled(cfg, s, a) && !ByTask(a)
    ensures Upheld(cfg, Apply(cfg, s, a))
  {
    if ByRequest(a) && !a.Arrive? {
      assert RequestShape(cfg, |s.recs|, s.reqs[a.t]);
    }
    match a
    case Look(t) => LookStep(cfg, s, t);
    case TakePlaceLock(t, conflicts) =>
      TakePlaceLockLinks(cfg, s, t, conflicts);
      TakePlaceLockUse(cfg, s, t, conflicts);
    case Observed(t, activity) =>
      ObservedLinks(cfg, s, t, activity);
      ObservedUse(cfg, s, t, activity);
    case Surveyed(t, survey) =>
      SurveyedLinks(cfg, s, t, survey);
      SurveyedUse(cfg, s, t, survey);
    case JoinWake(t) => JoinedStep(cfg, s, t);
    case Release(t) => JoinedStep(cfg, s, t);
    case Cancel(t) => JoinedStep(cfg, s, t);
    case TrackNext(_, _) => TrackStep(cfg, s, a);
    case StartupTrack(_) => TrackStep(cfg, s, a);
    case Arrive(_, _) => LightStep(cfg, s, a);
    case TakeCheckLock(_) => LightStep(cfg, s, a);
    case TrackDone(_) => LightStep(cfg, s, a);
    case Wake(_) => LightStep(cfg, s, a);
    case Tick(_) => TickStep(cfg, s, a);
    case Vanish(_) => TickStep(cfg, s, a);
    case Appear(_) => TickStep(cfg, s, a);
  }

  lemma StepKeepsBase(cfg: Config, s: State, a: Action)
    requires BaseInv(cfg, s) && Valid(cfg) && Enabled(cfg, s, a)
    ensures BaseInv(cfg, Apply(cfg, s, a))
  {
    StepKeepsLine(cfg, s, a);
    StepKeepsCounts(cfg, s, a);
    if ByTask(a) {
      TaskStep(cfg, s, a);
    } else {
      RestUpheld(cfg, s, a);
    }
  }

  lemma InitHasBase(cfg: Config, s: State)
    requires Init(cfg, s)
    ensures BaseInv(cfg, s)
  {
    assert forall r :: Those(s.reqs, Admitted(r)) == {} && Those(s.reqs, Joining(r)) == {};
  }
}
