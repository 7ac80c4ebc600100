/**
 Ownership over all runs, whatever servers hold and surveys report: which swap a leaving record
 belongs to, who makes a record ready, and that deletions find their key.
 */
module Ownership {
  import opened Wrappers
  import opened Machine
  import opened LineSteps
  import opened Frames
  import opened Shapes
  import opened UseSteps
  import opened LinkSteps
  import opened TaskSteps
  import opened Base
  import opened Safety
  import opened PlaceSafe
  import opened TaskSafety
  import opened SurveySafety
  import opened SafeSteps

  /** The step decides to displace the conflicts it has observed. */
  predicate Displaces(cfg: Config, s: State, a: Action) {
    && a.Observed? && a.t in s.reqs && s.reqs[a.t].pc.Observing? && RequestShape(cfg, |s.recs|, s.reqs[a.t])
    && |DoObserved(cfg, s, a.t, a.activity).tasks| > |s.tasks|
  }

  /**
   What ownership needs of a step: a re-inspection finds no model whose tracked record failed to
   load and is being unloaded, and what a decision displaces is still tracked.
   */
  ghost predicate Tame(cfg: Config, s: State, a: Action)
    requires Shape(cfg, s)
  {
    && (a.Surveyed? ==> Unbroken(s, a.survey))
    && (Displaces(cfg, s, a) ==> AllTracked(s, s.reqs[a.t].pc.conflicts))
  }

  /** The hypotheses on servers and surveys imply both. */
  lemma HonestIsTame(cfg: Config, s: State, a: Action)
    requires Valid(cfg) && SafeInv(cfg, s) && Enabled(cfg, s, a) && Honest(cfg, s, a)
    ensures Tame(cfg, s, a)
  {
    if Displaces(cfg, s, a) {
      ObservedCases(cfg, s, a.t, a.activity);
      SeenTracked(cfg, s, a.t, a.activity);
    }
  }

  lemma PlainOwned(cfg: Config, s: State, a: Action)
    requires Valid(cfg) && OwnedInv(cfg, s) && Enabled(cfg, s, a) && Plain(a)
    ensures OwnInv(Apply(cfg, s, a))
  {
    PlainFacts(cfg, s, a);
    RequestMove(cfg, s, a);
    LightOwn(cfg, s, Apply(cfg, s, a), a.t);
  }

  lemma NoticedOwned(cfg: Config, s: State, t: Tid, activity: Activity)
    requires OwnInv(s) && t in s.reqs && s.reqs[t].pc.Observing? && PcShape(|s.recs|, s.reqs[t].pc)
    ensures OwnInv(Noticed(s, t, activity))
  {
    var s0 := Noticed(s, t, activity);
    LightRecords(cfg, s, s0);
    LightAlike(s, s0);
    TodoAlike(s, s0, s.startup);
    forall r | 0 <= r < |s0.recs|
      ensures Cared(s0, r)
    {
      assert Cared(s, r);
    }
    forall u | u in s0.reqs
      ensures NotYet(s0, u) && (s0.reqs[u].pc.Tracking? ==> TodoSafe(s0.recs, s0.loaded, s0.reqs[u].pc.todo))
    {
      assert NotYet(s, u);
      if s.reqs[u].pc.Tracking? { TodoAlike(s, s0, s.reqs[u].pc.todo); }
    }
  }

  lemma ObservedOwned(cfg: Config, s: State, t: Tid, activity: Option<Activity>)
    requires Valid(cfg) && OwnedInv(cfg, s) && Enabled(cfg, s, Observed(t, activity)) && Tame(cfg, s, Observed(t, activity))
    ensures OwnInv(DoObserved(cfg, s, t, activity))
  {
    assert RequestShape(cfg, |s.recs|, s.reqs[t]);
    ObservedMove(cfg, s, t, activity);
    ObservedCases(cfg, s, t, activity);
    var s' := DoObserved(cfg, s, t, activity);
    if Light(s, s') {
      ObservedPcIs(cfg, s, t, activity);
      assert NotYet(s, t);
      LightOwn(cfg, s, s', t);
    } else {
      DisplacedOwned(cfg, s, t, activity.value);
    }
  }

  lemma DisplacedOwned(cfg: Config, s: State, t: Tid, activity: Activity)
    requires Valid(cfg) && OwnedInv(cfg, s) && t in s.reqs && s.reqs[t].pc.Observing?
    requires RequestShape(cfg, |s.recs|, s.reqs[t]) && |s.reqs[t].pc.seen| + 1 == |s.reqs[t].pc.conflicts|
    requires AllTracked(s, s.reqs[t].pc.conflicts)
    requires !JustWasUsed(Noticed(s, t, activity).recs, s.reqs[t].pc.conflicts)
    ensures OwnInv(Commit(cfg, Noticed(s, t, activity), t, s.reqs[t].pc.conflicts))
  {
    var s0, conflicts := Noticed(s, t, activity), s.reqs[t].pc.conflicts;
    NoticedLinks(cfg, s, t, activity);
    NoticedOwned(cfg, s, t, activity);
    ObservedMayDisplace(cfg, s, t, activity);
    LightAlike(s, s0);
    assert NotYet(s, t);
    forall i | 0 <= i < |conflicts|
      ensures Tracked(s0.recs, s0.loaded, conflicts[i])
    {
      assert Tracked(s.recs, s.loaded, conflicts[i]);
    }
    CommitOwn(cfg, s0, t, conflicts);
  }

  lemma TakePlaceLockOwned(cfg: Config, s: State, t: Tid, conflicts: seq<Rid>)
    requires Valid(cfg) && OwnedInv(cfg, s) && Enabled(cfg, s, TakePlaceLock(t, conflicts))
    ensures OwnInv(DoTakePlaceLock(cfg, s, t, conflicts))
  {
    assert RequestShape(cfg, |s.recs|, s.reqs[t]);
    var s' := DoTakePlaceLock(cfg, s, t, conflicts);
    TakePlaceLockCases(cfg, s, t, conflicts);
    if Light(s, s') {
      TakePlaceLockMove(cfg, s, t, conflicts);
      TakePlaceLockNotYet(cfg, s, t, conflicts);
      LightOwn(cfg, s, s', t);
    } else {
      CommitOwn(cfg, s, t, conflicts);
    }
  }

  lemma TakePlaceLockNotYet(cfg: Config, s: State, t: Tid, conflicts: seq<Rid>)
    requires Shape(cfg, s) && t in s.reqs && s.reqs[t].pc.Queueing? && s.reqs[t].name in cfg.catalogue
    requires InRange(conflicts, |s.recs|) && Light(s, DoTakePlaceLock(cfg, s, t, conflicts))
    ensures var s' := DoTakePlaceLock(cfg, s, t, conflicts); NotYet(s', t) && !s'.reqs[t].pc.Tracking?
  {
    if s.reqs[t].name in s.loaded {
      SettleLight(cfg, s, t, Blocked(BeingUnloaded, None));
      SettleLight(cfg, s, t, Blocked(LoadedByAnother, Some(s.now)));
    } else {
      var s0 := s.(lock := Some(t));
      AdvanceCases(cfg, s0, t, conflicts, s.now, s.now, false, []);
      if !Decided(s0, conflicts, [], false) {
        AdvancePcIs(cfg, s0, t, conflicts, s.now, s.now, false, []);
      }
    }
  }

  lemma StartSwapKeepsOwned(cfg: Config, s: State, k: Kid)
    requires OwnedInv(cfg, s) && k < |s.tasks| && s.tasks[k].stage.Starting?
    ensures TaskShape(|s.recs|, s.tasks[k]) && OwnInv(DoStartSwap(s, k))
  {
    TaskFacts(cfg, s, k);
    StartSwapMoved(s, k);
    StartSwapIs(s, k);
    StartSwapOwned(cfg, s, DoStartSwap(s, k), k);
  }

  lemma StartSwapIs(s: State, k: Kid)
    requires k < |s.tasks| && TaskShape(|s.recs|, s.tasks[k])
    ensures var s' := DoStartSwap(s, k);
            && s'.loaded == s.loaded && (s'.tasks[k].stage.Loading? || s'.tasks[k].stage.Unloading?)
            && |s'.recs| == |s.recs| && forall r | 0 <= r < |s.recs| :: SameLinksButLoads(s.recs[r], s'.recs[r])
  {
  }

  lemma UnloadedKeepsOwned(cfg: Config, s: State, k: Kid)
    requires OwnedInv(cfg, s) && k < |s.tasks| && s.tasks[k].stage.Unloading?
    ensures TaskShape(|s.recs|, s.tasks[k]) && OwnInv(DoUnloaded(s, k))
  {
    UnloadedTracked(cfg, s, k);
    UnloadedMoved(s, k);
    UnloadHasEffect(s, k);
    UnloadedWhole(s, k);
    UnloadOwned(cfg, s, DoUnloaded(s, k), k);
  }

  lemma UnloadFailedKeepsOwned(cfg: Config, s: State, k: Kid, error: string)
    requires OwnedInv(cfg, s) && k < |s.tasks| && s.tasks[k].stage.Unloading?
    ensures TaskShape(|s.recs|, s.tasks[k]) && OwnInv(DoUnloadFailed(s, k, error))
  {
    UnloadedTracked(cfg, s, k);
    UnloadFailedMoved(s, k, error);
    UnloadFailedWhole(s, k, error);
    FailedOwned(cfg, s, DoUnloadFailed(s, k, error), k);
  }

  lemma SwapOwned(cfg: Config, s: State, a: Action)
    requires OwnedInv(cfg, s) && Enabled(cfg, s, a) && (a.StartSwap? || a.Unloaded? || a.UnloadFailed?)
    ensures OwnInv(Apply(cfg, s, a))
  {
    if a.StartSwap? {
      StartSwapKeepsOwned(cfg, s, a.k);
    } else if a.Unloaded? {
      UnloadedKeepsOwned(cfg, s, a.k);
    } else {
      UnloadFailedKeepsOwned(cfg, s, a.k, a.error);
    }
  }

  lemma ReturnedOwned(cfg: Config, s: State, k: Kid, failure: Option<string>, decode: Option<int>)
    requires OwnedInv(cfg, s) && k < |s.tasks| && (s.tasks[k].stage.Loading? || s.tasks[k].stage.Baseline?)
    ensures TaskShape(|s.recs|, s.tasks[k])
    ensures OwnInv(DoLoadReturned(s, k, failure)) && OwnInv(DoBaselineRead(s, k, decode))
  {
    TaskFacts(cfg, s, k);
    assert TaskSafe(s.recs, s.loaded, s.tasks[k]);
    LoadReturnedMoved(s, k, failure);
    ReadiedMoved(s, k, decode, false);
    LoadHasEffect(s, k, failure, decode, false);
    LoadOwned(cfg, s, DoLoadReturned(s, k, failure), k, None);
    LoadOwned(cfg, s, DoBaselineRead(s, k, decode), k, None);
  }

  lemma ConfirmedOwned(cfg: Config, s: State, k: Kid, gone: bool)
    requires OwnedInv(cfg, s) && k < |s.tasks| && s.tasks[k].stage.Confirming?
    ensures TaskShape(|s.recs|, s.tasks[k]) && OwnInv(DoConfirmed(s, k, gone))
  {
    TaskFacts(cfg, s, k);
    ReadiedMoved(s, k, None, gone);
    ConfirmedHasEffect(s, k, gone);
    var m := s.tasks[k].model;
    LoadOwned(cfg, s, DoConfirmed(s, k, gone), k, if gone && Tracked(s.recs, s.loaded, m) then Some(m) else None);
  }

  lemma ProgressOwned(cfg: Config, s: State, a: Action)
    requires OwnedInv(cfg, s) && Enabled(cfg, s, a) && (a.LoadReturned? || a.BaselineRead? || a.Confirmed?)
    ensures OwnInv(Apply(cfg, s, a))
  {
    if a.LoadReturned? {
      ReturnedOwned(cfg, s, a.k, a.failure, None);
    } else if a.BaselineRead? {
      ReturnedOwned(cfg, s, a.k, None, a.decode);
    } else {
      ConfirmedOwned(cfg, s, a.k, a.gone);
    }
  }

  lemma SurveyedOwned(cfg: Config, s: State, t: Tid, survey: Survey)
    requires Valid(cfg) && OwnedInv(cfg, s) && Enabled(cfg, s, Surveyed(t, survey)) && Unbroken(s, survey)
    ensures OwnInv(DoSurveyed(cfg, s, t, survey))
  {
    SurveyedIsMerge(cfg, s, t, survey);
    MergeOwn(cfg, s, DoSurveyed(cfg, s, t, survey), t, survey);
  }

  lemma EnvironmentOwned(cfg: Config, s: State, a: Action)
    requires OwnedInv(cfg, s) && Enabled(cfg, s, a) && (a.Tick? || a.Vanish? || a.Appear?)
    ensures OwnInv(Apply(cfg, s, a))
  {
    EnvironmentOnly(cfg, s, a);
    SameOwned(s, Apply(cfg, s, a));
  }

  lemma SameOwned(s: State, s': State)
    requires OwnInv(s) && s' == s.(now := s'.now, held := s'.held)
    ensures OwnInv(s')
  {
    forall r | 0 <= r < |s'.recs|
      ensures Cared(s', r)
    {
      assert Cared(s, r);
    }
    forall u | u in s'.reqs
      ensures NotYet(s', u)
    {
      assert NotYet(s, u);
    }
  }

  /** Every tame step keeps ownership. */
  lemma StepKeepsOwned(cfg: Config, s: State, a: Action)
    requires Valid(cfg) && OwnedInv(cfg, s) && Enabled(cfg, s, a) && Tame(cfg, s, a)
    ensures OwnedInv(cfg, Apply(cfg, s, a))
  {
    StepKeepsBase(cfg, s, a);
    if Plain(a) {
      PlainOwned(cfg, s, a);
    } else if a.StartSwap? || a.Unloaded? || a.UnloadFailed? {
      SwapOwned(cfg, s, a);
    } else if a.LoadReturned? || a.BaselineRead? || a.Confirmed? {
      ProgressOwned(cfg, s, a);
    } else if a.TakePlaceLock? {
      TakePlaceLockOwned(cfg, s, a.t, a.conflicts);
    } else if a.Observed? {
      ObservedOwned(cfg, s, a.t, a.activity);
    } else if a.Surveyed? {
      SurveyedOwned(cfg, s, a.t, a.survey);
    } else if a.TrackNext? {
      TrackNextOwned(cfg, s, a.t, a.decode);
    } else if a.StartupTrack? {
      StartupTrackOwned(cfg, s, a.decode);
    } else {
      EnvironmentOwned(cfg, s, a);
    }
  }

  lemma InitHasOwned(cfg: Config, s: State)
    requires Init(cfg, s)
    ensures OwnedInv(cfg, s)
  {
    InitHasBase(cfg, s);
    forall r | 0 <= r < |s.recs|
      ensures Cared(s, r) && s.recs[r] == Fresh(s.recs[r].variant, s.now, s.recs[r].ready)
    {
      assert s.startup[r] == r;
    }
    forall i | 0 <= i < |s.startup|
      ensures TodoAt(s.recs, s.loaded, s.startup[i])
    {
      assert Tracked(s.recs, s.loaded, s.startup[i]);
    }
  }

  // ----- The conditions are exact

  /** A re-inspection that finds a failed, leaving model takes its record out of the swap's reach. */
  lemma BrokenIsLost(cfg: Config, s: State, t: Tid, survey: Survey)
    requires Valid(cfg) && OwnedInv(cfg, s) && Enabled(cfg, s, Surveyed(t, survey)) && !Unbroken(s, survey)
    ensures !OwnInv(DoSurveyed(cfg, s, t, survey))
  {
    var id :| id in FoundIds(survey.found) && id in s.loaded && Broken(s.recs[s.loaded[id]]);
    var r, s' := s.loaded[id], DoSurveyed(cfg, s, t, survey);
    assert RecordSafe(s.recs, s.loaded, r);
    SurveyedIsMerge(cfg, s, t, survey);
    MergedFresh(s.recs, s.loaded, survey, id);
    assert !RecordSafe(s'.recs, s'.loaded, r);
  }

  /** A decision that displaces an untracked record leaves it to a swap that cannot delete it. */
  lemma UntrackedIsStuck(cfg: Config, s: State, a: Action)
    requires Valid(cfg) && OwnedInv(cfg, s) && Enabled(cfg, s, a) && Displaces(cfg, s, a)
    requires !AllTracked(s, s.reqs[a.t].pc.conflicts)
    ensures !OwnInv(Apply(cfg, s, a))
  {
    var conflicts := s.reqs[a.t].pc.conflicts;
    ObservedCases(cfg, s, a.t, a.activity);
    var i :| 0 <= i < |conflicts| && !Tracked(s.recs, s.loaded, conflicts[i]);
    var s0 := Noticed(s, a.t, a.activity.value);
    CommitSticks(cfg, s0, a.t, conflicts, conflicts[i]);
    assert !RecordSafe(Commit(cfg, s0, a.t, conflicts).recs, Commit(cfg, s0, a.t, conflicts).loaded, conflicts[i]);
  }

  lemma CommitSticks(cfg: Config, s: State, t: Tid, conflicts: seq<Rid>, c: Rid)
    requires t in s.reqs && s.reqs[t].name in cfg.catalogue && c in conflicts && c < |s.recs|
    requires !Tracked(s.recs, s.loaded, c)
    ensures var s' := Commit(cfg, s, t, conflicts); c < |s'.recs| && !RecordSafe(s'.recs, s'.loaded, c)
  {
    var s' := Commit(cfg, s, t, conflicts);
    assert s'.recs[c] == MarkLeaving(s.recs, conflicts, |s.tasks|)[c];
  }

  /** Ownership is kept by exactly the tame steps. */
  lemma OwnershipKeptExactly(cfg: Config, s: State, a: Action)
    requires Valid(cfg) && OwnedInv(cfg, s) && Enabled(cfg, s, a)
    ensures OwnInv(Apply(cfg, s, a)) <==> Tame(cfg, s, a)
  {
    if Tame(cfg, s, a) {
      StepKeepsOwned(cfg, s, a);
    } else if a.Surveyed? {
      BrokenIsLost(cfg, s, a.t, a.survey);
    } else {
      UntrackedIsStuck(cfg, s, a);
    }
  }
}
