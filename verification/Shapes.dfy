/** References stay in range and names stay in the catalogue, in every step. */
module Shapes {
  import opened Wrappers
  import opened Machine
  import opened Line
  import opened Frames

  /** Records keep their variants, and new ones come from the catalogue. */
  ghost predicate Grown(cfg: Config, recs: seq<Record>, recs': seq<Record>) {
    && |recs| <= |recs'|
    && (forall r | 0 <= r < |recs| :: recs'[r].variant == recs[r].variant)
    && (forall r | |recs| <= r < |recs'| :: InCatalogue(cfg, recs'[r].variant))
  }

  lemma ShapeKept(cfg: Config, s: State, s': State)
    requires Shape(cfg, s) && Grown(cfg, s.recs, s'.recs) && LoadedShape(s'.recs, s'.loaded)
    requires forall t | t in s'.reqs ::
               (t in s.reqs && s'.reqs[t] == s.reqs[t]) || RequestShape(cfg, |s'.recs|, s'.reqs[t])
    requires forall k | 0 <= k < |s'.tasks| ::
               (k < |s.tasks| && s'.tasks[k] == s.tasks[k]) || TaskShape(|s'.recs|, s'.tasks[k])
    requires InRange(s'.startup, |s'.recs|)
    ensures Shape(cfg, s')
  {
    forall r | 0 <= r < |s'.recs|
      ensures InCatalogue(cfg, s'.recs[r].variant)
    {
      if r < |s.recs| { assert InCatalogue(cfg, s.recs[r].variant); }
    }
    forall t | t in s'.reqs
      ensures RequestShape(cfg, |s'.recs|, s'.reqs[t])
    {
      if t in s.reqs && s'.reqs[t] == s.reqs[t] { assert RequestShape(cfg, |s.recs|, s.reqs[t]); }
    }
    forall k | 0 <= k < |s'.tasks|
      ensures TaskShape(|s'.recs|, s'.tasks[k])
    {
      if k < |s.tasks| && s'.tasks[k] == s.tasks[k] { assert TaskShape(|s.recs|, s.tasks[k]); }
    }
  }

  lemma LightShape(cfg: Config, s: State, s': State, t: Tid)
    requires Shape(cfg, s) && Light(s, s') && OnlyMoved(s, s', t)
    requires RequestShape(cfg, |s.recs|, s'.reqs[t])
    ensures Shape(cfg, s')
  {
    assert forall r | 0 <= r < |s.recs| :: Touch(s.recs[r], s'.recs[r]);
    ShapeKept(cfg, s, s');
  }

  lemma AdvanceShape(cfg: Config, s: State, t: Tid, conflicts: seq<Rid>, began: real, until: real,
                     recent: bool, seen: seq<Sighting>)
    requires t in s.reqs && s.reqs[t].name in cfg.catalogue && InRange(conflicts, |s.recs|)
    ensures var s' := Advance(cfg, s, t, conflicts, began, until, recent, seen);
            OnlyMoved(s, s', t) && RequestShape(cfg, |s'.recs|, s'.reqs[t])
  {
    if |seen| < |conflicts| || recent || JustWasUsed(s.recs, conflicts) {
      SettleLight(cfg, Unlock(s), t, Blocked(BeingUnloaded, None));
      SettleLight(cfg, Unlock(s), t, Blocked(Working, None));
      SettleLight(cfg, Unlock(s), t, Blocked(RecentlyUsed, Some(until)));
      SettleLight(cfg, Unlock(s), t, Blocked(JustUsed, Some(s.now)));
    }
  }

  lemma ObservedShape(cfg: Config, s: State, t: Tid, activity: Option<Activity>)
    requires t in s.reqs && s.reqs[t].pc.Observing? && RequestShape(cfg, |s.recs|, s.reqs[t])
    ensures var s' := DoObserved(cfg, s, t, activity);
            OnlyMoved(s, s', t) && RequestShape(cfg, |s'.recs|, s'.reqs[t])
  {
    if activity.None? {
      SettleShape(cfg, Unlock(s), t, Blocked(Unobservable, None));
    } else if activity.value.processing || activity.value.deferred != 0 {
      SettleShape(cfg, Unlock(Noticed(s, t, activity.value)), t, Blocked(ServerBusy, None));
    } else {
      CalmShape(cfg, s, t, activity.value);
    }
  }

  lemma SettleShape(cfg: Config, s: State, t: Tid, blocked: Blocked)
    requires t in s.reqs && RequestShape(cfg, |s.recs|, s.reqs[t]) && s.reqs[t].name in cfg.catalogue
    ensures var s' := Settle(cfg, s, t, blocked);
            OnlyMoved(s, s', t) && s'.recs == s.recs && RequestShape(cfg, |s.recs|, s'.reqs[t])
  {
  }

  lemma CalmShape(cfg: Config, s: State, t: Tid, activity: Activity)
    requires t in s.reqs && s.reqs[t].pc.Observing? && RequestShape(cfg, |s.recs|, s.reqs[t])
    requires !activity.processing && activity.deferred == 0
    ensures var s' := DoObserved(cfg, s, t, Some(activity));
            OnlyMoved(s, s', t) && RequestShape(cfg, |s'.recs|, s'.reqs[t])
  {
    var pc, s0 := s.reqs[t].pc, Noticed(s, t, activity);
    var c := pc.conflicts[|pc.seen|];
    var seen := pc.seen + [Sighting(pc.glance, s.recs[c], activity, s.now)];
    var until := s0.recs[c].lastActivity + cfg.protect;
    if until > pc.until {
      AdvanceShape(cfg, s0, t, pc.conflicts, pc.began, until, true, seen);
    } else {
      AdvanceShape(cfg, s0, t, pc.conflicts, pc.began, pc.until, pc.recent, seen);
    }
  }

  lemma LightMoveShape(cfg: Config, s: State, a: Action)
    requires Shape(cfg, s) && Enabled(cfg, s, a)
    requires a.Arrive? || a.TakeCheckLock? || a.TrackDone? || a.Wake?
    ensures var s' := Apply(cfg, s, a); OnlyMoved(s, s', a.t) && RequestShape(cfg, |s.recs|, s'.reqs[a.t])
  {
    if !a.Arrive? {
      assert RequestShape(cfg, |s.recs|, s.reqs[a.t]);
    }
  }

  lemma JoinedShape(cfg: Config, s: State, t: Tid)
    requires t in s.reqs && RequestShape(cfg, |s.recs|, s.reqs[t])
    ensures s.reqs[t].pc.Joining? ==>
              OnlyMoved(s, DoJoinWake(s, t), t) && RequestShape(cfg, |s.recs|, DoJoinWake(s, t).reqs[t])
    ensures s.reqs[t].pc.Admitted? ==>
              OnlyMoved(s, DoRelease(s, t), t) && RequestShape(cfg, |s.recs|, DoRelease(s, t).reqs[t])
    ensures OnlyMoved(s, DoCancel(s, t), t) && RequestShape(cfg, |s.recs|, DoCancel(s, t).reqs[t])
  {
  }

  lemma LookShape(cfg: Config, s: State, t: Tid)
    requires t in s.reqs && s.reqs[t].name in cfg.catalogue && LoadedShape(s.recs, s.loaded)
    ensures var s' := DoLook(cfg, s, t); OnlyMoved(s, s', t) && RequestShape(cfg, |s.recs|, s'.reqs[t])
  {
  }

  /** A commit adds one record, of the requested model, and one task to bring it up. */
  lemma CommitShape(cfg: Config, s: State, t: Tid, conflicts: seq<Rid>)
    requires Shape(cfg, s) && Valid(cfg) && t in s.reqs && s.reqs[t].name in cfg.catalogue
    requires InRange(conflicts, |s.recs|)
    ensures Shape(cfg, Commit(cfg, s, t, conflicts))
  {
    var s' := Commit(cfg, s, t, conflicts);
    var r := |s.recs|;
    assert s'.recs[r].variant == cfg.catalogue[s.reqs[t].name];
    ShapeKept(cfg, s, s');
  }

  lemma TouchedShape(cfg: Config, s: State, s': State, t: Tid, conflicts: seq<Rid>)
    requires Shape(cfg, s) && Light(s, s') && s'.reqs == s.reqs
    ensures Shape(cfg, s')
  {
    assert forall r | 0 <= r < |s.recs| :: Touch(s.recs[r], s'.recs[r]);
    ShapeKept(cfg, s, s');
  }

  lemma ObservedKeepsShape(cfg: Config, s: State, t: Tid, activity: Option<Activity>)
    requires Shape(cfg, s) && Valid(cfg) && t in s.reqs && s.reqs[t].pc.Observing?
    ensures RequestShape(cfg, |s.recs|, s.reqs[t]) && Shape(cfg, DoObserved(cfg, s, t, activity))
  {
    assert RequestShape(cfg, |s.recs|, s.reqs[t]);
    ObservedShape(cfg, s, t, activity);
    ObservedCases(cfg, s, t, activity);
    if Light(s, DoObserved(cfg, s, t, activity)) {
      LightShape(cfg, s, DoObserved(cfg, s, t, activity), t);
    } else {
      var s0 := Noticed(s, t, activity.value);
      assert Light(s, s0);
      TouchedShape(cfg, s, s0, t, []);
      CommitShape(cfg, s0, t, s.reqs[t].pc.conflicts);
    }
  }

  lemma TakePlaceLockKeepsShape(cfg: Config, s: State, t: Tid, conflicts: seq<Rid>)
    requires Shape(cfg, s) && Valid(cfg) && t in s.reqs && s.reqs[t].pc.Queueing?
    requires InRange(conflicts, |s.recs|)
    ensures RequestShape(cfg, |s.recs|, s.reqs[t]) && Shape(cfg, DoTakePlaceLock(cfg, s, t, conflicts))
  {
    assert RequestShape(cfg, |s.recs|, s.reqs[t]);
    TakePlaceLockCases(cfg, s, t, conflicts);
    var s' := DoTakePlaceLock(cfg, s, t, conflicts);
    if Light(s, s') {
      if s.reqs[t].name !in s.loaded {
        AdvanceShape(cfg, s.(lock := Some(t)), t, conflicts, s.now, s.now, false, []);
      }
      LightShape(cfg, s, s', t);
    } else {
      CommitShape(cfg, s, t, conflicts);
    }
  }

  lemma SurveyedKeepsShape(cfg: Config, s: State, t: Tid, survey: Survey)
    requires Shape(cfg, s) && Valid(cfg) && t in s.reqs && s.reqs[t].pc.Surveying?
    requires FoundIds(survey.found) <= cfg.catalogue.Keys
    ensures Shape(cfg, DoSurveyed(cfg, s, t, survey))
  {
    var s' := DoSurveyed(cfg, s, t, survey);
    SurveyedLoaded(cfg, s, t, survey);
    SurveyedRecords(cfg, s, t, survey);
    ShapeKept(cfg, s, s');
  }

  lemma SurveyedRecords(cfg: Config, s: State, t: Tid, survey: Survey)
    requires Shape(cfg, s) && Valid(cfg) && t in s.reqs && s.reqs[t].pc.Surveying?
    requires FoundIds(survey.found) <= cfg.catalogue.Keys
    ensures var s' := DoSurveyed(cfg, s, t, survey);
            && Grown(cfg, s.recs, s'.recs) && OnlyMoved(s, s', t) && RequestShape(cfg, |s'.recs|, s'.reqs[t])
            && s'.tasks == s.tasks && s'.startup == s.startup
  {
    assert RequestShape(cfg, |s.recs|, s.reqs[t]);
    var anew := Renewed(s.recs, s.loaded, survey.found);
    forall i | 0 <= i < |anew|
      ensures anew[i].id in cfg.catalogue
    {
      assert anew[i] in survey.found;
    }
  }

  lemma SurveyedLoaded(cfg: Config, s: State, t: Tid, survey: Survey)
    requires Shape(cfg, s) && Valid(cfg) && t in s.reqs && s.reqs[t].pc.Surveying?
    requires FoundIds(survey.found) <= cfg.catalogue.Keys
    ensures var s' := DoSurveyed(cfg, s, t, survey); LoadedShape(s'.recs, s'.loaded)
  {
    var s' := DoSurveyed(cfg, s, t, survey);
    var anew := Renewed(s.recs, s.loaded, survey.found);
    forall id | id in s'.loaded
      ensures s'.loaded[id] < |s'.recs| && s'.recs[s'.loaded[id]].variant.id == id
    {
      MergedAt(cfg, s, survey, id);
      if id in FoundIds(survey.found) && NeedsFresh(s.recs, s.loaded, id) {
        assert anew[s'.loaded[id] - |s.recs|] in anew;
      }
    }
  }

  /** A renewed model stands at the new record made for it. */
  predicate NewlyAt(recs: seq<Record>, anew: seq<Adopted>, id: string, r: Rid) {
    |recs| <= r < |recs| + |anew| && anew[r - |recs|].id == id
  }

  lemma MergedFresh(recs: seq<Record>, loaded: map<string, Rid>, survey: Survey, id: string)
    requires LoadedShape(recs, loaded) && id in FoundIds(survey.found) && NeedsFresh(recs, loaded, id)
    ensures id in Merged(recs, loaded, survey)
    ensures NewlyAt(recs, Renewed(recs, loaded, survey.found), id, Merged(recs, loaded, survey)[id])
  {
    var anew := Renewed(recs, loaded, survey.found);
    var a :| a in survey.found && a.id == id;
    assert a in anew;
    assert id in FoundIds(anew);
    var i := IndexOfId(anew, id);
    assert Merged(recs, loaded, survey)[id] == |recs| + i;
  }

  lemma MergedStays(recs: seq<Record>, loaded: map<string, Rid>, survey: Survey, id: string)
    requires LoadedShape(recs, loaded) && id in Merged(recs, loaded, survey)
    requires !(id in FoundIds(survey.found) && NeedsFresh(recs, loaded, id))
    ensures id in loaded && Merged(recs, loaded, survey)[id] == loaded[id]
  {
  }

  /** What the merge does for one model: a new record, or the one already there. */
  lemma MergedAt(cfg: Config, s: State, survey: Survey, id: string)
    requires LoadedShape(s.recs, s.loaded) && id in Merged(s.recs, s.loaded, survey)
    ensures var r := Merged(s.recs, s.loaded, survey)[id];
            if id in FoundIds(survey.found) && NeedsFresh(s.recs, s.loaded, id) then
              NewlyAt(s.recs, Renewed(s.recs, s.loaded, survey.found), id, r)
            else id in s.loaded && r == s.loaded[id]
  {
    if id in FoundIds(survey.found) && NeedsFresh(s.recs, s.loaded, id) {
      MergedFresh(s.recs, s.loaded, survey, id);
    } else {
      MergedStays(s.recs, s.loaded, survey, id);
    }
  }

  lemma TrackOneShape(cfg: Config, s: State, r: Rid, decode: Option<int>)
    requires Shape(cfg, s) && r < |s.recs|
    ensures Shape(cfg, TrackOne(s, r, decode))
  {
    ShapeKept(cfg, s, TrackOne(s, r, decode));
  }

  lemma TrackingKeepsShape(cfg: Config, s: State, t: Tid, decode: Option<int>)
    requires Shape(cfg, s) && t in s.reqs && s.reqs[t].pc.Tracking? && s.reqs[t].pc.todo != []
    ensures RequestShape(cfg, |s.recs|, s.reqs[t]) && Shape(cfg, DoTrackNext(s, t, decode))
  {
    assert RequestShape(cfg, |s.recs|, s.reqs[t]);
    var s0 := TrackOne(s, s.reqs[t].pc.todo[0], decode);
    TrackOneShape(cfg, s, s.reqs[t].pc.todo[0], decode);
    ShapeKept(cfg, s0, DoTrackNext(s, t, decode));
  }

  lemma StartupKeepsShape(cfg: Config, s: State, decode: Option<int>)
    requires Shape(cfg, s) && s.startup != []
    ensures Shape(cfg, DoStartupTrack(s, decode))
  {
    TrackOneShape(cfg, s, s.startup[0], decode);
    ShapeKept(cfg, TrackOne(s, s.startup[0], decode), DoStartupTrack(s, decode));
  }

  /** A background task moved: it changed itself, some records, and at most forgot a model. */
  ghost predicate TaskMoved(s: State, s': State, k: Kid) {
    && k < |s.tasks| && |s'.tasks| == |s.tasks| && s'.tasks == s.tasks[k := s'.tasks[k]]
    && s'.reqs == s.reqs && s'.waiting == s.waiting && s'.lock == s.lock && s'.startup == s.startup
    && s'.tasks[k].model == s.tasks[k].model && s'.tasks[k].victims == s.tasks[k].victims
    && s'.tasks[k].adopted == s.tasks[k].adopted
    && TaskShape(|s'.recs|, s'.tasks[k])
    && SameVariants(s.recs, s'.recs)
    && (forall id | id in s'.loaded :: id in s.loaded && s'.loaded[id] == s.loaded[id])
  }

  predicate SameVariants(recs: seq<Record>, recs': seq<Record>) {
    |recs'| == |recs| && forall r | 0 <= r < |recs| :: recs'[r].variant == recs[r].variant
  }

  lemma TaskMovedShape(cfg: Config, s: State, s': State, k: Kid)
    requires Shape(cfg, s) && TaskMoved(s, s', k)
    ensures Shape(cfg, s')
  {
    ShapeKept(cfg, s, s');
  }

  lemma StartSwapMoved(s: State, k: Kid)
    requires k < |s.tasks| && TaskShape(|s.recs|, s.tasks[k]) && s.tasks[k].stage.Starting?
    ensures TaskMoved(s, DoStartSwap(s, k), k)
  {
  }

  lemma UnloadedMoved(s: State, k: Kid)
    requires k < |s.tasks| && TaskShape(|s.recs|, s.tasks[k]) && s.tasks[k].stage.Unloading?
    ensures TaskMoved(s, DoUnloaded(s, k), k)
  {
  }

  lemma UnloadFailedMoved(s: State, k: Kid, error: string)
    requires k < |s.tasks| && TaskShape(|s.recs|, s.tasks[k]) && s.tasks[k].stage.Unloading?
    ensures TaskMoved(s, DoUnloadFailed(s, k, error), k)
  {
  }

  lemma LoadReturnedMoved(s: State, k: Kid, failure: Option<string>)
    requires k < |s.tasks| && TaskShape(|s.recs|, s.tasks[k])
    ensures TaskMoved(s, DoLoadReturned(s, k, failure), k)
  {
  }

  lemma ReadiedMoved(s: State, k: Kid, decode: Option<int>, gone: bool)
    requires k < |s.tasks| && TaskShape(|s.recs|, s.tasks[k])
    ensures TaskMoved(s, DoBaselineRead(s, k, decode), k) && TaskMoved(s, DoConfirmed(s, k, gone), k)
  {
    BaselineMoved(s, k, decode);
    ConfirmedMoved(s, k, gone);
  }

  lemma BaselineMoved(s: State, k: Kid, decode: Option<int>)
    requires k < |s.tasks| && TaskShape(|s.recs|, s.tasks[k])
    ensures TaskMoved(s, DoBaselineRead(s, k, decode), k)
  {
  }

  lemma ConfirmedMoved(s: State, k: Kid, gone: bool)
    requires k < |s.tasks| && TaskShape(|s.recs|, s.tasks[k])
    ensures TaskMoved(s, DoConfirmed(s, k, gone), k)
  {
  }

  predicate ByTask(a: Action) {
    a.StartSwap? || a.Unloaded? || a.UnloadFailed? || a.LoadReturned? || a.BaselineRead? || a.Confirmed?
  }

  lemma TaskStepMoved(cfg: Config, s: State, a: Action)
    requires Shape(cfg, s) && Enabled(cfg, s, a) && ByTask(a)
    ensures TaskMoved(s, Apply(cfg, s, a), a.k)
  {
    assert TaskShape(|s.recs|, s.tasks[a.k]);
    match a
    case StartSwap(k) => StartSwapMoved(s, k);
    case Unloaded(k) => UnloadedMoved(s, k);
    case UnloadFailed(k, error) => UnloadFailedMoved(s, k, error);
    case LoadReturned(k, failure) => LoadReturnedMoved(s, k, failure);
    case BaselineRead(k, decode) => ReadiedMoved(s, k, decode, false);
    case Confirmed(k, gone) => ReadiedMoved(s, k, None, gone);
  }

  lemma TaskStepKeepsShape(cfg: Config, s: State, a: Action)
    requires Shape(cfg, s) && Enabled(cfg, s, a) && ByTask(a)
    ensures Shape(cfg, Apply(cfg, s, a))
  {
    assert TaskShape(|s.recs|, s.tasks[a.k]);
    TaskStepMoved(cfg, s, a);
    TaskMovedShape(cfg, s, Apply(cfg, s, a), a.k);
  }

  lemma StepKeepsShape(cfg: Config, s: State, a: Action)
    requires Shape(cfg, s) && Valid(cfg) && Enabled(cfg, s, a)
    ensures Shape(cfg, Apply(cfg, s, a))
  {
    match a
    case Look(t) =>
      assert RequestShape(cfg, |s.recs|, s.reqs[t]);
      LookLight(cfg, s, t);
      LookShape(cfg, s, t);
      LightShape(cfg, s, DoLook(cfg, s, t), t);
    case TakePlaceLock(t, conflicts) => TakePlaceLockKeepsShape(cfg, s, t, conflicts);
    case Observed(t, activity) => ObservedKeepsShape(cfg, s, t, activity);
    case Surveyed(t, survey) => SurveyedKeepsShape(cfg, s, t, survey);
    case TrackNext(t, decode) => TrackingKeepsShape(cfg, s, t, decode);
    case StartupTrack(decode) => StartupKeepsShape(cfg, s, decode);
    case JoinWake(t) => JoinedKeepShape(cfg, s, t);
    case Release(t) => JoinedKeepShape(cfg, s, t);
    case Cancel(t) => JoinedKeepShape(cfg, s, t);
    case Arrive(_, _) => LightMoveKeepsShape(cfg, s, a);
    case TakeCheckLock(_) => LightMoveKeepsShape(cfg, s, a);
    case TrackDone(_) => LightMoveKeepsShape(cfg, s, a);
    case Wake(_) => LightMoveKeepsShape(cfg, s, a);
    case Tick(_) =>
    case Vanish(_) =>
    case Appear(_) =>
    case StartSwap(_) => TaskStepKeepsShape(cfg, s, a);
    case Unloaded(_) => TaskStepKeepsShape(cfg, s, a);
    case UnloadFailed(_, _) => TaskStepKeepsShape(cfg, s, a);
    case LoadReturned(_, _) => TaskStepKeepsShape(cfg, s, a);
    case BaselineRead(_, _) => TaskStepKeepsShape(cfg, s, a);
    case Confirmed(_, _) => TaskStepKeepsShape(cfg, s, a);
  }

  lemma LightMoveKeepsShape(cfg: Config, s: State, a: Action)
    requires Shape(cfg, s) && Enabled(cfg, s, a)
    requires a.Arrive? || a.TakeCheckLock? || a.TrackDone? || a.Wake?
    ensures Shape(cfg, Apply(cfg, s, a))
  {
    ShortLight(cfg, s, a);
    LightMoveShape(cfg, s, a);
    LightShape(cfg, s, Apply(cfg, s, a), a.t);
  }

  lemma JoinedKeepShape(cfg: Config, s: State, t: Tid)
    requires Shape(cfg, s) && t in s.reqs
    ensures PcShape(|s.recs|, s.reqs[t].pc)
    ensures s.reqs[t].pc.Joining? ==> Shape(cfg, DoJoinWake(s, t))
    ensures s.reqs[t].pc.Admitted? ==> Shape(cfg, DoRelease(s, t))
    ensures Shape(cfg, DoCancel(s, t))
  {
    assert RequestShape(cfg, |s.recs|, s.reqs[t]);
    JoinedLight(s, t);
    JoinedShape(cfg, s, t);
    if s.reqs[t].pc.Joining? { LightShape(cfg, s, DoJoinWake(s, t), t); }
    if s.reqs[t].pc.Admitted? { LightShape(cfg, s, DoRelease(s, t), t); }
    LightShape(cfg, s, DoCancel(s, t), t);
  }
}
