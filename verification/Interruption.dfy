/** No request is interrupted: unloads are asked only of models that nobody is admitted to. */
module Interruption {
  import opened Wrappers
  import opened Machine
  import opened Frames
  import opened Shapes
  import opened Counts
  import opened Links
  import opened UseSteps
  import opened TaskSteps
  import opened Base
  import opened Safety
  import opened PlaceSafe
  import opened TaskSafety
  import opened SurveySafety
  import opened SafeSteps

  /** A sound record that requests are admitted to or wait for. */
  predicate Serving(rec: Record) {
    (rec.active != 0 || rec.queued != 0) && rec.error.None?
  }

  ghost predicate ServedInv(s: State) {
    forall r | 0 <= r < |s.recs| :: ServedAt(s.recs, s.loaded, r)
  }

  predicate ServedAt(recs: seq<Record>, loaded: map<string, Rid>, r: Rid)
    requires r < |recs|
  {
    Serving(recs[r]) ==> Tracked(recs, loaded, r)
  }

  /** A woken joiner: its record is ready, idle and sound, and nothing else keeps it. */
  predicate Woken(rec: Record) {
    rec.queued != 0 && rec.active == 0 && rec.ready && rec.error.None?
  }

  /** No survey misses a model whose joiners have been woken and have not run yet. */
  ghost predicate Sparing(cfg: Config, s: State, a: Action)
    requires Shape(cfg, s)
  {
    a.Surveyed? ==>
      forall id | id in s.loaded && Woken(s.recs[s.loaded[id]]) ::
        id in FoundIds(a.survey.found) || s.recs[s.loaded[id]].variant.backend in a.survey.unreachable
  }

  lemma LightServed(s: State, s': State, t: Tid)
    requires CountInv(s) && ServedInv(s) && Light(s, s') && CountMove(s, s', t)
    requires Seats(s, s', t)
    ensures ServedInv(s')
  {
    forall r | 0 <= r < |s'.recs|
      ensures ServedAt(s'.recs, s'.loaded, r)
    {
      assert ServedAt(s.recs, s.loaded, r) && CountsFollow(s, s', t, r) && Touch(s.recs[r], s'.recs[r]);
      if Serving(s'.recs[r]) && s'.reqs[t].pc != Joining(r) && s'.reqs[t].pc != Admitted(r) {
        StillServing(s, s', t, r);
      }
    }
  }

  /** A record that serves after a move it gained nothing from served before it. */
  lemma StillServing(s: State, s': State, t: Tid, r: Rid)
    requires CountInv(s) && r < |s.recs| && Light(s, s') && CountMove(s, s', t)
    requires s'.reqs[t].pc != Joining(r) && s'.reqs[t].pc != Admitted(r) && Serving(s'.recs[r])
    ensures Serving(s.recs[r])
  {
    assert Counted(s.reqs, s.recs[r], r) && CountsFollow(s, s', t, r) && Touch(s.recs[r], s'.recs[r]);
    if HoldsAt(s.reqs, t, Admitted(r)) { assert t in Those(s.reqs, Admitted(r)); }
    if HoldsAt(s.reqs, t, Joining(r)) { assert t in Those(s.reqs, Joining(r)); }
  }

  /** A request is seated only at a tracked record, or where it was waiting already. */
  predicate Seats(s: State, s': State, t: Tid) {
    t in s'.reqs
    && var pc := s'.reqs[t].pc;
    (pc.Joining? || pc.Admitted? ==>
       pc.rid < |s.recs| && (Tracked(s.recs, s.loaded, pc.rid) || Serving(s.recs[pc.rid])))
  }

  lemma JoinedSeats(cfg: Config, s: State, t: Tid)
    requires BaseInv(cfg, s) && t in s.reqs
    ensures PcShape(|s.recs|, s.reqs[t].pc)
    ensures s.reqs[t].pc.Joining? ==> Seats(s, DoJoinWake(s, t), t)
  {
    InUse(cfg, s, t);
  }

  lemma PlainSeats(cfg: Config, s: State, a: Action)
    requires BaseInv(cfg, s) && Enabled(cfg, s, a) && Plain(a)
    ensures Seats(s, Apply(cfg, s, a), a.t)
  {
    if !a.Arrive? {
      assert RequestShape(cfg, |s.recs|, s.reqs[a.t]);
    }
    if a.Look? {
      LookSeats(cfg, s, a.t);
    } else if a.JoinWake? {
      JoinedSeats(cfg, s, a.t);
    }
  }

  lemma LookSeats(cfg: Config, s: State, t: Tid)
    requires LoadedShape(s.recs, s.loaded) && t in s.reqs && s.reqs[t].name in cfg.catalogue
    ensures Seats(s, DoLook(cfg, s, t), t)
  {
    SettleLight(cfg, s, t, Blocked(EarlierRequest, None));
  }

  lemma PlainServed(cfg: Config, s: State, a: Action)
    requires BaseInv(cfg, s) && ServedInv(s) && Enabled(cfg, s, a) && Plain(a)
    ensures ServedInv(Apply(cfg, s, a))
  {
    PlainFacts(cfg, s, a);
    RequestCounts(cfg, s, a);
    PlainSeats(cfg, s, a);
    LightServed(s, Apply(cfg, s, a), a.t);
  }

  lemma CommitServed(cfg: Config, s: State, t: Tid, conflicts: seq<Rid>)
    requires Valid(cfg) && Shape(cfg, s) && ServedInv(s) && Placeable(cfg, s, t, conflicts)
    ensures ServedInv(Commit(cfg, s, t, conflicts))
  {
    var s' := Commit(cfg, s, t, conflicts);
    forall r | 0 <= r < |s'.recs|
      ensures ServedAt(s'.recs, s'.loaded, r)
    {
      CommitTracked(cfg, s, t, conflicts, r);
      if r < |s.recs| { assert ServedAt(s.recs, s.loaded, r); }
    }
  }

  lemma PlaceServed(cfg: Config, s: State, a: Action)
    requires Valid(cfg) && SafeInv(cfg, s) && ServedInv(s) && Enabled(cfg, s, a) && Honest(cfg, s, a)
    requires a.Observed? || a.TakePlaceLock?
    ensures ServedInv(Apply(cfg, s, a))
  {
    var s' := Apply(cfg, s, a);
    assert RequestShape(cfg, |s.recs|, s.reqs[a.t]);
    RequestCounts(cfg, s, a);
    if a.Observed? {
      ObservedCases(cfg, s, a.t, a.activity);
      if Light(s, s') {
        LightObservedPc(cfg, s, a.t, a.activity);
        LightServed(s, s', a.t);
      } else {
        ObservedCommitServed(cfg, s, a.t, a.activity);
      }
    } else {
      TakePlaceLockCases(cfg, s, a.t, a.conflicts);
      if Light(s, s') {
        TakePlaceLockSeats(cfg, s, a.t, a.conflicts);
        LightServed(s, s', a.t);
      } else {
        CommitServed(cfg, s, a.t, a.conflicts);
      }
    }
  }

  lemma TakePlaceLockSeats(cfg: Config, s: State, t: Tid, conflicts: seq<Rid>)
    requires t in s.reqs && s.reqs[t].name in cfg.catalogue && LoadedShape(s.recs, s.loaded)
    requires InRange(conflicts, |s.recs|) && Light(s, DoTakePlaceLock(cfg, s, t, conflicts))
    ensures Uncounted(DoTakePlaceLock(cfg, s, t, conflicts).reqs[t].pc)
  {
    SettleLight(cfg, s, t, Blocked(BeingUnloaded, None));
    SettleLight(cfg, s, t, Blocked(LoadedByAnother, Some(s.now)));
    if s.reqs[t].name !in s.loaded {
      AdvanceCases(cfg, s.(lock := Some(t)), t, conflicts, s.now, s.now, false, []);
    }
  }

  lemma SameServed(s: State, s': State)
    requires ServedInv(s) && SameCounts(s.recs, s'.recs) && ErrorsStay(s.recs, s'.recs)
    requires SameVariants(s.recs, s'.recs) && s'.loaded == s.loaded
    ensures ServedInv(s')
  {
    forall r | 0 <= r < |s'.recs|
      ensures ServedAt(s'.recs, s'.loaded, r)
    {
      assert ServedAt(s.recs, s.loaded, r);
    }
  }

  lemma NoticedServed(s: State, t: Tid, activity: Activity)
    requires ServedInv(s) && t in s.reqs && s.reqs[t].pc.Observing? && PcShape(|s.recs|, s.reqs[t].pc)
    ensures ServedInv(Noticed(s, t, activity))
  {
    SameServed(s, Noticed(s, t, activity));
  }

  lemma ObservedMayCommit(cfg: Config, s: State, t: Tid, activity: Option<Activity>)
    requires Valid(cfg) && SafeInv(cfg, s) && Enabled(cfg, s, Observed(t, activity))
    requires Honest(cfg, s, Observed(t, activity)) && activity.Some?
    requires PcShape(|s.recs|, s.reqs[t].pc) && |s.reqs[t].pc.seen| + 1 == |s.reqs[t].pc.conflicts|
    requires !JustWasUsed(Noticed(s, t, activity.value).recs, s.reqs[t].pc.conflicts)
    ensures var s0 := Noticed(s, t, activity.value); Shape(cfg, s0) && Placeable(cfg, s0, t, s.reqs[t].pc.conflicts)
  {
    ObservedPlaceable(cfg, s, t, activity);
  }

  lemma ObservedCommitServed(cfg: Config, s: State, t: Tid, activity: Option<Activity>)
    requires Valid(cfg) && SafeInv(cfg, s) && ServedInv(s) && Enabled(cfg, s, Observed(t, activity))
    requires Honest(cfg, s, Observed(t, activity)) && activity.Some?
    requires PcShape(|s.recs|, s.reqs[t].pc) && |s.reqs[t].pc.seen| + 1 == |s.reqs[t].pc.conflicts|
    requires !JustWasUsed(Noticed(s, t, activity.value).recs, s.reqs[t].pc.conflicts)
    ensures ServedInv(Commit(cfg, Noticed(s, t, activity.value), t, s.reqs[t].pc.conflicts))
  {
    ObservedMayCommit(cfg, s, t, activity);
    NoticedServed(s, t, activity.value);
    CommitServed(cfg, Noticed(s, t, activity.value), t, s.reqs[t].pc.conflicts);
  }

  predicate ErrorsStay(recs: seq<Record>, recs': seq<Record>) {
    |recs'| == |recs| && forall r | 0 <= r < |recs| && recs[r].error.Some? :: recs'[r].error.Some?
  }

  /** A task forgets only a record that serves nobody. */
  lemma TaskServed(s: State, s': State, k: Kid, d: Option<Rid>)
    requires LoadedShape(s.recs, s.loaded) && ServedInv(s) && TaskMoved(s, s', k) && Forgot(s, s', k, d)
    requires SameCounts(s.recs, s'.recs) && ErrorsStay(s.recs, s'.recs)
    requires d.Some? ==> !Serving(s'.recs[d.value])
    ensures ServedInv(s')
  {
    forall r | 0 <= r < |s'.recs|
      ensures ServedAt(s'.recs, s'.loaded, r)
    {
      assert ServedAt(s.recs, s.loaded, r);
      ForgotTracked(s, s', k, d, r);
    }
  }

  lemma StartSwapServed(cfg: Config, s: State, k: Kid)
    requires SafeInv(cfg, s) && ServedInv(s) && k < |s.tasks| && s.tasks[k].stage.Starting?
    ensures TaskShape(|s.recs|, s.tasks[k]) && ServedInv(DoStartSwap(s, k))
  {
    TaskFacts(cfg, s, k);
    StartSwapMoved(s, k);
    SwapCounts(s, k, "");
    TaskServed(s, DoStartSwap(s, k), k, None);
  }

  lemma UnloadedServed(cfg: Config, s: State, k: Kid)
    requires SafeInv(cfg, s) && ServedInv(s) && k < |s.tasks| && s.tasks[k].stage.Unloading?
    ensures TaskShape(|s.recs|, s.tasks[k]) && ServedInv(DoUnloaded(s, k))
  {
    UnloadedTracked(cfg, s, k);
    UnloadedWhole(s, k);
    UnloadedMoved(s, k);
    UnloadHasEffect(s, k);
    UnloadedCounts(s, k);
    UnloadEffectServed(cfg, s, DoUnloaded(s, k), k);
  }

  lemma UnloadEffectServed(cfg: Config, s: State, s': State, k: Kid)
    requires SafeInv(cfg, s) && ServedInv(s) && k < |s.tasks| && s.tasks[k].stage.Unloading?
    requires TaskShape(|s.recs|, s.tasks[k]) && TaskMoved(s, s', k) && UnloadEffect(s, s', k)
    requires SameCounts(s.recs, s'.recs) && s'.loaded == s.loaded - {Id(s, s.tasks[k].victims[s.tasks[k].next])}
    ensures ServedInv(s')
  {
    UnloadedTracked(cfg, s, k);
    var v := s.tasks[k].victims[s.tasks[k].next];
    assert UseOk(s.recs[v]);
    TaskServed(s, s', k, Some(v));
  }

  lemma UnloadFailedServed(cfg: Config, s: State, k: Kid, error: string)
    requires SafeInv(cfg, s) && ServedInv(s) && k < |s.tasks| && s.tasks[k].stage.Unloading?
    ensures TaskShape(|s.recs|, s.tasks[k]) && ServedInv(DoUnloadFailed(s, k, error))
  {
    UnloadedTracked(cfg, s, k);
    TaskFacts(cfg, s, k);
    GivenUpServed(s, k, error);
  }

  lemma GivenUpServed(s: State, k: Kid, error: string)
    requires LoadedShape(s.recs, s.loaded) && ServedInv(s) && k < |s.tasks| && TaskShape(|s.recs|, s.tasks[k])
    requires s.tasks[k].stage.Unloading? && Tracked(s.recs, s.loaded, s.tasks[k].model)
    requires !s.recs[s.tasks[k].model].ready && s.recs[s.tasks[k].model].loader == Some(k)
    ensures ServedInv(DoUnloadFailed(s, k, error))
  {
    UnloadFailedMoved(s, k, error);
    SwapCounts(s, k, error);
    TaskServed(s, DoUnloadFailed(s, k, error), k, Some(s.tasks[k].model));
  }

  lemma LoadErrors(s: State, k: Kid, failure: Option<string>, decode: Option<int>)
    requires k < |s.tasks| && TaskShape(|s.recs|, s.tasks[k])
    ensures s.recs[s.tasks[k].model].error.None? ==> ErrorsStay(s.recs, DoLoadReturned(s, k, failure).recs)
    ensures ErrorsStay(s.recs, DoBaselineRead(s, k, decode).recs)
  {
  }

  lemma LoadServed(cfg: Config, s: State, k: Kid, failure: Option<string>, decode: Option<int>)
    requires SafeInv(cfg, s) && ServedInv(s) && k < |s.tasks| && (s.tasks[k].stage.Loading? || s.tasks[k].stage.Baseline?)
    ensures TaskShape(|s.recs|, s.tasks[k])
    ensures s.tasks[k].stage.Loading? ==> ServedInv(DoLoadReturned(s, k, failure))
    ensures ServedInv(DoBaselineRead(s, k, decode))
  {
    TaskFacts(cfg, s, k);
    LoadCounts(s, k, failure, decode, false);
    LoadErrors(s, k, failure, decode);
    LoadReturnedMoved(s, k, failure);
    SameServed(s, DoLoadReturned(s, k, failure));
    BaselineServed(s, k, decode);
  }

  lemma BaselineServed(s: State, k: Kid, decode: Option<int>)
    requires ServedInv(s) && k < |s.tasks| && TaskShape(|s.recs|, s.tasks[k])
    ensures ServedInv(DoBaselineRead(s, k, decode))
  {
    LoadCounts(s, k, None, decode, false);
    LoadErrors(s, k, None, decode);
    ReadiedMoved(s, k, decode, false);
    SameServed(s, DoBaselineRead(s, k, decode));
  }

  lemma ConfirmedServed(cfg: Config, s: State, k: Kid, gone: bool)
    requires SafeInv(cfg, s) && ServedInv(s) && k < |s.tasks| && s.tasks[k].stage.Confirming?
    ensures TaskShape(|s.recs|, s.tasks[k]) && ServedInv(DoConfirmed(s, k, gone))
  {
    TaskFacts(cfg, s, k);
    LoadCounts(s, k, None, None, gone);
    ReadiedMoved(s, k, None, gone);
    ConfirmedHasEffect(s, k, gone);
    var m := s.tasks[k].model;
    ConfirmedError(s, k, gone);
    TaskServed(s, DoConfirmed(s, k, gone), k, if gone && Tracked(s.recs, s.loaded, m) then Some(m) else None);
  }

  lemma ConfirmedError(s: State, k: Kid, gone: bool)
    requires k < |s.tasks| && TaskShape(|s.recs|, s.tasks[k])
    ensures ErrorsStay(s.recs, DoConfirmed(s, k, gone).recs)
    ensures DoConfirmed(s, k, gone).recs[s.tasks[k].model].error == s.recs[s.tasks[k].model].error
  {
  }

  lemma TaskStepServed(cfg: Config, s: State, a: Action)
    requires SafeInv(cfg, s) && ServedInv(s) && Enabled(cfg, s, a) && ByTask(a)
    ensures ServedInv(Apply(cfg, s, a))
  {
    match a
    case StartSwap(k) => StartSwapServed(cfg, s, k);
    case Unloaded(k) => UnloadedServed(cfg, s, k);
    case UnloadFailed(k, error) => UnloadFailedServed(cfg, s, k, error);
    case LoadReturned(k, failure) => LoadServed(cfg, s, k, failure, None);
    case BaselineRead(k, decode) => LoadServed(cfg, s, k, None, decode);
    case Confirmed(k, gone) => ConfirmedServed(cfg, s, k, gone);
  }

  lemma SurveyedServed(cfg: Config, s: State, t: Tid, survey: Survey)
    requires Valid(cfg) && SafeInv(cfg, s) && ServedInv(s) && Enabled(cfg, s, Surveyed(t, survey))
    requires Sparing(cfg, s, Surveyed(t, survey))
    ensures ServedInv(DoSurveyed(cfg, s, t, survey))
  {
    var s' := DoSurveyed(cfg, s, t, survey);
    SurveyedIsMerge(cfg, s, t, survey);
    forall r | 0 <= r < |s'.recs|
      ensures ServedAt(s'.recs, s'.loaded, r)
    {
      if r < |s.recs| && Serving(s.recs[r]) {
        assert ServedAt(s.recs, s.loaded, r) && UseOk(s.recs[r]);
        MergeKeeps(cfg, s, survey, r);
      }
    }
  }

  lemma TrackOneServed(s: State, r: Rid, decode: Option<int>)
    requires ServedInv(s) && r < |s.recs|
    ensures ServedInv(TrackOne(s, r, decode))
  {
    var s' := TrackOne(s, r, decode);
    forall q | 0 <= q < |s'.recs|
      ensures ServedAt(s'.recs, s'.loaded, q)
    {
      assert ServedAt(s.recs, s.loaded, q);
    }
  }

  lemma TrackServed(cfg: Config, s: State, a: Action)
    requires SafeInv(cfg, s) && ServedInv(s) && Enabled(cfg, s, a) && (a.TrackNext? || a.StartupTrack?)
    ensures ServedInv(Apply(cfg, s, a))
  {
    if a.TrackNext? {
      assert RequestShape(cfg, |s.recs|, s.reqs[a.t]);
      TrackOneServed(s, s.reqs[a.t].pc.todo[0], a.decode);
    } else {
      TrackOneServed(s, s.startup[0], a.decode);
    }
  }

  lemma StepKeepsServed(cfg: Config, s: State, a: Action)
    requires Valid(cfg) && SafeInv(cfg, s) && ServedInv(s) && Enabled(cfg, s, a)
    requires Honest(cfg, s, a) && Sparing(cfg, s, a)
    ensures ServedInv(Apply(cfg, s, a))
  {
    if Plain(a) {
      PlainServed(cfg, s, a);
    } else if ByTask(a) {
      TaskStepServed(cfg, s, a);
    } else if a.Observed? || a.TakePlaceLock? {
      PlaceServed(cfg, s, a);
    } else if a.Surveyed? {
      SurveyedServed(cfg, s, a.t, a.survey);
    } else if a.TrackNext? || a.StartupTrack? {
      TrackServed(cfg, s, a);
    } else {
      assert Apply(cfg, s, a).recs == s.recs && Apply(cfg, s, a).loaded == s.loaded;
    }
  }

  /** While a model's unload is in flight, no request is admitted to any record of that model. */
  lemma UnloadInterruptsNobody(cfg: Config, s: State, k: Kid, t: Tid)
    requires SafeInv(cfg, s) && ServedInv(s) && k < |s.tasks| && s.tasks[k].stage.Unloading?
    requires t in s.reqs && s.reqs[t].pc.Admitted?
    ensures TaskShape(|s.recs|, s.tasks[k]) && PcShape(|s.recs|, s.reqs[t].pc)
    ensures Id(s, s.reqs[t].pc.rid) != Id(s, s.tasks[k].victims[s.tasks[k].next])
  {
    UnloadedTracked(cfg, s, k);
    InUse(cfg, s, t);
    ServedElsewhere(s, s.reqs[t].pc.rid, s.tasks[k].victims[s.tasks[k].next]);
  }

  lemma ServedElsewhere(s: State, r: Rid, v: Rid)
    requires ServedInv(s) && r < |s.recs| && s.recs[r].active >= 1 && s.recs[r].error.None? && !s.recs[r].leaving
    requires Tracked(s.recs, s.loaded, v) && s.recs[v].leaving
    ensures Id(s, r) != Id(s, v)
  {
    assert ServedAt(s.recs, s.loaded, r);
  }
}
