/**
 Conservation over all runs, cancellations included and whatever the surveys report: a
 record's counts are exactly the requests admitted to it and waiting for it.
 */
module Counts {
  import opened Wrappers
  import opened Machine
  import opened Line
  import opened LineSteps
  import opened Frames
  import opened Shapes

  /** The requests suspended at a program counter. */
  function Those(reqs: map<Tid, Request>, pc: Pc): set<Tid> {
    set t | t in reqs && reqs[t].pc == pc
  }

  function Bit(b: bool): int {
    if b then 1 else 0
  }

  predicate HoldsAt(reqs: map<Tid, Request>, t: Tid, pc: Pc) {
    t in reqs && reqs[t].pc == pc
  }

  /** `active` counts the admissions not yet exited, `queued` the suspended joiners. */
  ghost predicate CountInv(s: State) {
    forall r | 0 <= r < |s.recs| :: Counted(s.reqs, s.recs[r], r)
  }

  ghost predicate Counted(reqs: map<Tid, Request>, rec: Record, r: Rid) {
    && rec.active == |Those(reqs, Admitted(r))|
    && rec.queued == |Those(reqs, Joining(r))|
  }

  lemma MovedThose(reqs: map<Tid, Request>, t: Tid, q: Request, pc: Pc)
    ensures |Those(reqs[t := q], pc)| == |Those(reqs, pc)| + Bit(q.pc == pc) - Bit(HoldsAt(reqs, t, pc))
  {
    var before, after := Those(reqs, pc), Those(reqs[t := q], pc);
    assert after == (before - {t}) + if q.pc == pc then {t} else {};
  }

  /** The counts of a record move with the one request that moved. */
  predicate Recounted(before: int, after: int, was: bool, isNow: bool) {
    after == before + Bit(isNow) - Bit(was)
  }

  ghost predicate CountMove(s: State, s': State, t: Tid) {
    && OnlyMoved(s, s', t)
    && |s.recs| <= |s'.recs|
    && (forall r | 0 <= r < |s'.recs| :: CountsFollow(s, s', t, r))
  }

  predicate CountsFollow(s: State, s': State, t: Tid, r: Rid)
    requires r < |s'.recs| && t in s'.reqs
  {
    var active, queued := if r < |s.recs| then s.recs[r].active else 0, if r < |s.recs| then s.recs[r].queued else 0;
    && Recounted(active, s'.recs[r].active, HoldsAt(s.reqs, t, Admitted(r)), s'.reqs[t].pc == Admitted(r))
    && Recounted(queued, s'.recs[r].queued, HoldsAt(s.reqs, t, Joining(r)), s'.reqs[t].pc == Joining(r))
  }

  lemma NoneYet(cfg: Config, s: State, r: Rid)
    requires Shape(cfg, s) && r >= |s.recs|
    ensures Those(s.reqs, Admitted(r)) == {} && Those(s.reqs, Joining(r)) == {}
  {
    forall t | t in s.reqs
      ensures s.reqs[t].pc != Admitted(r) && s.reqs[t].pc != Joining(r)
    {
      assert RequestShape(cfg, |s.recs|, s.reqs[t]);
    }
  }

  lemma CountKept(cfg: Config, s: State, s': State, t: Tid)
    requires Shape(cfg, s) && CountInv(s) && CountMove(s, s', t)
    ensures CountInv(s')
  {
    forall r | 0 <= r < |s'.recs|
      ensures Counted(s'.reqs, s'.recs[r], r)
    {
      assert CountsFollow(s, s', t, r);
      MovedThose(s.reqs, t, s'.reqs[t], Admitted(r));
      MovedThose(s.reqs, t, s'.reqs[t], Joining(r));
      if r < |s.recs| {
        assert Counted(s.reqs, s.recs[r], r);
      } else {
        NoneYet(cfg, s, r);
      }
    }
  }

  /** No request moved and no count changed. */
  lemma CountSame(s: State, s': State)
    requires CountInv(s) && s'.reqs == s.reqs && |s'.recs| == |s.recs|
    requires forall r | 0 <= r < |s.recs| :: s'.recs[r].active == s.recs[r].active && s'.recs[r].queued == s.recs[r].queued
    ensures CountInv(s')
  {
    forall r | 0 <= r < |s'.recs|
      ensures Counted(s'.reqs, s'.recs[r], r)
    {
      assert Counted(s.reqs, s.recs[r], r);
    }
  }

  predicate Uncounted(pc: Pc) {
    !pc.Admitted? && !pc.Joining?
  }

  lemma QuietCounts(s: State, s': State, t: Tid)
    requires OnlyMoved(s, s', t) && |s.recs| <= |s'.recs|
    requires t in s.reqs ==> Uncounted(s.reqs[t].pc)
    requires Uncounted(s'.reqs[t].pc)
    requires forall r | 0 <= r < |s.recs| :: s'.recs[r].active == s.recs[r].active && s'.recs[r].queued == s.recs[r].queued
    requires forall r | |s.recs| <= r < |s'.recs| :: s'.recs[r].active == 0 && s'.recs[r].queued == 0
    ensures CountMove(s, s', t)
  {
  }

  lemma SettleCounts(cfg: Config, s: State, s0: State, t: Tid, blocked: Blocked)
    requires t in s.reqs && s0.reqs == s.reqs && Uncounted(s.reqs[t].pc) && |s0.recs| == |s.recs|
    requires forall r | 0 <= r < |s.recs| :: s0.recs[r].active == s.recs[r].active && s0.recs[r].queued == s.recs[r].queued
    ensures CountMove(s, Settle(cfg, s0, t, blocked), t)
  {
    SettleLight(cfg, s0, t, blocked);
    QuietCounts(s, Settle(cfg, s0, t, blocked), t);
  }

  lemma JoinCounts(s: State, s0: State, t: Tid, r: Rid)
    requires t in s.reqs && s0.reqs == s.reqs && s0.recs == s.recs && r < |s.recs| && Uncounted(s.reqs[t].pc)
    ensures CountMove(s, Join(s0, t, r), t)
  {
  }

  lemma CommitCounts(cfg: Config, s: State, t: Tid, conflicts: seq<Rid>)
    requires t in s.reqs && s.reqs[t].name in cfg.catalogue && Uncounted(s.reqs[t].pc)
    ensures CountMove(s, Commit(cfg, s, t, conflicts), t)
  {
  }

  lemma AdvanceCounts(cfg: Config, s: State, s0: State, t: Tid, conflicts: seq<Rid>, began: real, until: real,
                      recent: bool, seen: seq<Sighting>)
    requires t in s.reqs && s.reqs[t].name in cfg.catalogue && InRange(conflicts, |s0.recs|)
    requires s0.reqs == s.reqs && Uncounted(s.reqs[t].pc) && |s0.recs| == |s.recs|
    requires forall r | 0 <= r < |s.recs| :: s0.recs[r].active == s.recs[r].active && s0.recs[r].queued == s.recs[r].queued
    ensures CountMove(s, Advance(cfg, s0, t, conflicts, began, until, recent, seen), t)
  {
    AdvanceCases(cfg, s0, t, conflicts, began, until, recent, seen);
    if Decided(s0, conflicts, seen, recent) {
      CommitCounts(cfg, s0, t, conflicts);
    } else {
      QuietCounts(s, Advance(cfg, s0, t, conflicts, began, until, recent, seen), t);
    }
  }

  lemma ObservedCounts(cfg: Config, s: State, t: Tid, activity: Option<Activity>)
    requires t in s.reqs && s.reqs[t].pc.Observing? && RequestShape(cfg, |s.recs|, s.reqs[t])
    ensures CountMove(s, DoObserved(cfg, s, t, activity), t)
  {
    var pc := s.reqs[t].pc;
    if activity.None? {
      SettleCounts(cfg, s, Unlock(s), t, Blocked(Unobservable, None));
    } else {
      var s0 := Noticed(s, t, activity.value);
      if activity.value.processing || activity.value.deferred != 0 {
        SettleCounts(cfg, s, Unlock(s0), t, Blocked(ServerBusy, None));
      } else {
        var c := pc.conflicts[|pc.seen|];
        var seen := pc.seen + [Sighting(pc.glance, s.recs[c], activity.value, s.now)];
        var until := s0.recs[c].lastActivity + cfg.protect;
        if until > pc.until {
          AdvanceCounts(cfg, s, s0, t, pc.conflicts, pc.began, until, true, seen);
        } else {
          AdvanceCounts(cfg, s, s0, t, pc.conflicts, pc.began, pc.until, pc.recent, seen);
        }
      }
    }
  }

  lemma PlaceCounts(cfg: Config, s: State, t: Tid, conflicts: seq<Rid>)
    requires t in s.reqs && RequestShape(cfg, |s.recs|, s.reqs[t]) && LoadedShape(s.recs, s.loaded)
    requires InRange(conflicts, |s.recs|)
    ensures s.reqs[t].pc.Looking? ==> CountMove(s, DoLook(cfg, s, t), t)
    ensures s.reqs[t].pc.Queueing? ==> CountMove(s, DoTakePlaceLock(cfg, s, t, conflicts), t)
  {
    var name := s.reqs[t].name;
    if s.reqs[t].pc.Looking? {
      if name in s.loaded && !s.recs[s.loaded[name]].leaving {
        JoinCounts(s, s.(waiting := Remove(s.waiting, t)), t, s.loaded[name]);
      } else {
        SettleCounts(cfg, s, s, t, Blocked(EarlierRequest, None));
        QuietCounts(s, DoLook(cfg, s, t), t);
      }
    } else if s.reqs[t].pc.Queueing? {
      SettleCounts(cfg, s, s, t, Blocked(BeingUnloaded, None));
      SettleCounts(cfg, s, s, t, Blocked(LoadedByAnother, Some(s.now)));
      AdvanceCounts(cfg, s, s.(lock := Some(t)), t, conflicts, s.now, s.now, false, []);
    }
  }

  lemma JoinWakeCounts(s: State, t: Tid)
    requires t in s.reqs && PcShape(|s.recs|, s.reqs[t].pc) && s.reqs[t].pc.Joining?
    ensures CountMove(s, DoJoinWake(s, t), t)
  {
  }

  lemma ReleaseCounts(s: State, t: Tid)
    requires t in s.reqs && PcShape(|s.recs|, s.reqs[t].pc) && s.reqs[t].pc.Admitted?
    ensures CountMove(s, DoRelease(s, t), t)
  {
  }

  lemma CancelCounts(s: State, t: Tid)
    requires t in s.reqs && PcShape(|s.recs|, s.reqs[t].pc) && !s.reqs[t].pc.Admitted?
    ensures CountMove(s, DoCancel(s, t), t)
  {
  }

  lemma SurveyedCounts(cfg: Config, s: State, t: Tid, survey: Survey)
    requires LoadedShape(s.recs, s.loaded) && t in s.reqs && s.reqs[t].pc.Surveying?
    requires FoundIds(survey.found) <= cfg.catalogue.Keys
    ensures CountMove(s, DoSurveyed(cfg, s, t, survey), t)
  {
    SurveyedAdds(cfg, s, t, survey);
    QuietCounts(s, DoSurveyed(cfg, s, t, survey), t);
  }

  /** Re-inspection adds records that nobody uses yet. */
  lemma SurveyedAdds(cfg: Config, s: State, t: Tid, survey: Survey)
    requires LoadedShape(s.recs, s.loaded) && t in s.reqs && s.reqs[t].pc.Surveying?
    requires FoundIds(survey.found) <= cfg.catalogue.Keys
    ensures var s' := DoSurveyed(cfg, s, t, survey);
            && OnlyMoved(s, s', t) && |s.recs| <= |s'.recs| && (forall r | 0 <= r < |s.recs| :: s'.recs[r] == s.recs[r])
            && (forall r | |s.recs| <= r < |s'.recs| :: s'.recs[r].active == 0 && s'.recs[r].queued == 0)
  {
    var anew := Renewed(s.recs, s.loaded, survey.found);
    assert forall a | a in anew :: a.id in FoundIds(survey.found);
  }

  lemma TrackCounts(s: State, t: Tid, decode: Option<int>)
    requires t in s.reqs && PcShape(|s.recs|, s.reqs[t].pc) && s.reqs[t].pc.Tracking? && s.reqs[t].pc.todo != []
    ensures CountMove(s, DoTrackNext(s, t, decode), t)
  {
    QuietCounts(s, DoTrackNext(s, t, decode), t);
  }

  lemma ShortCounts(cfg: Config, s: State, a: Action)
    requires Shape(cfg, s) && Enabled(cfg, s, a)
    requires a.Arrive? || a.TakeCheckLock? || a.TrackDone? || a.Wake?
    ensures CountMove(s, Apply(cfg, s, a), a.t)
  {
    if !a.Arrive? {
      assert RequestShape(cfg, |s.recs|, s.reqs[a.t]);
    }
    QuietCounts(s, Apply(cfg, s, a), a.t);
  }

  /** A record's counts survive what tasks do to it. */
  predicate SameCounts(recs: seq<Record>, recs': seq<Record>) {
    |recs'| == |recs|
    && forall r | 0 <= r < |recs| :: recs'[r].active == recs[r].active && recs'[r].queued == recs[r].queued
  }

  lemma SwapCounts(s: State, k: Kid, error: string)
    requires k < |s.tasks| && TaskShape(|s.recs|, s.tasks[k])
    ensures SameCounts(s.recs, DoStartSwap(s, k).recs)
    ensures SameCounts(s.recs, DoUnloadFailed(s, k, error).recs)
  {
  }

  lemma UnloadedCounts(s: State, k: Kid)
    requires k < |s.tasks| && TaskShape(|s.recs|, s.tasks[k]) && s.tasks[k].stage.Unloading?
    ensures SameCounts(s.recs, DoUnloaded(s, k).recs)
  {
  }

  lemma LoadCounts(s: State, k: Kid, failure: Option<string>, decode: Option<int>, gone: bool)
    requires k < |s.tasks| && TaskShape(|s.recs|, s.tasks[k])
    ensures SameCounts(s.recs, DoLoadReturned(s, k, failure).recs)
    ensures SameCounts(s.recs, DoBaselineRead(s, k, decode).recs)
    ensures SameCounts(s.recs, DoConfirmed(s, k, gone).recs)
  {
  }

  lemma RequestCounts(cfg: Config, s: State, a: Action)
    requires Shape(cfg, s) && Enabled(cfg, s, a) && ByRequest(a)
    ensures CountMove(s, Apply(cfg, s, a), a.t)
  {
    if !a.Arrive? {
      assert RequestShape(cfg, |s.recs|, s.reqs[a.t]);
    }
    match a
    case Look(t) => PlaceCounts(cfg, s, t, []);
    case TakePlaceLock(t, conflicts) => PlaceCounts(cfg, s, t, conflicts);
    case Observed(t, activity) => ObservedCounts(cfg, s, t, activity);
    case Surveyed(t, survey) => SurveyedCounts(cfg, s, t, survey);
    case TrackNext(t, decode) => TrackCounts(s, t, decode);
    case JoinWake(t) => JoinWakeCounts(s, t);
    case Release(t) => ReleaseCounts(s, t);
    case Cancel(t) => CancelCounts(s, t);
    case Arrive(_, _) => ShortCounts(cfg, s, a);
    case TakeCheckLock(_) => ShortCounts(cfg, s, a);
    case TrackDone(_) => ShortCounts(cfg, s, a);
    case Wake(_) => ShortCounts(cfg, s, a);
  }

  lemma OtherCounts(cfg: Config, s: State, a: Action)
    requires Shape(cfg, s) && Enabled(cfg, s, a) && !ByRequest(a)
    ensures SameCounts(s.recs, Apply(cfg, s, a).recs)
  {
    if ByTask(a) {
      assert TaskShape(|s.recs|, s.tasks[a.k]);
      match a
      case StartSwap(k) => SwapCounts(s, k, "");
      case Unloaded(k) => UnloadedCounts(s, k);
      case UnloadFailed(k, error) => SwapCounts(s, k, error);
      case LoadReturned(k, failure) => LoadCounts(s, k, failure, None, false);
      case BaselineRead(k, decode) => LoadCounts(s, k, None, decode, false);
      case Confirmed(k, gone) => LoadCounts(s, k, None, None, gone);
    }
  }

  lemma StepKeepsCounts(cfg: Config, s: State, a: Action)
    requires Shape(cfg, s) && Enabled(cfg, s, a) && CountInv(s)
    ensures CountInv(Apply(cfg, s, a))
  {
    if ByRequest(a) {
      RequestCounts(cfg, s, a);
      CountKept(cfg, s, Apply(cfg, s, a), a.t);
    } else {
      OthersKeepLine(cfg, s, a);
      OtherCounts(cfg, s, a);
      CountSame(s, Apply(cfg, s, a));
    }
  }
}
