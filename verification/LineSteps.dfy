/** Every step keeps the lock and the line in order. */
module LineSteps {
  import opened Wrappers
  import opened Machine
  import opened Line

  lemma SettleMove(cfg: Config, s: State, s0: State, t: Tid, blocked: Blocked)
    requires HadTicket(s, t) && s0.reqs == s.reqs && s0.waiting == s.waiting
    requires s0.lock == if s.lock == Some(t) then None else s.lock
    ensures LineMove(cfg, s, Settle(cfg, s0, t, blocked), t)
  {
  }

  lemma JoinMove(cfg: Config, s: State, s0: State, t: Tid, r: Rid)
    requires t in s.reqs && s0.reqs == s.reqs && r < |s0.recs|
    requires s0.waiting == Remove(s.waiting, t) && s0.lock == s.lock && s.lock != Some(t)
    ensures LineMove(cfg, s, Join(s0, t, r), t)
    ensures LineMove(cfg, s, JoinReady(s0, t, r), t)
  {
  }

  lemma AdvanceMove(cfg: Config, s: State, s0: State, t: Tid, conflicts: seq<Rid>, began: real, until: real,
                    recent: bool, seen: seq<Sighting>)
    requires HadTicket(s, t) && s0.reqs == s.reqs && s0.waiting == s.waiting && Placing(s.reqs[t].pc)
    requires s.reqs[t].name in cfg.catalogue && InRange(conflicts, |s0.recs|)
    requires s.lock == None || s.lock == Some(t)
    requires s0.lock == Some(t)
    ensures LineMove(cfg, s, Advance(cfg, s0, t, conflicts, began, until, recent, seen), t)
  {
    if |seen| < |conflicts| {
      var rec := s0.recs[conflicts[|seen|]];
      if rec.leaving {
        SettleMove(cfg, s, Unlock(s0), t, Blocked(BeingUnloaded, None));
      } else if rec.active != 0 || rec.queued != 0 || !rec.ready {
        SettleMove(cfg, s, Unlock(s0), t, Blocked(Working, None));
      }
    } else if recent {
      SettleMove(cfg, s, Unlock(s0), t, Blocked(RecentlyUsed, Some(until)));
    } else if JustWasUsed(s0.recs, conflicts) {
      SettleMove(cfg, s, Unlock(s0), t, Blocked(JustUsed, Some(s0.now)));
    }
  }

  lemma LookMove(cfg: Config, s: State, t: Tid)
    requires Shape(cfg, s) && LineInv(cfg, s) && t in s.reqs && s.reqs[t].pc.Looking?
    ensures LineMove(cfg, s, DoLook(cfg, s, t), t)
  {
    assert RequestShape(cfg, |s.recs|, s.reqs[t]);
    var name := s.reqs[t].name;
    assert s.lock != Some(t);
    if name in s.loaded && !s.recs[s.loaded[name]].leaving {
      JoinMove(cfg, s, s.(waiting := Remove(s.waiting, t)), t, s.loaded[name]);
    } else if RivalAhead(s.waiting, t, cfg.catalogue[name]) {
      SettleMove(cfg, s, s, t, Blocked(EarlierRequest, None));
    }
  }

  lemma TakePlaceLockMove(cfg: Config, s: State, t: Tid, conflicts: seq<Rid>)
    requires Shape(cfg, s) && LineInv(cfg, s) && t in s.reqs && s.reqs[t].pc.Queueing? && s.lock.None?
    requires InRange(conflicts, |s.recs|)
    ensures LineMove(cfg, s, DoTakePlaceLock(cfg, s, t, conflicts), t)
  {
    assert RequestShape(cfg, |s.recs|, s.reqs[t]);
    var name := s.reqs[t].name;
    if name in s.loaded {
      if s.recs[s.loaded[name]].leaving {
        SettleMove(cfg, s, s, t, Blocked(BeingUnloaded, None));
      } else {
        SettleMove(cfg, s, s, t, Blocked(LoadedByAnother, Some(s.now)));
      }
    } else {
      AdvanceMove(cfg, s, s.(lock := Some(t)), t, conflicts, s.now, s.now, false, []);
    }
  }

  lemma ObservedMove(cfg: Config, s: State, t: Tid, activity: Option<Activity>)
    requires Shape(cfg, s) && LineInv(cfg, s) && t in s.reqs && s.reqs[t].pc.Observing?
    ensures RequestShape(cfg, |s.recs|, s.reqs[t])
    ensures LineMove(cfg, s, DoObserved(cfg, s, t, activity), t)
  {
    assert RequestShape(cfg, |s.recs|, s.reqs[t]);
    assert s.lock == Some(t) && HadTicket(s, t);
    ObserverMove(cfg, s, t, activity);
  }

  lemma ObserverMove(cfg: Config, s: State, t: Tid, activity: Option<Activity>)
    requires HadTicket(s, t) && s.lock == Some(t) && s.reqs[t].pc.Observing? && RequestShape(cfg, |s.recs|, s.reqs[t])
    ensures LineMove(cfg, s, DoObserved(cfg, s, t, activity), t)
  {
    var pc := s.reqs[t].pc;
    if activity.None? {
      SettleMove(cfg, s, Unlock(s), t, Blocked(Unobservable, None));
    } else {
      var c := pc.conflicts[|pc.seen|];
      var rec := Noted(s.recs[c], activity.value, s.now);
      var s0 := SetRec(s, c, rec);
      if activity.value.processing || activity.value.deferred != 0 {
        SettleMove(cfg, s, Unlock(s0), t, Blocked(ServerBusy, None));
      } else {
        var seen := pc.seen + [Sighting(pc.glance, s.recs[c], activity.value, s.now)];
        var until := rec.lastActivity + cfg.protect;
        AdvanceMove(cfg, s, s0, t, pc.conflicts, pc.began, until, true, seen);
        AdvanceMove(cfg, s, s0, t, pc.conflicts, pc.began, pc.until, pc.recent, seen);
      }
    }
  }

  lemma ShortMove(cfg: Config, s: State, a: Action)
    requires Shape(cfg, s) && LineInv(cfg, s) && Enabled(cfg, s, a)
    requires a.Arrive? || a.TakeCheckLock? || a.TrackDone? || a.Wake?
    ensures LineMove(cfg, s, Apply(cfg, s, a), a.t)
  {
    if a.Arrive? {
      ArriveMove(cfg, s, a.t, a.name);
    } else {
      assert RequestShape(cfg, |s.recs|, s.reqs[a.t]);
      CheckMove(cfg, s, a.t);
    }
  }

  lemma ArriveMove(cfg: Config, s: State, t: Tid, name: string)
    requires TicketInv(cfg, s) && LockInv(s) && t !in s.reqs
    ensures LineMove(cfg, s, DoArrive(cfg, s, t, name), t)
  {
    NoTicket(cfg, s, t);
  }

  lemma CheckMove(cfg: Config, s: State, t: Tid)
    requires TicketInv(cfg, s) && LockInv(s) && t in s.reqs && (Active(s.reqs[t].pc) ==> s.reqs[t].name in cfg.catalogue)
    ensures s.reqs[t].pc.Checking? && s.lock.None? ==> LineMove(cfg, s, DoTakeCheckLock(cfg, s, t), t)
    ensures s.reqs[t].pc.Tracking? ==> LineMove(cfg, s, DoTrackDone(cfg, s, t), t)
    ensures s.reqs[t].pc.Sleeping? ==> LineMove(cfg, s, SetPc(s, t, Looking), t)
  {
    NoTicket(cfg, s, t);
  }

  lemma TrackNextMove(cfg: Config, s: State, t: Tid, decode: Option<int>)
    requires Shape(cfg, s) && LineInv(cfg, s) && t in s.reqs && s.reqs[t].pc.Tracking? && s.reqs[t].pc.todo != []
    ensures PcShape(|s.recs|, s.reqs[t].pc)
    ensures LineMove(cfg, s, DoTrackNext(s, t, decode), t)
  {
    assert RequestShape(cfg, |s.recs|, s.reqs[t]);
    NoTicket(cfg, s, t);
  }

  lemma AdmittedMove(cfg: Config, s: State, t: Tid)
    requires Shape(cfg, s) && LineInv(cfg, s) && t in s.reqs && (s.reqs[t].pc.Joining? || s.reqs[t].pc.Admitted?)
    ensures PcShape(|s.recs|, s.reqs[t].pc)
    ensures s.reqs[t].pc.Joining? ==> LineMove(cfg, s, DoJoinWake(s, t), t)
    ensures s.reqs[t].pc.Admitted? ==> LineMove(cfg, s, DoRelease(s, t), t)
  {
    assert RequestShape(cfg, |s.recs|, s.reqs[t]);
    NoTicket(cfg, s, t);
    if s.reqs[t].pc.Joining? {
      var r := s.reqs[t].pc.rid;
      JoinMove(cfg, s, SetRec(s, r, s.recs[r].(queued := s.recs[r].queued - 1)), t, r);
    }
  }

  lemma CancelMove(cfg: Config, s: State, t: Tid)
    requires Shape(cfg, s) && LineInv(cfg, s) && t in s.reqs && !s.reqs[t].pc.Tracking?
    ensures PcShape(|s.recs|, s.reqs[t].pc)
    ensures LineMove(cfg, s, DoCancel(s, t), t)
  {
    assert RequestShape(cfg, |s.recs|, s.reqs[t]);
  }

  lemma SurveyedMove(cfg: Config, s: State, t: Tid, survey: Survey)
    requires Shape(cfg, s) && LineInv(cfg, s) && t in s.reqs && s.reqs[t].pc.Surveying?
    requires FoundIds(survey.found) <= cfg.catalogue.Keys
    ensures LineMove(cfg, s, DoSurveyed(cfg, s, t, survey), t)
  {
    NoTicket(cfg, s, t);
  }

  /** Removing the ticket of a request without one changes nothing. */
  lemma NoTicket(cfg: Config, s: State, t: Tid)
    requires TicketInv(cfg, s)
    ensures !HadTicket(s, t) ==> Remove(s.waiting, t) == s.waiting
  {
    var p := Place(s.waiting, t);
    if p < |s.waiting| {
      assert TicketOf(cfg, s.reqs, s.waiting[p]);
    }
  }

  predicate ByRequest(a: Action) {
    a.Arrive? || a.TakeCheckLock? || a.Surveyed? || a.TrackNext? || a.TrackDone? || a.Look? || a.TakePlaceLock?
    || a.Observed? || a.Wake? || a.JoinWake? || a.Release? || a.Cancel?
  }

  lemma RequestMove(cfg: Config, s: State, a: Action)
    requires Shape(cfg, s) && LineInv(cfg, s) && Enabled(cfg, s, a) && ByRequest(a)
    ensures LineMove(cfg, s, Apply(cfg, s, a), a.t)
  {
    match a
    case Look(t) => LookMove(cfg, s, t);
    case TakePlaceLock(t, conflicts) => TakePlaceLockMove(cfg, s, t, conflicts);
    case Observed(t, activity) => ObservedMove(cfg, s, t, activity);
    case Arrive(_, _) => ShortMove(cfg, s, a);
    case TakeCheckLock(_) => ShortMove(cfg, s, a);
    case TrackDone(_) => ShortMove(cfg, s, a);
    case Wake(_) => ShortMove(cfg, s, a);
    case Surveyed(t, survey) => SurveyedMove(cfg, s, t, survey);
    case TrackNext(t, decode) => TrackNextMove(cfg, s, t, decode);
    case JoinWake(t) => AdmittedMove(cfg, s, t);
    case Release(t) => AdmittedMove(cfg, s, t);
    case Cancel(t) => CancelMove(cfg, s, t);
  }

  /** Tasks and servers do not touch requests, the line or the lock. */
  lemma OthersKeepLine(cfg: Config, s: State, a: Action)
    requires Shape(cfg, s) && Enabled(cfg, s, a) && !ByRequest(a)
    ensures var s' := Apply(cfg, s, a);
            s'.reqs == s.reqs && s'.waiting == s.waiting && s'.lock == s.lock
  {
    if a.StartSwap? || a.Unloaded? || a.UnloadFailed? || a.LoadReturned? || a.BaselineRead? || a.Confirmed? {
      assert TaskShape(|s.recs|, s.tasks[a.k]);
      SwapKeepsLine(s, a.k, if a.UnloadFailed? then a.error else "");
      LoadKeepsLine(s, a.k, if a.LoadReturned? then a.failure else None, if a.BaselineRead? then a.decode else None,
                    a.Confirmed? && a.gone);
    }
  }

  lemma SwapKeepsLine(s: State, k: Kid, error: string)
    requires k < |s.tasks| && TaskShape(|s.recs|, s.tasks[k])
    ensures SameLine(s, DoStartSwap(s, k)) && SameLine(s, DoUnloadFailed(s, k, error))
    ensures s.tasks[k].stage.Unloading? ==> SameLine(s, DoUnloaded(s, k))
  {
  }

  lemma LoadKeepsLine(s: State, k: Kid, failure: Option<string>, decode: Option<int>, gone: bool)
    requires k < |s.tasks| && TaskShape(|s.recs|, s.tasks[k])
    ensures SameLine(s, DoLoadReturned(s, k, failure)) && SameLine(s, DoBaselineRead(s, k, decode))
    ensures SameLine(s, DoConfirmed(s, k, gone))
  {
  }

  predicate SameLine(s: State, s': State) {
    s'.reqs == s.reqs && s'.waiting == s.waiting && s'.lock == s.lock
  }

  /** Arrival order, the lock and the tickets are kept by every step, whatever surveys report. */
  lemma StepKeepsLine(cfg: Config, s: State, a: Action)
    requires Shape(cfg, s) && Enabled(cfg, s, a) && LineInv(cfg, s)
    ensures LineInv(cfg, Apply(cfg, s, a))
  {
    if ByRequest(a) {
      RequestMove(cfg, s, a);
      LineKept(cfg, s, Apply(cfg, s, a), a.t);
    } else {
      OthersKeepLine(cfg, s, a);
    }
  }
}
