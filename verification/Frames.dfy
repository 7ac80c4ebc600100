/** What each step leaves alone, and the shape of states. */
module Frames {
  import opened Wrappers
  import opened Machine
  import opened Line

  /** Only the use of the record changed: its counts, decode count and last activity. */
  predicate Touch(a: Record, b: Record) {
    b == a.(active := b.active, queued := b.queued, decode := b.decode, lastActivity := b.lastActivity)
  }

  predicate Touched(recs: seq<Record>, recs': seq<Record>) {
    |recs'| == |recs| && forall r | 0 <= r < |recs| :: Touch(recs[r], recs'[r])
  }

  /** A step that decides nothing: no record, task or model comes or goes. */
  predicate Light(s: State, s': State) {
    && Touched(s.recs, s'.recs)
    && s'.loaded == s.loaded && s'.tasks == s.tasks && s'.startup == s.startup
    && s'.may == s.may && s'.held == s.held
  }

  lemma SettleLight(cfg: Config, s: State, t: Tid, blocked: Blocked)
    requires t in s.reqs
    ensures var s' := Settle(cfg, s, t, blocked);
            s'.recs == s.recs && Light(s, s') && s'.lock == s.lock && s'.fit == s.fit
    ensures OnlyMoved(s, Settle(cfg, s, t, blocked), t)
    ensures var pc := Settle(cfg, s, t, blocked).reqs[t].pc;
            (pc.Looking? || pc.Ended? || pc.Sleeping?) && Settle(cfg, s, t, blocked).reqs[t].name == s.reqs[t].name
  {
  }

  lemma JoinLight(s: State, t: Tid, r: Rid)
    requires t in s.reqs && r < |s.recs|
    ensures Light(s, JoinReady(s, t, r))
    ensures Light(s, Join(s, t, r))
  {
    var rec := s.recs[r];
    assert Light(s, SetRec(s, r, rec.(active := rec.active + 1)));
    assert Light(s, SetRec(s, r, rec.(queued := rec.queued + 1)));
  }

  /** `busy` ran to its end, found nothing, and no conflict was used since. */
  predicate Decided(s: State, conflicts: seq<Rid>, seen: seq<Sighting>, recent: bool)
    requires InRange(conflicts, |s.recs|)
  {
    |seen| >= |conflicts| && !recent && !JustWasUsed(s.recs, conflicts)
  }

  lemma AdvanceCases(cfg: Config, s: State, t: Tid, conflicts: seq<Rid>, began: real, until: real,
                     recent: bool, seen: seq<Sighting>)
    requires t in s.reqs && s.reqs[t].name in cfg.catalogue && InRange(conflicts, |s.recs|)
    ensures var s' := Advance(cfg, s, t, conflicts, began, until, recent, seen);
            if Decided(s, conflicts, seen, recent) then s' == Commit(cfg, s, t, conflicts)
            else Light(s, s') && s'.recs == s.recs && OnlyMoved(s, s', t)
                 && !s'.reqs[t].pc.Admitted? && !s'.reqs[t].pc.Joining?
  {
    SettleLight(cfg, Unlock(s), t, Blocked(BeingUnloaded, None));
    SettleLight(cfg, Unlock(s), t, Blocked(Working, None));
    SettleLight(cfg, Unlock(s), t, Blocked(RecentlyUsed, Some(until)));
    SettleLight(cfg, Unlock(s), t, Blocked(JustUsed, Some(s.now)));
  }

  /** The state an answered observation leaves behind, before anything is decided on it. */
  function Noticed(s: State, t: Tid, activity: Activity): State
    requires t in s.reqs && s.reqs[t].pc.Observing? && PcShape(|s.recs|, s.reqs[t].pc)
  {
    var c := s.reqs[t].pc.conflicts[|s.reqs[t].pc.seen|];
    SetRec(s, c, Noted(s.recs[c], activity, s.now))
  }

  /** What the observation decided: nothing, or to displace exactly the conflicts it saw idle. */
  lemma ObservedCases(cfg: Config, s: State, t: Tid, activity: Option<Activity>)
    requires t in s.reqs && s.reqs[t].pc.Observing? && RequestShape(cfg, |s.recs|, s.reqs[t])
    ensures var s' := DoObserved(cfg, s, t, activity);
            var pc := s.reqs[t].pc;
            || Light(s, s')
            || (&& activity.Some? && |pc.seen| + 1 == |pc.conflicts|
                && !JustWasUsed(Noticed(s, t, activity.value).recs, pc.conflicts)
                && s' == Commit(cfg, Noticed(s, t, activity.value), t, pc.conflicts))
  {
    var pc := s.reqs[t].pc;
    if activity.None? {
      SettleLight(cfg, Unlock(s), t, Blocked(Unobservable, None));
    } else {
      var s0 := Noticed(s, t, activity.value);
      assert Light(s, s0);
      if activity.value.processing || activity.value.deferred != 0 {
        SettleLight(cfg, Unlock(s0), t, Blocked(ServerBusy, None));
      } else {
        var c := pc.conflicts[|pc.seen|];
        var seen := pc.seen + [Sighting(pc.glance, s.recs[c], activity.value, s.now)];
        var until := s0.recs[c].lastActivity + cfg.protect;
        if until > pc.until {
          AdvanceCases(cfg, s0, t, pc.conflicts, pc.began, until, true, seen);
        } else {
          AdvanceCases(cfg, s0, t, pc.conflicts, pc.began, pc.until, pc.recent, seen);
        }
      }
    }
  }

  lemma TakePlaceLockCases(cfg: Config, s: State, t: Tid, conflicts: seq<Rid>)
    requires t in s.reqs && s.reqs[t].name in cfg.catalogue && LoadedShape(s.recs, s.loaded)
    requires InRange(conflicts, |s.recs|)
    ensures var s' := DoTakePlaceLock(cfg, s, t, conflicts);
            || Light(s, s')
            || (s.reqs[t].name !in s.loaded && conflicts == [] && s' == Commit(cfg, s, t, conflicts))
  {
    SettleLight(cfg, s, t, Blocked(BeingUnloaded, None));
    SettleLight(cfg, s, t, Blocked(LoadedByAnother, Some(s.now)));
    var s0 := s.(lock := Some(t));
    if s.reqs[t].name !in s.loaded {
      AdvanceCases(cfg, s0, t, conflicts, s.now, s.now, false, []);
    }
  }

  lemma LookLight(cfg: Config, s: State, t: Tid)
    requires t in s.reqs && s.reqs[t].name in cfg.catalogue && LoadedShape(s.recs, s.loaded)
    ensures Light(s, DoLook(cfg, s, t))
  {
    var name := s.reqs[t].name;
    if name in s.loaded {
      JoinLight(s.(waiting := Remove(s.waiting, t)), t, s.loaded[name]);
    }
    SettleLight(cfg, s, t, Blocked(EarlierRequest, None));
  }

  lemma ShortLight(cfg: Config, s: State, a: Action)
    requires Shape(cfg, s) && Enabled(cfg, s, a)
    requires a.Arrive? || a.TakeCheckLock? || a.TrackDone? || a.Wake?
    ensures Light(s, Apply(cfg, s, a))
  {
    if !a.Arrive? {
      assert RequestShape(cfg, |s.recs|, s.reqs[a.t]);
    }
  }

  lemma JoinedLight(s: State, t: Tid)
    requires t in s.reqs && PcShape(|s.recs|, s.reqs[t].pc)
    ensures s.reqs[t].pc.Joining? ==> Light(s, DoJoinWake(s, t))
    ensures s.reqs[t].pc.Admitted? ==> Light(s, DoRelease(s, t))
    ensures Light(s, DoCancel(s, t))
  {
    if s.reqs[t].pc.Joining? {
      var r := s.reqs[t].pc.rid;
      var s0 := SetRec(s, r, s.recs[r].(queued := s.recs[r].queued - 1));
      assert Light(s, s0);
      JoinLight(s0, t, r);
    } else if s.reqs[t].pc.Admitted? {
      var r := s.reqs[t].pc.rid;
      assert Light(s, SetRec(s, r, s.recs[r].(active := s.recs[r].active - 1, lastActivity := s.now)));
    }
  }
}
