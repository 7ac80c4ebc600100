/** No step puts a record in transit to use. */
module UseSteps {
  import opened Wrappers
  import opened Machine
  import opened Frames
  import opened Counts
  import opened Links

  /** One record changed, and is still used only as it may be. */
  lemma UseAt(s: State, r: Rid, rec: Record)
    requires UseInv(s) && r < |s.recs| && UseOk(rec)
    ensures UseInv(SetRec(s, r, rec))
  {
  }

  lemma JoinReadyUse(s: State, t: Tid, r: Rid)
    requires UseInv(s) && t in s.reqs && r < |s.recs| && s.recs[r].ready && !s.recs[r].leaving
    ensures UseInv(JoinReady(s, t, r))
  {
    if s.recs[r].error.None? {
      UseAt(s, r, s.recs[r].(active := s.recs[r].active + 1));
    }
  }

  lemma LookUse(cfg: Config, s: State, t: Tid)
    requires UseInv(s) && t in s.reqs && s.reqs[t].name in cfg.catalogue && LoadedShape(s.recs, s.loaded)
    ensures UseInv(DoLook(cfg, s, t))
  {
    var name := s.reqs[t].name;
    if name in s.loaded && !s.recs[s.loaded[name]].leaving {
      var r := s.loaded[name];
      var s0 := s.(waiting := Remove(s.waiting, t));
      if s.recs[r].ready {
        JoinReadyUse(s0, t, r);
      } else {
        UseAt(s0, r, s.recs[r].(queued := s.recs[r].queued + 1));
      }
    } else {
      SettleLight(cfg, s, t, Blocked(EarlierRequest, None));
    }
  }

  /** A record that a request is joining or admitted to is not leaving. */
  lemma InUse(cfg: Config, s: State, t: Tid)
    requires Shape(cfg, s) && CountInv(s) && UseInv(s) && t in s.reqs
    ensures PcShape(|s.recs|, s.reqs[t].pc)
    ensures s.reqs[t].pc.Joining? ==> s.recs[s.reqs[t].pc.rid].queued >= 1 && !s.recs[s.reqs[t].pc.rid].leaving
    ensures s.reqs[t].pc.Admitted? ==>
              var rec := s.recs[s.reqs[t].pc.rid];
              rec.active >= 1 && !rec.leaving && rec.ready && rec.error.None?
  {
    assert RequestShape(cfg, |s.recs|, s.reqs[t]);
    var pc := s.reqs[t].pc;
    if pc.Joining? || pc.Admitted? {
      assert Counted(s.reqs, s.recs[pc.rid], pc.rid);
      assert t in Those(s.reqs, pc);
      assert UseOk(s.recs[pc.rid]);
    }
  }

  lemma LeaveUse(cfg: Config, s: State, t: Tid)
    requires Shape(cfg, s) && CountInv(s) && UseInv(s) && t in s.reqs
    ensures PcShape(|s.recs|, s.reqs[t].pc)
    ensures s.reqs[t].pc.Joining? && s.recs[s.reqs[t].pc.rid].ready ==> UseInv(DoJoinWake(s, t))
    ensures s.reqs[t].pc.Admitted? ==> UseInv(DoRelease(s, t))
    ensures UseInv(DoCancel(s, t))
  {
    InUse(cfg, s, t);
    var pc := s.reqs[t].pc;
    if pc.Joining? {
      var rec := s.recs[pc.rid].(queued := s.recs[pc.rid].queued - 1);
      UseAt(s, pc.rid, rec);
      if rec.ready {
        JoinReadyUse(SetRec(s, pc.rid, rec), t, pc.rid);
      }
    } else if pc.Admitted? {
      UseAt(s, pc.rid, s.recs[pc.rid].(active := s.recs[pc.rid].active - 1, lastActivity := s.now));
    }
  }

  /** What a request may displace: idle records that nobody uses or waits for. */
  ghost predicate MayDisplace(s: State, conflicts: seq<Rid>) {
    && InRange(conflicts, |s.recs|) && Distinct(conflicts)
    && !JustWasUsed(s.recs, conflicts)
    && forall j | 0 <= j < |conflicts| :: Idle(s.recs[conflicts[j]])
  }

  lemma CommitUse(cfg: Config, s: State, t: Tid, conflicts: seq<Rid>)
    requires UseInv(s) && t in s.reqs && s.reqs[t].name in cfg.catalogue && MayDisplace(s, conflicts)
    ensures UseInv(Commit(cfg, s, t, conflicts))
  {
    var s' := Commit(cfg, s, t, conflicts);
    forall r | 0 <= r < |s'.recs|
      ensures UseOk(s'.recs[r])
    {
      if r < |s.recs| {
        assert UseOk(s.recs[r]);
        if r in conflicts {
          var j :| 0 <= j < |conflicts| && conflicts[j] == r;
          assert Idle(s.recs[conflicts[j]]) && !Used(s.recs[conflicts[j]]);
        }
      }
    }
  }

  /** The conflicts a placer may displace once its last observation is answered. */
  lemma ObservedMayDisplace(cfg: Config, s: State, t: Tid, activity: Activity)
    requires Shape(cfg, s) && PcInv(cfg, s) && t in s.reqs && s.reqs[t].pc.Observing?
    requires |s.reqs[t].pc.seen| + 1 == |s.reqs[t].pc.conflicts|
    requires PcShape(|s.recs|, s.reqs[t].pc)
    requires !JustWasUsed(Noticed(s, t, activity).recs, s.reqs[t].pc.conflicts)
    ensures MayDisplace(Noticed(s, t, activity), s.reqs[t].pc.conflicts)
  {
    assert PcAt(s, t);
    var s0 := Noticed(s, t, activity);
    var conflicts := s.reqs[t].pc.conflicts;
    forall j | 0 <= j < |conflicts|
      ensures Idle(s0.recs[conflicts[j]])
    {
      assert Idle(s.recs[conflicts[j]]);
    }
  }

  lemma NoticedUse(cfg: Config, s: State, t: Tid, activity: Activity)
    requires UseInv(s) && t in s.reqs && s.reqs[t].pc.Observing? && PcShape(|s.recs|, s.reqs[t].pc)
    ensures UseInv(Noticed(s, t, activity))
  {
    var c := s.reqs[t].pc.conflicts[|s.reqs[t].pc.seen|];
    assert UseOk(s.recs[c]);
    UseAt(s, c, Noted(s.recs[c], activity, s.now));
  }

  /** A request's other moves change no count. */
  lemma SameUse(s: State, s': State, t: Tid)
    requires UseInv(s) && Light(s, s') && CountMove(s, s', t)
    requires t in s.reqs && Uncounted(s.reqs[t].pc) && Uncounted(s'.reqs[t].pc)
    ensures UseInv(s')
  {
    forall r | 0 <= r < |s'.recs|
      ensures UseOk(s'.recs[r])
    {
      assert CountsFollow(s, s', t, r) && Touch(s.recs[r], s'.recs[r]) && UseOk(s.recs[r]);
    }
  }

  lemma ObservedUse(cfg: Config, s: State, t: Tid, activity: Option<Activity>)
    requires Shape(cfg, s) && UseInv(s) && PcInv(cfg, s) && t in s.reqs && s.reqs[t].pc.Observing?
    ensures RequestShape(cfg, |s.recs|, s.reqs[t]) && UseInv(DoObserved(cfg, s, t, activity))
  {
    assert RequestShape(cfg, |s.recs|, s.reqs[t]);
    ObservedCases(cfg, s, t, activity);
    ObservedCounts(cfg, s, t, activity);
    var s' := DoObserved(cfg, s, t, activity);
    if Light(s, s') {
      LightObservedPc(cfg, s, t, activity);
      SameUse(s, s', t);
    } else {
      NoticedUse(cfg, s, t, activity.value);
      ObservedMayDisplace(cfg, s, t, activity.value);
      CommitUse(cfg, Noticed(s, t, activity.value), t, s.reqs[t].pc.conflicts);
    }
  }

  /** An observation either displaces the conflicts or leaves the request uncounted. */
  lemma LightObservedPc(cfg: Config, s: State, t: Tid, activity: Option<Activity>)
    requires t in s.reqs && s.reqs[t].pc.Observing? && RequestShape(cfg, |s.recs|, s.reqs[t])
    requires Light(s, DoObserved(cfg, s, t, activity))
    ensures Uncounted(DoObserved(cfg, s, t, activity).reqs[t].pc)
  {
    var pc := s.reqs[t].pc;
    if activity.None? {
      SettleLight(cfg, Unlock(s), t, Blocked(Unobservable, None));
    } else {
      var s0 := Noticed(s, t, activity.value);
      if activity.value.processing || activity.value.deferred != 0 {
        SettleLight(cfg, Unlock(s0), t, Blocked(ServerBusy, None));
      } else {
        var c := pc.conflicts[|pc.seen|];
        var seen := pc.seen + [Sighting(pc.glance, s.recs[c], activity.value, s.now)];
        var until := s0.recs[c].lastActivity + cfg.protect;
        if until > pc.until {
          AdvanceCases(cfg, s0, t, pc.conflicts, pc.began, until, true, seen);
        } else {
          AdvanceCases(cfg, s0, t, pc.conflicts, pc.began, pc.until, pc.recent, seen);
        }
      }
    }
  }

  lemma TakePlaceLockUse(cfg: Config, s: State, t: Tid, conflicts: seq<Rid>)
    requires Shape(cfg, s) && UseInv(s) && t in s.reqs && s.reqs[t].pc.Queueing?
    requires InRange(conflicts, |s.recs|)
    ensures RequestShape(cfg, |s.recs|, s.reqs[t]) && UseInv(DoTakePlaceLock(cfg, s, t, conflicts))
  {
    assert RequestShape(cfg, |s.recs|, s.reqs[t]);
    if s.reqs[t].name in s.loaded {
      SettleLight(cfg, s, t, Blocked(BeingUnloaded, None));
      SettleLight(cfg, s, t, Blocked(LoadedByAnother, Some(s.now)));
    } else {
      var s0 := s.(lock := Some(t));
      AdvanceCases(cfg, s0, t, conflicts, s.now, s.now, false, []);
      if Decided(s0, conflicts, [], false) {
        CommitUse(cfg, s0, t, conflicts);
      }
    }
  }

  lemma SurveyedUse(cfg: Config, s: State, t: Tid, survey: Survey)
    requires Shape(cfg, s) && UseInv(s) && t in s.reqs && s.reqs[t].pc.Surveying?
    requires FoundIds(survey.found) <= cfg.catalogue.Keys
    ensures UseInv(DoSurveyed(cfg, s, t, survey))
  {
    var anew := Renewed(s.recs, s.loaded, survey.found);
    assert forall i | 0 <= i < |anew| :: anew[i] in survey.found;
  }

  lemma TrackOneUse(s: State, r: Rid, decode: Option<int>)
    requires UseInv(s) && r < |s.recs|
    ensures UseInv(TrackOne(s, r, decode))
  {
    assert UseOk(s.recs[r]);
    UseAt(s, r, s.recs[r].(decode := if decode.Some? then decode else s.recs[r].decode));
    UseAt(s, r, s.recs[r].(loader := Some(|s.tasks|)));
  }

  lemma StartSwapUse(s: State, k: Kid)
    requires UseInv(s) && k < |s.tasks| && TaskShape(|s.recs|, s.tasks[k])
    ensures UseInv(DoStartSwap(s, k))
  {
    assert UseOk(s.recs[s.tasks[k].model]);
  }

  lemma UnloadedUse(s: State, k: Kid)
    requires UseInv(s) && k < |s.tasks| && TaskShape(|s.recs|, s.tasks[k]) && s.tasks[k].stage.Unloading?
    ensures UseInv(DoUnloaded(s, k))
  {
    assert UseOk(s.recs[s.tasks[k].model]) && UseOk(s.recs[s.tasks[k].victims[s.tasks[k].next]]);
  }

  /** A load's end is noted on a record that has admitted nobody yet. */
  lemma LoadUse(s: State, k: Kid, failure: Option<string>, decode: Option<int>, gone: bool)
    requires UseInv(s) && k < |s.tasks| && TaskShape(|s.recs|, s.tasks[k]) && !s.recs[s.tasks[k].model].ready
    ensures UseInv(DoLoadReturned(s, k, failure))
    ensures UseInv(DoBaselineRead(s, k, decode)) && UseInv(DoConfirmed(s, k, gone))
  {
    assert UseOk(s.recs[s.tasks[k].model]);
  }

  lemma UnloadFailedUse(s: State, k: Kid, error: string)
    requires UseInv(s) && k < |s.tasks| && TaskShape(|s.recs|, s.tasks[k]) && !s.recs[s.tasks[k].model].ready
    ensures UseInv(DoUnloadFailed(s, k, error))
  {
    var s' := DoUnloadFailed(s, k, error);
    forall r | 0 <= r < |s'.recs|
      ensures UseOk(s'.recs[r])
    {
      assert UseOk(s.recs[r]);
    }
  }
}
