/** Every step keeps records and the tasks that own them linked. */
module LinkSteps {
  import opened Wrappers
  import opened Machine
  import opened Line
  import opened Frames
  import opened Shapes
  import opened Links
  import opened UseSteps

  // ----- Deciding

  lemma CommitRecords(cfg: Config, s: State, t: Tid, conflicts: seq<Rid>)
    requires Shape(cfg, s) && LinkInv(s) && t in s.reqs && s.reqs[t].name in cfg.catalogue && MayDisplace(s, conflicts)
    ensures var s' := Commit(cfg, s, t, conflicts);
            forall r | 0 <= r < |s'.recs| :: RecordLinked(s'.tasks, s'.recs[r], r)
  {
    var s' := Commit(cfg, s, t, conflicts);
    forall r | 0 <= r < |s'.recs|
      ensures RecordLinked(s'.tasks, s'.recs[r], r)
    {
      if r < |s.recs| {
        assert RecordLinked(s.tasks, s.recs[r], r);
      }
    }
  }

  lemma CommitTasks(cfg: Config, s: State, t: Tid, conflicts: seq<Rid>)
    requires Shape(cfg, s) && LinkInv(s) && t in s.reqs && s.reqs[t].name in cfg.catalogue && MayDisplace(s, conflicts)
    requires Shape(cfg, Commit(cfg, s, t, conflicts))
    ensures LinkInv(Commit(cfg, s, t, conflicts))
  {
    CommitRecords(cfg, s, t, conflicts);
    var s' := Commit(cfg, s, t, conflicts);
    forall k | 0 <= k < |s'.tasks|
      ensures TaskLinked(s'.recs, s'.tasks[k], k)
    {
      if k < |s.tasks| {
        var task := s.tasks[k];
        assert TaskShape(|s.recs|, task) && TaskLinked(s.recs, task, k);
        if BeforeLoad(task.stage) {
          forall j | 0 <= j < |task.victims|
            ensures VictimLinked(s'.recs[task.victims[j]], k, j < task.next)
          {
            assert VictimLinked(s.recs[task.victims[j]], k, j < task.next);
            assert task.victims[j] !in conflicts by { NotDisplaced(s, conflicts, task.victims[j]); }
          }
        }
      } else {
        assert forall j | 0 <= j < |conflicts| :: conflicts[j] in conflicts;
      }
    }
  }

  /** A leaving record is no one's to displace again. */
  lemma NotDisplaced(s: State, conflicts: seq<Rid>, r: Rid)
    requires MayDisplace(s, conflicts) && r < |s.recs| && s.recs[r].leaving
    ensures r !in conflicts
  {
    forall j | 0 <= j < |conflicts|
      ensures conflicts[j] != r
    {
      assert Idle(s.recs[conflicts[j]]);
    }
  }

  lemma CommitPc(cfg: Config, s: State, t: Tid, conflicts: seq<Rid>)
    requires Shape(cfg, s) && PcInv(cfg, s) && LockInv(s) && (s.lock == None || s.lock == Some(t))
    requires t in s.reqs && s.reqs[t].name in cfg.catalogue && MayDisplace(s, conflicts)
    requires Shape(cfg, Commit(cfg, s, t, conflicts))
    ensures PcInv(cfg, Commit(cfg, s, t, conflicts))
  {
    var s' := Commit(cfg, s, t, conflicts);
    forall u | u in s'.reqs
      ensures PcAt(s', u)
    {
      assert RequestShape(cfg, |s'.recs|, s'.reqs[u]);
      if u != t {
        assert !Locking(s.reqs[u].pc);
      }
    }
    assert forall i | 0 <= i < |s.startup| :: Unowned(s.recs[s.startup[i]]);
  }

  lemma CommitLinks(cfg: Config, s: State, t: Tid, conflicts: seq<Rid>)
    requires Shape(cfg, s) && Valid(cfg) && LinkInv(s) && PcInv(cfg, s) && LockInv(s)
    requires s.lock == None || s.lock == Some(t)
    requires t in s.reqs && s.reqs[t].name in cfg.catalogue && MayDisplace(s, conflicts)
    ensures Shape(cfg, Commit(cfg, s, t, conflicts))
    ensures LinkInv(Commit(cfg, s, t, conflicts)) && PcInv(cfg, Commit(cfg, s, t, conflicts))
  {
    CommitShape(cfg, s, t, conflicts);
    CommitTasks(cfg, s, t, conflicts);
    CommitPc(cfg, s, t, conflicts);
  }

  // ----- Looking on

  lemma AdvancePc(cfg: Config, s: State, t: Tid, conflicts: seq<Rid>, began: real, until: real,
                  recent: bool, seen: seq<Sighting>)
    requires t in s.reqs && s.reqs[t].name in cfg.catalogue && InRange(conflicts, |s.recs|) && Distinct(conflicts)
    requires |seen| <= |conflicts| && forall j | 0 <= j < |seen| :: Idle(s.recs[conflicts[j]])
    requires !Decided(s, conflicts, seen, recent)
    ensures PcAt(Advance(cfg, s, t, conflicts, began, until, recent, seen), t)
  {
    if |seen| < |conflicts| {
      var rec := s.recs[conflicts[|seen|]];
      if rec.leaving {
        SettleLight(cfg, Unlock(s), t, Blocked(BeingUnloaded, None));
      } else if rec.active != 0 || rec.queued != 0 || !rec.ready {
        SettleLight(cfg, Unlock(s), t, Blocked(Working, None));
      }
    } else if recent {
      SettleLight(cfg, Unlock(s), t, Blocked(RecentlyUsed, Some(until)));
    } else {
      SettleLight(cfg, Unlock(s), t, Blocked(JustUsed, Some(s.now)));
    }
  }

  /** A request that is neither observing nor tracking relies on nothing. */
  predicate Carefree(pc: Pc) {
    !pc.Observing? && !pc.Tracking?
  }

  lemma LightKeeps(cfg: Config, s: State, s': State, t: Tid)
    requires Shape(cfg, s) && Shape(cfg, s') && LinkInv(s) && PcInv(cfg, s) && Light(s, s') && OnlyMoved(s, s', t)
    requires Carefree(s'.reqs[t].pc) || PcAt(s', t)
    ensures LinkInv(s') && PcInv(cfg, s')
  {
    LightLinks(cfg, s, s');
    LightSettles(s, s');
    assert RequestShape(cfg, |s'.recs|, s'.reqs[t]);
    PcKept(cfg, s, s', t);
  }

  lemma ObservedPc(cfg: Config, s: State, t: Tid, activity: Option<Activity>)
    requires Shape(cfg, s) && PcInv(cfg, s) && t in s.reqs && s.reqs[t].pc.Observing?
    requires RequestShape(cfg, |s.recs|, s.reqs[t]) && Light(s, DoObserved(cfg, s, t, activity))
    requires Shape(cfg, DoObserved(cfg, s, t, activity))
    ensures PcAt(DoObserved(cfg, s, t, activity), t)
  {
    var pc := s.reqs[t].pc;
    assert PcAt(s, t);
    if activity.None? {
      SettleLight(cfg, Unlock(s), t, Blocked(Unobservable, None));
    } else {
      var s0 := Noticed(s, t, activity.value);
      if activity.value.processing || activity.value.deferred != 0 {
        SettleLight(cfg, Unlock(s0), t, Blocked(ServerBusy, None));
      } else {
        var c := pc.conflicts[|pc.seen|];
        var seen := pc.seen + [Sighting(pc.glance, s.recs[c], activity.value, s.now)];
        var until := s0.recs[c].lastActivity + cfg.protect;
        forall j | 0 <= j < |seen|
          ensures Idle(s0.recs[pc.conflicts[j]])
        {
          assert Idle(s.recs[pc.conflicts[j]]);
        }
        if until > pc.until {
          AdvancePc(cfg, s0, t, pc.conflicts, pc.began, until, true, seen);
        } else {
          AdvanceCases(cfg, s0, t, pc.conflicts, pc.began, pc.until, pc.recent, seen);
          if !Decided(s0, pc.conflicts, seen, pc.recent) {
            AdvancePc(cfg, s0, t, pc.conflicts, pc.began, pc.until, pc.recent, seen);
          }
        }
      }
    }
  }

  lemma ObservedLinks(cfg: Config, s: State, t: Tid, activity: Option<Activity>)
    requires Shape(cfg, s) && Valid(cfg) && LinkInv(s) && PcInv(cfg, s) && LockInv(s)
    requires t in s.reqs && s.reqs[t].pc.Observing?
    ensures RequestShape(cfg, |s.recs|, s.reqs[t])
    ensures var s' := DoObserved(cfg, s, t, activity); Shape(cfg, s') && LinkInv(s') && PcInv(cfg, s')
  {
    ObservedKeepsShape(cfg, s, t, activity);
    ObservedShape(cfg, s, t, activity);
    ObservedCases(cfg, s, t, activity);
    var s' := DoObserved(cfg, s, t, activity);
    if Light(s, s') {
      ObservedPc(cfg, s, t, activity);
      LightKeeps(cfg, s, s', t);
    } else {
      NoticedLinks(cfg, s, t, activity.value);
      ObservedMayDisplace(cfg, s, t, activity.value);
      CommitLinks(cfg, Noticed(s, t, activity.value), t, s.reqs[t].pc.conflicts);
    }
  }

  lemma NoticedLinks(cfg: Config, s: State, t: Tid, activity: Activity)
    requires Shape(cfg, s) && LinkInv(s) && PcInv(cfg, s) && LockInv(s)
    requires t in s.reqs && s.reqs[t].pc.Observing?
    ensures PcShape(|s.recs|, s.reqs[t].pc)
    ensures var s0 := Noticed(s, t, activity);
            Light(s, s0) && Shape(cfg, s0) && LinkInv(s0) && PcInv(cfg, s0) && LockInv(s0) && s0.lock == Some(t)
  {
    assert RequestShape(cfg, |s.recs|, s.reqs[t]);
    var s0 := Noticed(s, t, activity);
    assert Light(s, s0);
    TouchedShape(cfg, s, s0, t, []);
    LightLinks(cfg, s, s0);
    LightSettles(s, s0);
    PcSame(cfg, s, s0);
  }

  lemma TakePlaceLockLinks(cfg: Config, s: State, t: Tid, conflicts: seq<Rid>)
    requires Shape(cfg, s) && Valid(cfg) && LinkInv(s) && PcInv(cfg, s) && LockInv(s) && s.lock.None?
    requires t in s.reqs && s.reqs[t].pc.Queueing? && InRange(conflicts, |s.recs|) && Distinct(conflicts)
    ensures RequestShape(cfg, |s.recs|, s.reqs[t])
    ensures var s' := DoTakePlaceLock(cfg, s, t, conflicts); Shape(cfg, s') && LinkInv(s') && PcInv(cfg, s')
  {
    TakePlaceLockKeepsShape(cfg, s, t, conflicts);
    TakePlaceLockCases(cfg, s, t, conflicts);
    var s' := DoTakePlaceLock(cfg, s, t, conflicts);
    var s0 := s.(lock := Some(t));
    if s.reqs[t].name !in s.loaded && Decided(s0, conflicts, [], false) {
      AdvanceCases(cfg, s0, t, conflicts, s.now, s.now, false, []);
      assert conflicts == [];
      assert s' == Commit(cfg, s, t, conflicts);
      CommitLinks(cfg, s, t, conflicts);
    } else {
      TakePlaceLockPc(cfg, s, t, conflicts);
      LightKeeps(cfg, s, s', t);
    }
  }

  lemma TakePlaceLockPc(cfg: Config, s: State, t: Tid, conflicts: seq<Rid>)
    requires Shape(cfg, s) && t in s.reqs && s.reqs[t].pc.Queueing? && s.reqs[t].name in cfg.catalogue
    requires InRange(conflicts, |s.recs|) && Distinct(conflicts)
    requires s.reqs[t].name !in s.loaded ==> !Decided(s.(lock := Some(t)), conflicts, [], false)
    ensures var s' := DoTakePlaceLock(cfg, s, t, conflicts);
            Light(s, s') && OnlyMoved(s, s', t) && (Carefree(s'.reqs[t].pc) || PcAt(s', t))
  {
    if s.reqs[t].name in s.loaded {
      SettleLight(cfg, s, t, Blocked(BeingUnloaded, None));
      SettleLight(cfg, s, t, Blocked(LoadedByAnother, Some(s.now)));
    } else {
      AdvanceCases(cfg, s.(lock := Some(t)), t, conflicts, s.now, s.now, false, []);
      AdvancePc(cfg, s.(lock := Some(t)), t, conflicts, s.now, s.now, false, []);
    }
  }

  // ----- Adopting

  lemma SurveyedLinks(cfg: Config, s: State, t: Tid, survey: Survey)
    requires Shape(cfg, s) && Valid(cfg) && LinkInv(s) && PcInv(cfg, s)
    requires t in s.reqs && s.reqs[t].pc.Surveying? && FoundIds(survey.found) <= cfg.catalogue.Keys
    ensures var s' := DoSurveyed(cfg, s, t, survey); Shape(cfg, s') && LinkInv(s') && PcInv(cfg, s')
  {
    SurveyedKeepsShape(cfg, s, t, survey);
    SurveyedRecords(cfg, s, t, survey);
    var s' := DoSurveyed(cfg, s, t, survey);
    SurveyedPrefix(cfg, s, t, survey);
    GrownLinks(cfg, s, s');
    PcKept(cfg, s, s', t);
  }

  /** The records there were are there still, and the new ones are unowned. */
  lemma SurveyedPrefix(cfg: Config, s: State, t: Tid, survey: Survey)
    requires Shape(cfg, s) && PcInv(cfg, s) && t in s.reqs && s.reqs[t].pc.Surveying?
    requires FoundIds(survey.found) <= cfg.catalogue.Keys
    ensures var s' := DoSurveyed(cfg, s, t, survey);
            && |s.recs| <= |s'.recs| && s'.recs[..|s.recs|] == s.recs && s'.tasks == s.tasks
            && (forall r | |s.recs| <= r < |s'.recs| :: Unborn(s'.recs[r]))
            && PcAt(s', t)
  {
    var anew := Renewed(s.recs, s.loaded, survey.found);
    assert forall i | 0 <= i < |anew| :: anew[i] in survey.found;
  }

  /** A record no task has touched yet. */
  predicate Unborn(rec: Record) {
    rec.loader.None? && rec.unloader.None? && rec.error.None? && rec.loads == 0 && !rec.leaving
  }

  lemma GrownLinks(cfg: Config, s: State, s': State)
    requires Shape(cfg, s) && Shape(cfg, s') && LinkInv(s) && s'.tasks == s.tasks
    requires |s.recs| <= |s'.recs| && s'.recs[..|s.recs|] == s.recs
    requires forall r | |s.recs| <= r < |s'.recs| :: Unborn(s'.recs[r])
    ensures LinkInv(s')
    ensures forall r | 0 <= r < |s.recs| :: Settles(s.recs[r], s'.recs[r])
  {
    forall r | 0 <= r < |s.recs|
      ensures s'.recs[r] == s.recs[r]
    {
      assert s'.recs[..|s.recs|][r] == s.recs[r];
    }
    forall r | 0 <= r < |s'.recs|
      ensures RecordLinked(s'.tasks, s'.recs[r], r)
    {
      if r < |s.recs| { assert RecordLinked(s.tasks, s.recs[r], r); }
    }
    forall k | 0 <= k < |s'.tasks|
      ensures TaskLinked(s'.recs, s'.tasks[k], k)
    {
      assert TaskShape(|s.recs|, s.tasks[k]) && TaskLinked(s.recs, s.tasks[k], k);
    }
  }

  lemma TrackOneLinks(cfg: Config, s: State, r: Rid, decode: Option<int>)
    requires Shape(cfg, s) && LinkInv(s) && r < |s.recs| && Unowned(s.recs[r])
    ensures Shape(cfg, TrackOne(s, r, decode)) && LinkInv(TrackOne(s, r, decode))
  {
    TrackOneShape(cfg, s, r, decode);
    var s' := TrackOne(s, r, decode);
    forall q | 0 <= q < |s'.recs|
      ensures RecordLinked(s'.tasks, s'.recs[q], q)
    {
      assert RecordLinked(s.tasks, s.recs[q], q);
    }
    forall k | 0 <= k < |s'.tasks|
      ensures TaskLinked(s'.recs, s'.tasks[k], k)
    {
      if k < |s.tasks| {
        assert TaskShape(|s.recs|, s.tasks[k]) && TaskLinked(s.recs, s.tasks[k], k);
        TrackOneTask(s, r, decode, k);
      } else {
        assert RecordLinked(s.tasks, s.recs[r], r);
      }
    }
  }

  lemma TrackOneTask(s: State, r: Rid, decode: Option<int>, k: Kid)
    requires r < |s.recs| && Unowned(s.recs[r]) && k < |s.tasks|
    requires TaskShape(|s.recs|, s.tasks[k]) && TaskLinked(s.recs, s.tasks[k], k)
    ensures var s' := TrackOne(s, r, decode);
            TaskShape(|s'.recs|, s'.tasks[k]) && TaskLinked(s'.recs, s'.tasks[k], k)
  {
    var s', task := TrackOne(s, r, decode), s.tasks[k];
    forall j | 0 <= j < |task.victims| && BeforeLoad(task.stage)
      ensures VictimLinked(s'.recs[task.victims[j]], k, j < task.next)
    {
      assert VictimLinked(s.recs[task.victims[j]], k, j < task.next);
    }
  }

  /** Tracking a record leaves every other unowned one unowned. */
  lemma TrackOneTodo(s: State, r: Rid, decode: Option<int>, todo: seq<Rid>)
    requires r < |s.recs| && InRange(todo, |s.recs|) && TodoOk(s.recs, todo)
    requires forall i | 0 <= i < |todo| :: todo[i] != r
    ensures TodoOk(TrackOne(s, r, decode).recs, todo)
  {
    assert forall i | 0 <= i < |todo| :: Unowned(s.recs[todo[i]]);
  }

  lemma TodoTail(recs: seq<Record>, todo: seq<Rid>)
    requires InRange(todo, |recs|) && TodoOk(recs, todo) && todo != []
    ensures TodoOk(recs, todo[1..])
    ensures forall i | 0 <= i < |todo[1..]| :: todo[1..][i] != todo[0]
  {
    var rest := todo[1..];
    forall i | 0 <= i < |rest|
      ensures Unowned(recs[rest[i]])
    {
      assert rest[i] == todo[i + 1];
    }
  }

  lemma TrackNextLinks(cfg: Config, s: State, t: Tid, decode: Option<int>)
    requires Shape(cfg, s) && LinkInv(s) && PcInv(cfg, s) && LockInv(s)
    requires t in s.reqs && s.reqs[t].pc.Tracking? && s.reqs[t].pc.todo != []
    ensures RequestShape(cfg, |s.recs|, s.reqs[t])
    ensures var s' := DoTrackNext(s, t, decode); Shape(cfg, s') && LinkInv(s') && PcInv(cfg, s')
  {
    TrackingKeepsShape(cfg, s, t, decode);
    assert PcAt(s, t);
    var todo := s.reqs[t].pc.todo;
    var r := todo[0];
    assert Unowned(s.recs[todo[0]]);
    TrackOneLinks(cfg, s, r, decode);
    var s' := DoTrackNext(s, t, decode);
    TrackOneTodo(s, r, decode, s.startup);
    TodoTail(s.recs, todo);
    TrackOneTodo(s, r, decode, todo[1..]);
    forall u | u in s'.reqs
      ensures PcAt(s', u)
    {
      assert RequestShape(cfg, |s'.recs|, s'.reqs[u]);
      if u != t {
        assert !Locking(s.reqs[u].pc);
      }
    }
  }

  lemma StartupLinks(cfg: Config, s: State, decode: Option<int>)
    requires Shape(cfg, s) && LinkInv(s) && PcInv(cfg, s) && s.startup != []
    ensures var s' := DoStartupTrack(s, decode); Shape(cfg, s') && LinkInv(s') && PcInv(cfg, s')
  {
    StartupKeepsShape(cfg, s, decode);
    var r := s.startup[0];
    assert Unowned(s.recs[s.startup[0]]);
    TrackOneLinks(cfg, s, r, decode);
    var s' := DoStartupTrack(s, decode);
    TodoTail(s.recs, s.startup);
    TrackOneTodo(s, r, decode, s.startup[1..]);
    forall u | u in s'.reqs
      ensures PcAt(s', u)
    {
      StartupPc(cfg, s, decode, u);
    }
  }

  lemma StartupPc(cfg: Config, s: State, decode: Option<int>, u: Tid)
    requires Shape(cfg, s) && PcInv(cfg, s) && s.startup != [] && u in s.reqs
    ensures PcAt(DoStartupTrack(s, decode), u)
  {
    assert PcAt(s, u);
    var s' := DoStartupTrack(s, decode);
    match s.reqs[u].pc
    case Observing(conflicts, _, _, _, _, seen) =>
      forall j | 0 <= j <= |seen|
        ensures Idle(s'.recs[conflicts[j]])
      {
        assert Idle(s.recs[conflicts[j]]);
      }
    case Tracking(todo) =>
      TrackOneTodo(s, s.startup[0], decode, todo);
    case _ =>
  }
}
