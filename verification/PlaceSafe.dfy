/** Deciding to displace models keeps ownership and exclusion. */
module PlaceSafe {
  import opened Wrappers
  import opened Claims
  import opened Machine
  import opened Line
  import opened LineSteps
  import opened Frames
  import opened Counts
  import opened UseSteps
  import opened LinkSteps
  import opened Base
  import opened Safety

  /** The conflicts are idle, and still tracked at the decision. */
  ghost predicate Displaceable(cfg: Config, s: State, t: Tid, conflicts: seq<Rid>) {
    && t in s.reqs && s.reqs[t].name in cfg.catalogue && s.reqs[t].name !in s.loaded
    && !s.reqs[t].pc.Tracking? && (s.lock == None || s.lock == Some(t))
    && MayDisplace(s, conflicts) && AllTracked(s, conflicts)
  }

  predicate AllTracked(s: State, conflicts: seq<Rid>) {
    forall i | 0 <= i < |conflicts| :: Tracked(s.recs, s.loaded, conflicts[i])
  }

  /** The conflicts are all of the tracked ones, and are still tracked at the decision. */
  ghost predicate Placeable(cfg: Config, s: State, t: Tid, conflicts: seq<Rid>)
    requires LoadedShape(s.recs, s.loaded)
  {
    && Displaceable(cfg, s, t, conflicts)
    && (forall id | id in s.loaded && ClaimsConflict(s.recs[s.loaded[id]].variant, cfg.catalogue[s.reqs[t].name]) ::
          s.loaded[id] in conflicts)
  }

  lemma CommitTracked(cfg: Config, s: State, t: Tid, conflicts: seq<Rid>, r: Rid)
    requires Valid(cfg) && Shape(cfg, s) && Displaceable(cfg, s, t, conflicts)
    ensures var s' := Commit(cfg, s, t, conflicts);
            && (Tracked(s.recs, s.loaded, r) ==> Tracked(s'.recs, s'.loaded, r))
            && (r < |s.recs| && Tracked(s'.recs, s'.loaded, r) ==> Tracked(s.recs, s.loaded, r))
            && Tracked(s'.recs, s'.loaded, |s.recs|)
  {
  }

  lemma CommitRecordsSafe(cfg: Config, s: State, t: Tid, conflicts: seq<Rid>)
    requires Valid(cfg) && Shape(cfg, s) && OwnInv(s) && Displaceable(cfg, s, t, conflicts)
    ensures var s' := Commit(cfg, s, t, conflicts);
            && (forall k | 0 <= k < |s'.tasks| :: TaskSafe(s'.recs, s'.loaded, s'.tasks[k]))
            && (forall r | 0 <= r < |s'.recs| :: RecordSafe(s'.recs, s'.loaded, r))
  {
    var s' := Commit(cfg, s, t, conflicts);
    forall k | 0 <= k < |s'.tasks|
      ensures TaskSafe(s'.recs, s'.loaded, s'.tasks[k])
    {
      if k < |s.tasks| { assert TaskSafe(s.recs, s.loaded, s.tasks[k]); }
      CommitTracked(cfg, s, t, conflicts, s'.tasks[k].model);
    }
    forall r | 0 <= r < |s'.recs|
      ensures RecordSafe(s'.recs, s'.loaded, r)
    {
      CommitTracked(cfg, s, t, conflicts, r);
      if r < |s.recs| {
        assert RecordSafe(s.recs, s.loaded, r);
        if r in conflicts {
          var i :| 0 <= i < |conflicts| && conflicts[i] == r;
          assert Tracked(s.recs, s.loaded, conflicts[i]);
        }
      }
    }
  }

  lemma CommitOwn(cfg: Config, s: State, t: Tid, conflicts: seq<Rid>)
    requires Valid(cfg) && Shape(cfg, s) && LockInv(s) && OwnInv(s) && Displaceable(cfg, s, t, conflicts)
    ensures OwnInv(Commit(cfg, s, t, conflicts))
  {
    CommitRecordsSafe(cfg, s, t, conflicts);
    var s' := Commit(cfg, s, t, conflicts);
    forall r | 0 <= r < |s'.recs|
      ensures Cared(s', r)
    {
      CommitTracked(cfg, s, t, conflicts, r);
      if r < |s.recs| { assert Cared(s, r); }
    }
    forall i | 0 <= i < |s'.startup|
      ensures TodoAt(s'.recs, s'.loaded, s'.startup[i])
    {
      assert TodoAt(s.recs, s.loaded, s.startup[i]);
      CommitTracked(cfg, s, t, conflicts, s.startup[i]);
    }
    forall u | u in s'.reqs
      ensures !s'.reqs[u].pc.Tracking? && NotYet(s', u)
    {
      if u != t { assert !Locking(s.reqs[u].pc); }
    }
  }

  lemma CommitYields(cfg: Config, s: State, t: Tid, conflicts: seq<Rid>, v: Rid, m: Rid)
    requires Shape(cfg, s) && Placeable(cfg, s, t, conflicts)
    ensures var s' := Commit(cfg, s, t, conflicts);
            && (Yielding(s.recs, s.tasks, v, m) ==> Yielding(s'.recs, s'.tasks, v, m))
            && (v in conflicts && v < |s.recs| ==> Yielding(s'.recs, s'.tasks, v, |s.recs|))
  {
    if Yielding(s.recs, s.tasks, v, m) {
      NotDisplaced(s, conflicts, v);
    }
  }

  lemma CommitPairs(cfg: Config, s: State, t: Tid, conflicts: seq<Rid>)
    requires Valid(cfg) && Shape(cfg, s) && PairInv(s) && Placeable(cfg, s, t, conflicts)
    requires Shape(cfg, Commit(cfg, s, t, conflicts))
    ensures PairInv(Commit(cfg, s, t, conflicts))
  {
    var s' := Commit(cfg, s, t, conflicts);
    var name := s.reqs[t].name;
    forall a, b | a in s'.loaded && b in s'.loaded
      ensures PairSafe(s'.recs, s'.loaded, s'.tasks, a, b)
    {
      var ra, rb := s'.loaded[a], s'.loaded[b];
      CommitYields(cfg, s, t, conflicts, ra, rb);
      CommitYields(cfg, s, t, conflicts, rb, ra);
      if a != name && b != name {
        assert PairSafe(s.recs, s.loaded, s.tasks, a, b);
      } else {
        ConflictSymmetric(s'.recs[ra].variant, s'.recs[rb].variant);
      }
    }
  }

  lemma CommitHeld(cfg: Config, s: State, t: Tid, conflicts: seq<Rid>)
    requires Valid(cfg) && Shape(cfg, s) && HeldInv(cfg, s) && Placeable(cfg, s, t, conflicts)
    requires Shape(cfg, Commit(cfg, s, t, conflicts))
    ensures HeldInv(cfg, Commit(cfg, s, t, conflicts))
  {
    var s' := Commit(cfg, s, t, conflicts);
    forall k | 0 <= k < |s'.tasks|
      ensures NotAsked(s', k)
    {
      if k < |s.tasks| { assert NotAsked(s, k); }
    }
  }

  lemma CommitPlacer(cfg: Config, s: State, t: Tid, conflicts: seq<Rid>)
    requires Valid(cfg) && Shape(cfg, s) && LockInv(s) && Placeable(cfg, s, t, conflicts)
    requires Shape(cfg, Commit(cfg, s, t, conflicts))
    ensures PlacerInv(cfg, Commit(cfg, s, t, conflicts))
  {
    var s' := Commit(cfg, s, t, conflicts);
    forall u | u in s'.reqs
      ensures PlacerSafe(cfg, s'.recs, s'.loaded, s'.reqs[u])
    {
      if u != t { assert !Locking(s.reqs[u].pc); }
    }
  }

  lemma CommitSafe(cfg: Config, s: State, t: Tid, conflicts: seq<Rid>)
    requires Valid(cfg) && SafeInv(cfg, s) && Placeable(cfg, s, t, conflicts)
    requires BaseInv(cfg, Commit(cfg, s, t, conflicts))
    ensures SafeInv(cfg, Commit(cfg, s, t, conflicts))
  {
    CommitOwn(cfg, s, t, conflicts);
    CommitPairs(cfg, s, t, conflicts);
    CommitHeld(cfg, s, t, conflicts);
    CommitPlacer(cfg, s, t, conflicts);
  }

  // ----- Observing

  lemma NoticedBase(cfg: Config, s: State, t: Tid, activity: Activity)
    requires Valid(cfg) && BaseInv(cfg, s) && t in s.reqs && s.reqs[t].pc.Observing?
    ensures PcShape(|s.recs|, s.reqs[t].pc) && BaseInv(cfg, Noticed(s, t, activity))
    ensures Light(s, Noticed(s, t, activity))
  {
    NoticedLinks(cfg, s, t, activity);
    NoticedUse(cfg, s, t, activity);
    CountSame(s, Noticed(s, t, activity));
  }

  lemma NoticedSafe(cfg: Config, s: State, t: Tid, activity: Activity)
    requires Valid(cfg) && SafeInv(cfg, s) && t in s.reqs && s.reqs[t].pc.Observing?
    ensures PcShape(|s.recs|, s.reqs[t].pc) && SafeInv(cfg, Noticed(s, t, activity))
    ensures Light(s, Noticed(s, t, activity))
  {
    NoticedBase(cfg, s, t, activity);
    var s0 := Noticed(s, t, activity);
    assert s0.reqs == s.reqs[t := s0.reqs[t]];
    LightAlike(s, s0);
    PlacerStays(cfg, s, s0, s.reqs[t]);
    LightSafe(cfg, s, s0, t);
  }

  /** An answered observation shows that its conflict is held, hence tracked. */
  lemma SeenTracked(cfg: Config, s: State, t: Tid, activity: Option<Activity>)
    requires SafeInv(cfg, s) && Enabled(cfg, s, Observed(t, activity)) && Honest(cfg, s, Observed(t, activity))
    requires activity.Some?
    ensures PcShape(|s.recs|, s.reqs[t].pc)
    ensures forall j | 0 <= j <= |s.reqs[t].pc.seen| :: Tracked(s.recs, s.loaded, s.reqs[t].pc.conflicts[j])
  {
    assert RequestShape(cfg, |s.recs|, s.reqs[t]) && PlacerSafe(cfg, s.recs, s.loaded, s.reqs[t]);
    AnsweredIsTracked(cfg, s, s.reqs[t]);
  }

  /** Activity is answered only for a held model, so what is held now was tracked all along. */
  lemma AnsweredIsTracked(cfg: Config, s: State, q: Request)
    requires LoadedShape(s.recs, s.loaded) && s.held <= s.loaded.Keys && q.pc.Observing? && PcShape(|s.recs|, q.pc)
    requires PlacerSafe(cfg, s.recs, s.loaded, q) && Id(s, q.pc.conflicts[|q.pc.seen|]) in s.held
    ensures forall j | 0 <= j <= |q.pc.seen| :: Tracked(s.recs, s.loaded, q.pc.conflicts[j])
  {
    assert ConflictAt(s.recs, s.loaded, q.pc.conflicts[|q.pc.seen|]);
  }

  /** Conflicts all seen idle, and not used since, may be displaced. */
  lemma ObservedPlaceable(cfg: Config, s: State, t: Tid, activity: Option<Activity>)
    requires Valid(cfg) && SafeInv(cfg, s) && Enabled(cfg, s, Observed(t, activity))
    requires Honest(cfg, s, Observed(t, activity)) && activity.Some?
    requires PcShape(|s.recs|, s.reqs[t].pc) && |s.reqs[t].pc.seen| + 1 == |s.reqs[t].pc.conflicts|
    requires !JustWasUsed(Noticed(s, t, activity.value).recs, s.reqs[t].pc.conflicts)
    ensures var s0 := Noticed(s, t, activity.value);
            SafeInv(cfg, s0) && Light(s, s0) && Placeable(cfg, s0, t, s.reqs[t].pc.conflicts)
  {
    var s0 := Noticed(s, t, activity.value);
    NoticedSafe(cfg, s, t, activity.value);
    ObservedMayDisplace(cfg, s, t, activity.value);
    SeenTracked(cfg, s, t, activity);
    assert PlacerSafe(cfg, s0.recs, s0.loaded, s0.reqs[t]);
    assert s0.lock == Some(t);
    LightAlike(s, s0);
    forall i | 0 <= i < |s.reqs[t].pc.conflicts|
      ensures Tracked(s0.recs, s0.loaded, s.reqs[t].pc.conflicts[i])
    {
      assert Tracked(s.recs, s.loaded, s.reqs[t].pc.conflicts[i]);
    }
  }

  /** After `Advance`, a request observes the same conflicts or none. */
  lemma AdvancePcIs(cfg: Config, s: State, t: Tid, conflicts: seq<Rid>, began: real, until: real,
                    recent: bool, seen: seq<Sighting>)
    requires t in s.reqs && s.reqs[t].name in cfg.catalogue && InRange(conflicts, |s.recs|)
    requires !Decided(s, conflicts, seen, recent)
    ensures var q := Advance(cfg, s, t, conflicts, began, until, recent, seen).reqs[t];
            && q.name == s.reqs[t].name && !q.pc.Tracking?
            && (q.pc.Observing? ==> q.pc.conflicts == conflicts && q.pc.seen == seen && |seen| < |conflicts|)
  {
    SettleLight(cfg, Unlock(s), t, Blocked(BeingUnloaded, None));
    SettleLight(cfg, Unlock(s), t, Blocked(Working, None));
    SettleLight(cfg, Unlock(s), t, Blocked(RecentlyUsed, Some(until)));
    SettleLight(cfg, Unlock(s), t, Blocked(JustUsed, Some(s.now)));
  }

  lemma ObservedPcIs(cfg: Config, s: State, t: Tid, activity: Option<Activity>)
    requires t in s.reqs && s.reqs[t].pc.Observing? && RequestShape(cfg, |s.recs|, s.reqs[t])
    requires Light(s, DoObserved(cfg, s, t, activity))
    ensures var q, pc := DoObserved(cfg, s, t, activity).reqs[t], s.reqs[t].pc;
            && q.name == s.reqs[t].name && !q.pc.Tracking?
            && (q.pc.Observing? ==> activity.Some? && q.pc.conflicts == pc.conflicts && |q.pc.seen| == |pc.seen| + 1)
  {
    var pc := s.reqs[t].pc;
    if activity.None? {
      SettleLight(cfg, Unlock(s), t, Blocked(Unobservable, None));
    } else {
      var s0 := Noticed(s, t, activity.value);
      if activity.value.processing || activity.value.deferred != 0 {
        SettleLight(cfg, Unlock(s0), t, Blocked(ServerBusy, None));
      } else {
        var c := pc.conflicts[|pc.seen|];
        var seen := pc.seen + [Sighting(pc.glance, s.recs[c], activity.value, s.now)];
        var until := s0.recs[c].lastActivity + cfg.protect;
        if until > pc.until {
          AdvancePcIs(cfg, s0, t, pc.conflicts, pc.began, until, true, seen);
        } else {
          AdvanceCases(cfg, s0, t, pc.conflicts, pc.began, pc.until, pc.recent, seen);
          if !Decided(s0, pc.conflicts, seen, pc.recent) {
            AdvancePcIs(cfg, s0, t, pc.conflicts, pc.began, pc.until, pc.recent, seen);
          }
        }
      }
    }
  }

  lemma ObservedSafe(cfg: Config, s: State, t: Tid, activity: Option<Activity>)
    requires Valid(cfg) && SafeInv(cfg, s) && Enabled(cfg, s, Observed(t, activity))
    requires Honest(cfg, s, Observed(t, activity)) && BaseInv(cfg, Apply(cfg, s, Observed(t, activity)))
    ensures SafeInv(cfg, Apply(cfg, s, Observed(t, activity)))
  {
    ObservedMove(cfg, s, t, activity);
    ObservedCases(cfg, s, t, activity);
    var s' := DoObserved(cfg, s, t, activity);
    if Light(s, s') {
      ObservedPlacer(cfg, s, t, activity);
      ObservedPcIs(cfg, s, t, activity);
      LightSafe(cfg, s, s', t);
    } else {
      ObservedPlaceable(cfg, s, t, activity);
      CommitSafe(cfg, Noticed(s, t, activity.value), t, s.reqs[t].pc.conflicts);
    }
  }

  lemma ObservedPlacer(cfg: Config, s: State, t: Tid, activity: Option<Activity>)
    requires Valid(cfg) && SafeInv(cfg, s) && Enabled(cfg, s, Observed(t, activity))
    requires RequestShape(cfg, |s.recs|, s.reqs[t])
    requires Honest(cfg, s, Observed(t, activity)) && Light(s, DoObserved(cfg, s, t, activity))
    requires Shape(cfg, DoObserved(cfg, s, t, activity))
    ensures var s' := DoObserved(cfg, s, t, activity);
            OnlyMoved(s, s', t) && PlacerSafe(cfg, s'.recs, s'.loaded, s'.reqs[t])
  {
    ObservedMove(cfg, s, t, activity);
    ObservedPcIs(cfg, s, t, activity);
    var s' := DoObserved(cfg, s, t, activity);
    LightAlike(s, s');
    if s'.reqs[t].pc.Observing? {
      SeenTracked(cfg, s, t, activity);
      PlacerGoesOn(cfg, s, s', s.reqs[t], s'.reqs[t]);
    }
  }

  lemma PlacerGoesOn(cfg: Config, s: State, s': State, q: Request, q': Request)
    requires LoadedShape(s.recs, s.loaded) && LoadedShape(s'.recs, s'.loaded)
    requires LinkedAlike(s.recs, s'.recs) && s'.loaded == s.loaded && PlacerSafe(cfg, s.recs, s.loaded, q)
    requires q.pc.Observing? && q'.pc.Observing? && q'.name == q.name && q'.pc.conflicts == q.pc.conflicts
    requires |q'.pc.seen| == |q.pc.seen| + 1 <= |q.pc.conflicts|
    requires forall j | 0 <= j <= |q.pc.seen| :: Tracked(s.recs, s.loaded, q.pc.conflicts[j])
    ensures PlacerSafe(cfg, s'.recs, s'.loaded, q')
  {
    PlacerStays(cfg, s, s', q);
    forall j | 0 <= j < |q'.pc.seen|
      ensures Tracked(s'.recs, s'.loaded, q'.pc.conflicts[j])
    {
      assert Tracked(s.recs, s.loaded, q.pc.conflicts[j]);
    }
  }

  // ----- Taking the lock

  lemma TakePlaceLockSafe(cfg: Config, s: State, t: Tid, conflicts: seq<Rid>)
    requires Valid(cfg) && SafeInv(cfg, s) && Enabled(cfg, s, TakePlaceLock(t, conflicts))
    requires BaseInv(cfg, Apply(cfg, s, TakePlaceLock(t, conflicts)))
    ensures SafeInv(cfg, Apply(cfg, s, TakePlaceLock(t, conflicts)))
  {
    assert RequestShape(cfg, |s.recs|, s.reqs[t]);
    var s' := DoTakePlaceLock(cfg, s, t, conflicts);
    TakePlaceLockCases(cfg, s, t, conflicts);
    if Light(s, s') {
      TakePlaceLockMove(cfg, s, t, conflicts);
      TakePlaceLockPlacer(cfg, s, t, conflicts);
      LightSafe(cfg, s, s', t);
    } else {
      CommitSafe(cfg, s, t, conflicts);
    }
  }

  lemma TakePlaceLockPlacer(cfg: Config, s: State, t: Tid, conflicts: seq<Rid>)
    requires Shape(cfg, s) && t in s.reqs && s.reqs[t].pc.Queueing? && s.reqs[t].name in cfg.catalogue
    requires Conflicting(s.recs, s.loaded, cfg.catalogue[s.reqs[t].name], conflicts)
    requires var s' := DoTakePlaceLock(cfg, s, t, conflicts); Light(s, s') && LoadedShape(s'.recs, s'.loaded)
    ensures var s' := DoTakePlaceLock(cfg, s, t, conflicts);
            t in s'.reqs && PlacerSafe(cfg, s'.recs, s'.loaded, s'.reqs[t]) && !s'.reqs[t].pc.Tracking?
  {
    var s0 := s.(lock := Some(t));
    if s.reqs[t].name in s.loaded {
      SettleLight(cfg, s, t, Blocked(BeingUnloaded, None));
      SettleLight(cfg, s, t, Blocked(LoadedByAnother, Some(s.now)));
    } else {
      AdvanceCases(cfg, s0, t, conflicts, s.now, s.now, false, []);
      if !Decided(s0, conflicts, [], false) {
        AdvancePcIs(cfg, s0, t, conflicts, s.now, s.now, false, []);
      }
    }
  }
}
