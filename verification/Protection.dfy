/** What `busy` establishes about the models it lets go, and how long a refusal asks to wait. */
module Protection {
  import opened Wrappers
  import opened Claims
  import opened Machine
  import opened Line
  import opened LineSteps
  import opened Frames
  import opened Shapes
  import opened Links
  import opened UseSteps
  import opened Base
  import opened SafeSteps
  import opened Runs
  import opened SharedLoad
  import opened Arrival

  /** At a glance: loaded, staying, and with no request admitted or waiting. */
  predicate Untouched(rec: Record) {
    rec.ready && !rec.leaving && rec.active == 0 && rec.queued == 0
  }

  /** When the protection of an observed model ends. */
  function Protected(cfg: Config, x: Sighting): real {
    Noted(x.found, x.activity, x.at).lastActivity + cfg.protect
  }

  /** A sighting that did not block: no work or queue here or on the server. */
  predicate Calm(began: real, x: Sighting) {
    && Untouched(x.glance) && x.found.ready && !x.found.leaving
    && !x.activity.processing && x.activity.deferred == 0 && x.at >= began
  }

  /** `until` is when the last protection ends, if later than `began`. */
  predicate Peak(cfg: Config, began: real, seen: seq<Sighting>, until: real, recent: bool) {
    && until >= began
    && (forall j | 0 <= j < |seen| :: Protected(cfg, seen[j]) <= until)
    && (if recent then until > began && exists j :: 0 <= j < |seen| && Protected(cfg, seen[j]) == until
        else until == began)
  }

  /** A sighting is of the conflict in its place. */
  predicate Of(recs: seq<Record>, c: Rid, x: Sighting) {
    c < |recs| && x.glance.variant == recs[c].variant && x.found.variant == recs[c].variant
  }

  predicate Watching(cfg: Config, recs: seq<Record>, now: real, pc: Pc) {
    pc.Observing? ==>
      && |pc.seen| < |pc.conflicts| && pc.began <= now
      && pc.conflicts[|pc.seen|] < |recs| && pc.glance.variant == recs[pc.conflicts[|pc.seen|]].variant
      && Untouched(pc.glance)
      && (forall j | 0 <= j < |pc.seen| :: Calm(pc.began, pc.seen[j]) && Of(recs, pc.conflicts[j], pc.seen[j]))
      && Peak(cfg, pc.began, pc.seen, pc.until, pc.recent)
  }

  ghost predicate WatchInv(cfg: Config, s: State) {
    forall t | t in s.reqs :: Watching(cfg, s.recs, s.now, s.reqs[t].pc)
  }

  lemma WatchStays(cfg: Config, s: State, s': State, pc: Pc)
    requires Watching(cfg, s.recs, s.now, pc) && AllFinal(s.recs, s'.recs) && s'.now >= s.now
    ensures Watching(cfg, s'.recs, s'.now, pc)
  {
    if pc.Observing? {
      assert Final(s.recs[pc.conflicts[|pc.seen|]], s'.recs[pc.conflicts[|pc.seen|]]);
      forall j | 0 <= j < |pc.seen|
        ensures Of(s'.recs, pc.conflicts[j], pc.seen[j])
      {
        assert Of(s.recs, pc.conflicts[j], pc.seen[j]);
        assert Final(s.recs[pc.conflicts[j]], s'.recs[pc.conflicts[j]]);
      }
    }
  }

  /** `busy` goes on from a calm history, or ends. */
  lemma AdvanceWatches(cfg: Config, s: State, t: Tid, conflicts: seq<Rid>, began: real, until: real,
                       recent: bool, seen: seq<Sighting>)
    requires t in s.reqs && s.reqs[t].name in cfg.catalogue && InRange(conflicts, |s.recs|)
    requires |seen| <= |conflicts| && began <= s.now && Peak(cfg, began, seen, until, recent)
    requires forall j | 0 <= j < |seen| :: Calm(began, seen[j]) && Of(s.recs, conflicts[j], seen[j])
    ensures var s' := Advance(cfg, s, t, conflicts, began, until, recent, seen);
            t in s'.reqs && s'.now == s.now
            && (Light(s, s') ==> s'.recs == s.recs && Watching(cfg, s'.recs, s'.now, s'.reqs[t].pc))
            && (s'.reqs[t].pc.Observing? ==> Light(s, s'))
  {
    AdvanceCases(cfg, s, t, conflicts, began, until, recent, seen);
    SettleLight(cfg, Unlock(s), t, Blocked(BeingUnloaded, None));
    SettleLight(cfg, Unlock(s), t, Blocked(Working, None));
    SettleLight(cfg, Unlock(s), t, Blocked(RecentlyUsed, Some(until)));
    SettleLight(cfg, Unlock(s), t, Blocked(JustUsed, Some(s.now)));
  }

  /** The history after one more answered, calm observation. */
  function NextSeen(s: State, t: Tid, activity: Activity): seq<Sighting>
    requires t in s.reqs && s.reqs[t].pc.Observing? && PcShape(|s.recs|, s.reqs[t].pc)
  {
    var pc := s.reqs[t].pc;
    pc.seen + [Sighting(pc.glance, s.recs[pc.conflicts[|pc.seen|]], activity, s.now)]
  }

  /** A placer whose current conflict is idle and whose history is calm. */
  ghost predicate Poised(cfg: Config, s: State, t: Tid) {
    && t in s.reqs && s.reqs[t].pc.Observing? && RequestShape(cfg, |s.recs|, s.reqs[t])
    && Watching(cfg, s.recs, s.now, s.reqs[t].pc) && Idle(s.recs[s.reqs[t].pc.conflicts[|s.reqs[t].pc.seen|]])
  }

  lemma ObserversArePoised(cfg: Config, s: State, t: Tid)
    requires BaseInv(cfg, s) && WatchInv(cfg, s) && t in s.reqs && s.reqs[t].pc.Observing?
    ensures Poised(cfg, s, t)
  {
    assert RequestShape(cfg, |s.recs|, s.reqs[t]) && PcAt(s, t) && Watching(cfg, s.recs, s.now, s.reqs[t].pc);
  }

  lemma NextCalm(cfg: Config, s: State, t: Tid, activity: Activity)
    requires Poised(cfg, s, t) && !activity.processing && activity.deferred == 0
    ensures var pc, seen, s0 := s.reqs[t].pc, NextSeen(s, t, activity), Noticed(s, t, activity);
            && |seen| <= |pc.conflicts|
            && (forall j | 0 <= j < |seen| :: Calm(pc.began, seen[j]) && Of(s0.recs, pc.conflicts[j], seen[j]))
            && (forall j | 0 <= j < |seen| :: Of(s.recs, pc.conflicts[j], seen[j]))
  {
    var pc, seen, s0 := s.reqs[t].pc, NextSeen(s, t, activity), Noticed(s, t, activity);
    forall j | 0 <= j < |seen|
      ensures Calm(pc.began, seen[j]) && Of(s0.recs, pc.conflicts[j], seen[j]) && Of(s.recs, pc.conflicts[j], seen[j])
    {
      if j < |pc.seen| {
        assert seen[j] == pc.seen[j];
        assert Calm(pc.began, pc.seen[j]) && Of(s.recs, pc.conflicts[j], pc.seen[j]);
      }
    }
  }

  lemma NextPeak(cfg: Config, pc: Pc, x: Sighting)
    requires pc.Observing? && Peak(cfg, pc.began, pc.seen, pc.until, pc.recent)
    ensures var end, seen := Protected(cfg, x), pc.seen + [x];
            if end > pc.until then Peak(cfg, pc.began, seen, end, true)
            else Peak(cfg, pc.began, seen, pc.until, pc.recent)
  {
    var end, seen := Protected(cfg, x), pc.seen + [x];
    assert seen[|pc.seen|] == x;
    forall j | 0 <= j < |seen|
      ensures Protected(cfg, seen[j]) <= if end > pc.until then end else pc.until
    {
      if j < |pc.seen| { assert seen[j] == pc.seen[j]; }
    }
    if pc.recent && end <= pc.until {
      var j :| 0 <= j < |pc.seen| && Protected(cfg, pc.seen[j]) == pc.until;
      assert seen[j] == pc.seen[j];
    }
  }

  lemma ObservedWatches(cfg: Config, s: State, t: Tid, activity: Option<Activity>)
    requires BaseInv(cfg, s) && WatchInv(cfg, s) && t in s.reqs && s.reqs[t].pc.Observing?
    ensures RequestShape(cfg, |s.recs|, s.reqs[t])
    ensures var s' := DoObserved(cfg, s, t, activity);
            t in s'.reqs && s'.now == s.now && (s'.reqs[t].pc.Observing? ==> Watching(cfg, s'.recs, s'.now, s'.reqs[t].pc))
  {
    ObserversArePoised(cfg, s, t);
    if activity.None? {
      SettleLight(cfg, Unlock(s), t, Blocked(Unobservable, None));
    } else {
      var s0 := Noticed(s, t, activity.value);
      if activity.value.processing || activity.value.deferred != 0 {
        SettleLight(cfg, Unlock(s0), t, Blocked(ServerBusy, None));
      } else {
        CalmWatches(cfg, s, t, activity.value);
      }
    }
  }

  lemma CalmWatches(cfg: Config, s: State, t: Tid, activity: Activity)
    requires Poised(cfg, s, t) && !activity.processing && activity.deferred == 0
    ensures var s' := DoObserved(cfg, s, t, Some(activity));
            t in s'.reqs && s'.now == s.now && (s'.reqs[t].pc.Observing? ==> Watching(cfg, s'.recs, s'.now, s'.reqs[t].pc))
  {
    var pc, s0, seen := s.reqs[t].pc, Noticed(s, t, activity), NextSeen(s, t, activity);
    NextCalm(cfg, s, t, activity);
    NextPeak(cfg, pc, seen[|pc.seen|]);
    var end := Protected(cfg, seen[|pc.seen|]);
    if end > pc.until {
      AdvanceWatches(cfg, s0, t, pc.conflicts, pc.began, end, true, seen);
    } else {
      AdvanceWatches(cfg, s0, t, pc.conflicts, pc.began, pc.until, pc.recent, seen);
    }
  }

  lemma TakePlaceLockWatches(cfg: Config, s: State, t: Tid, conflicts: seq<Rid>)
    requires t in s.reqs && s.reqs[t].name in cfg.catalogue && LoadedShape(s.recs, s.loaded)
    requires InRange(conflicts, |s.recs|)
    ensures var s' := DoTakePlaceLock(cfg, s, t, conflicts);
            t in s'.reqs && s'.now == s.now && (s'.reqs[t].pc.Observing? ==> Watching(cfg, s'.recs, s'.now, s'.reqs[t].pc))
  {
    SettleLight(cfg, s, t, Blocked(BeingUnloaded, None));
    SettleLight(cfg, s, t, Blocked(LoadedByAnother, Some(s.now)));
    if s.reqs[t].name !in s.loaded {
      AdvanceWatches(cfg, s.(lock := Some(t)), t, conflicts, s.now, s.now, false, []);
    }
  }

  /** No other step starts watching, and the clock never goes back. */
  lemma OthersWatchNothing(cfg: Config, s: State, a: Action, s': State)
    requires Valid(cfg) && BaseInv(cfg, s) && Step(cfg, s, a, s') && !a.Observed? && !a.TakePlaceLock?
    ensures s'.now >= s.now
    ensures ByRequest(a) ==> OnlyMoved(s, s', a.t) && !s'.reqs[a.t].pc.Observing?
    ensures !ByRequest(a) ==> s'.reqs == s.reqs
  {
    if Plain(a) {
      PlainFacts(cfg, s, a);
      PlainClock(cfg, s, a);
    } else if a.TrackNext? {
      assert RequestShape(cfg, |s.recs|, s.reqs[a.t]);
    } else if !ByRequest(a) {
      OthersKeepLine(cfg, s, a);
      OthersKeepClock(cfg, s, a);
    }
  }

  lemma PlainClock(cfg: Config, s: State, a: Action)
    requires Shape(cfg, s) && Enabled(cfg, s, a) && Plain(a)
    ensures Apply(cfg, s, a).now == s.now
  {
    if !a.Arrive? { assert RequestShape(cfg, |s.recs|, s.reqs[a.t]); }
  }

  lemma OthersKeepClock(cfg: Config, s: State, a: Action)
    requires Shape(cfg, s) && Enabled(cfg, s, a) && !ByRequest(a)
    ensures Apply(cfg, s, a).now >= s.now
  {
    if ByTask(a) { assert TaskShape(|s.recs|, s.tasks[a.k]); }
  }

  lemma StepKeepsWatch(cfg: Config, s: State, a: Action, s': State)
    requires Valid(cfg) && BaseInv(cfg, s) && WatchInv(cfg, s) && Step(cfg, s, a, s')
    ensures WatchInv(cfg, s')
  {
    StepFinal(cfg, s, a, s');
    if a.Observed? {
      ObservedWatches(cfg, s, a.t, a.activity);
      ObservedShape(cfg, s, a.t, a.activity);
    } else if a.TakePlaceLock? {
      assert RequestShape(cfg, |s.recs|, s.reqs[a.t]);
      TakePlaceLockWatches(cfg, s, a.t, a.conflicts);
      RequestMove(cfg, s, a);
    } else {
      OthersWatchNothing(cfg, s, a, s');
    }
    forall u | u in s'.reqs
      ensures Watching(cfg, s'.recs, s'.now, s'.reqs[u].pc)
    {
      if u in s.reqs && s'.reqs[u] == s.reqs[u] {
        assert Watching(cfg, s.recs, s.now, s.reqs[u].pc);
        WatchStays(cfg, s, s', s.reqs[u].pc);
      }
    }
  }

  lemma NextWatch(cfg: Config, ss: seq<State>, acts: seq<Action>, i: nat)
    requires Run(cfg, ss, acts) && i < |acts| && WatchInv(cfg, ss[i])
    ensures WatchInv(cfg, ss[i + 1])
  {
    RunHasBase(cfg, ss, acts, i);
    assert Step(cfg, ss[i], acts[i], ss[i + 1]);
    StepKeepsWatch(cfg, ss[i], acts[i], ss[i + 1]);
  }

  lemma {:induction false} RunHasWatch(cfg: Config, ss: seq<State>, acts: seq<Action>, i: nat)
    requires Run(cfg, ss, acts) && i < |ss|
    ensures WatchInv(cfg, ss[i])
  {
    if i > 0 {
      RunHasWatch(cfg, ss, acts, i - 1);
      NextWatch(cfg, ss, acts, i - 1);
    }
  }

  // ----- What the decision rests on

  /** A model that has done no work, ours or others', for the whole protection window. */
  predicate AtRest(cfg: Config, began: real, x: Sighting) {
    && Calm(began, x)
    && x.found.decode == Some(x.activity.decode)
    && x.found.lastActivity + cfg.protect <= began
  }

  /**
   With a positive protection window, a request displaces exactly conflicts that were all seen
   at rest in the call that decided, and none of which is used at the decision.
   */
  lemma DisplacesOnlyTheIdle(cfg: Config, ss: seq<State>, acts: seq<Action>, i: nat)
    requires Run(cfg, ss, acts) && i < |acts| && acts[i].Observed? && Places(ss[i], acts[i], ss[i + 1])
    requires cfg.protect > 0.0
    ensures var s, s', t := ss[i], ss[i + 1], acts[i].t;
            && t in s.reqs && s.reqs[t].pc.Observing? && acts[i].activity.Some? && PcShape(|s.recs|, s.reqs[t].pc)
            && var pc, seen := s.reqs[t].pc, NextSeen(s, t, acts[i].activity.value);
            && |seen| == |pc.conflicts| && s'.tasks[|s.tasks|].victims == pc.conflicts
            && (forall j | 0 <= j < |seen| ::
                  AtRest(cfg, pc.began, seen[j]) && seen[j].found.variant == s.recs[pc.conflicts[j]].variant)
            && forall j | 0 <= j < |pc.conflicts| :: Untouched(s.recs[pc.conflicts[j]])
  {
    var s, s', t := ss[i], ss[i + 1], acts[i].t;
    RunHasBase(cfg, ss, acts, i);
    RunHasWatch(cfg, ss, acts, i);
    assert Step(cfg, s, acts[i], s');
    DecisionAtRest(cfg, s, t, acts[i].activity);
  }

  lemma DecisionAtRest(cfg: Config, s: State, t: Tid, activity: Option<Activity>)
    requires BaseInv(cfg, s) && WatchInv(cfg, s) && t in s.reqs && s.reqs[t].pc.Observing? && cfg.protect > 0.0
    requires RequestShape(cfg, |s.recs|, s.reqs[t]) ==> |DoObserved(cfg, s, t, activity).tasks| > |s.tasks|
    ensures RequestShape(cfg, |s.recs|, s.reqs[t]) && activity.Some?
    ensures var pc, seen := s.reqs[t].pc, NextSeen(s, t, activity.value);
            && |seen| == |pc.conflicts| && |DoObserved(cfg, s, t, activity).tasks| == |s.tasks| + 1
            && DoObserved(cfg, s, t, activity).tasks[|s.tasks|].victims == pc.conflicts
            && (forall j | 0 <= j < |seen| :: AtRest(cfg, pc.began, seen[j]) && Of(s.recs, pc.conflicts[j], seen[j]))
            && forall j | 0 <= j < |pc.conflicts| :: Untouched(s.recs[pc.conflicts[j]])
  {
    ObserversArePoised(cfg, s, t);
    ObservedCases(cfg, s, t, activity);
    var pc, s0 := s.reqs[t].pc, Noticed(s, t, activity.value);
    ObservedCalmly(cfg, s, t, activity);
    NextCalm(cfg, s, t, activity.value);
    NextPeak(cfg, pc, NextSeen(s, t, activity.value)[|pc.seen|]);
    ObservedMayDisplace(cfg, s, t, activity.value);
    forall j | 0 <= j < |pc.conflicts|
      ensures Untouched(s.recs[pc.conflicts[j]])
    {
      assert Idle(s0.recs[pc.conflicts[j]]) && !Used(s0.recs[pc.conflicts[j]]);
    }
  }

  /** A decision follows only a calm last observation, with no protection left to wait for. */
  lemma ObservedCalmly(cfg: Config, s: State, t: Tid, activity: Option<Activity>)
    requires t in s.reqs && s.reqs[t].pc.Observing? && RequestShape(cfg, |s.recs|, s.reqs[t])
    requires |DoObserved(cfg, s, t, activity).tasks| > |s.tasks|
    ensures activity.Some? && !activity.value.processing && activity.value.deferred == 0
    ensures Protected(cfg, NextSeen(s, t, activity.value)[|s.reqs[t].pc.seen|]) <= s.reqs[t].pc.until && !s.reqs[t].pc.recent
  {
    var pc := s.reqs[t].pc;
    if activity.None? {
      SettleLight(cfg, Unlock(s), t, Blocked(Unobservable, None));
    } else {
      var s0, seen := Noticed(s, t, activity.value), NextSeen(s, t, activity.value);
      SettleLight(cfg, Unlock(s0), t, Blocked(ServerBusy, None));
      AdvanceCases(cfg, s0, t, pc.conflicts, pc.began, Protected(cfg, seen[|pc.seen|]), true, seen);
      AdvanceCases(cfg, s0, t, pc.conflicts, pc.began, pc.until, pc.recent, seen);
    }
  }

  /**
   A request that is placed as soon as it takes the lock displaces nobody: nothing tracked stands in
   its way. Every other placement follows an observation.
   */
  lemma PlacedAtOnceDisplacesNobody(cfg: Config, ss: seq<State>, acts: seq<Action>, i: nat)
    requires Run(cfg, ss, acts) && i < |acts| && acts[i].TakePlaceLock? && Places(ss[i], acts[i], ss[i + 1])
    ensures var s, s', t := ss[i], ss[i + 1], acts[i].t;
            && t in s.reqs && s.reqs[t].name in cfg.catalogue && LoadedShape(s.recs, s.loaded)
            && (forall id | id in s.loaded :: !ClaimsConflict(s.recs[s.loaded[id]].variant, cfg.catalogue[s.reqs[t].name]))
            && s'.tasks[|s.tasks|].victims == [] && forall r | 0 <= r < |s.recs| :: s'.recs[r] == s.recs[r]
  {
    var s, t, conflicts := ss[i], acts[i].t, acts[i].conflicts;
    RunHasBase(cfg, ss, acts, i);
    assert Step(cfg, s, acts[i], ss[i + 1]) && RequestShape(cfg, |s.recs|, s.reqs[t]);
    TakePlaceLockCases(cfg, s, t, conflicts);
    assert ss[i + 1] == Commit(cfg, s, t, []);
  }

  // ----- Retry-After

  /** The least whole number of seconds, at least one, that reaches `until`. */
  predicate LeastWait(n: int, now: real, until: real) {
    n >= 1 && now + n as real >= until && (n == 1 || now + (n - 1) as real < until)
  }

  /**
   Of an end still to come, the wait is exact unless the end is taken for unknown, being zero,
   which no end still to come is while the clock is not negative.
   */
  lemma RetryAfterIsLeast(until: real, now: real)
    requires until > now
    ensures LeastWait(RetryAfter(Some(until), now), now, until) <==> until != 0.0 || -5.0 <= now < -4.0
    ensures now >= 0.0 ==> LeastWait(RetryAfter(Some(until), now), now, until)
  {
    var d := now - until;
    assert d.Floor as real <= d < d.Floor as real + 1.0;
  }

  /**
   A refusal for recent use comes no earlier than the deadline, and asks the caller to wait
   until the last protection among the observed conflicts ends.
   */
  lemma RecentRefusalIsExact(cfg: Config, ss: seq<State>, acts: seq<Action>, i: nat)
    requires Run(cfg, ss, acts) && i < |acts| && acts[i].Observed? && acts[i].t in ss[i].reqs
    requires acts[i].t in ss[i + 1].reqs
    requires RefusedAs(ss[i + 1].reqs[acts[i].t].pc, RecentlyUsed)
    ensures var s, t := ss[i], acts[i].t;
            && s.reqs[t].pc.Observing? && acts[i].activity.Some? && PcShape(|s.recs|, s.reqs[t].pc)
            && s.now >= s.reqs[t].deadline
            && exists until: real ::
                 && Peak(cfg, s.reqs[t].pc.began, NextSeen(s, t, acts[i].activity.value), until, true)
                 && until > s.now
                 && ss[i + 1].reqs[t].pc.outcome.why.retryAfter == RetryAfter(Some(until), s.now)
  {
    var s, t := ss[i], acts[i].t;
    RunHasBase(cfg, ss, acts, i);
    RunHasWatch(cfg, ss, acts, i);
    assert Step(cfg, s, acts[i], ss[i + 1]);
    assert RequestShape(cfg, |s.recs|, s.reqs[t]) && Watching(cfg, s.recs, s.now, s.reqs[t].pc);
    RecentRefusal(cfg, s, t, acts[i].activity);
  }

  lemma RecentRefusal(cfg: Config, s: State, t: Tid, activity: Option<Activity>)
    requires t in s.reqs && s.reqs[t].pc.Observing? && RequestShape(cfg, |s.recs|, s.reqs[t])
    requires Watching(cfg, s.recs, s.now, s.reqs[t].pc)
    requires t in DoObserved(cfg, s, t, activity).reqs
    requires RefusedAs(DoObserved(cfg, s, t, activity).reqs[t].pc, RecentlyUsed)
    ensures activity.Some? && s.now >= s.reqs[t].deadline
    ensures exists until: real ::
              && Peak(cfg, s.reqs[t].pc.began, NextSeen(s, t, activity.value), until, true) && until > s.now
              && DoObserved(cfg, s, t, activity).reqs[t].pc.outcome.why.retryAfter == RetryAfter(Some(until), s.now)
  {
    var pc := s.reqs[t].pc;
    SettleReason(cfg, Unlock(s), t, Blocked(Unobservable, None));
    var s0 := Noticed(s, t, activity.value);
    SettleReason(cfg, Unlock(s0), t, Blocked(ServerBusy, None));
    var seen := NextSeen(s, t, activity.value);
    NextPeak(cfg, pc, seen[|pc.seen|]);
    var end := Protected(cfg, seen[|pc.seen|]);
    if end > pc.until {
      AdvanceRefuses(cfg, s0, t, pc.conflicts, pc.began, end, true, seen);
      assert Peak(cfg, pc.began, seen, end, true);
    } else {
      AdvanceRefuses(cfg, s0, t, pc.conflicts, pc.began, pc.until, pc.recent, seen);
      assert Peak(cfg, pc.began, seen, pc.until, pc.recent);
    }
  }

  predicate RefusedAs(pc: Pc, reason: Reason) {
    pc.Ended? && pc.outcome.Refused? && pc.outcome.why.ResourceBusy? && pc.outcome.why.reason == reason
  }

  lemma SettleReason(cfg: Config, s: State, t: Tid, blocked: Blocked)
    requires t in s.reqs
    ensures forall reason | RefusedAs(Settle(cfg, s, t, blocked).reqs[t].pc, reason) ::
              && reason == blocked.reason && s.now >= s.reqs[t].deadline
              && (blocked.until.Some? ==> blocked.until.value > s.now)
              && Settle(cfg, s, t, blocked).reqs[t].pc.outcome.why.retryAfter == RetryAfter(blocked.until, s.now)
  {
  }

  lemma AdvanceRefuses(cfg: Config, s: State, t: Tid, conflicts: seq<Rid>, began: real, until: real,
                       recent: bool, seen: seq<Sighting>)
    requires t in s.reqs && s.reqs[t].name in cfg.catalogue && InRange(conflicts, |s.recs|)
    ensures var s' := Advance(cfg, s, t, conflicts, began, until, recent, seen);
            t in s'.reqs
            && (RefusedAs(s'.reqs[t].pc, RecentlyUsed) ==>
                  recent && until > s.now && s.now >= s.reqs[t].deadline
                  && s'.reqs[t].pc.outcome.why.retryAfter == RetryAfter(Some(until), s.now))
  {
    SettleReason(cfg, Unlock(s), t, Blocked(BeingUnloaded, None));
    SettleReason(cfg, Unlock(s), t, Blocked(Working, None));
    SettleReason(cfg, Unlock(s), t, Blocked(RecentlyUsed, Some(until)));
    SettleReason(cfg, Unlock(s), t, Blocked(JustUsed, Some(s.now)));
  }
}
