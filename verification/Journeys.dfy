/** Building a run step by step, from any state that some run reaches. */
module Journeys {
  import opened Wrappers
  import opened Claims
  import opened Machine
  import opened Frames
  import opened Base
  import opened Safety
  import opened SafeSteps
  import opened Runs
  import opened Owners

  /** An honest step, or, if `broken`, a survey that may also find a failed model being unloaded. */
  ghost predicate Fair(cfg: Config, broken: bool, s: State, a: Action) {
    && Shape(cfg, s) && Enabled(cfg, s, a)
    && (Honest(cfg, s, a) || (broken && a.Surveyed? && ExactReport(cfg, s, a.survey)))
  }

  ghost predicate Reached(cfg: Config, safe: bool, broken: bool, ss: seq<State>, acts: seq<Action>, s: State) {
    && Run(cfg, ss, acts) && ss[|acts|] == s && (safe ==> InitSafe(cfg, ss[0]))
    && forall i | 0 <= i < |acts| :: Fair(cfg, broken, ss[i], acts[i])
  }

  /** Some run of fair steps ends here; it starts where a sound survey leaves it if `safe`. */
  ghost predicate Reachable(cfg: Config, safe: bool, broken: bool, s: State) {
    exists ss, acts :: Reached(cfg, safe, broken, ss, acts, s)
  }

  /** The step is fair, and leads here, from a state in shape. */
  ghost predicate Moves(cfg: Config, broken: bool, s: State, a: Action, s': State) {
    Shape(cfg, s) ==> Fair(cfg, broken, s, a) && s' == Apply(cfg, s, a)
  }

  lemma Begin(cfg: Config, safe: bool, broken: bool, s: State)
    requires Valid(cfg) && Init(cfg, s) && (safe ==> InitSafe(cfg, s))
    ensures Reachable(cfg, safe, broken, s)
  {
    assert Reached(cfg, safe, broken, [s], [], s);
  }

  lemma Extends(cfg: Config, safe: bool, broken: bool, ss: seq<State>, acts: seq<Action>, s: State, a: Action, s': State)
    requires Reached(cfg, safe, broken, ss, acts, s) && Fair(cfg, broken, s, a) && s' == Apply(cfg, s, a)
    ensures Reached(cfg, safe, broken, ss + [s'], acts + [a], s')
  {
    var ss', acts' := ss + [s'], acts + [a];
    forall i | 0 <= i < |acts'|
      ensures Step(cfg, ss'[i], acts'[i], ss'[i + 1]) && Fair(cfg, broken, ss'[i], acts'[i])
    {
      if i < |acts| { assert Step(cfg, ss[i], acts[i], ss[i + 1]) && Fair(cfg, broken, ss[i], acts[i]); }
    }
    assert ss'[0] == ss[0];
  }

  lemma Go(cfg: Config, safe: bool, broken: bool, s: State, a: Action, s': State)
    requires Reachable(cfg, safe, broken, s) && Moves(cfg, broken, s, a, s')
    ensures Reachable(cfg, safe, broken, s')
  {
    var ss, acts :| Reached(cfg, safe, broken, ss, acts, s);
    RunHasBase(cfg, ss, acts, |acts|);
    Extends(cfg, safe, broken, ss, acts, s, a, s');
  }

  // ----- Common stretches, on any state

  /** A request arrives, and goes past the arrival check. */
  lemma GoQueue(cfg: Config, safe: bool, broken: bool, s: State, t: Tid, name: string)
    requires Reachable(cfg, safe, broken, s) && s.fit && s.waiting == [] && t !in s.reqs
    requires name in cfg.catalogue && name !in s.loaded
    ensures Reachable(cfg, safe, broken, s.(reqs := s.reqs[t := Request(name, s.now + cfg.maxWait, Queueing)],
                                            waiting := [Ticket(t, cfg.catalogue[name])]))
  {
    var s1 := Enter(cfg, s, t, name);
    Go(cfg, safe, broken, s, Arrive(t, name), s1);
    GoLook(cfg, safe, broken, s1, t, name);
    var q := Request(name, s.now + cfg.maxWait, Queueing);
    assert s1.reqs[t := q] == s.reqs[t := q];
  }

  lemma GoLook(cfg: Config, safe: bool, broken: bool, s: State, t: Tid, name: string)
    requires Reachable(cfg, safe, broken, s) && t in s.reqs && s.reqs[t].name == name && s.reqs[t].pc.Looking?
    requires name in cfg.catalogue && name !in s.loaded && s.waiting == [Ticket(t, cfg.catalogue[name])]
    ensures Reachable(cfg, safe, broken, SetPc(s, t, Queueing))
  {
    Go(cfg, safe, broken, s, Look(t), SetPc(s, t, Queueing));
  }

  /** The request's model is tracked, with its swap about to start. */
  function Placed(cfg: Config, s: State, t: Tid, victims: seq<Rid>): State
    requires t in s.reqs && s.reqs[t].name in cfg.catalogue
  {
    var name, n, k := s.reqs[t].name, |s.recs|, |s.tasks|;
    SetPc(s, t, Joining(n)).(
      recs := s.recs + [Fresh(cfg.catalogue[name], s.now, false).(loader := Some(k), queued := 1)],
      loaded := s.loaded[name := n], tasks := s.tasks + [Task(n, victims, 0, Starting, false)],
      waiting := Remove(s.waiting, t), lock := None)
  }

  lemma CommitPlaces(cfg: Config, s: State, t: Tid)
    requires t in s.reqs && s.reqs[t].name in cfg.catalogue && s.reqs[t].name !in s.loaded
    ensures DoTakePlaceLock(cfg, s, t, []) == Placed(cfg, s, t, [])
  {
    assert MarkLeaving(s.recs, [], |s.tasks|) == s.recs;
  }

  /** One record leaves for task `k`. */
  function Leaving(s: State, r: Rid, k: Kid): State
    requires r < |s.recs|
  {
    SetRec(s, r, s.recs[r].(leaving := true, unloader := Some(k), unloaded := false))
  }

  lemma CommitDisplaces(cfg: Config, s: State, t: Tid, r: Rid)
    requires t in s.reqs && s.reqs[t].name in cfg.catalogue && r < |s.recs|
    ensures Commit(cfg, s, t, [r]) == Placed(cfg, Leaving(s, r, |s.tasks|), t, [r])
  {
    assert MarkLeaving(s.recs, [r], |s.tasks|) == Leaving(s, r, |s.tasks|).recs;
  }

  /** A request is placed with nothing in its way. */
  lemma GoPlace(cfg: Config, safe: bool, broken: bool, s: State, t: Tid, name: string)
    requires Reachable(cfg, safe, broken, s) && t in s.reqs && s.reqs[t].name == name && s.reqs[t].pc.Queueing?
    requires name in cfg.catalogue && name !in s.loaded && s.lock.None? && LoadedShape(s.recs, s.loaded)
    requires forall id | id in s.loaded :: !ClaimsConflict(s.recs[s.loaded[id]].variant, cfg.catalogue[name])
    ensures Reachable(cfg, safe, broken, Placed(cfg, s, t, []))
  {
    PlacingMoves(cfg, broken, s, t, name);
    Go(cfg, safe, broken, s, TakePlaceLock(t, []), Placed(cfg, s, t, []));
  }

  lemma PlacingMoves(cfg: Config, broken: bool, s: State, t: Tid, name: string)
    requires t in s.reqs && s.reqs[t].name == name && s.reqs[t].pc.Queueing?
    requires name in cfg.catalogue && name !in s.loaded && s.lock.None? && LoadedShape(s.recs, s.loaded)
    requires forall id | id in s.loaded :: !ClaimsConflict(s.recs[s.loaded[id]].variant, cfg.catalogue[name])
    ensures Moves(cfg, broken, s, TakePlaceLock(t, []), Placed(cfg, s, t, []))
  {
    CommitPlaces(cfg, s, t);
    assert Conflicting(s.recs, s.loaded, cfg.catalogue[name], []);
  }

  /** The swap of a placed model starts its load. */
  lemma GoStart(cfg: Config, safe: bool, broken: bool, s: State, k: Kid)
    requires Reachable(cfg, safe, broken, s) && k < |s.tasks| && s.tasks[k].stage.Starting?
    requires TaskShape(|s.recs|, s.tasks[k])
    ensures Reachable(cfg, safe, broken, DoStartSwap(s, k))
  {
    Go(cfg, safe, broken, s, StartSwap(k), DoStartSwap(s, k));
  }

  lemma GoReturn(cfg: Config, safe: bool, broken: bool, s: State, k: Kid, failure: Option<string>)
    requires Reachable(cfg, safe, broken, s) && k < |s.tasks| && s.tasks[k].stage.Loading? && s.tasks[k].model < |s.recs|
    ensures Reachable(cfg, safe, broken, DoLoadReturned(s, k, failure))
  {
    Go(cfg, safe, broken, s, LoadReturned(k, failure), DoLoadReturned(s, k, failure));
  }

  /** The request's model is tracked, and its load is asked for. */
  function Asked(cfg: Config, s: State, t: Tid): State
    requires t in s.reqs && s.reqs[t].name in cfg.catalogue
  {
    var name, n, k := s.reqs[t].name, |s.recs|, |s.tasks|;
    SetPc(s, t, Joining(n)).(
      recs := s.recs + [Fresh(cfg.catalogue[name], s.now, false).(loader := Some(k), queued := 1, loads := 1)],
      loaded := s.loaded[name := n], tasks := s.tasks + [Task(n, [], 0, Loading, false)],
      waiting := Remove(s.waiting, t), lock := None, may := s.may + {name})
  }

  lemma AskedIs(cfg: Config, s: State, t: Tid)
    requires Valid(cfg) && t in s.reqs && s.reqs[t].name in cfg.catalogue
    ensures var s1, k := Placed(cfg, s, t, []), |s.tasks|;
            && k < |s1.tasks| && s1.tasks[k].stage.Starting? && TaskShape(|s1.recs|, s1.tasks[k])
            && DoStartSwap(s1, k) == Asked(cfg, s, t)
  {
    var s1 := Placed(cfg, s, t, []);
    var rec := s1.recs[|s.recs|];
    assert s1.recs[|s.recs| := rec.(loads := 1)] == Asked(cfg, s, t).recs;
  }

  /** A request is placed with nothing in its way, and its load is asked for. */
  lemma GoAsk(cfg: Config, safe: bool, broken: bool, s: State, t: Tid, name: string)
    requires Valid(cfg) && Reachable(cfg, safe, broken, s)
    requires t in s.reqs && s.reqs[t].name == name && s.reqs[t].pc.Queueing?
    requires name in cfg.catalogue && name !in s.loaded && s.lock.None? && LoadedShape(s.recs, s.loaded)
    requires forall id | id in s.loaded :: !ClaimsConflict(s.recs[s.loaded[id]].variant, cfg.catalogue[name])
    ensures Reachable(cfg, safe, broken, Asked(cfg, s, t))
  {
    GoPlace(cfg, safe, broken, s, t, name);
    AskedIs(cfg, s, t);
    GoStart(cfg, safe, broken, Placed(cfg, s, t, []), |s.tasks|);
  }

  /** A load succeeds, and its baseline is read. */
  lemma GoLoad(cfg: Config, safe: bool, broken: bool, s: State, k: Kid, decode: int)
    requires Reachable(cfg, safe, broken, s) && k < |s.tasks| && s.tasks[k].stage.Loading? && s.tasks[k].model < |s.recs|
    ensures Reachable(cfg, safe, broken, DoBaselineRead(DoLoadReturned(s, k, None), k, Some(decode)))
  {
    var s1 := DoLoadReturned(s, k, None);
    GoReturn(cfg, safe, broken, s, k, None);
    Go(cfg, safe, broken, s1, BaselineRead(k, Some(decode)), DoBaselineRead(s1, k, Some(decode)));
  }

  /** A load fails, and nobody can confirm that the model is gone. */
  lemma GoFail(cfg: Config, safe: bool, broken: bool, s: State, k: Kid)
    requires Reachable(cfg, safe, broken, s) && k < |s.tasks| && s.tasks[k].stage.Loading? && s.tasks[k].model < |s.recs|
    ensures Reachable(cfg, safe, broken, DoConfirmed(DoLoadReturned(s, k, Some("lost")), k, false))
  {
    var s1 := DoLoadReturned(s, k, Some("lost"));
    GoReturn(cfg, safe, broken, s, k, Some("lost"));
    Go(cfg, safe, broken, s1, Confirmed(k, false), DoConfirmed(s1, k, false));
  }

  /** A request arrives while the servers are unfit, and begins to check them. */
  lemma GoCheck(cfg: Config, safe: bool, broken: bool, s: State, t: Tid, name: string)
    requires Reachable(cfg, safe, broken, s) && !s.fit && s.lock.None? && t !in s.reqs && name in cfg.catalogue
    ensures Reachable(cfg, safe, broken, s.(reqs := s.reqs[t := Request(name, 0.0, Surveying(s.now))], lock := Some(t)))
  {
    var s1 := s.(reqs := s.reqs[t := Request(name, 0.0, Checking)]);
    Go(cfg, safe, broken, s, Arrive(t, name), s1);
    GoSurvey(cfg, safe, broken, s1, t);
    var q := Request(name, 0.0, Surveying(s.now));
    assert s1.reqs[t := q] == s.reqs[t := q];
  }

  lemma GoSurvey(cfg: Config, safe: bool, broken: bool, s: State, t: Tid)
    requires Reachable(cfg, safe, broken, s) && !s.fit && s.lock.None? && t in s.reqs && s.reqs[t].pc.Checking?
    ensures Reachable(cfg, safe, broken, SetPc(s, t, Surveying(s.now)).(lock := Some(t)))
  {
    Go(cfg, safe, broken, s, TakeCheckLock(t), SetPc(s, t, Surveying(s.now)).(lock := Some(t)));
  }

  /** The survey reaches every server and finds nothing, with nothing held and nothing in transit. */
  function Nothing(s: State, t: Tid, problems: bool): State
    requires t in s.reqs
  {
    SetPc(s, t, Tracking([])).(loaded := map[], may := {}, fit := !problems)
  }

  lemma GoNothing(cfg: Config, safe: bool, broken: bool, s: State, t: Tid, problems: bool)
    requires Reachable(cfg, safe, broken, s) && t in s.reqs && s.reqs[t].pc.Surveying? && s.held == {}
    requires LoadedShape(s.recs, s.loaded) && forall id | id in s.loaded :: !Kept(s.recs[s.loaded[id]], {})
    ensures Reachable(cfg, safe, broken, Nothing(s, t, problems))
  {
    NothingFound(cfg, s, t, problems);
    Go(cfg, safe, broken, s, Surveyed(t, Survey([], {}, problems)), Nothing(s, t, problems));
  }

  lemma NothingFound(cfg: Config, s: State, t: Tid, problems: bool)
    requires LoadedShape(s.recs, s.loaded) && t in s.reqs && s.reqs[t].pc.Surveying? && s.held == {}
    requires forall id | id in s.loaded :: !Kept(s.recs[s.loaded[id]], {})
    ensures var survey := Survey([], {}, problems);
            && Nothing(s, t, problems) == DoSurveyed(cfg, s, t, survey)
            && ExactReport(cfg, s, survey) && Unbroken(s, survey)
  {
    var survey := Survey([], {}, problems);
    assert Merged(s.recs, s.loaded, survey) == map[];
    assert s.may - ShownGone(cfg, s, survey) == {};
    assert s.recs + NewRecords(cfg, [], s.reqs[t].pc.began) == s.recs;
    assert From(|s.recs|, 0) == [];
  }

  lemma GoDone(cfg: Config, safe: bool, broken: bool, s: State, t: Tid)
    requires Reachable(cfg, safe, broken, s) && t in s.reqs && s.reqs[t].pc == Tracking([]) && s.reqs[t].name in cfg.catalogue
    ensures Reachable(cfg, safe, broken, DoTrackDone(cfg, s, t))
  {
    Go(cfg, safe, broken, s, TrackDone(t), DoTrackDone(cfg, s, t));
  }

  lemma GoWake(cfg: Config, safe: bool, broken: bool, s: State, t: Tid)
    requires Reachable(cfg, safe, broken, s) && t in s.reqs && s.reqs[t].pc.Joining? && s.reqs[t].pc.rid < |s.recs|
    requires s.recs[s.reqs[t].pc.rid].ready
    ensures Reachable(cfg, safe, broken, DoJoinWake(s, t))
  {
    Go(cfg, safe, broken, s, JoinWake(t), DoJoinWake(s, t));
  }

  lemma GoRelease(cfg: Config, safe: bool, broken: bool, s: State, t: Tid)
    requires Reachable(cfg, safe, broken, s) && t in s.reqs && s.reqs[t].pc.Admitted? && s.reqs[t].pc.rid < |s.recs|
    ensures Reachable(cfg, safe, broken, DoRelease(s, t))
  {
    Go(cfg, safe, broken, s, Release(t), DoRelease(s, t));
  }

  lemma GoTick(cfg: Config, safe: bool, broken: bool, s: State, d: real)
    requires Reachable(cfg, safe, broken, s) && d >= 0.0
    ensures Reachable(cfg, safe, broken, s.(now := s.now + d))
  {
    Go(cfg, safe, broken, s, Tick(d), s.(now := s.now + d));
  }

  lemma GoAppear(cfg: Config, safe: bool, broken: bool, s: State, id: string)
    requires Reachable(cfg, safe, broken, s) && id in s.may
    ensures Reachable(cfg, safe, broken, s.(held := s.held + {id}))
  {
    Go(cfg, safe, broken, s, Appear(id), s.(held := s.held + {id}));
  }

  lemma GoVanish(cfg: Config, safe: bool, broken: bool, s: State, id: string)
    requires Reachable(cfg, safe, broken, s)
    ensures Reachable(cfg, safe, broken, s.(held := s.held - {id}))
  {
    Go(cfg, safe, broken, s, Vanish(id), s.(held := s.held - {id}));
  }

  /** A model that answers with the decode count already known. */
  const CALM := Activity(false, 0, 0)

  /** Record `r` is all that stands in the way, ready and unused. */
  ghost predicate OnlyAt(cfg: Config, s: State, t: Tid, r: Rid) {
    && LoadedShape(s.recs, s.loaded) && t in s.reqs && s.reqs[t].name in cfg.catalogue && s.reqs[t].name !in s.loaded
    && Tracked(s.recs, s.loaded, r) && ClaimsConflict(s.recs[r].variant, cfg.catalogue[s.reqs[t].name])
    && (forall id | id in s.loaded && ClaimsConflict(s.recs[s.loaded[id]].variant, cfg.catalogue[s.reqs[t].name]) ::
          s.loaded[id] == r)
    && s.recs[r].ready && !Used(s.recs[r])
  }

  function Looks(s: State, t: Tid, r: Rid): State
    requires t in s.reqs && r < |s.recs|
  {
    SetPc(s, t, Observing([r], s.now, s.now, false, s.recs[r], [])).(lock := Some(t))
  }

  lemma GoGlance(cfg: Config, safe: bool, broken: bool, s: State, t: Tid, r: Rid)
    requires Reachable(cfg, safe, broken, s) && OnlyAt(cfg, s, t, r) && s.reqs[t].pc.Queueing? && s.lock.None?
    ensures Reachable(cfg, safe, broken, Looks(s, t, r))
  {
    assert [r][0] == r;
    Go(cfg, safe, broken, s, TakePlaceLock(t, [r]), Looks(s, t, r));
  }

  lemma GoDisplace(cfg: Config, safe: bool, broken: bool, s: State, t: Tid, r: Rid)
    requires OnlyAt(cfg, s, t, r) && Reachable(cfg, safe, broken, Looks(s, t, r))
    requires s.recs[r].decode == Some(0) && s.recs[r].lastActivity + cfg.protect <= s.now && Id(s, r) in s.held
    ensures Reachable(cfg, safe, broken, Placed(cfg, Leaving(s, r, |s.tasks|), t, [r]))
  {
    SeenAtRest(cfg, s, t, r);
    AnswerMoves(cfg, broken, Looks(s, t, r), t, CALM);
    CommitDisplaces(cfg, s, t, r);
    Go(cfg, safe, broken, Looks(s, t, r), Observed(t, Some(CALM)), Commit(cfg, s, t, [r]));
  }

  lemma AnswerMoves(cfg: Config, broken: bool, s: State, t: Tid, activity: Activity)
    requires t in s.reqs && s.reqs[t].pc.Observing? && RequestShape(cfg, |s.recs|, s.reqs[t])
    requires Id(s, s.reqs[t].pc.conflicts[|s.reqs[t].pc.seen|]) in s.held
    ensures Moves(cfg, broken, s, Observed(t, Some(activity)), DoObserved(cfg, s, t, Some(activity)))
  {
  }

  /** The request's model is tracked, and record `r` is being unloaded for it. */
  function Evicted(cfg: Config, s: State, t: Tid, r: Rid): State
    requires t in s.reqs && s.reqs[t].name in cfg.catalogue && r < |s.recs|
  {
    var name, n, k := s.reqs[t].name, |s.recs|, |s.tasks|;
    SetPc(s, t, Joining(n)).(
      recs := Leaving(s, r, k).recs + [Fresh(cfg.catalogue[name], s.now, false).(loader := Some(k), queued := 1)],
      loaded := s.loaded[name := n], tasks := s.tasks + [Task(n, [r], 0, Unloading, false)],
      waiting := Remove(s.waiting, t), lock := None)
  }

  lemma EvictedIs(cfg: Config, s: State, t: Tid, r: Rid)
    requires t in s.reqs && s.reqs[t].name in cfg.catalogue && r < |s.recs|
    ensures var s1, k := Placed(cfg, Leaving(s, r, |s.tasks|), t, [r]), |s.tasks|;
            && k < |s1.tasks| && s1.tasks[k].stage.Starting? && TaskShape(|s1.recs|, s1.tasks[k])
            && DoStartSwap(s1, k) == Evicted(cfg, s, t, r)
  {
    var s1, k := Placed(cfg, Leaving(s, r, |s.tasks|), t, [r]), |s.tasks|;
    assert s1.tasks[k := s1.tasks[k].(stage := Unloading)] == Evicted(cfg, s, t, r).tasks;
  }

  /** A request looks at the one record in its way, displaces it, and its unload is asked for. */
  lemma GoEvict(cfg: Config, safe: bool, broken: bool, s: State, t: Tid, r: Rid)
    requires Reachable(cfg, safe, broken, s) && OnlyAt(cfg, s, t, r) && s.reqs[t].pc.Queueing? && s.lock.None?
    requires s.recs[r].decode == Some(0) && s.recs[r].lastActivity + cfg.protect <= s.now && Id(s, r) in s.held
    ensures Reachable(cfg, safe, broken, Evicted(cfg, s, t, r))
  {
    GoGlance(cfg, safe, broken, s, t, r);
    GoDisplace(cfg, safe, broken, s, t, r);
    EvictedIs(cfg, s, t, r);
    GoStart(cfg, safe, broken, Placed(cfg, Leaving(s, r, |s.tasks|), t, [r]), |s.tasks|);
  }

  lemma SeenAtRest(cfg: Config, s: State, t: Tid, r: Rid)
    requires OnlyAt(cfg, s, t, r) && s.recs[r].decode == Some(0) && s.recs[r].lastActivity + cfg.protect <= s.now
    ensures DoObserved(cfg, Looks(s, t, r), t, Some(CALM)) == Commit(cfg, s, t, [r])
  {
    var s1 := Looks(s, t, r);
    LooksRight(s, t, r);
    AdvanceCases(cfg, s1, t, [r], s.now, s.now, false, [Sighting(s.recs[r], s.recs[r], CALM, s.now)]);
    assert Commit(cfg, s1, t, [r]) == Commit(cfg, s, t, [r]);
  }

  lemma LooksRight(s: State, t: Tid, r: Rid)
    requires t in s.reqs && r < |s.recs| && s.recs[r].decode == Some(0) && !Used(s.recs[r])
    ensures Noted(s.recs[r], CALM, s.now) == s.recs[r] && SetRec(Looks(s, t, r), r, s.recs[r]) == Looks(s, t, r)
    ensures !JustWasUsed(s.recs, [r])
  {
  }

  // ----- Stretches that keep every hypothesis

  lemma GoOne(cfg: Config, safe: bool, broken: bool, s: State, a: Action, s': State)
    requires Reachable(cfg, safe, broken, s) && Step(cfg, s, a, s') && HonestStep(cfg, s, a)
    ensures Reachable(cfg, safe, broken, s')
  {
    Go(cfg, safe, broken, s, a, s');
  }

  lemma OnPath(cfg: Config, s: State, ss: seq<State>, acts: seq<Action>, i: nat)
    requires SoundPath(cfg, s, ss, acts) && i < |acts|
    ensures Step(cfg, ss[i], acts[i], ss[i + 1]) && HonestStep(cfg, ss[i], acts[i])
  {
  }

  lemma {:induction false} GoAlong(cfg: Config, safe: bool, broken: bool, s: State, ss: seq<State>, acts: seq<Action>, i: nat)
    requires Reachable(cfg, safe, broken, s) && SoundPath(cfg, s, ss, acts) && i < |ss|
    ensures Reachable(cfg, safe, broken, ss[i])
  {
    if i > 0 {
      GoAlong(cfg, safe, broken, s, ss, acts, i - 1);
      OnPath(cfg, s, ss, acts, i - 1);
      GoOne(cfg, safe, broken, ss[i - 1], acts[i - 1], ss[i]);
    }
  }

  /** Some run has a deletion that misses: the step is fair, and the run reaches its state. */
  ghost predicate MissReached(cfg: Config, safe: bool, broken: bool, s: State, a: Action) {
    Reachable(cfg, safe, broken, s) && Fair(cfg, broken, s, a) && Misses(s, a)
  }

  lemma ReachedBase(cfg: Config, safe: bool, broken: bool, s: State)
    requires Reachable(cfg, safe, broken, s)
    ensures BaseInv(cfg, s) && Valid(cfg)
  {
    var ss, acts :| Reached(cfg, safe, broken, ss, acts, s);
    RunHasBase(cfg, ss, acts, |acts|);
  }

  /** A swap that is stuck comes to a deletion that misses. */
  lemma StuckReaches(cfg: Config, safe: bool, broken: bool, s: State, k: Kid, j: nat) returns (s': State, a: Action)
    requires Reachable(cfg, safe, broken, s) && Stuck(s, k, j)
    ensures MissReached(cfg, safe, broken, s', a)
  {
    ReachedBase(cfg, safe, broken, s);
    var ss, acts := StuckMisses(cfg, s, k, j);
    var n := |acts| - 1;
    GoAlong(cfg, safe, broken, s, ss, acts, n);
    OnPath(cfg, s, ss, acts, n);
    return ss[n], acts[n];
  }
}
