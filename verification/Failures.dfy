/**
 Runs in which a condition of the theorems is not met and the property fails: each condition is
 needed in every configuration that has anything to decide.
 */
module Failures {
  import opened Wrappers
  import opened Claims
  import opened Machine
  import opened Safety
  import opened Shapes
  import opened Frames
  import opened Runs
  import opened Protection
  import opened Faithful
  import opened Owners
  import opened Rivals
  import opened Journeys

  // ----- A request is interrupted

  /** Two models that compete for a resource. */
  predicate Compete(cfg: Config, m: string, q: string) {
    m in cfg.catalogue && q in cfg.catalogue && m != q && ClaimsConflict(cfg.catalogue[m], cfg.catalogue[q])
  }

  /** A record of a model, to be made ready by task `k`. */
  function Rec(cfg: Config, id: string, k: Kid): Record
    requires id in cfg.catalogue
  {
    Fresh(cfg.catalogue[id], 0.0, false).(loader := Some(k))
  }

  function LostRec(cfg: Config, q: string): Record
    requires q in cfg.catalogue
  {
    Rec(cfg, q, 0).(error := Some("lost"), ready := true)
  }

  /** A record whose load has succeeded. */
  function Loaded(cfg: Config, id: string, k: Kid): Record
    requires id in cfg.catalogue
  {
    Rec(cfg, id, k).(loads := 1, ready := true, decode := Some(0))
  }

  function Done(r: Rid, adopted: bool): Task {
    Task(r, [], 0, Over, adopted)
  }

  function Asks(cfg: Config, name: string, pc: Pc): Request {
    Request(name, cfg.maxWait, pc)
  }

  const UNFIT := Ended(Refused(RouterUnfit))

  /** `q` was loading when the scheduler started, and is being watched. */
  function Adopting(cfg: Config, q: string): State
    requires q in cfg.catalogue
  {
    State([Rec(cfg, q, 0)], map[q := 0], true, [], map[], [Task(0, [], 0, Loading, true)], None, [], 0.0, {q}, {})
  }

  lemma ToAdopting(cfg: Config, broken: bool, q: string)
    requires Valid(cfg) && q in cfg.catalogue
    ensures Reachable(cfg, true, broken, Adopting(cfg, q))
  {
    var s := Adopting(cfg, q);
    var s0 := s.(recs := [Fresh(cfg.catalogue[q], 0.0, false)], tasks := [], startup := [0]);
    assert [0] == From(0, 1);
    Begin(cfg, true, broken, s0);
    Go(cfg, true, broken, s0, StartupTrack(None), s);
  }

  /** The load of `q` failed and nobody could confirm it; a request for `m` is past the arrival check. */
  function Lost(cfg: Config, m: string, q: string): State
    requires m in cfg.catalogue && q in cfg.catalogue
  {
    State([LostRec(cfg, q)], map[q := 0], false, [Ticket(1, cfg.catalogue[m])], map[1 := Asks(cfg, m, Queueing)],
          [Done(0, true)], None, [], 0.0, {q}, {})
  }

  lemma ToLost(cfg: Config, broken: bool, m: string, q: string)
    requires Valid(cfg) && Compete(cfg, m, q)
    ensures Reachable(cfg, true, broken, Lost(cfg, m, q))
  {
    ToAdopting(cfg, broken, q);
    GoQueue(cfg, true, broken, Adopting(cfg, q), 1, m);
    var s := Adopting(cfg, q).(waiting := [Ticket(1, cfg.catalogue[m])], reqs := map[1 := Asks(cfg, m, Queueing)]);
    GoFail(cfg, true, broken, s, 0);
    assert DoConfirmed(DoLoadReturned(s, 0, Some("lost")), 0, false) == Lost(cfg, m, q);
  }

  /** A survey found `q` gone, and a problem elsewhere. */
  function StillUnfit(cfg: Config, m: string, q: string): State
    requires m in cfg.catalogue && q in cfg.catalogue
  {
    State([LostRec(cfg, q)], map[], false, [Ticket(1, cfg.catalogue[m])],
          map[1 := Asks(cfg, m, Queueing), 2 := Request(m, 0.0, UNFIT)], [Done(0, true)], None, [], 0.0, {}, {})
  }

  lemma ToFirstSurvey(cfg: Config, m: string, q: string)
    requires Valid(cfg) && Compete(cfg, m, q)
    ensures Reachable(cfg, true, false, Nothing(FirstSurvey(cfg, m, q), 2, true))
  {
    ToLost(cfg, false, m, q);
    GoCheck(cfg, true, false, Lost(cfg, m, q), 2, m);
    GoNothing(cfg, true, false, FirstSurvey(cfg, m, q), 2, true);
  }

  function FirstSurvey(cfg: Config, m: string, q: string): State
    requires m in cfg.catalogue && q in cfg.catalogue
  {
    var s := Lost(cfg, m, q);
    s.(reqs := s.reqs[2 := Request(m, 0.0, Surveying(0.0))], lock := Some(2))
  }

  lemma ToStillUnfit(cfg: Config, m: string, q: string)
    requires Valid(cfg) && Compete(cfg, m, q)
    ensures Reachable(cfg, true, false, StillUnfit(cfg, m, q))
  {
    ToFirstSurvey(cfg, m, q);
    var s := Nothing(FirstSurvey(cfg, m, q), 2, true);
    GoDone(cfg, true, false, s, 2);
    assert DoTrackDone(cfg, s, 2) == StillUnfit(cfg, m, q);
  }

  /** The request for `m` was placed, and its load is under way. */
  function First(cfg: Config, m: string, q: string): State
    requires m in cfg.catalogue && q in cfg.catalogue
  {
    State([LostRec(cfg, q), Rec(cfg, m, 1).(queued := 1, loads := 1)], map[m := 1], false, [],
          map[1 := Asks(cfg, m, Joining(1)), 2 := Request(m, 0.0, UNFIT)],
          [Done(0, true), Task(1, [], 0, Loading, false)], None, [], 0.0, {m}, {})
  }

  lemma ToFirst(cfg: Config, m: string, q: string)
    requires Valid(cfg) && Compete(cfg, m, q)
    ensures Reachable(cfg, true, false, First(cfg, m, q))
  {
    ToStillUnfit(cfg, m, q);
    GoAsk(cfg, true, false, StillUnfit(cfg, m, q), 1, m);
    assert Asked(cfg, StillUnfit(cfg, m, q), 1) == First(cfg, m, q);
  }

  /** `m` was loaded and lost again, while another request for it was checking the servers. */
  function Vain(cfg: Config, m: string, q: string): State
    requires m in cfg.catalogue && q in cfg.catalogue
  {
    State([LostRec(cfg, q), Loaded(cfg, m, 1).(queued := 1)], map[m := 1], false, [],
          map[1 := Asks(cfg, m, Joining(1)), 2 := Request(m, 0.0, UNFIT), 3 := Request(m, 0.0, Surveying(0.0))],
          [Done(0, true), Done(1, false)], Some(3), [], 0.0, {m}, {})
  }

  lemma ToVain(cfg: Config, m: string, q: string)
    requires Valid(cfg) && Compete(cfg, m, q)
    ensures Reachable(cfg, true, false, Vain(cfg, m, q))
  {
    ToFirst(cfg, m, q);
    var s0 := First(cfg, m, q);
    GoCheck(cfg, true, false, s0, 3, m);
    var s1 := s0.(reqs := s0.reqs[3 := Request(m, 0.0, Surveying(0.0))], lock := Some(3));
    GoAppear(cfg, true, false, s1, m);
    var s2 := s1.(held := {m});
    assert s1.held + {m} == {m};
    GoLoad(cfg, true, false, s2, 1, 0);
    var s3 := Vain(cfg, m, q).(held := {m});
    assert DoBaselineRead(DoLoadReturned(s2, 1, None), 1, Some(0)) == s3;
    GoVanish(cfg, true, false, s3, m);
    assert s3.held - {m} == {};
  }

  /** The exact survey dropped `m`, whose first request had not run yet; the second asks for it anew. */
  function Second(cfg: Config, m: string, q: string): State
    requires m in cfg.catalogue && q in cfg.catalogue
  {
    State([LostRec(cfg, q), Loaded(cfg, m, 1).(queued := 1)], map[], true, [Ticket(3, cfg.catalogue[m])],
          map[1 := Asks(cfg, m, Joining(1)), 2 := Request(m, 0.0, UNFIT), 3 := Asks(cfg, m, Queueing)],
          [Done(0, true), Done(1, false)], None, [], 0.0, {}, {})
  }

  lemma ToDropped(cfg: Config, m: string, q: string)
    requires Valid(cfg) && Compete(cfg, m, q)
    ensures Reachable(cfg, true, false, DoTrackDone(cfg, Nothing(Vain(cfg, m, q), 3, false), 3))
  {
    ToVain(cfg, m, q);
    GoNothing(cfg, true, false, Vain(cfg, m, q), 3, false);
    GoDone(cfg, true, false, Nothing(Vain(cfg, m, q), 3, false), 3);
  }

  lemma ToSecond(cfg: Config, m: string, q: string)
    requires Valid(cfg) && Compete(cfg, m, q)
    ensures Reachable(cfg, true, false, Second(cfg, m, q))
  {
    ToDropped(cfg, m, q);
    var s := DoTrackDone(cfg, Nothing(Vain(cfg, m, q), 3, false), 3);
    GoLook(cfg, true, false, s, 3, m);
    assert SetPc(s, 3, Queueing) == Second(cfg, m, q);
  }

  /** The first request has run, and is admitted to the dropped record. */
  function Strayed(cfg: Config, m: string, q: string): State
    requires m in cfg.catalogue && q in cfg.catalogue
  {
    State([LostRec(cfg, q), Loaded(cfg, m, 1).(active := 1)], map[], true, [Ticket(3, cfg.catalogue[m])],
          map[1 := Asks(cfg, m, Admitted(1)), 2 := Request(m, 0.0, UNFIT), 3 := Asks(cfg, m, Queueing)],
          [Done(0, true), Done(1, false)], None, [], 0.0, {}, {})
  }

  lemma ToStrayed(cfg: Config, m: string, q: string)
    requires Valid(cfg) && Compete(cfg, m, q)
    ensures Reachable(cfg, true, false, Strayed(cfg, m, q))
  {
    ToSecond(cfg, m, q);
    GoWake(cfg, true, false, Second(cfg, m, q), 1);
    assert DoJoinWake(Second(cfg, m, q), 1) == Strayed(cfg, m, q);
  }

  /** `m` is placed again, and its load is under way. */
  function Again(cfg: Config, m: string, q: string): State
    requires m in cfg.catalogue && q in cfg.catalogue
  {
    State([LostRec(cfg, q), Loaded(cfg, m, 1).(active := 1), Rec(cfg, m, 2).(queued := 1, loads := 1)],
          map[m := 2], true, [],
          map[1 := Asks(cfg, m, Admitted(1)), 2 := Request(m, 0.0, UNFIT), 3 := Asks(cfg, m, Joining(2))],
          [Done(0, true), Done(1, false), Task(2, [], 0, Loading, false)], None, [], 0.0, {m}, {})
  }

  lemma ToAgain(cfg: Config, m: string, q: string)
    requires Valid(cfg) && Compete(cfg, m, q)
    ensures Reachable(cfg, true, false, Again(cfg, m, q))
  {
    ToStrayed(cfg, m, q);
    GoAsk(cfg, true, false, Strayed(cfg, m, q), 3, m);
    assert Asked(cfg, Strayed(cfg, m, q), 3) == Again(cfg, m, q);
  }

  /** The second request has been served. */
  function Served(cfg: Config, m: string, q: string): State
    requires m in cfg.catalogue && q in cfg.catalogue
  {
    State([LostRec(cfg, q), Loaded(cfg, m, 1).(active := 1), Loaded(cfg, m, 2)], map[m := 2], true, [],
          map[1 := Asks(cfg, m, Admitted(1)), 2 := Request(m, 0.0, UNFIT), 3 := Asks(cfg, m, Ended(Finished))],
          [Done(0, true), Done(1, false), Done(2, false)], None, [], 0.0, {m}, {})
  }

  lemma ToServed(cfg: Config, m: string, q: string)
    requires Valid(cfg) && Compete(cfg, m, q)
    ensures Reachable(cfg, true, false, Served(cfg, m, q))
  {
    ToReady(cfg, m, q);
    var s1 := Ready(cfg, m, q);
    GoWake(cfg, true, false, s1, 3);
    var s2 := DoJoinWake(s1, 3);
    GoRelease(cfg, true, false, s2, 3);
    assert DoRelease(s2, 3) == Served(cfg, m, q);
  }

  function Ready(cfg: Config, m: string, q: string): State
    requires m in cfg.catalogue && q in cfg.catalogue
  {
    State([LostRec(cfg, q), Loaded(cfg, m, 1).(active := 1), Loaded(cfg, m, 2).(queued := 1)], map[m := 2], true, [],
          map[1 := Asks(cfg, m, Admitted(1)), 2 := Request(m, 0.0, UNFIT), 3 := Asks(cfg, m, Joining(2))],
          [Done(0, true), Done(1, false), Done(2, false)], None, [], 0.0, {m}, {})
  }

  lemma ToReady(cfg: Config, m: string, q: string)
    requires Valid(cfg) && Compete(cfg, m, q)
    ensures Reachable(cfg, true, false, Ready(cfg, m, q))
  {
    ToAgain(cfg, m, q);
    GoLoad(cfg, true, false, Again(cfg, m, q), 2, 0);
    assert DoBaselineRead(DoLoadReturned(Again(cfg, m, q), 2, None), 2, Some(0)) == Ready(cfg, m, q);
  }

  /** The window of `m` is over, and a request for `q` is past the arrival check. */
  function Rested(cfg: Config, m: string, q: string, d: real): State
    requires m in cfg.catalogue && q in cfg.catalogue
  {
    State([LostRec(cfg, q), Loaded(cfg, m, 1).(active := 1), Loaded(cfg, m, 2)], map[m := 2], true,
          [Ticket(4, cfg.catalogue[q])],
          map[1 := Asks(cfg, m, Admitted(1)), 2 := Request(m, 0.0, UNFIT), 3 := Asks(cfg, m, Ended(Finished)),
              4 := Request(q, d + cfg.maxWait, Queueing)],
          [Done(0, true), Done(1, false), Done(2, false)], None, [], d, {m}, {m})
  }

  lemma ToRested(cfg: Config, m: string, q: string, d: real)
    requires Valid(cfg) && Compete(cfg, m, q) && d >= 0.0
    ensures Reachable(cfg, true, false, Rested(cfg, m, q, d))
  {
    ToServed(cfg, m, q);
    var s0 := Served(cfg, m, q);
    GoAppear(cfg, true, false, s0, m);
    var s1 := s0.(held := {m});
    assert s0.held + {m} == {m};
    GoTick(cfg, true, false, s1, d);
    GoQueue(cfg, true, false, s1.(now := d), 4, q);
    assert s1.reqs[4 := Request(q, d + cfg.maxWait, Queueing)] == Rested(cfg, m, q, d).reqs;
  }

  /** The unload of a model is in flight while a request is admitted to a record of that model. */
  predicate Interrupted(s: State, k: Kid, t: Tid) {
    && k < |s.tasks| && s.tasks[k].stage.Unloading? && s.tasks[k].next < |s.tasks[k].victims|
    && s.tasks[k].victims[s.tasks[k].next] < |s.recs|
    && t in s.reqs && s.reqs[t].pc.Admitted? && s.reqs[t].pc.rid < |s.recs|
    && Id(s, s.reqs[t].pc.rid) == Id(s, s.tasks[k].victims[s.tasks[k].next])
  }

  lemma RestedIsOnlyAt(cfg: Config, m: string, q: string, d: real)
    requires Valid(cfg) && Compete(cfg, m, q)
    ensures OnlyAt(cfg, Rested(cfg, m, q, d), 4, 2)
  {
  }

  lemma ToInterrupted(cfg: Config, m: string, q: string) returns (s: State)
    requires Valid(cfg) && Compete(cfg, m, q)
    ensures Reachable(cfg, true, false, s) && Interrupted(s, 3, 1)
  {
    var d := if cfg.protect > 0.0 then cfg.protect else 0.0;
    ToRested(cfg, m, q, d);
    RestedIsOnlyAt(cfg, m, q, d);
    var s0 := Rested(cfg, m, q, d);
    GoEvict(cfg, true, false, s0, 4, 2);
    s := Evicted(cfg, s0, 4, 2);
  }

  /** Some honest run has a request admitted to a model whose unload is in flight. */
  ghost predicate Interruptible(cfg: Config) {
    exists ss, acts, i, k, t :: HonestRun(cfg, ss, acts) && 0 <= i < |ss| && Interrupted(ss[i], k, t)
  }

  lemma InterruptedCompete(cfg: Config, ss: seq<State>, acts: seq<Action>, i: nat, k: Kid, t: Tid) returns (m: string, q: string)
    requires HonestRun(cfg, ss, acts) && i < |ss| && Interrupted(ss[i], k, t)
    ensures Compete(cfg, m, q)
  {
    m, q := SwapCompetes(cfg, ss, acts, i, k);
  }

  lemma SwapCompetes(cfg: Config, ss: seq<State>, acts: seq<Action>, i: nat, k: Kid) returns (m: string, q: string)
    requires Run(cfg, ss, acts) && i < |ss| && k < |ss[i].tasks| && ss[i].tasks[k].next < |ss[i].tasks[k].victims|
    ensures Compete(cfg, m, q)
  {
    var s := ss[i];
    var v := s.tasks[k].victims[s.tasks[k].next];
    RunHasBase(cfg, ss, acts, i);
    UnloadsOnlyRivals(cfg, ss, acts, i, k, v);
    assert InCatalogue(cfg, s.recs[v].variant) && InCatalogue(cfg, s.recs[s.tasks[k].model].variant);
    return s.recs[v].variant.id, s.recs[s.tasks[k].model].variant.id;
  }

  /**
   Requests are interrupted in some honest run of exactly the configurations in which anything is
   ever unloaded: those with two models that compete. Sparing surveys exclude it (see
   `UnloadsOnlyTheUnused`).
   */
  lemma InterruptibleExactly(cfg: Config)
    requires Valid(cfg)
    ensures Interruptible(cfg) <==> exists m, q :: Compete(cfg, m, q)
  {
    if Interruptible(cfg) {
      var ss, acts, i, k, t :| HonestRun(cfg, ss, acts) && 0 <= i < |ss| && Interrupted(ss[i], k, t);
      var m, q := InterruptedCompete(cfg, ss, acts, i, k, t);
    }
    if m, q :| Compete(cfg, m, q) {
      var s := ToInterrupted(cfg, m, q);
      var ss, acts :| Reached(cfg, true, false, ss, acts, s);
      FairIsHonest(cfg, ss, acts, s);
      assert Interrupted(ss[|acts|], 3, 1);
    }
  }

  lemma FairIsHonest(cfg: Config, ss: seq<State>, acts: seq<Action>, s: State)
    requires Reached(cfg, true, false, ss, acts, s)
    ensures HonestRun(cfg, ss, acts)
  {
    forall i | 0 <= i < |acts|
      ensures HonestStep(cfg, ss[i], acts[i])
    {
      assert Fair(cfg, false, ss[i], acts[i]);
    }
  }

  // ----- A survey finds a failed model that is being unloaded

  const BUSY := Activity(true, 0, 0)

  /** `q`, whose load was lost, is up after all, and was busy when the request for `m` looked. */
  function Seen(cfg: Config, m: string, q: string, pc: Pc): State
    requires m in cfg.catalogue && q in cfg.catalogue
  {
    State([LostRec(cfg, q).(decode := Some(0))], map[q := 0], false, [Ticket(1, cfg.catalogue[m])],
          map[1 := Asks(cfg, m, pc)], [Done(0, true)], None, [], 0.0, {q}, {q})
  }

  lemma ToGlance(cfg: Config, m: string, q: string)
    requires Valid(cfg) && Compete(cfg, m, q)
    ensures Reachable(cfg, true, true, Looks(Lost(cfg, m, q).(held := {q}), 1, 0))
  {
    ToLost(cfg, true, m, q);
    var s0 := Lost(cfg, m, q);
    GoAppear(cfg, true, true, s0, q);
    assert s0.held + {q} == {q};
    GoGlance(cfg, true, true, s0.(held := {q}), 1, 0);
  }

  lemma ToSeen(cfg: Config, m: string, q: string) returns (recheck: real)
    requires Valid(cfg) && Compete(cfg, m, q) && cfg.maxWait > 0.0
    ensures Reachable(cfg, true, true, Seen(cfg, m, q, Sleeping(recheck)))
  {
    ToGlance(cfg, m, q);
    recheck := if cfg.poll < cfg.maxWait then cfg.poll else cfg.maxWait;
    SeenIs(cfg, m, q, recheck);
    var s := Lost(cfg, m, q).(held := {q});
    Go(cfg, true, true, Looks(s, 1, 0), Observed(1, Some(BUSY)), Seen(cfg, m, q, Sleeping(recheck)));
  }

  lemma SeenIs(cfg: Config, m: string, q: string, recheck: real)
    requires Valid(cfg) && Compete(cfg, m, q) && cfg.maxWait > 0.0
    requires recheck == if cfg.poll < cfg.maxWait then cfg.poll else cfg.maxWait
    ensures var s := Lost(cfg, m, q).(held := {q});
            DoObserved(cfg, Looks(s, 1, 0), 1, Some(BUSY)) == Seen(cfg, m, q, Sleeping(recheck))
  {
  }

  lemma ToLookedAgain(cfg: Config, m: string, q: string, d: real)
    requires Valid(cfg) && Compete(cfg, m, q) && cfg.maxWait > 0.0 && d >= 0.0
    ensures Reachable(cfg, true, true, Seen(cfg, m, q, Queueing).(now := d))
  {
    var recheck := ToSeen(cfg, m, q);
    var s0 := Seen(cfg, m, q, Sleeping(recheck));
    assert SetPc(s0, 1, Looking) == Seen(cfg, m, q, Looking);
    Go(cfg, true, true, s0, Wake(1), Seen(cfg, m, q, Looking));
    GoLook(cfg, true, true, Seen(cfg, m, q, Looking), 1, m);
    assert SetPc(Seen(cfg, m, q, Looking), 1, Queueing) == Seen(cfg, m, q, Queueing);
    GoTick(cfg, true, true, Seen(cfg, m, q, Queueing), d);
  }

  /** `q` is being unloaded for `m`, and a request is checking the servers. */
  function Evicting(cfg: Config, m: string, q: string, d: real): State
    requires m in cfg.catalogue && q in cfg.catalogue
  {
    State([LostRec(cfg, q).(decode := Some(0), leaving := true, unloader := Some(1)),
           Fresh(cfg.catalogue[m], d, false).(loader := Some(1), queued := 1)],
          map[q := 0, m := 1], false, [], map[1 := Asks(cfg, m, Joining(1)), 2 := Request(m, 0.0, Surveying(d))],
          [Done(0, true), Task(1, [0], 0, Unloading, false)], Some(2), [], d, {q}, {q})
  }

  lemma ToEvicting(cfg: Config, m: string, q: string, d: real)
    requires Valid(cfg) && Compete(cfg, m, q) && cfg.maxWait > 0.0 && d >= 0.0 && cfg.protect <= d
    ensures Reachable(cfg, true, true, Evicting(cfg, m, q, d))
  {
    ToLookedAgain(cfg, m, q, d);
    var s0 := Seen(cfg, m, q, Queueing).(now := d);
    GoEvict(cfg, true, true, s0, 1, 0);
    GoCheck(cfg, true, true, Evicted(cfg, s0, 1, 0), 2, m);
    EvictingIs(cfg, m, q, d);
  }

  lemma EvictingIs(cfg: Config, m: string, q: string, d: real)
    requires Compete(cfg, m, q)
    ensures var s := Evicted(cfg, Seen(cfg, m, q, Queueing).(now := d), 1, 0);
            Evicting(cfg, m, q, d) == s.(reqs := s.reqs[2 := Request(m, 0.0, Surveying(d))], lock := Some(2))
  {
    var s := Evicted(cfg, Seen(cfg, m, q, Queueing).(now := d), 1, 0);
    assert s.recs == Evicting(cfg, m, q, d).recs;
    assert s.waiting == [];
  }

  /** The survey finds `q`, which is still up, and its record is replaced: its swap is stuck. */
  lemma ToReplaced(cfg: Config, m: string, q: string) returns (s: State)
    requires Valid(cfg) && Compete(cfg, m, q) && cfg.maxWait > 0.0
    ensures Reachable(cfg, true, true, s) && Stuck(s, 1, 0)
  {
    var d := if cfg.protect > 0.0 then cfg.protect else 0.0;
    ToEvicting(cfg, m, q, d);
    var s0 := Evicting(cfg, m, q, d);
    ReplacesLost(cfg, m, q, d);
    s := DoSurveyed(cfg, s0, 2, Finds(q));
    Go(cfg, true, true, s0, Surveyed(2, Finds(q)), s);
  }

  function Finds(q: string): (survey: Survey)
    ensures FoundIds(survey.found) == {q}
  {
    Survey([Adopted(q, true)], {}, false)
  }

  lemma ReplacesLost(cfg: Config, m: string, q: string, d: real)
    requires Valid(cfg) && Compete(cfg, m, q)
    ensures var s0 := Evicting(cfg, m, q, d);
            LoadedShape(s0.recs, s0.loaded) && ExactReport(cfg, s0, Finds(q)) && Stuck(DoSurveyed(cfg, s0, 2, Finds(q)), 1, 0)
  {
    var s0 := Evicting(cfg, m, q, d);
    MergedFresh(s0.recs, s0.loaded, Finds(q), q);
  }

  /** A deletion misses only in a swap that has something to unload. */
  lemma MissedCompete(cfg: Config, safe: bool, broken: bool, s: State, a: Action) returns (m: string, q: string)
    requires MissReached(cfg, safe, broken, s, a)
    ensures Compete(cfg, m, q)
  {
    var ss, acts :| Reached(cfg, safe, broken, ss, acts, s);
    assert TaskShape(|s.recs|, s.tasks[a.k]);
    m, q := SwapCompetes(cfg, ss, acts, |acts|, a.k);
  }

  /** With surveys that may find a failed model being unloaded, some run misses a deletion. */
  ghost predicate Missable(cfg: Config) {
    exists s, a :: MissReached(cfg, true, true, s, a)
  }

  /**
   Such surveys make a deletion miss its key, or take another record's, in some run of exactly the
   configurations with two models that compete.
   */
  lemma MissableExactly(cfg: Config)
    requires Valid(cfg) && cfg.maxWait > 0.0
    ensures Missable(cfg) <==> exists m, q :: Compete(cfg, m, q)
  {
    if Missable(cfg) {
      var s, a :| MissReached(cfg, true, true, s, a);
      var m, q := MissedCompete(cfg, true, true, s, a);
    }
    if m, q :| Compete(cfg, m, q) {
      var s := ToReplaced(cfg, m, q);
      var s', a := StuckReaches(cfg, true, true, s, 1, 0);
    }
  }

  // ----- No protection, and no time passes

  /** `p` competes with `a` and `x`, and `x` with `v`, and there is nothing else between them. */
  predicate Crossed(cfg: Config, a: string, v: string, x: string, p: string) {
    && a in cfg.catalogue && v in cfg.catalogue && x in cfg.catalogue && p in cfg.catalogue
    && a != v && x != a && p != v
    && !ClaimsConflict(cfg.catalogue[a], cfg.catalogue[x]) && !ClaimsConflict(cfg.catalogue[v], cfg.catalogue[p])
    && Compete(cfg, a, p) && Compete(cfg, x, p) && Compete(cfg, v, x)
  }

  /** A model adopted loaded, whose baseline has been read. */
  function Known(cfg: Config, id: string): Record
    requires id in cfg.catalogue
  {
    Fresh(cfg.catalogue[id], 0.0, true).(decode := Some(0))
  }

  /** The survey the run starts from found `a` and `v`, and missed `x`, which comes up later. */
  function Start(cfg: Config, a: string, v: string, x: string): State
    requires a in cfg.catalogue && v in cfg.catalogue
  {
    State([Known(cfg, a), Known(cfg, v)], map[a := 0, v := 1], true, [], map[], [], None, [], 0.0, {a, v, x}, {a, v})
  }

  lemma ToStart(cfg: Config, a: string, v: string, x: string)
    requires Valid(cfg) && a in cfg.catalogue && v in cfg.catalogue && a != v
    ensures Reachable(cfg, false, false, Start(cfg, a, v, x))
  {
    var s := Start(cfg, a, v, x);
    var ra, rv := Fresh(cfg.catalogue[a], 0.0, true), Fresh(cfg.catalogue[v], 0.0, true);
    var s0 := s.(recs := [ra, rv], startup := [0, 1]);
    assert [0, 1] == From(0, 2);
    Begin(cfg, false, false, s0);
    var s1 := s.(recs := [Known(cfg, a), rv], startup := [1]);
    GoBaseline(cfg, s0, s1);
    GoBaseline(cfg, s1, s);
  }

  lemma GoBaseline(cfg: Config, s: State, s': State)
    requires Reachable(cfg, false, false, s) && s.startup != [] && s.startup[0] < |s.recs|
    requires s' == DoStartupTrack(s, Some(0))
    ensures Reachable(cfg, false, false, s')
  {
    Go(cfg, false, false, s, StartupTrack(Some(0)), s');
  }

  /** `v` is being unloaded for `x`, and a request for `p` is past the arrival check. */
  function Making(cfg: Config, a: string, v: string, x: string, p: string): State
    requires a in cfg.catalogue && v in cfg.catalogue && x in cfg.catalogue && p in cfg.catalogue
  {
    State([Known(cfg, a), Known(cfg, v).(leaving := true, unloader := Some(0)), Rec(cfg, x, 0).(queued := 1)],
          map[a := 0, v := 1, x := 2], true, [Ticket(1, cfg.catalogue[p])],
          map[0 := Asks(cfg, x, Joining(2)), 1 := Asks(cfg, p, Queueing)],
          [Task(2, [1], 0, Unloading, false)], None, [], 0.0, {a, v, x}, {a, v})
  }

  /** The request for `x` is past the arrival check. */
  function Wanting(cfg: Config, a: string, v: string, x: string): State
    requires a in cfg.catalogue && v in cfg.catalogue && x in cfg.catalogue
  {
    Start(cfg, a, v, x).(reqs := map[0 := Asks(cfg, x, Queueing)], waiting := [Ticket(0, cfg.catalogue[x])])
  }

  lemma ToEvicted(cfg: Config, a: string, v: string, x: string, p: string)
    requires Valid(cfg) && Crossed(cfg, a, v, x, p) && cfg.protect <= 0.0
    ensures Reachable(cfg, false, false, Evicted(cfg, Wanting(cfg, a, v, x), 0, 1))
  {
    ToStart(cfg, a, v, x);
    GoQueue(cfg, false, false, Start(cfg, a, v, x), 0, x);
    ConflictSymmetric(cfg.catalogue[a], cfg.catalogue[x]);
    GoEvict(cfg, false, false, Wanting(cfg, a, v, x), 0, 1);
  }

  lemma ToMaking(cfg: Config, a: string, v: string, x: string, p: string)
    requires Valid(cfg) && Crossed(cfg, a, v, x, p) && cfg.protect <= 0.0
    ensures Reachable(cfg, false, false, Making(cfg, a, v, x, p))
  {
    ToEvicted(cfg, a, v, x, p);
    MakingIs(cfg, a, v, x, p);
    GoQueue(cfg, false, false, Evicted(cfg, Wanting(cfg, a, v, x), 0, 1), 1, p);
  }

  lemma MakingIs(cfg: Config, a: string, v: string, x: string, p: string)
    requires Crossed(cfg, a, v, x, p)
    ensures var s := Evicted(cfg, Wanting(cfg, a, v, x), 0, 1);
            && s.waiting == []
            && Making(cfg, a, v, x, p) == s.(reqs := s.reqs[1 := Asks(cfg, p, Queueing)], waiting := [Ticket(1, cfg.catalogue[p])])
  {
    var s := Evicted(cfg, Wanting(cfg, a, v, x), 0, 1);
    assert s.recs == Making(cfg, a, v, x, p).recs;
    assert s.tasks == [Task(2, [1], 0, Unloading, false)];
  }

  /** The request for `p` looks at `a`; meanwhile the unload failed, `x` was given up, and it came up. */
  function Crossing(cfg: Config, a: string, v: string, x: string, p: string): State
    requires a in cfg.catalogue && v in cfg.catalogue && x in cfg.catalogue && p in cfg.catalogue
  {
    State([Known(cfg, a), Known(cfg, v), Rec(cfg, x, 0).(error := Some("stuck"), ready := true)],
          map[a := 0, v := 1], true, [Ticket(1, cfg.catalogue[p])],
          map[0 := Asks(cfg, x, Ended(Refused(LoadFailed("stuck")))),
              1 := Asks(cfg, p, Observing([0, 2], 0.0, 0.0, false, Known(cfg, a), []))],
          [Task(2, [1], 0, Over, false)], Some(1), [], 0.0, {a, v, x}, {a, v, x})
  }

  lemma ToListed(cfg: Config, a: string, v: string, x: string, p: string)
    requires Valid(cfg) && Crossed(cfg, a, v, x, p) && cfg.protect <= 0.0
    ensures Reachable(cfg, false, false, Listed(cfg, a, v, x, p))
  {
    ToMaking(cfg, a, v, x, p);
    ListsBoth(cfg, a, v, x, p);
    Go(cfg, false, false, Making(cfg, a, v, x, p), TakePlaceLock(1, [0, 2]), Listed(cfg, a, v, x, p));
  }

  lemma ListsBoth(cfg: Config, a: string, v: string, x: string, p: string)
    requires Valid(cfg) && Crossed(cfg, a, v, x, p)
    ensures var s := Making(cfg, a, v, x, p);
            && LoadedShape(s.recs, s.loaded) && Conflicting(s.recs, s.loaded, cfg.catalogue[p], [0, 2])
            && DoTakePlaceLock(cfg, s, 1, [0, 2]) == Listed(cfg, a, v, x, p)
  {
    assert [0, 2][0] == 0 && [0, 2][1] == 2;
  }

  function Listed(cfg: Config, a: string, v: string, x: string, p: string): State
    requires a in cfg.catalogue && v in cfg.catalogue && x in cfg.catalogue && p in cfg.catalogue
  {
    var pc := Observing([0, 2], 0.0, 0.0, false, Known(cfg, a), []);
    Making(cfg, a, v, x, p).(lock := Some(1), reqs := map[0 := Asks(cfg, x, Joining(2)), 1 := Asks(cfg, p, pc)])
  }

  lemma ToGivenUp(cfg: Config, a: string, v: string, x: string, p: string)
    requires Valid(cfg) && Crossed(cfg, a, v, x, p) && cfg.protect <= 0.0
    ensures Reachable(cfg, false, false, GivenUp(cfg, a, v, x, p))
  {
    ToListed(cfg, a, v, x, p);
    GivenUpIs(cfg, a, v, x, p);
    Go(cfg, false, false, Listed(cfg, a, v, x, p), UnloadFailed(0, "stuck"), GivenUp(cfg, a, v, x, p));
  }

  function GivenUp(cfg: Config, a: string, v: string, x: string, p: string): State
    requires a in cfg.catalogue && v in cfg.catalogue && x in cfg.catalogue && p in cfg.catalogue
  {
    var s := Crossing(cfg, a, v, x, p);
    s.(recs := s.recs[2 := s.recs[2].(queued := 1)], reqs := Listed(cfg, a, v, x, p).reqs, held := {a, v})
  }

  lemma GivenUpIs(cfg: Config, a: string, v: string, x: string, p: string)
    requires Valid(cfg) && Crossed(cfg, a, v, x, p)
    ensures DoUnloadFailed(Listed(cfg, a, v, x, p), 0, "stuck") == GivenUp(cfg, a, v, x, p)
  {
    var s := Listed(cfg, a, v, x, p);
    assert Restore(s.recs, [1]) == [Known(cfg, a), Known(cfg, v), Rec(cfg, x, 0).(queued := 1)];
    assert s.loaded - {x} == map[a := 0, v := 1];
  }

  lemma ToCrossing(cfg: Config, a: string, v: string, x: string, p: string)
    requires Valid(cfg) && Crossed(cfg, a, v, x, p) && cfg.protect <= 0.0
    ensures Reachable(cfg, false, false, Crossing(cfg, a, v, x, p))
  {
    ToGivenUp(cfg, a, v, x, p);
    var s0 := GivenUp(cfg, a, v, x, p);
    GoWake(cfg, false, false, s0, 0);
    var s1 := Crossing(cfg, a, v, x, p).(held := {a, v});
    assert DoJoinWake(s0, 0) == s1;
    GoAppear(cfg, false, false, s1, x);
    assert s1.held + {x} == {a, v, x};
  }

  /** `a` was calm; next in the list is `x`, which is not tracked any more. */
  function Turned(cfg: Config, a: string, v: string, x: string, p: string): State
    requires a in cfg.catalogue && v in cfg.catalogue && x in cfg.catalogue && p in cfg.catalogue
  {
    var s := Crossing(cfg, a, v, x, p);
    SetPc(s, 1, Observing([0, 2], 0.0, 0.0, false, s.recs[2], [Sighting(s.recs[0], s.recs[0], CALM, 0.0)]))
  }

  lemma ToTurned(cfg: Config, a: string, v: string, x: string, p: string)
    requires Valid(cfg) && Crossed(cfg, a, v, x, p) && cfg.protect <= 0.0
    ensures Reachable(cfg, false, false, Turned(cfg, a, v, x, p))
  {
    ToCrossing(cfg, a, v, x, p);
    TurnedIs(cfg, a, v, x, p);
    Go(cfg, false, false, Crossing(cfg, a, v, x, p), Observed(1, Some(CALM)), Turned(cfg, a, v, x, p));
  }

  lemma TurnedIs(cfg: Config, a: string, v: string, x: string, p: string)
    requires Valid(cfg) && Crossed(cfg, a, v, x, p) && cfg.protect <= 0.0
    ensures DoObserved(cfg, Crossing(cfg, a, v, x, p), 1, Some(CALM)) == Turned(cfg, a, v, x, p)
  {
    var s := Crossing(cfg, a, v, x, p);
    CalmGoesOn(cfg, s, 1, CALM);
    assert SetRec(s, 0, s.recs[0]) == s;
    assert NextSeen(s, 1, CALM) == [Sighting(s.recs[0], s.recs[0], CALM, 0.0)];
  }

  /** With no protection, `x` counts as long unused at the very instant it is found in use. */
  lemma TurnedDisplaces(cfg: Config, a: string, v: string, x: string, p: string)
    requires Valid(cfg) && Crossed(cfg, a, v, x, p) && cfg.protect <= 0.0
    ensures var s := Turned(cfg, a, v, x, p);
            DoObserved(cfg, s, 1, Some(CALM)) == Commit(cfg, Noticed(s, 1, CALM), 1, [0, 2])
  {
    var s := Turned(cfg, a, v, x, p);
    var s0, seen := Noticed(s, 1, CALM), NextSeen(s, 1, CALM);
    CalmGoesOn(cfg, s, 1, CALM);
    assert !JustWasUsed(s0.recs, [0, 2]);
    AdvanceCases(cfg, s0, 1, [0, 2], 0.0, 0.0, false, seen);
  }

  lemma ToCrossed(cfg: Config, a: string, v: string, x: string, p: string) returns (s: State)
    requires Valid(cfg) && Crossed(cfg, a, v, x, p) && cfg.protect <= 0.0
    ensures Reachable(cfg, false, false, s) && Stuck(s, 1, 1)
  {
    ToTurned(cfg, a, v, x, p);
    TurnedDisplaces(cfg, a, v, x, p);
    var s0 := Turned(cfg, a, v, x, p);
    s := DoObserved(cfg, s0, 1, Some(CALM));
    Go(cfg, false, false, s0, Observed(1, Some(CALM)), s);
    CommitUntracked(cfg, Noticed(s0, 1, CALM), 1, [0, 2], 2);
  }

  /** With faithful servers, some run misses a deletion. */
  ghost predicate Misplaceable(cfg: Config) {
    exists ss, acts, i :: FaithfulRun(cfg, ss, acts) && 0 <= i < |acts| && Misses(ss[i], acts[i])
  }

  lemma MissIsFaithful(cfg: Config, s: State, a: Action)
    requires MissReached(cfg, false, false, s, a)
    ensures Misplaceable(cfg)
  {
    var ss, acts :| Reached(cfg, false, false, ss, acts, s);
    var s' := Apply(cfg, s, a);
    Extends(cfg, false, false, ss, acts, s, a, s');
    var ss', acts' := ss + [s'], acts + [a];
    forall i | 0 <= i < |acts'|
      ensures FaithfulStep(cfg, ss'[i], acts'[i])
    {
      assert Fair(cfg, false, ss'[i], acts'[i]);
    }
    assert FaithfulRun(cfg, ss', acts') && Misses(ss'[|acts|], acts'[|acts|]);
  }

  lemma WindowKeepsKeys(cfg: Config, ss: seq<State>, acts: seq<Action>, i: nat)
    requires FaithfulRun(cfg, ss, acts) && cfg.protect > 0.0 && i < |acts|
    ensures !Misses(ss[i], acts[i])
  {
    forall j | 0 <= j < |acts|
      ensures KeptStep(cfg, ss[j], acts[j])
    {
      assert FaithfulStep(cfg, ss[j], acts[j]);
    }
    KeptRunHasFate(cfg, ss, acts, i);
    OwnedNeverMisses(cfg, ss[i], acts[i]);
  }

  /**
   Where four models are crossed so, a positive window is exactly what keeps the deletions right
   with faithful servers and any surveys.
   */
  lemma WindowDecides(cfg: Config, a: string, v: string, x: string, p: string)
    requires Valid(cfg) && Crossed(cfg, a, v, x, p)
    ensures Misplaceable(cfg) <==> cfg.protect <= 0.0
  {
    if cfg.protect <= 0.0 {
      var s := ToCrossed(cfg, a, v, x, p);
      var s', act := StuckReaches(cfg, false, false, s, 1, 1);
      MissIsFaithful(cfg, s', act);
    } else if Misplaceable(cfg) {
      var ss, acts, i :| FaithfulRun(cfg, ss, acts) && 0 <= i < |acts| && Misses(ss[i], acts[i]);
      WindowKeepsKeys(cfg, ss, acts, i);
    }
  }
}
