/** Runs of the scheduler, and what holds in every state of them. */
module Runs {
  import opened Claims
  import opened Machine
  import opened Line
  import opened Counts
  import opened Links
  import opened TaskSteps
  import opened Base
  import opened Safety
  import opened SafeSteps
  import opened Interruption
  import opened Ownership

  ghost predicate Step(cfg: Config, s: State, a: Action, s': State) {
    Shape(cfg, s) && Enabled(cfg, s, a) && s' == Apply(cfg, s, a)
  }

  /** Any interleaving of requests, tasks, servers and surveys, from any survey's result. */
  ghost predicate Run(cfg: Config, ss: seq<State>, acts: seq<Action>) {
    && Valid(cfg) && |ss| == |acts| + 1 && Init(cfg, ss[0])
    && forall i | 0 <= i < |acts| :: Step(cfg, ss[i], acts[i], ss[i + 1])
  }

  /** A run from a problem-free survey, whose servers and surveys keep the hypotheses. */
  ghost predicate HonestRun(cfg: Config, ss: seq<State>, acts: seq<Action>) {
    && Run(cfg, ss, acts) && InitSafe(cfg, ss[0])
    && forall i | 0 <= i < |acts| :: HonestStep(cfg, ss[i], acts[i])
  }

  /** A run with any surveys, stale or not, in which every step is tame. */
  ghost predicate TameRun(cfg: Config, ss: seq<State>, acts: seq<Action>) {
    && Run(cfg, ss, acts)
    && forall i | 0 <= i < |acts| :: TameStep(cfg, ss[i], acts[i])
  }

  ghost predicate TameStep(cfg: Config, s: State, a: Action) {
    Shape(cfg, s) && Enabled(cfg, s, a) && Tame(cfg, s, a)
  }

  ghost predicate HonestStep(cfg: Config, s: State, a: Action) {
    Shape(cfg, s) && Enabled(cfg, s, a) && Honest(cfg, s, a)
  }

  /** An honest run in which no survey misses a model whose woken joiners have not run yet. */
  ghost predicate SparingRun(cfg: Config, ss: seq<State>, acts: seq<Action>) {
    && HonestRun(cfg, ss, acts)
    && forall i | 0 <= i < |acts| :: SparingStep(cfg, ss[i], acts[i])
  }

  ghost predicate SparingStep(cfg: Config, s: State, a: Action) {
    Shape(cfg, s) && Sparing(cfg, s, a)
  }

  lemma {:induction false} RunHasBase(cfg: Config, ss: seq<State>, acts: seq<Action>, i: nat)
    requires Run(cfg, ss, acts) && i < |ss|
    ensures BaseInv(cfg, ss[i])
  {
    if i == 0 {
      InitHasBase(cfg, ss[0]);
    } else {
      RunHasBase(cfg, ss, acts, i - 1);
      assert Step(cfg, ss[i - 1], acts[i - 1], ss[i - 1 + 1]);
      StepKeepsBase(cfg, ss[i - 1], acts[i - 1]);
    }
  }

  lemma {:induction false} RunHasSafe(cfg: Config, ss: seq<State>, acts: seq<Action>, i: nat)
    requires HonestRun(cfg, ss, acts) && i < |ss|
    ensures SafeInv(cfg, ss[i])
  {
    if i == 0 {
      InitHasSafe(cfg, ss[0]);
    } else {
      RunHasSafe(cfg, ss, acts, i - 1);
      assert Step(cfg, ss[i - 1], acts[i - 1], ss[i - 1 + 1]) && HonestStep(cfg, ss[i - 1], acts[i - 1]);
      StepKeepsSafe(cfg, ss[i - 1], acts[i - 1]);
    }
  }

  lemma {:induction false} RunHasOwned(cfg: Config, ss: seq<State>, acts: seq<Action>, i: nat)
    requires TameRun(cfg, ss, acts) && i < |ss|
    ensures OwnedInv(cfg, ss[i])
  {
    if i == 0 {
      InitHasOwned(cfg, ss[0]);
    } else {
      RunHasOwned(cfg, ss, acts, i - 1);
      assert Step(cfg, ss[i - 1], acts[i - 1], ss[i - 1 + 1]) && TameStep(cfg, ss[i - 1], acts[i - 1]);
      StepKeepsOwned(cfg, ss[i - 1], acts[i - 1]);
    }
  }

  /** The hypotheses on servers and surveys make a run tame. */
  lemma HonestRunIsTame(cfg: Config, ss: seq<State>, acts: seq<Action>)
    requires HonestRun(cfg, ss, acts)
    ensures TameRun(cfg, ss, acts)
  {
    forall i | 0 <= i < |acts|
      ensures TameStep(cfg, ss[i], acts[i])
    {
      RunHasSafe(cfg, ss, acts, i);
      assert HonestStep(cfg, ss[i], acts[i]);
      HonestIsTame(cfg, ss[i], acts[i]);
    }
  }

  lemma ServedStep(cfg: Config, s: State, a: Action, s': State)
    requires Valid(cfg) && SafeInv(cfg, s) && ServedInv(s)
    requires Step(cfg, s, a, s') && HonestStep(cfg, s, a) && SparingStep(cfg, s, a)
    ensures ServedInv(s')
  {
    StepKeepsServed(cfg, s, a);
  }

  lemma InitServes(cfg: Config, s: State)
    requires Init(cfg, s)
    ensures ServedInv(s)
  {
    forall r | 0 <= r < |s.recs|
      ensures ServedAt(s.recs, s.loaded, r)
    {
      assert s.recs[r] == Fresh(s.recs[r].variant, s.now, s.recs[r].ready);
    }
  }

  lemma {:induction false} RunHasServed(cfg: Config, ss: seq<State>, acts: seq<Action>, i: nat)
    requires SparingRun(cfg, ss, acts) && i < |ss|
    ensures SafeInv(cfg, ss[i]) && ServedInv(ss[i])
  {
    RunHasSafe(cfg, ss, acts, i);
    if i == 0 {
      InitServes(cfg, ss[0]);
    } else {
      RunHasServed(cfg, ss, acts, i - 1);
      assert Step(cfg, ss[i - 1], acts[i - 1], ss[i - 1 + 1]);
      assert HonestStep(cfg, ss[i - 1], acts[i - 1]) && SparingStep(cfg, ss[i - 1], acts[i - 1]);
      ServedStep(cfg, ss[i - 1], acts[i - 1], ss[i]);
    }
  }

  // ----- Exclusive resources

  /** Task `k` is still unloading record `v` to make room for `m`, which has not been asked for. */
  predicate HandsOver(s: State, k: Kid, v: Rid, m: Rid) {
    && k < |s.tasks| && BeforeLoad(s.tasks[k].stage) && s.tasks[k].model == m && v in s.tasks[k].victims
    && v < |s.recs| && m < |s.recs| && s.recs[v].leaving && !s.recs[m].ready && s.recs[m].loads == 0
  }

  /**
   No two models held on any servers claim the same resource exclusively; all held models are
   tracked, and tracked models conflict only while one hands over to the other.
   */
  lemma ExclusiveResources(cfg: Config, ss: seq<State>, acts: seq<Action>, i: nat)
    requires HonestRun(cfg, ss, acts) && i < |ss|
    ensures var s := ss[i];
            && s.held <= s.loaded.Keys <= cfg.catalogue.Keys
            && (forall a, b | a in s.held && b in s.held && a != b ::
                  !ClaimsConflict(cfg.catalogue[a], cfg.catalogue[b]))
            && (forall a, b | a in s.loaded && b in s.loaded && a != b
                              && ClaimsConflict(cfg.catalogue[a], cfg.catalogue[b]) ::
                  exists k :: HandsOver(s, k, s.loaded[a], s.loaded[b]) || HandsOver(s, k, s.loaded[b], s.loaded[a]))
  {
    var s := ss[i];
    RunHasSafe(cfg, ss, acts, i);
    forall id | id in s.loaded
      ensures id in cfg.catalogue && cfg.catalogue[id] == s.recs[s.loaded[id]].variant
    {
      assert InCatalogue(cfg, s.recs[s.loaded[id]].variant);
    }
    forall a, b | a in s.loaded && b in s.loaded && a != b && ClaimsConflict(cfg.catalogue[a], cfg.catalogue[b])
      ensures exists k :: HandsOver(s, k, s.loaded[a], s.loaded[b]) || HandsOver(s, k, s.loaded[b], s.loaded[a])
      ensures !(a in s.held && b in s.held)
    {
      assert PairSafe(s.recs, s.loaded, s.tasks, a, b);
      if Yielding(s.recs, s.tasks, s.loaded[a], s.loaded[b]) {
        YieldsHandsOver(cfg, s, s.loaded[a], s.loaded[b]);
      } else {
        YieldsHandsOver(cfg, s, s.loaded[b], s.loaded[a]);
      }
    }
  }

  lemma YieldsHandsOver(cfg: Config, s: State, v: Rid, m: Rid)
    requires SafeInv(cfg, s) && Yielding(s.recs, s.tasks, v, m) && m < |s.recs|
    ensures HandsOver(s, s.recs[v].unloader.value, v, m)
    ensures s.recs[m].variant.id !in s.held
  {
    var k := s.recs[v].unloader.value;
    TaskFacts(cfg, s, k);
    assert NotAsked(s, k);
  }

  // ----- No request is interrupted

  /** A leaving record serves nobody, in any run; an unload in flight is nobody's model. */
  lemma NobodyInterrupted(cfg: Config, ss: seq<State>, acts: seq<Action>, i: nat, r: Rid)
    requires Run(cfg, ss, acts) && i < |ss| && r < |ss[i].recs|
    ensures ss[i].recs[r].leaving ==> Those(ss[i].reqs, Admitted(r)) == {} && Those(ss[i].reqs, Joining(r)) == {}
  {
    RunHasBase(cfg, ss, acts, i);
    assert UseOk(ss[i].recs[r]) && Counted(ss[i].reqs, ss[i].recs[r], r);
  }

  lemma UnloadsOnlyTheUnused(cfg: Config, ss: seq<State>, acts: seq<Action>, i: nat, k: Kid, t: Tid)
    requires SparingRun(cfg, ss, acts) && i < |ss|
    requires k < |ss[i].tasks| && ss[i].tasks[k].stage.Unloading?
    requires t in ss[i].reqs && ss[i].reqs[t].pc.Admitted?
    ensures var s := ss[i];
            && s.tasks[k].next < |s.tasks[k].victims| && s.tasks[k].victims[s.tasks[k].next] < |s.recs|
            && s.reqs[t].pc.rid < |s.recs|
            && Id(s, s.reqs[t].pc.rid) != Id(s, s.tasks[k].victims[s.tasks[k].next])
  {
    RunHasServed(cfg, ss, acts, i);
    UnloadInterruptsNobody(cfg, ss[i], k, t);
  }

  // ----- Conservation

  /** Counts are requests, tickets are distinct, and none outlives its `acquire`, in any run. */
  lemma Conservation(cfg: Config, ss: seq<State>, acts: seq<Action>, i: nat)
    requires Run(cfg, ss, acts) && i < |ss|
    ensures var s := ss[i];
            && (forall r | 0 <= r < |s.recs| ::
                  s.recs[r].active == |Those(s.reqs, Admitted(r))| && s.recs[r].queued == |Those(s.reqs, Joining(r))|)
            && (forall j, k | 0 <= j < k < |s.waiting| :: s.waiting[j].tid != s.waiting[k].tid)
            && (forall j | 0 <= j < |s.waiting| :: HadTicket(s, s.waiting[j].tid))
            && (forall t | HadTicket(s, t) :: Place(s.waiting, t) < |s.waiting|)
  {
    var s := ss[i];
    RunHasBase(cfg, ss, acts, i);
    forall r | 0 <= r < |s.recs|
      ensures s.recs[r].active == |Those(s.reqs, Admitted(r))| && s.recs[r].queued == |Those(s.reqs, Joining(r))|
    {
      assert Counted(s.reqs, s.recs[r], r);
    }
    forall j | 0 <= j < |s.waiting|
      ensures HadTicket(s, s.waiting[j].tid)
    {
      assert TicketOf(cfg, s.reqs, s.waiting[j]);
    }
  }
}
