/** Only models that compete with the requested one are ever unloaded for it. */
module Rivals {
  import opened Wrappers
  import opened Machine
  import opened Frames
  import opened Shapes
  import opened Base
  import opened PlaceSafe
  import opened SafeSteps
  import opened Runs
  import opened SharedLoad
  import opened Protection
  import opened Faithful

  /** What a placer has listed competes with its model. */
  predicate ListsRivals(cfg: Config, recs: seq<Record>, q: Request) {
    q.pc.Observing? ==>
      q.name in cfg.catalogue
      && forall j | 0 <= j < |q.pc.conflicts| ::
           q.pc.conflicts[j] < |recs| && Rival(recs[q.pc.conflicts[j]].variant, cfg.catalogue[q.name])
  }

  /** What a swap is to unload competes with its model. */
  predicate UnloadsRivals(recs: seq<Record>, task: Task) {
    task.model < |recs|
    && forall j | 0 <= j < |task.victims| ::
         task.victims[j] < |recs| && Rival(recs[task.victims[j]].variant, recs[task.model].variant)
  }

  ghost predicate RivalInv(cfg: Config, s: State) {
    && (forall t | t in s.reqs :: ListsRivals(cfg, s.recs, s.reqs[t]))
    && (forall k | 0 <= k < |s.tasks| :: UnloadsRivals(s.recs, s.tasks[k]))
  }

  predicate SamePlan(a: Task, b: Task) {
    b.model == a.model && b.victims == a.victims
  }

  /** Tasks keep their plans, and new ones unload rivals. */
  predicate PlansKept(s: State, s': State) {
    && |s.tasks| <= |s'.tasks|
    && (forall k | 0 <= k < |s.tasks| :: SamePlan(s.tasks[k], s'.tasks[k]))
    && (forall k | |s.tasks| <= k < |s'.tasks| :: UnloadsRivals(s'.recs, s'.tasks[k]))
  }

  lemma FinalRivals(cfg: Config, s: State, s': State)
    requires RivalInv(cfg, s) && AllFinal(s.recs, s'.recs) && PlansKept(s, s')
    requires forall t | t in s'.reqs && s'.reqs[t].pc.Observing? ::
               (t in s.reqs && s'.reqs[t] == s.reqs[t]) || ListsRivals(cfg, s'.recs, s'.reqs[t])
    ensures RivalInv(cfg, s')
  {
    forall r | 0 <= r < |s.recs|
      ensures s'.recs[r].variant == s.recs[r].variant
    {
      assert Final(s.recs[r], s'.recs[r]);
    }
    forall t | t in s'.reqs
      ensures ListsRivals(cfg, s'.recs, s'.reqs[t])
    {
      if t in s.reqs { assert ListsRivals(cfg, s.recs, s.reqs[t]); }
    }
    forall k | 0 <= k < |s'.tasks|
      ensures UnloadsRivals(s'.recs, s'.tasks[k])
    {
      if k < |s.tasks| { assert UnloadsRivals(s.recs, s.tasks[k]) && SamePlan(s.tasks[k], s'.tasks[k]); }
    }
  }

  lemma CommitPlans(cfg: Config, s: State, t: Tid, conflicts: seq<Rid>)
    requires t in s.reqs && s.reqs[t].name in cfg.catalogue
    requires forall j | 0 <= j < |conflicts| ::
               conflicts[j] < |s.recs| && Rival(s.recs[conflicts[j]].variant, cfg.catalogue[s.reqs[t].name])
    ensures PlansKept(s, Commit(cfg, s, t, conflicts))
  {
    var s' := Commit(cfg, s, t, conflicts);
    assert s'.recs[|s.recs|].variant == cfg.catalogue[s.reqs[t].name];
    assert forall j | 0 <= j < |conflicts| :: s'.recs[conflicts[j]].variant == s.recs[conflicts[j]].variant;
  }

  lemma ObservedRivals(cfg: Config, s: State, t: Tid, activity: Option<Activity>)
    requires RivalInv(cfg, s) && t in s.reqs && s.reqs[t].pc.Observing? && RequestShape(cfg, |s.recs|, s.reqs[t])
    requires AllFinal(s.recs, DoObserved(cfg, s, t, activity).recs)
    ensures RivalInv(cfg, DoObserved(cfg, s, t, activity))
  {
    var s' := DoObserved(cfg, s, t, activity);
    assert ListsRivals(cfg, s.recs, s.reqs[t]);
    ObservedShape(cfg, s, t, activity);
    ObservedCases(cfg, s, t, activity);
    if Light(s, s') {
      ObservedPcIs(cfg, s, t, activity);
      forall j | 0 <= j < |s.reqs[t].pc.conflicts|
        ensures s'.recs[s.reqs[t].pc.conflicts[j]].variant == s.recs[s.reqs[t].pc.conflicts[j]].variant
      {
        assert Final(s.recs[s.reqs[t].pc.conflicts[j]], s'.recs[s.reqs[t].pc.conflicts[j]]);
      }
    } else {
      CommitPlans(cfg, Noticed(s, t, activity.value), t, s.reqs[t].pc.conflicts);
    }
    FinalRivals(cfg, s, s');
  }

  lemma TakePlaceLockRivals(cfg: Config, s: State, t: Tid, conflicts: seq<Rid>)
    requires Valid(cfg) && RivalInv(cfg, s) && Shape(cfg, s) && Enabled(cfg, s, TakePlaceLock(t, conflicts))
    requires RequestShape(cfg, |s.recs|, s.reqs[t])
    requires AllFinal(s.recs, DoTakePlaceLock(cfg, s, t, conflicts).recs)
    ensures RivalInv(cfg, DoTakePlaceLock(cfg, s, t, conflicts))
  {
    var s' := DoTakePlaceLock(cfg, s, t, conflicts);
    TakePlaceLockCases(cfg, s, t, conflicts);
    if Light(s, s') {
      ListedIs(cfg, s, t, conflicts);
      ListedName(cfg, s, t, conflicts);
      if s'.reqs[t].pc.Observing? { ListedAreRivals(cfg, s, t, conflicts); }
    } else {
      CommitPlans(cfg, s, t, conflicts);
    }
    FinalRivals(cfg, s, s');
  }

  /** A placer observes only while its model is not tracked, so what it lists are other models. */
  lemma ListedAreRivals(cfg: Config, s: State, t: Tid, conflicts: seq<Rid>)
    requires Valid(cfg) && Shape(cfg, s) && Enabled(cfg, s, TakePlaceLock(t, conflicts))
    requires s.reqs[t].name in cfg.catalogue && t in DoTakePlaceLock(cfg, s, t, conflicts).reqs
    requires DoTakePlaceLock(cfg, s, t, conflicts).reqs[t].pc.Observing?
    ensures forall j | 0 <= j < |conflicts| :: Rival(s.recs[conflicts[j]].variant, cfg.catalogue[s.reqs[t].name])
  {
    SettleLight(cfg, s, t, Blocked(BeingUnloaded, None));
    SettleLight(cfg, s, t, Blocked(LoadedByAnother, Some(s.now)));
    assert s.reqs[t].name !in s.loaded;
    forall j | 0 <= j < |conflicts|
      ensures Rival(s.recs[conflicts[j]].variant, cfg.catalogue[s.reqs[t].name])
    {
      assert Tracked(s.recs, s.loaded, conflicts[j]);
    }
  }

  lemma ListedName(cfg: Config, s: State, t: Tid, conflicts: seq<Rid>)
    requires t in s.reqs && s.reqs[t].name in cfg.catalogue && LoadedShape(s.recs, s.loaded)
    requires InRange(conflicts, |s.recs|)
    ensures var s' := DoTakePlaceLock(cfg, s, t, conflicts); t in s'.reqs && s'.reqs[t].name == s.reqs[t].name
  {
  }

  lemma OthersKeepPlans(cfg: Config, s: State, a: Action)
    requires BaseInv(cfg, s) && Enabled(cfg, s, a) && !a.Observed? && !a.TakePlaceLock?
    ensures PlansKept(s, Apply(cfg, s, a))
  {
    if ByTask(a) {
      TaskStepMoved(cfg, s, a);
    } else if Plain(a) {
      PlainFacts(cfg, s, a);
    } else {
      RestKeepPlans(cfg, s, a);
    }
  }

  lemma RestKeepPlans(cfg: Config, s: State, a: Action)
    requires Shape(cfg, s) && Enabled(cfg, s, a) && !a.Observed? && !a.TakePlaceLock? && !ByTask(a) && !Plain(a)
    ensures PlansKept(s, Apply(cfg, s, a))
  {
    if a.TrackNext? {
      assert RequestShape(cfg, |s.recs|, s.reqs[a.t]);
    }
  }

  lemma StepKeepsRivals(cfg: Config, s: State, a: Action, s': State)
    requires Valid(cfg) && BaseInv(cfg, s) && RivalInv(cfg, s) && Step(cfg, s, a, s')
    ensures RivalInv(cfg, s')
  {
    StepFinal(cfg, s, a, s');
    if a.Observed? {
      assert RequestShape(cfg, |s.recs|, s.reqs[a.t]);
      ObservedRivals(cfg, s, a.t, a.activity);
    } else if a.TakePlaceLock? {
      assert RequestShape(cfg, |s.recs|, s.reqs[a.t]);
      TakePlaceLockRivals(cfg, s, a.t, a.conflicts);
    } else {
      OthersKeepPlans(cfg, s, a);
      OthersWatchNothing(cfg, s, a, s');
      FinalRivals(cfg, s, s');
    }
  }

  lemma NextRivals(cfg: Config, ss: seq<State>, acts: seq<Action>, i: nat)
    requires Run(cfg, ss, acts) && i < |acts| && RivalInv(cfg, ss[i])
    ensures RivalInv(cfg, ss[i + 1])
  {
    RunHasBase(cfg, ss, acts, i);
    assert Step(cfg, ss[i], acts[i], ss[i + 1]);
    StepKeepsRivals(cfg, ss[i], acts[i], ss[i + 1]);
  }

  lemma {:induction false} RunHasRivals(cfg: Config, ss: seq<State>, acts: seq<Action>, i: nat)
    requires Run(cfg, ss, acts) && i < |ss|
    ensures RivalInv(cfg, ss[i])
  {
    if i > 0 {
      RunHasRivals(cfg, ss, acts, i - 1);
      NextRivals(cfg, ss, acts, i - 1);
    }
  }

  /** In any run, a swap unloads only models that compete with its own. */
  lemma UnloadsOnlyRivals(cfg: Config, ss: seq<State>, acts: seq<Action>, i: nat, k: Kid, v: Rid)
    requires Run(cfg, ss, acts) && i < |ss| && k < |ss[i].tasks| && v in ss[i].tasks[k].victims
    ensures var s := ss[i];
            v < |s.recs| && s.tasks[k].model < |s.recs|
            && Rival(s.recs[v].variant, s.recs[s.tasks[k].model].variant)
  {
    RunHasRivals(cfg, ss, acts, i);
    assert UnloadsRivals(ss[i].recs, ss[i].tasks[k]);
  }
}
