/** Driven by the scheduler, a service that holds one model at a time is never asked to replace another. */
module OneModel {
  import opened Wrappers
  import opened Claims
  import opened Capacity
  import opened Suffix
  import opened Machine
  import opened Links
  import opened TaskSteps
  import opened Safety
  import opened TaskSafety
  import opened Runs
  import opened Composition
  import opened Surveys
  import opened Managed
  import opened Echo
  import opened Base
  import opened Frames
  import opened Shapes
  import opened SafeSteps

  /** If a limit of one model is enough for a server's own models, any two of them conflict. */
  lemma OwnModelsConflict(own: map<string, Variant>, a: string, b: string)
    requires FitFor(RouterProps(1, false), own) && |Claimless(own)| <= 1
    requires a in own && b in own && a != b
    ensures ClaimsConflict(own[a], own[b])
  {
    var all := ResourceSets(own);
    forall m: nat | HasFamily(all, m)
      ensures m <= |all|
    {
      FamiliesAreSmall(all, m);
    }
    var n := LargestExists(all, |all|);
    LargestGroupIs(own, n);
    ConflictSymmetric(own[a], own[b]);
    if !ClaimsConflict(own[a], own[b]) {
      assert Group(own, {a, b});
    }
  }

  /** A model held on one server while the load of another of its models is under way does not exist. */
  lemma LoadHasTheServer(cfg: Config, s: State, key: string, id: string, other: string)
    requires SafeInv(cfg, s) && FitFor(RouterProps(1, false), Own(cfg.catalogue, key))
    requires |Claimless(Own(cfg.catalogue, key))| <= 1
    requires BeingLoaded(s, id) && other in s.held && id in Own(cfg.catalogue, key) && other in Own(cfg.catalogue, key)
    ensures other == id
  {
    OccupyingIsTracked(cfg, s, id);
    OccupyingIsTracked(cfg, s, other);
    if other != id {
      OwnModelsConflict(Own(cfg.catalogue, key), id, other);
      OccupyingApart(cfg, s, id, other);
    }
  }

  /** The unload of this model is under way. */
  predicate BeingUnloaded(s: State, k: Kid, id: string) {
    && k < |s.tasks| && s.tasks[k].stage.Unloading? && s.tasks[k].next < |s.tasks[k].victims|
    && s.tasks[k].victims[s.tasks[k].next] < |s.recs| && Id(s, s.tasks[k].victims[s.tasks[k].next]) == id
  }

  lemma UnloadHasTheServer(cfg: Config, s: State, key: string, k: Kid, id: string, other: string)
    requires SafeInv(cfg, s) && FitFor(RouterProps(1, false), Own(cfg.catalogue, key))
    requires |Claimless(Own(cfg.catalogue, key))| <= 1
    requires BeingUnloaded(s, k, id) && other in s.held && id in Own(cfg.catalogue, key) && other in Own(cfg.catalogue, key)
    ensures other == id
  {
    var v := s.tasks[k].victims[s.tasks[k].next];
    UnloadedTracked(cfg, s, k);
    OccupyingIsTracked(cfg, s, other);
    assert InCatalogue(cfg, s.recs[v].variant);
    if other != id {
      OwnModelsConflict(Own(cfg.catalogue, key), id, other);
      assert PairSafe(s.recs, s.loaded, s.tasks, id, other);
      VictimDisplacesNobody(cfg, s, k, s.loaded[other]);
      if Yielding(s.recs, s.tasks, v, s.loaded[other]) {
        YieldingIsOneSided(cfg, s, v, s.loaded[other], other);
      }
    }
  }

  /** The victim of a swap is not itself what another swap makes room for. */
  lemma VictimDisplacesNobody(cfg: Config, s: State, k: Kid, w: Rid)
    requires SafeInv(cfg, s) && k < |s.tasks| && s.tasks[k].stage.Unloading?
    requires TaskShape(|s.recs|, s.tasks[k])
    ensures !Yielding(s.recs, s.tasks, w, s.tasks[k].victims[s.tasks[k].next])
  {
    var v := s.tasks[k].victims[s.tasks[k].next];
    TaskFacts(cfg, s, k);
    assert VictimLinked(s.recs[s.tasks[k].victims[s.tasks[k].next]], k, false);
    assert UseOk(s.recs[v]);
    if w < |s.recs| && s.recs[w].unloader.Some? && s.recs[w].unloader.value < |s.tasks| {
      TaskFacts(cfg, s, s.recs[w].unloader.value);
    }
  }

  /** An occupying container carries the settings of a model of the service, which is then held. */
  ghost predicate Reflects(service: ManagedService, own: map<string, Variant>, held: set<string>, status: Status) {
    Occupies(status) ==>
      service.Identify(status).Some? && service.Identify(status).value in held && service.Identify(status).value in own
  }

  lemma NotRefused(cfg: Config, s: State, key: string, id: string, service: ManagedService, status: Status)
    requires SafeInv(cfg, s)
    requires FitFor(RouterProps(1, false), Own(cfg.catalogue, key)) && |Claimless(Own(cfg.catalogue, key))| <= 1
    requires id in Own(cfg.catalogue, key) && Reflects(service, Own(cfg.catalogue, key), s.held, status)
    requires BeingLoaded(s, id) || exists k :: BeingUnloaded(s, k, id)
    ensures !service.Refuses(status, id)
  {
    if Occupies(status) {
      var other := service.Identify(status).value;
      if BeingLoaded(s, id) {
        LoadHasTheServer(cfg, s, key, id, other);
      } else {
        var k :| BeingUnloaded(s, k, id);
        UnloadHasTheServer(cfg, s, key, k, id, other);
      }
    }
  }

  // ----- The container along a run

  /**
   What the machine calls a model's appearing is the start of its container, with nothing running
   and with the model's own settings, and only a start brings a container up. It may stop at any
   time, and a model that has vanished is not the one running.
   */
  ghost predicate ContainerStep(service: ManagedService, own: map<string, Variant>, a: Action, before: Status, after: Status) {
    if a.Appear? && a.id in own && a.id in service.Ids() && !Occupies(before) && Occupies(after) then
      Matches(service.SettingsOf(a.id), after)
    else
      Occupies(after) ==>
        && Occupies(before) && after.settings == before.settings
        && (a.Vanish? ==> service.Identify(after) != Some(a.id))
  }

  /** A run, with the state of one service's container at each of its states. */
  ghost predicate ServiceRun(cfg: Config, ss: seq<State>, acts: seq<Action>, key: string, service: ManagedService,
                             statuses: seq<Status>) {
    && HonestRun(cfg, ss, acts) && |statuses| == |ss|
    && Reflects(service, Own(cfg.catalogue, key), ss[0].held, statuses[0])
    && forall i | 0 <= i < |acts| ::
         ContainerStep(service, Own(cfg.catalogue, key), acts[i], statuses[i], statuses[i + 1])
  }

  lemma TasksKeepHeld(cfg: Config, s: State, a: Action)
    requires Shape(cfg, s) && Enabled(cfg, s, a) && ByTask(a)
    ensures Apply(cfg, s, a).held == s.held
  {
    assert TaskShape(|s.recs|, s.tasks[a.k]);
  }

  lemma PlacersKeepHeld(cfg: Config, s: State, a: Action)
    requires Shape(cfg, s) && Enabled(cfg, s, a) && (a.Observed? || a.TakePlaceLock?)
    ensures Apply(cfg, s, a).held == s.held
  {
    assert RequestShape(cfg, |s.recs|, s.reqs[a.t]);
    if a.Observed? {
      ObservedCases(cfg, s, a.t, a.activity);
    } else {
      TakePlaceLockCases(cfg, s, a.t, a.conflicts);
    }
  }

  lemma TrackersKeepHeld(cfg: Config, s: State, a: Action)
    requires Shape(cfg, s) && Enabled(cfg, s, a) && (a.TrackNext? || a.StartupTrack? || a.Surveyed? || a.Tick?)
    ensures Apply(cfg, s, a).held == s.held
  {
    if a.TrackNext? { assert RequestShape(cfg, |s.recs|, s.reqs[a.t]); }
  }

  /** Only the environment changes what the servers hold. */
  lemma OthersKeepHeld(cfg: Config, s: State, a: Action)
    requires BaseInv(cfg, s) && Enabled(cfg, s, a) && !a.Appear? && !a.Vanish?
    ensures Apply(cfg, s, a).held == s.held
  {
    if ByTask(a) {
      TasksKeepHeld(cfg, s, a);
    } else if Plain(a) {
      PlainFacts(cfg, s, a);
    } else if a.Observed? || a.TakePlaceLock? {
      PlacersKeepHeld(cfg, s, a);
    } else {
      TrackersKeepHeld(cfg, s, a);
    }
  }

  lemma SettingsIdentify(service: ManagedService, id: string, status: Status)
    requires id in service.Ids() && Distinguishable(service.models) && Matches(service.SettingsOf(id), status)
    ensures service.Identify(status) == Some(id)
  {
    var m :| m in service.models && m.id == id && service.SettingsOf(id) == m.settings;
    var i :| 0 <= i < |service.models| && service.models[i] == m;
    IdentifiesOnly(service.models, i, status);
  }

  lemma StepReflects(cfg: Config, s: State, a: Action, key: string, service: ManagedService, before: Status, after: Status)
    requires BaseInv(cfg, s) && Enabled(cfg, s, a) && Distinguishable(service.models)
    requires Reflects(service, Own(cfg.catalogue, key), s.held, before)
    requires ContainerStep(service, Own(cfg.catalogue, key), a, before, after)
    ensures Reflects(service, Own(cfg.catalogue, key), Apply(cfg, s, a).held, after)
  {
    if !a.Appear? && !a.Vanish? { OthersKeepHeld(cfg, s, a); }
    if Occupies(after) {
      if Occupies(before) {
        SameSettingsSameModel(service.models, before, after);
      } else {
        SettingsIdentify(service, a.id, after);
      }
    }
  }

  lemma {:induction false} SameSettingsSameModel(models: seq<Model>, before: Status, after: Status)
    requires after.settings == before.settings
    ensures IdentifyFrom(models, after) == IdentifyFrom(models, before)
  {
    if models != [] { SameSettingsSameModel(models[1..], before, after); }
  }

  lemma {:induction false} RunReflects(cfg: Config, ss: seq<State>, acts: seq<Action>, key: string, service: ManagedService,
                                       statuses: seq<Status>, i: nat)
    requires ServiceRun(cfg, ss, acts, key, service, statuses) && Distinguishable(service.models) && i < |ss|
    ensures Reflects(service, Own(cfg.catalogue, key), ss[i].held, statuses[i])
  {
    if i > 0 {
      RunReflects(cfg, ss, acts, key, service, statuses, i - 1);
      RunHasBase(cfg, ss, acts, i - 1);
      assert Step(cfg, ss[i - 1], acts[i - 1], ss[i - 1 + 1]);
      assert ContainerStep(service, Own(cfg.catalogue, key), acts[i - 1], statuses[i - 1], statuses[i - 1 + 1]);
      StepReflects(cfg, ss[i - 1], acts[i - 1], key, service, statuses[i - 1], statuses[i]);
    }
  }

  /**
   While the scheduler has a load or an unload of a service's model in flight, no reading of its
   container makes `Load` or `Unload` refuse it for running a different model.
   */
  lemma NeverRefused(cfg: Config, ss: seq<State>, acts: seq<Action>, i: nat, key: string, id: string,
                     service: ManagedService, statuses: seq<Status>)
    requires ServiceRun(cfg, ss, acts, key, service, statuses) && Distinguishable(service.models) && i < |ss|
    requires FitFor(RouterProps(1, false), Own(cfg.catalogue, key)) && |Claimless(Own(cfg.catalogue, key))| <= 1
    requires id in Own(cfg.catalogue, key)
    requires BeingLoaded(ss[i], id) || exists k :: BeingUnloaded(ss[i], k, id)
    ensures !service.Refuses(statuses[i], id)
  {
    RunHasSafe(cfg, ss, acts, i);
    RunReflects(cfg, ss, acts, key, service, statuses, i);
    NotRefused(cfg, ss[i], key, id, service, statuses[i]);
  }

  /** The ID reported for an unknown container is no accepted model's. */
  lemma UnrecognisedIsNoModel(service: ManagedService)
    ensures SuffixDevices(service.Unrecognised()).Err?
  {
    var id := service.Unrecognised();
    var last := id[|id| - 1];
    assert last == 'd';
    EndsInU(id);
    if Search(id, 0).Some? {
      var base, end := SearchFound(id, 0);
      var numbers := Search(id, 0).value;
      WrittenHasNoDoubleDash(numbers);
      EndOfSuffix(base, Written(numbers), end);
    }
  }

  lemma EndOfSuffix(base: string, written: string, end: string)
    requires written != [] && (end == [] || end == "\n")
    ensures var id := base + "--" + written + end;
            id[|id| - 1] == if end == [] then written[|written| - 1] else '\n'
  {
  }
}
