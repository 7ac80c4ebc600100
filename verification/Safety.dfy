/**
 What runs keep under the stated hypotheses on servers and surveys: ownership of every record
 in transit, and exclusive resources.
 */
module Safety {
  import opened Wrappers
  import opened Claims
  import opened Machine
  import opened Line
  import opened Frames
  import opened Links
  import opened Base

  /** No found model's tracked record is a failed one that is being unloaded. */
  predicate Unbroken(s: State, survey: Survey)
    requires LoadedShape(s.recs, s.loaded)
  {
    forall id | id in FoundIds(survey.found) && id in s.loaded :: !Broken(s.recs[s.loaded[id]])
  }

  predicate Broken(rec: Record) {
    rec.error.Some? && rec.leaving
  }

  /** The reachable servers report exactly what they hold. */
  ghost predicate ExactReport(cfg: Config, s: State, survey: Survey) {
    && FoundIds(survey.found) <= s.held
    && (forall id | id in s.held && id in cfg.catalogue && cfg.catalogue[id].backend !in survey.unreachable ::
          id in FoundIds(survey.found))
  }

  /** An exact report, in which no found model's failed record is leaving. */
  ghost predicate ExactSurvey(cfg: Config, s: State, survey: Survey)
    requires Shape(cfg, s)
  {
    ExactReport(cfg, s, survey) && Unbroken(s, survey)
  }

  /**
   The hypotheses. A returned unload, and a confirmation that a model is gone, mean it is not
   held; activity is answered only for a held model; surveys are exact, and none finds a model
   whose record failed to load and is being unloaded.
   */
  ghost predicate Honest(cfg: Config, s: State, a: Action)
    requires Shape(cfg, s) && Enabled(cfg, s, a)
  {
    match a
    case Surveyed(t, survey) => ExactSurvey(cfg, s, survey)
    case Observed(t, activity) =>
      assert RequestShape(cfg, |s.recs|, s.reqs[t]);
      activity.Some? ==> Id(s, s.reqs[t].pc.conflicts[|s.reqs[t].pc.seen|]) in s.held
    case Unloaded(k) =>
      assert TaskShape(|s.recs|, s.tasks[k]);
      Id(s, s.tasks[k].victims[s.tasks[k].next]) !in s.held
    case Confirmed(k, gone) =>
      assert TaskShape(|s.recs|, s.tasks[k]);
      gone ==> Id(s, s.tasks[k].model) !in s.held
    case _ => true
  }

  /** Stages in which a task's model is sure to be tracked. */
  predicate Rising(stage: Stage) {
    BeforeLoad(stage) || stage.Loading? || stage.Baseline?
  }

  /** The task's model is tracked until its load has failed, and no deletion ever missed its key. */
  predicate TaskSafe(recs: seq<Record>, loaded: map<string, Rid>, task: Task) {
    !task.stage.Crashed? && (Rising(task.stage) ==> Tracked(recs, loaded, task.model))
  }

  /** A victim is tracked until its unload returns, and never after. */
  predicate RecordSafe(recs: seq<Record>, loaded: map<string, Rid>, r: Rid)
    requires r < |recs|
  {
    && (recs[r].leaving && !recs[r].unloaded ==> Tracked(recs, loaded, r))
    && (recs[r].unloaded ==> !Tracked(recs, loaded, r))
  }

  predicate Pending(s: State, r: Rid) {
    r in s.startup
    || (s.lock.Some? && s.lock.value in s.reqs && s.reqs[s.lock.value].pc.Tracking?
        && r in s.reqs[s.lock.value].pc.todo)
  }

  /** A tracked record that is not ready has a task to make it so, or awaits its turn in `track`. */
  predicate Cared(s: State, r: Rid)
    requires r < |s.recs|
  {
    Tracked(s.recs, s.loaded, r) && !s.recs[r].ready ==> s.recs[r].loader.Some? || Pending(s, r)
  }

  /** What awaits its turn in `track` and is not ready is tracked. */
  predicate TodoSafe(recs: seq<Record>, loaded: map<string, Rid>, todo: seq<Rid>) {
    forall i | 0 <= i < |todo| :: TodoAt(recs, loaded, todo[i])
  }

  predicate TodoAt(recs: seq<Record>, loaded: map<string, Rid>, r: Rid) {
    r < |recs| && (!recs[r].ready ==> Tracked(recs, loaded, r))
  }

  /** A placer's model stays untracked while it looks: only lock holders add to `loaded`. */
  predicate NotYet(s: State, t: Tid) {
    t in s.reqs && (s.reqs[t].pc.Observing? ==> s.reqs[t].name !in s.loaded)
  }

  ghost predicate OwnInv(s: State) {
    && (forall k | 0 <= k < |s.tasks| :: TaskSafe(s.recs, s.loaded, s.tasks[k]))
    && (forall r | 0 <= r < |s.recs| :: RecordSafe(s.recs, s.loaded, r))
    && (forall r | 0 <= r < |s.recs| :: Cared(s, r))
    && TodoSafe(s.recs, s.loaded, s.startup)
    && (forall t | t in s.reqs && s.reqs[t].pc.Tracking? :: TodoSafe(s.recs, s.loaded, s.reqs[t].pc.todo))
    && (forall t | t in s.reqs :: NotYet(s, t))
  }

  /** Ownership, which needs no hypothesis on what servers hold or surveys report. */
  ghost predicate OwnedInv(cfg: Config, s: State) {
    BaseInv(cfg, s) && OwnInv(s)
  }

  /** `v` is leaving to make room for `m`, whose swap has not asked for its load yet. */
  predicate Yielding(recs: seq<Record>, tasks: seq<Task>, v: Rid, m: Rid) {
    && v < |recs| && recs[v].leaving && !recs[v].unloaded && recs[v].unloader.Some?
    && var k := recs[v].unloader.value;
    k < |tasks| && tasks[k].model == m && BeforeLoad(tasks[k].stage)
  }

  /** Two tracked models that conflict are a leaving victim and the model it makes room for. */
  predicate PairSafe(recs: seq<Record>, loaded: map<string, Rid>, tasks: seq<Task>, a: string, b: string)
    requires a in loaded && b in loaded && loaded[a] < |recs| && loaded[b] < |recs|
  {
    a != b && ClaimsConflict(recs[loaded[a]].variant, recs[loaded[b]].variant) ==>
      Yielding(recs, tasks, loaded[a], loaded[b]) || Yielding(recs, tasks, loaded[b], loaded[a])
  }

  ghost predicate PairInv(s: State)
    requires LoadedShape(s.recs, s.loaded)
  {
    forall a, b | a in s.loaded && b in s.loaded :: PairSafe(s.recs, s.loaded, s.tasks, a, b)
  }

  /** The servers hold only tracked models, and none whose load has not been asked for. */
  ghost predicate HeldInv(cfg: Config, s: State)
    requires Shape(cfg, s)
  {
    && s.held <= s.may <= s.loaded.Keys
    && (forall k | 0 <= k < |s.tasks| :: NotAsked(s, k))
  }

  predicate NotAsked(s: State, k: Kid) {
    k < |s.tasks| && s.tasks[k].model < |s.recs|
    && (BeforeLoad(s.tasks[k].stage) ==> Id(s, s.tasks[k].model) !in s.may)
  }

  /** What a placer that holds the lock knows about the conflicts it listed. */
  predicate PlacerSafe(cfg: Config, recs: seq<Record>, loaded: map<string, Rid>, q: Request)
    requires LoadedShape(recs, loaded)
  {
    q.pc.Observing? ==>
      && q.name in cfg.catalogue && q.name !in loaded
      && (forall i | 0 <= i < |q.pc.conflicts| :: ConflictAt(recs, loaded, q.pc.conflicts[i]))
      && (forall id | id in loaded && ClaimsConflict(recs[loaded[id]].variant, cfg.catalogue[q.name]) ::
            loaded[id] in q.pc.conflicts)
      && |q.pc.seen| <= |q.pc.conflicts|
      && (forall j | 0 <= j < |q.pc.seen| :: Tracked(recs, loaded, q.pc.conflicts[j]))
  }

  /** A listed conflict is tracked, or its model is not. */
  predicate ConflictAt(recs: seq<Record>, loaded: map<string, Rid>, c: Rid) {
    c < |recs| && (recs[c].variant.id in loaded ==> loaded[recs[c].variant.id] == c)
  }

  ghost predicate PlacerInv(cfg: Config, s: State)
    requires LoadedShape(s.recs, s.loaded)
  {
    forall t | t in s.reqs :: PlacerSafe(cfg, s.recs, s.loaded, s.reqs[t])
  }

  ghost predicate SafeInv(cfg: Config, s: State) {
    && BaseInv(cfg, s)
    && OwnInv(s) && PairInv(s) && HeldInv(cfg, s) && PlacerInv(cfg, s)
  }

  /** Tracked records of different identity are records of different models. */
  lemma TrackedApart(recs: seq<Record>, loaded: map<string, Rid>, r: Rid, q: Rid)
    requires Tracked(recs, loaded, r) && Tracked(recs, loaded, q) && r != q
    ensures recs[r].variant.id != recs[q].variant.id
  {
  }

  // ----- Steps that decide nothing

  predicate LinkedAlike(recs: seq<Record>, recs': seq<Record>) {
    |recs'| == |recs| && forall r | 0 <= r < |recs| :: SameLinks(recs[r], recs'[r]) && recs'[r].variant == recs[r].variant
  }

  lemma LightAlike(s: State, s': State)
    requires Light(s, s')
    ensures LinkedAlike(s.recs, s'.recs)
  {
    forall r | 0 <= r < |s.recs|
      ensures SameLinks(s.recs[r], s'.recs[r]) && s'.recs[r].variant == s.recs[r].variant
    {
      assert Touch(s.recs[r], s'.recs[r]);
    }
  }

  lemma LightRecords(cfg: Config, s: State, s': State)
    requires OwnInv(s) && Light(s, s')
    ensures forall k | 0 <= k < |s'.tasks| :: TaskSafe(s'.recs, s'.loaded, s'.tasks[k])
    ensures forall r | 0 <= r < |s'.recs| :: RecordSafe(s'.recs, s'.loaded, r)
  {
    LightAlike(s, s');
    forall k | 0 <= k < |s'.tasks|
      ensures TaskSafe(s'.recs, s'.loaded, s'.tasks[k])
    {
      assert TaskSafe(s.recs, s.loaded, s.tasks[k]);
    }
    forall r | 0 <= r < |s'.recs|
      ensures RecordSafe(s'.recs, s'.loaded, r)
    {
      assert RecordSafe(s.recs, s.loaded, r);
    }
  }

  lemma LightOwn(cfg: Config, s: State, s': State, t: Tid)
    requires LockInv(s) && OwnInv(s) && Light(s, s') && LineMove(cfg, s, s', t)
    requires !s'.reqs[t].pc.Tracking? && NotYet(s', t)
    requires t in s.reqs && s.reqs[t].pc.Tracking? ==> s.reqs[t].pc.todo == []
    ensures OwnInv(s')
  {
    LightRecords(cfg, s, s');
    LightAlike(s, s');
    forall r | 0 <= r < |s'.recs|
      ensures Cared(s', r)
    {
      assert Cared(s, r);
      if Pending(s, r) && r !in s.startup {
        assert s.lock.value != t;
      }
    }
    TodoAlike(s, s', s.startup);
    forall u | u in s'.reqs
      ensures NotYet(s', u)
    {
      if u != t { assert NotYet(s, u); }
    }
    forall u | u in s'.reqs && s'.reqs[u].pc.Tracking?
      ensures TodoSafe(s'.recs, s'.loaded, s'.reqs[u].pc.todo)
    {
      TodoAlike(s, s', s.reqs[u].pc.todo);
    }
  }

  lemma TodoAlike(s: State, s': State, todo: seq<Rid>)
    requires LinkedAlike(s.recs, s'.recs) && s'.loaded == s.loaded && TodoSafe(s.recs, s.loaded, todo)
    ensures TodoSafe(s'.recs, s'.loaded, todo)
  {
    forall i | 0 <= i < |todo|
      ensures TodoAt(s'.recs, s'.loaded, todo[i])
    {
      assert TodoAt(s.recs, s.loaded, todo[i]);
    }
  }

  lemma LightPairs(cfg: Config, s: State, s': State)
    requires Shape(cfg, s) && Shape(cfg, s') && PairInv(s) && HeldInv(cfg, s) && Light(s, s')
    ensures PairInv(s') && HeldInv(cfg, s')
  {
    LightAlike(s, s');
    forall a, b | a in s'.loaded && b in s'.loaded
      ensures PairSafe(s'.recs, s'.loaded, s'.tasks, a, b)
    {
      assert PairSafe(s.recs, s.loaded, s.tasks, a, b);
    }
    forall k | 0 <= k < |s'.tasks|
      ensures NotAsked(s', k)
    {
      assert NotAsked(s, k);
    }
  }

  /** A placer stays safe while variants stay, models are only forgotten, and what it saw is tracked. */
  lemma PlacerFollows(cfg: Config, recs: seq<Record>, loaded: map<string, Rid>,
                      recs': seq<Record>, loaded': map<string, Rid>, q: Request)
    requires LoadedShape(recs, loaded) && LoadedShape(recs', loaded') && PlacerSafe(cfg, recs, loaded, q)
    requires |recs'| == |recs| && forall r | 0 <= r < |recs| :: recs'[r].variant == recs[r].variant
    requires forall id | id in loaded' :: id in loaded && loaded'[id] == loaded[id]
    requires q.pc.Observing? ==>
               forall j | 0 <= j < |q.pc.seen| && j < |q.pc.conflicts| :: Tracked(recs', loaded', q.pc.conflicts[j])
    ensures PlacerSafe(cfg, recs', loaded', q)
  {
    if q.pc.Observing? {
      forall i | 0 <= i < |q.pc.conflicts|
        ensures ConflictAt(recs', loaded', q.pc.conflicts[i])
      {
        assert ConflictAt(recs, loaded, q.pc.conflicts[i]);
      }
    }
  }

  lemma PlacerStays(cfg: Config, s: State, s': State, q: Request)
    requires LoadedShape(s.recs, s.loaded) && LoadedShape(s'.recs, s'.loaded)
    requires LinkedAlike(s.recs, s'.recs) && s'.loaded == s.loaded && PlacerSafe(cfg, s.recs, s.loaded, q)
    ensures PlacerSafe(cfg, s'.recs, s'.loaded, q)
  {
    if q.pc.Observing? {
      forall i | 0 <= i < |q.pc.conflicts|
        ensures ConflictAt(s'.recs, s'.loaded, q.pc.conflicts[i])
      {
        assert ConflictAt(s.recs, s.loaded, q.pc.conflicts[i]);
      }
      forall j | 0 <= j < |q.pc.seen|
        ensures Tracked(s'.recs, s'.loaded, q.pc.conflicts[j])
      {
        assert Tracked(s.recs, s.loaded, q.pc.conflicts[j]);
      }
    }
  }

  lemma LightPlacer(cfg: Config, s: State, s': State, t: Tid)
    requires Shape(cfg, s) && Shape(cfg, s') && PlacerInv(cfg, s) && Light(s, s') && OnlyMoved(s, s', t)
    requires PlacerSafe(cfg, s'.recs, s'.loaded, s'.reqs[t])
    ensures PlacerInv(cfg, s')
  {
    LightAlike(s, s');
    forall u | u in s'.reqs
      ensures PlacerSafe(cfg, s'.recs, s'.loaded, s'.reqs[u])
    {
      if u != t {
        assert PlacerSafe(cfg, s.recs, s.loaded, s.reqs[u]);
        PlacerStays(cfg, s, s', s.reqs[u]);
      }
    }
  }

  /** A step that decides nothing keeps everyone safe if it keeps the one that moved so. */
  lemma LightSafe(cfg: Config, s: State, s': State, t: Tid)
    requires SafeInv(cfg, s) && BaseInv(cfg, s') && Light(s, s') && LineMove(cfg, s, s', t)
    requires PlacerSafe(cfg, s'.recs, s'.loaded, s'.reqs[t])
    requires !s'.reqs[t].pc.Tracking?
    requires t in s.reqs && s.reqs[t].pc.Tracking? ==> s.reqs[t].pc.todo == []
    ensures SafeInv(cfg, s')
  {
    LightOwn(cfg, s, s', t);
    LightPairs(cfg, s, s');
    LightPlacer(cfg, s, s', t);
  }
}
