/**
 Ownership in every run with faithful servers, whatever surveys report: which swap a leaving
 record belongs to, who makes a record ready, and that deletions find their key. A step that is
 not tame, which faithful servers and a lasting window exclude, is one after which some deletion
 can go wrong.
 */
module Owners {
  import opened Wrappers
  import opened Claims
  import opened Machine
  import opened Frames
  import opened Shapes
  import opened Links
  import opened TaskSteps
  import opened Base
  import opened Safety
  import opened PlaceSafe
  import opened TaskSafety
  import opened SurveySafety
  import opened Ownership
  import opened Runs
  import opened Faithful

  /** Any surveys with faithful servers and a lasting window, or exact surveys with any window. */
  ghost predicate OwningRun(cfg: Config, ss: seq<State>, acts: seq<Action>) {
    KeptRun(cfg, ss, acts) || HonestRun(cfg, ss, acts)
  }

  lemma OwningRunIsTame(cfg: Config, ss: seq<State>, acts: seq<Action>)
    requires OwningRun(cfg, ss, acts)
    ensures TameRun(cfg, ss, acts)
  {
    if KeptRun(cfg, ss, acts) {
      KeptRunIsTame(cfg, ss, acts);
    } else {
      HonestRunIsTame(cfg, ss, acts);
    }
  }

  /** Task `k` has victim `r` still to unload, as its `j`th. */
  predicate Unloads(s: State, k: Kid, j: nat, r: Rid) {
    k < |s.tasks| && BeforeLoad(s.tasks[k].stage) && s.tasks[k].next <= j < |s.tasks[k].victims|
    && s.tasks[k].victims[j] == r
  }

  /** Task `k` is to make record `r` ready. */
  predicate Brings(s: State, k: Kid, r: Rid) {
    k < |s.tasks| && !s.tasks[k].stage.Over? && s.tasks[k].model == r
  }

  lemma PendingVictim(cfg: Config, s: State, r: Rid) returns (k: Kid, j: nat)
    requires OwnedInv(cfg, s) && Tracked(s.recs, s.loaded, r) && s.recs[r].leaving
    ensures Unloads(s, k, j, r)
  {
    assert RecordSafe(s.recs, s.loaded, r) && RecordLinked(s.tasks, s.recs[r], r);
    k := s.recs[r].unloader.value;
    TaskFacts(cfg, s, k);
    assert TaskSafe(s.recs, s.loaded, s.tasks[k]);
    j :| 0 <= j < |s.tasks[k].victims| && s.tasks[k].victims[j] == r;
    assert VictimLinked(s.recs[s.tasks[k].victims[j]], k, j < s.tasks[k].next);
  }

  /** A tracked leaving record is a pending victim of exactly one swap, once. */
  lemma LeavingHasOneSwap(cfg: Config, ss: seq<State>, acts: seq<Action>, i: nat, r: Rid)
    requires OwningRun(cfg, ss, acts) && i < |ss|
    requires Tracked(ss[i].recs, ss[i].loaded, r) && ss[i].recs[r].leaving
    ensures exists k: Kid, j: nat :: Unloads(ss[i], k, j, r)
    ensures forall k: Kid, j: nat, k': Kid, j': nat | Unloads(ss[i], k, j, r) && Unloads(ss[i], k', j', r) ::
              k == k' && j == j'
  {
    var s := ss[i];
    OwningRunIsTame(cfg, ss, acts);
    RunHasOwned(cfg, ss, acts, i);
    var k, j := PendingVictim(cfg, s, r);
    TaskFacts(cfg, s, k);
    forall k': Kid, j': nat | Unloads(s, k', j', r)
      ensures k' == k && j' == j
    {
      TaskFacts(cfg, s, k');
      assert VictimLinked(s.recs[s.tasks[k'].victims[j']], k', j' < s.tasks[k'].next);
    }
  }

  /** A tracked record that is not ready is brought up by exactly one task, or awaits `track`. */
  lemma UnreadyHasOneOwner(cfg: Config, ss: seq<State>, acts: seq<Action>, i: nat, r: Rid)
    requires OwningRun(cfg, ss, acts) && i < |ss|
    requires Tracked(ss[i].recs, ss[i].loaded, r) && !ss[i].recs[r].ready
    ensures (exists k: Kid :: Brings(ss[i], k, r)) || Pending(ss[i], r)
    ensures forall k: Kid, k': Kid | Brings(ss[i], k, r) && Brings(ss[i], k', r) :: k == k'
    ensures (exists k: Kid :: Brings(ss[i], k, r)) ==> !Pending(ss[i], r)
  {
    var s := ss[i];
    OwningRunIsTame(cfg, ss, acts);
    RunHasOwned(cfg, ss, acts, i);
    assert Cared(s, r) && RecordLinked(s.tasks, s.recs[r], r);
    if s.recs[r].loader.Some? {
      assert Brings(s, s.recs[r].loader.value, r);
    }
    forall k: Kid | Brings(s, k, r)
      ensures s.recs[r].loader == Some(k)
    {
      TaskFacts(cfg, s, k);
    }
    if Pending(s, r) {
      PendingUnowned(cfg, s, r);
    }
  }

  lemma PendingUnowned(cfg: Config, s: State, r: Rid)
    requires BaseInv(cfg, s) && Pending(s, r) && r < |s.recs|
    ensures Unowned(s.recs[r])
  {
    if r in s.startup {
      var i :| 0 <= i < |s.startup| && s.startup[i] == r;
      assert Unowned(s.recs[s.startup[i]]);
    } else {
      var t := s.lock.value;
      assert PcAt(s, t);
      var todo := s.reqs[t].pc.todo;
      var i :| 0 <= i < |todo| && todo[i] == r;
      assert Unowned(s.recs[todo[i]]);
    }
  }

  /** `swap`'s two deletions find their key, and delete the very record they are about. */
  lemma DeletionsFindTheirKey(cfg: Config, ss: seq<State>, acts: seq<Action>, i: nat)
    requires OwningRun(cfg, ss, acts) && i < |acts| && (acts[i].Unloaded? || acts[i].UnloadFailed?)
    ensures var s, task := ss[i], ss[i].tasks[acts[i].k];
            && task.next < |task.victims|
            && (acts[i].Unloaded? ==> Tracked(s.recs, s.loaded, task.victims[task.next]))
            && (acts[i].UnloadFailed? ==> Tracked(s.recs, s.loaded, task.model))
    ensures var s' := ss[i + 1]; forall k | 0 <= k < |s'.tasks| :: !s'.tasks[k].stage.Crashed?
  {
    OwningRunIsTame(cfg, ss, acts);
    RunHasOwned(cfg, ss, acts, i);
    RunHasOwned(cfg, ss, acts, i + 1);
    assert Step(cfg, ss[i], acts[i], ss[i + 1]);
    UnloadedTracked(cfg, ss[i], acts[i].k);
    var s' := ss[i + 1];
    forall k | 0 <= k < |s'.tasks|
      ensures !s'.tasks[k].stage.Crashed?
    {
      assert TaskSafe(s'.recs, s'.loaded, s'.tasks[k]);
    }
  }

  /** Nothing is under way. */
  ghost predicate Quiet(s: State) {
    && (forall k | 0 <= k < |s.tasks| :: s.tasks[k].stage.Over?)
    && s.startup == [] && (forall t | t in s.reqs :: !s.reqs[t].pc.Tracking?)
  }

  /** With nothing under way, all tracked records are ready, and none is leaving. */
  lemma QuietIsReady(cfg: Config, ss: seq<State>, acts: seq<Action>, i: nat)
    requires OwningRun(cfg, ss, acts) && i < |ss| && Quiet(ss[i])
    ensures forall r: Rid | Tracked(ss[i].recs, ss[i].loaded, r) :: ss[i].recs[r].ready && !ss[i].recs[r].leaving
  {
    var s := ss[i];
    forall r: Rid | Tracked(s.recs, s.loaded, r)
      ensures s.recs[r].ready && !s.recs[r].leaving
    {
      if !s.recs[r].ready { UnreadyHasOneOwner(cfg, ss, acts, i, r); }
      if s.recs[r].leaving { LeavingHasOneSwap(cfg, ss, acts, i, r); }
    }
  }

  /** With exact surveys, nothing tracked conflicts then either. */
  lemma QuietIsSettled(cfg: Config, ss: seq<State>, acts: seq<Action>, i: nat)
    requires HonestRun(cfg, ss, acts) && i < |ss| && Quiet(ss[i])
    ensures var s := ss[i];
            && (forall r: Rid | Tracked(s.recs, s.loaded, r) :: s.recs[r].ready && !s.recs[r].leaving)
            && (forall a, b | a in s.loaded && b in s.loaded && a != b ::
                  a in cfg.catalogue && b in cfg.catalogue && !ClaimsConflict(cfg.catalogue[a], cfg.catalogue[b]))
  {
    QuietIsReady(cfg, ss, acts, i);
    ExclusiveResources(cfg, ss, acts, i);
  }

  // ----- What a step that is not tame leads to

  /** A deletion of `swap` that would miss its key, or take another record's. */
  predicate Misses(s: State, a: Action) {
    || (a.Unloaded? && a.k < |s.tasks| && s.tasks[a.k].next < |s.tasks[a.k].victims|
        && !Tracked(s.recs, s.loaded, s.tasks[a.k].victims[s.tasks[a.k].next]))
    || (a.UnloadFailed? && a.k < |s.tasks| && !Tracked(s.recs, s.loaded, s.tasks[a.k].model))
  }

  /** A stretch of a run, from any state. */
  ghost predicate Path(cfg: Config, s: State, ss: seq<State>, acts: seq<Action>) {
    && |ss| == |acts| + 1 && ss[0] == s
    && forall i | 0 <= i < |acts| :: Step(cfg, ss[i], acts[i], ss[i + 1])
  }

  ghost predicate TamePath(cfg: Config, s: State, ss: seq<State>, acts: seq<Action>) {
    Path(cfg, s, ss, acts) && forall i | 0 <= i < |acts| :: TameStep(cfg, ss[i], acts[i])
  }

  /** A tame stretch that keeps every hypothesis. */
  ghost predicate SoundPath(cfg: Config, s: State, ss: seq<State>, acts: seq<Action>) {
    TamePath(cfg, s, ss, acts) && forall i | 0 <= i < |acts| :: HonestStep(cfg, ss[i], acts[i])
  }

  lemma {:induction false} PathHasOwned(cfg: Config, s: State, ss: seq<State>, acts: seq<Action>, i: nat)
    requires Valid(cfg) && OwnedInv(cfg, s) && TamePath(cfg, s, ss, acts) && i < |ss|
    ensures OwnedInv(cfg, ss[i])
  {
    if i > 0 {
      PathHasOwned(cfg, s, ss, acts, i - 1);
      assert Step(cfg, ss[i - 1], acts[i - 1], ss[i - 1 + 1]) && TameStep(cfg, ss[i - 1], acts[i - 1]);
      StepKeepsOwned(cfg, ss[i - 1], acts[i - 1]);
    }
  }

  lemma OwnedNeverMisses(cfg: Config, s: State, a: Action)
    requires OwnedInv(cfg, s) && Enabled(cfg, s, a)
    ensures !Misses(s, a)
  {
    if a.Unloaded? || a.UnloadFailed? { UnloadedTracked(cfg, s, a.k); }
  }

  /** The last action of a stretch misses. */
  predicate EndsMissing(ss: seq<State>, acts: seq<Action>) {
    acts != [] && |ss| == |acts| + 1 && Misses(ss[|acts| - 1], acts[|acts| - 1])
  }

  lemma Prepend(cfg: Config, s: State, a: Action, s': State, ss: seq<State>, acts: seq<Action>)
    requires Step(cfg, s, a, s') && TameStep(cfg, s, a) && HonestStep(cfg, s, a) && SoundPath(cfg, s', ss, acts)
    ensures SoundPath(cfg, s, [s] + ss, [a] + acts)
    ensures EndsMissing(ss, acts) || (acts == [] && Misses(s, a)) ==> EndsMissing([s] + ss, [a] + acts)
  {
    var ss', acts' := [s] + ss, [a] + acts;
    forall i | 0 <= i < |acts'|
      ensures Step(cfg, ss'[i], acts'[i], ss'[i + 1]) && TameStep(cfg, ss'[i], acts'[i]) && HonestStep(cfg, ss'[i], acts'[i])
    {
      if i > 0 {
        assert Step(cfg, ss[i - 1], acts[i - 1], ss[i - 1 + 1]);
        assert TameStep(cfg, ss[i - 1], acts[i - 1]) && HonestStep(cfg, ss[i - 1], acts[i - 1]);
      }
    }
  }

  /** Swap `k` has yet to unload its `j`th victim, which is not tracked. */
  predicate Stuck(s: State, k: Kid, j: nat) {
    && k < |s.tasks| && BeforeLoad(s.tasks[k].stage) && s.tasks[k].next <= j < |s.tasks[k].victims|
    && !Tracked(s.recs, s.loaded, s.tasks[k].victims[j])
  }

  /** A step of a stretch that the swap takes on its way. */
  lemma OneStep(cfg: Config, s: State, a: Action)
    requires Valid(cfg) && BaseInv(cfg, s) && Enabled(cfg, s, a) && Honest(cfg, s, a)
    requires a.StartSwap? || a.Vanish? || a.Unloaded?
    ensures BaseInv(cfg, Apply(cfg, s, a)) && Step(cfg, s, a, Apply(cfg, s, a)) && TameStep(cfg, s, a) && HonestStep(cfg, s, a)
  {
    StepKeepsBase(cfg, s, a);
  }

  lemma StartSticks(cfg: Config, s: State, k: Kid, j: nat)
    requires Shape(cfg, s) && Stuck(s, k, j) && s.tasks[k].stage.Starting?
    ensures Enabled(cfg, s, StartSwap(k)) && TaskShape(|s.recs|, s.tasks[k])
    ensures Stuck(DoStartSwap(s, k), k, j) && DoStartSwap(s, k).tasks[k].stage.Unloading?
    ensures DoStartSwap(s, k).tasks[k].next == s.tasks[k].next
  {
    assert TaskShape(|s.recs|, s.tasks[k]);
  }

  /** The state once a model whose unload is in flight has vanished from its server. */
  function Vanished(s: State, k: Kid): State
    requires k < |s.tasks| && TaskShape(|s.recs|, s.tasks[k]) && s.tasks[k].stage.Unloading?
  {
    s.(held := s.held - {Id(s, s.tasks[k].victims[s.tasks[k].next])})
  }

  function Returns(s: State, k: Kid): State
    requires k < |s.tasks| && TaskShape(|s.recs|, s.tasks[k]) && s.tasks[k].stage.Unloading?
  {
    DoUnloaded(Vanished(s, k), k)
  }

  lemma UnloadSticks(cfg: Config, s: State, k: Kid, j: nat)
    requires Shape(cfg, s) && Stuck(s, k, j) && s.tasks[k].stage.Unloading?
    requires TaskShape(|s.recs|, s.tasks[k]) && Tracked(s.recs, s.loaded, s.tasks[k].victims[s.tasks[k].next])
    ensures Stuck(Returns(s, k), k, j) && Returns(s, k).tasks[k].stage.Unloading?
    ensures Returns(s, k).tasks[k].next == s.tasks[k].next + 1
  {
  }

  /** A swap that has still to unload an untracked record comes to a deletion that misses. */
  lemma {:induction false} StuckMisses(cfg: Config, s: State, k: Kid, j: nat) returns (ss: seq<State>, acts: seq<Action>)
    requires Valid(cfg) && BaseInv(cfg, s) && Stuck(s, k, j)
    ensures SoundPath(cfg, s, ss, acts) && EndsMissing(ss, acts)
    decreases j - s.tasks[k].next, s.tasks[k].stage.Starting?
  {
    assert TaskShape(|s.recs|, s.tasks[k]);
    if s.tasks[k].stage.Starting? {
      var s' := DoStartSwap(s, k);
      StartSticks(cfg, s, k, j);
      OneStep(cfg, s, StartSwap(k));
      var rest, more := StuckMisses(cfg, s', k, j);
      Prepend(cfg, s, StartSwap(k), s', rest, more);
      return [s] + rest, [StartSwap(k)] + more;
    }
    VanishAndReturn(cfg, s, k);
    if Tracked(s.recs, s.loaded, s.tasks[k].victims[s.tasks[k].next]) {
      UnloadSticks(cfg, s, k, j);
      var rest, more := StuckMisses(cfg, Returns(s, k), k, j);
      ss, acts := ReturnFirst(cfg, s, k, rest, more);
    } else {
      ss, acts := ReturnFirst(cfg, s, k, [Returns(s, k)], []);
    }
  }

  lemma VanishAndReturn(cfg: Config, s: State, k: Kid)
    requires Valid(cfg) && BaseInv(cfg, s) && k < |s.tasks| && s.tasks[k].stage.Unloading?
    ensures TaskShape(|s.recs|, s.tasks[k]) && BaseInv(cfg, Vanished(s, k)) && BaseInv(cfg, Returns(s, k))
    ensures var gone, s1 := Vanish(Id(s, s.tasks[k].victims[s.tasks[k].next])), Vanished(s, k);
            && Step(cfg, s, gone, s1) && TameStep(cfg, s, gone) && HonestStep(cfg, s, gone)
            && Step(cfg, s1, Unloaded(k), Returns(s, k)) && TameStep(cfg, s1, Unloaded(k)) && HonestStep(cfg, s1, Unloaded(k))
  {
    assert TaskShape(|s.recs|, s.tasks[k]);
    OneStep(cfg, s, Vanish(Id(s, s.tasks[k].victims[s.tasks[k].next])));
    OneStep(cfg, Vanished(s, k), Unloaded(k));
  }

  /** The returned unload, with what follows it. */
  lemma ReturnFirst(cfg: Config, s: State, k: Kid, rest: seq<State>, more: seq<Action>)
    returns (ss: seq<State>, acts: seq<Action>)
    requires Valid(cfg) && BaseInv(cfg, s) && k < |s.tasks| && s.tasks[k].stage.Unloading?
    requires TaskShape(|s.recs|, s.tasks[k]) && SoundPath(cfg, Returns(s, k), rest, more)
    requires EndsMissing(rest, more) || (more == [] && Misses(Vanished(s, k), Unloaded(k)))
    ensures SoundPath(cfg, s, ss, acts) && EndsMissing(ss, acts)
  {
    VanishAndReturn(cfg, s, k);
    var s1 := Vanished(s, k);
    Prepend(cfg, s1, Unloaded(k), Returns(s, k), rest, more);
    ss, acts := [s1] + rest, [Unloaded(k)] + more;
    Prepend(cfg, s, Vanish(Id(s, s.tasks[k].victims[s.tasks[k].next])), s1, ss, acts);
    ss, acts := [s] + ss, [Vanish(Id(s, s.tasks[k].victims[s.tasks[k].next]))] + acts;
  }

  /** A re-inspection that finds a failed, leaving model leaves its swap stuck. */
  lemma BrokenSticks(cfg: Config, s: State, t: Tid, survey: Survey) returns (k: Kid, j: nat)
    requires Valid(cfg) && OwnedInv(cfg, s) && Enabled(cfg, s, Surveyed(t, survey)) && !Unbroken(s, survey)
    ensures Stuck(DoSurveyed(cfg, s, t, survey), k, j)
  {
    var id :| id in FoundIds(survey.found) && id in s.loaded && Broken(s.recs[s.loaded[id]]);
    k, j := PendingVictim(cfg, s, s.loaded[id]);
    SurveyedIsMerge(cfg, s, t, survey);
    MergedFresh(s.recs, s.loaded, survey, id);
  }

  /** A decision that displaces an untracked record starts a swap that is stuck. */
  lemma UntrackedSticks(cfg: Config, s: State, a: Action) returns (k: Kid, j: nat)
    requires Shape(cfg, s) && Enabled(cfg, s, a) && Displaces(cfg, s, a) && !AllTracked(s, s.reqs[a.t].pc.conflicts)
    ensures Stuck(Apply(cfg, s, a), k, j)
  {
    var conflicts := s.reqs[a.t].pc.conflicts;
    ObservedCases(cfg, s, a.t, a.activity);
    k := |s.tasks|;
    j :| 0 <= j < |conflicts| && !Tracked(s.recs, s.loaded, conflicts[j]);
    CommitUntracked(cfg, Noticed(s, a.t, a.activity.value), a.t, conflicts, conflicts[j]);
  }

  lemma CommitUntracked(cfg: Config, s: State, t: Tid, conflicts: seq<Rid>, c: Rid)
    requires t in s.reqs && s.reqs[t].name in cfg.catalogue && c < |s.recs| && !Tracked(s.recs, s.loaded, c)
    ensures var s' := Commit(cfg, s, t, conflicts); !Tracked(s'.recs, s'.loaded, c)
  {
  }

  /** A tame step is exactly one after which no tame stretch of a run has a deletion that misses. */
  lemma TameExactly(cfg: Config, s: State, a: Action)
    requires Valid(cfg) && OwnedInv(cfg, s) && Enabled(cfg, s, a)
    ensures Tame(cfg, s, a) ==>
              forall ss, acts | TamePath(cfg, Apply(cfg, s, a), ss, acts) ::
                forall i | 0 <= i < |acts| :: !Misses(ss[i], acts[i])
    ensures !Tame(cfg, s, a) ==>
              exists ss, acts :: SoundPath(cfg, Apply(cfg, s, a), ss, acts) && EndsMissing(ss, acts)
  {
    var s' := Apply(cfg, s, a);
    if Tame(cfg, s, a) {
      StepKeepsOwned(cfg, s, a);
      forall ss, acts, i | TamePath(cfg, s', ss, acts) && 0 <= i < |acts|
        ensures !Misses(ss[i], acts[i])
      {
        PathHasOwned(cfg, s', ss, acts, i);
        assert TameStep(cfg, ss[i], acts[i]);
        OwnedNeverMisses(cfg, ss[i], acts[i]);
      }
    } else {
      StepKeepsBase(cfg, s, a);
      var k, j;
      if a.Surveyed? {
        k, j := BrokenSticks(cfg, s, a.t, a.survey);
      } else {
        k, j := UntrackedSticks(cfg, s, a);
      }
      var ss, acts := StuckMisses(cfg, s', k, j);
    }
  }
}
