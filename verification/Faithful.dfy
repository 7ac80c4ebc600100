/**
 Faithful servers and a positive protection window keep every step tame, however stale the
 surveys: a record given up while a placer looks elsewhere has no decode count, so it is either
 out of sight or found recently used.
 */
module Faithful {
  import opened Wrappers
  import opened Machine
  import opened Line
  import opened LineSteps
  import opened Frames
  import opened Shapes
  import opened Links
  import opened TaskSteps
  import opened Base
  import opened Safety
  import opened PlaceSafe
  import opened TaskSafety
  import opened SurveySafety
  import opened SafeSteps
  import opened Ownership
  import opened Runs
  import opened Protection

  /**
   A returned unload means that the model is not held, and activity is answered only for a held
   model. Surveys may report anything, but no model whose failed record is being unloaded.
   */
  ghost predicate Faithful(cfg: Config, s: State, a: Action)
    requires Shape(cfg, s) && Enabled(cfg, s, a)
  {
    match a
    case Surveyed(t, survey) => Unbroken(s, survey)
    case Observed(t, activity) =>
      assert RequestShape(cfg, |s.recs|, s.reqs[t]);
      activity.Some? ==> Id(s, s.reqs[t].pc.conflicts[|s.reqs[t].pc.seen|]) in s.held
    case Unloaded(k) =>
      assert TaskShape(|s.recs|, s.tasks[k]);
      Id(s, s.tasks[k].victims[s.tasks[k].next]) !in s.held
    case _ => true
  }

  /** A model used at the time of an answer is protected beyond the time the call began. */
  predicate Lasting(cfg: Config, s: State, a: Action) {
    a.Observed? && a.activity.Some? && a.t in s.reqs && s.reqs[a.t].pc.Observing? ==>
      s.now + cfg.protect > s.reqs[a.t].pc.began
  }

  ghost predicate FaithfulStep(cfg: Config, s: State, a: Action) {
    Shape(cfg, s) && Enabled(cfg, s, a) && Faithful(cfg, s, a)
  }

  /** A run with faithful servers, from any survey's result and with any surveys. */
  ghost predicate FaithfulRun(cfg: Config, ss: seq<State>, acts: seq<Action>) {
    Run(cfg, ss, acts) && forall i | 0 <= i < |acts| :: FaithfulStep(cfg, ss[i], acts[i])
  }

  ghost predicate KeptStep(cfg: Config, s: State, a: Action) {
    FaithfulStep(cfg, s, a) && (cfg.protect > 0.0 || Lasting(cfg, s, a))
  }

  /**
   A run with faithful servers, any surveys, and a positive window; without one it is enough
   that every answer comes later than its call began.
   */
  ghost predicate KeptRun(cfg: Config, ss: seq<State>, acts: seq<Action>) {
    Run(cfg, ss, acts) && forall i | 0 <= i < |acts| :: KeptStep(cfg, ss[i], acts[i])
  }

  // ----- What becomes of a conflict that a placer has listed

  /** Given up, and never observed since: the next answer counts as recent activity. */
  predicate Failed(rec: Record) {
    rec.error.Some? && rec.decode.None?
  }

  /** The model is nowhere, and nobody has asked for it. */
  predicate Nowhere(s: State, id: string) {
    id !in s.loaded && id !in s.may && id !in s.held
  }

  predicate Fate(s: State, c: Rid) {
    c < |s.recs| && (Tracked(s.recs, s.loaded, c) || Nowhere(s, Id(s, c)) || Failed(s.recs[c]))
  }

  /** What a placer has still to look at, and what it has seen. */
  predicate Fated(s: State, pc: Pc) {
    pc.Observing? ==>
      && |pc.seen| <= |pc.conflicts|
      && (forall j | |pc.seen| <= j < |pc.conflicts| :: Fate(s, pc.conflicts[j]))
      && (forall j | 0 <= j < |pc.seen| :: pc.recent || Tracked(s.recs, s.loaded, pc.conflicts[j]))
  }

  /** An unready record has not been observed, and only a task records errors. */
  predicate Blank(rec: Record) {
    (!rec.ready ==> rec.decode.None?) && (rec.error.Some? ==> rec.loader.Some?)
  }

  predicate Unclaimed(recs: seq<Record>, r: Rid) {
    r < |recs| && recs[r].loader.None?
  }

  ghost predicate FateInv(s: State) {
    && (forall r | 0 <= r < |s.recs| :: Blank(s.recs[r]))
    && (forall i | 0 <= i < |s.startup| :: Unclaimed(s.recs, s.startup[i]))
    && (forall t | t in s.reqs :: Fated(s, s.reqs[t].pc))
  }

  // ----- Steps that leave decode counts and models alone

  /** Records keep what fates depend on. */
  predicate SameFate(a: Record, b: Record) {
    b.variant == a.variant && b.decode == a.decode && b.error == a.error && b.ready == a.ready && b.loader == a.loader
  }

  predicate AllSameFate(recs: seq<Record>, recs': seq<Record>) {
    |recs'| == |recs| && forall r | 0 <= r < |recs| :: SameFate(recs[r], recs'[r])
  }

  lemma SameFates(s: State, s': State)
    requires FateInv(s) && AllSameFate(s.recs, s'.recs) && s'.startup == s.startup
    requires s'.loaded == s.loaded && s'.may == s.may && s'.held <= s.held + s.may
    requires forall t | t in s'.reqs && s'.reqs[t].pc.Observing? :: t in s.reqs && s'.reqs[t].pc == s.reqs[t].pc
    ensures FateInv(s')
  {
    forall t | t in s'.reqs
      ensures Fated(s', s'.reqs[t].pc)
    {
      if s'.reqs[t].pc.Observing? {
        assert Fated(s, s.reqs[t].pc);
        forall j | |s.reqs[t].pc.seen| <= j < |s.reqs[t].pc.conflicts|
          ensures Fate(s', s.reqs[t].pc.conflicts[j])
        {
          assert Fate(s, s.reqs[t].pc.conflicts[j]);
        }
      }
    }
    forall i | 0 <= i < |s'.startup|
      ensures Unclaimed(s'.recs, s'.startup[i])
    {
      assert Unclaimed(s.recs, s.startup[i]);
    }
  }

  lemma PlainFate(cfg: Config, s: State, a: Action)
    requires Shape(cfg, s) && Enabled(cfg, s, a) && Plain(a)
    ensures AllSameFate(s.recs, Apply(cfg, s, a).recs)
  {
    if a.Look? {
      LookFate(cfg, s, a.t);
    } else if !a.Arrive? {
      assert RequestShape(cfg, |s.recs|, s.reqs[a.t]);
    }
  }

  lemma LookFate(cfg: Config, s: State, t: Tid)
    requires Shape(cfg, s) && t in s.reqs && s.reqs[t].pc.Looking?
    ensures RequestShape(cfg, |s.recs|, s.reqs[t]) && AllSameFate(s.recs, DoLook(cfg, s, t).recs)
  {
    assert RequestShape(cfg, |s.recs|, s.reqs[t]);
  }

  lemma PlainFated(cfg: Config, s: State, a: Action)
    requires BaseInv(cfg, s) && FateInv(s) && Enabled(cfg, s, a) && Plain(a)
    ensures FateInv(Apply(cfg, s, a))
  {
    PlainFacts(cfg, s, a);
    PlainFate(cfg, s, a);
    SameFates(s, Apply(cfg, s, a));
  }

  lemma EnvironmentFated(cfg: Config, s: State, a: Action)
    requires Shape(cfg, s) && FateInv(s) && Enabled(cfg, s, a) && (a.Tick? || a.Vanish? || a.Appear?)
    ensures FateInv(Apply(cfg, s, a))
  {
    SameFates(s, Apply(cfg, s, a));
  }

  // ----- Steps under the lock

  /** While another request holds the lock, nobody observes. */
  lemma NobodyObserves(s: State, t: Tid)
    requires LockInv(s) && t in s.reqs && s.lock == Some(t)
    ensures forall u | u in s.reqs && s.reqs[u].pc.Observing? :: u == t
  {
  }

  lemma UnobservedFate(s: State)
    requires forall r | 0 <= r < |s.recs| :: Blank(s.recs[r])
    requires forall i | 0 <= i < |s.startup| :: Unclaimed(s.recs, s.startup[i])
    requires forall t | t in s.reqs :: !s.reqs[t].pc.Observing?
    ensures FateInv(s)
  {
  }

  lemma TrackOneBlank(s: State, r: Rid, decode: Option<int>)
    requires FateInv(s) && r < |s.recs|
    ensures forall q | 0 <= q < |s.recs| :: Blank(TrackOne(s, r, decode).recs[q])
  {
    assert Blank(s.recs[r]);
  }

  lemma TrackNextFated(cfg: Config, s: State, t: Tid, decode: Option<int>)
    requires BaseInv(cfg, s) && FateInv(s) && Enabled(cfg, s, TrackNext(t, decode))
    ensures FateInv(Apply(cfg, s, TrackNext(t, decode)))
  {
    assert RequestShape(cfg, |s.recs|, s.reqs[t]) && PcAt(s, t);
    var s', todo := DoTrackNext(s, t, decode), s.reqs[t].pc.todo;
    NobodyObserves(s, t);
    TrackOneBlank(s, todo[0], decode);
    forall i | 0 <= i < |s'.startup|
      ensures Unclaimed(s'.recs, s'.startup[i])
    {
      assert Unclaimed(s.recs, s.startup[i]) && todo[0] != s.startup[i];
    }
    UnobservedFate(s');
  }

  lemma SurveyedFated(cfg: Config, s: State, t: Tid, survey: Survey)
    requires Valid(cfg) && BaseInv(cfg, s) && FateInv(s) && Enabled(cfg, s, Surveyed(t, survey))
    ensures FateInv(DoSurveyed(cfg, s, t, survey))
  {
    var s' := DoSurveyed(cfg, s, t, survey);
    NobodyObserves(s, t);
    SurveyedBlank(cfg, s, t, survey);
    forall i | 0 <= i < |s'.startup|
      ensures Unclaimed(s'.recs, s'.startup[i])
    {
      assert Unclaimed(s.recs, s.startup[i]);
    }
    UnobservedFate(s');
  }

  lemma SurveyedBlank(cfg: Config, s: State, t: Tid, survey: Survey)
    requires Valid(cfg) && LoadedShape(s.recs, s.loaded) && FateInv(s) && t in s.reqs && s.reqs[t].pc.Surveying?
    requires FoundIds(survey.found) <= cfg.catalogue.Keys
    ensures var s' := DoSurveyed(cfg, s, t, survey);
            && |s.recs| <= |s'.recs| && s'.startup == s.startup
            && (forall r | 0 <= r < |s.recs| :: s'.recs[r] == s.recs[r])
            && (forall r | 0 <= r < |s'.recs| :: Blank(s'.recs[r]))
  {
    RenewedInPreset(cfg, s, survey);
  }

  lemma StartupFated(cfg: Config, s: State, decode: Option<int>)
    requires BaseInv(cfg, s) && FateInv(s) && Enabled(cfg, s, StartupTrack(decode))
    ensures FateInv(Apply(cfg, s, StartupTrack(decode)))
  {
    var s', r := DoStartupTrack(s, decode), s.startup[0];
    assert Unclaimed(s.recs, s.startup[0]) && Blank(s.recs[r]);
    TrackOneBlank(s, r, decode);
    forall i | 0 <= i < |s'.startup|
      ensures Unclaimed(s'.recs, s'.startup[i])
    {
      assert Unclaimed(s.recs, s.startup[i + 1]) && s.startup[0] != s.startup[i + 1];
    }
    forall t | t in s'.reqs
      ensures Fated(s', s'.reqs[t].pc)
    {
      assert Fated(s, s.reqs[t].pc);
      SoundlyChanged(s, s', r, s.reqs[t].pc);
    }
  }

  /** A record without an error may change as it likes. */
  lemma SoundlyChanged(s: State, s': State, r: Rid, pc: Pc)
    requires Fated(s, pc) && r < |s.recs| && s.recs[r].error.None?
    requires |s'.recs| == |s.recs| && s'.recs == s.recs[r := s'.recs[r]] && s'.recs[r].variant == s.recs[r].variant
    requires s'.loaded == s.loaded && s'.may == s.may && s'.held == s.held
    ensures Fated(s', pc)
  {
    if pc.Observing? {
      forall j | |pc.seen| <= j < |pc.conflicts|
        ensures Fate(s', pc.conflicts[j])
      {
        assert Fate(s, pc.conflicts[j]);
      }
    }
  }

  // ----- Background tasks

  /** What a task's step does to fates: it may forget `d`, a record in transit, for good. */
  ghost predicate Drops(s: State, s': State, d: Option<Rid>) {
    && |s'.recs| == |s.recs| && s'.reqs == s.reqs && s'.held == s.held && s'.startup == s.startup
    && (forall r | 0 <= r < |s.recs| :: DropsAt(s.recs[r], s'.recs[r]))
    && s'.may <= s.may + s.loaded.Keys
    && (if d.None? then s'.loaded == s.loaded
        else
          && Tracked(s.recs, s.loaded, d.value) && !Idle(s.recs[d.value]) && d.value < |s'.recs|
          && s'.loaded == s.loaded - {Id(s, d.value)}
          && (Failed(s'.recs[d.value]) || Nowhere(s', Id(s, d.value))))
  }

  predicate DropsAt(a: Record, b: Record) {
    b.variant == a.variant && b.loader == a.loader && (Failed(a) ==> Failed(b)) && Blank(b)
  }

  lemma DropsFated(cfg: Config, s: State, s': State, d: Option<Rid>)
    requires BaseInv(cfg, s) && FateInv(s) && Drops(s, s', d)
    ensures FateInv(s')
  {
    forall i | 0 <= i < |s'.startup|
      ensures Unclaimed(s'.recs, s'.startup[i])
    {
      assert Unclaimed(s.recs, s.startup[i]);
      assert DropsAt(s.recs[s.startup[i]], s'.recs[s.startup[i]]);
    }
    forall r | 0 <= r < |s'.recs|
      ensures Blank(s'.recs[r])
    {
      assert DropsAt(s.recs[r], s'.recs[r]);
    }
    forall t | t in s'.reqs
      ensures Fated(s', s'.reqs[t].pc)
    {
      assert Fated(s, s.reqs[t].pc) && PcAt(s, t);
      if s.reqs[t].pc.Observing? { DropsOne(s, s', d, s.reqs[t].pc); }
    }
  }

  lemma DropsOne(s: State, s': State, d: Option<Rid>, pc: Pc)
    requires LoadedShape(s.recs, s.loaded) && Fated(s, pc) && pc.Observing? && Drops(s, s', d)
    requires PcShape(|s.recs|, pc) && PcOk(s.recs, s.startup, pc)
    ensures Fated(s', pc)
  {
    forall j | |pc.seen| <= j < |pc.conflicts|
      ensures Fate(s', pc.conflicts[j])
    {
      assert Fate(s, pc.conflicts[j]);
      assert DropsAt(s.recs[pc.conflicts[j]], s'.recs[pc.conflicts[j]]);
    }
    forall j | 0 <= j < |pc.seen|
      ensures pc.recent || Tracked(s'.recs, s'.loaded, pc.conflicts[j])
    {
      assert Idle(s.recs[pc.conflicts[j]]);
      assert DropsAt(s.recs[pc.conflicts[j]], s'.recs[pc.conflicts[j]]);
    }
  }

  lemma StartSwapDrops(cfg: Config, s: State, k: Kid)
    requires OwnedInv(cfg, s) && FateInv(s) && k < |s.tasks| && s.tasks[k].stage.Starting?
    ensures TaskShape(|s.recs|, s.tasks[k]) && Drops(s, DoStartSwap(s, k), None)
  {
    TaskFacts(cfg, s, k);
    assert TaskSafe(s.recs, s.loaded, s.tasks[k]);
    StartSwapAt(s, k);
  }

  lemma StartSwapAt(s: State, k: Kid)
    requires FateInv(s) && k < |s.tasks| && TaskShape(|s.recs|, s.tasks[k])
    requires Tracked(s.recs, s.loaded, s.tasks[k].model)
    ensures Drops(s, DoStartSwap(s, k), None)
  {
    assert Blank(s.recs[s.tasks[k].model]);
  }

  lemma UnloadedDrops(cfg: Config, s: State, k: Kid)
    requires OwnedInv(cfg, s) && FateInv(s) && k < |s.tasks| && s.tasks[k].stage.Unloading?
    requires Enabled(cfg, s, Unloaded(k)) && Faithful(cfg, s, Unloaded(k))
    ensures TaskShape(|s.recs|, s.tasks[k])
    ensures Drops(s, DoUnloaded(s, k), Some(s.tasks[k].victims[s.tasks[k].next]))
  {
    UnloadedTracked(cfg, s, k);
    UnloadedWhole(s, k);
    UnloadedMoved(s, k);
    UnloadHasEffect(s, k);
    UnloadedAt(s, DoUnloaded(s, k), k);
  }

  lemma UnloadedAt(s: State, s': State, k: Kid)
    requires FateInv(s) && k < |s.tasks| && s.tasks[k].stage.Unloading? && TaskShape(|s.recs|, s.tasks[k])
    requires UnloadEffect(s, s', k) && s.tasks[k].model != s.tasks[k].victims[s.tasks[k].next]
    ensures forall r | 0 <= r < |s.recs| :: DropsAt(s.recs[r], s'.recs[r])
  {
    forall r | 0 <= r < |s.recs|
      ensures DropsAt(s.recs[r], s'.recs[r])
    {
      assert Blank(s.recs[r]);
    }
  }

  lemma UnloadFailedDrops(cfg: Config, s: State, k: Kid, error: string)
    requires OwnedInv(cfg, s) && FateInv(s) && k < |s.tasks| && s.tasks[k].stage.Unloading?
    ensures TaskShape(|s.recs|, s.tasks[k]) && Drops(s, DoUnloadFailed(s, k, error), Some(s.tasks[k].model))
  {
    UnloadedTracked(cfg, s, k);
    TaskFacts(cfg, s, k);
    UnloadFailedWhole(s, k, error);
    UnloadFailedAt(s, k, error);
  }

  lemma UnloadFailedAt(s: State, k: Kid, error: string)
    requires FateInv(s) && k < |s.tasks| && s.tasks[k].stage.Unloading? && TaskShape(|s.recs|, s.tasks[k])
    requires !s.recs[s.tasks[k].model].ready && s.recs[s.tasks[k].model].loader.Some?
    requires Id(s, s.tasks[k].model) in s.loaded
    ensures var s' := DoUnloadFailed(s, k, error);
            && |s'.recs| == |s.recs| && s'.reqs == s.reqs && s'.startup == s.startup && Failed(s'.recs[s.tasks[k].model])
            && forall r | 0 <= r < |s.recs| :: DropsAt(s.recs[r], s'.recs[r])
  {
    forall r | 0 <= r < |s.recs|
      ensures DropsAt(s.recs[r], DoUnloadFailed(s, k, error).recs[r])
    {
      assert Blank(s.recs[r]);
    }
  }

  lemma LoadReturnedDrops(cfg: Config, s: State, k: Kid, failure: Option<string>)
    requires OwnedInv(cfg, s) && FateInv(s) && k < |s.tasks| && s.tasks[k].stage.Loading?
    ensures TaskShape(|s.recs|, s.tasks[k]) && Drops(s, DoLoadReturned(s, k, failure), None)
  {
    TaskFacts(cfg, s, k);
    assert Blank(s.recs[s.tasks[k].model]);
  }

  lemma BaselineDrops(cfg: Config, s: State, k: Kid, decode: Option<int>)
    requires OwnedInv(cfg, s) && FateInv(s) && k < |s.tasks| && s.tasks[k].stage.Baseline?
    ensures TaskShape(|s.recs|, s.tasks[k]) && Drops(s, DoBaselineRead(s, k, decode), None)
  {
    TaskFacts(cfg, s, k);
    assert Blank(s.recs[s.tasks[k].model]);
  }

  lemma ConfirmedDrops(cfg: Config, s: State, k: Kid, gone: bool)
    requires OwnedInv(cfg, s) && FateInv(s) && k < |s.tasks| && s.tasks[k].stage.Confirming?
    ensures TaskShape(|s.recs|, s.tasks[k])
    ensures var m := s.tasks[k].model;
            Drops(s, DoConfirmed(s, k, gone), if gone && Tracked(s.recs, s.loaded, m) then Some(m) else None)
  {
    TaskFacts(cfg, s, k);
    ConfirmedHasEffect(s, k, gone);
    assert Blank(s.recs[s.tasks[k].model]);
  }

  lemma SwapFated(cfg: Config, s: State, a: Action)
    requires OwnedInv(cfg, s) && FateInv(s) && Enabled(cfg, s, a) && Faithful(cfg, s, a)
    requires a.StartSwap? || a.Unloaded? || a.UnloadFailed?
    ensures FateInv(Apply(cfg, s, a))
  {
    var s', k := Apply(cfg, s, a), a.k;
    if a.StartSwap? {
      StartSwapDrops(cfg, s, k);
      DropsFated(cfg, s, s', None);
    } else if a.Unloaded? {
      UnloadedDrops(cfg, s, k);
      DropsFated(cfg, s, s', Some(s.tasks[k].victims[s.tasks[k].next]));
    } else {
      UnloadFailedDrops(cfg, s, k, a.error);
      DropsFated(cfg, s, s', Some(s.tasks[k].model));
    }
  }

  lemma ProgressFated(cfg: Config, s: State, a: Action)
    requires OwnedInv(cfg, s) && FateInv(s) && Enabled(cfg, s, a) && (a.LoadReturned? || a.BaselineRead? || a.Confirmed?)
    ensures FateInv(Apply(cfg, s, a))
  {
    var s', k := Apply(cfg, s, a), a.k;
    if a.LoadReturned? {
      LoadReturnedDrops(cfg, s, k, a.failure);
      DropsFated(cfg, s, s', None);
    } else if a.BaselineRead? {
      BaselineDrops(cfg, s, k, a.decode);
      DropsFated(cfg, s, s', None);
    } else {
      ConfirmedDrops(cfg, s, k, a.gone);
      DropsFated(cfg, s, s', if a.gone && Tracked(s.recs, s.loaded, s.tasks[k].model) then Some(s.tasks[k].model) else None);
    }
  }

  // ----- Placers

  /** A conflict that answers is tracked, or was given up and now counts as just used. */
  lemma AnsweredFate(cfg: Config, s: State, t: Tid, activity: Activity)
    requires BaseInv(cfg, s) && WatchInv(cfg, s) && FateInv(s) && KeptStep(cfg, s, Observed(t, Some(activity)))
    ensures RequestShape(cfg, |s.recs|, s.reqs[t])
    ensures var pc := s.reqs[t].pc;
            || Tracked(s.recs, s.loaded, pc.conflicts[|pc.seen|])
            || pc.recent
            || Protected(cfg, NextSeen(s, t, activity)[|pc.seen|]) > pc.until
  {
    assert RequestShape(cfg, |s.recs|, s.reqs[t]) && Watching(cfg, s.recs, s.now, s.reqs[t].pc);
    var pc := s.reqs[t].pc;
    assert Fated(s, pc);
    assert Fate(s, pc.conflicts[|pc.seen|]);
  }

  /** A decision displaces only tracked records. */
  lemma DisplacedTracked(cfg: Config, s: State, t: Tid, activity: Option<Activity>)
    requires BaseInv(cfg, s) && WatchInv(cfg, s) && FateInv(s) && KeptStep(cfg, s, Observed(t, activity))
    requires Displaces(cfg, s, Observed(t, activity))
    ensures AllTracked(s, s.reqs[t].pc.conflicts)
  {
    Decides(cfg, s, t, activity);
    AnsweredFate(cfg, s, t, activity.value);
    assert Fated(s, s.reqs[t].pc);
    LastToo(s, s.reqs[t].pc);
  }

  lemma LastToo(s: State, pc: Pc)
    requires pc.Observing? && Fated(s, pc) && !pc.recent && |pc.seen| + 1 == |pc.conflicts|
    requires Tracked(s.recs, s.loaded, pc.conflicts[|pc.seen|])
    ensures AllTracked(s, pc.conflicts)
  {
  }

  lemma Decides(cfg: Config, s: State, t: Tid, activity: Option<Activity>)
    requires Displaces(cfg, s, Observed(t, activity))
    ensures activity.Some? && |s.reqs[t].pc.seen| + 1 == |s.reqs[t].pc.conflicts| && !s.reqs[t].pc.recent
    ensures Protected(cfg, NextSeen(s, t, activity.value)[|s.reqs[t].pc.seen|]) <= s.reqs[t].pc.until
  {
    ObservedCases(cfg, s, t, activity);
    ObservedCalmly(cfg, s, t, activity);
  }

  /** Faithful servers and a lasting window make every step tame. */
  lemma KeptIsTame(cfg: Config, s: State, a: Action)
    requires BaseInv(cfg, s) && WatchInv(cfg, s) && FateInv(s) && KeptStep(cfg, s, a)
    ensures Tame(cfg, s, a)
  {
    if Displaces(cfg, s, a) { DisplacedTracked(cfg, s, a.t, a.activity); }
  }

  lemma NoticedFate(s: State, t: Tid, activity: Activity)
    requires FateInv(s) && t in s.reqs && s.reqs[t].pc.Observing? && PcShape(|s.recs|, s.reqs[t].pc)
    requires s.recs[s.reqs[t].pc.conflicts[|s.reqs[t].pc.seen|]].ready
    ensures var s0 := Noticed(s, t, activity);
            && (forall r | 0 <= r < |s0.recs| :: Blank(s0.recs[r]))
            && (forall i | 0 <= i < |s0.startup| :: Unclaimed(s0.recs, s0.startup[i]))
  {
    var c := s.reqs[t].pc.conflicts[|s.reqs[t].pc.seen|];
    assert Blank(s.recs[c]);
    forall i | 0 <= i < |s.startup|
      ensures Unclaimed(Noticed(s, t, activity).recs, s.startup[i])
    {
      assert Unclaimed(s.recs, s.startup[i]);
    }
  }

  /** After an answer, the placer has seen one more conflict, and knows whether any was just used. */
  lemma AdvanceRemembers(cfg: Config, s: State, t: Tid, conflicts: seq<Rid>, began: real, until: real,
                         recent: bool, seen: seq<Sighting>)
    requires t in s.reqs && s.reqs[t].name in cfg.catalogue && InRange(conflicts, |s.recs|)
    ensures var s' := Advance(cfg, s, t, conflicts, began, until, recent, seen);
            t in s'.reqs && (s'.reqs[t].pc.Observing? ==>
              s'.reqs[t].pc.conflicts == conflicts && s'.reqs[t].pc.seen == seen && s'.reqs[t].pc.recent == recent)
  {
    SettleLight(cfg, Unlock(s), t, Blocked(BeingUnloaded, None));
    SettleLight(cfg, Unlock(s), t, Blocked(Working, None));
    SettleLight(cfg, Unlock(s), t, Blocked(RecentlyUsed, Some(until)));
    SettleLight(cfg, Unlock(s), t, Blocked(JustUsed, Some(s.now)));
  }

  /** What a calm answer leaves `busy` with. */
  lemma CalmGoesOn(cfg: Config, s: State, t: Tid, activity: Activity)
    requires t in s.reqs && s.reqs[t].pc.Observing? && RequestShape(cfg, |s.recs|, s.reqs[t])
    requires !activity.processing && activity.deferred == 0
    ensures var pc, seen := s.reqs[t].pc, NextSeen(s, t, activity);
            var end := Protected(cfg, seen[|pc.seen|]);
            DoObserved(cfg, s, t, Some(activity)) ==
            Advance(cfg, Noticed(s, t, activity), t, pc.conflicts, pc.began,
                    if end > pc.until then end else pc.until, pc.recent || end > pc.until, seen)
  {
  }

  /** What an observation does to the records and to the placer's memory, if it decides nothing. */
  ghost predicate Remembers(cfg: Config, s: State, s': State, t: Tid, activity: Option<Activity>)
    requires t in s.reqs && s.reqs[t].pc.Observing? && RequestShape(cfg, |s.recs|, s.reqs[t])
  {
    var pc := s.reqs[t].pc;
    && t in s'.reqs
    && (Light(s, s') ==> s'.recs == s.recs || (activity.Some? && s'.recs == Noticed(s, t, activity.value).recs))
    && (s'.reqs[t].pc.Observing? ==>
          && activity.Some? && s'.reqs[t].pc.conflicts == pc.conflicts
          && s'.reqs[t].pc.seen == NextSeen(s, t, activity.value)
          && (s'.reqs[t].pc.recent <==>
                pc.recent || Protected(cfg, NextSeen(s, t, activity.value)[|pc.seen|]) > pc.until))
  }

  lemma ObservedRemembers(cfg: Config, s: State, t: Tid, activity: Option<Activity>)
    requires t in s.reqs && s.reqs[t].pc.Observing? && RequestShape(cfg, |s.recs|, s.reqs[t])
    ensures Remembers(cfg, s, DoObserved(cfg, s, t, activity), t, activity)
  {
    if activity.None? {
      SettleLight(cfg, Unlock(s), t, Blocked(Unobservable, None));
    } else if activity.value.processing || activity.value.deferred != 0 {
      SettleLight(cfg, Unlock(Noticed(s, t, activity.value)), t, Blocked(ServerBusy, None));
    } else {
      CalmRemembers(cfg, s, t, activity.value);
    }
  }

  lemma CalmRemembers(cfg: Config, s: State, t: Tid, activity: Activity)
    requires t in s.reqs && s.reqs[t].pc.Observing? && RequestShape(cfg, |s.recs|, s.reqs[t])
    requires !activity.processing && activity.deferred == 0
    ensures Remembers(cfg, s, DoObserved(cfg, s, t, Some(activity)), t, Some(activity))
  {
    CalmGoesOn(cfg, s, t, activity);
    var pc, s0, seen := s.reqs[t].pc, Noticed(s, t, activity), NextSeen(s, t, activity);
    var end := Protected(cfg, seen[|pc.seen|]);
    var until, recent := if end > pc.until then end else pc.until, pc.recent || end > pc.until;
    AdvanceCases(cfg, s0, t, pc.conflicts, pc.began, until, recent, seen);
    AdvanceRemembers(cfg, s0, t, pc.conflicts, pc.began, until, recent, seen);
  }

  /** One more conflict is seen; the fates of those behind it do not change. */
  lemma GoesOn(s: State, s': State, pc: Pc, pc': Pc)
    requires pc.Observing? && pc'.Observing? && Fated(s, pc) && PcShape(|s.recs|, pc) && PcOk(s.recs, s.startup, pc)
    requires pc'.conflicts == pc.conflicts && |pc'.seen| == |pc.seen| + 1 && (pc.recent ==> pc'.recent)
    requires Light(s, s') && pc.conflicts[|pc.seen|] < |s'.recs|
    requires s'.recs == s.recs[pc.conflicts[|pc.seen|] := s'.recs[pc.conflicts[|pc.seen|]]]
    requires pc'.recent || Tracked(s.recs, s.loaded, pc.conflicts[|pc.seen|])
    ensures Fated(s', pc')
  {
    forall r | 0 <= r < |s.recs|
      ensures s'.recs[r].variant == s.recs[r].variant
    {
      assert Touch(s.recs[r], s'.recs[r]);
    }
    forall j | |pc'.seen| <= j < |pc'.conflicts|
      ensures Fate(s', pc'.conflicts[j])
    {
      assert Fate(s, pc.conflicts[j]);
    }
  }

  lemma LookedFated(cfg: Config, s: State, t: Tid, activity: Option<Activity>)
    requires BaseInv(cfg, s) && WatchInv(cfg, s) && FateInv(s) && KeptStep(cfg, s, Observed(t, activity))
    requires RequestShape(cfg, |s.recs|, s.reqs[t]) && Light(s, DoObserved(cfg, s, t, activity))
    ensures FateInv(DoObserved(cfg, s, t, activity))
  {
    assert PcAt(s, t);
    var s', pc := DoObserved(cfg, s, t, activity), s.reqs[t].pc;
    assert Idle(s.recs[pc.conflicts[|pc.seen|]]) && Fated(s, pc);
    ObservedRemembers(cfg, s, t, activity);
    ObservedMove(cfg, s, t, activity);
    if activity.Some? {
      NoticedFate(s, t, activity.value);
      AnsweredFate(cfg, s, t, activity.value);
    }
    NobodyObserves(s, t);
    if s'.reqs[t].pc.Observing? { GoesOn(s, s', pc, s'.reqs[t].pc); }
  }

  lemma CommitFated(cfg: Config, s: State, t: Tid, conflicts: seq<Rid>)
    requires t in s.reqs && s.reqs[t].name in cfg.catalogue
    requires forall r | 0 <= r < |s.recs| :: Blank(s.recs[r])
    requires forall i | 0 <= i < |s.startup| :: Unclaimed(s.recs, s.startup[i])
    requires forall u | u in s.reqs && s.reqs[u].pc.Observing? :: u == t
    ensures FateInv(Commit(cfg, s, t, conflicts))
  {
    var s' := Commit(cfg, s, t, conflicts);
    forall i | 0 <= i < |s'.startup|
      ensures Unclaimed(s'.recs, s'.startup[i])
    {
      assert Unclaimed(s.recs, s.startup[i]);
    }
  }

  lemma ObservedFated(cfg: Config, s: State, t: Tid, activity: Option<Activity>)
    requires BaseInv(cfg, s) && WatchInv(cfg, s) && FateInv(s) && KeptStep(cfg, s, Observed(t, activity))
    ensures RequestShape(cfg, |s.recs|, s.reqs[t]) && FateInv(DoObserved(cfg, s, t, activity))
  {
    assert RequestShape(cfg, |s.recs|, s.reqs[t]) && PcAt(s, t);
    ObservedCases(cfg, s, t, activity);
    if Light(s, DoObserved(cfg, s, t, activity)) {
      LookedFated(cfg, s, t, activity);
    } else {
      NobodyObserves(s, t);
      assert Idle(s.recs[s.reqs[t].pc.conflicts[|s.reqs[t].pc.seen|]]);
      NoticedFate(s, t, activity.value);
      CommitFated(cfg, Noticed(s, t, activity.value), t, s.reqs[t].pc.conflicts);
    }
  }

  lemma TakePlaceLockFated(cfg: Config, s: State, t: Tid, conflicts: seq<Rid>)
    requires BaseInv(cfg, s) && FateInv(s) && Enabled(cfg, s, TakePlaceLock(t, conflicts))
    ensures FateInv(Apply(cfg, s, TakePlaceLock(t, conflicts)))
  {
    assert RequestShape(cfg, |s.recs|, s.reqs[t]);
    TakePlaceLockCases(cfg, s, t, conflicts);
    if Light(s, DoTakePlaceLock(cfg, s, t, conflicts)) {
      ListedFated(cfg, s, t, conflicts);
    } else {
      CommitFated(cfg, s, t, conflicts);
    }
  }

  lemma ListedIs(cfg: Config, s: State, t: Tid, conflicts: seq<Rid>)
    requires t in s.reqs && s.reqs[t].name in cfg.catalogue && LoadedShape(s.recs, s.loaded)
    requires InRange(conflicts, |s.recs|) && Light(s, DoTakePlaceLock(cfg, s, t, conflicts))
    ensures var s' := DoTakePlaceLock(cfg, s, t, conflicts);
            && OnlyMoved(s, s', t) && s'.recs == s.recs
            && (s'.reqs[t].pc.Observing? ==> s'.reqs[t].pc.conflicts == conflicts && s'.reqs[t].pc.seen == [])
  {
    SettleLight(cfg, s, t, Blocked(BeingUnloaded, None));
    SettleLight(cfg, s, t, Blocked(LoadedByAnother, Some(s.now)));
    if s.reqs[t].name !in s.loaded {
      AdvanceCases(cfg, s.(lock := Some(t)), t, conflicts, s.now, s.now, false, []);
      AdvanceRemembers(cfg, s.(lock := Some(t)), t, conflicts, s.now, s.now, false, []);
    }
  }

  lemma ListedFated(cfg: Config, s: State, t: Tid, conflicts: seq<Rid>)
    requires Shape(cfg, s) && LockInv(s) && FateInv(s) && Enabled(cfg, s, TakePlaceLock(t, conflicts))
    requires RequestShape(cfg, |s.recs|, s.reqs[t]) && Light(s, DoTakePlaceLock(cfg, s, t, conflicts))
    ensures FateInv(DoTakePlaceLock(cfg, s, t, conflicts))
  {
    var s' := DoTakePlaceLock(cfg, s, t, conflicts);
    ListedIs(cfg, s, t, conflicts);
    assert forall j | 0 <= j < |conflicts| :: Tracked(s.recs, s.loaded, conflicts[j]);
    assert s.lock.None?;
  }

  lemma StepKeepsFate(cfg: Config, s: State, a: Action)
    requires Valid(cfg) && OwnedInv(cfg, s) && WatchInv(cfg, s) && FateInv(s) && KeptStep(cfg, s, a)
    ensures FateInv(Apply(cfg, s, a))
  {
    if Plain(a) {
      PlainFated(cfg, s, a);
    } else if a.StartSwap? || a.Unloaded? || a.UnloadFailed? {
      SwapFated(cfg, s, a);
    } else if a.LoadReturned? || a.BaselineRead? || a.Confirmed? {
      ProgressFated(cfg, s, a);
    } else if a.TakePlaceLock? {
      TakePlaceLockFated(cfg, s, a.t, a.conflicts);
    } else if a.Observed? {
      ObservedFated(cfg, s, a.t, a.activity);
    } else if a.Surveyed? {
      SurveyedFated(cfg, s, a.t, a.survey);
    } else if a.TrackNext? {
      TrackNextFated(cfg, s, a.t, a.decode);
    } else if a.StartupTrack? {
      StartupFated(cfg, s, a.decode);
    } else {
      EnvironmentFated(cfg, s, a);
    }
  }

  lemma InitHasFate(cfg: Config, s: State)
    requires Init(cfg, s)
    ensures FateInv(s)
  {
    forall r | 0 <= r < |s.recs|
      ensures Blank(s.recs[r]) && s.recs[r].loader.None?
    {
      assert s.recs[r] == Fresh(s.recs[r].variant, s.now, s.recs[r].ready);
    }
  }

  // ----- Runs

  lemma NextFate(cfg: Config, ss: seq<State>, acts: seq<Action>, i: nat)
    requires KeptRun(cfg, ss, acts) && i < |acts| && OwnedInv(cfg, ss[i]) && FateInv(ss[i])
    ensures Tame(cfg, ss[i], acts[i]) && OwnedInv(cfg, ss[i + 1]) && FateInv(ss[i + 1])
  {
    RunHasWatch(cfg, ss, acts, i);
    assert Step(cfg, ss[i], acts[i], ss[i + 1]) && KeptStep(cfg, ss[i], acts[i]);
    KeptIsTame(cfg, ss[i], acts[i]);
    StepKeepsOwned(cfg, ss[i], acts[i]);
    StepKeepsFate(cfg, ss[i], acts[i]);
  }

  lemma {:induction false} KeptRunHasFate(cfg: Config, ss: seq<State>, acts: seq<Action>, i: nat)
    requires KeptRun(cfg, ss, acts) && i < |ss|
    ensures OwnedInv(cfg, ss[i]) && FateInv(ss[i])
  {
    if i == 0 {
      InitHasOwned(cfg, ss[0]);
      InitHasFate(cfg, ss[0]);
    } else {
      KeptRunHasFate(cfg, ss, acts, i - 1);
      NextFate(cfg, ss, acts, i - 1);
    }
  }

  /** With faithful servers and a lasting window, whatever surveys report, every run is tame. */
  lemma KeptRunIsTame(cfg: Config, ss: seq<State>, acts: seq<Action>)
    requires KeptRun(cfg, ss, acts)
    ensures TameRun(cfg, ss, acts)
  {
    forall i | 0 <= i < |acts|
      ensures TameStep(cfg, ss[i], acts[i])
    {
      KeptRunHasFate(cfg, ss, acts, i);
      NextFate(cfg, ss, acts, i);
      assert KeptStep(cfg, ss[i], acts[i]);
    }
  }
}
