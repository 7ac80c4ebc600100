/** Every step taken under the hypotheses keeps ownership and exclusion. */
module SafeSteps {
  import opened Claims
  import opened Machine
  import opened Line
  import opened LineSteps
  import opened Frames
  import opened Shapes
  import opened LinkSteps
  import opened Base
  import opened Safety
  import opened PlaceSafe
  import opened TaskSafety
  import opened SurveySafety

  predicate Plain(a: Action) {
    a.Arrive? || a.TakeCheckLock? || a.TrackDone? || a.Wake? || a.Look? || a.JoinWake? || a.Release? || a.Cancel?
  }

  /** A plain step decides nothing and leaves its request neither observing nor tracking. */
  lemma PlainFacts(cfg: Config, s: State, a: Action)
    requires BaseInv(cfg, s) && Enabled(cfg, s, a) && Plain(a)
    ensures var s' := Apply(cfg, s, a); Light(s, s') && OnlyMoved(s, s', a.t) && Carefree(s'.reqs[a.t].pc)
    ensures a.t in s.reqs && s.reqs[a.t].pc.Tracking? ==> s.reqs[a.t].pc.todo == []
  {
    if !a.Arrive? {
      assert RequestShape(cfg, |s.recs|, s.reqs[a.t]);
    }
    if a.Look? {
      LookLight(cfg, s, a.t);
      LookPc(cfg, s, a.t);
      LookShape(cfg, s, a.t);
    } else if a.JoinWake? || a.Release? || a.Cancel? {
      LeavingFacts(cfg, s, a);
    } else {
      ShortLight(cfg, s, a);
      LightMoveShape(cfg, s, a);
    }
  }

  lemma LeavingFacts(cfg: Config, s: State, a: Action)
    requires Shape(cfg, s) && Enabled(cfg, s, a) && (a.JoinWake? || a.Release? || a.Cancel?)
    ensures var s' := Apply(cfg, s, a); Light(s, s') && OnlyMoved(s, s', a.t) && Carefree(s'.reqs[a.t].pc)
  {
    assert RequestShape(cfg, |s.recs|, s.reqs[a.t]);
    JoinedLight(s, a.t);
    JoinedShape(cfg, s, a.t);
  }

  lemma PlainSafe(cfg: Config, s: State, a: Action)
    requires Valid(cfg) && SafeInv(cfg, s) && Enabled(cfg, s, a) && Plain(a) && BaseInv(cfg, Apply(cfg, s, a))
    ensures SafeInv(cfg, Apply(cfg, s, a))
  {
    PlainFacts(cfg, s, a);
    RequestMove(cfg, s, a);
    LightSafe(cfg, s, Apply(cfg, s, a), a.t);
  }

  lemma EnvironmentOnly(cfg: Config, s: State, a: Action)
    requires Shape(cfg, s) && Enabled(cfg, s, a) && (a.Tick? || a.Vanish? || a.Appear?)
    ensures var s' := Apply(cfg, s, a);
            s' == s.(now := s'.now, held := s'.held) && (s.held <= s.may ==> s'.held <= s.may)
  {
  }

  lemma EnvironmentSafe(cfg: Config, s: State, a: Action)
    requires Valid(cfg) && SafeInv(cfg, s) && Enabled(cfg, s, a) && (a.Tick? || a.Vanish? || a.Appear?)
    requires BaseInv(cfg, Apply(cfg, s, a))
    ensures SafeInv(cfg, Apply(cfg, s, a))
  {
    EnvironmentOnly(cfg, s, a);
    HeldOnly(cfg, s, Apply(cfg, s, a));
  }

  /** Models coming and going on the servers, within what they may hold. */
  lemma HeldOnly(cfg: Config, s: State, s': State)
    requires SafeInv(cfg, s) && BaseInv(cfg, s') && s' == s.(now := s'.now, held := s'.held) && s'.held <= s'.may
    ensures SafeInv(cfg, s')
  {
    forall r | 0 <= r < |s'.recs|
      ensures Cared(s', r)
    {
      assert Cared(s, r);
    }
    forall k | 0 <= k < |s'.tasks|
      ensures NotAsked(s', k)
    {
      assert NotAsked(s, k);
    }
  }

  lemma SwapSafeStep(cfg: Config, s: State, a: Action)
    requires Valid(cfg) && SafeInv(cfg, s) && Enabled(cfg, s, a) && Honest(cfg, s, a) && BaseInv(cfg, Apply(cfg, s, a))
    requires a.StartSwap? || a.Unloaded? || a.UnloadFailed?
    ensures SafeInv(cfg, Apply(cfg, s, a))
  {
    assert TaskShape(|s.recs|, s.tasks[a.k]);
    if a.StartSwap? {
      StartSwapSafe(cfg, s, a.k);
    } else if a.Unloaded? {
      UnloadedSafe(cfg, s, a.k);
    } else {
      UnloadFailedSafe(cfg, s, a.k, a.error);
    }
  }

  lemma LoadSafeStep(cfg: Config, s: State, a: Action)
    requires Valid(cfg) && SafeInv(cfg, s) && Enabled(cfg, s, a) && Honest(cfg, s, a) && BaseInv(cfg, Apply(cfg, s, a))
    requires a.LoadReturned? || a.BaselineRead? || a.Confirmed?
    ensures SafeInv(cfg, Apply(cfg, s, a))
  {
    assert TaskShape(|s.recs|, s.tasks[a.k]);
    if a.LoadReturned? {
      LoadReturnedSafe(cfg, s, a.k, a.failure);
    } else if a.BaselineRead? {
      BaselineReadSafe(cfg, s, a.k, a.decode);
    } else {
      ConfirmedSafe(cfg, s, a.k, a.gone);
    }
  }

  lemma StepKeepsSafe(cfg: Config, s: State, a: Action)
    requires Valid(cfg) && SafeInv(cfg, s) && Enabled(cfg, s, a) && Honest(cfg, s, a)
    ensures SafeInv(cfg, Apply(cfg, s, a))
  {
    StepKeepsBase(cfg, s, a);
    if Plain(a) {
      PlainSafe(cfg, s, a);
    } else if a.StartSwap? || a.Unloaded? || a.UnloadFailed? {
      SwapSafeStep(cfg, s, a);
    } else if a.LoadReturned? || a.BaselineRead? || a.Confirmed? {
      LoadSafeStep(cfg, s, a);
    } else if a.TakePlaceLock? {
      TakePlaceLockSafe(cfg, s, a.t, a.conflicts);
    } else if a.Observed? {
      ObservedSafe(cfg, s, a.t, a.activity);
    } else if a.Surveyed? {
      SurveyedSafe(cfg, s, a.t, a.survey);
    } else if a.TrackNext? {
      TrackNextSafe(cfg, s, a.t, a.decode);
    } else if a.StartupTrack? {
      StartupTrackSafe(cfg, s, a.decode);
    } else {
      EnvironmentSafe(cfg, s, a);
    }
  }

  /** Where the hypotheses let a run begin: only adopted models are held, and none conflict. */
  ghost predicate InitSafe(cfg: Config, s: State) {
    && Init(cfg, s)
    && s.held <= s.may <= s.loaded.Keys
    && forall a, b | a in s.loaded && b in s.loaded && a != b ::
         !ClaimsConflict(s.recs[s.loaded[a]].variant, s.recs[s.loaded[b]].variant)
  }

  lemma InitHasSafe(cfg: Config, s: State)
    requires InitSafe(cfg, s)
    ensures SafeInv(cfg, s)
  {
    InitHasBase(cfg, s);
    forall r | 0 <= r < |s.recs|
      ensures Cared(s, r) && s.recs[r] == Fresh(s.recs[r].variant, s.now, s.recs[r].ready)
    {
      assert s.startup[r] == r;
    }
    forall i | 0 <= i < |s.startup|
      ensures TodoAt(s.recs, s.loaded, s.startup[i])
    {
      assert Tracked(s.recs, s.loaded, s.startup[i]);
    }
  }
}
