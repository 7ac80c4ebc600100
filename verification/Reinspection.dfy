/** What re-inspection keeps, whatever the surveys report, stale or not. */
module Reinspection {
  import opened Wrappers
  import opened Machine
  import opened Line
  import opened Shapes
  import opened Links
  import opened LinkSteps
  import opened Base
  import opened Safety
  import opened TaskSafety
  import opened Interruption
  import opened Counts
  import opened UseSteps
  import opened SafeSteps
  import opened Runs
  import opened Owners

  /** What a merge keeps by identity, exactly. */
  predicate KeptByMerge(rec: Record, survey: Survey) {
    if rec.variant.id in FoundIds(survey.found) then rec.error.None?
    else rec.active != 0 || rec.leaving || !rec.ready || rec.variant.backend in survey.unreachable
  }

  lemma MergeKeepsExactly(cfg: Config, s: State, survey: Survey, r: Rid)
    requires Shape(cfg, s) && r < |s.recs|
    ensures Tracked(s.recs, Merged(s.recs, s.loaded, survey), r) <==>
            Tracked(s.recs, s.loaded, r) && KeptByMerge(s.recs[r], survey)
  {
    var id := s.recs[r].variant.id;
    if id in Merged(s.recs, s.loaded, survey) {
      MergedAt(cfg, s, survey, id);
    }
  }

  /**
   A re-inspection in any run. It keeps by identity every record with an admitted request, and
   every sound one that is leaving or unready; an entry for each tracked model of a server it
   could not reach; and an entry for each model reported held.
   */
  lemma ReinspectionKeeps(cfg: Config, ss: seq<State>, acts: seq<Action>, i: nat)
    requires Run(cfg, ss, acts) && i < |acts| && acts[i].Surveyed?
    ensures var s, s', survey := ss[i], ss[i + 1], acts[i].survey;
            && |s.recs| <= |s'.recs| && s'.recs[..|s.recs|] == s.recs
            && (forall r: Rid | Tracked(s.recs, s.loaded, r) && s.recs[r].active != 0 :: Tracked(s'.recs, s'.loaded, r))
            && (forall r: Rid | Tracked(s.recs, s.loaded, r) && s.recs[r].error.None?
                                && (s.recs[r].leaving || !s.recs[r].ready) :: Tracked(s'.recs, s'.loaded, r))
            && (forall id | id in s.loaded && id in cfg.catalogue && cfg.catalogue[id].backend in survey.unreachable ::
                  id in s'.loaded)
            && FoundIds(survey.found) <= s'.loaded.Keys
  {
    var s, s', survey := ss[i], ss[i + 1], acts[i].survey;
    RunHasBase(cfg, ss, acts, i);
    assert Step(cfg, s, acts[i], s');
    SurveyedPrefix(cfg, s, acts[i].t, survey);
    assert s'.loaded == Merged(s.recs, s.loaded, survey);
    forall r: Rid | Tracked(s.recs, s.loaded, r)
      ensures Tracked(s'.recs, s'.loaded, r) <==> KeptByMerge(s.recs[r], survey)
      ensures UseOk(s.recs[r])
    {
      MergeKeepsExactly(cfg, s, survey, r);
      assert s'.recs[..|s.recs|][r] == s.recs[r];
    }
    forall id | id in s.loaded && id in cfg.catalogue && cfg.catalogue[id].backend in survey.unreachable
      ensures id in s'.loaded
    {
      assert InCatalogue(cfg, s.recs[s.loaded[id]].variant);
    }
  }

  /**
   A record that requests have been woken for is not in progress as the merge sees it: the
   merge loses it exactly when its reachable server does not report it.
   */
  lemma MergeLosesTheWoken(cfg: Config, s: State, survey: Survey, r: Rid)
    requires BaseInv(cfg, s) && Tracked(s.recs, s.loaded, r) && Woken(s.recs[r])
    ensures !Tracked(s.recs, Merged(s.recs, s.loaded, survey), r) <==>
            s.recs[r].variant.id !in FoundIds(survey.found) && s.recs[r].variant.backend !in survey.unreachable
  {
    assert UseOk(s.recs[r]);
    MergeKeepsExactly(cfg, s, survey, r);
  }

  /**
   Every record with waiting or admitted requests survives a re-inspection if and only if no
   sound, woken one is missed by its server.
   */
  lemma ReinspectionSparesExactly(cfg: Config, s: State, t: Tid, survey: Survey)
    requires Valid(cfg) && SafeInv(cfg, s) && ServedInv(s) && Enabled(cfg, s, Surveyed(t, survey))
    ensures ServedInv(Apply(cfg, s, Surveyed(t, survey))) <==> Sparing(cfg, s, Surveyed(t, survey))
  {
    if Sparing(cfg, s, Surveyed(t, survey)) {
      SurveyedServed(cfg, s, t, survey);
    } else {
      var id :| id in s.loaded && Woken(s.recs[s.loaded[id]])
                && id !in FoundIds(survey.found) && s.recs[s.loaded[id]].variant.backend !in survey.unreachable;
      MissedIsLost(cfg, s, t, survey, s.loaded[id]);
    }
  }

  lemma MissedRecord(cfg: Config, s: State, t: Tid, survey: Survey, r: Rid)
    requires BaseInv(cfg, s) && t in s.reqs && s.reqs[t].pc.Surveying? && FoundIds(survey.found) <= cfg.catalogue.Keys
    requires Tracked(s.recs, s.loaded, r) && Woken(s.recs[r])
    requires s.recs[r].variant.id !in FoundIds(survey.found) && s.recs[r].variant.backend !in survey.unreachable
    ensures var s' := DoSurveyed(cfg, s, t, survey);
            r < |s'.recs| && s'.recs[r] == s.recs[r] && !Tracked(s'.recs, s'.loaded, r)
  {
    var s' := DoSurveyed(cfg, s, t, survey);
    SurveyedPrefix(cfg, s, t, survey);
    assert s'.recs[..|s.recs|][r] == s.recs[r];
    MergeLosesTheWoken(cfg, s, survey, r);
  }

  lemma MissedIsLost(cfg: Config, s: State, t: Tid, survey: Survey, r: Rid)
    requires BaseInv(cfg, s) && t in s.reqs && s.reqs[t].pc.Surveying? && FoundIds(survey.found) <= cfg.catalogue.Keys
    requires Tracked(s.recs, s.loaded, r) && Woken(s.recs[r])
    requires s.recs[r].variant.id !in FoundIds(survey.found) && s.recs[r].variant.backend !in survey.unreachable
    ensures !ServedInv(DoSurveyed(cfg, s, t, survey))
  {
    var s' := DoSurveyed(cfg, s, t, survey);
    MissedRecord(cfg, s, t, survey, r);
    assert !ServedAt(s'.recs, s'.loaded, r);
  }

  // ----- What a re-inspection that does not spare the woken leads to

  /** A request is admitted to a record that does not stand for its model any more. */
  predicate Astray(s: State, t: Tid) {
    t in s.reqs && s.reqs[t].pc.Admitted? && !Tracked(s.recs, s.loaded, s.reqs[t].pc.rid)
  }

  /** A stretch of a run whose steps keep every hypothesis, and in which surveys spare the woken. */
  ghost predicate SparingPath(cfg: Config, s: State, ss: seq<State>, acts: seq<Action>) {
    && Path(cfg, s, ss, acts)
    && forall i | 0 <= i < |acts| :: HonestStep(cfg, ss[i], acts[i]) && SparingStep(cfg, ss[i], acts[i])
  }

  lemma {:induction false} PathHasServed(cfg: Config, s: State, ss: seq<State>, acts: seq<Action>, i: nat)
    requires Valid(cfg) && SafeInv(cfg, s) && ServedInv(s) && SparingPath(cfg, s, ss, acts) && i < |ss|
    ensures SafeInv(cfg, ss[i]) && ServedInv(ss[i])
  {
    if i > 0 {
      PathHasServed(cfg, s, ss, acts, i - 1);
      assert Step(cfg, ss[i - 1], acts[i - 1], ss[i - 1 + 1]);
      assert HonestStep(cfg, ss[i - 1], acts[i - 1]) && SparingStep(cfg, ss[i - 1], acts[i - 1]);
      StepKeepsSafe(cfg, ss[i - 1], acts[i - 1]);
      ServedStep(cfg, ss[i - 1], acts[i - 1], ss[i]);
    }
  }

  lemma ServedIsTracked(cfg: Config, s: State, t: Tid)
    requires SafeInv(cfg, s) && ServedInv(s)
    ensures !Astray(s, t)
  {
    if t in s.reqs && s.reqs[t].pc.Admitted? {
      InUse(cfg, s, t);
      assert ServedAt(s.recs, s.loaded, s.reqs[t].pc.rid);
    }
  }

  /** Only a request gone astray can be admitted to a model whose unload is in flight. */
  lemma InterruptedIsAstray(cfg: Config, s: State, k: Kid, t: Tid)
    requires SafeInv(cfg, s) && k < |s.tasks| && s.tasks[k].stage.Unloading?
    requires t in s.reqs && s.reqs[t].pc.Admitted?
    ensures TaskShape(|s.recs|, s.tasks[k]) && PcShape(|s.recs|, s.reqs[t].pc)
    ensures Id(s, s.reqs[t].pc.rid) == Id(s, s.tasks[k].victims[s.tasks[k].next]) ==> Astray(s, t)
  {
    UnloadedTracked(cfg, s, k);
    InUse(cfg, s, t);
  }

  lemma AJoiner(s: State, r: Rid) returns (u: Tid)
    requires CountInv(s) && r < |s.recs| && Woken(s.recs[r])
    ensures u in s.reqs && s.reqs[u].pc == Joining(r)
  {
    assert Counted(s.reqs, s.recs[r], r);
    u :| u in Those(s.reqs, Joining(r));
  }

  lemma SurveyedOnlyMoves(cfg: Config, s: State, t: Tid, survey: Survey)
    requires LoadedShape(s.recs, s.loaded) && t in s.reqs && s.reqs[t].pc.Surveying?
    requires FoundIds(survey.found) <= cfg.catalogue.Keys
    ensures OnlyMoved(s, DoSurveyed(cfg, s, t, survey), t)
  {
  }

  /** A woken joiner that goes astray as soon as it runs. */
  predicate AboutToStray(s: State, u: Tid) {
    && u in s.reqs && s.reqs[u].pc.Joining? && s.reqs[u].pc.rid < |s.recs| && s.recs[s.reqs[u].pc.rid].ready
    && Astray(DoJoinWake(s, u), u)
  }

  lemma JoinsAstray(s: State, u: Tid, r: Rid)
    requires u in s.reqs && s.reqs[u].pc == Joining(r) && r < |s.recs| && Woken(s.recs[r])
    requires !Tracked(s.recs, s.loaded, r)
    ensures AboutToStray(s, u)
  {
  }

  lemma MissedGoesAstray(cfg: Config, s: State, t: Tid, survey: Survey, r: Rid) returns (u: Tid)
    requires BaseInv(cfg, s) && t in s.reqs && s.reqs[t].pc.Surveying? && FoundIds(survey.found) <= cfg.catalogue.Keys
    requires Tracked(s.recs, s.loaded, r) && Woken(s.recs[r])
    requires s.recs[r].variant.id !in FoundIds(survey.found) && s.recs[r].variant.backend !in survey.unreachable
    ensures AboutToStray(DoSurveyed(cfg, s, t, survey), u)
  {
    MissedRecord(cfg, s, t, survey, r);
    SurveyedOnlyMoves(cfg, s, t, survey);
    u := AJoiner(s, r);
    JoinsAstray(DoSurveyed(cfg, s, t, survey), u, r);
  }

  /**
   An exact survey spares the woken if and only if no sparing stretch of a run after it admits a
   request to a record that is not tracked; without it, the next woken joiner goes astray.
   */
  lemma SparingExactly(cfg: Config, s: State, t: Tid, survey: Survey)
    requires Valid(cfg) && SafeInv(cfg, s) && ServedInv(s)
    requires Enabled(cfg, s, Surveyed(t, survey)) && Honest(cfg, s, Surveyed(t, survey))
    ensures Sparing(cfg, s, Surveyed(t, survey)) ==>
              forall ss, acts | SparingPath(cfg, Apply(cfg, s, Surveyed(t, survey)), ss, acts) ::
                forall i, u | 0 <= i < |ss| :: !Astray(ss[i], u)
    ensures !Sparing(cfg, s, Surveyed(t, survey)) ==>
              exists u :: AboutToStray(Apply(cfg, s, Surveyed(t, survey)), u)
  {
    var a := Surveyed(t, survey);
    var s' := Apply(cfg, s, a);
    if Sparing(cfg, s, a) {
      StepKeepsSafe(cfg, s, a);
      ServedStep(cfg, s, a, s');
      forall ss, acts, i, u | SparingPath(cfg, s', ss, acts) && 0 <= i < |ss|
        ensures !Astray(ss[i], u)
      {
        PathHasServed(cfg, s', ss, acts, i);
        ServedIsTracked(cfg, ss[i], u);
      }
    } else {
      var id :| id in s.loaded && Woken(s.recs[s.loaded[id]])
                && id !in FoundIds(survey.found) && s.recs[s.loaded[id]].variant.backend !in survey.unreachable;
      var u := MissedGoesAstray(cfg, s, t, survey, s.loaded[id]);
    }
  }
}
