/** Re-inspection and tracking keep ownership and exclusion, given exact surveys. */
module SurveySafety {
  import opened Wrappers
  import opened Machine
  import opened Line
  import opened Shapes
  import opened Links
  import opened LinkSteps
  import opened TaskSteps
  import opened Base
  import opened Safety

  /** What a merge does to a tracked record: keep it if it is sound and wanted. */
  lemma MergeKeeps(cfg: Config, s: State, survey: Survey, r: Rid)
    requires LoadedShape(s.recs, s.loaded) && Tracked(s.recs, s.loaded, r)
    requires if s.recs[r].variant.id in FoundIds(survey.found) then s.recs[r].error.None?
             else Kept(s.recs[r], survey.unreachable)
    ensures Tracked(s.recs, Merged(s.recs, s.loaded, survey), r)
  {
    MergedAt(cfg, s, survey, s.recs[r].variant.id);
  }

  /** A merge never brings a forgotten record back. */
  lemma MergeInvents(cfg: Config, s: State, survey: Survey, r: Rid)
    requires LoadedShape(s.recs, s.loaded) && Tracked(s.recs, Merged(s.recs, s.loaded, survey), r)
    ensures Tracked(s.recs, s.loaded, r)
  {
    MergedAt(cfg, s, survey, s.recs[r].variant.id);
  }

  lemma {:induction false} RenewedDistinct(recs: seq<Record>, loaded: map<string, Rid>, found: seq<Adopted>)
    requires LoadedShape(recs, loaded) && ApartIds(found)
    ensures ApartIds(Renewed(recs, loaded, found))
  {
    if found != [] {
      var rest := Renewed(recs, loaded, found[1..]);
      assert forall i | 0 <= i < |found[1..]| :: found[1..][i] == found[i + 1];
      RenewedDistinct(recs, loaded, found[1..]);
      forall a | a in rest
        ensures a.id != found[0].id
      {
        assert a in found[1..];
      }
      ConsApart(found[0], rest);
    }
  }

  lemma ConsApart(a: Adopted, rest: seq<Adopted>)
    requires ApartIds(rest) && forall other | other in rest :: other.id != a.id
    ensures ApartIds([a] + rest)
  {
    forall i, j | 0 <= i < j < |[a] + rest|
      ensures ([a] + rest)[i].id != ([a] + rest)[j].id
    {
      assert ([a] + rest)[j] == rest[j - 1] && rest[j - 1] in rest;
    }
  }

  lemma IndexIs(found: seq<Adopted>, id: string, i: nat)
    requires i < |found| && found[i].id == id && ApartIds(found)
    ensures id in FoundIds(found) && IndexOfId(found, id) == i
  {
    var k := IndexOfId(found, id);
    assert found[k].id == id;
  }

  /** The states before and after a merge, record by record. */
  ghost predicate MergeStep(cfg: Config, s: State, s': State, t: Tid, survey: Survey)
    requires LoadedShape(s.recs, s.loaded)
  {
    && t in s.reqs && s.reqs[t].pc.Surveying?
    && |s.recs| <= |s'.recs| && (forall r | 0 <= r < |s.recs| :: s'.recs[r] == s.recs[r])
    && (forall r | |s.recs| <= r < |s'.recs| ::
          Unborn(s'.recs[r]) && !s'.recs[r].unloaded && Tracked(s'.recs, s'.loaded, r))
    && s'.loaded == Merged(s.recs, s.loaded, survey)
    && s'.tasks == s.tasks && s'.startup == s.startup && s'.lock == s.lock && s'.held == s.held
    && t in s'.reqs && s'.reqs == s.reqs[t := s'.reqs[t]]
    && s'.reqs[t].pc == Tracking(From(|s.recs|, |s'.recs| - |s.recs|))
  }

  lemma SurveyedIsMerge(cfg: Config, s: State, t: Tid, survey: Survey)
    requires Valid(cfg) && BaseInv(cfg, s) && Enabled(cfg, s, Surveyed(t, survey))
    ensures MergeStep(cfg, s, DoSurveyed(cfg, s, t, survey), t, survey)
  {
    SurveyedMerges(cfg, s, t, survey);
  }

  lemma SurveyedMerges(cfg: Config, s: State, t: Tid, survey: Survey)
    requires Valid(cfg) && LoadedShape(s.recs, s.loaded) && t in s.reqs && s.reqs[t].pc.Surveying?
    requires FoundIds(survey.found) <= cfg.catalogue.Keys && ApartIds(survey.found)
    ensures MergeStep(cfg, s, DoSurveyed(cfg, s, t, survey), t, survey)
  {
    AllNew(cfg, s, t, survey);
    SurveyedSize(cfg, s, t, survey);
  }

  lemma AllNew(cfg: Config, s: State, t: Tid, survey: Survey)
    requires Valid(cfg) && LoadedShape(s.recs, s.loaded) && t in s.reqs && s.reqs[t].pc.Surveying?
    requires FoundIds(survey.found) <= cfg.catalogue.Keys && ApartIds(survey.found)
    ensures var s' := DoSurveyed(cfg, s, t, survey);
            forall r | |s.recs| <= r < |s'.recs| ::
              Unborn(s'.recs[r]) && !s'.recs[r].unloaded && Tracked(s'.recs, s'.loaded, r)
  {
    SurveyedSize(cfg, s, t, survey);
    var s' := DoSurveyed(cfg, s, t, survey);
    forall r | |s.recs| <= r < |s'.recs|
      ensures Unborn(s'.recs[r]) && !s'.recs[r].unloaded && Tracked(s'.recs, s'.loaded, r)
    {
      SurveyedNew(cfg, s, t, survey, r - |s.recs|, r);
    }
  }

  lemma SurveyedNew(cfg: Config, s: State, t: Tid, survey: Survey, i: nat, r: Rid)
    requires Valid(cfg) && LoadedShape(s.recs, s.loaded) && t in s.reqs && s.reqs[t].pc.Surveying?
    requires FoundIds(survey.found) <= cfg.catalogue.Keys && ApartIds(survey.found)
    requires i < |Renewed(s.recs, s.loaded, survey.found)| && r == |s.recs| + i
    ensures var s' := DoSurveyed(cfg, s, t, survey); NewRecord(s'.recs, s'.loaded, r)
  {
    var s', a := DoSurveyed(cfg, s, t, survey), Renewed(s.recs, s.loaded, survey.found)[i];
    SurveyedRecord(cfg, s, t, survey, i, r);
    MergedNew(s.recs, s.loaded, survey, i);
    FreshTracked(cfg, s'.recs, s'.loaded, r, a, s.reqs[t].pc.began);
  }

  /** A record just made by a merge. */
  predicate NewRecord(recs: seq<Record>, loaded: map<string, Rid>, r: Rid) {
    r < |recs| && Unborn(recs[r]) && Tracked(recs, loaded, r) && !recs[r].unloaded
  }

  /** The merge gives each renewed model the next new identity. */
  lemma MergedNew(recs: seq<Record>, loaded: map<string, Rid>, survey: Survey, i: nat)
    requires LoadedShape(recs, loaded)
    requires ApartIds(survey.found)
    requires i < |Renewed(recs, loaded, survey.found)|
    ensures var id := Renewed(recs, loaded, survey.found)[i].id;
            var merged := Merged(recs, loaded, survey); id in merged && merged[id] == |recs| + i
  {
    var anew := Renewed(recs, loaded, survey.found);
    RenewedDistinct(recs, loaded, survey.found);
    assert anew[i] in anew;
    IndexIs(anew, anew[i].id, i);
  }

  lemma SurveyedRecord(cfg: Config, s: State, t: Tid, survey: Survey, i: nat, r: Rid)
    requires LoadedShape(s.recs, s.loaded) && t in s.reqs && s.reqs[t].pc.Surveying?
    requires FoundIds(survey.found) <= cfg.catalogue.Keys && i < |Renewed(s.recs, s.loaded, survey.found)|
    requires r == |s.recs| + i
    ensures var s', a := DoSurveyed(cfg, s, t, survey), Renewed(s.recs, s.loaded, survey.found)[i];
            && |s'.recs| == |s.recs| + |Renewed(s.recs, s.loaded, survey.found)|
            && a.id in cfg.catalogue && s'.recs[r] == Fresh(cfg.catalogue[a.id], s.reqs[t].pc.began, a.ready)
            && s'.loaded == Merged(s.recs, s.loaded, survey)
  {
    var anew := Renewed(s.recs, s.loaded, survey.found);
    RenewedInPreset(cfg, s, survey);
    NewAt(cfg, s.recs, anew, s.reqs[t].pc.began, i, r);
  }

  lemma RenewedInPreset(cfg: Config, s: State, survey: Survey)
    requires LoadedShape(s.recs, s.loaded) && FoundIds(survey.found) <= cfg.catalogue.Keys
    ensures forall a | a in Renewed(s.recs, s.loaded, survey.found) :: a.id in cfg.catalogue
  {
    assert forall a | a in survey.found :: a.id in FoundIds(survey.found);
  }

  lemma NewAt(cfg: Config, recs: seq<Record>, anew: seq<Adopted>, began: real, i: nat, r: Rid)
    requires (forall a | a in anew :: a.id in cfg.catalogue) && i < |anew| && r == |recs| + i
    ensures anew[i].id in cfg.catalogue
    ensures (recs + NewRecords(cfg, anew, began))[r] == Fresh(cfg.catalogue[anew[i].id], began, anew[i].ready)
  {
    assert anew[i] in anew;
  }

  lemma FreshTracked(cfg: Config, recs: seq<Record>, loaded: map<string, Rid>, r: Rid, a: Adopted, began: real)
    requires Valid(cfg) && a.id in cfg.catalogue && r < |recs| && recs[r] == Fresh(cfg.catalogue[a.id], began, a.ready)
    requires a.id in loaded && loaded[a.id] == r
    ensures NewRecord(recs, loaded, r)
  {
  }

  lemma SurveyedSize(cfg: Config, s: State, t: Tid, survey: Survey)
    requires LoadedShape(s.recs, s.loaded) && t in s.reqs && s.reqs[t].pc.Surveying?
    requires FoundIds(survey.found) <= cfg.catalogue.Keys
    ensures |DoSurveyed(cfg, s, t, survey).recs| == |s.recs| + |Renewed(s.recs, s.loaded, survey.found)|
  {
  }

  lemma MergeTasks(cfg: Config, s: State, s': State, t: Tid, survey: Survey)
    requires BaseInv(cfg, s) && OwnInv(s) && MergeStep(cfg, s, s', t, survey)
    ensures forall k | 0 <= k < |s'.tasks| :: TaskSafe(s'.recs, s'.loaded, s'.tasks[k])
  {
    forall k | 0 <= k < |s'.tasks|
      ensures TaskSafe(s'.recs, s'.loaded, s'.tasks[k])
    {
      TaskFacts(cfg, s, k);
      assert TaskSafe(s.recs, s.loaded, s.tasks[k]);
      if Rising(s.tasks[k].stage) {
        MergeKeeps(cfg, s, survey, s.tasks[k].model);
      }
    }
  }

  lemma MergeRecords(cfg: Config, s: State, s': State, t: Tid, survey: Survey)
    requires BaseInv(cfg, s) && OwnInv(s) && MergeStep(cfg, s, s', t, survey) && Unbroken(s, survey)
    ensures forall r | 0 <= r < |s'.recs| :: RecordSafe(s'.recs, s'.loaded, r)
  {
    forall r | 0 <= r < |s'.recs|
      ensures RecordSafe(s'.recs, s'.loaded, r)
    {
      if r < |s.recs| {
        assert RecordSafe(s.recs, s.loaded, r);
        MergeRecord(cfg, s, s', t, survey, r);
      }
    }
  }

  lemma MergeRecord(cfg: Config, s: State, s': State, t: Tid, survey: Survey, r: Rid)
    requires LoadedShape(s.recs, s.loaded) && MergeStep(cfg, s, s', t, survey) && Unbroken(s, survey)
    requires r < |s.recs| && RecordSafe(s.recs, s.loaded, r)
    ensures RecordSafe(s'.recs, s'.loaded, r)
  {
    if s.recs[r].leaving && !s.recs[r].unloaded {
      assert s.recs[r].variant.id in FoundIds(survey.found) ==> !Broken(s.recs[s.loaded[s.recs[r].variant.id]]);
      MergeKeeps(cfg, s, survey, r);
    }
    if s.recs[r].unloaded && Tracked(s.recs, s'.loaded, r) {
      MergeInvents(cfg, s, survey, r);
    }
  }

  lemma MergeTodo(cfg: Config, s: State, s': State, t: Tid, survey: Survey)
    requires BaseInv(cfg, s) && OwnInv(s) && MergeStep(cfg, s, s', t, survey)
    ensures TodoSafe(s'.recs, s'.loaded, s'.startup)
    ensures forall u | u in s'.reqs && s'.reqs[u].pc.Tracking? :: TodoSafe(s'.recs, s'.loaded, s'.reqs[u].pc.todo)
  {
    assert TodoOk(s.recs, s.startup);
    forall i | 0 <= i < |s.startup|
      ensures TodoAt(s'.recs, s'.loaded, s.startup[i])
    {
      assert Unowned(s.recs[s.startup[i]]) && TodoAt(s.recs, s.loaded, s.startup[i]);
      assert RecordLinked(s.tasks, s.recs[s.startup[i]], s.startup[i]);
      MergeTodoAt(cfg, s, s', t, survey, s.startup[i]);
    }
    OnlyTracker(cfg, s, s', t, survey);
  }

  lemma MergeTodoAt(cfg: Config, s: State, s': State, t: Tid, survey: Survey, r: Rid)
    requires LoadedShape(s.recs, s.loaded) && MergeStep(cfg, s, s', t, survey) && TodoAt(s.recs, s.loaded, r)
    requires RecordLinked(s.tasks, s.recs[r], r) && Unowned(s.recs[r])
    ensures TodoAt(s'.recs, s'.loaded, r)
  {
    if !s.recs[r].ready {
      MergeKeeps(cfg, s, survey, r);
    }
  }

  /** The request that re-inspects holds the lock, so no other request is tracking. */
  lemma OnlyTracker(cfg: Config, s: State, s': State, t: Tid, survey: Survey)
    requires Shape(cfg, s) && LineInv(cfg, s) && MergeStep(cfg, s, s', t, survey)
    ensures s.lock == Some(t)
    ensures forall u | u in s'.reqs && s'.reqs[u].pc.Tracking? :: u == t
    ensures TodoSafe(s'.recs, s'.loaded, s'.reqs[t].pc.todo)
  {
    assert s.lock == Some(t);
    forall u | u in s'.reqs && u != t
      ensures !Locking(s'.reqs[u].pc)
    {
    }
  }

  lemma MergeOwn(cfg: Config, s: State, s': State, t: Tid, survey: Survey)
    requires BaseInv(cfg, s) && OwnInv(s) && MergeStep(cfg, s, s', t, survey) && Unbroken(s, survey)
    ensures OwnInv(s')
  {
    MergeTasks(cfg, s, s', t, survey);
    MergeRecords(cfg, s, s', t, survey);
    MergeTodo(cfg, s, s', t, survey);
    var n := |s.recs|;
    assert s.lock == Some(t);
    forall u | u in s'.reqs
      ensures NotYet(s', u)
    {
      if u != t { assert !Locking(s.reqs[u].pc); }
    }
    forall r | 0 <= r < |s'.recs|
      ensures Cared(s', r)
    {
      if r < n {
        assert Cared(s, r);
        if Tracked(s.recs, s'.loaded, r) { MergeInvents(cfg, s, survey, r); }
      } else {
        assert s'.reqs[t].pc.todo[r - n] == r;
      }
    }
  }

  lemma MergePairs(cfg: Config, s: State, s': State, t: Tid, survey: Survey)
    requires SafeInv(cfg, s) && Shape(cfg, s') && MergeStep(cfg, s, s', t, survey) && ExactSurvey(cfg, s, survey)
    ensures PairInv(s')
  {
    forall a, b | a in s'.loaded && b in s'.loaded
      ensures PairSafe(s'.recs, s'.loaded, s'.tasks, a, b)
    {
      assert a in s.loaded && b in s.loaded;
      assert PairSafe(s.recs, s.loaded, s.tasks, a, b);
      assert InCatalogue(cfg, s.recs[s.loaded[a]].variant) && InCatalogue(cfg, s'.recs[s'.loaded[a]].variant);
      assert InCatalogue(cfg, s.recs[s.loaded[b]].variant) && InCatalogue(cfg, s'.recs[s'.loaded[b]].variant);
      if Yielding(s.recs, s.tasks, s.loaded[a], s.loaded[b]) {
        YieldersMerge(cfg, s, s', t, survey, s.loaded[a], s.loaded[b]);
      } else if Yielding(s.recs, s.tasks, s.loaded[b], s.loaded[a]) {
        YieldersMerge(cfg, s, s', t, survey, s.loaded[b], s.loaded[a]);
      }
    }
  }

  lemma YieldersMerge(cfg: Config, s: State, s': State, t: Tid, survey: Survey, v: Rid, m: Rid)
    requires SafeInv(cfg, s) && MergeStep(cfg, s, s', t, survey) && ExactSurvey(cfg, s, survey)
    requires Yielding(s.recs, s.tasks, v, m) && Tracked(s.recs, s.loaded, v) && Tracked(s.recs, s.loaded, m)
    ensures Yielding(s'.recs, s'.tasks, v, m)
    ensures Tracked(s.recs, s'.loaded, v) && Tracked(s.recs, s'.loaded, m)
  {
    TaskFacts(cfg, s, s.recs[v].unloader.value);
    MergeKeeps(cfg, s, survey, v);
    MergeKeeps(cfg, s, survey, m);
  }

  lemma MergeHeld(cfg: Config, s: State, t: Tid, survey: Survey)
    requires Valid(cfg) && SafeInv(cfg, s) && Enabled(cfg, s, Surveyed(t, survey)) && ExactSurvey(cfg, s, survey)
    requires Shape(cfg, DoSurveyed(cfg, s, t, survey))
    ensures HeldInv(cfg, DoSurveyed(cfg, s, t, survey))
  {
    var s' := DoSurveyed(cfg, s, t, survey);
    forall id | id in s'.may
      ensures id in s'.loaded
    {
      var r := s.loaded[id];
      assert InCatalogue(cfg, s.recs[r].variant);
    }
    forall id | id in s.held
      ensures id in s'.may
    {
      assert InCatalogue(cfg, s.recs[s.loaded[id]].variant);
    }
    forall k | 0 <= k < |s'.tasks|
      ensures NotAsked(s', k)
    {
      assert NotAsked(s, k);
      SurveyedIsMerge(cfg, s, t, survey);
    }
  }

  lemma SurveyedSafe(cfg: Config, s: State, t: Tid, survey: Survey)
    requires Valid(cfg) && SafeInv(cfg, s) && Enabled(cfg, s, Surveyed(t, survey)) && ExactSurvey(cfg, s, survey)
    requires BaseInv(cfg, DoSurveyed(cfg, s, t, survey))
    ensures SafeInv(cfg, DoSurveyed(cfg, s, t, survey))
  {
    var s' := DoSurveyed(cfg, s, t, survey);
    SurveyedIsMerge(cfg, s, t, survey);
    MergeOwn(cfg, s, s', t, survey);
    MergePairs(cfg, s, s', t, survey);
    MergeHeld(cfg, s, t, survey);
    forall u | u in s'.reqs
      ensures PlacerSafe(cfg, s'.recs, s'.loaded, s'.reqs[u])
    {
      if u != t { assert !Locking(s.reqs[u].pc) by { assert s.lock == Some(t); } }
    }
  }

  // ----- Tracking

  /** One round of `track`, and the list it comes from. */
  ghost predicate TrackStep(s: State, s': State, r: Rid) {
    && r < |s.recs| && |s'.recs| == |s.recs| && s'.loaded == s.loaded && s'.lock == s.lock
    && s'.may == s.may && s'.held == s.held
    && (forall q | 0 <= q < |s.recs| && q != r :: s'.recs[q] == s.recs[q])
    && s'.recs[r].ready == s.recs[r].ready && s'.recs[r].leaving == s.recs[r].leaving
    && s'.recs[r].unloaded == s.recs[r].unloaded && s'.recs[r].unloader == s.recs[r].unloader
    && s'.recs[r].variant == s.recs[r].variant
    && (if s.recs[r].ready then s'.tasks == s.tasks && s'.recs[r].loader == s.recs[r].loader
        else s'.tasks == s.tasks + [Task(r, [], 0, Loading, true)] && s'.recs[r].loader.Some?)
  }

  lemma TrackRecords(cfg: Config, s: State, s': State, r: Rid)
    requires OwnInv(s) && TrackStep(s, s', r) && TodoAt(s.recs, s.loaded, r)
    ensures forall k | 0 <= k < |s'.tasks| :: TaskSafe(s'.recs, s'.loaded, s'.tasks[k])
    ensures forall q | 0 <= q < |s'.recs| :: RecordSafe(s'.recs, s'.loaded, q)
  {
    forall k | 0 <= k < |s'.tasks|
      ensures TaskSafe(s'.recs, s'.loaded, s'.tasks[k])
    {
      if k < |s.tasks| { assert TaskSafe(s.recs, s.loaded, s.tasks[k]); }
    }
    forall q | 0 <= q < |s'.recs|
      ensures RecordSafe(s'.recs, s'.loaded, q)
    {
      assert RecordSafe(s.recs, s.loaded, q);
    }
  }

  lemma TrackTodo(s: State, s': State, r: Rid, todo: seq<Rid>)
    requires TrackStep(s, s', r) && TodoSafe(s.recs, s.loaded, todo)
    ensures TodoSafe(s'.recs, s'.loaded, todo)
    ensures todo != [] ==> TodoSafe(s'.recs, s'.loaded, todo[1..])
  {
    forall i | 0 <= i < |todo|
      ensures TodoAt(s'.recs, s'.loaded, todo[i])
    {
      assert TodoAt(s.recs, s.loaded, todo[i]);
    }
  }

  lemma TrackPairs(cfg: Config, s: State, s': State, r: Rid)
    requires Shape(cfg, s) && PairInv(s) && HeldInv(cfg, s) && Shape(cfg, s') && TrackStep(s, s', r)
    ensures PairInv(s') && HeldInv(cfg, s')
  {
    forall a, b | a in s'.loaded && b in s'.loaded
      ensures PairSafe(s'.recs, s'.loaded, s'.tasks, a, b)
    {
      assert PairSafe(s.recs, s.loaded, s.tasks, a, b);
    }
    forall k | 0 <= k < |s'.tasks|
      ensures NotAsked(s', k)
    {
      if k < |s.tasks| { assert NotAsked(s, k); } else { assert TaskShape(|s'.recs|, s'.tasks[k]); }
    }
  }

  lemma TrackPlacer(cfg: Config, s: State, s': State, r: Rid, q: Request)
    requires LoadedShape(s.recs, s.loaded) && LoadedShape(s'.recs, s'.loaded) && TrackStep(s, s', r)
    requires PlacerSafe(cfg, s.recs, s.loaded, q)
    ensures PlacerSafe(cfg, s'.recs, s'.loaded, q)
  {
    PlacerFollows(cfg, s.recs, s.loaded, s'.recs, s'.loaded, q);
  }

  lemma TrackNextOwned(cfg: Config, s: State, t: Tid, decode: Option<int>)
    requires OwnedInv(cfg, s) && Enabled(cfg, s, TrackNext(t, decode))
    ensures OwnInv(Apply(cfg, s, TrackNext(t, decode)))
  {
    assert RequestShape(cfg, |s.recs|, s.reqs[t]);
    assert s.lock == Some(t);
    TrackNextIsTrack(s, t, decode);
    TrackNextKeeps(cfg, s, DoTrackNext(s, t, decode), t);
  }

  lemma TrackNextIsTrack(s: State, t: Tid, decode: Option<int>)
    requires t in s.reqs && s.reqs[t].pc.Tracking? && s.reqs[t].pc.todo != [] && s.reqs[t].pc.todo[0] < |s.recs|
    ensures var s' := DoTrackNext(s, t, decode);
            TrackStep(s, s', s.reqs[t].pc.todo[0]) && s'.startup == s.startup
            && s'.reqs == s.reqs[t := s.reqs[t].(pc := Tracking(s.reqs[t].pc.todo[1..]))]
  {
  }

  lemma TrackNextKeeps(cfg: Config, s: State, s': State, t: Tid)
    requires OwnedInv(cfg, s) && s.lock == Some(t) && t in s.reqs && s.reqs[t].pc.Tracking? && s.reqs[t].pc.todo != []
    requires s.reqs[t].pc.todo[0] < |s.recs| && TrackStep(s, s', s.reqs[t].pc.todo[0]) && s'.startup == s.startup
    requires s'.reqs == s.reqs[t := s.reqs[t].(pc := Tracking(s.reqs[t].pc.todo[1..]))]
    ensures OwnInv(s')
  {
    var todo := s.reqs[t].pc.todo;
    assert TodoAt(s.recs, s.loaded, todo[0]);
    TrackRecords(cfg, s, s', todo[0]);
    TrackTodo(s, s', todo[0], s.startup);
    TrackTodo(s, s', todo[0], todo);
    forall u | u in s'.reqs
      ensures NotYet(s', u) && (s'.reqs[u].pc.Tracking? ==> u == t)
    {
      if u != t { assert NotYet(s, u) && !Locking(s.reqs[u].pc); }
    }
    TrackCared(cfg, s, s', todo[0], t);
  }

  lemma TrackNextSafe(cfg: Config, s: State, t: Tid, decode: Option<int>)
    requires SafeInv(cfg, s) && Enabled(cfg, s, TrackNext(t, decode)) && BaseInv(cfg, Apply(cfg, s, TrackNext(t, decode)))
    ensures SafeInv(cfg, Apply(cfg, s, TrackNext(t, decode)))
  {
    assert RequestShape(cfg, |s.recs|, s.reqs[t]);
    var s' := DoTrackNext(s, t, decode);
    TrackNextOwned(cfg, s, t, decode);
    TrackNextIsTrack(s, t, decode);
    TrackPairs(cfg, s, s', s.reqs[t].pc.todo[0]);
    forall u | u in s'.reqs
      ensures PlacerSafe(cfg, s'.recs, s'.loaded, s'.reqs[u])
    {
      TrackPlacer(cfg, s, s', s.reqs[t].pc.todo[0], s.reqs[u]);
    }
  }

  lemma TrackCared(cfg: Config, s: State, s': State, r: Rid, t: Tid)
    requires BaseInv(cfg, s) && OwnInv(s) && TrackStep(s, s', r) && s.lock == Some(t)
    requires t in s.reqs && s.reqs[t].pc.Tracking? && s.reqs[t].pc.todo != [] && s.reqs[t].pc.todo[0] == r
    requires t in s'.reqs && s'.reqs[t].pc == Tracking(s.reqs[t].pc.todo[1..]) && s'.startup == s.startup
    ensures forall q | 0 <= q < |s'.recs| :: Cared(s', q)
  {
    var todo := s.reqs[t].pc.todo;
    forall q | 0 <= q < |s'.recs|
      ensures Cared(s', q)
    {
      assert Cared(s, q);
      if q != r && q in todo {
        var i :| 0 <= i < |todo| && todo[i] == q;
        assert todo[1..][i - 1] == q;
      }
    }
  }

  lemma StartupIsTrack(s: State, decode: Option<int>)
    requires s.startup != [] && s.startup[0] < |s.recs|
    ensures var s' := DoStartupTrack(s, decode);
            TrackStep(s, s', s.startup[0]) && s'.reqs == s.reqs && s'.startup == s.startup[1..]
  {
  }

  lemma StartupTrackOwned(cfg: Config, s: State, decode: Option<int>)
    requires OwnedInv(cfg, s) && Enabled(cfg, s, StartupTrack(decode))
    ensures OwnInv(Apply(cfg, s, StartupTrack(decode)))
  {
    var s' := DoStartupTrack(s, decode);
    var r := s.startup[0];
    StartupIsTrack(s, decode);
    assert TodoAt(s.recs, s.loaded, s.startup[0]);
    TrackRecords(cfg, s, s', r);
    TrackTodo(s, s', r, s.startup);
    forall u | u in s'.reqs
      ensures NotYet(s', u)
      ensures s'.reqs[u].pc.Tracking? ==> TodoSafe(s'.recs, s'.loaded, s'.reqs[u].pc.todo)
    {
      assert NotYet(s, u);
      if s.reqs[u].pc.Tracking? { TrackTodo(s, s', r, s.reqs[u].pc.todo); }
    }
    StartupCared(s, s', r);
  }

  lemma StartupTrackSafe(cfg: Config, s: State, decode: Option<int>)
    requires SafeInv(cfg, s) && Enabled(cfg, s, StartupTrack(decode)) && BaseInv(cfg, Apply(cfg, s, StartupTrack(decode)))
    ensures SafeInv(cfg, Apply(cfg, s, StartupTrack(decode)))
  {
    var s' := DoStartupTrack(s, decode);
    StartupIsTrack(s, decode);
    StartupTrackOwned(cfg, s, decode);
    TrackPairs(cfg, s, s', s.startup[0]);
    forall u | u in s'.reqs
      ensures PlacerSafe(cfg, s'.recs, s'.loaded, s'.reqs[u])
    {
      TrackPlacer(cfg, s, s', s.startup[0], s.reqs[u]);
    }
  }

  lemma StartupCared(s: State, s': State, r: Rid)
    requires OwnInv(s) && TrackStep(s, s', r) && s'.reqs == s.reqs
    requires s.startup != [] && s.startup[0] == r && s'.startup == s.startup[1..]
    ensures forall q | 0 <= q < |s'.recs| :: Cared(s', q)
  {
    forall q | 0 <= q < |s'.recs|
      ensures Cared(s', q)
    {
      assert Cared(s, q);
      if q != r && q in s.startup {
        var i :| 0 <= i < |s.startup| && s.startup[i] == q;
        assert s'.startup[i - 1] == q;
      }
    }
  }
}
