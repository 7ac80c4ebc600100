/** Reading every server and judging what they hold (`survey` and its parts, src/model_broker/scheduler.py). */
module Surveys {
  import opened Claims
  import opened Capacity
  import opened Machine
  import opened Safety
  import opened SafeSteps
  import opened Runs
  import opened Composition

  datatype RouterProps = RouterProps(maxInstances: int, autoload: bool)

  /** What a server answered: its settings, and the state of each model it lists. */
  datatype Reading = Unreachable | Answered(props: RouterProps, states: map<string, string>)

  /** Why scheduling is unsafe. */
  datatype Trouble =
    | TooFewInstances(server: string, needed: nat)
    | LoadsAutomatically(server: string)
    | UnknownState(server: string, id: string)
    | Asleep(server: string, id: string)
    | NotInPreset(server: string, id: string)
    | ConflictOnServer(first: string, second: string)
    | Unavailable(server: string)
    | ConflictAcross(first: string, second: string)

  datatype Inspection = Inspection(loaded: map<string, Record>, problems: set<Trouble>, unreachable: set<string>)

  const KNOWN_STATES := {"unloaded", "loading", "loaded", "sleeping"}

  // ----- What makes scheduling safe

  /** The server never has to choose a model to unload, and loads none by itself. */
  ghost predicate FitFor(props: RouterProps, own: map<string, Variant>) {
    !props.autoload && forall n: nat | LargestFamily(ResourceSets(own), n) :: Allows(props.maxInstances, n)
  }

  /** Every reported state is unloaded, loading or loaded, and every model not unloaded is the server's own. */
  predicate Understood(own: map<string, Variant>, states: map<string, string>) {
    forall id | id in states :: UnderstoodAt(own, id, states[id])
  }

  predicate UnderstoodAt(own: map<string, Variant>, id: string, state: string) {
    state == "unloaded" || ((state == "loading" || state == "loaded") && id in own)
  }

  /** The models that these states say are not unloaded, among the server's own. */
  function AdoptedIds(own: map<string, Variant>, states: map<string, string>): set<string> {
    set id | id in states && id in own && states[id] != "unloaded"
  }

  predicate ApartIn(variants: map<string, Variant>, ids: set<string>)
    requires ids <= variants.Keys
  {
    forall a, b | a in ids && b in ids && a != b :: !ClaimsConflict(variants[a], variants[b])
  }

  /** Everything not unloaded that any server reports of its own models. */
  ghost function Reported(adapters: map<string, Reading>, catalogue: map<string, Variant>): (ids: set<string>)
    ensures ids <= catalogue.Keys
  {
    set id | id in catalogue && Reports(adapters, catalogue[id].backend, id)
  }

  predicate Reports(adapters: map<string, Reading>, key: string, id: string) {
    key in adapters && adapters[key].Answered? && id in adapters[key].states && adapters[key].states[id] != "unloaded"
  }

  ghost predicate SoundServer(adapters: map<string, Reading>, catalogue: map<string, Variant>, key: string) {
    && key in adapters && adapters[key].Answered?
    && FitFor(adapters[key].props, Own(catalogue, key))
    && Understood(Own(catalogue, key), adapters[key].states)
  }

  /** All servers are reachable, fit and understood, and what they hold is free of conflict. */
  ghost predicate Sound(adapters: map<string, Reading>, catalogue: map<string, Variant>) {
    && (forall key | key in adapters :: SoundServer(adapters, catalogue, key))
    && ApartIn(catalogue, Reported(adapters, catalogue))
  }

  // ----- The checks

  lemma LargestIsUnique(all: set<set<string>>, n: nat, m: nat)
    requires LargestFamily(all, n) && LargestFamily(all, m)
    ensures n == m
  {
  }

  method RouterProblems(props: RouterProps, own: map<string, Variant>, name: string) returns (problems: set<Trouble>)
    ensures problems == {} <==> FitFor(props, own)
  {
    problems := {};
    var needed := MaxLoadedModels(own);
    forall n: nat | LargestFamily(ResourceSets(own), n)
      ensures n == needed
    {
      LargestIsUnique(ResourceSets(own), n, needed);
    }
    if 0 < props.maxInstances < needed {
      problems := problems + {TooFewInstances(name, needed)};
    }
    if props.autoload {
      problems := problems + {LoadsAutomatically(name)};
    }
  }

  function StateProblems(own: map<string, Variant>, name: string, id: string, state: string): (problems: set<Trouble>)
    ensures problems == {} <==> UnderstoodAt(own, id, state)
  {
    if state == "unloaded" then {}
    else
      (if state !in KNOWN_STATES then {UnknownState(name, id)} else {})
      + (if state == "sleeping" then {Asleep(name, id)} else {})
      + (if id !in own then {NotInPreset(name, id)} else {})
  }

  /** Every two of a server's adopted models are checked once. */
  method ServerConflicts(loaded: map<string, Record>) returns (problems: set<Trouble>)
    ensures problems == {} <==>
              forall a, b | a in loaded && b in loaded && a != b :: !ClaimsConflict(loaded[a].variant, loaded[b].variant)
  {
    problems := {};
    var xs := Listed(loaded.Keys);
    assert forall i | 0 <= i < |xs| :: xs[i] in Elements(xs);
    for i := 0 to |xs|
      invariant problems == {} <==> forall j, k | 0 <= j < i && j < k < |xs| :: PairApart(loaded, xs[j], xs[k])
    {
      ghost var before := problems;
      for k := i + 1 to |xs|
        invariant problems == {} <==> before == {} && forall m | i < m < k :: PairApart(loaded, xs[i], xs[m])
      {
        if ClaimsConflict(loaded[xs[i]].variant, loaded[xs[k]].variant) {
          problems := problems + {ConflictOnServer(xs[i], xs[k])};
        }
      }
    }
    PairsCoverAll(loaded, xs);
  }

  predicate PairApart(loaded: map<string, Record>, a: string, b: string) {
    a in loaded && b in loaded && !ClaimsConflict(loaded[a].variant, loaded[b].variant)
  }

  lemma PairsCoverAll(loaded: map<string, Record>, xs: seq<string>)
    requires NoRepeats(xs) && Elements(xs) == loaded.Keys
    ensures (forall j, k | 0 <= j < k < |xs| :: PairApart(loaded, xs[j], xs[k])) <==>
            (forall a, b | a in loaded && b in loaded && a != b :: !ClaimsConflict(loaded[a].variant, loaded[b].variant))
  {
    if forall j, k | 0 <= j < k < |xs| :: PairApart(loaded, xs[j], xs[k]) {
      forall a, b | a in loaded && b in loaded && a != b
        ensures !ClaimsConflict(loaded[a].variant, loaded[b].variant)
      {
        assert a in Elements(xs) && b in Elements(xs);
        var i :| 0 <= i < |xs| && xs[i] == a;
        var j :| 0 <= j < |xs| && xs[j] == b;
        ConflictSymmetric(loaded[a].variant, loaded[b].variant);
        assert PairApart(loaded, xs[if i < j then i else j], xs[if i < j then j else i]);
      }
    }
    if forall a, b | a in loaded && b in loaded && a != b :: !ClaimsConflict(loaded[a].variant, loaded[b].variant) {
      forall j, k | 0 <= j < k < |xs|
        ensures PairApart(loaded, xs[j], xs[k])
      {
        assert xs[j] in Elements(xs) && xs[k] in Elements(xs);
      }
    }
  }

  /** The record of an adopted model: unused by any request, as if just used, and with nothing known of it. */
  ghost predicate JustAdopted(rec: Record, v: Variant, now: real, ready: bool) {
    && rec.variant == v && rec.lastActivity == now && rec.ready == ready
    && rec.active == 0 && rec.queued == 0 && rec.decode.None? && rec.error.None? && !rec.leaving
    && rec.loader.None? && rec.unloader.None? && rec.loads == 0 && !rec.unloaded
  }

  /** What one server's states say: a record for each of its models that is not unloaded. */
  ghost predicate AdoptedFrom(own: map<string, Variant>, states: map<string, string>, ids: set<string>, now: real,
                              loaded: map<string, Record>)
  {
    && (forall id :: id in loaded <==> id in ids && id in states && id in own && states[id] != "unloaded")
    && (forall id | id in loaded :: id in own && id in states && JustAdopted(loaded[id], own[id], now, states[id] != "loading"))
  }

  lemma AdoptedNext(own: map<string, Variant>, states: map<string, string>, ids: set<string>, now: real,
                    loaded: map<string, Record>, id: string)
    requires AdoptedFrom(own, states, ids, now, loaded) && id in states && id !in ids
    ensures states[id] != "unloaded" && id in own ==>
              AdoptedFrom(own, states, ids + {id}, now, loaded[id := Fresh(own[id], now, states[id] != "loading")])
    ensures !(states[id] != "unloaded" && id in own) ==> AdoptedFrom(own, states, ids + {id}, now, loaded)
  {
  }

  predicate UnderstoodIn(own: map<string, Variant>, states: map<string, string>, ids: set<string>) {
    forall id | id in ids :: id in states && UnderstoodAt(own, id, states[id])
  }

  method AdoptModels(own: map<string, Variant>, states: map<string, string>, now: real, name: string)
    returns (loaded: map<string, Record>, problems: set<Trouble>)
    ensures AdoptedFrom(own, states, states.Keys, now, loaded)
    ensures problems == {} <==> UnderstoodIn(own, states, states.Keys)
  {
    loaded := map[];
    problems := {};
    var left := states.Keys;
    ghost var seen := {};
    while left != {}
      invariant left <= states.Keys && seen + left == states.Keys && seen !! left
      invariant AdoptedFrom(own, states, seen, now, loaded)
      invariant problems == {} <==> UnderstoodIn(own, states, seen)
      decreases |left|
    {
      var id :| id in left;
      problems := problems + StateProblems(own, name, id, states[id]);
      AdoptedNext(own, states, seen, now, loaded, id);
      if states[id] != "unloaded" && id in own {
        loaded := loaded[id := Fresh(own[id], now, states[id] != "loading")];
      }
      left, seen := left - {id}, seen + {id};
    }
    assert seen == states.Keys;
  }

  /** `reconcile`: a server's models are adopted, and what makes scheduling unsafe is noted. */
  method Reconcile(own: map<string, Variant>, states: map<string, string>, now: real, name: string)
    returns (loaded: map<string, Record>, problems: set<Trouble>)
    ensures AdoptedFrom(own, states, states.Keys, now, loaded)
    ensures problems == {} <==> Understood(own, states) && ApartIn(own, AdoptedIds(own, states))
  {
    loaded, problems := AdoptModels(own, states, now, name);
    var conflicts := ServerConflicts(loaded);
    problems := problems + conflicts;
    assert loaded.Keys == AdoptedIds(own, states);
  }

  /** `cross_backend_conflicts`. */
  predicate CrossConflict(loaded: map<string, Record>, a: string, b: string)
    requires a in loaded && b in loaded
  {
    loaded[a].variant.backend != loaded[b].variant.backend && ClaimsConflict(loaded[a].variant, loaded[b].variant)
  }

  function CrossConflicts(loaded: map<string, Record>): set<Trouble> {
    set a, b | a in loaded && b in loaded && CrossConflict(loaded, a, b) :: ConflictAcross(a, b)
  }

  ghost predicate FromCatalogue(catalogue: map<string, Variant>, loaded: map<string, Record>) {
    loaded.Keys <= catalogue.Keys && forall id | id in loaded :: loaded[id].variant == catalogue[id]
  }

  /** The adopted models of one server do not conflict. */
  ghost predicate OwnApart(catalogue: map<string, Variant>, loaded: map<string, Record>, key: string) {
    ApartIn(Own(catalogue, key), loaded.Keys * Own(catalogue, key).Keys)
  }

  /** The per-server checks and the cross-server check together cover every pair. */
  lemma ChecksCoverAllPairs(catalogue: map<string, Variant>, loaded: map<string, Record>, keys: set<string>)
    requires FromCatalogue(catalogue, loaded) && forall id | id in loaded :: catalogue[id].backend in keys
    ensures ApartIn(catalogue, loaded.Keys) <==>
              CrossConflicts(loaded) == {} && forall key | key in keys :: OwnApart(catalogue, loaded, key)
  {
    if CrossConflicts(loaded) == {} && forall key | key in keys :: OwnApart(catalogue, loaded, key) {
      forall a, b | a in loaded && b in loaded && a != b
        ensures !ClaimsConflict(catalogue[a], catalogue[b])
      {
        var key := catalogue[a].backend;
        assert OwnApart(catalogue, loaded, key);
        if catalogue[b].backend == key {
          assert a in Own(catalogue, key) && b in Own(catalogue, key);
        } else {
          assert ConflictAcross(a, b) !in CrossConflicts(loaded);
        }
      }
    }
  }

  // ----- The survey

  /** What has been adopted from the servers read so far. */
  ghost predicate Adopts(adapters: map<string, Reading>, catalogue: map<string, Variant>, keys: set<string>, now: real,
                         loaded: map<string, Record>)
  {
    && FromCatalogue(catalogue, loaded)
    && (forall id :: id in loaded <==> id in Reported(adapters, catalogue) && catalogue[id].backend in keys)
    && (forall id | id in loaded :: AdoptedAs(adapters, catalogue[id], now, loaded[id]))
  }

  /** The record of an adopted model: as if just used, and not ready while it is loading. */
  ghost predicate AdoptedAs(adapters: map<string, Reading>, v: Variant, now: real, rec: Record) {
    Reports(adapters, v.backend, v.id) && JustAdopted(rec, v, now, adapters[v.backend].states[v.id] != "loading")
  }

  ghost predicate ServerFine(adapters: map<string, Reading>, catalogue: map<string, Variant>, key: string) {
    SoundServer(adapters, catalogue, key)
    && ApartIn(Own(catalogue, key), AdoptedIds(Own(catalogue, key), adapters[key].states))
  }

  lemma AdoptMore(adapters: map<string, Reading>, catalogue: map<string, Variant>, keys: set<string>, now: real,
                  loaded: map<string, Record>, key: string, found: map<string, Record>)
    requires forall id | id in catalogue :: catalogue[id].id == id
    requires Adopts(adapters, catalogue, keys, now, loaded) && key !in keys && key in adapters && adapters[key].Answered?
    requires AdoptedFrom(Own(catalogue, key), adapters[key].states, adapters[key].states.Keys, now, found)
    ensures Adopts(adapters, catalogue, keys + {key}, now, loaded + found)
  {
    var more := loaded + found;
    forall id
      ensures id in more <==> id in Reported(adapters, catalogue) && catalogue[id].backend in keys + {key}
    {
    }
    forall id | id in more
      ensures more[id].variant == catalogue[id] && AdoptedAs(adapters, catalogue[id], now, more[id])
    {
      if id in found {
        assert JustAdopted(found[id], Own(catalogue, key)[id], now, adapters[key].states[id] != "loading");
      }
    }
  }

  lemma AdoptNone(adapters: map<string, Reading>, catalogue: map<string, Variant>, keys: set<string>, now: real,
                  loaded: map<string, Record>, key: string)
    requires Adopts(adapters, catalogue, keys, now, loaded) && key in adapters && adapters[key].Unreachable?
    ensures Adopts(adapters, catalogue, keys + {key}, now, loaded)
  {
    assert forall id :: !Reports(adapters, key, id);
  }

  ghost function FineServers(adapters: map<string, Reading>, catalogue: map<string, Variant>): set<string> {
    set key | key in adapters && ServerFine(adapters, catalogue, key)
  }

  /** One round of the loop over the servers. */
  method InspectServer(adapters: map<string, Reading>, catalogue: map<string, Variant>, key: string, now: real,
                       ghost keys: set<string>, loaded: map<string, Record>)
    returns (loaded': map<string, Record>, problems: set<Trouble>)
    requires forall id | id in catalogue :: catalogue[id].id == id
    requires key in adapters && key !in keys && Adopts(adapters, catalogue, keys, now, loaded)
    ensures Adopts(adapters, catalogue, keys + {key}, now, loaded')
    ensures problems == {} <==> key in FineServers(adapters, catalogue)
  {
    if adapters[key].Unreachable? {
      AdoptNone(adapters, catalogue, keys, now, loaded, key);
      return loaded, {Unavailable(key)};
    }
    var own := Own(catalogue, key);
    var found, troubles := Reconcile(own, adapters[key].states, now, key);
    AdoptMore(adapters, catalogue, keys, now, loaded, key, found);
    var unfit := RouterProblems(adapters[key].props, own, key);
    return loaded + found, unfit + troubles;
  }

  /**
   `survey`. It reports no problem exactly when every server is reachable and fit for its own
   models, every reported state is understood, and the models held on all servers together
   are free of conflict.
   */
  method Inspect(adapters: map<string, Reading>, catalogue: map<string, Variant>, now: real) returns (found: Inspection)
    requires forall id | id in catalogue :: catalogue[id].id == id
    ensures found.problems == {} <==> Sound(adapters, catalogue)
    ensures Adopts(adapters, catalogue, adapters.Keys, now, found.loaded)
    ensures found.unreachable == set key | key in adapters && adapters[key].Unreachable?
  {
    var loaded: map<string, Record> := map[];
    var problems: set<Trouble> := {};
    var unreachable: set<string> := {};
    var left := adapters.Keys;
    ghost var fine := FineServers(adapters, catalogue);
    while left != {}
      invariant left <= adapters.Keys
      invariant Adopts(adapters, catalogue, adapters.Keys - left, now, loaded)
      invariant unreachable == set key | key in adapters.Keys - left && adapters[key].Unreachable?
      invariant problems == {} <==> adapters.Keys - left <= fine
      decreases |left|
    {
      var key :| key in left;
      ghost var read := adapters.Keys - left;
      if adapters[key].Unreachable? {
        unreachable := unreachable + {key};
      }
      var troubles;
      loaded, troubles := InspectServer(adapters, catalogue, key, now, read, loaded);
      problems := problems + troubles;
      left := left - {key};
      assert adapters.Keys - left == read + {key};
    }
    SoundIff(adapters, catalogue, now, loaded);
    found := Inspection(loaded, problems + CrossConflicts(loaded), unreachable);
  }

  lemma SoundIff(adapters: map<string, Reading>, catalogue: map<string, Variant>, now: real, loaded: map<string, Record>)
    requires Adopts(adapters, catalogue, adapters.Keys, now, loaded)
    ensures Sound(adapters, catalogue) <==>
              CrossConflicts(loaded) == {} && adapters.Keys <= FineServers(adapters, catalogue)
  {
    assert loaded.Keys == Reported(adapters, catalogue);
    ChecksCoverAllPairs(catalogue, loaded, adapters.Keys);
    forall key | key in adapters && adapters[key].Answered?
      ensures OwnApart(catalogue, loaded, key) <==>
                ApartIn(Own(catalogue, key), AdoptedIds(Own(catalogue, key), adapters[key].states))
    {
      assert loaded.Keys * Own(catalogue, key).Keys == AdoptedIds(Own(catalogue, key), adapters[key].states);
    }
  }

  // ----- Where runs start

  /** The scheduler just built from a survey: it has still to track each adopted model. */
  ghost predicate StartsFrom(cfg: Config, found: Inspection, s: State) {
    && Init(cfg, s)
    && s.loaded.Keys == found.loaded.Keys
    && forall id | id in s.loaded :: s.recs[s.loaded[id]] == found.loaded[id]
  }

  /** A server holds only what it reports as not unloaded. */
  ghost predicate ReadRight(adapters: map<string, Reading>, held: set<string>) {
    forall id | id in held :: exists key :: Reports(adapters, key, id)
  }

  /** A survey without problems puts the scheduler where its guarantees begin. */
  lemma SoundSurveyStartsSafe(cfg: Config, adapters: map<string, Reading>, found: Inspection, s: State)
    requires Valid(cfg) && Sound(adapters, cfg.catalogue)
    requires Adopts(adapters, cfg.catalogue, adapters.Keys, s.now, found.loaded)
    requires StartsFrom(cfg, found, s) && ReadRight(adapters, s.may) && s.held <= s.may
    ensures InitSafe(cfg, s)
  {
    forall id | id in s.may
      ensures id in s.loaded
    {
      var key :| Reports(adapters, key, id);
      assert SoundServer(adapters, cfg.catalogue, key);
      assert UnderstoodAt(Own(cfg.catalogue, key), id, adapters[key].states[id]);
      assert id in Reported(adapters, cfg.catalogue);
    }
    forall a, b | a in s.loaded && b in s.loaded && a != b
      ensures !ClaimsConflict(s.recs[s.loaded[a]].variant, s.recs[s.loaded[b]].variant)
    {
      assert s.recs[s.loaded[a]] == found.loaded[a] && s.recs[s.loaded[b]] == found.loaded[b];
    }
  }

  // ----- Re-inspection

  /** An inspection as a re-inspection merges it, in the order in which it adopted the models. */
  function AsSurvey(found: Inspection, order: seq<string>): (survey: Survey)
    requires Elements(order) == found.loaded.Keys
    ensures |survey.found| == |order|
    ensures forall i | 0 <= i < |order| :: order[i] in found.loaded
                                           && survey.found[i] == Adopted(order[i], found.loaded[order[i]].ready)
  {
    assert forall i | 0 <= i < |order| :: order[i] in Elements(order);
    Survey(seq(|order|, i requires 0 <= i < |order| => Adopted(order[i], found.loaded[order[i]].ready)),
           found.unreachable, found.problems != {})
  }

  /** Each server that answers reports exactly what it holds of its own models. */
  ghost predicate ReadsExactly(adapters: map<string, Reading>, catalogue: map<string, Variant>, held: set<string>) {
    forall id | id in catalogue && catalogue[id].backend in adapters && adapters[catalogue[id].backend].Answered? ::
      Reports(adapters, catalogue[id].backend, id) <==> id in held
  }

  lemma AsSurveyFinds(found: Inspection, order: seq<string>)
    requires NoRepeats(order) && Elements(order) == found.loaded.Keys
    ensures FoundIds(AsSurvey(found, order).found) == found.loaded.Keys && ApartIds(AsSurvey(found, order).found)
  {
    var survey := AsSurvey(found, order);
    forall id | id in found.loaded
      ensures id in FoundIds(survey.found)
    {
      assert id in Elements(order);
      var i :| 0 <= i < |order| && order[i] == id;
      assert survey.found[i] in survey.found;
    }
  }

  /** What a survey adopts can be merged, and is exact if the servers' answers were. */
  lemma ExactAnswersMakeExactSurveys(cfg: Config, s: State, adapters: map<string, Reading>, now: real,
                                     found: Inspection, order: seq<string>)
    requires Shape(cfg, s) && Adopts(adapters, cfg.catalogue, adapters.Keys, now, found.loaded)
    requires found.unreachable == set key | key in adapters && adapters[key].Unreachable?
    requires NoRepeats(order) && Elements(order) == found.loaded.Keys
    requires forall id | id in cfg.catalogue :: cfg.catalogue[id].backend in adapters
    ensures FoundIds(AsSurvey(found, order).found) <= cfg.catalogue.Keys && ApartIds(AsSurvey(found, order).found)
    ensures AsSurvey(found, order).problems <==> found.problems != {}
    ensures AsSurvey(found, order).unreachable == found.unreachable
    ensures ReadsExactly(adapters, cfg.catalogue, s.held) && Unbroken(s, AsSurvey(found, order)) ==>
              ExactSurvey(cfg, s, AsSurvey(found, order))
  {
    AsSurveyFinds(found, order);
  }

  lemma {:induction false} LargestExists(all: set<set<string>>, k: nat) returns (n: nat)
    requires forall m: nat | HasFamily(all, m) :: m <= k
    ensures LargestFamily(all, n)
  {
    if HasFamily(all, k) {
      n := k;
    } else {
      assert IsFamily(all, {}, 0);
      n := LargestExists(all, k - 1);
    }
  }

  lemma FamiliesAreSmall(all: set<set<string>>, m: nat)
    requires HasFamily(all, m)
    ensures m <= |all|
  {
    var family :| IsFamily(all, family, m);
    CardinalityBound(family, all);
  }

  /**
   From a survey without problems, and while the hypotheses hold, no server with at most one
   claimless model ever has more models, with the one it is loading, than its settings allow.
   */
  lemma ServersNeverOverfull(cfg: Config, adapters: map<string, Reading>, found: Inspection,
                             ss: seq<State>, acts: seq<Action>, i: nat, key: string)
    requires Sound(adapters, cfg.catalogue) && key in adapters && |Claimless(Own(cfg.catalogue, key))| <= 1
    requires Run(cfg, ss, acts) && i < |ss| && forall j | 0 <= j < |acts| :: HonestStep(cfg, ss[j], acts[j])
    requires Adopts(adapters, cfg.catalogue, adapters.Keys, ss[0].now, found.loaded)
    requires StartsFrom(cfg, found, ss[0]) && ReadRight(adapters, ss[0].may) && ss[0].held <= ss[0].may
    ensures SoundServer(adapters, cfg.catalogue, key)
    ensures var max := adapters[key].props.maxInstances; max > 0 ==> |Occupying(cfg, ss[i], key)| <= max
  {
    assert SoundServer(adapters, cfg.catalogue, key);
    SoundSurveyStartsSafe(cfg, adapters, found, ss[0]);
    var all := ResourceSets(Own(cfg.catalogue, key));
    forall m: nat | HasFamily(all, m)
      ensures m <= |all|
    {
      FamiliesAreSmall(all, m);
    }
    var largest := LargestExists(all, |all|);
    NeverPicksAVictim(cfg, ss, acts, i, key, largest, adapters[key].props.maxInstances);
  }
}
