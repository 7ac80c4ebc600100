/** The scheduler and the capacity check together: no server ever has to choose a victim. */
module Composition {
  import opened Wrappers
  import opened Claims
  import opened Machine
  import opened TaskSteps
  import opened Safety
  import opened Runs
  import opened Capacity

  /** The catalogue entries that one server loads. */
  function Own(catalogue: map<string, Variant>, key: string): map<string, Variant> {
    map id | id in catalogue && catalogue[id].backend == key :: catalogue[id]
  }

  /** The load of this model is under way. */
  predicate BeingLoaded(s: State, id: string) {
    exists k | 0 <= k < |s.tasks| :: Brought(s, k, id)
  }

  predicate Brought(s: State, k: Kid, id: string) {
    k < |s.tasks| && s.tasks[k].stage.Loading? && s.tasks[k].model < |s.recs| && Id(s, s.tasks[k].model) == id
  }

  /** The models one server holds, and those it has been asked to load. */
  ghost function Occupying(cfg: Config, s: State, key: string): set<string> {
    set id | id in Own(cfg.catalogue, key) && (id in s.held || BeingLoaded(s, id))
  }

  lemma BroughtIsTracked(cfg: Config, s: State, k: Kid, id: string)
    requires SafeInv(cfg, s) && Brought(s, k, id)
    ensures id in s.loaded && s.loaded[id] == s.tasks[k].model
    ensures s.tasks[k].model < |s.recs| && !s.recs[s.tasks[k].model].ready
    ensures s.recs[s.tasks[k].model].loader == Some(k)
  {
    TaskFacts(cfg, s, k);
    assert TaskSafe(s.recs, s.loaded, s.tasks[k]);
  }

  /** A model that is to replace another takes up nothing yet, and its victim is not being loaded. */
  lemma YieldingIsOneSided(cfg: Config, s: State, v: Rid, m: Rid, id: string)
    requires SafeInv(cfg, s) && Yielding(s.recs, s.tasks, v, m) && m < |s.recs|
    requires id in s.loaded && s.loaded[id] == m
    ensures id !in s.held && !BeingLoaded(s, id)
  {
    var k := s.recs[v].unloader.value;
    TaskFacts(cfg, s, k);
    assert NotAsked(s, k);
    if i :| 0 <= i < |s.tasks| && Brought(s, i, id) {
      BroughtIsTracked(cfg, s, i, id);
    }
  }

  lemma OccupyingApart(cfg: Config, s: State, a: string, b: string)
    requires SafeInv(cfg, s) && a in s.loaded && b in s.loaded && a != b
    requires a in s.held || BeingLoaded(s, a)
    requires b in s.held || BeingLoaded(s, b)
    ensures !ClaimsConflict(s.recs[s.loaded[a]].variant, s.recs[s.loaded[b]].variant)
  {
    assert PairSafe(s.recs, s.loaded, s.tasks, a, b);
    if Yielding(s.recs, s.tasks, s.loaded[a], s.loaded[b]) {
      YieldingIsOneSided(cfg, s, s.loaded[a], s.loaded[b], b);
    }
    if Yielding(s.recs, s.tasks, s.loaded[b], s.loaded[a]) {
      YieldingIsOneSided(cfg, s, s.loaded[b], s.loaded[a], a);
    }
  }

  lemma OccupyingIsTracked(cfg: Config, s: State, id: string)
    requires SafeInv(cfg, s) && (id in s.held || BeingLoaded(s, id))
    ensures id in s.loaded && id in cfg.catalogue && cfg.catalogue[id] == s.recs[s.loaded[id]].variant
  {
    if k :| 0 <= k < |s.tasks| && Brought(s, k, id) {
      BroughtIsTracked(cfg, s, k, id);
    }
    assert InCatalogue(cfg, s.recs[s.loaded[id]].variant);
  }

  /** What one server holds or is loading could all be loaded together. */
  lemma OccupyingIsGroup(cfg: Config, ss: seq<State>, acts: seq<Action>, i: nat, key: string)
    requires HonestRun(cfg, ss, acts) && i < |ss|
    ensures Group(Own(cfg.catalogue, key), Occupying(cfg, ss[i], key))
  {
    var s := ss[i];
    RunHasSafe(cfg, ss, acts, i);
    var own, ids := Own(cfg.catalogue, key), Occupying(cfg, s, key);
    forall a, b | a in ids && b in ids && a != b
      ensures !ClaimsConflict(own[a], own[b])
    {
      OccupyingIsTracked(cfg, s, a);
      OccupyingIsTracked(cfg, s, b);
      OccupyingApart(cfg, s, a, b);
    }
  }

  /** The server's limit on loaded models, 0 for none, allows as many as `largest`. */
  predicate Allows(maxInstances: int, largest: nat) {
    !(0 < maxInstances < largest)
  }

  /**
   A server that passed the capacity check for its own models never holds, with the one it is
   loading, more models than the check computed; so it never exceeds its limit.
   */
  lemma NeverPicksAVictim(cfg: Config, ss: seq<State>, acts: seq<Action>, i: nat, key: string,
                          largest: nat, maxInstances: int)
    requires HonestRun(cfg, ss, acts) && i < |ss|
    requires LargestFamily(ResourceSets(Own(cfg.catalogue, key)), largest)
    requires |Claimless(Own(cfg.catalogue, key))| <= 1
    requires Allows(maxInstances, largest)
    ensures |Occupying(cfg, ss[i], key)| <= largest
    ensures maxInstances > 0 ==> |Occupying(cfg, ss[i], key)| <= maxInstances
  {
    OccupyingIsGroup(cfg, ss, acts, i, key);
    LargestGroupIs(Own(cfg.catalogue, key), largest);
  }

  // ----- The check is too weak for several models without claims

  lemma {:induction false} Enumerate(ids: set<string>) returns (xs: seq<string>)
    ensures NoRepeats(xs) && Elements(xs) == ids
  {
    xs := [];
    if ids != {} {
      var id :| id in ids;
      var rest := Enumerate(ids - {id});
      ConsNoRepeats(id, rest);
      xs := [id] + rest;
    }
  }

  function PositionOf(xs: seq<string>, id: string): (i: nat)
    requires id in Elements(xs)
    ensures i < |xs| && xs[i] == id
  {
    if xs[0] == id then 0
    else
      assert xs == [xs[0]] + xs[1..];
      1 + PositionOf(xs[1..], id)
  }

  /** A broker that starts when these models are loaded and nothing else is going on. */
  ghost function Resting(cfg: Config, xs: seq<string>): State
    requires forall id | id in Elements(xs) :: id in cfg.catalogue
  {
    var recs := seq(|xs|, i requires 0 <= i < |xs| =>
      assert xs[i] in Elements(xs);
      Fresh(cfg.catalogue[xs[i]], 0.0, true));
    var ids := Elements(xs);
    State(recs, map id | id in ids :: PositionOf(xs, id), true, [], map[], [], None, From(0, |xs|), 0.0, ids, ids)
  }

  lemma RestingIsSafe(cfg: Config, xs: seq<string>, key: string)
    requires Valid(cfg) && NoRepeats(xs) && Group(Own(cfg.catalogue, key), Elements(xs))
    ensures HonestRun(cfg, [Resting(cfg, xs)], []) && Occupying(cfg, Resting(cfg, xs), key) == Elements(xs)
  {
    var s := Resting(cfg, xs);
    forall r | 0 <= r < |s.recs|
      ensures InCatalogue(cfg, s.recs[r].variant) && s.recs[r].variant.id == xs[r]
              && xs[r] in s.loaded && s.loaded[xs[r]] == r
    {
      assert xs[r] in Elements(xs) && xs[PositionOf(xs, xs[r])] == xs[r];
    }
    assert Own(cfg.catalogue, key).Keys <= cfg.catalogue.Keys;
  }

  /**
   No honest run takes a server beyond the number computed for it exactly when at most one of
   its models is without an exclusive claim.
   */
  lemma CapacityHoldsIff(cfg: Config, key: string, largest: nat)
    requires Valid(cfg) && LargestFamily(ResourceSets(Own(cfg.catalogue, key)), largest)
    ensures (forall ss, acts, i: nat | HonestRun(cfg, ss, acts) && i < |ss| :: |Occupying(cfg, ss[i], key)| <= largest)
            <==> |Claimless(Own(cfg.catalogue, key))| <= 1
  {
    var own := Own(cfg.catalogue, key);
    if |Claimless(own)| <= 1 {
      forall ss, acts, i: nat | HonestRun(cfg, ss, acts) && i < |ss|
        ensures |Occupying(cfg, ss[i], key)| <= largest
      {
        NeverPicksAVictim(cfg, ss, acts, i, key, largest, 0);
      }
    } else {
      var ids := GroupReached(own, largest);
      var xs := Enumerate(ids);
      RestingIsSafe(cfg, xs, key);
      assert |Occupying(cfg, [Resting(cfg, xs)][0], key)| > largest;
    }
  }
}
