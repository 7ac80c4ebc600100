/** How many variants can be loaded together (`max_loaded_models`, src/model_broker/catalogue.py). */
module Capacity {
  import opened Wrappers
  import opened Claims

  // ----- The search

  /** `itertools.combinations`, in its order. */
  function Combinations<T>(xs: seq<T>, k: nat): seq<seq<T>> {
    if k == 0 then [[]]
    else if xs == [] then []
    else Prefixed(xs[0], Combinations(xs[1..], k - 1)) + Combinations(xs[1..], k)
  }

  function Prefixed<T>(x: T, cs: seq<seq<T>>): (r: seq<seq<T>>)
    ensures |r| == |cs| && forall i | 0 <= i < |cs| :: r[i] == [x] + cs[i]
  {
    if cs == [] then [] else [[x] + cs[0]] + Prefixed(x, cs[1..])
  }

  function SumOfSizes(c: seq<set<string>>): nat {
    if c == [] then 0 else |c[0]| + SumOfSizes(c[1..])
  }

  function UnionOf(c: seq<set<string>>): set<string> {
    if c == [] then {} else c[0] + UnionOf(c[1..])
  }

  predicate Apart(c: seq<set<string>>) {
    forall i, j | 0 <= i < j < |c| :: c[i] !! c[j]
  }

  lemma InUnion(c: seq<set<string>>, x: string)
    ensures x in UnionOf(c) <==> exists i :: 0 <= i < |c| && x in c[i]
  {
    if c != [] {
      InUnion(c[1..], x);
      if x in UnionOf(c[1..]) {
        var i :| 0 <= i < |c[1..]| && x in c[1..][i];
        assert x in c[i + 1];
      }
      if i :| 0 < i < |c| && x in c[i] {
        assert x in c[1..][i - 1];
      }
    }
  }

  lemma SizeOfUnion(a: set<string>, b: set<string>)
    ensures |a + b| == |a| + |b| - |a * b|
  {
  }

  lemma ApartFromUnion(a: set<string>, c: seq<set<string>>)
    ensures a * UnionOf(c) == {} <==> forall i | 0 <= i < |c| :: a !! c[i]
  {
    forall x | x in a * UnionOf(c)
      ensures exists i :: 0 <= i < |c| && !(a !! c[i])
    {
      InUnion(c, x);
    }
    forall i, x | 0 <= i < |c| && x in a && x in c[i]
      ensures x in a * UnionOf(c)
    {
      InUnion(c, x);
    }
  }

  /** The sizes add up to the size of the union exactly when no two sets share a resource. */
  lemma {:induction false} SumIsUnionIffApart(c: seq<set<string>>)
    ensures |UnionOf(c)| <= SumOfSizes(c)
    ensures SumOfSizes(c) == |UnionOf(c)| <==> Apart(c)
  {
    if c != [] {
      var rest := c[1..];
      SumIsUnionIffApart(rest);
      SizeOfUnion(c[0], UnionOf(rest));
      ApartFromUnion(c[0], rest);
      if Apart(rest) && forall i | 0 <= i < |rest| :: c[0] !! rest[i] {
        forall i, j | 0 <= i < j < |c|
          ensures c[i] !! c[j]
        {
          if i > 0 { assert c[i] == rest[i - 1]; }
          assert c[j] == rest[j - 1];
        }
      }
      if Apart(c) {
        forall i, j | 0 <= i < j < |rest|
          ensures rest[i] !! rest[j]
        {
          assert rest[i] == c[i + 1] && rest[j] == c[j + 1];
        }
        forall i | 0 <= i < |rest|
          ensures c[0] !! rest[i]
        {
          assert rest[i] == c[i + 1];
        }
      }
    }
  }

  /** Some combination of this size has sizes that add up to its union's. */
  predicate Fits(sets: seq<set<string>>, size: nat) {
    exists i :: 0 <= i < |Combinations(sets, size)| && Additive(Combinations(sets, size)[i])
  }

  predicate Additive(c: seq<set<string>>) {
    SumOfSizes(c) == |UnionOf(c)|
  }

  // ----- Families of sets

  ghost predicate Disjoint(family: set<set<string>>) {
    forall a, b | a in family && b in family && a != b :: a !! b
  }

  /** A family of `n` pairwise disjoint sets drawn from `all`. */
  ghost predicate IsFamily(all: set<set<string>>, family: set<set<string>>, n: nat) {
    family <= all && |family| == n && Disjoint(family)
  }

  ghost predicate HasFamily(all: set<set<string>>, n: nat) {
    exists family :: IsFamily(all, family, n)
  }

  function Elements<T>(xs: seq<T>): set<T> {
    set x | x in xs
  }

  predicate NoRepeats<T(==)>(xs: seq<T>) {
    forall i, j | 0 <= i < j < |xs| :: xs[i] != xs[j]
  }

  lemma TailNoRepeats<T>(xs: seq<T>)
    requires xs != [] && NoRepeats(xs)
    ensures NoRepeats(xs[1..]) && xs[0] !in Elements(xs[1..]) && Elements(xs) == {xs[0]} + Elements(xs[1..])
  {
    var rest := xs[1..];
    forall i | 0 <= i < |rest|
      ensures rest[i] != xs[0]
    {
      assert rest[i] == xs[i + 1];
    }
    forall i, j | 0 <= i < j < |rest|
      ensures rest[i] != rest[j]
    {
      assert rest[i] == xs[i + 1] && rest[j] == xs[j + 1];
    }
  }

  lemma NoRepeatsSize<T>(xs: seq<T>)
    requires NoRepeats(xs)
    ensures |Elements(xs)| == |xs|
  {
    if xs != [] {
      TailNoRepeats(xs);
      NoRepeatsSize(xs[1..]);
    }
  }

  lemma ConsNoRepeats<T>(x: T, xs: seq<T>)
    requires NoRepeats(xs) && x !in Elements(xs)
    ensures NoRepeats([x] + xs) && Elements([x] + xs) == {x} + Elements(xs)
  {
    forall i, j | 0 <= i < j < |[x] + xs|
      ensures ([x] + xs)[i] != ([x] + xs)[j]
    {
      assert xs[j - 1] in Elements(xs);
    }
  }

  /** `c` lists `k` of the elements, none twice. */
  predicate Picks<T(==)>(xs: seq<T>, c: seq<T>, k: nat) {
    |c| == k && NoRepeats(c) && Elements(c) <= Elements(xs)
  }

  lemma PickFirst<T>(xs: seq<T>, d: seq<T>, k: nat)
    requires xs != [] && NoRepeats(xs) && k > 0 && Picks(xs[1..], d, k - 1)
    ensures Picks(xs, [xs[0]] + d, k)
  {
    TailNoRepeats(xs);
    ConsNoRepeats(xs[0], d);
  }

  lemma PickLater<T>(xs: seq<T>, c: seq<T>, k: nat)
    requires xs != [] && NoRepeats(xs) && Picks(xs[1..], c, k)
    ensures Picks(xs, c, k)
  {
    TailNoRepeats(xs);
  }

  lemma {:induction false} CombinationIsSubset<T>(xs: seq<T>, k: nat, c: seq<T>)
    requires NoRepeats(xs) && c in Combinations(xs, k)
    ensures Picks(xs, c, k)
  {
    if k == 0 {
      assert c == [];
    } else if xs != [] {
      TailNoRepeats(xs);
      var d := CombinationCases(xs, k, c);
      if d.Some? {
        CombinationIsSubset(xs[1..], k - 1, d.value);
        PickFirst(xs, d.value, k);
      } else {
        CombinationIsSubset(xs[1..], k, c);
        PickLater(xs, c, k);
      }
    }
  }

  /** A combination starts with the first element and goes on as one of the rest, or is one of the rest. */
  lemma CombinationCases<T>(xs: seq<T>, k: nat, c: seq<T>) returns (d: Option<seq<T>>)
    requires xs != [] && k > 0 && c in Combinations(xs, k)
    ensures d.Some? ==> d.value in Combinations(xs[1..], k - 1) && c == [xs[0]] + d.value
    ensures d.None? ==> c in Combinations(xs[1..], k)
  {
    var firsts := Prefixed(xs[0], Combinations(xs[1..], k - 1));
    if c in firsts {
      var i :| 0 <= i < |firsts| && firsts[i] == c;
      d := Some(Combinations(xs[1..], k - 1)[i]);
    } else {
      d := None;
    }
  }

  lemma CombinationsOf<T>(xs: seq<T>, k: nat, c: seq<T>)
    requires xs != [] && k > 0
    ensures c in Combinations(xs[1..], k) ==> c in Combinations(xs, k)
    ensures c in Combinations(xs[1..], k - 1) ==> [xs[0]] + c in Combinations(xs, k)
  {
    var firsts := Prefixed(xs[0], Combinations(xs[1..], k - 1));
    assert Combinations(xs, k) == firsts + Combinations(xs[1..], k);
    if c in Combinations(xs[1..], k - 1) {
      var i :| 0 <= i < |firsts| && Combinations(xs[1..], k - 1)[i] == c;
      assert firsts[i] == [xs[0]] + c;
    }
  }

  lemma WithoutSize<T>(part: set<T>, x: T)
    requires x in part
    ensures |part - {x}| == |part| - 1
  {
  }

  /** Every subset of the right size is among the combinations. */
  lemma {:induction false} SubsetIsCombination<T>(xs: seq<T>, part: set<T>, k: nat) returns (c: seq<T>)
    requires NoRepeats(xs) && part <= Elements(xs) && |part| == k
    ensures c in Combinations(xs, k) && Elements(c) == part
  {
    if k == 0 {
      c := [];
      assert Combinations(xs, 0)[0] == c;
    } else {
      TailNoRepeats(xs);
      if xs[0] in part {
        WithoutSize(part, xs[0]);
        var rest := SubsetIsCombination(xs[1..], part - {xs[0]}, k - 1);
        c := [xs[0]] + rest;
        ElementsOfCons(xs[0], rest);
        CombinationsOf(xs, k, rest);
      } else {
        c := SubsetIsCombination(xs[1..], part, k);
        CombinationsOf(xs, k, c);
      }
    }
  }

  lemma ElementsOfCons<T>(x: T, xs: seq<T>)
    ensures Elements([x] + xs) == {x} + Elements(xs)
  {
  }

  /** The search's test for one size is whether a disjoint family of that size exists. */
  lemma FitsIffFamily(sets: seq<set<string>>, n: nat)
    requires NoRepeats(sets)
    ensures Fits(sets, n) <==> HasFamily(Elements(sets), n)
  {
    if Fits(sets, n) {
      var i :| 0 <= i < |Combinations(sets, n)| && Additive(Combinations(sets, n)[i]);
      var c := Combinations(sets, n)[i];
      CombinationIsSubset(sets, n, c);
      NoRepeatsSize(c);
      SumIsUnionIffApart(c);
      ApartIsDisjoint(c);
      assert IsFamily(Elements(sets), Elements(c), n);
    }
    if HasFamily(Elements(sets), n) {
      var family :| IsFamily(Elements(sets), family, n);
      var c := SubsetIsCombination(sets, family, n);
      CombinationIsSubset(sets, n, c);
      SumIsUnionIffApart(c);
      ApartIsDisjoint(c);
    }
  }

  lemma ApartIsDisjoint(c: seq<set<string>>)
    requires NoRepeats(c)
    ensures Apart(c) <==> Disjoint(Elements(c))
  {
    if Apart(c) {
      forall a, b | a in Elements(c) && b in Elements(c) && a != b
        ensures a !! b
      {
        var i :| 0 <= i < |c| && c[i] == a;
        var j :| 0 <= j < |c| && c[j] == b;
        if i < j { assert c[i] !! c[j]; } else { assert c[j] !! c[i]; }
      }
    }
    if Disjoint(Elements(c)) {
      forall i, j | 0 <= i < j < |c|
        ensures c[i] !! c[j]
      {
        assert c[i] in Elements(c) && c[j] in Elements(c);
      }
    }
  }

  /** Any larger family contains one of each smaller size, so stopping at the first failure is sound. */
  lemma {:induction false} SmallerFamily(all: set<set<string>>, n: nat, m: nat)
    requires HasFamily(all, n) && m <= n
    ensures HasFamily(all, m)
  {
    if m < n {
      var family :| IsFamily(all, family, n);
      var a :| a in family;
      assert IsFamily(all, family - {a}, n - 1);
      SmallerFamily(all, n - 1, m);
    }
  }

  ghost predicate LargestFamily(all: set<set<string>>, n: nat) {
    HasFamily(all, n) && forall m: nat | HasFamily(all, m) :: m <= n
  }

  // ----- Groups of variants

  function ResourceSets(variants: map<string, Variant>): set<set<string>> {
    set id | id in variants :: Exclusive(variants[id])
  }

  /** Variants that can be loaded together. */
  ghost predicate Group(variants: map<string, Variant>, ids: set<string>) {
    ids <= variants.Keys
    && forall a, b | a in ids && b in ids && a != b :: !ClaimsConflict(variants[a], variants[b])
  }

  ghost predicate LargestGroup(variants: map<string, Variant>, n: nat) {
    (exists ids :: Group(variants, ids) && |ids| == n) && forall ids | Group(variants, ids) :: |ids| <= n
  }

  /** Variants that hold nothing exclusively. */
  function Claimless(variants: map<string, Variant>): set<string> {
    set id | id in variants && Exclusive(variants[id]) == {}
  }

  function SetsOf(variants: map<string, Variant>, ids: set<string>): set<set<string>>
    requires ids <= variants.Keys
  {
    set id | id in ids :: Exclusive(variants[id])
  }

  /** Together, variants with claims have as many resource sets as there are of them, all disjoint. */
  lemma {:induction false} GroupIsFamily(variants: map<string, Variant>, ids: set<string>)
    requires Group(variants, ids) && ids !! Claimless(variants)
    ensures IsFamily(ResourceSets(variants), SetsOf(variants, ids), |ids|)
    ensures {} !in SetsOf(variants, ids)
  {
    if ids != {} {
      var id :| id in ids;
      var rest := ids - {id};
      GroupIsFamily(variants, rest);
      var mine := Exclusive(variants[id]);
      forall other | other in rest
        ensures mine !! Exclusive(variants[other]) && mine != Exclusive(variants[other])
      {
        ConflictIffOverlap(variants[id], variants[other]);
      }
      assert SetsOf(variants, ids) == SetsOf(variants, rest) + {mine};
      OneMoreSet(ResourceSets(variants), SetsOf(variants, rest), mine, |rest|);
    }
  }

  lemma OneMoreSet(all: set<set<string>>, family: set<set<string>>, mine: set<string>, n: nat)
    requires IsFamily(all, family, n) && mine in all
    requires mine !in family && forall other | other in family :: mine !! other
    ensures IsFamily(all, family + {mine}, n + 1)
  {
  }

  lemma AddToGroup(variants: map<string, Variant>, ids: set<string>, id: string)
    requires Group(variants, ids) && id in variants && Exclusive(variants[id]) !in SetsOf(variants, ids)
    requires forall other | other in ids :: Exclusive(variants[id]) !! Exclusive(variants[other])
    ensures Group(variants, ids + {id}) && |ids + {id}| == |ids| + 1
    ensures SetsOf(variants, ids + {id}) == SetsOf(variants, ids) + {Exclusive(variants[id])}
  {
    forall other | other in ids
      ensures !ClaimsConflict(variants[id], variants[other]) && !ClaimsConflict(variants[other], variants[id])
    {
      ConflictIffOverlap(variants[id], variants[other]);
      ConflictSymmetric(variants[id], variants[other]);
    }
  }

  lemma ApartFromRest(variants: map<string, Variant>, family: set<set<string>>, mine: set<string>, ids: set<string>)
    requires Disjoint(family) && mine in family && ids <= variants.Keys && SetsOf(variants, ids) == family - {mine}
    ensures forall other | other in ids :: mine !! Exclusive(variants[other])
  {
    forall other | other in ids
      ensures mine !! Exclusive(variants[other])
    {
      assert Exclusive(variants[other]) in SetsOf(variants, ids);
    }
  }

  /** A disjoint family is held by as many variants that can be loaded together. */
  lemma {:induction false} FamilyIsGroup(variants: map<string, Variant>, family: set<set<string>>) returns (ids: set<string>)
    requires family <= ResourceSets(variants) && Disjoint(family) && {} !in family
    ensures Group(variants, ids) && |ids| == |family| && SetsOf(variants, ids) == family
  {
    ids := {};
    if family != {} {
      var mine :| mine in family;
      var id :| id in variants && Exclusive(variants[id]) == mine;
      WithoutSize(family, mine);
      var rest := FamilyIsGroup(variants, family - {mine});
      ApartFromRest(variants, family, mine, rest);
      AddToGroup(variants, rest, id);
      ids := rest + {id};
    }
  }

  /** Variants without claims join any group. */
  lemma ClaimlessJoin(variants: map<string, Variant>, ids: set<string>)
    requires Group(variants, ids)
    ensures Group(variants, ids + Claimless(variants))
  {
    forall a, b | a in ids + Claimless(variants) && b in ids + Claimless(variants) && a != b
      ensures !ClaimsConflict(variants[a], variants[b])
    {
      ConflictIffOverlap(variants[a], variants[b]);
    }
  }

  /** What merging equal resource sets loses: every claimless variant but one. */
  function Surplus(variants: map<string, Variant>): nat {
    if |Claimless(variants)| == 0 then 0 else |Claimless(variants)| - 1
  }

  lemma CardinalityBound<T>(a: set<T>, b: set<T>)
    requires a <= b
    ensures |a| <= |b|
  {
    assert b == a + (b - a);
  }

  lemma SplitSize<T>(a: set<T>, b: set<T>)
    ensures |a| == |a - b| + |a * b|
  {
    assert a == (a - b) + (a * b);
  }

  lemma GroupBound(variants: map<string, Variant>, n: nat, ids: set<string>)
    requires LargestFamily(ResourceSets(variants), n) && Group(variants, ids)
    ensures |ids| <= n + Surplus(variants)
  {
    var free := Claimless(variants);
    var bound := ids - free;
    GroupIsFamily(variants, bound);
    SplitSize(ids, free);
    CardinalityBound(ids * free, free);
    assert HasFamily(ResourceSets(variants), |bound|);
    if free != {} {
      var id :| id in free;
      EmptyJoins(ResourceSets(variants), SetsOf(variants, bound), |bound|);
    }
  }

  lemma EmptyJoins(all: set<set<string>>, family: set<set<string>>, n: nat)
    requires IsFamily(all, family, n) && {} in all && {} !in family
    ensures HasFamily(all, n + 1)
  {
    OneMoreSet(all, family, {}, n);
  }

  lemma LargestHasEmpty(all: set<set<string>>, family: set<set<string>>, n: nat)
    requires LargestFamily(all, n) && IsFamily(all, family, n) && {} in all
    ensures |family - {{}}| == n - 1
  {
    if {} !in family { EmptyJoins(all, family, n); }
  }

  lemma GroupReached(variants: map<string, Variant>, n: nat) returns (ids: set<string>)
    requires LargestFamily(ResourceSets(variants), n)
    ensures Group(variants, ids) && |ids| == n + Surplus(variants)
  {
    var all := ResourceSets(variants);
    var family :| IsFamily(all, family, n);
    var free := Claimless(variants);
    var bound := FamilyIsGroup(variants, family - {{}});
    BoundIsApart(variants, bound);
    ClaimlessJoin(variants, bound);
    ids := bound + free;
    if free == {} {
      NothingEmpty(variants);
      assert family == family - {{}};
    } else {
      var id :| id in free;
      assert {} in all;
      LargestHasEmpty(all, family, n);
    }
  }

  lemma NothingEmpty(variants: map<string, Variant>)
    ensures {} in ResourceSets(variants) <==> Claimless(variants) != {}
  {
    if {} in ResourceSets(variants) {
      var id :| id in variants && Exclusive(variants[id]) == {};
      assert id in Claimless(variants);
    }
    if id :| id in Claimless(variants) {
      assert Exclusive(variants[id]) in ResourceSets(variants);
    }
  }

  lemma BoundIsApart(variants: map<string, Variant>, ids: set<string>)
    requires ids <= variants.Keys && {} !in SetsOf(variants, ids)
    ensures ids !! Claimless(variants)
  {
    forall id | id in ids
      ensures id !in Claimless(variants)
    {
      assert Exclusive(variants[id]) in SetsOf(variants, ids);
    }
  }

  /** The largest family of resource sets falls short of the largest group by the surplus exactly. */
  lemma LargestGroupIs(variants: map<string, Variant>, n: nat)
    requires LargestFamily(ResourceSets(variants), n)
    ensures LargestGroup(variants, n + Surplus(variants))
    ensures LargestGroup(variants, n) <==> |Claimless(variants)| <= 1
  {
    var ids := GroupReached(variants, n);
    forall group | Group(variants, group)
      ensures |group| <= n + Surplus(variants)
    {
      GroupBound(variants, n, group);
    }
  }

  // ----- The search itself

  /** The elements of a set in some order, as iterating over it gives them. */
  method Listed<T(==)>(all: set<T>) returns (sets: seq<T>)
    ensures NoRepeats(sets) && Elements(sets) == all
  {
    sets := [];
    var left := all;
    while left != {}
      invariant NoRepeats(sets) && Elements(sets) + left == all && Elements(sets) !! left
      decreases |left|
    {
      var a :| a in left;
      ghost var before := Elements(sets);
      assert forall i | 0 <= i < |sets| :: sets[i] in before;
      sets := sets + [a];
      assert Elements(sets) == before + {a};
      left := left - {a};
    }
  }

  method AnyAdditive(combinations: seq<seq<set<string>>>) returns (found: bool)
    ensures found <==> exists i :: 0 <= i < |combinations| && Additive(combinations[i])
  {
    for i := 0 to |combinations|
      invariant forall j | 0 <= j < i :: !Additive(combinations[j])
    {
      if SumOfSizes(combinations[i]) == |UnionOf(combinations[i])| {
        assert Additive(combinations[i]);
        return true;
      }
    }
    return false;
  }

  /**
   `max_loaded_models`. It is the size of the largest group of variants that can be loaded
   together, when at most one variant is without an exclusive claim; otherwise it falls short
   of it by all but one of those.
   */
  method MaxLoadedModels(variants: map<string, Variant>) returns (largest: nat)
    ensures LargestFamily(ResourceSets(variants), largest)
    ensures LargestGroup(variants, largest + Surplus(variants))
    ensures LargestGroup(variants, largest) <==> |Claimless(variants)| <= 1
  {
    var sets := Listed(ResourceSets(variants));
    NoRepeatsSize(sets);
    largest := 0;
    var size := 1;
    ghost var all := ResourceSets(variants);
    assert IsFamily(all, {}, 0);
    while size <= |sets|
      invariant size == largest + 1 && largest <= |sets| && HasFamily(all, largest)
    {
      var fits := AnyAdditive(Combinations(sets, size));
      FitsIffFamily(sets, size);
      if !fits {
        break;
      }
      largest := size;
      size := size + 1;
    }
    forall m: nat | HasFamily(all, m)
      ensures m <= largest
    {
      var family :| IsFamily(all, family, m);
      CardinalityBound(family, all);
      if m > largest { SmallerFamily(all, m, largest + 1); }
    }
    LargestGroupIs(variants, largest);
  }
}
