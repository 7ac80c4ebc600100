/** Arrival order: conflicting requests are placed in the order they came. */
module Arrival {
  import opened Claims
  import opened Machine
  import opened Line
  import opened LineSteps
  import opened Runs

  /** The step with which a request was placed: it started a swap. */
  predicate Places(s: State, a: Action, s': State) {
    (a.TakePlaceLock? || a.Observed?) && |s'.tasks| > |s.tasks|
  }

  /**
   When a ticket is placed, none ahead of it is for a different conflicting model, although
   the line was looked at before two awaits.
   */
  lemma PlacedInOrder(cfg: Config, ss: seq<State>, acts: seq<Action>, i: nat)
    requires Run(cfg, ss, acts) && i < |acts| && Places(ss[i], acts[i], ss[i + 1])
    ensures var s, t := ss[i], acts[i].t;
            && HadTicket(s, t) && s.reqs[t].name in cfg.catalogue
            && Place(s.waiting, t) < |s.waiting|
            && forall j | 0 <= j < Place(s.waiting, t) :: !Rival(s.waiting[j].variant, cfg.catalogue[s.reqs[t].name])
  {
    var s, t := ss[i], acts[i].t;
    RunHasBase(cfg, ss, acts, i);
    assert Step(cfg, s, acts[i], ss[i + 1]);
    assert RequestShape(cfg, |s.recs|, s.reqs[t]);
    assert TicketOf(cfg, s.reqs, s.waiting[Place(s.waiting, t)]);
  }

  /** The tickets ahead of a request's own. */
  function Ahead(w: seq<Ticket>, t: Tid): set<Ticket> {
    set j | 0 <= j < Place(w, t) :: w[j]
  }

  /** While a request waits, the tickets ahead of its own only ever shrink. */
  lemma AheadShrinks(cfg: Config, ss: seq<State>, acts: seq<Action>, i: nat, u: Tid)
    requires Run(cfg, ss, acts) && i < |acts| && HadTicket(ss[i], u) && HadTicket(ss[i + 1], u)
    ensures Ahead(ss[i + 1].waiting, u) <= Ahead(ss[i].waiting, u)
  {
    var s, s', a := ss[i], ss[i + 1], acts[i];
    RunHasBase(cfg, ss, acts, i);
    assert Step(cfg, s, a, s');
    if ByRequest(a) {
      RequestMove(cfg, s, a);
      MoveShrinks(cfg, s, s', a.t, u);
    } else {
      OthersKeepLine(cfg, s, a);
    }
  }

  lemma MoveShrinks(cfg: Config, s: State, s': State, t: Tid, u: Tid)
    requires TicketInv(cfg, s) && LineMove(cfg, s, s', t) && HadTicket(s, u) && HadTicket(s', u)
    ensures Ahead(s'.waiting, u) <= Ahead(s.waiting, u)
  {
    var w, w' := s.waiting, s'.waiting;
    var p := Place(w, u);
    if Ticketed(s'.reqs[t].pc) {
      assert w'[p] == w[p];
      if !HadTicket(s, t) {
        assert forall j | 0 <= j < |w| :: w'[j] == w[j];
        assert Place(w', u) <= p;
      }
    } else {
      RemovalShrinks(w, t, u);
    }
  }

  lemma CutLater<T>(x: T, w: seq<T>, p: nat)
    requires p < |w|
    ensures ([x] + w)[..p + 1] == [x] + w[..p] && ([x] + w)[p + 2..] == w[p + 1..]
  {
  }

  lemma RemoveFromTail(first: Ticket, w: seq<Ticket>, t: Tid)
    requires first.tid != t
    ensures Remove([first] + w, t) == [first] + Remove(w, t)
  {
    assert ([first] + w)[1..] == w;
    var p := Place(w, t);
    if p < |w| { CutLater(first, w, p); }
  }

  lemma AheadOfTail(first: Ticket, w: seq<Ticket>, u: Tid)
    requires first.tid != u
    ensures Ahead([first] + w, u) == {first} + Ahead(w, u)
  {
    var all := [first] + w;
    assert all[1..] == w;
    forall x | x in {first} + Ahead(w, u)
      ensures x in Ahead(all, u)
    {
      if x == first {
        assert all[0] == first;
      } else {
        var j :| 0 <= j < Place(w, u) && w[j] == x;
        assert all[j + 1] == x;
      }
    }
  }

  lemma {:induction false} RemovalShrinks(w: seq<Ticket>, t: Tid, u: Tid)
    requires t != u
    ensures Ahead(Remove(w, t), u) <= Ahead(w, u)
  {
    if w != [] {
      assert w == [w[0]] + w[1..];
      if w[0].tid == t {
        assert Remove(w, t) == w[1..];
        AheadOfTail(w[0], w[1..], u);
      } else if w[0].tid != u {
        RemoveFromTail(w[0], w[1..], t);
        RemovalShrinks(w[1..], t, u);
        AheadOfTail(w[0], w[1..], u);
        AheadOfTail(w[0], Remove(w[1..], t), u);
      } else {
        RemoveFromTail(w[0], w[1..], t);
      }
    }
  }

  /** Somebody is always free to try: the first in line is never held back by arrival order. */
  lemma FirstIsFree(cfg: Config, ss: seq<State>, acts: seq<Action>, i: nat)
    requires Run(cfg, ss, acts) && i < |ss| && ss[i].waiting != []
    ensures var s := ss[i];
            var t := s.waiting[0].tid;
            HadTicket(s, t) && !RivalAhead(s.waiting, t, s.waiting[0].variant)
    ensures forall u: Tid, v: Variant | RivalAhead(ss[i].waiting, u, v) ::
              exists j :: 0 <= j < Place(ss[i].waiting, u) && Rival(ss[i].waiting[j].variant, v)
                          && Place(ss[i].waiting, ss[i].waiting[j].tid) < Place(ss[i].waiting, u)
  {
    var s := ss[i];
    RunHasBase(cfg, ss, acts, i);
    assert TicketOf(cfg, s.reqs, s.waiting[0]);
    PlaceIs(s.waiting, s.waiting[0].tid, 0);
    forall u: Tid, v: Variant | RivalAhead(s.waiting, u, v)
      ensures exists j :: 0 <= j < Place(s.waiting, u) && Rival(s.waiting[j].variant, v)
                          && Place(s.waiting, s.waiting[j].tid) < Place(s.waiting, u)
    {
      var j :| 0 <= j < Place(s.waiting, u) && Rival(s.waiting[j].variant, v);
      PlaceIs(s.waiting, s.waiting[j].tid, j);
    }
  }
}
