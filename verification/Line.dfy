/**
 The scheduling lock and the waiting line, over all runs and whatever the surveys report: who
 holds the lock, whose ticket waits where, and arrival order.
 */
module Line {
  import opened Wrappers
  import opened Machine

  predicate Locking(pc: Pc) {
    pc.Surveying? || pc.Tracking? || pc.Observing?
  }

  predicate Ticketed(pc: Pc) {
    pc.Looking? || pc.Queueing? || pc.Observing? || pc.Sleeping?
  }

  /** Past the arrival check in `place`, and not yet placed. */
  predicate Placing(pc: Pc) {
    pc.Queueing? || pc.Observing?
  }

  ghost predicate LockInv(s: State) {
    && (forall t | t in s.reqs && Locking(s.reqs[t].pc) :: s.lock == Some(t))
    && (s.lock.Some? ==> s.lock.value in s.reqs && Locking(s.reqs[s.lock.value].pc))
  }

  ghost predicate TicketInv(cfg: Config, s: State) {
    && (forall i, j | 0 <= i < j < |s.waiting| :: s.waiting[i].tid != s.waiting[j].tid)
    && (forall i | 0 <= i < |s.waiting| :: TicketOf(cfg, s.reqs, s.waiting[i]))
    && (forall t | t in s.reqs && Ticketed(s.reqs[t].pc) :: Place(s.waiting, t) < |s.waiting|)
  }

  predicate TicketOf(cfg: Config, reqs: map<Tid, Request>, ticket: Ticket) {
    && ticket.tid in reqs
    && Ticketed(reqs[ticket.tid].pc)
    && reqs[ticket.tid].name in cfg.catalogue
    && cfg.catalogue[reqs[ticket.tid].name] == ticket.variant
  }

  /** No ticket ahead of a request being placed is for a different conflicting model. */
  ghost predicate OrderInv(s: State) {
    forall i, j | 0 <= i < j < |s.waiting| && IsPlacing(s.reqs, s.waiting[j].tid) ::
      !Rival(s.waiting[i].variant, s.waiting[j].variant)
  }

  predicate IsPlacing(reqs: map<Tid, Request>, t: Tid) {
    t in reqs && Placing(reqs[t].pc)
  }

  ghost predicate LineInv(cfg: Config, s: State) {
    LockInv(s) && TicketInv(cfg, s) && OrderInv(s)
  }

  /** Only request `t` moved. */
  predicate OnlyMoved(s: State, s': State, t: Tid) {
    t in s'.reqs && s'.reqs == s.reqs[t := s'.reqs[t]]
  }

  predicate HadTicket(s: State, t: Tid) {
    t in s.reqs && Ticketed(s.reqs[t].pc)
  }

  /** How a request's move may change the lock and the line. */
  predicate LineMove(cfg: Config, s: State, s': State, t: Tid) {
    && OnlyMoved(s, s', t)
    && (if Locking(s'.reqs[t].pc) then s'.lock == Some(t) && (s.lock == None || s.lock == Some(t))
        else s'.lock == if s.lock == Some(t) then None else s.lock)
    && (if Ticketed(s'.reqs[t].pc) then
          if HadTicket(s, t) then s'.waiting == s.waiting && s'.reqs[t].name == s.reqs[t].name
          else s'.reqs[t].name in cfg.catalogue
               && s'.waiting == s.waiting + [Ticket(t, cfg.catalogue[s'.reqs[t].name])]
        else s'.waiting == Remove(s.waiting, t))
    && (Placing(s'.reqs[t].pc) ==>
          HadTicket(s, t) && s'.reqs[t].name in cfg.catalogue
          && (Placing(s.reqs[t].pc)
              || !RivalAhead(s.waiting, t, cfg.catalogue[s'.reqs[t].name])))
  }

  lemma PlaceIs(w: seq<Ticket>, t: Tid, i: nat)
    requires i < |w| && w[i].tid == t
    requires forall i, j | 0 <= i < j < |w| :: w[i].tid != w[j].tid
    ensures Place(w, t) == i
  {
    assert w[Place(w, t)].tid == w[i].tid;
  }

  /** What is left of the line when a ticket goes: the same tickets in the same order. */
  lemma RemoveSpec(w: seq<Ticket>, t: Tid)
    requires forall i, j | 0 <= i < j < |w| :: w[i].tid != w[j].tid
    ensures forall i, j | 0 <= i < j < |Remove(w, t)| :: Remove(w, t)[i].tid != Remove(w, t)[j].tid
    ensures forall i | 0 <= i < |Remove(w, t)| :: Remove(w, t)[i] in w && Remove(w, t)[i].tid != t
    ensures forall i | 0 <= i < |w| && w[i].tid != t :: w[i] in Remove(w, t)
  {
    var p, w' := Place(w, t), Remove(w, t);
    if p < |w| {
      assert forall i | 0 <= i < |w'| :: w'[i] == if i < p then w[i] else w[i + 1];
      forall i | 0 <= i < |w| && w[i].tid != t
        ensures w[i] in w'
      {
        assert w[i] == w'[if i < p then i else i - 1];
      }
    }
  }

  lemma LockKept(cfg: Config, s: State, s': State, t: Tid)
    requires LockInv(s) && LineMove(cfg, s, s', t)
    ensures LockInv(s')
  {
  }

  lemma TicketsKept(cfg: Config, s: State, s': State, t: Tid)
    requires TicketInv(cfg, s) && LineMove(cfg, s, s', t)
    ensures TicketInv(cfg, s')
  {
    if !Ticketed(s'.reqs[t].pc) {
      TicketsRemoved(cfg, s, s', t);
    } else if HadTicket(s, t) {
      assert forall u | u in s'.reqs && Ticketed(s'.reqs[u].pc) :: u in s.reqs && Ticketed(s.reqs[u].pc);
    } else {
      TicketsAdded(cfg, s, s', t);
    }
  }

  lemma TicketsRemoved(cfg: Config, s: State, s': State, t: Tid)
    requires TicketInv(cfg, s) && LineMove(cfg, s, s', t) && !Ticketed(s'.reqs[t].pc)
    ensures TicketInv(cfg, s')
  {
    RemoveSpec(s.waiting, t);
    forall i | 0 <= i < |s'.waiting|
      ensures TicketOf(cfg, s'.reqs, s'.waiting[i])
    {
      var j :| 0 <= j < |s.waiting| && s.waiting[j] == s'.waiting[i];
      assert TicketOf(cfg, s.reqs, s.waiting[j]);
    }
    forall u | u in s'.reqs && Ticketed(s'.reqs[u].pc)
      ensures Place(s'.waiting, u) < |s'.waiting|
    {
      var p := Place(s.waiting, u);
      assert s.waiting[p] in s'.waiting;
      var i :| 0 <= i < |s'.waiting| && s'.waiting[i] == s.waiting[p];
    }
  }

  lemma TicketsAdded(cfg: Config, s: State, s': State, t: Tid)
    requires TicketInv(cfg, s) && LineMove(cfg, s, s', t) && Ticketed(s'.reqs[t].pc) && !HadTicket(s, t)
    ensures TicketInv(cfg, s')
  {
    var n := |s.waiting|;
    assert s'.waiting[n].tid == t;
    forall i | 0 <= i < n
      ensures s'.waiting[i].tid != t && TicketOf(cfg, s'.reqs, s'.waiting[i])
    {
      assert TicketOf(cfg, s.reqs, s.waiting[i]);
    }
    forall u | u in s'.reqs && Ticketed(s'.reqs[u].pc)
      ensures Place(s'.waiting, u) < |s'.waiting|
    {
      if u != t {
        var p := Place(s.waiting, u);
        assert s'.waiting[p].tid == u;
      }
    }
  }

  lemma OrderRemoved(s: State, s': State, t: Tid)
    requires OrderInv(s) && OnlyMoved(s, s', t) && s'.waiting == Remove(s.waiting, t)
    requires !Placing(s'.reqs[t].pc)
    ensures OrderInv(s')
  {
    var p := Place(s.waiting, t);
    forall i, j | 0 <= i < j < |s'.waiting| && IsPlacing(s'.reqs, s'.waiting[j].tid)
      ensures !Rival(s'.waiting[i].variant, s'.waiting[j].variant)
    {
      var i' := if p < |s.waiting| && p <= i then i + 1 else i;
      var j' := if p < |s.waiting| && p <= j then j + 1 else j;
      assert s'.waiting[i] == s.waiting[i'] && s'.waiting[j] == s.waiting[j'];
    }
  }

  /** A request that passes the arrival check has no rival ahead. */
  lemma OrderPassed(cfg: Config, s: State, s': State, t: Tid)
    requires TicketInv(cfg, s) && OrderInv(s) && OnlyMoved(s, s', t) && s'.waiting == s.waiting
    requires HadTicket(s, t) && s'.reqs[t].name == s.reqs[t].name && s'.reqs[t].name in cfg.catalogue
    requires Placing(s'.reqs[t].pc) && !Placing(s.reqs[t].pc) ==>
               !RivalAhead(s.waiting, t, cfg.catalogue[s'.reqs[t].name])
    ensures OrderInv(s')
  {
    forall i, j | 0 <= i < j < |s.waiting| && IsPlacing(s'.reqs, s.waiting[j].tid)
      ensures !Rival(s.waiting[i].variant, s.waiting[j].variant)
    {
      if s.waiting[j].tid == t && !Placing(s.reqs[t].pc) {
        PlaceIs(s.waiting, t, j);
        assert TicketOf(cfg, s.reqs, s.waiting[j]);
      }
    }
  }

  lemma OrderKept(cfg: Config, s: State, s': State, t: Tid)
    requires TicketInv(cfg, s) && OrderInv(s) && LineMove(cfg, s, s', t)
    ensures OrderInv(s')
  {
    if !Ticketed(s'.reqs[t].pc) {
      OrderRemoved(s, s', t);
    } else if HadTicket(s, t) {
      assert TicketOf(cfg, s.reqs, s.waiting[Place(s.waiting, t)]);
      OrderPassed(cfg, s, s', t);
    } else {
      forall i, j | 0 <= i < j < |s'.waiting| && IsPlacing(s'.reqs, s'.waiting[j].tid)
        ensures !Rival(s'.waiting[i].variant, s'.waiting[j].variant)
      {
        assert s'.waiting[i] == s.waiting[i];
      }
    }
  }

  lemma LineKept(cfg: Config, s: State, s': State, t: Tid)
    requires LineInv(cfg, s) && LineMove(cfg, s, s', t)
    ensures LineInv(cfg, s')
  {
    LockKept(cfg, s, s', t);
    TicketsKept(cfg, s, s', t);
    OrderKept(cfg, s, s', t);
  }
}
