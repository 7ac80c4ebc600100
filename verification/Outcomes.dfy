/**
 What each step of a run does, told by the fields of the states before and after it: who waits and
 until when, who is refused and when, who is admitted, what is displaced, kept, dropped and restored.
 */
module Outcomes {
  import opened Wrappers
  import opened Claims
  import opened Machine
  import opened Line
  import opened LineSteps
  import opened Frames
  import opened Shapes
  import opened TaskSteps
  import opened SurveySafety
  import opened Base
  import opened Runs
  import opened Protection
  import opened Faithful

  // ----- Waiting

  ghost predicate InLine(w: seq<Ticket>, t: Tid) {
    exists j :: 0 <= j < |w| && w[j].tid == t
  }

  /** The request's ticket is gone, if it had one; the others stay in their order. */
  ghost predicate LeftLine(w: seq<Ticket>, w': seq<Ticket>, t: Tid) {
    if InLine(w, t) then exists p :: 0 <= p < |w| && w[p].tid == t && w' == w[..p] + w[p + 1..]
    else w' == w
  }

  /** An earlier ticket is for another model that competes. */
  ghost predicate RivalBefore(w: seq<Ticket>, t: Tid, v: Variant) {
    exists j, k :: 0 <= j < k < |w| && w[k].tid == t && w[j].variant.id != v.id && ClaimsConflict(w[j].variant, v)
  }

  /** The Retry-After of a refusal: 5 for an unknown end, otherwise the least that reaches it. */
  ghost predicate RetryFits(n: int, now: real, until: Option<real>) {
    if until.None? || until.value == 0.0 then n == 5 else LeastWait(n, now, until.value)
  }

  /** When a waiting request looks again at the latest: at the end of its obstacle, or after one interval. */
  ghost predicate LooksAgain(cfg: Config, w: real, now: real, deadline: real, until: Option<real>) {
    var end := if until.None? || until.value == 0.0 then now + cfg.poll else until.value;
    w <= deadline && w <= end && (w == deadline || w == end)
  }

  /**
   What becomes of a request that is blocked. If the obstacle has gone already, it looks again at
   once; otherwise it is refused from its deadline on, and sleeps before.
   */
  ghost predicate Waits(cfg: Config, s: State, s': State, t: Tid, reason: Reason, until: Option<real>) {
    && t in s.reqs && t in s'.reqs
    && var deadline, pc := s.reqs[t].deadline, s'.reqs[t].pc;
    if until.Some? && until.value <= s.now then pc == Looking && s'.waiting == s.waiting
    else if s.now >= deadline then
      LeftLine(s.waiting, s'.waiting, t)
      && exists n: int :: RetryFits(n, s.now, until) && pc == Ended(Refused(ResourceBusy(reason, n)))
    else pc.Sleeping? && LooksAgain(cfg, pc.recheck, s.now, deadline, until) && s'.waiting == s.waiting
  }

  lemma RemovesTicket(w: seq<Ticket>, t: Tid)
    ensures LeftLine(w, Remove(w, t), t)
  {
    var p := Place(w, t);
    if p < |w| { assert w[p].tid == t; }
  }

  lemma RetryIs(now: real, until: Option<real>)
    requires until.None? || until.value > now
    ensures RetryFits(RetryAfter(until, now), now, until)
  {
    if until.Some? && until.value != 0.0 { RetryAfterIsLeast(until.value, now); }
  }

  lemma SettleWaits(cfg: Config, s: State, t: Tid, blocked: Blocked)
    requires t in s.reqs
    ensures Waits(cfg, s, Settle(cfg, s, t, blocked), t, blocked.reason, blocked.until)
  {
    RemovesTicket(s.waiting, t);
    if blocked.until.None? || blocked.until.value > s.now { RetryIs(s.now, blocked.until); }
  }

  /** Nothing but one request, and perhaps the line, the lock and records, has changed. */
  ghost predicate OnlyRequest(s: State, s': State, t: Tid) {
    && t in s.reqs && OnlyMoved(s, s', t)
    && s'.reqs[t].name == s.reqs[t].name && s'.reqs[t].deadline == s.reqs[t].deadline
    && s'.loaded == s.loaded && s'.tasks == s.tasks && s'.fit == s.fit && s'.startup == s.startup
    && s'.now == s.now && s'.may == s.may && s'.held == s.held
  }

  lemma SettleOnly(cfg: Config, s: State, t: Tid, blocked: Blocked)
    requires t in s.reqs
    ensures var s' := Settle(cfg, s, t, blocked); OnlyRequest(s, s', t) && s'.recs == s.recs && s'.lock == s.lock
  {
  }

  // ----- Looking for the model

  ghost predicate OneChanged(recs: seq<Record>, recs': seq<Record>, r: Rid) {
    r < |recs| && |recs'| == |recs| && recs' == recs[r := recs'[r]]
  }

  /** The request joins a record: it waits for it to be ready, is admitted, or fails with its error. */
  ghost predicate Joins(s: State, s': State, t: Tid, r: Rid) {
    && t in s'.reqs && OneChanged(s.recs, s'.recs, r)
    && var rec, pc := s.recs[r], s'.reqs[t].pc;
    if !rec.ready then pc == Joining(r) && s'.recs[r] == rec.(queued := rec.queued + 1)
    else if rec.error.Some? then pc == Ended(Refused(LoadFailed(rec.error.value))) && s'.recs[r] == rec
    else pc == Admitted(r) && s'.recs[r] == rec.(active := rec.active + 1)
  }

  lemma JoinIs(s: State, t: Tid, r: Rid)
    requires t in s.reqs && r < |s.recs|
    ensures Joins(s, Join(s, t, r), t, r) && OnlyRequest(s, Join(s, t, r), t)
    ensures Join(s, t, r).waiting == s.waiting && Join(s, t, r).lock == s.lock
  {
  }

  /** The record that stands for the model, and is not leaving. */
  ghost predicate Stays(s: State, name: string, r: Rid) {
    name in s.loaded && s.loaded[name] == r && r < |s.recs| && !s.recs[r].leaving
  }

  /** The model is tracked, and leaving. */
  ghost predicate Leaves(s: State, name: string) {
    name in s.loaded && s.loaded[name] < |s.recs| && s.recs[s.loaded[name]].leaving
  }

  ghost predicate Looked(cfg: Config, s: State, s': State, t: Tid) {
    && OnlyRequest(s, s', t) && s.reqs[t].name in cfg.catalogue && s'.lock == s.lock
    && var name := s.reqs[t].name;
    if name in s.loaded && Stays(s, name, s.loaded[name]) then
      Joins(s, s', t, s.loaded[name]) && LeftLine(s.waiting, s'.waiting, t)
    else
      s'.recs == s.recs
      && if RivalBefore(s.waiting, t, cfg.catalogue[name]) then Waits(cfg, s, s', t, EarlierRequest, None)
         else s'.reqs[t].pc == Queueing && s'.waiting == s.waiting
  }

  lemma RivalIs(w: seq<Ticket>, t: Tid, v: Variant)
    requires forall i, j | 0 <= i < j < |w| :: w[i].tid != w[j].tid
    requires InLine(w, t)
    ensures RivalAhead(w, t, v) <==> RivalBefore(w, t, v)
  {
    var p := Place(w, t);
    if RivalBefore(w, t, v) {
      var j, k :| 0 <= j < k < |w| && w[k].tid == t && w[j].variant.id != v.id && ClaimsConflict(w[j].variant, v);
      PlaceIs(w, t, k);
      assert Rival(w[j].variant, v);
    }
  }

  lemma LookIs(cfg: Config, s: State, t: Tid)
    requires LoadedShape(s.recs, s.loaded) && TicketInv(cfg, s) && t in s.reqs && s.reqs[t].pc.Looking?
    requires s.reqs[t].name in cfg.catalogue && cfg.catalogue[s.reqs[t].name].id == s.reqs[t].name
    ensures Looked(cfg, s, DoLook(cfg, s, t), t)
  {
    var name := s.reqs[t].name;
    if name in s.loaded && !s.recs[s.loaded[name]].leaving {
      RemovesTicket(s.waiting, t);
      JoinIs(s.(waiting := Remove(s.waiting, t)), t, s.loaded[name]);
    } else {
      assert s.waiting[Place(s.waiting, t)].tid == t;
      RivalIs(s.waiting, t, cfg.catalogue[name]);
      SettleWaits(cfg, s, t, Blocked(EarlierRequest, None));
      SettleOnly(cfg, s, t, Blocked(EarlierRequest, None));
    }
  }

  /** At the head of its loop a request joins its model, waits for an earlier rival, or queues for the lock. */
  lemma LookOutcome(cfg: Config, ss: seq<State>, acts: seq<Action>, i: nat)
    requires Run(cfg, ss, acts) && i < |acts| && acts[i].Look?
    ensures Looked(cfg, ss[i], ss[i + 1], acts[i].t)
  {
    RunHasBase(cfg, ss, acts, i);
    assert Step(cfg, ss[i], acts[i], ss[i + 1]) && RequestShape(cfg, |ss[i].recs|, ss[i].reqs[acts[i].t]);
    LookIs(cfg, ss[i], acts[i].t);
  }

  // ----- Placing

  /** The record of a model that is to be loaded, with one request waiting for it. */
  ghost predicate NewRecord(cfg: Config, rec: Record, name: string, k: Kid, now: real) {
    && name in cfg.catalogue && rec.variant == cfg.catalogue[name] && rec.lastActivity == now
    && rec.active == 0 && rec.queued == 1 && rec.decode.None? && !rec.ready && rec.error.None? && !rec.leaving
    && rec.loader == Some(k) && rec.unloader.None? && rec.loads == 0 && !rec.unloaded
  }

  /** The request displaces the victims, and its model is tracked, to be loaded by a new swap. */
  ghost predicate Displaces(cfg: Config, s: State, recs: seq<Record>, s': State, t: Tid, victims: seq<Rid>) {
    && t in s.reqs && OnlyMoved(s, s', t) && s'.reqs[t].pc == Joining(|recs|) && s'.reqs[t].name == s.reqs[t].name
    && |s'.recs| == |recs| + 1 && NewRecord(cfg, s'.recs[|recs|], s.reqs[t].name, |s.tasks|, s.now)
    && (forall r | 0 <= r < |recs| && r !in victims :: s'.recs[r] == recs[r])
    && (forall r | 0 <= r < |recs| && r in victims ::
          s'.recs[r] == recs[r].(leaving := true, unloader := Some(|s.tasks|), unloaded := false))
    && s'.loaded == s.loaded[s.reqs[t].name := |recs|]
    && s'.tasks == s.tasks + [Task(|recs|, victims, 0, Starting, false)]
    && LeftLine(s.waiting, s'.waiting, t) && s'.lock.None?
    && s'.fit == s.fit && s'.startup == s.startup && s'.now == s.now && s'.may == s.may && s'.held == s.held
  }

  lemma CommitIs(cfg: Config, s: State, t: Tid, conflicts: seq<Rid>)
    requires t in s.reqs && s.reqs[t].name in cfg.catalogue
    ensures Displaces(cfg, s, s.recs, Commit(cfg, s, t, conflicts), t, conflicts)
  {
    RemovesTicket(s.waiting, t);
  }

  ghost predicate InUse(rec: Record) {
    rec.active != 0 || rec.queued != 0
  }

  /**
   `busy` at its next conflict: a leaving one or one in use or loading blocks, with no end known;
   otherwise the model is observed, under the lock.
   */
  ghost predicate Glances(cfg: Config, s: State, s': State, t: Tid, conflicts: seq<Rid>, began: real, seen: seq<Sighting>) {
    && OnlyRequest(s, s', t) && |seen| < |conflicts| && conflicts[|seen|] < |s'.recs|
    && var rec := s'.recs[conflicts[|seen|]];
    if rec.leaving then Waits(cfg, s, s', t, BeingUnloaded, None) && s'.lock.None?
    else if InUse(rec) || !rec.ready then Waits(cfg, s, s', t, Working, None) && s'.lock.None?
    else
      && s'.lock == Some(t) && s'.waiting == s.waiting && s'.reqs[t].pc.Observing?
      && var pc := s'.reqs[t].pc;
      pc.conflicts == conflicts && pc.began == began && pc.seen == seen && pc.glance == rec
  }

  lemma GlanceIs(cfg: Config, s: State, t: Tid, conflicts: seq<Rid>, began: real, until: real, recent: bool, seen: seq<Sighting>)
    requires t in s.reqs && s.reqs[t].name in cfg.catalogue && InRange(conflicts, |s.recs|)
    requires |seen| < |conflicts| && s.lock == Some(t)
    ensures var s' := Advance(cfg, s, t, conflicts, began, until, recent, seen);
            Glances(cfg, s, s', t, conflicts, began, seen) && s'.recs == s.recs
  {
    SettleWaits(cfg, Unlock(s), t, Blocked(BeingUnloaded, None));
    SettleOnly(cfg, Unlock(s), t, Blocked(BeingUnloaded, None));
    SettleWaits(cfg, Unlock(s), t, Blocked(Working, None));
    SettleOnly(cfg, Unlock(s), t, Blocked(Working, None));
  }

  /** The conflicts are each tracked, competing record once, and no other. */
  ghost predicate AllRivals(s: State, v: Variant, conflicts: seq<Rid>) {
    && (forall i, j | 0 <= i < j < |conflicts| :: conflicts[i] != conflicts[j])
    && (forall r: Rid :: r in conflicts <==> r < |s.recs| && Tracked(s.recs, s.loaded, r) && ClaimsConflict(s.recs[r].variant, v))
  }

  /**
   Under the lock: a request whose model has been tracked meanwhile looks again at once, unless the
   model is leaving; one whose model is not tracked is placed if nothing is in its way, and
   otherwise turns to the conflicts.
   */
  ghost predicate Locked(cfg: Config, s: State, s': State, t: Tid, conflicts: seq<Rid>) {
    && t in s.reqs && s.reqs[t].name in cfg.catalogue
    && var name := s.reqs[t].name;
    if Leaves(s, name) then
      OnlyRequest(s, s', t) && Waits(cfg, s, s', t, BeingUnloaded, None) && s'.recs == s.recs && s'.lock.None?
    else if name in s.loaded then
      OnlyRequest(s, s', t) && s'.reqs[t].pc == Looking && s'.waiting == s.waiting && s'.recs == s.recs && s'.lock.None?
    else
      && AllRivals(s, cfg.catalogue[name], conflicts)
      && if conflicts == [] then Displaces(cfg, s, s.recs, s', t, [])
         else Glances(cfg, s, s', t, conflicts, s.now, []) && s'.recs == s.recs
  }

  lemma LockedIs(cfg: Config, s: State, t: Tid, conflicts: seq<Rid>)
    requires LoadedShape(s.recs, s.loaded) && t in s.reqs && s.reqs[t].name in cfg.catalogue && s.lock.None?
    requires Conflicting(s.recs, s.loaded, cfg.catalogue[s.reqs[t].name], conflicts)
    ensures Locked(cfg, s, DoTakePlaceLock(cfg, s, t, conflicts), t, conflicts)
  {
    var name := s.reqs[t].name;
    if name in s.loaded {
      var blocked := if s.recs[s.loaded[name]].leaving then Blocked(BeingUnloaded, None)
                     else Blocked(LoadedByAnother, Some(s.now));
      SettleWaits(cfg, s, t, blocked);
      SettleOnly(cfg, s, t, blocked);
    } else {
      var s0 := s.(lock := Some(t));
      if conflicts == [] {
        CommitIs(cfg, s0, t, []);
      } else {
        GlanceIs(cfg, s0, t, conflicts, s.now, s.now, false, []);
      }
    }
  }

  /** What taking the lock leads to. */
  lemma LockOutcome(cfg: Config, ss: seq<State>, acts: seq<Action>, i: nat)
    requires Run(cfg, ss, acts) && i < |acts| && acts[i].TakePlaceLock?
    ensures Locked(cfg, ss[i], ss[i + 1], acts[i].t, acts[i].conflicts)
  {
    RunHasBase(cfg, ss, acts, i);
    assert Step(cfg, ss[i], acts[i], ss[i + 1]) && RequestShape(cfg, |ss[i].recs|, ss[i].reqs[acts[i].t]);
    LockedIs(cfg, ss[i], acts[i].t, acts[i].conflicts);
  }

  // ----- Observing

  /** An answer is noted: work shows in a decode count that is new or was unknown. */
  ghost predicate NotedAs(a: Record, b: Record, activity: Activity, now: real) {
    b == a.(decode := Some(activity.decode),
            lastActivity := if a.decode == Some(activity.decode) then a.lastActivity else now)
  }

  /** When the protection of an observed model ends. */
  function EndOf(cfg: Config, x: Sighting): real {
    (if x.found.decode == Some(x.activity.decode) then x.found.lastActivity else x.at) + cfg.protect
  }

  /** The protection that ends last, if any ends after the call began. */
  ghost predicate EndsLast(cfg: Config, began: real, seen: seq<Sighting>, end: real) {
    && end > began && (exists j :: 0 <= j < |seen| && EndOf(cfg, seen[j]) == end)
    && forall j | 0 <= j < |seen| :: EndOf(cfg, seen[j]) <= end
  }

  ghost predicate AllOver(cfg: Config, began: real, seen: seq<Sighting>) {
    forall j | 0 <= j < |seen| :: EndOf(cfg, seen[j]) <= began
  }

  /** After the last conflict: protected still, used since, or free to go. */
  ghost predicate Concludes(cfg: Config, s: State, recs: seq<Record>, s': State, t: Tid, conflicts: seq<Rid>, began: real,
                            seen: seq<Sighting>)
  {
    if !AllOver(cfg, began, seen) then
      OnlyRequest(s, s', t) && s'.recs == recs && s'.lock.None?
      && exists end :: EndsLast(cfg, began, seen, end) && Waits(cfg, s, s', t, RecentlyUsed, Some(end))
    else if exists j :: 0 <= j < |conflicts| && conflicts[j] < |recs| && (InUse(recs[conflicts[j]]) || recs[conflicts[j]].leaving) then
      OnlyRequest(s, s', t) && s'.recs == recs && s'.lock.None? && s'.reqs[t].pc == Looking && s'.waiting == s.waiting
    else Displaces(cfg, s, recs, s', t, conflicts)
  }

  /** One observation: unanswered or of a busy server, it blocks; a calm one is noted, and `busy` goes on. */
  ghost predicate Sees(cfg: Config, s: State, s': State, t: Tid, activity: Option<Activity>) {
    && t in s.reqs && s.reqs[t].pc.Observing?
    && var pc := s.reqs[t].pc;
    && |pc.seen| < |pc.conflicts| && pc.conflicts[|pc.seen|] < |s.recs|
    && var c := pc.conflicts[|pc.seen|];
    if activity.None? then
      OnlyRequest(s, s', t) && s'.recs == s.recs && Waits(cfg, s, s', t, Unobservable, None) && s'.lock.None?
    else exists rec ::
      && NotedAs(s.recs[c], rec, activity.value, s.now)
      && var recs := s.recs[c := rec];
      if activity.value.processing || activity.value.deferred != 0 then
        OnlyRequest(s, s', t) && s'.recs == recs && Waits(cfg, s, s', t, ServerBusy, None) && s'.lock.None?
      else
        var seen := pc.seen + [Sighting(pc.glance, s.recs[c], activity.value, s.now)];
        if |seen| < |pc.conflicts| then s'.recs == recs && Glances(cfg, s, s', t, pc.conflicts, pc.began, seen)
        else Concludes(cfg, s, recs, s', t, pc.conflicts, pc.began, seen)
  }

  lemma EndIsProtected(cfg: Config, x: Sighting)
    ensures EndOf(cfg, x) == Protected(cfg, x)
  {
  }

  lemma PeakIs(cfg: Config, began: real, seen: seq<Sighting>, until: real, recent: bool)
    requires Peak(cfg, began, seen, until, recent)
    ensures if recent then EndsLast(cfg, began, seen, until) && !AllOver(cfg, began, seen) else AllOver(cfg, began, seen)
  {
    forall j | 0 <= j < |seen|
      ensures EndOf(cfg, seen[j]) == Protected(cfg, seen[j])
    {
      EndIsProtected(cfg, seen[j]);
    }
  }

  /** `busy` after its last conflict. */
  lemma EndIs(cfg: Config, s: State, t: Tid, conflicts: seq<Rid>, began: real, until: real, recent: bool, seen: seq<Sighting>)
    requires t in s.reqs && s.reqs[t].name in cfg.catalogue && InRange(conflicts, |s.recs|)
    requires |seen| == |conflicts| && Peak(cfg, began, seen, until, recent)
    ensures var s' := Advance(cfg, s, t, conflicts, began, until, recent, seen);
            Concludes(cfg, s, s.recs, s', t, conflicts, began, seen)
  {
    PeakIs(cfg, began, seen, until, recent);
    SettleWaits(cfg, Unlock(s), t, Blocked(RecentlyUsed, Some(until)));
    SettleOnly(cfg, Unlock(s), t, Blocked(RecentlyUsed, Some(until)));
    SettleWaits(cfg, Unlock(s), t, Blocked(JustUsed, Some(s.now)));
    SettleOnly(cfg, Unlock(s), t, Blocked(JustUsed, Some(s.now)));
    if !recent && !JustWasUsed(s.recs, conflicts) { CommitIs(cfg, s, t, conflicts); }
    UsedIs(s.recs, conflicts);
  }

  lemma UsedIs(recs: seq<Record>, conflicts: seq<Rid>)
    requires InRange(conflicts, |recs|)
    ensures JustWasUsed(recs, conflicts) <==>
              exists j :: 0 <= j < |conflicts| && conflicts[j] < |recs| && (InUse(recs[conflicts[j]]) || recs[conflicts[j]].leaving)
  {
    if j :| 0 <= j < |conflicts| && (InUse(recs[conflicts[j]]) || recs[conflicts[j]].leaving) {
      assert Used(recs[conflicts[j]]);
    }
    if JustWasUsed(recs, conflicts) {
      var j :| 0 <= j < |conflicts| && Used(recs[conflicts[j]]);
      assert InUse(recs[conflicts[j]]) || recs[conflicts[j]].leaving;
    }
  }

  /** Noting an answer changes nothing that waiting, glancing or displacing depends on. */
  lemma FromNoticed(cfg: Config, s: State, s0: State, s': State, t: Tid, conflicts: seq<Rid>, began: real, seen: seq<Sighting>)
    requires s0 == s.(recs := s0.recs)
    ensures Glances(cfg, s0, s', t, conflicts, began, seen) ==> Glances(cfg, s, s', t, conflicts, began, seen)
    ensures Concludes(cfg, s0, s0.recs, s', t, conflicts, began, seen) ==>
              Concludes(cfg, s, s0.recs, s', t, conflicts, began, seen)
  {
  }

  lemma NotedIs(s: State, t: Tid, activity: Activity)
    requires t in s.reqs && s.reqs[t].pc.Observing? && PcShape(|s.recs|, s.reqs[t].pc)
    ensures var c, s0 := s.reqs[t].pc.conflicts[|s.reqs[t].pc.seen|], Noticed(s, t, activity);
            s0 == s.(recs := s.recs[c := s0.recs[c]]) && NotedAs(s.recs[c], s0.recs[c], activity, s.now)
  {
  }

  lemma CalmIs(cfg: Config, s: State, t: Tid, activity: Activity)
    requires t in s.reqs && s.reqs[t].pc.Observing? && RequestShape(cfg, |s.recs|, s.reqs[t]) && s.lock == Some(t)
    requires Watching(cfg, s.recs, s.now, s.reqs[t].pc) && !activity.processing && activity.deferred == 0
    ensures var pc, s0, s' := s.reqs[t].pc, Noticed(s, t, activity), DoObserved(cfg, s, t, Some(activity));
            var seen := NextSeen(s, t, activity);
            if |seen| < |pc.conflicts| then s'.recs == s0.recs && Glances(cfg, s, s', t, pc.conflicts, pc.began, seen)
            else Concludes(cfg, s, s0.recs, s', t, pc.conflicts, pc.began, seen)
  {
    var pc, s0, seen := s.reqs[t].pc, Noticed(s, t, activity), NextSeen(s, t, activity);
    CalmGoesOn(cfg, s, t, activity);
    NextPeak(cfg, pc, seen[|pc.seen|]);
    var end := Protected(cfg, seen[|pc.seen|]);
    var until, recent := if end > pc.until then end else pc.until, pc.recent || end > pc.until;
    if |seen| < |pc.conflicts| {
      GlanceIs(cfg, s0, t, pc.conflicts, pc.began, until, recent, seen);
    } else {
      EndIs(cfg, s0, t, pc.conflicts, pc.began, until, recent, seen);
    }
    FromNoticed(cfg, s, s0, DoObserved(cfg, s, t, Some(activity)), t, pc.conflicts, pc.began, seen);
  }

  lemma SeesIs(cfg: Config, s: State, t: Tid, activity: Option<Activity>)
    requires t in s.reqs && s.reqs[t].pc.Observing? && RequestShape(cfg, |s.recs|, s.reqs[t]) && s.lock == Some(t)
    requires Watching(cfg, s.recs, s.now, s.reqs[t].pc)
    ensures Sees(cfg, s, DoObserved(cfg, s, t, activity), t, activity)
  {
    if activity.None? {
      SettleWaits(cfg, Unlock(s), t, Blocked(Unobservable, None));
      SettleOnly(cfg, Unlock(s), t, Blocked(Unobservable, None));
    } else {
      var s0 := Noticed(s, t, activity.value);
      NotedIs(s, t, activity.value);
      if activity.value.processing || activity.value.deferred != 0 {
        SettleWaits(cfg, Unlock(s0), t, Blocked(ServerBusy, None));
        SettleOnly(cfg, Unlock(s0), t, Blocked(ServerBusy, None));
      } else {
        CalmIs(cfg, s, t, activity.value);
      }
    }
  }

  /** What one observation leads to. */
  lemma ObserveOutcome(cfg: Config, ss: seq<State>, acts: seq<Action>, i: nat)
    requires Run(cfg, ss, acts) && i < |acts| && acts[i].Observed?
    ensures Sees(cfg, ss[i], ss[i + 1], acts[i].t, acts[i].activity)
  {
    var s, t := ss[i], acts[i].t;
    RunHasBase(cfg, ss, acts, i);
    RunHasWatch(cfg, ss, acts, i);
    assert Step(cfg, s, acts[i], ss[i + 1]) && RequestShape(cfg, |s.recs|, s.reqs[t]);
    assert Watching(cfg, s.recs, s.now, s.reqs[t].pc) && Locking(s.reqs[t].pc);
    SeesIs(cfg, s, t, acts[i].activity);
  }

  // ----- Deadlines

  /** The step put the request to sleep. */
  ghost predicate FallsAsleep(s: State, s': State, t: Tid) {
    t in s.reqs && t in s'.reqs && s'.reqs[t].pc.Sleeping? && s'.reqs[t].pc != s.reqs[t].pc
  }

  /** The request sleeps until a time still to come, and no longer than to its deadline, still to come too. */
  ghost predicate InTime(s: State, s': State, t: Tid) {
    && t in s.reqs && t in s'.reqs && s'.reqs[t].pc.Sleeping?
    && s.now < s.reqs[t].deadline && s.now < s'.reqs[t].pc.recheck <= s.reqs[t].deadline
  }

  lemma LookedInTime(cfg: Config, s: State, s': State, u: Tid, t: Tid)
    requires cfg.poll > 0.0 && Looked(cfg, s, s', u) && FallsAsleep(s, s', t)
    ensures InTime(s, s', t)
  {
  }

  lemma LockedInTime(cfg: Config, s: State, s': State, u: Tid, conflicts: seq<Rid>, t: Tid)
    requires cfg.poll > 0.0 && Locked(cfg, s, s', u, conflicts) && FallsAsleep(s, s', t)
    ensures InTime(s, s', t)
  {
  }

  lemma SeesInTime(cfg: Config, s: State, s': State, u: Tid, activity: Option<Activity>, t: Tid)
    requires cfg.poll > 0.0 && Sees(cfg, s, s', u, activity) && FallsAsleep(s, s', t)
    ensures InTime(s, s', t)
  {
  }

  lemma OthersWakeful(cfg: Config, s: State, a: Action, s': State)
    requires Valid(cfg) && BaseInv(cfg, s) && Step(cfg, s, a, s') && !a.Look? && !a.Observed? && !a.TakePlaceLock?
    ensures forall t | t in s.reqs :: !FallsAsleep(s, s', t)
    ensures forall t | t in s'.reqs && t !in s.reqs :: !s'.reqs[t].pc.Sleeping?
  {
    OthersWatchNothing(cfg, s, a, s');
    if ByRequest(a) { NoSleeper(cfg, s, a); }
  }

  lemma NoSleeper(cfg: Config, s: State, a: Action)
    requires Shape(cfg, s) && Enabled(cfg, s, a) && ByRequest(a) && !a.Look? && !a.Observed? && !a.TakePlaceLock?
    ensures a.t in Apply(cfg, s, a).reqs && !Apply(cfg, s, a).reqs[a.t].pc.Sleeping?
  {
    if !a.Arrive? { assert RequestShape(cfg, |s.recs|, s.reqs[a.t]); }
  }

  /** Every sleep ends by its request's deadline, which has not come yet. */
  lemma SleepsWithinDeadline(cfg: Config, ss: seq<State>, acts: seq<Action>, i: nat, t: Tid)
    requires Run(cfg, ss, acts) && i < |acts| && FallsAsleep(ss[i], ss[i + 1], t) && cfg.poll > 0.0
    ensures InTime(ss[i], ss[i + 1], t)
  {
    var a := acts[i];
    if a.Look? {
      LookOutcome(cfg, ss, acts, i);
      LookedInTime(cfg, ss[i], ss[i + 1], a.t, t);
    } else if a.TakePlaceLock? {
      LockOutcome(cfg, ss, acts, i);
      LockedInTime(cfg, ss[i], ss[i + 1], a.t, a.conflicts, t);
    } else if a.Observed? {
      ObserveOutcome(cfg, ss, acts, i);
      SeesInTime(cfg, ss[i], ss[i + 1], a.t, a.activity, t);
    } else {
      RunHasBase(cfg, ss, acts, i);
      OthersWakeful(cfg, ss[i], a, ss[i + 1]);
    }
  }

  /** From its deadline on, a request that is still blocked is refused, and its ticket is gone. */
  lemma RefusedAtDeadline(cfg: Config, ss: seq<State>, acts: seq<Action>, i: nat)
    requires Run(cfg, ss, acts) && i < |acts| && (acts[i].Look? || acts[i].TakePlaceLock? || acts[i].Observed?)
    requires acts[i].t in ss[i].reqs && ss[i].now >= ss[i].reqs[acts[i].t].deadline
    ensures acts[i].t in ss[i + 1].reqs && !ss[i + 1].reqs[acts[i].t].pc.Sleeping?
    ensures var s', t := ss[i + 1], acts[i].t;
            s'.reqs[t].pc.Ended? && s'.reqs[t].pc.outcome.Refused? && s'.reqs[t].pc.outcome.why.ResourceBusy? ==>
              LeftLine(ss[i].waiting, s'.waiting, t)
  {
    if acts[i].Look? {
      LookOutcome(cfg, ss, acts, i);
    } else if acts[i].TakePlaceLock? {
      LockOutcome(cfg, ss, acts, i);
    } else {
      ObserveOutcome(cfg, ss, acts, i);
    }
  }

  // ----- Arrival and the check of the servers

  /** The request takes the last place in the line, and its deadline is the maximum wait from now. */
  ghost predicate Enters(cfg: Config, s: State, s': State, t: Tid, name: string) {
    && name in cfg.catalogue && s'.waiting == s.waiting + [Ticket(t, cfg.catalogue[name])]
    && s'.reqs == s.reqs[t := Request(name, s.now + cfg.maxWait, Looking)]
  }

  /** Nothing but requests, the line and the lock has changed. */
  ghost predicate OnlyLine(s: State, s': State) {
    s' == s.(reqs := s'.reqs, waiting := s'.waiting, lock := s'.lock)
  }

  /** An unknown model is refused; a known one enters if the servers are fit, and otherwise checks them. */
  lemma ArriveOutcome(cfg: Config, ss: seq<State>, acts: seq<Action>, i: nat)
    requires Run(cfg, ss, acts) && i < |acts| && acts[i].Arrive?
    ensures var s, s', t, name := ss[i], ss[i + 1], acts[i].t, acts[i].name;
            && OnlyLine(s, s') && s'.lock == s.lock && t !in s.reqs && t in s'.reqs
            && if name in cfg.catalogue && s.fit then Enters(cfg, s, s', t, name)
               else
                 && s'.reqs == s.reqs[t := s'.reqs[t]] && s'.waiting == s.waiting && s'.reqs[t].name == name
                 && s'.reqs[t].pc == if name in cfg.catalogue then Checking else Ended(Refused(UnknownModel))
  {
    assert Step(cfg, ss[i], acts[i], ss[i + 1]);
  }

  /** Under the lock the servers' fitness is tested again: only if they are still unfit does a survey begin. */
  lemma CheckOutcome(cfg: Config, ss: seq<State>, acts: seq<Action>, i: nat)
    requires Run(cfg, ss, acts) && i < |acts| && acts[i].TakeCheckLock?
    ensures var s, s', t := ss[i], ss[i + 1], acts[i].t;
            && OnlyLine(s, s') && t in s.reqs && t in s'.reqs
            && if s.fit then Enters(cfg, s, s', t, s.reqs[t].name) && s'.lock == s.lock
               else s'.reqs == s.reqs[t := s.reqs[t].(pc := Surveying(s.now))] && s'.lock == Some(t) && s'.waiting == s.waiting
  {
    assert Step(cfg, ss[i], acts[i], ss[i + 1]) && RequestShape(cfg, |ss[i].recs|, ss[i].reqs[acts[i].t]);
  }

  /** After the re-inspection the request enters if the servers are fit, and otherwise is refused. */
  lemma CheckedOutcome(cfg: Config, ss: seq<State>, acts: seq<Action>, i: nat)
    requires Run(cfg, ss, acts) && i < |acts| && acts[i].TrackDone?
    ensures var s, s', t := ss[i], ss[i + 1], acts[i].t;
            && OnlyLine(s, s') && t in s.reqs && t in s'.reqs && s'.lock.None?
            && if s.fit then Enters(cfg, s, s', t, s.reqs[t].name)
               else s'.reqs == s.reqs[t := s.reqs[t].(pc := Ended(Refused(RouterUnfit)))] && s'.waiting == s.waiting
  {
    assert Step(cfg, ss[i], acts[i], ss[i + 1]) && RequestShape(cfg, |ss[i].recs|, ss[i].reqs[acts[i].t]);
  }

  // ----- Leaving

  /** A woken joiner is not queued any more, and is admitted or fails with the model's error. */
  lemma WakeOutcome(cfg: Config, ss: seq<State>, acts: seq<Action>, i: nat)
    requires Run(cfg, ss, acts) && i < |acts| && acts[i].JoinWake?
    ensures var s, s', t := ss[i], ss[i + 1], acts[i].t;
            && t in s.reqs && s.reqs[t].pc.Joining? && OnlyRequest(s, s', t) && s'.waiting == s.waiting && s'.lock == s.lock
            && var r := s.reqs[t].pc.rid;
            && OneChanged(s.recs, s'.recs, r) && s.recs[r].ready
            && var rec := s.recs[r].(queued := s.recs[r].queued - 1);
            if rec.error.Some? then s'.reqs[t].pc == Ended(Refused(LoadFailed(rec.error.value))) && s'.recs[r] == rec
            else s'.reqs[t].pc == Admitted(r) && s'.recs[r] == rec.(active := rec.active + 1)
  {
    assert Step(cfg, ss[i], acts[i], ss[i + 1]) && RequestShape(cfg, |ss[i].recs|, ss[i].reqs[acts[i].t]);
  }

  /** The end of an admission gives it back, and counts as activity. */
  lemma ReleaseOutcome(cfg: Config, ss: seq<State>, acts: seq<Action>, i: nat)
    requires Run(cfg, ss, acts) && i < |acts| && acts[i].Release?
    ensures var s, s', t := ss[i], ss[i + 1], acts[i].t;
            && t in s.reqs && s.reqs[t].pc.Admitted? && OnlyRequest(s, s', t) && s'.waiting == s.waiting && s'.lock == s.lock
            && s'.reqs[t].pc == Ended(Finished)
            && var r := s.reqs[t].pc.rid;
            OneChanged(s.recs, s'.recs, r) && s'.recs[r] == s.recs[r].(active := s.recs[r].active - 1, lastActivity := s.now)
  {
    assert Step(cfg, ss[i], acts[i], ss[i + 1]) && RequestShape(cfg, |ss[i].recs|, ss[i].reqs[acts[i].t]);
  }

  /** Cancellation gives back whatever the request held: its ticket, the lock, its place among the joiners. */
  lemma CancelOutcome(cfg: Config, ss: seq<State>, acts: seq<Action>, i: nat)
    requires Run(cfg, ss, acts) && i < |acts| && acts[i].Cancel?
    ensures var s, s', t := ss[i], ss[i + 1], acts[i].t;
            && OnlyRequest(s, s', t) && s'.reqs[t].pc == Ended(Cancelled) && LeftLine(s.waiting, s'.waiting, t)
            && s'.lock == (if s.lock == Some(t) then None else s.lock)
            && if s.reqs[t].pc.Joining? then
                 var r := s.reqs[t].pc.rid;
                 OneChanged(s.recs, s'.recs, r) && s'.recs[r] == s.recs[r].(queued := s.recs[r].queued - 1)
               else s'.recs == s.recs
  {
    var s, t := ss[i], acts[i].t;
    RunHasBase(cfg, ss, acts, i);
    assert Step(cfg, s, acts[i], ss[i + 1]) && RequestShape(cfg, |s.recs|, s.reqs[t]);
    RemovesTicket(s.waiting, t);
    assert s.lock == Some(t) ==> Locking(s.reqs[t].pc);
  }

  /** A sleeper goes back to the head of its loop. */
  lemma WakeUpOutcome(cfg: Config, ss: seq<State>, acts: seq<Action>, i: nat)
    requires Run(cfg, ss, acts) && i < |acts| && acts[i].Wake?
    ensures var s, s', t := ss[i], ss[i + 1], acts[i].t;
            t in s.reqs && s' == s.(reqs := s.reqs[t := s.reqs[t].(pc := Looking)])
  {
    assert Step(cfg, ss[i], acts[i], ss[i + 1]);
  }

  // ----- Re-inspection

  ghost predicate Found(survey: Survey, id: string) {
    exists a :: a in survey.found && a.id == id
  }

  /** The adopted record of a found model: as if just used when the survey began, and otherwise untouched. */
  ghost predicate AdoptedRecord(cfg: Config, rec: Record, a: Adopted, began: real) {
    && a.id in cfg.catalogue && rec.variant == cfg.catalogue[a.id] && rec.lastActivity == began && rec.ready == a.ready
    && rec.active == 0 && rec.queued == 0 && rec.decode.None? && rec.error.None? && !rec.leaving
    && rec.loader.None? && rec.unloader.None? && rec.loads == 0 && !rec.unloaded
  }

  /** A model is tracked after the merge if it was found, or is tracked and in use, in transit or out of sight. */
  ghost predicate Belongs(s: State, survey: Survey, id: string)
    requires LoadedShape(s.recs, s.loaded)
  {
    || Found(survey, id)
    || (id in s.loaded
        && var rec := s.recs[s.loaded[id]];
        rec.active != 0 || rec.leaving || !rec.ready || rec.variant.backend in survey.unreachable)
  }

  /** What a model's record is after the merge: the one it had, unless it was found and failed, or is new. */
  ghost predicate KeptOrRenewed(s: State, s': State, survey: Survey, id: string)
    requires LoadedShape(s.recs, s.loaded) && id in s'.loaded
  {
    if id in s.loaded && !(Found(survey, id) && s.recs[s.loaded[id]].error.Some?) then s'.loaded[id] == s.loaded[id]
    else |s.recs| <= s'.loaded[id] < |s'.recs|
  }

  ghost predicate RenewedAt(cfg: Config, s': State, survey: Survey, began: real, r: Rid)
    requires r < |s'.recs|
  {
    exists a :: a in survey.found && AdoptedRecord(cfg, s'.recs[r], a, began) && a.id in s'.loaded && s'.loaded[a.id] == r
  }

  /** The merge, told model by model. */
  ghost predicate Merges(cfg: Config, s: State, s': State, t: Tid, survey: Survey)
    requires LoadedShape(s.recs, s.loaded)
  {
    && t in s.reqs && s.reqs[t].pc.Surveying? && OnlyMoved(s, s', t)
    && (forall id :: id in s'.loaded <==> Belongs(s, survey, id))
    && (forall id | id in s'.loaded :: KeptOrRenewed(s, s', survey, id))
    && |s.recs| <= |s'.recs| && (forall r | 0 <= r < |s.recs| :: s'.recs[r] == s.recs[r])
    && (forall r | |s.recs| <= r < |s'.recs| :: RenewedAt(cfg, s', survey, s.reqs[t].pc.began, r))
    && s'.fit == !survey.problems
    && s'.reqs[t].pc.Tracking? && |s'.reqs[t].pc.todo| == |s'.recs| - |s.recs|
    && (forall i | 0 <= i < |s'.reqs[t].pc.todo| :: s'.reqs[t].pc.todo[i] == |s.recs| + i)
    && s'.waiting == s.waiting && s'.lock == s.lock && s'.tasks == s.tasks && s'.startup == s.startup && s'.now == s.now
  }

  lemma FoundIs(survey: Survey, id: string)
    ensures Found(survey, id) <==> id in FoundIds(survey.found)
  {
  }

  lemma MembersAre(s: State, survey: Survey, id: string)
    requires LoadedShape(s.recs, s.loaded)
    ensures id in Merged(s.recs, s.loaded, survey) <==> Belongs(s, survey, id)
  {
    FoundIs(survey, id);
  }

  lemma KeptIs(cfg: Config, s: State, t: Tid, survey: Survey, id: string)
    requires LoadedShape(s.recs, s.loaded) && t in s.reqs && s.reqs[t].pc.Surveying?
    requires FoundIds(survey.found) <= cfg.catalogue.Keys && id in Merged(s.recs, s.loaded, survey)
    ensures var s' := DoSurveyed(cfg, s, t, survey); id in s'.loaded && KeptOrRenewed(s, s', survey, id)
  {
    FoundIs(survey, id);
    MergedAt(cfg, s, survey, id);
    SurveyedSize(cfg, s, t, survey);
  }

  lemma RenewedIs(cfg: Config, s: State, t: Tid, survey: Survey, r: Rid)
    requires LoadedShape(s.recs, s.loaded) && t in s.reqs && s.reqs[t].pc.Surveying?
    requires FoundIds(survey.found) <= cfg.catalogue.Keys && ApartIds(survey.found)
    requires |s.recs| <= r < |DoSurveyed(cfg, s, t, survey).recs|
    ensures RenewedAt(cfg, DoSurveyed(cfg, s, t, survey), survey, s.reqs[t].pc.began, r)
  {
    SurveyedSize(cfg, s, t, survey);
    var i := r - |s.recs|;
    var a := Renewed(s.recs, s.loaded, survey.found)[i];
    SurveyedRecord(cfg, s, t, survey, i, r);
    MergedNew(s.recs, s.loaded, survey, i);
    assert a in Renewed(s.recs, s.loaded, survey.found);
    assert AdoptedRecord(cfg, DoSurveyed(cfg, s, t, survey).recs[r], a, s.reqs[t].pc.began);
  }

  lemma SurveyedRest(cfg: Config, s: State, t: Tid, survey: Survey)
    requires LoadedShape(s.recs, s.loaded) && t in s.reqs && s.reqs[t].pc.Surveying?
    requires FoundIds(survey.found) <= cfg.catalogue.Keys
    ensures var s' := DoSurveyed(cfg, s, t, survey);
            && OnlyMoved(s, s', t) && s'.loaded == Merged(s.recs, s.loaded, survey)
            && |s.recs| <= |s'.recs| && (forall r | 0 <= r < |s.recs| :: s'.recs[r] == s.recs[r])
            && s'.reqs[t].pc == Tracking(From(|s.recs|, |s'.recs| - |s.recs|)) && s'.fit == !survey.problems
            && s'.waiting == s.waiting && s'.lock == s.lock && s'.tasks == s.tasks && s'.startup == s.startup
            && s'.now == s.now
  {
  }

  lemma MergesIs(cfg: Config, s: State, t: Tid, survey: Survey, s': State)
    requires LoadedShape(s.recs, s.loaded) && t in s.reqs && s.reqs[t].pc.Surveying?
    requires FoundIds(survey.found) <= cfg.catalogue.Keys && ApartIds(survey.found)
    requires s' == DoSurveyed(cfg, s, t, survey)
    ensures Merges(cfg, s, s', t, survey)
  {
    SurveyedRest(cfg, s, t, survey);
    forall id
      ensures id in s'.loaded <==> Belongs(s, survey, id)
      ensures id in s'.loaded ==> KeptOrRenewed(s, s', survey, id)
    {
      MembersAre(s, survey, id);
      if id in s'.loaded { KeptIs(cfg, s, t, survey, id); }
    }
    forall r | |s.recs| <= r < |s'.recs|
      ensures RenewedAt(cfg, s', survey, s.reqs[t].pc.began, r)
    {
      RenewedIs(cfg, s, t, survey, r);
    }
  }

  /**
   Merging a survey keeps a model if it was found, is in use or in transit, or is out of sight, and
   drops every other; it keeps the record it had, unless that was of a failed load and the model is
   found again, and gives every other found model a record of its own.
   */
  lemma SurveyOutcome(cfg: Config, ss: seq<State>, acts: seq<Action>, i: nat)
    requires Run(cfg, ss, acts) && i < |acts| && acts[i].Surveyed?
    ensures LoadedShape(ss[i].recs, ss[i].loaded) && Merges(cfg, ss[i], ss[i + 1], acts[i].t, acts[i].survey)
  {
    assert Step(cfg, ss[i], acts[i], ss[i + 1]);
    MergesIs(cfg, ss[i], acts[i].t, acts[i].survey, ss[i + 1]);
  }

  // ----- Tracking

  /** An adopted model gets a baseline if it is ready, and otherwise a task that watches its load. */
  ghost predicate Tracks(s: State, s': State, r: Rid, decode: Option<int>) {
    && OneChanged(s.recs, s'.recs, r) && s'.loaded == s.loaded && s'.may == s.may && s'.held == s.held
    && s'.waiting == s.waiting && s'.lock == s.lock && s'.fit == s.fit && s'.now == s.now
    && if s.recs[r].ready then
         s'.tasks == s.tasks && s'.recs[r] == (if decode.Some? then s.recs[r].(decode := decode) else s.recs[r])
       else
         s'.tasks == s.tasks + [Task(r, [], 0, Loading, true)] && s'.recs[r] == s.recs[r].(loader := Some(|s.tasks|))
  }

  /** One round of `track`, at the start or after a re-inspection. */
  lemma TrackOutcome(cfg: Config, ss: seq<State>, acts: seq<Action>, i: nat)
    requires Run(cfg, ss, acts) && i < |acts| && (acts[i].TrackNext? || acts[i].StartupTrack?)
    ensures var s, s' := ss[i], ss[i + 1];
            if acts[i].TrackNext? then
              var t := acts[i].t;
              && t in s.reqs && s.reqs[t].pc.Tracking? && s.reqs[t].pc.todo != []
              && Tracks(s, s', s.reqs[t].pc.todo[0], acts[i].decode) && s'.startup == s.startup
              && s'.reqs == s.reqs[t := s.reqs[t].(pc := Tracking(s.reqs[t].pc.todo[1..]))]
            else
              && s.startup != [] && Tracks(s, s', s.startup[0], acts[i].decode)
              && s'.reqs == s.reqs && s'.startup == s.startup[1..]
  {
    assert Step(cfg, ss[i], acts[i], ss[i + 1]);
    if acts[i].TrackNext? { assert RequestShape(cfg, |ss[i].recs|, ss[i].reqs[acts[i].t]); }
  }

  // ----- Background tasks

  /** Only one task, some records, what is tracked and what servers may hold have changed. */
  ghost predicate OnlyTask(s: State, s': State, k: Kid) {
    && k < |s.tasks| && |s'.tasks| == |s.tasks| && s'.tasks == s.tasks[k := s'.tasks[k]]
    && |s'.recs| == |s.recs| && s'.reqs == s.reqs && s'.waiting == s.waiting && s'.lock == s.lock
    && s'.startup == s.startup && s'.now == s.now && s'.held == s.held
  }

  ghost predicate Others(recs: seq<Record>, recs': seq<Record>, changed: set<Rid>) {
    |recs'| == |recs| && forall r | 0 <= r < |recs| && r !in changed :: recs'[r] == recs[r]
  }

  /** The load is asked for, once every victim is gone. */
  ghost predicate AsksLoad(s: State, s': State, k: Kid, m: Rid) {
    k < |s'.tasks| && m < |s.recs| && m < |s'.recs| && s'.tasks[k].stage.Loading?
    && s'.recs[m] == s.recs[m].(loads := s.recs[m].loads + 1)
  }

  /** A swap begins with its first unload, or with the load if there is nothing to unload. */
  lemma StartOutcome(cfg: Config, ss: seq<State>, acts: seq<Action>, i: nat)
    requires Run(cfg, ss, acts) && i < |acts| && acts[i].StartSwap?
    ensures var s, s', k := ss[i], ss[i + 1], acts[i].k;
            && OnlyTask(s, s', k) && s'.loaded == s.loaded && s'.fit == s.fit && s.tasks[k].model < |s.recs|
            && var task := s.tasks[k];
            if task.victims == [] then
              && AsksLoad(s, s', k, task.model) && Others(s.recs, s'.recs, {task.model})
              && s'.tasks[k] == task.(stage := Loading) && s'.may == s.may + {s.recs[task.model].variant.id}
            else s'.recs == s.recs && s'.tasks[k] == task.(stage := Unloading) && s'.may == s.may
  {
    assert Step(cfg, ss[i], acts[i], ss[i + 1]) && TaskShape(|ss[i].recs|, ss[i].tasks[acts[i].k]);
  }

  /** A failed unload restores every victim, and gives the model up with its error, releasing its waiters. */
  lemma UnloadFailedOutcome(cfg: Config, ss: seq<State>, acts: seq<Action>, i: nat)
    requires Run(cfg, ss, acts) && i < |acts| && acts[i].UnloadFailed?
    ensures var s, s', k := ss[i], ss[i + 1], acts[i].k;
            && OnlyTask(s, s', k) && s'.may == s.may && s'.fit == s.fit && s.tasks[k].model < |s.recs|
            && var task, id := s.tasks[k], s.recs[s.tasks[k].model].variant.id;
            && (forall r | 0 <= r < |s.recs| && r !in task.victims && r != task.model :: s'.recs[r] == s.recs[r])
            && (forall r | 0 <= r < |s.recs| && r in task.victims && r != task.model ::
                  s'.recs[r] == s.recs[r].(leaving := false, unloader := None))
            && if id in s.loaded then
                 && s'.tasks[k] == task.(stage := Over) && s'.loaded == s.loaded - {id}
                 && s'.recs[task.model].error == Some(acts[i].error) && s'.recs[task.model].ready
               else s'.tasks[k] == task.(stage := Crashed) && s'.loaded == s.loaded
  {
    assert Step(cfg, ss[i], acts[i], ss[i + 1]) && TaskShape(|ss[i].recs|, ss[i].tasks[acts[i].k]);
  }

  /** A returned load goes on to its baseline; a failed one records its error, and the server is asked. */
  lemma LoadOutcome(cfg: Config, ss: seq<State>, acts: seq<Action>, i: nat)
    requires Run(cfg, ss, acts) && i < |acts| && acts[i].LoadReturned?
    ensures var s, s', k := ss[i], ss[i + 1], acts[i].k;
            && OnlyTask(s, s', k) && s'.loaded == s.loaded && s'.may == s.may && s'.fit == s.fit
            && var m, failure := s.tasks[k].model, acts[i].failure;
            && OneChanged(s.recs, s'.recs, m)
            && if failure.None? then s'.recs == s.recs && s'.tasks[k] == s.tasks[k].(stage := Baseline)
               else s'.recs[m] == s.recs[m].(error := failure) && s'.tasks[k] == s.tasks[k].(stage := Confirming)
  {
    assert Step(cfg, ss[i], acts[i], ss[i + 1]) && TaskShape(|ss[i].recs|, ss[i].tasks[acts[i].k]);
  }

  /** A load is over: the model is ready, and a swap counts it as used now. */
  ghost predicate Finishes(s: State, s': State, k: Kid, decode: Option<int>) {
    && OnlyTask(s, s', k)
    && var m := s.tasks[k].model;
    && OneChanged(s.recs, s'.recs, m) && s'.tasks[k] == s.tasks[k].(stage := Over)
    && s'.recs[m] == s.recs[m].(
         ready := true, decode := if decode.Some? then decode else s.recs[m].decode,
         lastActivity := if s.tasks[k].adopted then s.recs[m].lastActivity else s.now)
  }

  /** A successful load ends with the baseline, if it can be read. */
  lemma BaselineOutcome(cfg: Config, ss: seq<State>, acts: seq<Action>, i: nat)
    requires Run(cfg, ss, acts) && i < |acts| && acts[i].BaselineRead?
    ensures var s, s' := ss[i], ss[i + 1];
            Finishes(s, s', acts[i].k, acts[i].decode) && s'.loaded == s.loaded && s'.may == s.may && s'.fit == s.fit
  {
    assert Step(cfg, ss[i], acts[i], ss[i + 1]) && TaskShape(|ss[i].recs|, ss[i].tasks[acts[i].k]);
  }

  /**
   After a failed load the model is dropped if the server confirms that it is gone and its record
   still stands for it; if the server does not, the servers count as unfit.
   */
  lemma ConfirmOutcome(cfg: Config, ss: seq<State>, acts: seq<Action>, i: nat)
    requires Run(cfg, ss, acts) && i < |acts| && acts[i].Confirmed?
    ensures var s, s', k := ss[i], ss[i + 1], acts[i].k;
            && Finishes(s, s', k, None)
            && var m, id := s.tasks[k].model, s.recs[s.tasks[k].model].variant.id;
            && s'.fit == (s.fit && acts[i].gone)
            && if acts[i].gone && id in s.loaded && s.loaded[id] == m then
                 s'.loaded == s.loaded - {id} && s'.may == s.may - {id}
               else s'.loaded == s.loaded && s'.may == s.may
  {
    assert Step(cfg, ss[i], acts[i], ss[i + 1]) && TaskShape(|ss[i].recs|, ss[i].tasks[acts[i].k]);
  }

  /** A returned unload deletes its victim's key and goes on to the next unload, or to the load. */
  lemma UnloadOutcome(cfg: Config, ss: seq<State>, acts: seq<Action>, i: nat)
    requires Run(cfg, ss, acts) && i < |acts| && acts[i].Unloaded?
    ensures var s, s', k := ss[i], ss[i + 1], acts[i].k;
            && OnlyTask(s, s', k) && s'.fit == s.fit && s.tasks[k].model < |s.recs|
            && s.tasks[k].next < |s.tasks[k].victims| && s.tasks[k].victims[s.tasks[k].next] < |s.recs|
            && var task := s.tasks[k];
            var v, m := task.victims[task.next], task.model;
            var id := s.recs[v].variant.id;
            && v != m && Others(s.recs, s'.recs, {v, m}) && s'.recs[v] == s.recs[v].(unloaded := true)
            && if id !in s.loaded then
                 s'.tasks[k] == task.(stage := Crashed) && s'.loaded == s.loaded && s'.recs[m] == s.recs[m]
               else
                 && s'.loaded == s.loaded - {id}
                 && if task.next + 1 < |task.victims| then
                      s'.tasks[k] == task.(next := task.next + 1) && s'.recs[m] == s.recs[m] && s'.may == s.may - {id}
                    else
                      && s'.tasks[k] == task.(next := task.next + 1, stage := Loading) && AsksLoad(s, s', k, m)
                      && s'.may == s.may - {id} + {s.recs[m].variant.id}
  {
    var s, k := ss[i], acts[i].k;
    RunHasBase(cfg, ss, acts, i);
    assert Step(cfg, s, acts[i], ss[i + 1]) && TaskShape(|s.recs|, s.tasks[k]);
    TaskFacts(cfg, s, k);
    assert s.tasks[k].victims[s.tasks[k].next] in s.tasks[k].victims;
  }
}
