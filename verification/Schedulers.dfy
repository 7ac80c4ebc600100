/**
 The scheduler over its mutable records (`LoadedModel` and `Scheduler`,
 src/model_broker/scheduler.py). Every method is one stretch of the source between two awaits,
 and is proved to take the machine's step on the abstract state. A suspended coroutine is a
 frame; its references to records are their positions in `records`, which only grows.
 */
module Schedulers {
  import opened Wrappers
  import opened Claims
  import opened Machine
  import opened Surveys
  import opened SurveySafety
  import opened LineSteps
  import opened Shapes

  class LoadedModel {
    const variant: Variant
    const rid: Rid
    var lastActivity: real
    var active: int
    var queued: int
    var decodeCalls: Option<int>
    var ready: bool
    var error: Option<string>
    var leaving: bool
    // History that the source does not keep; no decision reads it.
    var loader: Option<Kid>
    var unloader: Option<Kid>
    var loads: nat
    var unloaded: bool

    constructor (variant: Variant, now: real, ready: bool, rid: Rid)
      ensures Abs() == Fresh(variant, now, ready) && this.rid == rid
    {
      this.variant, this.rid := variant, rid;
      lastActivity, active, queued, decodeCalls := now, 0, 0, None;
      this.ready, error, leaving := ready, None, false;
      loader, unloader, loads, unloaded := None, None, 0, false;
    }

    function Abs(): Record
      reads this
    {
      Record(variant, lastActivity, active, queued, decodeCalls, ready, error, leaving, loader, unloader, loads, unloaded)
    }
  }

  ghost function AbsOf(models: seq<LoadedModel>): (recs: seq<Record>)
    reads models
    ensures |recs| == |models| && forall i | 0 <= i < |models| :: recs[i] == models[i].Abs()
  {
    seq(|models|, i requires 0 <= i < |models| reads models => models[i].Abs())
  }

  /** The record of an unloaded victim, which is not held any more. */
  ghost function Returned(s: State, v: Rid): State
    requires v < |s.recs|
  {
    SetRec(s, v, s.recs[v].(unloaded := true)).(may := s.may - {Id(s, v)})
  }

  /** The next victim, or the load, of a swap that has unloaded one more. */
  ghost function Proceeded(s: State, k: Kid, id: string): State
    requires k < |s.tasks| && TaskShape(|s.recs|, s.tasks[k])
  {
    var s' := CrossedOff(s, k, id);
    if s.tasks[k].next + 1 == |s.tasks[k].victims| then IssueLoad(s', k) else s'
  }

  ghost function CrossedOff(s: State, k: Kid, id: string): State
    requires k < |s.tasks|
  {
    SetTask(s.(loaded := s.loaded - {id}), k, s.tasks[k].(next := s.tasks[k].next + 1))
  }

  ghost function Deleted(s: State, k: Kid, id: string): State
    requires k < |s.tasks| && TaskShape(|s.recs|, s.tasks[k])
  {
    if id in s.loaded then Proceeded(s, k, id) else SetTask(s, k, s.tasks[k].(stage := Crashed))
  }

  lemma UnloadedIs(s: State, k: Kid)
    requires k < |s.tasks| && TaskShape(|s.recs|, s.tasks[k]) && s.tasks[k].stage.Unloading?
    ensures var v := s.tasks[k].victims[s.tasks[k].next];
            DoUnloaded(s, k) == Deleted(Returned(s, v), k, Id(s, v))
  {
  }

  lemma OneMore(models: seq<LoadedModel>, model: LoadedModel)
    ensures AbsOf(models + [model]) == AbsOf(models) + [model.Abs()]
  {
  }

  /** The survey's records are the catalogue's models as adopted now. */
  ghost predicate AdoptedAt(cfg: Config, found: Inspection, now: real) {
    forall id | id in found.loaded ::
      id in cfg.catalogue && found.loaded[id] == Fresh(cfg.catalogue[id], now, found.loaded[id].ready)
  }

  predicate StartsAs(found: Inspection, s: State, r: Rid) {
    r < |s.recs| && var id := s.recs[r].variant.id;
    id in found.loaded && s.recs[r] == found.loaded[id] && id in s.loaded && s.loaded[id] == r
  }

  lemma AllStart(cfg: Config, found: Inspection, s: State)
    requires AdoptedAt(cfg, found, s.now) && Machine.Valid(cfg) && s.loaded.Keys == found.loaded.Keys
    requires forall r | 0 <= r < |s.recs| :: StartsAs(found, s, r)
    requires forall id | id in s.loaded :: s.loaded[id] < |s.recs| && s.recs[s.loaded[id]].variant.id == id
    requires s.waiting == [] && s.reqs == map[] && s.tasks == [] && s.lock == None && s.startup == From(0, |s.recs|)
    ensures StartsFrom(cfg, found, s)
  {
    forall r | 0 <= r < |s.recs|
      ensures InCatalogue(cfg, s.recs[r].variant) && Tracked(s.recs, s.loaded, r)
      ensures s.recs[r] == Fresh(s.recs[r].variant, s.now, s.recs[r].ready)
    {
      assert StartsAs(found, s, r);
    }
    forall id | id in s.loaded
      ensures s.recs[s.loaded[id]] == found.loaded[id]
    {
      assert StartsAs(found, s, s.loaded[id]);
    }
  }

  function RidsOf(loaded: map<string, LoadedModel>): map<string, Rid> {
    map id | id in loaded :: loaded[id].rid
  }

  class Scheduler {
    const cfg: Config
    var records: seq<LoadedModel>
    var loaded: map<string, LoadedModel>
    var fit: bool
    var waiting: seq<Ticket>
    var frames: map<Tid, Request>
    var tasks: seq<Task>
    var lock: Option<Tid>
    var startup: seq<Rid>
    var now: real
    ghost var may: set<string>
    ghost var held: set<string>

    ghost function Abs(): State
      reads this, records
    {
      State(AbsOf(records), RidsOf(loaded), fit, waiting, frames, tasks, lock, startup, now, may, held)
    }

    /** The records' identities, and where the tracked ones stand. */
    ghost predicate Linked()
      reads this, records
    {
      && (forall i | 0 <= i < |records| :: records[i].rid == i)
      && (forall id | id in loaded :: loaded[id].rid < |records| && records[loaded[id].rid] == loaded[id]
                                   && loaded[id].variant.id == id)
    }

    /** A scheduler that has just adopted what a survey found, with everything still to track. */
    constructor (cfg: Config, found: Inspection, now: real, ghost may: set<string>, ghost held: set<string>)
      requires Machine.Valid(cfg) && AdoptedAt(cfg, found, now)
      ensures this.cfg == cfg && Linked() && StartsFrom(cfg, found, Abs())
      ensures this.now == now && this.may == may && this.held == held && fit == (found.problems == {})
    {
      this.cfg, this.now, this.may, this.held := cfg, now, may, held;
      records, loaded, fit := [], map[], found.problems == {};
      waiting, frames, tasks, lock := [], map[], [], None;
      startup := From(0, |found.loaded|);
      new;
      AdoptAll(found);
      StartedRight(found);
    }

    /** The record is as it was adopted, and stands for its model. */
    ghost predicate Starts(found: Inspection, model: LoadedModel)
      reads this`loaded, model
    {
      var id := model.variant.id;
      id in found.loaded && model.Abs() == found.loaded[id] && id in loaded && loaded[id] == model
    }

    ghost predicate AllStarted(found: Inspection)
      reads this`loaded, this`records, records
    {
      forall i | 0 <= i < |records| :: Starts(found, records[i])
    }

    /** One adopted model. */
    method StartWith(id: string, found: Inspection)
      requires Linked() && Machine.Valid(cfg) && AdoptedAt(cfg, found, now) && AllStarted(found) && Untouched(found)
      requires id in found.loaded && id !in loaded
      modifies this`records, this`loaded
      ensures Linked() && AllStarted(found) && Untouched(found)
      ensures loaded.Keys == old(loaded.Keys) + {id} && |records| == |old(records)| + 1
    {
      var model := new LoadedModel(cfg.catalogue[id], now, found.loaded[id].ready, |records|);
      records := records + [model];
      loaded := loaded[id := model];
      forall i | 0 <= i < |records|
        ensures Starts(found, records[i])
      {
        if i < |old(records)| { assert old(Starts(found, records[i])); }
      }
    }

    method AdoptAll(found: Inspection)
      requires Linked() && Machine.Valid(cfg) && AdoptedAt(cfg, found, now) && Untouched(found)
      requires records == [] && loaded == map[]
      modifies this`records, this`loaded
      ensures Linked() && AllStarted(found) && Untouched(found)
      ensures loaded.Keys == found.loaded.Keys && |records| == |found.loaded|
    {
      var left := found.loaded.Keys;
      while left != {}
        invariant Linked() && AllStarted(found) && Untouched(found)
        invariant left <= found.loaded.Keys && forall id :: id in loaded <==> id in found.loaded && id !in left
        invariant |records| + |left| == |found.loaded|
        decreases |left|
      {
        var id :| id in left;
        StartWith(id, found);
        left := left - {id};
      }
    }

    ghost predicate Untouched(found: Inspection)
      reads this`fit, this`waiting, this`frames, this`tasks, this`lock, this`startup
    {
      && fit == (found.problems == {})
      && waiting == [] && frames == map[] && tasks == [] && lock == None && startup == From(0, |found.loaded|)
    }

    lemma AllStartAs(found: Inspection)
      requires Linked() && AllStarted(found)
      ensures forall r | 0 <= r < |Abs().recs| :: StartsAs(found, Abs(), r)
    {
      forall r | 0 <= r < |Abs().recs|
        ensures StartsAs(found, Abs(), r)
      {
        assert Starts(found, records[r]) && Abs().recs[r] == records[r].Abs();
      }
    }

    lemma StartedRight(found: Inspection)
      requires Linked() && loaded.Keys == found.loaded.Keys && |records| == |found.loaded|
      requires Machine.Valid(cfg) && AdoptedAt(cfg, found, now) && Untouched(found)
      requires AllStarted(found)
      ensures StartsFrom(cfg, found, Abs())
    {
      AllStartAs(found);
      AllStart(cfg, found, Abs());
    }

    // ----- Waiting requests

    method MoveTo(t: Tid, pc: Pc)
      requires t in frames
      modifies this`frames
      ensures Abs() == SetPc(old(Abs()), t, pc)
    {
      frames := frames[t := frames[t].(pc := pc)];
    }

    method RemoveTicket(t: Tid)
      modifies this`waiting
      ensures Abs() == old(Abs()).(waiting := Remove(old(waiting), t))
    {
      waiting := Remove(waiting, t);
    }

    /** The rest of `acquire`'s loop for a request that could not be placed. */
    method SettleFor(t: Tid, blocked: Blocked)
      requires t in frames
      modifies this`frames, this`waiting
      ensures Abs() == Settle(cfg, old(Abs()), t, blocked)
    {
      if blocked.until.Some? && blocked.until.value <= now {
        MoveTo(t, Looking);
      } else if now >= frames[t].deadline {
        MoveTo(t, Ended(Refused(ResourceBusy(blocked.reason, RetryAfter(blocked.until, now)))));
        RemoveTicket(t);
      } else {
        var recheck := if blocked.until.Some? && blocked.until.value != 0.0 then blocked.until.value else now + cfg.poll;
        MoveTo(t, Sleeping(if recheck < frames[t].deadline then recheck else frames[t].deadline));
      }
    }

    /** Nothing but one record has changed. */
    twostate lemma OneRecord(model: LoadedModel)
      requires old(Linked()) && unchanged(this) && model.rid < |records| && records[model.rid] == model
      requires forall i | 0 <= i < |records| && records[i] != model :: unchanged(records[i])
      ensures Abs() == SetRec(old(Abs()), model.rid, model.Abs())
    {
      forall i | 0 <= i < |records|
        ensures AbsOf(records)[i] == old(AbsOf(records))[model.rid := model.Abs()][i]
      {
        if i != model.rid { assert records[i].rid == i; }
      }
    }

    /** `join`, up to its wait. */
    method JoinModel(t: Tid, model: LoadedModel)
      requires Linked() && t in frames && model.rid < |records| && records[model.rid] == model
      modifies this`frames, model
      ensures Abs() == Join(old(Abs()), t, model.rid) && Linked()
    {
      if !model.ready {
        model.queued := model.queued + 1;
        OneRecord(model);
        MoveTo(t, Joining(model.rid));
      } else {
        AdmitOrFail(t, model);
      }
    }

    /** The rest of `join`, once the model is ready. */
    method AdmitOrFail(t: Tid, model: LoadedModel)
      requires Linked() && t in frames && model.rid < |records| && records[model.rid] == model
      modifies this`frames, model
      ensures Abs() == JoinReady(old(Abs()), t, model.rid) && Linked()
    {
      if model.error.Some? {
        MoveTo(t, Ended(Refused(LoadFailed(model.error.value))));
      } else {
        model.active := model.active + 1;
        OneRecord(model);
        MoveTo(t, Admitted(model.rid));
      }
    }

    // ----- Arrival and departure

    method EnterLine(t: Tid, name: string)
      requires name in cfg.catalogue
      modifies this`frames, this`waiting
      ensures Abs() == Enter(cfg, old(Abs()), t, name)
    {
      frames := frames[t := Request(name, now + cfg.maxWait, Looking)];
      waiting := waiting + [Ticket(t, cfg.catalogue[name])];
    }

    method Arrive(t: Tid, name: string)
      requires Linked()
      modifies this`frames, this`waiting
      ensures Linked() && Abs() == DoArrive(cfg, old(Abs()), t, name)
    {
      if name !in cfg.catalogue {
        frames := frames[t := Request(name, 0.0, Ended(Refused(UnknownModel)))];
      } else if fit {
        EnterLine(t, name);
      } else {
        frames := frames[t := Request(name, 0.0, Checking)];
      }
    }

    /** `check_router`, once it holds the lock. */
    method TakeCheckLock(t: Tid)
      requires Linked() && t in frames && frames[t].name in cfg.catalogue
      modifies this`frames, this`waiting, this`lock
      ensures Linked() && Abs() == DoTakeCheckLock(cfg, old(Abs()), t)
    {
      if fit {
        EnterLine(t, frames[t].name);
      } else {
        MoveTo(t, Surveying(now));
        lock := Some(t);
      }
    }

    method Wake(t: Tid)
      requires Linked() && t in frames
      modifies this`frames
      ensures Linked() && Abs() == SetPc(old(Abs()), t, Looking)
    {
      MoveTo(t, Looking);
    }

    /** One joiner fewer. */
    method Unqueue(model: LoadedModel)
      requires Linked() && model.rid < |records| && records[model.rid] == model
      modifies model
      ensures Linked() && Abs() == SetRec(old(Abs()), model.rid, old(model.Abs()).(queued := old(model.queued) - 1))
    {
      model.queued := model.queued - 1;
      OneRecord(model);
    }

    /** The model waited for is ready. */
    method JoinWake(t: Tid)
      requires Linked() && t in frames && frames[t].pc.Joining? && frames[t].pc.rid < |records|
      modifies this`frames, records
      ensures Linked() && Abs() == DoJoinWake(old(Abs()), t)
    {
      var model := records[frames[t].pc.rid];
      Unqueue(model);
      AdmitOrFail(t, model);
    }

    /** The end of an admission. */
    method Release(t: Tid)
      requires Linked() && t in frames && frames[t].pc.Admitted? && frames[t].pc.rid < |records|
      modifies this`frames, records
      ensures Linked() && Abs() == DoRelease(old(Abs()), t)
    {
      var model := records[frames[t].pc.rid];
      model.active := model.active - 1;
      model.lastActivity := now;
      OneRecord(model);
      MoveTo(t, Ended(Finished));
    }

    method Abandon(t: Tid, pc: Pc)
      requires t in frames
      modifies this`frames, this`waiting, this`lock
      ensures Abs() == SetPc(old(Abs()), t, Ended(Cancelled))
                         .(waiting := Remove(old(waiting), t),
                           lock := if pc.Observing? || pc.Surveying? then None else old(lock))
    {
      if pc.Observing? || pc.Surveying? {
        lock := None;
      }
      frames := frames[t := frames[t].(pc := Ended(Cancelled))];
      waiting := Remove(waiting, t);
    }

    /** Cancellation at an await. */
    method Cancel(t: Tid)
      requires Linked() && t in frames && (frames[t].pc.Joining? ==> frames[t].pc.rid < |records|)
      modifies this`frames, this`waiting, this`lock, records
      ensures Linked() && Abs() == DoCancel(old(Abs()), t)
    {
      var pc := frames[t].pc;
      if pc.Joining? {
        Unqueue(records[pc.rid]);
      }
      Abandon(t, pc);
    }

    // ----- Placing a request

    /** Whether an earlier ticket is for a different, conflicting model. */
    method EarlierRival(t: Tid, v: Variant) returns (found: bool)
      ensures found == RivalAhead(waiting, t, v)
    {
      for i := 0 to Place(waiting, t)
        invariant forall j | 0 <= j < i :: !Rival(waiting[j].variant, v)
      {
        if Rival(waiting[i].variant, v) {
          return true;
        }
      }
      return false;
    }

    /** The head of `acquire`'s loop, and `place` up to the lock. */
    method Look(t: Tid)
      requires Linked() && t in frames && frames[t].name in cfg.catalogue
      modifies this`frames, this`waiting, records
      ensures Linked() && Abs() == DoLook(cfg, old(Abs()), t)
    {
      var name := frames[t].name;
      if name in loaded && !loaded[name].leaving {
        RemoveTicket(t);
        JoinModel(t, loaded[name]);
      } else {
        var rival := EarlierRival(t, cfg.catalogue[name]);
        if rival {
          SettleFor(t, Blocked(EarlierRequest, None));
        } else {
          MoveTo(t, Queueing);
        }
      }
    }

    /** The tracked records whose claims conflict with a variant. */
    ghost predicate Lists(v: Variant, conflicts: seq<Rid>)
      reads this, records
    {
      LoadedShape(AbsOf(records), RidsOf(loaded)) && Conflicting(AbsOf(records), RidsOf(loaded), v, conflicts)
    }

    ghost predicate Listed(v: Variant, conflicts: seq<Rid>, left: set<string>)
      reads this, records
    {
      && Distinct(conflicts) && InRange(conflicts, |records|)
      && (forall i | 0 <= i < |conflicts| ::
            var model := records[conflicts[i]];
            model.variant.id in loaded.Keys - left && loaded[model.variant.id] == model && ClaimsConflict(model.variant, v))
      && (forall id | id in loaded.Keys - left && ClaimsConflict(loaded[id].variant, v) :: loaded[id].rid in conflicts)
    }

    lemma ListedLists(v: Variant, conflicts: seq<Rid>)
      requires Linked() && Listed(v, conflicts, {})
      ensures Lists(v, conflicts)
    {
      forall i | 0 <= i < |conflicts|
        ensures Tracked(AbsOf(records), RidsOf(loaded), conflicts[i])
                && ClaimsConflict(AbsOf(records)[conflicts[i]].variant, v)
      {
        assert AbsOf(records)[conflicts[i]] == records[conflicts[i]].Abs();
      }
    }

    /** The tracked models that conflict with a variant, each once. */
    method ListConflicts(v: Variant) returns (conflicts: seq<Rid>)
      requires Linked()
      ensures Lists(v, conflicts)
    {
      conflicts := [];
      var left := loaded.Keys;
      while left != {}
        invariant left <= loaded.Keys && Listed(v, conflicts, left)
        decreases |left|
      {
        var id :| id in left;
        if ClaimsConflict(loaded[id].variant, v) {
          conflicts := conflicts + [loaded[id].rid];
        }
        left := left - {id};
      }
      ListedLists(v, conflicts);
    }

    method AnyUsed(conflicts: seq<Rid>) returns (used: bool)
      requires InRange(conflicts, |records|)
      ensures used == JustWasUsed(AbsOf(records), conflicts)
    {
      for i := 0 to |conflicts|
        invariant forall j | 0 <= j < i :: !Used(AbsOf(records)[conflicts[j]])
      {
        var model := records[conflicts[i]];
        if model.active != 0 || model.queued != 0 || model.leaving {
          assert Used(AbsOf(records)[conflicts[i]]);
          return true;
        }
      }
      return false;
    }

    /** `busy` from its next conflict on, up to its next observation, and what follows it. */
    method AdvanceBusy(t: Tid, conflicts: seq<Rid>, began: real, until: real, recent: bool, seen: seq<Sighting>)
      requires Linked() && Machine.Valid(cfg) && t in frames && frames[t].name in cfg.catalogue
      requires InRange(conflicts, |records|)
      modifies this, records
      ensures Linked() && Abs() == Advance(cfg, old(Abs()), t, conflicts, began, until, recent, seen)
    {
      if |seen| < |conflicts| {
        var model := records[conflicts[|seen|]];
        if model.leaving {
          lock := None;
          SettleFor(t, Blocked(BeingUnloaded, None));
        } else if model.active != 0 || model.queued != 0 || !model.ready {
          lock := None;
          SettleFor(t, Blocked(Working, None));
        } else {
          MoveTo(t, Observing(conflicts, began, until, recent, model.Abs(), seen));
        }
      } else {
        Conclude(t, conflicts, began, until, recent, seen);
      }
    }

    /** What follows when every conflict has been observed. */
    method Conclude(t: Tid, conflicts: seq<Rid>, began: real, until: real, recent: bool, seen: seq<Sighting>)
      requires Linked() && Machine.Valid(cfg) && t in frames && frames[t].name in cfg.catalogue
      requires InRange(conflicts, |records|) && |seen| >= |conflicts|
      modifies this, records
      ensures Linked() && Abs() == Advance(cfg, old(Abs()), t, conflicts, began, until, recent, seen)
    {
      if recent {
        lock := None;
        SettleFor(t, Blocked(RecentlyUsed, Some(until)));
      } else {
        var used := AnyUsed(conflicts);
        if used {
          lock := None;
          SettleFor(t, Blocked(JustUsed, Some(now)));
        } else {
          BeginSwap(t, conflicts);
        }
      }
    }

    /** Every victim leaves. */
    method MarkVictims(conflicts: seq<Rid>, k: Kid)
      requires Linked() && InRange(conflicts, |records|)
      modifies records
      ensures Linked() && Abs() == old(Abs()).(recs := MarkLeaving(old(AbsOf(records)), conflicts, k))
    {
      for n := 0 to |conflicts|
        invariant forall i | 0 <= i < |records| ::
          records[i].Abs() == (if i in conflicts[..n]
                               then old(records[i].Abs()).(leaving := true, unloader := Some(k), unloaded := false)
                               else old(records[i].Abs()))
      {
        var victim := records[conflicts[n]];
        victim.leaving, victim.unloader, victim.unloaded := true, Some(k), false;
        assert conflicts[..n + 1] == conflicts[..n] + [conflicts[n]];
      }
      assert conflicts[..|conflicts|] == conflicts;
    }

    /** A new record joins those ever made. */
    method Append(model: LoadedModel)
      requires Linked() && model.rid == |records|
      modifies this`records
      ensures Linked() && Abs() == old(Abs()).(recs := old(AbsOf(records)) + [model.Abs()])
      ensures records == old(records) + [model]
    {
      OneMore(records, model);
      records := records + [model];
    }

    /** A record comes to stand for its model. */
    method Track(model: LoadedModel)
      requires Linked() && model.rid < |records| && records[model.rid] == model
      modifies this`loaded
      ensures Linked() && Abs() == old(Abs()).(loaded := old(RidsOf(loaded))[model.variant.id := model.rid])
    {
      loaded := loaded[model.variant.id := model];
      assert RidsOf(loaded) == old(RidsOf(loaded))[model.variant.id := model.rid];
    }

    /** A new record for a model that a swap will load, with one request waiting for it. */
    method AddModel(v: Variant, k: Kid)
      requires Linked()
      modifies this`records, this`loaded
      ensures Linked()
      ensures Abs() == old(Abs()).(recs := old(AbsOf(records)) + [Fresh(v, now, false).(loader := Some(k), queued := 1)],
                                   loaded := old(RidsOf(loaded))[v.id := |old(records)|])
    {
      var model := new LoadedModel(v, now, false, |records|);
      model.queued, model.loader := 1, Some(k);
      Append(model);
      Track(model);
    }

    /** The victims leave, and the model takes its place in `loaded`. */
    method Displace(conflicts: seq<Rid>, v: Variant, k: Kid)
      requires Linked() && InRange(conflicts, |records|)
      modifies this`records, this`loaded, records
      ensures Linked()
      ensures Abs() == old(Abs()).(recs := MarkLeaving(old(AbsOf(records)), conflicts, k)
                                           + [Fresh(v, now, false).(loader := Some(k), queued := 1)],
                                   loaded := old(RidsOf(loaded))[v.id := |old(records)|])
    {
      MarkVictims(conflicts, k);
      AddModel(v, k);
    }

    /** The decision. */
    method BeginSwap(t: Tid, conflicts: seq<Rid>)
      requires Linked() && Machine.Valid(cfg) && t in frames && frames[t].name in cfg.catalogue
      requires InRange(conflicts, |records|)
      modifies this, records
      ensures Linked() && Abs() == Commit(cfg, old(Abs()), t, conflicts)
    {
      var r, k, v := |records|, |tasks|, cfg.catalogue[frames[t].name];
      assert v.id == frames[t].name;
      Displace(conflicts, v, k);
      tasks := tasks + [Task(r, conflicts, 0, Starting, false)];
      waiting := Remove(waiting, t);
      lock := None;
      frames := frames[t := frames[t].(pc := Joining(r))];
    }

    /** `place` from the moment it holds the lock, once it has listed the conflicts. */
    method Decide(t: Tid, conflicts: seq<Rid>)
      requires Linked() && Machine.Valid(cfg) && t in frames && frames[t].name in cfg.catalogue
      requires InRange(conflicts, |records|)
      modifies this, records
      ensures Linked() && Abs() == DoTakePlaceLock(cfg, old(Abs()), t, conflicts)
    {
      var name := frames[t].name;
      if name in loaded {
        if loaded[name].leaving {
          SettleFor(t, Blocked(BeingUnloaded, None));
        } else {
          SettleFor(t, Blocked(LoadedByAnother, Some(now)));
        }
      } else {
        lock := Some(t);
        AdvanceBusy(t, conflicts, now, now, false, []);
      }
    }

    method TakePlaceLock(t: Tid) returns (conflicts: seq<Rid>)
      requires Linked() && Machine.Valid(cfg) && t in frames && frames[t].name in cfg.catalogue
      modifies this, records
      ensures old(Lists(cfg.catalogue[frames[t].name], conflicts))
      ensures Linked() && Abs() == DoTakePlaceLock(cfg, old(Abs()), t, conflicts)
    {
      conflicts := ListConflicts(cfg.catalogue[frames[t].name]);
      Decide(t, conflicts);
    }

    method NoteActivity(model: LoadedModel, activity: Activity)
      requires Linked() && model.rid < |records| && records[model.rid] == model
      modifies model
      ensures Linked() && model.Abs() == Noted(old(model.Abs()), activity, now)
      ensures Abs() == SetRec(old(Abs()), model.rid, model.Abs())
    {
      var worked := model.decodeCalls.None? || activity.decode != model.decodeCalls.value;
      if worked {
        model.lastActivity := now;
      }
      model.decodeCalls := Some(activity.decode);
      OneRecord(model);
    }

    /** The observation of a conflicting model returns. */
    method Observed(t: Tid, activity: Option<Activity>)
      requires Linked() && Machine.Valid(cfg) && t in frames && frames[t].name in cfg.catalogue && frames[t].pc.Observing?
      requires |frames[t].pc.seen| < |frames[t].pc.conflicts| && InRange(frames[t].pc.conflicts, |records|)
      modifies this, records
      ensures Linked() && Abs() == DoObserved(cfg, old(Abs()), t, activity)
    {
      var pc := frames[t].pc;
      if activity.None? {
        lock := None;
        SettleFor(t, Blocked(Unobservable, None));
        return;
      }
      var model := records[pc.conflicts[|pc.seen|]];
      var found := model.Abs();
      NoteActivity(model, activity.value);
      if activity.value.processing || activity.value.deferred != 0 {
        lock := None;
        SettleFor(t, Blocked(ServerBusy, None));
      } else {
        var seen := pc.seen + [Sighting(pc.glance, found, activity.value, now)];
        var protectedUntil := model.lastActivity + cfg.protect;
        if protectedUntil > pc.until {
          AdvanceBusy(t, pc.conflicts, pc.began, protectedUntil, true, seen);
        } else {
          AdvanceBusy(t, pc.conflicts, pc.began, pc.until, pc.recent, seen);
        }
      }
    }

    // ----- Tracking adopted models

    /** One round of `track`. */
    method TrackModel(r: Rid, decode: Option<int>)
      requires Linked() && r < |records|
      modifies this`tasks, records
      ensures Linked() && Abs() == TrackOne(old(Abs()), r, decode)
    {
      var model := records[r];
      if model.ready {
        model.decodeCalls := if decode.Some? then decode else model.decodeCalls;
        OneRecord(model);
      } else {
        model.loader := Some(|tasks|);
        OneRecord(model);
        tasks := tasks + [Task(r, [], 0, Loading, true)];
      }
    }

    method TrackNext(t: Tid, decode: Option<int>)
      requires Linked() && t in frames && frames[t].pc.Tracking?
      requires frames[t].pc.todo != [] && frames[t].pc.todo[0] < |records|
      modifies this`tasks, this`frames, records
      ensures Linked() && Abs() == DoTrackNext(old(Abs()), t, decode)
    {
      var todo := frames[t].pc.todo;
      TrackModel(todo[0], decode);
      MoveTo(t, Tracking(todo[1..]));
    }

    /** The end of `check_router`. */
    method TrackDone(t: Tid)
      requires Linked() && t in frames && frames[t].name in cfg.catalogue
      modifies this`frames, this`waiting, this`lock
      ensures Linked() && Abs() == DoTrackDone(cfg, old(Abs()), t)
    {
      lock := None;
      if fit {
        EnterLine(t, frames[t].name);
      } else {
        MoveTo(t, Ended(Refused(RouterUnfit)));
      }
    }

    /** `start`, one model at a time. */
    method StartupTrack(decode: Option<int>)
      requires Linked() && startup != [] && startup[0] < |records|
      modifies this`tasks, this`startup, records
      ensures Linked() && Abs() == DoStartupTrack(old(Abs()), decode)
    {
      TrackModel(startup[0], decode);
      startup := startup[1..];
    }

    // ----- Swaps and loads

    method AskForLoad(k: Kid)
      requires Linked() && k < |tasks| && tasks[k].model < |records|
      modifies this`tasks, this`may, records
      ensures Linked() && Abs() == IssueLoad(old(Abs()), k)
    {
      var model := records[tasks[k].model];
      model.loads := model.loads + 1;
      OneRecord(model);
      tasks := tasks[k := tasks[k].(stage := Loading)];
      may := may + {model.variant.id};
    }

    method StartSwap(k: Kid)
      requires Linked() && k < |tasks| && TaskShape(|records|, tasks[k])
      modifies this`tasks, this`may, records
      ensures Linked() && Abs() == DoStartSwap(old(Abs()), k)
    {
      if tasks[k].victims == [] {
        AskForLoad(k);
      } else {
        tasks := tasks[k := tasks[k].(stage := Unloading)];
      }
    }

    /** A model is deleted from `loaded`. */
    method Forget(id: string)
      requires Linked()
      modifies this`loaded
      ensures Linked() && Abs() == old(Abs()).(loaded := old(RidsOf(loaded)) - {id})
    {
      loaded := loaded - {id};
      assert RidsOf(loaded) == old(RidsOf(loaded)) - {id};
    }

    method ForgetGone(id: string)
      requires Linked()
      modifies this`loaded, this`may
      ensures Linked() && Abs() == old(Abs()).(loaded := old(RidsOf(loaded)) - {id}, may := old(may) - {id})
    {
      Forget(id);
      may := may - {id};
    }

    method NoteUnloaded(v: Rid)
      requires Linked() && v < |records|
      modifies this`may, records
      ensures Linked() && Abs() == Returned(old(Abs()), v)
    {
      records[v].unloaded := true;
      OneRecord(records[v]);
      may := may - {records[v].variant.id};
    }

    method CrossOff(k: Kid, id: string)
      requires Linked() && k < |tasks|
      modifies this`tasks, this`loaded
      ensures Linked() && Abs() == CrossedOff(old(Abs()), k, id)
      ensures tasks == old(tasks)[k := old(tasks[k]).(next := old(tasks[k]).next + 1)]
    {
      Forget(id);
      tasks := tasks[k := tasks[k].(next := tasks[k].next + 1)];
    }

    /** The victim is gone; go on to the next, or to the load. */
    method NextVictim(k: Kid, id: string)
      requires Linked() && k < |tasks| && TaskShape(|records|, tasks[k]) && tasks[k].stage.Unloading?
      modifies this`tasks, this`loaded, this`may, records
      ensures Linked() && Abs() == Proceeded(old(Abs()), k, id)
    {
      var last := tasks[k].next + 1 == |tasks[k].victims|;
      CrossOff(k, id);
      if last {
        AskForLoad(k);
      }
    }

    /** The victim is deleted from `loaded`, or the key error kills the task. */
    method DeleteVictim(k: Kid, id: string)
      requires Linked() && k < |tasks| && TaskShape(|records|, tasks[k]) && tasks[k].stage.Unloading?
      modifies this`tasks, this`loaded, this`may, records
      ensures Linked() && Abs() == Deleted(old(Abs()), k, id)
    {
      if id in loaded {
        NextVictim(k, id);
      } else {
        tasks := tasks[k := tasks[k].(stage := Crashed)];
      }
    }

    /** An unload returned. */
    method Unloaded(k: Kid)
      requires Linked() && k < |tasks| && TaskShape(|records|, tasks[k]) && tasks[k].stage.Unloading?
      modifies this`tasks, this`loaded, this`may, records
      ensures Linked() && Abs() == DoUnloaded(old(Abs()), k)
    {
      var victim := tasks[k].victims[tasks[k].next];
      var id := records[victim].variant.id;
      UnloadedIs(Abs(), k);
      NoteUnloaded(victim);
      DeleteVictim(k, id);
    }

    /** The victims stay after all. */
    method RestoreVictims(victims: seq<Rid>)
      requires Linked() && InRange(victims, |records|)
      modifies records
      ensures Linked() && Abs() == old(Abs()).(recs := Restore(old(AbsOf(records)), victims))
    {
      for n := 0 to |victims|
        invariant forall i | 0 <= i < |records| ::
          records[i].Abs() == (if i in victims[..n] then old(records[i].Abs()).(leaving := false, unloader := None)
                               else old(records[i].Abs()))
      {
        var victim := records[victims[n]];
        victim.leaving, victim.unloader := false, None;
        assert victims[..n + 1] == victims[..n] + [victims[n]];
      }
      assert victims[..|victims|] == victims;
    }

    /** The model is given up, and its waiters are released. */
    method GiveUp(k: Kid, error: string)
      requires Linked() && k < |tasks| && tasks[k].model < |records|
      modifies this`tasks, this`loaded, records
      ensures Linked()
      ensures var m := old(tasks[k].model);
              Abs() == SetTask(SetRec(old(Abs()), m, old(records[m].Abs()).(error := Some(error), ready := true))
                                 .(loaded := old(RidsOf(loaded)) - {records[m].variant.id}),
                               k, old(tasks[k]).(stage := Over))
    {
      var model := records[tasks[k].model];
      model.error, model.ready := Some(error), true;
      OneRecord(model);
      Forget(model.variant.id);
      tasks := tasks[k := tasks[k].(stage := Over)];
    }

    /** An unload failed. */
    method UnloadFailed(k: Kid, error: string)
      requires Linked() && k < |tasks| && TaskShape(|records|, tasks[k])
      modifies this`tasks, this`loaded, records
      ensures Linked() && Abs() == DoUnloadFailed(old(Abs()), k, error)
    {
      RestoreVictims(tasks[k].victims);
      if records[tasks[k].model].variant.id !in loaded {
        tasks := tasks[k := tasks[k].(stage := Crashed)];
      } else {
        GiveUp(k, error);
      }
    }

    method LoadReturned(k: Kid, failure: Option<string>)
      requires Linked() && k < |tasks| && tasks[k].model < |records|
      modifies this`tasks, records
      ensures Linked() && Abs() == DoLoadReturned(old(Abs()), k, failure)
    {
      if failure.None? {
        tasks := tasks[k := tasks[k].(stage := Baseline)];
      } else {
        var model := records[tasks[k].model];
        model.error := failure;
        OneRecord(model);
        tasks := tasks[k := tasks[k].(stage := Confirming)];
      }
    }

    /** The `finally` of `swap` and of `finish_load`. */
    method MarkReady(k: Kid)
      requires Linked() && k < |tasks| && tasks[k].model < |records|
      modifies this`tasks, records
      ensures Linked() && Abs() == Readied(old(Abs()), k)
    {
      var model := records[tasks[k].model];
      if !tasks[k].adopted {
        model.lastActivity := now;
      }
      model.ready := true;
      OneRecord(model);
      tasks := tasks[k := tasks[k].(stage := Over)];
    }

    method BaselineRead(k: Kid, decode: Option<int>)
      requires Linked() && k < |tasks| && tasks[k].model < |records|
      modifies this`tasks, records
      ensures Linked() && Abs() == DoBaselineRead(old(Abs()), k, decode)
    {
      var model := records[tasks[k].model];
      model.decodeCalls := if decode.Some? then decode else model.decodeCalls;
      OneRecord(model);
      MarkReady(k);
    }

    /** The end of `load_failed`. */
    method Confirmed(k: Kid, gone: bool)
      requires Linked() && k < |tasks| && tasks[k].model < |records|
      modifies this`tasks, this`loaded, this`fit, this`may, records
      ensures Linked() && Abs() == DoConfirmed(old(Abs()), k, gone)
    {
      var model := records[tasks[k].model];
      var id := model.variant.id;
      if !gone {
        fit := false;
      } else if id in loaded && loaded[id] == model {
        ForgetGone(id);
      }
      MarkReady(k);
    }

    // ----- Re-inspection

    /** The models merged from those found so far, given the ones among them that are to be renewed. */
    ghost predicate Merges(olds: seq<Record>, rids: map<string, Rid>, anew: seq<Adopted>, ids: set<string>,
                           merged: map<string, LoadedModel>)
      requires LoadedShape(olds, rids)
      reads this, records
    {
      && merged.Keys == ids
      && (forall id | id in merged :: Stands(merged, id) && MergedAs(olds, rids, anew, id, merged[id].rid))
    }

    predicate Stands(models: map<string, LoadedModel>, id: string)
      requires id in models
      reads this, records
    {
      models[id].rid < |records| && records[models[id].rid] == models[id] && models[id].variant.id == id
    }

    lemma LinkedShape()
      requires Linked()
      ensures LoadedShape(AbsOf(records), RidsOf(loaded))
    {
      forall id | id in RidsOf(loaded)
        ensures AbsOf(records)[RidsOf(loaded)[id]].variant.id == id
      {
        assert AbsOf(records)[loaded[id].rid] == loaded[id].Abs();
      }
    }

    /** The records are those there were, and one more for each renewed model. */
    ghost predicate Built(olds: seq<Record>, anew: seq<Adopted>, began: real)
      reads this, records
    {
      InPreset(cfg, anew) && AbsOf(records) == olds + NewRecords(cfg, anew, began)
    }

    /** A new record for a renewed model. */
    method Renew(a: Adopted, began: real, ghost olds: seq<Record>, ghost anew: seq<Adopted>) returns (model: LoadedModel)
      requires Linked() && Machine.Valid(cfg) && a.id in cfg.catalogue && Built(olds, anew, began)
      modifies this`records
      ensures Linked() && Built(olds, anew + [a], began)
      ensures records == old(records) + [model] && model.rid == |old(records)| == |olds| + |anew|
      ensures model.variant.id == a.id
    {
      model := new LoadedModel(cfg.catalogue[a.id], began, a.ready, |records|);
      Append(model);
    }

    /** What has been merged from the models found so far. */
    ghost predicate Progress(olds: seq<Record>, rids: map<string, Rid>, found: seq<Adopted>, began: real,
                             merged: map<string, LoadedModel>)
      requires LoadedShape(olds, rids)
      reads this, records
    {
      var anew := Renewed(olds, rids, found);
      Built(olds, anew, began) && Merges(olds, rids, anew, FoundIds(found), merged)
    }

    lemma MergeKept(olds: seq<Record>, rids: map<string, Rid>, found: seq<Adopted>, began: real,
                    merged: map<string, LoadedModel>, a: Adopted)
      requires LoadedShape(olds, rids) && Progress(olds, rids, found, began, merged)
      requires !NeedsFresh(olds, rids, a.id) && rids == RidsOf(loaded) && Linked()
      ensures Progress(olds, rids, found + [a], began, merged[a.id := loaded[a.id]])
    {
      RenewedMore(olds, rids, found, a);
      FoundMore(found, a);
      MergesSame(olds, rids, Renewed(olds, rids, found), FoundIds(found), merged, a.id);
    }

    lemma MergesSame(olds: seq<Record>, rids: map<string, Rid>, anew: seq<Adopted>, ids: set<string>,
                     merged: map<string, LoadedModel>, kept: string)
      requires LoadedShape(olds, rids) && !NeedsFresh(olds, rids, kept) && rids == RidsOf(loaded) && Linked()
      requires Merges(olds, rids, anew, ids, merged)
      ensures Merges(olds, rids, anew, ids + {kept}, merged[kept := loaded[kept]])
    {
      var more := merged[kept := loaded[kept]];
      forall id | id in more
        ensures Stands(more, id) && MergedAs(olds, rids, anew, id, more[id].rid)
      {
        if id != kept {
          assert Stands(merged, id) && MergedAs(olds, rids, anew, id, merged[id].rid);
        }
      }
    }

    lemma MergesMore(olds: seq<Record>, rids: map<string, Rid>, anew: seq<Adopted>, ids: set<string>,
                     merged: map<string, LoadedModel>, a: Adopted, model: LoadedModel)
      requires LoadedShape(olds, rids) && NeedsFresh(olds, rids, a.id) && a.id !in ids
      requires Merges(olds, rids, anew, ids, merged) && model.rid == |olds| + |anew|
      requires model.rid < |records| && records[model.rid] == model && model.variant.id == a.id
      ensures Merges(olds, rids, anew + [a], ids + {a.id}, merged[a.id := model])
    {
      var more := merged[a.id := model];
      forall id | id in more
        ensures Stands(more, id) && MergedAs(olds, rids, anew + [a], id, more[id].rid)
      {
        if id != a.id {
          assert Stands(merged, id) && MergedAs(olds, rids, anew, id, merged[id].rid);
        }
      }
    }

    lemma MergeRenewed(olds: seq<Record>, rids: map<string, Rid>, found: seq<Adopted>, began: real,
                       merged: map<string, LoadedModel>, a: Adopted, model: LoadedModel)
      requires LoadedShape(olds, rids) && NeedsFresh(olds, rids, a.id) && a.id !in FoundIds(found)
      requires var anew := Renewed(olds, rids, found);
               && Built(olds, anew + [a], began) && Merges(olds, rids, anew, FoundIds(found), merged)
               && model.rid == |olds| + |anew|
      requires model.rid < |records| && records[model.rid] == model && model.variant.id == a.id
      ensures Progress(olds, rids, found + [a], began, merged[a.id := model])
    {
      RenewedMore(olds, rids, found, a);
      FoundMore(found, a);
      MergesMore(olds, rids, Renewed(olds, rids, found), FoundIds(found), merged, a, model);
    }

    /** One found model keeps its sound record, or gets a new one. */
    method MergeOne(a: Adopted, began: real, merged: map<string, LoadedModel>,
                    ghost olds: seq<Record>, ghost rids: map<string, Rid>, ghost found: seq<Adopted>)
      returns (merged': map<string, LoadedModel>)
      requires Linked() && Machine.Valid(cfg) && a.id in cfg.catalogue && a.id !in FoundIds(found)
      requires LoadedShape(olds, rids) && rids == RidsOf(loaded) && Progress(olds, rids, found, began, merged)
      modifies this`records
      ensures Linked() && old(records) <= records && Progress(olds, rids, found + [a], began, merged')
    {
      assert a.id in loaded ==> olds[rids[a.id]] == AbsOf(records)[rids[a.id]];
      if a.id in loaded && loaded[a.id].error.None? {
        merged' := merged[a.id := loaded[a.id]];
        MergeKept(olds, rids, found, began, merged, a);
      } else {
        var model := Renew(a, began, olds, Renewed(olds, rids, found));
        merged' := merged[a.id := model];
        MergeRenewed(olds, rids, found, began, merged, a, model);
      }
    }

    lemma ProgressStarts(began: real)
      requires Linked() && LoadedShape(AbsOf(records), RidsOf(loaded))
      ensures Progress(AbsOf(records), RidsOf(loaded), [], began, map[])
    {
      assert FoundIds([]) == {};
    }

    /** Each found model keeps its sound record, or gets a new one. */
    method MergeFound(found: seq<Adopted>, began: real) returns (merged: map<string, LoadedModel>)
      requires Linked() && Machine.Valid(cfg) && FoundIds(found) <= cfg.catalogue.Keys
      requires ApartIds(found)
      modifies this`records
      ensures old(LoadedShape(AbsOf(records), RidsOf(loaded))) && Linked() && old(records) <= records
      ensures Progress(old(AbsOf(records)), old(RidsOf(loaded)), found, began, merged)
    {
      LinkedShape();
      ghost var olds, rids := AbsOf(records), RidsOf(loaded);
      merged := map[];
      ProgressStarts(began);
      assert found[..0] == [];
      for i := 0 to |found|
        invariant Linked() && old(records) <= records
        invariant Progress(olds, rids, found[..i], began, merged)
      {
        NewlyFound(found, i);
        merged := MergeOne(found[i], began, merged, olds, rids, found[..i]);
      }
      assert found[..|found|] == found;
    }

    /** A tracked model that was not found stays while it is in use, in transit, or out of sight. */
    method KeepRest(found: map<string, LoadedModel>, unreachable: set<string>) returns (merged: map<string, LoadedModel>)
      ensures merged.Keys == found.Keys + set id | id in loaded && Kept(loaded[id].Abs(), unreachable)
      ensures forall id | id in merged :: merged[id] == if id in found then found[id] else loaded[id]
    {
      merged := found;
      var left := loaded.Keys;
      while left != {}
        invariant left <= loaded.Keys
        invariant merged.Keys == found.Keys + set id | id in loaded.Keys - left && Kept(loaded[id].Abs(), unreachable)
        invariant forall id | id in merged :: merged[id] == if id in found then found[id] else loaded[id]
        decreases |left|
      {
        var id :| id in left;
        var current := loaded[id];
        var inProgress := current.active != 0 || current.leaving || !current.ready;
        if id !in merged && (inProgress || current.variant.backend in unreachable) {
          merged := merged[id := current];
        }
        left := left - {id};
      }
    }

    /** A found model stands where the machine's merge puts it, and so does a kept one. */
    lemma MergedIs(olds: seq<Record>, survey: Survey, began: real,
                   found: map<string, LoadedModel>, merged: map<string, LoadedModel>)
      requires Linked() && LoadedShape(olds, RidsOf(loaded)) && |olds| <= |records| && AbsOf(records)[..|olds|] == olds
      requires ApartIds(survey.found)
      requires Progress(olds, RidsOf(loaded), survey.found, began, found)
      requires merged.Keys == found.Keys + set id | id in loaded && Kept(loaded[id].Abs(), survey.unreachable)
      requires forall id | id in merged :: merged[id] == if id in found then found[id] else loaded[id]
      ensures RidsOf(merged) == Merged(olds, RidsOf(loaded), survey)
      ensures forall id | id in merged :: Stands(merged, id)
    {
      var rids := RidsOf(loaded);
      OldRecords(olds);
      forall id | id in merged
        ensures Stands(merged, id) && id in Merged(olds, rids, survey) && merged[id].rid == Merged(olds, rids, survey)[id]
      {
        if id in found {
          MergedFoundIs(olds, survey, began, found, id);
        } else {
          MergedOther(olds, rids, survey, id);
        }
      }
      MergedKeys(olds, rids, survey, merged.Keys);
      RidsAre(merged, Merged(olds, rids, survey));
    }

    lemma MergedFoundIs(olds: seq<Record>, survey: Survey, began: real, found: map<string, LoadedModel>, id: string)
      requires LoadedShape(olds, RidsOf(loaded)) && ApartIds(survey.found)
      requires Progress(olds, RidsOf(loaded), survey.found, began, found) && id in found
      ensures var merged := Merged(olds, RidsOf(loaded), survey);
              Stands(found, id) && id in merged && found[id].rid == merged[id]
    {
      var rids := RidsOf(loaded);
      assert Stands(found, id) && MergedAs(olds, rids, Renewed(olds, rids, survey.found), id, found[id].rid);
      MergedFound(olds, rids, survey, id, found[id].rid);
    }

    lemma OldRecords(olds: seq<Record>)
      requires Linked() && LoadedShape(olds, RidsOf(loaded)) && |olds| <= |records| && AbsOf(records)[..|olds|] == olds
      ensures forall id | id in loaded :: olds[RidsOf(loaded)[id]] == loaded[id].Abs()
    {
      forall id | id in loaded
        ensures olds[RidsOf(loaded)[id]] == loaded[id].Abs()
      {
        assert AbsOf(records)[..|olds|][loaded[id].rid] == AbsOf(records)[loaded[id].rid];
      }
    }

    lemma ProgressMade(olds: seq<Record>, rids: map<string, Rid>, found: seq<Adopted>, began: real,
                       merged: map<string, LoadedModel>)
      requires LoadedShape(olds, rids) && Progress(olds, rids, found, began, merged)
      ensures |records| == |olds| + |Renewed(olds, rids, found)| && AbsOf(records)[..|olds|] == olds
    {
    }

    /** `merged` becomes what is tracked. */
    method Adopt(t: Tid, merged: map<string, LoadedModel>, problems: bool, n: nat, ghost gone: set<string>)
      requires Linked() && t in frames && n <= |records| && forall id | id in merged :: Stands(merged, id)
      modifies this`loaded, this`fit, this`may, this`frames
      ensures Linked()
      ensures Abs() == SetPc(old(Abs()).(loaded := RidsOf(merged), fit := !problems, may := old(may) - gone), t,
                             Tracking(From(n, |records| - n)))
    {
      loaded := merged;
      fit := !problems;
      may := may - gone;
      frames := frames[t := frames[t].(pc := Tracking(From(n, |records| - n)))];
      assert forall id | id in merged :: Stands(merged, id);
    }

    /** `reinspect`, once the survey is in: what is tracked is merged with what the servers report. */
    method Reinspect(t: Tid, survey: Survey)
      requires Linked() && Machine.Valid(cfg) && t in frames && frames[t].pc.Surveying?
      requires FoundIds(survey.found) <= cfg.catalogue.Keys
      requires ApartIds(survey.found)
      modifies this
      ensures Linked() && old(LoadedShape(AbsOf(records), RidsOf(loaded)))
      ensures Abs() == DoSurveyed(cfg, old(Abs()), t, survey)
    {
      LinkedShape();
      ghost var s := Abs();
      var n := |records|;
      var found := MergeFound(survey.found, frames[t].pc.began);
      ProgressMade(s.recs, s.loaded, survey.found, frames[t].pc.began, found);
      var merged := KeepRest(found, survey.unreachable);
      MergedIs(s.recs, survey, frames[t].pc.began, found, merged);
      SurveyedIs(cfg, s, t, survey, AbsOf(records));
      Adopt(t, merged, survey.problems, n, ShownGone(cfg, s, survey));
    }

    // ----- Any step

    /** Between steps, references are in range and names agree with the catalogue. */
    ghost predicate Valid()
      reads this, records
    {
      Linked() && Machine.Valid(cfg) && Shape(cfg, Abs())
    }

    /** What a step of a request needs holds whenever the step can be taken. */
    lemma RequestCallable(a: Action)
      requires Valid() && Enabled(cfg, Abs(), a) && ByRequest(a) && !a.Arrive?
      ensures a.t in frames && RequestShape(cfg, |records|, frames[a.t])
    {
      assert RequestShape(cfg, |Abs().recs|, Abs().reqs[a.t]);
    }

    lemma TaskCallable(a: Action)
      requires Valid() && Enabled(cfg, Abs(), a) && ByTask(a)
      ensures a.k < |tasks| && TaskShape(|records|, tasks[a.k])
    {
      assert TaskShape(|Abs().recs|, Abs().tasks[a.k]);
    }

    /** A step was enabled, and this is what it led to. */
    twostate predicate Took(a: Action)
      reads this, records
    {
      old(Shape(cfg, Abs()) && Enabled(cfg, Abs(), a)) && Linked() && Abs() == Apply(cfg, old(Abs()), a)
    }

    method StepTask(a: Action)
      requires Valid() && Enabled(cfg, Abs(), a) && ByTask(a)
      modifies this, records
      ensures Took(a)
    {
      TaskCallable(a);
      match a
      case StartSwap(k) => StartSwap(k);
      case Unloaded(k) => Unloaded(k);
      case UnloadFailed(k, error) => UnloadFailed(k, error);
      case LoadReturned(k, failure) => LoadReturned(k, failure);
      case BaselineRead(k, decode) => BaselineRead(k, decode);
      case Confirmed(k, gone) => Confirmed(k, gone);
    }

    method StepRequest(a: Action)
      requires Valid() && Enabled(cfg, Abs(), a)
      requires a.Arrive? || a.TakeCheckLock? || a.Look? || a.Wake? || a.JoinWake? || a.Release? || a.Cancel? || a.TrackDone?
      modifies this, records
      ensures Took(a)
    {
      if !a.Arrive? { RequestCallable(a); }
      match a
      case Arrive(t, name) => Arrive(t, name);
      case TakeCheckLock(t) => TakeCheckLock(t);
      case Look(t) => Look(t);
      case Wake(t) => Wake(t);
      case JoinWake(t) => JoinWake(t);
      case Release(t) => Release(t);
      case Cancel(t) => Cancel(t);
      case TrackDone(t) => TrackDone(t);
    }

    method StepPlacer(a: Action) returns (ghost done: Action)
      requires Valid() && Enabled(cfg, Abs(), a) && (a.TakePlaceLock? || a.Observed?)
      modifies this, records
      ensures (if a.Observed? then done == a else done.TakePlaceLock? && done.t == a.t) && Took(done)
    {
      RequestCallable(a);
      done := a;
      if a.Observed? {
        Observed(a.t, a.activity);
      } else {
        var conflicts := TakePlaceLock(a.t);
        done := Action.TakePlaceLock(a.t, conflicts);
      }
    }

    method StepInspection(a: Action)
      requires Valid() && Enabled(cfg, Abs(), a) && (a.Surveyed? || a.TrackNext? || a.StartupTrack?)
      modifies this, records
      ensures Took(a)
    {
      match a
      case Surveyed(t, survey) =>
        Reinspect(t, survey);
      case TrackNext(t, decode) =>
        RequestCallable(a);
        TrackNext(t, decode);
      case StartupTrack(decode) =>
        StartupTrack(decode);
    }

    method StepWorld(a: Action)
      requires Valid() && Enabled(cfg, Abs(), a) && (a.Tick? || a.Vanish? || a.Appear?)
      modifies this`now, this`held
      ensures Took(a)
    {
      if a.Tick? {
        now := now + a.d;
      } else if a.Vanish? {
        held := held - {a.id};
      } else {
        held := held + {a.id};
      }
    }

    /**
     The event loop: whatever can happen next, the objects take exactly the machine's step. A
     placer lists its conflicts in an order of its own.
     */
    method TakeStep(a: Action) returns (ghost done: Action)
      requires Valid() && Enabled(cfg, Abs(), a)
      modifies this, records
      ensures a.TakePlaceLock? ==> done.TakePlaceLock? && done.t == a.t
      ensures !a.TakePlaceLock? ==> done == a
      ensures Took(done) && Valid()
    {
      done := a;
      if ByTask(a) {
        StepTask(a);
      } else if a.TakePlaceLock? || a.Observed? {
        done := StepPlacer(a);
      } else if a.Surveyed? || a.TrackNext? || a.StartupTrack? {
        StepInspection(a);
      } else if a.Tick? || a.Vanish? || a.Appear? {
        StepWorld(a);
      } else {
        StepRequest(a);
      }
      StepKeepsShape(cfg, old(Abs()), done);
    }
  }

  lemma FoundMore(found: seq<Adopted>, a: Adopted)
    ensures FoundIds(found + [a]) == FoundIds(found) + {a.id}
  {
    forall id | id in FoundIds(found) + {a.id}
      ensures id in FoundIds(found + [a])
    {
      if id == a.id {
        assert a in found + [a];
      } else {
        var other :| other in found && other.id == id;
        assert other in found + [a];
      }
    }
  }

  lemma NewlyFound(found: seq<Adopted>, i: nat)
    requires i < |found| && ApartIds(found)
    ensures found[i].id in FoundIds(found) && found[i].id !in FoundIds(found[..i])
    ensures found[..i + 1] == found[..i] + [found[i]]
  {
  }

  ghost predicate InPreset(cfg: Config, found: seq<Adopted>) {
    forall a | a in found :: a.id in cfg.catalogue
  }

  lemma RenewedStep(recs: seq<Record>, loaded: map<string, Rid>, a: Adopted, found: seq<Adopted>)
    requires LoadedShape(recs, loaded)
    ensures Renewed(recs, loaded, [a] + found) ==
              (if NeedsFresh(recs, loaded, a.id) then [a] else []) + Renewed(recs, loaded, found)
  {
    assert ([a] + found)[1..] == found;
  }

  lemma Regroup<T>(x: seq<T>, y: seq<T>, z: seq<T>)
    ensures x + y + z == x + (y + z)
  {
  }

  lemma {:induction false} RenewedMore(recs: seq<Record>, loaded: map<string, Rid>, found: seq<Adopted>, a: Adopted)
    requires LoadedShape(recs, loaded)
    ensures Renewed(recs, loaded, found + [a]) ==
              Renewed(recs, loaded, found) + if NeedsFresh(recs, loaded, a.id) then [a] else []
  {
    var last := if NeedsFresh(recs, loaded, a.id) then [a] else [];
    if found == [] {
      RenewedStep(recs, loaded, a, []);
      assert found + [a] == [a] + [];
    } else {
      var head, rest := [found[0]], found[1..];
      var first := if NeedsFresh(recs, loaded, found[0].id) then head else [];
      RenewedMore(recs, loaded, rest, a);
      RenewedStep(recs, loaded, found[0], rest);
      RenewedStep(recs, loaded, found[0], rest + [a]);
      assert found == head + rest;
      Regroup(head, rest, [a]);
      Regroup(first, Renewed(recs, loaded, rest), last);
    }
  }

  /** The record that stands for a merged model: its own, or the one made for it. */
  ghost predicate MergedAs(olds: seq<Record>, rids: map<string, Rid>, anew: seq<Adopted>, id: string, r: Rid)
    requires LoadedShape(olds, rids)
  {
    if NeedsFresh(olds, rids, id) then |olds| <= r < |olds| + |anew| && anew[r - |olds|].id == id
    else r == rids[id]
  }

  lemma MergedFound(olds: seq<Record>, rids: map<string, Rid>, survey: Survey, id: string, r: Rid)
    requires LoadedShape(olds, rids) && id in FoundIds(survey.found)
    requires ApartIds(survey.found)
    requires MergedAs(olds, rids, Renewed(olds, rids, survey.found), id, r)
    ensures id in Merged(olds, rids, survey) && Merged(olds, rids, survey)[id] == r
  {
    if NeedsFresh(olds, rids, id) {
      RenewedDistinct(olds, rids, survey.found);
      IndexIs(Renewed(olds, rids, survey.found), id, r - |olds|);
    }
  }

  lemma RidsAre(models: map<string, LoadedModel>, rids: map<string, Rid>)
    requires models.Keys == rids.Keys && forall id | id in models :: models[id].rid == rids[id]
    ensures RidsOf(models) == rids
  {
  }

  lemma SurveyedIs(cfg: Config, s: State, t: Tid, survey: Survey, recs: seq<Record>)
    requires t in s.reqs && s.reqs[t].pc.Surveying? && LoadedShape(s.recs, s.loaded)
    requires FoundIds(survey.found) <= cfg.catalogue.Keys
    requires var anew := Renewed(s.recs, s.loaded, survey.found);
             InPreset(cfg, anew) && recs == s.recs + NewRecords(cfg, anew, s.reqs[t].pc.began)
    ensures DoSurveyed(cfg, s, t, survey) ==
              SetPc(s.(recs := recs, loaded := Merged(s.recs, s.loaded, survey), fit := !survey.problems,
                       may := s.may - ShownGone(cfg, s, survey)),
                    t, Tracking(From(|s.recs|, |recs| - |s.recs|)))
  {
  }

  lemma MergedOther(olds: seq<Record>, rids: map<string, Rid>, survey: Survey, id: string)
    requires LoadedShape(olds, rids) && id !in FoundIds(survey.found)
    requires id in rids && Kept(olds[rids[id]], survey.unreachable)
    ensures id in Merged(olds, rids, survey) && Merged(olds, rids, survey)[id] == rids[id]
  {
  }

  lemma MergedKeys(olds: seq<Record>, rids: map<string, Rid>, survey: Survey, keys: set<string>)
    requires LoadedShape(olds, rids)
    requires keys == FoundIds(survey.found) + set id | id in rids && Kept(olds[rids[id]], survey.unreachable)
    ensures Merged(olds, rids, survey).Keys == keys
  {
  }
}
