/**
 The model scheduler (src/model_broker/scheduler.py) as a machine over values.

 Each action is one stretch of the source's code between two awaits, or one move of the
 environment. Suspended coroutines appear as program counters: a request's `pc`, a
 background task's `stage`. The index of a record in `recs` is its identity. Where the source
 runs on without an await, the machine may stop in between (at `Looking` and between two
 tracked records), which only adds interleavings.
 */
module Machine {
  import opened Wrappers
  import opened Claims

  type Rid = nat
  type Tid = nat
  type Kid = nat

  /** The catalogue, the idle protection window and the maximum wait. */
  datatype Config = Config(catalogue: map<string, Variant>, protect: real, maxWait: real, poll: real)

  /**
   A model a server holds or is loading. The last four fields are history the source does not
   keep: the task that will make the record ready, the task that is to unload it, how many
   loads were asked of a server for it, and whether an unload of it has returned.
   */
  datatype Record = Record(
    variant: Variant,
    lastActivity: real,
    active: int,
    queued: int,
    decode: Option<int>,
    ready: bool,
    error: Option<string>,
    leaving: bool,
    loader: Option<Kid>,
    unloader: Option<Kid>,
    loads: nat,
    unloaded: bool)

  datatype Activity = Activity(processing: bool, deferred: int, decode: int)

  datatype Reason =
    | EarlierRequest | BeingUnloaded | LoadedByAnother | Working
    | Unobservable | ServerBusy | RecentlyUsed | JustUsed

  /** Why a request cannot be placed yet, and when that ends if known. */
  datatype Blocked = Blocked(reason: Reason, until: Option<real>)

  datatype Refusal =
    | UnknownModel
    | RouterUnfit
    | ResourceBusy(reason: Reason, retryAfter: int)
    | LoadFailed(error: string)

  datatype Outcome = Finished | Cancelled | Refused(why: Refusal)

  /** One observation made by `busy`: the record at the glance before it and on its return, and when. */
  datatype Sighting = Sighting(glance: Record, found: Record, activity: Activity, at: real)

  /** What the servers reported: the models adopted, those out of reach, and whether all is fit. */
  datatype Survey = Survey(found: seq<Adopted>, unreachable: set<string>, problems: bool)
  datatype Adopted = Adopted(id: string, ready: bool)

  /**
   Where a request is suspended. `Observing` holds the locals of `busy`, in the observation of
   `conflicts[|seen|]`.
   */
  datatype Pc =
    | Checking
    | Surveying(began: real)
    | Tracking(todo: seq<Rid>)
    | Looking
    | Queueing
    | Observing(conflicts: seq<Rid>, began: real, until: real, recent: bool, glance: Record, seen: seq<Sighting>)
    | Sleeping(recheck: real)
    | Joining(rid: Rid)
    | Admitted(rid: Rid)
    | Ended(outcome: Outcome)

  datatype Request = Request(name: string, deadline: real, pc: Pc)
  datatype Ticket = Ticket(tid: Tid, variant: Variant)

  datatype Stage = Starting | Unloading | Loading | Baseline | Confirming | Over | Crashed

  /** A background `swap`, or a `finish_load` (`adopted`, with no victims). */
  datatype Task = Task(model: Rid, victims: seq<Rid>, next: nat, stage: Stage, adopted: bool)

  /**
   `may` and `held` are ghosts of the servers: the models they may hold or come to hold, and
   those they hold. `startup` is what `start` has still to track.
   */
  datatype State = State(
    recs: seq<Record>,
    loaded: map<string, Rid>,
    fit: bool,
    waiting: seq<Ticket>,
    reqs: map<Tid, Request>,
    tasks: seq<Task>,
    lock: Option<Tid>,
    startup: seq<Rid>,
    now: real,
    may: set<string>,
    held: set<string>)

  datatype Action =
    | Arrive(t: Tid, name: string)
    | TakeCheckLock(t: Tid)
    | Surveyed(t: Tid, survey: Survey)
    | TrackNext(t: Tid, decode: Option<int>)
    | TrackDone(t: Tid)
    | Look(t: Tid)
    | TakePlaceLock(t: Tid, conflicts: seq<Rid>)
    | Observed(t: Tid, activity: Option<Activity>)
    | Wake(t: Tid)
    | JoinWake(t: Tid)
    | Release(t: Tid)
    | Cancel(t: Tid)
    | StartupTrack(decode: Option<int>)
    | StartSwap(k: Kid)
    | Unloaded(k: Kid)
    | UnloadFailed(k: Kid, error: string)
    | LoadReturned(k: Kid, failure: Option<string>)
    | BaselineRead(k: Kid, decode: Option<int>)
    | Confirmed(k: Kid, gone: bool)
    | Tick(d: real)
    | Vanish(id: string)
    | Appear(id: string)

  // ----- Small helpers

  function Fresh(v: Variant, now: real, ready: bool): Record {
    Record(v, now, 0, 0, None, ready, None, false, None, None, 0, false)
  }

  function SetPc(s: State, t: Tid, pc: Pc): State
    requires t in s.reqs
  {
    s.(reqs := s.reqs[t := s.reqs[t].(pc := pc)])
  }

  function SetRec(s: State, r: Rid, rec: Record): State
    requires r < |s.recs|
  {
    s.(recs := s.recs[r := rec])
  }

  function SetTask(s: State, k: Kid, task: Task): State
    requires k < |s.tasks|
  {
    s.(tasks := s.tasks[k := task])
  }

  /** The place of a request's ticket, or the length of the line. */
  function Place(w: seq<Ticket>, t: Tid): (p: nat)
    ensures p <= |w|
    ensures p < |w| ==> w[p].tid == t
    ensures forall i | 0 <= i < p :: w[i].tid != t
  {
    if w == [] then 0 else if w[0].tid == t then 0 else 1 + Place(w[1..], t)
  }

  /** `list.remove`, with a missing ticket suppressed. */
  function Remove(w: seq<Ticket>, t: Tid): seq<Ticket> {
    var p := Place(w, t);
    if p < |w| then w[..p] + w[p + 1..] else w
  }

  /** Two requests for different models that claim the same resource. */
  predicate Rival(other: Variant, v: Variant) {
    other.id != v.id && ClaimsConflict(other, v)
  }

  predicate RivalAhead(w: seq<Ticket>, t: Tid, v: Variant) {
    exists i | 0 <= i < Place(w, t) :: Rival(w[i].variant, v)
  }

  // ----- Requests

  /** `acquire` once the router is known to be fit: take a place in the line. */
  function Enter(cfg: Config, s: State, t: Tid, name: string): State
    requires name in cfg.catalogue
  {
    s.(reqs := s.reqs[t := Request(name, s.now + cfg.maxWait, Looking)],
       waiting := s.waiting + [Ticket(t, cfg.catalogue[name])])
  }

  function DoArrive(cfg: Config, s: State, t: Tid, name: string): State {
    if name !in cfg.catalogue then
      s.(reqs := s.reqs[t := Request(name, 0.0, Ended(Refused(UnknownModel)))])
    else if s.fit then Enter(cfg, s, t, name)
    else s.(reqs := s.reqs[t := Request(name, 0.0, Checking)])
  }

  function DoTakeCheckLock(cfg: Config, s: State, t: Tid): State
    requires t in s.reqs && s.reqs[t].name in cfg.catalogue
  {
    if s.fit then Enter(cfg, s, t, s.reqs[t].name)
    else SetPc(s, t, Surveying(s.now)).(lock := Some(t))
  }

  /** `join`: admit the request into a record, or have it wait for the record to be ready. */
  function Join(s: State, t: Tid, r: Rid): State
    requires t in s.reqs && r < |s.recs|
  {
    var rec := s.recs[r];
    if !rec.ready then SetPc(SetRec(s, r, rec.(queued := rec.queued + 1)), t, Joining(r))
    else JoinReady(s, t, r)
  }

  function JoinReady(s: State, t: Tid, r: Rid): State
    requires t in s.reqs && r < |s.recs|
  {
    var rec := s.recs[r];
    if rec.error.Some? then SetPc(s, t, Ended(Refused(LoadFailed(rec.error.value))))
    else SetPc(SetRec(s, r, rec.(active := rec.active + 1)), t, Admitted(r))
  }

  /** `max(1, math.ceil(...))` of the time left, 5 when the end is unknown or zero. */
  function RetryAfter(until: Option<real>, now: real): int {
    if until.Some? && until.value != 0.0 then
      var n := -((now - until.value).Floor);
      if n < 1 then 1 else n
    else 5
  }

  /** What `acquire` does with a request that could not be placed. */
  function Settle(cfg: Config, s: State, t: Tid, blocked: Blocked): State
    requires t in s.reqs
  {
    if blocked.until.Some? && blocked.until.value <= s.now then SetPc(s, t, Looking)
    else if s.now >= s.reqs[t].deadline then
      SetPc(s, t, Ended(Refused(ResourceBusy(blocked.reason, RetryAfter(blocked.until, s.now)))))
        .(waiting := Remove(s.waiting, t))
    else
      var recheck := if blocked.until.Some? && blocked.until.value != 0.0 then blocked.until.value else s.now + cfg.poll;
      SetPc(s, t, Sleeping(if recheck < s.reqs[t].deadline then recheck else s.reqs[t].deadline))
  }

  /** The head of `acquire`'s loop, and `place` up to the lock. */
  function DoLook(cfg: Config, s: State, t: Tid): State
    requires t in s.reqs && s.reqs[t].name in cfg.catalogue
    requires s.reqs[t].name in s.loaded ==> s.loaded[s.reqs[t].name] < |s.recs|
  {
    var name := s.reqs[t].name;
    if name in s.loaded && !s.recs[s.loaded[name]].leaving then
      Join(s.(waiting := Remove(s.waiting, t)), t, s.loaded[name])
    else if RivalAhead(s.waiting, t, cfg.catalogue[name]) then
      Settle(cfg, s, t, Blocked(EarlierRequest, None))
    else SetPc(s, t, Queueing)
  }

  predicate InRange(rs: seq<Rid>, n: nat) {
    forall i | 0 <= i < |rs| :: rs[i] < n
  }

  /** `place` from the moment it holds the lock. */
  function DoTakePlaceLock(cfg: Config, s: State, t: Tid, conflicts: seq<Rid>): State
    requires t in s.reqs && s.reqs[t].name in cfg.catalogue
    requires s.reqs[t].name in s.loaded ==> s.loaded[s.reqs[t].name] < |s.recs|
    requires InRange(conflicts, |s.recs|)
  {
    var name := s.reqs[t].name;
    if name in s.loaded then
      if s.recs[s.loaded[name]].leaving then Settle(cfg, s, t, Blocked(BeingUnloaded, None))
      else Settle(cfg, s, t, Blocked(LoadedByAnother, Some(s.now)))
    else Advance(cfg, s.(lock := Some(t)), t, conflicts, s.now, s.now, false, [])
  }

  predicate Used(rec: Record) {
    rec.active != 0 || rec.queued != 0 || rec.leaving
  }

  predicate JustWasUsed(recs: seq<Record>, conflicts: seq<Rid>)
    requires InRange(conflicts, |recs|)
  {
    exists i | 0 <= i < |conflicts| :: Used(recs[conflicts[i]])
  }

  function Unlock(s: State): State {
    s.(lock := None)
  }

  /** `busy` from its next conflict on, up to its next observation, and what follows it. */
  function Advance(cfg: Config, s: State, t: Tid, conflicts: seq<Rid>, began: real, until: real,
                   recent: bool, seen: seq<Sighting>): State
    requires t in s.reqs && s.reqs[t].name in cfg.catalogue
    requires InRange(conflicts, |s.recs|)
  {
    if |seen| < |conflicts| then
      var rec := s.recs[conflicts[|seen|]];
      if rec.leaving then Settle(cfg, Unlock(s), t, Blocked(BeingUnloaded, None))
      else if rec.active != 0 || rec.queued != 0 || !rec.ready then
        Settle(cfg, Unlock(s), t, Blocked(Working, None))
      else SetPc(s, t, Observing(conflicts, began, until, recent, rec, seen))
    else if recent then Settle(cfg, Unlock(s), t, Blocked(RecentlyUsed, Some(until)))
    else if JustWasUsed(s.recs, conflicts) then
      Settle(cfg, Unlock(s), t, Blocked(JustUsed, Some(s.now)))
    else Commit(cfg, s, t, conflicts)
  }

  function MarkLeaving(recs: seq<Record>, conflicts: seq<Rid>, k: Kid): (recs': seq<Record>)
    ensures |recs'| == |recs|
  {
    seq(|recs|, i requires 0 <= i < |recs| =>
      if i in conflicts then recs[i].(leaving := true, unloader := Some(k), unloaded := false) else recs[i])
  }

  /** The decision: the victims leave, and the model takes its place in `loaded`. */
  function Commit(cfg: Config, s: State, t: Tid, conflicts: seq<Rid>): State
    requires t in s.reqs && s.reqs[t].name in cfg.catalogue
  {
    var name := s.reqs[t].name;
    var r, k := |s.recs|, |s.tasks|;
    var model := Fresh(cfg.catalogue[name], s.now, false).(loader := Some(k), queued := 1);
    s.(recs := MarkLeaving(s.recs, conflicts, k) + [model],
       loaded := s.loaded[name := r],
       tasks := s.tasks + [Task(r, conflicts, 0, Starting, false)],
       waiting := Remove(s.waiting, t),
       lock := None,
       reqs := s.reqs[t := s.reqs[t].(pc := Joining(r))])
  }

  /** What an answered observation leaves on the record. */
  function Noted(rec: Record, activity: Activity, now: real): Record {
    var worked := rec.decode.None? || activity.decode != rec.decode.value;
    rec.(lastActivity := if worked then now else rec.lastActivity, decode := Some(activity.decode))
  }

  function DoObserved(cfg: Config, s: State, t: Tid, activity: Option<Activity>): State
    requires t in s.reqs && s.reqs[t].name in cfg.catalogue
    requires s.reqs[t].pc.Observing? && |s.reqs[t].pc.seen| < |s.reqs[t].pc.conflicts|
    requires InRange(s.reqs[t].pc.conflicts, |s.recs|)
  {
    var pc := s.reqs[t].pc;
    if activity.None? then Settle(cfg, Unlock(s), t, Blocked(Unobservable, None))
    else
      var c := pc.conflicts[|pc.seen|];
      var rec := Noted(s.recs[c], activity.value, s.now);
      var s' := SetRec(s, c, rec);
      if activity.value.processing || activity.value.deferred != 0 then
        Settle(cfg, Unlock(s'), t, Blocked(ServerBusy, None))
      else
        var seen := pc.seen + [Sighting(pc.glance, s.recs[c], activity.value, s.now)];
        var protectedUntil := rec.lastActivity + cfg.protect;
        if protectedUntil > pc.until then Advance(cfg, s', t, pc.conflicts, pc.began, protectedUntil, true, seen)
        else Advance(cfg, s', t, pc.conflicts, pc.began, pc.until, pc.recent, seen)
  }

  function DoJoinWake(s: State, t: Tid): State
    requires t in s.reqs && s.reqs[t].pc.Joining? && s.reqs[t].pc.rid < |s.recs|
  {
    var r := s.reqs[t].pc.rid;
    JoinReady(SetRec(s, r, s.recs[r].(queued := s.recs[r].queued - 1)), t, r)
  }

  function DoRelease(s: State, t: Tid): State
    requires t in s.reqs && s.reqs[t].pc.Admitted? && s.reqs[t].pc.rid < |s.recs|
  {
    var r := s.reqs[t].pc.rid;
    SetPc(SetRec(s, r, s.recs[r].(active := s.recs[r].active - 1, lastActivity := s.now)), t, Ended(Finished))
  }

  /** Cancellation at an await: the `finally` blocks, and leaving `async with`. */
  function DoCancel(s: State, t: Tid): State
    requires t in s.reqs
    requires s.reqs[t].pc.Joining? ==> s.reqs[t].pc.rid < |s.recs|
  {
    var pc := s.reqs[t].pc;
    var s1 := if pc.Joining? then SetRec(s, pc.rid, s.recs[pc.rid].(queued := s.recs[pc.rid].queued - 1)) else s;
    SetPc(s1, t, Ended(Cancelled))
      .(waiting := Remove(s.waiting, t),
        lock := if pc.Observing? || pc.Surveying? then None else s.lock)
  }

  // ----- Re-inspection

  function FoundIds(found: seq<Adopted>): set<string> {
    set a | a in found :: a.id
  }

  /** No model is found twice. */
  predicate ApartIds(found: seq<Adopted>) {
    forall i, j | 0 <= i < j < |found| :: found[i].id != found[j].id
  }

  /** Where an adopted model stands in a list that has it. */
  function IndexOfId(found: seq<Adopted>, id: string): (i: nat)
    requires id in FoundIds(found)
    ensures i < |found| && found[i].id == id
    ensures forall j | 0 <= j < i :: found[j].id != id
  {
    if found[0].id == id then 0
    else
      assert id in FoundIds(found[1..]);
      1 + IndexOfId(found[1..], id)
  }

  predicate LoadedShape(recs: seq<Record>, loaded: map<string, Rid>) {
    forall id | id in loaded :: loaded[id] < |recs| && recs[loaded[id]].variant.id == id
  }

  /** A reported model gets a new record if it is not tracked, or its load failed. */
  predicate NeedsFresh(recs: seq<Record>, loaded: map<string, Rid>, id: string)
    requires LoadedShape(recs, loaded)
  {
    id in loaded ==> recs[loaded[id]].error.Some?
  }

  function Renewed(recs: seq<Record>, loaded: map<string, Rid>, found: seq<Adopted>): (anew: seq<Adopted>)
    requires LoadedShape(recs, loaded)
    ensures forall a :: a in anew <==> a in found && NeedsFresh(recs, loaded, a.id)
  {
    if found == [] then []
    else if NeedsFresh(recs, loaded, found[0].id) then [found[0]] + Renewed(recs, loaded, found[1..])
    else Renewed(recs, loaded, found[1..])
  }

  /** A tracked model no server reports is kept while in use, in transit, or out of sight. */
  predicate Kept(rec: Record, unreachable: set<string>) {
    rec.active != 0 || rec.leaving || !rec.ready || rec.variant.backend in unreachable
  }

  function Merged(recs: seq<Record>, loaded: map<string, Rid>, survey: Survey): (merged: map<string, Rid>)
    requires LoadedShape(recs, loaded)
    ensures forall id ::
      id in merged <==> id in FoundIds(survey.found)
                        || (id in loaded && Kept(recs[loaded[id]], survey.unreachable))
  {
    var ids := FoundIds(survey.found);
    var anew := Renewed(recs, loaded, survey.found);
    map id | id in ids + loaded.Keys && (id in ids || Kept(recs[loaded[id]], survey.unreachable)) ::
      if id in ids && NeedsFresh(recs, loaded, id) then
        var a :| a in survey.found && a.id == id;
        assert a in anew;
        |recs| + IndexOfId(anew, id)
      else loaded[id]
  }

  function NewRecords(cfg: Config, anew: seq<Adopted>, began: real): (recs: seq<Record>)
    requires forall a | a in anew :: a.id in cfg.catalogue
    ensures |recs| == |anew|
  {
    seq(|anew|, i requires 0 <= i < |anew| => Fresh(cfg.catalogue[anew[i].id], began, anew[i].ready))
  }

  function From(n: nat, m: nat): (rs: seq<Rid>)
    ensures |rs| == m && forall i | 0 <= i < m :: rs[i] == n + i
  {
    seq(m, i requires 0 <= i < m => n + i)
  }

  /**
   The models that a survey shows to be gone for good: reachable, neither reported nor held,
   and with no load of theirs under way.
   */
  ghost function ShownGone(cfg: Config, s: State, survey: Survey): set<string>
    requires LoadedShape(s.recs, s.loaded)
  {
    set id | id in s.may && id !in s.held && id !in FoundIds(survey.found)
      && (id in cfg.catalogue ==> cfg.catalogue[id].backend !in survey.unreachable)
      && (id in s.loaded ==> s.recs[s.loaded[id]].ready)
  }

  ghost function DoSurveyed(cfg: Config, s: State, t: Tid, survey: Survey): State
    requires t in s.reqs && s.reqs[t].pc.Surveying?
    requires LoadedShape(s.recs, s.loaded)
    requires FoundIds(survey.found) <= cfg.catalogue.Keys
  {
    var anew := Renewed(s.recs, s.loaded, survey.found);
    assert forall a | a in anew :: a.id in FoundIds(survey.found);
    var s' := s.(recs := s.recs + NewRecords(cfg, anew, s.reqs[t].pc.began),
                 loaded := Merged(s.recs, s.loaded, survey),
                 fit := !survey.problems,
                 may := s.may - ShownGone(cfg, s, survey));
    SetPc(s', t, Tracking(From(|s.recs|, |anew|)))
  }

  /** One round of `track`: watch a model still loading, or read a baseline. */
  function TrackOne(s: State, r: Rid, decode: Option<int>): State
    requires r < |s.recs|
  {
    var rec := s.recs[r];
    if rec.ready then SetRec(s, r, rec.(decode := if decode.Some? then decode else rec.decode))
    else
      SetRec(s, r, rec.(loader := Some(|s.tasks|)))
        .(tasks := s.tasks + [Task(r, [], 0, Loading, true)])
  }

  function DoTrackNext(s: State, t: Tid, decode: Option<int>): State
    requires t in s.reqs && s.reqs[t].pc.Tracking?
    requires s.reqs[t].pc.todo != [] && s.reqs[t].pc.todo[0] < |s.recs|
  {
    var todo := s.reqs[t].pc.todo;
    SetPc(TrackOne(s, todo[0], decode), t, Tracking(todo[1..]))
  }

  function DoTrackDone(cfg: Config, s: State, t: Tid): State
    requires t in s.reqs && s.reqs[t].name in cfg.catalogue
  {
    if s.fit then Enter(cfg, Unlock(s), t, s.reqs[t].name)
    else SetPc(Unlock(s), t, Ended(Refused(RouterUnfit)))
  }

  function DoStartupTrack(s: State, decode: Option<int>): State
    requires s.startup != [] && s.startup[0] < |s.recs|
  {
    TrackOne(s, s.startup[0], decode).(startup := s.startup[1..])
  }

  // ----- Background tasks

  predicate TaskShape(n: nat, task: Task) {
    task.model < n && InRange(task.victims, n)
    && (task.stage.Starting? ==> task.next == 0)
    && (task.stage.Unloading? ==> task.next < |task.victims|)
  }

  function Id(s: State, r: Rid): string
    requires r < |s.recs|
  {
    s.recs[r].variant.id
  }

  /** The load is asked of the server once every unload has returned. */
  function IssueLoad(s: State, k: Kid): State
    requires k < |s.tasks| && s.tasks[k].model < |s.recs|
  {
    var m := s.tasks[k].model;
    SetTask(SetRec(s, m, s.recs[m].(loads := s.recs[m].loads + 1)), k, s.tasks[k].(stage := Loading))
      .(may := s.may + {Id(s, m)})
  }

  function DoStartSwap(s: State, k: Kid): State
    requires k < |s.tasks| && TaskShape(|s.recs|, s.tasks[k])
  {
    if s.tasks[k].victims == [] then IssueLoad(s, k)
    else SetTask(s, k, s.tasks[k].(stage := Unloading))
  }

  /** An unload returned: the victim is deleted from `loaded`, or the key error kills the task. */
  function DoUnloaded(s: State, k: Kid): State
    requires k < |s.tasks| && TaskShape(|s.recs|, s.tasks[k]) && s.tasks[k].stage.Unloading?
  {
    var task := s.tasks[k];
    var v := task.victims[task.next];
    var s1 := SetRec(s, v, s.recs[v].(unloaded := true)).(may := s.may - {Id(s, v)});
    if Id(s, v) !in s.loaded then SetTask(s1, k, task.(stage := Crashed))
    else
      var s2 := SetTask(s1.(loaded := s.loaded - {Id(s, v)}), k, task.(next := task.next + 1));
      if task.next + 1 == |task.victims| then IssueLoad(s2, k) else s2
  }

  function Restore(recs: seq<Record>, victims: seq<Rid>): (recs': seq<Record>)
    ensures |recs'| == |recs|
  {
    seq(|recs|, i requires 0 <= i < |recs| =>
      if i in victims then recs[i].(leaving := false, unloader := None) else recs[i])
  }

  /** An unload failed: the victims stay, and the model is given up. */
  function DoUnloadFailed(s: State, k: Kid, error: string): State
    requires k < |s.tasks| && TaskShape(|s.recs|, s.tasks[k])
  {
    var task := s.tasks[k];
    var s1 := s.(recs := Restore(s.recs, task.victims));
    if Id(s, task.model) !in s.loaded then SetTask(s1, k, task.(stage := Crashed))
    else
      var rec := s1.recs[task.model].(error := Some(error), ready := true);
      SetTask(SetRec(s1, task.model, rec).(loaded := s.loaded - {Id(s, task.model)}), k, task.(stage := Over))
  }

  function DoLoadReturned(s: State, k: Kid, failure: Option<string>): State
    requires k < |s.tasks| && s.tasks[k].model < |s.recs|
  {
    var m := s.tasks[k].model;
    if failure.None? then SetTask(s, k, s.tasks[k].(stage := Baseline))
    else SetTask(SetRec(s, m, s.recs[m].(error := failure)), k, s.tasks[k].(stage := Confirming))
  }

  /** The `finally` of `swap` and of `finish_load`; only `swap` notes the time. */
  function Readied(s: State, k: Kid): State
    requires k < |s.tasks| && s.tasks[k].model < |s.recs|
  {
    var m := s.tasks[k].model;
    var last := if s.tasks[k].adopted then s.recs[m].lastActivity else s.now;
    SetTask(SetRec(s, m, s.recs[m].(ready := true, lastActivity := last)), k, s.tasks[k].(stage := Over))
  }

  function DoBaselineRead(s: State, k: Kid, decode: Option<int>): State
    requires k < |s.tasks| && s.tasks[k].model < |s.recs|
  {
    var m := s.tasks[k].model;
    Readied(SetRec(s, m, s.recs[m].(decode := if decode.Some? then decode else s.recs[m].decode)), k)
  }

  /** After a failed load: drop the model only if the server confirms that it is unloaded. */
  function DoConfirmed(s: State, k: Kid, gone: bool): State
    requires k < |s.tasks| && s.tasks[k].model < |s.recs|
  {
    var m := s.tasks[k].model;
    var id := Id(s, m);
    if !gone then Readied(s.(fit := false), k)
    else if id in s.loaded && s.loaded[id] == m then
      Readied(s.(loaded := s.loaded - {id}, may := s.may - {id}), k)
    else Readied(s, k)
  }

  // ----- Shape, steps and runs

  predicate PcShape(n: nat, pc: Pc) {
    match pc
    case Tracking(todo) => InRange(todo, n)
    case Observing(conflicts, _, _, _, _, seen) => InRange(conflicts, n) && |seen| < |conflicts|
    case Joining(r) => r < n
    case Admitted(r) => r < n
    case _ => true
  }

  predicate Active(pc: Pc) {
    !pc.Ended?
  }

  /** References stay in range, and names and variants agree with the catalogue. */
  ghost predicate Shape(cfg: Config, s: State) {
    && LoadedShape(s.recs, s.loaded)
    && (forall r | 0 <= r < |s.recs| :: InCatalogue(cfg, s.recs[r].variant))
    && (forall t | t in s.reqs :: RequestShape(cfg, |s.recs|, s.reqs[t]))
    && (forall k | 0 <= k < |s.tasks| :: TaskShape(|s.recs|, s.tasks[k]))
    && InRange(s.startup, |s.recs|)
  }

  predicate InCatalogue(cfg: Config, v: Variant) {
    v.id in cfg.catalogue && cfg.catalogue[v.id] == v
  }

  predicate RequestShape(cfg: Config, n: nat, q: Request) {
    PcShape(n, q.pc) && (Active(q.pc) ==> q.name in cfg.catalogue)
  }

  /** Every catalogue entry is filed under its own id. */
  ghost predicate Valid(cfg: Config) {
    forall id | id in cfg.catalogue :: cfg.catalogue[id].id == id
  }

  predicate Distinct<T(==)>(xs: seq<T>) {
    forall i, j | 0 <= i < j < |xs| :: xs[i] != xs[j]
  }

  /** The tracked records whose claims conflict with a variant, in some order. */
  ghost predicate Conflicting(recs: seq<Record>, loaded: map<string, Rid>, v: Variant, conflicts: seq<Rid>)
    requires LoadedShape(recs, loaded)
  {
    && Distinct(conflicts)
    && InRange(conflicts, |recs|)
    && (forall i | 0 <= i < |conflicts| ::
          Tracked(recs, loaded, conflicts[i]) && ClaimsConflict(recs[conflicts[i]].variant, v))
    && (forall id | id in loaded && ClaimsConflict(recs[loaded[id]].variant, v) :: loaded[id] in conflicts)
  }

  /** The record is the one that stands for its model. */
  predicate Tracked(recs: seq<Record>, loaded: map<string, Rid>, r: Rid) {
    r < |recs| && recs[r].variant.id in loaded && loaded[recs[r].variant.id] == r
  }

  predicate At(s: State, t: Tid) {
    t in s.reqs
  }

  ghost predicate Enabled(cfg: Config, s: State, a: Action)
    requires Shape(cfg, s)
  {
    match a
    case Arrive(t, _) => t !in s.reqs
    case TakeCheckLock(t) => t in s.reqs && s.reqs[t].pc.Checking? && s.lock.None?
    case Surveyed(t, survey) =>
      && t in s.reqs && s.reqs[t].pc.Surveying?
      && FoundIds(survey.found) <= cfg.catalogue.Keys
      && ApartIds(survey.found)
    case TrackNext(t, _) => t in s.reqs && s.reqs[t].pc.Tracking? && s.reqs[t].pc.todo != []
    case TrackDone(t) => t in s.reqs && s.reqs[t].pc.Tracking? && s.reqs[t].pc.todo == []
    case Look(t) => t in s.reqs && s.reqs[t].pc.Looking?
    case TakePlaceLock(t, conflicts) =>
      && t in s.reqs && s.reqs[t].pc.Queueing? && s.lock.None?
      && Conflicting(s.recs, s.loaded, cfg.catalogue[s.reqs[t].name], conflicts)
    case Observed(t, _) => t in s.reqs && s.reqs[t].pc.Observing?
    case Wake(t) => t in s.reqs && s.reqs[t].pc.Sleeping?
    case JoinWake(t) => t in s.reqs && s.reqs[t].pc.Joining? && s.recs[s.reqs[t].pc.rid].ready
    case Release(t) => t in s.reqs && s.reqs[t].pc.Admitted?
    case Cancel(t) =>
      t in s.reqs && Active(s.reqs[t].pc) && !s.reqs[t].pc.Admitted? && !s.reqs[t].pc.Tracking?
    case StartupTrack(_) => s.startup != []
    case StartSwap(k) => k < |s.tasks| && s.tasks[k].stage.Starting?
    case Unloaded(k) => k < |s.tasks| && s.tasks[k].stage.Unloading?
    case UnloadFailed(k, _) => k < |s.tasks| && s.tasks[k].stage.Unloading?
    case LoadReturned(k, _) => k < |s.tasks| && s.tasks[k].stage.Loading?
    case BaselineRead(k, _) => k < |s.tasks| && s.tasks[k].stage.Baseline?
    case Confirmed(k, _) => k < |s.tasks| && s.tasks[k].stage.Confirming?
    case Tick(d) => d >= 0.0
    case Vanish(_) => true
    case Appear(id) => id in s.may
  }

  ghost function Apply(cfg: Config, s: State, a: Action): State
    requires Shape(cfg, s) && Enabled(cfg, s, a)
  {
    match a
    case Arrive(t, name) => DoArrive(cfg, s, t, name)
    case TakeCheckLock(t) => DoTakeCheckLock(cfg, s, t)
    case Surveyed(t, survey) => DoSurveyed(cfg, s, t, survey)
    case TrackNext(t, decode) => DoTrackNext(s, t, decode)
    case TrackDone(t) => DoTrackDone(cfg, s, t)
    case Look(t) => DoLook(cfg, s, t)
    case TakePlaceLock(t, conflicts) => DoTakePlaceLock(cfg, s, t, conflicts)
    case Observed(t, activity) => DoObserved(cfg, s, t, activity)
    case Wake(t) => SetPc(s, t, Looking)
    case JoinWake(t) => DoJoinWake(s, t)
    case Release(t) => DoRelease(s, t)
    case Cancel(t) => DoCancel(s, t)
    case StartupTrack(decode) => DoStartupTrack(s, decode)
    case StartSwap(k) => DoStartSwap(s, k)
    case Unloaded(k) => DoUnloaded(s, k)
    case UnloadFailed(k, error) => DoUnloadFailed(s, k, error)
    case LoadReturned(k, failure) => DoLoadReturned(s, k, failure)
    case BaselineRead(k, decode) => DoBaselineRead(s, k, decode)
    case Confirmed(k, gone) => DoConfirmed(s, k, gone)
    case Tick(d) => s.(now := s.now + d)
    case Vanish(id) => s.(held := s.held - {id})
    case Appear(id) => s.(held := s.held + {id})
  }

  /** The state the source starts in: what a survey adopted, and nothing under way. */
  ghost predicate Init(cfg: Config, s: State) {
    && Shape(cfg, s)
    && (forall r | 0 <= r < |s.recs| ::
          Tracked(s.recs, s.loaded, r) && s.recs[r] == Fresh(s.recs[r].variant, s.now, s.recs[r].ready))
    && s.startup == From(0, |s.recs|)
    && s.waiting == [] && s.reqs == map[] && s.tasks == [] && s.lock == None
  }
}
