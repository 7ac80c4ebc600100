/**
 Records and the tasks that own them, over all runs and whatever the surveys report: which
 task will make a record ready, which is to unload it, and how records are used meanwhile.
 */
module Links {
  import opened Wrappers
  import opened Machine
  import opened Line
  import opened Frames

  /**
   A record in transit serves nobody: an unready or failed one has admitted no request, and one
   that is leaving has neither admitted nor queued requests.
   */
  predicate UseOk(rec: Record) {
    && (!rec.ready ==> rec.active == 0)
    && (rec.error.Some? ==> rec.active == 0)
    && (rec.leaving ==> rec.ready && rec.active == 0 && rec.queued == 0)
  }

  ghost predicate UseInv(s: State) {
    forall r | 0 <= r < |s.recs| :: UseOk(s.recs[r])
  }

  predicate BeforeLoad(stage: Stage) {
    stage.Starting? || stage.Unloading?
  }

  predicate Halted(stage: Stage) {
    BeforeLoad(stage) || stage.Crashed?
  }

  predicate RecordLinked(tasks: seq<Task>, rec: Record, r: Rid) {
    && rec.loads <= 1
    && (!rec.ready && rec.loader.Some? ==>
          var k := rec.loader.value; k < |tasks| && tasks[k].model == r && !tasks[k].stage.Over?)
    && (!rec.ready && rec.loader.None? ==> rec.error.None? && rec.loads == 0)
    && (rec.leaving && !rec.unloaded ==>
          rec.unloader.Some?
          && var k := rec.unloader.value; k < |tasks| && Halted(tasks[k].stage) && r in tasks[k].victims)
  }

  predicate VictimLinked(rec: Record, k: Kid, done: bool) {
    rec.leaving && rec.unloader == Some(k) && (rec.unloaded <==> done)
  }

  predicate TaskLinked(recs: seq<Record>, task: Task, k: Kid)
    requires TaskShape(|recs|, task)
  {
    && (!task.stage.Over? ==>
          var rec := recs[task.model];
          && !rec.ready && rec.loader == Some(k)
          && (rec.error.Some? <==> task.stage.Confirming?)
          && rec.loads == if task.adopted || Halted(task.stage) then 0 else 1)
    && (BeforeLoad(task.stage) ==>
          && !task.adopted && Distinct(task.victims)
          && forall j | 0 <= j < |task.victims| :: VictimLinked(recs[task.victims[j]], k, j < task.next))
  }

  ghost predicate LinkInv(s: State)
    requires forall k | 0 <= k < |s.tasks| :: TaskShape(|s.recs|, s.tasks[k])
  {
    && (forall r | 0 <= r < |s.recs| :: RecordLinked(s.tasks, s.recs[r], r))
    && (forall k | 0 <= k < |s.tasks| :: TaskLinked(s.recs, s.tasks[k], k))
  }

  /** Two records that tasks see alike. */
  predicate SameLinks(a: Record, b: Record) {
    && b.ready == a.ready && b.error == a.error && b.leaving == a.leaving && b.loads == a.loads
    && b.loader == a.loader && b.unloader == a.unloader && b.unloaded == a.unloaded
  }

  lemma LightLinks(cfg: Config, s: State, s': State)
    requires Shape(cfg, s) && Shape(cfg, s') && LinkInv(s) && Light(s, s')
    ensures LinkInv(s')
  {
    forall r | 0 <= r < |s'.recs|
      ensures RecordLinked(s'.tasks, s'.recs[r], r) && SameLinks(s.recs[r], s'.recs[r])
    {
      assert RecordLinked(s.tasks, s.recs[r], r) && Touch(s.recs[r], s'.recs[r]);
    }
    forall k | 0 <= k < |s'.tasks|
      ensures TaskLinked(s'.recs, s'.tasks[k], k)
    {
      assert TaskShape(|s.recs|, s.tasks[k]) && TaskLinked(s.recs, s.tasks[k], k);
      forall j | 0 <= j < |s.tasks[k].victims| && BeforeLoad(s.tasks[k].stage)
        ensures VictimLinked(s'.recs[s.tasks[k].victims[j]], k, j < s.tasks[k].next)
      {
        assert VictimLinked(s.recs[s.tasks[k].victims[j]], k, j < s.tasks[k].next);
      }
    }
  }

  // ----- What a placer and a tracker may rely on

  predicate Idle(rec: Record) {
    rec.ready && !rec.leaving
  }

  /** The conflicts looked at so far are ready and not leaving; what is still to track is unowned. */
  predicate PcOk(recs: seq<Record>, startup: seq<Rid>, pc: Pc)
    requires PcShape(|recs|, pc)
  {
    match pc
    case Observing(conflicts, _, _, _, _, seen) =>
      Distinct(conflicts) && forall j | 0 <= j <= |seen| :: Idle(recs[conflicts[j]])
    case Tracking(todo) =>
      TodoOk(recs, todo) && forall i, j | 0 <= i < |todo| && 0 <= j < |startup| :: todo[i] != startup[j]
    case _ => true
  }

  predicate TodoOk(recs: seq<Record>, todo: seq<Rid>)
    requires InRange(todo, |recs|)
  {
    Distinct(todo) && forall i | 0 <= i < |todo| :: Unowned(recs[todo[i]])
  }

  predicate Unowned(rec: Record) {
    !rec.ready ==> rec.loader.None?
  }

  ghost predicate PcInv(cfg: Config, s: State)
    requires Shape(cfg, s)
  {
    && TodoOk(s.recs, s.startup)
    && (forall t | t in s.reqs :: PcAt(s, t))
  }

  predicate PcAt(s: State, t: Tid) {
    t in s.reqs && PcShape(|s.recs|, s.reqs[t].pc) && PcOk(s.recs, s.startup, s.reqs[t].pc)
  }

  /** Records only settle: ready stays, and nothing unowned is claimed unseen. */
  predicate Settles(a: Record, b: Record) {
    (a.ready ==> b.ready) && (Idle(a) ==> Idle(b)) && (Unowned(a) ==> Unowned(b))
  }

  lemma PcStays(s: State, s': State, t: Tid)
    requires PcAt(s, t) && t in s'.reqs && s'.reqs[t].pc == s.reqs[t].pc
    requires |s.recs| <= |s'.recs| && forall r | 0 <= r < |s.recs| :: Settles(s.recs[r], s'.recs[r])
    requires s'.startup == s.startup
    ensures PcAt(s', t)
  {
    match s.reqs[t].pc
    case Observing(conflicts, _, _, _, _, seen) =>
      assert forall j | 0 <= j <= |seen| :: Idle(s.recs[conflicts[j]]);
    case Tracking(todo) =>
      assert forall i | 0 <= i < |todo| :: Unowned(s.recs[todo[i]]);
    case _ =>
  }

  lemma PcKept(cfg: Config, s: State, s': State, t: Tid)
    requires Shape(cfg, s) && Shape(cfg, s') && PcInv(cfg, s) && OnlyMoved(s, s', t) && PcAt(s', t)
    requires |s.recs| <= |s'.recs| && forall r | 0 <= r < |s.recs| :: Settles(s.recs[r], s'.recs[r])
    requires s'.startup == s.startup
    ensures PcInv(cfg, s')
  {
    forall u | u in s'.reqs
      ensures PcAt(s', u)
    {
      if u != t {
        assert PcAt(s, u);
        PcStays(s, s', u);
      }
    }
    assert forall i | 0 <= i < |s.startup| :: Unowned(s.recs[s.startup[i]]);
  }

  lemma PcSame(cfg: Config, s: State, s': State)
    requires Shape(cfg, s) && Shape(cfg, s') && PcInv(cfg, s) && s'.reqs == s.reqs
    requires |s.recs| <= |s'.recs| && forall r | 0 <= r < |s.recs| :: Settles(s.recs[r], s'.recs[r])
    requires s'.startup == s.startup
    ensures PcInv(cfg, s')
  {
    forall u | u in s'.reqs
      ensures PcAt(s', u)
    {
      assert PcAt(s, u);
      PcStays(s, s', u);
    }
    assert forall i | 0 <= i < |s.startup| :: Unowned(s.recs[s.startup[i]]);
  }

  lemma LightSettles(s: State, s': State)
    requires Light(s, s')
    ensures forall r | 0 <= r < |s.recs| :: Settles(s.recs[r], s'.recs[r])
  {
    forall r | 0 <= r < |s.recs|
      ensures Settles(s.recs[r], s'.recs[r])
    {
      assert Touch(s.recs[r], s'.recs[r]);
    }
  }
}
