/** Background tasks keep their own links and everyone else's. */
module TaskSteps {
  import opened Wrappers
  import opened Machine
  import opened Shapes
  import opened Links

  /** A task changed only itself and records that are no other task's concern. */
  ghost predicate Owns(s: State, k: Kid, r: Rid)
    requires k < |s.tasks| && r < |s.recs|
  {
    (!s.recs[r].ready && s.recs[r].loader == Some(k)) || (s.recs[r].leaving && s.recs[r].unloader == Some(k))
  }

  /** Records of other tasks look the same to them. */
  ghost predicate OthersAlike(s: State, s': State, k: Kid)
    requires k < |s.tasks|
  {
    |s'.recs| == |s.recs| && forall r | 0 <= r < |s.recs| && !Owns(s, k, r) :: SameLinks(s.recs[r], s'.recs[r])
  }

  lemma OthersLinked(cfg: Config, s: State, s': State, k: Kid, i: Kid)
    requires Shape(cfg, s) && LinkInv(s) && UseInv(s) && TaskMoved(s, s', k) && OthersAlike(s, s', k)
    requires i < |s.tasks| && i != k && Shape(cfg, s')
    ensures TaskShape(|s'.recs|, s'.tasks[i]) && TaskLinked(s'.recs, s'.tasks[i], i)
  {
    var task := s.tasks[i];
    assert TaskShape(|s.recs|, task) && TaskLinked(s.recs, task, i);
    if !task.stage.Over? {
      assert UseOk(s.recs[task.model]);
      assert !Owns(s, k, task.model);
    }
    if BeforeLoad(task.stage) {
      forall j | 0 <= j < |task.victims|
        ensures VictimLinked(s'.recs[task.victims[j]], i, j < task.next)
      {
        assert VictimLinked(s.recs[task.victims[j]], i, j < task.next);
        assert UseOk(s.recs[task.victims[j]]);
        assert !Owns(s, k, task.victims[j]);
      }
    }
  }

  lemma TaskKeepsLinks(cfg: Config, s: State, s': State, k: Kid)
    requires Shape(cfg, s) && LinkInv(s) && UseInv(s) && TaskMoved(s, s', k) && OthersAlike(s, s', k) && Shape(cfg, s')
    requires TaskLinked(s'.recs, s'.tasks[k], k)
    requires forall r | 0 <= r < |s.recs| && Owns(s, k, r) :: RecordLinked(s'.tasks, s'.recs[r], r)
    ensures LinkInv(s')
  {
    forall i | 0 <= i < |s'.tasks|
      ensures TaskLinked(s'.recs, s'.tasks[i], i)
    {
      if i != k { OthersLinked(cfg, s, s', k, i); }
    }
    forall r | 0 <= r < |s'.recs|
      ensures RecordLinked(s'.tasks, s'.recs[r], r)
    {
      if !Owns(s, k, r) {
        assert RecordLinked(s.tasks, s.recs[r], r) && SameLinks(s.recs[r], s'.recs[r]);
      }
    }
  }

  /** The model of a live task, and the victims it has still to unload. */
  lemma TaskFacts(cfg: Config, s: State, k: Kid)
    requires Shape(cfg, s) && LinkInv(s) && UseInv(s) && k < |s.tasks|
    ensures TaskShape(|s.recs|, s.tasks[k]) && TaskLinked(s.recs, s.tasks[k], k)
    ensures !s.tasks[k].stage.Over? ==>
              var rec := s.recs[s.tasks[k].model]; !rec.ready && !rec.leaving && rec.loader == Some(k)
    ensures BeforeLoad(s.tasks[k].stage) ==>
              forall j | 0 <= j < |s.tasks[k].victims| ::
                VictimLinked(s.recs[s.tasks[k].victims[j]], k, j < s.tasks[k].next)
    ensures BeforeLoad(s.tasks[k].stage) ==> forall v | v in s.tasks[k].victims :: s.recs[v].ready && v != s.tasks[k].model
    ensures forall r | 0 <= r < |s.recs| && !s.recs[r].ready && s.recs[r].loader == Some(k) :: r == s.tasks[k].model
    ensures forall r | 0 <= r < |s.recs| && s.recs[r].leaving && !s.recs[r].unloaded && s.recs[r].unloader == Some(k) ::
              Halted(s.tasks[k].stage) && r in s.tasks[k].victims
  {
    var task := s.tasks[k];
    assert TaskShape(|s.recs|, task) && TaskLinked(s.recs, task, k);
    assert UseOk(s.recs[task.model]);
    forall v | v in task.victims && BeforeLoad(task.stage)
      ensures s.recs[v].ready && v != task.model
    {
      var j :| 0 <= j < |task.victims| && task.victims[j] == v;
      assert VictimLinked(s.recs[task.victims[j]], k, j < task.next);
      assert UseOk(s.recs[v]);
    }
    assert forall r | 0 <= r < |s.recs| :: RecordLinked(s.tasks, s.recs[r], r);
  }

  lemma StartSwapLinks(cfg: Config, s: State, k: Kid)
    requires Shape(cfg, s) && LinkInv(s) && UseInv(s) && k < |s.tasks| && s.tasks[k].stage.Starting?
    ensures TaskShape(|s.recs|, s.tasks[k]) && Shape(cfg, DoStartSwap(s, k)) && LinkInv(DoStartSwap(s, k))
  {
    TaskFacts(cfg, s, k);
    StartSwapMoved(s, k);
    var s' := DoStartSwap(s, k);
    TaskMovedShape(cfg, s, s', k);
    StartSwapTask(s, k);
    forall r | 0 <= r < |s.recs| && Owns(s, k, r)
      ensures RecordLinked(s'.tasks, s'.recs[r], r)
    {
      assert RecordLinked(s.tasks, s.recs[r], r);
    }
    TaskKeepsLinks(cfg, s, s', k);
  }

  lemma StartSwapTask(s: State, k: Kid)
    requires k < |s.tasks| && TaskShape(|s.recs|, s.tasks[k]) && TaskLinked(s.recs, s.tasks[k], k)
    requires s.tasks[k].stage.Starting? && forall v | v in s.tasks[k].victims :: v != s.tasks[k].model
    ensures var s' := DoStartSwap(s, k);
            TaskShape(|s'.recs|, s'.tasks[k]) && TaskLinked(s'.recs, s'.tasks[k], k) && OthersAlike(s, s', k)
  {
    var s' := DoStartSwap(s, k);
    forall j | 0 <= j < |s.tasks[k].victims|
      ensures VictimLinked(s'.recs[s.tasks[k].victims[j]], k, false)
    {
      assert VictimLinked(s.recs[s.tasks[k].victims[j]], k, false);
    }
  }

  /** What a returned unload does to the records and to its task. */
  ghost predicate UnloadEffect(s: State, s': State, k: Kid)
    requires k < |s.tasks| && TaskShape(|s.recs|, s.tasks[k]) && s.tasks[k].stage.Unloading?
  {
    && |s'.recs| == |s.recs| && |s'.tasks| == |s.tasks|
    && s'.tasks == s.tasks[k := s'.tasks[k]]
    && var task := s.tasks[k];
    var v, m := task.victims[task.next], task.model;
    var last := s'.tasks[k].stage.Loading?;
    && (m != v ==> s'.recs[v] == s.recs[v].(unloaded := true))
    && (m != v ==> s'.recs[m] == s.recs[m].(loads := if last then s.recs[m].loads + 1 else s.recs[m].loads))
    && (forall r | 0 <= r < |s.recs| && r != v && r != m :: s'.recs[r] == s.recs[r])
    && (|| s'.tasks[k] == task.(stage := Crashed)
        || (s'.tasks[k] == task.(next := task.next + 1) && task.next + 1 < |task.victims|)
        || (s'.tasks[k] == task.(next := task.next + 1, stage := Loading) && task.next + 1 == |task.victims|))
  }

  lemma UnloadHasEffect(s: State, k: Kid)
    requires k < |s.tasks| && TaskShape(|s.recs|, s.tasks[k]) && s.tasks[k].stage.Unloading?
    ensures UnloadEffect(s, DoUnloaded(s, k), k)
  {
  }

  lemma UnloadedLinks(cfg: Config, s: State, k: Kid)
    requires Shape(cfg, s) && LinkInv(s) && UseInv(s) && k < |s.tasks| && s.tasks[k].stage.Unloading?
    ensures TaskShape(|s.recs|, s.tasks[k]) && Shape(cfg, DoUnloaded(s, k)) && LinkInv(DoUnloaded(s, k))
  {
    TaskFacts(cfg, s, k);
    UnloadedMoved(s, k);
    UnloadHasEffect(s, k);
    TaskMovedShape(cfg, s, DoUnloaded(s, k), k);
    UnloadKeepsLinks(cfg, s, DoUnloaded(s, k), k);
  }

  lemma UnloadKeepsLinks(cfg: Config, s: State, s': State, k: Kid)
    requires Shape(cfg, s) && LinkInv(s) && UseInv(s) && k < |s.tasks| && s.tasks[k].stage.Unloading?
    requires TaskShape(|s.recs|, s.tasks[k]) && Shape(cfg, s') && TaskMoved(s, s', k) && UnloadEffect(s, s', k)
    ensures LinkInv(s')
  {
    TaskFacts(cfg, s, k);
    var task := s.tasks[k];
    assert task.victims[task.next] in task.victims;
    UnloadedTask(cfg, s, s', k);
    forall r | 0 <= r < |s.recs| && Owns(s, k, r)
      ensures RecordLinked(s'.tasks, s'.recs[r], r)
    {
      UnloadedRecord(cfg, s, s', k, r);
    }
    TaskKeepsLinks(cfg, s, s', k);
  }

  lemma UnloadedTask(cfg: Config, s: State, s': State, k: Kid)
    requires Shape(cfg, s) && LinkInv(s) && UseInv(s) && k < |s.tasks| && s.tasks[k].stage.Unloading?
    requires TaskShape(|s.recs|, s.tasks[k]) && Shape(cfg, s') && UnloadEffect(s, s', k) && TaskShape(|s'.recs|, s'.tasks[k])
    ensures TaskLinked(s'.recs, s'.tasks[k], k)
    ensures OthersAlike(s, s', k)
  {
    TaskFacts(cfg, s, k);
    var task := s.tasks[k];
    assert VictimLinked(s.recs[task.victims[task.next]], k, false);
    assert task.victims[task.next] in task.victims;
    if BeforeLoad(s'.tasks[k].stage) {
      forall j | 0 <= j < |task.victims|
        ensures VictimLinked(s'.recs[task.victims[j]], k, j < task.next + 1)
      {
        assert VictimLinked(s.recs[task.victims[j]], k, j < task.next);
        assert task.victims[j] in task.victims;
      }
    }
  }

  lemma UnloadedRecord(cfg: Config, s: State, s': State, k: Kid, r: Rid)
    requires Shape(cfg, s) && LinkInv(s) && UseInv(s) && k < |s.tasks| && s.tasks[k].stage.Unloading?
    requires TaskShape(|s.recs|, s.tasks[k]) && UnloadEffect(s, s', k) && r < |s.recs| && Owns(s, k, r)
    ensures RecordLinked(s'.tasks, s'.recs[r], r)
  {
    TaskFacts(cfg, s, k);
    assert RecordLinked(s.tasks, s.recs[r], r);
    var task := s.tasks[k];
    assert task.victims[task.next] in task.victims;
  }

  lemma UnloadFailedLinks(cfg: Config, s: State, k: Kid, error: string)
    requires Shape(cfg, s) && LinkInv(s) && UseInv(s) && k < |s.tasks| && s.tasks[k].stage.Unloading?
    ensures TaskShape(|s.recs|, s.tasks[k]) && Shape(cfg, DoUnloadFailed(s, k, error))
    ensures LinkInv(DoUnloadFailed(s, k, error))
  {
    TaskFacts(cfg, s, k);
    UnloadFailedMoved(s, k, error);
    var s' := DoUnloadFailed(s, k, error);
    TaskMovedShape(cfg, s, s', k);
    forall r | 0 <= r < |s.recs|
      ensures Owns(s, k, r) ==> RecordLinked(s'.tasks, s'.recs[r], r)
      ensures !Owns(s, k, r) ==> SameLinks(s.recs[r], s'.recs[r])
    {
      assert RecordLinked(s.tasks, s.recs[r], r);
      if r in s.tasks[k].victims {
        var j :| 0 <= j < |s.tasks[k].victims| && s.tasks[k].victims[j] == r;
        assert VictimLinked(s.recs[s.tasks[k].victims[j]], k, j < s.tasks[k].next);
      }
    }
    TaskKeepsLinks(cfg, s, s', k);
  }

  lemma LoadLinks(cfg: Config, s: State, s': State, k: Kid)
    requires Shape(cfg, s) && LinkInv(s) && UseInv(s) && k < |s.tasks|
    requires !s.tasks[k].stage.Over? && !Halted(s.tasks[k].stage)
    requires TaskMoved(s, s', k) && Shape(cfg, s')
    requires |s'.recs| == |s.recs| && forall r | 0 <= r < |s.recs| && r != s.tasks[k].model :: s'.recs[r] == s.recs[r]
    requires TaskLinked(s'.recs, s'.tasks[k], k) && !Halted(s'.tasks[k].stage)
    requires RecordLinked(s'.tasks, s'.recs[s.tasks[k].model], s.tasks[k].model)
    ensures LinkInv(s')
  {
    TaskFacts(cfg, s, k);
    forall r | 0 <= r < |s.recs| && Owns(s, k, r)
      ensures RecordLinked(s'.tasks, s'.recs[r], r)
    {
      assert RecordLinked(s.tasks, s.recs[r], r);
    }
    TaskKeepsLinks(cfg, s, s', k);
  }

  lemma LoadReturnedLinks(cfg: Config, s: State, k: Kid, failure: Option<string>)
    requires Shape(cfg, s) && LinkInv(s) && UseInv(s) && k < |s.tasks| && s.tasks[k].stage.Loading?
    ensures TaskShape(|s.recs|, s.tasks[k]) && Shape(cfg, DoLoadReturned(s, k, failure))
    ensures LinkInv(DoLoadReturned(s, k, failure))
  {
    TaskFacts(cfg, s, k);
    var m := s.tasks[k].model;
    assert RecordLinked(s.tasks, s.recs[m], m);
    LoadReturnedMoved(s, k, failure);
    TaskMovedShape(cfg, s, DoLoadReturned(s, k, failure), k);
    LoadLinks(cfg, s, DoLoadReturned(s, k, failure), k);
  }

  lemma BaselineReadLinks(cfg: Config, s: State, k: Kid, decode: Option<int>)
    requires Shape(cfg, s) && LinkInv(s) && UseInv(s) && k < |s.tasks| && s.tasks[k].stage.Baseline?
    ensures TaskShape(|s.recs|, s.tasks[k]) && Shape(cfg, DoBaselineRead(s, k, decode))
    ensures LinkInv(DoBaselineRead(s, k, decode))
  {
    TaskFacts(cfg, s, k);
    var m := s.tasks[k].model;
    assert RecordLinked(s.tasks, s.recs[m], m);
    ReadiedMoved(s, k, decode, false);
    TaskMovedShape(cfg, s, DoBaselineRead(s, k, decode), k);
    LoadLinks(cfg, s, DoBaselineRead(s, k, decode), k);
  }

  lemma ConfirmedAt(s: State, k: Kid, gone: bool)
    requires k < |s.tasks| && TaskShape(|s.recs|, s.tasks[k])
    ensures var s', m := DoConfirmed(s, k, gone), s.tasks[k].model;
            && |s'.recs| == |s.recs| && |s'.tasks| == |s.tasks| && s'.tasks[k] == s.tasks[k].(stage := Over)
            && s'.recs[m] == s.recs[m].(ready := true, lastActivity := s'.recs[m].lastActivity)
            && forall r | 0 <= r < |s.recs| && r != m :: s'.recs[r] == s.recs[r]
  {
  }

  lemma ConfirmedLinks(cfg: Config, s: State, k: Kid, gone: bool)
    requires Shape(cfg, s) && LinkInv(s) && UseInv(s) && k < |s.tasks| && s.tasks[k].stage.Confirming?
    ensures TaskShape(|s.recs|, s.tasks[k]) && Shape(cfg, DoConfirmed(s, k, gone))
    ensures LinkInv(DoConfirmed(s, k, gone))
  {
    TaskFacts(cfg, s, k);
    ReadiedMoved(s, k, None, gone);
    ConfirmedAt(s, k, gone);
    var s' := DoConfirmed(s, k, gone);
    TaskMovedShape(cfg, s, s', k);
    ConfirmedRest(cfg, s, s', k);
  }

  lemma ConfirmedRest(cfg: Config, s: State, s': State, k: Kid)
    requires Shape(cfg, s) && LinkInv(s) && UseInv(s) && k < |s.tasks| && s.tasks[k].stage.Confirming?
    requires TaskMoved(s, s', k) && Shape(cfg, s') && TaskShape(|s.recs|, s.tasks[k])
    requires |s'.recs| == |s.recs| && s'.tasks[k] == s.tasks[k].(stage := Over)
    requires var m := s.tasks[k].model;
             && s'.recs[m] == s.recs[m].(ready := true, lastActivity := s'.recs[m].lastActivity)
             && forall r | 0 <= r < |s.recs| && r != m :: s'.recs[r] == s.recs[r]
    ensures LinkInv(s')
  {
    TaskFacts(cfg, s, k);
    assert RecordLinked(s.tasks, s.recs[s.tasks[k].model], s.tasks[k].model);
    LoadLinks(cfg, s, s', k);
  }

  // ----- Every step

  /** Tasks only settle records: they ready them, and give up what they were to unload. */
  lemma TaskSettles(cfg: Config, s: State, a: Action)
    requires Shape(cfg, s) && Enabled(cfg, s, a) && ByTask(a)
    ensures var s' := Apply(cfg, s, a);
            |s'.recs| == |s.recs| && forall r | 0 <= r < |s.recs| :: Settles(s.recs[r], s'.recs[r])
  {
    assert TaskShape(|s.recs|, s.tasks[a.k]);
    match a
    case StartSwap(k) => SwapSettles(s, k, "");
    case Unloaded(k) => UnloadedSettles(s, k);
    case UnloadFailed(k, error) => SwapSettles(s, k, error);
    case LoadReturned(k, failure) => LoadSettles(s, k, failure, None, false);
    case BaselineRead(k, decode) => LoadSettles(s, k, None, decode, false);
    case Confirmed(k, gone) => LoadSettles(s, k, None, None, gone);
  }

  predicate AllSettle(recs: seq<Record>, recs': seq<Record>) {
    |recs'| == |recs| && forall r | 0 <= r < |recs| :: Settles(recs[r], recs'[r])
  }

  lemma SwapSettles(s: State, k: Kid, error: string)
    requires k < |s.tasks| && TaskShape(|s.recs|, s.tasks[k])
    ensures AllSettle(s.recs, DoStartSwap(s, k).recs)
    ensures AllSettle(s.recs, DoUnloadFailed(s, k, error).recs)
  {
  }

  lemma UnloadedSettles(s: State, k: Kid)
    requires k < |s.tasks| && TaskShape(|s.recs|, s.tasks[k]) && s.tasks[k].stage.Unloading?
    ensures AllSettle(s.recs, DoUnloaded(s, k).recs)
  {
  }

  lemma OneSettles(recs: seq<Record>, m: Rid, rec: Record)
    requires m < |recs| && Settles(recs[m], rec)
    ensures AllSettle(recs, recs[m := rec])
  {
  }

  lemma LoadSettles(s: State, k: Kid, failure: Option<string>, decode: Option<int>, gone: bool)
    requires k < |s.tasks| && TaskShape(|s.recs|, s.tasks[k])
    ensures AllSettle(s.recs, DoLoadReturned(s, k, failure).recs)
    ensures AllSettle(s.recs, DoBaselineRead(s, k, decode).recs)
    ensures AllSettle(s.recs, DoConfirmed(s, k, gone).recs)
  {
    var m := s.tasks[k].model;
    assert DoLoadReturned(s, k, failure).recs == s.recs[m := DoLoadReturned(s, k, failure).recs[m]];
    OneSettles(s.recs, m, DoLoadReturned(s, k, failure).recs[m]);
    assert DoBaselineRead(s, k, decode).recs == s.recs[m := DoBaselineRead(s, k, decode).recs[m]];
    OneSettles(s.recs, m, DoBaselineRead(s, k, decode).recs[m]);
    OneSettles(s.recs, m, DoConfirmed(s, k, gone).recs[m]);
  }
}
