/** What background tasks do to `loaded` keeps ownership and exclusion. */
module TaskSafety {
  import opened Wrappers
  import opened Machine
  import opened Shapes
  import opened Links
  import opened TaskSteps
  import opened Base
  import opened Safety

  /** A task deleted the key of one tracked record, a record no placer or tracker relies on. */
  ghost predicate Forgot(s: State, s': State, k: Kid, d: Option<Rid>)
    requires k < |s.tasks|
  {
    if d.None? then s'.loaded == s.loaded
    else
      && Tracked(s.recs, s.loaded, d.value)
      && s'.loaded == s.loaded - {s.recs[d.value].variant.id}
      && (|| (s.recs[d.value].leaving && s.recs[d.value].ready)
          || (d.value == s.tasks[k].model && !s.recs[d.value].ready && s.recs[d.value].loader == Some(k)))
  }

  lemma ForgotTracked(s: State, s': State, k: Kid, d: Option<Rid>, r: Rid)
    requires LoadedShape(s.recs, s.loaded) && TaskMoved(s, s', k) && Forgot(s, s', k, d)
    ensures Tracked(s'.recs, s'.loaded, r) <==> Tracked(s.recs, s.loaded, r) && d != Some(r)
  {
  }

  /** Tasks only ever ready records. */
  predicate Readies(recs: seq<Record>, recs': seq<Record>) {
    |recs'| == |recs|
    && forall r | 0 <= r < |recs| :: (recs[r].ready ==> recs'[r].ready) && recs'[r].loader == recs[r].loader
  }

  lemma TaskTasks(cfg: Config, s: State, s': State, k: Kid, d: Option<Rid>)
    requires OwnedInv(cfg, s) && TaskMoved(s, s', k) && Forgot(s, s', k, d)
    requires TaskSafe(s'.recs, s'.loaded, s'.tasks[k])
    ensures forall i | 0 <= i < |s'.tasks| :: TaskSafe(s'.recs, s'.loaded, s'.tasks[i])
  {
    forall i | 0 <= i < |s'.tasks|
      ensures TaskSafe(s'.recs, s'.loaded, s'.tasks[i])
    {
      if i != k {
        TaskFacts(cfg, s, i);
        assert TaskSafe(s.recs, s.loaded, s.tasks[i]);
        ForgotTracked(s, s', k, d, s.tasks[i].model);
      }
    }
  }

  lemma TaskTodos(cfg: Config, s: State, s': State, k: Kid, d: Option<Rid>)
    requires OwnedInv(cfg, s) && TaskMoved(s, s', k) && Forgot(s, s', k, d) && Readies(s.recs, s'.recs)
    ensures TodoSafe(s'.recs, s'.loaded, s'.startup)
    ensures forall u | u in s'.reqs && s'.reqs[u].pc.Tracking? :: TodoSafe(s'.recs, s'.loaded, s'.reqs[u].pc.todo)
  {
    assert TodoOk(s.recs, s.startup);
    TaskTodo(s, s', k, d, s.startup);
    forall u | u in s'.reqs && s'.reqs[u].pc.Tracking?
      ensures TodoSafe(s'.recs, s'.loaded, s'.reqs[u].pc.todo)
    {
      assert PcAt(s, u);
      TaskTodo(s, s', k, d, s.reqs[u].pc.todo);
    }
  }

  lemma TaskOwn(cfg: Config, s: State, s': State, k: Kid, d: Option<Rid>)
    requires OwnedInv(cfg, s) && TaskMoved(s, s', k) && Forgot(s, s', k, d) && Readies(s.recs, s'.recs)
    requires TaskSafe(s'.recs, s'.loaded, s'.tasks[k])
    requires forall r | 0 <= r < |s.recs| :: RecordSafe(s'.recs, s'.loaded, r)
    ensures OwnInv(s')
  {
    TaskTasks(cfg, s, s', k, d);
    TaskTodos(cfg, s, s', k, d);
    forall r | 0 <= r < |s'.recs|
      ensures Cared(s', r)
    {
      ForgotTracked(s, s', k, d, r);
      assert Cared(s, r);
    }
    forall u | u in s'.reqs
      ensures NotYet(s', u)
    {
      assert NotYet(s, u);
    }
  }

  lemma TaskTodo(s: State, s': State, k: Kid, d: Option<Rid>, todo: seq<Rid>)
    requires LoadedShape(s.recs, s.loaded) && TaskMoved(s, s', k) && Forgot(s, s', k, d) && Readies(s.recs, s'.recs)
    requires InRange(todo, |s.recs|) && TodoOk(s.recs, todo) && TodoSafe(s.recs, s.loaded, todo)
    ensures TodoSafe(s'.recs, s'.loaded, todo)
  {
    forall i | 0 <= i < |todo|
      ensures TodoAt(s'.recs, s'.loaded, todo[i])
    {
      assert TodoAt(s.recs, s.loaded, todo[i]) && Unowned(s.recs[todo[i]]);
      ForgotTracked(s, s', k, d, todo[i]);
    }
  }

  lemma TaskPlacer(cfg: Config, s: State, s': State, k: Kid, d: Option<Rid>)
    requires SafeInv(cfg, s) && Shape(cfg, s') && TaskMoved(s, s', k) && Forgot(s, s', k, d)
    ensures PlacerInv(cfg, s')
  {
    forall u | u in s'.reqs
      ensures PlacerSafe(cfg, s'.recs, s'.loaded, s'.reqs[u])
    {
      assert PcAt(s, u);
      TaskPlacerAt(cfg, s, s', k, d, u);
    }
  }

  /** What a placer saw is ready and not leaving, so no task forgets it. */
  lemma TaskPlacerAt(cfg: Config, s: State, s': State, k: Kid, d: Option<Rid>, u: Tid)
    requires Shape(cfg, s) && Shape(cfg, s') && TaskMoved(s, s', k) && Forgot(s, s', k, d)
    requires PcAt(s, u) && PlacerSafe(cfg, s.recs, s.loaded, s.reqs[u])
    ensures PlacerSafe(cfg, s'.recs, s'.loaded, s.reqs[u])
  {
    var pc := s.reqs[u].pc;
    if pc.Observing? {
      forall j | 0 <= j < |pc.seen|
        ensures Tracked(s'.recs, s'.loaded, pc.conflicts[j])
      {
        assert Idle(s.recs[pc.conflicts[j]]) && Tracked(s.recs, s.loaded, pc.conflicts[j]);
        ForgotTracked(s, s', k, d, pc.conflicts[j]);
      }
    }
    PlacerFollows(cfg, s.recs, s.loaded, s'.recs, s'.loaded, s.reqs[u]);
  }

  /** Those who yield to a model still do, unless they or it are gone. */
  ghost predicate YieldsKept(s: State, s': State, k: Kid)
    requires k < |s.tasks|
  {
    forall v: Rid, m: Rid | Yielding(s.recs, s.tasks, v, m)
                            && Tracked(s'.recs, s'.loaded, v) && Tracked(s'.recs, s'.loaded, m) ::
      Yielding(s'.recs, s'.tasks, v, m)
  }

  lemma TaskPairs(cfg: Config, s: State, s': State, k: Kid)
    requires Shape(cfg, s) && PairInv(s) && Shape(cfg, s') && TaskMoved(s, s', k) && YieldsKept(s, s', k)
    ensures PairInv(s')
  {
    forall a, b | a in s'.loaded && b in s'.loaded
      ensures PairSafe(s'.recs, s'.loaded, s'.tasks, a, b)
    {
      assert PairSafe(s.recs, s.loaded, s.tasks, a, b);
      assert Tracked(s'.recs, s'.loaded, s'.loaded[a]) && Tracked(s'.recs, s'.loaded, s'.loaded[b]);
    }
  }

  /** Those who yield to another task's model still do. */
  lemma YieldsOther(cfg: Config, s: State, s': State, k: Kid, v: Rid, m: Rid)
    requires BaseInv(cfg, s) && TaskMoved(s, s', k) && OthersAlike(s, s', k)
    requires Yielding(s.recs, s.tasks, v, m) && s.recs[v].unloader != Some(k)
    ensures Yielding(s'.recs, s'.tasks, v, m)
  {
    assert UseOk(s.recs[v]);
    assert !Owns(s, k, v);
  }

  /** Only its victims yet to be unloaded yield to a task's model. */
  lemma YieldsOwn(cfg: Config, s: State, k: Kid, v: Rid, m: Rid)
    requires BaseInv(cfg, s) && k < |s.tasks|
    requires Yielding(s.recs, s.tasks, v, m) && s.recs[v].unloader == Some(k)
    ensures m == s.tasks[k].model && v != m && BeforeLoad(s.tasks[k].stage)
    ensures exists j :: s.tasks[k].next <= j < |s.tasks[k].victims| && s.tasks[k].victims[j] == v
  {
    TaskFacts(cfg, s, k);
    var j :| 0 <= j < |s.tasks[k].victims| && s.tasks[k].victims[j] == v;
    assert VictimLinked(s.recs[s.tasks[k].victims[j]], k, j < s.tasks[k].next);
  }

  // ----- Starting a swap

  /** Models of different swaps before their loads are different models. */
  lemma ModelsApart(cfg: Config, s: State, i: Kid, k: Kid)
    requires SafeInv(cfg, s) && i < |s.tasks| && k < |s.tasks| && i != k
    requires BeforeLoad(s.tasks[i].stage) && !s.tasks[k].stage.Over?
    requires s.tasks[k].model < |s.recs| && Tracked(s.recs, s.loaded, s.tasks[k].model)
    ensures s.tasks[i].model < |s.recs|
    ensures s.recs[s.tasks[i].model].variant.id != s.recs[s.tasks[k].model].variant.id
  {
    TaskFacts(cfg, s, i);
    TaskFacts(cfg, s, k);
    assert TaskSafe(s.recs, s.loaded, s.tasks[i]);
    TrackedApart(s.recs, s.loaded, s.tasks[i].model, s.tasks[k].model);
  }

  /** Asking for a load adds its model to what the server may hold. */
  lemma AskedHeld(cfg: Config, s: State, s': State, k: Kid)
    requires SafeInv(cfg, s) && Shape(cfg, s') && TaskMoved(s, s', k) && !s.tasks[k].stage.Over?
    requires s.tasks[k].model < |s.recs| && Tracked(s.recs, s.loaded, s.tasks[k].model)
    requires s'.held <= s'.may <= s'.loaded.Keys
    requires s'.may <= s.may + {s.recs[s.tasks[k].model].variant.id}
    requires BeforeLoad(s'.tasks[k].stage) ==> BeforeLoad(s.tasks[k].stage) && s'.may <= s.may
    ensures HeldInv(cfg, s')
  {
    forall i | 0 <= i < |s'.tasks|
      ensures NotAsked(s', i)
    {
      assert NotAsked(s, i);
      if i != k && BeforeLoad(s.tasks[i].stage) {
        ModelsApart(cfg, s, i, k);
      }
    }
  }

  lemma StartSwapSafe(cfg: Config, s: State, k: Kid)
    requires SafeInv(cfg, s) && k < |s.tasks| && s.tasks[k].stage.Starting?
    requires TaskShape(|s.recs|, s.tasks[k]) && BaseInv(cfg, DoStartSwap(s, k))
    ensures SafeInv(cfg, DoStartSwap(s, k))
  {
    TaskFacts(cfg, s, k);
    StartSwapMoved(s, k);
    StartSwapKeepsSafe(cfg, s, DoStartSwap(s, k), k);
  }

  lemma StartSwapKeepsSafe(cfg: Config, s: State, s': State, k: Kid)
    requires SafeInv(cfg, s) && k < |s.tasks| && s.tasks[k].stage.Starting?
    requires TaskShape(|s.recs|, s.tasks[k]) && BaseInv(cfg, s') && TaskMoved(s, s', k)
    requires s'.loaded == s.loaded && s'.held == s.held
    requires s'.recs == s.recs
             || (s.tasks[k].victims == []
                 && s'.recs == s.recs[s.tasks[k].model := s'.recs[s.tasks[k].model]]
                 && s'.recs[s.tasks[k].model] == s.recs[s.tasks[k].model].(loads := s'.recs[s.tasks[k].model].loads))
    requires if s.tasks[k].victims == [] then
               s'.tasks[k].stage.Loading? && s'.may == s.may + {Id(s, s.tasks[k].model)}
             else s'.tasks[k].stage.Unloading? && s'.may == s.may
    ensures SafeInv(cfg, s')
  {
    TaskFacts(cfg, s, k);
    StartSwapOwned(cfg, s, s', k);
    TaskPlacer(cfg, s, s', k, None);
    StartSwapYields(cfg, s, s', k);
    TaskPairs(cfg, s, s', k);
    AskedHeld(cfg, s, s', k);
  }

  lemma StartSwapOwned(cfg: Config, s: State, s': State, k: Kid)
    requires OwnedInv(cfg, s) && k < |s.tasks| && s.tasks[k].stage.Starting? && TaskMoved(s, s', k)
    requires s'.loaded == s.loaded && (s'.tasks[k].stage.Loading? || s'.tasks[k].stage.Unloading?)
    requires |s'.recs| == |s.recs| && forall r | 0 <= r < |s.recs| :: SameLinksButLoads(s.recs[r], s'.recs[r])
    ensures OwnInv(s')
  {
    StartSwapOwn(s, s', k);
    TaskOwn(cfg, s, s', k, None);
  }

  lemma StartSwapOwn(s: State, s': State, k: Kid)
    requires OwnInv(s) && k < |s.tasks| && s.tasks[k].stage.Starting? && k < |s'.tasks| && s'.loaded == s.loaded
    requires s'.tasks[k].model == s.tasks[k].model && (s'.tasks[k].stage.Loading? || s'.tasks[k].stage.Unloading?)
    requires |s'.recs| == |s.recs| && forall r | 0 <= r < |s.recs| :: SameLinksButLoads(s.recs[r], s'.recs[r])
    ensures TaskSafe(s'.recs, s'.loaded, s'.tasks[k])
    ensures forall r | 0 <= r < |s.recs| :: RecordSafe(s'.recs, s'.loaded, r)
  {
    assert TaskSafe(s.recs, s.loaded, s.tasks[k]);
    forall r | 0 <= r < |s.recs|
      ensures RecordSafe(s'.recs, s'.loaded, r)
    {
      assert RecordSafe(s.recs, s.loaded, r);
    }
  }

  predicate SameLinksButLoads(a: Record, b: Record) {
    b == a.(loads := b.loads)
  }

  lemma StartSwapYields(cfg: Config, s: State, s': State, k: Kid)
    requires BaseInv(cfg, s) && TaskMoved(s, s', k) && OthersAlike(s, s', k)
    requires s.tasks[k].stage.Starting? && TaskShape(|s.recs|, s.tasks[k])
    requires s.tasks[k].victims == [] || (s'.recs == s.recs && BeforeLoad(s'.tasks[k].stage))
    ensures YieldsKept(s, s', k)
  {
    forall v: Rid, n: Rid | Yielding(s.recs, s.tasks, v, n)
      ensures Yielding(s'.recs, s'.tasks, v, n)
    {
      if s.recs[v].unloader == Some(k) { YieldsOwn(cfg, s, k, v, n); } else { YieldsOther(cfg, s, s', k, v, n); }
    }
  }

  // ----- A returned unload

  lemma UnloadedTracked(cfg: Config, s: State, k: Kid)
    requires OwnedInv(cfg, s) && k < |s.tasks| && s.tasks[k].stage.Unloading?
    ensures TaskShape(|s.recs|, s.tasks[k])
    ensures var v := s.tasks[k].victims[s.tasks[k].next];
            && Tracked(s.recs, s.loaded, v) && Tracked(s.recs, s.loaded, s.tasks[k].model)
            && s.recs[v].leaving && s.recs[v].ready && v != s.tasks[k].model
            && s.recs[v].variant.id != s.recs[s.tasks[k].model].variant.id
  {
    TaskFacts(cfg, s, k);
    var v := s.tasks[k].victims[s.tasks[k].next];
    assert v in s.tasks[k].victims;
    assert VictimLinked(s.recs[s.tasks[k].victims[s.tasks[k].next]], k, false);
    assert RecordSafe(s.recs, s.loaded, v) && TaskSafe(s.recs, s.loaded, s.tasks[k]);
    TrackedApart(s.recs, s.loaded, v, s.tasks[k].model);
  }

  /** The unload's whole effect when its victim is tracked: no key error. */
  lemma UnloadedWhole(s: State, k: Kid)
    requires k < |s.tasks| && TaskShape(|s.recs|, s.tasks[k]) && s.tasks[k].stage.Unloading?
    requires Id(s, s.tasks[k].victims[s.tasks[k].next]) in s.loaded
    ensures var s', task := DoUnloaded(s, k), s.tasks[k];
            var id := Id(s, task.victims[task.next]);
            && s'.loaded == s.loaded - {id} && s'.held == s.held && !s'.tasks[k].stage.Crashed?
            && s'.may == s.may - {id} + if task.next + 1 == |task.victims| then {Id(s, task.model)} else {}
  {
  }

  lemma UnloadedSafe(cfg: Config, s: State, k: Kid)
    requires SafeInv(cfg, s) && Enabled(cfg, s, Unloaded(k)) && Honest(cfg, s, Unloaded(k))
    requires TaskShape(|s.recs|, s.tasks[k]) && BaseInv(cfg, DoUnloaded(s, k))
    ensures SafeInv(cfg, DoUnloaded(s, k))
  {
    UnloadedTracked(cfg, s, k);
    UnloadedMoved(s, k);
    UnloadHasEffect(s, k);
    UnloadedWhole(s, k);
    UnloadKeepsSafe(cfg, s, DoUnloaded(s, k), k);
  }

  lemma UnloadKeepsSafe(cfg: Config, s: State, s': State, k: Kid)
    requires SafeInv(cfg, s) && k < |s.tasks| && s.tasks[k].stage.Unloading? && TaskShape(|s.recs|, s.tasks[k])
    requires Id(s, s.tasks[k].victims[s.tasks[k].next]) !in s.held
    requires BaseInv(cfg, s') && TaskMoved(s, s', k) && UnloadEffect(s, s', k) && !s'.tasks[k].stage.Crashed?
    requires var task := s.tasks[k];
             var id := Id(s, task.victims[task.next]);
             && s'.loaded == s.loaded - {id} && s'.held == s.held
             && s'.may == s.may - {id} + if task.next + 1 == |task.victims| then {Id(s, task.model)} else {}
    ensures SafeInv(cfg, s')
  {
    UnloadedTracked(cfg, s, k);
    var v := s.tasks[k].victims[s.tasks[k].next];
    assert Forgot(s, s', k, Some(v));
    UnloadOwned(cfg, s, s', k);
    TaskPlacer(cfg, s, s', k, Some(v));
    UnloadedYields(cfg, s, s', k);
    TaskPairs(cfg, s, s', k);
    AskedHeld(cfg, s, s', k);
  }

  lemma UnloadOwned(cfg: Config, s: State, s': State, k: Kid)
    requires OwnedInv(cfg, s) && k < |s.tasks| && s.tasks[k].stage.Unloading? && TaskShape(|s.recs|, s.tasks[k])
    requires TaskMoved(s, s', k) && UnloadEffect(s, s', k) && !s'.tasks[k].stage.Crashed?
    requires s'.loaded == s.loaded - {Id(s, s.tasks[k].victims[s.tasks[k].next])}
    ensures OwnInv(s')
  {
    UnloadedTracked(cfg, s, k);
    var v := s.tasks[k].victims[s.tasks[k].next];
    assert Forgot(s, s', k, Some(v));
    UnloadedRecords(cfg, s, s', k);
    ForgotTracked(s, s', k, Some(v), s.tasks[k].model);
    TaskOwn(cfg, s, s', k, Some(v));
  }

  lemma UnloadedRecords(cfg: Config, s: State, s': State, k: Kid)
    requires OwnedInv(cfg, s) && k < |s.tasks| && s.tasks[k].stage.Unloading? && TaskShape(|s.recs|, s.tasks[k])
    requires TaskMoved(s, s', k) && UnloadEffect(s, s', k)
    requires Forgot(s, s', k, Some(s.tasks[k].victims[s.tasks[k].next]))
    ensures forall r | 0 <= r < |s.recs| :: RecordSafe(s'.recs, s'.loaded, r)
    ensures Readies(s.recs, s'.recs)
  {
    UnloadedTracked(cfg, s, k);
    var v := s.tasks[k].victims[s.tasks[k].next];
    forall r | 0 <= r < |s.recs|
      ensures RecordSafe(s'.recs, s'.loaded, r)
    {
      assert RecordSafe(s.recs, s.loaded, r);
      ForgotTracked(s, s', k, Some(v), r);
    }
  }

  lemma UnloadedYields(cfg: Config, s: State, s': State, k: Kid)
    requires OwnedInv(cfg, s) && k < |s.tasks| && s.tasks[k].stage.Unloading? && TaskShape(|s.recs|, s.tasks[k])
    requires TaskMoved(s, s', k) && UnloadEffect(s, s', k) && !s'.tasks[k].stage.Crashed? && Shape(cfg, s')
    requires Forgot(s, s', k, Some(s.tasks[k].victims[s.tasks[k].next]))
    ensures YieldsKept(s, s', k)
  {
    UnloadedTask(cfg, s, s', k);
    forall v: Rid, m: Rid | Yielding(s.recs, s.tasks, v, m) && Tracked(s'.recs, s'.loaded, v)
      ensures Yielding(s'.recs, s'.tasks, v, m)
    {
      if s.recs[v].unloader == Some(k) {
        ForgotTracked(s, s', k, Some(s.tasks[k].victims[s.tasks[k].next]), v);
        UnloadedOwnYields(cfg, s, s', k, v, m);
      } else {
        YieldsOther(cfg, s, s', k, v, m);
      }
    }
  }

  /** While a victim is left to unload, the swap has not asked for its load. */
  lemma UnloadedOwnYields(cfg: Config, s: State, s': State, k: Kid, v: Rid, m: Rid)
    requires BaseInv(cfg, s) && k < |s.tasks| && s.tasks[k].stage.Unloading? && TaskShape(|s.recs|, s.tasks[k])
    requires UnloadEffect(s, s', k) && !s'.tasks[k].stage.Crashed?
    requires Yielding(s.recs, s.tasks, v, m) && s.recs[v].unloader == Some(k)
    requires v != s.tasks[k].victims[s.tasks[k].next]
    ensures Yielding(s'.recs, s'.tasks, v, m)
  {
    YieldsOwn(cfg, s, k, v, m);
  }

  // ----- A failed unload

  /** What a failed unload does to a record. */
  predicate Restored(a: Record, b: Record, victim: bool, model: bool) {
    && b.leaving == (a.leaving && !victim)
    && b.unloaded == a.unloaded && b.loader == a.loader && (a.ready ==> b.ready)
    && (!victim && !model ==> b == a)
  }

  /** A failed unload's whole effect when its model is tracked: no key error. */
  ghost predicate FailedEffect(s: State, s': State, k: Kid)
    requires k < |s.tasks| && TaskShape(|s.recs|, s.tasks[k])
  {
    var task := s.tasks[k];
    && s'.loaded == s.loaded - {Id(s, task.model)} && s'.held == s.held && s'.may == s.may
    && s'.tasks == s.tasks[k := task.(stage := Over)]
    && |s'.recs| == |s.recs|
    && forall r | 0 <= r < |s.recs| :: Restored(s.recs[r], s'.recs[r], r in task.victims, r == task.model)
  }

  lemma UnloadFailedWhole(s: State, k: Kid, error: string)
    requires k < |s.tasks| && TaskShape(|s.recs|, s.tasks[k]) && s.tasks[k].stage.Unloading?
    requires Id(s, s.tasks[k].model) in s.loaded
    ensures FailedEffect(s, DoUnloadFailed(s, k, error), k)
  {
  }

  lemma UnloadFailedSafe(cfg: Config, s: State, k: Kid, error: string)
    requires SafeInv(cfg, s) && k < |s.tasks| && s.tasks[k].stage.Unloading?
    requires TaskShape(|s.recs|, s.tasks[k]) && BaseInv(cfg, DoUnloadFailed(s, k, error))
    ensures SafeInv(cfg, DoUnloadFailed(s, k, error))
  {
    UnloadedTracked(cfg, s, k);
    UnloadFailedMoved(s, k, error);
    UnloadFailedWhole(s, k, error);
    UnloadFailedKeepsSafe(cfg, s, DoUnloadFailed(s, k, error), k);
  }

  lemma UnloadFailedKeepsSafe(cfg: Config, s: State, s': State, k: Kid)
    requires SafeInv(cfg, s) && k < |s.tasks| && s.tasks[k].stage.Unloading? && TaskShape(|s.recs|, s.tasks[k])
    requires BaseInv(cfg, s') && TaskMoved(s, s', k) && FailedEffect(s, s', k)
    ensures SafeInv(cfg, s')
  {
    UnloadedTracked(cfg, s, k);
    TaskFacts(cfg, s, k);
    var m := s.tasks[k].model;
    assert Forgot(s, s', k, Some(m));
    FailedOwned(cfg, s, s', k);
    TaskPlacer(cfg, s, s', k, Some(m));
    UnloadFailedYields(cfg, s, s', k);
    TaskPairs(cfg, s, s', k);
    assert NotAsked(s, k);
    AskedHeld(cfg, s, s', k);
  }

  lemma FailedOwned(cfg: Config, s: State, s': State, k: Kid)
    requires OwnedInv(cfg, s) && k < |s.tasks| && s.tasks[k].stage.Unloading? && TaskShape(|s.recs|, s.tasks[k])
    requires TaskMoved(s, s', k) && FailedEffect(s, s', k)
    ensures OwnInv(s')
  {
    UnloadedTracked(cfg, s, k);
    TaskFacts(cfg, s, k);
    var m := s.tasks[k].model;
    forall r | 0 <= r < |s.recs|
      ensures RecordSafe(s'.recs, s'.loaded, r)
    {
      assert RecordSafe(s.recs, s.loaded, r) && Restored(s.recs[r], s'.recs[r], r in s.tasks[k].victims, r == m);
      ForgotTracked(s, s', k, Some(m), r);
    }
    TaskOwn(cfg, s, s', k, Some(m));
  }

  lemma UnloadFailedYields(cfg: Config, s: State, s': State, k: Kid)
    requires SafeInv(cfg, s) && k < |s.tasks| && s.tasks[k].stage.Unloading? && TaskShape(|s.recs|, s.tasks[k])
    requires TaskMoved(s, s', k) && Forgot(s, s', k, Some(s.tasks[k].model)) && FailedEffect(s, s', k)
    ensures YieldsKept(s, s', k)
  {
    FailedAlike(cfg, s, s', k);
    forall v: Rid, n: Rid | Yielding(s.recs, s.tasks, v, n) && Tracked(s'.recs, s'.loaded, n)
      ensures Yielding(s'.recs, s'.tasks, v, n)
    {
      ForgotTracked(s, s', k, Some(s.tasks[k].model), n);
      if s.recs[v].unloader != Some(k) {
        YieldsOther(cfg, s, s', k, v, n);
      }
    }
  }

  lemma FailedAlike(cfg: Config, s: State, s': State, k: Kid)
    requires BaseInv(cfg, s) && k < |s.tasks| && s.tasks[k].stage.Unloading? && TaskShape(|s.recs|, s.tasks[k])
    requires FailedEffect(s, s', k)
    ensures OthersAlike(s, s', k)
  {
    TaskFacts(cfg, s, k);
    forall r | 0 <= r < |s.recs| && !Owns(s, k, r)
      ensures SameLinks(s.recs[r], s'.recs[r])
    {
      assert Restored(s.recs[r], s'.recs[r], r in s.tasks[k].victims, r == s.tasks[k].model);
      assert r !in s.tasks[k].victims by {
        forall j | 0 <= j < |s.tasks[k].victims|
          ensures s.tasks[k].victims[j] != r
        {
          assert VictimLinked(s.recs[s.tasks[k].victims[j]], k, j < s.tasks[k].next);
        }
      }
    }
  }

  // ----- Loads

  /** A load's progress, and its end, change one record and at most forget it. */
  lemma LoadSafe(cfg: Config, s: State, s': State, k: Kid, d: Option<Rid>)
    requires SafeInv(cfg, s) && k < |s.tasks| && !s.tasks[k].stage.Over? && !BeforeLoad(s.tasks[k].stage)
    requires BaseInv(cfg, s') && TaskMoved(s, s', k) && Forgot(s, s', k, d)
    requires d.None? || d == Some(s.tasks[k].model)
    requires !BeforeLoad(s'.tasks[k].stage) && TaskSafe(s'.recs, s'.loaded, s'.tasks[k])
    requires |s'.recs| == |s.recs|
    requires forall r | 0 <= r < |s.recs| && r != s.tasks[k].model :: s'.recs[r] == s.recs[r]
    requires var a, b := s.recs[s.tasks[k].model], s'.recs[s.tasks[k].model];
             b.leaving == a.leaving && b.unloaded == a.unloaded && b.loader == a.loader
    requires s'.held == s.held && s'.held <= s'.may <= s.may && s'.may <= s'.loaded.Keys
    ensures SafeInv(cfg, s')
  {
    TaskFacts(cfg, s, k);
    LoadOwned(cfg, s, s', k, d);
    TaskPlacer(cfg, s, s', k, d);
    assert YieldsKept(s, s', k);
    TaskPairs(cfg, s, s', k);
    LoadHeld(cfg, s, s', k);
  }

  lemma LoadHeld(cfg: Config, s: State, s': State, k: Kid)
    requires Shape(cfg, s) && HeldInv(cfg, s) && Shape(cfg, s') && TaskMoved(s, s', k) && !BeforeLoad(s'.tasks[k].stage)
    requires s'.held <= s'.may <= s.may && s'.may <= s'.loaded.Keys
    ensures HeldInv(cfg, s')
  {
    forall i | 0 <= i < |s'.tasks|
      ensures NotAsked(s', i)
    {
      assert NotAsked(s, i);
    }
  }

  lemma LoadOwned(cfg: Config, s: State, s': State, k: Kid, d: Option<Rid>)
    requires OwnedInv(cfg, s) && k < |s.tasks| && !s.tasks[k].stage.Over?
    requires TaskMoved(s, s', k) && Forgot(s, s', k, d) && (d.None? || d == Some(s.tasks[k].model))
    requires TaskSafe(s'.recs, s'.loaded, s'.tasks[k])
    requires forall r | 0 <= r < |s.recs| && r != s.tasks[k].model :: s'.recs[r] == s.recs[r]
    requires var a, b := s.recs[s.tasks[k].model], s'.recs[s.tasks[k].model];
             b.leaving == a.leaving && b.unloaded == a.unloaded && b.loader == a.loader
    ensures OwnInv(s')
  {
    TaskFacts(cfg, s, k);
    forall r | 0 <= r < |s.recs|
      ensures RecordSafe(s'.recs, s'.loaded, r)
    {
      assert RecordSafe(s.recs, s.loaded, r);
      ForgotTracked(s, s', k, d, r);
    }
    TaskOwn(cfg, s, s', k, d);
  }

  /** What a load's progress may do: change its model's record, and at most forget it. */
  ghost predicate LoadEffect(s: State, s': State, k: Kid, d: Option<Rid>)
    requires k < |s.tasks| && TaskShape(|s.recs|, s.tasks[k])
  {
    var m := s.tasks[k].model;
    && |s'.recs| == |s.recs| && |s'.tasks| == |s.tasks|
    && (forall r | 0 <= r < |s.recs| && r != m :: s'.recs[r] == s.recs[r])
    && s'.recs[m].leaving == s.recs[m].leaving && s'.recs[m].unloaded == s.recs[m].unloaded
    && s'.recs[m].loader == s.recs[m].loader && s'.held == s.held && !Halted(s'.tasks[k].stage)
    && (d.None? || (d == Some(m) && Tracked(s.recs, s.loaded, m) && s'.tasks[k].stage.Over?))
    && s'.loaded == (if d.Some? then s.loaded - {Id(s, m)} else s.loaded)
    && s'.may == (if d.Some? then s.may - {Id(s, m)} else s.may)
  }

  lemma LoadEffectSafe(cfg: Config, s: State, s': State, k: Kid, d: Option<Rid>)
    requires SafeInv(cfg, s) && k < |s.tasks| && !s.tasks[k].stage.Over? && !Halted(s.tasks[k].stage)
    requires BaseInv(cfg, s') && TaskMoved(s, s', k) && TaskShape(|s.recs|, s.tasks[k]) && LoadEffect(s, s', k, d)
    requires Rising(s'.tasks[k].stage) ==> Rising(s.tasks[k].stage)
    requires d.Some? ==> Id(s, s.tasks[k].model) !in s.held
    ensures SafeInv(cfg, s')
  {
    TaskFacts(cfg, s, k);
    assert TaskSafe(s.recs, s.loaded, s.tasks[k]);
    LoadSafe(cfg, s, s', k, d);
  }

  lemma LoadReturnedSafe(cfg: Config, s: State, k: Kid, failure: Option<string>)
    requires SafeInv(cfg, s) && k < |s.tasks| && s.tasks[k].stage.Loading?
    requires TaskShape(|s.recs|, s.tasks[k]) && BaseInv(cfg, DoLoadReturned(s, k, failure))
    ensures SafeInv(cfg, DoLoadReturned(s, k, failure))
  {
    LoadReturnedMoved(s, k, failure);
    LoadHasEffect(s, k, failure, None, false);
    LoadEffectSafe(cfg, s, DoLoadReturned(s, k, failure), k, None);
  }

  lemma BaselineReadSafe(cfg: Config, s: State, k: Kid, decode: Option<int>)
    requires SafeInv(cfg, s) && k < |s.tasks| && s.tasks[k].stage.Baseline?
    requires TaskShape(|s.recs|, s.tasks[k]) && BaseInv(cfg, DoBaselineRead(s, k, decode))
    ensures SafeInv(cfg, DoBaselineRead(s, k, decode))
  {
    ReadiedMoved(s, k, decode, false);
    LoadHasEffect(s, k, None, decode, false);
    LoadEffectSafe(cfg, s, DoBaselineRead(s, k, decode), k, None);
  }

  lemma LoadHasEffect(s: State, k: Kid, failure: Option<string>, decode: Option<int>, gone: bool)
    requires k < |s.tasks| && TaskShape(|s.recs|, s.tasks[k])
    ensures LoadEffect(s, DoLoadReturned(s, k, failure), k, None)
    ensures LoadEffect(s, DoBaselineRead(s, k, decode), k, None)
  {
  }

  lemma ConfirmedHasEffect(s: State, k: Kid, gone: bool)
    requires k < |s.tasks| && TaskShape(|s.recs|, s.tasks[k])
    ensures var m := s.tasks[k].model;
            LoadEffect(s, DoConfirmed(s, k, gone), k, if gone && Tracked(s.recs, s.loaded, m) then Some(m) else None)
    ensures DoConfirmed(s, k, gone).tasks[k].stage.Over?
  {
  }

  lemma ConfirmedSafe(cfg: Config, s: State, k: Kid, gone: bool)
    requires SafeInv(cfg, s) && Enabled(cfg, s, Confirmed(k, gone)) && Honest(cfg, s, Confirmed(k, gone))
    requires TaskShape(|s.recs|, s.tasks[k]) && BaseInv(cfg, DoConfirmed(s, k, gone))
    ensures SafeInv(cfg, DoConfirmed(s, k, gone))
  {
    ReadiedMoved(s, k, None, gone);
    ConfirmedHasEffect(s, k, gone);
    var m := s.tasks[k].model;
    LoadEffectSafe(cfg, s, DoConfirmed(s, k, gone), k, if gone && Tracked(s.recs, s.loaded, m) then Some(m) else None);
  }
}
