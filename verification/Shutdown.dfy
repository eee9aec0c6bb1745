/** Shutdown completeness (internal/api/server.go, cleanup): once admission is
    closed, the handlers have returned and Stop has returned nil, every stored
    job is terminal and stays exactly as it is, whatever runs afterwards. */
module Shutdown {
  import opened Runs
  import opened Jobs
  import opened AsyncRuntime
  import opened AtMostOnce
  import opened Conservation
  import JobStore
  import Queue
  import WorkerPool

  /** StopAccepting has returned, the HTTP server takes no more requests, and
      every Create handler has returned. */
  predicate Quiesced(s: Sys) {
    s.queue.barrier && !s.httpOpen && s.handlers == map[]
  }

  predicate AllTerminal(s: Sys) {
    forall j :: j in s.store.jobs ==> IsTerminal(s.store.jobs[j].status)
  }

  lemma QuiescedStep(s: Sys, a: Act)
    requires Quiesced(s) && Can(s, a)
    ensures Quiesced(Do(s, a)) && !a.Accept? && !a.Handle?
  {
  }

  /** Once everything is terminal, no step touches the repository: not a worker
      with a stale item, not a repair pass, not a new generation. */
  lemma FrozenStep(s: Sys, a: Act)
    requires Quiesced(s) && AllTerminal(s) && Can(s, a)
    ensures Quiesced(Do(s, a)) && AllTerminal(Do(s, a)) && Do(s, a).store == s.store
  {
    QuiescedStep(s, a);
    match a
    case Advance(w) => FrozenAdvance(s, w);
    case PoolAct(pact) => FrozenPool(s, pact);
    case Accept(_, _, _) =>
    case Handle(_, _) =>
    case Take(_) =>
    case Barrier(_) =>
    case CloseHttp =>
    case CloseHub =>
    case SyncCreate(_) =>
  }

  lemma FrozenAdvance(s: Sys, w: nat)
    requires AllTerminal(s) && CanAdvance(s, w)
    ensures DoAdvance(s, w).store == s.store
  {
    var task := s.tasks[w];
    var job := Stored(s, task.item.job);
    TurnPermit(task, job, s.users, s.pool.gens[s.pool.workers[w].gen].canceled);
    if job.Some? {
      TerminalIffStuck(job.value.status);
    }
  }

  lemma FrozenPool(s: Sys, a: WorkerPool.Act)
    requires AllTerminal(s) && CanPool(s, a)
    ensures DoPool(s, a).store == s.store
  {
    if a.Repair? {
      assert forall j :: j in s.store.jobs ==> !JobStore.Active(s.store.jobs[j]);
      assert JobStore.ActiveIds(s.store.jobs) == {};
      assert JobStore.FailedIn(s.store.jobs, {}, SHUTDOWN_PROBLEM) == s.store.jobs;
    }
  }

  lemma FrozenNext(s: Sys, s': Sys)
    requires Quiesced(s) && AllTerminal(s) && Step(s, s')
    ensures Quiesced(s') && AllTerminal(s') && s'.store == s.store
  {
    var a :| Can(s, a) && s' == Do(s, a);
    FrozenStep(s, a);
  }

  ghost function FrozenAt(store: JobStore.Store): Sys -> bool {
    (s: Sys) => Quiesced(s) && AllTerminal(s) && s.store == store
  }

  lemma FrozenInductive(store: JobStore.Store)
    ensures Inductive(Step, FrozenAt(store))
  {
    forall s, s' | FrozenAt(store)(s) && Step(s, s') ensures FrozenAt(store)(s') {
      FrozenNext(s, s');
    }
  }

  lemma FrozenForever(run: seq<Sys>, i: nat, j: nat)
    requires IsRun(Step, run) && i <= j < |run| && Quiesced(run[i]) && AllTerminal(run[i])
    ensures Quiesced(run[j]) && AllTerminal(run[j]) && run[j].store == run[i].store
  {
    FrozenInductive(run[i].store);
    HoldsFrom(Step, FrozenAt(run[i].store), run, i, j);
  }

  // -------------------------------------------------- a Stop call in the quiet

  /** The generation's repair pass is still ahead, or it has left nothing active. */
  predicate RepairPending(s: Sys, g: nat) {
    && Quiesced(s) && g < |s.pool.gens|
    && (if s.pool.gens[g].once.Ran? then AllTerminal(s) else s.pool.current == Some(g) && s.pool.stopping)
  }

  /** Where a Stop call that entered generation `g` can be. */
  predicate InStop(p: WorkerPool.Pool, t: nat, g: nat) {
    && t in p.stops
    && (if p.stops[t].Returned? then p.stops[t].of == Some(g) && !p.stops[t].result.NeverRan? else p.stops[t].gen == g)
  }

  lemma PoolAfterEntry(p: WorkerPool.Pool, a: WorkerPool.Act, t: nat, g: nat)
    requires WorkerPool.Inv(p) && WorkerPool.Can(p, a) && g < |p.gens| && InStop(p, t, g)
    ensures
      var p' := WorkerPool.Do(p, a);
      && InStop(p', t, g) && g < |p'.gens|
      && (p.gens[g].once.Ran? ==> p'.gens[g].once.Ran?)
      && (!p'.gens[g].once.Ran? && p.current == Some(g) && p.stopping ==> p'.current == Some(g) && p'.stopping)
      && (!p.gens[g].once.Ran? && p'.gens[g].once.Ran? ==> a.Repair?)
  {
    if WorkerPool.InsideStop(a) {
      assert WorkerPool.StopOk(p, a.t);
    }
  }

  lemma RepairLeavesTerminal(s: Sys, a: WorkerPool.Act)
    requires CanPool(s, a) && a.Repair?
    ensures AllTerminal(DoPool(s, a))
  {
  }

  lemma PendingStep(s: Sys, a: Act, t: nat, g: nat)
    requires WorkerPool.Inv(s.pool) && RepairPending(s, g) && InStop(s.pool, t, g) && Can(s, a)
    ensures RepairPending(Do(s, a), g) && InStop(Do(s, a).pool, t, g)
  {
    QuiescedStep(s, a);
    if a.PoolAct? {
      PoolAfterEntry(s.pool, a.pact, t, g);
      PendingPoolStep(s, a.pact, g);
    } else if s.pool.gens[g].once.Ran? {
      FrozenStep(s, a);
    }
  }

  lemma PendingPoolStep(s: Sys, a: WorkerPool.Act, g: nat)
    requires RepairPending(s, g) && CanPool(s, a) && g < |DoPool(s, a).pool.gens|
    requires s.pool.gens[g].once.Ran? ==> DoPool(s, a).pool.gens[g].once.Ran?
    requires !s.pool.gens[g].once.Ran? && DoPool(s, a).pool.gens[g].once.Ran? ==> a.Repair?
    ensures DoPool(s, a).pool.gens[g].once.Ran? ==> AllTerminal(DoPool(s, a))
  {
    if s.pool.gens[g].once.Ran? {
      FrozenPool(s, a);
    } else if a.Repair? {
      RepairLeavesTerminal(s, a);
    }
  }

  lemma PendingNext(s: Sys, s': Sys, t: nat, g: nat)
    requires Inv(s) && RepairPending(s, g) && InStop(s.pool, t, g) && Step(s, s')
    ensures Inv(s') && RepairPending(s', g) && InStop(s'.pool, t, g)
  {
    var a :| Can(s, a) && s' == Do(s, a);
    KeepsInv(s, a);
    PendingStep(s, a, t, g);
  }

  ghost function PendingFor(t: nat, g: nat): Sys -> bool {
    (s: Sys) => Inv(s) && RepairPending(s, g) && InStop(s.pool, t, g)
  }

  lemma PendingInductive(t: nat, g: nat)
    ensures Inductive(Step, PendingFor(t, g))
  {
    forall s, s' | PendingFor(t, g)(s) && Step(s, s') ensures PendingFor(t, g)(s') {
      PendingNext(s, s', t, g);
    }
  }

  // ------------------------------------------------------------ the guarantee

  /** A Stop call has returned nil: the outcome carries no error, or there was
      never anything to stop. A timed-out call does not count. */
  predicate ReturnedNil(p: WorkerPool.Pool, t: nat) {
    && t in p.stops && p.stops[t].Returned?
    && (p.stops[t].result.NeverRan? || (p.stops[t].result.Finished? && p.stops[t].result.outcome.err.None?))
  }

  /** The state after the Stop call's first section. */
  function Entered(s: Sys, t: nat): Sys
    requires t !in s.pool.stops
  {
    Do(s, PoolAct(WorkerPool.StopEnter(t)))
  }

  /** Whatever happens next, if the Stop call that enters now returns nil, every
      stored job is terminal then, and the repository never changes again. */
  ghost predicate StopGuarantees(s: Sys, t: nat)
    requires t !in s.pool.stops
  {
    forall run: seq<Sys>, j: nat ::
      IsRun(Step, run) && j < |run| && run[0] == Entered(s, t) && ReturnedNil(run[j].pool, t)
      ==> AllTerminal(run[j]) && run[|run| - 1].store == run[j].store
  }

  /** Something a caller can see before the call: a generation that no repair
      pass has completed for, or a repository with nothing active in it. */
  predicate UnrepairedGeneration(s: Sys) {
    s.pool.current.Some? && s.pool.current.value < |s.pool.gens| && !s.pool.gens[s.pool.current.value].once.Ran?
  }

  lemma EntryPends(s: Sys, t: nat, g: nat)
    requires Quiesced(s) && t !in s.pool.stops && s.pool.current == Some(g) && UnrepairedGeneration(s)
    ensures RepairPending(Entered(s, t), g) && InStop(Entered(s, t).pool, t, g)
  {
  }

  lemma NilMeansTerminal(s: Sys, t: nat, g: nat)
    requires WorkerPool.Inv(s.pool) && RepairPending(s, g) && InStop(s.pool, t, g) && ReturnedNil(s.pool, t)
    ensures AllTerminal(s)
  {
    assert WorkerPool.StopOk(s.pool, t);
  }

  /** The way shutdown takes: the pool is running when cleanup calls Stop. */
  lemma StopIsEnough(s: Sys, t: nat)
    requires Inv(s) && Quiesced(s) && t !in s.pool.stops
    requires UnrepairedGeneration(s) || AllTerminal(s)
    ensures StopGuarantees(s, t)
  {
    forall run: seq<Sys>, j: nat |
      IsRun(Step, run) && j < |run| && run[0] == Entered(s, t) && ReturnedNil(run[j].pool, t)
      ensures AllTerminal(run[j]) && run[|run| - 1].store == run[j].store
    {
      StopReturnsTerminal(s, t, run, j);
      FrozenForever(run, j, |run| - 1);
    }
  }

  lemma StopReturnsTerminal(s: Sys, t: nat, run: seq<Sys>, j: nat)
    requires Inv(s) && Quiesced(s) && t !in s.pool.stops
    requires UnrepairedGeneration(s) || AllTerminal(s)
    requires IsRun(Step, run) && j < |run| && run[0] == Entered(s, t) && ReturnedNil(run[j].pool, t)
    ensures Quiesced(run[j]) && AllTerminal(run[j])
  {
    if AllTerminal(s) {
      FrozenStep(s, PoolAct(WorkerPool.StopEnter(t)));
      FrozenForever(run, 0, j);
    } else {
      var g := s.pool.current.value;
      KeepsInv(s, PoolAct(WorkerPool.StopEnter(t)));
      EntryPends(s, t, g);
      PendingInductive(t, g);
      HoldsFrom(Step, PendingFor(t, g), run, 0, j);
      NilMeansTerminal(run[j], t, g);
    }
  }

  // ------------------------------------------------------------- and necessary

  /** The map-backed repository's bulk update does not fail. */
  predicate NoRepairError(s: Sys) {
    forall g: nat :: g < |s.pool.gens| && s.pool.gens[g].once.Ran? ==> s.pool.gens[g].once.outcome.err.None?
  }

  lemma NoErrorPool(s: Sys, a: WorkerPool.Act)
    requires NoRepairError(s) && CanPool(s, a)
    ensures NoRepairError(DoPool(s, a))
  {
  }

  lemma NoErrorStep(s: Sys, a: Act)
    requires NoRepairError(s) && Can(s, a)
    ensures NoRepairError(Do(s, a))
  {
    if a.PoolAct? {
      NoErrorPool(s, a.pact);
    } else {
      assert Do(s, a).pool == s.pool;
    }
  }

  ghost predicate Sound(s: Sys) {
    Inv(s) && NoRepairError(s)
  }

  lemma SoundInductive()
    ensures Inductive(Step, Sound)
  {
    forall s, s' | Sound(s) && Step(s, s') ensures Sound(s') {
      SoundNext(s, s');
    }
  }

  lemma SoundNext(s: Sys, s': Sys)
    requires Sound(s) && Step(s, s')
    ensures Sound(s')
  {
    var a :| Can(s, a) && s' == Do(s, a);
    KeepsInv(s, a);
    NoErrorStep(s, a);
  }

  /** One pool step of a Stop call that leaves the repository alone. */
  lemma StopCallStep(s: Sys, a: WorkerPool.Act)
    requires WorkerPool.Can(s.pool, a) && (a.StopSeeDone? || a.OncePass? || a.StopFinish?)
    ensures Step(s, s.(pool := WorkerPool.Do(s.pool, a)))
  {
    assert Can(s, PoolAct(a)) && s.(pool := WorkerPool.Do(s.pool, a)) == Do(s, PoolAct(a));
  }

  lemma LateStopPools(p: WorkerPool.Pool, t: nat, g: nat)
    returns (p1: WorkerPool.Pool, p2: WorkerPool.Pool, p3: WorkerPool.Pool)
    requires t in p.stops && p.stops[t] == WorkerPool.Waiting(g)
    requires g < |p.gens| && p.gens[g].done && p.gens[g].once.Ran? && p.gens[g].once.outcome.err.None?
    ensures WorkerPool.Can(p, WorkerPool.StopSeeDone(t)) && p1 == WorkerPool.Do(p, WorkerPool.StopSeeDone(t))
    ensures WorkerPool.Can(p1, WorkerPool.OncePass(t)) && p2 == WorkerPool.Do(p1, WorkerPool.OncePass(t))
    ensures WorkerPool.Can(p2, WorkerPool.StopFinish(t)) && p3 == WorkerPool.Do(p2, WorkerPool.StopFinish(t))
    ensures ReturnedNil(p3, t)
  {
    p1 := WorkerPool.Do(p, WorkerPool.StopSeeDone(t));
    p2 := WorkerPool.Do(p1, WorkerPool.OncePass(t));
    p3 := WorkerPool.Do(p2, WorkerPool.StopFinish(t));
  }

  lemma LateStopEnters(s: Sys, t: nat, g: nat)
    requires WorkerPool.Inv(s.pool) && NoRepairError(s) && t !in s.pool.stops
    requires s.pool.current == Some(g) && s.pool.gens[g].once.Ran?
    ensures
      var s0 := Entered(s, t);
      && s0 == s.(pool := s0.pool) && t in s0.pool.stops && s0.pool.stops[t] == WorkerPool.Waiting(g)
      && g < |s0.pool.gens| && s0.pool.gens == s.pool.gens
      && s0.pool.gens[g].done && s0.pool.gens[g].once.outcome.err.None?
  {
    assert WorkerPool.GenOk(s.pool, g);
  }

  /** A generation that is already repaired lets the call through at once. */
  lemma LateStopReturns(s: Sys, t: nat, g: nat) returns (run: seq<Sys>)
    requires WorkerPool.Inv(s.pool) && NoRepairError(s) && t !in s.pool.stops
    requires s.pool.current == Some(g) && s.pool.gens[g].once.Ran?
    ensures IsRun(Step, run) && |run| == 4 && run[0] == Entered(s, t)
    ensures ReturnedNil(run[3].pool, t) && run[3].store == s.store
  {
    var s0 := Entered(s, t);
    LateStopEnters(s, t, g);
    run := LateStopRun(s0, t, g);
  }

  lemma LateStopRun(s0: Sys, t: nat, g: nat) returns (run: seq<Sys>)
    requires t in s0.pool.stops && s0.pool.stops[t] == WorkerPool.Waiting(g)
    requires g < |s0.pool.gens| && s0.pool.gens[g].done
    requires s0.pool.gens[g].once.Ran? && s0.pool.gens[g].once.outcome.err.None?
    ensures IsRun(Step, run) && |run| == 4 && run[0] == s0
    ensures ReturnedNil(run[3].pool, t) && run[3].store == s0.store
  {
    var p1, p2, p3 := LateStopPools(s0.pool, t, g);
    StopCallStep(s0, WorkerPool.StopSeeDone(t));
    StopCallStep(s0.(pool := p1), WorkerPool.OncePass(t));
    StopCallStep(s0.(pool := p2), WorkerPool.StopFinish(t));
    run := [s0, s0.(pool := p1), s0.(pool := p2), s0.(pool := p3)];
  }

  lemma StopIsNotEnough(s: Sys, t: nat)
    requires Sound(s) && t !in s.pool.stops && !UnrepairedGeneration(s) && !AllTerminal(s)
    ensures !StopGuarantees(s, t)
  {
    if s.pool.current.None? {
      var run := [Entered(s, t)];
      assert s.pool.last.Some? ==> s.pool.gens[|s.pool.gens| - 1].once == WorkerPool.Ran(s.pool.last.value);
      assert IsRun(Step, run) && run[0] == Entered(s, t) && ReturnedNil(run[0].pool, t) && !AllTerminal(run[0]);
    } else {
      var run := LateStopReturns(s, t, s.pool.current.value);
      assert !AllTerminal(run[3]);
    }
  }

  /** Shutdown completeness with its exact condition: in any reachable state in
      which admission is closed and the handlers are gone, a Stop call that
      returns nil leaves every job terminal for good, on every continuation, if
      and only if the current generation is still to be repaired or nothing is
      active to begin with. */
  lemma ShutdownCompleteness(run: seq<Sys>, config: Config, i: nat, t: nat)
    requires IsRun(Step, run) && run[0] == NewSys(config) && i < |run|
    requires Quiesced(run[i]) && t !in run[i].pool.stops
    ensures StopGuarantees(run[i], t) <==> UnrepairedGeneration(run[i]) || AllTerminal(run[i])
  {
    StartsInInv(config);
    SoundInductive();
    HoldsFrom(Step, Sound, run, 0, i);
    if UnrepairedGeneration(run[i]) || AllTerminal(run[i]) {
      StopIsEnough(run[i], t);
    } else {
      StopIsNotEnough(run[i], t);
    }
  }

  /** A pool that is running, in the sense of IsRunning, meets the condition. */
  lemma RunningIsUnrepaired(s: Sys)
    requires Inv(s) && s.pool.current.Some? && !s.pool.stopping
    ensures UnrepairedGeneration(s)
  {
    assert WorkerPool.GenOk(s.pool, s.pool.current.value);
  }

  const SCRIPT := [Saved, Published, Locked, SawOpen, Admitted]

  /** A lone Create handler, `k` steps after its save. */
  predicate Scripted(s: Sys, k: nat) {
    && k <= 5 && s.pool == WorkerPool.NEW_POOL
    && 1 in s.store.jobs && s.store.jobs[1].status == Queued
    && s.handlers == (if k < 5 then map[0 := Handler(1, Queue.Input("n", 1, "e"), SCRIPT[k])] else map[])
    && s.queue.readers == (if k < 2 || k == 5 then map[] else map[0 := k == 3])
    && s.queue.writer.None? && !s.queue.stopped && s.queue.capacity == 1 && (k < 4 ==> s.queue.buf == [])
  }

  lemma ScriptedStep(s: Sys, k: nat)
    requires Scripted(s, k) && k < 5
    ensures CanHandle(s, 0, true) && Scripted(DoHandle(s, 0, true), k + 1)
  {
  }

  /** Admission being closed, `k` steps in, with the handler gone. */
  predicate Closing(s: Sys, k: nat) {
    && k <= 4 && s.pool == WorkerPool.NEW_POOL && s.handlers == map[] && s.queue.readers == map[]
    && 1 in s.store.jobs && s.store.jobs[1].status == Queued
    && s.queue.writer == (if 1 <= k <= 2 then Some(1) else None)
    && (k >= 2 ==> s.queue.stopped) && (k >= 3 ==> s.queue.barrier) && (k == 4 ==> !s.httpOpen)
  }

  const CLOSING := [Barrier(Queue.Lock(1)), Barrier(Queue.SetStopped(1)), Barrier(Queue.Unlock(1)), CloseHttp]

  lemma ClosingStep(s: Sys, k: nat)
    requires Closing(s, k) && k < 4
    ensures Can(s, CLOSING[k]) && Closing(Do(s, CLOSING[k]), k + 1)
  {
  }

  lemma QuiescedWithQueuedJob(fold: char -> char) returns (s: Sys)
    ensures Reaches(Step, NewSys(Config(1, fold)), s) && Closing(s, 4)
  {
    var s0 := NewSys(Config(1, fold));
    var first := Accept(0, Queue.Input("n", 1, "e"), 7);
    s := Do(s0, first);
    ReachesSelf(Step, s0);
    ReachesMore(Step, s0, s0, s);
    for k := 0 to 5
      invariant Reaches(Step, s0, s) && Scripted(s, k)
    {
      ScriptedStep(s, k);
      assert Can(s, Handle(0, true)) && Do(s, Handle(0, true)) == DoHandle(s, 0, true);
      ReachesMore(Step, s0, s, DoHandle(s, 0, true));
      s := DoHandle(s, 0, true);
    }
    for k := 0 to 4
      invariant Reaches(Step, s0, s) && Closing(s, k)
    {
      ClosingStep(s, k);
      ReachesMore(Step, s0, s, Do(s, CLOSING[k]));
      s := Do(s, CLOSING[k]);
    }
  }

  /** The condition matters: without a generation to repair, admission can be
      closed and every handler gone while a job is still queued, and then Stop
      returns nil over it. */
  lemma StopCanReturnNilOverAQueuedJob(fold: char -> char) returns (s: Sys)
    ensures Reaches(Step, NewSys(Config(1, fold)), s) && Quiesced(s) && !AllTerminal(s) && 9 !in s.pool.stops
    ensures !StopGuarantees(s, 9)
  {
    s := QuiescedWithQueuedJob(fold);
    StartsInInv(Config(1, fold));
    SoundInductive();
    ReachesHolds(Step, Sound, NewSys(Config(1, fold)), s);
    StopIsNotEnough(s, 9);
  }
}
