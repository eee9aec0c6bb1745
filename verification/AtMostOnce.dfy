/** At-most-once execution: over any number of generations, and even if the
    channel redelivers accepted items at will, CreateUser is called at most once
    per job and never for a job that was deleted or that repair has failed. */
module AtMostOnce {
  import opened Runs
  import opened Jobs
  import opened AsyncRuntime
  import JobStore
  import Queue
  import WorkerPool
  import Users

  predicate IsQueued(s: Sys, j: int) {
    j in s.store.jobs && s.store.jobs[j].status == Queued
  }

  /** Past the winning compare-and-set, before the call. */
  predicate MayCall(task: Task) {
    task.Started? || task.Calling?
  }

  predicate HandlerOk(s: Sys, t: nat)
    requires t in s.handlers
  {
    var h := s.handlers[t];
    1 <= h.job < s.store.nextID && h.job !in s.past.deleted && (h.pc == Admitted <==> h.job in s.past.admitted)
  }

  /** Identities: every job in flight was issued and belongs to one handler or to
      the channel; deleted jobs never got into the channel. */
  predicate Identities(s: Sys) {
    && (forall t :: t in s.handlers ==> HandlerOk(s, t))
    && (forall t, u :: t in s.handlers && u in s.handlers && s.handlers[t].job == s.handlers[u].job ==> t == u)
    && (forall j :: j in s.past.admitted ==> 1 <= j < s.store.nextID && j !in s.past.deleted)
    && (forall j :: j in s.past.deleted ==> j < s.store.nextID && j !in s.store.jobs)
    && (forall i :: 0 <= i < |s.queue.buf| ==> s.queue.buf[i].job in s.past.admitted)
    && (forall i :: 0 <= i < |s.queue.accepted| ==> s.queue.accepted[i].job in s.past.admitted)
    && (forall i, k :: 0 <= i < k < |s.queue.accepted| ==> s.queue.accepted[i].job != s.queue.accepted[k].job)
    && (forall w :: w in s.tasks && HasItem(s.tasks[w]) ==> s.tasks[w].item.job in s.past.admitted)
  }

  /** Winning the start transition is the only way to a permit, a permit is used
      up by the call, and a job with a permit or a call is no longer queued. */
  predicate Permits(s: Sys) {
    var p := s.past;
    && (forall w :: w in s.tasks && MayCall(s.tasks[w]) ==>
          s.tasks[w].item.job in p.permit && p.permit[s.tasks[w].item.job] == w)
    && (forall j :: j in p.permit ==>
          p.permit[j] in s.tasks && MayCall(s.tasks[p.permit[j]]) && s.tasks[p.permit[j]].item.job == j)
    && (forall j :: j in p.permit ==> j !in p.calls && j !in p.repaired && !IsQueued(s, j))
    && (forall i :: 0 <= i < |p.calls| ==> p.calls[i] in p.admitted && !IsQueued(s, p.calls[i]))
    && (forall i, k :: 0 <= i < k < |p.calls| ==> p.calls[i] != p.calls[k])
    && (forall j :: j in p.repaired ==> j < s.store.nextID && !IsQueued(s, j))
  }

  predicate Workers(s: Sys) {
    WorkerPool.Inv(s.pool) && s.tasks.Keys == WorkerPool.Live(s.pool)
  }

  predicate Safe(s: Sys) {
    JobStore.StoreOk(s.store) && Workers(s) && Identities(s) && Permits(s)
  }

  /** No job that has left the queue gets back into it. */
  ghost predicate NoneRequeued(s: Sys, s': Sys) {
    forall j :: !IsQueued(s, j) ==> !IsQueued(s', j)
  }

  lemma StoreStep(s: Sys, s': Sys, op: JobStore.Op)
    requires JobStore.StoreOk(s.store) && !op.Save? && s'.store == JobStore.Exec(s.store, op).0
    ensures JobStore.StoreOk(s'.store) && s'.store.nextID == s.store.nextID
    ensures NoneRequeued(s, s') && s'.store.jobs.Keys <= s.store.jobs.Keys
  {
    forall j: int ensures (!IsQueued(s, j) ==> !IsQueued(s', j)) && (j in s'.store.jobs ==> j in s.store.jobs) {
      JobStore.ExecOne(s.store, op, j);
    }
    JobStore.ExecOne(s.store, op, 0);
  }

  lemma OnlyFrom(status: Status)
    ensures CanTransition(status, Start) <==> status == Queued
    ensures CanTransition(status, Succeed) <==> status == Running
    ensures CanTransition(status, Fail) <==> status == Queued || status == Running
  {
    assert TransitionFor(Start) == Some(TransitionSpec(Start, [Queued], Running));
    assert TransitionFor(Succeed) == Some(TransitionSpec(Succeed, [Running], Succeeded));
    assert TransitionFor(Fail) == Some(TransitionSpec(Fail, [Queued, Running], Failed));
  }

  // Steps that leave permits and calls alone keep `Permits`; so do the two that do not.

  lemma PermitsFrame(s: Sys, s': Sys)
    requires Permits(s) && NoneRequeued(s, s') && s'.store.nextID == s.store.nextID
    requires s'.past.permit == s.past.permit && s'.past.calls == s.past.calls && s.past.admitted <= s'.past.admitted
    requires forall j :: j in s'.past.repaired ==>
               j in s.past.repaired || (s.tasks == map[] && j < s.store.nextID && !IsQueued(s', j))
    requires forall w :: w in s.tasks && MayCall(s.tasks[w]) ==>
               w in s'.tasks && MayCall(s'.tasks[w]) && s'.tasks[w].item == s.tasks[w].item
    requires forall w :: w in s'.tasks && MayCall(s'.tasks[w]) ==>
               w in s.tasks && MayCall(s.tasks[w]) && s'.tasks[w].item == s.tasks[w].item
    ensures Permits(s')
  {
  }

  lemma PermitsWin(s: Sys, s': Sys, w: nat, item: Queue.Item)
    requires Permits(s) && NoneRequeued(s, s') && s'.store.nextID == s.store.nextID
    requires w in s.tasks && s.tasks[w] == Starting(item) && s'.tasks == s.tasks[w := Started(item)]
    requires IsQueued(s, item.job) && !IsQueued(s', item.job)
    requires s'.past == s.past.(permit := s.past.permit[item.job := w])
    ensures Permits(s')
  {
  }

  lemma PermitsCall(s: Sys, s': Sys, w: nat, item: Queue.Item)
    requires Permits(s) && s'.store == s.store && item.job in s.past.admitted
    requires w in s.tasks && s.tasks[w] == Calling(item)
    requires w in s'.tasks && s'.tasks == s.tasks[w := s'.tasks[w]] && !MayCall(s'.tasks[w])
    requires s'.past == s.past.(permit := s.past.permit - {item.job}, calls := s.past.calls + [item.job])
    ensures Permits(s')
  {
    assert NoneRequeued(s, s');
    assert item.job in s.past.permit && s.past.permit[item.job] == w;
    forall i | 0 <= i < |s'.past.calls|
      ensures s'.past.calls[i] in s'.past.admitted && !IsQueued(s', s'.past.calls[i])
    {
      assert i < |s.past.calls| ==> s'.past.calls[i] == s.past.calls[i];
    }
  }

  lemma IdentitiesFrame(s: Sys, s': Sys)
    requires Identities(s) && s'.store.nextID == s.store.nextID && s'.store.jobs.Keys <= s.store.jobs.Keys
    requires s'.handlers == s.handlers && s'.past.admitted == s.past.admitted && s'.past.deleted == s.past.deleted
    requires s'.queue.accepted == s.queue.accepted
    requires forall i :: 0 <= i < |s'.queue.buf| ==> s'.queue.buf[i].job in s.past.admitted
    requires forall w :: w in s'.tasks && HasItem(s'.tasks[w]) ==> s'.tasks[w].item.job in s.past.admitted
    ensures Identities(s')
  {
    forall u | u in s'.handlers ensures HandlerOk(s', u) {
      assert HandlerOk(s, u);
    }
  }

  // -------------------------------------------------------------- each step

  lemma AcceptKeeps(s: Sys, t: nat, payload: Queue.Input, owner: int)
    requires Safe(s) && CanAccept(s, t)
    ensures Safe(DoAccept(s, t, payload, owner))
  {
    var s' := DoAccept(s, t, payload, owner);
    JobStore.ExecOne(s.store, JobStore.Save(Job(0, Queued, None, None, owner)), 0);
    AcceptKeepsIdentities(s, t, payload, owner);
    assert Permits(s') by {
      forall j: int | j != s.store.nextID ensures IsQueued(s', j) <==> IsQueued(s, j) {}
    }
  }

  lemma AcceptKeepsIdentities(s: Sys, t: nat, payload: Queue.Input, owner: int)
    requires Identities(s) && CanAccept(s, t) && 1 <= s.store.nextID
    ensures Identities(DoAccept(s, t, payload, owner))
  {
    var s' := DoAccept(s, t, payload, owner);
    forall u | u in s'.handlers ensures HandlerOk(s', u) {
      if u != t {
        assert HandlerOk(s, u);
      }
    }
  }

  /** The two handler steps that change who is known to be admitted or deleted. */
  lemma HandleShape(s: Sys, t: nat, ok: bool)
    requires CanHandle(s, t, ok)
    ensures
      var s', h := DoHandle(s, t, ok), s.handlers[t];
      var next := NextPc(h.pc, s.queue.stopped, ok);
      var sent, item := next == Some(Admitted), Queue.Item(h.job, h.payload);
      && s'.past.admitted == (if sent then s.past.admitted + {h.job} else s.past.admitted)
      && s'.past.deleted == (if h.pc == RollingBack then s.past.deleted + {h.job} else s.past.deleted)
      && s'.queue.buf == (if sent then s.queue.buf + [item] else s.queue.buf)
      && s'.queue.accepted == (if sent then s.queue.accepted + [item] else s.queue.accepted)
      && s'.handlers == (if next.Some? then s.handlers[t := h.(pc := next.value)] else s.handlers - {t})
      && (sent ==> h.pc == SawOpen) && (next.None? <==> h.pc == Admitted || h.pc == RollingBack)
  {
  }

  lemma IdentitiesSend(s: Sys, s': Sys, t: nat, item: Queue.Item)
    requires Identities(s) && t in s.handlers && s.handlers[t].job == item.job && s.handlers[t].pc != Admitted
    requires s'.store == s.store && s'.tasks == s.tasks && s'.past.deleted == s.past.deleted
    requires s'.past.admitted == s.past.admitted + {item.job}
    requires s'.queue.buf == s.queue.buf + [item] && s'.queue.accepted == s.queue.accepted + [item]
    requires s'.handlers == s.handlers[t := s.handlers[t].(pc := Admitted)]
    ensures Identities(s')
  {
    assert HandlerOk(s, t);
    forall u | u in s'.handlers ensures HandlerOk(s', u) && s'.handlers[u].job == s.handlers[u].job {
      assert HandlerOk(s, u);
    }
  }

  lemma IdentitiesQuiet(s: Sys, s': Sys, t: nat)
    requires Identities(s) && t in s.handlers && s'.tasks == s.tasks
    requires s'.store.nextID == s.store.nextID && s'.store.jobs.Keys <= s.store.jobs.Keys
    requires s'.past.admitted == s.past.admitted && s'.queue.buf == s.queue.buf && s'.queue.accepted == s.queue.accepted
    requires s'.past.deleted == s.past.deleted
             || (&& s'.past.deleted == s.past.deleted + {s.handlers[t].job} && s.handlers[t].pc == RollingBack
                 && t !in s'.handlers && s.handlers[t].job !in s'.store.jobs)
    requires forall u :: u in s'.handlers ==>
               && u in s.handlers && s'.handlers[u].job == s.handlers[u].job
               && (s'.handlers[u].pc == Admitted <==> s.handlers[u].pc == Admitted)
    ensures Identities(s')
  {
    assert HandlerOk(s, t);
    forall u | u in s'.handlers ensures HandlerOk(s', u) {
      assert HandlerOk(s, u);
    }
  }

  lemma HandleKeepsIdentities(s: Sys, t: nat, ok: bool)
    requires Identities(s) && JobStore.StoreOk(s.store) && CanHandle(s, t, ok)
    ensures Identities(DoHandle(s, t, ok))
  {
    var s', h := DoHandle(s, t, ok), s.handlers[t];
    HandleShape(s, t, ok);
    if NextPc(h.pc, s.queue.stopped, ok) == Some(Admitted) {
      IdentitiesSend(s, s', t, Queue.Item(h.job, h.payload));
    } else {
      IdentitiesQuiet(s, s', t);
    }
  }

  lemma HandleKeeps(s: Sys, t: nat, ok: bool)
    requires Safe(s) && CanHandle(s, t, ok)
    ensures Safe(DoHandle(s, t, ok))
  {
    var s' := DoHandle(s, t, ok);
    HandleKeepsIdentities(s, t, ok);
    if s.handlers[t].pc == RollingBack {
      StoreStep(s, s', JobStore.Delete(s.handlers[t].job));
    }
    PermitsFrame(s, s');
  }

  lemma TakeKeeps(s: Sys, w: nat)
    requires Safe(s) && CanTake(s, w)
    ensures Safe(DoTake(s, w))
  {
    var s' := DoTake(s, w);
    assert s.queue.buf[0].job in s.past.admitted;
    IdentitiesFrame(s, s');
    PermitsFrame(s, s');
  }

  /** What a turn can do to a permit. */
  lemma TurnPermit(task: Task, job: Option<Job>, users: Users.UserStore, canceled: bool)
    requires HasItem(task)
    ensures
      var turn := TurnOf(task, job, users, canceled);
      && (HasItem(turn.next) ==> turn.next.item == task.item)
      && (turn.next.Started? ==>
            task.Starting? && Allowed(job, Start) && turn.change == Some(JobStore.ToRunning) && turn.event.None?)
      && (task.Started? <==> turn.next.Calling?)
      && (task.Calling? ==> turn.change.None? && turn.event.None? && !turn.saves && HasItem(turn.next))
      && (turn.change.Some? ==> Allowed(job, JobStore.IntentOf(turn.change.value)))
  {
  }

  lemma AdvanceStore(s: Sys, w: nat)
    requires JobStore.StoreOk(s.store) && CanAdvance(s, w)
    ensures
      var s' := DoAdvance(s, w);
      && JobStore.StoreOk(s'.store) && s'.store.nextID == s.store.nextID
      && NoneRequeued(s, s') && s'.store.jobs.Keys <= s.store.jobs.Keys
  {
    var turn := TurnAt(s, w);
    if turn.change.Some? {
      StoreStep(s, DoAdvance(s, w), JobStore.Set(s.tasks[w].item.job, turn.change.value));
    }
  }

  lemma AdvanceKeepsPermits(s: Sys, w: nat)
    requires JobStore.StoreOk(s.store) && Identities(s) && Permits(s) && CanAdvance(s, w)
    ensures Permits(DoAdvance(s, w))
  {
    var s', task, turn := DoAdvance(s, w), s.tasks[w], TurnAt(s, w);
    AdvanceStore(s, w);
    TurnPermit(task, Stored(s, task.item.job), s.users, s.pool.gens[s.pool.workers[w].gen].canceled);
    if task.Calling? {
      PermitsCall(s, s', w, task.item);
    } else if turn.next.Started? {
      OnlyFrom(s.store.jobs[task.item.job].status);
      PermitsWin(s, s', w, task.item);
    } else {
      PermitsFrame(s, s');
    }
  }

  lemma AdvanceKeeps(s: Sys, w: nat)
    requires Safe(s) && CanAdvance(s, w)
    ensures Safe(DoAdvance(s, w))
  {
    var s', task := DoAdvance(s, w), s.tasks[w];
    AdvanceStore(s, w);
    AdvanceKeepsPermits(s, w);
    TurnPermit(task, Stored(s, task.item.job), s.users, s.pool.gens[s.pool.workers[w].gen].canceled);
    IdentitiesFrame(s, s');
  }

  /** The pool step keeps its own invariant, and a repair finds no task at all. */
  lemma PoolKeepsWorkers(s: Sys, a: WorkerPool.Act)
    requires Workers(s) && CanPool(s, a)
    ensures Workers(DoPool(s, a))
    ensures a.Repair? ==> s.tasks == map[]
  {
    WorkerPool.LiveAfter(s.pool, a);
    if a.Repair? {
      WorkerPool.RepairFindsNoWorker(s.pool, a.t, s.pool.stops[a.t].gen);
    }
  }

  /** New workers are new: tasks come and go only while idle or leaving. */
  lemma PoolKeepsTasks(s: Sys, a: WorkerPool.Act)
    requires Workers(s) && CanPool(s, a)
    ensures
      var s' := DoPool(s, a);
      && (forall w :: w in s.tasks && HasItem(s.tasks[w]) ==> w in s'.tasks && s'.tasks[w] == s.tasks[w])
      && (forall w :: w in s'.tasks && HasItem(s'.tasks[w]) ==> w in s.tasks && s'.tasks[w] == s.tasks[w])
  {
    if a.Start? {
      forall w | w in s.tasks ensures w < s.pool.nextWorker {
        assert WorkerPool.WorkerOk(s.pool, w);
      }
    }
  }

  lemma RepairKeeps(s: Sys, s': Sys)
    requires JobStore.StoreOk(s.store) && Identities(s) && Permits(s) && s.tasks == map[]
    requires s' == s.(pool := s'.pool, store := s'.store, past := s'.past)
    requires s'.store == JobStore.FailActive(s.store, SHUTDOWN_PROBLEM).0
    requires s'.past == s.past.(repaired := s.past.repaired + JobStore.ActiveIds(s.store.jobs))
    ensures JobStore.StoreOk(s'.store) && Identities(s') && Permits(s')
  {
    StoreStep(s, s', JobStore.FailAll(SHUTDOWN_PROBLEM));
    RepairLeavesNoneQueued(s, s');
    PermitsFrame(s, s');
    IdentitiesFrame(s, s');
  }

  lemma PoolKeeps(s: Sys, a: WorkerPool.Act)
    requires Safe(s) && CanPool(s, a)
    ensures Safe(DoPool(s, a))
  {
    var s' := DoPool(s, a);
    PoolKeepsWorkers(s, a);
    if a.Repair? {
      RepairKeeps(s, s');
    } else {
      PoolKeepsTasks(s, a);
      TasksKeep(s, s');
    }
  }

  lemma TasksKeep(s: Sys, s': Sys)
    requires Identities(s) && Permits(s) && s' == s.(pool := s'.pool, tasks := s'.tasks)
    requires forall w :: w in s.tasks && HasItem(s.tasks[w]) ==> w in s'.tasks && s'.tasks[w] == s.tasks[w]
    requires forall w :: w in s'.tasks && HasItem(s'.tasks[w]) ==> w in s.tasks && s'.tasks[w] == s.tasks[w]
    ensures Identities(s') && Permits(s')
  {
    PermitsFrame(s, s');
    IdentitiesFrame(s, s');
  }

  lemma RepairLeavesNoneQueued(s: Sys, s': Sys)
    requires s'.store == JobStore.FailActive(s.store, SHUTDOWN_PROBLEM).0
    ensures forall j :: !IsQueued(s', j)
  {
  }

  /** Steps that touch none of the state the invariant speaks of. */
  lemma FrameKeeps(s: Sys, s': Sys)
    requires Safe(s)
    requires s' == s.(queue := s'.queue, users := s'.users, httpOpen := s'.httpOpen, hubClosed := s'.hubClosed)
    requires s'.queue.accepted == s.queue.accepted
    requires forall i :: 0 <= i < |s'.queue.buf| ==> s'.queue.buf[i].job in s.past.admitted
    ensures Safe(s')
  {
    IdentitiesFrame(s, s');
    PermitsFrame(s, s');
  }

  lemma KeepsSafe(s: Sys, a: Act)
    requires Safe(s) && Can(s, a)
    ensures Safe(Do(s, a))
  {
    match a
    case Accept(t, payload, owner) => AcceptKeeps(s, t, payload, owner);
    case Handle(t, ok) => HandleKeeps(s, t, ok);
    case Take(w) => TakeKeeps(s, w);
    case Advance(w) => AdvanceKeeps(s, w);
    case PoolAct(pact) => PoolKeeps(s, pact);
    case Barrier(_) => FrameKeeps(s, Do(s, a));
    case CloseHttp => FrameKeeps(s, Do(s, a));
    case CloseHub => FrameKeeps(s, Do(s, a));
    case SyncCreate(_) => FrameKeeps(s, Do(s, a));
  }

  lemma FaultyKeeps(s: Sys, s': Sys)
    requires Safe(s) && FaultyStep(s, s')
    ensures Safe(s')
  {
    if Step(s, s') {
      var a :| Can(s, a) && s' == Do(s, a);
      KeepsSafe(s, a);
    } else {
      var item :| item in s.queue.accepted && s' == Redelivered(s, item);
      FrameKeeps(s, s');
    }
  }

  lemma SafeInductive()
    ensures Inductive(FaultyStep, Safe)
  {
    forall s, s' | Safe(s) && FaultyStep(s, s') ensures Safe(s') {
      FaultyKeeps(s, s');
    }
  }

  /** Every call is made for a job that was never called for before, that repair
      has not failed and that was not deleted. */
  lemma CallIsFirst(s: Sys, w: nat)
    requires Safe(s) && CanAdvance(s, w) && s.tasks[w].Calling?
    ensures
      var j, p := s.tasks[w].item.job, s.past;
      && DoAdvance(s, w).past.calls == p.calls + [j]
      && j !in p.calls && j !in p.repaired && j !in p.deleted && j in p.admitted
  {
    assert s.tasks[w].item.job in s.past.permit;
  }

  /** The theorem, over every run of the faulty channel. */
  lemma AtMostOnceOverRuns(run: seq<Sys>, config: Config, i: nat)
    requires IsRun(FaultyStep, run) && run[0] == NewSys(config) && i < |run|
    ensures
      var p := run[i].past;
      && (forall k, l :: 0 <= k < l < |p.calls| ==> p.calls[k] != p.calls[l])
      && (forall k :: 0 <= k < |p.calls| ==> p.calls[k] in p.admitted && p.calls[k] !in p.deleted)
  {
    SafeInductive();
    assert Safe(NewSys(config));
    HoldsFrom(FaultyStep, Safe, run, 0, i);
  }

  lemma OnlyCallingCalls(s: Sys, a: Act)
    requires Can(s, a) && !(a.Advance? && s.tasks[a.w].Calling?)
    ensures Do(s, a).past.calls == s.past.calls
  {
  }

  /** Step by step along every run of the faulty channel: a step makes no call, or
      one for a job that was admitted, never called for, never deleted and not
      failed by repair up to that moment. */
  lemma EachCallIsFirst(run: seq<Sys>, config: Config, i: nat)
    requires IsRun(FaultyStep, run) && run[0] == NewSys(config) && i + 1 < |run|
    ensures
      var p, p' := run[i].past, run[i + 1].past;
      || p'.calls == p.calls
      || exists j ::
           && p'.calls == p.calls + [j]
           && j in p.admitted && j !in p.calls && j !in p.repaired && j !in p.deleted
  {
    var s, s' := run[i], run[i + 1];
    SafeInductive();
    assert Safe(NewSys(config));
    HoldsFrom(FaultyStep, Safe, run, 0, i);
    assert FaultyStep(s, s');
    if Step(s, s') {
      var a :| Can(s, a) && s' == Do(s, a);
      if a.Advance? && s.tasks[a.w].Calling? {
        CallIsFirst(s, a.w);
      } else {
        OnlyCallingCalls(s, a);
      }
    }
  }
}
