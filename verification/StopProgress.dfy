/** Stop is not stuck either: from every reachable state a Stop call that has
    entered a generation can still return nil. The workers finish what they hold
    and leave, the last of them closes `done`, one call repairs. */
module StopProgress {
  import opened Runs
  import opened AsyncRuntime
  import opened AsyncObjects
  import opened Progress
  import Conservation
  import JobStore
  import PoolLaws
  import Shutdown
  import WorkerPool

  ghost predicate Good(s: Sys) {
    Shutdown.Sound(s) && PoolLaws.Lawful(s.pool)
  }

  lemma GoodStep(s: Sys, a: Act)
    requires Good(s) && Can(s, a)
    ensures Good(Do(s, a))
  {
    assert Step(s, Do(s, a));
    Shutdown.SoundNext(s, Do(s, a));
    if a.PoolAct? {
      PoolLaws.LawfulNext(s.pool, a.pact);
    }
  }

  lemma GoodInductive()
    ensures Inductive(Step, Good)
  {
    forall s, s' | Good(s) && Step(s, s') ensures Good(s') {
      var a :| Can(s, a) && s' == Do(s, a);
      GoodStep(s, a);
    }
  }

  lemma StartsGood(config: Config)
    ensures Good(NewSys(config))
  {
    Conservation.StartsInInv(config);
  }

  /** A state some run of the system leads to. */
  ghost predicate Reachable(config: Config, s: Sys) {
    Reaches(Step, NewSys(config), s)
  }

  lemma ReachableIsGood(config: Config, s: Sys)
    requires Reachable(config, s)
    ensures Good(s)
  {
    StartsGood(config);
    GoodInductive();
    ReachesHolds(Step, Good, NewSys(config), s);
  }

  /** One more step of the pool, on the way from s0. */
  lemma PoolGo(config: Config, s0: Sys, s: Sys, a: WorkerPool.Act) returns (s': Sys)
    requires Reachable(config, s) && Reaches(Step, s0, s) && CanPool(s, a)
    ensures s' == DoPool(s, a) && Reachable(config, s') && Reaches(Step, s0, s')
  {
    s' := DoPool(s, a);
    Stepped(s0, s, PoolAct(a));
    Stepped(NewSys(config), s, PoolAct(a));
  }

  // ------------------------------------------------------------ workers leave

  /** How many turns a worker may still need. */
  function Left(task: Task): nat {
    match task
    case Idle => 0
    case Leaving => 0
    case Got(_) => 9
    case Ready(_) => 8
    case Starting(_) => 7
    case Started(_) => 6
    case Calling(_) => 5
    case SavingUser(_) => 4
    case Created(_, _) => 3
    case Succeeding(_, _) => 2
    case Announcing(_, _) => 1
    case Failing(_, _, _) => 3
    case Refusing(_, _, _) => 2
    case Mourning(_, _) => 1
  }

  lemma TurnsCountDown(v: View, canceled: bool)
    requires HasItem(v.task)
    ensures Left(Turned(v, canceled).task) < Left(v.task)
  {
  }

  lemma {:induction false} TurnsEnd(v: View, canceled: bool, n: nat)
    requires Left(v.task) <= n
    ensures !HasItem(Turns(v, canceled, n).task)
    decreases n
  {
    if HasItem(v.task) {
      TurnsCountDown(v, canceled);
      TurnsEnd(Turned(v, canceled), canceled, n - 1);
    }
  }

  /** Generation g is current, being stopped and canceled. */
  predicate Ending(s: Sys, g: nat) {
    s.pool.current == Some(g) && s.pool.stopping && g < |s.pool.gens| && s.pool.gens[g].canceled
  }

  lemma WorkerIsCurrent(config: Config, s: Sys, w: nat, g: nat)
    requires Reachable(config, s) && w in s.tasks && s.pool.current == Some(g)
    ensures InPool(s, w) && s.pool.workers[w] == WorkerPool.Looping(g)
  {
    ReachableIsGood(config, s);
    assert w in WorkerPool.Live(s.pool);
    WorkerPool.LiveIsCurrent(s.pool, w);
    assert WorkerPool.WorkerOk(s.pool, w);
  }

  /** A worker finishes what it holds. */
  lemma WorkerComesHome(config: Config, s0: Sys, s: Sys, w: nat, g: nat) returns (s': Sys)
    requires Reachable(config, s) && Reaches(Step, s0, s) && Ending(s, g) && w in s.tasks
    ensures Reachable(config, s') && Reaches(Step, s0, s') && s'.pool == s.pool && s'.tasks.Keys == s.tasks.Keys
    ensures !HasItem(s'.tasks[w])
  {
    WorkerIsCurrent(config, s, w, g);
    ReachesSelf(Step, s);
    s' := WorkerTurns(s, s, w, 9);
    TurnsEnd(ViewOf(s, w), Canceled(s, w), 9);
    ReachesTransitive(Step, s0, s, s');
    ReachesTransitive(Step, NewSys(config), s, s');
  }

  lemma ExitEffect(s: Sys, w: nat, g: nat)
    requires Ending(s, g) && w in s.tasks && !HasItem(s.tasks[w]) && InPool(s, w)
    requires s.pool.workers[w] == WorkerPool.Looping(g)
    ensures CanPool(s, WorkerPool.WorkerExit(w))
    ensures
      var s' := DoPool(s, WorkerPool.WorkerExit(w));
      s'.tasks == s.tasks - {w} && s'.pool.stops == s.pool.stops && Ending(s', g)
  {
  }

  /** All workers of a generation that is ending can finish and leave. */
  lemma {:induction false} WorkersLeave(config: Config, s0: Sys, s: Sys, g: nat) returns (s': Sys)
    requires Reachable(config, s) && Reaches(Step, s0, s) && Ending(s, g)
    ensures Reachable(config, s') && Reaches(Step, s0, s') && Ending(s', g) && s'.tasks == map[]
    ensures s'.pool.stops == s.pool.stops
    decreases |s.tasks.Keys|
  {
    s' := s;
    if s.tasks != map[] {
      var w :| w in s.tasks;
      var s1 := WorkerComesHome(config, s0, s, w, g);
      WorkerIsCurrent(config, s1, w, g);
      ExitEffect(s1, w, g);
      var s2 := PoolGo(config, s0, s1, WorkerPool.WorkerExit(w));
      assert s2.tasks.Keys == s.tasks.Keys - {w};
      s' := WorkersLeave(config, s0, s2, g);
    }
  }

  lemma CloseEffect(s: Sys, w: nat, g: nat)
    requires w in s.pool.workers && s.pool.workers[w] == WorkerPool.Closing(g) && Ending(s, g)
    ensures CanPool(s, WorkerPool.WorkerClose(w))
    ensures
      var s' := DoPool(s, WorkerPool.WorkerClose(w));
      s'.pool.stops == s.pool.stops && g < |s'.pool.gens| && s'.pool.gens[g].done
  {
  }

  lemma SomeoneCloses(config: Config, s: Sys, g: nat)
    requires Reachable(config, s) && s.tasks == map[] && g < |s.pool.gens| && !s.pool.gens[g].done
    ensures PoolLaws.HasCloser(s.pool, g)
  {
    ReachableIsGood(config, s);
    assert WorkerPool.Live(s.pool) == {};
    assert forall w :: w in WorkerPool.LiveOf(s.pool, g) ==> w in WorkerPool.Live(s.pool);
    assert WorkerPool.LiveOf(s.pool, g) == {};
  }

  /** And then `done` can be closed. */
  lemma GenerationEnds(config: Config, s0: Sys, s: Sys, g: nat) returns (s': Sys)
    requires Reachable(config, s) && Reaches(Step, s0, s) && Ending(s, g)
    ensures Reachable(config, s') && Reaches(Step, s0, s') && g < |s'.pool.gens| && s'.pool.gens[g].done
    ensures s'.pool.stops == s.pool.stops
  {
    s' := WorkersLeave(config, s0, s, g);
    if !s'.pool.gens[g].done {
      SomeoneCloses(config, s', g);
      var w :| w in s'.pool.workers && s'.pool.workers[w] == WorkerPool.Closing(g);
      CloseEffect(s', w, g);
      s' := PoolGo(config, s0, s', WorkerPool.WorkerClose(w));
    }
  }

  // -------------------------------------------------------------- Stop goes on

  /** Call t is somewhere inside Stop of generation g. */
  predicate Inside(s: Sys, t: nat, g: nat) {
    t in s.pool.stops && !s.pool.stops[t].Returned? && s.pool.stops[t].gen == g
  }

  /** What a Stop call may rely on wherever it is. */
  lemma InsideFacts(config: Config, s: Sys, t: nat, g: nat)
    requires Reachable(config, s) && Inside(s, t, g)
    ensures g < |s.pool.gens|
    ensures
      var gen, pc := s.pool.gens[g], s.pool.stops[t];
      && (!gen.once.Ran? ==> s.pool.current == Some(g) && s.pool.stopping)
      && (gen.once.Ran? ==> gen.done && gen.once.outcome.err.None?)
      && (gen.once.Busy? ==> WorkerPool.At(s.pool, gen.once.t, WorkerPool.Repairing(g)))
      && (pc.Finishing? ==> gen.once.Ran?)
  {
    ReachableIsGood(config, s);
    assert WorkerPool.StopOk(s.pool, t) && WorkerPool.GenOk(s.pool, g);
  }

  lemma SomeoneCancels(config: Config, s: Sys, g: nat)
    requires Reachable(config, s) && s.pool.current == Some(g) && s.pool.stopping
    ensures g < |s.pool.gens|
    ensures s.pool.gens[g].canceled || exists u :: WorkerPool.At(s.pool, u, WorkerPool.Canceling(g))
  {
    ReachableIsGood(config, s);
  }

  lemma CancelEffect(s: Sys, u: nat, t: nat, g: nat)
    requires WorkerPool.At(s.pool, u, WorkerPool.Canceling(g)) && Inside(s, t, g) && g < |s.pool.gens|
    requires s.pool.current == Some(g) && s.pool.stopping
    ensures CanPool(s, WorkerPool.StopCancel(u))
    ensures Ending(DoPool(s, WorkerPool.StopCancel(u)), g) && Inside(DoPool(s, WorkerPool.StopCancel(u)), t, g)
  {
  }

  /** Whoever has to cancel the generation can do so. */
  lemma CanBeCanceled(config: Config, s0: Sys, s: Sys, t: nat, g: nat) returns (s': Sys)
    requires Reachable(config, s) && Reaches(Step, s0, s) && Inside(s, t, g)
    requires s.pool.current == Some(g) && s.pool.stopping
    ensures Reachable(config, s') && Reaches(Step, s0, s') && Inside(s', t, g) && Ending(s', g)
  {
    s' := s;
    SomeoneCancels(config, s, g);
    if !s.pool.gens[g].canceled {
      var u :| WorkerPool.At(s.pool, u, WorkerPool.Canceling(g));
      CancelEffect(s, u, t, g);
      s' := PoolGo(config, s0, s, WorkerPool.StopCancel(u));
    }
  }

  lemma CanBeDone(config: Config, s: Sys, t: nat, g: nat) returns (s': Sys)
    requires Reachable(config, s) && Inside(s, t, g)
    ensures Reachable(config, s') && Reaches(Step, s, s') && Inside(s', t, g)
    ensures g < |s'.pool.gens| && s'.pool.gens[g].done
  {
    ReachesSelf(Step, s);
    InsideFacts(config, s, t, g);
    if s.pool.gens[g].once.Ran? {
      s' := s;
    } else {
      var s1 := CanBeCanceled(config, s, s, t, g);
      s' := GenerationEnds(config, s, s1, g);
    }
  }

  /** The two steps of t up to the once-guard. */
  lemma TowardsOnce(s: Sys, t: nat, g: nat)
    requires Inside(s, t, g) && g < |s.pool.gens| && s.pool.gens[g].done
    ensures s.pool.stops[t].Canceling? ==>
              && CanPool(s, WorkerPool.StopCancel(t))
              && var p' := DoPool(s, WorkerPool.StopCancel(t)).pool;
                 WorkerPool.At(p', t, WorkerPool.Waiting(g)) && g < |p'.gens| && p'.gens[g].done
    ensures s.pool.stops[t].Waiting? ==>
              && CanPool(s, WorkerPool.StopSeeDone(t))
              && WorkerPool.At(DoPool(s, WorkerPool.StopSeeDone(t)).pool, t, WorkerPool.AtOnce(g))
  {
  }

  /** Past the wait for `done`. */
  lemma ToTheOnce(config: Config, s0: Sys, s: Sys, t: nat, g: nat) returns (s': Sys)
    requires Reachable(config, s) && Reaches(Step, s0, s) && Inside(s, t, g)
    requires g < |s.pool.gens| && s.pool.gens[g].done
    ensures Reachable(config, s') && Reaches(Step, s0, s') && Inside(s', t, g)
    ensures !s'.pool.stops[t].Canceling? && !s'.pool.stops[t].Waiting?
  {
    s' := s;
    TowardsOnce(s', t, g);
    if s'.pool.stops[t].Canceling? {
      s' := PoolGo(config, s0, s', WorkerPool.StopCancel(t));
      TowardsOnce(s', t, g);
    }
    if s'.pool.stops[t].Waiting? {
      s' := PoolGo(config, s0, s', WorkerPool.StopSeeDone(t));
    }
  }

  function RepairBy(s: Sys, u: nat): WorkerPool.Act {
    WorkerPool.Repair(u, WorkerPool.Outcome(|JobStore.ActiveIds(s.store.jobs)|, None))
  }

  lemma OnceEnterEffect(s: Sys, t: nat, g: nat)
    requires WorkerPool.At(s.pool, t, WorkerPool.AtOnce(g)) && g < |s.pool.gens| && s.pool.gens[g].once.Fresh?
    ensures CanPool(s, WorkerPool.OnceEnter(t))
    ensures WorkerPool.At(DoPool(s, WorkerPool.OnceEnter(t)).pool, t, WorkerPool.Repairing(g))
  {
  }

  lemma RepairEffect(s: Sys, u: nat, g: nat)
    requires WorkerPool.At(s.pool, u, WorkerPool.Repairing(g)) && g < |s.pool.gens|
    ensures CanPool(s, RepairBy(s, u))
    ensures
      var p' := DoPool(s, RepairBy(s, u)).pool;
      && p'.stops == s.pool.stops[u := WorkerPool.Finishing(g)] && g < |p'.gens| && p'.gens[g].once.Ran?
  {
  }

  lemma OncePassEffect(s: Sys, t: nat, g: nat)
    requires WorkerPool.At(s.pool, t, WorkerPool.AtOnce(g)) && g < |s.pool.gens| && s.pool.gens[g].once.Ran?
    ensures CanPool(s, WorkerPool.OncePass(t))
    ensures WorkerPool.At(DoPool(s, WorkerPool.OncePass(t)).pool, t, WorkerPool.Finishing(g))
  {
  }

  /** At the once-guard: t enters it, or the call inside it completes. */
  lemma OnceMoves(config: Config, s0: Sys, s: Sys, t: nat, g: nat) returns (s': Sys)
    requires Reachable(config, s) && Reaches(Step, s0, s) && WorkerPool.At(s.pool, t, WorkerPool.AtOnce(g))
    ensures Reachable(config, s') && Reaches(Step, s0, s') && g < |s'.pool.gens|
    ensures || WorkerPool.At(s'.pool, t, WorkerPool.Repairing(g))
            || (WorkerPool.At(s'.pool, t, WorkerPool.AtOnce(g)) && s'.pool.gens[g].once.Ran?)
  {
    s' := s;
    InsideFacts(config, s, t, g);
    if s.pool.gens[g].once.Fresh? {
      OnceEnterEffect(s, t, g);
      s' := PoolGo(config, s0, s, WorkerPool.OnceEnter(t));
      InsideFacts(config, s', t, g);
    } else if s.pool.gens[g].once.Busy? {
      var u := s.pool.gens[g].once.t;
      RepairEffect(s, u, g);
      s' := PoolGo(config, s0, s, RepairBy(s, u));
    }
  }

  /** Past the once-guard: t repairs, or passes once another call has. */
  lemma PastTheOnce(config: Config, s0: Sys, s: Sys, t: nat, g: nat) returns (s': Sys)
    requires Reachable(config, s) && Reaches(Step, s0, s) && Inside(s, t, g)
    requires !s.pool.stops[t].Canceling? && !s.pool.stops[t].Waiting?
    ensures Reachable(config, s') && Reaches(Step, s0, s') && WorkerPool.At(s'.pool, t, WorkerPool.Finishing(g))
  {
    s' := s;
    InsideFacts(config, s, t, g);
    if s'.pool.stops[t].AtOnce? {
      s' := OnceMoves(config, s0, s', t, g);
    }
    if s'.pool.stops[t].Repairing? {
      RepairEffect(s', t, g);
      s' := PoolGo(config, s0, s', RepairBy(s', t));
    } else if s'.pool.stops[t].AtOnce? {
      OncePassEffect(s', t, g);
      s' := PoolGo(config, s0, s', WorkerPool.OncePass(t));
    }
  }

  lemma FinishEffect(s: Sys, t: nat, g: nat)
    requires WorkerPool.At(s.pool, t, WorkerPool.Finishing(g)) && g < |s.pool.gens|
    requires s.pool.gens[g].once.Ran? && s.pool.gens[g].once.outcome.err.None?
    ensures CanPool(s, WorkerPool.StopFinish(t))
    ensures Shutdown.ReturnedNil(DoPool(s, WorkerPool.StopFinish(t)).pool, t)
  {
  }

  /** From every reachable state a Stop call that is inside can return nil. */
  lemma StopCanReturnNil(config: Config, s: Sys, t: nat, g: nat) returns (s': Sys)
    requires Reachable(config, s) && Inside(s, t, g)
    ensures Reaches(Step, s, s') && Shutdown.ReturnedNil(s'.pool, t)
  {
    var s1 := CanBeDone(config, s, t, g);
    var s2 := ToTheOnce(config, s, s1, t, g);
    var s3 := PastTheOnce(config, s, s2, t, g);
    InsideFacts(config, s3, t, g);
    FinishEffect(s3, t, g);
    s' := PoolGo(config, s, s3, WorkerPool.StopFinish(t));
  }

  lemma LastIsFine(config: Config, s: Sys)
    requires Reachable(config, s) && s.pool.last.Some?
    ensures s.pool.last.value.err.None?
  {
    ReachableIsGood(config, s);
    var n := |s.pool.gens| - 1;
    assert s.pool.gens[n].once == WorkerPool.Ran(s.pool.last.value);
  }

  lemma EnterEffect(s: Sys, t: nat)
    requires t !in s.pool.stops && (s.pool.last.Some? ==> s.pool.last.value.err.None?)
    ensures
      var s' := Shutdown.Entered(s, t);
      if s.pool.current.Some? then Inside(s', t, s.pool.current.value) else Shutdown.ReturnedNil(s'.pool, t)
  {
  }

  /** Whatever has happened, a new Stop call can always go through and return nil.
      So the guarantee of shutdown is never an empty one. */
  lemma StopIsNeverStuck(config: Config, s: Sys, t: nat) returns (s': Sys)
    requires Reachable(config, s) && t !in s.pool.stops
    ensures Reaches(Step, Shutdown.Entered(s, t), s') && Shutdown.ReturnedNil(s'.pool, t)
  {
    var s1 := Shutdown.Entered(s, t);
    Stepped(NewSys(config), s, PoolAct(WorkerPool.StopEnter(t)));
    if s.pool.last.Some? {
      LastIsFine(config, s);
    }
    EnterEffect(s, t);
    if s.pool.current.Some? {
      s' := StopCanReturnNil(config, s1, t, s.pool.current.value);
    } else {
      s' := s1;
      ReachesSelf(Step, s1);
    }
  }
}
