/** The records the theorems about the runtime speak of say what happened: every
    identifier without a job was deleted, a repair pass fails exactly the active
    jobs and counts them, and a synchronous creation takes its address. */
module History {
  import opened Runs
  import opened Jobs
  import opened AsyncRuntime
  import AtMostOnce
  import JobStore
  import Users
  import WorkerPool

  /** Every identifier ever issued belongs to a stored job or to a deleted one. */
  predicate MissingAreDeleted(s: Sys) {
    && s.store.nextID >= 1
    && forall j :: 1 <= j < s.store.nextID && j !in s.store.jobs ==> j in s.past.deleted
  }

  lemma HandleKeeps(s: Sys, t: nat, ok: bool)
    requires MissingAreDeleted(s) && CanHandle(s, t, ok)
    ensures MissingAreDeleted(DoHandle(s, t, ok))
  {
  }

  lemma AdvanceKeeps(s: Sys, w: nat)
    requires MissingAreDeleted(s) && CanAdvance(s, w)
    ensures MissingAreDeleted(DoAdvance(s, w))
  {
    assert DoAdvance(s, w).store.jobs.Keys == s.store.jobs.Keys;
  }

  lemma PoolKeeps(s: Sys, a: WorkerPool.Act)
    requires MissingAreDeleted(s) && CanPool(s, a)
    ensures MissingAreDeleted(DoPool(s, a))
  {
    assert DoPool(s, a).store.jobs.Keys == s.store.jobs.Keys;
  }

  lemma Keeps(s: Sys, a: Act)
    requires MissingAreDeleted(s) && Can(s, a)
    ensures MissingAreDeleted(Do(s, a))
  {
    match a
    case Handle(t, ok) => HandleKeeps(s, t, ok);
    case Advance(w) => AdvanceKeeps(s, w);
    case PoolAct(pact) => PoolKeeps(s, pact);
    case _ =>
  }

  lemma KeepsInductive()
    ensures Inductive(FaultyStep, MissingAreDeleted)
  {
    forall s, s' | MissingAreDeleted(s) && FaultyStep(s, s') ensures MissingAreDeleted(s') {
      if Step(s, s') {
        var a :| Can(s, a) && s' == Do(s, a);
        Keeps(s, a);
      }
    }
  }

  /** Over every run, redelivery included: an identifier is stored or deleted, and
      never both. */
  lemma StoredOrDeleted(run: seq<Sys>, config: Config, i: nat, j: int)
    requires IsRun(FaultyStep, run) && run[0] == NewSys(config) && i < |run| && 1 <= j < run[i].store.nextID
    ensures j in run[i].store.jobs <==> j !in run[i].past.deleted
  {
    KeepsInductive();
    HoldsFrom(FaultyStep, MissingAreDeleted, run, 0, i);
    AtMostOnce.SafeInductive();
    assert AtMostOnce.Safe(NewSys(config));
    HoldsFrom(FaultyStep, AtMostOnce.Safe, run, 0, i);
  }

  function Unfinished(jobs: map<int, Job>): set<int> {
    set j | j in jobs && (jobs[j].status == Queued || jobs[j].status == Running)
  }

  lemma UnfinishedExact(jobs: map<int, Job>)
    ensures Unfinished(jobs) == JobStore.ActiveIds(jobs)
  {
    forall j: int ensures j in Unfinished(jobs) <==> j in JobStore.ActiveIds(jobs) {
      if j in jobs {
        assert JobStore.Active(jobs[j]) <==> jobs[j].status == Queued || jobs[j].status == Running;
      }
    }
  }

  /** The faulty channel is as faulty as can be: any item ever accepted may turn up
      again at any time. */
  lemma AnythingMayComeAgain(s: Sys, k: nat)
    requires k < |s.queue.accepted|
    ensures
      var s' := Redelivered(s, s.queue.accepted[k]);
      && FaultyStep(s, s') && s'.queue.buf == s.queue.buf + [s.queue.accepted[k]]
      && s'.past == s.past && s'.tasks == s.tasks
  {
    var item := s.queue.accepted[k];
    assert item in s.queue.accepted && Redelivered(s, item) == Redelivered(s, item);
  }

  /** A repair pass fails exactly the queued and running jobs with the shutdown
      problem, records them, and reports how many they were. */
  lemma RepairFailsTheActive(s: Sys, t: nat, outcome: WorkerPool.Outcome)
    requires CanPool(s, WorkerPool.Repair(t, outcome))
    ensures
      var s' := DoPool(s, WorkerPool.Repair(t, outcome));
      var hit := Unfinished(s.store.jobs);
      && outcome == WorkerPool.Outcome(|hit|, None) && s'.past.repaired == s.past.repaired + hit
      && s'.store.jobs.Keys == s.store.jobs.Keys && s'.store.nextID == s.store.nextID
      && forall j :: j in s.store.jobs ==>
           if j in hit then
             && s'.store.jobs[j].status == Failed && s'.store.jobs[j].error == Some(SHUTDOWN_PROBLEM)
             && s'.store.jobs[j].result.None? && s'.store.jobs[j].owner == s.store.jobs[j].owner
           else s'.store.jobs[j] == s.store.jobs[j]
  {
    UnfinishedExact(s.store.jobs);
  }

  /** After a synchronous creation the address is taken, by the new user or by the
      one who had it. */
  lemma SyncCreateTakesTheAddress(s: Sys, user: Users.User)
    requires Can(s, SyncCreate(user)) && Users.UsersOk(s.users)
    ensures
      var s' := Do(s, SyncCreate(user));
      && Users.EmailTaken(s'.users, user.email) && s' == s.(users := s'.users)
      && (!Users.EmailTaken(s.users, user.email) ==>
            s.users.nextID in s'.users.users && s'.users.users[s.users.nextID].email == user.email)
  {
    var s' := Do(s, SyncCreate(user));
    if !Users.EmailTaken(s.users, user.email) {
      assert s.users.nextID in s'.users.users;
      assert Users.EqualFold(s'.users.fold, s'.users.users[s.users.nextID].email, user.email);
    }
  }
}
