/** Nothing gets stuck: from any state of the whole system a worker with work, a
    handler at the queue and a Stop call can each go on to their ends, and the
    system can take a job all the way to success. */
module Progress {
  import opened Runs
  import opened Jobs
  import opened AsyncRuntime
  import opened AsyncObjects
  import AtMostOnce
  import JobStore
  import Queue
  import Users
  import WorkerPool

  lemma Stepped(s0: Sys, s: Sys, a: Act)
    requires Reaches(Step, s0, s) && Can(s, a)
    ensures Reaches(Step, s0, Do(s, a))
  {
    ReachesMore(Step, s0, s, Do(s, a));
  }

  // ------------------------------------------------------------------ a worker

  /** Worker w is in the pool, so nothing keeps it from taking its turns. */
  predicate InPool(s: Sys, w: nat) {
    w in s.tasks && w in s.pool.workers && s.pool.workers[w].gen < |s.pool.gens|
  }

  function Canceled(s: Sys, w: nat): bool
    requires InPool(s, w)
  {
    s.pool.gens[s.pool.workers[w].gen].canceled
  }

  function SharedOf(s: Sys): Shared {
    Shared(s.store, s.users, s.past.offered)
  }

  /** Only this worker has moved. */
  ghost predicate OnlyWorker(s: Sys, s': Sys, w: nat) {
    && InPool(s, w) && w in s'.tasks && s'.tasks == s.tasks[w := s'.tasks[w]]
    && s'.pool == s.pool && s'.queue == s.queue && s'.handlers == s.handlers
    && s'.httpOpen == s.httpOpen && s'.hubClosed == s.hubClosed
  }

  lemma AdvanceIsOnlyWorker(s: Sys, w: nat)
    requires InPool(s, w) && HasItem(s.tasks[w])
    ensures CanAdvance(s, w) && OnlyWorker(s, DoAdvance(s, w), w)
  {
  }

  lemma {:induction false} WorkerTurns(s0: Sys, s: Sys, w: nat, n: nat) returns (s': Sys)
    requires Reaches(Step, s0, s) && InPool(s, w)
    ensures Reaches(Step, s0, s') && OnlyWorker(s, s', w)
    ensures ViewOf(s', w) == Turns(ViewOf(s, w), Canceled(s, w), n)
    decreases n
  {
    if n == 0 || !HasItem(s.tasks[w]) {
      s' := s;
      assert s.tasks == s.tasks[w := s.tasks[w]];
    } else {
      AdvanceIsOnlyWorker(s, w);
      AdvanceIsTurn(s, w);
      Stepped(s0, s, Advance(w));
      s' := WorkerTurns(s0, DoAdvance(s, w), w, n - 1);
    }
  }

  lemma TakeEffect(s: Sys, w: nat)
    requires InPool(s, w) && s.tasks[w].Idle? && s.queue.buf != []
    ensures CanTake(s, w)
    ensures
      var s', item := DoTake(s, w), s.queue.buf[0];
      && InPool(s', w) && Canceled(s', w) == Canceled(s, w) && ViewOf(s', w) == AsyncObjects.At(Got(item), SharedOf(s))
      && s'.tasks == s.tasks[w := Got(item)] && s'.queue.buf == s.queue.buf[1..]
      && s'.pool == s.pool && s'.handlers == s.handlers
  {
  }

  /** Wherever an idle worker finds an item in the channel, it can take it and
      handle it to the end, with exactly the effect of handling it alone. */
  lemma WorkerFinishes(s: Sys, w: nat) returns (s': Sys)
    requires InPool(s, w) && s.tasks[w].Idle? && s.queue.buf != []
    ensures Reaches(Step, s, s')
    ensures
      var item, canceled := s.queue.buf[0], Canceled(s, w);
      && SharedOf(s') == ProcessItem(SharedOf(s), item, canceled)
      && w in s'.tasks && s'.tasks == s.tasks[w := Home(canceled)]
      && s'.queue.buf == s.queue.buf[1..] && s'.pool == s.pool && s'.handlers == s.handlers
  {
    TakeEffect(s, w);
    ReachesSelf(Step, s);
    Stepped(s, s, Take(w));
    var s1 := DoTake(s, w);
    s' := WorkerTurns(s, s1, w, 9);
    ProcessTurns(SharedOf(s), s.queue.buf[0], Canceled(s, w));
    HomeAgain(s, s1, s', w, s.queue.buf[0], Canceled(s, w));
  }

  lemma HomeAgain(s: Sys, s1: Sys, s': Sys, w: nat, item: Queue.Item, canceled: bool)
    requires w in s.tasks && s1.tasks == s.tasks[w := Got(item)]
    requires w in s'.tasks && s'.tasks == s1.tasks[w := s'.tasks[w]]
    requires ViewOf(s', w) == AsyncObjects.At(Home(canceled), ProcessItem(SharedOf(s), item, canceled))
    ensures SharedOf(s') == ProcessItem(SharedOf(s), item, canceled) && s'.tasks == s.tasks[w := Home(canceled)]
  {
  }

  // ----------------------------------------------------------------- a handler

  /** Only this handler has moved. */
  ghost predicate OnlyHandler(s: Sys, s': Sys, t: nat) {
    && s'.handlers - {t} == s.handlers - {t}
    && s'.pool == s.pool && s'.tasks == s.tasks && s'.users == s.users
    && s'.httpOpen == s.httpOpen && s'.hubClosed == s.hubClosed
  }

  lemma MoveIsHandle(s: Sys, t: nat, ok: bool)
    requires CanMove(DeskOf(s, t), t, ok)
    ensures CanHandle(s, t, ok) && OnlyHandler(s, DoHandle(s, t, ok), t)
    ensures DeskOf(DoHandle(s, t, ok), t) == Moved(DeskOf(s, t), t, ok)
  {
    HandleIsMove(s, t, ok);
  }

  lemma {:induction false} HandlerMoves(s0: Sys, s: Sys, t: nat, oks: seq<bool>) returns (s': Sys)
    requires Reaches(Step, s0, s) && Moves(DeskOf(s, t), t, oks).Some?
    ensures Reaches(Step, s0, s') && OnlyHandler(s, s', t) && Some(DeskOf(s', t)) == Moves(DeskOf(s, t), t, oks)
    decreases |oks|
  {
    if oks == [] {
      s' := s;
    } else {
      MoveIsHandle(s, t, oks[0]);
      Stepped(s0, s, Handle(t, oks[0]));
      s' := HandlerMoves(s0, DoHandle(s, t, oks[0]), t, oks[1..]);
    }
  }

  /** What Enqueue answers in a given state, with the request canceled before the
      lock, or inside it, or not at all. */
  function Answer(q: Queue.Q, early: bool, late: bool): Queue.EnqueueResult {
    if early then Queue.Canceled
    else if q.stopped then Queue.ErrQueueStopped
    else if late then Queue.Canceled
    else if |q.buf| < q.capacity then Queue.Enqueued
    else Queue.ErrQueueFull
  }

  lemma HandlerEnds(s: Sys, t: nat, payload: Queue.Input, owner: int, early: bool, late: bool) returns (s': Sys)
    requires CanAccept(s, t) && s.queue.readers == map[] && s.queue.writer.None?
    ensures Reaches(Step, s, s') && OnlyHandler(s, s', t)
    ensures DeskOf(s', t) == Closed(Opened(DeskOf(s, t), payload, owner), Answer(s.queue, early, late))
  {
    var r := Answer(s.queue, early, late);
    var s1 := DoAccept(s, t, payload, owner);
    ReachesSelf(Step, s);
    Stepped(s, s, Accept(t, payload, owner));
    AcceptIsOpened(s, t, payload, owner);
    CreateMoves(DeskOf(s1, t), t, r, early);
    s' := HandlerMoves(s, s1, t, [true] + Answers(r, early));
    AcceptIsOnlyHandler(s, s1, s', t, payload, owner);
  }

  lemma AcceptIsOnlyHandler(s: Sys, s1: Sys, s': Sys, t: nat, payload: Queue.Input, owner: int)
    requires CanAccept(s, t) && s1 == DoAccept(s, t, payload, owner) && OnlyHandler(s1, s', t)
    ensures OnlyHandler(s, s', t)
  {
    assert s1.handlers - {t} == s.handlers - {t};
  }

  /** Wherever a request can come in and nobody is inside the queue's lock, Create
      can run to its end: the job is stored and its item queued if the queue is
      open with room and the request not canceled, and otherwise nothing is left
      of it but the used-up identifier. */
  lemma HandlerFinishes(s: Sys, t: nat, payload: Queue.Input, owner: int, early: bool, late: bool) returns (s': Sys)
    requires CanAccept(s, t) && s.queue.readers == map[] && s.queue.writer.None? && JobStore.StoreOk(s.store)
    ensures Reaches(Step, s, s') && t !in s'.handlers && OnlyHandler(s, s', t)
    ensures
      var j := s.store.nextID;
      && s'.store.nextID == j + 1
      && if !early && !s.queue.stopped && !late && |s.queue.buf| < s.queue.capacity then
           && s'.store.jobs == s.store.jobs[j := Job(j, Queued, None, None, owner)]
           && s'.queue.buf == s.queue.buf + [Queue.Item(j, payload)]
         else s'.store.jobs == s.store.jobs && s'.queue == s.queue
  {
    s' := HandlerEnds(s, t, payload, owner, early, late);
    EndsInFull(DeskOf(s, t), payload, owner, Answer(s.queue, early, late));
  }

  lemma EndsInFull(d: Desk, payload: Queue.Input, owner: int, r: Queue.EnqueueResult)
    requires JobStore.StoreOk(d.store)
    ensures
      var d', j := Closed(Opened(d, payload, owner), r), d.store.nextID;
      && d'.handler.None? && d'.store.nextID == j + 1
      && Events(d'.events, j) == [Queued]
      && if r == Queue.Enqueued then
           && d'.store.jobs == d.store.jobs[j := Job(j, Queued, None, None, owner)]
           && d'.queue.buf == d.queue.buf + [Queue.Item(j, payload)]
         else d'.store.jobs == d.store.jobs && d'.queue == d.queue
  {
    var j := d.store.nextID;
    assert j !in d.store.jobs;
    assert d.store.jobs[j := Job(j, Queued, None, None, owner)] - {j} == d.store.jobs;
  }

  // ------------------------------------------------------------- a whole job

  /** A fresh system can start a worker, take a request and carry its job to
      success: the user is stored with the payload and the job carries it. */
  lemma AJobCanSucceed(config: Config, payload: Queue.Input, owner: int) returns (s: Sys)
    requires config.capacity > 0
    ensures Reaches(Step, NewSys(config), s)
    ensures 1 in s.store.jobs && s.store.jobs[1] == Job(1, Succeeded, Some(1), None, owner)
    ensures 1 in s.users.users && s.users.users[1] == Users.User(1, payload.name, payload.age, payload.email, 1)
    ensures Events(s.past.offered, 1) == [Queued, Running, Succeeded]
  {
    var s1 := AJobCanBeQueued(config, payload, owner);
    s := QueuedJobCanSucceed(s1, payload, owner);
    ReachesTransitive(Step, NewSys(config), s1, s);
  }

  lemma AJobCanBeQueued(config: Config, payload: Queue.Input, owner: int) returns (s: Sys)
    requires config.capacity > 0
    ensures Reaches(Step, NewSys(config), s)
    ensures InPool(s, 0) && s.tasks[0].Idle? && !Canceled(s, 0) && s.queue.buf == [Queue.Item(1, payload)]
    ensures s.store.jobs == map[1 := Job(1, Queued, None, None, owner)]
    ensures s.users == Users.NoUsers(config.fold) && Events(s.past.offered, 1) == [Queued]
  {
    var s0 := NewSys(config);
    var s1 := DoPool(s0, WorkerPool.Start(1));
    ReachesSelf(Step, s0);
    OneWorkerStarts(s0);
    Stepped(s0, s0, PoolAct(WorkerPool.Start(1)));
    s := HandlerEnds(s1, 0, payload, owner, false, false);
    ReachesTransitive(Step, s0, s1, s);
    FirstJobQueued(config, s0, s1, s, payload, owner);
  }

  lemma FirstJobQueued(config: Config, s0: Sys, s1: Sys, s: Sys, payload: Queue.Input, owner: int)
    requires s0 == NewSys(config) && s1 == s0.(pool := s1.pool, tasks := s1.tasks) && OnlyHandler(s1, s, 0)
    requires DeskOf(s, 0) == Closed(Opened(DeskOf(s1, 0), payload, owner), Queue.Enqueued)
    ensures s.queue.buf == [Queue.Item(1, payload)] && s.store.jobs == map[1 := Job(1, Queued, None, None, owner)]
    ensures s.users == Users.NoUsers(config.fold) && Events(s.past.offered, 1) == [Queued]
    ensures s.pool == s1.pool && s.tasks == s1.tasks
  {
    EndsInFull(DeskOf(s1, 0), payload, owner, Queue.Enqueued);
  }

  lemma QueuedJobCanSucceed(s: Sys, payload: Queue.Input, owner: int) returns (s': Sys)
    requires InPool(s, 0) && s.tasks[0].Idle? && !Canceled(s, 0) && s.queue.buf == [Queue.Item(1, payload)]
    requires s.store.jobs == map[1 := Job(1, Queued, None, None, owner)]
    requires s.users.users == map[] && s.users.nextID == 1 && Events(s.past.offered, 1) == [Queued]
    ensures Reaches(Step, s, s')
    ensures 1 in s'.store.jobs && s'.store.jobs[1] == Job(1, Succeeded, Some(1), None, owner)
    ensures 1 in s'.users.users && s'.users.users[1] == Users.User(1, payload.name, payload.age, payload.email, 1)
    ensures Events(s'.past.offered, 1) == [Queued, Running, Succeeded]
  {
    s' := WorkerFinishes(s, 0);
    HandledAlone(SharedOf(s), Queue.Item(1, payload), owner);
  }

  lemma HandledAlone(sh: Shared, item: Queue.Item, owner: int)
    requires item.job == 1 && sh.store.jobs == map[1 := Job(1, Queued, None, None, owner)]
    requires sh.users.users == map[] && sh.users.nextID == 1 && Events(sh.events, 1) == [Queued]
    ensures
      var sh' := ProcessItem(sh, item, false);
      && 1 in sh'.store.jobs && sh'.store.jobs[1] == Job(1, Succeeded, Some(1), None, owner)
      && 1 in sh'.users.users
      && sh'.users.users[1] == Users.User(1, item.payload.name, item.payload.age, item.payload.email, 1)
      && Events(sh'.events, 1) == [Queued, Running, Succeeded]
  {
    ItemOutcome(sh, item, false);
    AtMostOnce.OnlyFrom(Queued);
    AtMostOnce.OnlyFrom(Running);
    assert Log(ProcessItem(sh, item, false), 1) == [Queued] + [Running] + [Succeeded];
  }

  lemma OneWorkerStarts(s: Sys)
    requires s.pool == WorkerPool.NEW_POOL && s.tasks == map[]
    ensures CanPool(s, WorkerPool.Start(1))
    ensures
      var s' := DoPool(s, WorkerPool.Start(1));
      InPool(s', 0) && s'.tasks[0].Idle? && !Canceled(s', 0) && s' == s.(pool := s'.pool, tasks := s'.tasks)
  {
    assert 0 in WorkerPool.Ids(0, 1);
  }
}
