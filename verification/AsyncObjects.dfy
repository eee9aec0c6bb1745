/** The two sides of the runtime as programs over the repository, service and
    queue objects: a worker handling one item, and the async branch of Create.
    The worker's program is the system's Advance steps run one after another. */
module AsyncObjects {
  import opened Runs
  import opened Jobs
  import opened AsyncRuntime
  import JobStore
  import Queue
  import Users
  import AtMostOnce

  // ------------------------------------------------ one worker's small steps

  /** What one worker reads and writes: its place in the loop body, the two
      repositories and the events offered to the hub. */
  datatype View = View(task: Task, store: JobStore.Store, users: Users.UserStore, events: map<int, seq<Status>>)

  function ViewOf(s: Sys, w: nat): View
    requires w in s.tasks
  {
    View(s.tasks[w], s.store, s.users, s.past.offered)
  }

  function Offer(events: map<int, seq<Status>>, j: int, event: Status): map<int, seq<Status>> {
    events[j := Events(events, j) + [event]]
  }

  function Turned(v: View, canceled: bool): View
    requires HasItem(v.task)
  {
    var j := v.task.item.job;
    var turn := TurnOf(v.task, if j in v.store.jobs then Some(v.store.jobs[j]) else None, v.users, canceled);
    View(turn.next,
         if turn.change.Some? then JobStore.Move(v.store, j, turn.change.value).0 else v.store,
         if turn.saves then Users.SaveUser(v.users, Draft(v.task.item)).0 else v.users,
         if turn.event.Some? then Offer(v.events, j, turn.event.value) else v.events)
  }

  /** A step of the system's worker is a turn of its view. */
  lemma AdvanceIsTurn(s: Sys, w: nat)
    requires CanAdvance(s, w)
    ensures ViewOf(DoAdvance(s, w), w) == Turned(ViewOf(s, w), s.pool.gens[s.pool.workers[w].gen].canceled)
  {
  }

  function Turns(v: View, canceled: bool, n: nat): View
    decreases n
  {
    if n == 0 || !HasItem(v.task) then v else Turns(Turned(v, canceled), canceled, n - 1)
  }

  // --------------------------------------------------- the whole turn at once

  datatype Shared = Shared(store: JobStore.Store, users: Users.UserStore, events: map<int, seq<Status>>)

  function At(task: Task, sh: Shared): View {
    View(task, sh.store, sh.users, sh.events)
  }

  /** `markJobFailed` alone with the repository. */
  function FailJob(sh: Shared, j: int, problem: Problem): Shared {
    var (store, reply) := JobStore.Move(sh.store, j, JobStore.ToFailed(problem));
    if reply == JobStore.Done then sh.(store := store, events := Offer(sh.events, j, Failed)) else sh
  }

  /** What comes after SetRunning has succeeded. */
  function RunJob(sh: Shared, item: Queue.Item): Shared {
    var (users, reply) := Users.CreateUser(sh.users, item.payload.name, item.payload.age, item.payload.email, []);
    if !reply.SavedAs? then FailJob(sh.(users := users), item.job, CONFLICT_PROBLEM)
    else
      var (store, done) := JobStore.Move(sh.store, item.job, JobStore.ToSucceeded(reply.id));
      if done == JobStore.Done then Shared(store, users, Offer(sh.events, item.job, Succeeded))
      else sh.(users := users)
  }

  function ProcessItem(sh: Shared, item: Queue.Item, canceled: bool): Shared {
    if canceled then FailJob(sh, item.job, SHUTDOWN_PROBLEM)
    else
      var (store, reply) := JobStore.Move(sh.store, item.job, JobStore.ToRunning);
      if reply == JobStore.Done then RunJob(sh.(store := store, events := Offer(sh.events, item.job, Running)), item)
      else sh
  }

  // --------------------------------- the whole turn is the small steps, in order

  lemma {:induction false} TurnsAdd(v: View, canceled: bool, m: nat, n: nat)
    ensures Turns(v, canceled, m + n) == Turns(Turns(v, canceled, m), canceled, n)
    decreases m
  {
    if m > 0 && HasItem(v.task) {
      TurnsAdd(Turned(v, canceled), canceled, m - 1, n);
    }
  }

  lemma FailTurns(sh: Shared, item: Queue.Item, problem: Problem, early: bool, canceled: bool)
    ensures Turns(At(Failing(item, problem, early), sh), canceled, 3) == At(Home(early), FailJob(sh, item.job, problem))
  {
    var v := At(Failing(item, problem, early), sh);
    var v1 := Turned(v, canceled);
    if v1.task.Refusing? {
      var v2 := Turned(v1, canceled);
      assert v2.task == Mourning(item, early);
      assert Turned(v2, canceled) == At(Home(early), FailJob(sh, item.job, problem));
      assert Turns(v2, canceled, 1) == Turned(v2, canceled);
      assert Turns(v1, canceled, 2) == Turns(v2, canceled, 1);
    } else {
      assert Turns(v1, canceled, 2) == v1;
    }
  }

  lemma SucceedTurns(sh: Shared, item: Queue.Item, user: int, canceled: bool)
    ensures
      var (store, done) := JobStore.Move(sh.store, item.job, JobStore.ToSucceeded(user));
      Turns(At(Created(item, user), sh), canceled, 3) ==
        At(Idle,
           if done == JobStore.Done then sh.(store := store, events := Offer(sh.events, item.job, Succeeded)) else sh)
  {
    var v := At(Created(item, user), sh);
    var v1 := Turned(v, canceled);
    if v1.task.Succeeding? {
      var v2 := Turned(v1, canceled);
      assert v2.task == Announcing(item, user);
      assert Turns(v2, canceled, 1) == Turned(v2, canceled);
      assert Turns(v1, canceled, 2) == Turns(v2, canceled, 1);
    } else {
      assert Turns(v1, canceled, 2) == v1;
    }
  }

  lemma Stays(v: View, canceled: bool, n: nat)
    requires !HasItem(v.task)
    ensures Turns(v, canceled, n) == v
  {
  }

  lemma RunTurns(sh: Shared, item: Queue.Item, canceled: bool)
    ensures Turns(At(Calling(item), sh), canceled, 5) == At(Idle, RunJob(sh, item))
  {
    var v := At(Calling(item), sh);
    var v1 := Turned(v, canceled);
    assert Users.SaveAll(sh.users, []) == sh.users;
    if v1.task.Failing? {
      FailTurns(sh, item, CONFLICT_PROBLEM, false, canceled);
      TurnsAdd(v1, canceled, 3, 1);
      Stays(Turns(v1, canceled, 3), canceled, 1);
    } else {
      var v2 := Turned(v1, canceled);
      var sh2 := Shared(v2.store, v2.users, v2.events);
      assert Turns(v1, canceled, 4) == Turns(v2, canceled, 3);
      if v2.task.Created? {
        SucceedTurns(sh2, item, v2.task.user, canceled);
      } else {
        FailTurns(sh2, item, CONFLICT_PROBLEM, false, canceled);
      }
    }
  }

  /** Handling one item alone is nine turns at most of the system's worker, from
      receiving the item back to the select or out of the loop. */
  lemma ProcessTurns(sh: Shared, item: Queue.Item, canceled: bool)
    ensures Turns(At(Got(item), sh), canceled, 9) == At(Home(canceled), ProcessItem(sh, item, canceled))
  {
    var v := At(Got(item), sh);
    var v1 := Turned(v, canceled);
    assert Turns(v, canceled, 9) == Turns(v1, canceled, 8);
    if canceled {
      FailTurns(sh, item, SHUTDOWN_PROBLEM, true, canceled);
      TurnsAdd(v1, canceled, 3, 5);
      Stays(Turns(v1, canceled, 3), canceled, 5);
    } else {
      StartTurns(sh, item);
    }
  }

  lemma StartTurns(sh: Shared, item: Queue.Item)
    ensures Turns(At(Ready(item), sh), false, 8) == At(Idle, ProcessItem(sh, item, false))
  {
    var v1 := At(Ready(item), sh);
    var v2 := Turned(v1, false);
    assert Turns(v1, false, 8) == Turns(v2, false, 7);
    if v2.task.Starting? {
      var v3 := Turned(v2, false);
      var v4 := Turned(v3, false);
      assert v4.task == Calling(item);
      assert Turns(v2, false, 7) == Turns(v3, false, 6) == Turns(v4, false, 5);
      RunTurns(Shared(v4.store, v4.users, v4.events), item, false);
    } else {
      Stays(v2, false, 7);
    }
  }

  // ------------------------------------------------------------ what it means

  function Log(sh: Shared, j: int): seq<Status> {
    Events(sh.events, j)
  }

  /** One item handled alone. A live worker takes a queued job to success with a
      user made from the payload, or to failure if the address is taken; the
      users grow in the first case only. A canceled worker fails an active job.
      Any other job is left as it is, and no other job is ever touched. */
  lemma ItemOutcome(sh: Shared, item: Queue.Item, canceled: bool)
    ensures
      var j, after := item.job, ProcessItem(sh, item, canceled);
      var jobs, jobs' := sh.store.jobs, after.store.jobs;
      && jobs'.Keys == jobs.Keys && after.store.nextID == sh.store.nextID
      && (forall k :: k in jobs && k != j ==> jobs'[k] == jobs[k])
      && (forall k :: k != j ==> Log(after, k) == Log(sh, k))
      && (if j !in jobs || IsTerminal(jobs[j].status) || (!canceled && jobs[j].status == Running) then after == sh
          else if canceled then
            && jobs'[j] == JobStore.Changed(jobs[j], JobStore.ToFailed(SHUTDOWN_PROBLEM))
            && after.users == sh.users && Log(after, j) == Log(sh, j) + [Failed]
          else if Users.EmailTaken(sh.users, item.payload.email) then
            && jobs'[j].status == Failed && jobs'[j].error == Some(CONFLICT_PROBLEM) && jobs'[j].result.None?
            && after.users == sh.users && Log(after, j) == Log(sh, j) + [Running] + [Failed]
          else
            var user := sh.users.nextID;
            var stored := Users.User(user, item.payload.name, item.payload.age, item.payload.email, 1);
            && jobs'[j].status == Succeeded && jobs'[j].result == Some(user) && jobs'[j].error.None?
            && after.users == sh.users.(users := sh.users.users[user := stored], nextID := user + 1)
            && Log(after, j) == Log(sh, j) + [Running] + [Succeeded])
  {
    if item.job in sh.store.jobs {
      AtMostOnce.OnlyFrom(sh.store.jobs[item.job].status);
      AtMostOnce.OnlyFrom(Running);
    }
    assert Users.SaveAll(sh.users, []) == sh.users;
  }

  // --------------------------------------------------------------- the worker

  /** One look at the select: the context's branch, or the channel's with the
      context as the worker then finds it. */
  datatype Look = ContextDone | Channel(canceled: bool)

  /** The loop over a channel that nobody else uses meanwhile: an empty channel
      gives the select nothing, a canceled item is the last. */
  function Work(sh: Shared, buf: seq<Queue.Item>, looks: seq<Look>): (Shared, seq<Queue.Item>)
    decreases |looks|
  {
    if looks == [] || looks[0].ContextDone? then (sh, buf)
    else if buf == [] then Work(sh, buf, looks[1..])
    else
      var after := ProcessItem(sh, buf[0], looks[0].canceled);
      if looks[0].canceled then (after, buf[1..]) else Work(after, buf[1..], looks[1..])
  }

  // ----- what the loop does

  predicate AllLive(looks: seq<Look>) {
    forall i :: 0 <= i < |looks| ==> looks[i] == Channel(false)
  }

  /** Some of the items taken was for job j. */
  predicate Named(items: seq<Queue.Item>, j: int) {
    exists i :: 0 <= i < |items| && items[i].job == j
  }

  /** From one state to a later one, job j is as it was, or has been carried from
      queued to its end: succeeded with a stored user, or failed by a conflict,
      with the events to match. */
  predicate Carried(sh: Shared, sh': Shared, j: int)
    requires j in sh.store.jobs && j in sh'.store.jobs
  {
    var job, job' := sh.store.jobs[j], sh'.store.jobs[j];
    if job.status != Queued then job' == job && Log(sh', j) == Log(sh, j)
    else
      && (job'.status == Succeeded || job'.status == Failed)
      && Log(sh', j) == Log(sh, j) + [Running] + [job'.status]
      && (job'.status == Succeeded ==> job'.result.Some? && job'.result.value in sh'.users.users)
      && (job'.status == Failed ==> job'.error == Some(CONFLICT_PROBLEM))
  }

  predicate UsersStay(sh: Shared, sh': Shared) {
    && sh.users.users.Keys <= sh'.users.users.Keys
    && forall id :: id in sh.users.users ==> sh'.users.users[id] == sh.users.users[id]
  }

  /** A live worker that takes items handles every one of them: the channel loses
      exactly those items, a queued job among theirs is carried to its end, no
      other job is touched, and no user is lost. */
  lemma {:induction false} WorkHandlesAll(sh: Shared, buf: seq<Queue.Item>, looks: seq<Look>)
    requires AllLive(looks) && |looks| <= |buf| && Users.UsersOk(sh.users)
    ensures
      var (sh', rest) := Work(sh, buf, looks);
      && rest == buf[|looks|..] && sh'.store.jobs.Keys == sh.store.jobs.Keys && sh'.store.nextID == sh.store.nextID
      && Users.UsersOk(sh'.users) && UsersStay(sh, sh')
      && forall j :: j in sh.store.jobs ==>
           if Named(buf[..|looks|], j) then Carried(sh, sh', j)
           else sh'.store.jobs[j] == sh.store.jobs[j] && Log(sh', j) == Log(sh, j)
    decreases |looks|
  {
    if looks == [] {
      assert buf[..0] == [];
    } else {
      var sh1 := ProcessItem(sh, buf[0], false);
      OneHandled(sh, buf[0]);
      WorkHandlesAll(sh1, buf[1..], looks[1..]);
      var (sh', _) := Work(sh, buf, looks);
      forall j | j in sh.store.jobs
        ensures
          if Named(buf[..|looks|], j) then Carried(sh, sh', j)
          else sh'.store.jobs[j] == sh.store.jobs[j] && Log(sh', j) == Log(sh, j)
      {
        NamedFirst(buf, |looks|, j);
        ThenCarried(sh, sh1, sh', buf[0].job, j, Named(buf[1..][..|looks| - 1], j));
      }
    }
  }

  lemma NamedFirst(buf: seq<Queue.Item>, n: nat, j: int)
    requires 0 < n <= |buf|
    ensures Named(buf[..n], j) <==> buf[0].job == j || Named(buf[1..][..n - 1], j)
  {
    var a, b := buf[..n], buf[1..][..n - 1];
    assert forall i :: 1 <= i < |a| ==> a[i] == b[i - 1];
    assert a[0] == buf[0];
    if Named(b, j) {
      var i :| 0 <= i < |b| && b[i].job == j;
      assert a[i + 1].job == j;
    }
  }

  lemma ThenCarried(sh: Shared, sh1: Shared, sh2: Shared, first: int, j: int, later: bool)
    requires j in sh.store.jobs && j in sh1.store.jobs && j in sh2.store.jobs && UsersStay(sh1, sh2)
    requires if j == first then Carried(sh, sh1, j)
             else sh1.store.jobs[j] == sh.store.jobs[j] && Log(sh1, j) == Log(sh, j)
    requires if later then Carried(sh1, sh2, j)
             else sh2.store.jobs[j] == sh1.store.jobs[j] && Log(sh2, j) == Log(sh1, j)
    ensures if j == first || later then Carried(sh, sh2, j)
            else sh2.store.jobs[j] == sh.store.jobs[j] && Log(sh2, j) == Log(sh, j)
  {
    var result := sh1.store.jobs[j].result;
    if result.Some? && result.value in sh1.users.users {
      assert result.value in sh2.users.users;
    }
  }

  lemma OneHandled(sh: Shared, item: Queue.Item)
    requires Users.UsersOk(sh.users)
    ensures
      var sh' := ProcessItem(sh, item, false);
      && sh'.store.jobs.Keys == sh.store.jobs.Keys && sh'.store.nextID == sh.store.nextID
      && Users.UsersOk(sh'.users) && UsersStay(sh, sh')
      && (item.job in sh.store.jobs ==> Carried(sh, sh', item.job))
      && forall j :: j in sh.store.jobs && j != item.job ==>
           sh'.store.jobs[j] == sh.store.jobs[j] && Log(sh', j) == Log(sh, j)
  {
    ItemOutcome(sh, item, false);
    Users.SaveKeepsOk(sh.users, Draft(item));
  }

  /** A worker that finds its context ended with an item in hand fails the item's
      job, if that is still active, with the shutdown problem, and leaves the rest
      of the channel and of the jobs alone. */
  lemma WorkEndsWhenCanceled(sh: Shared, buf: seq<Queue.Item>, looks: seq<Look>)
    requires looks != [] && looks[0] == Channel(true) && buf != []
    ensures
      var (sh', rest) := Work(sh, buf, looks);
      var j := buf[0].job;
      && rest == buf[1..] && sh'.users == sh.users && sh'.store.jobs.Keys == sh.store.jobs.Keys
      && (forall k :: k in sh.store.jobs && k != j ==>
            sh'.store.jobs[k] == sh.store.jobs[k] && Log(sh', k) == Log(sh, k))
      && (j in sh.store.jobs ==>
            if IsTerminal(sh.store.jobs[j].status) then
              sh'.store.jobs[j] == sh.store.jobs[j] && Log(sh', j) == Log(sh, j)
            else
              && sh'.store.jobs[j].status == Failed && sh'.store.jobs[j].error == Some(SHUTDOWN_PROBLEM)
              && Log(sh', j) == Log(sh, j) + [Failed])
  {
    ItemOutcome(sh, buf[0], true);
  }

  /** The context's branch ends the loop with nothing done, and an empty channel
      gives nothing to do. */
  lemma WorkIdles(sh: Shared, buf: seq<Queue.Item>, looks: seq<Look>)
    requires looks != [] && (looks[0].ContextDone? || buf == [])
    ensures Work(sh, buf, looks) == if looks[0].ContextDone? then (sh, buf) else Work(sh, [], looks[1..])
  {
  }

  /** Looks taken while live can be taken first. */
  lemma {:induction false} WorkInTurn(sh: Shared, buf: seq<Queue.Item>, live: seq<Look>, more: seq<Look>)
    requires AllLive(live)
    ensures
      var (sh', rest) := Work(sh, buf, live);
      Work(sh, buf, live + more) == Work(sh', rest, more)
    decreases |live|
  {
    if live == [] {
      assert live + more == more;
    } else {
      assert (live + more)[1..] == live[1..] + more;
      if buf == [] {
        WorkInTurn(sh, buf, live[1..], more);
      } else {
        WorkInTurn(ProcessItem(sh, buf[0], false), buf[1..], live[1..], more);
      }
    }
  }

  class Worker {
    const jobs: JobStore.MemoryJobRepository
    const service: JobStore.JobService
    const users: Users.MemoryUserRepository
    const queue: Queue.WorkQueue
    var events: map<int, seq<Status>>

    ghost predicate Valid() {
      service.repo == jobs
    }

    ghost function Now(): Shared
      reads this, jobs, users
    {
      Shared(jobs.State(), users.State(), events)
    }

    constructor (service: JobStore.JobService, users: Users.MemoryUserRepository, queue: Queue.WorkQueue)
      ensures Valid() && this.service == service && this.users == users && this.queue == queue
      ensures Now() == Shared(service.repo.State(), users.State(), map[])
    {
      this.jobs, this.service, this.users, this.queue := service.repo, service, users, queue;
      events := map[];
    }

    method Publish(j: int, event: Status)
      modifies this
      ensures events == Offer(old(events), j, event)
    {
      events := events[j := Events(events, j) + [event]];
    }

    method MarkJobFailed(id: int, problem: Problem) returns (reply: JobStore.Reply)
      requires Valid()
      modifies this, jobs
      ensures Now() == FailJob(old(Now()), id, problem)
      ensures reply == JobStore.Move(old(jobs.State()), id, JobStore.ToFailed(problem)).1
    {
      reply := service.Transition(id, JobStore.ToFailed(problem), []);
      if reply != JobStore.Done {
        return;
      }
      Publish(id, Failed);
    }

    method CreateUser(input: Queue.Input) returns (reply: Users.SaveReply)
      modifies users
      ensures (users.State(), reply) == Users.CreateUser(old(users.State()), input.name, input.age, input.email, [])
    {
      var taken := users.ExistsByEmail(input.email);
      if taken {
        return Users.EmailConflict;
      }
      reply := users.Save(Users.User(0, input.name, input.age, input.email, 0));
    }

    /** The loop body for one received item; `leave` ends the loop. */
    method Process(item: Queue.Item, canceled: bool) returns (leave: bool)
      requires Valid()
      modifies this, jobs, users
      ensures Now() == ProcessItem(old(Now()), item, canceled) && leave == canceled
    {
      if canceled {
        var _ := MarkJobFailed(item.job, SHUTDOWN_PROBLEM);
        return true;
      }
      var started := service.Transition(item.job, JobStore.ToRunning, []);
      if started != JobStore.Done {
        return false;
      }
      Publish(item.job, Running);
      var made := CreateUser(item.payload);
      if !made.SavedAs? {
        var _ := MarkJobFailed(item.job, CONFLICT_PROBLEM);
        return false;
      }
      var reported := service.Transition(item.job, JobStore.ToSucceeded(made.id), []);
      if reported != JobStore.Done {
        return false;
      }
      Publish(item.job, Succeeded);
      return false;
    }

    method WorkerLoop(looks: seq<Look>)
      requires Valid()
      modifies this, jobs, users, queue
      ensures (Now(), queue.ch) == Work(old(Now()), old(queue.ch), looks)
      ensures queue.stopped == old(queue.stopped) && queue.accepted == old(queue.accepted)
    {
      var n := 0;
      while n < |looks|
        invariant 0 <= n <= |looks|
        invariant Work(Now(), queue.ch, looks[n..]) == Work(old(Now()), old(queue.ch), looks)
        invariant queue.stopped == old(queue.stopped) && queue.accepted == old(queue.accepted)
      {
        assert looks[n..][1..] == looks[n + 1..];
        if looks[n].ContextDone? {
          return;
        }
        if queue.ch != [] {
          ghost var buf := queue.ch;
          var item := queue.Take();
          assert item == buf[0] && queue.ch == buf[1..];
          var leave := Process(item, looks[n].canceled);
          if leave {
            return;
          }
        }
        n := n + 1;
      }
    }
  }

  // ------------------------------------------- one Create handler's small steps

  /** What one handler reads and writes: its place, the job repository, the queue
      and the events offered to the hub. */
  datatype Desk = Desk(handler: Option<Handler>, store: JobStore.Store, queue: Queue.Q, events: map<int, seq<Status>>)

  function DeskOf(s: Sys, t: nat): Desk {
    Desk(if t in s.handlers then Some(s.handlers[t]) else None, s.store, s.queue, s.past.offered)
  }

  /** The job is saved, and nothing is published about it yet. */
  function Opened(d: Desk, payload: Queue.Input, owner: int): Desk {
    var j := d.store.nextID;
    Desk(Some(Handler(j, payload, Saved)), JobStore.Insert(d.store, Job(0, Queued, None, None, owner)), d.queue,
         d.events[j := []])
  }

  predicate CanMove(d: Desk, t: nat, ok: bool) {
    && d.handler.Some?
    && var act := QueueAct(t, d.handler.value, NextPc(d.handler.value.pc, d.queue.stopped, ok));
       act.Some? ==> Queue.Can(d.queue, act.value)
  }

  function Moved(d: Desk, t: nat, ok: bool): Desk
    requires CanMove(d, t, ok)
  {
    var h := d.handler.value;
    var next := NextPc(h.pc, d.queue.stopped, ok);
    var act := QueueAct(t, h, next);
    Desk(if next.Some? then Some(h.(pc := next.value)) else None,
         if h.pc == RollingBack then JobStore.Remove(d.store, h.job).0 else d.store,
         if act.Some? then Queue.Do(d.queue, act.value) else d.queue,
         if h.pc == Saved then Offer(d.events, h.job, Queued) else d.events)
  }

  /** The system's handler steps are these, seen from one handler. */
  lemma HandleIsMove(s: Sys, t: nat, ok: bool)
    requires CanHandle(s, t, ok)
    ensures CanMove(DeskOf(s, t), t, ok) && DeskOf(DoHandle(s, t, ok), t) == Moved(DeskOf(s, t), t, ok)
  {
  }

  lemma AcceptIsOpened(s: Sys, t: nat, payload: Queue.Input, owner: int)
    requires CanAccept(s, t)
    ensures DeskOf(DoAccept(s, t, payload, owner), t) == Opened(DeskOf(s, t), payload, owner)
  {
  }

  /** Steps taken one after the other; the end, if each was possible. */
  function Moves(d: Desk, t: nat, oks: seq<bool>): Option<Desk>
    decreases |oks|
  {
    if oks == [] then Some(d)
    else if !CanMove(d, t, oks[0]) then None
    else Moves(Moved(d, t, oks[0]), t, oks[1..])
  }

  lemma MovesFirst(d: Desk, t: nat, ok: bool, oks: seq<bool>)
    requires CanMove(d, t, ok)
    ensures Moves(d, t, [ok] + oks) == Moves(Moved(d, t, ok), t, oks)
  {
    assert ([ok] + oks)[1..] == oks;
  }

  /** A handler that has published, with nobody inside the queue's lock. */
  predicate AtDoor(d: Desk) {
    d.handler.Some? && d.handler.value.pc == Published && d.queue.readers == map[] && d.queue.writer.None?
  }

  /** The answers the steps need for a given result of Enqueue. */
  function Answers(r: Queue.EnqueueResult, early: bool): seq<bool> {
    if r == Queue.Enqueued then [true] + ([true] + ([true] + [true]))
    else if early then [false] + [true]
    else if r == Queue.ErrQueueStopped then [true] + ([true] + ([true] + [true]))
    else [true] + ([true] + ([false] + ([true] + [true])))
  }

  lemma AdmittedMoves(d: Desk, t: nat)
    requires AtDoor(d) && !d.queue.stopped && |d.queue.buf| < d.queue.capacity
    ensures
      var item := Queue.Item(d.handler.value.job, d.handler.value.payload);
      Moves(d, t, Answers(Queue.Enqueued, false)) ==
        Some(d.(handler := None, queue := d.queue.(buf := d.queue.buf + [item], accepted := d.queue.accepted + [item])))
  {
    var d1 := Moved(d, t, true);
    var d2 := Moved(d1, t, true);
    var d3 := Moved(d2, t, true);
    MovesFirst(d, t, true, [true] + ([true] + [true]));
    MovesFirst(d1, t, true, [true] + [true]);
    MovesFirst(d2, t, true, [true]);
    assert d3.handler.value.pc == Admitted && Moves(Moved(d3, t, true), t, []) == Some(Moved(d3, t, true));
    assert Moved(d3, t, true).queue.readers == map[];
  }

  lemma EarlyMoves(d: Desk, t: nat)
    requires AtDoor(d)
    ensures Moves(d, t, Answers(Queue.Canceled, true)) ==
              Some(d.(handler := None, store := JobStore.Remove(d.store, d.handler.value.job).0))
  {
    var d1 := Moved(d, t, false);
    MovesFirst(d, t, false, [true]);
    assert Moves(Moved(d1, t, true), t, []) == Some(Moved(d1, t, true));
  }

  /** Out of the lock and through the rollback. */
  lemma RefusedMoves(d: Desk, t: nat)
    requires d.handler.Some? && d.handler.value.pc == Refused && d.queue.readers.Keys == {t}
    ensures Moves(d, t, [true] + [true]) ==
              Some(d.(handler := None, store := JobStore.Remove(d.store, d.handler.value.job).0,
                      queue := d.queue.(readers := map[])))
  {
    var d1 := Moved(d, t, true);
    MovesFirst(d, t, true, [true]);
    assert d1.queue.readers == map[];
    assert Moves(Moved(d1, t, true), t, []) == Some(Moved(d1, t, true));
  }

  lemma StoppedMoves(d: Desk, t: nat)
    requires AtDoor(d) && d.queue.stopped
    ensures Moves(d, t, Answers(Queue.ErrQueueStopped, false)) ==
              Some(d.(handler := None, store := JobStore.Remove(d.store, d.handler.value.job).0))
  {
    var d1 := Moved(d, t, true);
    var d2 := Moved(d1, t, true);
    MovesFirst(d, t, true, [true] + ([true] + [true]));
    MovesFirst(d1, t, true, [true] + [true]);
    RefusedMoves(d2, t);
  }

  /** Canceled inside the lock, or no room. */
  lemma GivenUpMoves(d: Desk, t: nat, r: Queue.EnqueueResult)
    requires AtDoor(d) && !d.queue.stopped && (r == Queue.Canceled || r == Queue.ErrQueueFull)
    ensures Moves(d, t, Answers(r, false)) ==
              Some(d.(handler := None, store := JobStore.Remove(d.store, d.handler.value.job).0))
  {
    var d1 := Moved(d, t, true);
    var d2 := Moved(d1, t, true);
    var d3 := Moved(d2, t, false);
    MovesFirst(d, t, true, [true] + ([false] + ([true] + [true])));
    MovesFirst(d1, t, true, [false] + ([true] + [true]));
    MovesFirst(d2, t, false, [true] + [true]);
    RefusedMoves(d3, t);
  }

  /** Where the handler leaves things for a given result of Enqueue. */
  function Closed(d: Desk, r: Queue.EnqueueResult): Desk
    requires d.handler.Some?
  {
    var h := d.handler.value;
    var item := Queue.Item(h.job, h.payload);
    Desk(None,
         if r == Queue.Enqueued then d.store else JobStore.Remove(d.store, h.job).0,
         if r == Queue.Enqueued then d.queue.(buf := d.queue.buf + [item], accepted := d.queue.accepted + [item])
         else d.queue,
         Offer(d.events, h.job, Queued))
  }

  lemma ClosedAgain(d: Desk, payload: Queue.Input, owner: int, r: Queue.EnqueueResult)
    requires JobStore.StoreOk(d.store) && d.store.nextID !in d.events && d.handler.None?
    ensures
      var j := d.store.nextID;
      var item := Queue.Item(j, payload);
      Closed(Opened(d, payload, owner), r) ==
        if r == Queue.Enqueued then
          Desk(None, JobStore.Insert(d.store, Job(0, Queued, None, None, owner)),
               d.queue.(buf := d.queue.buf + [item], accepted := d.queue.accepted + [item]),
               Offer(d.events, j, Queued))
        else Desk(None, d.store.(nextID := j + 1), d.queue, Offer(d.events, j, Queued))
  {
    var j := d.store.nextID;
    assert j !in d.store.jobs;
    assert Offer(d.events[j := []], j, Queued) == Offer(d.events, j, Queued);
    assert JobStore.Insert(d.store, Job(0, Queued, None, None, owner)).jobs - {j} == d.store.jobs;
  }

  /** The whole handler is its steps in order, whatever Enqueue answers. */
  lemma CreateMoves(d: Desk, t: nat, r: Queue.EnqueueResult, early: bool)
    requires d.handler.Some? && d.handler.value.pc == Saved && d.queue.readers == map[] && d.queue.writer.None?
    requires early ==> r == Queue.Canceled
    requires !early ==> (d.queue.stopped <==> r == Queue.ErrQueueStopped)
    requires r == Queue.Enqueued ==> |d.queue.buf| < d.queue.capacity
    ensures Moves(d, t, [true] + Answers(r, early)) == Some(Closed(d, r))
  {
    var d1 := Moved(d, t, true);
    MovesFirst(d, t, true, Answers(r, early));
    if early {
      EarlyMoves(d1, t);
    } else if r == Queue.Enqueued {
      AdmittedMoves(d1, t);
    } else if r == Queue.ErrQueueStopped {
      StoppedMoves(d1, t);
    } else {
      GivenUpMoves(d1, t, r);
    }
  }

  // -------------------------------------------------------------- the handler

  class UsersHandler {
    const jobs: JobStore.MemoryJobRepository
    const queue: Queue.WorkQueue
    var events: map<int, seq<Status>>

    /** Between calls, with no handler under way. */
    ghost function Now(): Desk
      reads this, jobs, queue
    {
      Desk(None, jobs.State(), queue.State(), events)
    }

    constructor (jobs: JobStore.MemoryJobRepository, queue: Queue.WorkQueue)
      ensures this.jobs == jobs && this.queue == queue && events == map[]
    {
      this.jobs, this.queue := jobs, queue;
      events := map[];
    }

    /** The async branch of Create. Accepted: the job is stored as queued and its
        item is last in the channel. Refused, for whatever reason: the stored jobs
        and the channel are as before, only the identifier is used up. The queued
        event is published either way. */
    method CreateAsync(t: nat, payload: Queue.Input, owner: int, early: bool, late: bool, racing: bool)
      returns (id: int, r: Queue.EnqueueResult)
      requires JobStore.StoreOk(jobs.State())
      modifies this, jobs, queue
      ensures JobStore.StoreOk(jobs.State())
      ensures id == old(jobs.nextID) && jobs.nextID == old(jobs.nextID) + 1
      ensures events == Offer(old(events), id, Queued)
      ensures r == Queue.Enqueued <==>
                !early && !old(queue.stopped) && !late && !racing && |old(queue.ch)| < queue.capacity
      ensures r == Queue.Enqueued ==>
                && jobs.jobs == old(jobs.jobs)[id := Job(id, Queued, None, None, owner)]
                && queue.ch == old(queue.ch) + [Queue.Item(id, payload)]
      ensures r != Queue.Enqueued ==> jobs.jobs == old(jobs.jobs) && queue.State() == old(queue.State())
      ensures Reaches(Queue.Step, old(queue.State()), queue.State())
      ensures id !in old(events) ==>
                Moves(Opened(old(Now()), payload, owner), t, [true] + Answers(r, early)) == Some(Now())
    {
      ghost var desk := Opened(Now(), payload, owner);
      var saved := jobs.Save(Job(0, Queued, None, None, owner));
      id := saved.id;
      events := events[id := Events(events, id) + [Queued]];
      r := queue.Enqueue(t, Queue.Item(id, payload), early, late, racing);
      if r != Queue.Enqueued {
        var _ := jobs.Delete(id);
        assert jobs.jobs == old(jobs.jobs);
      }
      if id !in old(events) {
        CreateMoves(desk, t, r, early);
        ClosedAgain(old(Now()), payload, owner, r);
      }
    }
  }
}
