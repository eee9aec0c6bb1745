/** The asynchronous job runtime as one transition system: HTTP handlers, the
    queue, the worker pool, the job and user repositories and the event hub,
    interleaved at the granularity of their locks, compare-and-sets and channel
    operations (internal/routes/users_handler.go, internal/queue/queue.go,
    internal/workerpool/workerpool.go, internal/service/jobService.go). */
module AsyncRuntime {
  import opened Runs
  import opened Jobs
  import JobStore
  import Queue
  import WorkerPool
  import Users

  /** Where the async branch of Create is. `Locked`, `SawOpen`, `Admitted` and
      `Refused` are inside the queue's lock; `RollingBack` is left to delete. */
  datatype HandlerPc = Saved | Published | Locked | SawOpen | Admitted | Refused | RollingBack

  datatype Handler = Handler(job: int, payload: Queue.Input, pc: HandlerPc)

  /** Where a worker is inside one turn of its loop. Each service transition is
      its read followed by its compare-and-set; `early` marks the branch that
      fails the job because the generation was canceled, and then leaves. */
  datatype Task =
    | Idle
    | Got(item: Queue.Item)
    | Ready(item: Queue.Item)
    | Starting(item: Queue.Item)
    | Started(item: Queue.Item)
    | Calling(item: Queue.Item)
    | SavingUser(item: Queue.Item)
    | Created(item: Queue.Item, user: int)
    | Succeeding(item: Queue.Item, user: int)
    | Announcing(item: Queue.Item, user: int)
    | Failing(item: Queue.Item, problem: Problem, early: bool)
    | Refusing(item: Queue.Item, problem: Problem, early: bool)
    | Mourning(item: Queue.Item, early: bool)
    | Leaving

  /** Who is responsible for a job that has been saved. */
  datatype Holder = AtHandler(t: nat) | InChannel | AtWorker(w: nat) | Settled

  /** History, written by the steps but never read by them: the holder of each
      job, the jobs admitted to the channel, who may call CreateUser next, the
      calls made, the jobs deleted and repaired, the job behind each user a worker
      created, and the events offered to and taken by the hub for each job. */
  datatype Past = Past(
    holder: map<int, Holder>,
    admitted: set<int>,
    permit: map<int, nat>,
    calls: seq<int>,
    deleted: set<int>,
    repaired: set<int>,
    made: map<int, int>,
    offered: map<int, seq<Status>>,
    taken: map<int, seq<Status>>)

  const NO_PAST := Past(map[], {}, map[], [], {}, {}, map[], map[], map[])

  datatype Sys = Sys(
    store: JobStore.Store,
    queue: Queue.Q,
    users: Users.UserStore,
    pool: WorkerPool.Pool,
    tasks: map<nat, Task>,
    handlers: map<nat, Handler>,
    httpOpen: bool,
    hubClosed: bool,
    past: Past)

  /** The queue's capacity, and how addresses are compared. */
  datatype Config = Config(capacity: nat, fold: char -> char)

  function NewSys(config: Config): Sys {
    Sys(JobStore.EMPTY_STORE, Queue.NewQueue(config.capacity), Users.NoUsers(config.fold), WorkerPool.NEW_POOL,
        map[], map[], true, false, NO_PAST)
  }

  /** `ok` resolves a handler's races: whether its request context is still good,
      and whether the send wins. */
  datatype Act =
    | Accept(t: nat, payload: Queue.Input, owner: int)
    | Handle(t: nat, ok: bool)
    | Take(w: nat)
    | Advance(w: nat)
    | PoolAct(pact: WorkerPool.Act)
    | Barrier(qact: Queue.Act)
    | CloseHttp
    | CloseHub
    | SyncCreate(user: Users.User)

  const CONFLICT_PROBLEM := Problem("conflict", "conflict", 409, [])

  /** `Hub.Publish`: a closed hub drops the event. */
  function Announced(p: Past, j: int, event: Status, hubClosed: bool): Past {
    p.(offered := p.offered[j := Events(p.offered, j) + [event]],
       taken := if hubClosed then p.taken else p.taken[j := Events(p.taken, j) + [event]])
  }

  function Events(log: map<int, seq<Status>>, j: int): seq<Status> {
    if j in log then log[j] else []
  }

  // ---------------------------------------------------------------- handlers

  predicate CanAccept(s: Sys, t: nat) {
    s.httpOpen && t !in s.handlers && t !in s.queue.readers
  }

  /** Up to and including `jobService.Save` of `Job{Status: queued}`. */
  function DoAccept(s: Sys, t: nat, payload: Queue.Input, owner: int): Sys {
    var j := s.store.nextID;
    s.(store := JobStore.Insert(s.store, Job(0, Queued, None, None, owner)),
       handlers := s.handlers[t := Handler(j, payload, Saved)],
       past := s.past.(holder := s.past.holder[j := AtHandler(t)],
                       offered := s.past.offered[j := []],
                       taken := s.past.taken[j := []]))
  }

  /** Publish, enter the lock unless the context is done, look at the flag, send
      or give up, leave the lock, roll back. `None` is the end of the handler. */
  function NextPc(pc: HandlerPc, stopped: bool, ok: bool): Option<HandlerPc> {
    match pc
    case Saved => Some(Published)
    case Published => Some(if ok then Locked else RollingBack)
    case Locked => Some(if stopped then Refused else SawOpen)
    case SawOpen => Some(if ok then Admitted else Refused)
    case Admitted => None
    case Refused => Some(RollingBack)
    case RollingBack => None
  }

  function QueueAct(t: nat, h: Handler, next: Option<HandlerPc>): Option<Queue.Act> {
    if h.pc == Admitted || h.pc == Refused then Some(Queue.RUnlock(t))
    else if next == Some(Locked) then Some(Queue.RLock(t))
    else if next == Some(SawOpen) then Some(Queue.SeeOpen(t))
    else if next == Some(Admitted) then Some(Queue.Send(t, Queue.Item(h.job, h.payload)))
    else None
  }

  predicate CanHandle(s: Sys, t: nat, ok: bool) {
    && t in s.handlers
    && var act := QueueAct(t, s.handlers[t], NextPc(s.handlers[t].pc, s.queue.stopped, ok));
       act.Some? ==> Queue.Can(s.queue, act.value)
  }

  function HandlerPast(p: Past, h: Handler, next: Option<HandlerPc>, hubClosed: bool): Past {
    if h.pc == Saved then Announced(p, h.job, Queued, hubClosed)
    else if h.pc == RollingBack then p.(holder := p.holder[h.job := Settled], deleted := p.deleted + {h.job})
    else if next == Some(Admitted) then p.(holder := p.holder[h.job := InChannel], admitted := p.admitted + {h.job})
    else p
  }

  function DoHandle(s: Sys, t: nat, ok: bool): Sys
    requires CanHandle(s, t, ok)
  {
    var h := s.handlers[t];
    var next := NextPc(h.pc, s.queue.stopped, ok);
    var act := QueueAct(t, h, next);
    s.(store := if h.pc == RollingBack then JobStore.Remove(s.store, h.job).0 else s.store,
       queue := if act.Some? then Queue.Do(s.queue, act.value) else s.queue,
       handlers := if next.Some? then s.handlers[t := h.(pc := next.value)] else s.handlers - {t},
       past := HandlerPast(s.past, h, next, s.hubClosed))
  }

  // ----------------------------------------------------------------- workers

  predicate HasItem(task: Task) {
    !task.Idle? && !task.Leaving?
  }

  predicate CanTake(s: Sys, w: nat) {
    w in s.tasks && s.tasks[w].Idle? && s.queue.buf != []
  }

  function DoTake(s: Sys, w: nat): Sys
    requires CanTake(s, w)
  {
    var item := s.queue.buf[0];
    s.(queue := Queue.Do(s.queue, Queue.Receive),
       tasks := s.tasks[w := Got(item)],
       past := s.past.(holder := s.past.holder[item.job := AtWorker(w)]))
  }

  /** One atomic turn: where the worker is next, the guarded update it won, the
      event it publishes, and whether it saves the user of its item. */
  datatype Turn = Turn(next: Task, change: Option<JobStore.Change>, event: Option<Status>, saves: bool)

  function Quiet(next: Task): Turn {
    Turn(next, None, None, false)
  }

  /** Back to the select, or out of the loop. */
  function Home(early: bool): Task {
    if early then Leaving else Idle
  }

  predicate Allowed(job: Option<Job>, intent: Intent) {
    job.Some? && CanTransition(job.value.status, intent)
  }

  /** The user a worker would save for its item. */
  function Draft(item: Queue.Item): Users.User {
    Users.User(0, item.payload.name, item.payload.age, item.payload.email, 0)
  }

  /** The loop body of `workerLoop`, with each service transition split into its
      read and its compare-and-set and CreateUser into its check and its save. */
  function TurnOf(task: Task, job: Option<Job>, users: Users.UserStore, canceled: bool): Turn
    requires HasItem(task)
  {
    match task
    case Got(item) =>
      Quiet(if canceled then Failing(item, SHUTDOWN_PROBLEM, true) else Ready(item))
    case Ready(item) =>
      Quiet(if Allowed(job, Start) then Starting(item) else Idle)
    case Starting(item) =>
      if Allowed(job, Start) then Turn(Started(item), Some(JobStore.ToRunning), None, false) else Quiet(Idle)
    case Started(item) => Turn(Calling(item), None, Some(Running), false)
    case Calling(item) =>
      var taken := Users.EmailTaken(users, item.payload.email);
      Quiet(if taken then Failing(item, CONFLICT_PROBLEM, false) else SavingUser(item))
    case SavingUser(item) =>
      var reply := Users.SaveUser(users, Draft(item)).1;
      if reply.SavedAs? then Turn(Created(item, reply.id), None, None, true)
      else Quiet(Failing(item, CONFLICT_PROBLEM, false))
    case Created(item, user) =>
      Quiet(if Allowed(job, Succeed) then Succeeding(item, user) else Idle)
    case Succeeding(item, user) =>
      if Allowed(job, Succeed) then Turn(Announcing(item, user), Some(JobStore.ToSucceeded(user)), None, false)
      else Quiet(Idle)
    case Announcing(item, user) => Turn(Idle, None, Some(Succeeded), false)
    case Failing(item, problem, early) =>
      Quiet(if Allowed(job, Fail) then Refusing(item, problem, early) else Home(early))
    case Refusing(item, problem, early) =>
      if Allowed(job, Fail) then Turn(Mourning(item, early), Some(JobStore.ToFailed(problem)), None, false)
      else Quiet(Home(early))
    case Mourning(item, early) => Turn(Home(early), None, Some(Failed), false)
  }

  predicate CanAdvance(s: Sys, w: nat) {
    && w in s.tasks && HasItem(s.tasks[w])
    && w in s.pool.workers && s.pool.workers[w].gen < |s.pool.gens|
  }

  function Stored(s: Sys, j: int): Option<Job> {
    if j in s.store.jobs then Some(s.store.jobs[j]) else None
  }

  function TurnAt(s: Sys, w: nat): Turn
    requires CanAdvance(s, w)
  {
    TurnOf(s.tasks[w], Stored(s, s.tasks[w].item.job), s.users, s.pool.gens[s.pool.workers[w].gen].canceled)
  }

  function WorkerPast(p: Past, w: nat, task: Task, turn: Turn, hubClosed: bool): Past
    requires HasItem(task)
  {
    var j := task.item.job;
    var p1 := if turn.event.Some? then Announced(p, j, turn.event.value, hubClosed) else p;
    p1.(holder := if HasItem(turn.next) then p.holder else p.holder[j := Settled],
        permit := if turn.next.Started? then p.permit[j := w] else if task.Calling? then p.permit - {j} else p.permit,
        calls := if task.Calling? then p.calls + [j] else p.calls,
        made := if turn.saves && turn.next.Created? then p.made[turn.next.user := j] else p.made)
  }

  function DoAdvance(s: Sys, w: nat): Sys
    requires CanAdvance(s, w)
  {
    var task := s.tasks[w];
    var turn := TurnAt(s, w);
    s.(store := if turn.change.Some? then JobStore.Move(s.store, task.item.job, turn.change.value).0 else s.store,
       users := if turn.saves then Users.SaveUser(s.users, Draft(task.item)).0 else s.users,
       tasks := s.tasks[w := turn.next],
       past := WorkerPast(s.past, w, task, turn, s.hubClosed))
  }

  // -------------------------------------------------------------------- pool

  /** A worker leaves after an early failure, or from its select once its
      generation is canceled. Repair is the repository's single bulk update. */
  predicate CanPool(s: Sys, a: WorkerPool.Act) {
    && WorkerPool.Can(s.pool, a)
    && (a.WorkerExit? ==>
          && a.w in s.tasks
          && (s.tasks[a.w].Leaving? || (s.tasks[a.w].Idle? && s.pool.gens[s.pool.workers[a.w].gen].canceled)))
    && (a.Repair? ==> a.outcome == WorkerPool.Outcome(|JobStore.ActiveIds(s.store.jobs)|, None))
  }

  function IdleTasks(ids: set<nat>): map<nat, Task> {
    map w | w in ids :: Idle
  }

  function TasksAfter(s: Sys, a: WorkerPool.Act): map<nat, Task>
    requires CanPool(s, a)
  {
    if a.WorkerExit? then s.tasks - {a.w}
    else if a.Start? && WorkerPool.StartsFresh(s.pool) then
      s.tasks + IdleTasks(WorkerPool.Ids(s.pool.nextWorker, WorkerPool.Count(a.size)))
    else s.tasks
  }

  function DoPool(s: Sys, a: WorkerPool.Act): Sys
    requires CanPool(s, a)
  {
    s.(pool := WorkerPool.Do(s.pool, a),
       tasks := TasksAfter(s, a),
       store := if a.Repair? then JobStore.FailActive(s.store, SHUTDOWN_PROBLEM).0 else s.store,
       past := if a.Repair? then s.past.(repaired := s.past.repaired + JobStore.ActiveIds(s.store.jobs)) else s.past)
  }

  // ------------------------------------------------------------------- steps

  predicate Can(s: Sys, a: Act) {
    match a
    case Accept(t, _, _) => CanAccept(s, t)
    case Handle(t, ok) => CanHandle(s, t, ok)
    case Take(w) => CanTake(s, w)
    case Advance(w) => CanAdvance(s, w)
    case PoolAct(pact) => CanPool(s, pact)
    case Barrier(qact) => (qact.Lock? || qact.SetStopped? || qact.Unlock?) && Queue.Can(s.queue, qact)
    case CloseHttp => true
    case CloseHub => true
    case SyncCreate(user) => user.id == 0
  }

  function Do(s: Sys, a: Act): Sys
    requires Can(s, a)
  {
    match a
    case Accept(t, payload, owner) => DoAccept(s, t, payload, owner)
    case Handle(t, ok) => DoHandle(s, t, ok)
    case Take(w) => DoTake(s, w)
    case Advance(w) => DoAdvance(s, w)
    case PoolAct(pact) => DoPool(s, pact)
    case Barrier(qact) => s.(queue := Queue.Do(s.queue, qact))
    case CloseHttp => s.(httpOpen := false)
    case CloseHub => s.(hubClosed := true)
    case SyncCreate(user) => s.(users := Users.SaveUser(s.users, user).0)
  }

  ghost predicate Step(s: Sys, s': Sys) {
    exists a :: Can(s, a) && s' == Do(s, a)
  }

  /** A channel that may hand out an accepted item again, at any time. */
  function Redelivered(s: Sys, item: Queue.Item): Sys {
    s.(queue := s.queue.(buf := s.queue.buf + [item]))
  }

  ghost predicate FaultyStep(s: Sys, s': Sys) {
    || Step(s, s')
    || exists item :: item in s.queue.accepted && s' == Redelivered(s, item)
  }
}
