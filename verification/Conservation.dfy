/** What every reachable state of the runtime keeps: each job has exactly one
    holder, its status and its published events fit what that holder is doing,
    and each user a worker created belongs to exactly one job. */
module Conservation {
  import opened Runs
  import opened Jobs
  import opened AsyncRuntime
  import opened AtMostOnce
  import JobStore
  import Queue
  import WorkerPool
  import Users

  // ----------------------------------------------------- one job, one holder

  /** Not started yet: still queued, or already failed by a repair pass. */
  predicate Waiting(job: Job) {
    job.status == Queued || job.status == Failed
  }

  predicate HandlerFits(pc: HandlerPc, job: Job, events: seq<Status>) {
    Waiting(job) && events == if pc == Saved then [] else [Queued]
  }

  predicate TaskFits(task: Task, job: Job, events: seq<Status>)
    requires HasItem(task)
  {
    match task
    case Got(_) => Waiting(job) && events == [Queued]
    case Ready(_) => Waiting(job) && events == [Queued]
    case Starting(_) => Waiting(job) && events == [Queued]
    case Started(_) => job.status == Running && events == [Queued]
    case Calling(_) => job.status == Running && events == [Queued, Running]
    case SavingUser(_) => job.status == Running && events == [Queued, Running]
    case Created(_, _) => job.status == Running && events == [Queued, Running]
    case Succeeding(_, _) => job.status == Running && events == [Queued, Running]
    case Announcing(_, user) => job.status == Succeeded && job.result == Some(user) && events == [Queued, Running]
    case Failing(_, _, early) =>
      if early then Waiting(job) && events == [Queued] else job.status == Running && events == [Queued, Running]
    case Refusing(_, _, early) =>
      if early then Waiting(job) && events == [Queued] else job.status == Running && events == [Queued, Running]
    case Mourning(_, early) => job.status == Failed && events == if early then [Queued] else [Queued, Running]
  }

  /** Nobody is working on it any more: deleted, succeeded, or failed. */
  predicate SettledFits(job: Option<Job>, events: seq<Status>) {
    match job
    case None => events == [Queued]
    case Some(job) =>
      || (job.status == Succeeded && events == [Queued, Running, Succeeded])
      || (job.status == Failed
          && (events == [Queued] || events == [Queued, Failed] || events == [Queued, Running, Failed]))
  }

  predicate JobOk(s: Sys, j: int)
    requires j in s.past.holder
  {
    && j in s.past.offered
    && match s.past.holder[j]
       case AtHandler(t) =>
         && t in s.handlers && s.handlers[t].job == j && s.handlers[t].pc != Admitted
         && j in s.store.jobs && HandlerFits(s.handlers[t].pc, s.store.jobs[j], s.past.offered[j])
       case InChannel =>
         j in s.store.jobs && Waiting(s.store.jobs[j]) && s.past.offered[j] == [Queued]
       case AtWorker(w) =>
         && w in s.tasks && HasItem(s.tasks[w]) && s.tasks[w].item.job == j
         && j in s.store.jobs && TaskFits(s.tasks[w], s.store.jobs[j], s.past.offered[j])
       case Settled => SettledFits(Stored(s, j), s.past.offered[j])
  }

  /** Whoever carries a job is its holder; the channel carries it once. */
  predicate Holders(s: Sys) {
    var holder := s.past.holder;
    && (forall t :: t in s.handlers && s.handlers[t].pc != Admitted ==>
          s.handlers[t].job in holder && holder[s.handlers[t].job] == AtHandler(t))
    && (forall w :: w in s.tasks && HasItem(s.tasks[w]) ==>
          s.tasks[w].item.job in holder && holder[s.tasks[w].item.job] == AtWorker(w))
    && (forall i :: 0 <= i < |s.queue.buf| ==> s.queue.buf[i].job in holder && holder[s.queue.buf[i].job] == InChannel)
    && (forall i, k :: 0 <= i < k < |s.queue.buf| ==> s.queue.buf[i].job != s.queue.buf[k].job)
  }

  predicate JobsOk(s: Sys) {
    && (forall j :: j in s.past.holder ==> 1 <= j < s.store.nextID && JobOk(s, j))
    && (forall j :: j in s.store.jobs ==> j in s.past.holder)
  }

  // ------------------------------------------------------- one user, one job

  /** The user a worker has created for its job and not yet reported. */
  predicate Carries(task: Task, user: int, j: int) {
    (task.Created? || task.Succeeding?) && task.user == user && task.item.job == j
  }

  predicate UserOk(s: Sys, user: int)
    requires user in s.past.made
  {
    var j := s.past.made[user];
    && user < s.users.nextID
    && j in s.past.holder
    && (|| (j in s.store.jobs && s.store.jobs[j].status == Succeeded && s.store.jobs[j].result == Some(user))
        || (&& s.past.holder[j].AtWorker? && s.past.holder[j].w in s.tasks
            && Carries(s.tasks[s.past.holder[j].w], user, j)))
  }

  predicate MadeBy(s: Sys, user: int, j: int) {
    user in s.past.made && s.past.made[user] == j
  }

  predicate UsersKept(s: Sys) {
    && (forall user :: user in s.past.made ==> UserOk(s, user))
    && (forall j :: j in s.store.jobs && s.store.jobs[j].status == Succeeded ==>
          s.store.jobs[j].result.Some? && MadeBy(s, s.store.jobs[j].result.value, j))
    && (forall w :: w in s.tasks && (s.tasks[w].Created? || s.tasks[w].Succeeding?) ==>
          MadeBy(s, s.tasks[w].user, s.tasks[w].item.job))
  }

  // ------------------------------------------------------------------ events

  /** The hub takes what it is offered until it is closed. */
  predicate Taken(s: Sys) {
    && s.past.taken.Keys == s.past.offered.Keys
    && (forall j :: j in s.past.taken ==> s.past.taken[j] <= s.past.offered[j])
    && (!s.hubClosed ==> s.past.taken == s.past.offered)
  }

  predicate Inv(s: Sys) {
    Safe(s) && Queue.Inv(s.queue) && JobInv(s)
  }

  // ---------------------------------------------------- the worker's own turn

  function JobAfter(job: Job, turn: Turn): Job {
    if turn.change.Some? then JobStore.Changed(job, turn.change.value) else job
  }

  function EventsAfter(events: seq<Status>, turn: Turn): seq<Status> {
    if turn.event.Some? then events + [turn.event.value] else events
  }

  /** Whatever a worker does next, the job still fits it, or fits having been let go. */
  lemma TurnFits(task: Task, job: Job, events: seq<Status>, users: Users.UserStore, canceled: bool)
    requires HasItem(task) && TaskFits(task, job, events)
    ensures
      var turn := TurnOf(task, Some(job), users, canceled);
      var job', events' := JobAfter(job, turn), EventsAfter(events, turn);
      && (if HasItem(turn.next) then turn.next.item == task.item && TaskFits(turn.next, job', events')
          else SettledFits(Some(job'), events'))
  {
    OnlyFrom(job.status);
  }

  /** A worker that carries a user keeps it until the job has succeeded with it:
      the success transition is never refused. */
  lemma SuccessIsNeverRefused(task: Task, job: Job, events: seq<Status>, users: Users.UserStore, canceled: bool)
    requires (task.Created? || task.Succeeding?) && TaskFits(task, job, events)
    ensures
      var turn := TurnOf(task, Some(job), users, canceled);
      if task.Created? then turn == Quiet(Succeeding(task.item, task.user))
      else turn == Turn(Announcing(task.item, task.user), Some(JobStore.ToSucceeded(task.user)), None, false)
  {
    OnlyFrom(job.status);
  }

  // ------------------------------------------------------------------ frames

  /** A step that leaves a job, its events and its holder alone keeps it in order. */
  lemma OtherJob(s: Sys, s': Sys, j: int)
    requires j in s.past.holder && JobOk(s, j)
    requires j in s'.past.holder && s'.past.holder[j] == s.past.holder[j]
    requires j in s'.past.offered && s'.past.offered[j] == s.past.offered[j]
    requires Stored(s', j) == Stored(s, j)
    requires s.past.holder[j].AtHandler? && s.past.holder[j].t in s.handlers ==>
               s.past.holder[j].t in s'.handlers && s'.handlers[s.past.holder[j].t] == s.handlers[s.past.holder[j].t]
    requires s.past.holder[j].AtWorker? && s.past.holder[j].w in s.tasks ==>
               s.past.holder[j].w in s'.tasks && s'.tasks[s.past.holder[j].w] == s.tasks[s.past.holder[j].w]
    ensures JobOk(s', j)
  {
    assert j in s.store.jobs <==> Stored(s, j).Some?;
    assert j in s'.store.jobs <==> Stored(s', j).Some?;
  }

  /** Users are safe from every step that neither makes one, nor touches a
      succeeded job, nor moves a worker that carries one. */
  predicate HoldsUser(s: Sys, w: nat) {
    w in s.tasks && (s.tasks[w].Created? || s.tasks[w].Succeeding?)
  }

  lemma UsersFrame(s: Sys, s': Sys)
    requires UsersKept(s) && s'.past.made == s.past.made && s.users.nextID <= s'.users.nextID
    requires forall j :: j in s.store.jobs && s.store.jobs[j].status == Succeeded ==>
               j in s'.store.jobs && s'.store.jobs[j] == s.store.jobs[j]
    requires forall j :: j in s'.store.jobs && s'.store.jobs[j].status == Succeeded ==>
               j in s.store.jobs && s'.store.jobs[j] == s.store.jobs[j]
    requires forall j :: j in s.past.holder ==> j in s'.past.holder
    requires forall j :: j in s.past.holder && s.past.holder[j].AtWorker? && HoldsUser(s, s.past.holder[j].w) ==>
               && s'.past.holder[j] == s.past.holder[j] && s.past.holder[j].w in s'.tasks
               && s'.tasks[s.past.holder[j].w] == s.tasks[s.past.holder[j].w]
    requires forall w :: w in s'.tasks && (s'.tasks[w].Created? || s'.tasks[w].Succeeding?) ==>
               w in s.tasks && s'.tasks[w] == s.tasks[w]
    ensures UsersKept(s')
  {
    forall user | user in s'.past.made ensures UserOk(s', user) {
      assert UserOk(s, user);
    }
  }

  // ------------------------------------------------------------------ accept

  lemma AcceptKeepsJobs(s: Sys, t: nat, payload: Queue.Input, owner: int)
    requires JobStore.StoreOk(s.store) && JobsOk(s) && CanAccept(s, t)
    ensures JobsOk(DoAccept(s, t, payload, owner))
  {
    var s', issued := DoAccept(s, t, payload, owner), s.store.nextID;
    assert issued !in s.past.holder;
    forall j | j in s'.past.holder ensures 1 <= j < s'.store.nextID && JobOk(s', j) {
      if j != issued {
        assert JobOk(s, j);
        OtherJob(s, s', j);
      }
    }
  }

  lemma AcceptKeepsHolders(s: Sys, t: nat, payload: Queue.Input, owner: int)
    requires Holders(s) && JobsOk(s) && CanAccept(s, t)
    ensures Holders(DoAccept(s, t, payload, owner))
  {
    assert s.store.nextID !in s.past.holder;
  }

  lemma AcceptKeepsUsers(s: Sys, t: nat, payload: Queue.Input, owner: int)
    requires JobStore.StoreOk(s.store) && UsersKept(s) && JobsOk(s) && CanAccept(s, t)
    ensures UsersKept(DoAccept(s, t, payload, owner))
  {
    assert s.store.nextID !in s.past.holder;
    UsersFrame(s, DoAccept(s, t, payload, owner));
  }

  lemma AcceptKeepsTaken(s: Sys, t: nat, payload: Queue.Input, owner: int)
    requires Taken(s) && CanAccept(s, t)
    ensures Taken(DoAccept(s, t, payload, owner))
  {
  }

  lemma AnnouncedKeepsTaken(s: Sys, s': Sys, j: int, event: Status)
    requires Taken(s) && s'.hubClosed == s.hubClosed
    requires s'.past.offered == Announced(s.past, j, event, s.hubClosed).offered
    requires s'.past.taken == Announced(s.past, j, event, s.hubClosed).taken
    requires j in s.past.offered
    ensures Taken(s')
  {
  }

  // ------------------------------------------------------------------ handle

  /** A handler step touches one job, its own. */
  lemma HandleKeepsJobs(s: Sys, t: nat, ok: bool)
    requires JobStore.StoreOk(s.store) && Holders(s) && JobsOk(s) && Identities(s) && CanHandle(s, t, ok)
    ensures JobsOk(DoHandle(s, t, ok))
  {
    var s', h := DoHandle(s, t, ok), s.handlers[t];
    assert HandlerOk(s, t);
    forall k | k in s'.past.holder ensures 1 <= k < s'.store.nextID && JobOk(s', k) {
      if k == h.job && h.pc != Admitted {
        assert JobOk(s, k);
        HandledJob(s, t, ok);
      } else {
        assert JobOk(s, k);
        OtherJob(s, s', k);
      }
    }
  }

  lemma HandledJob(s: Sys, t: nat, ok: bool)
    requires CanHandle(s, t, ok) && s.handlers[t].pc != Admitted
    requires s.handlers[t].job in s.past.holder && s.past.holder[s.handlers[t].job] == AtHandler(t)
    requires JobOk(s, s.handlers[t].job)
    ensures s.handlers[t].job in DoHandle(s, t, ok).past.holder && JobOk(DoHandle(s, t, ok), s.handlers[t].job)
  {
  }

  lemma HandleKeepsHolders(s: Sys, t: nat, ok: bool)
    requires Holders(s) && JobsOk(s) && Identities(s) && CanHandle(s, t, ok)
    ensures Holders(DoHandle(s, t, ok))
  {
    HandleShape(s, t, ok);
    assert HandlerOk(s, t);
  }

  lemma HandleTouches(s: Sys, t: nat, ok: bool)
    requires CanHandle(s, t, ok)
    ensures
      var s', h := DoHandle(s, t, ok), s.handlers[t];
      && s'.tasks == s.tasks && s'.users == s.users && s'.past.made == s.past.made
      && (s'.store.jobs == s.store.jobs || (s'.store.jobs == s.store.jobs - {h.job} && h.pc != Admitted))
      && (|| s'.past.holder == s.past.holder
          || (&& h.pc != Admitted && h.job in s'.past.holder
              && s'.past.holder == s.past.holder[h.job := s'.past.holder[h.job]]))
  {
  }

  lemma HandleKeepsUsers(s: Sys, t: nat, ok: bool)
    requires UsersKept(s) && Holders(s) && JobsOk(s) && CanHandle(s, t, ok)
    ensures UsersKept(DoHandle(s, t, ok))
  {
    var s', h := DoHandle(s, t, ok), s.handlers[t];
    HandleTouches(s, t, ok);
    if h.pc != Admitted {
      assert s.past.holder[h.job] == AtHandler(t) && JobOk(s, h.job);
    }
    HandledUsers(s, s', h.job);
  }

  lemma HandledUsers(s: Sys, s': Sys, j: int)
    requires UsersKept(s) && s'.tasks == s.tasks && s'.users == s.users && s'.past.made == s.past.made
    requires || s'.store.jobs == s.store.jobs
             || (s'.store.jobs == s.store.jobs - {j} && j in s.store.jobs && Waiting(s.store.jobs[j]))
    requires s'.past.holder == s.past.holder
             || (&& j in s'.past.holder && s'.past.holder == s.past.holder[j := s'.past.holder[j]]
                 && j in s.past.holder && !s.past.holder[j].AtWorker?)
    ensures UsersKept(s')
  {
    UsersFrame(s, s');
  }

  lemma HandleKeepsTaken(s: Sys, t: nat, ok: bool)
    requires Taken(s) && Holders(s) && JobsOk(s) && CanHandle(s, t, ok)
    ensures Taken(DoHandle(s, t, ok))
  {
    var h := s.handlers[t];
    if h.pc == Saved {
      assert JobOk(s, h.job);
      AnnouncedKeepsTaken(s, DoHandle(s, t, ok), h.job, Queued);
    }
  }

  // ------------------------------------------------------------- take, advance

  lemma TakeKeepsJobs(s: Sys, w: nat)
    requires Holders(s) && JobsOk(s) && CanTake(s, w)
    ensures JobsOk(DoTake(s, w))
  {
    var s', j := DoTake(s, w), s.queue.buf[0].job;
    assert s.past.holder[j] == InChannel && JobOk(s, j);
    forall k | k in s'.past.holder ensures 1 <= k < s'.store.nextID && JobOk(s', k) {
      assert JobOk(s, k);
      if k != j {
        OtherJob(s, s', k);
      }
    }
  }

  lemma TakeKeepsHolders(s: Sys, w: nat)
    requires Holders(s) && CanTake(s, w)
    ensures Holders(DoTake(s, w))
  {
    assert s.past.holder[s.queue.buf[0].job] == InChannel;
  }

  lemma TakeKeepsUsers(s: Sys, w: nat)
    requires UsersKept(s) && Holders(s) && CanTake(s, w)
    ensures UsersKept(DoTake(s, w))
  {
    assert s.past.holder[s.queue.buf[0].job] == InChannel;
    UsersFrame(s, DoTake(s, w));
  }

  lemma AdvanceStores(s: Sys, w: nat)
    requires CanAdvance(s, w) && s.tasks[w].item.job in s.store.jobs
    ensures
      var j := s.tasks[w].item.job;
      DoAdvance(s, w).store.jobs == s.store.jobs[j := JobAfter(s.store.jobs[j], TurnAt(s, w))]
  {
    var task, j := s.tasks[w], s.tasks[w].item.job;
    TurnPermit(task, Some(s.store.jobs[j]), s.users, s.pool.gens[s.pool.workers[w].gen].canceled);
    assert s.store.jobs == s.store.jobs[j := s.store.jobs[j]];
  }

  lemma OffersAfter(p: Past, w: nat, task: Task, turn: Turn, hubClosed: bool)
    requires HasItem(task) && task.item.job in p.offered
    ensures
      var j := task.item.job;
      WorkerPast(p, w, task, turn, hubClosed).offered == p.offered[j := EventsAfter(p.offered[j], turn)]
  {
    var j := task.item.job;
    assert p.offered == p.offered[j := p.offered[j]];
  }

  /** What a turn does to the repository, the events and the holder of its job. */
  lemma AdvanceEffect(s: Sys, w: nat)
    requires CanAdvance(s, w) && s.tasks[w].item.job in s.store.jobs && s.tasks[w].item.job in s.past.offered
    ensures
      var s', task, turn := DoAdvance(s, w), s.tasks[w], TurnAt(s, w);
      var j := task.item.job;
      && s'.store.jobs == s.store.jobs[j := JobAfter(s.store.jobs[j], turn)]
      && s'.past.offered == s.past.offered[j := EventsAfter(s.past.offered[j], turn)]
      && s'.past.holder == (if HasItem(turn.next) then s.past.holder else s.past.holder[j := Settled])
      && s'.tasks == s.tasks[w := turn.next]
  {
    AdvanceStores(s, w);
    OffersAfter(s.past, w, s.tasks[w], TurnAt(s, w), s.hubClosed);
  }

  lemma WorkedJob(s: Sys, w: nat)
    requires Holders(s) && JobsOk(s) && w in s.tasks && HasItem(s.tasks[w])
    ensures
      var task, j := s.tasks[w], s.tasks[w].item.job;
      && j in s.past.holder && s.past.holder[j] == AtWorker(w)
      && j in s.store.jobs && j in s.past.offered && TaskFits(task, s.store.jobs[j], s.past.offered[j])
  {
    var j := s.tasks[w].item.job;
    assert s.past.holder[j] == AtWorker(w) && JobOk(s, j);
  }

  /** The job a worker is at, and what its turn makes of it. */
  lemma AdvancedJob(s: Sys, w: nat)
    requires JobStore.StoreOk(s.store) && Holders(s) && JobsOk(s) && CanAdvance(s, w)
    ensures
      var s', task, turn := DoAdvance(s, w), s.tasks[w], TurnAt(s, w);
      var j := task.item.job;
      && j in s.past.holder && s.past.holder[j] == AtWorker(w)
      && j in s.store.jobs && TaskFits(task, s.store.jobs[j], s.past.offered[j])
      && s'.store.jobs == s.store.jobs[j := JobAfter(s.store.jobs[j], turn)]
      && s'.past.offered == s.past.offered[j := EventsAfter(s.past.offered[j], turn)]
      && j in s'.past.holder && JobOk(s', j)
      && (HasItem(turn.next) ==> turn.next.item == task.item)
  {
    var task, j := s.tasks[w], s.tasks[w].item.job;
    WorkedJob(s, w);
    AdvanceEffect(s, w);
    TurnFits(task, s.store.jobs[j], s.past.offered[j], s.users, s.pool.gens[s.pool.workers[w].gen].canceled);
  }

  lemma AdvanceKeepsJobs(s: Sys, w: nat)
    requires JobStore.StoreOk(s.store) && Holders(s) && JobsOk(s) && CanAdvance(s, w)
    ensures JobsOk(DoAdvance(s, w))
  {
    var s', j := DoAdvance(s, w), s.tasks[w].item.job;
    AdvancedJob(s, w);
    forall k | k in s'.past.holder ensures 1 <= k < s'.store.nextID && JobOk(s', k) {
      assert JobOk(s, k);
      if k != j {
        OtherJob(s, s', k);
      }
    }
  }

  lemma AdvanceKeepsHolders(s: Sys, w: nat)
    requires JobStore.StoreOk(s.store) && Holders(s) && JobsOk(s) && CanAdvance(s, w)
    ensures Holders(DoAdvance(s, w))
  {
    AdvancedJob(s, w);
  }

  lemma AdvanceKeepsTaken(s: Sys, w: nat)
    requires JobStore.StoreOk(s.store) && Taken(s) && Holders(s) && JobsOk(s) && CanAdvance(s, w)
    ensures Taken(DoAdvance(s, w))
  {
    var turn, j := TurnAt(s, w), s.tasks[w].item.job;
    assert JobOk(s, j);
    if turn.event.Some? {
      AnnouncedKeepsTaken(s, DoAdvance(s, w), j, turn.event.value);
    }
  }

  /** Making a user, carrying it to the success transition, and reporting it. */
  lemma AdvanceKeepsUsers(s: Sys, w: nat)
    requires JobStore.StoreOk(s.store) && UsersKept(s) && Holders(s) && JobsOk(s) && CanAdvance(s, w)
    ensures UsersKept(DoAdvance(s, w))
  {
    var s', task, turn := DoAdvance(s, w), s.tasks[w], TurnAt(s, w);
    var j := task.item.job;
    AdvancedJob(s, w);
    TurnUser(task, s.store.jobs[j], s.past.offered[j], s.users, s.pool.gens[s.pool.workers[w].gen].canceled);
    AdvancedUsers(s, s', w, task, turn);
  }

  /** How a turn treats the user a worker carries. */
  lemma TurnUser(task: Task, job: Job, events: seq<Status>, users: Users.UserStore, canceled: bool)
    requires HasItem(task) && TaskFits(task, job, events)
    ensures
      var turn := TurnOf(task, Some(job), users, canceled);
      && (turn.saves <==> task.SavingUser? && turn.next.Created?)
      && (turn.saves ==>
            && turn.next == Created(task.item, users.nextID)
            && Users.SaveUser(users, Draft(task.item)).0.nextID == users.nextID + 1)
      && (task.Created? ==> turn.next == Succeeding(task.item, task.user))
      && (turn.next.Created? ==> turn.saves)
      && (turn.next.Succeeding? ==> task == Created(task.item, turn.next.user))
      && (task.Succeeding? ==> JobAfter(job, turn).status == Succeeded && JobAfter(job, turn).result == Some(task.user))
      && (JobAfter(job, turn).status == Succeeded ==> task.Succeeding? || job == JobAfter(job, turn))
      && (job.status == Succeeded ==> task.Announcing? && JobAfter(job, turn) == job)
  {
    OnlyFrom(job.status);
  }

  lemma AdvancedUsers(s: Sys, s': Sys, w: nat, task: Task, turn: Turn)
    requires UsersKept(s) && Holders(s) && HasItem(task) && task.item.job in s.store.jobs
    requires task.item.job in s.past.holder
    requires w in s.tasks && s.tasks[w] == task && s'.tasks == s.tasks[w := turn.next]
    requires s.past.holder[task.item.job] == AtWorker(w)
    requires HasItem(turn.next) ==> turn.next.item == task.item
    requires s'.past.holder == if HasItem(turn.next) then s.past.holder else s.past.holder[task.item.job := Settled]
    requires s'.store.jobs == s.store.jobs[task.item.job := JobAfter(s.store.jobs[task.item.job], turn)]
    requires s'.past.made == if turn.saves then s.past.made[s.users.nextID := task.item.job] else s.past.made
    requires s'.users.nextID == if turn.saves then s.users.nextID + 1 else s.users.nextID
    requires var job := s.store.jobs[task.item.job];
      && (turn.saves ==> turn.next == Created(task.item, s.users.nextID) && task.SavingUser?)
      && (task.Created? ==> turn.next == Succeeding(task.item, task.user))
      && (turn.next.Created? ==> turn.saves)
      && (turn.next.Succeeding? ==> task == Created(task.item, turn.next.user))
      && (task.Succeeding? ==> JobAfter(job, turn).status == Succeeded && JobAfter(job, turn).result == Some(task.user))
      && (JobAfter(job, turn).status == Succeeded ==> task.Succeeding? || job == JobAfter(job, turn))
      && (job.status == Succeeded ==> JobAfter(job, turn) == job)
    ensures UsersKept(s')
  {
    assert forall user :: user in s.past.made ==> UserOk(s, user);
    forall user | user in s'.past.made ensures UserOk(s', user) {
      if user in s.past.made {
        assert UserOk(s, user);
        assert user != s.users.nextID;
        assert s'.past.made[user] == s.past.made[user];
      }
    }
  }

  // -------------------------------------------------------------------- pool

  /** Repair finds only jobs that nobody has started, because no worker is live. */
  lemma RepairHitsWaiting(s: Sys, j: int)
    requires Holders(s) && JobsOk(s) && s.tasks == map[] && j in JobStore.ActiveIds(s.store.jobs)
    ensures s.store.jobs[j].status == Queued && (s.past.holder[j].AtHandler? || s.past.holder[j].InChannel?)
  {
    assert JobOk(s, j);
  }

  lemma RepairKeepsJobs(s: Sys, s': Sys)
    requires JobStore.StoreOk(s.store) && Holders(s) && JobsOk(s) && UsersKept(s) && s.tasks == map[]
    requires s'.tasks == s.tasks && s'.handlers == s.handlers && s'.queue == s.queue && s'.users == s.users
    requires s'.store == JobStore.FailActive(s.store, SHUTDOWN_PROBLEM).0
    requires s'.past == s.past.(repaired := s'.past.repaired)
    ensures JobsOk(s') && Holders(s') && UsersKept(s')
  {
    forall j | j in s'.past.holder ensures 1 <= j < s'.store.nextID && JobOk(s', j) {
      assert JobOk(s, j);
      if j in JobStore.ActiveIds(s.store.jobs) {
        RepairHitsWaiting(s, j);
      } else {
        OtherJob(s, s', j);
      }
    }
    UsersFrame(s, s');
  }

  lemma TasksFrame(s: Sys, s': Sys)
    requires Holders(s) && JobsOk(s) && UsersKept(s)
    requires s' == s.(pool := s'.pool, tasks := s'.tasks)
    requires forall w :: w in s.tasks && HasItem(s.tasks[w]) ==> w in s'.tasks && s'.tasks[w] == s.tasks[w]
    requires forall w :: w in s'.tasks && HasItem(s'.tasks[w]) ==> w in s.tasks && s'.tasks[w] == s.tasks[w]
    ensures JobsOk(s') && Holders(s') && UsersKept(s')
  {
    forall j | j in s'.past.holder ensures 1 <= j < s'.store.nextID && JobOk(s', j) {
      assert JobOk(s, j);
      OtherJob(s, s', j);
    }
    UsersFrame(s, s');
  }

  lemma PoolKeepsJobs(s: Sys, a: WorkerPool.Act)
    requires JobStore.StoreOk(s.store) && Workers(s) && Holders(s) && JobsOk(s) && UsersKept(s) && CanPool(s, a)
    ensures JobsOk(DoPool(s, a)) && Holders(DoPool(s, a)) && UsersKept(DoPool(s, a))
  {
    if a.Repair? {
      PoolKeepsWorkers(s, a);
      RepairKeepsJobs(s, DoPool(s, a));
    } else {
      PoolKeepsTasks(s, a);
      TasksFrame(s, DoPool(s, a));
    }
  }

  // ------------------------------------------------------------------- whole

  lemma EnvKeeps(s: Sys, s': Sys)
    requires Holders(s) && JobsOk(s) && UsersKept(s) && Taken(s)
    requires s' == s.(queue := s'.queue, users := s'.users, httpOpen := s'.httpOpen, hubClosed := s'.hubClosed)
    requires s'.queue.buf == s.queue.buf && s.users.nextID <= s'.users.nextID && (s.hubClosed ==> s'.hubClosed)
    ensures Holders(s') && JobsOk(s') && UsersKept(s') && Taken(s')
  {
    forall j | j in s'.past.holder ensures 1 <= j < s'.store.nextID && JobOk(s', j) {
      assert JobOk(s, j);
      OtherJob(s, s', j);
    }
    UsersFrame(s, s');
  }

  lemma KeepsQueue(s: Sys, a: Act)
    requires Queue.Inv(s.queue) && Can(s, a)
    ensures Queue.Inv(Do(s, a).queue)
  {
    match a
    case Handle(t, ok) =>
      var act := QueueAct(t, s.handlers[t], NextPc(s.handlers[t].pc, s.queue.stopped, ok));
      if act.Some? {
        Queue.KeepsInv(s.queue, act.value);
      }
    case Take(_) => Queue.KeepsInv(s.queue, Queue.Receive);
    case Barrier(qact) => Queue.KeepsInv(s.queue, qact);
    case Accept(_, _, _) =>
    case Advance(_) =>
    case PoolAct(_) =>
    case CloseHttp =>
    case CloseHub =>
    case SyncCreate(_) =>
  }

  predicate JobInv(s: Sys) {
    Holders(s) && JobsOk(s) && UsersKept(s) && Taken(s)
  }

  lemma AcceptKeepsJobInv(s: Sys, t: nat, payload: Queue.Input, owner: int)
    requires JobStore.StoreOk(s.store) && Identities(s) && JobInv(s) && CanAccept(s, t)
    ensures JobInv(DoAccept(s, t, payload, owner))
  {
    AcceptKeepsJobs(s, t, payload, owner);
    AcceptKeepsHolders(s, t, payload, owner);
    AcceptKeepsUsers(s, t, payload, owner);
    AcceptKeepsTaken(s, t, payload, owner);
  }

  lemma HandleKeepsJobInv(s: Sys, t: nat, ok: bool)
    requires JobStore.StoreOk(s.store) && Identities(s) && JobInv(s) && CanHandle(s, t, ok)
    ensures JobInv(DoHandle(s, t, ok))
  {
    HandleKeepsJobs(s, t, ok);
    HandleKeepsHolders(s, t, ok);
    HandleKeepsUsers(s, t, ok);
    HandleKeepsTaken(s, t, ok);
  }

  lemma TakeKeepsJobInv(s: Sys, w: nat)
    requires JobStore.StoreOk(s.store) && Identities(s) && JobInv(s) && CanTake(s, w)
    ensures JobInv(DoTake(s, w))
  {
    TakeKeepsJobs(s, w);
    TakeKeepsHolders(s, w);
    TakeKeepsUsers(s, w);
  }

  lemma AdvanceKeepsJobInv(s: Sys, w: nat)
    requires JobStore.StoreOk(s.store) && Identities(s) && JobInv(s) && CanAdvance(s, w)
    ensures JobInv(DoAdvance(s, w))
  {
    AdvanceKeepsJobs(s, w);
    AdvanceKeepsHolders(s, w);
    AdvanceKeepsUsers(s, w);
    AdvanceKeepsTaken(s, w);
  }

  lemma EnvKeepsJobInv(s: Sys, a: Act)
    requires JobInv(s) && Can(s, a) && (a.Barrier? || a.CloseHttp? || a.CloseHub? || a.SyncCreate?)
    ensures JobInv(Do(s, a))
  {
    EnvKeeps(s, Do(s, a));
  }

  lemma KeepsJobInv(s: Sys, a: Act)
    requires JobStore.StoreOk(s.store) && Workers(s) && Identities(s) && JobInv(s) && Can(s, a)
    ensures JobInv(Do(s, a))
  {
    match a
    case Accept(t, payload, owner) => AcceptKeepsJobInv(s, t, payload, owner);
    case Handle(t, ok) => HandleKeepsJobInv(s, t, ok);
    case Take(w) => TakeKeepsJobInv(s, w);
    case Advance(w) => AdvanceKeepsJobInv(s, w);
    case PoolAct(pact) => PoolKeepsJobs(s, pact);
    case _ => EnvKeepsJobInv(s, a);
  }

  lemma KeepsInv(s: Sys, a: Act)
    requires Inv(s) && Can(s, a)
    ensures Inv(Do(s, a))
  {
    KeepsSafe(s, a);
    KeepsQueue(s, a);
    KeepsJobInv(s, a);
  }

  lemma InvInductive()
    ensures Inductive(Step, Inv)
  {
    forall s, s' | Inv(s) && Step(s, s') ensures Inv(s') {
      var a :| Can(s, a) && s' == Do(s, a);
      KeepsInv(s, a);
    }
  }

  lemma StartsInInv(config: Config)
    ensures Inv(NewSys(config))
  {
  }

  lemma InvOverRuns(run: seq<Sys>, config: Config, i: nat)
    requires IsRun(Step, run) && run[0] == NewSys(config) && i < |run|
    ensures Inv(run[i])
  {
    StartsInInv(config);
    InvInductive();
    HoldsFrom(Step, Inv, run, 0, i);
  }

  // ---------------------------------------------------------------- theorems

  /** Job `j` has succeeded with the user. */
  predicate Reported(s: Sys, user: int, j: int) {
    j in s.store.jobs && s.store.jobs[j].status == Succeeded && s.store.jobs[j].result == Some(user)
  }

  /** Worker `w` is between CreateUser and SetSucceeded with the user. */
  predicate InHand(s: Sys, user: int, w: nat) {
    w in s.tasks && (s.tasks[w].Created? || s.tasks[w].Succeeding?) && s.tasks[w].user == user
  }

  lemma OneJobPerUser(s: Sys, user: int)
    requires Inv(s) && user in s.past.made
    ensures (exists j :: Reported(s, user, j)) <==> !(exists w :: InHand(s, user, w))
    ensures forall j, k :: Reported(s, user, j) && Reported(s, user, k) ==> j == k
    ensures forall v, w :: InHand(s, user, v) && InHand(s, user, w) ==> v == w
  {
    var j := s.past.made[user];
    assert UserOk(s, user) && JobOk(s, j);
    if s.past.holder[j].AtWorker? && Carries(s.tasks[s.past.holder[j].w], user, j) {
      assert InHand(s, user, s.past.holder[j].w);
    } else {
      assert Reported(s, user, j);
    }
  }

  /** Conservation over every run: a user made by a worker has exactly one
      succeeded job carrying its identifier, or is in the hands of exactly one
      worker, never both; and a succeeded job always carries such a user, so
      different succeeded jobs carry different users. */
  lemma UsersAreConserved(run: seq<Sys>, config: Config, i: nat)
    requires IsRun(Step, run) && run[0] == NewSys(config) && i < |run|
    ensures forall user :: user in run[i].past.made ==>
              && ((exists j :: Reported(run[i], user, j)) <==> !(exists w :: InHand(run[i], user, w)))
              && (forall j, k :: Reported(run[i], user, j) && Reported(run[i], user, k) ==> j == k)
              && (forall v, w :: InHand(run[i], user, v) && InHand(run[i], user, w) ==> v == w)
    ensures forall j :: j in run[i].store.jobs && run[i].store.jobs[j].status == Succeeded ==>
              run[i].store.jobs[j].result.Some? && MadeBy(run[i], run[i].store.jobs[j].result.value, j)
  {
    var s := run[i];
    InvOverRuns(run, config, i);
    forall user | user in s.past.made
      ensures (exists j :: Reported(s, user, j)) <==> !(exists w :: InHand(s, user, w))
      ensures forall j, k :: Reported(s, user, j) && Reported(s, user, k) ==> j == k
      ensures forall v, w :: InHand(s, user, v) && InHand(s, user, w) ==> v == w
    {
      OneJobPerUser(s, user);
    }
  }

  /** In every reachable state a worker that holds a user gets its success
      recorded: neither the service's check nor the compare-and-set fails. */
  lemma SetSucceededNeverFails(run: seq<Sys>, config: Config, i: nat, w: nat)
    requires IsRun(Step, run) && run[0] == NewSys(config) && i < |run|
    requires CanAdvance(run[i], w) && (run[i].tasks[w].Created? || run[i].tasks[w].Succeeding?)
    ensures
      var s, task := run[i], run[i].tasks[w];
      var s' := DoAdvance(s, w);
      && (task.Created? ==> s'.tasks[w] == Succeeding(task.item, task.user))
      && (task.Succeeding? ==>
            s'.tasks[w] == Announcing(task.item, task.user) && Reported(s', task.user, task.item.job))
  {
    var s, task := run[i], run[i].tasks[w];
    InvOverRuns(run, config, i);
    AdvancedJob(s, w);
    SuccessIsNeverRefused(task, s.store.jobs[task.item.job], s.past.offered[task.item.job], s.users,
                          s.pool.gens[s.pool.workers[w].gen].canceled);
  }

  predicate InOrder(events: seq<Status>) {
    events <= [Queued, Running, Succeeded] || events <= [Queued, Running, Failed] || events <= [Queued, Failed]
  }

  /** The events say nothing that the stored status does not bear out. */
  predicate NotAhead(events: seq<Status>, status: Status) {
    && (Running in events ==> status != Queued)
    && (Succeeded in events ==> status == Succeeded)
    && (Failed in events ==> status == Failed)
  }

  lemma EventsFit(s: Sys, j: int)
    requires Inv(s) && j in s.past.holder
    ensures j in s.past.offered && j in s.past.taken && s.past.taken[j] <= s.past.offered[j]
    ensures InOrder(s.past.offered[j]) && InOrder(s.past.taken[j])
    ensures j in s.store.jobs ==>
              NotAhead(s.past.offered[j], s.store.jobs[j].status) && NotAhead(s.past.taken[j], s.store.jobs[j].status)
  {
    assert JobOk(s, j);
    var events := s.past.offered[j];
    assert events in {[], [Queued], [Queued, Running], [Queued, Failed]}
           || events in {[Queued, Running, Succeeded], [Queued, Running, Failed]};
    assert InOrder(events);
    assert forall e :: e in s.past.taken[j] ==> e in events;
  }

  /** Event order over every run: the log of each job, whether or not the hub is
      closed along the way, is a prefix of queued-running-succeeded,
      queued-running-failed or queued-failed, and never ahead of the repository. */
  lemma EventOrder(run: seq<Sys>, config: Config, i: nat, j: int)
    requires IsRun(Step, run) && run[0] == NewSys(config) && i < |run| && 1 <= j < run[i].store.nextID
    ensures
      var s := run[i];
      && j in s.past.taken && InOrder(s.past.taken[j])
      && (j in s.store.jobs ==> NotAhead(s.past.taken[j], s.store.jobs[j].status))
      && j in s.past.offered && (!s.hubClosed ==> s.past.taken[j] == s.past.offered[j])
  {
    InvOverRuns(run, config, i);
    IssuedHaveHolders(run, config, i);
    EventsFit(run[i], j);
  }

  /** Every identifier issued so far is accounted for. */
  lemma {:induction false} IssuedHaveHolders(run: seq<Sys>, config: Config, i: nat)
    requires IsRun(Step, run) && run[0] == NewSys(config) && i < |run|
    ensures forall j :: 1 <= j < run[i].store.nextID ==> j in run[i].past.holder
    decreases i
  {
    if i > 0 {
      IssuedHaveHolders(run, config, i - 1);
      InvOverRuns(run, config, i - 1);
      assert Step(run[i - 1], run[i]);
      var a :| Can(run[i - 1], a) && run[i] == Do(run[i - 1], a);
      IssuedStep(run[i - 1], a);
    }
  }

  lemma IssuedStep(s: Sys, a: Act)
    requires Can(s, a) && forall j :: 1 <= j < s.store.nextID ==> j in s.past.holder
    ensures forall j :: 1 <= j < Do(s, a).store.nextID ==> j in Do(s, a).past.holder
  {
  }
}
