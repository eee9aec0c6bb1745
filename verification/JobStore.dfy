/** The job repository contract as the map-backed repository implements it
    (internal/store/jobrepo/memory_job_repo.go), and the service's
    check-then-compare-and-set on top of it (internal/service/jobService.go). */
module JobStore {
  import opened Runs
  import opened Jobs

  datatype Store = Store(jobs: map<int, Job>, nextID: int)

  const EMPTY_STORE := Store(map[], 1)

  /** The three guarded updates, each with the data it writes. */
  datatype Change = ToRunning | ToSucceeded(user: int) | ToFailed(problem: Problem)

  function IntentOf(change: Change): Intent {
    match change
    case ToRunning => Start
    case ToSucceeded(_) => Succeed
    case ToFailed(_) => Fail
  }

  function Changed(job: Job, change: Change): Job {
    match change
    case ToRunning => job.(status := Running, result := None, error := None)
    case ToSucceeded(user) => job.(status := Succeeded, result := Some(user), error := None)
    case ToFailed(problem) => job.(status := Failed, result := None, error := Some(problem))
  }

  datatype Reply = Done | NotFound | Conflict(id: int, from: Status, to: Status, intent: Intent)

  function ConflictFor(id: int, from: Status, change: Change): Reply {
    Conflict(id, from, TRANSITIONS[IntentOf(change)].to, IntentOf(change))
  }

  /** `Save` of a job whose ID is zero. */
  function Insert(st: Store, job: Job): Store {
    Store(st.jobs[st.nextID := job.(id := st.nextID)], st.nextID + 1)
  }

  function Remove(st: Store, id: int): (Store, Reply) {
    if id !in st.jobs then (st, NotFound) else (st.(jobs := st.jobs - {id}), Done)
  }

  function Move(st: Store, id: int, change: Change): (Store, Reply) {
    if id !in st.jobs then (st, NotFound)
    else if !CanTransition(st.jobs[id].status, IntentOf(change)) then
      (st, ConflictFor(id, st.jobs[id].status, change))
    else (st.(jobs := st.jobs[id := Changed(st.jobs[id], change)]), Done)
  }

  predicate Active(job: Job) {
    job.status == Queued || job.status == Running
  }

  function ActiveIds(jobs: map<int, Job>): set<int> {
    set id | id in jobs && Active(jobs[id])
  }

  function FailedIn(jobs: map<int, Job>, which: set<int>, problem: Problem): map<int, Job> {
    map id | id in jobs :: if id in which then Changed(jobs[id], ToFailed(problem)) else jobs[id]
  }

  function FailActive(st: Store, problem: Problem): (Store, nat) {
    var ids := ActiveIds(st.jobs);
    (st.(jobs := FailedIn(st.jobs, ids, problem)), |ids|)
  }

  datatype Op = Save(draft: Job) | Delete(id: int) | Set(id: int, change: Change) | FailAll(problem: Problem)

  datatype Answer = Saved(id: int) | Replied(reply: Reply) | Repaired(count: nat)

  function Exec(st: Store, op: Op): (Store, Answer) {
    match op
    case Save(draft) => (Insert(st, draft), Saved(st.nextID))
    case Delete(id) => var (st', r) := Remove(st, id); (st', Replied(r))
    case Set(id, change) => var (st', r) := Move(st, id, change); (st', Replied(r))
    case FailAll(problem) => var (st', n) := FailActive(st, problem); (st', Repaired(n))
  }

  /** The operations of `ops`, one after the other. */
  function ExecAll(st: Store, ops: seq<Op>): (Store, seq<Answer>)
    decreases ops
  {
    if ops == [] then (st, [])
    else
      var (st1, a) := Exec(st, ops[0]);
      var (st2, rest) := ExecAll(st1, ops[1..]);
      (st2, [a] + rest)
  }

  predicate StoreOk(st: Store) {
    && 1 <= st.nextID
    && forall id :: id in st.jobs ==> 1 <= id < st.nextID && st.jobs[id].id == id && Agrees(st.jobs[id])
  }

  /** Saved drafts have to be consistent; the handlers save `Job{Status: queued}`. */
  predicate OpOk(op: Op) {
    op.Save? ==> Agrees(op.draft)
  }

  predicate OpsOk(ops: seq<Op>) {
    forall i :: 0 <= i < |ops| ==> OpOk(ops[i])
  }

  /** One operation, seen from one job: it is untouched, inserted, deleted, or
      moved along one edge of the transition table. */
  lemma ExecOne(st: Store, op: Op, id: int)
    requires StoreOk(st) && OpOk(op)
    ensures StoreOk(Exec(st, op).0) && st.nextID <= Exec(st, op).0.nextID
    ensures
      var jobs, after := st.jobs, Exec(st, op).0.jobs;
      || (id !in jobs && id !in after)
      || (id !in jobs && id in after && op.Save? && id == st.nextID && after[id] == op.draft.(id := id))
      || (id in jobs && id !in after && op == Delete(id))
      || (id in jobs && id in after && after[id] == jobs[id])
      || (id in jobs && id in after && Rank(jobs[id].status) < Rank(after[id].status)
          && exists intent :: CanTransition(jobs[id].status, intent)
                              && TransitionFor(intent).value.to == after[id].status)
  {
    match op
    case Save(draft) =>
    case Delete(_) =>
    case Set(target, change) =>
      if target == id && id in st.jobs && CanTransition(st.jobs[id].status, IntentOf(change)) {
        TransitionsClimb(st.jobs[id].status, IntentOf(change));
        assert TransitionFor(IntentOf(change)).value.to == Changed(st.jobs[id], change).status;
      }
    case FailAll(problem) =>
      if id in st.jobs && Active(st.jobs[id]) {
        assert CanTransition(st.jobs[id].status, Fail);
      }
  }

  /** How often the status of job `id` changes while `ops` run. */
  function StatusChanges(st: Store, ops: seq<Op>, id: int): nat
    decreases ops
  {
    if ops == [] then 0
    else
      var st' := Exec(st, ops[0]).0;
      (if id in st.jobs && id in st'.jobs && st'.jobs[id].status != st.jobs[id].status then 1 else 0)
      + StatusChanges(st', ops[1..], id)
  }

  /** Whatever runs, a job makes at most two transitions over its lifetime, and
      no more than its rank has left to climb. */
  lemma {:induction false} AtMostTwoTransitions(st: Store, ops: seq<Op>, id: int)
    requires StoreOk(st) && OpsOk(ops)
    ensures StatusChanges(st, ops, id) <= 2
    ensures id in st.jobs ==> StatusChanges(st, ops, id) <= 2 - Rank(st.jobs[id].status)
    ensures id !in st.jobs && id < st.nextID ==> StatusChanges(st, ops, id) == 0
    decreases ops
  {
    if ops != [] {
      ExecOne(st, ops[0], id);
      AtMostTwoTransitions(Exec(st, ops[0]).0, ops[1..], id);
    }
  }

  lemma {:induction false} ExecAllOk(st: Store, ops: seq<Op>)
    requires StoreOk(st) && OpsOk(ops)
    ensures StoreOk(ExecAll(st, ops).0) && st.nextID <= ExecAll(st, ops).0.nextID
    decreases ops
  {
    if ops != [] {
      ExecOne(st, ops[0], 0);
      ExecAllOk(Exec(st, ops[0]).0, ops[1..]);
    }
  }

  /** Ranks never fall, identifiers are never handed out twice, and a terminal
      job is frozen: later on it is either gone or bit for bit the same. */
  lemma {:induction false} LaterJob(st: Store, ops: seq<Op>, id: int)
    requires StoreOk(st) && OpsOk(ops) && id < st.nextID
    ensures var later := ExecAll(st, ops).0.jobs;
      id in later ==>
        && id in st.jobs
        && Rank(st.jobs[id].status) <= Rank(later[id].status)
        && (IsTerminal(st.jobs[id].status) || later[id].status == st.jobs[id].status ==> later[id] == st.jobs[id])
    decreases ops
  {
    if ops != [] {
      ExecOne(st, ops[0], id);
      LaterJob(Exec(st, ops[0]).0, ops[1..], id);
    }
  }

  /** `JobService.transition`: read and check, then the repository's guarded
      update, with the operations in `between` of other goroutines in the gap. */
  function ServiceMove(st: Store, id: int, change: Change, between: seq<Op>): (Store, Reply) {
    if id !in st.jobs then (st, NotFound)
    else if !CanTransition(st.jobs[id].status, IntentOf(change)) then
      (st, ConflictFor(id, st.jobs[id].status, change))
    else Move(ExecAll(st, between).0, id, change)
  }

  /** Under any interference a successful call is one legal step of that one job
      in the state the update found; a call refused by the update leaves what the
      others did, and one refused by the check leaves what it read. */
  lemma ServiceMoveIsOneStepOrNone(st: Store, id: int, change: Change, between: seq<Op>)
    requires StoreOk(st) && OpsOk(between)
    ensures
      var (after, reply) := ServiceMove(st, id, change, between);
      var found := ExecAll(st, between).0;
      if reply == Done then
        && id in found.jobs && CanTransition(found.jobs[id].status, IntentOf(change))
        && after == found.(jobs := found.jobs[id := Changed(found.jobs[id], change)])
        && Rank(found.jobs[id].status) < Rank(after.jobs[id].status)
        && StoreOk(after)
      else after == if id in st.jobs && CanTransition(st.jobs[id].status, IntentOf(change)) then found else st
  {
    var (after, reply) := ServiceMove(st, id, change, between);
    var found := ExecAll(st, between).0;
    ExecAllOk(st, between);
    if reply == Done {
      ExecOne(found, Set(id, change), id);
      TransitionsClimb(found.jobs[id].status, IntentOf(change));
    }
  }

  /** The pre-check costs a caller a transition that the guarded update would have
      won in exactly two cases, both visible at the read: the job is not stored
      yet, or success is asked of a job that is still queued. */
  lemma PrecheckExact(st: Store, id: int, change: Change, between: seq<Op>)
    requires StoreOk(st) && OpsOk(between)
    ensures
      ServiceMove(st, id, change, between).1 == Done
      <==>
      && Move(ExecAll(st, between).0, id, change).1 == Done
      && id in st.jobs && !(change.ToSucceeded? && st.jobs[id].status == Queued)
  {
    assert forall s :: CanTransition(s, IntentOf(change)) <==>
             match change
             case ToRunning => s == Queued
             case ToSucceeded(_) => s == Running
             case ToFailed(_) => s == Queued || s == Running;
    if id in st.jobs {
      assert id < st.nextID;
      LaterJob(st, between, id);
    }
  }

  /** What a refused update reports: a missing job, or the status it found, the
      status it would have written and the transition that was asked for. */
  lemma RefusalTells(st: Store, id: int, change: Change)
    ensures
      var reply := Move(st, id, change).1;
      if id !in st.jobs then reply == NotFound
      else if CanTransition(st.jobs[id].status, IntentOf(change)) then reply == Done
      else reply == Conflict(id, st.jobs[id].status, Changed(st.jobs[id], change).status, IntentOf(change))
    ensures ServiceMove(st, id, change, []).1 == Move(st, id, change).1
  {
    assert ExecAll(st, []).0 == st;
  }

  lemma ExecAllOfOne(st: Store, op: Op)
    ensures ExecAll(st, [op]).0 == Exec(st, op).0
  {
    assert [op][1..] == [];
  }

  /** The second case is real: the job starts running after the read. */
  lemma PrecheckExceptionIsReachable()
    ensures
      var job := Job(0, Queued, None, None, 7);
      var st := Insert(EMPTY_STORE, job);
      && StoreOk(st)
      && Move(ExecAll(st, [Set(1, ToRunning)]).0, 1, ToSucceeded(3)).1 == Done
      && ServiceMove(st, 1, ToSucceeded(3), [Set(1, ToRunning)]).1 != Done
  {
    assert CanTransition(Queued, Start) && CanTransition(Running, Succeed) && !CanTransition(Queued, Succeed);
    ExecAllOfOne(Insert(EMPTY_STORE, Job(0, Queued, None, None, 7)), Set(1, ToRunning));
  }

  /** So is the first: the job is saved after the read. */
  lemma PrecheckMissesALaterSave()
    ensures
      var save := Save(Job(0, Queued, None, None, 7));
      && Move(ExecAll(EMPTY_STORE, [save]).0, 1, ToRunning).1 == Done
      && ServiceMove(EMPTY_STORE, 1, ToRunning, [save]).1 == NotFound
  {
    assert CanTransition(Queued, Start);
    ExecAllOfOne(EMPTY_STORE, Save(Job(0, Queued, None, None, 7)));
  }

  lemma FailNone(jobs: map<int, Job>, problem: Problem)
    ensures ActiveIds(jobs) - jobs.Keys == {} && FailedIn(jobs, {}, problem) == jobs
  {
  }

  lemma FailNext(jobs: map<int, Job>, todo: set<int>, id: int, problem: Problem)
    requires id in todo && todo <= jobs.Keys
    ensures FailedIn(jobs, ActiveIds(jobs) - todo, problem)[id] == jobs[id]
    ensures
      var done, done' := ActiveIds(jobs) - todo, ActiveIds(jobs) - (todo - {id});
      if Active(jobs[id]) then
        && FailedIn(jobs, done', problem) == FailedIn(jobs, done, problem)[id := Changed(jobs[id], ToFailed(problem))]
        && |done'| == |done| + 1
      else done' == done
  {
    var done, done' := ActiveIds(jobs) - todo, ActiveIds(jobs) - (todo - {id});
    if Active(jobs[id]) {
      assert done' == done + {id};
    } else {
      assert done' == done;
    }
  }

  /** The repository object: a map of jobs and the next identifier, both behind one mutex. */
  class MemoryJobRepository {
    var jobs: map<int, Job>
    var nextID: int

    ghost function State(): Store reads this {
      Store(jobs, nextID)
    }

    constructor ()
      ensures State() == EMPTY_STORE
    {
      jobs, nextID := map[], 1;
    }

    /** Only the zero form hands out an identifier; an explicit one overwrites
        and leaves the counter alone. */
    method Save(job: Job) returns (saved: Job)
      modifies this
      ensures job.id == 0 ==> State() == Insert(old(State()), job) && saved == job.(id := old(nextID))
      ensures job.id != 0 ==> State() == Store(old(jobs)[job.id := job], old(nextID)) && saved == job
    {
      saved := job;
      if saved.id == 0 {
        saved := saved.(id := nextID);
        nextID := nextID + 1;
      }
      jobs := jobs[saved.id := saved];
    }

    method GetByID(id: int) returns (job: Option<Job>)
      ensures job == if id in jobs then Some(jobs[id]) else None
    {
      if id !in jobs {
        return None;
      }
      return Some(jobs[id]);
    }

    method Delete(id: int) returns (reply: Reply)
      modifies this
      ensures (State(), reply) == Remove(old(State()), id)
    {
      if id !in jobs {
        return NotFound;
      }
      jobs := jobs - {id};
      return Done;
    }

    method Transition(id: int, change: Change) returns (reply: Reply)
      modifies this
      ensures (State(), reply) == Move(old(State()), id, change)
    {
      if id !in jobs {
        return NotFound;
      }
      if !CanTransition(jobs[id].status, IntentOf(change)) {
        return ConflictFor(id, jobs[id].status, change);
      }
      jobs := jobs[id := Changed(jobs[id], change)];
      return Done;
    }

    /** One turn of the loop: `before` is the map it started from, `todo` what it
        has not come to yet. */
    method FailOne(id: int, problem: Problem, ghost before: map<int, Job>, ghost todo: set<int>) returns (hit: bool)
      requires id in todo && todo <= before.Keys
      requires jobs == FailedIn(before, ActiveIds(before) - todo, problem)
      modifies this`jobs
      ensures jobs == FailedIn(before, ActiveIds(before) - (todo - {id}), problem)
      ensures |ActiveIds(before) - (todo - {id})| == |ActiveIds(before) - todo| + if hit then 1 else 0
    {
      FailNext(before, todo, id, problem);
      if jobs[id].status != Queued && jobs[id].status != Running {
        return false;
      }
      jobs := jobs[id := jobs[id].(status := Failed, error := Some(problem), result := None)];
      return true;
    }

    /** The loop over the map, in any order. */
    method FailActiveJobs(problem: Problem) returns (failed: nat)
      modifies this
      ensures (State(), failed) == FailActive(old(State()), problem)
    {
      ghost var before := jobs;
      var todo: set<int> := jobs.Keys;
      failed := 0;
      FailNone(before, problem);
      while todo != {}
        invariant todo <= before.Keys && nextID == old(nextID)
        invariant jobs == FailedIn(before, ActiveIds(before) - todo, problem)
        invariant failed == |ActiveIds(before) - todo|
        decreases todo
      {
        HasMember(todo);
        var id: int :| id in todo;
        var hit := FailOne(id, problem, before, todo);
        todo := todo - {id};
        if hit {
          failed := failed + 1;
        }
      }
      assert ActiveIds(before) - todo == ActiveIds(before);
    }

    method Apply(op: Op) returns (answer: Answer)
      requires op.Save? ==> op.draft.id == 0
      modifies this
      ensures (State(), answer) == Exec(old(State()), op)
    {
      match op
      case Save(draft) =>
        var saved := Save(draft);
        return Saved(saved.id);
      case Delete(id) =>
        var r := Delete(id);
        return Replied(r);
      case Set(id, change) =>
        var r := Transition(id, change);
        return Replied(r);
      case FailAll(problem) =>
        var n := FailActiveJobs(problem);
        return Repaired(n);
    }
  }

  class JobService {
    const repo: MemoryJobRepository

    constructor (repo: MemoryJobRepository)
      ensures this.repo == repo
    {
      this.repo := repo;
    }

    /** `between` is what other goroutines do to the repository after the read. */
    method Transition(id: int, change: Change, between: seq<Op>) returns (reply: Reply)
      requires forall i :: 0 <= i < |between| && between[i].Save? ==> between[i].draft.id == 0
      modifies repo
      ensures (repo.State(), reply) == ServiceMove(old(repo.State()), id, change, between)
    {
      var job := repo.GetByID(id);
      if job.None? {
        return NotFound;
      }
      if !CanTransition(job.value.status, IntentOf(change)) {
        return ConflictFor(id, job.value.status, change);
      }
      var i := 0;
      while i < |between|
        invariant 0 <= i <= |between|
        invariant ExecAll(repo.State(), between[i..]).0 == ExecAll(old(repo.State()), between).0
      {
        var _ := repo.Apply(between[i]);
        assert between[i..][1..] == between[i + 1..];
        i := i + 1;
      }
      assert between[i..] == [];
      reply := repo.Transition(id, change);
    }
  }
}
