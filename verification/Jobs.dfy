/** The job entity and its transition table (internal/entity/job.go). */
module Jobs {
  import opened Runs

  datatype Status = Queued | Running | Succeeded | Failed

  /** The source's intents are strings; `Other` stands for any text that is not in the table. */
  datatype Intent = Start | Succeed | Fail | Other(name: string)

  datatype TransitionSpec = TransitionSpec(intent: Intent, from: seq<Status>, to: Status)

  const TRANSITIONS: map<Intent, TransitionSpec> :=
    map[
      Start := TransitionSpec(Start, [Queued], Running),
      Succeed := TransitionSpec(Succeed, [Running], Succeeded),
      Fail := TransitionSpec(Fail, [Queued, Running], Failed)
    ]

  predicate IsTerminal(s: Status) {
    s == Succeeded || s == Failed
  }

  function TransitionFor(intent: Intent): Option<TransitionSpec> {
    if intent in TRANSITIONS then Some(TRANSITIONS[intent]) else None
  }

  predicate CanTransition(from: Status, intent: Intent) {
    match TransitionFor(intent)
    case None => false
    case Some(spec) => from in spec.from
  }

  datatype InvalidParam = InvalidParam(name: string, reason: string)

  datatype Problem = Problem(title: string, detail: string, status: int, invalidParams: seq<InvalidParam>)

  datatype Job = Job(id: int, status: Status, result: Option<int>, error: Option<Problem>, owner: int)

  /** A job carries a result exactly when it succeeded and a problem exactly when it failed. */
  predicate Agrees(job: Job) {
    && (job.result.Some? <==> job.status == Succeeded)
    && (job.error.Some? <==> job.status == Failed)
  }

  /** How far a job has come; every legal transition moves strictly up. */
  function Rank(s: Status): nat {
    match s
    case Queued => 0
    case Running => 1
    case Succeeded => 2
    case Failed => 2
  }

  lemma TransitionsClimb(from: Status, intent: Intent)
    requires CanTransition(from, intent)
    ensures TransitionFor(intent).Some?
    ensures Rank(from) < Rank(TransitionFor(intent).value.to)
  {
    var spec := TransitionFor(intent).value;
    assert intent == Start ==> spec == TransitionSpec(Start, [Queued], Running);
    assert intent == Succeed ==> spec == TransitionSpec(Succeed, [Running], Succeeded);
    assert intent == Fail ==> spec == TransitionSpec(Fail, [Queued, Running], Failed);
  }

  /** The states called terminal are exactly those no intent leads out of. */
  lemma TerminalIffStuck(s: Status)
    ensures IsTerminal(s) <==> forall intent :: !CanTransition(s, intent)
  {
    if s == Queued {
      assert CanTransition(s, Start);
    } else if s == Running {
      assert CanTransition(s, Succeed);
    } else {
      forall intent ensures !CanTransition(s, intent) {
        if CanTransition(s, intent) {
          TransitionsClimb(s, intent);
        }
      }
    }
  }

  const SHUTDOWN_PROBLEM :=
    Problem("service unavailable", "job canceled: server shutting down", 503, [])
}
