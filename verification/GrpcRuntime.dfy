/** The gRPC runtime's lifecycle (internal/transport/grpcserver/runtime.go). The
    server's Serve and GracefulStop are steps that may happen at any time they
    are under way; Start, Shutdown and the serving goroutine interleave. */
module GrpcRuntime {
  import opened Runs

  datatype State = New | Running | Stopping | Stopped

  datatype ServeErr = NoErr | ServerStopped | OtherErr(code: int)

  /** The goroutine Start spawns: inside Serve, returned from it, and past
      finishServe. */
  datatype Serving = NotStarted | InServe | ServeReturned(err: ServeErr) | Finished

  /** The goroutine behind the shutdown once-guard. */
  datatype Graceful = NotSpawned | InGracefulStop | ReadyToClose | ClosedGraceful

  /** A Shutdown call. `ClosingUnstarted` is the caller that moved a fresh runtime
      to stopped and has yet to close `done`. */
  datatype Caller =
    | ClosingUnstarted
    | AtOnce
    | Waiting
    | Forced
    | AwaitDone(timedOut: bool)
    | Returned(timedOut: bool)

  /** `doneCloses`, `gracefulCloses` and `errWrites` count events. */
  datatype Runtime = Runtime(
    state: State,
    err: ServeErr,
    serving: Serving,
    graceful: Graceful,
    doneOnce: bool,
    callers: map<nat, Caller>,
    doneCloses: nat,
    gracefulCloses: nat,
    errWrites: nat)

  const NEW_RUNTIME := Runtime(New, NoErr, NotStarted, NotSpawned, false, map[], 0, 0, 0)

  predicate DoneClosed(r: Runtime) {
    r.doneCloses > 0
  }

  predicate GracefulClosed(r: Runtime) {
    r.gracefulCloses > 0
  }

  predicate WasStarted(r: Runtime) {
    !r.serving.NotStarted?
  }

  datatype Act =
    | Start
    | ServeReturns(err: ServeErr)
    | FinishServe
    | BeginShutdown(t: nat)
    | CloseUnstarted(t: nat)
    | SpawnGraceful(t: nat)
    | GracefulReturns
    | CloseGraceful
    | SeeGraceful(t: nat)
    | Timeout(t: nat)
    | SeeGracefulForced(t: nat)
    | SeeDone(t: nat)

  predicate Can(r: Runtime, a: Act) {
    match a
    case Start => true
    case ServeReturns(_) => r.serving.InServe?
    case FinishServe => r.serving.ServeReturned?
    case BeginShutdown(t) => t !in r.callers
    case CloseUnstarted(t) => t in r.callers && r.callers[t].ClosingUnstarted?
    case SpawnGraceful(t) => t in r.callers && r.callers[t].AtOnce?
    case GracefulReturns => r.graceful.InGracefulStop?
    case CloseGraceful => r.graceful.ReadyToClose?
    case SeeGraceful(t) => t in r.callers && r.callers[t].Waiting? && GracefulClosed(r)
    case Timeout(t) => t in r.callers && r.callers[t].Waiting?
    case SeeGracefulForced(t) => t in r.callers && r.callers[t].Forced? && GracefulClosed(r)
    case SeeDone(t) => t in r.callers && r.callers[t].AwaitDone? && DoneClosed(r)
  }

  /** The once-guarded close of `done`. */
  function CloseDone(r: Runtime): Runtime {
    if r.doneOnce then r else r.(doneOnce := true, doneCloses := r.doneCloses + 1)
  }

  /** Only a failure while running counts; a stopped server is no failure. */
  predicate Fatal(r: Runtime)
    requires r.serving.ServeReturned?
  {
    r.serving.err.OtherErr? && r.state == Running
  }

  function DoFinishServe(r: Runtime): Runtime
    requires r.serving.ServeReturned?
  {
    CloseDone(r.(err := if Fatal(r) then r.serving.err else r.err,
                 errWrites := if Fatal(r) then r.errWrites + 1 else r.errWrites,
                 state := Stopped,
                 serving := Finished))
  }

  function DoBeginShutdown(r: Runtime, t: nat): Runtime {
    match r.state
    case New => r.(state := Stopped, callers := r.callers[t := ClosingUnstarted])
    case Running => r.(state := Stopping, callers := r.callers[t := AtOnce])
    case Stopping => r.(callers := r.callers[t := AtOnce])
    case Stopped => r.(callers := r.callers[t := Returned(false)])
  }

  function Do(r: Runtime, a: Act): Runtime
    requires Can(r, a)
  {
    match a
    case Start => if r.state == New then r.(state := Running, serving := InServe) else r
    case ServeReturns(err) => r.(serving := ServeReturned(err))
    case FinishServe => DoFinishServe(r)
    case BeginShutdown(t) => DoBeginShutdown(r, t)
    case CloseUnstarted(t) => CloseDone(r.(callers := r.callers[t := Returned(false)]))
    case SpawnGraceful(t) =>
      r.(graceful := if r.graceful.NotSpawned? then InGracefulStop else r.graceful, callers := r.callers[t := Waiting])
    case GracefulReturns => r.(graceful := ReadyToClose)
    case CloseGraceful => r.(graceful := ClosedGraceful, gracefulCloses := r.gracefulCloses + 1)
    case SeeGraceful(t) => r.(callers := r.callers[t := AwaitDone(false)])
    case Timeout(t) => r.(callers := r.callers[t := Forced])
    case SeeGracefulForced(t) => r.(callers := r.callers[t := AwaitDone(true)])
    case SeeDone(t) => r.(callers := r.callers[t := Returned(r.callers[t].timedOut)])
  }

  ghost predicate Step(r: Runtime, r': Runtime) {
    exists a :: Can(r, a) && r' == Do(r, a)
  }

  // --------------------------------------------------------------- invariant

  predicate LifecycleOk(r: Runtime) {
    && (r.state == New ==> r.serving.NotStarted? && r.doneCloses == 0)
    && (r.state == Running || r.state == Stopping ==> r.serving.InServe? || r.serving.ServeReturned?)
    && (r.state == Stopped && WasStarted(r) ==> r.serving.Finished?)
    && (r.serving.Finished? ==> r.state == Stopped && DoneClosed(r))
  }

  predicate ClosesOk(r: Runtime) {
    && r.doneCloses == (if r.doneOnce then 1 else 0)
    && r.gracefulCloses == (if r.graceful.ClosedGraceful? then 1 else 0)
    && (r.err == NoErr <==> r.errWrites == 0) && r.errWrites <= 1
    && (r.errWrites > 0 ==> r.serving.Finished?)
    && (WasStarted(r) && DoneClosed(r) ==> r.serving.Finished?)
  }

  predicate CallerOk(r: Runtime, c: Caller) {
    match c
    case ClosingUnstarted => r.state == Stopped && !WasStarted(r) && !DoneClosed(r)
    case Returned(_) => r.state == Stopped && (WasStarted(r) ==> DoneClosed(r))
    case AwaitDone(_) => WasStarted(r) && GracefulClosed(r)
    case AtOnce => WasStarted(r)
    case Waiting => WasStarted(r) && !r.graceful.NotSpawned?
    case Forced => WasStarted(r) && !r.graceful.NotSpawned?
  }

  /** A runtime that was shut down before it was started has one caller that is
      still to close `done`, until it has closed it. */
  predicate UnstartedOk(r: Runtime) {
    && (forall t, u ::
          t in r.callers && u in r.callers && r.callers[t].ClosingUnstarted? && r.callers[u].ClosingUnstarted? ==>
          t == u)
    && (r.state == Stopped && !WasStarted(r) && !DoneClosed(r) ==>
          exists t :: t in r.callers && r.callers[t].ClosingUnstarted?)
  }

  predicate Inv(r: Runtime) {
    && LifecycleOk(r) && ClosesOk(r) && UnstartedOk(r)
    && forall t :: t in r.callers ==> CallerOk(r, r.callers[t])
  }

  function Rank(s: State): nat {
    match s
    case New => 0
    case Running => 1
    case Stopping => 2
    case Stopped => 3
  }

  lemma KeepsUnstarted(r: Runtime, a: Act)
    requires Inv(r) && Can(r, a)
    ensures UnstartedOk(Do(r, a))
  {
    var r' := Do(r, a);
    if r'.state == Stopped && !WasStarted(r') && !DoneClosed(r') {
      if a.BeginShutdown? && r.state == New {
        assert r'.callers[a.t].ClosingUnstarted?;
      } else {
        var t :| t in r.callers && r.callers[t].ClosingUnstarted?;
        assert t in r'.callers && r'.callers[t].ClosingUnstarted?;
      }
    }
  }

  lemma KeepsInv(r: Runtime, a: Act)
    requires Inv(r) && Can(r, a)
    ensures Inv(Do(r, a))
  {
    KeepsUnstarted(r, a);
  }

  lemma InvInductive()
    ensures Inductive(Step, Inv)
  {
    forall r, r' | Inv(r) && Step(r, r') ensures Inv(r') {
      var a :| Can(r, a) && r' == Do(r, a);
      KeepsInv(r, a);
    }
  }

  /** Nothing about the past is taken back. */
  ghost predicate After(r: Runtime, r': Runtime) {
    && Rank(r.state) <= Rank(r'.state)
    && r.doneCloses <= r'.doneCloses && r.gracefulCloses <= r'.gracefulCloses && r.errWrites <= r'.errWrites
    && (r.errWrites > 0 || DoneClosed(r) ==> r'.err == r.err)
  }

  lemma AfterAct(r: Runtime, a: Act)
    requires Inv(r) && Can(r, a)
    ensures After(r, Do(r, a))
  {
  }

  lemma AfterTransitive(r0: Runtime, r: Runtime, r': Runtime)
    requires After(r0, r) && After(r, r')
    ensures After(r0, r')
  {
  }

  lemma AfterStep(r0: Runtime, r: Runtime, r': Runtime)
    requires Inv(r) && After(r0, r) && Step(r, r')
    ensures After(r0, r')
  {
    var a :| Can(r, a) && r' == Do(r, a);
    AfterAct(r, a);
    AfterTransitive(r0, r, r');
  }

  /** Lifecycle over every run: the state only moves forward, each channel is
      closed at most once, the error is written at most once and never again
      after `done` has closed. */
  lemma {:induction false} Lifecycle(run: seq<Runtime>, i: nat, j: nat)
    requires IsRun(Step, run) && run[0] == NEW_RUNTIME && i <= j < |run|
    ensures After(run[i], run[j])
    ensures run[j].doneCloses <= 1 && run[j].gracefulCloses <= 1 && run[j].errWrites <= 1
    ensures run[j].err != NoErr <==> run[j].errWrites == 1
    decreases j
  {
    InvInductive();
    HoldsFrom(Step, Inv, run, 0, j);
    if i < j {
      Lifecycle(run, i, j - 1);
      HoldsFrom(Step, Inv, run, 0, i);
      HoldsFrom(Step, Inv, run, 0, j - 1);
      assert Step(run[j - 1], run[j]);
      AfterStep(run[i], run[j - 1], run[j]);
    }
  }

  /** For a started runtime, a Shutdown call that has returned, however it went,
      has seen the serving goroutine through to its end. */
  lemma ShutdownOutlivesServe(run: seq<Runtime>, i: nat, t: nat)
    requires IsRun(Step, run) && run[0] == NEW_RUNTIME && i < |run|
    requires WasStarted(run[i]) && t in run[i].callers && run[i].callers[t].Returned?
    ensures run[i].serving.Finished? && DoneClosed(run[i]) && run[i].state == Stopped
  {
    InvInductive();
    HoldsFrom(Step, Inv, run, 0, i);
    assert CallerOk(run[i], run[i].callers[t]);
  }

  /** While a returned call has not closed `done` itself, `done` is open exactly as
      long as some other call is on its way to close it. */
  lemma ReturnedMeansDone(run: seq<Runtime>, i: nat, t: nat)
    requires IsRun(Step, run) && run[0] == NEW_RUNTIME && i < |run|
    requires t in run[i].callers && run[i].callers[t].Returned?
    ensures DoneClosed(run[i]) <==> !exists u :: u in run[i].callers && run[i].callers[u].ClosingUnstarted?
  {
    var r := run[i];
    InvInductive();
    HoldsFrom(Step, Inv, run, 0, i);
    assert CallerOk(r, r.callers[t]);
    if u :| u in r.callers && r.callers[u].ClosingUnstarted? {
      assert CallerOk(r, r.callers[u]);
    }
  }

  // ------------------------------------- what a Shutdown call may be relied on for

  /** Whatever happens next, if the Shutdown call that begins now returns, `done`
      is closed by then. */
  ghost predicate DoneAtReturn(r: Runtime, t: nat)
    requires t !in r.callers
  {
    forall run: seq<Runtime>, j: nat ::
      IsRun(Step, run) && j < |run| && run[0] == Do(r, BeginShutdown(t))
      && t in run[j].callers && run[j].callers[t].Returned?
      ==> DoneClosed(run[j])
  }

  /** A call that `done` will wait for, or that will close it. */
  predicate OnTheWay(r: Runtime, t: nat) {
    Inv(r) && t in r.callers && (WasStarted(r) || DoneClosed(r) || r.callers[t].ClosingUnstarted?)
  }

  ghost function CallOnTheWay(t: nat): Runtime -> bool {
    (r: Runtime) => OnTheWay(r, t)
  }

  lemma OnTheWayStep(r: Runtime, a: Act, t: nat)
    requires OnTheWay(r, t) && Can(r, a)
    ensures OnTheWay(Do(r, a), t)
  {
    KeepsInv(r, a);
  }

  lemma OnTheWayInductive(t: nat)
    ensures Inductive(Step, CallOnTheWay(t))
  {
    forall r, r' | CallOnTheWay(t)(r) && Step(r, r') ensures CallOnTheWay(t)(r') {
      var a :| Can(r, a) && r' == Do(r, a);
      OnTheWayStep(r, a, t);
    }
  }

  lemma BeginIsOnTheWay(r: Runtime, t: nat)
    requires Inv(r) && t !in r.callers && (r.state != Stopped || DoneClosed(r))
    ensures OnTheWay(Do(r, BeginShutdown(t)), t)
  {
    KeepsInv(r, BeginShutdown(t));
  }

  lemma ReturnedFromTheWay(r: Runtime, t: nat)
    requires OnTheWay(r, t) && r.callers[t].Returned?
    ensures DoneClosed(r)
  {
    assert CallerOk(r, r.callers[t]);
  }

  /** A caller may rely on `done` being closed when its Shutdown returns if and
      only if, before the call, the runtime is not stopped or `done` is closed
      already: the branch that finds the runtime stopped returns at once. */
  lemma DoneAtReturnExact(r: Runtime, t: nat)
    requires Inv(r) && t !in r.callers
    ensures DoneAtReturn(r, t) <==> r.state != Stopped || DoneClosed(r)
  {
    var r1 := Do(r, BeginShutdown(t));
    if r.state != Stopped || DoneClosed(r) {
      BeginIsOnTheWay(r, t);
      OnTheWayInductive(t);
      forall run: seq<Runtime>, j: nat |
        IsRun(Step, run) && j < |run| && run[0] == r1 && t in run[j].callers && run[j].callers[t].Returned?
        ensures DoneClosed(run[j])
      {
        HoldsFrom(Step, CallOnTheWay(t), run, 0, j);
        ReturnedFromTheWay(run[j], t);
      }
    } else {
      var run := [r1];
      assert IsRun(Step, run) && run[0] == r1 && t in run[0].callers && run[0].callers[t].Returned?;
    }
  }

  /** A stopped runtime with `done` still open is reachable: two Shutdowns of a
      runtime that never started. */
  lemma SecondShutdownCanReturnEarly() returns (run: seq<Runtime>)
    ensures IsRun(Step, run) && |run| == 3 && run[0] == NEW_RUNTIME
    ensures 1 in run[2].callers && run[2].callers[1] == Returned(false) && !DoneClosed(run[2])
  {
    var r1 := Do(NEW_RUNTIME, BeginShutdown(0));
    var r2 := Do(r1, BeginShutdown(1));
    run := [NEW_RUNTIME, r1, r2];
    assert Step(NEW_RUNTIME, r1) && Step(r1, r2);
  }

  // ------------------------------------------------------ what Shutdown answers

  /** On the path of a call that has passed its deadline. */
  predicate Late(c: Caller) {
    c.Forced? || c == AwaitDone(true) || c == Returned(true)
  }

  predicate WasForced(r: Runtime, t: nat) {
    t in r.callers && r.callers[t].Forced?
  }

  lemma LateStep(r: Runtime, a: Act, t: nat)
    requires Can(r, a)
    ensures t in r.callers ==> t in Do(r, a).callers
    ensures t in Do(r, a).callers ==>
              var c' := Do(r, a).callers[t];
              Late(c') <==> (t in r.callers && Late(r.callers[t])) || c'.Forced?
  {
  }

  lemma {:induction false} LateExact(run: seq<Runtime>, j: nat, t: nat)
    requires IsRun(Step, run) && run[0] == NEW_RUNTIME && j < |run|
    ensures t in run[j].callers && Late(run[j].callers[t]) <==> exists i :: 0 <= i <= j && WasForced(run[i], t)
    decreases j
  {
    if j > 0 {
      LateExact(run, j - 1, t);
      assert Step(run[j - 1], run[j]);
      var a :| Can(run[j - 1], a) && run[j] == Do(run[j - 1], a);
      LateStep(run[j - 1], a, t);
      if t in run[j].callers && run[j].callers[t].Forced? {
        assert WasForced(run[j], t);
      }
    }
  }

  /** Over every run, a returned Shutdown answers with the context's error if and
      only if its context ended before the graceful stop and it forced the stop. */
  lemma ShutdownAnswers(run: seq<Runtime>, j: nat, t: nat)
    requires IsRun(Step, run) && run[0] == NEW_RUNTIME && j < |run|
    requires t in run[j].callers && run[j].callers[t].Returned?
    ensures run[j].callers[t].timedOut <==> exists i :: 0 <= i <= j && WasForced(run[i], t)
  {
    LateExact(run, j, t);
  }

  // ------------------------------------------- a Shutdown can always still return

  lemma Advanced(r0: Runtime, r: Runtime, a: Act) returns (r': Runtime)
    requires Inv(r) && Can(r, a) && Reaches(Step, r0, r)
    ensures r' == Do(r, a) && Inv(r') && Reaches(Step, r0, r')
  {
    r' := Do(r, a);
    KeepsInv(r, a);
    ReachesMore(Step, r0, r, r');
  }

  /** Serve and a graceful stop under way may come to their ends. */
  lemma ServeCanFinish(r0: Runtime, r: Runtime) returns (r': Runtime)
    requires Inv(r) && WasStarted(r) && !r.graceful.NotSpawned? && Reaches(Step, r0, r)
    ensures Inv(r') && Reaches(Step, r0, r') && GracefulClosed(r') && DoneClosed(r') && r'.callers == r.callers
  {
    r' := r;
    if r'.serving.InServe? {
      r' := Advanced(r0, r', ServeReturns(NoErr));
    }
    if r'.serving.ServeReturned? {
      r' := Advanced(r0, r', FinishServe);
    }
    if r'.graceful.InGracefulStop? {
      r' := Advanced(r0, r', GracefulReturns);
    }
    if r'.graceful.ReadyToClose? {
      r' := Advanced(r0, r', CloseGraceful);
    }
  }

  /** A call past the once-guard can return; one still waiting, either way. */
  lemma WaiterCanReturn(r0: Runtime, r: Runtime, t: nat, late: bool) returns (r': Runtime)
    requires Inv(r) && Reaches(Step, r0, r) && t in r.callers
    requires r.callers[t].Waiting? || r.callers[t].Forced? || r.callers[t].AwaitDone?
    ensures Reaches(Step, r0, r') && t in r'.callers && r'.callers[t].Returned?
    ensures r.callers[t].Waiting? ==> r'.callers[t] == Returned(late)
  {
    assert CallerOk(r, r.callers[t]);
    r' := ServeCanFinish(r0, r);
    if r'.callers[t].Waiting? && late {
      r' := Advanced(r0, r', Timeout(t));
    }
    if r'.callers[t].Waiting? {
      r' := Advanced(r0, r', SeeGraceful(t));
    } else if r'.callers[t].Forced? {
      r' := Advanced(r0, r', SeeGracefulForced(t));
    }
    r' := Advanced(r0, r', SeeDone(t));
  }

  /** From every state any call under way can still return, and one that has not
      seen the graceful stop or its deadline yet can return either way. */
  lemma ShutdownCanReturn(r: Runtime, t: nat, late: bool) returns (r': Runtime)
    requires Inv(r) && t in r.callers
    ensures Reaches(Step, r, r') && t in r'.callers && r'.callers[t].Returned?
    ensures r.callers[t].AtOnce? || r.callers[t].Waiting? ==> r'.callers[t] == Returned(late)
  {
    ReachesSelf(Step, r);
    assert CallerOk(r, r.callers[t]);
    r' := r;
    if r.callers[t].ClosingUnstarted? {
      r' := Advanced(r, r, CloseUnstarted(t));
    } else if !r.callers[t].Returned? {
      if r.callers[t].AtOnce? {
        r' := Advanced(r, r, SpawnGraceful(t));
      }
      r' := WaiterCanReturn(r, r', t, late);
    }
  }

  datatype StartReply = Started | ErrAlreadyStarted

  /** One more act after a run. */
  lemma Onward(r0: Runtime, r: Runtime, a: Act)
    requires Inv(r0) && Inv(r) && Can(r, a) && (r == r0 || (Reaches(Step, r0, r) && After(r0, r)))
    ensures Inv(Do(r, a)) && Reaches(Step, r0, Do(r, a)) && After(r0, Do(r, a))
  {
    KeepsInv(r, a);
    ReachesSelf(Step, r0);
    ReachesMore(Step, r0, r, Do(r, a));
    AfterAct(r, a);
  }

  lemma ReachesAll(r0: Runtime, r1: Runtime, r2: Runtime)
    requires Reaches(Step, r0, r1) && Reaches(Step, r1, r2) && After(r0, r1) && After(r1, r2)
    ensures Reaches(Step, r0, r2) && After(r0, r2)
  {
    ReachesTransitive(Step, r0, r1, r2);
  }

  /** The call an act belongs to. */
  function ByCaller(a: Act): Option<nat> {
    match a
    case BeginShutdown(t) => Some(t)
    case CloseUnstarted(t) => Some(t)
    case SpawnGraceful(t) => Some(t)
    case SeeGraceful(t) => Some(t)
    case Timeout(t) => Some(t)
    case SeeGracefulForced(t) => Some(t)
    case SeeDone(t) => Some(t)
    case _ => None
  }

  lemma OtherCallers(r: Runtime, a: Act, t: nat)
    requires Can(r, a) && ByCaller(a) != Some(t) && t in r.callers
    ensures t in Do(r, a).callers && Do(r, a).callers[t] == r.callers[t]
  {
  }

  /** The runtime object, with the goroutines' positions and the event counts
      beside the source's fields. */
  class Server {
    var state: State
    var err: ServeErr
    var doneOnce: bool
    var serving: Serving
    var graceful: Graceful
    var callers: map<nat, Caller>
    var doneCloses: nat
    var gracefulCloses: nat
    var errWrites: nat

    function Now(): Runtime reads this {
      Runtime(state, err, serving, graceful, doneOnce, callers, doneCloses, gracefulCloses, errWrites)
    }

    constructor ()
      ensures Now() == NEW_RUNTIME && Inv(Now())
    {
      state, err, doneOnce := New, NoErr, false;
      serving, graceful, callers := NotStarted, NotSpawned, map[];
      doneCloses, gracefulCloses, errWrites := 0, 0, 0;
    }

    method Start() returns (r: StartReply)
      requires Inv(Now())
      modifies this
      ensures Inv(Now()) && Now() == Do(old(Now()), Act.Start)
      ensures r == if old(state) == New then Started else ErrAlreadyStarted
    {
      KeepsInv(Now(), Act.Start);
      if state != New {
        return ErrAlreadyStarted;
      }
      state := Running;
      serving := InServe;
      return Started;
    }

    /** What other goroutines do meanwhile, each act if it is possible by then. */
    method Others(t: nat, acts: seq<Act>)
      requires Inv(Now()) && t in callers
      modifies this
      ensures Inv(Now()) && Reaches(Step, old(Now()), Now()) && After(old(Now()), Now())
      ensures t in callers && callers[t] == old(callers)[t]
    {
      ghost var r0 := Now();
      ReachesSelf(Step, r0);
      for i := 0 to |acts|
        invariant Inv(Now()) && Reaches(Step, r0, Now()) && After(r0, Now())
        invariant t in callers && callers[t] == old(callers)[t]
      {
        if ByCaller(acts[i]) != Some(t) && Can(Now(), acts[i]) {
          var r, r' := Now(), Do(Now(), acts[i]);
          KeepsInv(r, acts[i]);
          OtherCallers(r, acts[i], t);
          AfterAct(r, acts[i]);
          ReachesMore(Step, r0, r, r');
          Become(r');
        }
      }
    }

    method Become(r: Runtime)
      modifies this
      ensures Now() == r
    {
      state, err, doneOnce := r.state, r.err, r.doneOnce;
      serving, graceful, callers := r.serving, r.graceful, r.callers;
      doneCloses, gracefulCloses, errWrites := r.doneCloses, r.gracefulCloses, r.errWrites;
    }

    /** The once-guarded close of `done` by the call that found the runtime new. */
    method CloseUnstartedDone(t: nat)
      requires t in callers && callers[t].ClosingUnstarted?
      modifies this
      ensures Now() == Do(old(Now()), CloseUnstarted(t))
    {
      if !doneOnce {
        doneOnce := true;
        doneCloses := doneCloses + 1;
      }
      callers := callers[t := Returned(false)];
    }

    /** The section under the mutex. */
    method EnterShutdown(t: nat) returns (found: State)
      requires t !in callers
      modifies this
      ensures found == old(state) && Now() == Do(old(Now()), Act.BeginShutdown(t))
    {
      found := state;
      if state == New {
        state := Stopped;
        callers := callers[t := ClosingUnstarted];
      } else if state == Stopped {
        callers := callers[t := Returned(false)];
      } else {
        state := Stopping;
        callers := callers[t := AtOnce];
      }
    }

    /** Tells the caller whether it has to wait for a graceful stop. A fresh
        runtime is stopped and, after whatever the others do in the gap, its
        `done` closed. A runtime found stopped is left as it is. */
    method BeginShutdown(t: nat, others: seq<Act>) returns (wait: bool)
      requires Inv(Now()) && t !in callers
      modifies this
      ensures Inv(Now()) && Reaches(Step, old(Now()), Now()) && After(old(Now()), Now())
      ensures wait <==> old(state) == Running || old(state) == Stopping
      ensures state == if wait then Stopping else Stopped
      ensures t in callers && callers[t] == if wait then AtOnce else Returned(false)
      ensures old(state) != New ==> Now() == Do(old(Now()), Act.BeginShutdown(t))
      ensures old(state) == New ==> DoneClosed(Now())
      ensures err == old(err) && errWrites == old(errWrites)
    {
      ghost var r0 := Now();
      var found := EnterShutdown(t);
      Onward(r0, r0, Act.BeginShutdown(t));
      if found == New {
        ghost var r1 := Now();
        Others(t, others);
        ReachesAll(r0, r1, Now());
        ghost var r2 := Now();
        CloseUnstartedDone(t);
        Onward(r0, r2, CloseUnstarted(t));
      }
      wait := found == Running || found == Stopping;
    }

    method FinishServe(serveErr: ServeErr) returns (fatal: bool)
      requires Inv(Now()) && serving == ServeReturned(serveErr)
      modifies this
      ensures Inv(Now()) && Now() == Do(old(Now()), Act.FinishServe)
      ensures fatal <==> old(state) == Running && serveErr.OtherErr?
      ensures err == if fatal then serveErr else old(err)
      ensures state == Stopped && DoneClosed(Now())
    {
      KeepsInv(Now(), Act.FinishServe);
      fatal := serveErr.OtherErr? && state == Running;
      if fatal {
        err := serveErr;
        errWrites := errWrites + 1;
      }
      state := Stopped;
      serving := Finished;
      if !doneOnce {
        doneOnce := true;
        doneCloses := doneCloses + 1;
      }
    }
  }
}
