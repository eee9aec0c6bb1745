/** The telemetry error handler's log throttle (internal/telemetry/runtime.go,
    otelErrorHandler.Handle): a compare-and-set loop over the next permitted log
    time and atomic counters, run by any number of goroutines at once. */
module LogThrottle {
  import opened Runs

  /** Where one call of Handle is. The clock is read once per call and may run
      differently for different goroutines. */
  datatype Pc =
    | Counted
    | Timed(now: int)
    | Loaded(now: int, next: int)
    | Suppressing
    | Won(now: int)
    | Logged
    | Suppressed
    | Unlogged

  /** `winners` and `losers` are history: the calls that won the compare-and-set,
      with their clock readings, and those that counted themselves suppressed.
      `reported` is what the log lines have said about suppressed calls so far. */
  datatype Throttle = Throttle(
    interval: nat,
    next: int,
    pending: nat,
    failures: nat,
    suppressedTotal: nat,
    calls: map<nat, Pc>,
    winners: seq<(nat, int)>,
    losers: seq<nat>,
    reported: nat)

  function NewThrottle(interval: nat): Throttle {
    Throttle(interval, 0, 0, 0, 0, map[], [], [], 0)
  }

  datatype Act =
    | Enter(t: nat)
    | FindNoLogger(t: nat)
    | ReadClock(t: nat, now: int)
    | Load(t: nat)
    | Suppress(t: nat)
    | CountSuppressed(t: nat)
    | Cas(t: nat)
    | Report(t: nat)

  predicate Can(h: Throttle, a: Act) {
    match a
    case Enter(t) => t !in h.calls
    case FindNoLogger(t) => t in h.calls && h.calls[t].Counted?
    case ReadClock(t, now) => t in h.calls && h.calls[t].Counted?
    case Load(t) => t in h.calls && h.calls[t].Timed?
    case Suppress(t) => t in h.calls && h.calls[t].Loaded? && h.calls[t].next > h.calls[t].now
    case CountSuppressed(t) => t in h.calls && h.calls[t].Suppressing?
    case Cas(t) => t in h.calls && h.calls[t].Loaded? && h.calls[t].next <= h.calls[t].now
    case Report(t) => t in h.calls && h.calls[t].Won?
  }

  function Do(h: Throttle, a: Act): Throttle
    requires Can(h, a)
  {
    match a
    case Enter(t) => h.(failures := h.failures + 1, calls := h.calls[t := Counted])
    case FindNoLogger(t) => h.(calls := h.calls[t := Unlogged])
    case ReadClock(t, now) => h.(calls := h.calls[t := Timed(now)])
    case Load(t) => h.(calls := h.calls[t := Loaded(h.calls[t].now, h.next)])
    case Suppress(t) => h.(pending := h.pending + 1, losers := h.losers + [t], calls := h.calls[t := Suppressing])
    case CountSuppressed(t) => h.(suppressedTotal := h.suppressedTotal + 1, calls := h.calls[t := Suppressed])
    case Cas(t) =>
      var now := h.calls[t].now;
      if h.next == h.calls[t].next then
        h.(next := now + h.interval, winners := h.winners + [(t, now)], calls := h.calls[t := Won(now)])
      else h.(calls := h.calls[t := Timed(now)])
    case Report(t) => h.(reported := h.reported + h.pending, pending := 0, calls := h.calls[t := Logged])
  }

  ghost predicate Step(h: Throttle, h': Throttle) {
    exists a :: Can(h, a) && h' == Do(h, a)
  }

  /** Calls that have counted themselves pending but not yet in the total. */
  function InFlight(calls: map<nat, Pc>): set<nat> {
    set t | t in calls && calls[t].Suppressing?
  }

  predicate HasWon(pc: Pc) {
    pc.Won? || pc.Logged?
  }

  predicate HasLost(pc: Pc) {
    pc.Suppressing? || pc.Suppressed?
  }

  /** Winners come at least one interval apart, and the next permitted time is
      one interval after the latest. */
  predicate Spaced(h: Throttle) {
    && (forall i :: 1 <= i < |h.winners| ==> h.winners[i - 1].1 + h.interval <= h.winners[i].1)
    && h.next == (if h.winners == [] then 0 else h.winners[|h.winners| - 1].1 + h.interval)
  }

  predicate IsWinner(h: Throttle, t: nat) {
    exists i :: 0 <= i < |h.winners| && h.winners[i].0 == t
  }

  /** Each call that is past its decision is in exactly one of the two lists, once. */
  predicate Decided(h: Throttle) {
    && (forall i :: 0 <= i < |h.winners| ==> h.winners[i].0 in h.calls && HasWon(h.calls[h.winners[i].0]))
    && (forall i :: 0 <= i < |h.losers| ==> h.losers[i] in h.calls && HasLost(h.calls[h.losers[i]]))
    && (forall t :: t in h.calls && HasWon(h.calls[t]) ==> IsWinner(h, t))
    && (forall t :: t in h.calls && HasLost(h.calls[t]) ==> t in h.losers)
    && (forall i, k :: 0 <= i < k < |h.winners| ==> h.winners[i].0 != h.winners[k].0)
    && (forall i, k :: 0 <= i < k < |h.losers| ==> h.losers[i] != h.losers[k])
  }

  predicate Balanced(h: Throttle) {
    && h.reported + h.pending == |h.losers|
    && h.suppressedTotal + |InFlight(h.calls)| == |h.losers|
    && h.failures == |h.calls|
  }

  predicate Inv(h: Throttle) {
    Spaced(h) && Decided(h) && Balanced(h)
  }

  lemma KeepsSpaced(h: Throttle, a: Act)
    requires Spaced(h) && Can(h, a)
    ensures Spaced(Do(h, a))
  {
  }

  lemma DecidedFrame(h: Throttle, h': Throttle)
    requires Decided(h) && h'.winners == h.winners && h'.losers == h.losers
    requires forall t :: t in h.calls ==>
               && t in h'.calls && (HasWon(h'.calls[t]) <==> HasWon(h.calls[t]))
               && (HasLost(h'.calls[t]) <==> HasLost(h.calls[t]))
    requires forall t :: t in h'.calls && t !in h.calls ==> !HasWon(h'.calls[t]) && !HasLost(h'.calls[t])
    ensures Decided(h')
  {
    assert forall t :: IsWinner(h, t) ==> IsWinner(h', t);
  }

  lemma DecidedWin(h: Throttle, h': Throttle, t: nat, now: int)
    requires Decided(h) && t in h.calls && !HasWon(h.calls[t]) && !HasLost(h.calls[t])
    requires h'.winners == h.winners + [(t, now)] && h'.losers == h.losers && h'.calls == h.calls[t := Won(now)]
    ensures Decided(h')
  {
    forall u | u in h'.calls && HasWon(h'.calls[u]) ensures IsWinner(h', u) {
      if u == t {
        assert h'.winners[|h.winners|].0 == t;
      } else {
        assert IsWinner(h, u);
        var i :| 0 <= i < |h.winners| && h.winners[i].0 == u;
        assert h'.winners[i].0 == u;
      }
    }
  }

  lemma DecidedLose(h: Throttle, h': Throttle, t: nat)
    requires Decided(h) && t in h.calls && !HasWon(h.calls[t]) && !HasLost(h.calls[t])
    requires h'.winners == h.winners && h'.losers == h.losers + [t] && h'.calls == h.calls[t := Suppressing]
    ensures Decided(h')
  {
    assert forall u :: IsWinner(h, u) ==> IsWinner(h', u);
  }

  lemma KeepsDecided(h: Throttle, a: Act)
    requires Decided(h) && Can(h, a)
    ensures Decided(Do(h, a))
  {
    if a.Suppress? {
      DecidedLose(h, Do(h, a), a.t);
    } else if a.Cas? && h.next == h.calls[a.t].next {
      DecidedWin(h, Do(h, a), a.t, h.calls[a.t].now);
    } else {
      DecidedFrame(h, Do(h, a));
    }
  }

  lemma KeepsBalanced(h: Throttle, a: Act)
    requires Balanced(h) && Can(h, a)
    ensures Balanced(Do(h, a))
  {
    var h' := Do(h, a);
    if a.Suppress? {
      assert InFlight(h'.calls) == InFlight(h.calls) + {a.t};
    } else if a.CountSuppressed? {
      assert InFlight(h'.calls) == InFlight(h.calls) - {a.t};
    } else {
      assert InFlight(h'.calls) == InFlight(h.calls);
    }
  }

  lemma InvInductive()
    ensures Inductive(Step, Inv)
  {
    forall h, h' | Inv(h) && Step(h, h') ensures Inv(h') {
      var a :| Can(h, a) && h' == Do(h, a);
      KeepsSpaced(h, a);
      KeepsDecided(h, a);
      KeepsBalanced(h, a);
    }
  }

  lemma {:induction false} SpacedApart(h: Throttle, i: nat, k: nat)
    requires Spaced(h) && i < k < |h.winners|
    ensures h.winners[i].1 + h.interval <= h.winners[k].1
    decreases k
  {
    if i + 1 < k {
      SpacedApart(h, i, k - 1);
    }
  }

  /** The throttle over every run: any two log lines are at least one interval
      apart by their clock readings; a call that is through was logged or
      suppressed, exactly once and not both; and what the lines reported plus
      what is pending accounts for every suppressed call, with the exported total
      behind only by the calls in flight. */
  lemma ThrottleOverRuns(run: seq<Throttle>, interval: nat, n: nat)
    requires IsRun(Step, run) && run[0] == NewThrottle(interval) && n < |run|
    ensures
      var h := run[n];
      && (forall i, k :: 0 <= i < k < |h.winners| ==> h.winners[i].1 + h.interval <= h.winners[k].1)
      && (forall t :: t in h.calls && h.calls[t].Logged? ==> IsWinner(h, t) && t !in h.losers)
      && (forall t :: t in h.calls && h.calls[t].Suppressed? ==> t in h.losers && !IsWinner(h, t))
      && (forall i, k :: 0 <= i < k < |h.winners| ==> h.winners[i].0 != h.winners[k].0)
      && (forall i, k :: 0 <= i < k < |h.losers| ==> h.losers[i] != h.losers[k])
      && h.reported + h.pending == h.suppressedTotal + |InFlight(h.calls)|
      && h.failures == |h.calls|
  {
    InvInductive();
    HoldsFrom(Step, Inv, run, 0, n);
    var h := run[n];
    forall i: nat, k: nat | i < k < |h.winners| ensures h.winners[i].1 + h.interval <= h.winners[k].1 {
      SpacedApart(h, i, k);
    }
  }

  // -------------------------------------------------------------- the handler

  datatype Outcome = LoggedWith(suppressed: nat) | Dropped | NoLogger | NoError

  ghost predicate Reachable(h: Throttle) {
    Reaches(Step, NewThrottle(h.interval), h)
  }

  /** One more act after a run. */
  lemma Onward(h0: Throttle, h: Throttle, a: Act)
    requires Can(h, a) && (h == h0 || Reaches(Step, h0, h))
    ensures Reaches(Step, h0, Do(h, a))
  {
    ReachesSelf(Step, h0);
    ReachesMore(Step, h0, h, Do(h, a));
  }

  lemma OtherCalls(h: Throttle, a: Act, t: nat)
    requires Can(h, a) && a.t != t && t in h.calls
    ensures t in Do(h, a).calls && Do(h, a).calls[t] == h.calls[t]
  {
  }

  /** The handler object: its atomic fields, with the positions of the calls and
      the history beside them. */
  class ErrorHandler {
    const interval: nat
    var nextLog: int
    var pendingSuppressed: nat
    var exportFailures: nat
    var suppressedExportLogs: nat
    var calls: map<nat, Pc>
    var winners: seq<(nat, int)>
    var losers: seq<nat>
    var reported: nat

    function State(): Throttle reads this {
      Throttle(
        interval, nextLog, pendingSuppressed, exportFailures, suppressedExportLogs, calls, winners, losers, reported)
    }

    /** The object is where some run of the system could have brought it. */
    ghost predicate Valid() reads this {
      Reachable(State())
    }

    constructor (interval: nat)
      ensures this.interval == interval && State() == NewThrottle(interval) && Valid()
    {
      this.interval := interval;
      nextLog, pendingSuppressed, exportFailures, suppressedExportLogs := 0, 0, 0, 0;
      calls, winners, losers, reported := map[], [], [], 0;
      new;
      ReachesSelf(Step, State());
    }

    method Become(h: Throttle)
      requires h.interval == interval
      modifies this
      ensures State() == h
    {
      nextLog, pendingSuppressed, exportFailures := h.next, h.pending, h.failures;
      suppressedExportLogs, calls := h.suppressedTotal, h.calls;
      winners, losers, reported := h.winners, h.losers, h.reported;
    }

    /** What other calls do meanwhile, each act if it is possible by then. */
    method Others(t: nat, acts: seq<Act>)
      requires t in calls
      modifies this
      ensures Reaches(Step, old(State()), State())
      ensures t in calls && calls[t] == old(calls)[t]
      ensures acts == [] ==> State() == old(State())
    {
      ghost var h0 := State();
      ReachesSelf(Step, h0);
      for i := 0 to |acts|
        invariant Reaches(Step, h0, State())
        invariant t in calls && calls[t] == old(calls)[t]
        invariant i == 0 ==> State() == h0
      {
        if acts[i].t != t && Can(State(), acts[i]) {
          OtherCalls(State(), acts[i], t);
          Onward(h0, State(), acts[i]);
          Become(Do(State(), acts[i]));
        }
      }
    }

    method CountFailure(t: nat)
      requires t !in calls
      modifies this
      ensures State() == Do(old(State()), Enter(t))
    {
      exportFailures := exportFailures + 1;
      calls := calls[t := Counted];
    }

    method LoadNext(t: nat) returns (next: int)
      requires t in calls && calls[t].Timed?
      modifies this
      ensures State() == Do(old(State()), Load(t)) && next == nextLog
    {
      next := nextLog;
      calls := calls[t := Loaded(calls[t].now, next)];
    }

    method AddPending(t: nat)
      requires Can(State(), Suppress(t))
      modifies this
      ensures State() == Do(old(State()), Suppress(t))
    {
      pendingSuppressed := pendingSuppressed + 1;
      losers := losers + [t];
      calls := calls[t := Suppressing];
    }

    method AddSuppressed(t: nat)
      requires Can(State(), CountSuppressed(t))
      modifies this
      ensures State() == Do(old(State()), CountSuppressed(t))
    {
      suppressedExportLogs := suppressedExportLogs + 1;
      calls := calls[t := Suppressed];
    }

    method CompareAndSwap(t: nat, now: int, next: int) returns (won: bool)
      requires Can(State(), Cas(t)) && calls[t] == Loaded(now, next)
      modifies this
      ensures State() == Do(old(State()), Cas(t)) && won == (old(nextLog) == next)
    {
      won := nextLog == next;
      if won {
        nextLog := now + interval;
        winners := winners + [(t, now)];
        calls := calls[t := Won(now)];
      } else {
        calls := calls[t := Timed(now)];
      }
    }

    method SwapPending(t: nat) returns (suppressed: nat)
      requires Can(State(), Report(t))
      modifies this
      ensures State() == Do(old(State()), Report(t)) && suppressed == old(pendingSuppressed)
    {
      suppressed := pendingSuppressed;
      reported := reported + pendingSuppressed;
      pendingSuppressed := 0;
      calls := calls[t := Logged];
    }

    /** The compare-and-set loop, from the clock reading to the decision, with
        `gaps` of other calls' acts between a round's load and the rest of it.
        `decided` is the state the decision was made in. */
    method Decide(t: nat, now: int, gaps: seq<seq<Act>>) returns (won: bool, ghost decided: Throttle)
      requires t in calls && calls[t] == Timed(now)
      modifies this
      ensures Reaches(Step, old(State()), decided) && Reaches(Step, old(State()), State())
      ensures t in decided.calls && decided.calls[t].Loaded? && decided.calls[t].now == now
      ensures won ==> decided.calls[t].next == decided.next <= now && State() == Do(decided, Cas(t))
      ensures !won ==> decided.calls[t].next > now && State() == Do(decided, Suppress(t))
      ensures gaps == [] ==> decided == Do(old(State()), Load(t))
    {
      ghost var h0 := State();
      ReachesSelf(Step, h0);
      var round := 0;
      while true
        invariant 0 <= round <= |gaps| && Reaches(Step, h0, State())
        invariant t in calls && calls[t] == Timed(now)
        invariant round == 0 ==> State() == h0
        decreases |gaps| - round
      {
        Onward(h0, State(), Load(t));
        var next := LoadNext(t);
        ghost var loaded := State();
        Others(t, if round < |gaps| then gaps[round] else []);
        ReachesTransitive(Step, h0, loaded, State());
        decided := State();
        if next > now {
          Onward(h0, decided, Suppress(t));
          AddPending(t);
          return false, decided;
        }
        Onward(h0, decided, Cas(t));
        won := CompareAndSwap(t, now, next);
        if won {
          return true, decided;
        }
        round := round + 1;
      }
    }

    /** From the clock reading to the end; `late` is what the others do after the
        decision, and `before` the state the call's last step finds. */
    method Settle(t: nat, now: int, gaps: seq<seq<Act>>, late: seq<Act>)
      returns (outcome: Outcome, ghost decided: Throttle, ghost before: Throttle)
      requires t in calls && calls[t] == Timed(now)
      modifies this
      ensures Reaches(Step, old(State()), decided) && Reaches(Step, old(State()), State())
      ensures outcome.LoggedWith? || outcome.Dropped?
      ensures Ends(t, now, decided, before, outcome) && State() == EndState(t, before, outcome)
      ensures gaps == [] ==> decided == Do(old(State()), Load(t))
      ensures late == [] ==> before == Do(decided, if outcome.Dropped? then Suppress(t) else Cas(t))
    {
      ghost var h0 := State();
      var won;
      won, decided := Decide(t, now, gaps);
      ghost var after := State();
      ReachesSelf(Step, decided);
      ReachesMore(Step, decided, decided, after);
      Others(t, late);
      before := State();
      ReachesTransitive(Step, h0, after, before);
      ReachesTransitive(Step, decided, after, before);
      if won {
        Onward(h0, before, Report(t));
        var suppressed := SwapPending(t);
        outcome := LoggedWith(suppressed);
      } else {
        Onward(h0, before, CountSuppressed(t));
        AddSuppressed(t);
        outcome := Dropped;
      }
    }

    /** One call. Whatever the others do in the gaps, it is a run of the system
        that ends with the call logged or suppressed. Undisturbed, it logs exactly
        when the permitted time has come. */
    method Handle(t: nat, failed: bool, hasLogger: bool, now: int, gaps: seq<seq<Act>>, late: seq<Act>)
      returns (outcome: Outcome, ghost decided: Throttle, ghost before: Throttle)
      requires Valid() && t !in calls
      modifies this
      ensures Valid()
      ensures outcome.NoError? <==> !failed
      ensures outcome.NoLogger? <==> failed && !hasLogger
      ensures !failed ==> State() == old(State())
      ensures failed && !hasLogger ==> State() == Do(Do(old(State()), Enter(t)), FindNoLogger(t))
      ensures failed ==> Reaches(Step, old(State()), State())
      ensures failed && hasLogger ==>
                && Reaches(Step, old(State()), decided)
                && Ends(t, now, decided, before, outcome) && State() == EndState(t, before, outcome)
      ensures failed && hasLogger && gaps == [] && late == [] ==> Undisturbed(old(State()), State(), now, outcome)
    {
      ghost var h0 := State();
      decided, before := h0, h0;
      if !failed {
        return NoError, h0, h0;
      }
      CountFailure(t);
      Onward(h0, h0, Enter(t));
      ghost var counted := State();
      if !hasLogger {
        calls := calls[t := Unlogged];
        Onward(h0, counted, FindNoLogger(t));
        ReachesTransitive(Step, NewThrottle(interval), h0, State());
        return NoLogger, h0, h0;
      }
      calls := calls[t := Timed(now)];
      Onward(h0, counted, ReadClock(t, now));
      ghost var timed := State();
      outcome, decided, before := Settle(t, now, gaps, late);
      ReachesTransitive(Step, h0, timed, decided);
      ReachesTransitive(Step, h0, timed, State());
      if gaps == [] && late == [] {
        UndisturbedEnd(h0, t, now, decided, before, outcome);
      }
      ReachesTransitive(Step, NewThrottle(interval), h0, State());
    }
  }

  /** How a call ended: in `decided` it had loaded a time that had come, and still
      stood, or one that had not; `before` is where it took its last step. */
  ghost predicate Ends(t: nat, now: int, decided: Throttle, before: Throttle, outcome: Outcome) {
    && t in decided.calls && decided.calls[t].Loaded? && decided.calls[t].now == now
    && Reaches(Step, decided, before)
    && (outcome.LoggedWith? ==>
          && decided.calls[t].next == decided.next <= now
          && Can(before, Report(t)) && outcome.suppressed == before.pending)
    && (outcome.Dropped? ==> decided.calls[t].next > now && Can(before, CountSuppressed(t)))
  }

  function EndState(t: nat, before: Throttle, outcome: Outcome): Throttle {
    if outcome.LoggedWith? && Can(before, Report(t)) then Do(before, Report(t))
    else if outcome.Dropped? && Can(before, CountSuppressed(t)) then Do(before, CountSuppressed(t))
    else before
  }

  lemma UndisturbedEnd(h: Throttle, t: nat, now: int, decided: Throttle, before: Throttle, outcome: Outcome)
    requires t !in h.calls && decided == Do(Do(Do(h, Enter(t)), ReadClock(t, now)), Load(t))
    requires Ends(t, now, decided, before, outcome) && (outcome.LoggedWith? || outcome.Dropped?)
    requires before == Do(decided, if outcome.Dropped? then Suppress(t) else Cas(t))
    ensures Undisturbed(h, EndState(t, before, outcome), now, outcome)
  {
  }

  predicate Undisturbed(h: Throttle, h': Throttle, now: int, outcome: Outcome) {
    && h'.failures == h.failures + 1
    && if h.next <= now then
         && outcome == LoggedWith(h.pending) && h'.next == now + h.interval
         && h'.pending == 0 && h'.suppressedTotal == h.suppressedTotal
       else
         && outcome == Dropped && h'.next == h.next
         && h'.pending == h.pending + 1 && h'.suppressedTotal == h.suppressedTotal + 1
  }
}
