/** What the pool's Start and Stop are good for, over whole runs: a generation is
    canceled exactly if somebody canceled it, a stopping generation is canceled or
    about to be, and a Stop that finds no generation repeats the last outcome. */
module PoolLaws {
  import opened Runs
  import opened WorkerPool

  /** A run together with the acts that make it. */
  ghost predicate ActRun(run: seq<Pool>, acts: seq<Act>) {
    && |run| == |acts| + 1
    && forall k :: 0 <= k < |acts| ==> Can(run[k], acts[k]) && run[k + 1] == Do(run[k], acts[k])
  }

  /** The parent context ends, or a Stop call of the generation cancels it. */
  predicate CancelsGen(p: Pool, a: Act, g: nat) {
    a == ParentCancel(g) || (a.StopCancel? && a.t in p.stops && p.stops[a.t] == Canceling(g))
  }

  lemma CanceledAfter(p: Pool, a: Act, g: nat)
    requires Can(p, a) && g < |Do(p, a).gens|
    ensures |p.gens| <= |Do(p, a).gens|
    ensures Do(p, a).gens[g].canceled <==> (g < |p.gens| && p.gens[g].canceled) || CancelsGen(p, a, g)
  {
  }

  lemma NotCanceledBefore(run: seq<Pool>, acts: seq<Act>, i: nat, g: nat)
    requires ActRun(run, acts) && i < |run| && |run[i].gens| <= g
    ensures forall k :: 0 <= k < i ==> !CancelsGen(run[k], acts[k], g)
  {
    forall k | 0 <= k < i ensures !CancelsGen(run[k], acts[k], g) {
      GensGrow(run, acts, k, i);
    }
  }

  lemma GensStay(p: Pool, a: Act)
    requires Can(p, a)
    ensures |p.gens| <= |Do(p, a).gens|
  {
  }

  lemma {:induction false} GensGrow(run: seq<Pool>, acts: seq<Act>, k: nat, i: nat)
    requires ActRun(run, acts) && k <= i < |run|
    ensures |run[k].gens| <= |run[i].gens|
    decreases i
  {
    if k < i {
      GensGrow(run, acts, k, i - 1);
      GensStay(run[i - 1], acts[i - 1]);
    }
  }

  /** A generation is canceled exactly if its parent context has ended or a Stop
      call of it has canceled it; in particular it is not when it starts. */
  lemma {:induction false} CanceledExactly(run: seq<Pool>, acts: seq<Act>, i: nat, g: nat)
    requires ActRun(run, acts) && run[0] == NEW_POOL && i < |run| && g < |run[i].gens|
    ensures run[i].gens[g].canceled <==> exists k :: 0 <= k < i && CancelsGen(run[k], acts[k], g)
    decreases i
  {
    if i > 0 {
      var p, a := run[i - 1], acts[i - 1];
      assert run[i] == Do(p, a);
      CanceledAfter(p, a, g);
      if g < |p.gens| {
        CanceledExactly(run, acts, i - 1, g);
      } else {
        NotCanceledBefore(run, acts, i - 1, g);
      }
    }
  }

  /** Start either leaves the pool alone or makes a new current generation, live
      and with as many workers as asked for. */
  lemma StartGives(p: Pool, size: int)
    requires Inv(p)
    ensures
      var p', g := DoStart(p, size), |p.gens|;
      if StartsFresh(p) then
        && p'.current == Some(g) && |p'.gens| == g + 1 && !p'.gens[g].canceled && !p'.stopping
        && LiveOf(p', g) == Ids(p.nextWorker, Count(size)) && (p'.gens[g].done <==> size <= 0)
      else p' == p
  {
    if StartsFresh(p) {
      StartKeepsInv(p, size);
      StartLive(p, size);
      var p', g := DoStart(p, size), |p.gens|;
      assert forall w :: w in p.workers ==> WorkerOk(p, w);
      assert forall w :: w in LiveOf(p', g) <==> w in Ids(p.nextWorker, Count(size));
    }
  }

  // ------------------------------------------------------------------ canceling

  /** A generation being stopped is canceled, or some call is about to cancel it. */
  ghost predicate CancelOk(p: Pool) {
    p.current.Some? && p.stopping ==>
      && p.current.value < |p.gens|
      && (p.gens[p.current.value].canceled || exists t :: At(p, t, Canceling(p.current.value)))
  }

  lemma CancelStep(p: Pool, a: Act)
    requires Inv(p) && CancelOk(p) && Can(p, a)
    ensures CancelOk(Do(p, a))
  {
    var p' := Do(p, a);
    if p'.current.Some? && p'.stopping {
      var g := p'.current.value;
      if a.StopEnter? && !p.stopping {
        assert At(p', a.t, Canceling(g));
      } else if !p.gens[g].canceled {
        var t :| At(p, t, Canceling(g));
        assert a.StopCancel? && a.t == t ==> p'.gens[g].canceled;
        assert !(a.StopCancel? && a.t == t) ==> At(p', t, Canceling(g));
      }
    }
  }

  /** The outcome of the last generation is kept for Stop calls that come later. */
  predicate LastOk(p: Pool) {
    p.current.None? && p.gens != [] ==> p.last.Some?
  }

  /** A generation that is not done has a worker in its loop, or the one that is
      about to close `done`. */
  ghost predicate ClosingOk(p: Pool) {
    forall g: nat :: g < |p.gens| && !p.gens[g].done ==> LiveOf(p, g) != {} || HasCloser(p, g)
  }

  ghost predicate HasCloser(p: Pool, g: nat) {
    exists w :: w in p.workers && p.workers[w] == Closing(g)
  }

  ghost predicate Lawful(p: Pool) {
    Inv(p) && CancelOk(p) && LastOk(p) && ClosingOk(p)
  }

  lemma CloserStays(p: Pool, a: Act, g: nat)
    requires Can(p, a) && !(a.WorkerClose? && p.workers[a.w] == Closing(g)) && HasCloser(p, g)
    requires a.Start? ==> forall w :: w in p.workers ==> w < p.nextWorker
    ensures HasCloser(Do(p, a), g)
  {
    var w :| w in p.workers && p.workers[w] == Closing(g);
    assert w in Do(p, a).workers && Do(p, a).workers[w] == Closing(g);
  }

  lemma ExitLeavesACloser(p: Pool, w: nat)
    requires Inv(p) && Can(p, WorkerExit(w))
    ensures
      var p', g := Do(p, WorkerExit(w)), p.workers[w].gen;
      && (LiveOf(p', g) != {} || HasCloser(p', g))
      && forall h: nat :: h < |p.gens| && h != g ==> LiveOf(p', h) == LiveOf(p, h)
  {
    var p', g := Do(p, WorkerExit(w)), p.workers[w].gen;
    assert GenOk(p, g) && w in LiveOf(p, g);
    assert LiveOf(p', g) == LiveOf(p, g) - {w};
    if LiveOf(p', g) == {} {
      assert LiveOf(p, g) == {w};
      assert p'.workers[w] == Closing(g);
    }
  }

  lemma StartLives(p: Pool, size: int)
    requires Inv(p) && StartsFresh(p)
    ensures
      var p', n := DoStart(p, size), |p.gens|;
      && (size > 0 ==> LiveOf(p', n) != {}) && forall h: nat :: h < n ==> LiveOf(p', h) == LiveOf(p, h)
  {
    var p', n := DoStart(p, size), |p.gens|;
    assert forall w :: w in p.workers ==> WorkerOk(p, w);
    if size > 0 {
      assert p.nextWorker in LiveOf(p', n);
    }
    forall h: nat | h < n ensures LiveOf(p', h) == LiveOf(p, h) {
    }
  }

  lemma ClosingStep(p: Pool, a: Act)
    requires Inv(p) && ClosingOk(p) && Can(p, a)
    ensures ClosingOk(Do(p, a))
  {
    var p' := Do(p, a);
    assert forall w :: w in p.workers ==> WorkerOk(p, w);
    if a.Start? && StartsFresh(p) {
      StartLives(p, a.size);
    } else if a.WorkerExit? {
      ExitLeavesACloser(p, a.w);
    } else if !a.Start? {
      OtherLive(p, a);
    }
    forall g: nat | g < |p'.gens| && !p'.gens[g].done ensures LiveOf(p', g) != {} || HasCloser(p', g) {
      if g < |p.gens| && HasCloser(p, g) {
        CloserStays(p, a, g);
      }
    }
  }

  lemma LastStep(p: Pool, a: Act)
    requires Inv(p) && LastOk(p) && Can(p, a)
    ensures LastOk(Do(p, a))
  {
  }

  lemma LawfulNext(p: Pool, a: Act)
    requires Lawful(p) && Can(p, a)
    ensures Lawful(Do(p, a))
  {
    KeepsInv(p, a);
    CancelStep(p, a);
    LastStep(p, a);
    ClosingStep(p, a);
  }

  lemma LawfulInductive()
    ensures Inductive(Step, Lawful)
  {
    forall p, p' | Lawful(p) && Step(p, p') ensures Lawful(p') {
      var a :| Can(p, a) && p' == Do(p, a);
      LawfulNext(p, a);
    }
  }

  /** Over every run: while a generation is being stopped its context is canceled
      or a Stop call is just about to cancel it, so its workers will leave. */
  lemma StoppingIsCanceled(run: seq<Pool>, i: nat)
    requires IsRun(Step, run) && run[0] == NEW_POOL && i < |run|
    requires run[i].current.Some? && run[i].stopping
    ensures
      var p, g := run[i], run[i].current.value;
      g < |p.gens| && (p.gens[g].canceled || exists t :: At(p, t, Canceling(g)))
  {
    LawfulInductive();
    HoldsFrom(Step, Lawful, run, 0, i);
  }

  ghost function CancelsOrHas(t: nat, g: nat): Pool -> bool {
    (p: Pool) => At(p, t, Canceling(g)) || (g < |p.gens| && p.gens[g].canceled)
  }

  lemma CancelsOrHasStep(p: Pool, a: Act, t: nat, g: nat)
    requires CancelsOrHas(t, g)(p) && Can(p, a)
    ensures CancelsOrHas(t, g)(Do(p, a))
  {
  }

  /** The call that found the pool running has canceled the generation by the time
      it goes on. */
  lemma FirstStopCancels(run: seq<Pool>, i: nat, j: nat, t: nat, g: nat)
    requires IsRun(Step, run) && i <= j < |run| && At(run[i], t, Canceling(g)) && !At(run[j], t, Canceling(g))
    ensures g < |run[j].gens| && run[j].gens[g].canceled
  {
    assert Inductive(Step, CancelsOrHas(t, g)) by {
      forall p, p' | CancelsOrHas(t, g)(p) && Step(p, p') ensures CancelsOrHas(t, g)(p') {
        var a :| Can(p, a) && p' == Do(p, a);
        CancelsOrHasStep(p, a, t, g);
      }
    }
    HoldsFrom(Step, CancelsOrHas(t, g), run, i, j);
  }

  /** What may always happen from outside: the parent context of any generation
      ends, and a waiting Stop call runs out of time, which is all it does. */
  lemma OutsideEvents(p: Pool, t: nat, g: nat)
    requires g < |p.gens|
    ensures Can(p, ParentCancel(g)) && Do(p, ParentCancel(g)).gens[g].canceled
    ensures At(p, t, Waiting(g)) ==>
              && Can(p, StopTimeout(t))
              && Do(p, StopTimeout(t)) == p.(stops := p.stops[t := Returned(Some(g), TimedOut)])
  {
  }

  /** A Stop call that finds no generation answers at once: with the outcome of the
      last generation's repair if there was a generation, with nothing otherwise. */
  lemma LaterStopRepeats(run: seq<Pool>, i: nat, t: nat)
    requires IsRun(Step, run) && run[0] == NEW_POOL && i < |run| && run[i].current.None? && t !in run[i].stops
    ensures
      var p, p' := run[i], Do(run[i], StopEnter(t));
      && p' == p.(stops := p'.stops)
      && if p.gens == [] then At(p', t, Returned(None, NeverRan))
         else
           && p.gens[|p.gens| - 1].once.Ran?
           && At(p', t, Returned(None, Finished(p.gens[|p.gens| - 1].once.outcome)))
  {
    LawfulInductive();
    HoldsFrom(Step, Lawful, run, 0, i);
  }
}
