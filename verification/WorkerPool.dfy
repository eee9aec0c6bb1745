/** The worker pool's lifecycle (internal/workerpool/workerpool.go): generations
    of workers, concurrent Stop callers, one repair pass per stopped generation.
    The atomic steps are the mutex sections, the atomic counter, the closing of
    `done` and the two ends of the stop once-guard. */
module WorkerPool {
  import opened Runs

  datatype Outcome = Outcome(repaired: nat, err: Option<int>)

  /** The stop once-guard: not entered, running in one Stop caller, or completed. */
  datatype Once = Fresh | Busy(t: nat) | Ran(outcome: Outcome)

  /** `size` is the workers argument of Start, which may be zero or negative. */
  datatype Gen = Gen(size: int, remaining: int, canceled: bool, done: bool, once: Once)

  /** A worker goroutine that is still in its loop, or the one whose decrement
      reached zero and that is about to close `done`. */
  datatype Phase = Looping(gen: nat) | Closing(gen: nat)

  datatype StopResult = Finished(outcome: Outcome) | NeverRan | TimedOut

  /** Where a Stop call is. */
  datatype StopPc =
    | Canceling(gen: nat)
    | Waiting(gen: nat)
    | AtOnce(gen: nat)
    | Repairing(gen: nat)
    | Finishing(gen: nat)
    | Returned(of: Option<nat>, result: StopResult)

  /** `gens` are all generations ever started, oldest first; `repairs` lists the
      generations whose repair pass was entered, in order. */
  datatype Pool = Pool(
    gens: seq<Gen>,
    current: Option<nat>,
    stopping: bool,
    last: Option<Outcome>,
    workers: map<nat, Phase>,
    nextWorker: nat,
    stops: map<nat, StopPc>,
    repairs: seq<nat>)

  const NEW_POOL := Pool([], None, false, None, map[], 0, map[], [])

  datatype Act =
    | Start(size: int)
    | ParentCancel(gen: nat)
    | StopEnter(t: nat)
    | StopCancel(t: nat)
    | StopSeeDone(t: nat)
    | StopTimeout(t: nat)
    | OnceEnter(t: nat)
    | Repair(t: nat, outcome: Outcome)
    | OncePass(t: nat)
    | StopFinish(t: nat)
    | WorkerExit(w: nat)
    | WorkerClose(w: nat)

  predicate At(p: Pool, t: nat, pc: StopPc) {
    t in p.stops && p.stops[t] == pc
  }

  /** The steps a Stop call takes after it has entered a generation. */
  predicate InsideStop(a: Act) {
    a.StopCancel? || a.StopSeeDone? || a.StopTimeout? || a.OnceEnter? || a.Repair? || a.OncePass? || a.StopFinish?
  }

  predicate Can(p: Pool, a: Act) {
    match a
    case Start(_) => p.current.Some? ==> p.current.value < |p.gens|
    case ParentCancel(g) => g < |p.gens|
    case StopEnter(t) => t !in p.stops
    case StopCancel(t) => t in p.stops && p.stops[t].Canceling? && p.stops[t].gen < |p.gens|
    case StopSeeDone(t) =>
      && t in p.stops && p.stops[t].Waiting? && p.stops[t].gen < |p.gens|
      && p.gens[p.stops[t].gen].done
    case StopTimeout(t) => t in p.stops && p.stops[t].Waiting?
    case OnceEnter(t) =>
      && t in p.stops && p.stops[t].AtOnce? && p.stops[t].gen < |p.gens|
      && p.gens[p.stops[t].gen].once.Fresh?
    case Repair(t, _) => t in p.stops && p.stops[t].Repairing? && p.stops[t].gen < |p.gens|
    case OncePass(t) =>
      && t in p.stops && p.stops[t].AtOnce? && p.stops[t].gen < |p.gens|
      && p.gens[p.stops[t].gen].once.Ran?
    case StopFinish(t) =>
      && t in p.stops && p.stops[t].Finishing? && p.stops[t].gen < |p.gens|
      && p.gens[p.stops[t].gen].once.Ran?
    case WorkerExit(w) => w in p.workers && p.workers[w].Looping? && p.workers[w].gen < |p.gens|
    case WorkerClose(w) => w in p.workers && p.workers[w].Closing? && p.workers[w].gen < |p.gens|
  }

  /** `settleStoppedLocked`: a generation that drained without a Stop is let go. */
  predicate Settles(p: Pool)
    requires Can(p, Start(0))
  {
    p.current.Some? && p.gens[p.current.value].done && !p.stopping
  }

  predicate StartsFresh(p: Pool)
    requires Can(p, Start(0))
  {
    p.current.None? || Settles(p)
  }

  /** `n` consecutive worker identities. */
  function Ids(from: nat, n: nat): (ids: set<nat>)
    ensures forall w :: w in ids <==> from <= w < from + n
    ensures |ids| == n
  {
    if n == 0 then {} else Ids(from, n - 1) + {from + n - 1}
  }

  function Count(size: int): nat {
    if size < 0 then 0 else size
  }

  function AllLooping(ids: set<nat>, g: nat): map<nat, Phase> {
    map w | w in ids :: Looping(g)
  }

  function DoStart(p: Pool, size: int): Pool
    requires Can(p, Start(0))
  {
    if !StartsFresh(p) then p
    else p.(gens := p.gens + [Gen(size, size, false, size <= 0, Fresh)],
            current := Some(|p.gens|),
            stopping := false,
            last := None,
            workers := p.workers + AllLooping(Ids(p.nextWorker, Count(size)), |p.gens|),
            nextWorker := p.nextWorker + Count(size))
  }

  function DoStopEnter(p: Pool, t: nat): Pool {
    match p.current
    case None =>
      p.(stops := p.stops[t := Returned(None, if p.last.Some? then Finished(p.last.value) else NeverRan)])
    case Some(g) =>
      p.(stopping := true, stops := p.stops[t := if p.stopping then Waiting(g) else Canceling(g)])
  }

  function DoStopFinish(p: Pool, t: nat): Pool
    requires Can(p, StopFinish(t))
  {
    var g := p.stops[t].gen;
    var outcome := p.gens[g].once.outcome;
    var p' := p.(stops := p.stops[t := Returned(Some(g), Finished(outcome))]);
    if p.current == Some(g) then p'.(current := None, stopping := false, last := Some(outcome)) else p'
  }

  function DoWorkerExit(p: Pool, w: nat): Pool
    requires Can(p, WorkerExit(w))
  {
    var g := p.workers[w].gen;
    var left := p.gens[g].remaining - 1;
    p.(gens := p.gens[g := p.gens[g].(remaining := left)],
       workers := if left == 0 then p.workers[w := Closing(g)] else p.workers - {w})
  }

  function Do(p: Pool, a: Act): Pool
    requires Can(p, a)
  {
    match a
    case Start(size) => DoStart(p, size)
    case ParentCancel(g) => p.(gens := p.gens[g := p.gens[g].(canceled := true)])
    case StopEnter(t) => DoStopEnter(p, t)
    case StopCancel(t) =>
      var g := p.stops[t].gen;
      p.(gens := p.gens[g := p.gens[g].(canceled := true)], stops := p.stops[t := Waiting(g)])
    case StopSeeDone(t) => p.(stops := p.stops[t := AtOnce(p.stops[t].gen)])
    case StopTimeout(t) => p.(stops := p.stops[t := Returned(Some(p.stops[t].gen), TimedOut)])
    case OnceEnter(t) =>
      var g := p.stops[t].gen;
      p.(gens := p.gens[g := p.gens[g].(once := Busy(t))],
         stops := p.stops[t := Repairing(g)],
         repairs := p.repairs + [g])
    case Repair(t, outcome) =>
      var g := p.stops[t].gen;
      p.(gens := p.gens[g := p.gens[g].(once := Ran(outcome))], stops := p.stops[t := Finishing(g)])
    case OncePass(t) => p.(stops := p.stops[t := Finishing(p.stops[t].gen)])
    case StopFinish(t) => DoStopFinish(p, t)
    case WorkerExit(w) => DoWorkerExit(p, w)
    case WorkerClose(w) =>
      var g := p.workers[w].gen;
      p.(gens := p.gens[g := p.gens[g].(done := true)], workers := p.workers - {w})
  }

  ghost predicate Step(p: Pool, p': Pool) {
    exists a :: Can(p, a) && p' == Do(p, a)
  }

  /** The workers still in their loop, of one generation and of all. */
  function LiveOf(p: Pool, g: nat): set<nat> {
    set w | w in p.workers && p.workers[w] == Looping(g)
  }

  function Live(p: Pool): set<nat> {
    set w | w in p.workers && p.workers[w].Looping?
  }

  function Least(a: int, b: int): int {
    if a < b then a else b
  }

  predicate GenOk(p: Pool, g: nat)
    requires g < |p.gens|
  {
    var gen := p.gens[g];
    && gen.remaining == |LiveOf(p, g)| + Least(gen.size, 0)
    && (gen.done ==> LiveOf(p, g) == {})
    && (gen.size <= 0 ==> gen.done)
    && (p.current != Some(g) ==> gen.done)
    && (!gen.once.Fresh? ==> gen.done)
    && (gen.once.Busy? ==> p.current == Some(g) && p.stopping && At(p, gen.once.t, Repairing(g)))
    && (p.current == Some(g) && !p.stopping ==> gen.once.Fresh?)
    && (gen.once.Fresh? <==> g !in p.repairs)
  }

  /** A Stop call that entered a generation finds it current and stopping until
      the repair pass has completed; past `done` the generation is drained. */
  predicate StopOk(p: Pool, t: nat)
    requires t in p.stops
  {
    match p.stops[t]
    case Returned(Some(g), Finished(outcome)) => g < |p.gens| && p.gens[g].once == Ran(outcome)
    case Returned(_, _) => true
    case pc =>
      && pc.gen < |p.gens|
      && (!p.gens[pc.gen].once.Ran? ==> p.current == Some(pc.gen) && p.stopping)
      && (pc.AtOnce? ==> p.gens[pc.gen].done)
      && (pc.Repairing? ==> p.gens[pc.gen].once == Busy(t))
      && (pc.Finishing? ==> p.gens[pc.gen].once.Ran?)
      && (p.current == Some(pc.gen) ==> p.stopping)
  }

  predicate WorkerOk(p: Pool, w: nat)
    requires w in p.workers
  {
    && w < p.nextWorker
    && p.workers[w].gen < |p.gens|
    && (p.workers[w].Closing? ==> LiveOf(p, p.workers[w].gen) == {} && p.gens[p.workers[w].gen].size > 0)
  }

  predicate Inv(p: Pool) {
    && (p.current.Some? ==> p.current.value + 1 == |p.gens|)
    && (p.current.None? ==> !p.stopping)
    && (p.last.Some? ==> p.current.None? && p.gens != [] && p.gens[|p.gens| - 1].once == Ran(p.last.value))
    && (forall g: nat :: g < |p.gens| ==> GenOk(p, g))
    && (forall t :: t in p.stops ==> StopOk(p, t))
    && (forall w :: w in p.workers ==> WorkerOk(p, w))
    && (forall i :: 0 <= i < |p.repairs| ==> p.repairs[i] < |p.gens|)
    && (forall i, j :: 0 <= i < j < |p.repairs| ==> p.repairs[i] < p.repairs[j])
  }

  lemma SpawnedLive(workers: map<nat, Phase>, ids: set<nat>, n: nat, p': Pool)
    requires p'.workers == workers + AllLooping(ids, n)
    requires forall w :: w in workers ==> w !in ids && workers[w].gen < n
    ensures forall g: nat :: g < n ==> LiveOf(p', g) == set w | w in workers && workers[w] == Looping(g)
    ensures LiveOf(p', n) == ids
    ensures Live(p') == (set w | w in workers && workers[w].Looping?) + ids
  {
  }

  lemma StartLive(p: Pool, size: int)
    requires Inv(p) && Can(p, Start(size)) && StartsFresh(p)
    ensures
      var p' := DoStart(p, size);
      && (forall g: nat :: g < |p.gens| ==> LiveOf(p', g) == LiveOf(p, g))
      && LiveOf(p', |p.gens|) == Ids(p.nextWorker, Count(size))
      && Live(p') == Live(p) + Ids(p.nextWorker, Count(size))
  {
    var p' := DoStart(p, size);
    var ids := Ids(p.nextWorker, Count(size));
    forall w | w in p.workers ensures w !in ids && p.workers[w].gen < |p.gens| {
      assert WorkerOk(p, w);
    }
    assert p'.workers == p.workers + AllLooping(ids, |p.gens|);
    SpawnedLive(p.workers, ids, |p.gens|, p');
  }

  lemma StartKeepsInv(p: Pool, size: int)
    requires Inv(p) && Can(p, Start(size)) && StartsFresh(p)
    ensures Inv(DoStart(p, size))
  {
    var p' := DoStart(p, size);
    StartLive(p, size);
    forall g: nat | g < |p'.gens| ensures GenOk(p', g) {
      if g < |p.gens| {
        assert GenOk(p, g);
      }
    }
    forall t | t in p'.stops ensures StopOk(p', t) {
      assert StopOk(p, t);
    }
    forall w | w in p'.workers ensures WorkerOk(p', w) {
      if w in p.workers {
        assert WorkerOk(p, w);
      }
    }
  }

  lemma ExitKeepsInv(p: Pool, w: nat)
    requires Inv(p) && Can(p, WorkerExit(w))
    ensures Inv(DoWorkerExit(p, w))
    ensures Live(DoWorkerExit(p, w)) == Live(p) - {w}
  {
    var p' := DoWorkerExit(p, w);
    var g := p.workers[w].gen;
    assert GenOk(p, g);
    assert w in LiveOf(p, g);
    assert LiveOf(p', g) == LiveOf(p, g) - {w};
    forall h: nat | h < |p.gens| && h != g ensures LiveOf(p', h) == LiveOf(p, h) {}
    forall h: nat | h < |p'.gens| ensures GenOk(p', h) {
      assert GenOk(p, h);
    }
    forall t | t in p'.stops ensures StopOk(p', t) {
      assert StopOk(p, t);
    }
    forall v | v in p'.workers ensures WorkerOk(p', v) {
      assert WorkerOk(p, v);
    }
  }

  lemma OtherLive(p: Pool, a: Act)
    requires Can(p, a) && !a.Start? && !a.WorkerExit?
    ensures Live(Do(p, a)) == Live(p) && |Do(p, a).gens| == |p.gens|
    ensures forall g: nat :: LiveOf(Do(p, a), g) == LiveOf(p, g)
  {
  }

  lemma OtherKeepsGens(p: Pool, a: Act, g: nat)
    requires Inv(p) && Can(p, a) && !a.Start? && !a.WorkerExit? && g < |p.gens|
    ensures |Do(p, a).gens| == |p.gens| && GenOk(Do(p, a), g)
  {
    OtherLive(p, a);
    assert GenOk(p, g);
    if a.WorkerClose? {
      assert WorkerOk(p, a.w);
    } else if InsideStop(a) {
      assert StopOk(p, a.t) && GenOk(p, p.stops[a.t].gen);
    }
  }

  /** The call that takes the step is where it should be afterwards. */
  lemma OwnStop(p: Pool, a: Act)
    requires Inv(p) && Can(p, a) && (a.StopEnter? || InsideStop(a))
    ensures a.t in Do(p, a).stops && StopOk(Do(p, a), a.t)
  {
    if a.StopEnter? {
      assert p.current.Some? ==> GenOk(p, p.current.value);
    } else {
      assert StopOk(p, a.t) && GenOk(p, p.stops[a.t].gen);
    }
  }

  /** What a step does to the generations and to the current one, as the other
      Stop calls see it: a repaired generation stays repaired, a pass under way
      stays its owner's, and a generation is let go only once repaired. */
  lemma GensAsSeen(p: Pool, a: Act, g: nat)
    requires Inv(p) && Can(p, a) && !a.Start? && !a.WorkerExit? && g < |p.gens|
    ensures
      var p' := Do(p, a);
      && g < |p'.gens|
      && (p.gens[g].once.Ran? ==> p'.gens[g].once == p.gens[g].once)
      && (p.gens[g].done ==> p'.gens[g].done)
      && (p.gens[g].once.Busy? && !(a.Repair? && a.t == p.gens[g].once.t) ==> p'.gens[g].once == p.gens[g].once)
      && (p'.current == p.current || (p'.current.None? && (p.current == Some(g) ==> p.gens[g].once.Ran?)))
      && (p.stopping && p'.current.Some? ==> p'.stopping)
  {
    if InsideStop(a) {
      assert StopOk(p, a.t) && GenOk(p, p.stops[a.t].gen);
    }
  }

  lemma StopsAsSeen(p: Pool, a: Act, t: nat)
    requires Can(p, a) && !a.Start? && !a.WorkerExit? && t in Do(p, a).stops
    requires !((a.StopEnter? || InsideStop(a)) && a.t == t)
    ensures t in p.stops && Do(p, a).stops[t] == p.stops[t]
  {
  }

  lemma RivalStop(p: Pool, a: Act, t: nat)
    requires Inv(p) && Can(p, a) && !a.Start? && !a.WorkerExit? && t in p.stops
    requires t in Do(p, a).stops && Do(p, a).stops[t] == p.stops[t]
    requires !(InsideStop(a) && a.t == t)
    ensures StopOk(Do(p, a), t)
  {
    assert StopOk(p, t);
    match p.stops[t]
    case Returned(Some(g), Finished(_)) => GensAsSeen(p, a, g);
    case Returned(_, _) =>
    case pc => GensAsSeen(p, a, pc.gen);
  }

  lemma OtherKeepsStops(p: Pool, a: Act, t: nat)
    requires Inv(p) && Can(p, a) && !a.Start? && !a.WorkerExit? && t in Do(p, a).stops
    ensures StopOk(Do(p, a), t)
  {
    if (a.StopEnter? || InsideStop(a)) && a.t == t {
      OwnStop(p, a);
    } else {
      StopsAsSeen(p, a, t);
      RivalStop(p, a, t);
    }
  }

  /** Every step other than Start and a worker's exit leaves the loops alone. */
  lemma OtherKeepsInv(p: Pool, a: Act)
    requires Inv(p) && Can(p, a) && !a.Start? && !a.WorkerExit?
    ensures Inv(Do(p, a))
    ensures Live(Do(p, a)) == Live(p)
  {
    var p' := Do(p, a);
    OtherLive(p, a);
    forall g: nat | g < |p'.gens| ensures GenOk(p', g) {
      OtherKeepsGens(p, a, g);
    }
    forall t | t in p'.stops ensures StopOk(p', t) {
      OtherKeepsStops(p, a, t);
    }
    forall w | w in p'.workers ensures WorkerOk(p', w) {
      assert WorkerOk(p, w);
    }
    if a.OnceEnter? {
      assert StopOk(p, a.t) && GenOk(p, p.stops[a.t].gen);
    } else if a.Repair? {
      assert StopOk(p, a.t);
    }
  }

  lemma KeepsInv(p: Pool, a: Act)
    requires Inv(p) && Can(p, a)
    ensures Inv(Do(p, a))
  {
    if a.Start? {
      if StartsFresh(p) {
        StartKeepsInv(p, a.size);
      }
    } else if a.WorkerExit? {
      ExitKeepsInv(p, a.w);
    } else {
      OtherKeepsInv(p, a);
    }
  }

  /** Which workers are in their loop after a step. */
  lemma LiveAfter(p: Pool, a: Act)
    requires Inv(p) && Can(p, a)
    ensures Inv(Do(p, a))
    ensures Live(Do(p, a)) ==
            if a.WorkerExit? then Live(p) - {a.w}
            else if a.Start? && StartsFresh(p) then Live(p) + Ids(p.nextWorker, Count(a.size))
            else Live(p)
  {
    KeepsInv(p, a);
    if a.WorkerExit? {
      ExitKeepsInv(p, a.w);
    } else if a.Start? {
      if StartsFresh(p) {
        StartLive(p, a.size);
      }
    } else {
      OtherLive(p, a);
    }
  }

  lemma InvInductive()
    ensures Inductive(Step, Inv)
  {
    forall p, p' | Inv(p) && Step(p, p') ensures Inv(p') {
      var a :| Can(p, a) && p' == Do(p, a);
      KeepsInv(p, a);
    }
  }

  /** No worker of any generation is in its loop while a repair pass runs, and a
      live worker always belongs to the current generation. */
  lemma RepairFindsNoWorker(p: Pool, t: nat, g: nat)
    requires Inv(p) && At(p, t, Repairing(g))
    ensures Live(p) == {} && p.current == Some(g) && p.stopping
  {
    assert StopOk(p, t) && GenOk(p, g);
    forall w | w in p.workers ensures !p.workers[w].Looping? {
      assert WorkerOk(p, w);
      var h := p.workers[w].gen;
      assert GenOk(p, h);
      assert w in LiveOf(p, h) <==> p.workers[w].Looping?;
    }
  }

  lemma LiveIsCurrent(p: Pool, w: nat)
    requires Inv(p) && w in Live(p)
    ensures p.current == Some(p.workers[w].gen)
  {
    assert WorkerOk(p, w) && GenOk(p, p.workers[w].gen);
    assert w in LiveOf(p, p.workers[w].gen);
  }

  /** A Stop call still inside an older generation changes nothing but its own
      program counter and, at most, that generation's cancel flag. */
  lemma LateStopIsHarmless(p: Pool, a: Act)
    requires Inv(p) && Can(p, a) && InsideStop(a)
    requires p.stops[a.t].gen + 1 < |p.gens| || p.current.None?
    ensures
      var p', g := Do(p, a), p.stops[a.t].gen;
      && p' == p.(gens := p'.gens, stops := p'.stops)
      && p'.gens == p.gens[g := p.gens[g].(canceled := p'.gens[g].canceled)]
  {
    var g := p.stops[a.t].gen;
    assert StopOk(p, a.t);
    assert p.gens[g].once.Ran?;
    assert p.gens == p.gens[g := p.gens[g]];
  }

  /** Repair exclusion over every run: at each point the repair passes entered so
      far belong to strictly newer and newer generations, so no generation is
      repaired twice, and a repair in progress sees no live worker. */
  lemma RepairExclusion(run: seq<Pool>, i: nat)
    requires IsRun(Step, run) && run[0] == NEW_POOL && i < |run|
    ensures forall k, l :: 0 <= k < l < |run[i].repairs| ==> run[i].repairs[k] < run[i].repairs[l]
    ensures forall t, g :: At(run[i], t, Repairing(g)) ==> Live(run[i]) == {}
  {
    InvInductive();
    HoldsFrom(Step, Inv, run, 0, i);
    forall t, g | At(run[i], t, Repairing(g)) ensures Live(run[i]) == {} {
      RepairFindsNoWorker(run[i], t, g);
    }
  }

  /** A completed pass keeps its outcome, and a returned call its result. */
  lemma StepKeepsResults(p: Pool, a: Act)
    requires Inv(p) && Can(p, a)
    ensures |p.gens| <= |Do(p, a).gens|
    ensures forall g: nat :: g < |p.gens| && p.gens[g].once.Ran? ==> Do(p, a).gens[g].once == p.gens[g].once
    ensures forall t :: t in p.stops && p.stops[t].Returned? ==> t in Do(p, a).stops && Do(p, a).stops[t] == p.stops[t]
  {
    if InsideStop(a) {
      assert StopOk(p, a.t);
    }
  }

  lemma {:induction false} ResultsLast(run: seq<Pool>, i: nat, j: nat)
    requires IsRun(Step, run) && run[0] == NEW_POOL && i <= j < |run|
    ensures |run[i].gens| <= |run[j].gens|
    ensures forall g: nat :: g < |run[i].gens| && run[i].gens[g].once.Ran? ==>
              run[j].gens[g].once == run[i].gens[g].once
    ensures forall t :: t in run[i].stops && run[i].stops[t].Returned? ==>
              t in run[j].stops && run[j].stops[t] == run[i].stops[t]
    decreases j
  {
    if i < j {
      ResultsLast(run, i, j - 1);
      InvInductive();
      HoldsFrom(Step, Inv, run, 0, j - 1);
      assert Step(run[j - 1], run[j]);
      var a :| Can(run[j - 1], a) && run[j] == Do(run[j - 1], a);
      StepKeepsResults(run[j - 1], a);
    }
  }

  /** All Stop calls that got past `done` of a generation return the same
      outcome, however far apart in the run they return. */
  lemma SameOutcome(run: seq<Pool>, i: nat, j: nat, t: nat, u: nat, g: nat, o: Outcome, o': Outcome)
    requires IsRun(Step, run) && run[0] == NEW_POOL && i < |run| && j < |run|
    requires At(run[i], t, Returned(Some(g), Finished(o)))
    requires At(run[j], u, Returned(Some(g), Finished(o')))
    ensures o == o'
  {
    InvInductive();
    HoldsFrom(Step, Inv, run, 0, i);
    HoldsFrom(Step, Inv, run, 0, j);
    assert StopOk(run[i], t) && StopOk(run[j], u);
    if i <= j {
      ResultsLast(run, i, j);
    } else {
      ResultsLast(run, j, i);
    }
  }

  /** One step of a worker that is on its way out. */
  lemma WorkerStep(p: Pool, q: Pool, a: Act)
    requires Inv(q) && Can(q, a) && (a.WorkerExit? || a.WorkerClose?) && (p == q || Reaches(Step, p, q))
    ensures Inv(Do(q, a)) && Reaches(Step, p, Do(q, a))
    ensures Live(Do(q, a)) == if a.WorkerExit? then Live(q) - {a.w} else Live(q)
  {
    LiveAfter(q, a);
    ReachesSelf(Step, p);
    ReachesMore(Step, p, q, Do(q, a));
  }

  datatype StartReply = Started | AlreadyRunning | ErrPoolStopping

  /** The pool object. Goroutines live in the ghost fields. */
  class WorkerPool {
    var gens: seq<Gen>
    var current: Option<nat>
    var stopping: bool
    var last: Option<Outcome>
    ghost var workers: map<nat, Phase>
    ghost var nextWorker: nat
    ghost var stops: map<nat, StopPc>
    ghost var repairs: seq<nat>

    ghost function State(): Pool reads this {
      Pool(gens, current, stopping, last, workers, nextWorker, stops, repairs)
    }

    constructor ()
      ensures State() == NEW_POOL
    {
      gens, current, stopping, last := [], None, false, None;
      workers, nextWorker, stops, repairs := map[], 0, map[], [];
    }

    method StartWorkers(size: int) returns (r: StartReply)
      requires Can(State(), Start(size))
      modifies this
      ensures State() == DoStart(old(State()), size)
      ensures r.Started? <==> old(current).None? || (old(gens)[old(current).value].done && !old(stopping))
      ensures !r.Started? ==> (r.ErrPoolStopping? <==> old(stopping))
    {
      if current.Some? && gens[current.value].done && !stopping {
        current := None;
      }
      if current.Some? {
        r := if stopping then ErrPoolStopping else AlreadyRunning;
        return;
      }
      workers := workers + AllLooping(Ids(nextWorker, Count(size)), |gens|);
      nextWorker := nextWorker + Count(size);
      gens := gens + [Gen(size, size, false, size <= 0, Fresh)];
      current, stopping, last := Some(|gens| - 1), false, None;
      r := Started;
    }

    /** `closeDone`, reached by the worker that brought the count to zero. */
    method CloseDone(ghost w: nat, g: nat)
      requires w in workers && workers[w] == Closing(g) && g < |gens|
      modifies this
      ensures State() == Do(old(State()), WorkerClose(w))
    {
      gens := gens[g := gens[g].(done := true)];
      workers := workers - {w};
    }

    method CountDown(ghost w: nat, g: nat) returns (zero: bool)
      requires w in workers && workers[w] == Looping(g) && g < |gens|
      modifies this
      ensures State() == DoWorkerExit(old(State()), w)
      ensures zero == (gens[g].remaining == 0)
    {
      gens := gens[g := gens[g].(remaining := gens[g].remaining - 1)];
      zero := gens[g].remaining == 0;
      workers := if zero then workers[w := Closing(g)] else workers - {w};
    }

    /** The deferred `workerDone` of one worker, down to closing `done`. */
    method WorkerDone(ghost w: nat, g: nat)
      requires Inv(State()) && w in workers && workers[w] == Looping(g) && g < |gens|
      modifies this
      ensures Inv(State()) && Reaches(Step, old(State()), State())
      ensures Live(State()) == Live(old(State())) - {w}
      ensures g < |gens| && gens[g].remaining == old(gens)[g].remaining - 1
      ensures gens[g].done <==> old(gens)[g].done || gens[g].remaining == 0
    {
      ghost var before := State();
      var zero := CountDown(w, g);
      WorkerStep(before, before, WorkerExit(w));
      if zero {
        ghost var between := State();
        CloseDone(w, g);
        WorkerStep(before, between, WorkerClose(w));
      }
    }

    /** First section of Stop: which generation this call will wait for, if any. */
    method EnterStop(t: nat) returns (gen: Option<nat>, first: bool, result: StopResult)
      requires Inv(State()) && t !in stops
      modifies this
      ensures Inv(State()) && State() == Do(old(State()), StopEnter(t))
      ensures gen == old(current)
      ensures gen.Some? ==> first == !old(stopping)
      ensures gen.None? ==> result == (if last.Some? then Finished(last.value) else NeverRan)
    {
      OtherKeepsInv(State(), StopEnter(t));
      gen, first := current, !stopping;
      if gen.None? {
        result := if last.Some? then Finished(last.value) else NeverRan;
        stops := stops[t := Returned(None, result)];
        return;
      }
      result := NeverRan;
      stops := stops[t := if stopping then Waiting(gen.value) else Canceling(gen.value)];
      stopping := true;
    }

    /** Last section of Stop: retire the generation unless somebody else has. */
    method FinishStop(t: nat, g: nat) returns (outcome: Outcome)
      requires Inv(State()) && t in stops && stops[t] == Finishing(g)
      requires g < |gens| && gens[g].once.Ran?
      modifies this
      ensures Inv(State()) && State() == Do(old(State()), StopFinish(t))
      ensures outcome == gens[g].once.outcome
      ensures current != Some(g)
      ensures old(current) != Some(g) ==> current == old(current) && stopping == old(stopping) && last == old(last)
    {
      OtherKeepsInv(State(), StopFinish(t));
      outcome := gens[g].once.outcome;
      if current == Some(g) {
        current, stopping, last := None, false, Some(outcome);
      }
      stops := stops[t := Returned(Some(g), Finished(outcome))];
    }
  }
}
