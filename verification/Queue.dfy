/** The bounded work queue and its admission barrier (internal/queue/queue.go).
    A reader-writer lock guards `stopped`: producers hold it shared from the
    check of the flag until their send, StopAccepting holds it alone. */
module Queue {
  import opened Runs

  datatype Input = Input(name: string, age: int, email: string)

  datatype Item = Item(job: int, payload: Input)

  /** `readers` maps a producer inside the lock to whether it has seen the queue
      open. `accepted` and `received` are the whole history of the channel;
      `barrier` records that some StopAccepting call has returned. */
  datatype Q = Q(
    capacity: nat,
    buf: seq<Item>,
    stopped: bool,
    readers: map<nat, bool>,
    writer: Option<nat>,
    accepted: seq<Item>,
    received: seq<Item>,
    barrier: bool)

  function NewQueue(capacity: nat): Q {
    Q(capacity, [], false, map[], None, [], [], false)
  }

  datatype Act =
    | RLock(t: nat)
    | SeeOpen(t: nat)
    | Send(t: nat, item: Item)
    | RUnlock(t: nat)
    | Receive
    | Lock(t: nat)
    | SetStopped(t: nat)
    | Unlock(t: nat)

  predicate Can(q: Q, a: Act) {
    match a
    case RLock(t) => q.writer.None? && t !in q.readers
    case SeeOpen(t) => t in q.readers && !q.stopped
    case Send(t, item) => t in q.readers && q.readers[t] && |q.buf| < q.capacity
    case RUnlock(t) => t in q.readers
    case Receive => q.buf != []
    case Lock(t) => q.writer.None? && q.readers == map[]
    case SetStopped(t) => q.writer == Some(t)
    case Unlock(t) => q.writer == Some(t) && q.stopped
  }

  function Do(q: Q, a: Act): Q
    requires Can(q, a)
  {
    match a
    case RLock(t) => q.(readers := q.readers[t := false])
    case SeeOpen(t) => q.(readers := q.readers[t := true])
    case Send(t, item) => q.(readers := q.readers[t := false], buf := q.buf + [item], accepted := q.accepted + [item])
    case RUnlock(t) => q.(readers := q.readers - {t})
    case Receive => q.(buf := q.buf[1..], received := q.received + [q.buf[0]])
    case Lock(t) => q.(writer := Some(t))
    case SetStopped(t) => q.(stopped := true)
    case Unlock(t) => q.(writer := None, barrier := true)
  }

  ghost predicate Step(q: Q, q': Q) {
    exists a :: Can(q, a) && q' == Do(q, a)
  }

  /** First in, first out, within capacity; whoever has seen the queue open sees
      it open still, because the writer waits for the readers to leave. */
  predicate Inv(q: Q) {
    && q.accepted == q.received + q.buf
    && |q.buf| <= q.capacity
    && (q.writer.Some? ==> q.readers == map[])
    && (forall t :: t in q.readers && q.readers[t] ==> !q.stopped)
    && (q.barrier ==> q.stopped)
  }

  lemma InvInductive()
    ensures Inductive(Step, Inv)
  {
    forall q, q' | Inv(q) && Step(q, q') ensures Inv(q') {
      var a :| Can(q, a) && q' == Do(q, a);
      KeepsInv(q, a);
    }
  }

  lemma KeepsInv(q: Q, a: Act)
    requires Inv(q) && Can(q, a)
    ensures Inv(Do(q, a))
  {
    if a.Receive? {
      assert q.buf == [q.buf[0]] + q.buf[1..];
    }
  }

  /** A closed barrier stays closed and admits nothing. */
  lemma BarrierStep(q: Q, a: Act)
    requires Inv(q) && Can(q, a) && q.barrier
    ensures Do(q, a).barrier && Do(q, a).stopped && Do(q, a).accepted == q.accepted
  {
  }

  /** Queue admission over whole runs: what was accepted is what was received
      followed by what is buffered, in order and within capacity, and from the
      moment a StopAccepting call has returned nothing more is accepted. */
  lemma {:induction false} Admission(run: seq<Q>, capacity: nat, i: nat, j: nat)
    requires IsRun(Step, run) && run[0] == NewQueue(capacity) && i <= j < |run|
    ensures run[j].accepted == run[j].received + run[j].buf && |run[j].buf| <= run[j].capacity
    ensures run[i].barrier ==> run[j].accepted == run[i].accepted
    decreases j
  {
    InvInductive();
    HoldsFrom(Step, Inv, run, 0, j);
    if i < j {
      HoldsFrom(Step, Inv, run, 0, j - 1);
      Admission(run, capacity, i, j - 1);
      if run[i].barrier {
        BarrierLasts(run, capacity, i, j - 1);
        assert Step(run[j - 1], run[j]);
        var a :| Can(run[j - 1], a) && run[j] == Do(run[j - 1], a);
        BarrierStep(run[j - 1], a);
      }
    }
  }

  lemma {:induction false} BarrierLasts(run: seq<Q>, capacity: nat, i: nat, j: nat)
    requires IsRun(Step, run) && run[0] == NewQueue(capacity) && i <= j < |run| && run[i].barrier
    ensures run[j].barrier
    decreases j
  {
    if i < j {
      BarrierLasts(run, capacity, i, j - 1);
      assert Step(run[j - 1], run[j]);
    }
  }

  datatype EnqueueResult = Enqueued | Canceled | ErrQueueStopped | ErrQueueFull

  /** The queue object. `accepted`, `received` and `barrier` are its history. */
  class WorkQueue {
    const capacity: nat
    var ch: seq<Item>
    var stopped: bool
    ghost var accepted: seq<Item>
    ghost var received: seq<Item>
    ghost var barrier: bool

    /** Between calls nobody holds the lock. */
    ghost function State(): Q reads this {
      Q(capacity, ch, stopped, map[], None, accepted, received, barrier)
    }

    constructor (capacity: nat)
      ensures State() == NewQueue(capacity)
    {
      this.capacity := capacity;
      ch, stopped := [], false;
      accepted, received, barrier := [], [], false;
    }

    method StopAccepting(t: nat)
      modifies this
      ensures Reaches(Step, old(State()), State())
      ensures State() == old(State()).(stopped := true, barrier := true)
    {
      ghost var q0 := State();
      stopped := true;
      barrier := true;
      assert Can(q0, Lock(t));
      ghost var q1 := Do(q0, Lock(t));
      ghost var q2 := Do(q1, SetStopped(t));
      assert Can(q2, Unlock(t)) && State() == Do(q2, Unlock(t));
      ReachesSelf(Step, q0);
      ReachesMore(Step, q0, q0, q1);
      ReachesMore(Step, q0, q1, q2);
      ReachesMore(Step, q0, q2, State());
    }

    /** `early`, `late` and `racing` are the answers of the three looks at the
        request context; `racing` may win against a send that is also ready. */
    method Enqueue(t: nat, item: Item, early: bool, late: bool, racing: bool) returns (r: EnqueueResult)
      modifies this
      ensures Reaches(Step, old(State()), State())
      ensures r == (if early then Canceled
                    else if old(stopped) then ErrQueueStopped
                    else if late || racing then Canceled
                    else if |old(ch)| >= capacity then ErrQueueFull
                    else Enqueued)
      ensures r == Enqueued ==> ch == old(ch) + [item] && accepted == old(accepted) + [item]
      ensures r != Enqueued ==> State() == old(State())
      ensures stopped == old(stopped) && received == old(received) && barrier == old(barrier)
    {
      ghost var q0 := State();
      ReachesSelf(Step, q0);
      if early {
        return Canceled;
      }
      if stopped {
        return ErrQueueStopped;
      }
      if late || racing {
        return Canceled;
      }
      if |ch| >= capacity {
        return ErrQueueFull;
      }
      ch := ch + [item];
      accepted := accepted + [item];
      assert Can(q0, RLock(t));
      ghost var q1 := Do(q0, RLock(t));
      ghost var q2 := Do(q1, SeeOpen(t));
      ghost var q3 := Do(q2, Send(t, item));
      assert State() == Do(q3, RUnlock(t));
      ReachesMore(Step, q0, q0, q1);
      ReachesMore(Step, q0, q1, q2);
      ReachesMore(Step, q0, q2, q3);
      ReachesMore(Step, q0, q3, State());
      return Enqueued;
    }

    method Take() returns (item: Item)
      requires ch != []
      modifies this
      ensures Reaches(Step, old(State()), State())
      ensures [item] + ch == old(ch) && received == old(received) + [item]
      ensures stopped == old(stopped) && accepted == old(accepted) && barrier == old(barrier)
    {
      ghost var q0 := State();
      item := ch[0];
      ch := ch[1..];
      received := received + [item];
      assert Can(q0, Receive) && State() == Do(q0, Receive);
      ReachesSelf(Step, q0);
      ReachesMore(Step, q0, q0, State());
    }
  }
}
