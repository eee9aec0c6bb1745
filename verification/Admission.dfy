/** Admission seen from the repository: every stored job went into the channel
    exactly once, or one handler in flight still has to decide its fate
    (internal/routes/users_handler.go, internal/queue/queue.go). */
module Admission {
  import opened Runs
  import opened AsyncRuntime
  import opened AtMostOnce
  import opened Conservation
  import Queue

  predicate WasAccepted(s: Sys, j: int) {
    exists i :: 0 <= i < |s.queue.accepted| && s.queue.accepted[i].job == j
  }

  predicate Enqueued(s: Sys) {
    && (forall j :: j in s.past.admitted ==> WasAccepted(s, j))
    && (forall j :: j in s.past.holder && j !in s.past.deleted ==> s.past.holder[j].AtHandler? || j in s.past.admitted)
  }

  lemma AcceptKeepsEnqueued(s: Sys, t: nat, payload: Queue.Input, owner: int)
    requires Enqueued(s) && CanAccept(s, t)
    ensures Enqueued(DoAccept(s, t, payload, owner))
  {
    assert forall j :: WasAccepted(s, j) ==> WasAccepted(DoAccept(s, t, payload, owner), j);
  }

  lemma HandleKeepsEnqueued(s: Sys, t: nat, ok: bool)
    requires Enqueued(s) && CanHandle(s, t, ok)
    ensures Enqueued(DoHandle(s, t, ok))
  {
    var s', h := DoHandle(s, t, ok), s.handlers[t];
    HandleShape(s, t, ok);
    forall j | j in s'.past.admitted ensures WasAccepted(s', j) {
      if j in s.past.admitted {
        var i :| 0 <= i < |s.queue.accepted| && s.queue.accepted[i].job == j;
        assert s'.queue.accepted[i].job == j;
      } else {
        assert s'.queue.accepted[|s.queue.accepted|].job == j;
      }
    }
  }

  lemma WorkKeepsEnqueued(s: Sys, s': Sys, j: int)
    requires Enqueued(s) && j in s.past.admitted && j in s'.past.holder
    requires s'.past.admitted == s.past.admitted && s'.past.deleted == s.past.deleted
    requires s'.queue.accepted == s.queue.accepted
    requires s'.past.holder == s.past.holder || s'.past.holder == s.past.holder[j := s'.past.holder[j]]
    ensures Enqueued(s')
  {
    assert forall k :: WasAccepted(s, k) ==> WasAccepted(s', k);
  }

  lemma TakeKeepsEnqueued(s: Sys, w: nat)
    requires Identities(s) && Enqueued(s) && CanTake(s, w)
    ensures Enqueued(DoTake(s, w))
  {
    WorkKeepsEnqueued(s, DoTake(s, w), s.queue.buf[0].job);
  }

  lemma AdvanceKeepsEnqueued(s: Sys, w: nat)
    requires Identities(s) && Holders(s) && Enqueued(s) && CanAdvance(s, w)
    ensures Enqueued(DoAdvance(s, w))
  {
    WorkKeepsEnqueued(s, DoAdvance(s, w), s.tasks[w].item.job);
  }

  lemma FrameKeepsEnqueued(s: Sys, s': Sys)
    requires Enqueued(s) && s'.past.holder == s.past.holder && s'.past.admitted == s.past.admitted
    requires s'.past.deleted == s.past.deleted && s'.queue.accepted == s.queue.accepted
    ensures Enqueued(s')
  {
    assert forall k :: WasAccepted(s, k) ==> WasAccepted(s', k);
  }

  lemma KeepsEnqueued(s: Sys, a: Act)
    requires Identities(s) && Holders(s) && Enqueued(s) && Can(s, a)
    ensures Enqueued(Do(s, a))
  {
    match a
    case Accept(t, payload, owner) => AcceptKeepsEnqueued(s, t, payload, owner);
    case Handle(t, ok) => HandleKeepsEnqueued(s, t, ok);
    case Take(w) => TakeKeepsEnqueued(s, w);
    case Advance(w) => AdvanceKeepsEnqueued(s, w);
    case PoolAct(_) => FrameKeepsEnqueued(s, Do(s, a));
    case Barrier(_) => FrameKeepsEnqueued(s, Do(s, a));
    case CloseHttp => FrameKeepsEnqueued(s, Do(s, a));
    case CloseHub => FrameKeepsEnqueued(s, Do(s, a));
    case SyncCreate(_) => FrameKeepsEnqueued(s, Do(s, a));
  }

  ghost predicate Full(s: Sys) {
    Inv(s) && Enqueued(s)
  }

  lemma FullNext(s: Sys, s': Sys)
    requires Full(s) && Step(s, s')
    ensures Full(s')
  {
    var a :| Can(s, a) && s' == Do(s, a);
    KeepsInv(s, a);
    KeepsEnqueued(s, a);
  }

  lemma FullInductive()
    ensures Inductive(Step, Full)
  {
    forall s, s' | Full(s) && Step(s, s') ensures Full(s') {
      FullNext(s, s');
    }
  }

  /** A handler that has saved the job and not yet got it into the channel. */
  predicate Undecided(s: Sys, t: nat, j: int) {
    t in s.handlers && s.handlers[t].job == j && s.handlers[t].pc != Admitted
  }

  lemma StoredJobIsAccountedFor(s: Sys, j: int)
    requires Full(s) && j in s.store.jobs
    ensures WasAccepted(s, j) <==> !(exists t :: Undecided(s, t, j))
    ensures forall i, k :: 0 <= i < k < |s.queue.accepted| ==> s.queue.accepted[i].job != s.queue.accepted[k].job
    ensures forall t, u :: Undecided(s, t, j) && Undecided(s, u, j) ==> t == u
  {
    assert JobOk(s, j);
    if s.past.holder[j].AtHandler? {
      var t := s.past.holder[j].t;
      assert HandlerOk(s, t) && Undecided(s, t, j);
    } else {
      assert forall t :: Undecided(s, t, j) ==> s.past.holder[j] == AtHandler(t);
    }
  }

  /** Over every run: each stored job was accepted by the queue exactly once, or
      is held by exactly one handler in flight, and not both; what was accepted
      is what was received followed by what is buffered, within capacity. */
  lemma AdmissionOverRuns(run: seq<Sys>, config: Config, i: nat)
    requires IsRun(Step, run) && run[0] == NewSys(config) && i < |run|
    ensures
      var s := run[i];
      && s.queue.accepted == s.queue.received + s.queue.buf && |s.queue.buf| <= s.queue.capacity
      && (forall j :: j in s.store.jobs ==> (WasAccepted(s, j) <==> !(exists t :: Undecided(s, t, j))))
      && (forall i, k :: 0 <= i < k < |s.queue.accepted| ==> s.queue.accepted[i].job != s.queue.accepted[k].job)
      && (forall j, t, u :: j in s.store.jobs && Undecided(s, t, j) && Undecided(s, u, j) ==> t == u)
  {
    StartsInInv(config);
    FullInductive();
    HoldsFrom(Step, Full, run, 0, i);
    FullIsAccountedFor(run[i]);
  }

  lemma FullIsAccountedFor(s: Sys)
    requires Full(s)
    ensures
      && s.queue.accepted == s.queue.received + s.queue.buf && |s.queue.buf| <= s.queue.capacity
      && (forall j :: j in s.store.jobs ==> (WasAccepted(s, j) <==> !(exists t :: Undecided(s, t, j))))
      && (forall i, k :: 0 <= i < k < |s.queue.accepted| ==> s.queue.accepted[i].job != s.queue.accepted[k].job)
      && (forall j, t, u :: j in s.store.jobs && Undecided(s, t, j) && Undecided(s, u, j) ==> t == u)
  {
    forall j | j in s.store.jobs
      ensures WasAccepted(s, j) <==> !(exists t :: Undecided(s, t, j))
      ensures forall t, u :: Undecided(s, t, j) && Undecided(s, u, j) ==> t == u
    {
      StoredJobIsAccountedFor(s, j);
    }
  }

  /** The barrier holds in the whole system, not only for the queue by itself. */
  lemma BarrierInSystem(s: Sys, a: Act)
    requires Inv(s) && Can(s, a) && s.queue.barrier
    ensures Do(s, a).queue.barrier && Do(s, a).queue.accepted == s.queue.accepted
  {
    if a.Handle? {
      var h := s.handlers[a.t];
      var act := QueueAct(a.t, h, NextPc(h.pc, s.queue.stopped, a.ok));
      if act.Some? {
        Queue.BarrierStep(s.queue, act.value);
      }
    } else if a.Barrier? {
      Queue.BarrierStep(s.queue, a.qact);
    }
  }

  ghost function ClosedAt(accepted: seq<Queue.Item>): Sys -> bool {
    (s: Sys) => Inv(s) && s.queue.barrier && s.queue.accepted == accepted
  }

  lemma ClosedNext(s: Sys, s': Sys)
    requires Inv(s) && s.queue.barrier && Step(s, s')
    ensures Inv(s') && s'.queue.barrier && s'.queue.accepted == s.queue.accepted
  {
    var a :| Can(s, a) && s' == Do(s, a);
    KeepsInv(s, a);
    BarrierInSystem(s, a);
  }

  /** No Enqueue succeeds after StopAccepting has returned. */
  lemma NothingAcceptedAfterStopAccepting(run: seq<Sys>, config: Config, i: nat, j: nat)
    requires IsRun(Step, run) && run[0] == NewSys(config) && i <= j < |run| && run[i].queue.barrier
    ensures run[j].queue.accepted == run[i].queue.accepted
  {
    var accepted := run[i].queue.accepted;
    InvOverRuns(run, config, i);
    assert Inductive(Step, ClosedAt(accepted)) by {
      forall s, s' | ClosedAt(accepted)(s) && Step(s, s') ensures ClosedAt(accepted)(s') {
        ClosedNext(s, s');
      }
    }
    HoldsFrom(Step, ClosedAt(accepted), run, i, j);
  }
}
