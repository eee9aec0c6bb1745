/** The runtime and the event hub together: what a subscriber of a job ever gets
    is an order-preserving part of that job's life, and never ahead of it. A
    publisher's step and its entry into the hub's mutex section are one step
    here; everything else interleaves freely, and a publisher need not wait for
    the fan-out of its event. */
module Subscribers {
  import opened Runs
  import opened Jobs
  import opened AsyncRuntime
  import Conservation
  import EventHub
  import SqlJobs

  datatype Joint = Joint(sys: Sys, hub: EventHub.Hub)

  /** The event a publisher sends: its type is the status by name. */
  function EventOf(j: int, status: Status): EventHub.Event {
    EventHub.Event(SqlJobs.Text(status), j)
  }

  function Named(j: int, log: seq<Status>): seq<EventHub.Event> {
    seq(|log|, i requires 0 <= i < |log| => EventOf(j, log[i]))
  }

  /** What a step of the runtime publishes, if anything. */
  function Announces(s: Sys, a: Act): Option<(int, Status)>
    requires Can(s, a)
  {
    match a
    case Handle(t, _) => if s.handlers[t].pc == Saved then Some((s.handlers[t].job, Queued)) else None
    case Advance(w) =>
      var turn := TurnAt(s, w);
      if turn.event.Some? then Some((s.tasks[w].item.job, turn.event.value)) else None
    case _ => None
  }

  datatype Move =
    | OfRuntime(act: Act)
    | OfHub(hubAct: EventHub.Act)
    | Publishing(act: Act)
    | ClosingHub

  predicate BeginsPublish(h: EventHub.Hub, b: EventHub.Act) {
    b.Begin? && h.lock.Entered? && h.lock.op.Publish?
  }

  predicate CanMove(x: Joint, m: Move) {
    match m
    case OfRuntime(a) => Can(x.sys, a) && !a.CloseHub? && Announces(x.sys, a).None?
    case OfHub(b) => EventHub.Can(x.hub, b) && !b.CasClose? && !BeginsPublish(x.hub, b)
    case Publishing(a) =>
      && Can(x.sys, a) && !a.CloseHub? && Announces(x.sys, a).Some?
      && var (j, status) := Announces(x.sys, a).value;
         x.hub.lock == EventHub.Entered(EventHub.Publish(j, EventOf(j, status)))
    case ClosingHub => EventHub.Can(x.hub, EventHub.CasClose)
  }

  function Moved(x: Joint, m: Move): Joint
    requires CanMove(x, m)
  {
    match m
    case OfRuntime(a) => x.(sys := Do(x.sys, a))
    case OfHub(b) => x.(hub := EventHub.Do(x.hub, b))
    case Publishing(a) => Joint(Do(x.sys, a), EventHub.Do(x.hub, EventHub.Begin))
    case ClosingHub => Joint(Do(x.sys, CloseHub), EventHub.Do(x.hub, EventHub.CasClose))
  }

  ghost predicate JointStep(x: Joint, x': Joint) {
    exists m :: CanMove(x, m) && x' == Moved(x, m)
  }

  // --------------------------------------------------------------- invariant

  /** The hub has published exactly the events the runtime counts as taken. */
  ghost predicate Linked(x: Joint) {
    && x.sys.hubClosed == EventHub.Closed(x.hub)
    && x.sys.past.taken.Keys <= x.sys.past.holder.Keys
    && forall j :: EventHub.Log(x.hub.published, j) == Named(j, Events(x.sys.past.taken, j))
  }

  ghost predicate Inv(x: Joint) {
    Conservation.Inv(x.sys) && EventHub.Inv(x.hub) && Linked(x)
  }

  lemma HubQuiet(h: EventHub.Hub, b: EventHub.Act)
    requires EventHub.CloserOk(h) && EventHub.Can(h, b) && !b.CasClose? && !BeginsPublish(h, b)
    ensures EventHub.Do(h, b).published == h.published && EventHub.Closed(EventHub.Do(h, b)) == EventHub.Closed(h)
  {
  }

  /** The log of taken events after a step. */
  function TakenAfter(s: Sys, a: Act): map<int, seq<Status>>
    requires Can(s, a)
  {
    var said := Announces(s, a);
    if a.Accept? then s.past.taken[s.store.nextID := []]
    else if said.Some? && !s.hubClosed then
      s.past.taken[said.value.0 := Events(s.past.taken, said.value.0) + [said.value.1]]
    else s.past.taken
  }

  lemma HandleTaken(s: Sys, t: nat, ok: bool)
    requires CanHandle(s, t, ok)
    ensures DoHandle(s, t, ok).past.taken == TakenAfter(s, Handle(t, ok)) && DoHandle(s, t, ok).hubClosed == s.hubClosed
    ensures s.past.holder.Keys <= DoHandle(s, t, ok).past.holder.Keys
  {
  }

  lemma AdvanceTaken(s: Sys, w: nat)
    requires CanAdvance(s, w)
    ensures DoAdvance(s, w).past.taken == TakenAfter(s, Advance(w)) && DoAdvance(s, w).hubClosed == s.hubClosed
    ensures s.past.holder.Keys <= DoAdvance(s, w).past.holder.Keys
  {
  }

  lemma StepTaken(s: Sys, a: Act)
    requires Can(s, a)
    ensures Do(s, a).past.taken == TakenAfter(s, a) && s.past.holder.Keys <= Do(s, a).past.holder.Keys
    ensures !a.CloseHub? ==> Do(s, a).hubClosed == s.hubClosed
    ensures a.Accept? ==> s.store.nextID in Do(s, a).past.holder
  {
    match a
    case Handle(t, ok) => HandleTaken(s, t, ok);
    case Advance(w) => AdvanceTaken(s, w);
    case _ =>
  }

  /** Whoever publishes is the job's holder. */
  lemma PublisherHolds(s: Sys, a: Act)
    requires Conservation.Holders(s) && Can(s, a) && Announces(s, a).Some?
    ensures Announces(s, a).value.0 in s.past.holder
  {
  }

  lemma QuietKeepsLinked(x: Joint, a: Act)
    requires Linked(x) && x.sys.store.nextID !in x.sys.past.holder && CanMove(x, OfRuntime(a))
    ensures Linked(x.(sys := Do(x.sys, a)))
  {
    var s, s' := x.sys, Do(x.sys, a);
    StepTaken(s, a);
    forall j: int ensures Events(s'.past.taken, j) == Events(s.past.taken, j) {
    }
  }

  lemma NamedMore(j: int, log: seq<Status>, status: Status)
    ensures Named(j, log + [status]) == Named(j, log) + [EventOf(j, status)]
  {
  }

  lemma PublishKeepsLinked(x: Joint, a: Act)
    requires Linked(x) && Conservation.Holders(x.sys) && CanMove(x, Publishing(a))
    ensures Linked(Moved(x, Publishing(a)))
  {
    var x' := Moved(x, Publishing(a));
    var (j, status) := Announces(x.sys, a).value;
    StepTaken(x.sys, a);
    PublisherHolds(x.sys, a);
    NamedMore(j, Events(x.sys.past.taken, j), status);
    PublishedAfter(x.hub, j, EventOf(j, status));
    forall k: int ensures EventHub.Log(x'.hub.published, k) == Named(k, Events(x'.sys.past.taken, k)) {
      assert EventHub.Log(x.hub.published, k) == Named(k, Events(x.sys.past.taken, k));
    }
  }

  lemma PublishedAfter(h: EventHub.Hub, j: int, ev: EventHub.Event)
    requires h.lock == EventHub.Entered(EventHub.Publish(j, ev))
    ensures
      var h' := EventHub.Do(h, EventHub.Begin);
      && EventHub.Closed(h') == EventHub.Closed(h)
      && h'.published ==
         if EventHub.Closed(h) then h.published else h.published[j := EventHub.Log(h.published, j) + [ev]]
  {
  }

  lemma KeepsLinked(x: Joint, m: Move)
    requires Inv(x) && CanMove(x, m)
    ensures Linked(Moved(x, m))
  {
    match m
    case OfRuntime(a) => QuietKeepsLinked(x, a);
    case OfHub(b) => HubQuiet(x.hub, b);
    case Publishing(a) => PublishKeepsLinked(x, a);
    case ClosingHub => StepTaken(x.sys, CloseHub);
  }

  lemma HubKeeps(h: EventHub.Hub, b: EventHub.Act)
    requires EventHub.Inv(h) && EventHub.Can(h, b)
    ensures EventHub.Inv(EventHub.Do(h, b))
  {
    assert EventHub.Step(h, EventHub.Do(h, b));
    EventHub.InvNext(h, EventHub.Do(h, b));
  }

  lemma KeepsInv(x: Joint, m: Move)
    requires Inv(x) && CanMove(x, m)
    ensures Inv(Moved(x, m))
  {
    KeepsLinked(x, m);
    match m
    case OfRuntime(a) => Conservation.KeepsInv(x.sys, a);
    case OfHub(b) => HubKeeps(x.hub, b);
    case Publishing(a) =>
      Conservation.KeepsInv(x.sys, a);
      HubKeeps(x.hub, EventHub.Begin);
    case ClosingHub =>
      Conservation.KeepsInv(x.sys, CloseHub);
      HubKeeps(x.hub, EventHub.CasClose);
  }

  lemma InvInductive()
    ensures Inductive(JointStep, Inv)
  {
    forall x, x' | Inv(x) && JointStep(x, x') ensures Inv(x') {
      var m :| CanMove(x, m) && x' == Moved(x, m);
      KeepsInv(x, m);
    }
  }

  lemma HubStarts(buffer: nat)
    ensures EventHub.Inv(EventHub.NewHub(buffer))
  {
  }

  lemma LinkedAtStart(config: Config, buffer: nat)
    ensures Linked(Joint(NewSys(config), EventHub.NewHub(buffer)))
  {
  }

  lemma StartsInInv(config: Config, buffer: nat)
    ensures Inv(Joint(NewSys(config), EventHub.NewHub(buffer)))
  {
    Conservation.StartsInInv(config);
    HubStarts(buffer);
    LinkedAtStart(config, buffer);
  }

  // ------------------------------------------------- the hub holds nobody up

  /** Where a run from the start can lead to. */
  ghost predicate Reachable(init: Init, x: Joint) {
    Reaches(JointStep, Start(init), x)
  }

  datatype Init = Init(config: Config, buffer: nat)

  function Start(init: Init): Joint {
    Joint(NewSys(init.config), EventHub.NewHub(init.buffer))
  }

  lemma Moves(init: Init, x0: Joint, x: Joint, m: Move) returns (x': Joint)
    requires Reachable(init, x) && Reaches(JointStep, x0, x) && CanMove(x, m)
    ensures x' == Moved(x, m) && Reachable(init, x') && Reaches(JointStep, x0, x')
  {
    x' := Moved(x, m);
    ReachesMore(JointStep, x0, x, x');
    ReachesMore(JointStep, Start(init), x, x');
  }

  lemma Registered(init: Init, x: Joint)
    requires Reachable(init, x)
    ensures EventHub.RegistryOk(x.hub) && x.sys.hubClosed == EventHub.Closed(x.hub)
  {
    StartsInInv(init.config, init.buffer);
    InvInductive();
    ReachesHolds(JointStep, Inv, Start(init), x);
  }

  lemma SendStays(h: EventHub.Hub, id: nat)
    requires EventHub.RegistryOk(h) && h.lock.Sending? && id in h.lock.todo
    ensures EventHub.Can(h, EventHub.Send(id))
    ensures
      var h' := EventHub.Do(h, EventHub.Send(id));
      h'.lock.Sending? && h'.lock.todo == h.lock.todo - {id}
  {
  }

  lemma SendOne(init: Init, x0: Joint, x: Joint, id: nat) returns (x': Joint)
    requires Reachable(init, x) && Reaches(JointStep, x0, x) && x.hub.lock.Sending? && id in x.hub.lock.todo
    ensures Reachable(init, x') && Reaches(JointStep, x0, x') && x'.sys == x.sys
    ensures x'.hub.lock.Sending? && x'.hub.lock.todo == x.hub.lock.todo - {id}
  {
    Registered(init, x);
    SendStays(x.hub, id);
    x' := Moves(init, x0, x, OfHub(EventHub.Send(id)));
  }

  lemma SendDoneEffect(h: EventHub.Hub)
    requires h.lock.Sending? && h.lock.todo == {}
    ensures EventHub.Can(h, EventHub.SendDone) && EventHub.Do(h, EventHub.SendDone) == h.(lock := EventHub.Free)
  {
  }

  lemma SendOver(init: Init, x0: Joint, x: Joint) returns (x': Joint)
    requires Reachable(init, x) && Reaches(JointStep, x0, x) && x.hub.lock.Sending? && x.hub.lock.todo == {}
    ensures Reachable(init, x') && Reaches(JointStep, x0, x') && x'.sys == x.sys && x'.hub.lock.Free?
  {
    SendDoneEffect(x.hub);
    x' := Moves(init, x0, x, OfHub(EventHub.SendDone));
  }

  /** A fan-out under way comes to its end. */
  lemma {:induction false} FanOutEnds(init: Init, x0: Joint, x: Joint, todo: set<nat>) returns (x': Joint)
    requires Reachable(init, x) && Reaches(JointStep, x0, x) && x.hub.lock.Sending? && x.hub.lock.todo == todo
    ensures Reachable(init, x') && Reaches(JointStep, x0, x') && x'.sys == x.sys && x'.hub.lock.Free?
    decreases |todo|
  {
    if todo == {} {
      x' := SendOver(init, x0, x);
    } else {
      var id: nat :| id in todo;
      var x1 := SendOne(init, x0, x, id);
      x' := FanOutEnds(init, x0, x1, todo - {id});
    }
  }

  lemma EntersPublish(h: EventHub.Hub, j: int, ev: EventHub.Event)
    requires h.lock.Free?
    ensures EventHub.Can(h, EventHub.Acquire(EventHub.Publish(j, ev)))
    ensures EventHub.Do(h, EventHub.Acquire(EventHub.Publish(j, ev))) ==
              h.(lock := EventHub.Entered(EventHub.Publish(j, ev)))
    ensures
      var h' := EventHub.Do(h.(lock := EventHub.Entered(EventHub.Publish(j, ev))), EventHub.Begin);
      h'.lock.Free? || h'.lock.Sending?
  {
  }

  lemma PublisherGoesOn(init: Init, x: Joint, a: Act) returns (x': Joint)
    requires Reachable(init, x) && x.hub.lock.Free? && Can(x.sys, a) && Announces(x.sys, a).Some?
    ensures Reaches(JointStep, x, x') && x'.sys == Do(x.sys, a) && x'.hub.lock.Free?
  {
    var (j, status) := Announces(x.sys, a).value;
    EntersPublish(x.hub, j, EventOf(j, status));
    ReachesSelf(JointStep, x);
    var x1 := Moves(init, x, x, OfHub(EventHub.Acquire(EventHub.Publish(j, EventOf(j, status)))));
    x' := Moves(init, x, x1, Publishing(a));
    if x'.hub.lock.Sending? {
      x' := FanOutEnds(init, x, x', x'.hub.lock.todo);
    }
  }

  /** Whenever the hub's mutex is free, every step the runtime can take can be
      taken together with the hub, its event published and the mutex free again:
      publishing waits for no subscriber. */
  lemma HubHoldsNobodyUp(init: Init, x: Joint, a: Act) returns (x': Joint)
    requires Reachable(init, x) && x.hub.lock.Free? && Can(x.sys, a)
    ensures Reaches(JointStep, x, x') && x'.sys == Do(x.sys, a) && x'.hub.lock.Free?
  {
    ReachesSelf(JointStep, x);
    if a.CloseHub? {
      Registered(init, x);
      x' := x;
      if !EventHub.Closed(x.hub) {
        x' := Moves(init, x, x, ClosingHub);
      }
    } else if Announces(x.sys, a).None? {
      x' := Moves(init, x, x, OfRuntime(a));
    } else {
      x' := PublisherGoesOn(init, x, a);
    }
  }

  // ------------------------------------------------- one channel, all its events

  function Range(from: nat, n: nat): seq<int> {
    seq(n, i => from + i)
  }

  lemma {:induction false} PickRange(log: seq<EventHub.Event>, from: nat, n: nat)
    requires from + n <= |log|
    ensures EventHub.InLog(log, Range(from, n)) && EventHub.Pick(log, Range(from, n)) == log[from..from + n]
  {
    if n > 0 {
      PickRange(log, from, n - 1);
      assert Range(from, n) == Range(from, n - 1) + [from + n - 1];
      EventHub.PickOneMore(log, Range(from, n - 1), from + n - 1);
      assert log[from..from + n] == log[from..from + n - 1] + [log[from + n - 1]];
    } else {
      assert Range(from, 0) == [];
    }
  }

  lemma {:induction false} PickBoth(log: seq<EventHub.Event>, a: seq<int>, b: seq<int>)
    requires EventHub.InLog(log, a) && EventHub.InLog(log, b)
    ensures EventHub.InLog(log, a + b) && EventHub.Pick(log, a + b) == EventHub.Pick(log, a) + EventHub.Pick(log, b)
    decreases b
  {
    if b == [] {
      assert a + b == a;
    } else {
      var b', last := b[..|b| - 1], b[|b| - 1];
      PickBoth(log, a, b');
      assert a + b == (a + b') + [last] && b == b' + [last];
      EventHub.PickOneMore(log, a + b', last);
    }
  }

  /** Replay and live events together are one rising selection from the log. */
  lemma OneSelection(c: EventHub.Chan, log: seq<EventHub.Event>, buffer: nat) returns (at: seq<int>)
    requires EventHub.Delivered(c, log, buffer)
    ensures EventHub.Rising(at, 0, |log|) && EventHub.InLog(log, at) && c.put == EventHub.Pick(log, at)
  {
    var from := EventHub.ReplayFrom(c.base, buffer);
    at := Range(from, c.replayed) + c.got;
    PickRange(log, from, c.replayed);
    PickBoth(log, Range(from, c.replayed), c.got);
  }

  lemma {:induction false} RisingIsShort(at: seq<int>, size: nat)
    requires EventHub.Rising(at, 0, size)
    ensures |at| <= size
    decreases |at|
  {
    if at != [] {
      var last := at[|at| - 1];
      RisingIsShort(at[..|at| - 1], last);
    }
  }

  // ---------------------------------------------------------------- theorems

  /** The channel has got a selection, in order, of the job's events. */
  ghost predicate Selects(put: seq<EventHub.Event>, j: int, log: seq<Status>, at: seq<int>) {
    && EventHub.Rising(at, 0, |log|) && |Named(j, log)| == |log|
    && put == EventHub.Pick(Named(j, log), at)
  }

  lemma ChannelSees(x: Joint, id: nat)
    requires Inv(x) && id in x.hub.chans
    ensures
      var c := x.hub.chans[id];
      var log := Events(x.sys.past.taken, c.job);
      && (exists at :: Selects(c.put, c.job, log, at)) && |c.put| <= |log| <= 3
      && Conservation.InOrder(log)
      && (c.job in x.sys.store.jobs ==> Conservation.NotAhead(log, x.sys.store.jobs[c.job].status))
  {
    var c := x.hub.chans[id];
    var log := Events(x.sys.past.taken, c.job);
    assert EventHub.ChanOk(x.hub, id);
    assert EventHub.Log(x.hub.published, c.job) == Named(c.job, log);
    var at := OneSelection(c, Named(c.job, log), x.hub.buffer);
    RisingIsShort(at, |log|);
    assert Selects(c.put, c.job, log, at);
    JobsLog(x, c.job);
  }

  lemma JobsLog(x: Joint, j: int)
    requires Inv(x)
    ensures
      var log := Events(x.sys.past.taken, j);
      && Conservation.InOrder(log) && |log| <= 3
      && (j in x.sys.store.jobs ==> Conservation.NotAhead(log, x.sys.store.jobs[j].status))
  {
    if j in x.sys.past.holder {
      Conservation.EventsFit(x.sys, j);
    }
  }

  /** Over every run of the runtime with its hub, for every channel ever made:
      what it has been sent is an order-preserving selection of the job's events,
      each at most once; those are a prefix of queued-running-succeeded,
      queued-running-failed or queued-failed; and none is ahead of the stored
      status. */
  lemma SubscribersSeeTheJobsLife(run: seq<Joint>, config: Config, buffer: nat, i: nat, id: nat)
    requires IsRun(JointStep, run) && run[0] == Joint(NewSys(config), EventHub.NewHub(buffer))
    requires i < |run| && id in run[i].hub.chans
    ensures
      var s, c := run[i].sys, run[i].hub.chans[id];
      var log := Events(s.past.taken, c.job);
      && (exists at :: Selects(c.put, c.job, log, at)) && |c.put| <= |log| <= 3
      && Conservation.InOrder(log)
      && (c.job in s.store.jobs ==> Conservation.NotAhead(log, s.store.jobs[c.job].status))
  {
    StartsInInv(config, buffer);
    InvInductive();
    HoldsFrom(JointStep, Inv, run, 0, i);
    ChannelSees(run[i], id);
  }
}
