/** The hub as an object whose methods run the mutex sections of
    internal/stream/stream.go from lock to unlock. Each method is a run of the
    transition system in module EventHub, so its theorems hold of the object. */
module HubObject {
  import opened Runs
  import opened EventHub

  class StreamHub {
    const buffer: nat
    var closer: Closer
    var subs: map<nat, int>
    var history: map<int, seq<Event>>
    var nextID: nat
    var subscribers: int
    var eventsTotal: nat
    var dropsTotal: nat
    var chans: map<nat, Chan>
    var published: map<int, seq<Event>>
    var fanOut: nat

    ghost function At(lock: Lock): Hub reads this {
      Hub(buffer, lock, closer, subs, history, nextID, subscribers, eventsTotal, dropsTotal, chans, published, fanOut)
    }

    /** The state between calls. */
    ghost function State(): Hub reads this {
      At(Free)
    }

    /** The object is where some run of the system could have brought it. */
    ghost predicate Valid() reads this {
      Reachable(State())
    }

    constructor (buffer: nat)
      ensures State() == NewHub(buffer) && Valid()
    {
      this.buffer := buffer;
      closer, subs, history, nextID := NotCalled, map[], map[], 0;
      subscribers, eventsTotal, dropsTotal, chans := 0, 0, 0, map[];
      published, fanOut := map[], 0;
      new;
      ReachesSelf(Step, State());
    }

    /** The replay loop of Subscribe: the sends cannot block. */
    method ReplayAll(job: int, n: nat)
      requires Reachable(At(Replaying(job, n, 0))) && n in chans && chans[n].buf == [] && chans[n].put == []
      modifies this`chans
      ensures Reachable(At(Replaying(job, n, |Log(history, job)|)))
      ensures n in chans && chans - {n} == old(chans) - {n}
      ensures chans[n].buf == Log(history, job) && chans[n].put == Log(history, job)
    {
      var events := Log(history, job);
      var k := 0;
      while k < |events|
        invariant 0 <= k <= |events| && Reachable(At(Replaying(job, n, k)))
        invariant n in chans && chans[n].buf == events[..k] && chans[n].put == events[..k]
        invariant chans - {n} == old(chans) - {n}
      {
        ghost var before := At(Replaying(job, n, k));
        ReplayRoom(before);
        chans := chans[n := Put(chans[n], events[k]).(replayed := chans[n].replayed + 1)];
        Next(before, Replay);
        assert At(Replaying(job, n, k + 1)) == Do(before, Replay);
        k := k + 1;
      }
      assert events[..k] == events;
    }

    /** A fresh channel under a fresh identifier. */
    method Register(job: int) returns (n: nat)
      requires Reachable(At(Entered(Op.Subscribe(job)))) && closer.NotCalled?
      modifies this`nextID, this`chans, this`subs
      ensures Reachable(At(Replaying(job, n, 0))) && n !in old(chans)
      ensures chans == old(chans)[n := Chan(job, [], false, |Log(published, job)|, 0, [], [], 0)]
      ensures subs == old(subs)[n := job]
    {
      ghost var entered := At(Entered(Op.Subscribe(job)));
      Regular(entered);
      nextID := nextID + 1;
      n := nextID;
      chans := chans[n := Chan(job, [], false, |Log(published, job)|, 0, [], [], 0)];
      subs := subs[n := job];
      Next(entered, Begin);
      assert At(Replaying(job, n, 0)) == Do(entered, Begin);
    }

    method Subscribe(job: int) returns (id: Option<nat>)
      requires Valid()
      modifies this
      ensures Valid()
      ensures id.None? <==> Closed(old(State()))
      ensures id.None? ==> State() == old(State())
      ensures id.Some? ==>
                && id.value !in old(chans) && id.value in chans && id.value in subs && subs[id.value] == job
                && chans[id.value].buf == Log(old(history), job) && chans[id.value].put == Log(old(history), job)
                && chans - {id.value} == old(chans) && subscribers == old(subscribers) + 1
                && history == old(history) && subs - {id.value} == old(subs) - {id.value}
    {
      Enter(State(), Op.Subscribe(job));
      if !closer.NotCalled? {
        return None;
      }
      var n := Register(job);
      assert chans - {n} == old(chans);
      ReplayAll(job, n);
      ghost var before := At(Replaying(job, n, |Log(history, job)|));
      subscribers := subscribers + 1;
      Next(before, ReplayDone);
      return Some(n);
    }

    /** One arm of the fan-out loop: the send with its default case. */
    method SendTo(id: nat, job: int, ev: Event, ghost todo: set<nat>)
      requires Reachable(At(Sending(job, ev, todo))) && id in todo && id in chans
      modifies this`chans, this`dropsTotal
      ensures Reachable(At(Sending(job, ev, todo - {id})))
      ensures chans == old(chans)[id := Sent(old(chans)[id], ev, |Log(published, job)| - 1, buffer)]
      ensures dropsTotal == old(dropsTotal) + if |old(chans)[id].buf| < buffer then 0 else 1
    {
      ghost var before := At(Sending(job, ev, todo));
      if |chans[id].buf| < buffer {
        chans := chans[id := Put(chans[id], ev).(got := chans[id].got + [|Log(published, job)| - 1])];
      } else {
        dropsTotal := dropsTotal + 1;
      }
      Next(before, Send(id));
      assert At(Sending(job, ev, todo - {id})) == Do(before, Send(id));
    }

    /** One turn of the loop: `was` is where it started, `done` who is served. */
    method SendNext(id: nat, job: int, ev: Event, ghost was: map<nat, Chan>, ghost done: set<nat>, ghost todo: set<nat>)
      requires Reachable(At(Sending(job, ev, todo))) && id in todo && id !in done && id in was
      requires chans == Fanned(was, done, ev, |Log(published, job)| - 1, buffer)
      modifies this`chans, this`dropsTotal
      ensures Reachable(At(Sending(job, ev, todo - {id})))
      ensures chans == Fanned(was, done + {id}, ev, |Log(published, job)| - 1, buffer)
      ensures dropsTotal - |Full(was, done + {id}, buffer)| == old(dropsTotal) - |Full(was, done, buffer)|
    {
      FannedNext(was, done, id, ev, |Log(published, job)| - 1, buffer);
      SendTo(id, job, ev, todo);
    }

    method FanOut(job: int, ev: Event)
      requires Reachable(At(Sending(job, ev, SubsOf(subs, job))))
      modifies this`chans, this`dropsTotal
      ensures Reachable(At(Sending(job, ev, {})))
      ensures chans == Fanned(old(chans), SubsOf(subs, job), ev, |Log(published, job)| - 1, buffer)
      ensures dropsTotal == old(dropsTotal) + |Full(old(chans), SubsOf(subs, job), buffer)|
    {
      var all: set<nat> := SubsOf(subs, job);
      Subscribed(At(Sending(job, ev, all)));
      FanOutTo(all, job, ev);
    }

    method FanOutTo(all: set<nat>, job: int, ev: Event)
      requires Reachable(At(Sending(job, ev, all))) && all <= chans.Keys
      modifies this`chans, this`dropsTotal
      ensures Reachable(At(Sending(job, ev, {})))
      ensures chans == Fanned(old(chans), all, ev, |Log(published, job)| - 1, buffer)
      ensures dropsTotal == old(dropsTotal) + |Full(old(chans), all, buffer)|
    {
      ghost var was := chans;
      ghost var done: set<nat> := {};
      FannedNone(was, ev, |Log(published, job)| - 1, buffer);
      var todo := all;
      while todo != {}
        invariant done == all - todo && todo <= all
        invariant Reachable(At(Sending(job, ev, todo)))
        invariant chans == Fanned(was, done, ev, |Log(published, job)| - 1, buffer)
        invariant dropsTotal == old(dropsTotal) + |Full(was, done, buffer)|
        decreases todo
      {
        var id: nat :| id in todo;
        SendNext(id, job, ev, was, done, todo);
        todo, done := todo - {id}, done + {id};
      }
      assert done == all;
    }

    /** Counts the event and keeps it for replay. */
    method Record(job: int, ev: Event)
      requires Reachable(At(Entered(Op.Publish(job, ev)))) && closer.NotCalled?
      modifies this`eventsTotal, this`history, this`published, this`fanOut
      ensures Reachable(At(Sending(job, ev, SubsOf(subs, job))))
      ensures eventsTotal == old(eventsTotal) + 1
      ensures history == old(history)[job := Last(Log(old(history), job) + [ev], buffer)]
      ensures |Log(published, job)| == |Log(old(published), job)| + 1
    {
      ghost var entered := At(Entered(Op.Publish(job, ev)));
      eventsTotal := eventsTotal + 1;
      history := history[job := Last(Log(history, job) + [ev], buffer)];
      published := published[job := Log(published, job) + [ev]];
      fanOut := fanOut + |SubsOf(subs, job)|;
      Next(entered, Begin);
      assert At(Sending(job, ev, SubsOf(subs, job))) == Do(entered, Begin);
    }

    /** Never waits: a full channel drops the event, every other one gets it. */
    method Publish(job: int, ev: Event)
      requires Valid()
      modifies this
      ensures Valid()
      ensures Closed(old(State())) ==> State() == old(State())
      ensures !Closed(old(State())) ==>
                && eventsTotal == old(eventsTotal) + 1 && subs == old(subs) && subscribers == old(subscribers)
                && history == old(history)[job := Last(Log(old(history), job) + [ev], buffer)]
                && chans == Fanned(old(chans), SubsOf(subs, job), ev, |Log(old(published), job)|, buffer)
                && dropsTotal == old(dropsTotal) + |Full(old(chans), SubsOf(subs, job), buffer)|
    {
      Enter(State(), Op.Publish(job, ev));
      if !closer.NotCalled? {
        return;
      }
      Record(job, ev);
      FanOut(job, ev);
      Next(At(Sending(job, ev, {})), SendDone);
    }

    /** The returned closure; calling it again finds nothing to remove. */
    method Unsubscribe(job: int, id: nat)
      requires Valid()
      modifies this
      ensures Valid()
      ensures id in old(subs) && old(subs)[id] == job ==>
                State() == old(State()).(subs := old(subs) - {id}, subscribers := old(subscribers) - 1)
      ensures !(id in old(subs) && old(subs)[id] == job) ==> State() == old(State())
    {
      ghost var h0 := State();
      Regular(h0);
      Enter(h0, Op.Unsubscribe(job, id));
      ghost var entered := At(Entered(Op.Unsubscribe(job, id)));
      if id in subs && subs[id] == job {
        subs := subs - {id};
        subscribers := subscribers - 1;
      }
      Next(entered, Begin);
    }

    /** A consumer takes the oldest buffered event of its channel. */
    method Receive(id: nat) returns (ev: Event)
      requires Valid() && id in chans && chans[id].buf != []
      modifies this`chans
      ensures Valid()
      ensures id in chans && chans - {id} == old(chans) - {id}
      ensures [ev] + chans[id].buf == old(chans)[id].buf
      ensures chans[id] == old(chans)[id].(buf := chans[id].buf, taken := old(chans)[id].taken + 1)
    {
      ghost var before := State();
      var c := chans[id];
      ev := c.buf[0];
      chans := chans[id := c.(buf := c.buf[1..], taken := c.taken + 1)];
      Next(before, EventHub.Act.Receive(id));
      assert State() == Do(before, EventHub.Act.Receive(id));
    }

    /** One turn of the loop in Close. */
    method CloseChan(id: nat)
      requires Reachable(At(Closing)) && id in subs && id in chans
      modifies this`chans, this`subs
      ensures Reachable(At(Closing)) && subs == old(subs) - {id}
      ensures chans == old(chans)[id := old(chans)[id].(closed := true)]
    {
      ghost var before, job := At(Closing), subs[id];
      chans := chans[id := chans[id].(closed := true)];
      subs := subs - {id};
      assert id in SubsOf(before.subs, job);
      Next(before, CloseOne(job, id));
      assert At(Closing) == Do(before, CloseOne(job, id));
    }

    method CloseEach()
      requires Reachable(At(Closing))
      modifies this`chans, this`subs
      ensures Reachable(At(Closing)) && subs == map[] && chans == Shut(old(chans), old(subs).Keys)
    {
      ghost var was, all := chans, subs.Keys;
      Regular(At(Closing));
      ShutNone(was);
      assert all - subs.Keys == {};
      while subs != map[]
        invariant Reachable(At(Closing)) && subs.Keys <= all
        invariant chans == Shut(was, all - subs.Keys)
        decreases subs.Keys
      {
        var id: nat :| id in subs;
        ShutNext(was, all, subs.Keys, id);
        CloseChan(id);
      }
      assert all - subs.Keys == all;
    }

    /** The call that wins the flag closes every registered channel once and leaves
        nothing registered. Any other call returns at once, even if the winner has
        not come to the lock yet. */
    method Close()
      requires Valid()
      modifies this
      ensures Valid()
      ensures !old(closer).NotCalled? ==> State() == old(State())
      ensures !old(closer).WonCas? ==> closer.Finished? && subs == map[] && subscribers == 0
      ensures old(closer).NotCalled? ==> chans == Shut(old(chans), old(subs).Keys)
    {
      ghost var h0 := State();
      Regular(h0);
      if !closer.NotCalled? {
        return;
      }
      closer := WonCas;
      Next(h0, CasClose);
      Next(State(), Acquire(CloseAll));
      Next(At(Entered(CloseAll)), Begin);
      CloseEach();
      ghost var before := At(Closing);
      subscribers := 0;
      closer := Finished;
      Next(before, CloseDone);
    }
  }

  /** What one send does to a channel. */
  function Sent(c: Chan, ev: Event, at: int, buffer: nat): Chan {
    if |c.buf| < buffer then Put(c, ev).(got := c.got + [at]) else c
  }

  function Fanned(chans: map<nat, Chan>, ids: set<nat>, ev: Event, at: int, buffer: nat): map<nat, Chan> {
    map id | id in chans :: if id in ids then Sent(chans[id], ev, at, buffer) else chans[id]
  }

  /** The subscribers that are going to miss the event. */
  function Full(chans: map<nat, Chan>, ids: set<nat>, buffer: nat): set<nat> {
    set id | id in ids && id in chans && |chans[id].buf| >= buffer
  }

  function Shut(chans: map<nat, Chan>, ids: set<nat>): map<nat, Chan> {
    map id | id in chans :: if id in ids then chans[id].(closed := true) else chans[id]
  }

  lemma FannedNone(chans: map<nat, Chan>, ev: Event, at: int, buffer: nat)
    ensures Fanned(chans, {}, ev, at, buffer) == chans && Full(chans, {}, buffer) == {}
  {
  }

  /** One more subscriber served. */
  lemma FannedNext(chans: map<nat, Chan>, done: set<nat>, id: nat, ev: Event, at: int, buffer: nat)
    requires id in chans && id !in done
    ensures
      var c, done' := Fanned(chans, done, ev, at, buffer), done + {id};
      && id in c && c[id] == chans[id]
      && Fanned(chans, done', ev, at, buffer) == c[id := Sent(chans[id], ev, at, buffer)]
      && |Full(chans, done', buffer)| == |Full(chans, done, buffer)| + if |chans[id].buf| < buffer then 0 else 1
  {
    if |chans[id].buf| < buffer {
      assert Full(chans, done + {id}, buffer) == Full(chans, done, buffer);
    } else {
      assert Full(chans, done + {id}, buffer) == Full(chans, done, buffer) + {id};
    }
  }

  lemma ShutNone(chans: map<nat, Chan>)
    ensures Shut(chans, {}) == chans
  {
  }

  /** One more channel closed. */
  lemma ShutNext(chans: map<nat, Chan>, all: set<nat>, todo: set<nat>, id: nat)
    requires id in chans && id in todo && todo <= all
    ensures
      var now := Shut(chans, all - todo);
      && id in now && now[id] == chans[id]
      && Shut(chans, all - (todo - {id})) == now[id := chans[id].(closed := true)]
  {
  }

  ghost predicate Reachable(h: Hub) {
    Reaches(Step, NewHub(h.buffer), h)
  }

  lemma Next(h: Hub, a: Act)
    requires Reachable(h) && Can(h, a)
    ensures Reachable(Do(h, a))
  {
    var h' := Do(h, a);
    assert Step(h, h') && h'.buffer == h.buffer;
    ReachesMore(Step, NewHub(h.buffer), h, h');
  }

  lemma Enter(h: Hub, op: Op)
    requires Reachable(h) && h.lock.Free? && !op.CloseAll?
    ensures Reachable(h.(lock := Entered(op)))
  {
    Next(h, Acquire(op));
  }

  lemma ReachableIsInv(h: Hub)
    requires Reachable(h)
    ensures Inv(h)
  {
    InvInductive();
    ReachesHolds(Step, Inv, NewHub(h.buffer), h);
  }

  /** What the method bodies need to know about a reachable state. */
  lemma Regular(h: Hub)
    requires Reachable(h)
    ensures forall id :: id in h.subs ==> id in h.chans
    ensures h.nextID + 1 !in h.chans
    ensures h.lock.Sending? ==> h.lock.todo <= SubsOf(h.subs, h.lock.job)
    ensures h.closer.Finished? && h.lock.Free? ==> h.subs == map[] && h.subscribers == 0
  {
    ReachableIsInv(h);
  }

  lemma Subscribed(h: Hub)
    requires Reachable(h)
    ensures forall job :: SubsOf(h.subs, job) <= h.chans.Keys
  {
    Regular(h);
  }

  lemma ReplayRoom(h: Hub)
    requires Reachable(h) && h.lock.Replaying? && h.lock.k < |Log(h.history, h.lock.job)|
    ensures Can(h, Replay)
  {
    ReachableIsInv(h);
    ReplayHasRoom(h);
  }
}
