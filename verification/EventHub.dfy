/** The event hub (internal/stream/stream.go): bounded subscriber channels with
    replay and drops. Steps are finer than the mutex: each channel operation
    under the lock is its own step, consumers receive at any time, and Close
    flips `closed` before it takes the lock. */
module EventHub {
  import opened Runs

  datatype Event = Event(kind: string, job: int)

  /** A subscriber's channel. `put` is everything ever sent to it and `taken` how
      much of that its consumer has received; `base` is how many events of its
      job were published before it subscribed, `got` which later ones it got. */
  datatype Chan = Chan(
    job: int,
    buf: seq<Event>,
    closed: bool,
    base: nat,
    replayed: nat,
    got: seq<int>,
    put: seq<Event>,
    taken: nat)

  datatype Op = Subscribe(job: int) | Publish(job: int, ev: Event) | Unsubscribe(job: int, id: nat) | CloseAll

  /** Who is under the mutex and how far. */
  datatype Lock =
    | Free
    | Entered(op: Op)
    | Replaying(job: int, id: nat, k: nat)
    | Sending(job: int, ev: Event, todo: set<nat>)
    | Closing

  /** The Close call that won the compare-and-set, if any. */
  datatype Closer = NotCalled | WonCas | Finished

  /** `published` and `fanOut` are history: all events accepted per job, and the
      number of registered subscribers summed over all publishes. The source's
      map of maps is one map here, from subscriber to job. */
  datatype Hub = Hub(
    buffer: nat,
    lock: Lock,
    closer: Closer,
    subs: map<nat, int>,
    history: map<int, seq<Event>>,
    nextID: nat,
    subscribers: int,
    eventsTotal: nat,
    dropsTotal: nat,
    chans: map<nat, Chan>,
    published: map<int, seq<Event>>,
    fanOut: nat)

  function NewHub(buffer: nat): Hub {
    Hub(buffer, Free, NotCalled, map[], map[], 0, 0, 0, 0, map[], map[], 0)
  }

  predicate Closed(h: Hub) {
    !h.closer.NotCalled?
  }

  /** The registered subscribers of one job. */
  function SubsOf(subs: map<nat, int>, job: int): set<nat> {
    set id | id in subs && subs[id] == job
  }

  function Last<T>(s: seq<T>, n: nat): seq<T> {
    if |s| <= n then s else s[|s| - n..]
  }

  function Log(log: map<int, seq<Event>>, job: int): seq<Event> {
    if job in log then log[job] else []
  }

  // ------------------------------------------------------------------- steps

  datatype Act =
    | CasClose
    | Acquire(op: Op)
    | Begin
    | Replay
    | ReplayDone
    | Send(id: nat)
    | SendDone
    | CloseOne(job: int, id: nat)
    | CloseDone
    | Receive(id: nat)

  predicate Can(h: Hub, a: Act) {
    match a
    case CasClose => h.closer.NotCalled?
    case Acquire(op) => h.lock.Free? && (op.CloseAll? ==> h.closer.WonCas?)
    case Begin => h.lock.Entered?
    case Replay =>
      && h.lock.Replaying? && h.lock.k < |Log(h.history, h.lock.job)|
      && h.lock.id in h.chans && |h.chans[h.lock.id].buf| < h.buffer
    case ReplayDone => h.lock.Replaying? && h.lock.k == |Log(h.history, h.lock.job)|
    case Send(id) => h.lock.Sending? && id in h.lock.todo && id in h.chans
    case SendDone => h.lock.Sending? && h.lock.todo == {}
    case CloseOne(job, id) => h.lock.Closing? && id in SubsOf(h.subs, job) && id in h.chans
    case CloseDone => h.lock.Closing? && h.subs == map[]
    case Receive(id) => id in h.chans && h.chans[id].buf != []
  }

  function Put(c: Chan, ev: Event): Chan {
    c.(buf := c.buf + [ev], put := c.put + [ev])
  }

  function DoSubscribe(h: Hub, job: int): Hub {
    if Closed(h) then h.(lock := Free)
    else
      var id := h.nextID + 1;
      h.(nextID := id,
         chans := h.chans[id := Chan(job, [], false, |Log(h.published, job)|, 0, [], [], 0)],
         subs := h.subs[id := job],
         lock := Replaying(job, id, 0))
  }

  function DoPublish(h: Hub, job: int, ev: Event): Hub {
    if Closed(h) then h.(lock := Free)
    else
      h.(eventsTotal := h.eventsTotal + 1,
         history := h.history[job := Last(Log(h.history, job) + [ev], h.buffer)],
         published := h.published[job := Log(h.published, job) + [ev]],
         fanOut := h.fanOut + |SubsOf(h.subs, job)|,
         lock := Sending(job, ev, SubsOf(h.subs, job)))
  }

  function DoUnsubscribe(h: Hub, job: int, id: nat): Hub {
    if id in h.subs && h.subs[id] == job then
      h.(subs := h.subs - {id}, subscribers := h.subscribers - 1, lock := Free)
    else h.(lock := Free)
  }

  function DoReplay(h: Hub): Hub
    requires Can(h, Replay)
  {
    var Replaying(job, id, k) := h.lock;
    h.(chans := h.chans[id := Put(h.chans[id], h.history[job][k]).(replayed := h.chans[id].replayed + 1)],
       lock := Replaying(job, id, k + 1))
  }

  /** The select with a default: a full channel drops the event. */
  function DoSend(h: Hub, id: nat): Hub
    requires Can(h, Send(id))
  {
    var Sending(job, ev, todo) := h.lock;
    var c := h.chans[id];
    if |c.buf| < h.buffer then
      h.(chans := h.chans[id := Put(c, ev).(got := c.got + [|Log(h.published, job)| - 1])],
         lock := Sending(job, ev, todo - {id}))
    else h.(dropsTotal := h.dropsTotal + 1, lock := Sending(job, ev, todo - {id}))
  }

  function DoCloseOne(h: Hub, job: int, id: nat): Hub
    requires Can(h, CloseOne(job, id))
  {
    h.(chans := h.chans[id := h.chans[id].(closed := true)], subs := h.subs - {id})
  }

  function DoReceive(h: Hub, id: nat): Hub
    requires Can(h, Receive(id))
  {
    var c := h.chans[id];
    h.(chans := h.chans[id := c.(buf := c.buf[1..], taken := c.taken + 1)])
  }

  function DoBegin(h: Hub): Hub
    requires Can(h, Begin)
  {
    match h.lock.op
    case Subscribe(job) => DoSubscribe(h, job)
    case Publish(job, ev) => DoPublish(h, job, ev)
    case Unsubscribe(job, id) => DoUnsubscribe(h, job, id)
    case CloseAll => h.(lock := Closing)
  }

  function Do(h: Hub, a: Act): Hub
    requires Can(h, a)
  {
    match a
    case CasClose => h.(closer := WonCas)
    case Acquire(op) => h.(lock := Entered(op))
    case Begin => DoBegin(h)
    case Replay => DoReplay(h)
    case ReplayDone => h.(subscribers := h.subscribers + 1, lock := Free)
    case Send(id) => DoSend(h, id)
    case SendDone => h.(lock := Free)
    case CloseOne(job, id) => DoCloseOne(h, job, id)
    case CloseDone => h.(subscribers := 0, closer := Finished, lock := Free)
    case Receive(id) => DoReceive(h, id)
  }

  ghost predicate Step(h: Hub, h': Hub) {
    exists a :: Can(h, a) && h' == Do(h, a)
  }

  // --------------------------------------------------- registration invariant

  predicate RegistryOk(h: Hub) {
    && (forall id :: id in h.subs ==> id in h.chans && h.chans[id].job == h.subs[id] && !h.chans[id].closed)
    && (forall id :: id in h.chans ==> 1 <= id <= h.nextID)
    && (h.lock.Sending? ==> h.lock.todo <= SubsOf(h.subs, h.lock.job))
    && (h.lock.Replaying? ==> h.lock.id in h.subs && h.subs[h.lock.id] == h.lock.job)
  }

  /** The counter is right whenever the mutex is free, and off by the one entry
      being replayed while Subscribe is under way. */
  predicate CounterOk(h: Hub) {
    match h.lock
    case Replaying(_, _, _) => h.subscribers + 1 == |h.subs|
    case Closing => true
    case _ => h.subscribers == |h.subs|
  }

  predicate CloserOk(h: Hub) {
    && (h.closer.Finished? ==> h.subs == map[] && !h.lock.Replaying? && !h.lock.Sending?)
    && (h.lock.Closing? || h.lock == Entered(CloseAll) ==> h.closer.WonCas?)
  }

  predicate Tidy(h: Hub) {
    RegistryOk(h) && CounterOk(h) && CloserOk(h)
  }

  lemma SubscribeTidy(h: Hub, job: int)
    requires Tidy(h) && h.lock == Entered(Subscribe(job))
    ensures Tidy(DoSubscribe(h, job))
  {
    assert h.nextID + 1 !in h.chans;
    SubscribeRegistry(h, job);
  }

  lemma SubscribeRegistry(h: Hub, job: int)
    requires RegistryOk(h)
    ensures RegistryOk(DoSubscribe(h, job))
  {
    assert h.nextID + 1 !in h.chans;
  }

  lemma PublishTidy(h: Hub, job: int, ev: Event)
    requires Tidy(h) && h.lock == Entered(Publish(job, ev))
    ensures Tidy(DoPublish(h, job, ev))
  {
  }

  lemma UnsubscribeTidy(h: Hub, job: int, id: nat)
    requires Tidy(h) && h.lock == Entered(Unsubscribe(job, id))
    ensures Tidy(DoUnsubscribe(h, job, id))
  {
    assert (h.subs - {id}).Keys == h.subs.Keys - {id};
  }

  lemma BeginTidy(h: Hub)
    requires Tidy(h) && h.lock.Entered?
    ensures Tidy(DoBegin(h))
  {
    match h.lock.op
    case Subscribe(job) => SubscribeTidy(h, job);
    case Publish(job, ev) => PublishTidy(h, job, ev);
    case Unsubscribe(job, id) => UnsubscribeTidy(h, job, id);
    case CloseAll =>
  }

  lemma ReplayTidy(h: Hub)
    requires Tidy(h) && Can(h, Replay)
    ensures Tidy(DoReplay(h))
  {
  }

  lemma SendTidy(h: Hub, id: nat)
    requires Tidy(h) && Can(h, Send(id))
    ensures Tidy(DoSend(h, id))
  {
  }

  lemma CloseOneTidy(h: Hub, job: int, id: nat)
    requires Tidy(h) && Can(h, CloseOne(job, id))
    ensures Tidy(DoCloseOne(h, job, id))
  {
  }

  lemma ReceiveTidy(h: Hub, id: nat)
    requires Tidy(h) && Can(h, Receive(id))
    ensures Tidy(DoReceive(h, id))
  {
  }

  /** The steps that only move the lock or the closer along. */
  lemma LockTidy(h: Hub, a: Act)
    requires Tidy(h) && Can(h, a) && (a.CasClose? || a.Acquire? || a.ReplayDone? || a.SendDone? || a.CloseDone?)
    ensures Tidy(Do(h, a))
  {
  }

  lemma KeepsTidy(h: Hub, a: Act)
    requires Tidy(h) && Can(h, a)
    ensures Tidy(Do(h, a))
  {
    match a
    case Begin => BeginTidy(h);
    case Replay => ReplayTidy(h);
    case Send(id) => SendTidy(h, id);
    case CloseOne(job, id) => CloseOneTidy(h, job, id);
    case Receive(id) => ReceiveTidy(h, id);
    case _ => LockTidy(h, a);
  }

  // ------------------------------------------------------- delivery invariant

  predicate InLog(log: seq<Event>, at: seq<int>) {
    forall i :: 0 <= i < |at| ==> 0 <= at[i] < |log|
  }

  /** The events of the log at the given indices. */
  function Pick(log: seq<Event>, at: seq<int>): (r: seq<Event>)
    requires InLog(log, at)
    ensures |r| == |at|
  {
    if at == [] then [] else Pick(log, at[..|at| - 1]) + [log[at[|at| - 1]]]
  }

  /** First event replayed to a channel that subscribed after `base` of them. */
  function ReplayFrom(base: nat, buffer: nat): nat {
    if base <= buffer then 0 else base - buffer
  }

  /** Indices into the log, rising, none before `base`. */
  predicate Rising(at: seq<int>, base: nat, size: nat) {
    && (forall i :: 0 <= i < |at| ==> base <= at[i] < size)
    && (forall i, k :: 0 <= i < k < |at| ==> at[i] < at[k])
  }

  /** What a channel has ever been sent: a stretch of the log ending at the
      subscription, then a subsequence of what came later. */
  predicate SentSoFar(put: seq<Event>, log: seq<Event>, base: nat, from: nat, replayed: nat, got: seq<int>) {
    && from + replayed <= base <= |log|
    && Rising(got, base, |log|)
    && put == log[from..from + replayed] + Pick(log, got)
  }

  /** And what is buffered is what its consumer has not taken yet. */
  predicate Delivered(c: Chan, log: seq<Event>, buffer: nat) {
    && SentSoFar(c.put, log, c.base, ReplayFrom(c.base, buffer), c.replayed, c.got)
    && c.taken <= |c.put| && c.buf == c.put[c.taken..] && |c.buf| <= buffer
  }

  predicate InReplay(h: Hub, id: nat) {
    h.lock.Replaying? && h.lock.id == id
  }

  predicate ChanOk(h: Hub, id: nat)
    requires id in h.chans
  {
    var c := h.chans[id];
    var log := Log(h.published, c.job);
    && Delivered(c, log, h.buffer)
    && (if InReplay(h, id) then c.replayed == h.lock.k && c.got == [] && c.base == |log| && c.job == h.lock.job
        else ReplayFrom(c.base, h.buffer) + c.replayed == c.base)
    && (h.lock.Sending? && id in h.lock.todo ==>
          && c.job == h.lock.job && log != [] && log[|log| - 1] == h.lock.ev && c.base < |log|
          && Rising(c.got, c.base, |log| - 1))
  }

  ghost predicate HistoryOk(h: Hub) {
    forall job :: Log(h.history, job) == Last(Log(h.published, job), h.buffer)
  }

  /** Live enqueues so far, over the channels with identifiers up to `n`. */
  function LiveSends(chans: map<nat, Chan>, n: nat): nat {
    if n == 0 then 0 else LiveSends(chans, n - 1) + if n in chans then |chans[n].got| else 0
  }

  function Pending(h: Hub): nat {
    if h.lock.Sending? then |h.lock.todo| else 0
  }

  predicate FanOutOk(h: Hub) {
    LiveSends(h.chans, h.nextID) + h.dropsTotal + Pending(h) == h.fanOut
  }

  // One channel, one operation.

  lemma {:induction false} PickGrow(log: seq<Event>, ev: Event, at: seq<int>)
    requires InLog(log, at)
    ensures InLog(log + [ev], at) && Pick(log + [ev], at) == Pick(log, at)
  {
    if at != [] {
      PickGrow(log, ev, at[..|at| - 1]);
    }
  }

  lemma GrowDelivered(c: Chan, log: seq<Event>, ev: Event, buffer: nat)
    requires Delivered(c, log, buffer)
    ensures Delivered(c, log + [ev], buffer) && c.base <= |log| && Rising(c.got, c.base, |log|)
  {
    var from := ReplayFrom(c.base, buffer);
    assert (log + [ev])[from..from + c.replayed] == log[from..from + c.replayed];
    PickGrow(log, ev, c.got);
  }

  lemma PutDelivered(c: Chan, log: seq<Event>, ev: Event, buffer: nat)
    requires c.taken <= |c.put| && c.buf == c.put[c.taken..] && |c.buf| < buffer
    ensures var c' := Put(c, ev); c'.taken <= |c'.put| && c'.buf == c'.put[c'.taken..] && |c'.buf| <= buffer
  {
  }

  lemma ReplaySent(put: seq<Event>, log: seq<Event>, base: nat, from: nat, replayed: nat)
    requires SentSoFar(put, log, base, from, replayed, []) && from + replayed < base
    ensures SentSoFar(put + [log[from + replayed]], log, base, from, replayed + 1, [])
  {
    assert log[from..from + replayed + 1] == log[from..from + replayed] + [log[from + replayed]];
    assert Pick(log, []) == [];
  }

  lemma ReplayDelivered(c: Chan, log: seq<Event>, buffer: nat)
    requires Delivered(c, log, buffer) && c.got == [] && c.base == |log| && |c.buf| < buffer
    requires c.replayed < |Last(log, buffer)|
    ensures Delivered(Put(c, Last(log, buffer)[c.replayed]).(replayed := c.replayed + 1), log, buffer)
  {
    ReplaySent(c.put, log, c.base, ReplayFrom(c.base, buffer), c.replayed);
    PutDelivered(c, log, Last(log, buffer)[c.replayed], buffer);
  }

  lemma PickOneMore(log: seq<Event>, got: seq<int>, i: int)
    requires InLog(log, got) && 0 <= i < |log|
    ensures InLog(log, got + [i]) && Pick(log, got + [i]) == Pick(log, got) + [log[i]]
  {
    assert (got + [i])[..|got + [i]| - 1] == got;
  }

  lemma SendPut(put: seq<Event>, log: seq<Event>, from: nat, replayed: nat, got: seq<int>, got': seq<int>)
    requires InLog(log, got) && log != [] && from + replayed <= |log| && got' == got + [|log| - 1]
    requires put == log[from..from + replayed] + Pick(log, got)
    ensures InLog(log, got') && put + [log[|log| - 1]] == log[from..from + replayed] + Pick(log, got')
  {
    PickOneMore(log, got, |log| - 1);
    OneMore(log[from..from + replayed], Pick(log, got), log[|log| - 1]);
  }

  lemma SendSent(put: seq<Event>, log: seq<Event>, base: nat, from: nat, replayed: nat, got: seq<int>, got': seq<int>)
    requires SentSoFar(put, log, base, from, replayed, got) && base < |log| && Rising(got, base, |log| - 1)
    requires got' == got + [|log| - 1]
    ensures SentSoFar(put + [log[|log| - 1]], log, base, from, replayed, got')
  {
    assert InLog(log, got);
    RisingMore(got, base, |log| - 1);
    SendPut(put, log, from, replayed, got, got');
  }

  lemma RisingMore(got: seq<int>, base: nat, last: nat)
    requires Rising(got, base, last) && base <= last
    ensures Rising(got + [last], base, last + 1)
  {
  }

  lemma OneMore(a: seq<Event>, b: seq<Event>, ev: Event)
    ensures a + b + [ev] == a + (b + [ev])
  {
  }

  lemma SendDelivered(c: Chan, log: seq<Event>, buffer: nat)
    requires Delivered(c, log, buffer) && c.base < |log| && Rising(c.got, c.base, |log| - 1) && |c.buf| < buffer
    ensures Delivered(Put(c, log[|log| - 1]).(got := c.got + [|log| - 1]), log, buffer)
  {
    SendSent(c.put, log, c.base, ReplayFrom(c.base, buffer), c.replayed, c.got, c.got + [|log| - 1]);
    PutDelivered(c, log, log[|log| - 1], buffer);
  }

  lemma ReceiveDelivered(c: Chan, log: seq<Event>, buffer: nat)
    requires Delivered(c, log, buffer) && c.buf != []
    ensures Delivered(c.(buf := c.buf[1..], taken := c.taken + 1), log, buffer)
  {
  }

  // Counting.

  lemma {:induction false} SameSends(chans: map<nat, Chan>, chans': map<nat, Chan>, n: nat)
    requires forall id :: 1 <= id <= n ==> (id in chans <==> id in chans')
    requires forall id :: 1 <= id <= n && id in chans ==> |chans'[id].got| == |chans[id].got|
    ensures LiveSends(chans', n) == LiveSends(chans, n)
  {
    if n > 0 {
      SameSends(chans, chans', n - 1);
    }
  }

  lemma {:induction false} OneMoreSend(chans: map<nat, Chan>, id: nat, c: Chan, n: nat)
    requires 1 <= id <= n && id in chans && |c.got| == |chans[id].got| + 1
    ensures LiveSends(chans[id := c], n) == LiveSends(chans, n) + 1
  {
    if n == id {
      SameSends(chans, chans[id := c], n - 1);
    } else {
      OneMoreSend(chans, id, c, n - 1);
    }
  }

  // Each step, for each channel.

  /** A step that leaves a channel, its log and its part in the lock alone. */
  lemma ChanFrame(h: Hub, h': Hub, x: nat)
    requires x in h.chans && ChanOk(h, x) && x in h'.chans && h'.buffer == h.buffer
    requires h'.chans[x] == h.chans[x].(closed := h'.chans[x].closed)
    requires Log(h'.published, h.chans[x].job) == Log(h.published, h.chans[x].job)
    requires InReplay(h', x) ==> InReplay(h, x) && h'.lock == h.lock
    requires InReplay(h, x) && !InReplay(h', x) ==> h.lock.k == |Last(Log(h.published, h.lock.job), h.buffer)|
    requires h'.lock.Sending? && x in h'.lock.todo ==>
               h.lock.Sending? && x in h.lock.todo && h'.lock.job == h.lock.job && h'.lock.ev == h.lock.ev
    ensures ChanOk(h', x)
  {
    assert Delivered(h'.chans[x], Log(h'.published, h'.chans[x].job), h'.buffer);
  }

  lemma NewChan(h: Hub, job: int)
    requires h.lock == Entered(Subscribe(job)) && !Closed(h)
    ensures ChanOk(DoSubscribe(h, job), h.nextID + 1)
  {
  }

  lemma PublishEffect(h: Hub, job: int, ev: Event)
    requires !Closed(h)
    ensures
      var h' := DoPublish(h, job, ev);
      && Log(h'.published, job) == Log(h.published, job) + [ev] && h'.chans == h.chans && h'.buffer == h.buffer
      && h'.lock == Sending(job, ev, SubsOf(h.subs, job))
  {
  }

  lemma PublishChan(h: Hub, job: int, ev: Event, x: nat)
    requires x in h.chans && ChanOk(h, x) && h.lock == Entered(Publish(job, ev)) && !Closed(h)
    requires x in h.subs ==> h.subs[x] == h.chans[x].job
    ensures ChanOk(DoPublish(h, job, ev), x)
  {
    var h', c := DoPublish(h, job, ev), h.chans[x];
    if c.job == job {
      var log := Log(h.published, job);
      GrowDelivered(c, log, ev, h.buffer);
      PublishEffect(h, job, ev);
      assert (log + [ev])[|log|] == ev;
    } else {
      ChanFrame(h, h', x);
    }
  }

  lemma ReplayChan(h: Hub)
    requires Can(h, Replay) && ChanOk(h, h.lock.id) && HistoryOk(h)
    ensures ChanOk(DoReplay(h), h.lock.id)
  {
    var log := Log(h.published, h.lock.job);
    assert Log(h.history, h.lock.job) == Last(log, h.buffer);
    ReplayDelivered(h.chans[h.lock.id], log, h.buffer);
  }

  lemma SendChan(h: Hub, id: nat)
    requires Can(h, Send(id)) && ChanOk(h, id)
    ensures ChanOk(DoSend(h, id), id)
  {
    if |h.chans[id].buf| < h.buffer {
      SendChanRoom(h, id);
    } else {
      ChanFrame(h, DoSend(h, id), id);
    }
  }

  lemma SendEffect(h: Hub, id: nat)
    requires Can(h, Send(id)) && |h.chans[id].buf| < h.buffer
    ensures
      var h', c, n := DoSend(h, id), h.chans[id], |Log(h.published, h.lock.job)|;
      && h'.chans[id] == Put(c, h.lock.ev).(got := c.got + [n - 1])
      && h'.published == h.published && h'.buffer == h.buffer && h'.lock.Sending? && id !in h'.lock.todo
  {
  }

  lemma SendChanRoom(h: Hub, id: nat)
    requires Can(h, Send(id)) && ChanOk(h, id) && |h.chans[id].buf| < h.buffer
    ensures ChanOk(DoSend(h, id), id)
  {
    SendEffect(h, id);
    SentChan(h, DoSend(h, id), id);
  }

  lemma SentChan(h: Hub, h': Hub, id: nat)
    requires Can(h, Send(id)) && ChanOk(h, id) && |h.chans[id].buf| < h.buffer
    requires h'.published == h.published && h'.buffer == h.buffer && h'.lock.Sending? && id !in h'.lock.todo
    requires id in h'.chans
    requires h'.chans[id] == Put(h.chans[id], h.lock.ev).(got := h.chans[id].got + [|Log(h.published, h.lock.job)| - 1])
    ensures ChanOk(h', id)
  {
    var c, log := h.chans[id], Log(h.published, h.lock.job);
    SendDelivered(c, log, h.buffer);
    assert h'.chans[id] == Put(c, log[|log| - 1]).(got := c.got + [|log| - 1]);
  }

  lemma ReceiveChan(h: Hub, id: nat)
    requires Can(h, Receive(id)) && ChanOk(h, id)
    ensures ChanOk(DoReceive(h, id), id)
  {
    var c := h.chans[id];
    ReceiveDelivered(c, Log(h.published, c.job), h.buffer);
  }

  predicate ChansOk(h: Hub) {
    forall id :: id in h.chans ==> ChanOk(h, id)
  }

  lemma BeginChan(h: Hub, x: nat)
    requires h.lock.Entered? && x in h.chans && x <= h.nextID && ChanOk(h, x)
    requires x in h.subs ==> h.subs[x] == h.chans[x].job
    ensures x in DoBegin(h).chans && ChanOk(DoBegin(h), x)
  {
    if h.lock.op.Publish? && !Closed(h) {
      PublishChan(h, h.lock.op.job, h.lock.op.ev, x);
    } else {
      ChanFrame(h, DoBegin(h), x);
    }
  }

  lemma BeginKeys(h: Hub, x: nat)
    requires h.lock.Entered? && x in DoBegin(h).chans && x !in h.chans
    ensures h.lock.op.Subscribe? && !Closed(h) && x == h.nextID + 1
  {
  }

  lemma BeginChans(h: Hub)
    requires RegistryOk(h) && ChansOk(h) && h.lock.Entered?
    ensures ChansOk(DoBegin(h))
  {
    forall x | x in DoBegin(h).chans ensures ChanOk(DoBegin(h), x) {
      if x in h.chans {
        BeginChan(h, x);
      } else {
        BeginKeys(h, x);
        NewChan(h, h.lock.op.job);
      }
    }
  }

  /** The channel a step works on, if it works on one. */
  function Target(h: Hub, a: Act): Option<nat>
    requires Can(h, a)
  {
    match a
    case Replay => Some(h.lock.id)
    case Send(id) => Some(id)
    case Receive(id) => Some(id)
    case _ => None
  }

  lemma TargetChan(h: Hub, a: Act, x: nat)
    requires Can(h, a) && Target(h, a) == Some(x) && x in h.chans && ChanOk(h, x) && HistoryOk(h)
    ensures x in Do(h, a).chans && ChanOk(Do(h, a), x)
  {
    if a.Replay? {
      ReplayChan(h);
    } else if a.Send? {
      SendChan(h, x);
    } else {
      ReceiveChan(h, x);
    }
  }

  lemma OtherEffect(h: Hub, a: Act, x: nat)
    requires Can(h, a) && !a.Begin? && Target(h, a) != Some(x) && x in h.chans
    ensures
      var h' := Do(h, a);
      && x in h'.chans && h'.buffer == h.buffer && h'.published == h.published
      && h'.chans[x] == h.chans[x].(closed := h'.chans[x].closed)
      && (InReplay(h', x) ==> InReplay(h, x) && h'.lock == h.lock)
      && (InReplay(h, x) && !InReplay(h', x) ==> h.lock.k == |Log(h.history, h.lock.job)|)
      && (h'.lock.Sending? && x in h'.lock.todo ==>
            h.lock.Sending? && x in h.lock.todo && h'.lock.job == h.lock.job && h'.lock.ev == h.lock.ev)
  {
  }

  lemma OtherChan(h: Hub, a: Act, x: nat)
    requires Can(h, a) && !a.Begin? && Target(h, a) != Some(x) && x in h.chans && ChanOk(h, x) && HistoryOk(h)
    ensures x in Do(h, a).chans && ChanOk(Do(h, a), x)
  {
    if h.lock.Replaying? {
      assert Log(h.history, h.lock.job) == Last(Log(h.published, h.lock.job), h.buffer);
    }
    OtherEffect(h, a, x);
    ChanFrame(h, Do(h, a), x);
  }

  lemma KeysStay(h: Hub, a: Act)
    requires Can(h, a) && !a.Begin?
    ensures Do(h, a).chans.Keys == h.chans.Keys && Do(h, a).nextID == h.nextID
    ensures Do(h, a).history == h.history && Do(h, a).published == h.published && Do(h, a).buffer == h.buffer
  {
  }

  lemma KeepsChans(h: Hub, a: Act)
    requires RegistryOk(h) && ChansOk(h) && HistoryOk(h) && Can(h, a)
    ensures ChansOk(Do(h, a))
  {
    if a.Begin? {
      BeginChans(h);
    } else {
      KeysStay(h, a);
      forall x | x in Do(h, a).chans ensures ChanOk(Do(h, a), x) {
        assert x in h.chans;
        if Target(h, a) == Some(x) {
          TargetChan(h, a, x);
        } else {
          OtherChan(h, a, x);
        }
      }
    }
  }

  lemma KeepsHistory(h: Hub, a: Act)
    requires HistoryOk(h) && Can(h, a)
    ensures HistoryOk(Do(h, a))
  {
    if a.Begin? {
      if h.lock.op.Publish? && !Closed(h) {
        PublishHistory(h, h.lock.op.job, h.lock.op.ev);
      }
    } else {
      KeysStay(h, a);
    }
  }

  lemma PublishHistory(h: Hub, job: int, ev: Event)
    requires HistoryOk(h) && !Closed(h)
    ensures HistoryOk(DoPublish(h, job, ev))
  {
    var h' := DoPublish(h, job, ev);
    forall j: int ensures Log(h'.history, j) == Last(Log(h'.published, j), h'.buffer) {
      assert Log(h.history, j) == Last(Log(h.published, j), h.buffer);
    }
  }

  lemma SendFanOut(h: Hub, id: nat)
    requires RegistryOk(h) && FanOutOk(h) && Can(h, Send(id))
    ensures FanOutOk(DoSend(h, id))
  {
    if |h.chans[id].buf| < h.buffer {
      OneMoreSend(h.chans, id, DoSend(h, id).chans[id], h.nextID);
    }
  }

  lemma SubscribeFanOut(h: Hub, job: int)
    requires RegistryOk(h) && FanOutOk(h) && h.lock == Entered(Subscribe(job))
    ensures FanOutOk(DoSubscribe(h, job))
  {
    assert h.nextID + 1 !in h.chans;
    SameSends(h.chans, DoSubscribe(h, job).chans, h.nextID);
  }

  /** Every other step sends nothing live and drops nothing. */
  lemma QuietFanOut(h: Hub, a: Act)
    requires Can(h, a) && !a.Begin? && !a.Send?
    ensures
      var h' := Do(h, a);
      && h'.dropsTotal == h.dropsTotal && h'.fanOut == h.fanOut && Pending(h') == Pending(h) && h'.nextID == h.nextID
      && (forall id :: id in h.chans <==> id in h'.chans)
      && (forall id :: id in h.chans ==> h'.chans[id].got == h.chans[id].got)
  {
  }

  lemma KeepsFanOut(h: Hub, a: Act)
    requires RegistryOk(h) && FanOutOk(h) && Can(h, a)
    ensures FanOutOk(Do(h, a))
  {
    if a.Begin? {
      if h.lock.op.Subscribe? {
        SubscribeFanOut(h, h.lock.op.job);
      }
    } else if a.Send? {
      SendFanOut(h, a.id);
    } else {
      QuietFanOut(h, a);
      SameSends(h.chans, Do(h, a).chans, h.nextID);
    }
  }

  // ---------------------------------------------------------------- theorems

  ghost predicate Inv(h: Hub) {
    Tidy(h) && HistoryOk(h) && FanOutOk(h) && ChansOk(h)
  }

  lemma InvNext(h: Hub, h': Hub)
    requires Inv(h) && Step(h, h')
    ensures Inv(h')
  {
    var a :| Can(h, a) && h' == Do(h, a);
    KeepsTidy(h, a);
    KeepsHistory(h, a);
    KeepsFanOut(h, a);
    KeepsChans(h, a);
  }

  lemma InvInductive()
    ensures Inductive(Step, Inv)
  {
    forall h, h' | Inv(h) && Step(h, h') ensures Inv(h') {
      InvNext(h, h');
    }
  }

  lemma InvOverRuns(run: seq<Hub>, buffer: nat, i: nat)
    requires IsRun(Step, run) && run[0] == NewHub(buffer) && i < |run|
    ensures Inv(run[i])
  {
    InvInductive();
    HoldsFrom(Step, Inv, run, 0, i);
  }

  /** Hub safety over every run: a replay under the mutex always finds room, a
      send never meets a closed channel, no channel is closed twice, the counter
      is right whenever the mutex is free, and nothing stays registered, and
      nothing gets registered, once Close has finished. */
  lemma HubSafety(run: seq<Hub>, buffer: nat, i: nat)
    requires IsRun(Step, run) && run[0] == NewHub(buffer) && i < |run|
    ensures
      var h := run[i];
      && (h.lock.Replaying? ==> Can(h, Replay) || Can(h, ReplayDone))
      && (h.lock.Replaying? ==> h.lock.id in h.chans && !h.chans[h.lock.id].closed)
      && (forall id :: Can(h, Send(id)) ==> !h.chans[id].closed)
      && (forall job, id :: Can(h, CloseOne(job, id)) ==> !h.chans[id].closed)
      && (h.lock.Free? ==> h.subscribers == |h.subs|)
      && (h.closer.Finished? ==> h.subs == map[])
  {
    InvOverRuns(run, buffer, i);
    TidyIsSafe(run[i]);
    if run[i].lock.Replaying? {
      ReplayHasRoom(run[i]);
    }
  }

  lemma TidyIsSafe(h: Hub)
    requires Tidy(h)
    ensures h.lock.Replaying? ==> h.lock.id in h.chans && !h.chans[h.lock.id].closed
    ensures forall id :: Can(h, Send(id)) ==> !h.chans[id].closed
    ensures forall job, id :: Can(h, CloseOne(job, id)) ==> !h.chans[id].closed
    ensures h.lock.Free? ==> h.subscribers == |h.subs|
    ensures h.closer.Finished? ==> h.subs == map[]
  {
  }

  /** Before any live event, a channel buffers no more than was replayed to it. */
  lemma ReplayOnly(c: Chan, log: seq<Event>, buffer: nat)
    requires Delivered(c, log, buffer) && c.got == []
    ensures |c.buf| <= c.replayed
  {
    assert |c.put| == c.replayed + |Pick(log, c.got)|;
  }

  lemma ReplayHasRoom(h: Hub)
    requires h.lock.Replaying? && h.lock.id in h.chans && ChanOk(h, h.lock.id) && HistoryOk(h)
    ensures Can(h, Replay) || Can(h, ReplayDone)
  {
    var c := h.chans[h.lock.id];
    ReplayOnly(c, Log(h.published, c.job), h.buffer);
    assert Log(h.history, h.lock.job) == Last(Log(h.published, h.lock.job), h.buffer);
  }

  /** Hub delivery over every run: what a channel outside its replay has ever been
      sent is exactly the last min(n, buffer) events published for its job before
      it subscribed, followed by an order-preserving subsequence of the later
      ones; live enqueues plus drops equal the summed fan-out of all publishes
      up to the one in progress. */
  lemma HubDelivery(run: seq<Hub>, buffer: nat, i: nat)
    requires IsRun(Step, run) && run[0] == NewHub(buffer) && i < |run|
    ensures
      var h := run[i];
      && LiveSends(h.chans, h.nextID) + h.dropsTotal + Pending(h) == h.fanOut
      && forall id :: id in h.chans && !InReplay(h, id) ==>
           var c, log := h.chans[id], Log(h.published, h.chans[id].job);
           && c.base <= |log| && Rising(c.got, c.base, |log|)
           && c.put == Last(log[..c.base], h.buffer) + Pick(log, c.got)
           && c.taken <= |c.put| && c.buf == c.put[c.taken..]
  {
    InvOverRuns(run, buffer, i);
    var h := run[i];
    forall id | id in h.chans && !InReplay(h, id)
      ensures
        var c, log := h.chans[id], Log(h.published, h.chans[id].job);
        && c.base <= |log| && Rising(c.got, c.base, |log|)
        && c.put == Last(log[..c.base], h.buffer) + Pick(log, c.got)
        && c.taken <= |c.put| && c.buf == c.put[c.taken..]
    {
      SettledChan(h, id);
    }
  }

  lemma SettledChan(h: Hub, id: nat)
    requires id in h.chans && ChanOk(h, id) && !InReplay(h, id)
    ensures
      var c, log := h.chans[id], Log(h.published, h.chans[id].job);
      && c.base <= |log| && Rising(c.got, c.base, |log|)
      && c.put == Last(log[..c.base], h.buffer) + Pick(log, c.got)
      && c.taken <= |c.put| && c.buf == c.put[c.taken..]
  {
    var c, log := h.chans[id], Log(h.published, h.chans[id].job);
    assert log[..c.base][ReplayFrom(c.base, h.buffer)..] == log[ReplayFrom(c.base, h.buffer)..c.base];
  }
}
