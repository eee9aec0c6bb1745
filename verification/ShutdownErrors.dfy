/** Classifying how a shutdown went, from the tree of errors it left behind. */
module ShutdownErrors {
  import opened Runs

  datatype Outcome = Graceful | Forced | TimedOut | Failed

  /** A finite error tree. Nil is the nil error, which an Unwrap may return;
      a component error wraps at most one error. */
  datatype Err =
    | Nil
    | Leaf
    | Wrap(inner: Err)
    | Multi(children: seq<Err>)
    | Component(outcome: Outcome, inner: Err)

  // ----- errors.As

  /** The outcome of the first component error, in errors.As order. */
  function FirstComponent(e: Err): Option<Outcome>
    decreases e
  {
    match e
    case Nil => None
    case Leaf => None
    case Wrap(inner) => FirstComponent(inner)
    case Multi(children) => FirstIn(children)
    case Component(outcome, _) => Some(outcome)
  }

  function FirstIn(children: seq<Err>): Option<Outcome>
    decreases children
  {
    if children == [] then None
    else
      var first := FirstComponent(children[0]);
      if first.Some? then first else FirstIn(children[1..])
  }

  // ----- hasShutdownOutcome

  predicate HasShutdownOutcome(e: Err, o: Outcome)
    decreases e
  {
    if e.Nil? then false
    else if FirstComponent(e) == Some(o) then true
    else if e.Multi? then HasIn(e.children, o)
    else if e.Wrap? || e.Component? then HasShutdownOutcome(e.inner, o)
    else false
  }

  predicate HasIn(children: seq<Err>, o: Outcome)
    decreases children
  {
    children != [] && (HasShutdownOutcome(children[0], o) || HasIn(children[1..], o))
  }

  // ----- nodes, addressed by the way down from the root

  function At(e: Err, path: seq<nat>): Option<Err>
    decreases path
  {
    if path == [] then Some(e)
    else if e.Multi? then
      if path[0] < |e.children| then At(e.children[path[0]], path[1..]) else None
    else if (e.Wrap? || e.Component?) && path[0] == 0 then At(e.inner, path[1..])
    else None
  }

  predicate ComponentAt(e: Err, path: seq<nat>, o: Outcome) {
    var node := At(e, path);
    node.Some? && node.value.Component? && node.value.outcome == o
  }

  ghost predicate SomeNode(e: Err, o: Outcome) {
    exists path :: ComponentAt(e, path, o)
  }

  // ----- the recursion finds every node

  lemma {:induction false} FirstIsSomeNode(e: Err, o: Outcome)
    requires FirstComponent(e) == Some(o)
    ensures SomeNode(e, o)
    decreases e
  {
    match e
    case Wrap(inner) =>
      FirstIsSomeNode(inner, o);
      Below(e, 0, o);
    case Multi(children) =>
      var i := FirstInIsSome(children, o);
      Below(e, i, o);
    case Component(_, _) =>
      assert ComponentAt(e, [], o);
  }

  lemma {:induction false} FirstInIsSome(children: seq<Err>, o: Outcome) returns (i: nat)
    requires FirstIn(children) == Some(o)
    ensures i < |children| && SomeNode(children[i], o)
    decreases children
  {
    if FirstComponent(children[0]).Some? {
      FirstIsSomeNode(children[0], o);
      i := 0;
    } else {
      i := FirstInIsSome(children[1..], o);
      i := i + 1;
    }
  }

  /** A child's nodes are the parent's. */
  lemma Below(e: Err, i: nat, o: Outcome)
    requires At(e, [i]).Some? && SomeNode(At(e, [i]).value, o)
    ensures SomeNode(e, o)
  {
    var path :| ComponentAt(At(e, [i]).value, path, o);
    assert ([i] + path)[1..] == path;
    assert ComponentAt(e, [i] + path, o);
  }

  /** The classification law: true exactly when some node of the tree is a
      component error with that outcome. */
  lemma {:induction false} HasShutdownOutcomeExact(e: Err, o: Outcome)
    ensures HasShutdownOutcome(e, o) <==> SomeNode(e, o)
  {
    if HasShutdownOutcome(e, o) {
      FoundIsSome(e, o);
    }
    if SomeNode(e, o) {
      var path :| ComponentAt(e, path, o);
      SomeIsFound(e, path, o);
    }
  }

  lemma {:induction false} FoundIsSome(e: Err, o: Outcome)
    requires HasShutdownOutcome(e, o)
    ensures SomeNode(e, o)
    decreases e
  {
    if FirstComponent(e) == Some(o) {
      FirstIsSomeNode(e, o);
    } else if e.Multi? {
      var i := FoundInIsSome(e.children, o);
      Below(e, i, o);
    } else {
      FoundIsSome(e.inner, o);
      Below(e, 0, o);
    }
  }

  lemma {:induction false} FoundInIsSome(children: seq<Err>, o: Outcome) returns (i: nat)
    requires HasIn(children, o)
    ensures i < |children| && SomeNode(children[i], o)
    decreases children
  {
    if HasShutdownOutcome(children[0], o) {
      FoundIsSome(children[0], o);
      i := 0;
    } else {
      i := FoundInIsSome(children[1..], o);
      i := i + 1;
    }
  }

  lemma {:induction false} SomeIsFound(e: Err, path: seq<nat>, o: Outcome)
    requires ComponentAt(e, path, o)
    ensures HasShutdownOutcome(e, o)
    decreases path
  {
    if path != [] {
      if e.Multi? {
        SomeIsFound(e.children[path[0]], path[1..], o);
        InAll(e.children, path[0], o);
      } else {
        SomeIsFound(e.inner, path[1..], o);
      }
    }
  }

  lemma {:induction false} InAll(children: seq<Err>, i: nat, o: Outcome)
    requires i < |children| && HasShutdownOutcome(children[i], o)
    ensures HasIn(children, o)
  {
    if i > 0 {
      InAll(children[1..], i - 1, o);
    }
  }

  // ----- the overall outcome

  function OverallOutcome(run: Err, cleanup: Err): Outcome {
    if run.Nil? && cleanup.Nil? then Graceful
    else if HasShutdownOutcome(cleanup, Forced) then Forced
    else if HasShutdownOutcome(cleanup, TimedOut) then TimedOut
    else Failed
  }

  function Severity(o: Outcome): nat {
    match o
    case Graceful => 0
    case Failed => 1
    case TimedOut => 2
    case Forced => 3
  }

  /** Graceful only if both errors are nil; otherwise the most severe outcome
      in the cleanup tree, and failed if there is none. */
  lemma OverallOutcomeExact(run: Err, cleanup: Err)
    ensures OverallOutcome(run, cleanup) == Graceful <==> run.Nil? && cleanup.Nil?
    ensures !(run.Nil? && cleanup.Nil?) ==>
              var r := OverallOutcome(run, cleanup);
              && (r == Failed || SomeNode(cleanup, r))
              && forall o: Outcome :: SomeNode(cleanup, o) ==> Severity(o) <= Severity(r)
  {
    HasShutdownOutcomeExact(cleanup, Forced);
    HasShutdownOutcomeExact(cleanup, TimedOut);
  }

  // ----- the cleanup

  /** What a foreign call returned: its error, and whether that error is
      http.ErrServerClosed or a passed deadline in the sense of errors.Is. */
  datatype Reply = Reply(err: Err, closed: bool, deadline: bool)

  /** The errors of foreign calls hold no component error of ours. */
  ghost predicate Foreign(e: Err) {
    forall o: Outcome :: !SomeNode(e, o)
  }

  /** The two calls made on an HTTP server: Shutdown, and Close if that fails. */
  datatype ServerReplies = ServerReplies(shutdown: Reply, close: Reply)

  /** A server or runtime that is not configured is absent. */
  datatype Replies = Replies(
    http: Option<ServerReplies>, https: Option<ServerReplies>, grpc: Option<Reply>, pool: Reply, hub: Err)

  function ShutdownServer(server: Option<ServerReplies>): Err {
    if server.None? then Nil
    else
      var err, close := server.value.shutdown, server.value.close;
      if err.err.Nil? || err.closed then Nil
      else
        var main := Component(if err.deadline then Forced else Failed, err.err);
        if !close.err.Nil? && !close.closed then Multi([main, Component(Failed, close.err)]) else main
  }

  function ShutdownOne(reply: Reply, late: Outcome): Err {
    if reply.err.Nil? then Nil else Component(if reply.deadline then late else Failed, reply.err)
  }

  function ShutdownGrpc(grpc: Option<Reply>): Err {
    if grpc.None? then Nil else ShutdownOne(grpc.value, Forced)
  }

  predicate Late(r: Reply) {
    !r.err.Nil? && r.deadline
  }

  predicate ServerLate(server: Option<ServerReplies>) {
    server.Some? && Late(server.value.shutdown) && !server.value.shutdown.closed
  }

  predicate ServerFine(server: Option<ServerReplies>) {
    server.None? || server.value.shutdown.err.Nil? || server.value.shutdown.closed
  }

  predicate AllFine(r: Replies) {
    && ServerFine(r.http) && ServerFine(r.https) && (r.grpc.Some? ==> r.grpc.value.err.Nil?)
    && r.pool.err.Nil? && r.hub.Nil?
  }

  predicate SomethingForced(r: Replies) {
    ServerLate(r.http) || ServerLate(r.https) || (r.grpc.Some? && Late(r.grpc.value))
  }

  ghost predicate ServerForeign(server: Option<ServerReplies>) {
    server.Some? ==> Foreign(server.value.shutdown.err) && Foreign(server.value.close.err)
  }

  ghost predicate AllForeign(r: Replies) {
    && ServerForeign(r.http) && ServerForeign(r.https) && (r.grpc.Some? ==> Foreign(r.grpc.value.err))
    && Foreign(r.pool.err) && Foreign(r.hub)
  }

  // ----- what each piece contributes

  lemma ForeignHasNone(e: Err, o: Outcome)
    requires Foreign(e)
    ensures !HasShutdownOutcome(e, o)
  {
    HasShutdownOutcomeExact(e, o);
  }

  lemma {:induction false} HasInSome(children: seq<Err>, o: Outcome)
    ensures HasShutdownOutcome(Multi(children), o) <==> HasIn(children, o)
  {
    if FirstIn(children) == Some(o) {
      var i := FirstInIsSome(children, o);
      HasShutdownOutcomeExact(children[i], o);
      InAll(children, i, o);
    }
  }

  lemma ServerHas(server: Option<ServerReplies>)
    requires ServerForeign(server)
    ensures HasShutdownOutcome(ShutdownServer(server), Forced) <==> ServerLate(server)
    ensures !HasShutdownOutcome(ShutdownServer(server), TimedOut)
  {
    var e := ShutdownServer(server);
    if server.Some? {
      var err, close := server.value.shutdown.err, server.value.close.err;
      ForeignHasNone(err, Forced);
      ForeignHasNone(err, TimedOut);
      ForeignHasNone(close, Forced);
      ForeignHasNone(close, TimedOut);
      if e.Multi? {
        HasInSome(e.children, Forced);
        HasInSome(e.children, TimedOut);
        var rest := e.children[1..];
        assert rest == [Component(Failed, close)] && rest[1..] == [];
        assert !HasIn(rest, Forced) && !HasIn(rest, TimedOut);
      }
    }
  }

  lemma OneHas(reply: Reply, late: Outcome, o: Outcome)
    requires Foreign(reply.err) && late != Failed && o != Failed
    ensures HasShutdownOutcome(ShutdownOne(reply, late), o) <==> Late(reply) && o == late
  {
    ForeignHasNone(reply.err, o);
  }

  /** Errors are collected only when there is one. */
  function Add(errs: seq<Err>, e: Err): seq<Err> {
    if e.Nil? then errs else errs + [e]
  }

  lemma {:induction false} AddHas(errs: seq<Err>, e: Err, o: Outcome)
    ensures HasIn(Add(errs, e), o) <==> HasIn(errs, o) || HasShutdownOutcome(e, o)
    decreases errs
  {
    if e != Nil {
      if errs == [] {
        assert Add(errs, e)[1..] == [];
      } else {
        AddHas(errs[1..], e, o);
        assert Add(errs, e)[1..] == Add(errs[1..], e);
      }
    }
  }

  /** Somewhere in the tree is this very error. */
  ghost predicate Contains(e: Err, x: Err) {
    exists path :: At(e, path) == Some(x)
  }

  lemma ContainedBelow(e: Err, i: nat, x: Err)
    requires At(e, [i]).Some? && Contains(At(e, [i]).value, x)
    ensures Contains(e, x)
  {
    var path :| At(At(e, [i]).value, path) == Some(x);
    assert ([i] + path)[1..] == path;
    assert At(e, [i] + path) == Some(x);
  }

  /** An HTTP server's error holds what Shutdown and Close returned. */
  lemma ServerKeeps(server: Option<ServerReplies>)
    requires !ServerFine(server)
    ensures Contains(ShutdownServer(server), server.value.shutdown.err)
    ensures !server.value.close.err.Nil? && !server.value.close.closed ==>
              Contains(ShutdownServer(server), server.value.close.err)
  {
    var e, err, close := ShutdownServer(server), server.value.shutdown.err, server.value.close.err;
    assert At(err, []) == Some(err) && At(close, []) == Some(close);
    if e.Multi? {
      assert At(e.children[0], [0]) == Some(err) && At(e.children[1], [0]) == Some(close);
      ContainedBelow(e.children[0], 0, err);
      ContainedBelow(e.children[1], 0, close);
      assert At(e, [0]) == Some(e.children[0]) && At(e, [1]) == Some(e.children[1]);
      ContainedBelow(e, 0, err);
      ContainedBelow(e, 1, close);
    } else {
      assert At(e, [0]) == Some(err);
      ContainedBelow(e, 0, err);
    }
  }

  lemma OneKeeps(reply: Reply, late: Outcome)
    requires !reply.err.Nil?
    ensures Contains(ShutdownOne(reply, late), reply.err)
  {
    var e := ShutdownOne(reply, late);
    assert At(reply.err, []) == Some(reply.err) && At(e, [0]) == Some(reply.err);
    ContainedBelow(e, 0, reply.err);
  }

  lemma CollectedIsKept(errs: seq<Err>, e: Err, x: Err)
    requires e in errs && Contains(e, x)
    ensures Contains(Multi(errs), x)
  {
    var i: nat :| i < |errs| && errs[i] == e;
    assert At(Multi(errs), [i]) == Some(e);
    ContainedBelow(Multi(errs), i, x);
  }

  /** Nothing a component returned is lost from the joined error. */
  lemma AllIsKept(r: Replies, errs: seq<Err>)
    requires !ServerFine(r.http) ==> ShutdownServer(r.http) in errs
    requires !ServerFine(r.https) ==> ShutdownServer(r.https) in errs
    requires r.grpc.Some? && !r.grpc.value.err.Nil? ==> ShutdownGrpc(r.grpc) in errs
    requires !r.pool.err.Nil? ==> ShutdownOne(r.pool, TimedOut) in errs
    requires !r.hub.Nil? ==> r.hub in errs
    ensures Keeps(r, Multi(errs))
  {
    if !ServerFine(r.http) {
      ServerKeeps(r.http);
      CollectedIsKept(errs, ShutdownServer(r.http), r.http.value.shutdown.err);
    }
    if !ServerFine(r.https) {
      ServerKeeps(r.https);
      CollectedIsKept(errs, ShutdownServer(r.https), r.https.value.shutdown.err);
    }
    if r.grpc.Some? && !r.grpc.value.err.Nil? {
      OneKeeps(r.grpc.value, Forced);
      CollectedIsKept(errs, ShutdownGrpc(r.grpc), r.grpc.value.err);
    }
    if !r.pool.err.Nil? {
      OneKeeps(r.pool, TimedOut);
      CollectedIsKept(errs, ShutdownOne(r.pool, TimedOut), r.pool.err);
    }
    if !r.hub.Nil? {
      assert At(r.hub, []) == Some(r.hub);
      CollectedIsKept(errs, r.hub, r.hub);
    }
  }

  ghost predicate Keeps(r: Replies, err: Err) {
    && (!ServerFine(r.http) ==> Contains(err, r.http.value.shutdown.err))
    && (!ServerFine(r.https) ==> Contains(err, r.https.value.shutdown.err))
    && (r.grpc.Some? && !r.grpc.value.err.Nil? ==> Contains(err, r.grpc.value.err))
    && (!r.pool.err.Nil? ==> Contains(err, r.pool.err))
    && (!r.hub.Nil? ==> Contains(err, r.hub))
  }

  method Collect(errs: seq<Err>, e: Err) returns (r: seq<Err>)
    ensures r == [] <==> errs == [] && e.Nil?
    ensures (forall x :: x in errs ==> x in r) && (!e.Nil? ==> e in r)
    ensures forall o :: HasIn(r, o) <==> HasIn(errs, o) || HasShutdownOutcome(e, o)
  {
    r := Add(errs, e);
    forall o
      ensures HasIn(r, o) <==> HasIn(errs, o) || HasShutdownOutcome(e, o)
    {
      AddHas(errs, e, o);
    }
  }

  /** The cleanup gathers every component's error. The summary it leads to is
      forced exactly when an HTTP server or the gRPC runtime passed its
      deadline, and timed out exactly when only the worker pool did. */
  method Cleanup(r: Replies, httpsFirst: bool) returns (err: Err)
    ensures err.Nil? <==> AllFine(r)
    ensures Keeps(r, err)
    ensures AllForeign(r) ==>
              forall run: Err :: OverallOutcome(run, err) ==
                if run.Nil? && AllFine(r) then Graceful
                else if SomethingForced(r) then Forced
                else if Late(r.pool) then TimedOut
                else Failed
  {
    var errs: seq<Err> := [];
    errs := Collect(errs, ShutdownServer(if httpsFirst then r.https else r.http));
    errs := Collect(errs, ShutdownServer(if httpsFirst then r.http else r.https));
    errs := Collect(errs, ShutdownGrpc(r.grpc));
    errs := Collect(errs, ShutdownOne(r.pool, TimedOut));
    errs := Collect(errs, r.hub);
    err := if |errs| > 0 then Multi(errs) else Nil;
    AllIsKept(r, errs);
    HasInSome(errs, Forced);
    HasInSome(errs, TimedOut);
    if AllForeign(r) {
      PiecesHave(r);
    }
  }

  lemma PiecesHave(r: Replies)
    requires AllForeign(r)
    ensures HasShutdownOutcome(ShutdownServer(r.http), Forced) <==> ServerLate(r.http)
    ensures HasShutdownOutcome(ShutdownServer(r.https), Forced) <==> ServerLate(r.https)
    ensures HasShutdownOutcome(ShutdownGrpc(r.grpc), Forced) <==> r.grpc.Some? && Late(r.grpc.value)
    ensures !HasShutdownOutcome(ShutdownOne(r.pool, TimedOut), Forced) && !HasShutdownOutcome(r.hub, Forced)
    ensures !HasShutdownOutcome(ShutdownServer(r.http), TimedOut)
    ensures !HasShutdownOutcome(ShutdownServer(r.https), TimedOut)
    ensures !HasShutdownOutcome(ShutdownGrpc(r.grpc), TimedOut) && !HasShutdownOutcome(r.hub, TimedOut)
    ensures HasShutdownOutcome(ShutdownOne(r.pool, TimedOut), TimedOut) <==> Late(r.pool)
  {
    ServerHas(r.http);
    ServerHas(r.https);
    if r.grpc.Some? {
      OneHas(r.grpc.value, Forced, Forced);
      OneHas(r.grpc.value, Forced, TimedOut);
    }
    OneHas(r.pool, TimedOut, Forced);
    OneHas(r.pool, TimedOut, TimedOut);
    ForeignHasNone(r.hub, Forced);
    ForeignHasNone(r.hub, TimedOut);
  }
}
