/** The retrying profile client: exponential backoff with full jitter in 64-bit
    arithmetic, and the retry loop around the remote call. */
module Backoff {
  import opened Runs

  const MAX: int := 0x7fff_ffff_ffff_ffff

  /** The value of x in 64-bit two's complement. */
  function Wrap64(x: int): (r: int)
    ensures -MAX - 1 <= r <= MAX
    ensures -MAX - 1 <= x <= MAX ==> r == x
  {
    var m := x % (2 * (MAX + 1));
    if m <= MAX then m else m - 2 * (MAX + 1)
  }

  /** k times two to the 64. */
  function Times64(k: int): int {
    k * 0x1_0000_0000_0000_0000
  }

  /** Wrapping changes a number by a multiple of two to the 64. */
  lemma Wrap64Exact(x: int) returns (k: int)
    ensures Wrap64(x) == x + Times64(k)
  {
    var q := x / (2 * (MAX + 1));
    k := if x % (2 * (MAX + 1)) <= MAX then -q else -q - 1;
  }

  function Pow2(n: nat): nat {
    if n == 0 then 1 else 2 * Pow2(n - 1)
  }

  /** The client's settings, as its constructor clamps them. */
  datatype Client = Client(maxAttempts: int, baseDelay: int, maxDelay: int)

  predicate ClientOk(c: Client) {
    c.maxAttempts >= 1 && 0 <= c.baseDelay <= MAX && 0 <= c.maxDelay <= MAX
  }

  function NewClient(maxAttempts: int, baseDelay: int, maxDelay: int): (c: Client)
    requires baseDelay <= MAX && maxDelay <= MAX
    ensures ClientOk(c)
    ensures ClientOk(Client(maxAttempts, baseDelay, maxDelay)) ==> c == Client(maxAttempts, baseDelay, maxDelay)
    ensures c.maxAttempts == 1 || c.maxAttempts == maxAttempts
    ensures c.baseDelay == 0 || c.baseDelay == baseDelay
    ensures c.maxDelay == 0 || c.maxDelay == maxDelay
  {
    Client(if maxAttempts < 1 then 1 else maxAttempts,
           if baseDelay < 0 then 0 else baseDelay,
           if maxDelay < 0 then 0 else maxDelay)
  }

  // ----- the jitter bound

  /** The delay doubled for every attempt after the first, in unbounded arithmetic. */
  function Product(c: Client, attempt: int): int
    decreases attempt
  {
    if attempt <= 1 then c.baseDelay else 2 * Product(c, attempt - 1)
  }

  lemma {:induction false} ProductIsPower(c: Client, attempt: int)
    requires attempt >= 1
    ensures Product(c, attempt) == c.baseDelay * Pow2(attempt - 1)
    decreases attempt
  {
    if attempt > 1 {
      ProductIsPower(c, attempt - 1);
      assert c.baseDelay * Pow2(attempt - 1) == 2 * (c.baseDelay * Pow2(attempt - 2));
    }
  }

  function Capped(c: Client, delay: int): int {
    if 0 < c.maxDelay < delay then c.maxDelay else delay
  }

  /** The doubling loop in 64-bit arithmetic: n rounds from delay d, left with zero
      by the round that finds a delay that is not positive. */
  function Wrapped(d: int, n: nat): int
    decreases n
  {
    if n == 0 then d else if d <= 0 then 0 else Wrapped(Wrap64(2 * d), n - 1)
  }

  function Rounds(attempt: int): nat {
    if attempt <= 1 then 0 else attempt - 1
  }

  /** The jitter bound: the loop, the cap, and zero for what is not positive. */
  function Bound(c: Client, attempt: int): int {
    var delay := Capped(c, Wrapped(c.baseDelay, Rounds(attempt)));
    if delay <= 0 then 0 else delay
  }

  lemma {:induction false} ProductGrows(c: Client, i: int, attempt: int)
    requires ClientOk(c) && 1 <= i <= attempt
    ensures 0 <= Product(c, i) <= Product(c, attempt)
    ensures Product(c, i) == 0 ==> Product(c, attempt) == 0
    decreases attempt
  {
    if i < attempt {
      ProductGrows(c, i, attempt - 1);
    } else if i > 1 {
      ProductGrows(c, i - 1, attempt - 1);
    }
  }

  /** Doubling a delay wraps to a negative number or not at all. */
  lemma WrapDouble(d: int)
    requires 0 <= d <= MAX
    ensures if 2 * d <= MAX then Wrap64(2 * d) == 2 * d else Wrap64(2 * d) < 0
  {
  }

  /** rand.Int63n for some draw of the generator; None is its panic on a
      bound that is not positive. */
  function Int63n(n: int, draw: nat): (r: Option<int>)
    ensures r.Some? <==> n > 0
    ensures r.Some? ==> 0 <= r.value < n
  {
    if n <= 0 then None else Some(draw % n)
  }

  /** From the product of attempt i, or from a negative delay if that product did
      not fit, n rounds give the product of attempt i + n if that one fits and
      nothing positive if it does not. */
  lemma {:induction false} WrappedExact(c: Client, i: int, d: int, n: nat)
    requires ClientOk(c) && 1 <= i && if Product(c, i) <= MAX then d == Product(c, i) else d < 0
    ensures
      var r := Wrapped(d, n);
      if Product(c, i + n) <= MAX then r == Product(c, i + n) else r <= 0
    decreases n
  {
    ProductGrows(c, i, i + n);
    if n > 0 && d > 0 {
      WrapDouble(d);
      WrappedExact(c, i + 1, Wrap64(2 * d), n - 1);
    }
  }

  /** The jitter bound in closed form: the capped product, or no delay at all once
      the product leaves the 64-bit range. */
  lemma BoundExact(c: Client, attempt: int)
    requires ClientOk(c)
    ensures Bound(c, attempt) == if Product(c, attempt) <= MAX then Capped(c, Product(c, attempt)) else 0
  {
    WrappedExact(c, 1, c.baseDelay, Rounds(attempt));
    ProductGrows(c, 1, 1 + Rounds(attempt));
    assert Product(c, attempt) == Product(c, 1 + Rounds(attempt));
  }

  /** The loop of backoffWithJitter. */
  method Doubled(c: Client, attempt: int) returns (delay: int)
    requires ClientOk(c)
    ensures delay == Wrapped(c.baseDelay, Rounds(attempt))
    ensures if Product(c, attempt) <= MAX then delay == Product(c, attempt) else delay <= 0
  {
    WrappedExact(c, 1, c.baseDelay, Rounds(attempt));
    assert Product(c, attempt) == Product(c, 1 + Rounds(attempt));
    delay := c.baseDelay;
    for i := 0 to Rounds(attempt)
      invariant Wrapped(delay, Rounds(attempt) - i) == Wrapped(c.baseDelay, Rounds(attempt))
    {
      if delay <= 0 {
        return 0;
      }
      delay := Wrap64(2 * delay);
    }
  }

  method BackoffWithJitter(c: Client, attempt: int, draw: nat) returns (r: Option<int>)
    requires ClientOk(c)
    ensures r == Delay(c, attempt, draw)
    ensures r.Some? ==>
              0 <= r.value <= if Product(c, attempt) <= MAX then Capped(c, Product(c, attempt)) else 0
  {
    BoundExact(c, attempt);
    BoundRange(c, attempt);
    var delay := Doubled(c, attempt);
    if c.maxDelay > 0 && delay > c.maxDelay {
      delay := c.maxDelay;
    }
    if delay <= 0 {
      return Some(0);
    }
    r := Int63n(Wrap64(delay + 1), draw);
  }

  lemma BoundRange(c: Client, attempt: int)
    requires ClientOk(c)
    ensures 0 <= Bound(c, attempt) <= MAX
    ensures c.maxDelay > 0 ==> Bound(c, attempt) <= c.maxDelay
  {
    BoundExact(c, attempt);
    ProductGrows(c, 1, 1 + Rounds(attempt));
    assert Product(c, attempt) == Product(c, 1 + Rounds(attempt));
  }

  /** What the comment promises, base doubled per attempt and capped, holds
      exactly while the product fits in 64 bits. */
  lemma BoundMeetsPromise(c: Client, attempt: int)
    requires ClientOk(c)
    ensures Bound(c, attempt) == Capped(c, Product(c, attempt)) <==> Product(c, attempt) <= MAX
  {
    BoundExact(c, attempt);
  }

  lemma BoundByPower(c: Client, attempt: int, power: int)
    requires ClientOk(c) && attempt >= 1 && Pow2(attempt - 1) == power
    ensures Bound(c, attempt) == if c.baseDelay * power <= MAX then Capped(c, c.baseDelay * power) else 0
  {
    BoundExact(c, attempt);
    ProductIsPower(c, attempt);
  }

  lemma SixMore(n: nat)
    ensures Pow2(n + 6) == 64 * Pow2(n)
  {
    assert Pow2(n + 2) == 2 * Pow2(n + 1) && Pow2(n + 4) == 2 * Pow2(n + 3) && Pow2(n + 6) == 2 * Pow2(n + 5);
  }

  lemma Pow2Of33()
    ensures Pow2(33) == 0x2_0000_0000 && Pow2(34) == 0x4_0000_0000
  {
    SixMore(0);
    SixMore(6);
    SixMore(12);
    SixMore(18);
    SixMore(24);
    assert Pow2(33) == 8 * Pow2(30) && Pow2(34) == 2 * Pow2(33);
  }

  /** Past that, the delay is not the cap but nothing. */
  lemma LargeAttemptsDoNotWait()
    ensures var c := NewClient(64, 1_000_000_000, 5_000_000_000);
      Bound(c, 34) == c.maxDelay && Bound(c, 35) == 0
  {
    var c := NewClient(64, 1_000_000_000, 5_000_000_000);
    Pow2Of33();
    BoundByPower(c, 34, 0x2_0000_0000);
    BoundByPower(c, 35, 0x4_0000_0000);
  }

  /** Int63n panics only where its argument wraps: an uncapped largest delay. */
  lemma PanicExact(c: Client, attempt: int, draw: nat)
    requires ClientOk(c)
    ensures Delay(c, attempt, draw).None?
            <==> c.baseDelay == MAX && attempt <= 1 && c.maxDelay in {0, MAX}
  {
    BoundRange(c, attempt);
    BoundExact(c, attempt);
    assert attempt > 1 ==> Product(c, attempt) == 2 * Product(c, attempt - 1);
  }

  // ----- the retry loop

  datatype Kind = Timeout | Canceled | Network | Upstream5xx | Upstream4xx | Parse | BadResponse

  /** A reply of the remote service; a failure carries the sentinel errors it
      matches. */
  datatype Reply = Got(profile: int) | Fault(kinds: set<Kind>)

  /** The world during one attempt: whether the context had ended (and by
      cancellation), the reply, the jitter draw, whether the deadline leaves
      time for the delay, and whether the context ended during the sleep. */
  datatype Attempt = Attempt(ended: Option<bool>, reply: Reply, draw: nat, hasTime: bool, cut: Option<bool>)

  datatype Outcome =
    | Success(profile: int)
    | Failure(kinds: set<Kind>)
    | ContextEnded(canceled: bool)
    | Panicked

  predicate IsRetryable(kinds: set<Kind>) {
    Timeout in kinds || Network in kinds || Upstream5xx in kinds
  }

  /** The delay drawn after an attempt. */
  function Delay(c: Client, attempt: int, draw: nat): Option<int> {
    if Bound(c, attempt) == 0 then Some(0) else Int63n(Wrap64(Bound(c, attempt) + 1), draw)
  }

  lemma DelayRange(c: Client, attempt: int, draw: nat)
    requires ClientOk(c) && Delay(c, attempt, draw).Some?
    ensures 0 <= Delay(c, attempt, draw).value <= Bound(c, attempt)
    ensures c.maxDelay > 0 ==> Delay(c, attempt, draw).value <= c.maxDelay
  {
    BoundRange(c, attempt);
  }

  /** Full jitter: every delay from zero to the bound can be drawn. */
  lemma FullJitter(c: Client, attempt: int, delay: nat)
    requires ClientOk(c) && delay <= Bound(c, attempt) < MAX
    ensures Delay(c, attempt, delay) == Some(delay)
  {
    SmallRemainder(delay, Bound(c, attempt) + 1);
  }

  lemma SmallRemainder(x: nat, n: int)
    requires x < n
    ensures x % n == x
  {
  }

  /** How attempt n ends the loop, if it does. */
  function EndsAt(c: Client, n: int, w: Attempt): Option<Outcome> {
    if w.ended.Some? then Some(ContextEnded(w.ended.value))
    else if w.reply.Got? then Some(Success(w.reply.profile))
    else if n == c.maxAttempts || !IsRetryable(w.reply.kinds) then Some(Failure(w.reply.kinds))
    else
      var d := Delay(c, n, w.draw);
      if d.None? then Some(Panicked)
      else if d.value > 0 && !w.hasTime then Some(Failure(w.reply.kinds))
      else if d.value > 0 && w.cut.Some? then Some(ContextEnded(w.cut.value))
      else None
  }

  function Sum(xs: seq<int>): int {
    if xs == [] then 0 else Sum(xs[..|xs| - 1]) + xs[|xs| - 1]
  }

  /** calls are the replies received, waits the delays slept through; last is
      the attempt that ended the loop. */
  method Attempts(c: Client, world: nat -> Attempt)
    returns (r: Outcome, calls: seq<Reply>, waits: seq<int>, last: nat)
    requires ClientOk(c)
    // at most maxAttempts calls, and a further call only after a retryable failure
    ensures |calls| <= c.maxAttempts
    ensures forall i :: 0 <= i < |calls| ==> calls[i] == world(i + 1).reply
    ensures forall i :: 0 <= i < |calls| - 1 ==> calls[i].Fault? && IsRetryable(calls[i].kinds)
    // the result is the last call's, unless the context ended
    ensures r.Success? <==> calls != [] && calls[|calls| - 1].Got?
    ensures r.Success? ==> calls[|calls| - 1] == Got(r.profile)
    ensures r.Failure? ==> calls != [] && calls[|calls| - 1] == Fault(r.kinds)
    // the loop ends at the first attempt that ends it
    ensures 1 <= last <= c.maxAttempts && EndsAt(c, last, world(last)) == Some(r)
    ensures forall n :: 1 <= n < last ==> EndsAt(c, n, world(n)).None?
    ensures |calls| == if world(last).ended.Some? then last - 1 else last
    // the waits in between
    ensures |waits| == last - 1
    ensures forall i :: 0 <= i < |waits| ==> Some(waits[i]) == Delay(c, i + 1, world(i + 1).draw)
    ensures c.maxDelay > 0 ==> 0 <= Sum(waits) <= |waits| * c.maxDelay
  {
    calls, waits := [], [];
    var attempt: nat := 1;
    while true
      invariant 1 <= attempt <= c.maxAttempts && |calls| == |waits| == attempt - 1
      invariant forall i :: 0 <= i < |calls| ==> calls[i] == world(i + 1).reply
      invariant forall i :: 0 <= i < |calls| ==> calls[i].Fault? && IsRetryable(calls[i].kinds)
      invariant forall n :: 1 <= n < attempt ==> EndsAt(c, n, world(n)).None?
      invariant forall i :: 0 <= i < |waits| ==> Some(waits[i]) == Delay(c, i + 1, world(i + 1).draw)
      invariant c.maxDelay > 0 ==> 0 <= Sum(waits) <= |waits| * c.maxDelay
      decreases c.maxAttempts - attempt
    {
      var w := world(attempt);
      if w.ended.Some? {
        return ContextEnded(w.ended.value), calls, waits, attempt;
      }
      calls := calls + [w.reply];
      if w.reply.Got? {
        return Success(w.reply.profile), calls, waits, attempt;
      }
      if attempt == c.maxAttempts {
        return Failure(w.reply.kinds), calls, waits, attempt;
      }
      if !IsRetryable(w.reply.kinds) {
        return Failure(w.reply.kinds), calls, waits, attempt;
      }
      var delay := BackoffWithJitter(c, attempt, w.draw);
      if delay.None? {
        return Panicked, calls, waits, attempt;
      }
      if delay.value > 0 && !w.hasTime {
        return Failure(w.reply.kinds), calls, waits, attempt;
      }
      if delay.value > 0 && w.cut.Some? {
        return ContextEnded(w.cut.value), calls, waits, attempt;
      }
      DelayRange(c, attempt, w.draw);
      SumMore(c, waits, delay.value);
      waits := waits + [delay.value];
      attempt := attempt + 1;
    }
  }

  lemma RetryableExact(kinds: set<Kind>)
    ensures IsRetryable(kinds) <==> kinds * {Timeout, Network, Upstream5xx} != {}
  {
    var retried := kinds * {Timeout, Network, Upstream5xx};
    assert Timeout in kinds <==> Timeout in retried;
    assert Network in kinds <==> Network in retried;
    assert Upstream5xx in kinds <==> Upstream5xx in retried;
  }

  /** Why attempt n ended the loop. */
  lemma EndsAtTells(c: Client, n: int, w: Attempt)
    requires ClientOk(c) && n >= 1 && EndsAt(c, n, w).Some?
    ensures
      var r := EndsAt(c, n, w).value;
      && (w.ended.Some? ==> r == ContextEnded(w.ended.value))
      && (w.ended.None? && w.reply.Got? ==> r == Success(w.reply.profile))
      && (r.Failure? ==> w.reply == Fault(r.kinds))
      && (r.Failure? && n != c.maxAttempts && w.hasTime ==> r.kinds !! {Timeout, Network, Upstream5xx})
      && (r.ContextEnded? && w.ended.None? ==> w.reply.Fault? && w.cut == Some(r.canceled) && n != c.maxAttempts)
      && (r.Panicked? ==> n == 1 && c.baseDelay == MAX)
  {
    if w.reply.Fault? {
      RetryableExact(w.reply.kinds);
      PanicExact(c, n, w.draw);
    }
  }

  lemma GoesOnTells(c: Client, n: int, w: Attempt, wait: int)
    requires ClientOk(c) && EndsAt(c, n, w).None? && Delay(c, n, w.draw) == Some(wait)
    ensures w.ended.None? && w.reply.Fault? && (wait == 0 || (w.hasTime && w.cut.None?))
  {
    DelayRange(c, n, w.draw);
  }

  /** The client's call. A reply is retried exactly for a timeout, a network error
      or a 5xx, while attempts and the deadline allow. */
  method FetchProfile(c: Client, world: nat -> Attempt)
    returns (r: Outcome, calls: seq<Reply>, waits: seq<int>, last: nat)
    requires ClientOk(c)
    // at most maxAttempts calls, and a further call only after a retryable failure
    ensures |calls| <= c.maxAttempts
    ensures forall i :: 0 <= i < |calls| ==> calls[i] == world(i + 1).reply
    ensures forall i :: 0 <= i < |calls| - 1 ==> calls[i].Fault? && IsRetryable(calls[i].kinds)
    // the result is the last call's, unless the context ended
    ensures r.Success? <==> calls != [] && calls[|calls| - 1].Got?
    ensures r.Success? ==> calls[|calls| - 1] == Got(r.profile)
    ensures r.Failure? ==> calls != [] && calls[|calls| - 1] == Fault(r.kinds)
    // the loop ends at the first attempt that ends it
    ensures 1 <= last <= c.maxAttempts && EndsAt(c, last, world(last)) == Some(r)
    ensures forall n :: 1 <= n < last ==> EndsAt(c, n, world(n)).None?
    ensures |calls| == if world(last).ended.Some? then last - 1 else last
    // the waits in between
    ensures |waits| == last - 1
    ensures forall i :: 0 <= i < |waits| ==> Some(waits[i]) == Delay(c, i + 1, world(i + 1).draw)
    ensures c.maxDelay > 0 ==> 0 <= Sum(waits) <= |waits| * c.maxDelay
    // what is retried, in terms of the replies
    ensures forall i :: 0 <= i < |calls| - 1 ==> calls[i].kinds * {Timeout, Network, Upstream5xx} != {}
    ensures r.Failure? && last < c.maxAttempts && world(last).hasTime ==> r.kinds !! {Timeout, Network, Upstream5xx}
    ensures world(last).ended.Some? ==> r == ContextEnded(world(last).ended.value)
    ensures r.ContextEnded? && world(last).ended.None? ==>
              world(last).cut == Some(r.canceled) && last < c.maxAttempts && calls != [] && calls[|calls| - 1].Fault?
    ensures r.Panicked? ==> last == 1 && c.baseDelay == MAX
    // the loop goes on only in a live context, and waits only if there is time
    ensures forall i :: 0 <= i < |waits| ==>
              && world(i + 1).ended.None?
              && (waits[i] == 0 || (world(i + 1).hasTime && world(i + 1).cut.None?))
  {
    r, calls, waits, last := Attempts(c, world);
    EndsAtTells(c, last, world(last));
    forall i | 0 <= i < |waits|
      ensures && world(i + 1).ended.None?
              && (waits[i] == 0 || (world(i + 1).hasTime && world(i + 1).cut.None?))
    {
      GoesOnTells(c, i + 1, world(i + 1), waits[i]);
    }
    forall i | 0 <= i < |calls| - 1 ensures calls[i].kinds * {Timeout, Network, Upstream5xx} != {} {
      RetryableExact(calls[i].kinds);
    }
  }

  lemma SumMore(c: Client, xs: seq<int>, x: int)
    requires c.maxDelay > 0 ==> 0 <= Sum(xs) <= |xs| * c.maxDelay && 0 <= x <= c.maxDelay
    ensures c.maxDelay > 0 ==> 0 <= Sum(xs + [x]) <= |xs + [x]| * c.maxDelay
  {
    assert (xs + [x])[..|xs|] == xs;
  }
}
