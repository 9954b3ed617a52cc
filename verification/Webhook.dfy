/** Delivery of one webhook: attempts, backoff, the retry deadline, and the capped read of the
    response body. Times are milliseconds on a monotone clock. */
module Webhook {
  import opened Wrappers
  import opened UploadTypes

  const U32_MAX: nat := 0xFFFF_FFFF
  const MAX_RETRY_DELAY: nat := 10_000

  const U64_MAX: nat := 0xFFFF_FFFF_FFFF_FFFF
  type u64 = x: nat | x <= U64_MAX

  /** A time span: whole seconds in 64 bits and less than a second on top. */
  predicate IsDuration(d: Millis) {
    0.0 <= d < (U64_MAX as real + 1.0) * 1000.0
  }

  datatype HookConfig = HookConfig(maxRetries: nat, retryDeadline: Millis)

  /** What the configuration's own types promise. */
  predicate WellTyped(config: HookConfig) {
    config.maxRetries <= U32_MAX && IsDuration(config.retryDeadline)
  }

  /** A response as far as retrying looks at it; `retryAfter` is its Retry-After header when
      that reads as a number of seconds in 64 bits. */
  datatype Response = Response(status: nat, retryAfter: Option<u64>)

  type Reply = Result<Response, string>

  /** What attempt number k meets: the reply and how long it took, the random draw for the
      backoff after it, and by how much the sleep after it overran. */
  datatype Attempt = Attempt(reply: Reply, took: Millis, draw: real, overslept: Millis)

  ghost predicate Plausible(net: nat -> Attempt) {
    forall k: nat :: 0.0 <= net(k).took && 0.0 <= net(k).draw < 1.0 && 0.0 <= net(k).overslept
  }

  function Min(a: nat, b: nat): nat {
    if a < b then a else b
  }

  function SaturatingAdd(a: nat, b: nat): nat {
    Min(a + b, U32_MAX)
  }

  predicate IsRetryableStatus(status: nat) {
    status == 429 || 500 <= status < 600
  }

  /** The delay a response asks for, in milliseconds. */
  function RetryAfter(r: Response): Option<Millis> {
    if r.retryAfter.None? || (r.status != 429 && r.status != 503) then None
    else Some(r.retryAfter.value as real * 1000.0)
  }

  function ShiftLeft(x: nat, n: nat): nat {
    if n == 0 then x else 2 * ShiftLeft(x, n - 1)
  }

  function Backoff(attempt: nat): nat {
    Min(ShiftLeft(100, Min(attempt, 8)), MAX_RETRY_DELAY)
  }

  function RetryDelay(config: HookConfig, attempt: nat, after: Option<Millis>, draw: real): Millis {
    match after
    case Some(d) => if d < config.retryDeadline then d else config.retryDeadline
    case None => var b := Backoff(attempt) as real; b + b * (draw * 0.5)
  }

  function MaxAttempts(config: HookConfig, retryEnabled: bool): nat {
    if retryEnabled then SaturatingAdd(config.maxRetries, 1) else 1
  }

  /** `None` when the deadline lies beyond what the clock can represent. */
  function Deadline(config: HookConfig, start: Millis, horizon: Millis): Option<Millis> {
    if start + config.retryDeadline <= horizon then Some(start + config.retryDeadline) else None
  }

  predicate ExceedsDeadline(now: Millis, delay: Millis, deadline: Option<Millis>, horizon: Millis) {
    deadline.Some? && (now + delay > horizon || now + delay > deadline.value)
  }

  // ---------------------------------------------------------------- what a delivery does

  predicate IsRetryableReply(reply: Reply) {
    reply.Err? || IsRetryableStatus(reply.value.status)
  }

  /** The delay that would follow attempt `k`. */
  function DelayAfter(config: HookConfig, net: nat -> Attempt, k: nat): Millis {
    RetryDelay(config, k, if net(k).reply.Ok? then RetryAfter(net(k).reply.value) else None, net(k).draw)
  }

  /** The clock when attempt `k` has its reply, if every earlier attempt was retried. */
  function RepliedAt(config: HookConfig, net: nat -> Attempt, start: Millis, k: nat): Millis {
    var asked :=
      if k == 0 then start
      else RepliedAt(config, net, start, k - 1) + DelayAfter(config, net, k - 1) + net(k - 1).overslept;
    asked + net(k).took
  }

  /** Attempt `k` is not followed by another. */
  predicate Ends(config: HookConfig, retryEnabled: bool, net: nat -> Attempt, start: Millis, horizon: Millis, k: nat) {
    || k + 1 >= MaxAttempts(config, retryEnabled)
    || !IsRetryableReply(net(k).reply)
    || ExceedsDeadline(RepliedAt(config, net, start, k), DelayAfter(config, net, k),
                       Deadline(config, start, horizon), horizon)
  }

  function Sum(s: seq<Millis>): Millis {
    if s == [] then 0.0 else Sum(s[..|s| - 1]) + s[|s| - 1]
  }

  /** The waits after the first `n` attempts, when each of them is followed by another. */
  function Waits(config: HookConfig, net: nat -> Attempt, n: nat): (w: seq<Millis>)
    ensures |w| == n
  {
    if n == 0 then [] else Waits(config, net, n - 1) + [DelayAfter(config, net, n - 1)]
  }

  /** The delivery stops after attempt `n`, the first after which a rule says to stop. */
  ghost predicate Delivers(config: HookConfig, retryEnabled: bool, net: nat -> Attempt, start: Millis,
                           horizon: Millis, n: nat) {
    && Ends(config, retryEnabled, net, start, horizon, n)
    && forall k | 0 <= k < n :: !Ends(config, retryEnabled, net, start, horizon, k)
  }

  /** Delivers with retries. The reply is that of the first attempt after which a rule says to
      stop; `sleeps` are the waits between attempts. */
  method SendWithRetry(config: HookConfig, retryEnabled: bool, net: nat -> Attempt, start: Millis, horizon: Millis)
    returns (reply: Reply, sleeps: seq<Millis>)
    requires Plausible(net) && WellTyped(config) && start <= horizon
    ensures Delivers(config, retryEnabled, net, start, horizon, |sleeps|)
    ensures reply == net(|sleeps|).reply && sleeps == Waits(config, net, |sleeps|)
    ensures |sleeps| + 1 <= MaxAttempts(config, retryEnabled)
    ensures start + config.retryDeadline <= horizon ==> Sum(sleeps) <= config.retryDeadline
  {
    var maxAttempts := MaxAttempts(config, retryEnabled);
    var deadline := Deadline(config, start, horizon);
    var clock := start;
    var attempt := 0;
    sleeps := [];
    while true
      invariant attempt == |sleeps| < maxAttempts <= U32_MAX
      invariant forall k | 0 <= k < |sleeps| :: !Ends(config, retryEnabled, net, start, horizon, k)
      invariant sleeps == Waits(config, net, attempt)
      invariant clock + net(attempt).took == RepliedAt(config, net, start, attempt)
      decreases maxAttempts - attempt
    {
      var isLastAttempt := SaturatingAdd(attempt, 1) >= maxAttempts;
      reply := net(attempt).reply;
      clock := clock + net(attempt).took;
      var delay: Millis;
      match reply {
        case Ok(response) =>
          if isLastAttempt || !IsRetryableStatus(response.status) {
            break;
          }
          delay := RetryDelay(config, attempt, RetryAfter(response), net(attempt).draw);
          if ExceedsDeadline(clock, delay, deadline, horizon) {
            break;
          }
        case Err(_) =>
          if isLastAttempt {
            break;
          }
          delay := RetryDelay(config, attempt, None, net(attempt).draw);
          if ExceedsDeadline(clock, delay, deadline, horizon) {
            break;
          }
      }
      sleeps := sleeps + [delay];
      clock := clock + delay + net(attempt).overslept;
      attempt := SaturatingAdd(attempt, 1);
    }
    WaitsFit(config, retryEnabled, net, start, horizon, attempt);
  }

  // ---------------------------------------------------------------- the delays

  lemma {:induction false} ShiftGrows(n: nat)
    ensures 100 <= ShiftLeft(100, n)
    ensures n >= 7 ==> ShiftLeft(100, n) >= 12_800
    ensures n <= 8 ==> ShiftLeft(100, n) <= 25_600
    ensures n <= 7 ==> ShiftLeft(100, n) <= 12_800
    ensures n <= 6 ==> ShiftLeft(100, n) <= 6_400
  {
    if n > 8 {
      ShiftGrows(n - 1);
    } else {
      assert ShiftLeft(100, 2) == 400;
      assert ShiftLeft(100, 4) == 1_600;
      assert ShiftLeft(100, 6) == 6_400;
      assert ShiftLeft(100, 8) == 25_600;
    }
  }

  lemma JitterBounds(b: real, draw: real)
    requires 0.0 < b && 0.0 <= draw < 1.0
    ensures b <= b + b * (draw * 0.5) < 1.5 * b
  {
    assert 0.0 <= b * draw < b;
    assert b * (draw * 0.5) == b * draw * 0.5;
  }

  /** The shift never leaves 64 bits, the backoff doubles from 100 ms until it is capped, and
      with jitter no computed delay reaches 15 seconds. */
  lemma BackoffBounds(config: HookConfig, attempt: nat, draw: real)
    requires 0.0 <= draw < 1.0
    ensures ShiftLeft(100, Min(attempt, 8)) <= 25_600 && Backoff(0) == 100
    ensures Backoff(attempt + 1) == Min(2 * Backoff(attempt), MAX_RETRY_DELAY)
    ensures Backoff(attempt) as real <= RetryDelay(config, attempt, None, draw) < 15_000.0
  {
    ShiftGrows(Min(attempt, 8));
    ShiftGrows(Min(attempt + 1, 8));
    JitterBounds(Backoff(attempt) as real, draw);
  }

  // ---------------------------------------------------------------- the sum of the waits

  /** The clock runs at least as long as the waits. */
  lemma {:induction false} WaitsPass(config: HookConfig, net: nat -> Attempt, start: Millis, n: nat)
    requires Plausible(net)
    ensures start + Sum(Waits(config, net, n)) <= RepliedAt(config, net, start, n)
  {
    assert net(n).took >= 0.0;
    if n > 0 {
      WaitsPass(config, net, start, n - 1);
      assert Waits(config, net, n)[..n - 1] == Waits(config, net, n - 1);
      assert net(n - 1).overslept >= 0.0;
    }
  }

  /** Each wait was checked against the deadline when it began. */
  lemma WaitsFit(config: HookConfig, retryEnabled: bool, net: nat -> Attempt, start: Millis, horizon: Millis, n: nat)
    requires Plausible(net) && 0.0 <= config.retryDeadline
    requires forall k | 0 <= k < n :: !Ends(config, retryEnabled, net, start, horizon, k)
    ensures start + config.retryDeadline <= horizon ==> Sum(Waits(config, net, n)) <= config.retryDeadline
  {
    if n > 0 {
      WaitsPass(config, net, start, n - 1);
      assert Waits(config, net, n)[..n - 1] == Waits(config, net, n - 1);
      assert !Ends(config, retryEnabled, net, start, horizon, n - 1);
    }
  }

  /** Whatever the network does, the waits of one delivery sum to at most the retry deadline. */
  ghost predicate Bounded(config: HookConfig, retryEnabled: bool, start: Millis, horizon: Millis) {
    forall net: nat -> Attempt, n: nat ::
      Plausible(net) && Delivers(config, retryEnabled, net, start, horizon, n) ==>
        Sum(Waits(config, net, n)) <= config.retryDeadline
  }

  /** A server that asks for a long wait `busy` times and then accepts. */
  function BusyFor(busy: nat, first: Attempt): nat -> Attempt {
    (k: nat) => if k < busy then first else Attempt(Ok(Response(200, None)), 0.0, 0.0, 0.0)
  }

  function Ceil(x: real): (n: int)
    ensures x <= n as real < x + 1.0
  {
    -((-x).Floor)
  }

  /** A number of seconds that a header can ask for, and more than half of the span. */
  function LongWait(d: Millis): (seconds: u64)
    requires IsDuration(d) && d > 0.0
    ensures 2.0 * (seconds as real * 1000.0) > d
  {
    Min(Ceil(d / 1000.0), U64_MAX)
  }

  /** With two retries and an unrepresentable deadline, a server can ask for the whole deadline
      twice and is obeyed. */
  lemma TwoLongWaits(config: HookConfig, start: Millis, horizon: Millis)
    requires WellTyped(config) && 2 <= config.maxRetries && start <= horizon < start + config.retryDeadline
    ensures !Bounded(config, true, start, horizon)
  {
    var d := config.retryDeadline;
    var seconds := LongWait(d);
    var first := Attempt(Ok(Response(429, Some(seconds))), 0.0, 0.0, 0.0);
    var net := BusyFor(2, first);
    var wait := DelayAfter(config, net, 0);
    var asked := seconds as real * 1000.0;
    assert wait == (if asked < d then asked else d) && DelayAfter(config, net, 1) == wait;
    assert Waits(config, net, 2) == [wait, wait];
    assert [wait, wait][..1] == [wait];
    OneSum(wait);
    assert Plausible(net);
    assert Delivers(config, true, net, start, horizon, 2);
  }

  /** No delivery makes more attempts than it may. */
  lemma FewWaits(config: HookConfig, retryEnabled: bool, net: nat -> Attempt, start: Millis, horizon: Millis, n: nat)
    requires WellTyped(config) && Delivers(config, retryEnabled, net, start, horizon, n)
    ensures n + 1 <= MaxAttempts(config, retryEnabled)
  {
    if n > 0 {
      assert !Ends(config, retryEnabled, net, start, horizon, n - 1);
    }
  }

  lemma FirstDelay(config: HookConfig, draw: real)
    ensures RetryDelay(config, 0, None, draw) == 100.0 + 50.0 * draw
  {
    assert Backoff(0) == 100;
    assert 100.0 * (draw * 0.5) == 50.0 * draw;
  }

  lemma OneSum(wait: Millis)
    ensures Sum([wait]) == wait
  {
    assert [wait][..0] == [];
  }

  /** A first backoff that exceeds a deadline below 150 ms. */
  lemma LongFirstWait(config: HookConfig, start: Millis, horizon: Millis)
    requires WellTyped(config) && config.maxRetries == 1 && start <= horizon < start + config.retryDeadline
    requires config.retryDeadline < 150.0
    ensures !Bounded(config, true, start, horizon)
  {
    var d := config.retryDeadline;
    var draw := if d < 100.0 then 0.5 else (d - 75.0) / 75.0;
    var net := BusyFor(1, Attempt(Err("unreachable"), 0.0, draw, 0.0));
    FirstDelay(config, draw);
    var wait := DelayAfter(config, net, 0);
    assert wait > d;
    assert Waits(config, net, 1) == [wait];
    OneSum(wait);
    assert Plausible(net) && Delivers(config, true, net, start, horizon, 1);
  }

  /** One wait is either asked for, and then cut at the deadline, or a first backoff. */
  lemma OneWaitFits(config: HookConfig, net: nat -> Attempt, start: Millis, horizon: Millis, n: nat)
    requires WellTyped(config) && config.maxRetries == 1 && 150.0 <= config.retryDeadline
    requires Plausible(net) && Delivers(config, true, net, start, horizon, n)
    ensures Sum(Waits(config, net, n)) <= config.retryDeadline
  {
    FewWaits(config, true, net, start, horizon, n);
    if n == 1 {
      assert 0.0 <= net(0).draw < 1.0;
      FirstDelay(config, net(0).draw);
      assert Waits(config, net, 1) == [DelayAfter(config, net, 0)];
      OneSum(DelayAfter(config, net, 0));
    }
  }

  /** With one retry and an unrepresentable deadline only the first backoff can exceed it, and
      it does so for some draw exactly when the deadline is below 150 ms. */
  lemma OneWait(config: HookConfig, start: Millis, horizon: Millis)
    requires WellTyped(config) && config.maxRetries == 1 && start <= horizon < start + config.retryDeadline
    ensures Bounded(config, true, start, horizon) <==> 150.0 <= config.retryDeadline
  {
    if config.retryDeadline < 150.0 {
      LongFirstWait(config, start, horizon);
    } else {
      forall net: nat -> Attempt, n: nat | Plausible(net) && Delivers(config, true, net, start, horizon, n)
        ensures Sum(Waits(config, net, n)) <= config.retryDeadline
      {
        OneWaitFits(config, net, start, horizon, n);
      }
    }
  }

  /** The waits of a delivery never sum to more than the retry deadline if and only if the clock
      can represent that deadline, or there is no retry, or there is one and the deadline is at
      least 150 ms. */
  lemma BoundedIff(config: HookConfig, retryEnabled: bool, start: Millis, horizon: Millis)
    requires WellTyped(config) && start <= horizon
    ensures Bounded(config, retryEnabled, start, horizon) <==>
            || start + config.retryDeadline <= horizon
            || !retryEnabled || config.maxRetries == 0
            || (config.maxRetries == 1 && 150.0 <= config.retryDeadline)
  {
    if start + config.retryDeadline <= horizon || !retryEnabled || config.maxRetries == 0 {
      forall net: nat -> Attempt, n: nat | Plausible(net) && Delivers(config, retryEnabled, net, start, horizon, n)
        ensures Sum(Waits(config, net, n)) <= config.retryDeadline
      {
        WaitsFit(config, retryEnabled, net, start, horizon, n);
        FewWaits(config, retryEnabled, net, start, horizon, n);
      }
    } else if config.maxRetries == 1 {
      OneWait(config, start, horizon);
    } else {
      TwoLongWaits(config, start, horizon);
    }
  }

  // ---------------------------------------------------------------- the number of retries

  /** Every reply asks for a retry, and the deadline never forbids one. */
  ghost predicate NeverYields(config: HookConfig, net: nat -> Attempt, start: Millis, horizon: Millis) {
    forall k: nat ::
      && IsRetryableReply(net(k).reply)
      && !ExceedsDeadline(RepliedAt(config, net, start, k), DelayAfter(config, net, k),
                          Deadline(config, start, horizon), horizon)
  }

  /** Such a delivery makes `max_retries` attempts after the first, as documented, if and only
      if that setting is below the 32-bit limit; at the limit it makes one fewer. */
  lemma RetriesAreSpent(config: HookConfig, net: nat -> Attempt, start: Millis, horizon: Millis, n: nat)
    requires WellTyped(config) && NeverYields(config, net, start, horizon)
    ensures Delivers(config, true, net, start, horizon, n) <==>
            n == if config.maxRetries < U32_MAX then config.maxRetries else config.maxRetries - 1
    ensures Delivers(config, true, net, start, horizon, n) ==> (n == config.maxRetries <==> config.maxRetries < U32_MAX)
  {
    var last := MaxAttempts(config, true) - 1;
    forall k: nat ensures Ends(config, true, net, start, horizon, k) <==> k >= last {
      assert IsRetryableReply(net(k).reply);
    }
    assert Ends(config, true, net, start, horizon, last);
  }

  /** There is such a delivery for the greatest setting: an endpoint that cannot be reached and
      a deadline that the clock cannot represent. */
  lemma OneRetryIsLost(config: HookConfig, start: Millis, horizon: Millis)
    requires WellTyped(config) && config.maxRetries == U32_MAX && start <= horizon < start + config.retryDeadline
    ensures exists net ::
      && Plausible(net) && NeverYields(config, net, start, horizon)
      && Delivers(config, true, net, start, horizon, U32_MAX - 1)
      && !Delivers(config, true, net, start, horizon, config.maxRetries)
  {
    var net := (k: nat) => Attempt(Err("unreachable"), 0.0, 0.0, 0.0);
    assert Plausible(net) && NeverYields(config, net, start, horizon);
    RetriesAreSpent(config, net, start, horizon, U32_MAX - 1);
    RetriesAreSpent(config, net, start, horizon, config.maxRetries);
  }

  // ---------------------------------------------------------------- reading a body

  /** The body's chunks as they arrive; `None` is a failed read. */
  type Stream = seq<Option<Bytes>>

  /** What arrives before the first failure. */
  function Arrived(s: Stream): Bytes {
    if s == [] || s[0].None? then [] else s[0].value + Arrived(s[1..])
  }

  predicate Broken(s: Stream) {
    s != [] && (s[0].None? || Broken(s[1..]))
  }

  /** Reads at most `cap` bytes: all of the body, or its first `cap` bytes and word that there
      was more. A failed read counts only if it comes before the cap is passed. */
  method ReadBodyCapped(stream: Stream, cap: nat) returns (r: Result<(Bytes, bool), ()>)
    ensures var whole := Arrived(stream);
            r == if |whole| > cap then Ok((whole[..cap], true))
                 else if Broken(stream) then Err(()) else Ok((whole, false))
  {
    var body: Bytes := [];
    for i := 0 to |stream|
      invariant |body| <= cap
      invariant Arrived(stream) == body + Arrived(stream[i..]) && Broken(stream) == Broken(stream[i..])
    {
      assert stream[i..][0] == stream[i] && stream[i..][1..] == stream[i + 1..];
      if stream[i].None? {
        assert Arrived(stream) == body;
        return Err(());
      }
      var chunk := stream[i].value;
      assert Arrived(stream) == (body + chunk) + Arrived(stream[i + 1..]);
      if |body| + |chunk| > cap {
        body := body + chunk[..cap - |body|];
        assert Arrived(stream)[..cap] == body;
        return Ok((body, true));
      }
      body := body + chunk;
    }
    assert stream[|stream|..] == [];
    assert Arrived(stream) == body;
    r := Ok((body, false));
  }

  // ---------------------------------------------------------------- retrying, written out

  /** The wait after attempt `k`: what a 429 or 503 asks for, but no longer than the deadline
      allows, and otherwise a backoff that starts at 100 ms, doubles with each attempt up to ten
      seconds, and is stretched by up to half. */
  lemma DelayIs(config: HookConfig, net: nat -> Attempt, k: nat)
    requires Plausible(net)
    ensures var reply, delay := net(k).reply, DelayAfter(config, net, k);
            if reply.Ok? && reply.value.status in {429, 503} && reply.value.retryAfter.Some? then
              var asked := reply.value.retryAfter.value as real * 1000.0;
              delay == if asked < config.retryDeadline then asked else config.retryDeadline
            else
              var base := (if k < 7 then Doubled(k) else 10_000) as real;
              base <= delay < 1.5 * base
  {
    assert 0.0 <= net(k).draw < 1.0;
    JitteredBackoff(config, k, net(k).draw);
  }

  lemma JitteredBackoff(config: HookConfig, k: nat, draw: real)
    requires 0.0 <= draw < 1.0
    ensures var base := (if k < 7 then Doubled(k) else 10_000) as real;
            base <= RetryDelay(config, k, None, draw) < 1.5 * base
  {
    BackoffIs(k);
    JitterBounds(Backoff(k) as real, draw);
  }

  function Doubled(k: nat): nat {
    if k == 0 then 100 else 2 * Doubled(k - 1)
  }

  lemma {:induction false} ShiftDoubles(k: nat)
    ensures ShiftLeft(100, k) == Doubled(k)
  {
    if k > 0 {
      ShiftDoubles(k - 1);
    }
  }

  lemma BackoffIs(k: nat)
    ensures Backoff(k) == if k < 7 then Doubled(k) else 10_000
    ensures Backoff(k) > 0
  {
    ShiftDoubles(if k < 8 then k else 8);
    ShiftGrows(if k < 8 then k else 8);
  }

  /** Attempt `k` is followed by another exactly when retries are enabled and one is left, the
      reply is a failure, a 429 or a 5xx, and the wait would end by the deadline, if the clock
      can represent one. */
  lemma RetriedIff(config: HookConfig, retryEnabled: bool, net: nat -> Attempt, start: Millis, horizon: Millis, n: nat,
                   k: nat)
    requires WellTyped(config) && Delivers(config, retryEnabled, net, start, horizon, n) && k <= n
    ensures k < n <==>
            && retryEnabled && k < config.maxRetries && k + 1 < 0xffff_ffff
            && (net(k).reply.Err? || net(k).reply.value.status == 429 || 500 <= net(k).reply.value.status < 600)
            && var resumed := RepliedAt(config, net, start, k) + DelayAfter(config, net, k);
               start + config.retryDeadline > horizon || (resumed <= horizon && resumed <= start + config.retryDeadline)
  {
    assert Ends(config, retryEnabled, net, start, horizon, n);
    assert k < n ==> !Ends(config, retryEnabled, net, start, horizon, k);
  }

  /** A reply comes when the call before it, the wait and its overrun, and its own call are over. */
  lemma RepliesFollow(config: HookConfig, net: nat -> Attempt, start: Millis, k: nat)
    ensures RepliedAt(config, net, start, 0) == start + net(0).took
    ensures RepliedAt(config, net, start, k + 1) ==
            RepliedAt(config, net, start, k) + DelayAfter(config, net, k) + net(k).overslept + net(k + 1).took
  {
  }
}
