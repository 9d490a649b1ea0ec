/**
 Retry with full jitter around one outbound call. `Attempt` is the specification of
 both twins; the methods are the loops.
 */
module Resilience {
  import opened Common

  /** What a send can raise, by the classes the policies tell apart. */
  datatype Fault =
    | ConnectError | ConnectTimeout | PoolTimeout
    | ReadTimeout | WriteTimeout | ReadError | WriteError | CloseError | ProtocolError
    | OtherHttpError
    | OtherError

  /**
   The `Retry-After` header: absent or unreadable, delay-seconds, or a date that far away.
   `NotFinite` is a number that stays so when clamped, not-a-number or minus infinity;
   `DateOverflows` is a date whose fields are out of the platform's range.
   */
  datatype RetryAfter = NoHint | Seconds(value: real) | Date(remainingMs: real) | NotFinite | DateOverflows

  /** What reading the header gives: nothing, milliseconds, a number that cannot be rounded, or an exception. */
  datatype Asked = Nothing | Wait(ms: real) | Unroundable | Raises

  datatype Outcome = Response(status: int, retryAfter: RetryAfter) | Raised(fault: Fault)

  datatype Policy = Policy(attempts: int, baseMs: nat, capMs: nat, retryWhenAmbiguous: bool)

  const IN_CALL := Policy(2, 25, 100, true)
  const BACKGROUND := Policy(3, 500, 4000, true)
  const UNSAFE_WRITE := Policy(2, 200, 1000, false)

  const RETRYABLE_STATUS := {408, 425, 429, 500, 502, 503, 504, 529}
  const PRE_DELIVERY_STATUS := {429, 503}

  /** `base` doubled `n` times. */
  function Doubled(base: nat, n: int): nat { if n <= 0 then base else 2 * Doubled(base, n - 1) }

  function Window(policy: Policy, attempt: int): nat {
    Min(policy.capMs, Doubled(policy.baseMs, attempt - 1))
  }

  function DelayMs(policy: Policy, attempt: int, draw: real): real {
    draw * Window(policy, attempt) as real
  }

  function RetryAfterMs(hint: RetryAfter, capMs: nat): Asked {
    match hint
    case NoHint => Nothing
    case Seconds(x) => Wait(MinReal(x * 1000.0, capMs as real))
    case Date(ms) => Wait(MaxReal(0.0, MinReal(ms, capMs as real)))
    case NotFinite => Unroundable
    case DateOverflows => Raises
  }

  predicate PreDelivery(o: Outcome) {
    match o
    case Response(status, _) => status in PRE_DELIVERY_STATUS
    case Raised(f) => f.ConnectError? || f.ConnectTimeout? || f.PoolTimeout?
  }

  predicate Retryable(policy: Policy, o: Outcome) {
    if !policy.retryWhenAmbiguous then PreDelivery(o)
    else match o
      case Response(status, _) => status in RETRYABLE_STATUS
      case Raised(f) => !f.OtherHttpError? && !f.OtherError?
  }

  /** The delay before the next attempt, or nothing when finding or logging it raises. */
  function Delay(policy: Policy, attempt: int, o: Outcome, draw: real): Option<real> {
    if o.Raised? then Some(DelayMs(policy, attempt, draw))
    else match RetryAfterMs(o.retryAfter, policy.capMs)
      case Nothing => Some(DelayMs(policy, attempt, draw))
      case Wait(ms) => Some(ms)
      case Unroundable => None
      case Raises => None
  }

  /**
   `Unreachable` is the assertion after the loop; `SleepRefused` is a negative
   `time.sleep`; `HintRaised` is an exception from reading the header, or from rounding
   the delay for the log line that comes before the sleep.
   */
  datatype Result =
    | Returned(response: Outcome)
    | Propagated(fault: Fault)
    | Unreachable
    | SleepRefused
    | HintRaised

  datatype Run = Run(result: Result, sends: nat, sleptMs: real)

  function Settled(o: Outcome): Result {
    match o
    case Response(_, _) => Returned(o)
    case Raised(f) => Propagated(f)
  }

  /**
   The loop from attempt `n` on. `send(n)` is what the n-th send would do and `draw(n)`
   the random number it would use. `blocking` is the Celery twin, whose sleep rejects a
   negative delay; the event loop's sleep returns at once.
   */
  function Attempt(policy: Policy, send: int -> Outcome, draw: int -> real, n: int, blocking: bool): Run
    decreases policy.attempts - n
  {
    if n > policy.attempts then Run(Unreachable, 0, 0.0)
    else if n == policy.attempts || !Retryable(policy, send(n)) then Run(Settled(send(n)), 1, 0.0)
    else
      var delay := Delay(policy, n, send(n), draw(n));
      if delay.None? then Run(HintRaised, 1, 0.0)
      else if blocking && delay.value < 0.0 then Run(SleepRefused, 1, 0.0)
      else
        var rest := Attempt(policy, send, draw, n + 1, blocking);
        Run(rest.result, rest.sends + 1, MaxReal(delay.value, 0.0) + rest.sleptMs)
  }

  method RequestWithRetry(policy: Policy, send: int -> Outcome, draw: int -> real)
    returns (result: Result, sends: nat, sleptMs: real)
    ensures Run(result, sends, sleptMs) == Attempt(policy, send, draw, 1, false)
  {
    sends, sleptMs := 0, 0.0;
    var attempt := 1;
    while attempt <= policy.attempts
      invariant attempt == sends + 1
      invariant var rest := Attempt(policy, send, draw, attempt, false);
                Attempt(policy, send, draw, 1, false) == Run(rest.result, sends + rest.sends, sleptMs + rest.sleptMs)
    {
      var final := attempt == policy.attempts;
      var outcome := send(attempt);
      sends := sends + 1;
      if outcome.Raised? {
        if !Retryable(policy, outcome) || final {
          return Propagated(outcome.fault), sends, sleptMs;
        }
        sleptMs := sleptMs + MaxReal(DelayMs(policy, attempt, draw(attempt)), 0.0);
      } else {
        if final || !Retryable(policy, outcome) {
          return Returned(outcome), sends, sleptMs;
        }
        var requested := RetryAfterMs(outcome.retryAfter, policy.capMs);
        if requested.Raises? || requested.Unroundable? {
          return HintRaised, sends, sleptMs;
        }
        var delay := if requested.Wait? then requested.ms else DelayMs(policy, attempt, draw(attempt));
        sleptMs := sleptMs + MaxReal(delay, 0.0);
      }
      attempt := attempt + 1;
    }
    result := Unreachable;
  }

  method RequestWithRetrySync(policy: Policy, send: int -> Outcome, draw: int -> real)
    returns (result: Result, sends: nat, sleptMs: real)
    ensures Run(result, sends, sleptMs) == Attempt(policy, send, draw, 1, true)
  {
    sends, sleptMs := 0, 0.0;
    var attempt := 1;
    while attempt <= policy.attempts
      invariant attempt == sends + 1
      invariant var rest := Attempt(policy, send, draw, attempt, true);
                Attempt(policy, send, draw, 1, true) == Run(rest.result, sends + rest.sends, sleptMs + rest.sleptMs)
    {
      var final := attempt == policy.attempts;
      var outcome := send(attempt);
      sends := sends + 1;
      var delay;
      if outcome.Raised? {
        if !Retryable(policy, outcome) || final {
          return Propagated(outcome.fault), sends, sleptMs;
        }
        delay := DelayMs(policy, attempt, draw(attempt));
      } else {
        if final || !Retryable(policy, outcome) {
          return Returned(outcome), sends, sleptMs;
        }
        var requested := RetryAfterMs(outcome.retryAfter, policy.capMs);
        if requested.Raises? || requested.Unroundable? {
          return HintRaised, sends, sleptMs;
        }
        delay := if requested.Wait? then requested.ms else DelayMs(policy, attempt, draw(attempt));
      }
      if delay < 0.0 {
        return SleepRefused, sends, sleptMs;
      }
      sleptMs := sleptMs + delay;
      attempt := attempt + 1;
    }
    result := Unreachable;
  }

  ghost predicate UnitDraws(draw: int -> real) {
    forall n :: 0.0 <= draw(n) < 1.0
  }

  lemma Shrinks(x: real, window: real)
    requires 0.0 <= x < 1.0 && window >= 0.0
    ensures 0.0 <= x * window <= window
  {
  }

  lemma DrawBounds(x: real, window: real, cap: real)
    requires 0.0 <= x < 1.0 && 0.0 <= window <= cap
    ensures 0.0 <= x * window <= cap
  {
    Shrinks(x, window);
  }

  lemma WindowCapped(policy: Policy, attempt: int)
    ensures 0.0 <= Window(policy, attempt) as real <= policy.capMs as real
  {
  }

  lemma JitterBounds(policy: Policy, attempt: int, x: real)
    requires 0.0 <= x < 1.0
    ensures 0.0 <= DelayMs(policy, attempt, x) <= policy.capMs as real
  {
    var window := Window(policy, attempt);
    WindowCapped(policy, attempt);
    DrawBounds(x, window as real, policy.capMs as real);
  }

  /** A finite hint is clamped from above only; the other two forms get past the clamp or raise in it. */
  lemma HintBounds(hint: RetryAfter, capMs: nat)
    ensures var asked := RetryAfterMs(hint, capMs);
            && (asked.Wait? ==> asked.ms <= capMs as real)
            && (asked.Wait? && asked.ms < 0.0 <==> hint.Seconds? && hint.value < 0.0)
            && (asked.Nothing? || asked.Wait? <==> !hint.NotFinite? && !hint.DateOverflows?)
  {
  }

  predicate BadHint(o: Outcome) {
    o.Response? && (o.retryAfter.NotFinite? || o.retryAfter.DateOverflows?)
  }

  lemma DelayBounds(policy: Policy, attempt: int, o: Outcome, x: real)
    requires 0.0 <= x < 1.0
    ensures var delay := Delay(policy, attempt, o, x);
            && (delay.None? <==> BadHint(o))
            && (delay.Some? ==> delay.value <= policy.capMs as real)
            && (delay.Some? && delay.value < 0.0 <==> NegativeHint(o))
  {
    if o.Response? && RetryAfterMs(o.retryAfter, policy.capMs).Wait? {
      HintBounds(o.retryAfter, policy.capMs);
    } else {
      JitterBounds(policy, attempt, x);
    }
  }

  // -- What is waited for -----------------------------------------------

  /** The first retry draws from the base, each later one from twice as much, up to the cap. */
  lemma WindowDoubles(policy: Policy, attempt: int)
    requires attempt >= 1
    ensures Window(policy, 1) == Min(policy.capMs, policy.baseMs)
    ensures Window(policy, attempt + 1) == Min(policy.capMs, 2 * Window(policy, attempt))
    ensures Window(IN_CALL, 1) == 25 && Window(BACKGROUND, 1) == 500 && Window(UNSAFE_WRITE, 1) == 200
  {
  }

  /** The draw covers the whole window: nothing of it at zero, all but nothing of it towards one. */
  lemma JitterIsUniform(policy: Policy, attempt: int, x: real, y: real)
    ensures DelayMs(policy, attempt, 0.0) == 0.0 && DelayMs(policy, attempt, 1.0) == Window(policy, attempt) as real
    ensures DelayMs(policy, attempt, y) - DelayMs(policy, attempt, x) == (y - x) * Window(policy, attempt) as real
  {
    var window := Window(policy, attempt) as real;
    assert (y - x) * window == y * window - x * window;
  }

  function Clamped(x: real, cap: real): real {
    if x < 0.0 then 0.0 else if x > cap then cap else x
  }

  /** What is waited for an outcome, once it is not negative. */
  function Asks(o: Outcome, capMs: nat): Option<real> {
    if o.Raised? then None
    else match o.retryAfter
      case Seconds(value) => Some(Clamped(1000.0 * value, capMs as real))
      case Date(remainingMs) => Some(Clamped(remainingMs, capMs as real))
      case _ => None
  }

  lemma DelayIsAsked(policy: Policy, attempt: int, o: Outcome, x: real)
    requires !BadHint(o) && 0.0 <= x < 1.0
    ensures Delay(policy, attempt, o, x).Some?
    ensures MaxReal(Delay(policy, attempt, o, x).value, 0.0)
         == if Asks(o, policy.capMs).Some? then Asks(o, policy.capMs).value else DelayMs(policy, attempt, x)
  {
    JitterBounds(policy, attempt, x);
  }

  lemma AttemptGoesOn(policy: Policy, send: int -> Outcome, draw: int -> real, n: int, blocking: bool)
    requires n < policy.attempts && Retryable(policy, send(n))
    requires Delay(policy, n, send(n), draw(n)).Some?
    requires blocking ==> Delay(policy, n, send(n), draw(n)).value >= 0.0
    ensures var run, rest := Attempt(policy, send, draw, n, blocking), Attempt(policy, send, draw, n + 1, blocking);
            && run.sends == rest.sends + 1 && run.result == rest.result
            && run.sleptMs - rest.sleptMs == MaxReal(Delay(policy, n, send(n), draw(n)).value, 0.0)
  {
  }

  /**
   Before each retry either loop waits as long as it was asked to, and no longer: the
   seconds as milliseconds, or until the date, at most the cap and at least nothing; and
   without a usable request, the draw's share of the window.
   */
  lemma RequestHonoured(policy: Policy, send: int -> Outcome, draw: int -> real, n: int, blocking: bool)
    requires n < policy.attempts && Passes(policy, send(n)) && UnitDraws(draw)
    requires blocking ==> !NegativeHint(send(n))
    ensures var run, rest := Attempt(policy, send, draw, n, blocking), Attempt(policy, send, draw, n + 1, blocking);
            && run.sends == rest.sends + 1 && run.result == rest.result
            && run.sleptMs - rest.sleptMs
               == if Asks(send(n), policy.capMs).Some? then Asks(send(n), policy.capMs).value
                  else DelayMs(policy, n, draw(n))
  {
    DelayBounds(policy, n, send(n), draw(n));
    DelayIsAsked(policy, n, send(n), draw(n));
    AttemptGoesOn(policy, send, draw, n, blocking);
  }

  /** Over a whole run, with whatever comes after: at least what the first answer asked for. */
  lemma WaitsAsAsked(policy: Policy, send: int -> Outcome, draw: int -> real, n: int, blocking: bool)
    requires n < policy.attempts && Passes(policy, send(n)) && UnitDraws(draw)
    requires send(n).Response? && send(n).retryAfter.Seconds? && send(n).retryAfter.value >= 0.0
    ensures var asked, slept := 1000.0 * send(n).retryAfter.value, Attempt(policy, send, draw, n, blocking).sleptMs;
            && (asked <= policy.capMs as real ==> slept >= asked)
            && (asked > policy.capMs as real ==> slept >= policy.capMs as real)
  {
    RequestHonoured(policy, send, draw, n, blocking);
    SleepBounded(policy, send, draw, n + 1, blocking);
  }

  /**
   What is sent again. Under any policy, an answer of 429 or 503 and a connection that was
   never made; an unsafe write, nothing else. A verdict is never asked for twice.
   */
  lemma SentAgain(policy: Policy, o: Outcome)
    ensures Retryable(UNSAFE_WRITE, o) <==>
              || (o.Response? && (o.status == 429 || o.status == 503))
              || o == Raised(ConnectError) || o == Raised(ConnectTimeout) || o == Raised(PoolTimeout)
    ensures Retryable(UNSAFE_WRITE, o) ==> Retryable(policy, o)
    ensures o.Response? && (o.status < 408 || o.status == 409) ==> !Retryable(policy, o)
    ensures o == Raised(OtherHttpError) || o == Raised(OtherError) ==> !Retryable(policy, o)
    ensures o.Response? && o.status in {408, 425, 500, 502, 504, 529} ==>
              (Retryable(policy, o) <==> policy.retryWhenAmbiguous)
    ensures o.Raised? && o.fault in {ReadTimeout, WriteTimeout, ReadError, WriteError, CloseError, ProtocolError} ==>
              (Retryable(policy, o) <==> policy.retryWhenAmbiguous)
  {
  }

  // -- The whole loop ---------------------------------------------------

  function Caps(n: int, cap: nat): real { if n <= 0 then 0.0 else cap as real + Caps(n - 1, cap) }

  lemma {:induction false} CapsIsProduct(n: nat, cap: nat)
    ensures Caps(n, cap) == (n * cap) as real
  {
    if n > 0 {
      CapsIsProduct(n - 1, cap);
      assert n * cap == (n - 1) * cap + cap;
    }
  }

  /** The loop goes on past such an outcome, if an attempt is left. */
  predicate Passes(policy: Policy, o: Outcome) {
    Retryable(policy, o) && !BadHint(o)
  }

  /**
   With at least one attempt the assertion is unreachable; there is one send more than
   the leading outcomes the loop goes on past, capped at the attempts. The outcome is
   that of the last send, unless a retry was due and its header could not be used: then
   that raises. The sleeping is bounded by the cap once per retry.
   */
  lemma {:induction false} RetryOutcome(policy: Policy, send: int -> Outcome, draw: int -> real, n: int, passed: nat)
    requires 1 <= n <= policy.attempts && UnitDraws(draw)
    requires forall k | n <= k < n + passed :: Passes(policy, send(k))
    requires n + passed >= policy.attempts || !Passes(policy, send(n + passed))
    ensures var run := Attempt(policy, send, draw, n, false);
            var last := n + run.sends - 1;
            && run.sends == Min(policy.attempts - n + 1, passed + 1)
            && run.result == (if last < policy.attempts && Retryable(policy, send(last)) then HintRaised
                              else Settled(send(last)))
            && (run.result.HintRaised? ==> BadHint(send(last)))
            && 0.0 <= run.sleptMs <= Caps(run.sends - 1, policy.capMs)
    decreases policy.attempts - n
  {
    DelayBounds(policy, n, send(n), draw(n));
    if n < policy.attempts && passed > 0 {
      RetryOutcome(policy, send, draw, n + 1, passed - 1);
    }
  }

  /** In milliseconds: never more sleep than the cap for each retry the policy allows. */
  lemma TotalSleepBounded(policy: Policy, send: int -> Outcome, draw: int -> real, blocking: bool)
    requires policy.attempts >= 1 && UnitDraws(draw)
    ensures 0.0 <= Attempt(policy, send, draw, 1, blocking).sleptMs <= ((policy.attempts - 1) * policy.capMs) as real
  {
    SleepBounded(policy, send, draw, 1, blocking);
    CapsIsProduct(policy.attempts - 1, policy.capMs);
  }

  lemma {:induction false} SleepBounded(policy: Policy, send: int -> Outcome, draw: int -> real, n: int, blocking: bool)
    requires n <= policy.attempts && UnitDraws(draw)
    ensures 0.0 <= Attempt(policy, send, draw, n, blocking).sleptMs <= Caps(policy.attempts - n, policy.capMs)
    decreases policy.attempts - n
  {
    CapsNonNegative(policy.attempts - n, policy.capMs);
    if n < policy.attempts {
      SleepBounded(policy, send, draw, n + 1, blocking);
      DelayBounds(policy, n, send(n), draw(n));
    }
  }

  lemma {:induction false} CapsNonNegative(n: int, cap: nat)
    ensures Caps(n, cap) >= 0.0
  {
    if n > 0 {
      CapsNonNegative(n - 1, cap);
    }
  }

  /** No attempts at all is the only way to reach the assertion. */
  lemma UnreachableIffNoAttempts(policy: Policy, send: int -> Outcome, draw: int -> real)
    ensures Attempt(policy, send, draw, 1, false).result == Unreachable <==> policy.attempts < 1
  {
    if policy.attempts >= 1 {
      ReachesResult(policy, send, draw, 1);
    }
  }

  lemma {:induction false} ReachesResult(policy: Policy, send: int -> Outcome, draw: int -> real, n: int)
    requires n <= policy.attempts
    ensures Attempt(policy, send, draw, n, false).result != Unreachable
    decreases policy.attempts - n
  {
    if n < policy.attempts {
      ReachesResult(policy, send, draw, n + 1);
    }
  }

  predicate NegativeHint(o: Outcome) {
    o.Response? && o.retryAfter.Seconds? && o.retryAfter.value < 0.0
  }

  /** Attempt `k` is followed by a sleep: the loop goes on past it and every one before it, and one is left. */
  ghost predicate SleptOn(policy: Policy, send: int -> Outcome, n: int, k: int) {
    n <= k < policy.attempts && forall j | n <= j <= k :: Passes(policy, send(j))
  }

  /**
   The twins agree exactly when no outcome that is slept on asks for a negative delay:
   none in the leading run of outcomes gone past that leaves an attempt over. A header
   that cannot be used makes no difference: it raises out of both before they sleep.
   */
  lemma {:induction false} TwinsAgree(policy: Policy, send: int -> Outcome, draw: int -> real, n: int)
    requires UnitDraws(draw) && n <= policy.attempts
    ensures Attempt(policy, send, draw, n, true) == Attempt(policy, send, draw, n, false) <==>
            forall k | SleptOn(policy, send, n, k) :: !NegativeHint(send(k))
    decreases policy.attempts - n
  {
    DelayBounds(policy, n, send(n), draw(n));
    if n < policy.attempts && Passes(policy, send(n)) {
      TwinsAgree(policy, send, draw, n + 1);
      SleptOnNext(policy, send, n);
      if NegativeHint(send(n)) {
        NeverSleepRefused(policy, send, draw, n);
      }
    }
  }

  lemma SleptOnNext(policy: Policy, send: int -> Outcome, n: int)
    requires n < policy.attempts && Passes(policy, send(n))
    ensures SleptOn(policy, send, n, n)
    ensures forall k | k > n :: SleptOn(policy, send, n, k) == SleptOn(policy, send, n + 1, k)
  {
  }

  /** They part on a first answer of 503 that asks for minus one second: one tries again, the other raises. */
  lemma TwinsPart(draw: int -> real)
    ensures var send := (k: int) => if k == 1 then Response(503, Seconds(-1.0)) else Response(200, NoHint);
            && Attempt(IN_CALL, send, draw, 1, false).result == Returned(Response(200, NoHint))
            && Attempt(IN_CALL, send, draw, 1, true).result == SleepRefused
  {
    var send := (k: int) => if k == 1 then Response(503, Seconds(-1.0)) else Response(200, NoHint);
    assert Attempt(IN_CALL, send, draw, 2, false).result == Returned(send(2));
  }

  /** Not-a-number on a first 503: both raise while the delay is rounded for the log. */
  lemma NotFiniteRaisesInBoth(policy: Policy, draw: int -> real, blocking: bool)
    requires policy.attempts >= 2
    ensures Attempt(policy, _ => Response(503, NotFinite), draw, 1, blocking) == Run(HintRaised, 1, 0.0)
    ensures Attempt(policy, _ => Response(429, DateOverflows), draw, 1, blocking) == Run(HintRaised, 1, 0.0)
  {
    assert 503 in RETRYABLE_STATUS && 429 in RETRYABLE_STATUS && 503 in PRE_DELIVERY_STATUS && 429 in PRE_DELIVERY_STATUS;
  }

  /** The shipped profiles: a live call never waits longer than the tightest tool budget. */
  lemma ShippedSleeps(send: int -> Outcome, draw: int -> real, blocking: bool)
    requires UnitDraws(draw)
    ensures Attempt(IN_CALL, send, draw, 1, blocking).sleptMs <= 100.0
    ensures Attempt(BACKGROUND, send, draw, 1, blocking).sleptMs <= 8000.0
    ensures Attempt(UNSAFE_WRITE, send, draw, 1, blocking).sleptMs <= 1000.0
  {
    TotalSleepBounded(IN_CALL, send, draw, blocking);
    TotalSleepBounded(BACKGROUND, send, draw, blocking);
    TotalSleepBounded(UNSAFE_WRITE, send, draw, blocking);
  }

  lemma {:induction false} SendsAtLeastOnce(policy: Policy, send: int -> Outcome, draw: int -> real, n: int)
    requires n <= policy.attempts
    ensures Attempt(policy, send, draw, n, false).sends >= 1
  {
  }

  lemma {:induction false} NeverSleepRefused(policy: Policy, send: int -> Outcome, draw: int -> real, n: int)
    ensures Attempt(policy, send, draw, n, false).result != SleepRefused
    decreases policy.attempts - n
  {
    if n < policy.attempts {
      NeverSleepRefused(policy, send, draw, n + 1);
    }
  }

  /** The non-idempotent profile sends again only on proof the request never took effect. */
  lemma {:induction false} UnsafeRetriesArePreDelivery(send: int -> Outcome, draw: int -> real, n: int, k: int)
    requires n <= k < n + Attempt(UNSAFE_WRITE, send, draw, n, false).sends - 1
    ensures PreDelivery(send(k))
    decreases UNSAFE_WRITE.attempts - n
  {
    if k > n {
      UnsafeRetriesArePreDelivery(send, draw, n + 1, k);
    }
  }
}
