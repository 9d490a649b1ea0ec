/**
 The two ceilings of a call, over exact reals: wall-clock seconds and estimated cost.
 `WatchBudget` is the loop that enforces them.
 */
module Budget {
  import opened Common

  const REALTIME_USD_PER_MINUTE := 0.36
  const TWILIO_USD_PER_MINUTE := 0.0085
  const ANALYSIS_USD_FIXED := 0.02
  const BUDGET_TICK_SECONDS := 2.0

  datatype Phase = Normal | WrapUp | Expired

  datatype Config = Config(maxCallSeconds: int, maxCallCostUsd: real, wrapUpAtPct: int)
  {
    predicate Valid() {
      0 < maxCallSeconds <= 3600 && maxCallCostUsd > 0.0 && 1 <= wrapUpAtPct <= 100
    }
  }

  function EstimateCostUsd(elapsed: real): real {
    elapsed / 60.0 * (REALTIME_USD_PER_MINUTE + TWILIO_USD_PER_MINUTE) + ANALYSIS_USD_FIXED
  }

  function SecondsPct(cfg: Config, elapsed: real): real
    requires cfg.Valid()
  {
    100.0 * elapsed / cfg.maxCallSeconds as real
  }

  function CostPct(cfg: Config, elapsed: real): real
    requires cfg.Valid()
  {
    100.0 * EstimateCostUsd(elapsed) / cfg.maxCallCostUsd
  }

  function PhaseAt(cfg: Config, elapsed: real): Phase
    requires cfg.Valid()
  {
    var worst := MaxReal(SecondsPct(cfg, elapsed), CostPct(cfg, elapsed));
    if worst >= 100.0 then Expired else if worst >= cfg.wrapUpAtPct as real then WrapUp else Normal
  }

  /** The elapsed seconds at which the worse ceiling reaches `pct` percent. */
  function Threshold(cfg: Config, pct: real): real {
    MinReal(pct * cfg.maxCallSeconds as real / 100.0,
            60.0 * (pct * cfg.maxCallCostUsd / 100.0 - ANALYSIS_USD_FIXED) / (REALTIME_USD_PER_MINUTE + TWILIO_USD_PER_MINUTE))
  }

  lemma QuotientAtLeast(x: real, m: real, c: real)
    requires m > 0.0
    ensures x / m >= c <==> x >= c * m
  {
    var q := x / m;
    assert q * m == x;
    if q >= c {
      assert (q - c) * m >= 0.0;
    } else {
      assert (c - q) * m > 0.0;
    }
  }

  /** The worse of the two percentages reaches `pct` exactly at the threshold. */
  lemma WorstReaches(cfg: Config, elapsed: real, pct: real)
    requires cfg.Valid()
    ensures MaxReal(SecondsPct(cfg, elapsed), CostPct(cfg, elapsed)) >= pct <==> elapsed >= Threshold(cfg, pct)
  {
    QuotientAtLeast(100.0 * elapsed, cfg.maxCallSeconds as real, pct);
    QuotientAtLeast(100.0 * EstimateCostUsd(elapsed), cfg.maxCallCostUsd, pct);
  }

  /** Expired at the full thresholds, wrapping up from the configured share of them, and normal before. */
  lemma PhaseByThreshold(cfg: Config, elapsed: real)
    requires cfg.Valid()
    ensures PhaseAt(cfg, elapsed) == Expired <==>
              elapsed >= MinReal(cfg.maxCallSeconds as real,
                                 60.0 * (cfg.maxCallCostUsd - ANALYSIS_USD_FIXED)
                                 / (REALTIME_USD_PER_MINUTE + TWILIO_USD_PER_MINUTE))
    ensures PhaseAt(cfg, elapsed) == WrapUp <==>
              Threshold(cfg, cfg.wrapUpAtPct as real) <= elapsed < Threshold(cfg, 100.0)
  {
    WorstReaches(cfg, elapsed, 100.0);
    WorstReaches(cfg, elapsed, cfg.wrapUpAtPct as real);
    assert 100.0 * cfg.maxCallCostUsd / 100.0 == cfg.maxCallCostUsd;
    assert 100.0 * cfg.maxCallSeconds as real / 100.0 == cfg.maxCallSeconds as real;
  }

  function Order(p: Phase): nat { match p case Normal => 0 case WrapUp => 1 case Expired => 2 }

  /** Along non-decreasing time the phases only advance. */
  lemma PhasesAdvance(cfg: Config, earlier: real, later: real)
    requires cfg.Valid() && earlier <= later
    ensures Order(PhaseAt(cfg, earlier)) <= Order(PhaseAt(cfg, later))
  {
    WorstReaches(cfg, earlier, 100.0);
    WorstReaches(cfg, later, 100.0);
    WorstReaches(cfg, earlier, cfg.wrapUpAtPct as real);
    WorstReaches(cfg, later, cfg.wrapUpAtPct as real);
  }

  class BudgetGuard {
    const budget: Config
    var wrappedUp: bool

    constructor (budget: Config)
      ensures this.budget == budget && !wrappedUp
    {
      this.budget := budget;
      wrappedUp := false;
    }

    method MarkWrapUpSent()
      modifies this
      ensures wrappedUp
    {
      wrappedUp := true;
    }

    method Check(elapsed: real) returns (phase: Phase)
      requires budget.Valid()
      ensures phase == PhaseAt(budget, elapsed)
    {
      var worst := MaxReal(SecondsPct(budget, elapsed), CostPct(budget, elapsed));
      if worst >= 100.0 {
        phase := Expired;
      } else if worst >= budget.wrapUpAtPct as real {
        phase := WrapUp;
      } else {
        phase := Normal;
      }
    }

    method NeedsWrapUpNow(elapsed: real) returns (needs: bool)
      requires budget.Valid()
      ensures needs <==> PhaseAt(budget, elapsed) == WrapUp && !wrappedUp
    {
      var phase := Check(elapsed);
      needs := phase == WrapUp && !wrappedUp;
    }
  }

  /** No later tick than this can find the call unexpired. */
  function LastTick(cfg: Config): int {
    Max(1, Ceil(Threshold(cfg, 100.0) / BUDGET_TICK_SECONDS))
  }

  /** And that is the fewest ticks that will do: at one less, two seconds each, the ceilings may still be ahead. */
  lemma LastTickIsLeast(cfg: Config)
    requires cfg.Valid()
    ensures LastTick(cfg) >= 1
    ensures LastTick(cfg) > 1 ==> PhaseAt(cfg, 2.0 * (LastTick(cfg) - 1) as real) != Expired
  {
    WorstReaches(cfg, 2.0 * (LastTick(cfg) - 1) as real, 100.0);
  }

  /** What a minute costs, and what a call costs that never got going. */
  lemma CostOfAMinute()
    ensures EstimateCostUsd(0.0) == 0.02 && EstimateCostUsd(60.0) == 0.3885
  {
  }

  /** A tick sleeps at least its two seconds, and the second reading is no earlier than the first. */
  ghost predicate Clock(first: int -> real, second: int -> real) {
    forall k: int | k >= 1 :: BUDGET_TICK_SECONDS * k as real <= first(k) <= second(k)
  }

  /** Tick `k` is where the wrap-up instruction is first due: checked after the expiry check passed. */
  predicate WrapUpDue(cfg: Config, first: int -> real, second: int -> real, k: int)
    requires cfg.Valid()
  {
    PhaseAt(cfg, first(k)) != Expired && PhaseAt(cfg, second(k)) == WrapUp
  }

  lemma ExpiredByLastTick(cfg: Config, first: int -> real, second: int -> real, k: int)
    requires cfg.Valid() && Clock(first, second) && k >= LastTick(cfg)
    ensures PhaseAt(cfg, first(k)) == Expired
  {
    WorstReaches(cfg, first(k), 100.0);
    var t := Threshold(cfg, 100.0);
    assert k as real >= Ceil(t / 2.0) as real;
    assert t / 2.0 <= k as real;
    assert first(k) >= 2.0 * k as real;
  }

  /** Tick `k` is the first at which the wrap-up instruction is due. */
  predicate FirstDue(cfg: Config, first: int -> real, second: int -> real, k: int)
    requires cfg.Valid()
  {
    k >= 1 && WrapUpDue(cfg, first, second, k) && forall j | 1 <= j < k :: !WrapUpDue(cfg, first, second, j)
  }

  /** How the loop ended. */
  datatype End = Stopped | TimeUp | SendRaised

  /**
   `stopped(k)` is whether something else has ended the call by the start of tick `k`;
   `sends(k)` is whether sending the instruction would succeed then, and a send that
   raises ends the loop. The loop ends at the first tick that finds the call stopped or
   expired, or at that send, within a number of ticks fixed by the ceilings. The
   instruction is tried once, at the first tick it is due, and never at or after the tick
   that finds the call expired. It is marked as sent exactly when it was tried, so the
   mark stands for an instruction that never went out exactly when that one send raised.
   */
  method WatchBudget(
      guard: BudgetGuard, first: int -> real, second: int -> real, stopped: int -> bool, sends: int -> bool)
    returns (ticks: int, end: End, delivered: seq<int>)
    requires guard.budget.Valid() && !guard.wrappedUp && Clock(first, second)
    modifies guard
    ensures 0 <= ticks <= LastTick(guard.budget)
    ensures forall k | 1 <= k <= ticks :: !stopped(k)
    ensures forall k | 1 <= k < ticks :: PhaseAt(guard.budget, first(k)) != Expired
    ensures end == TimeUp <==> ticks >= 1 && PhaseAt(guard.budget, first(ticks)) == Expired
    ensures end == Stopped ==> stopped(ticks + 1)
    ensures end == SendRaised <==> ticks >= 1 && FirstDue(guard.budget, first, second, ticks) && !sends(ticks)
    ensures |delivered| <= 1
    ensures delivered != [] ==>
              && FirstDue(guard.budget, first, second, delivered[0]) && sends(delivered[0])
              && delivered[0] <= ticks && !(end == TimeUp && delivered[0] == ticks)
    ensures delivered == [] && end != SendRaised ==>
              forall k | 1 <= k <= ticks && !(end == TimeUp && k == ticks) :: !WrapUpDue(guard.budget, first, second, k)
    ensures guard.wrappedUp <==> delivered != [] || end == SendRaised
    ensures guard.wrappedUp && delivered == [] <==> end == SendRaised
  {
    ticks, end, delivered := 0, Stopped, [];
    while !stopped(ticks + 1)
      invariant 0 <= ticks < LastTick(guard.budget) && end == Stopped
      invariant forall k | 1 <= k <= ticks :: !stopped(k) && PhaseAt(guard.budget, first(k)) != Expired
      invariant guard.wrappedUp <==> delivered != []
      invariant delivered == [] ==> forall k | 1 <= k <= ticks :: !WrapUpDue(guard.budget, first, second, k)
      invariant delivered != [] ==>
                  && |delivered| == 1 && delivered[0] <= ticks
                  && FirstDue(guard.budget, first, second, delivered[0]) && sends(delivered[0])
      decreases LastTick(guard.budget) - ticks
    {
      ticks := ticks + 1;
      var phase := guard.Check(first(ticks));
      if phase == Expired {
        end := TimeUp;
        return;
      }
      if ticks >= LastTick(guard.budget) {
        ExpiredByLastTick(guard.budget, first, second, ticks);
        assert false;
      }
      var needs := guard.NeedsWrapUpNow(second(ticks));
      if needs {
        guard.MarkWrapUpSent();
        if !sends(ticks) {
          end := SendRaised;
          return;
        }
        delivered := delivered + [ticks];
      }
    }
  }

  const HUNDRED_SECONDS := Config(100, 100.0, 80)

  lemma DueAtFortiethTick(clock: int -> real)
    requires clock(40) == 80.0
    ensures HUNDRED_SECONDS.Valid() && WrapUpDue(HUNDRED_SECONDS, clock, clock, 40)
  {
    PhaseByThreshold(HUNDRED_SECONDS, 80.0);
  }

  /** A socket that is gone when the instruction is due leaves it marked as sent though nothing was delivered. */
  method MarkedButNotDelivered() returns (guard: BudgetGuard, delivered: seq<int>)
    ensures fresh(guard) && guard.wrappedUp && delivered == []
  {
    guard := new BudgetGuard(HUNDRED_SECONDS);
    var clock := (k: int) => 2.0 * k as real;
    var ticks, end;
    DueAtFortiethTick(clock);
    ticks, end, delivered := WatchBudget(guard, clock, clock, _ => false, _ => false);
    if end == TimeUp {
      PhaseByThreshold(HUNDRED_SECONDS, clock(ticks));
    }
  }
}
