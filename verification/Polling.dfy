/** How long to wait between two status checks of a batch. */
module Polling {
  import opened NorushTypes
  import opened Arithmetic

  datatype Preset = Linear | Backoff | DeadlineAware | Eager

  datatype PollContext = PollContext(submittedAt: int, lastPolledAt: Option<int>, pollCount: nat, expiresAt: int)

  const MIN_INTERVAL_MS := 10_000.0
  const MAX_INTERVAL_MS := 900_000.0

  function BackoffInterval(pollCount: nat): real { RealMin(30_000.0 * Pow2(pollCount) as real, 600_000.0) }

  /** The share of the completion window that is left, between 0 and 1. */
  function FractionRemaining(context: PollContext, now: int): real
    requires context.expiresAt > context.submittedAt
  {
    RealMax(0.0, RealMin(1.0, (context.expiresAt - now) as real / (context.expiresAt - context.submittedAt) as real))
  }

  function DeadlineInterval(context: PollContext, now: int): real {
    if context.expiresAt <= context.submittedAt then 15_000.0
    else 15_000.0 + FractionRemaining(context, now) * (300_000.0 - 15_000.0)
  }

  function NextInterval(preset: Preset, context: PollContext, now: int): real {
    match preset
    case Linear => 60_000.0
    case Backoff => BackoffInterval(context.pollCount)
    case DeadlineAware => DeadlineInterval(context, now)
    case Eager => if now - context.submittedAt < 300_000 then 15_000.0 else BackoffInterval(context.pollCount)
  }

  function ClampInterval(interval: real): real { RealMax(MIN_INTERVAL_MS, RealMin(MAX_INTERVAL_MS, interval)) }

  function ClampedInterval(preset: Preset, context: PollContext, now: int): real {
    ClampInterval(NextInterval(preset, context, now))
  }

  /** Each preset's range. */
  lemma PresetRange(preset: Preset, context: PollContext, now: int)
    ensures 15_000.0 <= NextInterval(preset, context, now) <= 600_000.0
  {
  }

  /** Clamping changes none of the four presets, whatever the context and the time. */
  lemma ClampingIsIdentity(preset: Preset, context: PollContext, now: int)
    ensures ClampedInterval(preset, context, now) == NextInterval(preset, context, now)
  {
  }

  /** Any strategy, clamped, waits at least ten seconds and at most a quarter of an hour. */
  lemma ClampedRange(interval: real)
    ensures 10_000.0 <= ClampInterval(interval) <= 900_000.0
    ensures ClampInterval(interval) == interval <==> 10_000.0 <= interval <= 900_000.0
  {
  }

  /** The backoff starts at 30 seconds and doubles until it reaches its cap, at the sixth wait. */
  lemma {:induction false} BackoffDoubles(pollCount: nat)
    ensures BackoffInterval(pollCount + 1) == RealMin(2.0 * BackoffInterval(pollCount), 600_000.0)
    ensures BackoffInterval(pollCount) == 600_000.0 <==> pollCount >= 5
    ensures BackoffInterval(0) == 30_000.0
  {
    assert Pow2(5) == 2 * Pow2(4) && Pow2(4) == 2 * Pow2(3) && Pow2(3) == 8;
    if pollCount > 0 {
      BackoffDoubles(pollCount - 1);
    }
  }

  /** As the deadline comes closer, the deadline-aware interval never grows. */
  lemma DeadlineAccelerates(context: PollContext, now: int, later: int)
    requires now <= later
    ensures DeadlineInterval(context, later) <= DeadlineInterval(context, now)
  {
    var window := context.expiresAt - context.submittedAt;
    if window > 0 {
      FractionMonotone(context.expiresAt - later, context.expiresAt - now, window);
    }
  }

  /** It runs from five minutes at submission down to fifteen seconds at the deadline, and stays there. */
  lemma DeadlineEnds(context: PollContext, now: int)
    requires context.submittedAt < context.expiresAt
    ensures now <= context.submittedAt ==> DeadlineInterval(context, now) == 300_000.0
    ensures now >= context.expiresAt ==> DeadlineInterval(context, now) == 15_000.0
  {
    var window := context.expiresAt - context.submittedAt;
    if now <= context.submittedAt {
      FractionMonotone(window, context.expiresAt - now, window);
    } else if now >= context.expiresAt {
      FractionMonotone(context.expiresAt - now, 0, window);
    }
  }

  /** In between it falls on a straight line. */
  lemma DeadlineStraight(context: PollContext, now: int)
    requires context.submittedAt <= now <= context.expiresAt && context.submittedAt < context.expiresAt
    ensures (DeadlineInterval(context, now) - 15_000.0) * (context.expiresAt - context.submittedAt) as real ==
              285_000.0 * (context.expiresAt - now) as real
  {
    var left, window := (context.expiresAt - now) as real, (context.expiresAt - context.submittedAt) as real;
    FractionMonotone(0, context.expiresAt - now, context.expiresAt - context.submittedAt);
    FractionMonotone(context.expiresAt - now, context.expiresAt - context.submittedAt,
                     context.expiresAt - context.submittedAt);
    assert FractionRemaining(context, now) == left / window;
    assert (left / window) * window == left;
  }

  /** Linear waits a minute; eager waits 15 seconds for five minutes, and then as the backoff does. */
  lemma PresetRules(context: PollContext, now: int)
    ensures NextInterval(Linear, context, now) == 60_000.0
    ensures NextInterval(Backoff, context, now) == BackoffInterval(context.pollCount)
    ensures NextInterval(DeadlineAware, context, now) == DeadlineInterval(context, now)
    ensures NextInterval(Eager, context, now) ==
              if now < context.submittedAt + 300_000 then 15_000.0 else NextInterval(Backoff, context, now)
  {
  }

  lemma FractionMonotone(a: int, b: int, window: int)
    requires a <= b && window > 0
    ensures a as real / window as real <= b as real / window as real
  {
  }
}
