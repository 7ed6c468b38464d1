/** Admission by quota: the check, and the check / reset / consume protocol of concurrent handlers. */
module RateLimits {
  import opened NorushTypes
  import opened Arithmetic

  const DEFAULT_PERIOD_MS := 3_600_000

  // -- Health ------------------------------------------------------------------------------

  datatype SlidingWindow = SlidingWindow(succeeded: nat, total: nat)

  datatype Health = Healthy | PartialFailures | MostlyFailing | Critical

  /** Thresholds on succeeded / total, cleared of the division. */
  function ComputeHealth(window: SlidingWindow): Health {
    if window.total == 0 then Healthy
    else if 10 * window.succeeded >= 9 * window.total then Healthy
    else if 2 * window.succeeded >= window.total then PartialFailures
    else if window.succeeded > 0 then MostlyFailing
    else Critical
  }

  /** One over the health factor: 1, 1/2, 1/4 or 1/10. */
  function Divisor(health: Health): nat {
    match health
    case Healthy => 1
    case PartialFailures => 2
    case MostlyFailing => 4
    case Critical => 10
  }

  function ComputeEffectiveLimit(baseLimit: int, health: Health): int {
    Max(baseLimit / Divisor(health), 1)
  }

  /** The tiers are those of the success rate, read as a quotient; an empty window is healthy. */
  lemma TiersOfRate(window: SlidingWindow)
    ensures window.total == 0 ==> ComputeHealth(window).Healthy?
    ensures window.total > 0 ==>
      var rate := window.succeeded as real / window.total as real;
      match ComputeHealth(window)
      case Healthy => rate >= 0.9
      case PartialFailures => 0.5 <= rate < 0.9
      case MostlyFailing => 0.0 < rate < 0.5
      case Critical => rate == 0.0
  {
    if window.total > 0 {
      Quotient(window.succeeded as real, window.total as real, 0.9);
      Quotient(window.succeeded as real, window.total as real, 0.5);
      Quotient(window.succeeded as real, window.total as real, 0.0);
    }
  }

  lemma Quotient(a: real, b: real, bound: real)
    requires b > 0.0
    ensures a / b >= bound <==> a >= bound * b
    ensures a / b > bound <==> a > bound * b
  {
    assert (a / b) * b == a;
    assert (a / b - bound) * b == a - bound * b;
  }

  /** Dividing by the divisor is flooring the product with the factor. */
  lemma LimitIsFloor(baseLimit: int, health: Health)
    ensures var factor := match health
        case Healthy => 1.0
        case PartialFailures => 0.5
        case MostlyFailing => 0.25
        case Critical => 0.1;
      ComputeEffectiveLimit(baseLimit, health) == Max((baseLimit as real * factor).Floor, 1)
  {
    match health
    case Healthy => case PartialFailures => case MostlyFailing => case Critical =>
  }

  /** Throttling never grants more than the base limit (or one), and never less than one. */
  lemma EffectiveLimitRange(baseLimit: int, health: Health)
    ensures 1 <= ComputeEffectiveLimit(baseLimit, health) <= Max(baseLimit, 1)
    ensures health.Healthy? ==> ComputeEffectiveLimit(baseLimit, health) == Max(baseLimit, 1)
  {
  }

  /** More successes in a window of the same size never lower the limit. */
  lemma HealthMonotone(baseLimit: int, a: SlidingWindow, b: SlidingWindow)
    requires a.total == b.total && a.succeeded <= b.succeeded
    ensures ComputeEffectiveLimit(baseLimit, ComputeHealth(a)) <= ComputeEffectiveLimit(baseLimit, ComputeHealth(b))
  {
  }

  // -- The check ---------------------------------------------------------------------------

  datatype UserLimits = UserLimits(
    maxRequestsPerHour: Option<int>, maxTokensPerPeriod: Option<int>, hardSpendLimitUsd: Option<real>,
    currentPeriodRequests: int, currentPeriodTokens: int, currentSpendUsd: real, periodResetAt: int)

  datatype Verdict =
    | Allowed(effectiveLimit: Option<int>, periodExpired: bool)
    | SpendExceeded
    | RequestsExceeded(limit: int, retryAfterSeconds: int, periodExpired: bool)
    | TokensExceeded(tokenLimit: int, retryAfterSeconds: int, periodExpired: bool)

  /** Math.ceil(ms / 1000), at least 1; 0 milliseconds if the period is over. */
  function RetryAfter(limits: UserLimits, now: int): int {
    if now >= limits.periodResetAt then 1 else Max((limits.periodResetAt - now + 999) / 1000, 1)
  }

  function CheckRateLimit(limits: Option<UserLimits>, window: SlidingWindow, count: int, now: int): Verdict {
    if limits.None? then Allowed(None, false)
    else
      var l := limits.value;
      var expired := now >= l.periodResetAt;
      var requests, tokens := if expired then 0 else l.currentPeriodRequests, if expired then 0 else l.currentPeriodTokens;
      if l.hardSpendLimitUsd.Some? && l.currentSpendUsd >= l.hardSpendLimitUsd.value then SpendExceeded
      else if l.maxRequestsPerHour.Some?
        && requests + count > ComputeEffectiveLimit(l.maxRequestsPerHour.value, ComputeHealth(window))
      then
        RequestsExceeded(
          ComputeEffectiveLimit(l.maxRequestsPerHour.value, ComputeHealth(window)), RetryAfter(l, now), expired)
      else if l.maxTokensPerPeriod.Some? && tokens >= l.maxTokensPerPeriod.value
      then TokensExceeded(l.maxTokensPerPeriod.value, RetryAfter(l, now), expired)
      else
        Allowed(
          if l.maxRequestsPerHour.None? then None
          else Some(ComputeEffectiveLimit(l.maxRequestsPerHour.value, ComputeHealth(window))), expired)
  }

  /**
   A submission passes exactly if none of the limits set is reached: money spent is below the hard
   limit, the requests of the running period and these stay within the effective limit, and the
   tokens of the running period are below theirs. A period that is over counts for nothing, except
   that money stays spent. Of several limits reached, money is reported first and tokens last.
   */
  lemma AllowedIff(l: UserLimits, window: SlidingWindow, count: int, now: int)
    ensures var v := CheckRateLimit(Some(l), window, count, now);
      var spent := l.hardSpendLimitUsd.Some? && l.currentSpendUsd >= l.hardSpendLimitUsd.value;
      var full := l.maxRequestsPerHour.Some?
        && (if now < l.periodResetAt then l.currentPeriodRequests else 0) + count
             > ComputeEffectiveLimit(l.maxRequestsPerHour.value, ComputeHealth(window));
      var metered := l.maxTokensPerPeriod.Some?
        && (if now < l.periodResetAt then l.currentPeriodTokens else 0) >= l.maxTokensPerPeriod.value;
      && (v.Allowed? <==> !spent && !full && !metered)
      && (v.SpendExceeded? <==> spent)
      && (v.RequestsExceeded? <==> full && !spent)
      && (v.Allowed? ==> v.periodExpired == (now >= l.periodResetAt))
    ensures CheckRateLimit(None, window, count, now).Allowed?
  {
  }

  /**
   Waiting out Retry-After is enough, and no more than a second too long: at the end of it the
   period is over, so the same submission passes exactly if it is within the limit on its own.
   */
  lemma RetryAfterSuffices(limits: UserLimits, window: SlidingWindow, count: int, now: int)
    requires CheckRateLimit(Some(limits), window, count, now).RequestsExceeded?
    requires limits.maxTokensPerPeriod.None? || limits.maxTokensPerPeriod.value > 0
    ensures var v := CheckRateLimit(Some(limits), window, count, now);
      && now < limits.periodResetAt ==> 0 <= now + 1000 * v.retryAfterSeconds - limits.periodResetAt < 1000
    ensures var v := CheckRateLimit(Some(limits), window, count, now);
      CheckRateLimit(Some(limits), window, count, now + 1000 * v.retryAfterSeconds).Allowed? <==> count <= v.limit
  {
  }

  // -- The stored row --------------------------------------------------------------------

  function Consumed(l: UserLimits, count: int): UserLimits {
    l.(currentPeriodRequests := l.currentPeriodRequests + count)
  }

  function ResetAt(l: UserLimits, now: int, nextResetAt: int): UserLimits {
    if now < l.periodResetAt then l
    else l.(currentPeriodRequests := 0, currentPeriodTokens := 0, periodResetAt := nextResetAt)
  }

  function NextPeriodReset(now: int): int { now + DEFAULT_PERIOD_MS }

  datatype ConsumeResult = Threw | Answered(consumed: bool)

  /** One user's limits row. */
  class LimitsStore {
    var limits: Option<UserLimits>

    constructor (limits: Option<UserLimits>)
      ensures this.limits == limits
    {
      this.limits := limits;
    }

    /** Check and increment in one atomic step. */
    method ConsumePeriodRequests(count: int, effectiveLimit: int) returns (r: ConsumeResult)
      modifies this
      ensures r.Threw? <==> count <= 0 || effectiveLimit < 0
      ensures r == Answered(true) <==>
                count > 0 && effectiveLimit >= 0 && old(limits).Some?
                && old(limits).value.currentPeriodRequests + count <= effectiveLimit
      ensures limits == if r == Answered(true) then Some(Consumed(old(limits).value, count)) else old(limits)
    {
      if count <= 0 || effectiveLimit < 0 {
        return Threw;
      }
      if limits.None? {
        return Answered(false);
      }
      if limits.value.currentPeriodRequests + count > effectiveLimit {
        return Answered(false);
      }
      limits := Some(Consumed(limits.value, count));
      return Answered(true);
    }

    method ResetPeriod(now: int, nextResetAt: int)
      modifies this
      ensures limits == if old(limits).None? then None else Some(ResetAt(old(limits).value, now, nextResetAt))
    {
      if limits.None? {
        return;
      }
      if now < limits.value.periodResetAt {
        return;
      }
      limits := Some(limits.value.(currentPeriodRequests := 0, currentPeriodTokens := 0, periodResetAt := nextResetAt));
    }
  }

  /**
   The quota part of POST, run without interference: a submission the check allows is never
   refused by the consume, and what is charged is exactly the submission, to the right period.
   */
  method Admit(store: LimitsStore, window: SlidingWindow, count: int, now: int, resetAt: int) returns (admitted: bool)
    requires 1 <= count <= 100 && now <= resetAt
    modifies store
    ensures admitted <==> CheckRateLimit(old(store.limits), window, count, now).Allowed?
    ensures !admitted ==> store.limits == old(store.limits)
    ensures admitted && old(store.limits).Some? && old(store.limits).value.maxRequestsPerHour.Some? ==>
              && store.limits.Some?
              && var was, l := old(store.limits).value, store.limits.value;
                && l.currentPeriodRequests == count + (if now >= was.periodResetAt then 0 else was.currentPeriodRequests)
                && l.periodResetAt == (if now >= was.periodResetAt then resetAt + 3_600_000 else was.periodResetAt)
                && l.currentPeriodRequests <= Max(was.maxRequestsPerHour.value, 1)
    ensures admitted && (old(store.limits).None? || old(store.limits).value.maxRequestsPerHour.None?) ==>
              store.limits == old(store.limits)
  {
    var userLimits := store.limits;
    var check := CheckRateLimit(userLimits, window, count, now);
    if !check.Allowed? {
      return false;
    }
    if userLimits.Some? && check.effectiveLimit.Some? {
      EffectiveLimitRange(userLimits.value.maxRequestsPerHour.value, ComputeHealth(window));
      if check.periodExpired {
        store.ResetPeriod(resetAt, NextPeriodReset(resetAt));
      }
      var consumed := store.ConsumePeriodRequests(count, check.effectiveLimit.value);
      if consumed != Answered(true) {
        return false;
      }
    }
    return true;
  }

  // -- Handlers interleaved at their awaits ----------------------------------------------------

  /** Where a handler is, with its locals. */
  datatype Handler =
    | Fetched(limits: UserLimits, window: SlidingWindow, count: int)
    | ToReset(seen: int, count: int, effectiveLimit: int)
    | ToConsume(resetFor: Option<int>, count: int, effectiveLimit: int)
    | Finished(resetFor: Option<int>, granted: int)

  /** `olds` lists the period ends that were effectively reset; `granted` counts since the latest. */
  datatype World = World(
    limits: UserLimits, handlers: map<Id, Handler>, clock: int, olds: seq<int>, granted: int)

  datatype Event =
    | Fetch(h: Id, window: SlidingWindow, count: int)
    | Check(h: Id)
    | Reset(h: Id, calledAt: int)               // when `nextPeriodReset()` was read: after the check, before the store acts
    | Consume(h: Id)
    | Meter(tokens: int, usd: real)             // ingestion counts tokens and spend meanwhile
    | Tick(now: int)

  /** A handler's step needs the handler to be there, in the state before that step. */
  predicate Possible(w: World, e: Event) {
    match e
    case Fetch(h, _, count) => h !in w.handlers && 1 <= count <= 100
    case Check(h) => h in w.handlers && w.handlers[h].Fetched?
    case Reset(h, calledAt) => h in w.handlers && w.handlers[h].ToReset? && w.handlers[h].seen <= calledAt <= w.clock
    case Consume(h) => h in w.handlers && w.handlers[h].ToConsume?
    case Meter(_, _) => true
    case Tick(now) => w.clock <= now
  }

  function Checked(w: World, l: UserLimits, window: SlidingWindow, count: int): Handler {
    match CheckRateLimit(Some(l), window, count, w.clock)
    case Allowed(Some(limit), true) => ToReset(l.periodResetAt, count, limit)
    case Allowed(Some(limit), false) => ToConsume(None, count, limit)
    case _ => Finished(None, 0)
  }

  function Move(w: World, h: Id, to: Handler): World { w.(handlers := w.handlers[h := to]) }

  function Next(w: World, e: Event): World
    requires Possible(w, e)
  {
    match e
    case Fetch(h, window, count) => Move(w, h, Fetched(w.limits, window, count))
    case Check(h) => Move(w, h, Checked(w, w.handlers[h].limits, w.handlers[h].window, w.handlers[h].count))
    case Reset(h, calledAt) =>
      var t := w.handlers[h];
      var moved := Move(w, h, ToConsume(Some(t.seen), t.count, t.effectiveLimit));
      if w.clock < w.limits.periodResetAt then moved
      else moved.(limits := ResetAt(w.limits, w.clock, NextPeriodReset(calledAt)),
                  olds := w.olds + [w.limits.periodResetAt], granted := 0)
    case Consume(h) =>
      var t := w.handlers[h];
      if w.limits.currentPeriodRequests + t.count > t.effectiveLimit then Move(w, h, Finished(t.resetFor, 0))
      else Move(w, h, Finished(t.resetFor, t.count)).(limits := Consumed(w.limits, t.count), granted := w.granted + t.count)
    case Meter(tokens, usd) =>
      w.(limits := w.limits.(currentPeriodTokens := w.limits.currentPeriodTokens + tokens,
                             currentSpendUsd := w.limits.currentSpendUsd + usd))
    case Tick(now) => w.(clock := now)
  }

  /** A handler's locals, against the limit: what it will consume against is no more than the base limit. */
  ghost predicate LimitOk(b: int, t: Handler) {
    match t
    case Fetched(l, _, count) => l.maxRequestsPerHour == Some(b) && count >= 1
    case ToReset(_, count, limit) => limit <= Max(b, 1) && count >= 1
    case ToConsume(_, count, limit) => limit <= Max(b, 1) && count >= 1
    case Finished(_, _) => true
  }

  ghost predicate QuotaInv(w: World, b: int) {
    && w.limits.maxRequestsPerHour == Some(b)
    && 0 <= w.granted <= w.limits.currentPeriodRequests && w.granted <= Max(b, 1)
    && forall h | h in w.handlers :: LimitOk(b, w.handlers[h])
  }

  lemma CheckedLimitOk(w: World, b: int, t: Handler)
    requires t.Fetched? && LimitOk(b, t)
    ensures LimitOk(b, Checked(w, t.limits, t.window, t.count))
  {
  }

  lemma QuotaKept(w: World, b: int, e: Event)
    requires QuotaInv(w, b) && Possible(w, e)
    ensures QuotaInv(Next(w, e), b)
  {
    match e
    case Check(h) => CheckedLimitOk(w, b, w.handlers[h]);
    case Reset(h, _) => assert LimitOk(b, w.handlers[h]);
    case Consume(h) => assert LimitOk(b, w.handlers[h]);
    case _ =>
  }

  /** A handler's locals, against the period: what it saw expired is reset by now, or still current. */
  ghost predicate PeriodOk(w: World, t: Handler) {
    match t
    case Fetched(l, _, _) => l.periodResetAt in w.olds || l.periodResetAt == w.limits.periodResetAt
    case ToReset(seen, _, _) => seen <= w.clock && (seen in w.olds || seen == w.limits.periodResetAt)
    case ToConsume(resetFor, _, _) => resetFor.Some? ==> resetFor.value in w.olds
    case Finished(resetFor, _) => resetFor.Some? ==> resetFor.value in w.olds
  }

  ghost predicate PeriodInv(w: World) { forall h | h in w.handlers :: PeriodOk(w, w.handlers[h]) }

  lemma ResetKeeps(w: World, e: Event)
    requires PeriodInv(w) && Possible(w, e) && e.Reset? && w.clock >= w.limits.periodResetAt
    ensures PeriodInv(Next(w, e))
  {
    var n := Next(w, e);
    forall h | h in n.handlers ensures PeriodOk(n, n.handlers[h]) {
      assert h in w.handlers && PeriodOk(w, w.handlers[h]);
      assert forall p :: p in n.olds <==> p in w.olds || p == w.limits.periodResetAt;
    }
  }

  lemma PeriodKept(w: World, e: Event)
    requires PeriodInv(w) && Possible(w, e)
    ensures PeriodInv(Next(w, e))
  {
    match e
    case Check(h) => assert PeriodOk(w, w.handlers[h]);
    case Reset(h, _) =>
      if w.clock >= w.limits.periodResetAt {
        ResetKeeps(w, e);
      } else {
        assert PeriodOk(w, w.handlers[h]);
      }
    case Consume(h) => assert PeriodOk(w, w.handlers[h]);
    case _ =>
  }

  // -- Over whole runs -----------------------------------------------------------------------

  ghost predicate Runs(w: World, es: seq<Event>)
    decreases |es|, 0
  {
    es != [] ==> Runs(w, es[..|es| - 1]) && Possible(Played(w, es[..|es| - 1]), es[|es| - 1])
  }

  ghost function Played(w: World, es: seq<Event>): World
    requires Runs(w, es)
    decreases |es|, 1
  {
    if es == [] then w else Next(Played(w, es[..|es| - 1]), es[|es| - 1])
  }

  /** Nobody is being served yet; the row may be in any state. */
  ghost predicate Idle(w: World, b: int) {
    && w.limits.maxRequestsPerHour == Some(b) && w.limits.currentPeriodRequests >= 0
    && w.handlers == map[] && w.olds == [] && w.granted == 0
  }

  lemma {:induction false} QuotaSafe(w: World, b: int, es: seq<Event>)
    requires Idle(w, b) && Runs(w, es)
    ensures QuotaInv(Played(w, es), b) && PeriodInv(Played(w, es))
  {
    if es != [] {
      QuotaSafe(w, b, es[..|es| - 1]);
      QuotaKept(Played(w, es[..|es| - 1]), b, es[|es| - 1]);
      PeriodKept(Played(w, es[..|es| - 1]), es[|es| - 1]);
    }
  }

  /** Requests granted by the last `k` events of a run. */
  ghost function GrantedBy(w: World, es: seq<Event>, k: nat): int
    requires Runs(w, es) && k <= |es|
  {
    if k == 0 then 0
    else
      var before := Played(w, es[..|es| - 1]);
      var e := es[|es| - 1];
      GrantedBy(w, es[..|es| - 1], k - 1)
      + if e.Consume? && Next(before, e).handlers[e.h].granted > 0 then before.handlers[e.h].count else 0
  }

  /** No reset took effect during the last `k` events. */
  ghost predicate NoReset(w: World, es: seq<Event>, k: nat)
    requires Runs(w, es) && k <= |es|
  {
    k > 0 ==>
      && NoReset(w, es[..|es| - 1], k - 1)
      && Played(w, es).olds == Played(w, es[..|es| - 1]).olds
  }

  lemma {:induction false} GrantsCounted(w: World, b: int, es: seq<Event>, k: nat)
    requires Idle(w, b) && Runs(w, es) && k <= |es| && NoReset(w, es, k)
    ensures 0 <= GrantedBy(w, es, k) <= Played(w, es).granted
  {
    QuotaSafe(w, b, es);
    if k > 0 {
      var init := es[..|es| - 1];
      GrantsCounted(w, b, init, k - 1);
      QuotaSafe(w, b, init);
      var e := es[|es| - 1];
      if e.Consume? {
        assert LimitOk(b, Played(w, init).handlers[e.h]);
      }
    }
  }

  /**
   Quota safety: however any number of handlers interleave, between two effective resets they
   grant at most max(B, 1) requests together.
   */
  lemma QuotaBound(w: World, b: int, es: seq<Event>, k: nat)
    requires Idle(w, b) && Runs(w, es) && k <= |es| && NoReset(w, es, k)
    ensures GrantedBy(w, es, k) <= Max(b, 1)
  {
    GrantsCounted(w, b, es, k);
    QuotaSafe(w, b, es);
  }

  // -- Resets --------------------------------------------------------------------------------

  ghost predicate Increasing(s: seq<int>) { forall i, j | 0 <= i < j < |s| :: s[i] < s[j] }

  /** The period ends there have been, up to the current one. */
  ghost function Ends(w: World): seq<int> { w.olds + [w.limits.periodResetAt] }

  predicate TakesEffect(w: World, e: Event) { e.Reset? && w.clock >= w.limits.periodResetAt }

  /** When the resets that took effect had computed the new period end, in the order in which they took effect. */
  ghost function ResetCalls(w: World, es: seq<Event>): seq<int>
    requires Runs(w, es)
  {
    if es == [] then []
    else
      var e := es[|es| - 1];
      ResetCalls(w, es[..|es| - 1]) + if TakesEffect(Played(w, es[..|es| - 1]), e) then [e.calledAt] else []
  }

  /** A first period end, then those that resets write. */
  function EndsFrom(first: int, calls: seq<int>): (ends: seq<int>)
    ensures |ends| == |calls| + 1
    ensures forall k | 0 <= k < |ends| :: ends[k] == if k == 0 then first else NextPeriodReset(calls[k - 1])
  {
    if calls == [] then [first] else EndsFrom(first, calls[..|calls| - 1]) + [NextPeriodReset(calls[|calls| - 1])]
  }

  lemma EndsFromSnoc(first: int, calls: seq<int>, c: int)
    ensures EndsFrom(first, calls + [c]) == EndsFrom(first, calls) + [NextPeriodReset(c)]
  {
    assert (calls + [c])[..|calls|] == calls;
  }

  /** Each period end but the first was written by one of them. */
  lemma {:induction false} EndsOfCalls(w: World, b: int, es: seq<Event>)
    requires Idle(w, b) && Runs(w, es)
    ensures Ends(Played(w, es)) == EndsFrom(w.limits.periodResetAt, ResetCalls(w, es))
  {
    if es != [] {
      var init, e := es[..|es| - 1], es[|es| - 1];
      EndsOfCalls(w, b, init);
      if TakesEffect(Played(w, init), e) {
        EndsFromSnoc(w.limits.periodResetAt, ResetCalls(w, init), e.calledAt);
      } else {
        assert ResetCalls(w, init) + [] == ResetCalls(w, init);
      }
    }
  }

  ghost predicate NoneBefore(calls: seq<int>, at: int) { forall k | 0 <= k < |calls| :: calls[k] >= at }

  /** All of them came after the first period was over: their handlers had seen it, or a later end, pass. */
  lemma {:induction false} CallsAfterFirstEnd(w: World, b: int, es: seq<Event>)
    requires Idle(w, b) && Runs(w, es)
    ensures NoneBefore(ResetCalls(w, es), w.limits.periodResetAt)
  {
    if es != [] {
      var init := es[..|es| - 1];
      CallsAfterFirstEnd(w, b, init);
      EndsOfCalls(w, b, init);
      QuotaSafe(w, b, init);
      var v, e := Played(w, init), es[|es| - 1];
      if TakesEffect(v, e) {
        assert PeriodOk(v, v.handlers[e.h]);
        assert v.handlers[e.h].seen in Ends(v);
        NotBeforeFirstEnd(w.limits.periodResetAt, ResetCalls(w, init), v.handlers[e.h].seen);
      }
    }
  }

  lemma NotBeforeFirstEnd(first: int, calls: seq<int>, seen: int)
    requires NoneBefore(calls, first) && seen in EndsFrom(first, calls)
    ensures seen >= first
  {
    var k :| 0 <= k <= |calls| && EndsFrom(first, calls)[k] == seen;
    assert k > 0 ==> calls[k - 1] >= first;
  }

  /**
   The period end only ever moves on, exactly if the resets take effect in the order in which they
   computed the new end, no two at the same time.
   */
  lemma PeriodsMoveOnIff(w: World, b: int, es: seq<Event>)
    requires Idle(w, b) && Runs(w, es)
    ensures Increasing(Ends(Played(w, es))) <==> Increasing(ResetCalls(w, es))
  {
    EndsOfCalls(w, b, es);
    CallsAfterFirstEnd(w, b, es);
    IncreasingWritten(w.limits.periodResetAt, ResetCalls(w, es));
  }

  lemma IncreasingWritten(first: int, calls: seq<int>)
    requires NoneBefore(calls, first)
    ensures Increasing(EndsFrom(first, calls)) <==> Increasing(calls)
  {
    var ends := EndsFrom(first, calls);
    if Increasing(calls) {
      forall i, j | 0 <= i < j < |ends| ensures ends[i] < ends[j] {
        assert calls[j - 1] >= first && (i > 0 ==> calls[i - 1] < calls[j - 1]);
      }
    }
    if Increasing(ends) {
      forall i, j | 0 <= i < j < |calls| ensures calls[i] < calls[j] {
        assert ends[i + 1] < ends[j + 1];
      }
    }
  }

  /** No reset stalls until the period end it is about to write is over itself. */
  ghost predicate Prompt(w: World, es: seq<Event>)
    requires Runs(w, es)
  {
    es != [] ==>
      && Prompt(w, es[..|es| - 1])
      && var e := es[|es| - 1];
         e.Reset? ==> Played(w, es[..|es| - 1]).clock < NextPeriodReset(e.calledAt)
  }

  lemma IncreasingSnoc(s: seq<int>, x: int)
    requires Increasing(s) && (s != [] ==> s[|s| - 1] < x)
    ensures Increasing(s + [x])
  {
    forall i | 0 <= i < |s| ensures s[i] < x {
      assert i < |s| - 1 ==> s[i] < s[|s| - 1];
    }
  }

  /** Then they take effect in that order. */
  lemma {:induction false} PromptInOrder(w: World, b: int, es: seq<Event>)
    requires Idle(w, b) && Runs(w, es) && Prompt(w, es)
    ensures Increasing(ResetCalls(w, es))
  {
    if es != [] {
      var init := es[..|es| - 1];
      PromptInOrder(w, b, init);
      EndsOfCalls(w, b, init);
      var v, e, calls := Played(w, init), es[|es| - 1], ResetCalls(w, init);
      if TakesEffect(v, e) {
        assert v.limits.periodResetAt == Ends(v)[|calls|];
        assert calls != [] ==> Ends(v)[|calls|] == NextPeriodReset(calls[|calls| - 1]);
        IncreasingSnoc(calls, e.calledAt);
      }
    }
  }

  ghost predicate Distinct(s: seq<int>) { forall i, j | 0 <= i < j < |s| :: s[i] != s[j] }

  /** The resets whose own period has been reset again since: all that took effect, but the latest. */
  ghost function Replaced(w: World, es: seq<Event>): seq<int>
    requires Runs(w, es)
  {
    var calls := ResetCalls(w, es);
    if calls == [] then [] else calls[..|calls| - 1]
  }

  /** The ends of the periods reset so far: the first one, then those the replaced resets wrote. */
  lemma OldsOfCalls(w: World, b: int, es: seq<Event>)
    requires Idle(w, b) && Runs(w, es)
    ensures NoneBefore(Replaced(w, es), w.limits.periodResetAt)
    ensures Played(w, es).olds ==
              if ResetCalls(w, es) == [] then [] else EndsFrom(w.limits.periodResetAt, Replaced(w, es))
  {
    EndsOfCalls(w, b, es);
    CallsAfterFirstEnd(w, b, es);
    var u, calls := Played(w, es), ResetCalls(w, es);
    if calls != [] {
      SameInit(u.olds, u.limits.periodResetAt, EndsFrom(w.limits.periodResetAt, Replaced(w, es)),
               NextPeriodReset(calls[|calls| - 1]));
    }
  }

  lemma SameInit(s: seq<int>, x: int, t: seq<int>, y: int)
    requires s + [x] == t + [y]
    ensures s == t
  {
    assert |s + [x]| == |t + [y]|;
    assert (s + [x])[..|s|] == s && (t + [y])[..|t|] == t;
  }

  /**
   No period is reset twice, exactly if no two of the resets that were replaced since had computed
   their period end at the same time.
   */
  lemma OncePerPeriodIff(w: World, b: int, es: seq<Event>)
    requires Idle(w, b) && Runs(w, es)
    ensures Distinct(Played(w, es).olds) <==> Distinct(Replaced(w, es))
  {
    OldsOfCalls(w, b, es);
    DistinctWritten(w.limits.periodResetAt, Replaced(w, es));
  }

  lemma DistinctWritten(first: int, calls: seq<int>)
    requires NoneBefore(calls, first)
    ensures Distinct(EndsFrom(first, calls)) <==> Distinct(calls)
  {
    var ends := EndsFrom(first, calls);
    if Distinct(calls) {
      forall i, j | 0 <= i < j < |ends| ensures ends[i] != ends[j] {
        assert calls[j - 1] >= first && (i > 0 ==> calls[i - 1] != calls[j - 1]);
      }
    }
    if Distinct(ends) {
      forall i, j | 0 <= i < j < |calls| ensures calls[i] != calls[j] {
        assert ends[i + 1] != ends[j + 1];
      }
    }
  }

  /** The handler is past its reset step, having seen the period that ended at `seen` expired. */
  ghost predicate SawExpired(w: World, h: Id, seen: int) {
    && h in w.handlers && (w.handlers[h].ToConsume? || w.handlers[h].Finished?)
    && w.handlers[h].resetFor == Some(seen)
  }

  /** Exactly one effective reset of that period is on record. */
  ghost predicate ResetOnce(olds: seq<int>, end: int) {
    exists i :: 0 <= i < |olds| && olds[i] == end && forall j | 0 <= j < |olds| && olds[j] == end :: j == i
  }

  /** No two of the resets began the period that ends at `end`. */
  ghost predicate BegunOnce(replaced: seq<int>, end: int) {
    forall j, k | 0 <= j < k < |replaced| && NextPeriodReset(replaced[j]) == end :: replaced[j] != replaced[k]
  }

  lemma ResetOnceIff(first: int, calls: seq<int>, end: int)
    requires NoneBefore(calls, first) && end in EndsFrom(first, calls)
    ensures ResetOnce(EndsFrom(first, calls), end) <==> BegunOnce(calls, end)
  {
    if ResetOnce(EndsFrom(first, calls), end) {
      OnceMeansBegunOnce(first, calls, end);
    }
    if BegunOnce(calls, end) {
      BegunOnceMeansOnce(first, calls, end);
    }
  }

  lemma OnceMeansBegunOnce(first: int, calls: seq<int>, end: int)
    requires ResetOnce(EndsFrom(first, calls), end)
    ensures BegunOnce(calls, end)
  {
    var ends := EndsFrom(first, calls);
    var i :| 0 <= i < |ends| && ends[i] == end && forall j | 0 <= j < |ends| && ends[j] == end :: j == i;
    forall j, k | 0 <= j < k < |calls| && NextPeriodReset(calls[j]) == end ensures calls[j] != calls[k] {
      assert ends[j + 1] == end && ends[k + 1] == NextPeriodReset(calls[k]);
    }
  }

  lemma BegunOnceMeansOnce(first: int, calls: seq<int>, end: int)
    requires NoneBefore(calls, first) && end in EndsFrom(first, calls) && BegunOnce(calls, end)
    ensures ResetOnce(EndsFrom(first, calls), end)
  {
    var ends := EndsFrom(first, calls);
    var i :| 0 <= i < |ends| && ends[i] == end;
    forall j | 0 <= j < |ends| && ends[j] == end ensures j == i {
      SameEnd(first, calls, i, j);
    }
  }

  lemma SameEnd(first: int, calls: seq<int>, i: nat, j: nat)
    requires NoneBefore(calls, first) && i <= |calls| && j <= |calls|
    requires EndsFrom(first, calls)[i] == EndsFrom(first, calls)[j] && BegunOnce(calls, EndsFrom(first, calls)[i])
    ensures i == j
  {
    assert i > 0 ==> calls[i - 1] >= first;
    assert j > 0 ==> calls[j - 1] >= first;
    assert i > 0 && j > 0 ==> calls[i - 1] == calls[j - 1];
  }

  /**
   However many handlers saw one period expired, it has been reset once any of them is past its
   reset step; and it has been reset once only, exactly if no two of the resets that were replaced
   since had both begun that period.
   */
  lemma OneResetIff(w: World, b: int, es: seq<Event>, h: Id, seen: int)
    requires Idle(w, b) && Runs(w, es) && SawExpired(Played(w, es), h, seen)
    ensures seen in Played(w, es).olds
    ensures ResetOnce(Played(w, es).olds, seen) <==> BegunOnce(Replaced(w, es), seen)
  {
    QuotaSafe(w, b, es);
    OldsOfCalls(w, b, es);
    assert PeriodOk(Played(w, es), Played(w, es).handlers[h]);
    ResetOnceIff(w.limits.periodResetAt, Replaced(w, es), seen);
  }

  /** So when all those times differ, every period a handler saw expired and stepped past is reset exactly once. */
  lemma OneResetPerPeriod(w: World, b: int, es: seq<Event>, h: Id, seen: int)
    requires Idle(w, b) && Runs(w, es) && Distinct(Replaced(w, es)) && SawExpired(Played(w, es), h, seen)
    ensures ResetOnce(Played(w, es).olds, seen)
  {
    OneResetIff(w, b, es, h, seen);
  }

  /** They do when no handler stalls for a whole period. */
  lemma PromptResetsOnce(w: World, b: int, es: seq<Event>)
    requires Idle(w, b) && Runs(w, es) && Prompt(w, es)
    ensures Distinct(Replaced(w, es)) && Distinct(Played(w, es).olds)
    ensures forall h, seen | SawExpired(Played(w, es), h, seen) :: ResetOnce(Played(w, es).olds, seen)
  {
    PromptInOrder(w, b, es);
    OncePerPeriodIff(w, b, es);
    forall h, seen | SawExpired(Played(w, es), h, seen) ensures ResetOnce(Played(w, es).olds, seen) {
      OneResetPerPeriod(w, b, es, h, seen);
    }
  }

  // -- A reset that stalls for a whole period -------------------------------------------------

  const EXPIRED := World(UserLimits(Some(10), None, None, 0, 0, 0.0, 0), map[], 0, [], 0)

  lemma Extend(w: World, es: seq<Event>, e: Event)
    requires Runs(w, es) && Possible(Played(w, es), e)
    ensures Runs(w, es + [e]) && Played(w, es + [e]) == Next(Played(w, es), e)
  {
    assert (es + [e])[..|es + [e]| - 1] == es;
  }

  /** Two handlers see the same period expired; the second stalls, until the period the first began is over. */
  lemma Stalled() returns (es: seq<Event>)
    ensures Idle(EXPIRED, 10) && Runs(EXPIRED, es)
    ensures var u := Played(EXPIRED, es);
      u.olds == [0, DEFAULT_PERIOD_MS] && u.limits.periodResetAt == DEFAULT_PERIOD_MS == u.clock && 2 !in u.handlers
      && u.limits.hardSpendLimitUsd.None? && u.limits.maxRequestsPerHour == Some(10) && u.limits.currentPeriodRequests == 0
      && u.limits.maxTokensPerPeriod.None?
  {
    var window := SlidingWindow(0, 0);
    es := [];
    Extend(EXPIRED, es, Fetch(0, window, 1)); es := es + [Fetch(0, window, 1)];
    Extend(EXPIRED, es, Fetch(1, window, 1)); es := es + [Fetch(1, window, 1)];
    Extend(EXPIRED, es, Check(0)); es := es + [Check(0)];
    Extend(EXPIRED, es, Check(1)); es := es + [Check(1)];
    Extend(EXPIRED, es, Reset(0, 0)); es := es + [Reset(0, 0)];
    Extend(EXPIRED, es, Tick(DEFAULT_PERIOD_MS)); es := es + [Tick(DEFAULT_PERIOD_MS)];
    Extend(EXPIRED, es, Reset(1, 0)); es := es + [Reset(1, 0)];
  }

  /** A third handler then finds that period expired all the same: one period is reset twice. */
  lemma ResetTwice() returns (es: seq<Event>)
    ensures Idle(EXPIRED, 10) && Runs(EXPIRED, es)
    ensures Played(EXPIRED, es).olds == [0, DEFAULT_PERIOD_MS, DEFAULT_PERIOD_MS]
  {
    es := Stalled();
    var window, at := SlidingWindow(0, 0), DEFAULT_PERIOD_MS;
    Extend(EXPIRED, es, Fetch(2, window, 1)); es := es + [Fetch(2, window, 1)];
    Extend(EXPIRED, es, Check(2)); es := es + [Check(2)];
    Extend(EXPIRED, es, Reset(2, at)); es := es + [Reset(2, at)];
  }
}
