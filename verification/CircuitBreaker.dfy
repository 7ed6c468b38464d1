/** The circuit breaker, whose cooldown is checked lazily, over whole call traces. */
module CircuitBreakers {
  import opened NorushTypes

  datatype BreakerState = Closed | Open | HalfOpen

  datatype Config = Config(threshold: int, cooldownMs: int)

  /** The breaker's fields. */
  datatype Breaker = Breaker(
    state: BreakerState, failures: nat, lastFailureAt: Option<int>, lastTrippedAt: Option<int>, probe: bool)

  const DEFAULTS := Config(5, 600_000)
  const FRESH := Breaker(Closed, 0, None, None, false)

  // -- What a call does, as functions of the fields and the clock readings ---------------------

  predicate CooledDown(c: Config, s: Breaker, now: int) {
    s.state.Open? && s.lastTrippedAt.Some? && now - s.lastTrippedAt.value >= c.cooldownMs
  }

  /** The `state` getter, which is where an expired cooldown is noticed. */
  function Noticed(c: Config, s: Breaker, now: int): Breaker {
    if CooledDown(c, s, now) then s.(state := HalfOpen, probe := false) else s
  }

  /** A call with its clock readings, earliest first. `Reset` reads no clock; `at` is its place in time. */
  datatype Call =
    | ReadState(at: int)
    | Snapshot(at: int)
    | CanSubmit(at: int)
    | RecordSuccess(at: int)
    | RecordFailure(failedAt: int, readAt: int, trippedAt: int)
    | Reset(at: int)

  datatype Answer =
    | StateIs(state: BreakerState)
    | Seen(snapshot: Breaker)
    | Granted(yes: bool)
    | Done
    | Tripped(yes: bool)

  /** What `snapshot()` shows: everything but the probe flag. */
  function Shown(s: Breaker): Breaker { s.(probe := false) }

  function AfterSubmit(c: Config, s: Breaker, now: int): Breaker {
    var r := Noticed(c, s, now);
    if r.state.HalfOpen? then r.(probe := true) else r
  }

  function MaySubmit(c: Config, s: Breaker, now: int): bool {
    var r := Noticed(c, s, now);
    r.state.Closed? || (r.state.HalfOpen? && !r.probe)
  }

  function AfterSuccess(c: Config, s: Breaker, now: int): Breaker {
    var r := Noticed(c, s.(failures := 0, lastFailureAt := None, probe := false), now);
    if r.state.HalfOpen? then r.(state := Closed) else r
  }

  /** The fields when `recordFailure` decides whether to trip. */
  function Counted(c: Config, s: Breaker, failedAt: int, readAt: int): Breaker {
    Noticed(c, s.(failures := s.failures + 1, lastFailureAt := Some(failedAt), probe := false), readAt)
  }

  predicate Trips(c: Config, s: Breaker) { s.state.HalfOpen? || (s.state.Closed? && s.failures >= c.threshold) }

  function AfterFailure(c: Config, s: Breaker, failedAt: int, readAt: int, trippedAt: int): Breaker {
    var r := Counted(c, s, failedAt, readAt);
    if Trips(c, r) then r.(state := Open, lastTrippedAt := Some(trippedAt)) else r
  }

  function Step(c: Config, s: Breaker, call: Call): (Breaker, Answer) {
    match call
    case ReadState(at) => (Noticed(c, s, at), StateIs(Noticed(c, s, at).state))
    case Snapshot(at) => (Noticed(c, s, at), Seen(Shown(Noticed(c, s, at))))
    case CanSubmit(at) => (AfterSubmit(c, s, at), Granted(MaySubmit(c, s, at)))
    case RecordSuccess(at) => (AfterSuccess(c, s, at), Done)
    case RecordFailure(failedAt, readAt, trippedAt) =>
      (AfterFailure(c, s, failedAt, readAt, trippedAt), Tripped(Trips(c, Counted(c, s, failedAt, readAt))))
    case Reset(_) => (FRESH, Done)
  }

  // -- The class ---------------------------------------------------------------------------

  class CircuitBreaker {
    const config: Config
    var state: BreakerState
    var consecutiveFailures: nat
    var lastFailureAt: Option<int>
    var lastTrippedAt: Option<int>
    /** A probe submission has been granted in half_open. */
    var probeInFlight: bool

    constructor (config: Config := DEFAULTS)
      ensures this.config == config && Fields() == FRESH
    {
      this.config, state, consecutiveFailures := config, Closed, 0;
      lastFailureAt, lastTrippedAt, probeInFlight := None, None, false;
    }

    ghost function Fields(): Breaker
      reads this
    {
      Breaker(state, consecutiveFailures, lastFailureAt, lastTrippedAt, probeInFlight)
    }

    /** The `state` getter. */
    method CurrentState(now: int) returns (current: BreakerState)
      modifies this
      ensures (Fields(), StateIs(current)) == Step(config, old(Fields()), ReadState(now))
    {
      if state == Open && lastTrippedAt.Some? {
        var elapsed := now - lastTrippedAt.value;
        if elapsed >= config.cooldownMs {
          state := HalfOpen;
          probeInFlight := false;
        }
      }
      current := state;
    }

    method Submittable(now: int) returns (granted: bool)
      modifies this
      ensures (Fields(), Granted(granted)) == Step(config, old(Fields()), CanSubmit(now))
    {
      var currentState := CurrentState(now);
      if currentState == Open {
        return false;
      }
      if currentState == HalfOpen {
        if probeInFlight {
          return false;
        }
        probeInFlight := true;
        return true;
      }
      return true;
    }

    method Succeeded(now: int)
      modifies this
      ensures Fields() == Step(config, old(Fields()), RecordSuccess(now)).0
    {
      consecutiveFailures := 0;
      lastFailureAt := None;
      probeInFlight := false;
      var currentState := CurrentState(now);
      if currentState == HalfOpen {
        state := Closed;
      }
    }

    method Failed(failedAt: int, readAt: int, trippedAt: int) returns (tripped: bool)
      modifies this
      ensures (Fields(), Tripped(tripped)) == Step(config, old(Fields()), RecordFailure(failedAt, readAt, trippedAt))
    {
      consecutiveFailures := consecutiveFailures + 1;
      lastFailureAt := Some(failedAt);
      probeInFlight := false;
      var currentState := CurrentState(readAt);
      if currentState == HalfOpen {
        Trip(trippedAt);
        return true;
      }
      if currentState == Closed && consecutiveFailures >= config.threshold {
        Trip(trippedAt);
        return true;
      }
      return false;
    }

    method Trip(now: int)
      modifies `state, `lastTrippedAt
      ensures state == Open && lastTrippedAt == Some(now)
    {
      state := Open;
      lastTrippedAt := Some(now);
    }

    method ResetNow()
      modifies this
      ensures Fields() == FRESH
    {
      state, consecutiveFailures := Closed, 0;
      lastFailureAt, lastTrippedAt, probeInFlight := None, None, false;
    }

    method TakeSnapshot(now: int) returns (snapshot: Breaker)
      modifies this
      ensures (Fields(), Seen(snapshot)) == Step(config, old(Fields()), Snapshot(now))
    {
      var current := CurrentState(now);
      snapshot := Breaker(current, consecutiveFailures, lastFailureAt, lastTrippedAt, false);
    }
  }

  // -- Traces ------------------------------------------------------------------------------

  function First(call: Call): int { if call.RecordFailure? then call.failedAt else call.at }

  function Last(call: Call): int { if call.RecordFailure? then call.trippedAt else call.at }

  /** The clock never goes backwards, within a call or between calls. */
  ghost predicate Ordered(tr: seq<Call>) {
    && (forall i | 0 <= i < |tr| && tr[i].RecordFailure? :: tr[i].failedAt <= tr[i].readAt <= tr[i].trippedAt)
    && (forall i, j | 0 <= i < j < |tr| :: Last(tr[i]) <= First(tr[j]))
  }

  predicate IsRead(call: Call) { call.ReadState? || call.Snapshot? }

  /** The fields after a trace. */
  function After(c: Config, s: Breaker, tr: seq<Call>): Breaker {
    if tr == [] then s else Step(c, After(c, s, tr[..|tr| - 1]), tr[|tr| - 1]).0
  }

  /** The answer to the i-th call of a trace. */
  function AnswerAt(c: Config, s: Breaker, tr: seq<Call>, i: nat): Answer
    requires i < |tr|
  {
    Step(c, After(c, s, tr[..i]), tr[i]).1
  }

  // -- Lazy is as good as eager --------------------------------------------------------------

  /** Two breakers nobody can tell apart from time `t` on. */
  predicate AlikeFrom(c: Config, s: Breaker, u: Breaker, t: int) { Noticed(c, s, t) == Noticed(c, u, t) }

  lemma NoticedTwice(c: Config, s: Breaker, t: int, later: int)
    requires t <= later
    ensures Noticed(c, Noticed(c, s, t), later) == Noticed(c, s, later)
  {
  }

  lemma AlikeLater(c: Config, s: Breaker, u: Breaker, t: int, later: int)
    requires AlikeFrom(c, s, u, t) && t <= later
    ensures AlikeFrom(c, s, u, later)
  {
  }

  lemma AlikeStep(c: Config, s: Breaker, u: Breaker, call: Call)
    requires AlikeFrom(c, s, u, First(call)) && Ordered([call])
    ensures Step(c, s, call).1 == Step(c, u, call).1
    ensures AlikeFrom(c, Step(c, s, call).0, Step(c, u, call).0, Last(call))
  {
    assert [call][0] == call;
    if call.RecordFailure? {
      AlikeLater(c, s, u, call.failedAt, call.readAt);
    }
  }

  /** A trace with the reads to be inserted marked. */
  datatype Marked = Marked(call: Call, inserted: bool)

  function Calls(tr: seq<Marked>): seq<Call> {
    if tr == [] then [] else Calls(tr[..|tr| - 1]) + [tr[|tr| - 1].call]
  }

  /** The trace without the insertions. */
  function Without(tr: seq<Marked>): seq<Call> {
    if tr == [] then []
    else Without(tr[..|tr| - 1]) + if tr[|tr| - 1].inserted then [] else [tr[|tr| - 1].call]
  }

  function Answers(c: Config, s: Breaker, tr: seq<Call>): seq<Answer> {
    if tr == [] then []
    else Answers(c, s, tr[..|tr| - 1]) + [Step(c, After(c, s, tr[..|tr| - 1]), tr[|tr| - 1]).1]
  }

  /** The answers to the calls that were not inserted. */
  function OwnAnswers(c: Config, s: Breaker, tr: seq<Marked>): seq<Answer> {
    if tr == [] then []
    else
      OwnAnswers(c, s, tr[..|tr| - 1])
      + if tr[|tr| - 1].inserted then []
        else [Step(c, After(c, s, Calls(tr[..|tr| - 1])), tr[|tr| - 1].call).1]
  }

  lemma {:induction false} CallsAt(tr: seq<Marked>)
    ensures |Calls(tr)| == |tr| && forall i | 0 <= i < |tr| :: Calls(tr)[i] == tr[i].call
  {
    if tr != [] {
      CallsAt(tr[..|tr| - 1]);
    }
  }

  lemma {:induction false} OrderedPrefix(tr: seq<Marked>)
    requires tr != [] && Ordered(Calls(tr))
    ensures Ordered(Calls(tr[..|tr| - 1])) && Ordered([tr[|tr| - 1].call])
    ensures |tr| > 1 ==> Last(tr[|tr| - 2].call) <= First(tr[|tr| - 1].call)
  {
    CallsAt(tr);
    CallsAt(tr[..|tr| - 1]);
    assert [tr[|tr| - 1].call][0] == Calls(tr)[|tr| - 1];
    assert |tr| > 1 ==> Last(Calls(tr)[|tr| - 2]) <= First(Calls(tr)[|tr| - 1]);
  }

  lemma {:induction false} UnrollCalls(c: Config, s: Breaker, tr: seq<Marked>)
    requires tr != []
    ensures var init, m := tr[..|tr| - 1], tr[|tr| - 1];
      && After(c, s, Calls(tr)) == Step(c, After(c, s, Calls(init)), m.call).0
      && After(c, s, Without(tr)) ==
           (if m.inserted then After(c, s, Without(init)) else Step(c, After(c, s, Without(init)), m.call).0)
      && Answers(c, s, Without(tr)) == Answers(c, s, Without(init)) +
           if m.inserted then [] else [Step(c, After(c, s, Without(init)), m.call).1]
  {
    var init, m := tr[..|tr| - 1], tr[|tr| - 1];
    assert Calls(tr)[..|Calls(tr)| - 1] == Calls(init);
    if m.inserted {
      assert Without(tr) == Without(init);
    } else {
      assert Without(tr)[..|Without(tr)| - 1] == Without(init);
    }
  }

  /** One call more: inserted into one trace only, or made in both. */
  lemma AlikeSnoc(c: Config, with: Breaker, without: Breaker, m: Marked)
    requires Ordered([m.call]) && AlikeFrom(c, with, without, First(m.call))
    requires m.inserted ==> IsRead(m.call)
    ensures m.inserted ==> AlikeFrom(c, Step(c, with, m.call).0, without, Last(m.call))
    ensures !m.inserted ==>
              && Step(c, with, m.call).1 == Step(c, without, m.call).1
              && AlikeFrom(c, Step(c, with, m.call).0, Step(c, without, m.call).0, Last(m.call))
  {
    if m.inserted {
      NoticedTwice(c, with, m.call.at, m.call.at);
    } else {
      AlikeStep(c, with, without, m.call);
    }
  }

  /**
   The lazy cooldown cannot be observed: with a clock that never goes backwards, reads of the
   state inserted anywhere in a trace (a timer firing when the cooldown ends, say) change no
   answer to any other call.
   */
  lemma {:induction false} ReadsInvisible(c: Config, s: Breaker, tr: seq<Marked>)
    requires Ordered(Calls(tr))
    requires forall i | 0 <= i < |tr| && tr[i].inserted :: IsRead(tr[i].call)
    ensures OwnAnswers(c, s, tr) == Answers(c, s, Without(tr))
    ensures tr != [] ==> AlikeFrom(c, After(c, s, Calls(tr)), After(c, s, Without(tr)), Last(tr[|tr| - 1].call))
  {
    if tr != [] {
      var init, m := tr[..|tr| - 1], tr[|tr| - 1];
      OrderedPrefix(tr);
      ReadsInvisible(c, s, init);
      var with, without := After(c, s, Calls(init)), After(c, s, Without(init));
      if init != [] {
        AlikeLater(c, with, without, Last(init[|init| - 1].call), First(m.call));
      }
      AlikeSnoc(c, with, without, m);
      UnrollCalls(c, s, tr);
    }
  }

  // -- No grant while open -------------------------------------------------------------------

  lemma {:induction false} StaysOpen(c: Config, s: Breaker, tr: seq<Call>)
    requires s.state.Open? && s.lastTrippedAt.Some? && Ordered(tr)
    requires forall i | 0 <= i < |tr| :: !tr[i].Reset? && Last(tr[i]) < s.lastTrippedAt.value + c.cooldownMs
    ensures After(c, s, tr).state.Open? && After(c, s, tr).lastTrippedAt == s.lastTrippedAt
  {
    if tr != [] {
      StaysOpen(c, s, tr[..|tr| - 1]);
      assert Last(tr[|tr| - 1]) < s.lastTrippedAt.value + c.cooldownMs;
    }
  }

  lemma {:induction false} AfterSplit(c: Config, s: Breaker, a: seq<Call>, b: seq<Call>)
    ensures After(c, s, a + b) == After(c, After(c, s, a), b)
    decreases |b|
  {
    if b == [] {
      assert a + b == a;
    } else {
      assert (a + b)[..|a + b| - 1] == a + b[..|b| - 1];
      AfterSplit(c, s, a, b[..|b| - 1]);
    }
  }

  /**
   After a call that trips the breaker, no submission is granted before the cooldown has passed,
   unless the breaker is reset: in [trip, trip + cooldown) every request to submit is refused.
   */
  lemma NoGrantWhileOpen(c: Config, s: Breaker, tr: seq<Call>, i: nat, j: nat)
    requires Ordered(tr) && i < j < |tr|
    requires tr[i].RecordFailure? && AnswerAt(c, s, tr, i) == Tripped(true)
    requires tr[j].CanSubmit? && tr[j].at < tr[i].trippedAt + c.cooldownMs
    requires forall k | i < k < j :: !tr[k].Reset?
    ensures AnswerAt(c, s, tr, j) == Granted(false)
  {
    var between := tr[i + 1..j];
    Between(tr, i, j, between);
    assert tr[..i + 1][..i] == tr[..i] && tr[..j] == tr[..i + 1] + between;
    AfterSplit(c, s, tr[..i + 1], between);
    StaysOpen(c, After(c, s, tr[..i + 1]), between);
  }

  /** What lies between two calls is ordered, and over before the second one. */
  lemma Between(tr: seq<Call>, i: nat, j: nat, between: seq<Call>)
    requires Ordered(tr) && i < j < |tr| && between == tr[i + 1..j]
    ensures Ordered(between)
    ensures forall k | 0 <= k < |between| :: between[k] == tr[i + 1 + k] && Last(between[k]) <= First(tr[j])
  {
  }

  // -- One probe per half-open episode ---------------------------------------------------------

  /** Calls that do not end a half-open episode: no outcome is recorded, nothing is reset. */
  predicate Undecided(call: Call) { IsRead(call) || call.CanSubmit? }

  function Grants(c: Config, s: Breaker, tr: seq<Call>): nat {
    if tr == [] then 0
    else
      Grants(c, s, tr[..|tr| - 1])
      + if Step(c, After(c, s, tr[..|tr| - 1]), tr[|tr| - 1]).1 == Granted(true) then 1 else 0
  }

  function Asked(tr: seq<Call>): nat {
    if tr == [] then 0 else Asked(tr[..|tr| - 1]) + if tr[|tr| - 1].CanSubmit? then 1 else 0
  }

  /**
   A half-open episode grants exactly one probe if anyone asks and none was granted before it,
   and otherwise none, however many callers ask and whatever the clock says.
   */
  lemma {:induction false} OneProbe(c: Config, s: Breaker, tr: seq<Call>)
    requires s.state.HalfOpen? && forall i | 0 <= i < |tr| :: Undecided(tr[i])
    ensures After(c, s, tr) == s.(probe := s.probe || Asked(tr) > 0)
    ensures Grants(c, s, tr) == if s.probe || Asked(tr) == 0 then 0 else 1
  {
    if tr != [] {
      OneProbe(c, s, tr[..|tr| - 1]);
      assert Undecided(tr[|tr| - 1]);
    }
  }

  predicate Late(c: Config, s: Breaker, call: Call) {
    s.lastTrippedAt.Some? && First(call) - s.lastTrippedAt.value >= c.cooldownMs
  }

  /** Requests to submit once the cooldown is over. */
  function LateAsks(c: Config, s: Breaker, tr: seq<Call>): nat {
    if tr == [] then 0
    else LateAsks(c, s, tr[..|tr| - 1]) + if tr[|tr| - 1].CanSubmit? && Late(c, s, tr[|tr| - 1]) then 1 else 0
  }

  /**
   From a trip until an outcome is recorded, exactly one submission is granted if anyone asks
   after the cooldown, and none if nobody does; who asked before, or only looked, is irrelevant.
   */
  lemma {:induction false} OneProbePerTrip(c: Config, s: Breaker, tr: seq<Call>)
    requires s.state.Open? && s.lastTrippedAt.Some? && Ordered(tr)
    requires forall i | 0 <= i < |tr| :: Undecided(tr[i])
    ensures Grants(c, s, tr) == if LateAsks(c, s, tr) > 0 then 1 else 0
    ensures After(c, s, tr) ==
              if tr == [] || !Late(c, s, tr[|tr| - 1]) then s
              else s.(state := HalfOpen, probe := LateAsks(c, s, tr) > 0)
    ensures (tr == [] || !Late(c, s, tr[|tr| - 1])) ==> LateAsks(c, s, tr) == 0
  {
    if tr != [] {
      OneProbePerTrip(c, s, tr[..|tr| - 1]);
      assert Undecided(tr[|tr| - 1]);
      assert |tr| > 1 ==> Last(tr[|tr| - 2]) <= First(tr[|tr| - 1]);
    }
  }

  // -- When it trips -------------------------------------------------------------------------

  /** Failures recorded since the last success or reset. */
  function FailuresInARow(tr: seq<Call>): nat {
    if tr == [] then 0
    else
      match tr[|tr| - 1]
      case RecordFailure(_, _, _) => FailuresInARow(tr[..|tr| - 1]) + 1
      case RecordSuccess(_) => 0
      case Reset(_) => 0
      case _ => FailuresInARow(tr[..|tr| - 1])
  }

  /** A closed breaker has seen fewer failures in a row than the threshold (or none at all). */
  lemma {:induction false} ClosedBelowThreshold(c: Config, tr: seq<Call>)
    ensures var s := After(c, FRESH, tr);
      && s.failures == FailuresInARow(tr)
      && (s.state.Closed? ==> s.failures == 0 || s.failures < c.threshold)
      && (!s.state.Closed? ==> s.lastTrippedAt.Some?)
  {
    if tr != [] {
      ClosedBelowThreshold(c, tr[..|tr| - 1]);
    }
  }

  /**
   A failure trips the breaker exactly when it is the failure of a half-open probe's episode, or
   finds the breaker closed and completes a run of `threshold` failures in a row.
   */
  lemma TripsExactly(c: Config, tr: seq<Call>, i: nat)
    requires i < |tr| && tr[i].RecordFailure?
    ensures var before := Noticed(c, After(c, FRESH, tr[..i]), tr[i].readAt);
      AnswerAt(c, FRESH, tr, i) == Tripped(
        before.state.HalfOpen? || (before.state.Closed? && FailuresInARow(tr[..i + 1]) >= c.threshold))
  {
    assert tr[..i + 1][..i] == tr[..i];
    ClosedBelowThreshold(c, tr[..i]);
  }
  // -- Every answer, from the calls before it --------------------------------------------------

  ghost predicate TrippedAt(c: Config, tr: seq<Call>, i: nat) {
    i < |tr| && tr[i].RecordFailure? && AnswerAt(c, FRESH, tr, i) == Tripped(true)
  }

  /** When the cooldown of a trip is over. */
  function Cooled(c: Config, trip: Call): int
    requires trip.RecordFailure?
  {
    trip.trippedAt + c.cooldownMs
  }

  /** A call that ends a trip: a reset, a success once the cooldown is over, or the next trip. */
  ghost predicate Ends(c: Config, tr: seq<Call>, i: nat, k: nat)
    requires i < k < |tr| && tr[i].RecordFailure?
  {
    || tr[k].Reset?
    || (tr[k].RecordSuccess? && tr[k].at >= Cooled(c, tr[i]))
    || TrippedAt(c, tr, k)
  }

  /** The i-th call tripped the breaker, and before the j-th nothing has ended that. */
  ghost predicate Stands(c: Config, tr: seq<Call>, i: nat, j: nat) {
    && i < j <= |tr| && TrippedAt(c, tr, i)
    && forall k: nat | i < k < j :: !Ends(c, tr, i, k)
  }

  /** Someone asked to submit between two calls, at `t` or later. */
  ghost predicate AskedFrom(tr: seq<Call>, i: nat, j: nat, t: int)
    requires j <= |tr|
  {
    exists k: nat :: i < k < j && tr[k].CanSubmit? && tr[k].at >= t
  }

  /** When a call looks at the clock to see whether the cooldown is over. */
  function LooksAt(call: Call): int { if call.RecordFailure? then call.readAt else call.at }

  ghost predicate LookedFrom(tr: seq<Call>, i: nat, j: nat, t: int)
    requires j <= |tr|
  {
    exists k: nat :: i < k < j && LooksAt(tr[k]) >= t
  }

  /** The fields before the j-th call, told from the trip that stands then. */
  ghost predicate StandingAs(c: Config, tr: seq<Call>, i: nat, j: nat, s: Breaker)
    requires j <= |tr| && Stands(c, tr, i, j)
  {
    && s.lastTrippedAt == Some(tr[i].trippedAt)
    && (if LookedFrom(tr, i, j, Cooled(c, tr[i])) then s.state.HalfOpen? else s.state.Open?)
    && (s.state.HalfOpen? ==> (s.probe <==> AskedFrom(tr, i, j, Cooled(c, tr[i]))))
  }

  lemma StandsSnoc(c: Config, tr: seq<Call>, i: nat, j: nat)
    requires i < j < |tr|
    ensures Stands(c, tr, i, j + 1) <==> Stands(c, tr, i, j) && !Ends(c, tr, i, j)
  {
  }

  lemma LateSnoc(tr: seq<Call>, i: nat, j: nat, t: int)
    requires i < j < |tr|
    ensures AskedFrom(tr, i, j + 1, t) <==> AskedFrom(tr, i, j, t) || (tr[j].CanSubmit? && tr[j].at >= t)
    ensures LookedFrom(tr, i, j + 1, t) <==> LookedFrom(tr, i, j, t) || LooksAt(tr[j]) >= t
  {
    if tr[j].CanSubmit? && tr[j].at >= t {
      assert i < j < j + 1;
    }
  }

  /** Having looked once after the cooldown, every later call comes after it too. */
  lemma LookedLater(tr: seq<Call>, i: nat, j: nat, t: int)
    requires Ordered(tr) && i < j < |tr| && LookedFrom(tr, i, j, t)
    ensures First(tr[j]) >= t
  {
    var k: nat :| i < k < j && LooksAt(tr[k]) >= t;
    assert Last(tr[k]) <= First(tr[j]);
  }

  /** One call more, while a trip stands. */
  lemma StandingStep(c: Config, tr: seq<Call>, i: nat, j: nat, s: Breaker)
    requires Ordered(tr) && j < |tr| && Stands(c, tr, i, j) && StandingAs(c, tr, i, j, s)
    requires s == After(c, FRESH, tr[..j])
    ensures Ends(c, tr, i, j) && !TrippedAt(c, tr, j) ==> Step(c, s, tr[j]).0.state.Closed?
    ensures !Ends(c, tr, i, j) ==> Stands(c, tr, i, j + 1) && StandingAs(c, tr, i, j + 1, Step(c, s, tr[j]).0)
    ensures TrippedAt(c, tr, j) <==> tr[j].RecordFailure? && tr[j].readAt >= Cooled(c, tr[i])
  {
    StandsSnoc(c, tr, i, j);
    LateSnoc(tr, i, j, Cooled(c, tr[i]));
    if LookedFrom(tr, i, j, Cooled(c, tr[i])) {
      LookedLater(tr, i, j, Cooled(c, tr[i]));
    }
  }

  /** A trip stands as soon as it happened. */
  lemma TripStands(c: Config, tr: seq<Call>, j: nat)
    requires TrippedAt(c, tr, j)
    ensures Stands(c, tr, j, j + 1) && StandingAs(c, tr, j, j + 1, Step(c, After(c, FRESH, tr[..j]), tr[j]).0)
  {
  }

  /** No two trips stand at once. */
  lemma OneStands(c: Config, tr: seq<Call>, i: nat, k: nat, j: nat)
    requires Stands(c, tr, i, j) && Stands(c, tr, k, j)
    ensures i == k
  {
    assert i < k ==> Ends(c, tr, i, k);
    assert k < i ==> Ends(c, tr, k, i);
  }

  /** Before any call, the breaker is closed unless a trip stands, and then its fields tell which. */
  lemma {:induction false} StandsOrClosed(c: Config, tr: seq<Call>, j: nat)
    requires Ordered(tr) && j <= |tr|
    ensures var s := After(c, FRESH, tr[..j]);
      && (s.state.Closed? <==> forall i: nat :: !Stands(c, tr, i, j))
      && (forall i: nat | Stands(c, tr, i, j) :: StandingAs(c, tr, i, j, s))
  {
    if j > 0 {
      var k := j - 1;
      StandsOrClosed(c, tr, k);
      var s := After(c, FRESH, tr[..k]);
      assert tr[..j][..k] == tr[..k] && After(c, FRESH, tr[..j]) == Step(c, s, tr[k]).0;
      if TrippedAt(c, tr, k) {
        TripStands(c, tr, k);
        forall i: nat | Stands(c, tr, i, j) ensures i == k {
          OneStands(c, tr, i, k, j);
        }
      } else {
        NotTripped(c, tr, k, j, s);
      }
    }
  }

  lemma NotTripped(c: Config, tr: seq<Call>, k: nat, next: nat, s: Breaker)
    requires Ordered(tr) && next == k + 1 <= |tr| && s == After(c, FRESH, tr[..k]) && !TrippedAt(c, tr, k)
    requires s.state.Closed? <==> forall i: nat :: !Stands(c, tr, i, k)
    requires forall i: nat | Stands(c, tr, i, k) :: StandingAs(c, tr, i, k, s)
    ensures Step(c, s, tr[k]).0.state.Closed? <==> forall i: nat :: !Stands(c, tr, i, next)
    ensures forall i: nat | Stands(c, tr, i, next) :: StandingAs(c, tr, i, next, Step(c, s, tr[k]).0)
  {
    forall i: nat | Stands(c, tr, i, next)
      ensures StandingAs(c, tr, i, next, Step(c, s, tr[k]).0) && !Step(c, s, tr[k]).0.state.Closed?
    {
      assert i < k;
      StandsSnoc(c, tr, i, k);
      StandingStep(c, tr, i, k, s);
    }
    if !Step(c, s, tr[k]).0.state.Closed? {
      assert !s.state.Closed?;
      var i: nat :| Stands(c, tr, i, k);
      StandingStep(c, tr, i, k, s);
      assert Stands(c, tr, i, next);
    }
  }

  /**
   Whether a submission is granted, told from the calls before it: always while no trip stands;
   while one does, exactly to the first that asks once the cooldown is over.
   */
  lemma GrantedExactly(c: Config, tr: seq<Call>, j: nat)
    requires Ordered(tr) && j < |tr| && tr[j].CanSubmit?
    ensures (forall i: nat :: !Stands(c, tr, i, j)) ==> AnswerAt(c, FRESH, tr, j) == Granted(true)
    ensures forall i: nat | Stands(c, tr, i, j) ::
              AnswerAt(c, FRESH, tr, j) ==
                Granted(tr[j].at >= Cooled(c, tr[i]) && !AskedFrom(tr, i, j, Cooled(c, tr[i])))
  {
    StandsOrClosed(c, tr, j);
    forall i: nat | Stands(c, tr, i, j)
      ensures AnswerAt(c, FRESH, tr, j) ==
                Granted(tr[j].at >= Cooled(c, tr[i]) && !AskedFrom(tr, i, j, Cooled(c, tr[i])))
    {
      GrantedWhileStanding(c, tr, i, j, After(c, FRESH, tr[..j]));
    }
  }

  lemma GrantedWhileStanding(c: Config, tr: seq<Call>, i: nat, j: nat, s: Breaker)
    requires Ordered(tr) && j < |tr| && tr[j].CanSubmit? && Stands(c, tr, i, j) && StandingAs(c, tr, i, j, s)
    ensures Step(c, s, tr[j]).1 == Granted(tr[j].at >= Cooled(c, tr[i]) && !AskedFrom(tr, i, j, Cooled(c, tr[i])))
  {
    var t := Cooled(c, tr[i]);
    if LookedFrom(tr, i, j, t) {
      LookedLater(tr, i, j, t);
    } else {
      assert forall k: nat | i < k < j :: LooksAt(tr[k]) < t;
    }
  }

  /** Whether a failure trips the breaker, told from the calls before it. */
  lemma TrippedExactly(c: Config, tr: seq<Call>, j: nat)
    requires Ordered(tr) && j < |tr| && tr[j].RecordFailure?
    ensures (forall i: nat :: !Stands(c, tr, i, j)) ==>
              (TrippedAt(c, tr, j) <==> FailuresInARow(tr[..j + 1]) >= c.threshold)
    ensures forall i: nat | Stands(c, tr, i, j) :: TrippedAt(c, tr, j) <==> tr[j].readAt >= Cooled(c, tr[i])
  {
    StandsOrClosed(c, tr, j);
    TripsExactly(c, tr, j);
    forall i: nat | Stands(c, tr, i, j) ensures TrippedAt(c, tr, j) <==> tr[j].readAt >= Cooled(c, tr[i]) {
      StandingStep(c, tr, i, j, After(c, FRESH, tr[..j]));
    }
  }

  /** What a read shows, told from the calls before it. */
  lemma ShownExactly(c: Config, tr: seq<Call>, j: nat)
    requires Ordered(tr) && j < |tr| && IsRead(tr[j])
    ensures var a := AnswerAt(c, FRESH, tr, j);
      var state := if a.StateIs? then a.state else a.snapshot.state;
      && (state.Closed? <==> forall i: nat :: !Stands(c, tr, i, j))
      && (forall i: nat | Stands(c, tr, i, j) :: state == if tr[j].at >= Cooled(c, tr[i]) then HalfOpen else Open)
      && (a.Seen? ==> a.snapshot.failures == FailuresInARow(tr[..j]))
  {
    StandsOrClosed(c, tr, j);
    ClosedBelowThreshold(c, tr[..j]);
    forall i: nat | Stands(c, tr, i, j)
      ensures Noticed(c, After(c, FRESH, tr[..j]), tr[j].at).state == if tr[j].at >= Cooled(c, tr[i]) then HalfOpen else Open
    {
      if LookedFrom(tr, i, j, Cooled(c, tr[i])) {
        LookedLater(tr, i, j, Cooled(c, tr[i]));
      }
    }
  }

  function FailuresIn(tr: seq<Call>): nat {
    if tr == [] then 0 else FailuresIn(tr[..|tr| - 1]) + if tr[|tr| - 1].RecordFailure? then 1 else 0
  }

  /** Nothing stands before the j-th call: from the start, or since a call that ends whatever stood. */
  ghost predicate AllOver(c: Config, tr: seq<Call>, j: nat)
    requires j <= |tr|
  {
    || j == 0
    || tr[j - 1].Reset?
    || (tr[j - 1].RecordSuccess? && forall i: nat | TrippedAt(c, tr, i) && i < j - 1 :: tr[j - 1].at >= Cooled(c, tr[i]))
  }

  lemma {:induction false} FewInARow(c: Config, tr: seq<Call>, j: nat, k: nat)
    requires j <= k <= |tr| && AllOver(c, tr, j)
    ensures FailuresInARow(tr[..k]) <= FailuresIn(tr[j..k])
    decreases k - j
  {
    if k > j {
      FewInARow(c, tr, j, k - 1);
      assert tr[..k][..k - 1] == tr[..k - 1] && tr[j..k][..k - 1 - j] == tr[j..k - 1];
    } else if j > 0 {
      assert tr[..j][..j - 1] == tr[..j - 1];
    }
  }

  lemma {:induction false} FewerBefore(tr: seq<Call>, j: nat, k: nat, l: nat)
    requires j <= k <= l <= |tr|
    ensures FailuresIn(tr[j..k]) <= FailuresIn(tr[j..l])
    decreases l - k
  {
    if k < l {
      FewerBefore(tr, j, k, l - 1);
      assert tr[j..l][..l - 1 - j] == tr[j..l - 1];
    }
  }

  lemma {:induction false} NoneStands(c: Config, tr: seq<Call>, j: nat, k: nat, i: nat)
    requires Ordered(tr) && j <= k <= |tr| && AllOver(c, tr, j) && FailuresIn(tr[j..k]) < c.threshold
    ensures !Stands(c, tr, i, k)
    decreases k - j
  {
    if k == j {
      if Stands(c, tr, i, j) && i < j - 1 {
        assert Ends(c, tr, i, j - 1);
      }
    } else if Stands(c, tr, i, k) {
      var last := k - 1;
      FewerBefore(tr, j, last, k);
      forall m: nat ensures !Stands(c, tr, m, last) {
        NoneStands(c, tr, j, last, m);
      }
      if i < last {
        StandsSnoc(c, tr, i, last);
      }
      TrippedExactly(c, tr, last);
      FewInARow(c, tr, j, k);
    }
  }

  /**
   A breaker that has closed grants: from the start, since a reset, or since a success after the
   cooldown, every submission is granted until `threshold` failures have been recorded.
   */
  lemma ClosedGrants(c: Config, tr: seq<Call>, j: nat, k: nat)
    requires Ordered(tr) && j <= k < |tr| && AllOver(c, tr, j) && tr[k].CanSubmit?
    requires FailuresIn(tr[j..k]) < c.threshold
    ensures AnswerAt(c, FRESH, tr, k) == Granted(true)
  {
    forall i: nat ensures !Stands(c, tr, i, k) {
      NoneStands(c, tr, j, k, i);
    }
    GrantedExactly(c, tr, k);
  }
}
