/** Polling in-flight batches, and acting on what the provider says. */
module StatusTrackers {
  import opened NorushTypes
  import opened Protocol
  import opened Stores
  import opened ResultIngester
  import opened Repackager
  import opened Pipelines
  import opened Polling
  import OrphanRecovery
  import CircuitBreakers

  /** In-memory poll state of a batch. */
  datatype PollState = PollState(preset: Preset, lastPolledAt: Option<int>, pollCount: nat)

  /** One `checkStatus` call. */
  datatype StatusCheck = StatusCheck(batch: Id, calledAt: int, returnedAt: int)

  /** What `checkStatus` may answer: it may throw, but it never says `pending`. */
  datatype StatusAnswer = Threw | Said(status: BatchStatus)

  // -- Spacing of the checks of one batch ------------------------------------------------------

  function ChecksOf(log: seq<StatusCheck>, b: Id): seq<StatusCheck> {
    if log == [] then []
    else ChecksOf(log[..|log| - 1], b) + if log[|log| - 1].batch == b then [log[|log| - 1]] else []
  }

  lemma ChecksSnoc(log: seq<StatusCheck>, c: StatusCheck, b: Id)
    ensures ChecksOf(log + [c], b) == ChecksOf(log, b) + if c.batch == b then [c] else []
  {
  }

  /** The columns of a batch that polling reads, which never change while it is in flight. */
  datatype PollColumns = PollColumns(preset: Preset, submittedAt: int, windowMs: int)

  function Context(k: PollColumns, polls: nat, lastPolledAt: int): PollContext {
    PollContext(k.submittedAt, Some(lastPolledAt), polls, k.submittedAt + k.windowMs)
  }

  /** Every check but the first waited at least the clamped interval after the one before it. */
  ghost predicate Spaced(cs: seq<StatusCheck>, k: PollColumns) {
    && (forall i | 0 <= i < |cs| :: cs[i].calledAt <= cs[i].returnedAt)
    && forall i, j | 0 <= i && j == i + 1 < |cs| ::
      (cs[j].calledAt - cs[i].returnedAt) as real >= ClampedInterval(k.preset, Context(k, j, cs[i].returnedAt), cs[j].calledAt)
  }

  /** The poll state remembers the checks made so far. */
  ghost predicate Remembers(p: PollState, cs: seq<StatusCheck>, k: PollColumns) {
    && p.preset == k.preset && p.pollCount == |cs|
    && p.lastPolledAt == if cs == [] then None else Some(cs[|cs| - 1].returnedAt)
  }

  /** A batch that was ever checked is remembered, or over for good. */
  ghost predicate PollOk(
      batches: map<Id, Batch>, polls: map<Id, PollState>, log: seq<StatusCheck>, columns: Id -> PollColumns, b: Id)
  {
    var cs := ChecksOf(log, b);
    && Spaced(cs, columns(b))
    && (b in polls ==> Remembers(polls[b], cs, columns(b)))
    && (cs != [] ==> b in batches && !batches[b].status.Pending?)
    && (cs != [] && b !in polls ==> b in batches && Terminal(batches[b].status))
  }

  ghost predicate PollsOk(
      batches: map<Id, Batch>, polls: map<Id, PollState>, log: seq<StatusCheck>, columns: Id -> PollColumns)
  {
    forall b :: PollOk(batches, polls, log, columns, b)
  }

  /** Terminal batches stay as they ended, and submitted ones never become pending again. */
  ghost predicate Onward(was: map<Id, Batch>, now: map<Id, Batch>) {
    forall b | b in was ::
      && b in now
      && (Terminal(was[b].status) ==> now[b].status == was[b].status)
      && (!was[b].status.Pending? ==> !now[b].status.Pending?)
  }

  lemma OnwardBy(w: Snapshot, a: Action)
    requires Enabled(w, a)
    ensures Onward(w.batches, Apply(w, a).batches)
  {
  }

  lemma StepOnward(w: Snapshot, w': Snapshot)
    requires Step(w, w')
    ensures Onward(w.batches, w'.batches)
  {
    if w' != w {
      var a :| Enabled(w, a) && w' == Apply(w, a);
      OnwardBy(w, a);
    }
  }

  lemma {:induction false} StepsOnward(tr: seq<Snapshot>, i: nat, j: nat)
    requires Steps(tr) && i <= j < |tr|
    ensures Onward(tr[i].batches, tr[j].batches)
    decreases j
  {
    if i < j {
      StepsOnward(tr, i, j - 1);
      assert HasNext(tr, j - 1);
      StepOnward(tr[j - 1], tr[j]);
    }
  }

  /**
   A batch that has ended is never in flight again, in any continuation of any run, crashes
   included: nothing re-triggers its pipeline once it was interrupted.
   */
  lemma EndedForGood(tr: seq<Snapshot>, i: nat, j: nat, b: Id)
    requires Run(tr) && i <= j < |tr| && b in tr[i].batches && Terminal(tr[i].batches[b].status)
    ensures b in tr[j].batches && tr[j].batches[b].status == tr[i].batches[b].status
    ensures !InFlight(tr[j].batches[b].status)
  {
    StepsOnward(tr, i, j);
  }

  /** A run that stops right after its batch was seen to have ended, before the result was ingested. */
  lemma InterruptedRun() returns (tr: seq<Snapshot>)
    ensures Run(tr)
    ensures var w := tr[|tr| - 1];
      0 in w.batches && w.batches[0].status.Ended? && Member(w, 0, 0) && w.requests[0].status.Batched?
  {
    tr := [Fresh()];
    tr := Then(tr, Enqueue(Request(0, Claude, "m", "u", 1, Queued, None, 0, 5)));
    tr := EndedWith(tr, 0, 7);
  }

  /** So a pipeline can be lost: the member is still `batched`, and the batch is never polled again. */
  lemma PipelineCanBeLost() returns (tr: seq<Snapshot>)
    ensures Run(tr)
    ensures var w := tr[|tr| - 1];
      0 in w.batches && w.batches[0].status.Ended? && Member(w, 0, 0) && w.requests[0].status.Batched?
    ensures forall longer: seq<Snapshot>, j | Run(longer) && tr <= longer && |tr| <= j < |longer| ::
              0 in longer[j].batches && !InFlight(longer[j].batches[0].status)
  {
    tr := InterruptedRun();
    forall longer: seq<Snapshot>, j | Run(longer) && tr <= longer && |tr| <= j < |longer|
      ensures 0 in longer[j].batches && !InFlight(longer[j].batches[0].status)
    {
      EndedForGood(longer, |tr| - 1, j, 0);
    }
  }

  lemma PollsOnward(
      was: map<Id, Batch>, now: map<Id, Batch>, polls: map<Id, PollState>, log: seq<StatusCheck>, columns: Id -> PollColumns)
    requires PollsOk(was, polls, log, columns) && Onward(was, now)
    ensures PollsOk(now, polls, log, columns)
  {
    forall b ensures PollOk(now, polls, log, columns, b) {
      assert PollOk(was, polls, log, columns, b);
    }
  }

  /** Whatever the other components do between two ticks, the poll states stay good. */
  lemma PollsSurvive(
      tr: seq<Snapshot>, i: nat, j: nat, polls: map<Id, PollState>, log: seq<StatusCheck>, columns: Id -> PollColumns)
    requires Steps(tr) && i <= j < |tr| && PollsOk(tr[i].batches, polls, log, columns)
    ensures PollsOk(tr[j].batches, polls, log, columns)
  {
    StepsOnward(tr, i, j);
    PollsOnward(tr[i].batches, tr[j].batches, polls, log, columns);
  }

  /** Two checks of one batch are at least ten seconds apart, and any k of them ten times k. */
  lemma TenSecondsApart(cs: seq<StatusCheck>, k: PollColumns, i: nat, j: nat)
    requires Spaced(cs, k) && i < j < |cs|
    ensures cs[j].calledAt - cs[i].calledAt >= cs[j].calledAt - cs[i].returnedAt >= 10_000 * (j - i)
    decreases j
  {
    ClampedRange(NextInterval(k.preset, Context(k, j, cs[j - 1].returnedAt), cs[j].calledAt));
    if i < j - 1 {
      TenSecondsApart(cs, k, i, j - 1);
    }
  }

  // -- The provider's streams ------------------------------------------------------------------

  predicate Reportable(requests: map<Id, Request>, b: Id, e: NorushResult) {
    && e.requestId in requests && requests[e.requestId].batchId == Some(b)
    && var q := requests[e.requestId];
      q.status.Batched? || q.status == RequestStatus.Processing || q == Settled(q, e.success)
  }

  /** A stream without what the provider is assumed not to say: ids it was not sent, or an id twice. */
  function Reported(requests: map<Id, Request>, b: Id, es: seq<NorushResult>): seq<NorushResult> {
    if es == [] then []
    else
      var init, e := Reported(requests, b, es[..|es| - 1]), es[|es| - 1];
      if Reportable(requests, b, e) && !Occurs(init, e.requestId) then init + [e] else init
  }

  lemma {:induction false} ReportedReplayable(w: Snapshot, b: Id, es: seq<NorushResult>)
    requires b in w.batches && w.batches[b].status.Ended?
    ensures Replayable(w, b, Reported(w.requests, b, es))
  {
    if es != [] {
      ReportedReplayable(w, b, es[..|es| - 1]);
    }
  }

  /** Nothing else is excluded: a stream that keeps to the assumption is taken as it is. */
  lemma {:induction false} ReplayableReported(w: Snapshot, b: Id, es: seq<NorushResult>)
    requires Replayable(w, b, es)
    ensures Reported(w.requests, b, es) == es
  {
    if es != [] {
      var init, e := es[..|es| - 1], es[|es| - 1];
      assert forall x | x in init :: x in es;
      ReplayableReported(w, b, init);
      assert e in es && Awaited(w, b, e);
    }
  }

  // -- One batch's turn --------------------------------------------------------------------

  predicate DueForPoll(p: PollState, k: PollColumns, now: int) {
    p.lastPolledAt.None?
    || (now - p.lastPolledAt.value) as real >= ClampedInterval(p.preset, Context(k, p.pollCount, p.lastPolledAt.value), now)
  }

  /** A batch is due when it was never polled, and whenever it was last polled ten minutes ago. */
  lemma DueByThen(p: PollState, k: PollColumns, now: int)
    requires p.lastPolledAt.Some? ==> now - p.lastPolledAt.value >= 600_000
    ensures DueForPoll(p, k, now)
  {
    if p.lastPolledAt.Some? {
      var context := Context(k, p.pollCount, p.lastPolledAt.value);
      ClampingIsIdentity(p.preset, context, now);
      PresetRange(p.preset, context, now);
    }
  }

  lemma PollsRemembered(
      batches: map<Id, Batch>, polls: map<Id, PollState>, log: seq<StatusCheck>, columns: Id -> PollColumns, b: Id)
    requires PollsOk(batches, polls, log, columns) && b in batches && InFlight(batches[b].status)
    requires b !in polls
    ensures PollsOk(batches, polls[b := PollState(columns(b).preset, None, 0)], log, columns)
  {
    var next := polls[b := PollState(columns(b).preset, None, 0)];
    forall c ensures PollOk(batches, next, log, columns, c) {
      assert PollOk(batches, polls, log, columns, c);
    }
  }

  function AfterCheck(p: PollState, returnedAt: int): PollState {
    p.(lastPolledAt := Some(returnedAt), pollCount := p.pollCount + 1)
  }

  lemma SpacedSnoc(cs: seq<StatusCheck>, check: StatusCheck, k: PollColumns, p: PollState)
    requires Spaced(cs, k) && Remembers(p, cs, k)
    requires DueForPoll(p, k, check.calledAt) && check.calledAt <= check.returnedAt
    ensures Spaced(cs + [check], k) && Remembers(AfterCheck(p, check.returnedAt), cs + [check], k)
  {
  }

  lemma CheckRecorded(
      batches: map<Id, Batch>, polls: map<Id, PollState>, log: seq<StatusCheck>, columns: Id -> PollColumns,
      check: StatusCheck)
    requires PollsOk(batches, polls, log, columns) && check.batch in batches && InFlight(batches[check.batch].status)
    requires check.batch in polls && DueForPoll(polls[check.batch], columns(check.batch), check.calledAt)
    requires check.calledAt <= check.returnedAt
    ensures PollsOk(batches, polls[check.batch := AfterCheck(polls[check.batch], check.returnedAt)], log + [check], columns)
  {
    var b := check.batch;
    var next := polls[b := AfterCheck(polls[b], check.returnedAt)];
    forall c ensures PollOk(batches, next, log + [check], columns, c) {
      assert PollOk(batches, polls, log, columns, c);
      ChecksSnoc(log, check, c);
      if c == b {
        SpacedSnoc(ChecksOf(log, b), check, columns(b), polls[b]);
      }
    }
  }

  /** There is an adapter for the batch, and it was never polled or is due. */
  predicate WouldCheck(
      batch: Batch, adapters: set<string>, polls: map<Id, PollState>, columns: Id -> PollColumns, now: int)
  {
    && HasAdapter(adapters, batch.provider, batch.apiKeyId)
    && (batch.id in polls ==> DueForPoll(polls[batch.id], columns(batch.id), now))
  }

  /** Only the poll state of batch `b` changed. */
  ghost predicate OthersLeft(was: map<Id, PollState>, now: map<Id, PollState>, b: Id) {
    forall c | c != b :: (c in was <==> c in now) && (c in was ==> now[c] == was[c])
  }

  /** The poll states of the batches not yet looked at are as the tick found them. */
  ghost predicate Untouched(was: map<Id, PollState>, now: map<Id, PollState>, handled: set<Id>) {
    forall c | c !in handled :: (c in was <==> c in now) && (c in was ==> now[c] == was[c])
  }

  /** What a provider will say: the status of a batch at a time, its results, and whether that stream breaks off. */
  datatype ProviderScript = ProviderScript(
    status: (Id, int) -> StatusAnswer, results: Id -> seq<NorushResult>, breaksOff: Id -> bool)

  /** An answer outside the adapters' range counts as an error. */
  function AnswerAt(script: ProviderScript, b: Id, at: int): StatusAnswer {
    var answer := script.status(b, at);
    if answer.Said? && answer.status.Pending? then Threw else answer
  }

  /** Exactly what a reported status does: nothing if it is not new, else it is written and handled. */
  ghost predicate Transitioned(
      was: Snapshot, now: Snapshot, batch: Batch, s: BatchStatus, adapters: set<string>, script: ProviderScript)
  {
    if s == batch.status then now == was
    else
      var seen := was.(batches := was.batches[batch.id := batch.(status := s)]);
      match s
      case Ended =>
        CompletedBy(seen, now, adapters, batch.id, Reported(seen.requests, batch.id, script.results(batch.id)),
                    script.breaksOff(batch.id))
      case Expired => ExpiredBy(seen, now, batch.id)
      case _ => now == seen
  }

  /** A status that takes effect is on record afterwards, and no other batch changes. */
  lemma StatusTakesEffect(
      was: Snapshot, now: Snapshot, batch: Batch, s: BatchStatus, adapters: set<string>, script: ProviderScript)
    requires batch.id in was.batches && was.batches[batch.id] == batch && InFlight(batch.status) && !s.Pending?
    requires Transitioned(was, now, batch, s, adapters, script)
    ensures batch.id in now.batches && now.batches[batch.id].status == s
    ensures forall c | c in was.batches && c != batch.id :: c in now.batches && now.batches[c] == was.batches[c]
  {
    if s != batch.status && s.Ended? {
      var seen := was.(batches := was.batches[batch.id := batch.(status := s)]);
      CompletedBatches(seen, now, adapters, batch.id, Reported(seen.requests, batch.id, script.results(batch.id)),
                       script.breaksOff(batch.id));
    }
  }

  /** A batch found expired leaves no member waiting. */
  lemma ExpiredSettles(
      was: Snapshot, now: Snapshot, batch: Batch, adapters: set<string>, script: ProviderScript)
    requires batch.id in was.batches && was.batches[batch.id] == batch && InFlight(batch.status)
    requires Transitioned(was, now, batch, BatchStatus.Expired, adapters, script)
    ensures now.requests.Keys == was.requests.Keys
    ensures forall r | r in was.requests && was.requests[r].batchId == Some(batch.id) ::
              var q := now.requests[r];
              !q.status.Batched? && !q.status.Processing? && !q.status.Failed? && !q.status.Expired?
  {
    NoneUnsettled(was.requests, now.requests, batch.id);
  }

  /** A batch found ended is settled, if what the provider reports covers it and is read to its end. */
  lemma EndedSettles(
      was: Snapshot, now: Snapshot, batch: Batch, adapters: set<string>, script: ProviderScript)
    returns (result: RepackageResult)
    requires batch.id in was.batches && was.batches[batch.id] == batch && InFlight(batch.status)
    requires Transitioned(was, now, batch, Ended, adapters, script)
    requires batch.providerBatchId.Some? && HasAdapter(adapters, batch.provider, batch.apiKeyId)
    requires !script.breaksOff(batch.id)
    requires forall r | r in was.requests && was.requests[r].batchId == Some(batch.id) ::
               Occurs(Reported(was.requests, batch.id, script.results(batch.id)), r)
    ensures PipelineSettled(was, now, batch.id, result)
  {
    var seen := was.(batches := was.batches[batch.id := batch.(status := Ended)]);
    ReportedReplayable(seen, batch.id, script.results(batch.id));
    assert Members(seen, batch.id) == Members(was, batch.id);
    result := CompletedSettles(seen, now, adapters, batch.id,
                               Reported(seen.requests, batch.id, script.results(batch.id)));
  }

  /** A batch's turn: when it was looked at, whether it was checked, and the states around it. */
  datatype Turn = Turn(batch: Batch, at: int, returnedAt: int, checked: bool, before: Snapshot, after: Snapshot)

  /** The checks made in these turns, in order. */
  function CheckLog(turns: seq<Turn>): seq<StatusCheck> {
    if turns == [] then []
    else
      var t := turns[|turns| - 1];
      CheckLog(turns[..|turns| - 1]) + if t.checked then [StatusCheck(t.batch.id, t.at, t.returnedAt)] else []
  }

  lemma CheckLogSnoc(turns: seq<Turn>, t: Turn)
    ensures CheckLog(turns + [t]) ==
              CheckLog(turns) + if t.checked then [StatusCheck(t.batch.id, t.at, t.returnedAt)] else []
  {
    assert (turns + [t])[..|turns|] == turns;
  }

  lemma LogSnoc(log: seq<StatusCheck>, turns: seq<Turn>, t: Turn)
    ensures log + CheckLog(turns + [t]) == (log + CheckLog(turns)) + CheckLog([t])
    ensures CheckLog([t]) == if t.checked then [StatusCheck(t.batch.id, t.at, t.returnedAt)] else []
  {
    CheckLogSnoc(turns, t);
    CheckLogSnoc([], t);
    assert [] + [t] == [t];
  }

  /** What is reported to the circuit breaker: a failure for each batch that was found to have failed. */
  function FailureReports(turns: seq<Turn>): seq<CircuitBreakers.Call> {
    if turns == [] then []
    else
      var t := turns[|turns| - 1];
      FailureReports(turns[..|turns| - 1])
      + if t.checked && t.batch.id in t.after.batches && t.after.batches[t.batch.id].status.Failed?
        then [CircuitBreakers.RecordFailure(t.returnedAt, t.returnedAt, t.returnedAt)] else []
  }

  lemma FailureReportsSnoc(turns: seq<Turn>, t: Turn)
    ensures FailureReports(turns + [t]) == FailureReports(turns) + FailureReports([t])
    ensures FailureReports([t]) ==
              if t.checked && t.batch.id in t.after.batches && t.after.batches[t.batch.id].status.Failed?
              then [CircuitBreakers.RecordFailure(t.returnedAt, t.returnedAt, t.returnedAt)] else []
  {
    assert (turns + [t])[..|turns|] == turns;
    assert [t][..0] == [];
  }

  /** And a success for each orphan recovered. */
  function SuccessReports(n: nat, at: int): seq<CircuitBreakers.Call> {
    if n == 0 then [] else SuccessReports(n - 1, at) + [CircuitBreakers.RecordSuccess(at)]
  }

  /** The turns lead from one state to the other. */
  ghost predicate Chained(turns: seq<Turn>, start: Snapshot, end: Snapshot) {
    if turns == [] then end == start
    else
      && turns[0].before == start && turns[|turns| - 1].after == end
      && forall i, j | 0 <= i && j == i + 1 < |turns| :: turns[i].after == turns[j].before
  }

  class StatusTracker {
    const store: Store
    const adapters: set<string>
    const columns: Id -> PollColumns
    const script: ProviderScript
    const orphanRecovery: OrphanRecovery.OrphanRecovery
    const circuitBreaker: CircuitBreakers.CircuitBreaker
    var pollStates: map<Id, PollState>
    var ticking: bool
    /** Every status check this process has made. */
    ghost var checks: seq<StatusCheck>

    constructor (
        store: Store, adapters: set<string>, columns: Id -> PollColumns, script: ProviderScript,
        orphanRecovery: OrphanRecovery.OrphanRecovery, circuitBreaker: CircuitBreakers.CircuitBreaker)
      requires orphanRecovery.store == store
      ensures this.store == store && this.orphanRecovery == orphanRecovery && this.circuitBreaker == circuitBreaker
      ensures !ticking && checks == [] && pollStates == map[]
      ensures PollsOk(store.batches, pollStates, checks, this.columns)
    {
      this.store, this.adapters, this.columns, this.script := store, adapters, columns, script;
      this.orphanRecovery, this.circuitBreaker := orphanRecovery, circuitBreaker;
      pollStates, ticking, checks := map[], false, [];
    }

    ghost predicate Tracking()
      reads this, store
    {
      PollsOk(store.batches, pollStates, checks, columns)
    }

    /** Whatever protocol steps were taken since the i-th state. */
    lemma StillTracking(i: nat)
      requires store.Sound() && i < |store.trace| && PollsOk(store.trace[i].batches, pollStates, checks, columns)
      ensures Tracking()
    {
      PollsSurvive(store.trace, i, |store.trace| - 1, pollStates, checks, columns);
    }

    method GetOrCreatePollState(b: Id) returns (p: PollState)
      requires Tracking() && b in store.batches && InFlight(store.batches[b].status)
      modifies `pollStates
      ensures Tracking() && b in pollStates && pollStates[b] == p
      ensures pollStates == if b in old(pollStates) then old(pollStates) else old(pollStates)[b := p]
      ensures b !in old(pollStates) ==> p.lastPolledAt.None?
    {
      if b !in pollStates {
        PollsRemembered(store.batches, pollStates, checks, columns, b);
        pollStates := pollStates[b := PollState(columns(b).preset, None, 0)];
      }
      p := pollStates[b];
    }

    /** So any two checks this process ever made of a batch were called at least ten seconds apart. */
    lemma ChecksApart(b: Id, i: nat, j: nat)
      requires Tracking() && i < j < |ChecksOf(checks, b)|
      ensures ChecksOf(checks, b)[j].calledAt - ChecksOf(checks, b)[i].calledAt >= 10_000 * (j - i)
    {
      assert PollOk(store.batches, pollStates, checks, columns, b);
      TenSecondsApart(ChecksOf(checks, b), columns(b), i, j);
    }

    /** Ask the provider; time passes. */
    method AskProvider(b: Id) returns (answer: StatusAnswer)
      requires store.Sound()
      modifies store`clock, `checks
      ensures store.Sound() && store.Advanced() && store.State() == old(store.State()) && store.trace == old(store.trace)
      ensures checks == old(checks) + [StatusCheck(b, old(store.clock), store.clock)]
      ensures answer == AnswerAt(script, b, old(store.clock))
    {
      var elapsed: int :| elapsed >= 0;
      ghost var calledAt := store.clock;
      answer := AnswerAt(script, b, store.clock);
      store.clock := store.clock + elapsed;
      checks := checks + [StatusCheck(b, calledAt, store.clock)];
    }

    /** The check itself, of a batch that is due: ask, and remember when. */
    method Check(b: Id) returns (answer: StatusAnswer)
      requires store.Sound() && Tracking() && b in store.batches && InFlight(store.batches[b].status)
      requires b in pollStates && DueForPoll(pollStates[b], columns(b), store.clock)
      modifies store`clock, `pollStates, `checks
      ensures store.Sound() && store.Advanced() && Tracking() && store.State() == old(store.State())
      ensures pollStates == old(pollStates)[b := AfterCheck(old(pollStates)[b], store.clock)]
      ensures checks == old(checks) + [StatusCheck(b, old(store.clock), store.clock)]
      ensures answer == AnswerAt(script, b, old(store.clock))
    {
      ghost var log, calledAt := checks, store.clock;
      answer := AskProvider(b);
      CheckRecorded(store.batches, pollStates, log, columns, StatusCheck(b, calledAt, store.clock));
      pollStates := pollStates[b := AfterCheck(pollStates[b], store.clock)];
    }

    /**
     Poll one in-flight batch if it is due. An in-flight batch always has a provider reference, so
     there is nothing to do about a missing one. Without an adapter nothing is recorded.
     */
    method Poll(batch: Batch) returns (checked: bool, answer: StatusAnswer)
      requires store.Sound() && Tracking()
      requires batch.id in store.batches && store.batches[batch.id] == batch && InFlight(batch.status)
      modifies store`clock, `pollStates, `checks
      ensures store.Sound() && store.Advanced() && Tracking() && store.State() == old(store.State())
      ensures batch.providerBatchId.Some?
      ensures OthersLeft(old(pollStates), pollStates, batch.id)
      ensures checked == WouldCheck(batch, adapters, old(pollStates), columns, old(store.clock))
      ensures var k := columns(batch.id);
        checked <==>
          && HasAdapter(adapters, batch.provider, batch.apiKeyId)
          && (batch.id in old(pollStates) && old(pollStates)[batch.id].lastPolledAt.Some? ==>
                var p := old(pollStates)[batch.id];
                (old(store.clock) - p.lastPolledAt.value) as real >=
                  ClampedInterval(p.preset, PollContext(k.submittedAt, p.lastPolledAt, p.pollCount, k.submittedAt + k.windowMs),
                                  old(store.clock)))
      ensures checks == if checked then old(checks) + [StatusCheck(batch.id, old(store.clock), store.clock)] else old(checks)
      ensures answer == if checked then AnswerAt(script, batch.id, old(store.clock)) else Threw
      ensures var said := script.status(batch.id, old(store.clock));
        answer == if checked && said.Said? && !said.status.Pending? then said else Threw
    {
      store.InFlightReferenced(batch.id);
      var p := GetOrCreatePollState(batch.id);
      checked, answer := false, Threw;
      if !DueForPoll(p, columns(batch.id), store.clock) {
        return;
      }
      if !HasAdapter(adapters, batch.provider, batch.apiKeyId) {
        return;
      }
      checked := true;
      answer := Check(batch.id);
    }

    /** A status the provider reports for the first time is written, and its handler runs to its end. */
    method ApplyStatusTransition(batch: Batch, newStatus: BatchStatus)
      requires store.Sound() && !newStatus.Pending?
      requires batch.id in store.batches && store.batches[batch.id] == batch && InFlight(batch.status)
      modifies store, circuitBreaker
      ensures store.Sound() && store.Advanced()
      ensures Transitioned(old(store.State()), store.State(), batch, newStatus, adapters, script)
      ensures newStatus.Failed? ==> store.clock == old(store.clock)
      ensures circuitBreaker.Fields() ==
                if newStatus.Failed?
                then CircuitBreakers.Step(circuitBreaker.config, old(circuitBreaker.Fields()),
                                          CircuitBreakers.RecordFailure(store.clock, store.clock, store.clock)).0
                else old(circuitBreaker.Fields())
    {
      if newStatus == batch.status {
        return;
      }
      store.CommitBatch(batch.id, (x: Batch) => x.(status := newStatus), ObserveStatus(batch.id, newStatus));
      match newStatus
      case Ended => Completed(batch.id);
      case Expired => var repackaged := OnBatchExpired(store, batch.id);
      case Failed => var justTripped := circuitBreaker.Failed(store.clock, store.clock, store.clock);
      case _ =>
    }

    /** batch:completed, with the stream the provider yields. */
    method Completed(b: Id)
      requires store.Sound() && b in store.batches && store.batches[b].status.Ended?
      modifies store
      ensures store.Sound() && store.Advanced()
      ensures CompletedBy(old(store.State()), store.State(), adapters, b,
                          Reported(old(store.requests), b, script.results(b)), script.breaksOff(b))
    {
      var stream := Reported(store.requests, b, script.results(b));
      ReportedReplayable(store.State(), b, script.results(b));
      var ingested, repackaged := OnBatchCompleted(store, adapters, b, stream, script.breaksOff(b));
    }

    /** The turn was taken as it should be: checked iff due, and the answer followed. */
    ghost predicate TurnOk(t: Turn, batch: Batch, polls: map<Id, PollState>, from: int, to: int) {
      && t.batch == batch && from <= t.at <= t.returnedAt <= to
      && t.checked == WouldCheck(batch, adapters, polls, columns, t.at)
      && if t.checked && AnswerAt(script, batch.id, t.at).Said?
         then Transitioned(t.before, t.after, batch, AnswerAt(script, batch.id, t.at).status, adapters, script)
         else t.after == t.before
    }

    /** One batch's turn in a tick. */
    method CheckBatch(batch: Batch) returns (ghost t: Turn)
      requires store.Sound() && Tracking()
      requires batch.id in store.batches && store.batches[batch.id] == batch && InFlight(batch.status)
      modifies store, circuitBreaker, `pollStates, `checks
      ensures store.Sound() && store.Advanced() && Tracking()
      ensures OnlyBatch(old(store.batches), store.batches, batch.id)
      ensures t.before == old(store.State()) && t.after == store.State()
      ensures TurnOk(t, batch, old(pollStates), old(store.clock), store.clock)
      ensures checks == old(checks) + CheckLog([t])
      ensures OthersLeft(old(pollStates), pollStates, batch.id)
      ensures circuitBreaker.Fields() ==
                CircuitBreakers.After(circuitBreaker.config, old(circuitBreaker.Fields()), FailureReports([t]))
    {
      ghost var was, at, breaker := store.State(), store.clock, circuitBreaker.Fields();
      var checked, answer := Poll(batch);
      ghost var returnedAt := store.clock;
      if answer.Said? {
        ApplyStatusTransition(batch, answer.status);
        TransitionOnward(was, store.State(), batch, answer.status, adapters, script);
        PollsOnward(was.batches, store.batches, pollStates, checks, columns);
      }
      t := Turn(batch, at, returnedAt, checked, was, store.State());
      LogSnoc([], [], t);
      ReportedOne(t, batch, answer, circuitBreaker.config, breaker);
    }

    /** What one turn reports. */
    lemma ReportedOne(
        t: Turn, batch: Batch, answer: StatusAnswer, c: CircuitBreakers.Config, breaker: CircuitBreakers.Breaker)
      requires t.batch == batch && InFlight(batch.status) && (answer.Said? ==> t.checked && !answer.status.Pending?)
      requires batch.id in t.before.batches && t.before.batches[batch.id] == batch
      requires if answer.Said? then Transitioned(t.before, t.after, batch, answer.status, adapters, script)
               else t.after == t.before
      ensures CircuitBreakers.After(c, breaker, FailureReports([t])) ==
                if answer.Said? && answer.status.Failed?
                then CircuitBreakers.Step(c, breaker,
                                          CircuitBreakers.RecordFailure(t.returnedAt, t.returnedAt, t.returnedAt)).0
                else breaker
    {
      FailureReportsSnoc([], t);
      if answer.Said? && answer.status.Ended? {
        var seen := t.before.(batches := t.before.batches[batch.id := batch.(status := answer.status)]);
        CompletedBatches(seen, t.after, adapters, batch.id, Reported(seen.requests, batch.id, script.results(batch.id)),
                         script.breaksOff(batch.id));
      }
      if answer.Said? && answer.status.Failed? {
        var call := CircuitBreakers.RecordFailure(t.returnedAt, t.returnedAt, t.returnedAt);
        assert [call][..0] == [];
      }
    }

    /** Forget the batches that were not in flight any more. */
    method CleanupPollStates(inFlight: seq<Batch>)
      requires Tracking()
      requires forall b | b in store.batches && !store.batches[b].status.Pending? && b !in OrphanRecovery.BatchIds(inFlight) ::
                 Terminal(store.batches[b].status)
      modifies `pollStates
      ensures Tracking()
      ensures pollStates.Keys == old(pollStates).Keys * OrphanRecovery.BatchIds(inFlight)
    {
      var inFlightIds := OrphanRecovery.BatchIds(inFlight);
      pollStates := map b | b in pollStates && b in inFlightIds :: pollStates[b];
      forall b ensures PollOk(store.batches, pollStates, checks, columns, b) {
        assert PollOk(store.batches, old(pollStates), checks, columns, b);
      }
    }

    /** Every batch of `rows` had its turn, in order, within [from, to], with the poll states the tick found. */
    ghost predicate TurnsTaken(
        turns: seq<Turn>, rows: seq<Batch>, polls: map<Id, PollState>, from: int, to: int, start: Snapshot, end: Snapshot)
    {
      && |turns| == |rows| && (forall i | 0 <= i < |rows| :: TurnOk(turns[i], rows[i], polls, from, to))
      && Chained(turns, start, end)
    }

    /**
     What a tick does for one in-flight batch: it is checked exactly when an adapter is found and it was
     never polled or has waited its interval; what the provider says, unless it is no status at all, then
     takes effect; else nothing happens.
     */
    lemma TurnTold(
        turns: seq<Turn>, rows: seq<Batch>, polls: map<Id, PollState>, from: int, to: int, start: Snapshot, end: Snapshot,
        i: nat)
      requires TurnsTaken(turns, rows, polls, from, to, start, end) && i < |rows|
      ensures |turns| == |rows| && turns[i].batch == rows[i] && from <= turns[i].at <= turns[i].returnedAt <= to
      ensures var t, b, k := turns[i], rows[i], columns(rows[i].id);
        && (t.checked <==>
              && HasAdapter(adapters, b.provider, b.apiKeyId)
              && (b.id in polls && polls[b.id].lastPolledAt.Some? ==>
                    var p := polls[b.id];
                    (t.at - p.lastPolledAt.value) as real >=
                      ClampedInterval(p.preset, PollContext(k.submittedAt, p.lastPolledAt, p.pollCount, k.submittedAt + k.windowMs),
                                      t.at)))
        && var said := script.status(b.id, t.at);
           if t.checked && said.Said? && !said.status.Pending?
           then Transitioned(t.before, t.after, b, said.status, adapters, script)
           else t.after == t.before
    {
      assert TurnOk(turns[i], rows[i], polls, from, to);
    }

    /** Where the loop over the in-flight batches stands, after those of `rows`. */
    ghost predicate CheckedSoFar(
        was: Snapshot, polls: map<Id, PollState>, log: seq<StatusCheck>, from: int, rows: seq<Batch>, turns: seq<Turn>)
      reads this, store
    {
      && StillOver(was.batches, store.batches, rows)
      && Untouched(polls, pollStates, OrphanRecovery.BatchIds(rows))
      && TurnsTaken(turns, rows, polls, from, store.clock, was, store.State())
      && checks == log + CheckLog(turns)
    }

    /** The next turn. */
    method CheckNext(
        row: Batch, ghost done: seq<Batch>, ghost was: Snapshot, ghost polls: map<Id, PollState>,
        ghost log: seq<StatusCheck>, ghost from: int, ghost turns: seq<Turn>)
      returns (ghost t: Turn)
      requires store.Sound() && Tracking() && from <= store.clock
      requires FetchedFrom([row], was.batches)
      requires row.id !in OrphanRecovery.BatchIds(done) && CheckedSoFar(was, polls, log, from, done, turns)
      modifies store, circuitBreaker, `pollStates, `checks
      ensures store.Sound() && store.Advanced() && Tracking()
      ensures CheckedSoFar(was, polls, log, from, done + [row], turns + [t])
      ensures circuitBreaker.Fields() ==
                CircuitBreakers.After(circuitBreaker.config, old(circuitBreaker.Fields()), FailureReports([t]))
    {
      ghost var polls1, mid, at := pollStates, store.batches, store.clock;
      t := CheckBatch(row);
      UntouchedSnoc(polls, polls1, pollStates, done, row);
      StillOverSnoc(was.batches, mid, store.batches, done, row);
      TurnSnoc(done, row, polls, polls1, turns, t, from, at, store.clock, was);
      LogSnoc(log, turns, t);
    }

    /** Each in-flight batch has its turn, as it was fetched. */
    method CheckAll(inFlight: seq<Batch>) returns (ghost turns: seq<Turn>)
      requires store.Sound() && Tracking() && AscendingBatches(inFlight)
      requires FetchedFrom(inFlight, store.batches)
      modifies store, circuitBreaker, `pollStates, `checks
      ensures store.Sound() && store.Advanced() && Tracking()
      ensures StillOver(old(store.batches), store.batches, inFlight)
      ensures TurnsTaken(turns, inFlight, old(pollStates), old(store.clock), store.clock, old(store.State()), store.State())
      ensures checks == old(checks) + CheckLog(turns)
      ensures circuitBreaker.Fields() ==
                CircuitBreakers.After(circuitBreaker.config, old(circuitBreaker.Fields()), FailureReports(turns))
    {
      turns := [];
      ghost var was, polls, log, from := store.State(), pollStates, checks, store.clock;
      ghost var c, breaker := circuitBreaker.config, circuitBreaker.Fields();
      for i := 0 to |inFlight|
        invariant store.Sound() && store.Advanced() && Tracking()
        invariant CheckedSoFar(was, polls, log, from, inFlight[..i], turns)
        invariant circuitBreaker.Fields() == CircuitBreakers.After(c, breaker, FailureReports(turns))
      {
        NextFetched(inFlight, i, was.batches);
        var t := CheckNext(inFlight[i], inFlight[..i], was, polls, log, from, turns);
        FailureReportsSnoc(turns, t);
        CircuitBreakers.AfterSplit(c, breaker, FailureReports(turns), FailureReports([t]));
        turns := turns + [t];
      }
      assert inFlight[..|inFlight|] == inFlight;
    }

    /** A turn taken later, of a batch whose poll state no earlier turn touched. */
    lemma TurnWithin(
        t: Turn, batch: Batch, polls: map<Id, PollState>, polls1: map<Id, PollState>, from: int, at: int, to: int, end: int)
      requires from <= at && to <= end && TurnOk(t, batch, polls1, at, to)
      requires (batch.id in polls <==> batch.id in polls1) && (batch.id in polls ==> polls1[batch.id] == polls[batch.id])
      ensures TurnOk(t, batch, polls, from, end)
    {
    }

    lemma ChainedSnoc(turns: seq<Turn>, t: Turn, start: Snapshot)
      requires Chained(turns, start, t.before)
      ensures Chained(turns + [t], start, t.after)
    {
    }

    lemma TurnSnoc(
        rows: seq<Batch>, row: Batch, polls: map<Id, PollState>, polls1: map<Id, PollState>, turns: seq<Turn>, t: Turn,
        from: int, at: int, to: int, start: Snapshot)
      requires from <= at <= to && TurnsTaken(turns, rows, polls, from, at, start, t.before)
      requires row.id !in OrphanRecovery.BatchIds(rows) && Untouched(polls, polls1, OrphanRecovery.BatchIds(rows))
      requires TurnOk(t, row, polls1, at, to)
      ensures TurnsTaken(turns + [t], rows + [row], polls, from, to, start, t.after)
    {
      ChainedSnoc(turns, t, start);
      TurnWithin(t, row, polls, polls1, from, at, to, to);
      forall k | 0 <= k < |rows| + 1 ensures TurnOk((turns + [t])[k], (rows + [row])[k], polls, from, to) {
        if k < |rows| {
          TurnWithin(turns[k], rows[k], polls, polls, from, from, at, to);
        }
      }
    }

    /**
     One cycle: recover orphans, then give every batch that is in flight after that its turn, the
     batches just recovered included, then forget the others. The checks this process makes of a
     batch stay spaced (`ChecksApart`), and batches still pending after recovery are left alone.
     */
    method DoTick()
      returns (ghost recovered: OrphanRecovery.Stamped, ghost counts: (nat, nat), ghost inFlight: seq<Batch>,
               ghost turns: seq<Turn>, ghost reportedAt: int)
      requires store.Sound() && Tracking() && orphanRecovery.store == store
      modifies store, circuitBreaker, `pollStates, `checks, orphanRecovery`inFlightRecoveryBatchIds
      ensures store.Sound() && store.Advanced() && Tracking()
      ensures RecoveredFrom(old(orphanRecovery.Now()), recovered, old(store.clock), old(orphanRecovery.Triable(store.batches)),
                            counts)
      ensures forall b :: b in inFlight <==> b.id in recovered.w.batches && recovered.w.batches[b.id] == b && InFlight(b.status)
      ensures TurnsTaken(turns, inFlight, old(pollStates), old(store.clock), store.clock, recovered.w, store.State())
      ensures checks == old(checks) + CheckLog(turns)
      ensures OrphanRecovery.PendingKept(recovered.w.batches, store.batches)
      ensures circuitBreaker.Fields() ==
                CircuitBreakers.After(circuitBreaker.config, old(circuitBreaker.Fields()),
                                      SuccessReports(counts.0, reportedAt) + FailureReports(turns))
    {
      counts := RecoverOrphans();
      recovered, reportedAt := orphanRecovery.Now(), store.clock;
      var fetched := store.GetInFlightBatches();
      inFlight := fetched;
      turns := PollInFlight(fetched, old(store.clock));
      StillPending(recovered.w.batches, store.batches, inFlight);
      CircuitBreakers.AfterSplit(circuitBreaker.config, old(circuitBreaker.Fields()), SuccessReports(counts.0, reportedAt),
                                 FailureReports(turns));
    }

    /** What the recovery pass at the start of a tick did. */
    ghost predicate RecoveredFrom(
        was: OrphanRecovery.Stamped, now: OrphanRecovery.Stamped, at: int, tries: set<Id>, counts: (nat, nat))
    {
      OrphanRecovery.PassMade(was, now, at - orphanRecovery.gracePeriodMs, tries, OrphanRecovery.PendingIds(was.w.batches),
                              counts.0, counts.1)
    }

    /** The recovery pass, reported to the circuit breaker. */
    method RecoverOrphans() returns (ghost counts: (nat, nat))
      requires store.Sound() && Tracking() && orphanRecovery.store == store
      modifies store, circuitBreaker, orphanRecovery`inFlightRecoveryBatchIds
      ensures store.Sound() && store.Advanced() && Tracking()
      ensures RecoveredFrom(old(orphanRecovery.Now()), orphanRecovery.Now(), old(store.clock),
                            old(orphanRecovery.Triable(store.batches)), counts)
      ensures circuitBreaker.Fields() ==
                CircuitBreakers.After(circuitBreaker.config, old(circuitBreaker.Fields()), SuccessReports(counts.0, store.clock))
    {
      ghost var before := |store.trace| - 1;
      var recovered, failed := orphanRecovery.Recover();
      StillTracking(before);
      ReportRecovered(recovered);
      counts := (recovered, failed);
    }

    /** Recovered orphans are successful submissions. */
    method ReportRecovered(recovered: nat)
      modifies circuitBreaker
      ensures circuitBreaker.Fields() ==
                CircuitBreakers.After(circuitBreaker.config, old(circuitBreaker.Fields()), SuccessReports(recovered, store.clock))
    {
      for i := 0 to recovered
        invariant circuitBreaker.Fields() ==
                    CircuitBreakers.After(circuitBreaker.config, old(circuitBreaker.Fields()), SuccessReports(i, store.clock))
      {
        circuitBreaker.Succeeded(store.clock);
        var reports := SuccessReports(i, store.clock);
        assert (reports + [CircuitBreakers.RecordSuccess(store.clock)])[..|reports|] == reports;
      }
    }

    method PollInFlight(inFlight: seq<Batch>, ghost from: int) returns (ghost turns: seq<Turn>)
      requires store.Sound() && Tracking() && AscendingBatches(inFlight) && from <= store.clock
      requires forall b :: b in inFlight <==> b.id in store.batches && store.batches[b.id] == b && InFlight(b.status)
      modifies store, circuitBreaker, `pollStates, `checks
      ensures store.Sound() && store.Advanced() && Tracking()
      ensures StillOver(old(store.batches), store.batches, inFlight)
      ensures TurnsTaken(turns, inFlight, old(pollStates), from, store.clock, old(store.State()), store.State())
      ensures checks == old(checks) + CheckLog(turns)
      ensures circuitBreaker.Fields() ==
                CircuitBreakers.After(circuitBreaker.config, old(circuitBreaker.Fields()), FailureReports(turns))
      ensures pollStates.Keys <= OrphanRecovery.BatchIds(inFlight)
    {
      ghost var fetched, polls, at, was := store.batches, pollStates, store.clock, store.State();
      turns := CheckAll(inFlight);
      LeftOver(fetched, store.batches, inFlight);
      CleanupPollStates(inFlight);
      TurnsEarlier(turns, inFlight, polls, from, at, store.clock, was, store.State());
    }

    lemma TurnsEarlier(
        turns: seq<Turn>, rows: seq<Batch>, polls: map<Id, PollState>, from: int, at: int, to: int, start: Snapshot,
        end: Snapshot)
      requires from <= at && TurnsTaken(turns, rows, polls, at, to, start, end)
      ensures TurnsTaken(turns, rows, polls, from, to, start, end)
    {
      forall i | 0 <= i < |rows| ensures TurnOk(turns[i], rows[i], polls, from, to) {
        assert TurnOk(turns[i], rows[i], polls, at, to);
      }
    }

    /** A tick that finds another one running does nothing; otherwise it is a cycle as described at `DoTick`. */
    method Tick()
      returns (ghost recovered: OrphanRecovery.Stamped, ghost counts: (nat, nat), ghost inFlight: seq<Batch>,
               ghost turns: seq<Turn>, ghost reportedAt: int)
      requires store.Sound() && Tracking() && orphanRecovery.store == store
      modifies store, circuitBreaker, `pollStates, `checks, `ticking, orphanRecovery`inFlightRecoveryBatchIds
      ensures store.Sound() && store.Advanced() && Tracking() && ticking == old(ticking)
      ensures old(ticking) ==> store.State() == old(store.State()) && checks == old(checks)
      ensures !old(ticking) ==>
                RecoveredFrom(old(orphanRecovery.Now()), recovered, old(store.clock),
                              old(orphanRecovery.Triable(store.batches)), counts)
      ensures !old(ticking) ==>
                && (forall b ::
                      b in inFlight <==> b.id in recovered.w.batches && recovered.w.batches[b.id] == b && InFlight(b.status))
                && TurnsTaken(turns, inFlight, old(pollStates), old(store.clock), store.clock, recovered.w, store.State())
                && checks == old(checks) + CheckLog(turns)
                && OrphanRecovery.PendingKept(recovered.w.batches, store.batches)
      ensures circuitBreaker.Fields() ==
                CircuitBreakers.After(circuitBreaker.config, old(circuitBreaker.Fields()),
                                      SuccessReports(counts.0, reportedAt) + FailureReports(turns))
    {
      if ticking {
        recovered, counts, inFlight, turns, reportedAt := orphanRecovery.Now(), (0, 0), [], [], 0;
        return;
      }
      ticking := true;
      recovered, counts, inFlight, turns, reportedAt := DoTick();
      ticking := false;
    }
  }

  lemma OrphanIdsSnoc(rows: seq<Batch>, row: Batch)
    ensures OrphanRecovery.BatchIds(rows + [row]) == OrphanRecovery.BatchIds(rows) + {row.id}
  {
  }

  /** In-flight batches, as the store has them. */
  ghost predicate FetchedFrom(rows: seq<Batch>, batches: map<Id, Batch>) {
    forall b | b in rows :: b.id in batches && batches[b.id] == b && InFlight(b.status)
  }

  lemma NextFetched(rows: seq<Batch>, i: nat, batches: map<Id, Batch>)
    requires AscendingBatches(rows) && FetchedFrom(rows, batches) && i < |rows|
    ensures FetchedFrom([rows[i]], batches) && rows[i].id !in OrphanRecovery.BatchIds(rows[..i])
    ensures rows[..i + 1] == rows[..i] + [rows[i]]
  {
    OrphanRecovery.NextPending(rows, i);
  }

  lemma UntouchedSnoc(
      polls: map<Id, PollState>, polls1: map<Id, PollState>, polls2: map<Id, PollState>, rows: seq<Batch>, row: Batch)
    requires Untouched(polls, polls1, OrphanRecovery.BatchIds(rows)) && OthersLeft(polls1, polls2, row.id)
    ensures Untouched(polls, polls2, OrphanRecovery.BatchIds(rows + [row]))
  {
    OrphanIdsSnoc(rows, row);
  }

  lemma StillOverSnoc(was: map<Id, Batch>, mid: map<Id, Batch>, now: map<Id, Batch>, rows: seq<Batch>, row: Batch)
    requires StillOver(was, mid, rows) && OnlyBatch(mid, now, row.id)
    ensures StillOver(was, now, rows + [row])
  {
    OrphanIdsSnoc(rows, row);
  }

  lemma CompletedBatches(
      was: Snapshot, now: Snapshot, adapters: set<string>, b: Id, stream: seq<NorushResult>, broken: bool)
    requires CompletedBy(was, now, adapters, b, stream, broken)
    ensures CountersOnly(was.batches, now.batches, b)
  {
    IngestCountersOnly(was, b, stream);
  }

  lemma SeenOnward(was: map<Id, Batch>, now: map<Id, Batch>, batch: Batch, s: BatchStatus)
    requires batch.id in was && was[batch.id] == batch && InFlight(batch.status) && !s.Pending?
    requires CountersOnly(was[batch.id := batch.(status := s)], now, batch.id)
    ensures Onward(was, now) && OnlyBatch(was, now, batch.id)
  {
  }

  lemma TransitionOnward(
      was: Snapshot, now: Snapshot, batch: Batch, s: BatchStatus, adapters: set<string>, script: ProviderScript)
    requires batch.id in was.batches && was.batches[batch.id] == batch && InFlight(batch.status) && !s.Pending?
    requires Transitioned(was, now, batch, s, adapters, script)
    ensures Onward(was.batches, now.batches) && OnlyBatch(was.batches, now.batches, batch.id)
  {
    if s != batch.status {
      var seen := was.(batches := was.batches[batch.id := batch.(status := s)]);
      if s.Ended? {
        CompletedBatches(seen, now, adapters, batch.id, Reported(seen.requests, batch.id, script.results(batch.id)),
                         script.breaksOff(batch.id));
      }
      SeenOnward(was.batches, now.batches, batch, s);
    }
  }

  /** Batches that were not fetched are as they were. */
  ghost predicate StillOver(was: map<Id, Batch>, now: map<Id, Batch>, inFlight: seq<Batch>) {
    now.Keys == was.Keys && forall b | b in was && b !in OrphanRecovery.BatchIds(inFlight) :: now[b] == was[b]
  }

  lemma LeftOver(was: map<Id, Batch>, now: map<Id, Batch>, inFlight: seq<Batch>)
    requires StillOver(was, now, inFlight) && forall b | b in was :: was[b].id == b
    requires forall b :: b in inFlight <==> b.id in was && was[b.id] == b && InFlight(b.status)
    ensures forall b | b in now && !now[b].status.Pending? && b !in OrphanRecovery.BatchIds(inFlight) ::
              Terminal(now[b].status)
  {
  }

  /** So pending batches, which are never fetched, stay as they were. */
  lemma StillPending(was: map<Id, Batch>, now: map<Id, Batch>, inFlight: seq<Batch>)
    requires StillOver(was, now, inFlight)
    requires forall b :: b in inFlight <==> b.id in was && was[b.id] == b && InFlight(b.status)
    ensures OrphanRecovery.PendingKept(was, now)
  {
    forall b | OrphanRecovery.PendingIn(was, b) ensures b in now && now[b] == was[b] {
      assert b !in OrphanRecovery.BatchIds(inFlight);
    }
  }
}
