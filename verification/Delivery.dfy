/** Delivering results to callbacks and webhooks, with bounded retries and exponential backoff. */
module Deliveries {
  import opened NorushTypes
  import opened Arithmetic

  const BASE_DELAY_MS := 10_000
  const MAX_DELAY_MS := 600_000
  const DEFAULT_MAX_DELIVERY_ATTEMPTS := 5

  datatype DeliveryStatus = Pending | Delivered | Failed | NoTarget

  /** The delivery columns of a result; result ids grow with creation time. */
  datatype Row = Row(
    id: Id, requestId: Id, status: DeliveryStatus, attempts: int, maxAttempts: int, nextDeliveryAt: Option<int>)

  /** One invocation of a result's targets. */
  datatype Attempt = Attempt(result: Id, startedAt: int, endedAt: int, ok: bool)

  function Delay(attempt: nat): int
    requires attempt >= 1
  {
    Min(BASE_DELAY_MS * Pow2(attempt - 1), MAX_DELAY_MS)
  }

  /** The per-result limit; 0 means the worker's default. */
  function Limit(row: Row, workerDefault: int): int {
    if row.maxAttempts == 0 then workerDefault else row.maxAttempts
  }

  predicate Undelivered(row: Row) { row.status.Pending? || row.status.Failed? }

  predicate Due(row: Row, now: int, workerDefault: int) {
    && !(row.nextDeliveryAt.Some? && row.nextDeliveryAt.value > now)
    && row.attempts < Limit(row, workerDefault)
  }

  // -- What holds of a result and its attempts -------------------------------------------------

  /** The attempts made for one result, in order. */
  function History(log: seq<Attempt>, id: Id): seq<Attempt> {
    if log == [] then []
    else History(log[..|log| - 1], id) + if log[|log| - 1].result == id then [log[|log| - 1]] else []
  }

  lemma HistorySnoc(log: seq<Attempt>, a: Attempt, id: Id)
    ensures History(log + [a], id) == History(log, id) + if a.result == id then [a] else []
  {
  }

  /** Attempt k + 1 starts no earlier than the backoff after failure k. */
  ghost predicate Paced(h: seq<Attempt>) {
    && (forall k | 0 <= k < |h| :: h[k].startedAt <= h[k].endedAt)
    && (forall k, l | 0 <= k && l == k + 1 < |h| :: h[l].startedAt >= h[k].endedAt + Delay(l))
  }

  /** Only the last attempt can have succeeded, and exactly then the result is delivered. */
  ghost predicate Consistent(row: Row, h: seq<Attempt>, workerDefault: int) {
    && Paced(h) && (forall k | 0 <= k < |h| - 1 :: !h[k].ok)
    && (row.status.Delivered? <==> h != [] && h[|h| - 1].ok)
    && (h == [] || |h| <= Limit(row, workerDefault))
    && (row.status.Failed? ==> row.attempts >= Limit(row, workerDefault))
    && (row.status.Pending? ==>
          && row.attempts == |h|
          && (h != [] ==> row.nextDeliveryAt == Some(h[|h| - 1].endedAt + Delay(|h|))))
  }

  /** What one tick does with a result it fetched. */
  ghost predicate Handled(
      was: Row, now: Row, h: seq<Attempt>, later: seq<Attempt>, tickAt: int, requests: map<Id, bool>, listening: bool,
      workerDefault: int)
  {
    if (was.nextDeliveryAt.Some? && tickAt < was.nextDeliveryAt.value)
       || was.attempts >= (if was.maxAttempts == 0 then workerDefault else was.maxAttempts)
    then now == was && later == h
    else if was.requestId !in requests then
      now == was.(status := DeliveryStatus.Failed, attempts := Limit(was, workerDefault)) && later == h
    else if !listening && !requests[was.requestId] then now == was.(status := NoTarget) && later == h
    else
      && |later| == |h| + 1 && later[..|h|] == h
      && tickAt <= later[|h|].startedAt <= later[|h|].endedAt
      && was.attempts >= 0
      && var a, failures := later[|h|], was.attempts + 1;
        now ==
          if a.ok then was.(status := Delivered)
          else if failures >= (if was.maxAttempts == 0 then workerDefault else was.maxAttempts)
          then was.(status := DeliveryStatus.Failed, attempts := failures)
          else was.(attempts := failures, nextDeliveryAt := Some(a.endedAt + Delay(failures)))
  }

  lemma HandledKeeps(
      was: Row, now: Row, h: seq<Attempt>, later: seq<Attempt>, tickAt: int, requests: map<Id, bool>, listening: bool,
      workerDefault: int)
    requires Consistent(was, h, workerDefault) && Undelivered(was)
    requires Handled(was, now, h, later, tickAt, requests, listening, workerDefault)
    ensures Consistent(now, later, workerDefault)
  {
  }

  ghost predicate RowOk(results: map<Id, Row>, log: seq<Attempt>, workerDefault: int, r: Id) {
    r in results ==> Consistent(results[r], History(log, r), workerDefault)
  }

  ghost predicate AllOk(results: map<Id, Row>, log: seq<Attempt>, workerDefault: int) {
    forall r :: RowOk(results, log, workerDefault, r)
  }

  // -- The store's side --------------------------------------------------------------------

  class DeliveryStore {
    var results: map<Id, Row>
    /** Known requests, and whether they carry a callback URL. */
    var requests: map<Id, bool>
    var clock: int
    var nextResultId: Id
    /** Every attempt ever made. */
    ghost var log: seq<Attempt>

    constructor ()
      ensures results == map[] && log == [] && forall d :: Valid(d)
    {
      results, requests, clock, nextResultId, log := map[], map[], 0, 0, [];
    }

    ghost predicate Keyed()
      reads this
    {
      forall r | r in results :: r < nextResultId && results[r].id == r
    }

    ghost predicate Valid(workerDefault: int)
      reads this
    {
      Keyed() && LogKnown(log, results) && AllOk(results, log, workerDefault)
    }

    /** A freshly ingested result. */
    method AddResult(requestId: Id, maxAttempts: int, ghost workerDefault: int) returns (id: Id)
      requires Valid(workerDefault)
      modifies this
      ensures Valid(workerDefault) && log == old(log)
      ensures id !in old(results)
      ensures results == old(results)[id := Row(id, requestId, DeliveryStatus.Pending, 0, maxAttempts, None)]
    {
      id := nextResultId;
      nextResultId := nextResultId + 1;
      NoHistory(log, id);
      ghost var was := results;
      results := results[id := Row(id, requestId, DeliveryStatus.Pending, 0, maxAttempts, None)];
      forall r ensures RowOk(results, log, workerDefault, r) {
        assert RowOk(was, log, workerDefault, r);
      }
    }

    /** The oldest results that are pending or failed. */
    method GetUndeliveredResults(limit: nat) returns (rows: seq<Row>)
      requires Keyed()
      ensures OldestUndelivered(rows, results, limit)
    {
      rows := [];
      for i := 0 to nextResultId
        invariant Ascending(rows) && AsFetched(rows, results) && forall q | q in rows :: q.id < i
        invariant forall r | r < i && r in results && Undelivered(results[r]) :: results[r] in rows
      {
        if i in results && Undelivered(results[i]) {
          rows := rows + [results[i]];
        }
      }
      if limit < |rows| {
        FirstRows(rows, results, limit);
        rows := rows[..limit];
      }
    }
  }

  /** The first rows of all the undelivered ones are the oldest. */
  lemma FirstRows(all: seq<Row>, results: map<Id, Row>, limit: nat)
    requires limit < |all| && Ascending(all) && AsFetched(all, results)
    requires forall r | r in results :: results[r].id == r
    requires forall r | r in results && Undelivered(results[r]) :: results[r] in all
    ensures OldestUndelivered(all[..limit], results, limit)
  {
    forall r | r in results && Undelivered(results[r]) && results[r] !in all[..limit]
      ensures forall q | q in all[..limit] :: q.id < r
    {
      var k :| 0 <= k < |all| && all[k] == results[r];
    }
  }

  lemma {:induction false} NoHistory(log: seq<Attempt>, id: Id)
    requires forall a | a in log :: a.result != id
    ensures History(log, id) == []
  {
    if log != [] {
      NoHistory(log[..|log| - 1], id);
    }
  }

  ghost predicate Ascending(rows: seq<Row>) { forall i, j | 0 <= i < j < |rows| :: rows[i].id < rows[j].id }

  ghost predicate AsFetched(rows: seq<Row>, results: map<Id, Row>) {
    forall q | q in rows :: q.id in results && results[q.id] == q && (q.status.Pending? || q.status.Failed?)
  }

  ghost predicate OldestUndelivered(rows: seq<Row>, results: map<Id, Row>, limit: nat) {
    && |rows| <= limit && Ascending(rows) && AsFetched(rows, results)
    && (forall r | r in results && (results[r].status.Pending? || results[r].status.Failed?) && results[r] !in rows ::
          |rows| == limit && forall q | q in rows :: q.id < r)
  }

  // -- The worker --------------------------------------------------------------------------

  function RowIds(rows: seq<Row>): set<Id> { set q | q in rows :: q.id }

  /** A tick has handled `handled` of the results it fetched and left the others alone. */
  ghost predicate TickedOver(
      was: map<Id, Row>, now: map<Id, Row>, log: seq<Attempt>, later: seq<Attempt>, handled: set<Id>, tickAt: int,
      requests: map<Id, bool>, listening: bool, workerDefault: int)
  {
    && now.Keys == was.Keys
    && forall r :: TickedRow(was, now, log, later, handled, tickAt, requests, listening, workerDefault, r)
  }

  ghost predicate TickedRow(
      was: map<Id, Row>, now: map<Id, Row>, log: seq<Attempt>, later: seq<Attempt>, handled: set<Id>, tickAt: int,
      requests: map<Id, bool>, listening: bool, workerDefault: int, r: Id)
  {
    r in was && r in now ==>
      if r in handled
      then Handled(was[r], now[r], History(log, r), History(later, r), tickAt, requests, listening, workerDefault)
      else now[r] == was[r] && History(later, r) == History(log, r)
  }

  /**
   So of the results fetched exactly those are attempted whose time has come, within their limit, if
   their request is there and somebody listens; the others are not attempted.
   */
  lemma AttemptedExactly(
      was: map<Id, Row>, now: map<Id, Row>, log: seq<Attempt>, later: seq<Attempt>, handled: set<Id>, tickAt: int,
      requests: map<Id, bool>, listening: bool, workerDefault: int, r: Id)
    requires TickedOver(was, now, log, later, handled, tickAt, requests, listening, workerDefault) && r in was
    ensures |History(later, r)| ==
              |History(log, r)|
              + if && r in handled && was[r].attempts < Limit(was[r], workerDefault)
                   && (was[r].nextDeliveryAt.None? || was[r].nextDeliveryAt.value <= tickAt)
                   && was[r].requestId in requests && (listening || requests[was[r].requestId])
                then 1 else 0
    ensures r !in handled ==> r in now && now[r] == was[r]
  {
    assert TickedRow(was, now, log, later, handled, tickAt, requests, listening, workerDefault, r);
  }

  /** At most one attempt more, and for this result. */
  ghost predicate OneAttempt(log: seq<Attempt>, later: seq<Attempt>, id: Id) {
    later == log || (|later| == |log| + 1 && later == log + [later[|log|]] && later[|log|].result == id)
  }

  /** One fetched result was handled; nothing else changed. */
  ghost predicate Worked(
      was: map<Id, Row>, now: map<Id, Row>, log: seq<Attempt>, later: seq<Attempt>, row: Row, tickAt: int,
      requests: map<Id, bool>, listening: bool, workerDefault: int)
  {
    && now.Keys == was.Keys && row.id in was && was[row.id] == row
    && (forall r | r in was && r != row.id :: now[r] == was[r])
    && OneAttempt(log, later, row.id)
    && Handled(row, now[row.id], History(log, row.id), History(later, row.id), tickAt, requests, listening, workerDefault)
  }

  lemma OthersHistory(log: seq<Attempt>, later: seq<Attempt>, id: Id, r: Id)
    requires OneAttempt(log, later, id) && r != id
    ensures History(later, r) == History(log, r)
  {
    if later != log {
      HistorySnoc(log, later[|log|], r);
    }
  }

  lemma TickStep(
      was: map<Id, Row>, mid: map<Id, Row>, now: map<Id, Row>, log: seq<Attempt>, later: seq<Attempt>, last: seq<Attempt>,
      handled: set<Id>, row: Row, tickAt: int, requests: map<Id, bool>, listening: bool, workerDefault: int)
    requires TickedOver(was, mid, log, later, handled, tickAt, requests, listening, workerDefault)
    requires row.id in was && was[row.id] == row && row.id !in handled
    requires Worked(mid, now, later, last, row, tickAt, requests, listening, workerDefault)
    ensures TickedOver(was, now, log, last, handled + {row.id}, tickAt, requests, listening, workerDefault)
  {
    forall r
      ensures TickedRow(was, now, log, last, handled + {row.id}, tickAt, requests, listening, workerDefault, r)
    {
      assert TickedRow(was, mid, log, later, handled, tickAt, requests, listening, workerDefault, r);
      if r != row.id {
        OthersHistory(later, last, row.id, r);
      }
    }
  }

  lemma TickKeeps(
      was: map<Id, Row>, now: map<Id, Row>, log: seq<Attempt>, later: seq<Attempt>, fetched: seq<Row>, tickAt: int,
      requests: map<Id, bool>, listening: bool, workerDefault: int)
    requires AllOk(was, log, workerDefault)
    requires AsFetched(fetched, was)
    requires TickedOver(was, now, log, later, RowIds(fetched), tickAt, requests, listening, workerDefault)
    ensures AllOk(now, later, workerDefault)
  {
    forall r ensures RowOk(now, later, workerDefault, r) {
      assert RowOk(was, log, workerDefault, r);
      assert TickedRow(was, now, log, later, RowIds(fetched), tickAt, requests, listening, workerDefault, r);
      if r in now && r in RowIds(fetched) {
        HandledKeeps(was[r], now[r], History(log, r), History(later, r), tickAt, requests, listening, workerDefault);
      }
    }
  }

  /** Rows keep their ids. */
  lemma TickKeys(
      was: map<Id, Row>, now: map<Id, Row>, log: seq<Attempt>, later: seq<Attempt>, fetched: seq<Row>, tickAt: int,
      requests: map<Id, bool>, listening: bool, workerDefault: int)
    requires TickedOver(was, now, log, later, RowIds(fetched), tickAt, requests, listening, workerDefault)
    ensures forall r | r in was :: now[r].id == was[r].id
  {
    forall r | r in was ensures now[r].id == was[r].id {
      assert TickedRow(was, now, log, later, RowIds(fetched), tickAt, requests, listening, workerDefault, r);
    }
  }

  ghost predicate LogKnown(log: seq<Attempt>, results: map<Id, Row>) { forall a | a in log :: a.result in results }

  /** A result whose turn comes is as it was fetched. */
  lemma StillFetched(
      was: map<Id, Row>, mid: map<Id, Row>, log: seq<Attempt>, later: seq<Attempt>, rows: seq<Row>, i: nat, tickAt: int,
      requests: map<Id, bool>, listening: bool, workerDefault: int)
    requires AllOk(was, log, workerDefault) && i < |rows| && rows[i].id !in RowIds(rows[..i])
    requires AsFetched(rows, was)
    requires TickedOver(was, mid, log, later, RowIds(rows[..i]), tickAt, requests, listening, workerDefault)
    ensures rows[i].id in mid && mid[rows[i].id] == rows[i] && Undelivered(rows[i])
    ensures History(later, rows[i].id) == History(log, rows[i].id)
    ensures Consistent(rows[i], History(later, rows[i].id), workerDefault)
  {
    assert rows[i] in rows;
    assert RowOk(was, log, workerDefault, rows[i].id);
    assert TickedRow(was, mid, log, later, RowIds(rows[..i]), tickAt, requests, listening, workerDefault, rows[i].id);
  }

  class DeliveryWorker {
    const store: DeliveryStore
    const maxDeliveryAttempts: int
    const batchSize: nat
    /** Number of registered callbacks. */
    var callbacks: nat
    var ticking: bool

    constructor (store: DeliveryStore, maxDeliveryAttempts: int := DEFAULT_MAX_DELIVERY_ATTEMPTS, batchSize: nat := 50)
      ensures this.store == store && this.maxDeliveryAttempts == maxDeliveryAttempts && !ticking
    {
      this.store, this.maxDeliveryAttempts, this.batchSize := store, maxDeliveryAttempts, batchSize;
      callbacks, ticking := 0, false;
    }

    /** Invoke every callback, then the webhook; whether any of them fails is theirs to say. */
    method Invoke(result: Row) returns (a: Attempt)
      modifies store`clock, store`log
      ensures store.log == old(store.log) + [a] && a.result == result.id
      ensures old(store.clock) <= a.startedAt <= a.endedAt == store.clock
    {
      var startedAt := store.clock;
      var elapsed: int :| elapsed >= 0;
      store.clock := store.clock + elapsed;
      var ok: bool := *;
      a := Attempt(result.id, startedAt, store.clock, ok);
      store.log := store.log + [a];
    }

    method DeliverResult(result: Row, ghost tickAt: int)
      requires result.id in store.results && store.results[result.id] == result
      requires Due(result, tickAt, maxDeliveryAttempts) && result.attempts >= 0 && tickAt <= store.clock
      modifies store`results, store`clock, store`log
      ensures old(store.clock) <= store.clock
      ensures Worked(old(store.results), store.results, old(store.log), store.log, result, tickAt, store.requests,
                     callbacks > 0, maxDeliveryAttempts)
    {
      var limit := if result.maxAttempts == 0 then maxDeliveryAttempts else result.maxAttempts;
      if result.requestId !in store.requests {
        store.results := store.results[result.id := result.(status := DeliveryStatus.Failed, attempts := limit)];
        return;
      }
      if callbacks == 0 && !store.requests[result.requestId] {
        store.results := store.results[result.id := result.(status := NoTarget)];
        return;
      }
      var a := Invoke(result);
      HistorySnoc(old(store.log), a, result.id);
      if a.ok {
        store.results := store.results[result.id := result.(status := Delivered)];
        return;
      }
      var attempts := result.attempts + 1;
      if attempts >= limit {
        store.results := store.results[result.id := result.(status := DeliveryStatus.Failed, attempts := attempts)];
      } else {
        var delay := Min(BASE_DELAY_MS * Pow2(attempts - 1), MAX_DELAY_MS);
        store.results := store.results[result.id :=
          result.(attempts := attempts, nextDeliveryAt := Some(store.clock + delay))];
      }
    }

    /** One round of the loop. */
    method Consider(result: Row, tickAt: int) returns (due: bool)
      requires result.id in store.results && store.results[result.id] == result && Undelivered(result)
      requires Consistent(result, History(store.log, result.id), maxDeliveryAttempts) && tickAt <= store.clock
      modifies store`results, store`clock, store`log
      ensures due == Due(result, tickAt, maxDeliveryAttempts)
      ensures old(store.clock) <= store.clock
      ensures Worked(old(store.results), store.results, old(store.log), store.log, result, tickAt, store.requests,
                     callbacks > 0, maxDeliveryAttempts)
    {
      due := Due(result, tickAt, maxDeliveryAttempts);
      if due {
        DeliverResult(result, tickAt);
      }
    }

    /** The round for the i-th of them. */
    method DeliverNth(results: seq<Row>, i: nat, now: int, ghost was: map<Id, Row>, ghost log: seq<Attempt>)
      returns (due: bool)
      requires i < |results| && AllOk(was, log, maxDeliveryAttempts) && Ascending(results) && AsFetched(results, was)
      requires now <= store.clock && LogKnown(store.log, was)
      requires TickedOver(was, store.results, log, store.log, RowIds(results[..i]), now, store.requests, callbacks > 0,
                          maxDeliveryAttempts)
      modifies store`results, store`clock, store`log
      ensures now <= store.clock && LogKnown(store.log, was)
      ensures due == Due(results[i], now, maxDeliveryAttempts)
      ensures TickedOver(was, store.results, log, store.log, RowIds(results[..i + 1]), now, store.requests, callbacks > 0,
                         maxDeliveryAttempts)
    {
      ghost var mid, later := store.results, store.log;
      NextId(results, i);
      StillFetched(was, mid, log, later, results, i, now, store.requests, callbacks > 0, maxDeliveryAttempts);
      due := Consider(results[i], now);
      TickStep(was, mid, store.results, log, later, store.log, RowIds(results[..i]), results[i], now, store.requests,
               callbacks > 0, maxDeliveryAttempts);
    }

    /** The loop over what was fetched. */
    method DeliverAll(results: seq<Row>, now: int) returns (processed: nat)
      requires AllOk(store.results, store.log, maxDeliveryAttempts) && LogKnown(store.log, store.results)
      requires Ascending(results) && AsFetched(results, store.results) && now <= store.clock
      modifies store`results, store`clock, store`log
      ensures LogKnown(store.log, old(store.results))
      ensures TickedOver(old(store.results), store.results, old(store.log), store.log, RowIds(results), now,
                         store.requests, callbacks > 0, maxDeliveryAttempts)
      ensures processed == |DueIds(results, now, maxDeliveryAttempts)|
    {
      processed := 0;
      ghost var was, log := store.results, store.log;
      for i := 0 to |results|
        invariant now <= store.clock && LogKnown(store.log, was)
        invariant processed == |DueIds(results[..i], now, maxDeliveryAttempts)|
        invariant TickedOver(was, store.results, log, store.log, RowIds(results[..i]), now, store.requests, callbacks > 0,
                             maxDeliveryAttempts)
      {
        NextDue(results, i, now, maxDeliveryAttempts);
        var due := DeliverNth(results, i, now, was, log);
        if due {
          processed := processed + 1;
        }
      }
      assert results[..|results|] == results;
    }

    /**
     One delivery cycle over the oldest undelivered results: each that is due is handled once, the
     others are left alone, and `processed` counts the due ones.
     */
    method DoTick() returns (processed: nat, ghost fetched: seq<Row>)
      requires store.Valid(maxDeliveryAttempts)
      modifies store`results, store`clock, store`log
      ensures store.Valid(maxDeliveryAttempts)
      ensures OldestUndelivered(fetched, old(store.results), batchSize)
      ensures TickedOver(old(store.results), store.results, old(store.log), store.log, RowIds(fetched), old(store.clock),
                         store.requests, callbacks > 0, maxDeliveryAttempts)
      ensures processed == |DueIds(fetched, old(store.clock), maxDeliveryAttempts)|
    {
      var results := store.GetUndeliveredResults(batchSize);
      fetched := results;
      ghost var was, log, now := store.results, store.log, store.clock;
      processed := DeliverAll(results, store.clock);
      TickKeeps(was, store.results, log, store.log, results, now, store.requests, callbacks > 0, maxDeliveryAttempts);
      TickKeys(was, store.results, log, store.log, results, now, store.requests, callbacks > 0, maxDeliveryAttempts);
    }

    /** A tick that finds another one running does nothing. */
    method Tick() returns (processed: nat, ghost fetched: seq<Row>)
      requires store.Valid(maxDeliveryAttempts)
      modifies store`results, store`clock, store`log, `ticking
      ensures store.Valid(maxDeliveryAttempts) && ticking == old(ticking)
      ensures if old(ticking) then fetched == [] else OldestUndelivered(fetched, old(store.results), batchSize)
      ensures TickedOver(old(store.results), store.results, old(store.log), store.log, RowIds(fetched), old(store.clock),
                         store.requests, callbacks > 0, maxDeliveryAttempts)
      ensures processed == |DueIds(fetched, old(store.clock), maxDeliveryAttempts)|
    {
      if ticking {
        return 0, [];
      }
      ticking := true;
      processed, fetched := DoTick();
      ticking := false;
    }
  }

  function DueIds(rows: seq<Row>, now: int, workerDefault: int): set<Id> {
    set q | q in rows && Due(q, now, workerDefault) :: q.id
  }

  lemma NextId(rows: seq<Row>, i: nat)
    requires i < |rows| && Ascending(rows)
    ensures rows[i].id !in RowIds(rows[..i])
    ensures RowIds(rows[..i + 1]) == RowIds(rows[..i]) + {rows[i].id}
  {
    assert rows[..i + 1] == rows[..i] + [rows[i]];
  }

  lemma DueSnoc(rows: seq<Row>, q: Row, now: int, workerDefault: int)
    ensures DueIds(rows + [q], now, workerDefault) ==
              DueIds(rows, now, workerDefault) + if Due(q, now, workerDefault) then {q.id} else {}
  {
    var more := DueIds(rows, now, workerDefault) + if Due(q, now, workerDefault) then {q.id} else {};
    forall id: Id ensures id in DueIds(rows + [q], now, workerDefault) <==> id in more {
      if id in DueIds(rows, now, workerDefault) {
        var p :| p in rows && Due(p, now, workerDefault) && p.id == id;
        assert p in rows + [q];
      }
      if Due(q, now, workerDefault) {
        assert q in rows + [q];
      }
    }
  }

  lemma NextDue(rows: seq<Row>, i: nat, now: int, workerDefault: int)
    requires i < |rows| && Ascending(rows)
    ensures |DueIds(rows[..i + 1], now, workerDefault)| ==
              |DueIds(rows[..i], now, workerDefault)| + if Due(rows[i], now, workerDefault) then 1 else 0
  {
    NextId(rows, i);
    assert rows[..i + 1] == rows[..i] + [rows[i]];
    DueSnoc(rows[..i], rows[i], now, workerDefault);
    assert DueIds(rows[..i], now, workerDefault) <= RowIds(rows[..i]);
  }

  // -- What that means over runs -----------------------------------------------------------------

  /** An entry of the log about a result is in its history, after as many as came before it. */
  lemma {:induction false} HistoryAt(log: seq<Attempt>, i: nat, id: Id)
    requires i < |log| && log[i].result == id
    ensures |History(log[..i], id)| < |History(log, id)| && History(log, id)[|History(log[..i], id)|] == log[i]
  {
    if i == |log| - 1 {
      assert log[..i] == log[..|log| - 1];
    } else {
      HistoryAt(log[..|log| - 1], i, id);
      assert log[..|log| - 1][..i] == log[..i];
    }
  }

  lemma HistoryOrder(log: seq<Attempt>, i: nat, j: nat, id: Id)
    requires i < j < |log| && log[i].result == id == log[j].result
    ensures |History(log[..i], id)| < |History(log[..j], id)| < |History(log, id)|
    ensures History(log, id)[|History(log[..i], id)|] == log[i] && History(log, id)[|History(log[..j], id)|] == log[j]
  {
    HistoryAt(log, i, id);
    HistoryAt(log, j, id);
    HistoryAt(log[..j], i, id);
    assert log[..j][..i] == log[..i];
  }

  function TotalDelay(n: nat): int { if n == 0 then 0 else TotalDelay(n - 1) + Delay(n) }

  lemma {:induction false} DelayCapped(attempt: nat)
    requires attempt >= 7
    ensures Delay(attempt) == MAX_DELAY_MS
  {
    if attempt > 7 {
      DelayCapped(attempt - 1);
    } else {
      assert Pow2(6) == 2 * Pow2(5) && Pow2(5) == 2 * Pow2(4) && Pow2(4) == 2 * Pow2(3) && Pow2(3) == 8;
    }
  }

  /** The backoff after n failures in closed form. */
  lemma {:induction false} TotalDelayClosed(n: nat)
    ensures TotalDelay(n) == if n <= 6 then 10_000 * (Pow2(n) - 1) else 630_000 + 600_000 * (n - 6)
  {
    if n > 0 {
      TotalDelayClosed(n - 1);
      assert Pow2(6) == 2 * Pow2(5) && Pow2(5) == 2 * Pow2(4) && Pow2(4) == 2 * Pow2(3) && Pow2(3) == 8;
      if n >= 7 {
        DelayCapped(n);
      } else {
        SmallPowers(n - 1);
      }
    }
  }

  lemma SmallPowers(k: nat)
    requires k <= 5
    ensures BASE_DELAY_MS * Pow2(k) <= MAX_DELAY_MS
  {
    assert Pow2(5) == 2 * Pow2(4) && Pow2(4) == 2 * Pow2(3) && Pow2(3) == 8 && Pow2(2) == 4;
  }

  /**
   n failures force a total wait, from the end of the first to the start of attempt n + 1, of at
   least 10000 * (2^n - 1) ms for n <= 6, and 630000 + 600000 * (n - 6) beyond.
   */
  lemma PacedWait(h: seq<Attempt>, n: nat)
    requires Paced(h) && 0 < n < |h|
    ensures h[n].startedAt - h[0].endedAt >= if n <= 6 then 10_000 * (Pow2(n) - 1) else 630_000 + 600_000 * (n - 6)
  {
    WaitAdds(h, n);
    TotalDelayClosed(n);
  }

  lemma {:induction false} WaitAdds(h: seq<Attempt>, n: nat)
    requires Paced(h) && 0 < n < |h|
    ensures h[n].startedAt - h[0].endedAt >= TotalDelay(n)
  {
    assert h[n].startedAt >= h[n - 1].endedAt + Delay(n);
    if n > 1 {
      WaitAdds(h, n - 1);
    }
  }
  /**
   In a store as the worker keeps it: the attempts ever made for a result stay within its limit; no
   attempt comes after one that succeeded, and one that did leaves the result delivered for good.
   */
  lemma AttemptsBounded(store: DeliveryStore, workerDefault: int, r: Id)
    requires store.Valid(workerDefault) && r in store.results
    ensures |History(store.log, r)| <= Max(Limit(store.results[r], workerDefault), 0)
    ensures forall i, j | 0 <= i < j < |store.log| && store.log[i].result == r == store.log[j].result :: !store.log[i].ok
    ensures forall i | 0 <= i < |store.log| && store.log[i].result == r && store.log[i].ok ::
              store.results[r].status.Delivered?
  {
    assert RowOk(store.results, store.log, workerDefault, r);
    forall i, j | 0 <= i < j < |store.log| && store.log[i].result == r == store.log[j].result
      ensures !store.log[i].ok
    {
      HistoryOrder(store.log, i, j, r);
    }
    forall i | 0 <= i < |store.log| && store.log[i].result == r && store.log[i].ok
      ensures store.results[r].status.Delivered?
    {
      HistoryAt(store.log, i, r);
    }
  }

  /** And the attempts made for it are spaced: the first n of them failed, and cost at least this wait. */
  lemma TotalWait(store: DeliveryStore, workerDefault: int, r: Id, n: nat)
    requires store.Valid(workerDefault) && r in store.results && 0 < n < |History(store.log, r)|
    ensures var h := History(store.log, r);
      && (forall k | 0 <= k < n :: !h[k].ok)
      && h[n].startedAt - h[0].endedAt >= if n <= 6 then 10_000 * (Pow2(n) - 1) else 630_000 + 600_000 * (n - 6)
  {
    assert RowOk(store.results, store.log, workerDefault, r);
    PacedWait(History(store.log, r), n);
  }
}
