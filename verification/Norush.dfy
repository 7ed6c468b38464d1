/** The engine put together: enqueue with its flush triggers, and the tick that drives everything. */
module Norush {
  import opened NorushTypes
  import opened Protocol
  import opened Stores
  import opened BatchManagers
  import opened StatusTrackers
  import Deliveries
  import OrphanRecovery
  import Queues
  import Retention

  /**
   What tracking did in one tick: recovery, from `start` at time `at`, of the batches in `tries`;
   then a turn for each batch in flight, with the poll states `polls`, up to time `to` and state `end`.
   */
  datatype TrackReport = TrackReport(
    start: OrphanRecovery.Stamped, at: int, tries: set<Id>, recovered: OrphanRecovery.Stamped, counts: (nat, nat),
    inFlight: seq<Batch>, polls: map<Id, PollState>, turns: seq<Turn>, to: int, end: Snapshot)

  class Engine {
    const store: Store
    const queue: Queues.RequestQueue
    const batchManager: BatchManager
    const statusTracker: StatusTracker
    const deliveryWorker: Deliveries.DeliveryWorker
    const retentionWorker: Retention.RetentionWorker

    constructor (
        store: Store, queue: Queues.RequestQueue, batchManager: BatchManager, statusTracker: StatusTracker,
        deliveryWorker: Deliveries.DeliveryWorker, retentionWorker: Retention.RetentionWorker)
      requires batchManager.store == store && statusTracker.store == store && statusTracker.orphanRecovery.store == store
      requires store.Sound() && statusTracker.Tracking()
      requires deliveryWorker.store.Valid(deliveryWorker.maxDeliveryAttempts) && retentionWorker.store.Valid()
      requires !queue.flushing && !batchManager.flushing && !statusTracker.ticking
      requires !deliveryWorker.ticking && !retentionWorker.sweeping
      ensures Ready()
      ensures this.store == store && this.queue == queue
      ensures this.batchManager == batchManager && this.statusTracker == statusTracker
      ensures this.deliveryWorker == deliveryWorker && this.retentionWorker == retentionWorker
    {
      this.store, this.queue, this.batchManager, this.statusTracker := store, queue, batchManager, statusTracker;
      this.deliveryWorker, this.retentionWorker := deliveryWorker, retentionWorker;
    }

    /** Between two operations: nothing is running, and what was written so far is a run of the protocol. */
    ghost predicate Ready()
      reads this, store, queue, batchManager, statusTracker, deliveryWorker, deliveryWorker.store, retentionWorker,
        retentionWorker.store
    {
      BatchesReady() && ResultsReady()
    }

    ghost predicate BatchesReady()
      reads this, store, queue, batchManager, statusTracker
    {
      && batchManager.store == store && statusTracker.store == store && statusTracker.orphanRecovery.store == store
      && store.Sound() && statusTracker.Tracking() && !queue.flushing && !batchManager.flushing && !statusTracker.ticking
    }

    ghost predicate ResultsReady()
      reads this, deliveryWorker, deliveryWorker.store, retentionWorker, retentionWorker.store
    {
      && deliveryWorker.store.Valid(deliveryWorker.maxDeliveryAttempts) && retentionWorker.store.Valid()
      && !deliveryWorker.ticking && !retentionWorker.sweeping
    }

    /** `onFlush`, from the moment the queue has taken its snapshot. */
    method OnFlush() returns (ghost fetched: seq<Request>, ghost sendings: seq<Sending>)
      requires batchManager.store == store && statusTracker.store == store
      requires store.Sound() && statusTracker.Tracking() && !batchManager.flushing && queue.flushing
      modifies store, batchManager`flushing, batchManager`turn, queue
      ensures store.Sound() && store.Advanced() && statusTracker.Tracking() && !batchManager.flushing
      ensures queue.Fields() == Queues.Next(queue.batching, old(queue.Fields()), Queues.FlushEnded(true))
      ensures Flushed(old(store.State()), store.State(), fetched, sendings)
    {
      ghost var before := |store.trace| - 1;
      fetched, sendings := batchManager.Flush();
      statusTracker.StillTracking(before);
      queue.FinishFlush(true);
    }

    /** A flush fetched the oldest queued requests, conserved everything, and sent it out in chunks. */
    ghost predicate FlushedWith(
        was: Snapshot, now: Snapshot, fetched: seq<Request>, sendings: seq<Sending>, catalog: map<string, LifecycleState>,
        apiKeyIds: map<(string, ProviderName), string>)
    {
      && OldestQueued(fetched, was.requests, batchManager.maxRequests)
      && Conserved(was, now, fetched, catalog, batchManager.limits, batchManager.resolver.Some?)
      && batchManager.SentInChunks(was, now, fetched, sendings, catalog, apiKeyIds)
    }

    ghost predicate Flushed(was: Snapshot, now: Snapshot, fetched: seq<Request>, sendings: seq<Sending>)
      reads store
    {
      FlushedWith(was, now, fetched, sendings, store.catalog, store.apiKeyIds)
    }

    /**
     Accept a request. If a threshold is met by what no flush has covered yet, a flush runs before
     the call returns, and conserves every request, the new one included.
     */
    method Enqueue(provider: ProviderName, model: string, userId: string, bytes: nat, maxRetries: int)
      returns (id: Id, ghost stored: Snapshot, ghost fetched: seq<Request>, ghost sendings: seq<Sending>)
      requires Ready()
      modifies store, batchManager`flushing, batchManager`turn, queue
      ensures Ready() && store.Advanced()
      ensures id !in old(store.requests)
      ensures stored == old(store.State()).(requests := old(store.requests)[id :=
                Request(id, provider, model, userId, bytes, Queued, None, 0, maxRetries)])
      ensures var counted := old(queue.Fields());
        if Queues.Triggered(queue.batching, counted.(count := counted.count + 1, bytes := counted.bytes + bytes))
        then Flushed(stored, store.State(), fetched, sendings)
        else store.State() == stored
    {
      id, stored, fetched, sendings := AcceptAndFlush(provider, model, userId, bytes, maxRetries);
    }

    method AcceptAndFlush(provider: ProviderName, model: string, userId: string, bytes: nat, maxRetries: int)
      returns (id: Id, ghost stored: Snapshot, ghost fetched: seq<Request>, ghost sendings: seq<Sending>)
      requires BatchesReady()
      modifies store, batchManager`flushing, batchManager`turn, queue
      ensures BatchesReady() && store.Advanced()
      ensures id !in old(store.requests)
      ensures stored == old(store.State()).(requests := old(store.requests)[id :=
                Request(id, provider, model, userId, bytes, Queued, None, 0, maxRetries)])
      ensures var counted := old(queue.Fields());
        if Queues.Triggered(queue.batching, counted.(count := counted.count + 1, bytes := counted.bytes + bytes))
        then Flushed(stored, store.State(), fetched, sendings)
        else store.State() == stored
    {
      id := Accept(provider, model, userId, bytes, maxRetries);
      stored, fetched, sendings := store.State(), [], [];
      queue.Enqueue(bytes);
      if queue.flushing {
        fetched, sendings := OnFlush();
      }
    }

    /** The new request is on record. */
    method Accept(provider: ProviderName, model: string, userId: string, bytes: nat, maxRetries: int) returns (id: Id)
      requires statusTracker.store == store && store.Sound() && statusTracker.Tracking()
      modifies store
      ensures store.Sound() && statusTracker.Tracking() && store.Advanced()
      ensures id !in old(store.requests)
      ensures store.State() == old(store.State()).(requests := old(store.requests)[id :=
                Request(id, provider, model, userId, bytes, Queued, None, 0, maxRetries)])
    {
      ghost var before := |store.trace| - 1;
      id := store.CommitNewRequest(provider, model, userId, bytes, maxRetries);
      statusTracker.StillTracking(before);
    }

    /** Tracking: recovery first, then a turn for every in-flight batch. */
    ghost predicate Tracked(r: TrackReport) {
      && statusTracker.RecoveredFrom(r.start, r.recovered, r.at, r.tries, r.counts)
      && (forall b ::
            b in r.inFlight <==> b.id in r.recovered.w.batches && r.recovered.w.batches[b.id] == b && InFlight(b.status))
      && statusTracker.TurnsTaken(r.turns, r.inFlight, r.polls, r.at, r.to, r.recovered.w, r.end)
      && OrphanRecovery.PendingKept(r.recovered.w.batches, r.end.batches)
    }

    /** One tick, in this order: flush, status tracking, delivery, retention. */
    method Tick(now: int)
      returns (ghost fetched: seq<Request>, ghost sendings: seq<Sending>, ghost r: TrackReport, processed: nat,
               ghost delivered: seq<Deliveries.Row>)
      requires Ready()
      modifies store, batchManager`flushing, batchManager`turn, queue, statusTracker`pollStates, statusTracker`checks,
        statusTracker`ticking, statusTracker.circuitBreaker, statusTracker.orphanRecovery`inFlightRecoveryBatchIds,
        deliveryWorker.store`results, deliveryWorker.store`clock, deliveryWorker.store`log, deliveryWorker`ticking,
        retentionWorker.store`requests, retentionWorker.store`results, retentionWorker.store`events,
        retentionWorker`sweeping
      ensures Ready() && store.Advanced()
      ensures Flushed(old(store.State()), r.start.w, fetched, sendings)
      ensures Tracked(r) && r.to == store.clock && r.end == store.State() && r.polls == old(statusTracker.pollStates)
      ensures r.tries == old(statusTracker.orphanRecovery.Triable(r.start.w.batches))
      ensures statusTracker.checks == old(statusTracker.checks) + CheckLog(r.turns)
      ensures Delivered(old(deliveryWorker.store.results), old(deliveryWorker.store.log), old(deliveryWorker.store.clock),
                        delivered, processed)
      ensures Swept(old(retentionWorker.store.Content()), now)
    {
      fetched, sendings, r := FlushAndTrack();
      processed, delivered := DeliverAndSweep(now);
    }

    /** The half of a tick that works on requests and batches. */
    method FlushAndTrack() returns (ghost fetched: seq<Request>, ghost sendings: seq<Sending>, ghost r: TrackReport)
      requires BatchesReady()
      modifies store, batchManager`flushing, batchManager`turn, queue, statusTracker`pollStates, statusTracker`checks,
        statusTracker`ticking, statusTracker.circuitBreaker, statusTracker.orphanRecovery`inFlightRecoveryBatchIds
      ensures BatchesReady() && store.Advanced()
      ensures Flushed(old(store.State()), r.start.w, fetched, sendings)
      ensures Tracked(r) && r.to == store.clock && r.end == store.State() && r.polls == old(statusTracker.pollStates)
      ensures r.tries == old(statusTracker.orphanRecovery.Triable(r.start.w.batches))
      ensures statusTracker.checks == old(statusTracker.checks) + CheckLog(r.turns)
    {
      queue.TriggerFlush();
      fetched, sendings := OnFlush();
      r := Track();
    }

    /** Status tracking, from the state the flush left. */
    method Track() returns (ghost r: TrackReport)
      requires batchManager.store == store && statusTracker.store == store && statusTracker.orphanRecovery.store == store
      requires store.Sound() && statusTracker.Tracking() && !statusTracker.ticking
      modifies store, statusTracker`pollStates, statusTracker`checks, statusTracker`ticking, statusTracker.circuitBreaker,
        statusTracker.orphanRecovery`inFlightRecoveryBatchIds
      ensures store.Sound() && statusTracker.Tracking() && !statusTracker.ticking && store.Advanced()
      ensures Tracked(r) && r.start.w == old(store.State())
      ensures r.to == store.clock && r.end == store.State() && r.polls == old(statusTracker.pollStates)
      ensures r.tries == old(statusTracker.orphanRecovery.Triable(store.batches))
      ensures statusTracker.checks == old(statusTracker.checks) + CheckLog(r.turns)
    {
      ghost var polls := statusTracker.pollStates;
      ghost var start, at := statusTracker.orphanRecovery.Now(), store.clock;
      ghost var tries := statusTracker.orphanRecovery.Triable(store.batches);
      ghost var recovered, counts, inFlight, turns, reportedAt := statusTracker.Tick();
      r := TrackReport(start, at, tries, recovered, counts, inFlight, polls, turns, store.clock, store.State());
    }

    /** The oldest undelivered results were fetched, and exactly those that were due handled, once each. */
    ghost predicate Delivered(
        results: map<Id, Deliveries.Row>, log: seq<Deliveries.Attempt>, at: int, fetched: seq<Deliveries.Row>,
        processed: nat)
      reads deliveryWorker, deliveryWorker.store
    {
      && Deliveries.OldestUndelivered(fetched, results, deliveryWorker.batchSize)
      && Deliveries.TickedOver(
           results, deliveryWorker.store.results, log, deliveryWorker.store.log, Deliveries.RowIds(fetched), at,
           deliveryWorker.store.requests, deliveryWorker.callbacks > 0, deliveryWorker.maxDeliveryAttempts)
      && processed == |Deliveries.DueIds(fetched, at, deliveryWorker.maxDeliveryAttempts)|
    }

    /** Exactly what is due was scrubbed. */
    ghost predicate Swept(d: Retention.Docs, now: int)
      reads retentionWorker, retentionWorker.store
    {
      Retention.ScrubbedDocs(d, retentionWorker.store.Content(),
                             Retention.DueRequests(d, retentionWorker.policies, now),
                             Retention.DueResults(d, retentionWorker.policies, now))
    }

    /** The half that works on results and stored content. */
    method DeliverAndSweep(now: int) returns (processed: nat, ghost delivered: seq<Deliveries.Row>)
      requires ResultsReady()
      modifies deliveryWorker.store`results, deliveryWorker.store`clock, deliveryWorker.store`log, deliveryWorker`ticking,
        retentionWorker.store`requests, retentionWorker.store`results, retentionWorker.store`events,
        retentionWorker`sweeping
      ensures ResultsReady()
      ensures Delivered(old(deliveryWorker.store.results), old(deliveryWorker.store.log), old(deliveryWorker.store.clock),
                        delivered, processed)
      ensures Swept(old(retentionWorker.store.Content()), now)
    {
      processed, delivered := deliveryWorker.Tick();
      var swept := retentionWorker.Sweep(now);
    }

    // -- Over ticks ----------------------------------------------------------------------------

    /** A tick's recovery pass. */
    ghost function PassOf(r: TrackReport): OrphanRecovery.Pass {
      OrphanRecovery.Pass(r.start.w.batches, r.recovered.w.batches, r.start.stamps,
                          r.at - statusTracker.orphanRecovery.gracePeriodMs, r.tries)
    }

    ghost function PassesOf(rs: seq<TrackReport>): (ps: seq<OrphanRecovery.Pass>)
      ensures |ps| == |rs| && forall i | 0 <= i < |rs| :: ps[i] == PassOf(rs[i])
    {
      if rs == [] then [] else PassesOf(rs[..|rs| - 1]) + [PassOf(rs[|rs| - 1])]
    }

    /**
     What the queue does to the store: a new request is stored, or a flush runs. `Enqueue` ensures the
     one and then, if it flushes, the other; `Tick` ensures the other for the flush it begins with.
     */
    ghost predicate QueueStep(was: Snapshot, now: Snapshot)
      reads store
    {
      now == was.(requests := now.requests) || exists fetched, sendings :: Flushed(was, now, fetched, sendings)
    }

    /** A stretch between two ticks, up to the next one's recovery: enqueues, then that tick's own flush. */
    ghost predicate Gap(gap: seq<Snapshot>)
      reads store
    {
      gap != [] && forall i, j | 0 <= i && j == i + 1 < |gap| :: QueueStep(gap[i], gap[j])
    }

    lemma StepKeepsBatches(was: Snapshot, now: Snapshot)
      requires QueueStep(was, now)
      ensures BatchesKept(was, now)
    {
      if now != was.(requests := now.requests) {
        var fetched, sendings :| Flushed(was, now, fetched, sendings);
        FlushKeepsBatches(was, now, fetched, sendings);
      }
    }

    /** A flush keeps every batch there was. */
    lemma FlushKeepsBatches(was: Snapshot, now: Snapshot, fetched: seq<Request>, sendings: seq<Sending>)
      requires Flushed(was, now, fetched, sendings)
      ensures BatchesKept(was, now)
    {
    }

    lemma {:induction false} GapKeepsBatches(gap: seq<Snapshot>)
      requires Gap(gap)
      ensures BatchesKept(gap[0], gap[|gap| - 1])
    {
      if |gap| > 1 {
        var init := gap[..|gap| - 1];
        assert Gap(init) by {
          forall i, j | 0 <= i && j == i + 1 < |init| ensures QueueStep(init[i], init[j]) {
            assert QueueStep(gap[i], gap[j]);
          }
        }
        GapKeepsBatches(init);
        StepKeepsBatches(gap[|gap| - 2], gap[|gap| - 1]);
        BatchesKeptOn(gap[0], gap[|gap| - 2], gap[|gap| - 1]);
      }
    }

    lemma BatchesKeptOn(was: Snapshot, mid: Snapshot, now: Snapshot)
      requires BatchesKept(was, mid) && BatchesKept(mid, now)
      ensures BatchesKept(was, now)
    {
    }

    /** Ticks in a row, with the gaps that lead up to each but the first. */
    ghost predicate Ticks(rs: seq<TrackReport>, gaps: seq<seq<Snapshot>>)
      reads store
    {
      && |gaps| == |rs| && (forall i | 0 <= i < |rs| :: Tracked(rs[i]))
      && (forall i, j | 0 <= i && j == i + 1 < |rs| :: Leads(rs[i], gaps[j], rs[j]))
    }

    ghost predicate Leads(r: TrackReport, gap: seq<Snapshot>, next: TrackReport)
      reads store
    {
      Gap(gap) && gap[0] == r.end && gap[|gap| - 1] == next.start.w
    }

    lemma TickIsPass(r: TrackReport)
      requires statusTracker.RecoveredFrom(r.start, r.recovered, r.at, r.tries, r.counts)
      ensures OrphanRecovery.IsPass(PassOf(r))
    {
      OrphanRecovery.PassMadeIsPass(
        r.start, r.recovered, r.at - statusTracker.orphanRecovery.gracePeriodMs, r.tries, r.counts.0, r.counts.1);
    }

    lemma PendingBetween(r: TrackReport, gap: seq<Snapshot>, next: TrackReport)
      requires Tracked(r) && Leads(r, gap, next)
      ensures OrphanRecovery.PendingKept(r.recovered.w.batches, next.start.w.batches)
    {
      GapKeepsBatches(gap);
      forall b: Id | OrphanRecovery.PendingIn(r.recovered.w.batches, b)
        ensures b in next.start.w.batches && next.start.w.batches[b] == r.recovered.w.batches[b]
      {
        assert b in r.end.batches;
      }
    }

    lemma TicksArePasses(rs: seq<TrackReport>, gaps: seq<seq<Snapshot>>)
      requires Ticks(rs, gaps)
      ensures OrphanRecovery.Passes(PassesOf(rs))
    {
      var ps := PassesOf(rs);
      forall i | 0 <= i < |ps| ensures OrphanRecovery.IsPass(ps[i]) {
        TickIsPass(rs[i]);
      }
      forall i, j | 0 <= i && j == i + 1 < |ps| ensures OrphanRecovery.PendingKept(ps[i].after, ps[j].before) {
        PendingBetween(rs[i], gaps[j], rs[j]);
      }
    }

    /**
     So an orphan that every tick which finds it pending also finds due and can try, is submitted or
     failed after as many ticks as it has attempts left, whatever else those ticks do.
     */
    lemma OrphanSettlesInTicks(rs: seq<TrackReport>, gaps: seq<seq<Snapshot>>, b: Id)
      requires Ticks(rs, gaps) && rs != [] && OrphanRecovery.PendingIn(rs[0].start.w.batches, b)
      requires forall i | 0 <= i < |rs| && OrphanRecovery.PendingIn(rs[i].start.w.batches, b) ::
                 OrphanRecovery.DueIn(PassOf(rs[i]), b)
      requires |rs| >= OrphanRecovery.AttemptsLeft(rs[0].start.w.batches[b])
      ensures exists i :: 0 <= i < |rs| && Settled(rs[i], b)
    {
      var ps := PassesOf(rs);
      TicksArePasses(rs, gaps);
      assert forall i | 0 <= i < |ps| && OrphanRecovery.PendingIn(ps[i].before, b) :: ps[i] == PassOf(rs[i]);
      OrphanRecovery.OrphanSettles(ps, b);
      var i :| 0 <= i < |ps| && b in ps[i].after && (ps[i].after[b].status.Submitted? || ps[i].after[b].status.Failed?);
      assert ps[i] == PassOf(rs[i]) && Settled(rs[i], b);
    }

    /** A tick's recovery has left the batch submitted or failed. */
    ghost predicate Settled(r: TrackReport, b: Id) {
      b in r.recovered.w.batches && (r.recovered.w.batches[b].status.Submitted? || r.recovered.w.batches[b].status.Failed?)
    }
  }
}
