/** What happens when a batch ends or expires: ingest, then repackage. */
module Pipelines {
  import opened NorushTypes
  import opened Protocol
  import opened Stores
  import opened ResultIngester
  import opened Repackager

  function AfterExpiry(q: Request): Request {
    if q.status.Batched? || q.status == RequestStatus.Processing then q.(status := RequestStatus.Expired) else q
  }

  /** One member of an expired batch. */
  method ExpireMember(store: Store, q: Request, b: Id)
    requires store.Sound() && q.id in store.requests && store.requests[q.id] == q && q.batchId == Some(b)
    requires b in store.batches && store.batches[b].status.Expired?
    modifies store
    ensures store.Sound() && store.Advanced()
    ensures store.requests == old(store.requests)[q.id := AfterExpiry(q)]
    ensures store.batches == old(store.batches) && store.results == old(store.results) && store.calls == old(store.calls)
  {
    if q.status.Batched? || q.status == RequestStatus.Processing {
      store.CommitRequest(q.id, (r: Request) => r.(status := RequestStatus.Expired), Action.Expire(q.id, b));
    } else {
      assert store.requests == store.requests[q.id := q];
    }
  }

  /** Mark the members the provider never answered as expired. */
  method ExpireMembers(store: Store, b: Id)
    requires store.Sound() && b in store.batches && store.batches[b].status.Expired?
    modifies store
    ensures store.Sound() && store.Advanced()
    ensures MembersBecame(old(store.requests), store.requests, b, AfterExpiry)
    ensures store.batches == old(store.batches) && store.results == old(store.results) && store.calls == old(store.calls)
  {
    var rows := store.GetRequestsByBatchId(b);
    ghost var was := store.requests;
    MappedStart(was, rows, AfterExpiry);
    for i := 0 to |rows|
      invariant store.Sound() && store.Advanced()
      invariant Mapped(was, store.requests, rows, i, AfterExpiry)
      invariant store.batches == old(store.batches) && store.results == old(store.results) && store.calls == old(store.calls)
    {
      ghost var now := store.requests;
      assert rows[i] in rows;
      ExpireMember(store, rows[i], b);
      MappedStep(was, now, store.requests, rows, i, AfterExpiry);
    }
    LoopOverMembers(was, store.requests, rows, b, AfterExpiry);
  }

  /** Waiting for an outcome, or to be repackaged. */
  predicate Unsettled(q: Request) {
    || q.status.Batched? || q.status == RequestStatus.Processing
    || q.status == RequestStatus.Failed || q.status == RequestStatus.Expired
  }

  function AfterExpired(q: Request): Request { AfterRepackage(AfterExpiry(q)) }

  /** Expiring, then repackaging, is one pass that settles every member. */
  lemma ExpiredThenRepackaged(was: map<Id, Request>, mid: map<Id, Request>, now: map<Id, Request>, b: Id)
    requires MembersBecame(was, mid, b, AfterExpiry) && MembersBecame(mid, now, b, AfterRepackage)
    ensures MembersBecame(was, now, b, AfterExpired)
  {
  }

  lemma NoneUnsettled(was: map<Id, Request>, now: map<Id, Request>, b: Id)
    requires MembersBecame(was, now, b, AfterExpired)
    ensures forall r | r in now && now[r].batchId == Some(b) :: !Unsettled(now[r])
  {
  }

  lemma UnsettledScanned(was: map<Id, Request>, mid: map<Id, Request>, b: Id)
    requires MembersBecame(was, mid, b, AfterExpiry)
    ensures |MembersWhere(was, b, Unsettled)| == |MembersWhere(mid, b, Requeueable)| + |MembersWhere(mid, b, Exhausted)|
  {
    SplitByBudget(mid, b);
    forall r ensures r in MembersWhere(was, b, Unsettled) <==> r in MembersWhere(mid, b, Failing) {
      assert r in mid <==> r in was;
    }
    assert MembersWhere(was, b, Unsettled) == MembersWhere(mid, b, Failing);
  }

  predicate Failing(q: Request) { Repackageable(q.status) }

  lemma SplitByBudget(requests: map<Id, Request>, b: Id)
    ensures |MembersWhere(requests, b, Failing)| ==
              |MembersWhere(requests, b, Requeueable)| + |MembersWhere(requests, b, Exhausted)|
  {
    var requeueable, exhausted := MembersWhere(requests, b, Requeueable), MembersWhere(requests, b, Exhausted);
    assert requeueable !! exhausted;
    assert MembersWhere(requests, b, Failing) == requeueable + exhausted;
  }

  /**
   batch:expired. Whatever happened before, no member is left batched, processing, failed or
   expired: each is re-queued with one more retry, or has failed for good.
   */
  method OnBatchExpired(store: Store, b: Id) returns (result: RepackageResult)
    requires store.Sound() && b in store.batches && store.batches[b].status.Expired?
    modifies store
    ensures store.Sound() && store.Advanced()
    ensures forall r | r in store.requests && store.requests[r].batchId == Some(b) :: !Unsettled(store.requests[r])
    ensures ExpiredBy(old(store.State()), store.State(), b)
    ensures result.scanned == |MembersWhere(old(store.requests), b, Unsettled)|
  {
    ExpireMembers(store, b);
    ghost var mid := store.requests;
    result := Repackage(store, b);
    ExpiredThenRepackaged(old(store.requests), mid, store.requests, b);
    NoneUnsettled(old(store.requests), store.requests, b);
    UnsettledScanned(old(store.requests), mid, b);
  }

  // -- batch:completed ----------------------------------------------------------------------

  /** Ingestion by a process whose writes are protocol steps. */
  method IngestSoundly(store: Store, adapters: set<string>, b: Id, stream: seq<NorushResult>, broken: bool)
    returns (result: IngestionResult)
    requires store.Sound() && b in store.batches && Replayable(store.State(), b, stream)
    modifies store
    ensures store.Sound() && store.Advanced()
    ensures result.threw <==> Ingestible(old(store.batches)[b], adapters) && broken
    ensures store.State() ==
              if !Ingestible(old(store.batches)[b], adapters) then old(store.State())
              else if broken then IngestAll(old(store.State()), b, stream)
              else IngestRun(old(store.State()), b, stream)
  {
    ghost var w, tr := store.State(), store.trace;
    assert forall e | e in stream :: Awaited(w, b, e);
    result := Ingest(store, adapters, store.batches[b], stream, broken);
    if Ingestible(w.batches[b], adapters) {
      IngestFollows(tr, w, b, stream);
      assert tr + Journal(w, b, stream) + [] == tr + Journal(w, b, stream);
    }
  }

  /** A run over the stream takes only steps the protocol allows, up to and with the recount. */
  lemma IngestFollows(tr: seq<Snapshot>, w: Snapshot, b: Id, es: seq<NorushResult>)
    requires Run(tr) && tr[|tr| - 1] == w && Replayable(w, b, es)
    ensures Run(tr + Journal(w, b, es))
    ensures Run(tr + Journal(w, b, es) + [IngestRun(w, b, es)])
  {
    JournalFollows(tr, w, b, es);
    RecountFollows(tr + Journal(w, b, es), IngestAll(w, b, es), w, b, es);
  }

  lemma RecountFollows(tr: seq<Snapshot>, u: Snapshot, w: Snapshot, b: Id, es: seq<NorushResult>)
    requires Run(tr) && tr[|tr| - 1] == u && u == IngestAll(w, b, es) && b in w.batches && w.batches[b].status.Ended?
    ensures Run(tr + [Recounted(u, b)])
  {
    OnlyRowsAndStatuses(w, b, es);
    RunExtend(tr, Action.Recount(b, |SucceededMembers(u, b)|, |FailedMembers(u, b)|));
  }

  /** The stream answers for every member of the batch. */
  ghost predicate Covers(es: seq<NorushResult>, w: Snapshot, b: Id) {
    forall r | r in Members(w, b) :: Occurs(es, r)
  }

  /** Succeeded in place, re-queued and charged, or failed for good. */
  ghost predicate Concluded(was: Request, now: Request) {
    || now == was.(status := Succeeded)
    || now == was.(status := Queued, retryCount := was.retryCount + 1, batchId := None)
    || now == was.(status := FailedFinal)
  }

  /**
   Pipeline settlement. If the stream answers for every member of an ended batch, then every
   member is concluded, the counters add up to the members, and what was repackaged is what failed.
   */
  ghost predicate PipelineSettled(was: Snapshot, now: Snapshot, b: Id, result: RepackageResult) {
    && b in now.batches
    && (forall r | r in Members(was, b) :: r in now.requests && Concluded(was.requests[r], now.requests[r]))
    && (forall r | r in was.requests && r !in Members(was, b) :: r in now.requests && now.requests[r] == was.requests[r])
    && result.requeued + result.exhausted == now.batches[b].failedCount
    && now.batches[b].succeededCount + now.batches[b].failedCount == |Members(was, b)|
  }

  /** The members are the same before and after a pass, and each has an outcome. */
  lemma MembersAnswered(w: Snapshot, b: Id, es: seq<NorushResult>)
    requires Covers(es, w, b)
    ensures var u := IngestAll(w, b, es);
      && Members(u, b) == Members(w, b)
      && |SucceededMembers(u, b)| + |FailedMembers(u, b)| == |Members(w, b)|
      && FailedMembers(u, b) == MembersWhere(u.requests, b, Failing)
  {
    OnlyRowsAndStatuses(w, b, es);
    var u := IngestAll(w, b, es);
    forall r ensures r in Members(u, b) <==> r in Members(w, b) {
      assert r in u.requests <==> r in w.requests;
    }
    AllAnswered(u, b);
  }

  lemma AllAnswered(u: Snapshot, b: Id)
    requires forall r | r in Members(u, b) ::
               u.requests[r].status.Succeeded? || u.requests[r].status == RequestStatus.Failed
    ensures |SucceededMembers(u, b)| + |FailedMembers(u, b)| == |Members(u, b)|
    ensures FailedMembers(u, b) == MembersWhere(u.requests, b, Failing)
  {
    assert forall r :: r in Members(u, b) <==> r in u.requests && u.requests[r].batchId == Some(b);
    assert SucceededMembers(u, b) !! FailedMembers(u, b);
    assert Members(u, b) == SucceededMembers(u, b) + FailedMembers(u, b);
  }

  lemma MembersConcluded(w: Snapshot, u: Snapshot, now: map<Id, Request>, b: Id, es: seq<NorushResult>)
    requires Covers(es, w, b) && u == IngestAll(w, b, es) && MembersBecame(u.requests, now, b, AfterRepackage)
    ensures forall r | r in Members(w, b) :: r in now && Concluded(w.requests[r], now[r])
  {
    OnlyRowsAndStatuses(w, b, es);
  }

  lemma SettlesPipeline(w: Snapshot, now: Snapshot, b: Id, es: seq<NorushResult>, result: RepackageResult)
    requires b in w.batches && Covers(es, w, b) && Replayable(w, b, es)
    requires var u := IngestAll(w, b, es);
      && now.batches == Recounted(u, b).batches && MembersBecame(u.requests, now.requests, b, AfterRepackage)
      && result.requeued == |MembersWhere(u.requests, b, Requeueable)|
      && result.exhausted == |MembersWhere(u.requests, b, Exhausted)|
    ensures PipelineSettled(w, now, b, result)
  {
    var u := IngestAll(w, b, es);
    MembersAnswered(w, b, es);
    SplitByBudget(u.requests, b);
    MembersConcluded(w, u, now.requests, b, es);
    NonMembersKept(w, b, es);
    OnlyRowsAndStatuses(w, b, es);
  }

  lemma NonMembersKept(w: Snapshot, b: Id, es: seq<NorushResult>)
    requires Replayable(w, b, es)
    ensures var u := IngestAll(w, b, es);
      && u.requests.Keys == w.requests.Keys
      && forall r | r in w.requests && r !in Members(w, b) :: u.requests[r] == w.requests[r]
  {
    OnlyRowsAndStatuses(w, b, es);
    forall r | r in w.requests && r !in Members(w, b)
      ensures IngestAll(w, b, es).requests[r] == w.requests[r]
    {
      assert forall e | e in es :: Awaited(w, b, e);
      UntouchedByPrefix(w, b, es, r);
    }
  }

  lemma IngestCountersOnly(w: Snapshot, b: Id, es: seq<NorushResult>)
    ensures CountersOnly(w.batches, IngestAll(w, b, es).batches, b)
    ensures CountersOnly(w.batches, IngestRun(w, b, es).batches, b)
  {
    OnlyRowsAndStatuses(w, b, es);
  }

  /** The members were repackaged, and nothing else changed. */
  ghost predicate RepackagedFrom(was: Snapshot, now: Snapshot, b: Id) {
    && MembersBecame(was.requests, now.requests, b, AfterRepackage)
    && now.batches == was.batches && now.results == was.results && now.calls == was.calls
  }

  /** Exactly what the pipeline of an ended batch does. */
  ghost predicate CompletedBy(
      was: Snapshot, now: Snapshot, adapters: set<string>, b: Id, stream: seq<NorushResult>, broken: bool)
  {
    && b in was.batches
    && if !Ingestible(was.batches[b], adapters) then RepackagedFrom(was, now, b)
       else if broken then now == IngestAll(was, b, stream)
       else RepackagedFrom(IngestRun(was, b, stream), now, b)
  }

  /** Exactly what the pipeline of an expired batch does. */
  ghost predicate ExpiredBy(was: Snapshot, now: Snapshot, b: Id) {
    && MembersBecame(was.requests, now.requests, b, AfterExpired)
    && now.batches == was.batches && now.results == was.results && now.calls == was.calls
  }

  /** So an unbroken stream that covers the batch settles it. */
  lemma CompletedSettles(
      was: Snapshot, now: Snapshot, adapters: set<string>, b: Id, stream: seq<NorushResult>)
    returns (result: RepackageResult)
    requires CompletedBy(was, now, adapters, b, stream, false) && Ingestible(was.batches[b], adapters)
    requires Covers(stream, was, b) && Replayable(was, b, stream)
    ensures PipelineSettled(was, now, b, result)
  {
    var u := IngestAll(was, b, stream);
    var requeued, exhausted := |MembersWhere(u.requests, b, Requeueable)|, |MembersWhere(u.requests, b, Exhausted)|;
    result := RepackageResult(requeued, exhausted, requeued + exhausted);
    SettlesPipeline(was, now, b, stream, result);
  }

  /** batch:completed. A stream that breaks off stops the pipeline before anything is repackaged. */
  method OnBatchCompleted(store: Store, adapters: set<string>, b: Id, stream: seq<NorushResult>, broken: bool)
    returns (ingested: IngestionResult, result: RepackageResult)
    requires store.Sound() && b in store.batches && Replayable(store.State(), b, stream)
    modifies store
    ensures store.Sound() && store.Advanced()
    ensures CountersOnly(old(store.batches), store.batches, b)
    ensures CompletedBy(old(store.State()), store.State(), adapters, b, stream, broken)
    ensures Ingestible(old(store.batches)[b], adapters) && !broken && Covers(stream, old(store.State()), b) ==>
              PipelineSettled(old(store.State()), store.State(), b, result)
  {
    result := RepackageResult(0, 0, 0);
    ghost var w := store.State();
    ingested := IngestSoundly(store, adapters, b, stream, broken);
    IngestCountersOnly(w, b, stream);
    if !ingested.threw {
      result := Repackage(store, b);
      if Ingestible(w.batches[b], adapters) && Covers(stream, w, b) {
        SettlesPipeline(w, store.State(), b, stream, result);
      }
    }
  }
}
