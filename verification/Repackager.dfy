/** Re-queueing failed and expired requests within their retry budget. */
module Repackager {
  import opened NorushTypes
  import opened Protocol
  import opened Stores
  import ResultIngester

  function AfterRepackage(q: Request): Request {
    if !Repackageable(q.status) then q
    else if q.retryCount < q.maxRetries then q.(status := Queued, retryCount := q.retryCount + 1, batchId := None)
    else q.(status := FailedFinal)
  }

  predicate Requeueable(q: Request) { Repackageable(q.status) && q.retryCount < q.maxRetries }

  predicate Exhausted(q: Request) { Repackageable(q.status) && q.retryCount >= q.maxRetries }

  function MembersWhere(requests: map<Id, Request>, b: Id, p: Request -> bool): set<Id> {
    set r | r in requests && requests[r].batchId == Some(b) && p(requests[r])
  }

  lemma CountMembers(requests: map<Id, Request>, rows: seq<Request>, b: Id, p: Request -> bool)
    requires MemberRows(rows, requests, b) && forall r | r in requests :: requests[r].id == r
    ensures ResultIngester.CountWhere(rows, p) == |MembersWhere(requests, b, p)|
  {
    ResultIngester.CountIsSize(rows, p);
    assert forall r | r in requests && requests[r].batchId == Some(b) :: requests[r] in rows;
    assert ResultIngester.IdsWhere(rows, p) == MembersWhere(requests, b, p);
  }

  datatype RepackageResult = RepackageResult(requeued: nat, exhausted: nat, scanned: nat)

  /** One request of the scan. */
  method RepackageRequest(store: Store, q: Request, b: Id)
    requires store.Sound() && q.id in store.requests && store.requests[q.id] == q && q.batchId == Some(b)
    requires MemberOfFinished(store.State(), q.id, b)
    modifies store
    ensures store.Sound() && store.Advanced()
    ensures store.requests == old(store.requests)[q.id := AfterRepackage(q)]
    ensures store.batches == old(store.batches) && store.results == old(store.results) && store.calls == old(store.calls)
  {
    if !Repackageable(q.status) {
      assert store.requests == store.requests[q.id := q];
    } else if q.retryCount < q.maxRetries {
      store.CommitRequest(
        q.id, (r: Request) => r.(status := Queued, retryCount := q.retryCount + 1, batchId := None), Requeue(q.id, b));
    } else {
      store.CommitRequest(q.id, (r: Request) => r.(status := FailedFinal), Exhaust(q.id, b));
    }
  }

  /** The summary over the first `i` requests of the scan. */
  ghost predicate Scanned(result: RepackageResult, rows: seq<Request>, i: nat)
    requires i <= |rows|
  {
    && result.requeued == ResultIngester.CountWhere(rows[..i], Requeueable)
    && result.exhausted == ResultIngester.CountWhere(rows[..i], Exhausted)
    && result.scanned == result.requeued + result.exhausted
  }

  function Tally(result: RepackageResult, q: Request): RepackageResult {
    if Requeueable(q) then result.(requeued := result.requeued + 1, scanned := result.scanned + 1)
    else if Exhausted(q) then result.(exhausted := result.exhausted + 1, scanned := result.scanned + 1)
    else result
  }

  lemma ScannedSnoc(result: RepackageResult, rows: seq<Request>, i: nat)
    requires i < |rows| && Scanned(result, rows, i)
    ensures Scanned(Tally(result, rows[i]), rows, i + 1)
  {
    assert rows[..i + 1][..i] == rows[..i];
  }

  /** Where the scan stands after the first `i` requests. */
  ghost predicate ScannedTo(was: Snapshot, now: Snapshot, rows: seq<Request>, i: nat, result: RepackageResult) {
    && i <= |rows| && Mapped(was.requests, now.requests, rows, i, AfterRepackage) && Scanned(result, rows, i)
    && now.batches == was.batches && now.results == was.results && now.calls == was.calls
  }

  lemma ScanStart(was: Snapshot, rows: seq<Request>, b: Id)
    requires MemberRows(rows, was.requests, b)
    ensures ScannedTo(was, was, rows, 0, RepackageResult(0, 0, 0))
  {
    MappedStart(was.requests, rows, AfterRepackage);
  }

  /** The next request of the scan. */
  method ScanNext(
      store: Store, rows: seq<Request>, i: nat, b: Id, result: RepackageResult, ghost was: Snapshot)
    returns (next: RepackageResult)
    requires store.Sound() && MemberRows(rows, was.requests, b) && i < |rows|
    requires b in was.batches && (was.batches[b].status.Ended? || was.batches[b].status.Expired?)
    requires ScannedTo(was, store.State(), rows, i, result)
    modifies store
    ensures store.Sound() && store.Advanced()
    ensures ScannedTo(was, store.State(), rows, i + 1, next)
  {
    ghost var now := store.requests;
    assert rows[i] in rows;
    RepackageRequest(store, rows[i], b);
    MappedStep(was.requests, now, store.requests, rows, i, AfterRepackage);
    ScannedSnoc(result, rows, i);
    next := Tally(result, rows[i]);
  }

  lemma ScanEnd(was: Snapshot, now: Snapshot, rows: seq<Request>, b: Id, result: RepackageResult)
    requires MemberRows(rows, was.requests, b) && forall r | r in was.requests :: was.requests[r].id == r
    requires ScannedTo(was, now, rows, |rows|, result)
    ensures MembersBecame(was.requests, now.requests, b, AfterRepackage)
    ensures result.requeued == |MembersWhere(was.requests, b, Requeueable)|
    ensures result.exhausted == |MembersWhere(was.requests, b, Exhausted)|
  {
    assert rows[..|rows|] == rows;
    LoopOverMembers(was.requests, now.requests, rows, b, AfterRepackage);
    CountMembers(was.requests, rows, b, Requeueable);
    CountMembers(was.requests, rows, b, Exhausted);
  }

  /** Those re-queued are those that left the batch. */
  lemma RequeuedLeft(was: map<Id, Request>, now: map<Id, Request>, b: Id)
    requires MembersBecame(was, now, b, AfterRepackage)
    ensures MembersWhere(was, b, Requeueable) ==
              set r | r in was && r in now && was[r].batchId == Some(b) && now[r].batchId == None
  {
  }

  /** Failed and expired members go back to the queue while their budget lasts, else fail for good. */
  method Repackage(store: Store, b: Id) returns (result: RepackageResult)
    requires store.Sound() && b in store.batches
    requires store.batches[b].status.Ended? || store.batches[b].status.Expired?
    modifies store
    ensures store.Sound() && store.Advanced()
    ensures MembersBecame(old(store.requests), store.requests, b, AfterRepackage)
    ensures result.requeued == |MembersWhere(old(store.requests), b, Requeueable)|
    ensures result.exhausted == |MembersWhere(old(store.requests), b, Exhausted)|
    ensures result.scanned == result.requeued + result.exhausted
    ensures result.requeued == |set r | r in old(store.requests) && r in store.requests
                                        && old(store.requests)[r].batchId == Some(b) && store.requests[r].batchId == None|
    ensures store.batches == old(store.batches) && store.results == old(store.results) && store.calls == old(store.calls)
  {
    result := RepackageResult(0, 0, 0);
    var rows := store.GetRequestsByBatchId(b);
    ghost var was := store.State();
    ScanStart(was, rows, b);
    for i := 0 to |rows|
      invariant store.Sound() && store.Advanced()
      invariant ScannedTo(was, store.State(), rows, i, result)
    {
      result := ScanNext(store, rows, i, b, result, was);
    }
    ScanEnd(was, store.State(), rows, b, result);
    RequeuedLeft(was.requests, store.requests, b);
  }
}
