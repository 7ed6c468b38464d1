/** The store the engine phases share, with a journal of every state a crash could leave behind. */
module Stores {
  import opened NorushTypes
  import opened Protocol

  datatype LifecycleState = Active | Legacy | Deprecated | Retired

  function CatalogKey(provider: ProviderName, model: string): string { ProviderKey(provider) + "::" + model }

  /** A catalog key belongs to one provider and one model. */
  lemma CatalogKeysApart(p: ProviderName, m: string, q: ProviderName, n: string)
    ensures CatalogKey(p, m) == CatalogKey(q, n) <==> p == q && m == n
  {
    if CatalogKey(p, m) == CatalogKey(q, n) {
      assert CatalogKey(p, m)[0] == ProviderKey(p)[0] && CatalogKey(q, n)[0] == ProviderKey(q)[0];
      assert CatalogKey(p, m)[|ProviderKey(p)| + 2..] == m && CatalogKey(q, n)[|ProviderKey(q)| + 2..] == n;
    }
  }

  function Lookup<V>(m: map<string, V>, key: string): Option<V> { if key in m then Some(m[key]) else None }

  class Store {
    var requests: map<Id, Request>
    var batches: map<Id, Batch>
    var results: map<Id, ResultRow>
    /** The `updatedAt` column of the batches. */
    var batchUpdatedAt: map<Id, int>
    /** Wall clock, in milliseconds. */
    var clock: int
    /** ULIDs grow with creation time, so walking ids upward is walking rows by creation time. */
    var nextRequestId: Id
    var nextBatchId: Id
    /** Provider catalog, by "provider::model". */
    var catalog: map<string, LifecycleState>
    /** user_api_keys rows, by (user, provider); empty in the in-memory store. */
    var apiKeyIds: map<(string, ProviderName), string>
    /** Every provider submit call ever made. */
    ghost var calls: seq<Call>
    /** Every durable state so far, the current one last. */
    ghost var trace: seq<Snapshot>

    constructor ()
      ensures Valid() && Run(trace)
      ensures State() == Fresh()
    {
      requests, batches, results, batchUpdatedAt := map[], map[], map[], map[];
      clock, nextRequestId, nextBatchId := 0, 0, 0;
      catalog, apiKeyIds := map[], map[];
      calls := [];
      trace := [Fresh()];
    }

    ghost function State(): Snapshot
      reads this
    {
      Snapshot(requests, batches, results, calls)
    }

    ghost predicate Valid()
      reads this
    {
      && |trace| > 0 && trace[|trace| - 1] == State()
      && (forall r | r in requests :: r < nextRequestId && requests[r].id == r)
      && (forall b | b in batches :: b < nextBatchId && batches[b].id == b)
      && batchUpdatedAt.Keys == batches.Keys
    }

    /** The store is in a state the protocol allows, reached by steps the protocol allows. */
    ghost predicate Sound()
      reads this
    {
      Valid() && Run(trace)
    }

    /** What soundness says about the current state. */
    lemma Safe()
      requires Sound()
      ensures Inv(State())
    {
      RunSafe(trace, |trace| - 1);
    }

    /** Requests point at batches that exist. */
    lemma RefsResolve()
      requires Sound()
      ensures forall r | r in requests && requests[r].batchId.Some? :: requests[r].batchId.value in batches
    {
      Safe();
    }

    lemma QueuedUnbatched()
      requires Sound()
      ensures forall r | r in requests && requests[r].status.Queued? :: requests[r].batchId.None?
    {
      Safe();
    }

    /** A pending batch's members are all `batched`. */
    lemma PendingMembersBatched(b: Id)
      requires Sound() && Protocol.Pending(State(), b)
      ensures forall r | r in requests && requests[r].batchId == Some(b) :: requests[r].status.Batched?
    {
      Safe();
      assert forall r | r in requests && requests[r].batchId == Some(b) :: OpenMember(State(), r);
    }

    lemma PendingUnreferenced()
      requires Sound()
      ensures forall b | b in batches && batches[b].status.Pending? :: batches[b].providerBatchId.None?
    {
      Safe();
    }

    lemma InFlightReferenced(b: Id)
      requires Sound() && b in batches && InFlight(batches[b].status)
      ensures batches[b].providerBatchId.Some?
    {
      Safe();
    }

    lemma CallsBelow(b: Id)
      requires Sound() && b in batches
      ensures CallsOf(calls, b) <= batches[b].submissionAttempts <= batches[b].maxSubmissionAttempts
    {
      Safe();
    }

    lemma MembersFetched(rows: seq<Request>, b: Id)
      requires Valid()
      requires forall r :: r in rows <==> r.id in requests && requests[r.id] == r && r.batchId == Some(b)
      ensures Ids(rows) == Members(State(), b)
    {
    }

    /** The write just made was the protocol's action `a`. */
    lemma Followed(a: Action)
      requires Valid() && |trace| > 1 && Run(trace[..|trace| - 1])
      requires Enabled(trace[|trace| - 2], a) && State() == Apply(trace[|trace| - 2], a)
      ensures Sound()
    {
      RunExtend(trace[..|trace| - 1], a);
      assert trace == trace[..|trace| - 1] + [State()];
    }

    // -- Writes ---------------------------------------------------------------------------

    /** A write is the old journal and the new state. */
    twostate predicate Wrote()
      reads this
    {
      && trace == old(trace) + [State()] && trace[..|trace| - 1] == old(trace)
      && catalog == old(catalog) && apiKeyIds == old(apiKeyIds) && old(clock) <= clock
    }

    method CreateRequest(provider: ProviderName, model: string, userId: string, bytes: nat, maxRetries: int)
      returns (id: Id)
      requires Valid()
      modifies this
      ensures Valid() && Wrote()
      ensures id !in old(requests)
      ensures requests == old(requests)[id :=
                Request(id, provider, model, userId, bytes, Queued, None, 0, maxRetries)]
      ensures batches == old(batches) && results == old(results) && calls == old(calls)
      ensures batchUpdatedAt == old(batchUpdatedAt) && clock == old(clock)
    {
      id := nextRequestId;
      nextRequestId := nextRequestId + 1;
      requests := requests[id := Request(id, provider, model, userId, bytes, Queued, None, 0, maxRetries)];
      trace := trace + [State()];
    }

    method UpdateRequest(id: Id, updates: Request -> Request)
      requires Valid() && id in requests && updates(requests[id]).id == id
      modifies this
      ensures Valid() && Wrote()
      ensures requests == old(requests)[id := updates(old(requests)[id])]
      ensures batches == old(batches) && results == old(results) && calls == old(calls)
      ensures batchUpdatedAt == old(batchUpdatedAt) && clock == old(clock)
    {
      requests := requests[id := updates(requests[id])];
      trace := trace + [State()];
    }

    method CreateBatch(provider: ProviderName, apiKeyId: string, requestCount: nat) returns (id: Id)
      requires Valid()
      modifies this
      ensures Valid() && Wrote()
      ensures id !in old(batches)
      ensures batches == old(batches)[id := Batch(id, provider, apiKeyId, None, Pending, requestCount, 0, 0, 0, 3)]
      ensures batchUpdatedAt == old(batchUpdatedAt)[id := clock] && clock == old(clock)
      ensures requests == old(requests) && results == old(results) && calls == old(calls)
    {
      id := nextBatchId;
      nextBatchId := nextBatchId + 1;
      batches := batches[id := Batch(id, provider, apiKeyId, None, Pending, requestCount, 0, 0, 0, 3)];
      batchUpdatedAt := batchUpdatedAt[id := clock];
      trace := trace + [State()];
    }

    method UpdateBatch(id: Id, updates: Batch -> Batch)
      requires Valid() && id in batches && updates(batches[id]).id == id
      modifies this
      ensures Valid() && Wrote()
      ensures batches == old(batches)[id := updates(old(batches)[id])]
      ensures batchUpdatedAt == old(batchUpdatedAt)[id := clock] && clock == old(clock)
      ensures requests == old(requests) && results == old(results) && calls == old(calls)
    {
      batches := batches[id := updates(batches[id])];
      batchUpdatedAt := batchUpdatedAt[id := clock];
      trace := trace + [State()];
    }

    /** Insert a result row; a second row for the same request is a duplicate-key error. */
    method CreateResult(row: ResultRow) returns (duplicate: bool)
      requires Valid()
      modifies this
      ensures Valid() && duplicate == (row.requestId in old(results))
      ensures duplicate ==> unchanged(this)
      ensures !duplicate ==> Wrote() && results == old(results)[row.requestId := row]
      ensures requests == old(requests) && batches == old(batches) && calls == old(calls)
      ensures batchUpdatedAt == old(batchUpdatedAt) && clock == old(clock)
    {
      duplicate := row.requestId in results;
      if !duplicate {
        results := results[row.requestId := row];
        trace := trace + [State()];
      }
    }

    /** `adapter.submitBatch`: the outcome is the provider's, time passes, the call is on record. */
    method CallProvider(b: Id, payload: set<Id>) returns (ref: Option<Id>)
      requires Valid()
      modifies this
      ensures Valid() && Wrote()
      ensures calls == old(calls) + [Call(b, payload, ref)]
      ensures requests == old(requests) && batches == old(batches) && results == old(results)
      ensures batchUpdatedAt == old(batchUpdatedAt)
    {
      ref := *;
      var elapsed: int :| elapsed >= 0;
      clock := clock + elapsed;
      calls := calls + [Call(b, payload, ref)];
      trace := trace + [State()];
    }

    // -- Writes that follow the protocol ------------------------------------------------------

    /** What an engine phase leaves alone, and that the journal only grows. */
    twostate predicate Advanced()
      reads this
    {
      && old(trace) <= trace
      && catalog == old(catalog) && apiKeyIds == old(apiKeyIds) && old(clock) <= clock
    }

    /** `updateRequest`, as the protocol's action `a`. */
    method CommitRequest(id: Id, updates: Request -> Request, ghost a: Action)
      requires Sound() && id in requests && updates(requests[id]).id == id
      requires Enabled(State(), a)
      requires Apply(State(), a) == WithRequest(State(), id, updates(requests[id]))
      modifies this
      ensures Sound() && Advanced()
      ensures requests == old(requests)[id := updates(old(requests)[id])]
      ensures batches == old(batches) && results == old(results) && calls == old(calls)
      ensures batchUpdatedAt == old(batchUpdatedAt) && clock == old(clock)
    {
      UpdateRequest(id, updates);
      Followed(a);
    }

    /** `updateBatch`, as the protocol's action `a`. */
    method CommitBatch(id: Id, updates: Batch -> Batch, ghost a: Action)
      requires Sound() && id in batches && updates(batches[id]).id == id
      requires Enabled(State(), a)
      requires Apply(State(), a) == WithBatch(State(), id, updates(batches[id]))
      modifies this
      ensures Sound() && Advanced()
      ensures batches == old(batches)[id := updates(old(batches)[id])]
      ensures batchUpdatedAt == old(batchUpdatedAt)[id := clock] && clock == old(clock)
      ensures requests == old(requests) && results == old(results) && calls == old(calls)
    {
      UpdateBatch(id, updates);
      Followed(a);
    }

    /** `createRequest`, which is always a protocol action. */
    method CommitNewRequest(provider: ProviderName, model: string, userId: string, bytes: nat, maxRetries: int)
      returns (id: Id)
      requires Sound()
      modifies this
      ensures Sound() && Advanced()
      ensures id !in old(requests)
      ensures requests == old(requests)[id :=
                Request(id, provider, model, userId, bytes, Queued, None, 0, maxRetries)]
      ensures batches == old(batches) && results == old(results) && calls == old(calls)
    {
      id := CreateRequest(provider, model, userId, bytes, maxRetries);
      Followed(Enqueue(requests[id]));
    }

    /** `createBatch`, which is always a protocol action. */
    method CommitNewBatch(provider: ProviderName, apiKeyId: string, requestCount: nat) returns (id: Id)
      requires Sound()
      modifies this
      ensures Sound() && Advanced()
      ensures id !in old(batches)
      ensures batches == old(batches)[id :=
                Batch(id, provider, apiKeyId, None, BatchStatus.Pending, requestCount, 0, 0, 0, 3)]
      ensures requests == old(requests) && results == old(results) && calls == old(calls)
      ensures CallsOf(calls, id) == 0 && forall r | r in requests :: requests[r].batchId != Some(id)
    {
      Safe();
      id := CreateBatch(provider, apiKeyId, requestCount);
      UncalledBatch(calls, id);
      Followed(Action.CreateBatch(batches[id]));
    }

    /** `adapter.submitBatch` with everything that belongs to the batch, after counting the attempt. */
    method CommitCall(b: Id, payload: set<Id>) returns (ref: Option<Id>)
      requires Sound() && Protocol.Pending(State(), b) && payload == Members(State(), b)
      requires CallsOf(calls, b) < batches[b].submissionAttempts
      modifies this
      ensures Sound() && Advanced()
      ensures calls == old(calls) + [Call(b, payload, ref)]
      ensures requests == old(requests) && batches == old(batches) && results == old(results)
      ensures batchUpdatedAt == old(batchUpdatedAt)
    {
      ref := CallProvider(b, payload);
      Followed(Action.CallProvider(b, payload, ref));
    }

    /** The provider call and, if it is accepted, the write that records the submission. */
    method SubmitAndRecord(b: Id, payload: set<Id>) returns (ref: Option<Id>)
      requires Sound() && Protocol.Pending(State(), b) && payload == Members(State(), b)
      requires CallsOf(calls, b) < batches[b].submissionAttempts
      modifies this
      ensures Sound() && Advanced()
      ensures calls == old(calls) + [Call(b, payload, ref)]
      ensures requests == old(requests) && results == old(results)
      ensures batches == if ref.None? then old(batches)
                         else old(batches)[b := old(batches)[b].(providerBatchId := ref, status := Submitted)]
      ensures batchUpdatedAt.Keys == old(batchUpdatedAt).Keys
      ensures forall c | c in batches && c != b :: batchUpdatedAt[c] == old(batchUpdatedAt)[c]
    {
      ref := CommitCall(b, payload);
      if ref.Some? {
        CommitBatch(b, (x: Batch) => x.(providerBatchId := ref, status := Submitted), RecordSubmission(b, ref.value));
      }
    }

    // -- Reads ----------------------------------------------------------------------------

    function FindApiKeyId(userId: string, provider: ProviderName): Option<string>
      reads this
    {
      if (userId, provider) in apiKeyIds then Some(apiKeyIds[(userId, provider)]) else None
    }

    function GetProviderCatalogEntry(provider: ProviderName, model: string): Option<LifecycleState>
      reads this
    {
      Lookup(catalog, CatalogKey(provider, model))
    }

    /** Up to `limit` queued requests, oldest first. */
    method GetQueuedRequests(limit: nat) returns (queued: seq<Request>)
      requires Valid()
      ensures |queued| <= limit && Ascending(queued)
      ensures forall q | q in queued :: q.id in requests && requests[q.id] == q && q.status.Queued?
      ensures forall r | r in requests && requests[r].status.Queued? && requests[r] !in queued ::
                |queued| == limit && forall q | q in queued :: q.id < r
    {
      queued := [];
      for i := 0 to nextRequestId
        invariant Ascending(queued)
        invariant forall q | q in queued :: q.id < i && q.id in requests && requests[q.id] == q && q.status.Queued?
        invariant forall r | r < i && r in requests && requests[r].status.Queued? :: requests[r] in queued
      {
        if i in requests && requests[i].status.Queued? {
          queued := queued + [requests[i]];
        }
      }
      if limit < |queued| {
        ghost var all := queued;
        queued := queued[..limit];
        forall r | r in requests && requests[r].status.Queued? && requests[r] !in queued
          ensures forall q | q in queued :: q.id < r
        {
          var k :| 0 <= k < |all| && all[k] == requests[r];
        }
      }
    }

    method GetRequestsByBatchId(b: Id) returns (members: seq<Request>)
      requires Valid()
      ensures Ascending(members)
      ensures forall r :: r in members <==> r.id in requests && requests[r.id] == r && r.batchId == Some(b)
    {
      members := [];
      for i := 0 to nextRequestId
        invariant Ascending(members)
        invariant forall r :: r in members <==> r.id < i && r.id in requests && requests[r.id] == r && r.batchId == Some(b)
      {
        if i in requests && requests[i].batchId == Some(b) {
          members := members + [requests[i]];
        }
      }
    }

    method GetPendingBatches() returns (pending: seq<Batch>)
      requires Valid()
      ensures AscendingBatches(pending)
      ensures forall b :: b in pending <==> b.id in batches && batches[b.id] == b && b.status.Pending?
    {
      pending := [];
      for i := 0 to nextBatchId
        invariant AscendingBatches(pending)
        invariant forall b :: b in pending <==> b.id < i && b.id in batches && batches[b.id] == b && b.status.Pending?
      {
        if i in batches && batches[i].status.Pending? {
          pending := pending + [batches[i]];
        }
      }
    }

    method GetInFlightBatches() returns (inFlight: seq<Batch>)
      requires Valid()
      ensures AscendingBatches(inFlight)
      ensures forall b :: b in inFlight <==>
                b.id in batches && batches[b.id] == b && (b.status.Submitted? || b.status == BatchStatus.Processing)
    {
      inFlight := [];
      for i := 0 to nextBatchId
        invariant AscendingBatches(inFlight)
        invariant forall b :: b in inFlight <==> b.id < i && b.id in batches && batches[b.id] == b && InFlight(b.status)
      {
        if i in batches && InFlight(batches[i].status) {
          inFlight := inFlight + [batches[i]];
        }
      }
    }
  }

  /** Rows in creation order; in particular no row twice. */
  ghost predicate Ascending(rows: seq<Request>) {
    forall i, j | 0 <= i < j < |rows| :: rows[i].id < rows[j].id
  }

  ghost predicate AscendingBatches(rows: seq<Batch>) {
    forall i, j | 0 <= i < j < |rows| :: rows[i].id < rows[j].id
  }

  /** The ids of a list of requests. */
  function Ids(rows: seq<Request>): set<Id> { set r | r in rows :: r.id }

  ghost predicate DistinctIds(rows: seq<Request>) {
    forall i, j | 0 <= i < j < |rows| :: rows[i].id != rows[j].id
  }

  /** The rows are in the store as they were fetched. */
  ghost predicate Fetched(rows: seq<Request>, requests: map<Id, Request>) {
    forall q | q in rows :: q.id in requests && requests[q.id] == q
  }

  /** A loop over fetched rows has replaced the first `i` of them by `f` of them, and nothing else. */
  ghost predicate Mapped(
      was: map<Id, Request>, now: map<Id, Request>, rows: seq<Request>, i: nat, f: Request -> Request)
  {
    && i <= |rows| && now.Keys == was.Keys
    && (forall k | 0 <= k < |rows| :: rows[k].id in now)
    && (forall k | 0 <= k < i :: now[rows[k].id] == f(rows[k]))
    && (forall k | i <= k < |rows| :: now[rows[k].id] == rows[k])
    && (forall r | r in was && r !in Ids(rows) :: now[r] == was[r])
  }

  lemma MappedStart(was: map<Id, Request>, rows: seq<Request>, f: Request -> Request)
    requires Fetched(rows, was)
    ensures Mapped(was, was, rows, 0, f)
  {
  }

  lemma MappedStep(
      was: map<Id, Request>, now: map<Id, Request>, next: map<Id, Request>, rows: seq<Request>, i: nat,
      f: Request -> Request)
    requires DistinctIds(rows) && i < |rows| && Mapped(was, now, rows, i, f)
    requires next == now[rows[i].id := f(rows[i])]
    ensures Mapped(was, next, rows, i + 1, f)
  {
    assert rows[i].id in Ids(rows);
  }

  /** Only batch `b` changed. */
  ghost predicate OnlyBatch(was: map<Id, Batch>, now: map<Id, Batch>, b: Id) {
    && now.Keys == was.Keys
    && forall c | c in was && c != b :: now[c] == was[c]
  }

  /** Every member of batch `b` was replaced by `f` of it, and nothing else. */
  ghost predicate MembersBecame(was: map<Id, Request>, now: map<Id, Request>, b: Id, f: Request -> Request) {
    && now.Keys == was.Keys
    && forall r | r in was :: now[r] == if was[r].batchId == Some(b) then f(was[r]) else was[r]
  }

  /** The rows are the members of batch `b`. */
  ghost predicate MemberRows(rows: seq<Request>, requests: map<Id, Request>, b: Id) {
    && DistinctIds(rows)
    && forall q :: q in rows <==> q.id in requests && requests[q.id] == q && q.batchId == Some(b)
  }

  lemma LoopOverMembers(was: map<Id, Request>, now: map<Id, Request>, rows: seq<Request>, b: Id, f: Request -> Request)
    requires Mapped(was, now, rows, |rows|, f)
    requires MemberRows(rows, was, b)
    requires forall r | r in was :: was[r].id == r
    ensures MembersBecame(was, now, b, f)
  {
  }
}
