/** Submitting one chunk, write before submit, with or without failover over the user's keys. */
module Submission {
  import opened NorushTypes
  import opened Protocol
  import opened Stores
  import opened KeySelector

  /** A queued request once it has been put into batch `b`. */
  function Assigned(q: Request, b: Id): Request { q.(batchId := Some(b), status := Batched) }

  /** The chunk's rows are stored as fetched, and still queued. */
  ghost predicate StillQueued(chunk: seq<Request>, requests: map<Id, Request>) {
    Fetched(chunk, requests) && forall q | q in chunk :: q.status.Queued? && q.batchId.None?
  }

  /** No request outside the chunk was touched. */
  ghost predicate OthersKept(was: map<Id, Request>, now: map<Id, Request>, chunk: seq<Request>) {
    && now.Keys == was.Keys
    && forall r | r in was && r !in Ids(chunk) :: now[r] == was[r]
  }

  ghost predicate AllAssigned(chunk: seq<Request>, requests: map<Id, Request>, b: Id) {
    forall q | q in chunk :: q.id in requests && requests[q.id] == Assigned(q, b)
  }

  method AssignBatchToRequests(store: Store, chunk: seq<Request>, b: Id)
    requires store.Sound() && DistinctIds(chunk) && StillQueued(chunk, store.requests)
    requires Protocol.Pending(store.State(), b) && store.batches[b].submissionAttempts == 0
    modifies store
    ensures store.Sound() && store.Advanced()
    ensures AllAssigned(chunk, store.requests, b) && OthersKept(old(store.requests), store.requests, chunk)
    ensures store.batches == old(store.batches) && store.results == old(store.results) && store.calls == old(store.calls)
  {
    ghost var f := (q: Request) => Assigned(q, b);
    MappedStart(store.requests, chunk, f);
    for i := 0 to |chunk|
      invariant store.Sound() && store.Advanced()
      invariant Mapped(old(store.requests), store.requests, chunk, i, f)
      invariant store.batches == old(store.batches) && store.results == old(store.results) && store.calls == old(store.calls)
    {
      var req := chunk[i];
      ghost var now := store.requests;
      store.CommitRequest(req.id, (r: Request) => r.(batchId := Some(b), status := Batched), Assign(req.id, b));
      MappedStep(old(store.requests), now, store.requests, chunk, i, f);
    }
  }

  /** One request back to the queue. */
  method RevertOne(store: Store, req: Request, b: Id)
    requires store.Sound() && req.id in store.requests && store.requests[req.id] == Assigned(req, b)
    requires req.status.Queued? && req.batchId.None?
    requires Protocol.Pending(store.State(), b) && LastCall(store.State(), b, None)
    modifies store
    ensures store.Sound() && store.Advanced()
    ensures store.requests == old(store.requests)[req.id := req]
    ensures store.batches == old(store.batches) && store.results == old(store.results) && store.calls == old(store.calls)
  {
    store.CommitRequest(req.id, (r: Request) => r.(batchId := None, status := Queued), Revert(req.id, b));
  }

  /** Undo the assignment after a failed call: batchId null, status queued. */
  method RevertToQueued(store: Store, chunk: seq<Request>, b: Id, ghost was: map<Id, Request>)
    requires store.Sound() && DistinctIds(chunk) && StillQueued(chunk, was)
    requires AllAssigned(chunk, store.requests, b) && OthersKept(was, store.requests, chunk)
    requires Protocol.Pending(store.State(), b) && LastCall(store.State(), b, None)
    modifies store
    ensures store.Sound() && store.Advanced()
    ensures store.requests == was
    ensures store.batches == old(store.batches) && store.results == old(store.results) && store.calls == old(store.calls)
  {
    ghost var f := (q: Request) => Assigned(q, b);
    assert Mapped(was, store.requests, chunk, |chunk|, f);
    for i := 0 to |chunk|
      invariant store.Sound() && store.Advanced()
      invariant Unmapped(was, store.requests, chunk, i, f)
      invariant store.batches == old(store.batches) && store.results == old(store.results) && store.calls == old(store.calls)
    {
      ghost var now := store.requests;
      assert chunk[i] in chunk;
      RevertOne(store, chunk[i], b);
      UnmappedStep(was, now, store.requests, chunk, i, f);
    }
    UnmappedAll(was, store.requests, chunk, f);
  }

  /** A loop over mapped rows has put the first `i` of them back. */
  ghost predicate Unmapped(
      was: map<Id, Request>, now: map<Id, Request>, rows: seq<Request>, i: nat, f: Request -> Request)
  {
    && i <= |rows| && now.Keys == was.Keys
    && (forall k | 0 <= k < |rows| :: rows[k].id in now)
    && (forall k | 0 <= k < i :: now[rows[k].id] == rows[k])
    && (forall k | i <= k < |rows| :: now[rows[k].id] == f(rows[k]))
    && (forall r | r in was && r !in Ids(rows) :: now[r] == was[r])
  }

  lemma UnmappedStep(
      was: map<Id, Request>, now: map<Id, Request>, next: map<Id, Request>, rows: seq<Request>, i: nat,
      f: Request -> Request)
    requires DistinctIds(rows) && i < |rows| && Unmapped(was, now, rows, i, f)
    requires next == now[rows[i].id := rows[i]]
    ensures Unmapped(was, next, rows, i + 1, f)
  {
  }

  lemma UnmappedAll(was: map<Id, Request>, now: map<Id, Request>, rows: seq<Request>, f: Request -> Request)
    requires Fetched(rows, was) && Unmapped(was, now, rows, |rows|, f)
    ensures now == was
  {
  }

  method CountFirstAttempt(store: Store, b: Id)
    requires store.Sound() && Protocol.Pending(store.State(), b)
    requires store.batches[b].submissionAttempts == 0 < store.batches[b].maxSubmissionAttempts
    modifies store
    ensures store.Sound() && store.Advanced()
    ensures store.batches == old(store.batches)[b := old(store.batches)[b].(submissionAttempts := 1)]
    ensures store.requests == old(store.requests) && store.results == old(store.results) && store.calls == old(store.calls)
  {
    store.CommitBatch(b, (x: Batch) => x.(submissionAttempts := 1), CountAttempt(b));
  }

  /** Write the batch record and put the chunk into it, before any provider call. */
  method WriteBatch(store: Store, chunk: seq<Request>, provider: ProviderName, apiKeyId: string) returns (b: Id)
    requires store.Sound() && DistinctIds(chunk) && StillQueued(chunk, store.requests)
    modifies store
    ensures store.Sound() && store.Advanced()
    ensures b !in old(store.batches)
    ensures store.batches == old(store.batches)[b :=
              Batch(b, provider, apiKeyId, None, BatchStatus.Pending, |chunk|, 0, 0, 1, 3)]
    ensures AllAssigned(chunk, store.requests, b) && OthersKept(old(store.requests), store.requests, chunk)
    ensures Members(store.State(), b) == Ids(chunk) && CallsOf(store.calls, b) == 0
    ensures store.results == old(store.results) && store.calls == old(store.calls)
  {
    b := store.CommitNewBatch(provider, apiKeyId, |chunk|);
    AssignBatchToRequests(store, chunk, b);
    CountFirstAttempt(store, b);
    MembersAssigned(old(store.requests), store.State(), chunk, b);
  }

  lemma MembersAssigned(was: map<Id, Request>, w: Snapshot, chunk: seq<Request>, b: Id)
    requires AllAssigned(chunk, w.requests, b) && OthersKept(was, w.requests, chunk)
    requires forall r | r in was :: was[r].batchId != Some(b)
    ensures Members(w, b) == Ids(chunk)
  {
  }

  /** A batch record once its call has been answered. */
  function Answered(b: Id, provider: ProviderName, apiKeyId: string, size: nat, ref: Option<Id>): Batch {
    Batch(b, provider, apiKeyId, ref, if ref.Some? then Submitted else BatchStatus.Pending, size, 0, 0, 1, 3)
  }

  /**
   What writing and sending a chunk leaves: one new batch, which holds exactly the chunk and names
   the key, and one call for it.
   */
  ghost predicate SentAs(
      was: Snapshot, now: Snapshot, chunk: seq<Request>, provider: ProviderName, apiKeyId: string, b: Id, ref: Option<Id>)
  {
    && b !in was.batches
    && now.batches == was.batches[b := Answered(b, provider, apiKeyId, |chunk|, ref)]
    && AllAssigned(chunk, now.requests, b) && OthersKept(was.requests, now.requests, chunk)
    && Members(now, b) == Ids(chunk) && now.results == was.results
    && now.calls == was.calls + [Call(b, Ids(chunk), ref)]
  }

  /** Write before submit: the batch, its members and the attempt are on record before the provider is called. */
  method SendChunk(store: Store, chunk: seq<Request>, provider: ProviderName, apiKeyId: string)
    returns (b: Id, ref: Option<Id>)
    requires store.Sound() && DistinctIds(chunk) && StillQueued(chunk, store.requests)
    modifies store
    ensures store.Sound() && store.Advanced()
    ensures SentAs(old(store.State()), store.State(), chunk, provider, apiKeyId, b, ref)
  {
    b := WriteBatch(store, chunk, provider, apiKeyId);
    ref := store.SubmitAndRecord(b, Ids(chunk));
  }

  /** Where a rejected chunk stands before it is handed back. */
  lemma SentRejected(was: Snapshot, now: Snapshot, chunk: seq<Request>, provider: ProviderName, apiKeyId: string, b: Id)
    requires SentAs(was, now, chunk, provider, apiKeyId, b, None)
    ensures AllAssigned(chunk, now.requests, b) && OthersKept(was.requests, now.requests, chunk)
    ensures Protocol.Pending(now, b) && LastCall(now, b, None)
    ensures b !in was.batches && now.results == was.results
    ensures forall c | c in was.batches :: c in now.batches && now.batches[c] == was.batches[c]
    ensures now.batches.Keys == was.batches.Keys + {b}
  {
  }

  /**
   What one submission leaves behind. Either the chunk is untouched and still queued, or all of
   it is `batched` in the new batch `into`, whose members are exactly the chunk.
   */
  ghost predicate Uniform(was: Snapshot, now: Snapshot, chunk: seq<Request>, into: Option<Id>) {
    && OthersKept(was.requests, now.requests, chunk)
    && (forall b | b in was.batches :: b in now.batches && now.batches[b] == was.batches[b])
    && now.results == was.results
    && match into
       case None => now.requests == was.requests
       case Some(b) =>
         && b !in was.batches && b in now.batches
         && AllAssigned(chunk, now.requests, b) && Members(now, b) == Ids(chunk)
         && now.batches[b].requestCount == |chunk|
         && (now.batches[b].status.Submitted? || now.batches[b].status.Pending?)
  }

  lemma UniformInto(
      was: Snapshot, now: Snapshot, chunk: seq<Request>, provider: ProviderName, apiKeyId: string, b: Id, ref: Option<Id>)
    requires SentAs(was, now, chunk, provider, apiKeyId, b, ref)
    ensures Uniform(was, now, chunk, Some(b))
    ensures Leftovers(was, now, Some(b), BatchStatus.Pending) && Leftovers(was, now, Some(b), BatchStatus.Failed)
  {
  }

  lemma UniformNone(was: Snapshot, now: Snapshot, chunk: seq<Request>)
    requires now.requests == was.requests && now.results == was.results
    requires forall c | c in was.batches :: c in now.batches && now.batches[c] == was.batches[c]
    ensures Uniform(was, now, chunk, None)
  {
  }

  /** No request points at any other batch the submission created. */
  lemma NoStrays(was: Snapshot, now: Snapshot, chunk: seq<Request>, into: Option<Id>, b: Id)
    requires Rows(was) && Uniform(was, now, chunk, into)
    requires b in now.batches && b !in was.batches && into != Some(b)
    ensures Members(now, b) == {}
  {
  }

  /** Every batch but `into` that was created on the way has this status. */
  ghost predicate Leftovers(was: Snapshot, now: Snapshot, into: Option<Id>, s: BatchStatus) {
    forall b | b in now.batches && b !in was.batches && into != Some(b) ::
      now.batches[b].status == s && now.batches[b].providerBatchId.None?
  }

  /** This call carried the chunk, for a batch that names the key. */
  ghost predicate CallFor(now: Snapshot, c: Call, chunk: seq<Request>, apiKeyId: string)
    requires chunk != []
  {
    && c.payload == Ids(chunk) && c.batch in now.batches
    && now.batches[c.batch].apiKeyId == apiKeyId && now.batches[c.batch].provider == chunk[0].provider
  }

  /** One provider call was made, for exactly the chunk; `into` is its batch if it was accepted. */
  ghost predicate Called(was: Snapshot, now: Snapshot, chunk: seq<Request>, apiKeyId: string, into: Option<Id>)
    requires chunk != []
  {
    && |now.calls| == |was.calls| + 1 && was.calls <= now.calls
    && var c := now.calls[|was.calls|];
      && CallFor(now, c, chunk, apiKeyId) && into == (if c.ref.Some? then Some(c.batch) else None)
      && c.batch !in was.batches && now.batches.Keys == was.batches.Keys + {c.batch}
      && now.batches[c.batch].status == if c.ref.Some? then Submitted else BatchStatus.Pending
  }

  /** The owner's key row if there is one, else the user id. */
  function LegacyKey(apiKeyIds: map<(string, ProviderName), string>, userId: string, provider: ProviderName): string {
    if (userId, provider) in apiKeyIds then apiKeyIds[(userId, provider)] else userId
  }

  /**
   Submission through the adapter map. Without an adapter nothing is written; a failed call hands
   the chunk back to the queue and leaves its empty batch pending.
   */
  method SubmitWithLegacyProvider(store: Store, adapters: set<string>, chunk: seq<Request>)
    returns (ghost into: Option<Id>)
    requires store.Sound() && chunk != [] && DistinctIds(chunk) && StillQueued(chunk, store.requests)
    modifies store
    ensures store.Sound() && store.Advanced()
    ensures Uniform(old(store.State()), store.State(), chunk, into)
    ensures Leftovers(old(store.State()), store.State(), into, BatchStatus.Pending)
    ensures into.Some? ==> store.batches[into.value].status.Submitted?
    ensures if HasAdapter(adapters, chunk[0].provider, chunk[0].userId)
            then Called(old(store.State()), store.State(), chunk,
                        LegacyKey(store.apiKeyIds, chunk[0].userId, chunk[0].provider), into)
            else store.State() == old(store.State())
  {
    into := None;
    ghost var was := store.State();
    var provider, userId := chunk[0].provider, chunk[0].userId;
    if HasAdapter(adapters, provider, userId) {
      var keyRow := store.FindApiKeyId(userId, provider);
      var apiKeyId := if keyRow.Some? then keyRow.value else userId;
      var b, ref := SendChunk(store, chunk, provider, apiKeyId);
      if ref.Some? {
        into := Some(b);
        UniformInto(was, store.State(), chunk, provider, apiKeyId, b, ref);
      } else {
        SentRejected(was, store.State(), chunk, provider, apiKeyId, b);
        RevertToQueued(store, chunk, b, was.requests);
        UniformNone(was, store.State(), chunk);
      }
    }
  }

  // -- Failover over keys -------------------------------------------------------------------

  /** How one key's attempt ended; `Rejected` is a rate-limit or credit error. */
  datatype Outcome = Accepted | Rejected | Broken

  /** One key tried; `built` says whether its provider could be built at all. */
  datatype Try = Try(key: ApiKeyInfo, built: bool, outcome: Outcome)

  /**
   What the key resolver and the providers will do: the users' keys; whether building the provider
   of the i-th candidate of a turn throws, and then whether the error is eligible for failover;
   and whether the error of a batch's failed call is. Every attempt has its own answer.
   */
  datatype Resolver = Resolver(
    keys: map<(string, ProviderName), seq<ApiKeyInfo>>, buildError: (nat, nat) -> Option<bool>, eligible: Id -> bool)

  function KeysForUser(resolver: Resolver, userId: string, provider: ProviderName): seq<ApiKeyInfo> {
    if (userId, provider) in resolver.keys then resolver.keys[(userId, provider)] else []
  }

  /** The outcome of a call that was made. */
  function OutcomeOf(c: Call, resolver: Resolver): Outcome {
    if c.ref.Some? then Accepted else if resolver.eligible(c.batch) then Rejected else Broken
  }

  /** What an outcome makes of the batch. */
  function StatusAfter(outcome: Outcome): BatchStatus {
    match outcome
    case Accepted => Submitted
    case Rejected => BatchStatus.Failed
    case Broken => BatchStatus.Pending
  }

  /** The call made with a built key: for the chunk, under the key, with the outcome it had. */
  ghost predicate Carried(now: Snapshot, c: Call, chunk: seq<Request>, t: Try, resolver: Resolver)
    requires chunk != []
  {
    && CallFor(now, c, chunk, t.key.id)
    && t.outcome == OutcomeOf(c, resolver) && now.batches[c.batch].status == StatusAfter(t.outcome)
  }

  /** One call for a built key, in a batch of its own. */
  ghost predicate CalledWith(
      was: Snapshot, now: Snapshot, chunk: seq<Request>, t: Try, resolver: Resolver, into: Option<Id>)
    requires chunk != []
  {
    && |now.calls| == |was.calls| + 1 && was.calls <= now.calls
    && var c := now.calls[|was.calls|];
      && Carried(now, c, chunk, t, resolver)
      && c.batch !in was.batches && now.batches.Keys == was.batches.Keys + {c.batch}
      && into == if t.outcome.Rejected? then None else Some(c.batch)
  }

  /** One key: write before submit; a rejected chunk goes back to the queue and its batch is failed. */
  method SubmitBatchWithAdapter(store: Store, chunk: seq<Request>, key: ApiKeyInfo, resolver: Resolver)
    returns (outcome: Outcome, ghost into: Option<Id>)
    requires store.Sound() && chunk != [] && DistinctIds(chunk) && StillQueued(chunk, store.requests)
    modifies store
    ensures store.Sound() && store.Advanced()
    ensures Uniform(old(store.State()), store.State(), chunk, into)
    ensures Leftovers(old(store.State()), store.State(), into, BatchStatus.Failed)
    ensures CalledWith(old(store.State()), store.State(), chunk, Try(key, true, outcome), resolver, into)
    ensures ChunkEndedAs(store.State(), chunk, resolver, store.calls[|old(store.calls)|..])
  {
    ghost var was := store.State();
    store.RefsResolve();
    var b, ref := SendChunk(store, chunk, chunk[0].provider, key.id);
    ghost var sent := store.State();
    if ref.Some? {
      outcome, into := Accepted, Some(b);
      UniformInto(was, sent, chunk, chunk[0].provider, key.id, b, ref);
    } else if resolver.eligible(b) {
      HandBack(store, chunk, b, was, key.id);
      outcome, into := Rejected, None;
    } else {
      outcome, into := Broken, Some(b);
      UniformInto(was, sent, chunk, chunk[0].provider, key.id, b, ref);
    }
    CalledFromSent(was, sent, store.State(), chunk, key, outcome, resolver, b, ref, into);
    CalledEnded(was, store.State(), chunk, Try(key, true, outcome), resolver, into);
  }

  lemma CalledEnded(
      was: Snapshot, now: Snapshot, chunk: seq<Request>, t: Try, resolver: Resolver, into: Option<Id>)
    requires chunk != [] && CalledWith(was, now, chunk, t, resolver, into)
    requires StillQueued(chunk, was.requests) && Uniform(was, now, chunk, into)
    ensures ChunkEndedAs(now, chunk, resolver, now.calls[|was.calls|..])
  {
    assert now.calls[|was.calls|..] == [now.calls[|was.calls|]];
  }

  lemma CalledFromSent(
      was: Snapshot, sent: Snapshot, now: Snapshot, chunk: seq<Request>, key: ApiKeyInfo, outcome: Outcome,
      resolver: Resolver, b: Id, ref: Option<Id>, into: Option<Id>)
    requires chunk != [] && SentAs(was, sent, chunk, chunk[0].provider, key.id, b, ref) && now.calls == sent.calls
    requires outcome == OutcomeOf(Call(b, Ids(chunk), ref), resolver)
    requires now.batches == if outcome.Rejected? then sent.batches[b := sent.batches[b].(status := BatchStatus.Failed)]
                            else sent.batches
    requires into == if outcome.Rejected? then None else Some(b)
    ensures CalledWith(was, now, chunk, Try(key, true, outcome), resolver, into)
  {
  }

  /** A rejected call: the chunk goes back to the queue, its batch is given up. */
  method HandBack(store: Store, chunk: seq<Request>, b: Id, ghost was: Snapshot, ghost apiKeyId: string)
    requires store.Sound() && chunk != [] && DistinctIds(chunk) && StillQueued(chunk, was.requests)
    requires SentAs(was, store.State(), chunk, chunk[0].provider, apiKeyId, b, None)
    requires forall r | r in was.requests && was.requests[r].batchId.Some? :: was.requests[r].batchId.value in was.batches
    modifies store
    ensures store.Sound() && store.Advanced()
    ensures store.calls == old(store.calls)
    ensures store.batches == old(store.batches)[b := old(store.batches)[b].(status := BatchStatus.Failed)]
    ensures Uniform(was, store.State(), chunk, None)
    ensures Leftovers(was, store.State(), None, BatchStatus.Failed)
  {
    SentRejected(was, store.State(), chunk, chunk[0].provider, apiKeyId, b);
    ghost var sent := store.batches;
    RevertToQueued(store, chunk, b, was.requests);
    AbandonEmptied(store, b, was);
    HandedBack(was, sent, store.State(), chunk, b);
  }

  lemma HandedBack(was: Snapshot, sent: map<Id, Batch>, now: Snapshot, chunk: seq<Request>, b: Id)
    requires now.requests == was.requests && now.results == was.results
    requires b !in was.batches && sent.Keys == was.batches.Keys + {b} && sent[b].providerBatchId.None?
    requires forall c | c in was.batches :: sent[c] == was.batches[c]
    requires now.batches == sent[b := sent[b].(status := BatchStatus.Failed)]
    ensures Uniform(was, now, chunk, None) && Leftovers(was, now, None, BatchStatus.Failed)
  {
  }

  method AbandonEmptied(store: Store, b: Id, ghost was: Snapshot)
    requires store.Sound() && Protocol.Pending(store.State(), b) && LastCall(store.State(), b, None)
    requires b !in was.batches && store.requests == was.requests
    requires forall r | r in was.requests && was.requests[r].batchId.Some? :: was.requests[r].batchId.value in was.batches
    modifies store
    ensures store.Sound() && store.Advanced()
    ensures store.batches == old(store.batches)[b := old(store.batches)[b].(status := BatchStatus.Failed)]
    ensures store.calls == old(store.calls)
    ensures store.requests == old(store.requests) && store.results == old(store.results)
  {
    assert Members(store.State(), b) == {};
    store.CommitBatch(b, (x: Batch) => x.(status := BatchStatus.Failed), AbandonBatch(b));
  }

  /** A key that could not be built leaves no trace; a built one made one call. */
  ghost predicate KeyTried(
      was: Snapshot, now: Snapshot, chunk: seq<Request>, t: Try, resolver: Resolver, buildError: Option<bool>,
      into: Option<Id>)
    requires chunk != []
  {
    match buildError
    case None => t.built && CalledWith(was, now, chunk, t, resolver, into)
    case Some(eligible) =>
      && !t.built && t.outcome == (if eligible then Rejected else Broken)
      && now == was && into.None?
  }

  /** One round of the failover loop; buildProvider may throw before any batch is written. */
  method TryKey(store: Store, key: ApiKeyInfo, chunk: seq<Request>, resolver: Resolver, buildError: Option<bool>)
    returns (t: Try, ghost into: Option<Id>)
    requires store.Sound() && chunk != [] && DistinctIds(chunk) && StillQueued(chunk, store.requests)
    modifies store
    ensures store.Sound() && store.Advanced()
    ensures Uniform(old(store.State()), store.State(), chunk, into)
    ensures Leftovers(old(store.State()), store.State(), into, BatchStatus.Failed)
    ensures t.key == key && KeyTried(old(store.State()), store.State(), chunk, t, resolver, buildError, into)
  {
    match buildError
    case Some(eligible) =>
      t, into := Try(key, false, if eligible then Rejected else Broken), None;
    case None =>
      var outcome;
      outcome, into := SubmitBatchWithAdapter(store, chunk, key, resolver);
      t := Try(key, true, outcome);
  }

  /** Keys tried so far: candidates in order, all rejected except possibly the last. */
  ghost predicate TriedInOrder(tried: seq<Try>, candidates: seq<ApiKeyInfo>) {
    && |tried| <= |candidates|
    && (forall k | 0 <= k < |tried| :: tried[k].key == candidates[k])
    && (forall k | 0 <= k < |tried| - 1 :: tried[k].outcome.Rejected?)
  }

  /** The loop stops early only at a key that was not rejected. */
  ghost predicate LoopEnded(tried: seq<Try>, candidates: seq<ApiKeyInfo>) {
    |tried| < |candidates| ==> tried != [] && !tried[|tried| - 1].outcome.Rejected?
  }

  /** The tried keys whose provider could be built, in order: those that were called with. */
  function Built(tried: seq<Try>): seq<Try> {
    if tried == [] then []
    else Built(tried[..|tried| - 1]) + if tried[|tried| - 1].built then [tried[|tried| - 1]] else []
  }

  /** Who could be built and who could not was the resolver's answer, for each key on its own. */
  ghost predicate BuiltAsAnswered(tried: seq<Try>, resolver: Resolver, turn: nat) {
    forall k | 0 <= k < |tried| ::
      && tried[k].built == resolver.buildError(turn, k).None?
      && (!tried[k].built ==> tried[k].outcome == if resolver.buildError(turn, k).value then Rejected else Broken)
  }

  /** The calls made are one for each built key, in order, each in a new batch of its own. */
  ghost predicate AllCarried(
      was: Snapshot, now: Snapshot, chunk: seq<Request>, built: seq<Try>, resolver: Resolver, made: seq<Call>)
    requires chunk != []
  {
    && now.calls == was.calls + made && |made| == |built|
    && (forall k | 0 <= k < |made| :: Carried(now, made[k], chunk, built[k], resolver))
    && OwnBatches(was.batches.Keys, now.batches.Keys, made)
  }

  ghost function BatchesOf(made: seq<Call>): set<Id> { set c | c in made :: c.batch }

  /** Each call has a new batch of its own, and no other batch is new. */
  ghost predicate OwnBatches(was: set<Id>, now: set<Id>, made: seq<Call>) {
    && now == was + BatchesOf(made)
    && (forall k | 0 <= k < |made| :: made[k].batch in now && made[k].batch !in was)
    && (forall j, k | 0 <= j < k < |made| :: made[j].batch != made[k].batch)
  }

  /** The batch the chunk ended in is that of the last call, unless the last key tried was rejected or not built. */
  ghost predicate IntoLast(made: seq<Call>, tried: seq<Try>, into: Option<Id>) {
    if tried == [] || tried[|tried| - 1].outcome.Rejected? || !tried[|tried| - 1].built then into.None?
    else made != [] && into == Some(made[|made| - 1].batch)
  }

  /** What the keys tried in one turn of the loop did. */
  ghost predicate TurnMade(
      was: Snapshot, now: Snapshot, chunk: seq<Request>, tried: seq<Try>, resolver: Resolver, turn: nat, made: seq<Call>,
      into: Option<Id>)
    requires chunk != []
  {
    && AllCarried(was, now, chunk, Built(tried), resolver, made)
    && BuiltAsAnswered(tried, resolver, turn)
    && IntoLast(made, tried, into)
  }

  lemma TriedSnoc(tried: seq<Try>, candidates: seq<ApiKeyInfo>, t: Try)
    requires TriedInOrder(tried, candidates) && |tried| < |candidates| && t.key == candidates[|tried|]
    requires tried != [] ==> tried[|tried| - 1].outcome.Rejected?
    ensures TriedInOrder(tried + [t], candidates)
  {
  }

  lemma BuiltSnoc(tried: seq<Try>, t: Try)
    ensures Built(tried + [t]) == Built(tried) + if t.built then [t] else []
  {
    assert (tried + [t])[..|tried|] == tried;
  }

  /** Batches of calls made before are as they were, so those calls still are what they were. */
  lemma CarriedKept(
      before: Snapshot, now: Snapshot, chunk: seq<Request>, built: seq<Try>, resolver: Resolver, made: seq<Call>)
    requires chunk != [] && |made| == |built|
    requires forall k | 0 <= k < |made| :: Carried(before, made[k], chunk, built[k], resolver)
    requires forall b | b in before.batches :: b in now.batches && now.batches[b] == before.batches[b]
    ensures forall k | 0 <= k < |made| :: Carried(now, made[k], chunk, built[k], resolver)
  {
    forall k | 0 <= k < |made| ensures Carried(now, made[k], chunk, built[k], resolver) {
      assert Carried(before, made[k], chunk, built[k], resolver);
    }
  }

  lemma OwnBatchesSnoc(was: set<Id>, before: set<Id>, now: set<Id>, made: seq<Call>, c: Call)
    requires OwnBatches(was, before, made) && was <= before && c.batch !in before && now == before + {c.batch}
    ensures OwnBatches(was, now, made + [c])
  {
    assert BatchesOf(made + [c]) == BatchesOf(made) + {c.batch};
  }

  lemma CarriedSnoc(
      was: Snapshot, before: Snapshot, now: Snapshot, chunk: seq<Request>, built: seq<Try>, t: Try, resolver: Resolver,
      made: seq<Call>, c: Call, into: Option<Id>)
    requires chunk != [] && was.batches.Keys <= before.batches.Keys && AllCarried(was, before, chunk, built, resolver, made)
    requires CalledWith(before, now, chunk, t, resolver, into) && c == now.calls[|before.calls|]
    requires forall b | b in before.batches :: b in now.batches && now.batches[b] == before.batches[b]
    ensures AllCarried(was, now, chunk, built + [t], resolver, made + [c])
  {
    CarriedKept(before, now, chunk, built, resolver, made);
    OwnBatchesSnoc(was.batches.Keys, before.batches.Keys, now.batches.Keys, made, c);
    assert now.calls == before.calls + [c];
  }

  /** The calls made, once one more key was tried. */
  ghost function Extended(made: seq<Call>, before: Snapshot, now: Snapshot, t: Try): seq<Call>
    requires t.built ==> |now.calls| > |before.calls|
  {
    if t.built then made + [now.calls[|before.calls|]] else made
  }

  lemma AnsweredSnoc(tried: seq<Try>, t: Try, resolver: Resolver, turn: nat)
    requires BuiltAsAnswered(tried, resolver, turn)
    requires t.built == resolver.buildError(turn, |tried|).None?
    requires !t.built ==> t.outcome == if resolver.buildError(turn, |tried|).value then Rejected else Broken
    ensures BuiltAsAnswered(tried + [t], resolver, turn)
  {
    forall k | 0 <= k < |tried + [t]|
      ensures var x := (tried + [t])[k];
        && x.built == resolver.buildError(turn, k).None?
        && (!x.built ==> x.outcome == if resolver.buildError(turn, k).value then Rejected else Broken)
    {
      if k < |tried| {
        assert (tried + [t])[k] == tried[k];
      }
    }
  }

  lemma IntoSnoc(made: seq<Call>, c: Call, tried: seq<Try>, t: Try, into: Option<Id>)
    requires t.built && into == if t.outcome.Rejected? then None else Some(c.batch)
    ensures IntoLast(made + [c], tried + [t], into)
  {
  }

  lemma TurnSnoc(
      was: Snapshot, before: Snapshot, now: Snapshot, chunk: seq<Request>, tried: seq<Try>, t: Try, resolver: Resolver,
      turn: nat, made: seq<Call>, into: Option<Id>)
    requires chunk != [] && TurnMade(was, before, chunk, tried, resolver, turn, made, None)
    requires KeyTried(before, now, chunk, t, resolver, resolver.buildError(turn, |tried|), into)
    requires Uniform(before, now, chunk, into) && was.batches.Keys <= before.batches.Keys
    ensures TurnMade(was, now, chunk, tried + [t], resolver, turn, Extended(made, before, now, t), into)
  {
    BuiltSnoc(tried, t);
    AnsweredSnoc(tried, t, resolver, turn);
    if t.built {
      var c := now.calls[|before.calls|];
      CarriedSnoc(was, before, now, chunk, Built(tried), t, resolver, made, c, into);
      IntoSnoc(made, c, tried, t, into);
    } else {
      assert Built(tried + [t]) == Built(tried);
    }
  }

  lemma UniformChain(was: Snapshot, before: Snapshot, now: Snapshot, chunk: seq<Request>, into: Option<Id>)
    requires Uniform(was, before, chunk, None) && Leftovers(was, before, None, BatchStatus.Failed)
    requires Uniform(before, now, chunk, into) && Leftovers(before, now, into, BatchStatus.Failed)
    ensures Uniform(was, now, chunk, into) && Leftovers(was, now, into, BatchStatus.Failed)
  {
  }

  /** Where the failover loop stands while every key tried was rejected. */
  ghost predicate AllRejected(
      was: Snapshot, now: Snapshot, chunk: seq<Request>, candidates: seq<ApiKeyInfo>, tried: seq<Try>,
      resolver: Resolver, turn: nat, made: seq<Call>)
    requires chunk != []
  {
    && Uniform(was, now, chunk, None) && Leftovers(was, now, None, BatchStatus.Failed)
    && TriedInOrder(tried, candidates) && (tried != [] ==> tried[|tried| - 1].outcome.Rejected?)
    && TurnMade(was, now, chunk, tried, resolver, turn, made, None)
  }

  /** Where it stands after one key more, whatever that key's outcome. */
  ghost predicate OneMore(
      was: Snapshot, now: Snapshot, chunk: seq<Request>, candidates: seq<ApiKeyInfo>, tried: seq<Try>,
      resolver: Resolver, turn: nat, made: seq<Call>, into: Option<Id>)
    requires chunk != []
  {
    && Uniform(was, now, chunk, into) && Leftovers(was, now, into, BatchStatus.Failed)
    && TriedInOrder(tried, candidates)
    && TurnMade(was, now, chunk, tried, resolver, turn, made, into)
  }

  lemma NoneTried(
      was: Snapshot, chunk: seq<Request>, candidates: seq<ApiKeyInfo>, resolver: Resolver, turn: nat)
    requires chunk != []
    ensures AllRejected(was, was, chunk, candidates, [], resolver, turn, [])
  {
    UniformNone(was, was, chunk);
    assert was.calls + [] == was.calls && BatchesOf([]) == {};
  }

  /** One round of the failover loop. */
  method TryNext(
      store: Store, candidates: seq<ApiKeyInfo>, chunk: seq<Request>, resolver: Resolver, turn: nat, i: nat,
      ghost was: Snapshot, ghost tried: seq<Try>, ghost made: seq<Call>)
    returns (t: Try, ghost more: seq<Call>, ghost into: Option<Id>)
    requires store.Sound() && chunk != [] && DistinctIds(chunk) && StillQueued(chunk, store.requests)
    requires i == |tried| < |candidates|
    requires AllRejected(was, store.State(), chunk, candidates, tried, resolver, turn, made)
    modifies store
    ensures store.Sound() && store.Advanced() && t.key == candidates[i]
    ensures OneMore(was, store.State(), chunk, candidates, tried + [t], resolver, turn, more, into)
    ensures t.outcome.Rejected? ==> into.None?
  {
    ghost var before := store.State();
    t, into := TryKey(store, candidates[i], chunk, resolver, resolver.buildError(turn, i));
    UniformChain(was, before, store.State(), chunk, into);
    TriedSnoc(tried, candidates, t);
    TurnSnoc(was, before, store.State(), chunk, tried, t, resolver, turn, made, into);
    more := Extended(made, before, store.State(), t);
  }

  method TryKeys(store: Store, candidates: seq<ApiKeyInfo>, chunk: seq<Request>, resolver: Resolver, turn: nat)
    returns (tried: seq<Try>, ghost made: seq<Call>, ghost into: Option<Id>)
    requires store.Sound() && chunk != [] && DistinctIds(chunk) && StillQueued(chunk, store.requests)
    modifies store
    ensures store.Sound() && store.Advanced()
    ensures OneMore(old(store.State()), store.State(), chunk, candidates, tried, resolver, turn, made, into)
    ensures LoopEnded(tried, candidates)
  {
    tried, made, into := [], [], None;
    ghost var was := store.State();
    NoneTried(was, chunk, candidates, resolver, turn);
    for i := 0 to |candidates|
      invariant store.Sound() && store.Advanced() && |tried| == i && into == None
      invariant AllRejected(was, store.State(), chunk, candidates, tried, resolver, turn, made)
    {
      var t;
      t, made, into := TryNext(store, candidates, chunk, resolver, turn, i, was, tried, made);
      tried := tried + [t];
      if !t.outcome.Rejected? {
        return;
      }
    }
  }

  /** The keys the failover loop goes through. */
  function CandidatesOf(keys: seq<ApiKeyInfo>): seq<ApiKeyInfo> { Candidates(Sort(KeySelector.Active(keys))) }

  /** How many of the first `k` candidates of a turn can be built. */
  ghost function BuildableBefore(resolver: Resolver, turn: nat, k: nat): nat {
    if k == 0 then 0
    else BuildableBefore(resolver, turn, k - 1) + if resolver.buildError(turn, k - 1).None? then 1 else 0
  }

  /** If the k-th candidate can be built, one call was made under it, in its turn. */
  ghost predicate CalledUnder(
      now: Snapshot, chunk: seq<Request>, apiKeyId: string, k: nat, resolver: Resolver, turn: nat, made: seq<Call>)
    requires chunk != []
  {
    resolver.buildError(turn, k).None? ==>
      var j := BuildableBefore(resolver, turn, k);
      j < |made| && CallFor(now, made[j], chunk, apiKeyId)
  }

  /** Every error but the last was eligible for failover; and the last was not, unless no candidate was left. */
  ghost predicate StoppedAsAnswered(available: nat, looked: nat, resolver: Resolver, turn: nat, made: seq<Call>) {
    && (forall j | 0 <= j < |made| - 1 :: made[j].ref.None? && resolver.eligible(made[j].batch))
    && (forall k | 0 <= k < looked - 1 && resolver.buildError(turn, k).Some? :: resolver.buildError(turn, k) == Some(true))
    && (looked > 0 && resolver.buildError(turn, looked - 1).Some? && |made| > 0 ==>
          made[|made| - 1].ref.None? && resolver.eligible(made[|made| - 1].batch))
    && (looked < available ==>
          && looked > 0
          && match resolver.buildError(turn, looked - 1)
             case Some(eligible) => !eligible
             case None => |made| > 0 && (made[|made| - 1].ref.Some? || !resolver.eligible(made[|made| - 1].batch)))
  }

  /**
   What failover comes to, told from the resolver's answers and the calls made. The first `looked`
   candidates were looked at, and one call made under each that could be built, until an error was
   not eligible for failover.
   */
  ghost predicate FailedOver(
      now: Snapshot, chunk: seq<Request>, candidates: seq<ApiKeyInfo>, looked: nat, resolver: Resolver, turn: nat,
      made: seq<Call>)
    requires chunk != []
  {
    && looked <= |candidates| && |made| == BuildableBefore(resolver, turn, looked)
    && (forall k | 0 <= k < looked :: CalledUnder(now, chunk, candidates[k].id, k, resolver, turn, made))
    && StoppedAsAnswered(|candidates|, looked, resolver, turn, made)
    && ChunkEndedAs(now, chunk, resolver, made)
  }

  /**
   Where that leaves the chunk: in the batch of the last call, submitted if that was accepted and
   pending if it failed for good; and back in the queue if it was rejected, its batch failed.
   */
  ghost predicate ChunkEndedAs(now: Snapshot, chunk: seq<Request>, resolver: Resolver, made: seq<Call>) {
    && (forall j | 0 <= j < |made| ::
          && made[j].batch in now.batches
          && now.batches[made[j].batch].status ==
               if made[j].ref.Some? then Submitted
               else if resolver.eligible(made[j].batch) then BatchStatus.Failed else BatchStatus.Pending)
    && forall q | q in chunk ::
         && q.id in now.requests
         && now.requests[q.id] ==
              if made != [] && (made[|made| - 1].ref.Some? || !resolver.eligible(made[|made| - 1].batch))
              then q.(batchId := Some(made[|made| - 1].batch), status := Batched)
              else q
  }

  /**
   So a call that failed with an eligible error fails its batch, and the next candidate is looked at
   while there is one; a call that succeeded, or failed with another error, is the last of the turn.
   */
  lemma EachCallTold(
      now: Snapshot, chunk: seq<Request>, candidates: seq<ApiKeyInfo>, looked: nat, resolver: Resolver, turn: nat,
      made: seq<Call>, j: nat)
    requires chunk != [] && FailedOver(now, chunk, candidates, looked, resolver, turn, made) && j < |made|
    ensures made[j].batch in now.batches
    ensures made[j].ref.None? && resolver.eligible(made[j].batch) ==>
              && now.batches[made[j].batch].status == BatchStatus.Failed
              && (j == |made| - 1 && looked < |candidates| ==>
                    resolver.buildError(turn, looked - 1) == Some(false))
    ensures made[j].ref.Some? || !resolver.eligible(made[j].batch) ==>
              && j == |made| - 1 && looked > 0 && resolver.buildError(turn, looked - 1).None?
              && now.batches[made[j].batch].status == (if made[j].ref.Some? then Submitted else BatchStatus.Pending)
              && forall q | q in chunk ::
                   q.id in now.requests && now.requests[q.id] == q.(batchId := Some(made[j].batch), status := Batched)
  {
  }

  lemma {:induction false} BuiltCount(tried: seq<Try>, resolver: Resolver, turn: nat)
    requires BuiltAsAnswered(tried, resolver, turn)
    ensures |Built(tried)| == BuildableBefore(resolver, turn, |tried|)
  {
    if tried != [] {
      BuiltCount(tried[..|tried| - 1], resolver, turn);
    }
  }

  lemma {:induction false} BuiltAt(tried: seq<Try>, resolver: Resolver, turn: nat, k: nat)
    requires BuiltAsAnswered(tried, resolver, turn) && k < |tried| && resolver.buildError(turn, k).None?
    ensures var j := BuildableBefore(resolver, turn, k); j < |Built(tried)| && Built(tried)[j] == tried[k]
  {
    var init := tried[..|tried| - 1];
    if k < |init| {
      BuiltAt(init, resolver, turn, k);
    } else {
      BuiltCount(init, resolver, turn);
    }
  }

  lemma {:induction false} BuiltRejected(tried: seq<Try>)
    requires forall k | 0 <= k < |tried| :: tried[k].outcome.Rejected?
    ensures forall j | 0 <= j < |Built(tried)| :: Built(tried)[j].outcome.Rejected?
  {
    if tried != [] {
      BuiltRejected(tried[..|tried| - 1]);
    }
  }

  /** All the calls but the last were rejected, and the last one too if the last key was rejected or not built. */
  lemma OnlyLastStops(tried: seq<Try>, candidates: seq<ApiKeyInfo>)
    requires TriedInOrder(tried, candidates)
    ensures forall j | 0 <= j < |Built(tried)| - 1 :: Built(tried)[j].outcome.Rejected?
    ensures tried != [] && !tried[|tried| - 1].built ==>
              forall j | 0 <= j < |Built(tried)| :: Built(tried)[j].outcome.Rejected?
    ensures tried != [] && tried[|tried| - 1].built ==>
              Built(tried) != [] && Built(tried)[|Built(tried)| - 1] == tried[|tried| - 1]
  {
    if tried != [] {
      BuiltRejected(tried[..|tried| - 1]);
    }
  }

  lemma TurnFailedOver(
      was: Snapshot, now: Snapshot, chunk: seq<Request>, candidates: seq<ApiKeyInfo>, tried: seq<Try>,
      resolver: Resolver, turn: nat, made: seq<Call>, into: Option<Id>)
    requires chunk != [] && StillQueued(chunk, was.requests) && Uniform(was, now, chunk, into)
    requires TriedInOrder(tried, candidates) && LoopEnded(tried, candidates)
    requires TurnMade(was, now, chunk, tried, resolver, turn, made, into)
    ensures FailedOver(now, chunk, candidates, |tried|, resolver, turn, made)
  {
    BuiltCount(tried, resolver, turn);
    OnlyLastStops(tried, candidates);
    forall k | 0 <= k < |tried| ensures CalledUnder(now, chunk, candidates[k].id, k, resolver, turn, made) {
      if resolver.buildError(turn, k).None? {
        BuiltAt(tried, resolver, turn, k);
        assert Carried(now, made[BuildableBefore(resolver, turn, k)], chunk, tried[k], resolver);
      }
    }
    TurnEnded(was, now, chunk, candidates, tried, resolver, turn, made, into);
    TurnStopped(now, chunk, candidates, tried, resolver, turn, made);
  }

  lemma TurnStopped(
      now: Snapshot, chunk: seq<Request>, candidates: seq<ApiKeyInfo>, tried: seq<Try>, resolver: Resolver, turn: nat,
      made: seq<Call>)
    requires chunk != [] && TriedInOrder(tried, candidates) && LoopEnded(tried, candidates)
    requires BuiltAsAnswered(tried, resolver, turn) && |made| == |Built(tried)|
    requires forall k | 0 <= k < |made| :: Carried(now, made[k], chunk, Built(tried)[k], resolver)
    ensures StoppedAsAnswered(|candidates|, |tried|, resolver, turn, made)
  {
    OnlyLastStops(tried, candidates);
  }

  lemma TurnEnded(
      was: Snapshot, now: Snapshot, chunk: seq<Request>, candidates: seq<ApiKeyInfo>, tried: seq<Try>,
      resolver: Resolver, turn: nat, made: seq<Call>, into: Option<Id>)
    requires chunk != [] && StillQueued(chunk, was.requests) && Uniform(was, now, chunk, into)
    requires TriedInOrder(tried, candidates) && TurnMade(was, now, chunk, tried, resolver, turn, made, into)
    ensures ChunkEndedAs(now, chunk, resolver, made)
  {
    OnlyLastStops(tried, candidates);
    forall j | 0 <= j < |made| ensures Carried(now, made[j], chunk, Built(tried)[j], resolver) {
    }
  }

  /**
   Keys are tried in ascending priority until one is not rejected. The provider calls made are one
   for each tried key that could be built, in that order, under that key; so none comes after a
   success or a non-eligible error. Afterwards the chunk is uniform: all queued, or all in the
   batch of the last call, which is submitted or (after a non-eligible error) pending; every other
   batch created on the way is failed and empty (`NoStrays`).
   */
  method SubmitWithFailover(store: Store, resolver: Resolver, chunk: seq<Request>, turn: nat)
    returns (tried: seq<Try>, ghost made: seq<Call>, ghost into: Option<Id>)
    requires store.Sound() && chunk != [] && DistinctIds(chunk) && StillQueued(chunk, store.requests)
    modifies store
    ensures store.Sound() && store.Advanced()
    ensures Uniform(old(store.State()), store.State(), chunk, into)
    ensures Leftovers(old(store.State()), store.State(), into, BatchStatus.Failed)
    ensures var owner, keys := (chunk[0].userId, chunk[0].provider), KeysForUser(resolver, chunk[0].userId, chunk[0].provider);
      && keys == (if owner in resolver.keys then resolver.keys[owner] else [])
      && Ranked(CandidatesOf(keys), keys) && TriedInOrder(tried, CandidatesOf(keys)) && LoopEnded(tried, CandidatesOf(keys))
    ensures TurnMade(old(store.State()), store.State(), chunk, tried, resolver, turn, made, into)
    ensures FailedOver(store.State(), chunk, CandidatesOf(KeysForUser(resolver, chunk[0].userId, chunk[0].provider)), |tried|,
                       resolver, turn, made)
  {
    ghost var was := store.State();
    var keys := KeysForUser(resolver, chunk[0].userId, chunk[0].provider);
    var candidates := SelectKeys(keys);
    tried, made, into := TryKeys(store, candidates, chunk, resolver, turn);
    TurnFailedOver(was, store.State(), chunk, candidates, tried, resolver, turn, made, into);
  }
}
