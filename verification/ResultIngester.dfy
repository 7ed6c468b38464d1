/** Ingesting a finished batch's result stream, one row at a time, so that a crash costs nothing. */
module ResultIngester {
  import opened NorushTypes
  import opened Protocol
  import opened Stores

  // -- One pass over a stream, as a function of the state ------------------------------------

  function Settled(q: Request, success: bool): Request {
    q.(status := if success then Succeeded else RequestStatus.Failed)
  }

  function RowOf(b: Id, e: NorushResult): ResultRow { ResultRow(e.requestId, b, e.response) }

  /** Persist the row, unless the request already has one. */
  function StoreRow(w: Snapshot, b: Id, e: NorushResult): Snapshot {
    if e.requestId in w.results then w else w.(results := w.results[e.requestId := RowOf(b, e)])
  }

  function SetStatus(w: Snapshot, e: NorushResult): Snapshot {
    if e.requestId in w.requests
    then w.(requests := w.requests[e.requestId := Settled(w.requests[e.requestId], e.success)])
    else w
  }

  function IngestOne(w: Snapshot, b: Id, e: NorushResult): Snapshot { SetStatus(StoreRow(w, b, e), e) }

  function IngestAll(w: Snapshot, b: Id, es: seq<NorushResult>): Snapshot {
    if es == [] then w else IngestOne(IngestAll(w, b, es[..|es| - 1]), b, es[|es| - 1])
  }

  function SucceededMembers(w: Snapshot, b: Id): set<Id> {
    set r | r in w.requests && w.requests[r].batchId == Some(b) && w.requests[r].status.Succeeded?
  }

  function FailedMembers(w: Snapshot, b: Id): set<Id> {
    set r | r in w.requests && w.requests[r].batchId == Some(b)
            && (w.requests[r].status.Failed? || w.requests[r].status.FailedFinal?)
  }

  /** The batch counters recomputed from the members' statuses. */
  function Recounted(w: Snapshot, b: Id): Snapshot {
    if b in w.batches
    then WithBatch(w, b, w.batches[b].(succeededCount := |SucceededMembers(w, b)|, failedCount := |FailedMembers(w, b)|))
    else w
  }

  function IngestRun(w: Snapshot, b: Id, es: seq<NorushResult>): Snapshot { Recounted(IngestAll(w, b, es), b) }

  /** The states a run writes, in order. */
  ghost function JournalOne(w: Snapshot, b: Id, e: NorushResult): seq<Snapshot> {
    (if e.requestId in w.results then [] else [StoreRow(w, b, e)]) + [IngestOne(w, b, e)]
  }

  ghost function Journal(w: Snapshot, b: Id, es: seq<NorushResult>): seq<Snapshot> {
    if es == [] then []
    else Journal(w, b, es[..|es| - 1]) + JournalOne(IngestAll(w, b, es[..|es| - 1]), b, es[|es| - 1])
  }

  // -- Interrupted runs converge -------------------------------------------------------------

  /** A run over `es` that started in `w` may have been stopped with `now` in the store. */
  ghost predicate LeftBy(w: Snapshot, b: Id, es: seq<NorushResult>, now: Snapshot) {
    now == w || now in Journal(w, b, es) || now == IngestRun(w, b, es)
  }

  ghost predicate FirstFor(es: seq<NorushResult>, k: nat, r: Id) {
    k < |es| && es[k].requestId == r && forall j | 0 <= j < k :: es[j].requestId != r
  }

  predicate Occurs(es: seq<NorushResult>, r: Id) {
    exists k :: 0 <= k < |es| && es[k].requestId == r
  }

  function StatusOf(w: Snapshot, r: Id): RequestStatus
    requires r in w.requests
  {
    w.requests[r].status
  }

  /** `now` differs from `w` only in what a run over `es` writes. */
  ghost predicate Between(w: Snapshot, now: Snapshot, b: Id, es: seq<NorushResult>) {
    && now.calls == w.calls
    && now.requests.Keys == w.requests.Keys
    && (forall r | r in w.requests ::
          now.requests[r] == if Occurs(es, r) then w.requests[r].(status := StatusOf(now, r)) else w.requests[r])
    && w.results.Keys <= now.results.Keys
    && (forall r | r in w.results :: now.results[r] == w.results[r])
    && (forall r | r in now.results && r !in w.results ::
          exists k: nat :: FirstFor(es, k, r) && now.results[r] == RowOf(b, es[k]))
    && CountersOnly(w.batches, now.batches, b)
  }

  /** Only the counters of batch `b` changed. */
  ghost predicate CountersOnly(was: map<Id, Batch>, now: map<Id, Batch>, b: Id) {
    && now.Keys == was.Keys
    && forall c | c in was :: now[c] ==
         if c == b then was[c].(succeededCount := now[c].succeededCount, failedCount := now[c].failedCount) else was[c]
  }

  /** After a prefix of the stream, every id in it has its row. */
  lemma {:induction false} RowsPresent(w: Snapshot, b: Id, es: seq<NorushResult>, k: nat)
    requires k <= |es|
    ensures forall j | 0 <= j < k :: es[j].requestId in IngestAll(w, b, es[..k]).results
  {
    if k > 0 {
      RowsPresent(w, b, es, k - 1);
      assert es[..k][..k - 1] == es[..k - 1];
    }
  }

  lemma BetweenRow(w: Snapshot, now: Snapshot, b: Id, es: seq<NorushResult>, k: nat)
    requires Between(w, now, b, es) && k < |es|
    requires forall j | 0 <= j < k :: es[j].requestId in now.results
    ensures Between(w, StoreRow(now, b, es[k]), b, es)
  {
  }

  lemma BetweenStatus(w: Snapshot, now: Snapshot, b: Id, es: seq<NorushResult>, k: nat)
    requires Between(w, now, b, es) && k < |es|
    ensures Between(w, SetStatus(now, es[k]), b, es)
  {
  }

  lemma {:induction false} BetweenPrefix(w: Snapshot, now: Snapshot, b: Id, es: seq<NorushResult>, k: nat)
    requires Between(w, now, b, es) && k <= |es|
    ensures Between(w, IngestAll(now, b, es[..k]), b, es)
    ensures k < |es| ==> Between(w, StoreRow(IngestAll(now, b, es[..k]), b, es[k]), b, es)
  {
    if k > 0 {
      BetweenPrefix(w, now, b, es, k - 1);
      assert es[..k][..k - 1] == es[..k - 1];
      BetweenStatus(w, StoreRow(IngestAll(now, b, es[..k - 1]), b, es[k - 1]), b, es, k - 1);
    }
    if k < |es| {
      RowsPresent(now, b, es, k);
      BetweenRow(w, IngestAll(now, b, es[..k]), b, es, k);
    }
  }

  lemma {:induction false} BetweenJournal(w: Snapshot, now: Snapshot, b: Id, es: seq<NorushResult>, k: nat, u: Snapshot)
    requires Between(w, now, b, es) && k <= |es| && u in Journal(now, b, es[..k])
    ensures Between(w, u, b, es)
  {
    if k > 0 {
      assert es[..k][..k - 1] == es[..k - 1];
      BetweenPrefix(w, now, b, es, k - 1);
      BetweenPrefix(w, now, b, es, k);
      if u in Journal(now, b, es[..k - 1]) {
        BetweenJournal(w, now, b, es, k - 1, u);
      }
    }
  }

  lemma BetweenLeft(w: Snapshot, now: Snapshot, b: Id, es: seq<NorushResult>, u: Snapshot)
    requires Between(w, now, b, es) && LeftBy(now, b, es, u)
    ensures Between(w, u, b, es)
  {
    assert es[..|es|] == es;
    if u in Journal(now, b, es) {
      BetweenJournal(w, now, b, es, |es|, u);
    } else if u == IngestRun(now, b, es) {
      BetweenPrefix(w, now, b, es, |es|);
      BetweenRecount(w, IngestAll(now, b, es), b, es);
    }
  }

  lemma BetweenRecount(w: Snapshot, now: Snapshot, b: Id, es: seq<NorushResult>)
    requires Between(w, now, b, es)
    ensures Between(w, Recounted(now, b), b, es)
  {
  }

  /** A pass changes rows and statuses only, and leaves every id of the stream succeeded or failed. */
  lemma {:induction false} OnlyRowsAndStatuses(w: Snapshot, b: Id, es: seq<NorushResult>)
    ensures IngestAll(w, b, es).batches == w.batches && IngestAll(w, b, es).requests.Keys == w.requests.Keys
    ensures forall r | r in w.requests ::
              IngestAll(w, b, es).requests[r] == w.requests[r].(status := IngestAll(w, b, es).requests[r].status)
    ensures forall r | r in w.requests && Occurs(es, r) ::
              StatusOf(IngestAll(w, b, es), r).Succeeded? || StatusOf(IngestAll(w, b, es), r) == RequestStatus.Failed
  {
    if es != [] {
      OnlyRowsAndStatuses(w, b, es[..|es| - 1]);
      EarlierOccurs(es);
    }
  }

  lemma EarlierOccurs(es: seq<NorushResult>)
    requires es != []
    ensures forall r | Occurs(es, r) && r != es[|es| - 1].requestId :: Occurs(es[..|es| - 1], r)
  {
  }

  /** The status an id ends with depends on the stream alone. */
  lemma {:induction false} SameStatuses(u: Snapshot, v: Snapshot, b: Id, es: seq<NorushResult>)
    requires u.requests.Keys == v.requests.Keys
    ensures IngestAll(u, b, es).requests.Keys == IngestAll(v, b, es).requests.Keys == u.requests.Keys
    ensures forall r | r in u.requests && Occurs(es, r) ::
              StatusOf(IngestAll(u, b, es), r) == StatusOf(IngestAll(v, b, es), r)
  {
    if es != [] {
      SameStatuses(u, v, b, es[..|es| - 1]);
      EarlierOccurs(es);
    }
  }

  /** Two states in between that both have all rows have the same rows. */
  lemma SameRows(w: Snapshot, u: Snapshot, v: Snapshot, b: Id, es: seq<NorushResult>)
    requires Between(w, u, b, es) && Between(w, v, b, es)
    requires forall j | 0 <= j < |es| :: es[j].requestId in v.results
    ensures u.results.Keys <= v.results.Keys
    ensures forall r | r in u.results :: u.results[r] == v.results[r]
  {
  }

  lemma SameRequests(w: Snapshot, u: Snapshot, v: Snapshot, b: Id, es: seq<NorushResult>)
    requires Between(w, u, b, es) && Between(w, v, b, es)
    requires forall r | r in w.requests && Occurs(es, r) :: StatusOf(u, r) == StatusOf(v, r)
    ensures u.requests == v.requests
  {
  }

  lemma SameRecount(w: Snapshot, u: Snapshot, v: Snapshot, b: Id)
    requires u.requests == v.requests && CountersOnly(w.batches, u.batches, b) && CountersOnly(w.batches, v.batches, b)
    ensures Recounted(u, b).batches == Recounted(v, b).batches
  {
  }

  lemma RequestsConverge(w: Snapshot, now: Snapshot, b: Id, es: seq<NorushResult>)
    requires Between(w, now, b, es)
    requires Between(w, IngestAll(now, b, es), b, es) && Between(w, IngestAll(w, b, es), b, es)
    ensures IngestAll(now, b, es).requests == IngestAll(w, b, es).requests
  {
    SameStatuses(now, w, b, es);
    SameRequests(w, IngestAll(now, b, es), IngestAll(w, b, es), b, es);
  }

  lemma RowsConverge(w: Snapshot, now: Snapshot, b: Id, es: seq<NorushResult>)
    requires Between(w, IngestAll(now, b, es), b, es) && Between(w, IngestAll(w, b, es), b, es)
    ensures IngestAll(now, b, es).results == IngestAll(w, b, es).results
  {
    assert es[..|es|] == es;
    RowsPresent(now, b, es, |es|);
    RowsPresent(w, b, es, |es|);
    SameRows(w, IngestAll(now, b, es), IngestAll(w, b, es), b, es);
    SameRows(w, IngestAll(w, b, es), IngestAll(now, b, es), b, es);
  }

  lemma PassBetween(w: Snapshot, now: Snapshot, b: Id, es: seq<NorushResult>)
    requires Between(w, now, b, es)
    ensures Between(w, IngestAll(now, b, es), b, es)
  {
    assert es[..|es|] == es;
    BetweenPrefix(w, now, b, es, |es|);
  }

  lemma BetweenItself(w: Snapshot, b: Id, es: seq<NorushResult>)
    ensures Between(w, w, b, es)
  {
  }

  /** From any state in between, a full run ends exactly where it would have ended from `w`. */
  lemma FullPassConverges(w: Snapshot, now: Snapshot, b: Id, es: seq<NorushResult>)
    requires Between(w, now, b, es)
    ensures IngestRun(now, b, es) == IngestRun(w, b, es)
  {
    BetweenItself(w, b, es);
    PassBetween(w, now, b, es);
    PassBetween(w, w, b, es);
    RequestsConverge(w, now, b, es);
    RowsConverge(w, now, b, es);
    SameRecount(w, IngestAll(now, b, es), IngestAll(w, b, es), b);
  }

  /**
   Ingestion is crash-convergent: any number of runs over the same stream, each stopped after any
   of its writes (between a row and its status too), followed by one full run, leave exactly the
   requests, rows and counters of a single uninterrupted run. This holds for every stream, also
   one that repeats ids.
   */
  lemma {:induction false} CrashConvergent(states: seq<Snapshot>, b: Id, es: seq<NorushResult>)
    requires |states| > 0
    requires forall i, j | 0 <= i && j == i + 1 < |states| :: LeftBy(states[i], b, es, states[j])
    ensures IngestRun(states[|states| - 1], b, es) == IngestRun(states[0], b, es)
  {
    LeftBetween(states, b, es);
    FullPassConverges(states[0], states[|states| - 1], b, es);
  }

  lemma {:induction false} LeftBetween(states: seq<Snapshot>, b: Id, es: seq<NorushResult>)
    requires |states| > 0
    requires forall i, j | 0 <= i && j == i + 1 < |states| :: LeftBy(states[i], b, es, states[j])
    ensures Between(states[0], states[|states| - 1], b, es)
  {
    if |states| > 1 {
      var init := states[..|states| - 1];
      LeftBetween(init, b, es);
      assert LeftBy(states[|states| - 2], b, es, states[|states| - 1]);
      BetweenLeft(states[0], states[|states| - 2], b, es, states[|states| - 1]);
    }
  }

  /** What a pass means: an id's status is its last outcome in the stream (its row is its first). */
  lemma {:induction false} LastOutcomeWins(w: Snapshot, b: Id, es: seq<NorushResult>, k: nat)
    requires k < |es| && es[k].requestId in w.requests
    requires forall j | k < j < |es| :: es[j].requestId != es[k].requestId
    ensures es[k].requestId in IngestAll(w, b, es).requests
    ensures IngestAll(w, b, es).requests[es[k].requestId] == Settled(w.requests[es[k].requestId], es[k].success)
  {
    OnlyRowsAndStatuses(w, b, es[..|es| - 1]);
    if k < |es| - 1 {
      LastOutcomeWins(w, b, es[..|es| - 1], k);
    }
  }

  /** And its row is its first element in the stream, unless it had a row before: later outcomes do not replace it. */
  lemma FirstRowWins(w: Snapshot, b: Id, es: seq<NorushResult>, k: nat)
    requires k < |es| && FirstFor(es, k, es[k].requestId)
    ensures var r, u := es[k].requestId, IngestAll(w, b, es);
      r in u.results && u.results[r] == if r in w.results then w.results[r] else ResultRow(r, b, es[k].response)
  {
    assert es[..|es|] == es;
    BetweenPrefix(w, w, b, es, |es|);
    RowsPresent(w, b, es, |es|);
    var r, u := es[k].requestId, IngestAll(w, b, es);
    if r !in w.results {
      var j: nat :| FirstFor(es, j, r) && u.results[r] == RowOf(b, es[j]);
      assert !(j < k) && !(k < j);
    }
  }

  /** The stored response is of the kind the status says; `means` tells which responses are successes. */
  ghost predicate Agree(w: Snapshot, r: Id, means: nat -> bool)
    requires r in w.requests && r in w.results
  {
    w.requests[r].status.Succeeded? <==> means(w.results[r].response)
  }

  /**
   After a pass, row and status of a request agree exactly when the row already there, or else the
   first element for it, is of the same kind as the last element for it.
   */
  lemma RowAgreesIff(w: Snapshot, b: Id, es: seq<NorushResult>, k: nat, l: nat, means: nat -> bool)
    requires k <= l < |es| && FirstFor(es, k, es[l].requestId) && es[l].requestId in w.requests
    requires forall j | l < j < |es| :: es[j].requestId != es[l].requestId
    requires forall e | e in es :: means(e.response) == e.success
    ensures var r, u := es[l].requestId, IngestAll(w, b, es);
      && r in u.requests && r in u.results
      && (Agree(u, r, means) <==>
            es[l].success == if r in w.results then means(w.results[r].response) else es[k].success)
  {
    LastOutcomeWins(w, b, es, l);
    FirstRowWins(w, b, es, k);
    assert es[k] in es;
  }

  /** A request that failed once, was re-queued, and sits in a second batch that has ended. */
  lemma RetriedRun() returns (tr: seq<Snapshot>)
    ensures Run(tr)
    ensures var w := tr[|tr| - 1];
      && w.results == map[0 := RowOf(0, NorushResult(0, 0, false))]
      && 0 in w.requests && w.requests[0].status.Batched? && Member(w, 0, 1) && 1 in w.batches && w.batches[1].status.Ended?
  {
    tr := [Fresh()];
    tr := Then(tr, Enqueue(Request(0, Claude, "m", "u", 1, Queued, None, 0, 5)));
    tr := EndedWith(tr, 0, 7);
    tr := FailedOnce(tr);
    tr := Then(tr, Requeue(0, 0));
    tr := EndedWith(tr, 1, 8);
  }

  /** The batch reported a failure, which is stored. */
  lemma FailedOnce(tr: seq<Snapshot>) returns (longer: seq<Snapshot>)
    requires Run(tr) && var w := tr[|tr| - 1];
      MemberIn(w, 0, 0, Ended) && w.requests[0].status.Batched? && w.results == map[]
    ensures Run(longer) && var w, now := tr[|tr| - 1], longer[|longer| - 1];
      && now.requests == w.requests[0 := w.requests[0].(status := RequestStatus.Failed)] && now.batches == w.batches
      && now.results == map[0 := RowOf(0, NorushResult(0, 0, false))]
  {
    longer := Then(tr, StoreResult(RowOf(0, NorushResult(0, 0, false))));
    longer := Then(longer, Settle(0, 0, false));
  }

  lemma PutInto(tr: seq<Snapshot>, b: Id) returns (longer: seq<Snapshot>)
    requires Run(tr) && OneQueued(tr[|tr| - 1], b)
    ensures Run(longer) && OneIn(tr[|tr| - 1], longer[|longer| - 1], b)
    ensures var w, now := tr[|tr| - 1], longer[|longer| - 1];
      && now.calls == w.calls && Protocol.Pending(now, b)
      && now.batches[b].submissionAttempts == 0 < now.batches[b].maxSubmissionAttempts
  {
    longer := Then(tr, CreateBatch(Batch(b, Claude, "u", None, BatchStatus.Pending, 1, 0, 0, 0, 3)));
    longer := Then(longer, Assign(0, b));
  }

  /** The only request, queued, goes into batch `b`, whose first call is made. */
  lemma CalledFor(tr: seq<Snapshot>, b: Id, pid: Id) returns (longer: seq<Snapshot>)
    requires Run(tr) && OneQueued(tr[|tr| - 1], b)
    ensures Run(longer) && OneIn(tr[|tr| - 1], longer[|longer| - 1], b)
    ensures Protocol.Pending(longer[|longer| - 1], b) && LastCall(longer[|longer| - 1], b, Some(pid))
  {
    RunSafe(tr, |tr| - 1);
    UncalledBatch(tr[|tr| - 1].calls, b);
    longer := PutInto(tr, b);
    longer := Then(longer, CountAttempt(b));
    longer := Then(longer, CallProvider(b, Members(longer[|longer| - 1], b), Some(pid)));
  }

  /** The batch is submitted, and ends. */
  lemma EndedWith(tr: seq<Snapshot>, b: Id, pid: Id) returns (longer: seq<Snapshot>)
    requires Run(tr) && OneQueued(tr[|tr| - 1], b)
    ensures Run(longer) && OneIn(tr[|tr| - 1], longer[|longer| - 1], b)
    ensures longer[|longer| - 1].batches[b].status.Ended?
  {
    longer := CalledFor(tr, b, pid);
    longer := Then(longer, RecordSubmission(b, pid));
    longer := Then(longer, ObserveStatus(b, Ended));
  }

  ghost predicate OneQueued(w: Snapshot, b: Id) {
    w.requests.Keys == {0} && w.requests[0].status.Queued? && b !in w.batches
  }

  /** The only request has been put into the new batch `b`. */
  ghost predicate OneIn(was: Snapshot, now: Snapshot, b: Id) {
    && 0 in was.requests && now.requests == was.requests[0 := was.requests[0].(batchId := Some(b), status := Batched)]
    && now.batches.Keys == was.batches.Keys + {b} && now.results == was.results
  }

  /** Ingesting its success then leaves a succeeded request with the failure as its stored response. */
  lemma RowCanDisagree() returns (tr: seq<Snapshot>)
    ensures Run(tr)
    ensures var w := tr[|tr| - 1]; var u := IngestAll(w, 1, [NorushResult(0, 1, true)]);
      && 1 in w.batches && w.batches[1].status.Ended? && Member(w, 0, 1)
      && 0 in u.requests && 0 in u.results && !Agree(u, 0, response => response == 1)
  {
    tr := RetriedRun();
    RowAgreesIff(tr[|tr| - 1], 1, [NorushResult(0, 1, true)], 0, 0, response => response == 1);
  }

  // -- The method --------------------------------------------------------------------------

  datatype IngestionResult = IngestionResult(
    ingested: nat, succeeded: nat, failed: nat, duplicates: nat, errors: nat, threw: bool)

  /** One stream element: insert the row, or find it there; set the status either way. */
  method IngestRow(store: Store, b: Id, e: NorushResult) returns (duplicate: bool)
    requires store.Valid() && e.requestId in store.requests
    modifies store
    ensures store.Valid() && store.Advanced()
    ensures store.State() == IngestOne(old(store.State()), b, e)
    ensures store.trace == old(store.trace) + JournalOne(old(store.State()), b, e)
    ensures duplicate <==> e.requestId in old(store.results)
  {
    duplicate := store.CreateResult(RowOf(b, e));
    var newStatus := if e.success then Succeeded else RequestStatus.Failed;
    store.UpdateRequest(e.requestId, (r: Request) => r.(status := newStatus));
  }

  /** `rows.filter(p).length` */
  function CountWhere(rows: seq<Request>, p: Request -> bool): nat {
    if rows == [] then 0 else CountWhere(rows[..|rows| - 1], p) + if p(rows[|rows| - 1]) then 1 else 0
  }

  function IdsWhere(rows: seq<Request>, p: Request -> bool): set<Id> { set q | q in rows && p(q) :: q.id }

  lemma {:induction false} CountIsSize(rows: seq<Request>, p: Request -> bool)
    requires DistinctIds(rows)
    ensures CountWhere(rows, p) == |IdsWhere(rows, p)|
  {
    if rows != [] {
      var init, q := rows[..|rows| - 1], rows[|rows| - 1];
      CountIsSize(init, p);
      assert rows == init + [q];
      assert IdsWhere(rows, p) == IdsWhere(init, p) + if p(q) then {q.id} else {};
      assert q.id !in IdsWhere(init, p);
    }
  }

  predicate IsSucceeded(q: Request) { q.status.Succeeded? }

  predicate IsFailed(q: Request) { q.status.Failed? || q.status.FailedFinal? }

  lemma CountsOfMembers(w: Snapshot, rows: seq<Request>, b: Id)
    requires DistinctIds(rows) && forall r | r in w.requests :: w.requests[r].id == r
    requires forall q :: q in rows <==> q.id in w.requests && w.requests[q.id] == q && q.batchId == Some(b)
    ensures CountWhere(rows, IsSucceeded) == |SucceededMembers(w, b)|
    ensures CountWhere(rows, IsFailed) == |FailedMembers(w, b)|
  {
    CountIsSize(rows, IsSucceeded);
    CountIsSize(rows, IsFailed);
    assert forall r | r in w.requests && w.requests[r].batchId == Some(b) :: w.requests[r] in rows;
    assert IdsWhere(rows, IsSucceeded) == SucceededMembers(w, b);
    assert IdsWhere(rows, IsFailed) == FailedMembers(w, b);
  }

  /** Recompute the batch counters from the members. */
  method Recount(store: Store, b: Id)
    requires store.Valid() && b in store.batches
    modifies store
    ensures store.Valid() && store.Advanced()
    ensures store.State() == Recounted(old(store.State()), b)
    ensures store.trace == old(store.trace) + [store.State()]
  {
    var rows := store.GetRequestsByBatchId(b);
    CountsOfMembers(store.State(), rows, b);
    var succeeded, failed := CountWhere(rows, IsSucceeded), CountWhere(rows, IsFailed);
    store.UpdateBatch(b, (x: Batch) => x.(succeededCount := succeeded, failedCount := failed));
  }

  /** Where the loop over the stream stands after `read` of it, the store's journal having started as `tr`. */
  ghost predicate IngestedTo(
      store: Store, w: Snapshot, tr: seq<Snapshot>, b: Id, read: seq<NorushResult>, result: IngestionResult)
    reads store
  {
    && store.State() == IngestAll(w, b, read)
    && store.trace == tr + Journal(w, b, read)
    && store.requests.Keys == w.requests.Keys && store.batches == w.batches
    && Tallied(result, |read|, |store.results| - |w.results|)
  }

  /** The next element of the stream. */
  method IngestNext(
      store: Store, b: Id, e: NorushResult, result: IngestionResult, ghost w: Snapshot, ghost tr: seq<Snapshot>,
      ghost read: seq<NorushResult>)
    returns (next: IngestionResult)
    requires store.Valid() && e.requestId in store.requests
    requires IngestedTo(store, w, tr, b, read, result)
    modifies store
    ensures store.Valid() && store.Advanced()
    ensures IngestedTo(store, w, tr, b, read + [e], next)
  {
    StreamSnoc(w, b, read, e, tr);
    ghost var rows := store.results;
    var duplicate := IngestRow(store, b, e);
    GrownBy(rows, store.results, b, e);
    if duplicate {
      next := result.(duplicates := result.duplicates + 1);
    } else {
      next := result.(ingested := result.ingested + 1,
                      succeeded := result.succeeded + if e.success then 1 else 0,
                      failed := result.failed + if e.success then 0 else 1);
    }
  }

  /** The loop over the stream. */
  method IngestStream(store: Store, b: Id, stream: seq<NorushResult>) returns (result: IngestionResult)
    requires store.Valid()
    requires forall e | e in stream :: e.requestId in store.requests
    modifies store
    ensures store.Valid() && store.Advanced()
    ensures IngestedTo(store, old(store.State()), old(store.trace), b, stream, result)
  {
    result := IngestionResult(0, 0, 0, 0, 0, false);
    ghost var w, tr := store.State(), store.trace;
    for i := 0 to |stream|
      invariant store.Valid() && store.Advanced()
      invariant IngestedTo(store, w, tr, b, stream[..i], result)
    {
      NextOf(stream, i, w.requests.Keys);
      result := IngestNext(store, b, stream[i], result, w, tr, stream[..i]);
    }
    assert stream[..|stream|] == stream;
  }

  lemma NextOf(stream: seq<NorushResult>, i: nat, ids: set<Id>)
    requires i < |stream| && forall e | e in stream :: e.requestId in ids
    ensures stream[i].requestId in ids && stream[..i + 1] == stream[..i] + [stream[i]]
  {
    assert stream[i] in stream;
  }

  /** The summary adds up, and `ingested` is the number of new rows. */
  ghost predicate Tallied(result: IngestionResult, read: nat, newRows: int) {
    && result.ingested + result.duplicates == read && result.succeeded + result.failed == result.ingested
    && result.ingested == newRows && result.errors == 0 && !result.threw
  }

  lemma GrownBy(rows: map<Id, ResultRow>, now: map<Id, ResultRow>, b: Id, e: NorushResult)
    requires now == if e.requestId in rows then rows else rows[e.requestId := RowOf(b, e)]
    ensures |now| == |rows| + if e.requestId in rows then 0 else 1
  {
  }

  lemma StreamSnoc(w: Snapshot, b: Id, read: seq<NorushResult>, e: NorushResult, tr: seq<Snapshot>)
    ensures var u := IngestAll(w, b, read);
      && IngestAll(w, b, read + [e]) == IngestOne(u, b, e)
      && tr + Journal(w, b, read + [e]) == tr + Journal(w, b, read) + JournalOne(u, b, e)
  {
    assert (read + [e])[..|read|] == read;
  }

  /**
   Ingest a batch's result stream. The states written are exactly the journal of `IngestRun`; a
   stream that breaks off (`broken`) throws before the recount, with what was read persisted.
   */
  method Ingest(store: Store, adapters: set<string>, batch: Batch, stream: seq<NorushResult>, broken: bool)
    returns (result: IngestionResult)
    requires store.Valid() && batch.id in store.batches
    requires forall e | e in stream :: e.requestId in store.requests
    modifies store
    ensures store.Valid() && store.Advanced()
    ensures !(batch.providerBatchId.Some? && HasAdapter(adapters, batch.provider, batch.apiKeyId)) ==>
              && store.State() == old(store.State()) && store.trace == old(store.trace)
              && result == IngestionResult(0, 0, 0, 0, 1, false)
    ensures batch.providerBatchId.Some? && HasAdapter(adapters, batch.provider, batch.apiKeyId) ==>
              && Tallied(result.(threw := false), |stream|, |store.results| - |old(store.results)|) && result.threw == broken
              && store.trace == old(store.trace) + Journal(old(store.State()), batch.id, stream)
                                + (if broken then [] else [store.State()])
              && store.State() == if broken then IngestAll(old(store.State()), batch.id, stream)
                                  else IngestRun(old(store.State()), batch.id, stream)
  {
    if !Ingestible(batch, adapters) {
      return IngestionResult(0, 0, 0, 0, 1, false);
    }
    result := IngestStream(store, batch.id, stream);
    if broken {
      return result.(threw := true);
    }
    Recount(store, batch.id);
  }

  predicate Ingestible(batch: Batch, adapters: set<string>) {
    batch.providerBatchId.Some? && HasAdapter(adapters, batch.provider, batch.apiKeyId)
  }

  // -- The journal follows the protocol ------------------------------------------------------

  /** The stream reports members of an ended batch, once each, and agrees with what is settled. */
  ghost predicate Replayable(w: Snapshot, b: Id, es: seq<NorushResult>) {
    && b in w.batches && w.batches[b].status.Ended?
    && (forall i, j | 0 <= i < j < |es| :: es[i].requestId != es[j].requestId)
    && (forall e | e in es :: Awaited(w, b, e))
  }

  ghost predicate Awaited(w: Snapshot, b: Id, e: NorushResult) {
    && e.requestId in w.requests && w.requests[e.requestId].batchId == Some(b)
    && var q := w.requests[e.requestId];
      q.status.Batched? || q.status == RequestStatus.Processing || q == Settled(q, e.success)
  }

  lemma {:induction false} UntouchedByPrefix(w: Snapshot, b: Id, es: seq<NorushResult>, r: Id)
    requires forall e | e in es :: e.requestId != r
    ensures IngestAll(w, b, es).requests.Keys == w.requests.Keys && IngestAll(w, b, es).batches == w.batches
    ensures r in w.requests ==> IngestAll(w, b, es).requests[r] == w.requests[r]
  {
    if es != [] {
      UntouchedByPrefix(w, b, es[..|es| - 1], r);
    }
  }

  lemma JournalOneFollows(tr: seq<Snapshot>, w: Snapshot, b: Id, e: NorushResult)
    requires Run(tr) && tr[|tr| - 1] == w && b in w.batches && w.batches[b].status.Ended? && Awaited(w, b, e)
    ensures Run(tr + JournalOne(w, b, e))
    ensures (tr + JournalOne(w, b, e))[|tr + JournalOne(w, b, e)| - 1] == IngestOne(w, b, e)
  {
    var mid := StoreRow(w, b, e);
    var trMid := tr;
    if e.requestId !in w.results {
      RunExtend(tr, StoreResult(RowOf(b, e)));
      trMid := tr + [mid];
    }
    if mid.requests[e.requestId] == Settled(mid.requests[e.requestId], e.success) {
      RunStutter(trMid);
      assert IngestOne(w, b, e).requests == mid.requests;
    } else {
      RunExtend(trMid, Settle(e.requestId, b, e.success));
    }
    assert tr + JournalOne(w, b, e) == trMid + [IngestOne(w, b, e)];
  }

  lemma AwaitedNext(w: Snapshot, b: Id, es: seq<NorushResult>)
    requires Replayable(w, b, es) && es != []
    ensures Replayable(w, b, es[..|es| - 1])
    ensures var u := IngestAll(w, b, es[..|es| - 1]);
      b in u.batches && u.batches[b].status.Ended? && Awaited(u, b, es[|es| - 1])
  {
    var e := es[|es| - 1];
    assert e in es && Awaited(w, b, e);
    UntouchedByPrefix(w, b, es[..|es| - 1], e.requestId);
  }

  /** Ingesting such a stream only takes steps the protocol allows. */
  lemma {:induction false} JournalFollows(tr: seq<Snapshot>, w: Snapshot, b: Id, es: seq<NorushResult>)
    requires Run(tr) && tr[|tr| - 1] == w && Replayable(w, b, es)
    ensures Run(tr + Journal(w, b, es)) && (tr + Journal(w, b, es))[|tr + Journal(w, b, es)| - 1] == IngestAll(w, b, es)
  {
    if es == [] {
      assert tr + Journal(w, b, es) == tr;
    } else {
      var init, e := es[..|es| - 1], es[|es| - 1];
      AwaitedNext(w, b, es);
      JournalFollows(tr, w, b, init);
      var mid := tr + Journal(w, b, init);
      JournalOneFollows(mid, IngestAll(w, b, init), b, e);
      assert tr + Journal(w, b, es) == mid + JournalOne(IngestAll(w, b, init), b, e);
    }
  }
}
