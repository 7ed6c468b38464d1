/**
 The write-before-submit protocol as a state machine over durable states.

 A `Snapshot` is what survives a crash (the store's rows) together with what the provider
 has seen (the log of submit calls). Each `Action` is one store write or one provider call,
 so a crash between any two of them is simply the end of a run: the next process starts from
 the last snapshot with nothing else in memory.
 */
module Protocol {
  import opened NorushTypes

  datatype Snapshot = Snapshot(
    requests: map<Id, Request>, batches: map<Id, Batch>, results: map<Id, ResultRow>, calls: seq<Call>)

  // ---------------------------------------------------------------------------------------
  // What the provider has seen
  // ---------------------------------------------------------------------------------------

  /** Number of submit calls ever made for batch `b`. */
  function CallsOf(calls: seq<Call>, b: Id): nat {
    if calls == [] then 0
    else CallsOf(calls[..|calls| - 1], b) + if calls[|calls| - 1].batch == b then 1 else 0
  }

  /** The payload of the latest submit call for batch `b`. */
  function Sent(calls: seq<Call>, b: Id): set<Id> {
    if calls == [] then {}
    else if calls[|calls| - 1].batch == b then calls[|calls| - 1].payload
    else Sent(calls[..|calls| - 1], b)
  }

  /** The batches under which request `r` is recorded as submitted. */
  function RecordedIn(w: Snapshot, r: Id): set<Id> {
    set b | b in w.batches && w.batches[b].providerBatchId.Some? && r in Sent(w.calls, b)
  }

  ghost predicate Member(w: Snapshot, r: Id, b: Id) {
    r in w.requests && w.requests[r].batchId == Some(b)
  }

  function Members(w: Snapshot, b: Id): set<Id> {
    set r | r in w.requests && w.requests[r].batchId == Some(b)
  }

  ghost predicate OpenMember(w: Snapshot, r: Id) {
    && r in w.requests && w.requests[r].batchId.Some?
    && w.requests[r].batchId.value in w.batches && Open(w.batches[w.requests[r].batchId.value].status)
  }

  /** The latest provider call is a call for `b`, with this outcome. */
  predicate LastCall(w: Snapshot, b: Id, ref: Option<Id>) {
    && |w.calls| > 0
    && w.calls[|w.calls| - 1].batch == b && w.calls[|w.calls| - 1].ref == ref
  }

  // ---------------------------------------------------------------------------------------
  // The actions: one store write, or one provider call
  // ---------------------------------------------------------------------------------------

  datatype Action =
    | Enqueue(request: Request)
    | Retire(r: Id)                                 // preflight: catalog says the model is retired
    | CreateBatch(batch: Batch)
    | Assign(r: Id, b: Id)
    | CountAttempt(b: Id)
    | CallProvider(b: Id, payload: set<Id>, ref: Option<Id>)
    | RecordSubmission(b: Id, pid: Id)
    | Revert(r: Id, b: Id)                          // failed call: back to the queue, uncharged
    | AbandonBatch(b: Id)                           // failover: this key's batch is given up
    | FailOrphan(b: Id)
    | FailOrphanRequest(r: Id, b: Id)
    | ObserveStatus(b: Id, status: BatchStatus)
    | StoreResult(row: ResultRow)
    | Settle(r: Id, b: Id, success: bool)
    | Recount(b: Id, succeeded: nat, failed: nat)
    | Expire(r: Id, b: Id)
    | Requeue(r: Id, b: Id)
    | Exhaust(r: Id, b: Id)

  predicate Pending(w: Snapshot, b: Id) {
    b in w.batches && w.batches[b].status.Pending? && w.batches[b].providerBatchId.None?
  }

  predicate MemberIn(w: Snapshot, r: Id, b: Id, s: BatchStatus) {
    && r in w.requests && w.requests[r].batchId == Some(b)
    && b in w.batches && w.batches[b].status == s
  }

  predicate MemberOfFinished(w: Snapshot, r: Id, b: Id) {
    MemberIn(w, r, b, Ended) || MemberIn(w, r, b, BatchStatus.Expired)
  }

  /** When the protocol allows an action; what each engine phase must establish before each write. */
  ghost predicate Enabled(w: Snapshot, a: Action) {
    match a
    case Enqueue(request) =>
      && request.id !in w.requests
      && request.status.Queued? && request.batchId.None? && request.retryCount == 0
    case Retire(r) => r in w.requests && w.requests[r].status.Queued?
    case CreateBatch(batch) =>
      && batch.id !in w.batches
      && batch.status.Pending? && batch.providerBatchId.None? && batch.submissionAttempts == 0
    case Assign(r, b) =>
      && r in w.requests && w.requests[r].status.Queued?
      && Pending(w, b) && w.batches[b].submissionAttempts == 0
    case CountAttempt(b) =>
      Pending(w, b) && w.batches[b].submissionAttempts < w.batches[b].maxSubmissionAttempts
    case CallProvider(b, payload, ref) =>
      && Pending(w, b) && CallsOf(w.calls, b) < w.batches[b].submissionAttempts
      && payload == Members(w, b)
    case RecordSubmission(b, pid) => Pending(w, b) && LastCall(w, b, Some(pid))
    case Revert(r, b) => MemberIn(w, r, b, BatchStatus.Pending) && LastCall(w, b, None)
    case AbandonBatch(b) => Pending(w, b) && LastCall(w, b, None) && Members(w, b) == {}
    case FailOrphan(b) =>
      Pending(w, b) && w.batches[b].submissionAttempts >= w.batches[b].maxSubmissionAttempts
    case FailOrphanRequest(r, b) =>
      && MemberIn(w, r, b, BatchStatus.Failed) && w.batches[b].providerBatchId.None?
      && w.requests[r].status.Batched?
    case ObserveStatus(b, status) =>
      b in w.batches && InFlight(w.batches[b].status) && !status.Pending?
    case StoreResult(row) =>
      row.requestId !in w.results && MemberIn(w, row.requestId, row.batchId, Ended)
    case Settle(r, b, success) =>
      && MemberIn(w, r, b, Ended) && r in w.results
      && (w.requests[r].status.Batched? || w.requests[r].status == RequestStatus.Processing)
    case Recount(b, succeeded, failed) => b in w.batches && w.batches[b].status.Ended?
    case Expire(r, b) =>
      && MemberIn(w, r, b, BatchStatus.Expired)
      && (w.requests[r].status.Batched? || w.requests[r].status == RequestStatus.Processing)
    case Requeue(r, b) =>
      && MemberOfFinished(w, r, b) && Repackageable(w.requests[r].status)
      && w.requests[r].retryCount < w.requests[r].maxRetries
    case Exhaust(r, b) =>
      && MemberOfFinished(w, r, b) && Repackageable(w.requests[r].status)
      && w.requests[r].retryCount >= w.requests[r].maxRetries
  }

  function WithRequest(w: Snapshot, r: Id, row: Request): Snapshot {
    w.(requests := w.requests[r := row])
  }

  function WithBatch(w: Snapshot, b: Id, row: Batch): Snapshot {
    w.(batches := w.batches[b := row])
  }

  /** The durable state after the action. */
  ghost function Apply(w: Snapshot, a: Action): Snapshot
    requires Enabled(w, a)
  {
    match a
    case Enqueue(request) => WithRequest(w, request.id, request)
    case Retire(r) => WithRequest(w, r, w.requests[r].(status := FailedFinal))
    case CreateBatch(batch) => WithBatch(w, batch.id, batch)
    case Assign(r, b) => WithRequest(w, r, w.requests[r].(batchId := Some(b), status := Batched))
    case CountAttempt(b) =>
      WithBatch(w, b, w.batches[b].(submissionAttempts := w.batches[b].submissionAttempts + 1))
    case CallProvider(b, payload, ref) => w.(calls := w.calls + [Call(b, payload, ref)])
    case RecordSubmission(b, pid) =>
      WithBatch(w, b, w.batches[b].(providerBatchId := Some(pid), status := Submitted))
    case Revert(r, b) => WithRequest(w, r, w.requests[r].(batchId := None, status := Queued))
    case AbandonBatch(b) => WithBatch(w, b, w.batches[b].(status := BatchStatus.Failed))
    case FailOrphan(b) => WithBatch(w, b, w.batches[b].(status := BatchStatus.Failed))
    case FailOrphanRequest(r, b) => WithRequest(w, r, w.requests[r].(status := RequestStatus.Failed))
    case ObserveStatus(b, status) => WithBatch(w, b, w.batches[b].(status := status))
    case StoreResult(row) => w.(results := w.results[row.requestId := row])
    case Settle(r, b, success) =>
      WithRequest(w, r, w.requests[r].(status := if success then Succeeded else RequestStatus.Failed))
    case Recount(b, succeeded, failed) =>
      WithBatch(w, b, w.batches[b].(succeededCount := succeeded, failedCount := failed))
    case Expire(r, b) => WithRequest(w, r, w.requests[r].(status := RequestStatus.Expired))
    case Requeue(r, b) =>
      WithRequest(w, r, w.requests[r].(status := Queued, retryCount := w.requests[r].retryCount + 1, batchId := None))
    case Exhaust(r, b) => WithRequest(w, r, w.requests[r].(status := FailedFinal))
  }

  // ---------------------------------------------------------------------------------------
  // The invariant
  // ---------------------------------------------------------------------------------------

  /** Keys agree with the rows they index, and references resolve. */
  ghost predicate Rows(w: Snapshot) {
    && (forall r | r in w.requests :: w.requests[r].id == r)
    && (forall b | b in w.batches :: w.batches[b].id == b)
    && (forall r | r in w.requests && w.requests[r].batchId.Some? :: w.requests[r].batchId.value in w.batches)
    && (forall c | c in w.calls :: c.batch in w.batches && c.payload <= w.requests.Keys)
    && (forall r | r in w.requests && w.requests[r].status.Queued? :: w.requests[r].batchId.None?)
  }

  /** A batch carries a provider reference exactly when its submission was recorded. */
  ghost predicate References(w: Snapshot) {
    forall b | b in w.batches ::
      && (w.batches[b].status.Pending? ==> w.batches[b].providerBatchId.None?)
      && (InFlight(w.batches[b].status) ==> w.batches[b].providerBatchId.Some?)
  }

  /** Members of a batch that is not terminal are all `batched`. */
  ghost predicate OpenMembersBatched(w: Snapshot) {
    forall r | OpenMember(w, r) :: w.requests[r].status.Batched?
  }

  /** What was sent under an in-flight batch is exactly its members. */
  ghost predicate PayloadsExact(w: Snapshot) {
    forall b | b in w.batches && InFlight(w.batches[b].status) ::
      forall r :: r in Sent(w.calls, b) <==> Member(w, r, b)
  }

  /** An accepted call whose outcome is not recorded yet still describes the batch's members. */
  ghost predicate LastCallExact(w: Snapshot) {
    |w.calls| > 0 ==>
      var c := w.calls[|w.calls| - 1];
      Pending(w, c.batch) && c.ref.Some? ==> forall r :: r in c.payload <==> Member(w, r, c.batch)
  }

  /** Every call was counted before it was made, and counts stay within the limit. */
  ghost predicate CallsCounted(w: Snapshot) {
    forall b | b in w.batches ::
      CallsOf(w.calls, b) <= w.batches[b].submissionAttempts <= w.batches[b].maxSubmissionAttempts
  }

  /** The request sits in a batch whose submission was recorded. */
  ghost predicate InRecordedBatch(w: Snapshot, r: Id) {
    && r in w.requests && w.requests[r].batchId.Some?
    && w.requests[r].batchId.value in w.batches
    && w.batches[w.requests[r].batchId.value].providerBatchId.Some?
  }

  /** Retries stay within budget, and each recorded submission but the current one was charged. */
  ghost predicate RetriesCharged(w: Snapshot) {
    forall r | r in w.requests ::
      && (w.requests[r].retryCount == 0 || w.requests[r].retryCount <= w.requests[r].maxRetries)
      && |RecordedIn(w, r)| <= w.requests[r].retryCount + if InRecordedBatch(w, r) then 1 else 0
  }

  /** A request that succeeded has its result stored. */
  ghost predicate SucceededStored(w: Snapshot) {
    forall r | r in w.requests && w.requests[r].status.Succeeded? :: r in w.results
  }

  ghost predicate Inv(w: Snapshot) {
    && Rows(w) && References(w) && OpenMembersBatched(w) && PayloadsExact(w) && LastCallExact(w)
    && CallsCounted(w) && RetriesCharged(w) && SucceededStored(w)
  }

  // ---------------------------------------------------------------------------------------
  // Every action keeps the invariant
  // ---------------------------------------------------------------------------------------

  lemma {:induction false} UncalledBatch(calls: seq<Call>, b: Id)
    requires forall c | c in calls :: c.batch != b
    ensures CallsOf(calls, b) == 0 && Sent(calls, b) == {}
  {
    if calls != [] {
      UncalledBatch(calls[..|calls| - 1], b);
    }
  }

  /** Nothing was ever sent that is not a stored request. */
  lemma {:induction false} SentIsStored(calls: seq<Call>, b: Id, ids: set<Id>)
    requires forall c | c in calls :: c.payload <= ids
    ensures Sent(calls, b) <= ids
  {
    if calls != [] {
      SentIsStored(calls[..|calls| - 1], b, ids);
    }
  }

  lemma RowsWithRequest(w: Snapshot, row: Request)
    requires Rows(w) && (row.batchId.Some? ==> row.batchId.value in w.batches) && (row.status.Queued? ==> row.batchId.None?)
    ensures Rows(WithRequest(w, row.id, row))
  {
  }

  lemma RowsWithBatch(w: Snapshot, row: Batch)
    requires Rows(w)
    ensures Rows(WithBatch(w, row.id, row))
  {
  }

  /** The actions that write to a batch. */
  predicate OnBatch(a: Action) {
    || a.CreateBatch? || a.CountAttempt? || a.RecordSubmission? || a.AbandonBatch? || a.FailOrphan?
    || a.ObserveStatus? || a.Recount?
  }

  /** The request an action writes to, if it writes to one. */
  function Target(a: Action): Option<Id> {
    match a
    case Enqueue(request) => Some(request.id)
    case Retire(r) => Some(r)
    case Assign(r, _) => Some(r)
    case Revert(r, _) => Some(r)
    case FailOrphanRequest(r, _) => Some(r)
    case Settle(r, _, _) => Some(r)
    case Expire(r, _) => Some(r)
    case Requeue(r, _) => Some(r)
    case Exhaust(r, _) => Some(r)
    case _ => None
  }

  /** An action leaves the requests it does not write to as they are. */
  lemma OtherRows(w: Snapshot, a: Action, r: Id)
    requires Enabled(w, a) && r in w.requests && Target(a) != Some(r)
    ensures r in Apply(w, a).requests && Apply(w, a).requests[r] == w.requests[r]
  {
  }

  lemma RowsAfterRow(w: Snapshot, a: Action)
    requires Rows(w) && Enabled(w, a) && Target(a).Some?
    ensures Rows(Apply(w, a))
  {
    RowsWithRequest(w, Apply(w, a).requests[Target(a).value]);
  }

  lemma RowsAfterBatch(w: Snapshot, a: Action)
    requires Rows(w) && Enabled(w, a) && OnBatch(a)
    ensures Rows(Apply(w, a))
  {
    RowsWithBatch(w, Apply(w, a).batches[if a.CreateBatch? then a.batch.id else a.b]);
  }

  lemma RowsKept(w: Snapshot, a: Action)
    requires Rows(w) && Enabled(w, a)
    ensures Rows(Apply(w, a))
  {
    if Target(a).Some? {
      RowsAfterRow(w, a);
    } else if OnBatch(a) {
      RowsAfterBatch(w, a);
    }
  }

  /** What an action does not write to stays. */
  lemma OtherTables(w: Snapshot, a: Action)
    requires Enabled(w, a)
    ensures !OnBatch(a) ==> Apply(w, a).batches == w.batches
    ensures Target(a).None? ==> Apply(w, a).requests == w.requests
    ensures !a.CallProvider? ==> Apply(w, a).calls == w.calls
  {
  }

  lemma ReferencesAfterBatch(w: Snapshot, a: Action)
    requires References(w) && Enabled(w, a) && OnBatch(a)
    ensures References(Apply(w, a))
  {
  }

  lemma ReferencesKept(w: Snapshot, a: Action)
    requires References(w) && Enabled(w, a)
    ensures References(Apply(w, a))
  {
    if OnBatch(a) {
      ReferencesAfterBatch(w, a);
    } else {
      OtherTables(w, a);
    }
  }

  lemma OpenMembersAfterBatch(w: Snapshot, a: Action)
    requires Rows(w) && OpenMembersBatched(w) && Enabled(w, a) && OnBatch(a)
    ensures OpenMembersBatched(Apply(w, a))
  {
  }

  lemma OpenMembersAfterRow(w: Snapshot, a: Action)
    requires Rows(w) && OpenMembersBatched(w) && Enabled(w, a) && Target(a).Some?
    ensures OpenMembersBatched(Apply(w, a))
  {
  }

  lemma OpenMembersKept(w: Snapshot, a: Action)
    requires Rows(w) && OpenMembersBatched(w) && Enabled(w, a)
    ensures OpenMembersBatched(Apply(w, a))
  {
    if OnBatch(a) {
      OpenMembersAfterBatch(w, a);
    } else if Target(a).Some? {
      OpenMembersAfterRow(w, a);
    } else {
      OtherTables(w, a);
      assert forall r | OpenMember(Apply(w, a), r) :: OpenMember(w, r);
    }
  }

  lemma AppendCall(calls: seq<Call>, c: Call, b: Id)
    ensures CallsOf(calls + [c], b) == CallsOf(calls, b) + if c.batch == b then 1 else 0
    ensures Sent(calls + [c], b) == if c.batch == b then c.payload else Sent(calls, b)
  {
  }

  lemma PayloadsAfterCall(w: Snapshot, a: Action)
    requires PayloadsExact(w) && Enabled(w, a) && a.CallProvider?
    ensures PayloadsExact(Apply(w, a))
  {
  }

  lemma PayloadsAfterBatch(w: Snapshot, a: Action)
    requires PayloadsExact(w) && LastCallExact(w) && Enabled(w, a) && OnBatch(a)
    ensures PayloadsExact(Apply(w, a))
  {
  }

  lemma PayloadsAfterRow(w: Snapshot, a: Action)
    requires Rows(w) && PayloadsExact(w) && Enabled(w, a) && !OnBatch(a) && !a.CallProvider?
    ensures PayloadsExact(Apply(w, a))
  {
  }

  lemma PayloadsKept(w: Snapshot, a: Action)
    requires Rows(w) && PayloadsExact(w) && LastCallExact(w) && Enabled(w, a)
    ensures PayloadsExact(Apply(w, a))
  {
    if a.CallProvider? {
      PayloadsAfterCall(w, a);
    } else if OnBatch(a) {
      PayloadsAfterBatch(w, a);
    } else {
      PayloadsAfterRow(w, a);
    }
  }

  lemma LastCallAfterBatch(w: Snapshot, a: Action)
    requires Rows(w) && LastCallExact(w) && Enabled(w, a) && OnBatch(a)
    ensures LastCallExact(Apply(w, a))
  {
  }

  /** A new call describes the members as they are. */
  lemma LastCallAfterCall(w: Snapshot, a: Action)
    requires Enabled(w, a) && a.CallProvider?
    ensures LastCallExact(Apply(w, a))
  {
  }

  lemma LastCallAfterRow(w: Snapshot, a: Action)
    requires Rows(w) && LastCallExact(w) && CallsCounted(w) && Enabled(w, a) && !OnBatch(a) && !a.CallProvider?
    ensures LastCallExact(Apply(w, a))
  {
  }

  lemma LastCallKept(w: Snapshot, a: Action)
    requires Rows(w) && LastCallExact(w) && CallsCounted(w) && Enabled(w, a)
    ensures LastCallExact(Apply(w, a))
  {
    if a.CallProvider? {
      LastCallAfterCall(w, a);
    } else if OnBatch(a) {
      LastCallAfterBatch(w, a);
    } else {
      LastCallAfterRow(w, a);
    }
  }

  lemma CallsKept(w: Snapshot, a: Action)
    requires Rows(w) && CallsCounted(w) && Enabled(w, a)
    ensures CallsCounted(Apply(w, a))
  {
    OtherTables(w, a);
    if a.CallProvider? {
      CallsAfterCall(w, a);
    } else if a.CreateBatch? {
      CallsAfterCreation(w, a);
    } else if OnBatch(a) {
      CallsAfterUpdate(w, a);
    }
  }

  lemma CallsAfterCall(w: Snapshot, a: Action)
    requires CallsCounted(w) && Enabled(w, a) && a.CallProvider?
    ensures CallsCounted(Apply(w, a))
  {
    forall b { AppendCall(w.calls, Call(a.b, a.payload, a.ref), b); }
  }

  lemma CallsAfterCreation(w: Snapshot, a: Action)
    requires Rows(w) && CallsCounted(w) && Enabled(w, a) && a.CreateBatch?
    ensures CallsCounted(Apply(w, a))
  {
    UncalledBatch(w.calls, a.batch.id);
  }

  lemma CallsAfterUpdate(w: Snapshot, a: Action)
    requires CallsCounted(w) && Enabled(w, a) && OnBatch(a) && !a.CreateBatch?
    ensures CallsCounted(Apply(w, a))
  {
  }

  /** The batch's submission is on record. */
  predicate HasReference(w: Snapshot, b: Id) { b in w.batches && w.batches[b].providerBatchId.Some? }

  /** Which batches a request is recorded in depends on the references and the calls alone. */
  lemma SameRecords(w: Snapshot, w': Snapshot, r: Id)
    requires w'.calls == w.calls && forall b :: HasReference(w', b) <==> HasReference(w, b)
    ensures RecordedIn(w', r) == RecordedIn(w, r)
  {
    assert forall b :: b in RecordedIn(w', r) <==> HasReference(w', b) && r in Sent(w'.calls, b);
    assert forall b :: b in RecordedIn(w, r) <==> HasReference(w, b) && r in Sent(w.calls, b);
  }

  lemma RefsAfterBatch(w: Snapshot, a: Action, b: Id)
    requires Enabled(w, a) && OnBatch(a)
    ensures b in w.batches ==> b in Apply(w, a).batches
    ensures HasReference(Apply(w, a), b) <==> HasReference(w, b) || (a.RecordSubmission? && a.b == b)
  {
  }

  /** Provider references are only ever added, by recording a submission. */
  lemma RefsKept(w: Snapshot, a: Action)
    requires Enabled(w, a)
    ensures var w' := Apply(w, a);
      && w.batches.Keys <= w'.batches.Keys
      && forall b :: HasReference(w', b) <==> HasReference(w, b) || (a.RecordSubmission? && a.b == b)
  {
    if OnBatch(a) {
      forall b { RefsAfterBatch(w, a, b); }
    } else {
      OtherTables(w, a);
    }
  }

  /** Which action moves a request into or out of a batch. */
  lemma BatchIdKept(w: Snapshot, a: Action, r: Id)
    requires Enabled(w, a) && r in w.requests
    ensures var w' := Apply(w, a);
      && r in w'.requests
      && w'.requests[r].batchId ==
           if a.Assign? && a.r == r then Some(a.b)
           else if (a.Revert? || a.Requeue?) && a.r == r then None
           else w.requests[r].batchId
  {
  }

  lemma RecordedAfterCall(w: Snapshot, a: Action, r: Id)
    requires Rows(w) && Enabled(w, a) && a.CallProvider?
    ensures RecordedIn(Apply(w, a), r) == RecordedIn(w, r)
  {
  }

  lemma RecordedAfterRecording(w: Snapshot, a: Action, r: Id)
    requires LastCallExact(w) && Enabled(w, a) && a.RecordSubmission?
    ensures RecordedIn(Apply(w, a), r) == if Member(w, r, a.b) then RecordedIn(w, r) + {a.b} else RecordedIn(w, r)
  {
  }

  /** Only recording a submission changes which batches a stored request is recorded in. */
  lemma RecordedInKept(w: Snapshot, a: Action, r: Id)
    requires Rows(w) && LastCallExact(w) && Enabled(w, a)
    ensures
      RecordedIn(Apply(w, a), r) ==
        if a.RecordSubmission? && Member(w, r, a.b) then RecordedIn(w, r) + {a.b} else RecordedIn(w, r)
  {
    if a.CallProvider? {
      RecordedAfterCall(w, a, r);
    } else if a.RecordSubmission? {
      RecordedAfterRecording(w, a, r);
    } else {
      RefsKept(w, a);
      SameRecords(w, Apply(w, a), r);
    }
  }

  /** Whether a request sits in a recorded batch, after an action. */
  lemma InRecordedBatchKept(w: Snapshot, a: Action, r: Id)
    requires Rows(w) && References(w) && Enabled(w, a) && r in w.requests
    ensures
      InRecordedBatch(Apply(w, a), r) <==>
        (InRecordedBatch(w, r) && !(a.Requeue? && a.r == r)) || (a.RecordSubmission? && Member(w, r, a.b))
  {
    RefsKept(w, a);
    BatchIdKept(w, a, r);
  }

  lemma RetriesKept(w: Snapshot, a: Action)
    requires Rows(w) && References(w) && LastCallExact(w) && RetriesCharged(w) && Enabled(w, a)
    ensures RetriesCharged(Apply(w, a))
  {
    var w' := Apply(w, a);
    forall r | r in w'.requests
      ensures w'.requests[r].retryCount == 0 || w'.requests[r].retryCount <= w'.requests[r].maxRetries
      ensures |RecordedIn(w', r)| <= w'.requests[r].retryCount + if InRecordedBatch(w', r) then 1 else 0
    {
      RecordedInKept(w, a, r);
      if r in w.requests {
        InRecordedBatchKept(w, a, r);
        RetryCharged(w, a, r);
      } else {
        NewIsUnrecorded(w, r);
      }
    }
  }

  lemma RetryCharged(w: Snapshot, a: Action, r: Id)
    requires Enabled(w, a) && r in w.requests
    ensures var w' := Apply(w, a);
      && r in w'.requests && w'.requests[r].maxRetries == w.requests[r].maxRetries
      && w'.requests[r].retryCount == w.requests[r].retryCount + (if a.Requeue? && a.r == r then 1 else 0)
      && (a.Requeue? && a.r == r ==> w'.requests[r].retryCount <= w.requests[r].maxRetries)
  {
  }

  lemma NewIsUnrecorded(w: Snapshot, r: Id)
    requires Rows(w) && r !in w.requests
    ensures RecordedIn(w, r) == {}
  {
    forall b | b in w.batches ensures r !in Sent(w.calls, b) { SentIsStored(w.calls, b, w.requests.Keys); }
  }

  /** Results are never taken back, and only a request whose result is stored is settled. */
  lemma StoredKept(w: Snapshot, a: Action)
    requires SucceededStored(w) && Enabled(w, a)
    ensures SucceededStored(Apply(w, a)) && w.results.Keys <= Apply(w, a).results.Keys
  {
  }

  lemma InvKept(w: Snapshot, a: Action)
    requires Inv(w) && Enabled(w, a)
    ensures Inv(Apply(w, a))
  {
    RowsKept(w, a);
    ReferencesKept(w, a);
    OpenMembersKept(w, a);
    PayloadsKept(w, a);
    LastCallKept(w, a);
    CallsKept(w, a);
    RetriesKept(w, a);
    StoredKept(w, a);
  }

  // ---------------------------------------------------------------------------------------
  // Runs
  // ---------------------------------------------------------------------------------------

  /** One action, or a write that changes nothing. */
  ghost predicate Step(w: Snapshot, w': Snapshot) {
    w' == w || exists a :: Enabled(w, a) && w' == Apply(w, a)
  }

  /** There is a state after the i-th one. */
  ghost predicate HasNext(tr: seq<Snapshot>, i: int) { 0 <= i < |tr| - 1 }

  ghost predicate Steps(tr: seq<Snapshot>) {
    forall i {:trigger HasNext(tr, i)} | HasNext(tr, i) :: Step(tr[i], tr[i + 1])
  }

  function Fresh(): Snapshot { Snapshot(map[], map[], map[], []) }

  /**
   A run: durable states from an empty store on, each one step after the one before. Processes
   may have crashed and restarted anywhere in it: a crash leaves the durable state as it is.
   */
  ghost predicate Run(tr: seq<Snapshot>) {
    |tr| > 0 && tr[0] == Fresh() && Steps(tr)
  }

  /** A stretch of a run. */
  ghost predicate Stretch(tr: seq<Snapshot>) {
    |tr| > 0 && Inv(tr[0]) && Steps(tr)
  }

  lemma StepKeeps(w: Snapshot, w': Snapshot)
    requires Inv(w) && Step(w, w')
    ensures Inv(w')
  {
    if w' != w {
      var a :| Enabled(w, a) && w' == Apply(w, a);
      InvKept(w, a);
    }
  }

  lemma {:induction false} StretchSafe(tr: seq<Snapshot>, i: nat)
    requires Stretch(tr) && i < |tr|
    ensures Inv(tr[i])
  {
    if i > 0 {
      StretchSafe(tr, i - 1);
      assert HasNext(tr, i - 1);
      StepKeeps(tr[i - 1], tr[i]);
    }
  }

  lemma FreshInv()
    ensures Inv(Fresh())
  {
  }

  /** Safety over runs: the invariant holds in every state of every run. */
  lemma RunSafe(tr: seq<Snapshot>, i: nat)
    requires Run(tr) && i < |tr|
    ensures Inv(tr[i])
  {
    FreshInv();
    StretchSafe(tr, i);
  }

  lemma StepsSnoc(tr: seq<Snapshot>, w: Snapshot)
    requires |tr| > 0 && Steps(tr) && Step(tr[|tr| - 1], w)
    ensures Steps(tr + [w])
  {
    forall i | HasNext(tr + [w], i) ensures Step((tr + [w])[i], (tr + [w])[i + 1]) {
      assert i < |tr| - 1 ==> HasNext(tr, i);
    }
  }

  /** Extending a run by an action. */
  lemma RunExtend(tr: seq<Snapshot>, a: Action)
    requires Run(tr) && Enabled(tr[|tr| - 1], a)
    ensures Run(tr + [Apply(tr[|tr| - 1], a)])
  {
    StepsSnoc(tr, Apply(tr[|tr| - 1], a));
  }

  /** One action more. */
  ghost function Then(tr: seq<Snapshot>, a: Action): (longer: seq<Snapshot>)
    requires Run(tr) && Enabled(tr[|tr| - 1], a)
    ensures Run(longer) && longer[|longer| - 1] == Apply(tr[|tr| - 1], a)
  {
    RunExtend(tr, a);
    tr + [Apply(tr[|tr| - 1], a)]
  }

  /** Extending a run by a write that changes nothing. */
  lemma RunStutter(tr: seq<Snapshot>)
    requires Run(tr)
    ensures Run(tr + [tr[|tr| - 1]])
  {
    StepsSnoc(tr, tr[|tr| - 1]);
  }

  /** Any stretch of a run is one the bounds below apply to. */
  lemma StretchOf(tr: seq<Snapshot>, i: nat)
    requires Run(tr) && i < |tr|
    ensures Stretch(tr[i..])
  {
    RunSafe(tr, i);
    forall k | HasNext(tr[i..], k) ensures Step(tr[i..][k], tr[i..][k + 1]) {
      assert HasNext(tr, i + k);
    }
  }

  /**
   A process may stop after any write, and one restarted from the state it left continues the
   same run.
   */
  lemma CrashRestart(before: seq<Snapshot>, k: nat, after: seq<Snapshot>)
    requires Run(before) && k < |before|
    requires |after| > 0 && after[0] == before[k] && Steps(after)
    ensures Run(before[..k + 1] + after[1..])
  {
    var tr := before[..k + 1] + after[1..];
    forall i | HasNext(tr, i) ensures Step(tr[i], tr[i + 1]) {
      if i < k {
        assert HasNext(before, i);
      } else {
        assert HasNext(after, i - k);
        assert tr[i] == after[i - k] && tr[i + 1] == after[i - k + 1];
      }
    }
  }

  // ---------------------------------------------------------------------------------------
  // What the invariant means
  // ---------------------------------------------------------------------------------------

  /**
   In every reachable state, what the provider holds under an in-flight batch is exactly the
   batch's members, all `batched`; so no request is in two in-flight payloads at once.
   */
  lemma InFlightPayloadsExact(tr: seq<Snapshot>, i: nat)
    requires Run(tr) && i < |tr|
    ensures forall b | b in tr[i].batches && InFlight(tr[i].batches[b].status) ::
              && tr[i].batches[b].providerBatchId.Some?
              && Sent(tr[i].calls, b) == Members(tr[i], b)
              && (forall r | r in Members(tr[i], b) :: tr[i].requests[r].status.Batched?)
    ensures forall b, c | b in tr[i].batches && c in tr[i].batches && b != c
              && InFlight(tr[i].batches[b].status) && InFlight(tr[i].batches[c].status) ::
              Sent(tr[i].calls, b) !! Sent(tr[i].calls, c)
  {
    RunSafe(tr, i);
    var w := tr[i];
    forall b | b in w.batches && InFlight(w.batches[b].status)
      ensures w.batches[b].providerBatchId.Some? && Sent(w.calls, b) == Members(w, b)
      ensures forall r | r in Members(w, b) :: w.requests[r].status.Batched?
    {
      assert forall r :: r in Sent(w.calls, b) <==> Member(w, r, b);
      assert forall r | Member(w, r, b) :: OpenMember(w, r);
    }
  }

  /**
   In every state of every run, a request that succeeded has its result stored: no crash comes
   between the two, since the result is written first.
   */
  lemma SucceededHasResult(tr: seq<Snapshot>, i: nat, r: Id)
    requires Run(tr) && i < |tr| && r in tr[i].requests && tr[i].requests[r].status.Succeeded?
    ensures r in tr[i].results
  {
    RunSafe(tr, i);
  }

  /** Write-before-submit bounds provider calls at every point of every run, across crashes. */
  lemma SubmitCallsBounded(tr: seq<Snapshot>, i: nat, b: Id)
    requires Run(tr) && i < |tr| && b in tr[i].batches
    ensures CallsOf(tr[i].calls, b) <= tr[i].batches[b].submissionAttempts <= tr[i].batches[b].maxSubmissionAttempts
  {
    RunSafe(tr, i);
  }

  /** Retries stay within budget, so a request is recorded as submitted at most maxRetries + 1 times. */
  lemma RetriesBounded(tr: seq<Snapshot>, i: nat, r: Id)
    requires Run(tr) && i < |tr| && r in tr[i].requests
    ensures tr[i].requests[r].retryCount <= Budget(tr[i].requests[r])
    ensures |RecordedIn(tr[i], r)| <= tr[i].requests[r].retryCount + 1 <= Budget(tr[i].requests[r]) + 1
  {
    RunSafe(tr, i);
  }

  // ---------------------------------------------------------------------------------------
  // Progress of one request
  // ---------------------------------------------------------------------------------------

  function Budget(q: Request): nat { if q.maxRetries > 0 then q.maxRetries else 0 }

  function Rank(s: RequestStatus): nat {
    match s
    case Queued => 3
    case Batched => 2
    case Processing => 2
    case Failed => 1
    case Expired => 1
    case Succeeded => 0
    case FailedFinal => 0
    case Canceled => 0
  }

  /** What is left of a request's life: four units per retry, and its place within one attempt. */
  function Charge(q: Request): int { 4 * (Budget(q) - q.retryCount) + Rank(q.status) }

  /** The uncharged transition: a failed submission hands the request back to the queue. */
  ghost predicate Reverted(w: Snapshot, w': Snapshot, r: Id)
    requires r in w.requests && r in w'.requests
  {
    && w.requests[r].status.Batched? && w'.requests[r].status.Queued?
    && w'.requests[r].retryCount == w.requests[r].retryCount
    && w.requests[r].batchId.Some? && Pending(w, w.requests[r].batchId.value)
  }

  ghost predicate Moved(w: Snapshot, w': Snapshot, r: Id)
    requires r in w.requests && r in w'.requests
  {
    w'.requests[r].status != w.requests[r].status
  }

  /** An action that writes to a request changes its status, and never its budget. */
  lemma TargetMoved(w: Snapshot, a: Action, w': Snapshot, r: Id)
    requires Rows(w) && Enabled(w, a) && w' == Apply(w, a) && r in w.requests && Target(a) == Some(r)
    ensures r in w'.requests && w'.requests[r].maxRetries == w.requests[r].maxRetries && Moved(w, w', r)
  {
  }

  lemma ChargeDropsBy(w: Snapshot, a: Action, w': Snapshot, r: Id)
    requires References(w) && Enabled(w, a) && w' == Apply(w, a)
    requires r in w.requests && r in w'.requests && (OpenMember(w, r) ==> w.requests[r].status.Batched?)
    requires Target(a) == Some(r)
    ensures Moved(w, w', r) && !Reverted(w, w', r) ==> Charge(w'.requests[r]) < Charge(w.requests[r])
    ensures Reverted(w, w', r) ==> Charge(w'.requests[r]) == Charge(w.requests[r]) + 1
  {
    if a.Revert? {
      assert OpenMember(w, r);
    }
  }

  /**
   Every status change of a request lowers its charge, except the revert, which raises it by
   one; nothing else about it changes without a status change, and requests never disappear.
   */
  lemma ChargeDrops(w: Snapshot, w': Snapshot, r: Id)
    requires Inv(w) && Step(w, w') && r in w.requests
    ensures r in w'.requests && w'.requests[r].maxRetries == w.requests[r].maxRetries
    ensures !Moved(w, w', r) ==> w'.requests[r] == w.requests[r]
    ensures Moved(w, w', r) && !Reverted(w, w', r) ==> Charge(w'.requests[r]) < Charge(w.requests[r])
    ensures Reverted(w, w', r) ==> Charge(w'.requests[r]) == Charge(w.requests[r]) + 1
  {
    if w' != w {
      var a :| Enabled(w, a) && w' == Apply(w, a);
      if Target(a) == Some(r) {
        TargetMoved(w, a, w', r);
        ChargeDropsBy(w, a, w', r);
      } else {
        OtherRows(w, a, r);
      }
    }
  }

  lemma StretchInit(tr: seq<Snapshot>)
    requires Stretch(tr) && |tr| > 1
    ensures Stretch(tr[..|tr| - 1])
  {
    forall i | HasNext(tr[..|tr| - 1], i) ensures Step(tr[i], tr[i + 1]) {
      assert HasNext(tr, i);
    }
  }

  lemma ChargeAlong(tr: seq<Snapshot>, r: Id)
    requires Stretch(tr) && |tr| > 1 && r in tr[|tr| - 2].requests
    ensures var w, w' := tr[|tr| - 2], tr[|tr| - 1];
      && r in w'.requests && w'.requests[r].maxRetries == w.requests[r].maxRetries
      && (Moved(w, w', r) && !Reverted(w, w', r) ==> Charge(w'.requests[r]) < Charge(w.requests[r]))
      && (Reverted(w, w', r) ==> Charge(w'.requests[r]) == Charge(w.requests[r]) + 1)
      && (!Moved(w, w', r) ==> w'.requests[r] == w.requests[r])
  {
    StretchSafe(tr, |tr| - 2);
    assert HasNext(tr, |tr| - 2);
    ChargeDrops(tr[|tr| - 2], tr[|tr| - 1], r);
  }

  /** How often request `r` changed status along a stretch, reverts apart; and how often it was reverted. */
  ghost function Moves(tr: seq<Snapshot>, r: Id): (n: (nat, nat))
    requires Stretch(tr) && r in tr[0].requests
    ensures r in tr[|tr| - 1].requests
  {
    if |tr| == 1 then (0, 0)
    else
      StretchInit(tr);
      var n := Moves(tr[..|tr| - 1], r);
      ChargeAlong(tr, r);
      if Reverted(tr[|tr| - 2], tr[|tr| - 1], r) then (n.0, n.1 + 1)
      else if Moved(tr[|tr| - 2], tr[|tr| - 1], r) then (n.0 + 1, n.1)
      else n
  }

  lemma {:induction false} MovesCharged(tr: seq<Snapshot>, r: Id)
    requires Stretch(tr) && r in tr[0].requests
    ensures Moves(tr, r).0 + Charge(tr[|tr| - 1].requests[r]) <= Charge(tr[0].requests[r]) + Moves(tr, r).1
    decreases |tr|
  {
    if |tr| > 1 {
      StretchInit(tr);
      MovesCharged(tr[..|tr| - 1], r);
      ChargeAlong(tr, r);
    }
  }

  /**
   Over any stretch of any run, with any number of crashes, a request changes status at most
   4 * maxRetries + 3 times plus once for every reverted submission.
   */
  lemma MovesBounded(tr: seq<Snapshot>, r: Id)
    requires Stretch(tr) && r in tr[0].requests
    ensures Moves(tr, r).0 <= 4 * Budget(tr[0].requests[r]) + 3 + Moves(tr, r).1
  {
    MovesCharged(tr, r);
    StretchSafe(tr, |tr| - 1);
  }

  /** From the state in which a run stores the request: the bound holds for what the run does with it then. */
  lemma MovesBoundedInRun(tr: seq<Snapshot>, i: nat, r: Id)
    requires Run(tr) && i < |tr| && r in tr[i].requests
    ensures Stretch(tr[i..]) && r in tr[|tr| - 1].requests
    ensures Moves(tr[i..], r).0 <= 4 * Budget(tr[i].requests[r]) + 3 + Moves(tr[i..], r).1
  {
    StretchOf(tr, i);
    MovesBounded(tr[i..], r);
  }
}
