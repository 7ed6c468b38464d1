/** Resubmitting batches a crash or a failed call left pending, within their attempt limit. */
module OrphanRecovery {
  import opened NorushTypes
  import opened Protocol
  import opened Stores

  function FailMember(q: Request): Request { q.(status := RequestStatus.Failed) }

  /** Only the update stamp of batch `b` may have changed. */
  ghost predicate OnlyStamp(was: map<Id, int>, now: map<Id, int>, b: Id) {
    && now.Keys == was.Keys
    && forall c | c in was && c != b :: now[c] == was[c]
  }

  method MarkOrphanFailed(store: Store, b: Id)
    requires store.Sound() && Protocol.Pending(store.State(), b)
    requires store.batches[b].submissionAttempts >= store.batches[b].maxSubmissionAttempts
    modifies store
    ensures store.Sound() && store.Advanced()
    ensures store.batches == old(store.batches)[b := old(store.batches)[b].(status := BatchStatus.Failed)]
    ensures MembersBecame(old(store.requests), store.requests, b, FailMember)
    ensures store.results == old(store.results) && store.calls == old(store.calls)
    ensures OnlyStamp(old(store.batchUpdatedAt), store.batchUpdatedAt, b)
  {
    store.PendingMembersBatched(b);
    store.CommitBatch(b, (x: Batch) => x.(status := BatchStatus.Failed), FailOrphan(b));
    var members := store.GetRequestsByBatchId(b);
    ghost var f := FailMember;
    MappedStart(store.requests, members, f);
    for i := 0 to |members|
      invariant store.Sound() && store.Advanced()
      invariant Mapped(old(store.requests), store.requests, members, i, f)
      invariant store.batches == old(store.batches)[b := old(store.batches)[b].(status := BatchStatus.Failed)]
      invariant store.results == old(store.results) && store.calls == old(store.calls)
      invariant OnlyStamp(old(store.batchUpdatedAt), store.batchUpdatedAt, b)
    {
      ghost var now := store.requests;
      assert members[i] in members;
      store.CommitRequest(
        members[i].id, (r: Request) => r.(status := RequestStatus.Failed), FailOrphanRequest(members[i].id, b));
      MappedStep(old(store.requests), now, store.requests, members, i, f);
    }
    LoopOverMembers(old(store.requests), store.requests, members, b, f);
  }

  /** What a resubmission attempt did to its batch. */
  ghost predicate Resubmitted(was: Batch, now: Batch, success: bool) {
    && now.submissionAttempts == was.submissionAttempts + 1
    && if success
       then
         && now.providerBatchId.Some?
         && now == was.(submissionAttempts := now.submissionAttempts, status := Submitted,
                        providerBatchId := now.providerBatchId)
       else now == was.(submissionAttempts := now.submissionAttempts)
  }

  /** One call, for exactly the members, and its reference recorded; none if there are no members. */
  ghost predicate Resent(was: Snapshot, now: Snapshot, b: Id) {
    && b in now.batches
    && (Members(was, b) == {} ==> now.batches[b].providerBatchId.None?)
    && now.calls == was.calls + Resends(was, b, now.batches[b].providerBatchId)
  }

  ghost function Resends(was: Snapshot, b: Id, ref: Option<Id>): seq<Call> {
    if Members(was, b) == {} then [] else [Call(b, Members(was, b), ref)]
  }

  /**
   What `Resubmit` does: the attempt is counted and the members are sent exactly if the batch can
   be tried; then the reference is recorded, or the batch stays pending.
   */
  ghost predicate AttemptMade(was: Stamped, now: Stamped, canTry: bool, batch: Batch, success: bool) {
    && batch.id in was.w.batches && OnlyBatch(was.w.batches, now.w.batches, batch.id)
    && now.w.requests == was.w.requests && now.w.results == was.w.results
    && OnlyStamp(was.stamps, now.stamps, batch.id)
    && if canTry then Resubmitted(batch, now.w.batches[batch.id], success) && Resent(was.w, now.w, batch.id)
       else !success && now.w == was.w
  }

  /** The attempt counted, then the call made and its reference recorded. */
  lemma SentAgain(
      was: Stamped, counted: Stamped, now: Stamped, batch: Batch, payload: set<Id>, ref: Option<Id>)
    requires batch.id in was.w.batches && was.w.batches[batch.id] == batch && batch.status.Pending?
    requires batch.providerBatchId.None? && payload == Members(was.w, batch.id) != {}
    requires counted.w.batches == was.w.batches[batch.id := batch.(submissionAttempts := batch.submissionAttempts + 1)]
    requires now.w.batches == if ref.None? then counted.w.batches
                              else counted.w.batches[batch.id :=
                                     counted.w.batches[batch.id].(providerBatchId := ref, status := Submitted)]
    requires now.w.calls == was.w.calls + [Call(batch.id, payload, ref)]
    requires now.w.requests == was.w.requests && now.w.results == was.w.results
    requires OnlyStamp(was.stamps, now.stamps, batch.id)
    ensures AttemptMade(was, now, true, batch, ref.Some?)
  {
  }

  class OrphanRecovery {
    const store: Store
    const adapters: set<string>
    const gracePeriodMs: int
    /** Batches being recovered in this process. */
    var inFlightRecoveryBatchIds: set<Id>

    constructor (store: Store, adapters: set<string>, gracePeriodMs: int)
      ensures this.store == store && this.adapters == adapters && inFlightRecoveryBatchIds == {}
    {
      this.store, this.adapters, this.gracePeriodMs := store, adapters, gracePeriodMs;
      inFlightRecoveryBatchIds := {};
    }

    predicate CanTry(b: Batch)
      reads this
    {
      b.id !in inFlightRecoveryBatchIds && HasAdapter(adapters, b.provider, b.apiKeyId)
    }

    method CountAttemptOf(batch: Batch)
      requires store.Sound() && Protocol.Pending(store.State(), batch.id) && store.batches[batch.id] == batch
      requires batch.submissionAttempts < batch.maxSubmissionAttempts
      modifies store
      ensures store.Sound() && store.Advanced()
      ensures store.State() == old(store.State()).(batches :=
                old(store.batches)[batch.id := batch.(submissionAttempts := batch.submissionAttempts + 1)])
      ensures CallsOf(store.calls, batch.id) < batch.submissionAttempts + 1
      ensures OnlyStamp(old(store.batchUpdatedAt), store.batchUpdatedAt, batch.id)
    {
      store.CallsBelow(batch.id);
      store.CommitBatch(
        batch.id, (x: Batch) => x.(submissionAttempts := batch.submissionAttempts + 1), CountAttempt(batch.id));
    }

    /** Count the attempt, then send what belongs to the batch now. */
    method SendAgain(batch: Batch) returns (success: bool)
      requires store.Sound() && Protocol.Pending(store.State(), batch.id) && store.batches[batch.id] == batch
      requires batch.submissionAttempts < batch.maxSubmissionAttempts
      modifies store
      ensures store.Sound() && store.Advanced()
      ensures AttemptMade(old(Now()), Now(), true, batch, success)
    {
      ghost var was := Now();
      CountAttemptOf(batch);
      var requests := store.GetRequestsByBatchId(batch.id);
      store.MembersFetched(requests, batch.id);
      if |requests| == 0 {
        success := false;
      } else {
        assert requests[0].id in Ids(requests);
        ghost var counted := Now();
        var ref := store.SubmitAndRecord(batch.id, Ids(requests));
        success := ref.Some?;
        SentAgain(was, counted, Now(), batch, Ids(requests), ref);
      }
    }

    /** Claim the batch in this process, then resubmit it if there is an adapter for it. */
    method Resubmit(batch: Batch) returns (success: bool)
      requires store.Sound() && Protocol.Pending(store.State(), batch.id) && store.batches[batch.id] == batch
      requires batch.submissionAttempts < batch.maxSubmissionAttempts
      modifies store, `inFlightRecoveryBatchIds
      ensures store.Sound() && store.Advanced()
      ensures inFlightRecoveryBatchIds == old(inFlightRecoveryBatchIds)
      ensures AttemptMade(old(Now()), Now(), old(CanTry(batch)), batch, success)
    {
      success := false;
      if batch.id in inFlightRecoveryBatchIds {
        return;
      }
      inFlightRecoveryBatchIds := inFlightRecoveryBatchIds + {batch.id};
      if HasAdapter(adapters, batch.provider, batch.apiKeyId) {
        success := SendAgain(batch);
      }
      inFlightRecoveryBatchIds := inFlightRecoveryBatchIds - {batch.id};
    }

    ghost function Now(): Stamped
      reads this, store
    {
      Stamped(store.State(), store.batchUpdatedAt)
    }

    method RecoverOne(batch: Batch, cutoff: int) returns (recovered: bool, failed: bool)
      requires store.Sound() && batch.id in store.batches && store.batches[batch.id] == batch && batch.status.Pending?
      modifies store, `inFlightRecoveryBatchIds
      ensures store.Sound() && store.Advanced() && store.results == old(store.results)
      ensures inFlightRecoveryBatchIds == old(inFlightRecoveryBatchIds)
      ensures RoundMade(old(Now()), Now(), cutoff, old(CanTry(batch)), batch)
      ensures recovered <==> store.batches[batch.id].status.Submitted?
      ensures failed <==> store.batches[batch.id].status.Failed?
    {
      recovered, failed := false, false;
      if !Due(batch, store.batchUpdatedAt[batch.id], cutoff) {
        return;
      }
      if batch.submissionAttempts >= batch.maxSubmissionAttempts {
        MarkOrphanFailed(store, batch.id);
        failed := true;
        return;
      }
      recovered, failed := Retry(batch, cutoff);
    }

    /** Resubmit; if this failure used up the last attempt, the orphan has failed. */
    method Retry(batch: Batch, ghost cutoff: int) returns (recovered: bool, failed: bool)
      requires store.Sound() && Protocol.Pending(store.State(), batch.id) && store.batches[batch.id] == batch
      requires batch.submissionAttempts < batch.maxSubmissionAttempts
      requires Due(batch, store.batchUpdatedAt[batch.id], cutoff)
      modifies store, `inFlightRecoveryBatchIds
      ensures store.Sound() && store.Advanced() && store.results == old(store.results)
      ensures inFlightRecoveryBatchIds == old(inFlightRecoveryBatchIds)
      ensures RoundMade(old(Now()), Now(), cutoff, old(CanTry(batch)), batch)
      ensures recovered <==> store.batches[batch.id].status.Submitted?
      ensures failed <==> store.batches[batch.id].status.Failed?
    {
      failed := false;
      ghost var was, canTry := Now(), CanTry(batch);
      recovered := Resubmit(batch);
      ghost var mid := Now();
      AttemptRound(was, mid, cutoff, canTry, batch, recovered);
      if !recovered {
        var updated := store.batches[batch.id];
        if updated.submissionAttempts >= updated.maxSubmissionAttempts {
          MarkOrphanFailed(store, batch.id);
          failed := true;
          FailedRound(was, mid, Now(), cutoff, canTry, batch);
        }
      }
    }

    function Triable(batches: map<Id, Batch>): set<Id>
      reads this
    {
      set b | b in batches && CanTry(batches[b])
    }

    /** One round of a pass. */
    method Round(
        ghost was: Stamped, batch: Batch, cutoff: int, ghost tries: set<Id>, ghost handled: set<Id>,
        ghost recovered: nat, ghost failed: nat)
      returns (r: bool, f: bool)
      requires store.Sound() && PassMade(was, Now(), cutoff, tries, handled, recovered, failed)
      requires batch.id in was.w.batches && was.w.batches[batch.id] == batch && batch.status.Pending?
      requires batch.id !in handled && (CanTry(batch) <==> batch.id in tries)
      modifies store, `inFlightRecoveryBatchIds
      ensures store.Sound() && store.Advanced() && store.results == old(store.results)
      ensures inFlightRecoveryBatchIds == old(inFlightRecoveryBatchIds)
      ensures PassMade(was, Now(), cutoff, tries, handled + {batch.id},
                        recovered + (if r then 1 else 0), failed + (if f then 1 else 0))
    {
      ghost var mid := Now();
      assert PassedOver(was.w.batches, mid.w.batches, was.stamps, cutoff, tries, handled, batch.id);
      r, f := RecoverOne(batch, cutoff);
      PassStep(was, mid, Now(), cutoff, tries, handled, batch, recovered, failed);
    }

    /** The rounds of a pass. */
    method RecoverEach(pending: seq<Batch>, cutoff: int, ghost tries: set<Id>) returns (recovered: nat, failed: nat)
      requires store.Sound() && AscendingBatches(pending)
      requires forall b | b in pending :: b.id in store.batches && store.batches[b.id] == b && b.status.Pending?
      requires forall b | b in pending :: CanTry(b) <==> b.id in tries
      modifies store, `inFlightRecoveryBatchIds
      ensures store.Sound() && store.Advanced() && store.results == old(store.results)
      ensures inFlightRecoveryBatchIds == old(inFlightRecoveryBatchIds)
      ensures PassMade(old(Now()), Now(), cutoff, tries, BatchIds(pending), recovered, failed)
    {
      recovered, failed := 0, 0;
      ghost var was := Now();
      for i := 0 to |pending|
        invariant store.Sound() && store.Advanced() && store.results == old(store.results)
        invariant inFlightRecoveryBatchIds == old(inFlightRecoveryBatchIds)
        invariant PassMade(was, Now(), cutoff, tries, BatchIds(pending[..i]), recovered, failed)
      {
        NextPending(pending, i);
        assert pending[i] in pending;
        var r, f := Round(was, pending[i], cutoff, tries, BatchIds(pending[..i]), recovered, failed);
        recovered := recovered + if r then 1 else 0;
        failed := failed + if f then 1 else 0;
      }
      assert pending[..|pending|] == pending;
    }

    /**
     One recovery pass. Pending batches older than the grace period are resubmitted within their
     attempt limit, each by one call for exactly its members, or failed with their members; the
     counts are exact.
     */
    method Recover() returns (recovered: nat, failed: nat)
      requires store.Sound()
      modifies store, `inFlightRecoveryBatchIds
      ensures store.Sound() && store.Advanced()
      ensures inFlightRecoveryBatchIds == old(inFlightRecoveryBatchIds)
      ensures PassMade(old(Now()), Now(), old(store.clock) - gracePeriodMs, old(Triable(store.batches)),
                       PendingIds(old(store.batches)), recovered, failed)
      ensures HandledByAge(old(Now()), Now(), old(store.clock) - gracePeriodMs, old(inFlightRecoveryBatchIds), adapters)
      ensures CountsExact(old(store.batches), store.batches, recovered, failed)
      ensures store.results == old(store.results)
    {
      ghost var was, cutoff := Now(), store.clock - gracePeriodMs;
      Findable();
      ghost var tries;
      recovered, failed, tries := RecoverPass();
      PassByAge(was, Now(), cutoff, tries, inFlightRecoveryBatchIds, adapters, recovered, failed);
    }

    /** Before a pass: pending batches have no reference, and the pass will try what it can. */
    lemma Findable()
      requires store.Sound()
      ensures Untracked(store.batches) && TriesAre(Triable(store.batches), store.batches, inFlightRecoveryBatchIds, adapters)
    {
      store.PendingUnreferenced();
    }

    method RecoverPass() returns (recovered: nat, failed: nat, ghost tries: set<Id>)
      requires store.Sound()
      modifies store, `inFlightRecoveryBatchIds
      ensures store.Sound() && store.Advanced() && store.results == old(store.results)
      ensures inFlightRecoveryBatchIds == old(inFlightRecoveryBatchIds) && tries == old(Triable(store.batches))
      ensures PassMade(old(Now()), Now(), old(store.clock) - gracePeriodMs, tries, PendingIds(old(store.batches)), recovered,
                       failed)
    {
      tries := Triable(store.batches);
      var cutoff := store.clock - gracePeriodMs;
      var pending := store.GetPendingBatches();
      HandledAll(store.batches, pending);
      recovered, failed := RecoverEach(pending, cutoff, tries);
    }
  }

  ghost predicate Untracked(batches: map<Id, Batch>) {
    forall b | b in batches && batches[b].status.Pending? :: batches[b].providerBatchId.None?
  }

  /** Tried is what no one in this process is recovering, and has an adapter. */
  ghost predicate TriesAre(tries: set<Id>, batches: map<Id, Batch>, claimed: set<Id>, adapters: set<string>) {
    forall b | b in batches ::
      b in tries <==> b !in claimed && HasAdapter(adapters, batches[b].provider, batches[b].apiKeyId)
  }

  /** The batch, its members and the calls for it are as they were. */
  ghost predicate LeftAlone(was: Snapshot, now: Snapshot, b: Id)
    requires b in was.batches
  {
    && b in now.batches && now.batches[b] == was.batches[b] && CallsFor(now.calls, b) == CallsFor(was.calls, b)
    && forall r | r in was.requests && was.requests[r].batchId == Some(b) ::
         r in now.requests && now.requests[r] == was.requests[r]
  }

  /** The members have failed, and are otherwise as they were; or they are as they were. */
  ghost predicate MembersAre(was: Snapshot, now: Snapshot, b: Id, failed: bool) {
    forall r | r in was.requests && was.requests[r].batchId == Some(b) ::
      && r in now.requests
      && now.requests[r] == if failed then was.requests[r].(status := RequestStatus.Failed) else was.requests[r]
  }

  /**
   What a pass does with a batch pending for longer than the grace period: fail it with its members
   once its attempts are used up; else, if it can be tried, count an attempt and send its members,
   once and if there are any; then record the reference, or fail it all the same if that was the
   last attempt.
   */
  ghost predicate OrphanHandled(was: Snapshot, now: Snapshot, b: Id, canTry: bool)
    requires b in was.batches
  {
    && b in now.batches
    && var p, q := was.batches[b], now.batches[b];
      if p.submissionAttempts >= p.maxSubmissionAttempts then
        && q == p.(status := BatchStatus.Failed) && MembersAre(was, now, b, true)
        && CallsFor(now.calls, b) == CallsFor(was.calls, b)
      else if !canTry then LeftAlone(was, now, b)
      else
        && q == p.(submissionAttempts := p.submissionAttempts + 1, providerBatchId := q.providerBatchId, status := q.status)
        && q.status == (if q.providerBatchId.Some? then Submitted
                        else if q.submissionAttempts == p.maxSubmissionAttempts then BatchStatus.Failed
                        else BatchStatus.Pending)
        && MembersAre(was, now, b, q.status.Failed?)
        && CallsFor(now.calls, b) == CallsFor(was.calls, b)
             + if Members(was, b) == {} then [] else [Call(b, Members(was, b), q.providerBatchId)]
  }

  /** Which of these happens is told from the age of the batch. */
  ghost predicate HandledByAge(was: Stamped, now: Stamped, cutoff: int, claimed: set<Id>, adapters: set<string>) {
    forall b | b in was.w.batches && b in was.stamps ::
      if was.w.batches[b].status.Pending? && was.stamps[b] < cutoff
      then OrphanHandled(was.w, now.w, b,
                         b !in claimed && HasAdapter(adapters, was.w.batches[b].provider, was.w.batches[b].apiKeyId))
      else LeftAlone(was.w, now.w, b)
  }

  lemma PassByAge(
      was: Stamped, now: Stamped, cutoff: int, tries: set<Id>, claimed: set<Id>, adapters: set<string>, recovered: nat,
      failed: nat)
    requires PassMade(was, now, cutoff, tries, PendingIds(was.w.batches), recovered, failed)
    requires Untracked(was.w.batches) && TriesAre(tries, was.w.batches, claimed, adapters)
    ensures CountsExact(was.w.batches, now.w.batches, recovered, failed)
    ensures HandledByAge(was, now, cutoff, claimed, adapters)
  {
    forall b | b in was.w.batches
      ensures if was.w.batches[b].status.Pending? && was.stamps[b] < cutoff then OrphanHandled(was.w, now.w, b, b in tries)
              else LeftAlone(was.w, now.w, b)
    {
      OneByAge(was, now, cutoff, tries, recovered, failed, b);
    }
    CountsOfPass(was, now, cutoff, tries, recovered, failed);
  }

  /** How many pending batches were recovered, and how many failed. */
  ghost predicate CountsExact(was: map<Id, Batch>, now: map<Id, Batch>, recovered: nat, failed: nat) {
    && recovered == |set b | b in was && was[b].status.Pending? && b in now && now[b].status.Submitted?|
    && failed == |set b | b in was && was[b].status.Pending? && b in now && now[b].status.Failed?|
  }

  lemma CountsOfPass(was: Stamped, now: Stamped, cutoff: int, tries: set<Id>, recovered: nat, failed: nat)
    requires PassMade(was, now, cutoff, tries, PendingIds(was.w.batches), recovered, failed)
    ensures CountsExact(was.w.batches, now.w.batches, recovered, failed)
  {
    BecameAll(was.w.batches, now.w.batches);
  }

  lemma BecameAll(was: map<Id, Batch>, now: map<Id, Batch>)
    ensures Became(was, now, Submitted) ==
              set b | b in was && was[b].status.Pending? && b in now && now[b].status.Submitted?
    ensures Became(was, now, BatchStatus.Failed) ==
              set b | b in was && was[b].status.Pending? && b in now && now[b].status.Failed?
  {
  }

  lemma OneByAge(was: Stamped, now: Stamped, cutoff: int, tries: set<Id>, recovered: nat, failed: nat, b: Id)
    requires PassMade(was, now, cutoff, tries, PendingIds(was.w.batches), recovered, failed) && b in was.w.batches
    requires was.w.batches[b].status.Pending? ==> was.w.batches[b].providerBatchId.None?
    ensures if was.w.batches[b].status.Pending? && was.stamps[b] < cutoff then OrphanHandled(was.w, now.w, b, b in tries)
            else LeftAlone(was.w, now.w, b)
  {
    assert PassedOver(was.w.batches, now.w.batches, was.stamps, cutoff, tries, PendingIds(was.w.batches), b);
    assert CallsMadeFor(was.w, now.w, was.stamps, cutoff, tries, PendingIds(was.w.batches), b);
    forall r | r in was.w.requests && was.w.requests[r].batchId == Some(b)
      ensures r in now.w.requests && now.w.requests[r] ==
                if b in Became(was.w.batches, now.w.batches, BatchStatus.Failed) then FailMember(was.w.requests[r])
                else was.w.requests[r]
    {
      assert OrphanFailed(was.w.requests, now.w.requests, Became(was.w.batches, now.w.batches, BatchStatus.Failed), r);
    }
  }

  /** Pending long enough to be taken for an orphan. */
  predicate Due(b: Batch, updatedAt: int, cutoff: int) {
    b.providerBatchId.None? && updatedAt < cutoff
  }

  /** A due orphan with attempts left that can be tried. */
  predicate Retried(b: Batch, updatedAt: int, cutoff: int, canTry: bool) {
    Due(b, updatedAt, cutoff) && b.submissionAttempts < b.maxSubmissionAttempts && canTry
  }

  /** What a recovery pass does with one pending batch. */
  ghost predicate Recovered(was: Batch, now: Batch, due: bool, canTry: bool) {
    if !due then now == was
    else if was.submissionAttempts >= was.maxSubmissionAttempts then now == was.(status := BatchStatus.Failed)
    else if !canTry then now == was
    else
      || (now.status.Submitted? && Resubmitted(was, now, true))
      || (now.status.Pending? && Resubmitted(was, now, false) && now.submissionAttempts < now.maxSubmissionAttempts)
      || (now.status.Failed? && Resubmitted(was, now.(status := BatchStatus.Pending), false)
          && now.submissionAttempts == now.maxSubmissionAttempts)
  }

  /** Every handled batch had its one outcome; the others are as they were. */
  ghost predicate PassOver(
      was: map<Id, Batch>, now: map<Id, Batch>, updatedAt: map<Id, int>, cutoff: int, tries: set<Id>, handled: set<Id>)
  {
    now.Keys == was.Keys == updatedAt.Keys && forall b :: PassedOver(was, now, updatedAt, cutoff, tries, handled, b)
  }

  ghost predicate PassedOver(
      was: map<Id, Batch>, now: map<Id, Batch>, updatedAt: map<Id, int>, cutoff: int, tries: set<Id>, handled: set<Id>,
      b: Id)
  {
    b in was && b in now && b in updatedAt ==>
      if b in handled then Recovered(was[b], now[b], Due(was[b], updatedAt[b], cutoff), b in tries)
      else now[b] == was[b]
  }

  /** A durable state with the `updatedAt` column of its batches. */
  datatype Stamped = Stamped(w: Snapshot, stamps: map<Id, int>)

  /**
   What a pass over the handled batches has done: each had its one outcome, those that failed took
   their members with them, the calls made are accounted for, and the two counts are exact.
   */
  ghost predicate PassMade(
      was: Stamped, now: Stamped, cutoff: int, tries: set<Id>, handled: set<Id>, recovered: nat, failed: nat)
  {
    && PassOver(was.w.batches, now.w.batches, was.stamps, cutoff, tries, handled)
    && now.stamps.Keys == was.stamps.Keys
    && (forall b | b in was.stamps && b !in handled :: now.stamps[b] == was.stamps[b])
    && OrphansFailed(was.w.requests, was.w.batches, now.w.requests, now.w.batches)
    && CallsMade(was.w, now.w, was.stamps, cutoff, tries, handled)
    && recovered == |Became(was.w.batches, now.w.batches, Submitted)|
    && failed == |Became(was.w.batches, now.w.batches, BatchStatus.Failed)|
  }

  lemma PassOverStep(
      was: map<Id, Batch>, mid: map<Id, Batch>, now: map<Id, Batch>, stamps: map<Id, int>, cutoff: int, tries: set<Id>,
      handled: set<Id>, batch: Batch)
    requires PassOver(was, mid, stamps, cutoff, tries, handled)
    requires batch.id in was && was[batch.id] == batch && OnlyBatch(mid, now, batch.id)
    requires Recovered(batch, now[batch.id], Due(batch, stamps[batch.id], cutoff), batch.id in tries)
    ensures PassOver(was, now, stamps, cutoff, tries, handled + {batch.id})
  {
    forall b ensures PassedOver(was, now, stamps, cutoff, tries, handled + {batch.id}, b) {
      assert PassedOver(was, mid, stamps, cutoff, tries, handled, b);
    }
  }

  /** What one round of the loop did to its batch, and to nothing else. */
  ghost predicate RoundMade(mid: Stamped, now: Stamped, cutoff: int, canTry: bool, batch: Batch) {
    && batch.id in mid.w.batches && batch.id in mid.stamps
    && OnlyBatch(mid.w.batches, now.w.batches, batch.id) && OnlyStamp(mid.stamps, now.stamps, batch.id)
    && Recovered(batch, now.w.batches[batch.id], Due(batch, mid.stamps[batch.id], cutoff), canTry)
    && (if now.w.batches[batch.id].status.Failed? then MembersBecame(mid.w.requests, now.w.requests, batch.id, FailMember)
        else now.w.requests == mid.w.requests)
    && (if Retried(batch, mid.stamps[batch.id], cutoff, canTry) then Resent(mid.w, now.w, batch.id)
        else now.w.calls == mid.w.calls)
  }

  /** An attempt that leaves attempts over, or succeeds, is a whole round. */
  lemma AttemptRound(was: Stamped, now: Stamped, cutoff: int, canTry: bool, batch: Batch, success: bool)
    requires AttemptMade(was, now, canTry, batch, success) && batch.id in was.stamps && was.w.batches[batch.id] == batch
    requires Due(batch, was.stamps[batch.id], cutoff)
    requires batch.status.Pending? && batch.submissionAttempts < batch.maxSubmissionAttempts
    ensures var b := now.w.batches[batch.id];
      success || b.submissionAttempts < b.maxSubmissionAttempts ==> RoundMade(was, now, cutoff, canTry, batch)
  {
  }

  /** One that fails for the last time is a round once the orphan is marked failed. */
  lemma FailedRound(was: Stamped, mid: Stamped, now: Stamped, cutoff: int, canTry: bool, batch: Batch)
    requires AttemptMade(was, mid, canTry, batch, false) && batch.id in was.stamps && was.w.batches[batch.id] == batch
    requires Due(batch, was.stamps[batch.id], cutoff)
    requires batch.status.Pending? && batch.submissionAttempts < batch.maxSubmissionAttempts
    requires var b := mid.w.batches[batch.id];
      && b.submissionAttempts >= b.maxSubmissionAttempts
      && now.w.batches == mid.w.batches[batch.id := b.(status := BatchStatus.Failed)]
    requires MembersBecame(mid.w.requests, now.w.requests, batch.id, FailMember) && now.w.calls == mid.w.calls
    requires OnlyStamp(mid.stamps, now.stamps, batch.id)
    ensures RoundMade(was, now, cutoff, canTry, batch)
  {
  }

  lemma PassStep(
      was: Stamped, mid: Stamped, now: Stamped, cutoff: int, tries: set<Id>, handled: set<Id>, batch: Batch,
      recovered: nat, failed: nat)
    requires PassMade(was, mid, cutoff, tries, handled, recovered, failed)
    requires var b := batch.id; b in was.w.batches && was.w.batches[b] == batch && batch.status.Pending? && b !in handled
    requires RoundMade(mid, now, cutoff, batch.id in tries, batch)
    ensures PassMade(was, now, cutoff, tries, handled + {batch.id},
                      recovered + if now.w.batches[batch.id].status.Submitted? then 1 else 0,
                      failed + if now.w.batches[batch.id].status.Failed? then 1 else 0)
  {
    assert PassedOver(was.w.batches, mid.w.batches, was.stamps, cutoff, tries, handled, batch.id);
    PassOverStep(was.w.batches, mid.w.batches, now.w.batches, was.stamps, cutoff, tries, handled, batch);
    BecameStep(was.w.batches, mid.w.batches, now.w.batches, batch.id, Submitted);
    BecameStep(was.w.batches, mid.w.batches, now.w.batches, batch.id, BatchStatus.Failed);
    OrphansFailedStep(was.w.requests, was.w.batches, mid.w.requests, mid.w.batches, now.w.requests, now.w.batches, batch.id);
    CallsStep(was.w, mid.w, now.w, was.stamps, cutoff, tries, handled, batch);
  }

  /** The calls made for one batch, in order. */
  function CallsFor(calls: seq<Call>, b: Id): seq<Call> {
    if calls == [] then []
    else CallsFor(calls[..|calls| - 1], b) + if calls[|calls| - 1].batch == b then [calls[|calls| - 1]] else []
  }

  /** A pass calls the provider for exactly the handled batches it retries, once each, with their members. */
  ghost predicate CallsMade(
      was: Snapshot, now: Snapshot, stamps: map<Id, int>, cutoff: int, tries: set<Id>, handled: set<Id>)
  {
    was.calls <= now.calls && forall b :: CallsMadeFor(was, now, stamps, cutoff, tries, handled, b)
  }

  ghost predicate CallsMadeFor(
      was: Snapshot, now: Snapshot, stamps: map<Id, int>, cutoff: int, tries: set<Id>, handled: set<Id>, b: Id)
  {
    if b in handled && b in was.batches && b in stamps && Retried(was.batches[b], stamps[b], cutoff, b in tries)
    then
      && b in now.batches
      && (Members(was, b) == {} ==> now.batches[b].providerBatchId.None?)
      && CallsFor(now.calls, b) == CallsFor(was.calls, b) + Resends(was, b, now.batches[b].providerBatchId)
    else CallsFor(now.calls, b) == CallsFor(was.calls, b)
  }

  lemma CallsForSnoc(calls: seq<Call>, c: Call, b: Id)
    ensures CallsFor(calls + [c], b) == CallsFor(calls, b) + if c.batch == b then [c] else []
  {
    assert (calls + [c])[..|calls|] == calls;
  }

  lemma CallsForResends(calls: seq<Call>, was: Snapshot, sent: Id, ref: Option<Id>, b: Id)
    ensures CallsFor(calls + Resends(was, sent, ref), b) ==
              CallsFor(calls, b) + if b == sent then Resends(was, sent, ref) else []
  {
    if Members(was, sent) == {} {
      assert calls + [] == calls && CallsFor(calls, b) + [] == CallsFor(calls, b);
    } else {
      CallsForSnoc(calls, Call(sent, Members(was, sent), ref), b);
    }
  }

  /** Failing orphans moves no request into or out of a batch. */
  lemma SameMembers(was: Snapshot, mid: Snapshot, b: Id)
    requires OrphansFailed(was.requests, was.batches, mid.requests, mid.batches)
    ensures Members(mid, b) == Members(was, b)
  {
    forall r ensures r in Members(mid, b) <==> r in Members(was, b) {
      assert OrphanFailed(was.requests, mid.requests, Became(was.batches, mid.batches, BatchStatus.Failed), r);
    }
  }

  lemma CallsStep(
      was: Snapshot, mid: Snapshot, now: Snapshot, stamps: map<Id, int>, cutoff: int, tries: set<Id>, handled: set<Id>,
      batch: Batch)
    requires CallsMade(was, mid, stamps, cutoff, tries, handled) && batch.id !in handled
    requires OrphansFailed(was.requests, was.batches, mid.requests, mid.batches)
    requires batch.id in was.batches && was.batches[batch.id] == batch && batch.id in stamps
    requires OnlyBatch(mid.batches, now.batches, batch.id)
    requires if Retried(batch, stamps[batch.id], cutoff, batch.id in tries) then Resent(mid, now, batch.id)
             else now.calls == mid.calls
    ensures CallsMade(was, now, stamps, cutoff, tries, handled + {batch.id})
  {
    SameMembers(was, mid, batch.id);
    forall b ensures CallsMadeFor(was, now, stamps, cutoff, tries, handled + {batch.id}, b) {
      assert CallsMadeFor(was, mid, stamps, cutoff, tries, handled, b);
      if now.calls != mid.calls {
        CallsForResends(mid.calls, mid, batch.id, now.batches[batch.id].providerBatchId, b);
      }
    }
  }

  function PendingIds(batches: map<Id, Batch>): set<Id> { set b | b in batches && batches[b].status.Pending? }

  function BatchIds(rows: seq<Batch>): set<Id> { set b | b in rows :: b.id }

  /** The batches that went from pending to `s`. */
  function Became(was: map<Id, Batch>, now: map<Id, Batch>, s: BatchStatus): set<Id> {
    set b | b in was && was[b].status.Pending? && b in now && now[b].status == s
  }

  /** The members of the batches that failed have failed; no other request changed. */
  ghost predicate OrphansFailed(
      wasRequests: map<Id, Request>, was: map<Id, Batch>, nowRequests: map<Id, Request>, now: map<Id, Batch>)
  {
    && nowRequests.Keys == wasRequests.Keys
    && forall r :: OrphanFailed(wasRequests, nowRequests, Became(was, now, BatchStatus.Failed), r)
  }

  ghost predicate OrphanFailed(was: map<Id, Request>, now: map<Id, Request>, failed: set<Id>, r: Id) {
    r in was && r in now ==>
      now[r] == if was[r].batchId.Some? && was[r].batchId.value in failed then FailMember(was[r]) else was[r]
  }

  lemma NextPending(pending: seq<Batch>, i: nat)
    requires i < |pending| && AscendingBatches(pending)
    ensures pending[i].id !in BatchIds(pending[..i])
    ensures BatchIds(pending[..i + 1]) == BatchIds(pending[..i]) + {pending[i].id}
  {
  }

  lemma HandledAll(was: map<Id, Batch>, pending: seq<Batch>)
    requires forall b :: b in pending <==> b.id in was && was[b.id] == b && b.status.Pending?
    requires forall b | b in was :: was[b].id == b
    ensures BatchIds(pending) == PendingIds(was)
  {
  }

  lemma BecameStep(was: map<Id, Batch>, mid: map<Id, Batch>, now: map<Id, Batch>, b: Id, s: BatchStatus)
    requires b in was && was[b].status.Pending? && b in mid && mid[b] == was[b]
    requires mid.Keys == was.Keys && OnlyBatch(mid, now, b) && !s.Pending?
    ensures Became(was, now, s) == Became(was, mid, s) + if now[b].status == s then {b} else {}
    ensures |Became(was, now, s)| == |Became(was, mid, s)| + if now[b].status == s then 1 else 0
  {
    var added: set<Id> := if now[b].status == s then {b} else {};
    forall c ensures c in Became(was, now, s) <==> c in Became(was, mid, s) + added {
      if c == b {
        assert c !in Became(was, mid, s);
      }
    }
    assert Became(was, now, s) == Became(was, mid, s) + added;
    assert b !in Became(was, mid, s);
  }

  lemma OrphansFailedStep(
      requests0: map<Id, Request>, was: map<Id, Batch>, midRequests: map<Id, Request>, mid: map<Id, Batch>,
      nowRequests: map<Id, Request>, now: map<Id, Batch>, b: Id)
    requires OrphansFailed(requests0, was, midRequests, mid)
    requires b in was && was[b].status.Pending? && mid.Keys == was.Keys && mid[b] == was[b] && OnlyBatch(mid, now, b)
    requires if now[b].status.Failed? then MembersBecame(midRequests, nowRequests, b, FailMember) else nowRequests == midRequests
    ensures OrphansFailed(requests0, was, nowRequests, now)
  {
    BecameStep(was, mid, now, b, BatchStatus.Failed);
    forall r ensures OrphanFailed(requests0, nowRequests, Became(was, now, BatchStatus.Failed), r) {
      assert OrphanFailed(requests0, midRequests, Became(was, mid, BatchStatus.Failed), r);
    }
  }

  // -- Over passes ---------------------------------------------------------------------------

  /** One recovery pass over the store's batches. */
  datatype Pass = Pass(
    before: map<Id, Batch>, after: map<Id, Batch>, stamps: map<Id, int>, cutoff: int, tries: set<Id>)

  ghost predicate IsPass(p: Pass) {
    PassOver(p.before, p.after, p.stamps, p.cutoff, p.tries, PendingIds(p.before))
  }

  lemma PassMadeIsPass(was: Stamped, now: Stamped, cutoff: int, tries: set<Id>, recovered: nat, failed: nat)
    requires PassMade(was, now, cutoff, tries, PendingIds(was.w.batches), recovered, failed)
    ensures IsPass(Pass(was.w.batches, now.w.batches, was.stamps, cutoff, tries))
  {
  }

  /** The batch has no reference, was last written before the pass's cutoff, and can be tried. */
  predicate DueIn(p: Pass, b: Id) {
    b in p.before && b in p.stamps && p.before[b].providerBatchId.None? && p.stamps[b] < p.cutoff && b in p.tries
  }

  predicate PendingIn(batches: map<Id, Batch>, b: Id) { b in batches && batches[b].status.Pending? }

  /** What happens between two passes (flushes, polling, pipelines) leaves pending batches alone. */
  ghost predicate PendingKept(was: map<Id, Batch>, now: map<Id, Batch>) {
    forall b | PendingIn(was, b) :: b in now && now[b] == was[b]
  }

  ghost predicate Passes(ps: seq<Pass>) {
    && (forall i | 0 <= i < |ps| :: IsPass(ps[i]))
    && (forall i, j | 0 <= i && j == i + 1 < |ps| :: PendingKept(ps[i].after, ps[j].before))
  }

  function AttemptsLeft(b: Batch): int { b.maxSubmissionAttempts - b.submissionAttempts }

  /** The batch is submitted or failed after one of the passes. */
  ghost predicate SettledIn(ps: seq<Pass>, b: Id) {
    exists i :: 0 <= i < |ps| && b in ps[i].after && (ps[i].after[b].status.Submitted? || ps[i].after[b].status.Failed?)
  }

  /**
   An orphan that is due in every pass that finds it pending, and can be tried, does not stay
   pending: however its calls turn out, it is submitted or failed within as many passes as it has
   attempts left (within one if it has none).
   */
  lemma {:induction false} OrphanSettles(ps: seq<Pass>, b: Id)
    requires Passes(ps) && ps != [] && PendingIn(ps[0].before, b)
    requires forall i | 0 <= i < |ps| && PendingIn(ps[i].before, b) :: DueIn(ps[i], b)
    requires |ps| >= AttemptsLeft(ps[0].before[b])
    ensures SettledIn(ps, b)
  {
    var p := ps[0];
    assert IsPass(p) && DueIn(p, b) && PassedOver(p.before, p.after, p.stamps, p.cutoff, p.tries, PendingIds(p.before), b);
    assert Recovered(p.before[b], p.after[b], true, true);
    if p.after[b].status.Pending? {
      var rest := ps[1..];
      assert PendingIn(p.after, b) && PendingKept(p.after, ps[1].before);
      PassesTail(ps);
      assert forall i | 0 <= i < |rest| :: rest[i] == ps[i + 1];
      OrphanSettles(rest, b);
      var i :| && 0 <= i < |rest| && b in rest[i].after
               && (rest[i].after[b].status.Submitted? || rest[i].after[b].status.Failed?);
      assert ps[i + 1] == rest[i];
    } else {
      assert b in ps[0].after;
    }
  }

  lemma PassesTail(ps: seq<Pass>)
    requires Passes(ps) && ps != []
    ensures Passes(ps[1..])
  {
    var rest := ps[1..];
    forall i, j | 0 <= i && j == i + 1 < |rest| ensures PendingKept(rest[i].after, rest[j].before) {
      assert rest[i] == ps[i + 1] && rest[j] == ps[j + 1];
    }
  }

  /**
   A pass changes a due orphan with attempts left exactly when it can try it; an orphan it leaves
   pending then has strictly fewer attempts left, and still one. Without an adapter the orphan
   stays as it is, in every pass.
   */
  lemma OrphanMovesIff(p: Pass, b: Id)
    requires IsPass(p) && PendingIn(p.before, b) && b in p.stamps
    requires p.before[b].providerBatchId.None? && p.stamps[b] < p.cutoff
    requires AttemptsLeft(p.before[b]) > 0
    ensures b in p.after && (p.after[b] != p.before[b] <==> b in p.tries)
    ensures b in p.tries && p.after[b].status.Pending? ==> 0 < AttemptsLeft(p.after[b]) < AttemptsLeft(p.before[b])
  {
    assert PassedOver(p.before, p.after, p.stamps, p.cutoff, p.tries, PendingIds(p.before), b);
  }
}
