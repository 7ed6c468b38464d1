/** Records of the batch lifecycle engine that are values: statuses, requests, batches, results. */
module NorushTypes {

  datatype Option<+T> = None | Some(value: T)

  /** ULIDs and provider batch ids: only identity and creation order matter here. */
  type Id = nat

  datatype ProviderName = Claude | OpenAI

  datatype RequestStatus =
    | Queued | Batched | Processing | Succeeded | Failed | Expired | FailedFinal | Canceled

  datatype BatchStatus = Pending | Submitted | Processing | Ended | Expired | Cancelled | Failed

  /** `bytes` stands for the serialized size of the request's params. */
  datatype Request = Request(
    id: Id, provider: ProviderName, model: string, userId: string, bytes: nat,
    status: RequestStatus, batchId: Option<Id>, retryCount: nat, maxRetries: int)

  datatype Batch = Batch(
    id: Id, provider: ProviderName, apiKeyId: string, providerBatchId: Option<Id>,
    status: BatchStatus, requestCount: nat, succeededCount: nat, failedCount: nat,
    submissionAttempts: nat, maxSubmissionAttempts: nat)

  /** A stored result row; `response` stands for the response payload and token counts. */
  datatype ResultRow = ResultRow(requestId: Id, batchId: Id, response: nat)

  /** One element of a provider's result stream. */
  datatype NorushResult = NorushResult(requestId: Id, response: nat, success: bool)

  /** A provider submit call: what was sent for which batch, and the reference returned, if any. */
  datatype Call = Call(batch: Id, payload: set<Id>, ref: Option<Id>)

  predicate InFlight(s: BatchStatus) { s.Submitted? || s == BatchStatus.Processing }

  /** Not yet in a terminal status. */
  predicate Open(s: BatchStatus) { s.Pending? || InFlight(s) }

  predicate Terminal(s: BatchStatus) { s.Ended? || s.Expired? || s.Failed? || s.Cancelled? }

  /** The statuses the repackager picks up. */
  predicate Repackageable(s: RequestStatus) { s == RequestStatus.Failed || s == RequestStatus.Expired }

  function ProviderKey(p: ProviderName): string { if p.Claude? then "claude" else "openai" }

  /** Adapter lookup: "provider::owner" first, then the shared "provider" entry. */
  predicate HasAdapter(adapters: set<string>, provider: ProviderName, owner: string) {
    ProviderKey(provider) + "::" + owner in adapters || ProviderKey(provider) in adapters
  }
  /** One entry is enough, and only the owner's own and the shared one of the provider count. */
  lemma AdapterEntries(adapters: set<string>, entry: string, provider: ProviderName, owner: string)
    ensures !HasAdapter({}, provider, owner)
    ensures HasAdapter(adapters + {entry}, provider, owner) <==>
              HasAdapter(adapters, provider, owner)
              || entry == (if provider.Claude? then "claude" else "openai")
              || entry == (if provider.Claude? then "claude::" else "openai::") + owner
  {
    assert "claude" + "::" == "claude::" && "openai" + "::" == "openai::";
  }
}
