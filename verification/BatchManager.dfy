/** Flush: fetch queued requests, drop retired models, form batches, submit them. */
module BatchManagers {
  import opened NorushTypes
  import opened Protocol
  import opened Stores
  import opened Splitter
  import opened Grouping
  import opened KeySelector
  import opened Submission

  // -- Lifecycle preflight -----------------------------------------------------------------

  predicate RetiredIn(catalog: map<string, LifecycleState>, q: Request) {
    Lookup(catalog, CatalogKey(q.provider, q.model)) == Some(Retired)
  }

  function Survivors(queued: seq<Request>, catalog: map<string, LifecycleState>): seq<Request> {
    if queued == [] then []
    else
      Survivors(queued[..|queued| - 1], catalog)
      + if RetiredIn(catalog, queued[|queued| - 1]) then [] else [queued[|queued| - 1]]
  }

  lemma SurvivorsSnoc(queued: seq<Request>, i: nat, catalog: map<string, LifecycleState>)
    requires i < |queued|
    ensures Survivors(queued[..i + 1], catalog) ==
              Survivors(queued[..i], catalog) + if RetiredIn(catalog, queued[i]) then [] else [queued[i]]
  {
    assert queued[..i + 1][..i] == queued[..i];
  }

  function AfterPreflight(q: Request, catalog: map<string, LifecycleState>): Request {
    if RetiredIn(catalog, q) then q.(status := FailedFinal) else q
  }

  /** Lookups are cached per (provider, model), misses included; a cached answer is the direct one. */
  method LookupCached(store: Store, cache: map<string, Option<LifecycleState>>, req: Request)
    returns (entry: Option<LifecycleState>, updated: map<string, Option<LifecycleState>>)
    requires forall k | k in cache :: cache[k] == Lookup(store.catalog, k)
    ensures entry == Lookup(store.catalog, CatalogKey(req.provider, req.model))
    ensures forall k | k in updated :: updated[k] == Lookup(store.catalog, k)
  {
    var key := CatalogKey(req.provider, req.model);
    updated := cache;
    if key in cache {
      entry := cache[key];
    } else {
      entry := store.GetProviderCatalogEntry(req.provider, req.model);
      updated := updated[key := entry];
    }
  }

  /** One request at the gate. */
  method Gate(store: Store, cache: map<string, Option<LifecycleState>>, req: Request)
    returns (retired: bool, updated: map<string, Option<LifecycleState>>)
    requires store.Sound() && req.id in store.requests && store.requests[req.id] == req && req.status.Queued?
    requires forall k | k in cache :: cache[k] == Lookup(store.catalog, k)
    modifies store
    ensures store.Sound() && store.Advanced()
    ensures retired == RetiredIn(store.catalog, req)
    ensures forall k | k in updated :: updated[k] == Lookup(store.catalog, k)
    ensures store.requests == old(store.requests)[req.id := AfterPreflight(req, store.catalog)]
    ensures store.batches == old(store.batches) && store.results == old(store.results) && store.calls == old(store.calls)
  {
    var entry;
    entry, updated := LookupCached(store, cache, req);
    retired := entry == Some(Retired);
    if retired {
      store.CommitRequest(req.id, (r: Request) => r.(status := FailedFinal), Retire(req.id));
    } else {
      assert store.requests == store.requests[req.id := req];
    }
  }

  /** Requests for retired models fail for good; the others survive in order. */
  method PreflightLifecycle(store: Store, queued: seq<Request>) returns (survivors: seq<Request>)
    requires store.Sound() && DistinctIds(queued) && StillQueued(queued, store.requests)
    modifies store
    ensures store.Sound() && store.Advanced()
    ensures survivors == Survivors(queued, store.catalog)
    ensures OthersKept(old(store.requests), store.requests, queued)
    ensures forall q | q in queued :: q.id in store.requests && store.requests[q.id] == AfterPreflight(q, store.catalog)
    ensures forall q | q in queued ::
              var key := CatalogKey(q.provider, q.model);
              store.requests[q.id] ==
                if key in store.catalog && store.catalog[key] == Retired then q.(status := FailedFinal) else q
    ensures store.batches == old(store.batches) && store.results == old(store.results) && store.calls == old(store.calls)
  {
    survivors := [];
    var cache: map<string, Option<LifecycleState>> := map[];
    ghost var catalog := store.catalog;
    ghost var f := (q: Request) => AfterPreflight(q, catalog);
    MappedStart(store.requests, queued, f);
    for i := 0 to |queued|
      invariant store.Sound() && store.Advanced()
      invariant survivors == Survivors(queued[..i], catalog)
      invariant forall k | k in cache :: cache[k] == Lookup(catalog, k)
      invariant Mapped(old(store.requests), store.requests, queued, i, f)
      invariant store.batches == old(store.batches) && store.results == old(store.results) && store.calls == old(store.calls)
    {
      SurvivorsSnoc(queued, i, catalog);
      ghost var now := store.requests;
      var retired;
      retired, cache := Gate(store, cache, queued[i]);
      if !retired {
        survivors := survivors + [queued[i]];
      }
      MappedStep(old(store.requests), now, store.requests, queued, i, f);
    }
    assert queued[..|queued|] == queued;
  }

  // -- Forming batches ---------------------------------------------------------------------

  lemma {:induction false} SurvivorsMembers(queued: seq<Request>, catalog: map<string, LifecycleState>)
    ensures forall q :: q in Survivors(queued, catalog) <==> q in queued && !RetiredIn(catalog, q)
    ensures DistinctIds(queued) ==> DistinctIds(Survivors(queued, catalog))
  {
    if queued != [] {
      var init, q := queued[..|queued| - 1], queued[|queued| - 1];
      SurvivorsMembers(init, catalog);
      assert queued == init + [q];
      if DistinctIds(queued) {
        LastApart(queued);
        DistinctSnoc(Survivors(init, catalog), q);
      }
    }
  }

  /** The last of distinct rows is none of the others. */
  lemma LastApart(rows: seq<Request>)
    requires rows != [] && DistinctIds(rows)
    ensures var init := rows[..|rows| - 1];
      DistinctIds(init) && forall p | p in init :: p.id != rows[|rows| - 1].id
  {
  }

  lemma DistinctSnoc(rows: seq<Request>, q: Request)
    requires DistinctIds(rows) && forall p | p in rows :: p.id != q.id
    ensures DistinctIds(rows + [q])
  {
  }

  lemma {:induction false} ByKeyDistinct(rows: seq<Request>, key: string)
    requires DistinctIds(rows)
    ensures DistinctIds(ByKey(rows, key))
  {
    if rows != [] {
      var init := rows[..|rows| - 1];
      LastApart(rows);
      ByKeyDistinct(init, key);
      ByKeyMembers(init, key);
      DistinctSnoc(ByKey(init, key), rows[|rows| - 1]);
    }
  }

  lemma {:induction false} NotOversizedMembers(rows: seq<Request>, maxBytes: nat)
    ensures forall q :: q in NotOversized(rows, maxBytes) <==> q in rows && q.bytes <= maxBytes
    ensures DistinctIds(rows) ==> DistinctIds(NotOversized(rows, maxBytes))
  {
    if rows != [] {
      var init, q := rows[..|rows| - 1], rows[|rows| - 1];
      NotOversizedMembers(init, maxBytes);
      assert rows == init + [q];
      if DistinctIds(rows) {
        LastApart(rows);
        DistinctSnoc(NotOversized(init, maxBytes), q);
      }
    }
  }

  lemma FlattenSnoc(chunks: seq<seq<Request>>, chunk: seq<Request>)
    ensures Flatten(chunks + [chunk]) == Flatten(chunks) + chunk
  {
    assert (chunks + [chunk])[..|chunks|] == chunks;
  }

  lemma {:induction false} FlattenConcat(a: seq<seq<Request>>, b: seq<seq<Request>>)
    ensures Flatten(a + b) == Flatten(a) + Flatten(b)
    decreases |b|
  {
    if b == [] {
      assert a + b == a;
    } else {
      var init, chunk := b[..|b| - 1], b[|b| - 1];
      FlattenConcat(a, init);
      ConcatLast(a, b);
      FlattenSnoc(a + init, chunk);
      Assoc(Flatten(a), Flatten(init), chunk);
    }
  }

  lemma ConcatLast<T>(a: seq<T>, b: seq<T>)
    requires b != []
    ensures a + b == (a + b[..|b| - 1]) + [b[|b| - 1]]
  {
  }

  lemma Assoc<T>(a: seq<T>, b: seq<T>, c: seq<T>)
    ensures (a + b) + c == a + (b + c)
  {
  }

  ghost predicate OneKey(chunk: seq<Request>, limits: ProviderName -> Limits) {
    && chunk != []
    && Emitted(chunk, limits(chunk[0].provider))
    && forall q | q in chunk :: KeyOf(q) == KeyOf(chunk[0])
  }

  ghost predicate AllOneKey(chunks: seq<seq<Request>>, limits: ProviderName -> Limits) {
    forall k | 0 <= k < |chunks| :: OneKey(chunks[k], limits)
  }

  /** The chunks of one key, in order. */
  ghost function OfKey(chunks: seq<seq<Request>>, key: string): seq<seq<Request>> {
    if chunks == [] then []
    else
      var chunk := chunks[|chunks| - 1];
      OfKey(chunks[..|chunks| - 1], key) + if chunk != [] && KeyOf(chunk[0]) == key then [chunk] else []
  }

  /** A group was split greedily: in order, without what is oversized, and no chunk before the next was full. */
  ghost predicate SplitGreedily(own: seq<seq<Request>>, group: seq<Request>, limits: ProviderName -> Limits) {
    if group == [] then own == []
    else
      var l := limits(group[0].provider);
      Flatten(own) == NotOversized(group, l.maxBytes) && Greedy(own, l) && AllEmitted(own, l)
  }

  /** The requests that can be sent at all, of those with these keys. */
  ghost predicate FormedFor(
      chunks: seq<seq<Request>>, live: seq<Request>, keys: set<string>, limits: ProviderName -> Limits)
  {
    && DistinctIds(Flatten(chunks)) && AllOneKey(chunks, limits)
    && (forall q :: q in Flatten(chunks) <==>
          q in live && KeyOf(q) in keys && q.bytes <= limits(q.provider).maxBytes)
    && forall key :: SplitGreedily(OfKey(chunks, key), if key in keys then ByKey(live, key) else [], limits)
  }

  /**
   What the live requests that can be sent at all become: chunks of one key within limits, each
   request in one of them; and those of one key are its requests in order, split greedily.
   */
  ghost predicate Formed(chunks: seq<seq<Request>>, live: seq<Request>, limits: ProviderName -> Limits) {
    && DistinctIds(Flatten(chunks)) && AllOneKey(chunks, limits)
    && (forall q :: q in Flatten(chunks) <==> q in live && q.bytes <= limits(q.provider).maxBytes)
    && forall key :: SplitGreedily(OfKey(chunks, key), ByKey(live, key), limits)
  }

  /** So no other way of cutting a group's requests into runs within the limits needs fewer batches. */
  lemma FewestBatches(
      chunks: seq<seq<Request>>, live: seq<Request>, limits: ProviderName -> Limits, key: string,
      other: seq<seq<Request>>)
    requires Formed(chunks, live, limits) && ByKey(live, key) != []
    requires var l := limits(ByKey(live, key)[0].provider);
      && Flatten(other) == NotOversized(ByKey(live, key), l.maxBytes)
      && forall k | 0 <= k < |other| :: other[k] != [] && |other[k]| <= l.maxRequests && Bytes(other[k]) <= l.maxBytes
    ensures |OfKey(chunks, key)| <= |other|
  {
    assert SplitGreedily(OfKey(chunks, key), ByKey(live, key), limits);
    FewestChunks(OfKey(chunks, key), other, limits(ByKey(live, key)[0].provider));
  }

  lemma OfKeyAppend(chunks: seq<seq<Request>>, chunk: seq<Request>, key: string)
    ensures OfKey(chunks + [chunk], key) ==
              OfKey(chunks, key) + if chunk != [] && KeyOf(chunk[0]) == key then [chunk] else []
  {
    assert (chunks + [chunk])[..|chunks|] == chunks;
  }

  lemma {:induction false} OfKeyConcat(a: seq<seq<Request>>, b: seq<seq<Request>>, key: string)
    ensures OfKey(a + b, key) == OfKey(a, key) + OfKey(b, key)
    decreases |b|
  {
    if b == [] {
      assert a + b == a;
    } else {
      var init, chunk := b[..|b| - 1], b[|b| - 1];
      OfKeyConcat(a, init, key);
      ConcatLast(a, b);
      OfKeyAppend(a + init, chunk, key);
      Assoc(OfKey(a, key), OfKey(init, key), if chunk != [] && KeyOf(chunk[0]) == key then [chunk] else []);
    }
  }

  /** Chunks that all have one key. */
  lemma {:induction false} OfOneKey(split: seq<seq<Request>>, own: string, key: string)
    requires forall k | 0 <= k < |split| :: split[k] != [] && KeyOf(split[k][0]) == own
    ensures OfKey(split, key) == if key == own then split else []
  {
    if split != [] {
      var init, chunk := split[..|split| - 1], split[|split| - 1];
      assert split == init + [chunk];
      OfOneKey(init, own, key);
      OfKeyAppend(init, chunk, key);
    }
  }

  function KeySet(order: seq<string>): set<string> { set k | k in order }

  /** Group, then split each group. */
  method FormBatches(live: seq<Request>, limits: ProviderName -> Limits) returns (chunks: seq<seq<Request>>)
    requires DistinctIds(live)
    ensures Formed(chunks, live, limits)
  {
    chunks := [];
    var order, groups := GroupRequests(live);
    FormedStart(live, limits);
    for i := 0 to |order|
      invariant FormedFor(chunks, live, KeySet(order[..i]), limits)
    {
      var group := groups[order[i]];
      GroupFresh(live, order, groups, i);
      var split := SplitByProviderLimits(group, limits(group[0].provider));
      FormedSnoc(chunks, split, live, KeySet(order[..i]), order[i], limits);
      chunks := chunks + split;
    }
    assert order[..|order|] == order;
    FormedAll(chunks, live, order, groups, limits);
  }

  lemma FormedStart(live: seq<Request>, limits: ProviderName -> Limits)
    ensures FormedFor([], live, KeySet([]), limits)
  {
  }

  lemma FormedAll(
      chunks: seq<seq<Request>>, live: seq<Request>, order: seq<string>, groups: map<string, seq<Request>>,
      limits: ProviderName -> Limits)
    requires GroupsOf(live, order, groups) && FormedFor(chunks, live, KeySet(order), limits)
    ensures Formed(chunks, live, limits)
  {
    forall key ensures SplitGreedily(OfKey(chunks, key), ByKey(live, key), limits) {
      assert SplitGreedily(OfKey(chunks, key), if key in KeySet(order) then ByKey(live, key) else [], limits);
      if key !in KeySet(order) {
        NoneByKey(live, key);
      }
    }
  }

  lemma GroupFresh(live: seq<Request>, order: seq<string>, groups: map<string, seq<Request>>, i: nat)
    requires GroupsOf(live, order, groups) && i < |order|
    ensures order[i] in groups && groups[order[i]] == ByKey(live, order[i]) != []
    ensures order[i] !in KeySet(order[..i]) && KeySet(order[..i + 1]) == KeySet(order[..i]) + {order[i]}
  {
  }

  lemma FormedSnoc(
      chunks: seq<seq<Request>>, split: seq<seq<Request>>, live: seq<Request>, keys: set<string>, key: string,
      limits: ProviderName -> Limits)
    requires DistinctIds(live) && FormedFor(chunks, live, keys, limits)
    requires key !in keys && ByKey(live, key) != [] && SplitGreedily(split, ByKey(live, key), limits)
    ensures FormedFor(chunks + split, live, keys + {key}, limits)
  {
    SplitOfGroup(live, key, limits, split);
    FlattenConcat(chunks, split);
    DistinctUnion(Flatten(chunks), Flatten(split), live, keys, key);
    MembersUnion(Flatten(chunks), Flatten(split), live, keys, key, limits);
    AllOneKeyConcat(chunks, split, limits);
    AllSplitSnoc(chunks, split, live, keys, key, limits);
  }

  lemma AllSplitSnoc(
      chunks: seq<seq<Request>>, split: seq<seq<Request>>, live: seq<Request>, keys: set<string>, key: string,
      limits: ProviderName -> Limits)
    requires forall k :: SplitGreedily(OfKey(chunks, k), if k in keys then ByKey(live, k) else [], limits)
    requires key !in keys && SplitGreedily(split, ByKey(live, key), limits)
    requires forall i | 0 <= i < |split| :: split[i] != [] && KeyOf(split[i][0]) == key
    ensures forall k :: SplitGreedily(OfKey(chunks + split, k), if k in keys + {key} then ByKey(live, k) else [], limits)
  {
    forall k ensures SplitGreedily(OfKey(chunks + split, k), if k in keys + {key} then ByKey(live, k) else [], limits) {
      SplitSnoc(chunks, split, live, keys, key, limits, k);
    }
  }

  lemma MembersUnion(
      a: seq<Request>, b: seq<Request>, live: seq<Request>, keys: set<string>, key: string, limits: ProviderName -> Limits)
    requires forall q :: q in a <==> q in live && KeyOf(q) in keys && q.bytes <= limits(q.provider).maxBytes
    requires forall q :: q in b <==> q in live && KeyOf(q) == key && q.bytes <= limits(q.provider).maxBytes
    ensures forall q :: q in a + b <==> q in live && KeyOf(q) in keys + {key} && q.bytes <= limits(q.provider).maxBytes
  {
  }

  lemma AllOneKeyConcat(a: seq<seq<Request>>, b: seq<seq<Request>>, limits: ProviderName -> Limits)
    requires AllOneKey(a, limits) && AllOneKey(b, limits)
    ensures AllOneKey(a + b, limits)
  {
  }

  lemma SplitSnoc(
      chunks: seq<seq<Request>>, split: seq<seq<Request>>, live: seq<Request>, keys: set<string>, key: string,
      limits: ProviderName -> Limits, k: string)
    requires SplitGreedily(OfKey(chunks, k), if k in keys then ByKey(live, k) else [], limits)
    requires key !in keys && SplitGreedily(split, ByKey(live, key), limits)
    requires forall i | 0 <= i < |split| :: split[i] != [] && KeyOf(split[i][0]) == key
    ensures SplitGreedily(OfKey(chunks + split, k), if k in keys + {key} then ByKey(live, k) else [], limits)
  {
    OfKeySnoc(chunks, split, key, k);
    if k == key {
      assert OfKey(chunks, key) == [];
      assert OfKey(chunks + split, key) == split;
    }
  }

  lemma OfKeySnoc(chunks: seq<seq<Request>>, split: seq<seq<Request>>, key: string, k: string)
    requires forall i | 0 <= i < |split| :: split[i] != [] && KeyOf(split[i][0]) == key
    ensures k != key ==> OfKey(chunks + split, k) == OfKey(chunks, k)
    ensures k == key && OfKey(chunks, k) == [] ==> OfKey(chunks + split, k) == split
  {
    OfKeyConcat(chunks, split, k);
    OfOneKey(split, key, k);
  }

  lemma DistinctUnion(a: seq<Request>, b: seq<Request>, live: seq<Request>, keys: set<string>, key: string)
    requires DistinctIds(a) && DistinctIds(b) && DistinctIds(live) && key !in keys
    requires forall q | q in a :: q in live && KeyOf(q) in keys
    requires forall q | q in b :: q in live && KeyOf(q) == key
    ensures DistinctIds(a + b)
  {
    forall p, q | p in a && q in b ensures p.id != q.id {
      assert p in live && q in live && p != q;
    }
  }

  lemma {:induction false} InFlatten(chunks: seq<seq<Request>>, k: nat, q: Request)
    requires k < |chunks| && q in chunks[k]
    ensures q in Flatten(chunks)
  {
    if k < |chunks| - 1 {
      InFlatten(chunks[..|chunks| - 1], k, q);
    }
  }

  lemma SplitOfGroup(live: seq<Request>, key: string, limits: ProviderName -> Limits, split: seq<seq<Request>>)
    requires DistinctIds(live) && ByKey(live, key) != [] && SplitGreedily(split, ByKey(live, key), limits)
    ensures DistinctIds(Flatten(split)) && AllOneKey(split, limits)
    ensures forall q :: q in Flatten(split) <==> q in live && KeyOf(q) == key && q.bytes <= limits(q.provider).maxBytes
    ensures forall k | 0 <= k < |split| :: split[k] != [] && KeyOf(split[k][0]) == key
  {
    var group := ByKey(live, key);
    ByKeyDistinct(live, key);
    ByKeyMembers(live, key);
    NotOversizedMembers(group, limits(group[0].provider).maxBytes);
    assert group[0] in group;
    forall q | q in live && KeyOf(q) == key ensures q.provider == group[0].provider {
      SameKeySameProvider(q, group[0]);
    }
    forall k | 0 <= k < |split| ensures OneKey(split[k], limits) && KeyOf(split[k][0]) == key {
      assert Emitted(split[k], limits(group[0].provider));
      forall q | q in split[k] ensures KeyOf(q) == key && q.provider == group[0].provider {
        InFlatten(split, k, q);
      }
      assert split[k][0] in split[k];
    }
  }

  // -- Flush -------------------------------------------------------------------------------

  /** The request sits in a new batch whose record counts its members. */
  ghost predicate Placed(was: Snapshot, now: Snapshot, q: Request, failover: bool) {
    && q.id in now.requests && now.requests[q.id].batchId.Some?
    && var b := now.requests[q.id].batchId.value;
      && b !in was.batches && b in now.batches && now.requests[q.id] == Assigned(q, b)
      && now.batches[b].requestCount == |Members(now, b)|
      && (now.batches[b].status.Submitted? || (failover && now.batches[b].status.Pending?))
  }

  ghost predicate StillOrPlaced(was: Snapshot, now: Snapshot, rows: seq<Request>, failover: bool) {
    forall q | q in rows :: q.id in now.requests && (now.requests[q.id] == q || Placed(was, now, q, failover))
  }

  ghost predicate BatchesKept(was: Snapshot, now: Snapshot) {
    forall b | b in was.batches :: b in now.batches && now.batches[b] == was.batches[b]
  }

  /**
   Flush conservation: every fetched request is now failed for good (exactly when its model is
   retired), batched in a new submitted batch that counts its members, or still queued as it was
   (with failover, also batched in a pending one); oversized requests stay queued; no other request
   and no older batch changed.
   */
  ghost predicate Conserved(
      was: Snapshot, now: Snapshot, fetched: seq<Request>, catalog: map<string, LifecycleState>,
      limits: ProviderName -> Limits, failover: bool)
  {
    && OthersKept(was.requests, now.requests, fetched) && BatchesKept(was, now)
    && forall q | q in fetched :: q.id in now.requests &&
         if RetiredIn(catalog, q) then now.requests[q.id] == q.(status := FailedFinal)
         else if q.bytes > limits(q.provider).maxBytes then now.requests[q.id] == q
         else now.requests[q.id] == q || Placed(was, now, q, failover)
  }

  /** No two of these requests' users can be mistaken for each other. */
  ghost predicate UsersApart(rows: seq<Request>) {
    forall p, q | p in rows && q in rows :: KeysApart(p.userId, q.userId)
  }

  /** What was done with one chunk: the calls made for it, and with a key resolver the candidates looked at in its turn. */
  datatype Sending = Sending(chunk: seq<Request>, made: seq<Call>, looked: nat, turn: nat)

  ghost function ChunksOf(sendings: seq<Sending>): (r: seq<seq<Request>>)
    ensures |r| == |sendings| && forall k | 0 <= k < |r| :: r[k] == sendings[k].chunk
  {
    if sendings == [] then [] else ChunksOf(sendings[..|sendings| - 1]) + [sendings[|sendings| - 1].chunk]
  }

  /** All calls made, chunk after chunk. */
  ghost function MadeBy(sendings: seq<Sending>): seq<Call> {
    if sendings == [] then [] else MadeBy(sendings[..|sendings| - 1]) + sendings[|sendings| - 1].made
  }

  lemma SendingsSnoc(sendings: seq<Sending>, s: Sending)
    ensures ChunksOf(sendings + [s]) == ChunksOf(sendings) + [s.chunk]
    ensures MadeBy(sendings + [s]) == MadeBy(sendings) + s.made
  {
    assert (sendings + [s])[..|sendings|] == sendings;
  }

  /**
   Without a key resolver: one call if an adapter is found, for the chunk, under its owner's key. If
   that is accepted the chunk is in its submitted batch; else it is back in the queue, and the batch pending.
   */
  ghost predicate LegacySent(
      now: Snapshot, chunk: seq<Request>, made: seq<Call>, adapters: set<string>,
      apiKeyIds: map<(string, ProviderName), string>)
    requires chunk != []
  {
    && (forall q | q in chunk :: q.id in now.requests)
    && if !HasAdapter(adapters, chunk[0].provider, chunk[0].userId)
       then made == [] && forall q | q in chunk :: now.requests[q.id] == q
       else
         && |made| == 1 && CallFor(now, made[0], chunk, var owner := (chunk[0].userId, chunk[0].provider);
              if owner in apiKeyIds then apiKeyIds[owner] else owner.0)
         && now.batches[made[0].batch].status == (if made[0].ref.Some? then Submitted else BatchStatus.Pending)
         && forall q | q in chunk ::
              now.requests[q.id] ==
                if made[0].ref.Some? then q.(batchId := Some(made[0].batch), status := Batched) else q
  }

  /** What was done with one chunk, as it shows at the end. */
  ghost predicate SentOut(
      now: Snapshot, s: Sending, resolver: Option<Resolver>, adapters: set<string>,
      apiKeyIds: map<(string, ProviderName), string>)
  {
    && s.chunk != []
    && match resolver
       case None => LegacySent(now, s.chunk, s.made, adapters, apiKeyIds)
       case Some(r) =>
         var keys := KeysForUser(r, s.chunk[0].userId, s.chunk[0].provider);
         Ranked(CandidatesOf(keys), keys) && FailedOver(now, s.chunk, CandidatesOf(keys), s.looked, r, s.turn, s.made)
  }

  ghost predicate AllSentOut(
      now: Snapshot, sendings: seq<Sending>, resolver: Option<Resolver>, adapters: set<string>,
      apiKeyIds: map<(string, ProviderName), string>)
  {
    forall k | 0 <= k < |sendings| :: SentOut(now, sendings[k], resolver, adapters, apiKeyIds)
  }

  /** The calls made are those for the chunks, in order, each in a batch of its own; no other batch is new. */
  ghost predicate CallsOwned(was: Snapshot, now: Snapshot, made: seq<Call>) {
    now.calls == was.calls + made && OwnBatches(was.batches.Keys, now.batches.Keys, made)
  }

  /** What was sent out earlier stays as it was, when another chunk is submitted. */
  lemma SentOutKept(
      before: Snapshot, now: Snapshot, s: Sending, chunk: seq<Request>, resolver: Option<Resolver>,
      adapters: set<string>, apiKeyIds: map<(string, ProviderName), string>)
    requires SentOut(before, s, resolver, adapters, apiKeyIds)
    requires BatchesKept(before, now) && OthersKept(before.requests, now.requests, chunk)
    requires forall q | q in s.chunk :: q.id !in Ids(chunk)
    ensures SentOut(now, s, resolver, adapters, apiKeyIds)
  {
    assert TheseKept(before.requests, now.requests, s.chunk);
    match resolver
    case None =>
      LegacySentKept(before, now, s.chunk, s.made, adapters, apiKeyIds);
    case Some(r) =>
      FailedOverKept(before, now, s.chunk, CandidatesOf(KeysForUser(r, s.chunk[0].userId, s.chunk[0].provider)), s.looked, r,
                     s.turn, s.made);
  }

  /** These requests are as they were, those of them that were there. */
  ghost predicate TheseKept(was: map<Id, Request>, now: map<Id, Request>, rows: seq<Request>) {
    forall q | q in rows && q.id in was :: q.id in now && now[q.id] == was[q.id]
  }

  lemma LegacySentKept(
      before: Snapshot, now: Snapshot, chunk: seq<Request>, made: seq<Call>, adapters: set<string>,
      apiKeyIds: map<(string, ProviderName), string>)
    requires chunk != [] && LegacySent(before, chunk, made, adapters, apiKeyIds)
    requires BatchesKept(before, now) && TheseKept(before.requests, now.requests, chunk)
    ensures LegacySent(now, chunk, made, adapters, apiKeyIds)
  {
  }

  lemma FailedOverKept(
      before: Snapshot, now: Snapshot, chunk: seq<Request>, candidates: seq<ApiKeyInfo>, looked: nat, resolver: Resolver,
      turn: nat, made: seq<Call>)
    requires chunk != [] && FailedOver(before, chunk, candidates, looked, resolver, turn, made)
    requires BatchesKept(before, now) && TheseKept(before.requests, now.requests, chunk)
    ensures FailedOver(now, chunk, candidates, looked, resolver, turn, made)
  {
    forall k | 0 <= k < looked ensures CalledUnder(now, chunk, candidates[k].id, k, resolver, turn, made) {
      assert CalledUnder(before, chunk, candidates[k].id, k, resolver, turn, made);
    }
  }

  lemma CallsOwnedSnoc(was: Snapshot, before: Snapshot, now: Snapshot, made: seq<Call>, more: seq<Call>)
    requires CallsOwned(was, before, made) && CallsOwned(before, now, more)
    ensures CallsOwned(was, now, made + more)
  {
    assert was.calls + (made + more) == (was.calls + made) + more;
    OwnBatchesConcat(was.batches.Keys, before.batches.Keys, now.batches.Keys, made, more);
  }

  lemma OwnBatchesConcat(was: set<Id>, before: set<Id>, now: set<Id>, made: seq<Call>, more: seq<Call>)
    requires OwnBatches(was, before, made) && OwnBatches(before, now, more)
    ensures OwnBatches(was, now, made + more)
  {
    assert BatchesOf(made + more) == BatchesOf(made) + BatchesOf(more);
    var all := made + more;
    forall k | 0 <= k < |all|
      ensures all[k].batch in now && all[k].batch !in was && (k < |made| <==> all[k].batch in before)
    {
      if k < |made| {
        assert all[k] == made[k];
      } else {
        assert all[k] == more[k - |made|];
      }
    }
    forall j, k | 0 <= j < k < |all| ensures all[j].batch != all[k].batch {
      if |made| <= j {
        assert more[j - |made|].batch != more[k - |made|].batch;
      } else if k < |made| {
        assert made[j].batch != made[k].batch;
      }
    }
  }

  lemma SizeOfIds(rows: seq<Request>)
    requires DistinctIds(rows)
    ensures |Ids(rows)| == |rows|
  {
    if rows != [] {
      var init, q := rows[..|rows| - 1], rows[|rows| - 1];
      SizeOfIds(init);
      assert rows == init + [q];
      assert Ids(rows) == Ids(init) + {q.id};
    }
  }

  /** Submitting one more chunk disturbs nothing submitted before it. */
  lemma PlacedKept(
      was: Snapshot, before: Snapshot, now: Snapshot, chunk: seq<Request>, into: Option<Id>, q: Request, failover: bool)
    requires StillQueued(chunk, before.requests) && Uniform(before, now, chunk, into)
    requires q.id in before.requests && q.id !in Ids(chunk) && Placed(was, before, q, failover)
    ensures Placed(was, now, q, failover)
  {
    var b := before.requests[q.id].batchId.value;
    forall r | r in Ids(chunk)
      ensures now.requests[r].batchId != Some(b) && before.requests[r].batchId != Some(b)
    {
      var p :| p in chunk && p.id == r;
    }
    assert Members(now, b) == Members(before, b);
  }

  lemma ChunkPlaced(before: Snapshot, now: Snapshot, was: Snapshot, chunk: seq<Request>, into: Option<Id>, failover: bool)
    requires StillQueued(chunk, before.requests) && DistinctIds(chunk) && Uniform(before, now, chunk, into)
    requires BatchesKept(was, before)
    requires into.Some? && !failover ==> now.batches[into.value].status.Submitted?
    ensures StillOrPlaced(was, now, chunk, failover)
  {
    SizeOfIds(chunk);
  }

  lemma FlushStep(
      was: Snapshot, before: Snapshot, now: Snapshot, done: seq<Request>, chunk: seq<Request>, into: Option<Id>,
      failover: bool)
    requires DistinctIds(done + chunk) && DistinctIds(chunk) && StillQueued(chunk, before.requests)
    requires BatchesKept(was, before) && OthersKept(was.requests, before.requests, done)
    requires StillOrPlaced(was, before, done, failover) && Uniform(before, now, chunk, into)
    requires into.Some? && !failover ==> now.batches[into.value].status.Submitted?
    ensures BatchesKept(was, now) && OthersKept(was.requests, now.requests, done + chunk)
    ensures StillOrPlaced(was, now, done + chunk, failover)
  {
    ChunkPlaced(before, now, was, chunk, into, failover);
    assert forall q | q in done + chunk :: q in done || q in chunk;
    assert Ids(done + chunk) == Ids(done) + Ids(chunk);
    forall q | q in done ensures q.id in now.requests && (now.requests[q.id] == q || Placed(was, now, q, failover)) {
      assert q.id !in Ids(chunk) by { DoneApart(done, chunk, q); }
      if before.requests[q.id] != q {
        PlacedKept(was, before, now, chunk, into, q, failover);
      }
    }
  }

  lemma DoneApart(done: seq<Request>, chunk: seq<Request>, q: Request)
    requires DistinctIds(done + chunk) && q in done
    ensures q.id !in Ids(chunk)
  {
    forall p | p in chunk ensures p.id != q.id {
      var i :| 0 <= i < |done| && done[i] == q;
      var j :| 0 <= j < |chunk| && chunk[j] == p;
      assert (done + chunk)[i] == q && (done + chunk)[|done| + j] == p;
    }
  }

  class BatchManager {
    const store: Store
    const adapters: set<string>
    const maxRequests: nat
    const limits: ProviderName -> Limits
    /** The key resolver, if one is configured. */
    const resolver: Option<Resolver>
    var flushing: bool
    /** Chunks submitted through the key resolver so far. */
    var turn: nat

    constructor (
        store: Store, adapters: set<string>, maxRequests: nat, limits: ProviderName -> Limits, resolver: Option<Resolver>)
      ensures this.store == store && !flushing
    {
      this.store, this.adapters, this.maxRequests := store, adapters, maxRequests;
      this.limits, this.resolver, this.flushing, this.turn := limits, resolver, false, 0;
    }

    method SubmitBatch(chunk: seq<Request>) returns (ghost into: Option<Id>, ghost s: Sending)
      requires store.Sound() && chunk != [] && DistinctIds(chunk) && StillQueued(chunk, store.requests)
      modifies store, `turn
      ensures store.Sound() && store.Advanced() && s.chunk == chunk
      ensures Uniform(old(store.State()), store.State(), chunk, into)
      ensures into.Some? && resolver.None? ==> store.batches[into.value].status.Submitted?
      ensures CallsOwned(old(store.State()), store.State(), s.made)
      ensures SentOut(store.State(), s, resolver, adapters, store.apiKeyIds)
    {
      ghost var was := store.State();
      if resolver.Some? {
        var tried;
        ghost var made;
        tried, made, into := SubmitWithFailover(store, resolver.value, chunk, turn);
        s := Sending(chunk, made, |tried|, turn);
        turn := turn + 1;
      } else {
        into := SubmitWithLegacyProvider(store, adapters, chunk);
        s := Sending(chunk, store.calls[|was.calls|..], 0, 0);
        LegacyOwned(was, store.State(), chunk, s.made, into, adapters, store.apiKeyIds);
      }
    }

    /** Where the submission of chunks stands. */
    ghost predicate SubmittedTo(was: Snapshot, chunks: seq<seq<Request>>, sendings: seq<Sending>)
      reads store
    {
      && BatchesKept(was, store.State()) && OthersKept(was.requests, store.requests, Flatten(chunks))
      && StillOrPlaced(was, store.State(), Flatten(chunks), resolver.Some?)
      && ChunksOf(sendings) == chunks && CallsOwned(was, store.State(), MadeBy(sendings))
      && AllSentOut(store.State(), sendings, resolver, adapters, store.apiKeyIds)
    }

    /** The next chunk. */
    method SubmitNext(
        chunk: seq<Request>, ghost was: Snapshot, ghost chunks: seq<seq<Request>>, ghost sendings: seq<Sending>)
      returns (ghost s: Sending)
      requires store.Sound() && chunk != [] && DistinctIds(chunk) && StillQueued(chunk, store.requests)
      requires DistinctIds(Flatten(chunks) + chunk) && SubmittedTo(was, chunks, sendings)
      modifies store, `turn
      ensures store.Sound() && store.Advanced()
      ensures SubmittedTo(was, chunks + [chunk], sendings + [s])
    {
      ghost var before := store.State();
      ghost var into;
      into, s := SubmitBatch(chunk);
      FlattenSnoc(chunks, chunk);
      FlushStep(was, before, store.State(), Flatten(chunks), chunk, into, resolver.Some?);
      SendingsSnoc(sendings, s);
      CallsOwnedSnoc(was, before, store.State(), MadeBy(sendings), s.made);
      AllSentOutSnoc(before, store.State(), chunks, sendings, s, resolver, adapters, store.apiKeyIds);
    }

    method SubmitAll(chunks: seq<seq<Request>>) returns (ghost sendings: seq<Sending>)
      requires store.Sound() && DistinctIds(Flatten(chunks)) && StillQueued(Flatten(chunks), store.requests)
      requires forall k | 0 <= k < |chunks| :: chunks[k] != []
      modifies store, `turn
      ensures store.Sound() && store.Advanced()
      ensures SubmittedTo(old(store.State()), chunks, sendings)
    {
      ghost var was := store.State();
      sendings := [];
      SubmittedNone(was);
      for i := 0 to |chunks|
        invariant store.Sound() && store.Advanced()
        invariant SubmittedTo(was, chunks[..i], sendings)
      {
        NextChunk(chunks, i, was.requests, store.requests);
        TakeChunk(chunks, i);
        var s := SubmitNext(chunks[i], was, chunks[..i], sendings);
        sendings := sendings + [s];
      }
      assert chunks[..|chunks|] == chunks;
    }

    /**
     Form batches from up to `maxRequests` of the oldest queued requests and submit them. A flush
     that finds another one running does nothing.
     */
    method Flush() returns (ghost fetched: seq<Request>, ghost sendings: seq<Sending>)
      requires store.Sound()
      modifies store, `flushing, `turn
      ensures store.Sound() && store.Advanced()
      ensures flushing == old(flushing)
      ensures old(flushing) ==> store.State() == old(store.State())
      ensures !old(flushing) ==> OldestQueued(fetched, old(store.requests), maxRequests)
      ensures Conserved(old(store.State()), store.State(), fetched, store.catalog, limits, resolver.Some?)
      ensures SentInChunks(old(store.State()), store.State(), fetched, sendings, store.catalog, store.apiKeyIds)
    {
      fetched, sendings := [], [];
      if flushing {
        NothingSent(store.State(), store.catalog, store.apiKeyIds);
        return;
      }
      flushing := true;
      ghost var was := store.State();
      store.QueuedUnbatched();
      var queued := store.GetQueuedRequests(maxRequests);
      fetched := queued;
      var live := PreflightLifecycle(store, queued);
      SurvivorsMembers(queued, store.catalog);
      var chunks := FormBatches(live, limits);
      ghost var gated := store.State();
      sendings := SubmitAll(chunks);
      FlushConserves(was, gated, store.State(), queued, chunks, store.catalog, limits, resolver.Some?);
      flushing := false;
    }

    /**
     What was fetched and is not retired was formed into chunks, and each chunk sent out in turn: the
     calls made are those for the chunks, and there is one new batch for each call.
     */
    ghost predicate SentInChunks(
        was: Snapshot, now: Snapshot, fetched: seq<Request>, sendings: seq<Sending>, catalog: map<string, LifecycleState>,
        apiKeyIds: map<(string, ProviderName), string>)
    {
      && Formed(ChunksOf(sendings), Survivors(fetched, catalog), limits)
      && CallsOwned(was, now, MadeBy(sendings)) && AllSentOut(now, sendings, resolver, adapters, apiKeyIds)
    }

    lemma NothingSent(
        w: Snapshot, catalog: map<string, LifecycleState>, apiKeyIds: map<(string, ProviderName), string>)
      ensures SentInChunks(w, w, [], [], catalog, apiKeyIds)
    {
      assert BatchesOf([]) == {} && w.calls + [] == w.calls;
    }

    lemma SubmittedNone(was: Snapshot)
      requires was == store.State()
      ensures SubmittedTo(was, [], [])
    {
      assert BatchesOf([]) == {} && was.calls + [] == was.calls;
    }

    /**
     So everything fetched that is neither retired nor oversized is in one of the chunks sent out,
     with requests of its own provider, and of its own user when users are apart.
     */
    lemma EachSentOut(
        was: Snapshot, now: Snapshot, fetched: seq<Request>, sendings: seq<Sending>, catalog: map<string, LifecycleState>,
        apiKeyIds: map<(string, ProviderName), string>, q: Request)
      returns (k: nat)
      requires SentInChunks(was, now, fetched, sendings, catalog, apiKeyIds) && q in fetched
      requires !RetiredIn(catalog, q) && q.bytes <= limits(q.provider).maxBytes
      ensures k < |sendings| && q in sendings[k].chunk && SentOut(now, sendings[k], resolver, adapters, apiKeyIds)
      ensures sendings[k].chunk[0].provider == q.provider
      ensures UsersApart(fetched) ==> sendings[k].chunk[0].userId == q.userId
      ensures resolver.None? && HasAdapter(adapters, q.provider, sendings[k].chunk[0].userId) ==>
                && |sendings[k].made| == 1 && q.id in sendings[k].made[0].payload && q.id in now.requests
                && now.requests[q.id] ==
                     if sendings[k].made[0].ref.Some? then q.(batchId := Some(sendings[k].made[0].batch), status := Batched)
                     else q
      ensures resolver.None? && !HasAdapter(adapters, q.provider, sendings[k].chunk[0].userId) ==>
                sendings[k].made == [] && q.id in now.requests && now.requests[q.id] == q
    {
      SurvivorsMembers(fetched, catalog);
      k := ChunkWith(ChunksOf(sendings), q);
      assert OneKey(ChunksOf(sendings)[k], limits);
      var head := sendings[k].chunk[0];
      InFlatten(ChunksOf(sendings), k, head);
      SameKeySameProvider(q, head);
      assert UsersApart(fetched) ==> KeysApart(q.userId, head.userId);
    }
  }

  lemma {:induction false} ChunkWith(chunks: seq<seq<Request>>, q: Request) returns (k: nat)
    requires q in Flatten(chunks)
    ensures k < |chunks| && q in chunks[k]
  {
    if q in chunks[|chunks| - 1] {
      k := |chunks| - 1;
    } else {
      k := ChunkWith(chunks[..|chunks| - 1], q);
    }
  }

  lemma LegacyOwned(
      was: Snapshot, now: Snapshot, chunk: seq<Request>, made: seq<Call>, into: Option<Id>, adapters: set<string>,
      apiKeyIds: map<(string, ProviderName), string>)
    requires chunk != [] && StillQueued(chunk, was.requests) && Uniform(was, now, chunk, into)
    requires was.calls <= now.calls && made == now.calls[|was.calls|..]
    requires if HasAdapter(adapters, chunk[0].provider, chunk[0].userId)
             then Called(was, now, chunk, LegacyKey(apiKeyIds, chunk[0].userId, chunk[0].provider), into)
             else now == was
    ensures CallsOwned(was, now, made) && LegacySent(now, chunk, made, adapters, apiKeyIds)
  {
    if HasAdapter(adapters, chunk[0].provider, chunk[0].userId) {
      assert made == [now.calls[|was.calls|]];
      OwnedOne(was, now, made);
    } else {
      assert made == [] && BatchesOf(made) == {};
    }
  }

  lemma OwnedOne(was: Snapshot, now: Snapshot, made: seq<Call>)
    requires |made| == 1 && was.calls <= now.calls && made == now.calls[|was.calls|..]
    requires made[0].batch !in was.batches && now.batches.Keys == was.batches.Keys + {made[0].batch}
    ensures CallsOwned(was, now, made)
  {
    assert BatchesOf(made) == {made[0].batch};
  }

  lemma AllSentOutSnoc(
      before: Snapshot, now: Snapshot, chunks: seq<seq<Request>>, sendings: seq<Sending>, s: Sending,
      resolver: Option<Resolver>, adapters: set<string>, apiKeyIds: map<(string, ProviderName), string>)
    requires AllSentOut(before, sendings, resolver, adapters, apiKeyIds) && chunks == ChunksOf(sendings)
    requires SentOut(now, s, resolver, adapters, apiKeyIds) && DistinctIds(Flatten(chunks) + s.chunk)
    requires BatchesKept(before, now) && OthersKept(before.requests, now.requests, s.chunk)
    ensures AllSentOut(now, sendings + [s], resolver, adapters, apiKeyIds)
  {
    forall k | 0 <= k < |sendings| ensures SentOut(now, sendings[k], resolver, adapters, apiKeyIds) {
      forall q | q in sendings[k].chunk ensures q.id !in Ids(s.chunk) {
        InFlatten(chunks, k, q);
        DoneApart(Flatten(chunks), s.chunk, q);
      }
      SentOutKept(before, now, sendings[k], s.chunk, resolver, adapters, apiKeyIds);
    }
  }

  /** The oldest queued requests, at most `limit` of them, oldest first. */
  ghost predicate OldestQueued(rows: seq<Request>, requests: map<Id, Request>, limit: nat) {
    && |rows| <= limit && Ascending(rows) && Fetched(rows, requests) && (forall q | q in rows :: q.status.Queued?)
    && forall r | r in requests && requests[r].status.Queued? && requests[r] !in rows ::
         |rows| == limit && forall q | q in rows :: q.id < r
  }

  lemma {:induction false} FlattenPrefix(chunks: seq<seq<Request>>, i: nat)
    requires i < |chunks|
    ensures Flatten(chunks[..i]) + chunks[i] == Flatten(chunks[..i + 1]) <= Flatten(chunks)
    decreases |chunks|
  {
    assert chunks[..i + 1][..i] == chunks[..i];
    if i + 1 == |chunks| {
      assert chunks[..i + 1] == chunks;
    } else {
      FlattenPrefix(chunks[..|chunks| - 1], i);
      assert chunks[..|chunks| - 1][..i] == chunks[..i] && chunks[..|chunks| - 1][..i + 1] == chunks[..i + 1];
    }
  }

  /** The next chunk is still as it was fetched. */
  lemma NextChunk(chunks: seq<seq<Request>>, i: nat, was: map<Id, Request>, now: map<Id, Request>)
    requires i < |chunks| && DistinctIds(Flatten(chunks)) && StillQueued(Flatten(chunks), was)
    requires OthersKept(was, now, Flatten(chunks[..i]))
    ensures DistinctIds(chunks[i]) && DistinctIds(Flatten(chunks[..i]) + chunks[i])
    ensures StillQueued(chunks[i], now)
  {
    FlattenPrefix(chunks, i);
    var done, chunk := Flatten(chunks[..i]), chunks[i];
    DistinctPrefix(Flatten(chunks), done, chunk);
    forall q | q in chunk ensures q.id in was && was[q.id] == q && q.id !in Ids(done) {
      InFlatten(chunks, i, q);
      ChunkApart(done, chunk, q);
    }
    forall q | q in chunk ensures q.status.Queued? && q.batchId.None? {
      InFlatten(chunks, i, q);
    }
  }

  lemma TakeChunk(chunks: seq<seq<Request>>, i: nat)
    requires i < |chunks|
    ensures chunks[..i + 1] == chunks[..i] + [chunks[i]]
  {
  }

  lemma DistinctPrefix(all: seq<Request>, done: seq<Request>, chunk: seq<Request>)
    requires DistinctIds(all) && done + chunk <= all
    ensures DistinctIds(done + chunk) && DistinctIds(chunk)
  {
    forall i, j | 0 <= i < j < |chunk| ensures chunk[i].id != chunk[j].id {
      assert (done + chunk)[|done| + i] == chunk[i] && (done + chunk)[|done| + j] == chunk[j];
    }
  }

  lemma ChunkApart(done: seq<Request>, chunk: seq<Request>, q: Request)
    requires DistinctIds(done + chunk) && q in chunk
    ensures q.id !in Ids(done)
  {
    forall p | p in done ensures p.id != q.id {
      DoneApart(done, chunk, p);
    }
  }

  lemma FlushConserves(
      was: Snapshot, gated: Snapshot, now: Snapshot, fetched: seq<Request>, chunks: seq<seq<Request>>,
      catalog: map<string, LifecycleState>, limits: ProviderName -> Limits, failover: bool)
    requires OthersKept(was.requests, gated.requests, fetched) && gated.batches == was.batches && DistinctIds(fetched)
    requires forall q | q in fetched :: q.id in gated.requests && gated.requests[q.id] == AfterPreflight(q, catalog)
    requires forall q | q in Flatten(chunks) ::
               q in fetched && !RetiredIn(catalog, q) && q.bytes <= limits(q.provider).maxBytes
    requires BatchesKept(gated, now) && OthersKept(gated.requests, now.requests, Flatten(chunks))
    requires StillOrPlaced(gated, now, Flatten(chunks), failover)
    ensures Conserved(was, now, fetched, catalog, limits, failover)
  {
  }
}
