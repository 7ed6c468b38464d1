/** The retention sweep: several passes over the store that amount to one. */
module Retention {
  import opened NorushTypes
  import opened Arithmetic

  const MS_PER_DAY := 86_400_000

  // -- Records -----------------------------------------------------------------------------

  /** A request's params or a result's response. */
  datatype Content = Original(data: nat) | Tombstone(at: int)

  datatype StoredRequest = StoredRequest(
    userId: Id, status: RequestStatus, createdAt: int, params: Content, scrubbedAt: Option<int>)

  datatype StoredResult = StoredResult(
    requestId: Id, delivered: bool, createdAt: int, response: Content, scrubbedAt: Option<int>)

  datatype Entity = OfRequest(id: Id) | OfResult(id: Id)

  datatype Details = Null | Plain(data: nat) | Scrubbed(at: int)

  datatype EventLogEntry = EventLogEntry(entity: Entity, details: Details)

  datatype Docs = Docs(requests: map<Id, StoredRequest>, results: map<Id, StoredResult>)

  /** The statuses retention treats as terminal. */
  predicate Finished(s: RequestStatus) { s.Succeeded? || s.Failed? || s.FailedFinal? }

  function ScrubRequest(r: StoredRequest, at: int): StoredRequest { r.(params := Tombstone(at), scrubbedAt := Some(at)) }

  function ScrubResult(r: StoredResult, at: int): StoredResult { r.(response := Tombstone(at), scrubbedAt := Some(at)) }

  function FreshRequests(requests: map<Id, StoredRequest>, p: StoredRequest -> bool): set<Id> {
    set r | r in requests && requests[r].scrubbedAt.None? && p(requests[r])
  }

  function FreshResults(results: map<Id, StoredResult>, p: StoredResult -> bool): set<Id> {
    set r | r in results && results[r].scrubbedAt.None? && p(results[r])
  }

  /** Exactly these records were replaced by tombstones. */
  ghost predicate ScrubbedRequests(was: map<Id, StoredRequest>, now: map<Id, StoredRequest>, ids: set<Id>) {
    && now.Keys == was.Keys
    && forall r | r in was ::
         if r in ids then
           now[r].params.Tombstone? && now[r] == was[r].(params := now[r].params, scrubbedAt := Some(now[r].params.at))
         else now[r] == was[r]
  }

  ghost predicate ScrubbedResults(was: map<Id, StoredResult>, now: map<Id, StoredResult>, ids: set<Id>) {
    && now.Keys == was.Keys
    && forall r | r in was ::
         if r in ids then
           && now[r].response.Tombstone?
           && now[r] == was[r].(response := now[r].response, scrubbedAt := Some(now[r].response.at))
         else now[r] == was[r]
  }

  ghost predicate ScrubbedDocs(was: Docs, now: Docs, requests: set<Id>, results: set<Id>) {
    ScrubbedRequests(was.requests, now.requests, requests) && ScrubbedResults(was.results, now.results, results)
  }

  lemma RequestsStep(
      was: map<Id, StoredRequest>, mid: map<Id, StoredRequest>, now: map<Id, StoredRequest>, done: set<Id>, i: Id, at: int)
    requires ScrubbedRequests(was, mid, done) && i in mid && i !in done && now == mid[i := ScrubRequest(mid[i], at)]
    ensures ScrubbedRequests(was, now, done + {i})
  {
  }

  lemma ResultsStep(
      was: map<Id, StoredResult>, mid: map<Id, StoredResult>, now: map<Id, StoredResult>, done: set<Id>, i: Id, at: int)
    requires ScrubbedResults(was, mid, done) && i in mid && i !in done && now == mid[i := ScrubResult(mid[i], at)]
    ensures ScrubbedResults(was, now, done + {i})
  {
  }

  // -- Policies ----------------------------------------------------------------------------

  /** The policy resolver's answer for a user. */
  datatype Resolution = Throws | Returns(policy: Option<string>)

  datatype Policies = Policies(resolver: Id -> Resolution, defaultPolicy: string, hardCapDays: int)

  predicate AllDigits(s: string) { forall i | 0 <= i < |s| :: '0' <= s[i] <= '9' }

  function Decimal(s: string): nat
    requires AllDigits(s)
  {
    if s == "" then 0 else 10 * Decimal(s[..|s| - 1]) + (s[|s| - 1] as int - '0' as int)
  }

  /** "on_ack" and "0d" are 0; "<n>d" is n; anything else is not a policy. */
  function ParseRetentionPolicy(policy: string): Option<nat> {
    if policy == "on_ack" then Some(0)
    else if |policy| >= 2 && policy[|policy| - 1] == 'd' && AllDigits(policy[..|policy| - 1])
    then Some(Decimal(policy[..|policy| - 1]))
    else None
  }

  datatype Effect = Invalid | OnAck | Within(days: nat)

  function EffectOf(ps: Policies, user: Id): Effect {
    match ps.resolver(user)
    case Throws => Invalid
    case Returns(raw) =>
      match ParseRetentionPolicy(if raw.Some? then raw.value else ps.defaultPolicy)
      case None => Invalid
      case Some(days) => if days == 0 then OnAck else Within(days)
  }

  function Cutoff(now: int, days: int): int { now - days * MS_PER_DAY }

  // -- The one-pass specification ------------------------------------------------------------

  predicate PastCap(ps: Policies, now: int, createdAt: int) { createdAt < Cutoff(now, ps.hardCapDays) }

  /** Older than the user's policy allows, the policy being clamped to the hard cap. */
  predicate PastPolicy(ps: Policies, now: int, days: int, createdAt: int) {
    createdAt < Cutoff(now, Min(days, ps.hardCapDays))
  }

  /** A delivered result whose content is still there. */
  predicate Acked(x: StoredResult) { x.delivered && x.scrubbedAt.None? }

  /** What the user's policy alone scrubs. */
  ghost predicate PolicyRequest(d: Docs, ps: Policies, now: int, r: Id)
    requires r in d.requests
  {
    var q := d.requests[r];
    q.scrubbedAt.None? &&
    match EffectOf(ps, q.userId)
    case Invalid => false
    case Within(days) => Finished(q.status) && PastPolicy(ps, now, days, q.createdAt)
    case OnAck => exists x :: x in d.results && d.results[x].requestId == r && Acked(d.results[x])
  }

  ghost predicate PolicyResult(d: Docs, ps: Policies, now: int, x: Id)
    requires x in d.results
  {
    var res := d.results[x];
    res.scrubbedAt.None? && res.requestId in d.requests &&
    match EffectOf(ps, d.requests[res.requestId].userId)
    case Invalid => false
    case Within(days) => PastPolicy(ps, now, days, res.createdAt)
    case OnAck => res.delivered
  }

  /**
   A request is scrubbed iff its content is still there and it is terminal and past the hard cap or
   past its user's time-based policy, or its user's policy is on_ack and a result of it that is
   within the cap has been delivered and not scrubbed.
   */
  ghost predicate DueRequest(d: Docs, ps: Policies, now: int, r: Id)
    requires r in d.requests
  {
    var q := d.requests[r];
    q.scrubbedAt.None? &&
    ((Finished(q.status) && PastCap(ps, now, q.createdAt))
     || match EffectOf(ps, q.userId)
        case Invalid => false
        case Within(days) => Finished(q.status) && PastPolicy(ps, now, days, q.createdAt)
        case OnAck =>
          exists x :: x in d.results && d.results[x].requestId == r && Acked(d.results[x])
                      && !PastCap(ps, now, d.results[x].createdAt))
  }

  /**
   A result is scrubbed iff its content is still there and it is past the hard cap, or its request
   exists and the result is past the owner's time-based policy or, under on_ack, delivered.
   */
  ghost predicate DueResult(d: Docs, ps: Policies, now: int, x: Id)
    requires x in d.results
  {
    d.results[x].scrubbedAt.None? && (PastCap(ps, now, d.results[x].createdAt) || PolicyResult(d, ps, now, x))
  }

  ghost function DueRequests(d: Docs, ps: Policies, now: int): set<Id> {
    set r | r in d.requests && DueRequest(d, ps, now, r)
  }

  ghost function DueResults(d: Docs, ps: Policies, now: int): set<Id> {
    set x | x in d.results && DueResult(d, ps, now, x)
  }

  // -- The store -----------------------------------------------------------------------------

  class RetentionStore {
    var requests: map<Id, StoredRequest>
    var results: map<Id, StoredResult>
    var events: seq<EventLogEntry>
    var clock: int
    /** Above every id in use. */
    var top: Id

    ghost predicate Valid()
      reads this
    {
      (forall r | r in requests :: r < top) && (forall x | x in results :: x < top)
    }

    constructor (requests: map<Id, StoredRequest>, results: map<Id, StoredResult>, events: seq<EventLogEntry>, top: Id)
      requires (forall r | r in requests :: r < top) && (forall x | x in results :: x < top)
      ensures Valid() && this.requests == requests && this.results == results && this.events == events
    {
      this.requests, this.results, this.events, this.top := requests, results, events, top;
      clock := 0;
    }

    ghost function Content(): Docs
      reads this
    {
      Docs(requests, results)
    }

    /** The loop over requests that every scrubbing method has. */
    method ScrubRequestsWhere(p: StoredRequest -> bool) returns (count: nat)
      requires Valid()
      modifies `requests
      ensures Valid()
      ensures ScrubbedRequests(old(requests), requests, FreshRequests(old(requests), p))
      ensures count == |FreshRequests(old(requests), p)|
    {
      count := 0;
      ghost var done: set<Id> := {};
      for i := 0 to top
        invariant Valid() && ScrubbedRequests(old(requests), requests, done) && count == |done|
        invariant forall r :: r in done <==> r in FreshRequests(old(requests), p) && r < i
      {
        ghost var was := requests;
        if i in requests && requests[i].scrubbedAt.None? && p(requests[i]) {
          requests := requests[i := ScrubRequest(requests[i], clock)];
          count := count + 1;
          RequestsStep(old(requests), was, requests, done, i, clock);
          done := done + {i};
        }
      }
      assert done == FreshRequests(old(requests), p);
    }

    method ScrubResultsWhere(p: StoredResult -> bool) returns (count: nat)
      requires Valid()
      modifies `results
      ensures Valid()
      ensures ScrubbedResults(old(results), results, FreshResults(old(results), p))
      ensures count == |FreshResults(old(results), p)|
    {
      count := 0;
      ghost var done: set<Id> := {};
      for i := 0 to top
        invariant Valid() && ScrubbedResults(old(results), results, done) && count == |done|
        invariant forall x :: x in done <==> x in FreshResults(old(results), p) && x < i
      {
        ghost var was := results;
        if i in results && results[i].scrubbedAt.None? && p(results[i]) {
          results := results[i := ScrubResult(results[i], clock)];
          count := count + 1;
          ResultsStep(old(results), was, results, done, i, clock);
          done := done + {i};
        }
      }
      assert done == FreshResults(old(results), p);
    }

    method ScrubExpiredContent(before: int) returns (count: nat)
      requires Valid()
      modifies `requests, `results
      ensures Valid()
      ensures var a := FreshRequests(old(requests), OldRequest(before));
        var b := FreshResults(old(results), OldResult(before));
        ScrubbedDocs(old(Content()), Content(), a, b) && count == |a| + |b|
    {
      var n := ScrubRequestsWhere(OldRequest(before));
      var m := ScrubResultsWhere(OldResult(before));
      count := n + m;
    }

    method ScrubContentForUser(userId: Id, before: int) returns (count: nat)
      requires Valid()
      modifies `requests, `results
      ensures Valid()
      ensures var a := FreshRequests(old(requests), OldRequestOf(userId, before));
        var b := FreshResults(old(results), OldResultOf(Owned(old(requests), userId), before));
        ScrubbedDocs(old(Content()), Content(), a, b) && count == |a| + |b|
    {
      var n := ScrubRequestsWhere(OldRequestOf(userId, before));
      SameOwners(old(requests), requests, FreshRequests(old(requests), OldRequestOf(userId, before)), userId);
      var m := ScrubResultsWhere(OldResultOf(Owned(requests, userId), before));
      count := n + m;
    }

    /** Results first: the ids of their requests are collected on the way. */
    method ScrubDeliveredContent(userId: Id) returns (count: nat)
      requires Valid()
      modifies `requests, `results
      ensures Valid()
      ensures var b := FreshResults(old(results), DeliveredOf(Owned(old(requests), userId)));
        var a := FreshIn(old(requests), RequestsOf(old(results), b));
        ScrubbedDocs(old(Content()), Content(), a, b) && count == |a| + |b|
    {
      var owned := Owned(requests, userId);
      var deliveredRequestIds := RequestsOf(results, FreshResults(results, DeliveredOf(owned)));
      var m := ScrubResultsWhere(DeliveredOf(owned));
      var n := ScrubThese(deliveredRequestIds);
      count := m + n;
    }

    method ScrubThese(ids: set<Id>) returns (count: nat)
      requires Valid()
      modifies `requests
      ensures Valid()
      ensures ScrubbedRequests(old(requests), requests, FreshIn(old(requests), ids))
      ensures count == |FreshIn(old(requests), ids)|
    {
      count := 0;
      var left := ids;
      ghost var done: set<Id> := {};
      while left != {}
        invariant Valid() && left <= ids
        invariant done == FreshIn(old(requests), ids - left)
        invariant ScrubbedRequests(old(requests), requests, done) && count == |done|
        decreases left
      {
        var r :| r in left;
        if r in requests && requests[r].scrubbedAt.None? {
          requests := requests[r := ScrubRequest(requests[r], clock)];
          count := count + 1;
          done := done + {r};
        }
        left := left - {r};
      }
      assert ids - left == ids;
    }

    function GetDistinctUserIdsWithUnscrubbedContent(): set<Id>
      reads this
    {
      (set r | r in requests && requests[r].scrubbedAt.None? && Finished(requests[r].status) :: requests[r].userId)
      + (set x | x in results && results[x].scrubbedAt.None? && results[x].requestId in requests ::
           requests[results[x].requestId].userId)
    }

    function ScrubbedEntityIds(): set<Entity>
      reads this
    {
      (set r | r in requests && requests[r].scrubbedAt.Some? :: OfRequest(r))
      + (set x | x in results && results[x].scrubbedAt.Some? :: OfResult(x))
    }

    /** Replace the details of every event about a scrubbed record. */
    method ScrubEventLogsForScrubbedContent() returns (count: nat)
      modifies `events
      ensures Cleaned(old(events), events, ScrubbedEntityIds(), |events|)
      ensures count == |Blanked(old(events), events)|
    {
      count := 0;
      var scrubbedEntityIds := ScrubbedEntityIds();
      for i := 0 to |events|
        invariant Cleaned(old(events), events, scrubbedEntityIds, i)
        invariant count == |Blanked(old(events), events)|
      {
        ghost var mid := events;
        if events[i].entity in scrubbedEntityIds && events[i].details.Plain? {
          events := events[i := events[i].(details := Scrubbed(clock))];
          count := count + 1;
        }
        CleanedStep(old(events), mid, events, scrubbedEntityIds, i, clock);
      }
    }
  }

  /** Of the first `i` events, those about the given records have lost their details; nothing else changed. */
  ghost predicate Cleaned(was: seq<EventLogEntry>, now: seq<EventLogEntry>, ids: set<Entity>, i: nat) {
    && |now| == |was|
    && forall k | 0 <= k < |was| ::
         if k < i && was[k].entity in ids && was[k].details.Plain?
         then now[k].details.Scrubbed? && now[k].entity == was[k].entity
         else now[k] == was[k]
  }

  /** The events that lost their details. */
  ghost function Blanked(was: seq<EventLogEntry>, now: seq<EventLogEntry>): set<int>
    requires |was| == |now|
  {
    set i | 0 <= i < |was| && was[i].details.Plain? && now[i].details.Scrubbed?
  }

  lemma CleanedStep(
      was: seq<EventLogEntry>, mid: seq<EventLogEntry>, now: seq<EventLogEntry>, ids: set<Entity>, i: nat, at: int)
    requires i < |was| && Cleaned(was, mid, ids, i)
    requires now == if mid[i].entity in ids && mid[i].details.Plain? then mid[i := mid[i].(details := Scrubbed(at))] else mid
    ensures Cleaned(was, now, ids, i + 1)
    ensures |Blanked(was, now)| == |Blanked(was, mid)| + if mid[i].entity in ids && mid[i].details.Plain? then 1 else 0
  {
    if mid[i].entity in ids && mid[i].details.Plain? {
      assert Blanked(was, now) == Blanked(was, mid) + {i};
    }
  }

  // The conditions of the scrubbing loops.

  function OldRequest(before: int): StoredRequest -> bool {
    (r: StoredRequest) => r.createdAt < before && Finished(r.status)
  }

  function OldResult(before: int): StoredResult -> bool { (x: StoredResult) => x.createdAt < before }

  function OldRequestOf(userId: Id, before: int): StoredRequest -> bool {
    (r: StoredRequest) => r.userId == userId && r.createdAt < before && Finished(r.status)
  }

  function OldResultOf(owned: set<Id>, before: int): StoredResult -> bool {
    (x: StoredResult) => x.requestId in owned && x.createdAt < before
  }

  function DeliveredOf(owned: set<Id>): StoredResult -> bool {
    (x: StoredResult) => x.requestId in owned && x.delivered
  }

  /** The requests of a user. */
  function Owned(requests: map<Id, StoredRequest>, userId: Id): set<Id> {
    set r | r in requests && requests[r].userId == userId
  }

  function RequestsOf(results: map<Id, StoredResult>, ids: set<Id>): set<Id> {
    set x | x in ids && x in results :: results[x].requestId
  }

  function FreshIn(requests: map<Id, StoredRequest>, ids: set<Id>): set<Id> {
    set r | r in ids && r in requests && requests[r].scrubbedAt.None?
  }

  lemma SameOwners(was: map<Id, StoredRequest>, now: map<Id, StoredRequest>, ids: set<Id>, userId: Id)
    requires ScrubbedRequests(was, now, ids)
    ensures Owned(now, userId) == Owned(was, userId)
  {
  }

  // -- The worker ----------------------------------------------------------------------------

  datatype SweepResult = SweepResult(
    totalScrubbed: nat, hardCapScrubbed: nat, policyScrubbed: nat, eventLogScrubbed: nat, errors: nat)

  /** What the policies of these users scrub. */
  ghost function PolicyRequests(d: Docs, ps: Policies, now: int, users: set<Id>): set<Id> {
    set r | r in d.requests && d.requests[r].userId in users && PolicyRequest(d, ps, now, r)
  }

  ghost function PolicyResults(d: Docs, ps: Policies, now: int, users: set<Id>): set<Id> {
    set x | x in d.results && PolicyResult(d, ps, now, x) && d.requests[d.results[x].requestId].userId in users
  }

  function Invalids(ps: Policies, users: set<Id>): set<Id> { set u | u in users && EffectOf(ps, u).Invalid? }

  class RetentionWorker {
    const store: RetentionStore
    const policies: Policies
    var sweeping: bool

    constructor (store: RetentionStore, policies: Policies)
      ensures this.store == store && this.policies == policies && !sweeping
    {
      this.store, this.policies, sweeping := store, policies, false;
    }

    /** One user's turn. */
    method ScrubUser(userId: Id, now: int) returns (scrubbed: nat, error: bool)
      requires store.Valid()
      modifies store`requests, store`results
      ensures store.Valid()
      ensures var d := old(store.Content());
        var a, b := PolicyRequests(d, policies, now, {userId}), PolicyResults(d, policies, now, {userId});
        ScrubbedDocs(d, store.Content(), a, b) && scrubbed == |a| + |b|
      ensures error <==> EffectOf(policies, userId).Invalid?
    {
      scrubbed, error := 0, false;
      ghost var d := store.Content();
      var resolved := policies.resolver(userId);
      if resolved.Throws? {
        error := true;
        NothingInvalid(d, policies, now, userId);
        return;
      }
      var policy := if resolved.policy.Some? then resolved.policy.value else policies.defaultPolicy;
      var policyDays := ParseRetentionPolicy(policy);
      if policyDays.None? {
        error := true;
        NothingInvalid(d, policies, now, userId);
        return;
      }
      if policyDays.value == 0 {
        OnAckSets(d, policies, now, userId);
        scrubbed := store.ScrubDeliveredContent(userId);
      } else {
        var cutoff := now - Min(policyDays.value, policies.hardCapDays) * MS_PER_DAY;
        WithinSets(d, policies, now, userId, policyDays.value);
        scrubbed := store.ScrubContentForUser(userId, cutoff);
      }
    }

    /** Every user with content left, each by their own policy. */
    method ScrubByPolicy(now: int) returns (scrubbed: nat, errors: nat)
      requires store.Valid()
      modifies store`requests, store`results
      ensures store.Valid()
      ensures var d, users := old(store.Content()), old(store.GetDistinctUserIdsWithUnscrubbedContent());
        var a, b := PolicyRequests(d, policies, now, users), PolicyResults(d, policies, now, users);
        && ScrubbedDocs(d, store.Content(), a, b) && scrubbed == |a| + |b|
        && errors == |Invalids(policies, users)|
    {
      scrubbed, errors := 0, 0;
      var userIds := store.GetDistinctUserIdsWithUnscrubbedContent();
      var left := userIds;
      ghost var d := store.Content();
      while left != {}
        invariant store.Valid() && left <= userIds
        invariant ByPolicySoFar(d, store.Content(), policies, now, userIds - left, scrubbed, errors)
        decreases left
      {
        var userId :| userId in left;
        ghost var mid, done := store.Content(), userIds - left;
        var n, error := ScrubUser(userId, now);
        UserStep(d, mid, store.Content(), policies, now, done, userId, scrubbed, n, errors);
        scrubbed := scrubbed + n;
        errors := errors + if error then 1 else 0;
        left := left - {userId};
        assert userIds - left == done + {userId};
      }
      assert userIds - left == userIds;
    }

    /**
     A sweep scrubs exactly the records the one-pass specification says are due, and counts them;
     afterwards no event about a scrubbed record has details left. A sweep that finds another one
     running does nothing.
     */
    method Sweep(now: int) returns (result: SweepResult)
      requires store.Valid()
      modifies store`requests, store`results, store`events, `sweeping
      ensures store.Valid() && sweeping == old(sweeping)
      ensures old(sweeping) ==>
                && result == SweepResult(0, 0, 0, 0, 0)
                && store.Content() == old(store.Content()) && store.events == old(store.events)
      ensures !old(sweeping) ==>
                var d := old(store.Content());
                var a, b := DueRequests(d, policies, now), DueResults(d, policies, now);
                && ScrubbedDocs(d, store.Content(), a, b) && result.totalScrubbed == |a| + |b|
                && result.totalScrubbed == result.hardCapScrubbed + result.policyScrubbed
      ensures !old(sweeping) ==>
                && Cleaned(old(store.events), store.events, store.ScrubbedEntityIds(), |store.events|)
                && result.eventLogScrubbed == |Blanked(old(store.events), store.events)|
    {
      if sweeping {
        return SweepResult(0, 0, 0, 0, 0);
      }
      sweeping := true;
      ghost var d := store.Content();
      var hardCapScrubbed := store.ScrubExpiredContent(now - policies.hardCapDays * MS_PER_DAY);
      ghost var mid, users := store.Content(), store.GetDistinctUserIdsWithUnscrubbedContent();
      var policyScrubbed, errors := ScrubByPolicy(now);
      TwoPassesAreOne(d, mid, store.Content(), policies, now, users);
      var eventLogScrubbed := store.ScrubEventLogsForScrubbedContent();
      sweeping := false;
      result := SweepResult(hardCapScrubbed + policyScrubbed, hardCapScrubbed, policyScrubbed, eventLogScrubbed, errors);
    }
  }

  // -- Why the passes amount to one ------------------------------------------------------------

  lemma NothingInvalid(d: Docs, ps: Policies, now: int, userId: Id)
    requires EffectOf(ps, userId).Invalid?
    ensures PolicyRequests(d, ps, now, {userId}) == {} && PolicyResults(d, ps, now, {userId}) == {}
  {
  }

  lemma WithinSets(d: Docs, ps: Policies, now: int, userId: Id, days: nat)
    requires EffectOf(ps, userId) == Within(days)
    ensures var before := Cutoff(now, Min(days, ps.hardCapDays));
      && PolicyRequests(d, ps, now, {userId}) == FreshRequests(d.requests, OldRequestOf(userId, before))
      && PolicyResults(d, ps, now, {userId}) == FreshResults(d.results, OldResultOf(Owned(d.requests, userId), before))
  {
  }

  lemma OnAckSets(d: Docs, ps: Policies, now: int, userId: Id)
    requires EffectOf(ps, userId).OnAck?
    ensures var b := FreshResults(d.results, DeliveredOf(Owned(d.requests, userId)));
      && PolicyResults(d, ps, now, {userId}) == b
      && PolicyRequests(d, ps, now, {userId}) == FreshIn(d.requests, RequestsOf(d.results, b))
  {
  }

  ghost predicate ByPolicySoFar(
      d: Docs, now: Docs, ps: Policies, at: int, users: set<Id>, scrubbed: nat, errors: nat)
  {
    var a, b := PolicyRequests(d, ps, at, users), PolicyResults(d, ps, at, users);
    ScrubbedDocs(d, now, a, b) && scrubbed == |a| + |b| && errors == |Invalids(ps, users)|
  }

  /** Scrubbing other users' records does not change what a user's policy scrubs. */
  lemma OtherUsersApart(d: Docs, mid: Docs, ps: Policies, at: int, users: set<Id>, userId: Id)
    requires userId !in users
    requires ScrubbedDocs(d, mid, PolicyRequests(d, ps, at, users), PolicyResults(d, ps, at, users))
    ensures PolicyRequests(mid, ps, at, {userId}) == PolicyRequests(d, ps, at, {userId})
    ensures PolicyResults(mid, ps, at, {userId}) == PolicyResults(d, ps, at, {userId})
  {
  }

  /** Scrubbing twice, disjointly, is scrubbing the union once. */
  lemma ScrubbedTwice(d: Docs, mid: Docs, now: Docs, a: set<Id>, b: set<Id>, a': set<Id>, b': set<Id>)
    requires ScrubbedDocs(d, mid, a, b) && ScrubbedDocs(mid, now, a', b') && a !! a' && b !! b'
    ensures ScrubbedDocs(d, now, a + a', b + b')
  {
  }

  lemma UserStep(
      d: Docs, mid: Docs, now: Docs, ps: Policies, at: int, users: set<Id>, userId: Id, scrubbed: nat, n: nat, errors: nat)
    requires userId !in users && ByPolicySoFar(d, mid, ps, at, users, scrubbed, errors)
    requires var a, b := PolicyRequests(mid, ps, at, {userId}), PolicyResults(mid, ps, at, {userId});
      ScrubbedDocs(mid, now, a, b) && n == |a| + |b|
    ensures ByPolicySoFar(d, now, ps, at, users + {userId}, scrubbed + n,
                          errors + if EffectOf(ps, userId).Invalid? then 1 else 0)
  {
    OtherUsersApart(d, mid, ps, at, users, userId);
    PolicyUnion(d, ps, at, users, userId);
    ScrubbedTwice(d, mid, now, PolicyRequests(d, ps, at, users), PolicyResults(d, ps, at, users),
                  PolicyRequests(d, ps, at, {userId}), PolicyResults(d, ps, at, {userId}));
    InvalidsUnion(ps, users, userId);
  }

  /** Different users' records are different records. */
  lemma PolicyUnion(d: Docs, ps: Policies, at: int, users: set<Id>, userId: Id)
    requires userId !in users
    ensures var a, a' := PolicyRequests(d, ps, at, users), PolicyRequests(d, ps, at, {userId});
      a !! a' && PolicyRequests(d, ps, at, users + {userId}) == a + a'
    ensures var b, b' := PolicyResults(d, ps, at, users), PolicyResults(d, ps, at, {userId});
      b !! b' && PolicyResults(d, ps, at, users + {userId}) == b + b'
  {
  }

  lemma InvalidsUnion(ps: Policies, users: set<Id>, userId: Id)
    requires userId !in users
    ensures |Invalids(ps, users + {userId})| == |Invalids(ps, users)| + if EffectOf(ps, userId).Invalid? then 1 else 0
  {
    assert Invalids(ps, users + {userId}) ==
      Invalids(ps, users) + if EffectOf(ps, userId).Invalid? then {userId} else {};
  }

  ghost predicate AllListed(d: Docs, users: set<Id>) {
    && (forall r | r in d.requests && d.requests[r].scrubbedAt.None? && Finished(d.requests[r].status) ::
          d.requests[r].userId in users)
    && (forall x | x in d.results && d.results[x].scrubbedAt.None? && d.results[x].requestId in d.requests ::
          d.requests[d.results[x].requestId].userId in users)
  }

  /** After the hard cap, what is due is what the listed users' policies scrub. */
  lemma DueAfterCap(d: Docs, mid: Docs, ps: Policies, now: int, users: set<Id>)
    requires var before := Cutoff(now, ps.hardCapDays);
      ScrubbedDocs(d, mid, FreshRequests(d.requests, OldRequest(before)), FreshResults(d.results, OldResult(before)))
    requires AllListed(mid, users)
    ensures var before := Cutoff(now, ps.hardCapDays);
      && DueRequests(d, ps, now) == FreshRequests(d.requests, OldRequest(before)) + PolicyRequests(mid, ps, now, users)
      && DueResults(d, ps, now) == FreshResults(d.results, OldResult(before)) + PolicyResults(mid, ps, now, users)
  {
  }

  /** The hard cap pass and the policy pass together are the one-pass specification. */
  lemma TwoPassesAreOne(d: Docs, mid: Docs, now: Docs, ps: Policies, at: int, users: set<Id>)
    requires var before := Cutoff(at, ps.hardCapDays);
      ScrubbedDocs(d, mid, FreshRequests(d.requests, OldRequest(before)), FreshResults(d.results, OldResult(before)))
    requires AllListed(mid, users)
    requires ScrubbedDocs(mid, now, PolicyRequests(mid, ps, at, users), PolicyResults(mid, ps, at, users))
    ensures ScrubbedDocs(d, now, DueRequests(d, ps, at), DueResults(d, ps, at))
    ensures var before := Cutoff(at, ps.hardCapDays);
      |DueRequests(d, ps, at)| + |DueResults(d, ps, at)| ==
        |FreshRequests(d.requests, OldRequest(before))| + |FreshResults(d.results, OldResult(before))|
        + |PolicyRequests(mid, ps, at, users)| + |PolicyResults(mid, ps, at, users)|
  {
    var before := Cutoff(at, ps.hardCapDays);
    var a, b := FreshRequests(d.requests, OldRequest(before)), FreshResults(d.results, OldResult(before));
    var a', b' := PolicyRequests(mid, ps, at, users), PolicyResults(mid, ps, at, users);
    DueAfterCap(d, mid, ps, at, users);
    assert a !! a' && b !! b';
    ScrubbedTwice(d, mid, now, a, b, a', b');
  }

  // -- What that means -------------------------------------------------------------------------

  /** A second sweep at the same time finds nothing to do. */
  lemma SecondSweepIdle(d: Docs, now: Docs, ps: Policies, at: int)
    requires ScrubbedDocs(d, now, DueRequests(d, ps, at), DueResults(d, ps, at))
    ensures DueRequests(now, ps, at) == {} && DueResults(now, ps, at) == {}
  {
  }

  /** After a sweep every event about a scrubbed record is null or a tombstone, and a second one finds none to blank. */
  lemma NoDetailsLeft(was: seq<EventLogEntry>, now: seq<EventLogEntry>, ids: set<Entity>)
    requires Cleaned(was, now, ids, |now|)
    ensures forall e | e in now && e.entity in ids :: e.details.Null? || e.details.Scrubbed?
    ensures forall later | Cleaned(now, later, ids, |later|) :: later == now && Blanked(now, later) == {}
  {
  }

  /** For a time-based policy: due iff unscrubbed, terminal and older than min(policy, cap) days. */
  lemma TimeBasedIff(d: Docs, ps: Policies, now: int, r: Id, days: nat)
    requires r in d.requests && EffectOf(ps, d.requests[r].userId) == Within(days)
    ensures var q := d.requests[r];
      DueRequest(d, ps, now, r) <==>
        && q.scrubbedAt.None? && (q.status.Succeeded? || q.status.Failed? || q.status.FailedFinal?)
        && now - q.createdAt > Min(days, ps.hardCapDays) * 86_400_000
  {
  }

  lemma TimeBasedResultIff(d: Docs, ps: Policies, now: int, x: Id, days: nat)
    requires x in d.results && d.results[x].requestId in d.requests
    requires EffectOf(ps, d.requests[d.results[x].requestId].userId) == Within(days)
    ensures DueResult(d, ps, now, x) <==>
              d.results[x].scrubbedAt.None? && now - d.results[x].createdAt > Min(days, ps.hardCapDays) * 86_400_000
  {
  }
  /**
   Under on_ack: due iff unscrubbed, and terminal and older than the hard cap, or a result of it that
   is within the cap has been delivered and not scrubbed.
   */
  lemma OnAckIff(d: Docs, ps: Policies, now: int, r: Id)
    requires r in d.requests && EffectOf(ps, d.requests[r].userId) == OnAck
    ensures var q := d.requests[r];
      DueRequest(d, ps, now, r) <==>
        && q.scrubbedAt.None?
        && (((q.status.Succeeded? || q.status.Failed? || q.status.FailedFinal?)
             && now - q.createdAt > ps.hardCapDays * 86_400_000)
            || exists x :: x in d.results && d.results[x].requestId == r && d.results[x].delivered
                           && d.results[x].scrubbedAt.None? && now - d.results[x].createdAt <= ps.hardCapDays * 86_400_000)
  {
    assert forall x | x in d.results ::
      PastCap(ps, now, d.results[x].createdAt) <==> now - d.results[x].createdAt > ps.hardCapDays * 86_400_000;
  }

  lemma OnAckResultIff(d: Docs, ps: Policies, now: int, x: Id)
    requires x in d.results && d.results[x].requestId in d.requests
    requires EffectOf(ps, d.requests[d.results[x].requestId].userId) == OnAck
    ensures DueResult(d, ps, now, x) <==>
              d.results[x].scrubbedAt.None?
              && (d.results[x].delivered || now - d.results[x].createdAt > ps.hardCapDays * 86_400_000)
  {
  }

  /** Without a valid policy, and for results of requests that are gone, only the hard cap counts. */
  lemma CapOnlyIff(d: Docs, ps: Policies, now: int, r: Id, x: Id)
    requires r in d.requests && EffectOf(ps, d.requests[r].userId) == Invalid
    requires x in d.results && (d.results[x].requestId == r || d.results[x].requestId !in d.requests)
    ensures var q := d.requests[r];
      DueRequest(d, ps, now, r) <==>
        && q.scrubbedAt.None? && (q.status.Succeeded? || q.status.Failed? || q.status.FailedFinal?)
        && now - q.createdAt > ps.hardCapDays * 86_400_000
    ensures DueResult(d, ps, now, x) <==>
              d.results[x].scrubbedAt.None? && now - d.results[x].createdAt > ps.hardCapDays * 86_400_000
  {
  }

  // -- Reading policies ------------------------------------------------------------------------

  /** A number in decimal. */
  ghost function Written(n: nat): (s: string)
    ensures s != "" && AllDigits(s)
  {
    if n < 10 then [Digit(n)] else Written(n / 10) + [Digit(n % 10)]
  }

  ghost function Digit(n: nat): (c: char)
    requires n < 10
    ensures '0' <= c <= '9' && c as int - '0' as int == n
  {
    "0123456789"[n]
  }

  lemma {:induction false} ReadWritten(n: nat)
    ensures Decimal(Written(n)) == n
  {
    if n >= 10 {
      ReadWritten(n / 10);
      assert Written(n)[..|Written(n)| - 1] == Written(n / 10);
    } else {
      assert Decimal("") == 0 && Written(n)[..0] == "";
    }
  }

  /**
   How a user's policy is read: "<n>d" keeps content for n days, and "0d" like "on_ack" until it is
   delivered. Without an answer the default policy stands in, and a resolver that throws leaves none.
   */
  lemma PolicyRead(ps: Policies, user: Id, n: nat)
    ensures ps.resolver(user) == Returns(Some(Written(n) + "d")) ==>
              EffectOf(ps, user) == if n == 0 then OnAck else Within(n)
    ensures ps.resolver(user) == Returns(Some("on_ack")) ==> EffectOf(ps, user) == OnAck
    ensures ps.resolver(user) == Returns(None) && ps.defaultPolicy == Written(n) + "d" ==>
              EffectOf(ps, user) == if n == 0 then OnAck else Within(n)
    ensures ps.resolver(user).Throws? ==> EffectOf(ps, user).Invalid?
  {
    ReadWritten(n);
    var policy := Written(n) + "d";
    assert policy[|policy| - 1] == 'd' && policy[..|policy| - 1] == Written(n);
    assert "on_ack"[|"on_ack"| - 1] == 'k';
  }

  /** Nothing else is a policy. */
  lemma {:induction false} OnlyPolicies(policy: string, n: nat)
    requires ParseRetentionPolicy(policy) == Some(n) && policy != "on_ack"
    ensures |policy| >= 2 && policy[|policy| - 1] == 'd' && forall i | 0 <= i < |policy| - 1 :: '0' <= policy[i] <= '9'
  {
    assert forall i | 0 <= i < |policy| - 1 :: policy[..|policy| - 1][i] == policy[i];
  }
}
