/** The request queue's counters, under enqueues that arrive while a flush is running. */
module Queues {
  import opened NorushTypes
  import opened Arithmetic

  datatype Batching = Batching(maxRequests: int, maxBytes: int)

  /**
   The queue's fields, and the two locals of the flush in progress (meaningful while `flushing`).
   Control returns to the event loop only inside `onFlush`, so these are the atomic steps.
   */
  datatype Counters = Counters(count: int, bytes: int, flushing: bool, flushedCount: int, flushedBytes: int)

  datatype Event =
    | Enqueued(bytes: nat)          // a request was stored; counters, then triggers
    | FlushAsked                    // flush(), tick() or the timer
    | FlushEnded(ok: bool)          // onFlush() resolved or threw

  function Begun(s: Counters): Counters {
    if s.flushing then s else s.(flushing := true, flushedCount := s.count, flushedBytes := s.bytes)
  }

  predicate Triggered(c: Batching, s: Counters) { s.count >= c.maxRequests || s.bytes >= c.maxBytes }

  function Next(c: Batching, s: Counters, e: Event): Counters {
    match e
    case Enqueued(bytes) =>
      var t := s.(count := s.count + 1, bytes := s.bytes + bytes);
      if Triggered(c, t) then Begun(t) else t
    case FlushAsked => Begun(s)
    case FlushEnded(ok) =>
      if ok then s.(count := Max(0, s.count - s.flushedCount), bytes := Max(0, s.bytes - s.flushedBytes), flushing := false)
      else s.(flushing := false)
  }

  // -- The class ---------------------------------------------------------------------------

  class RequestQueue {
    const batching: Batching
    var pendingCount: int
    var pendingBytes: int
    /** Guard against concurrent flushes. */
    var flushing: bool
    /** The running flush's snapshot of the counters. */
    var flushedCount: int
    var flushedBytes: int

    constructor (batching: Batching)
      ensures this.batching == batching && Fields() == Counters(0, 0, false, 0, 0)
    {
      this.batching := batching;
      pendingCount, pendingBytes, flushing, flushedCount, flushedBytes := 0, 0, false, 0, 0;
    }

    ghost function Fields(): Counters
      reads this
    {
      Counters(pendingCount, pendingBytes, flushing, flushedCount, flushedBytes)
    }

    /** The request is stored already. */
    method Enqueue(bytes: nat)
      modifies this
      ensures Fields() == Next(batching, old(Fields()), Enqueued(bytes))
    {
      pendingCount := pendingCount + 1;
      pendingBytes := pendingBytes + bytes;
      CheckFlushTriggers();
    }

    method CheckFlushTriggers()
      modifies this
      ensures Fields() == if Triggered(batching, old(Fields())) then Begun(old(Fields())) else old(Fields())
    {
      if pendingCount >= batching.maxRequests {
        TriggerFlush();
        return;
      }
      if pendingBytes >= batching.maxBytes {
        TriggerFlush();
      }
    }

    /** Up to the call of `onFlush`. */
    method TriggerFlush()
      modifies this
      ensures Fields() == Next(batching, old(Fields()), FlushAsked)
    {
      if flushing {
        return;
      }
      flushing := true;
      flushedCount := pendingCount;
      flushedBytes := pendingBytes;
    }

    /** From the return of `onFlush` on. */
    method FinishFlush(ok: bool)
      modifies this
      ensures Fields() == Next(batching, old(Fields()), FlushEnded(ok))
    {
      if ok {
        pendingCount := Max(0, pendingCount - flushedCount);
        pendingBytes := Max(0, pendingBytes - flushedBytes);
      }
      flushing := false;
    }
  }

  // -- What the counters count ---------------------------------------------------------------

  /** A flush ends only if one is running. */
  ghost predicate Feasible(c: Batching, es: seq<Event>) {
    es != [] ==>
      && Feasible(c, es[..|es| - 1])
      && (es[|es| - 1].FlushEnded? ==> Played(c, es[..|es| - 1]).flushing)
  }

  function Played(c: Batching, es: seq<Event>): Counters {
    if es == [] then Counters(0, 0, false, 0, 0) else Next(c, Played(c, es[..|es| - 1]), es[|es| - 1])
  }

  function Sum(sizes: seq<nat>): nat {
    if sizes == [] then 0 else Sum(sizes[..|sizes| - 1]) + sizes[|sizes| - 1]
  }

  lemma {:induction false} SumSplit(a: seq<nat>, b: seq<nat>)
    ensures Sum(a + b) == Sum(a) + Sum(b)
    decreases |b|
  {
    if b == [] {
      assert a + b == a;
    } else {
      assert (a + b)[..|a + b| - 1] == a + b[..|b| - 1];
      SumSplit(a, b[..|b| - 1]);
    }
  }

  /**
   The list the counters stand for: the sizes of the requests, oldest first, that no completed
   flush has covered; and how many of them the running flush covers. A flush covers what was
   pending when it began, and what it covers leaves the list only if it succeeds.
   */
  datatype PendingList = PendingList(sizes: seq<nat>, covered: Option<nat>)

  function Cover(l: PendingList): PendingList {
    if l.covered.Some? then l else l.(covered := Some(|l.sizes|))
  }

  function Listed(c: Batching, es: seq<Event>): PendingList {
    if es == [] then PendingList([], None)
    else
      var l := Listed(c, es[..|es| - 1]);
      match es[|es| - 1]
      case Enqueued(bytes) =>
        var more := l.(sizes := l.sizes + [bytes]);
        if |more.sizes| >= c.maxRequests || Sum(more.sizes) >= c.maxBytes then Cover(more) else more
      case FlushAsked => Cover(l)
      case FlushEnded(ok) =>
        if ok && l.covered.Some? && l.covered.value <= |l.sizes|
        then PendingList(l.sizes[l.covered.value..], None)
        else l.(covered := None)
  }

  ghost predicate Refines(s: Counters, l: PendingList) {
    && s.count == |l.sizes| && s.bytes == Sum(l.sizes) && s.flushing == l.covered.Some?
    && (s.flushing ==> l.covered.value <= |l.sizes|
                       && s.flushedCount == l.covered.value && s.flushedBytes == Sum(l.sizes[..l.covered.value]))
  }

  lemma BegunRefines(s: Counters, l: PendingList)
    requires Refines(s, l)
    ensures Refines(Begun(s), Cover(l))
  {
    assert l.sizes[..|l.sizes|] == l.sizes;
  }

  lemma GrownRefines(s: Counters, l: PendingList, bytes: nat)
    requires Refines(s, l)
    ensures Refines(s.(count := s.count + 1, bytes := s.bytes + bytes), l.(sizes := l.sizes + [bytes]))
  {
    assert (l.sizes + [bytes])[..|l.sizes|] == l.sizes;
    if l.covered.Some? {
      assert (l.sizes + [bytes])[..l.covered.value] == l.sizes[..l.covered.value];
    }
  }

  /**
   Under any interleaving of enqueues with flushes that succeed or fail, the counters are the
   length and the byte sum of the list of requests not covered by a completed flush.
   */
  lemma {:induction false} CountersRefine(c: Batching, es: seq<Event>)
    requires Feasible(c, es)
    ensures Refines(Played(c, es), Listed(c, es))
  {
    if es != [] {
      var init := es[..|es| - 1];
      CountersRefine(c, init);
      var s, l := Played(c, init), Listed(c, init);
      match es[|es| - 1]
      case Enqueued(bytes) =>
        GrownRefines(s, l, bytes);
        BegunRefines(s.(count := s.count + 1, bytes := s.bytes + bytes), l.(sizes := l.sizes + [bytes]));
      case FlushAsked => BegunRefines(s, l);
      case FlushEnded(ok) => EndedRefines(c, s, l, ok);
    }
  }

  lemma EndedRefines(c: Batching, s: Counters, l: PendingList, ok: bool)
    requires Refines(s, l) && s.flushing
    ensures Refines(Next(c, s, FlushEnded(ok)),
                    if ok then PendingList(l.sizes[l.covered.value..], None) else l.(covered := None))
  {
    assert l.sizes == l.sizes[..l.covered.value] + l.sizes[l.covered.value..];
    SumSplit(l.sizes[..l.covered.value], l.sizes[l.covered.value..]);
  }

  /** The clamp at zero never takes effect: a flush subtracts no more than is there. */
  lemma NeverClips(c: Batching, es: seq<Event>)
    requires Feasible(c, es) && Played(c, es).flushing
    ensures var s := Played(c, es);
      && 0 <= s.flushedCount <= s.count && 0 <= s.flushedBytes <= s.bytes
      && Next(c, s, FlushEnded(true)) ==
           s.(count := s.count - s.flushedCount, bytes := s.bytes - s.flushedBytes, flushing := false)
  {
    CountersRefine(c, es);
    var l := Listed(c, es);
    assert l.sizes == l.sizes[..l.covered.value] + l.sizes[l.covered.value..];
    SumSplit(l.sizes[..l.covered.value], l.sizes[l.covered.value..]);
  }

  /**
   An enqueue leaves a flush running exactly when one was running or a threshold is now met by
   the requests no completed flush has covered.
   */
  lemma EnqueueTriggersIff(c: Batching, es: seq<Event>, bytes: nat)
    requires Feasible(c, es)
    ensures var l := Listed(c, es);
      Played(c, es + [Enqueued(bytes)]).flushing <==>
        || l.covered.Some?
        || |l.sizes| + 1 >= c.maxRequests || Sum(l.sizes) + bytes >= c.maxBytes
  {
    assert (es + [Enqueued(bytes)])[..|es|] == es;
    CountersRefine(c, es);
  }
}
