/** Splitting a group of requests into chunks a provider accepts. */
module Splitter {
  import opened NorushTypes

  datatype Limits = Limits(maxRequests: nat, maxBytes: nat)

  function Bytes(rows: seq<Request>): nat {
    if rows == [] then 0 else Bytes(rows[..|rows| - 1]) + rows[|rows| - 1].bytes
  }

  predicate Fits(chunk: seq<Request>, limits: Limits) {
    |chunk| <= limits.maxRequests && Bytes(chunk) <= limits.maxBytes
  }

  function Flatten(chunks: seq<seq<Request>>): seq<Request> {
    if chunks == [] then [] else Flatten(chunks[..|chunks| - 1]) + chunks[|chunks| - 1]
  }

  /** The requests that can be sent at all, in order. */
  function NotOversized(rows: seq<Request>, maxBytes: nat): seq<Request> {
    if rows == [] then []
    else
      var q := rows[|rows| - 1];
      NotOversized(rows[..|rows| - 1], maxBytes) + if q.bytes > maxBytes then [] else [q]
  }

  /** Non-empty chunks, each within the provider's limits. */
  ghost predicate Acceptable(chunks: seq<seq<Request>>, limits: Limits) {
    forall k | 0 <= k < |chunks| :: chunks[k] != [] && Fits(chunks[k], limits)
  }

  /** Every chunk but the last is full: it has no room for the request that follows it. */
  ghost predicate Greedy(chunks: seq<seq<Request>>, limits: Limits) {
    && (forall k | 0 <= k < |chunks| :: chunks[k] != [])
    && (forall k, l | 0 <= k && l == k + 1 < |chunks| :: !Fits(chunks[k] + [chunks[l][0]], limits))
  }

  /** A chunk as the split emits it: within limits, or a single request when no request is allowed. */
  predicate Emitted(chunk: seq<Request>, limits: Limits) {
    chunk != []
    && if limits.maxRequests >= 1 then |chunk| <= limits.maxRequests && Bytes(chunk) <= limits.maxBytes else |chunk| == 1
  }

  ghost predicate AllEmitted(chunks: seq<seq<Request>>, limits: Limits) {
    forall k | 0 <= k < |chunks| :: Emitted(chunks[k], limits)
  }

  /**
   The greedy split: order kept, oversized requests dropped, every chunk within limits, and as
   few chunks as any split of the same sequence could have (`FewestChunks`).
   */
  method SplitByProviderLimits(requests: seq<Request>, limits: Limits) returns (chunks: seq<seq<Request>>)
    ensures Flatten(chunks) == NotOversized(requests, limits.maxBytes)
    ensures Greedy(chunks, limits)
    ensures AllEmitted(chunks, limits)
  {
    chunks := [];
    var currentChunk: seq<Request> := [];
    var currentBytes := 0;
    FillStart(limits);
    for i := 0 to |requests|
      invariant currentBytes == Bytes(currentChunk)
      invariant Filling(chunks, currentChunk, requests[..i], limits)
    {
      var req := requests[i];
      FillStep(chunks, currentChunk, requests, i, limits);
      if req.bytes > limits.maxBytes {
        continue;
      }
      var wouldExceedCount := |currentChunk| >= limits.maxRequests;
      var wouldExceedBytes := currentBytes + req.bytes > limits.maxBytes;
      if |currentChunk| > 0 && (wouldExceedCount || wouldExceedBytes) {
        chunks := chunks + [currentChunk];
        currentChunk := [];
        currentBytes := 0;
      }
      BytesSnoc(currentChunk, req);
      currentChunk := currentChunk + [req];
      currentBytes := currentBytes + req.bytes;
    }
    assert requests[..|requests|] == requests;
    FillEnd(chunks, currentChunk, requests, limits);
    if |currentChunk| > 0 {
      chunks := chunks + [currentChunk];
    }
  }

  /** What the loop has done with `rows`: full chunks, and one that is being filled. */
  ghost predicate Filling(chunks: seq<seq<Request>>, current: seq<Request>, rows: seq<Request>, limits: Limits) {
    && Flatten(chunks) + current == NotOversized(rows, limits.maxBytes)
    && Greedy(chunks, limits) && FollowsOn(chunks, current, limits)
    && AllEmitted(chunks, limits) && (current != [] ==> Emitted(current, limits))
  }

  lemma FillStart(limits: Limits)
    ensures Filling([], [], [], limits)
  {
  }

  /** Closing what is being filled completes the split. */
  lemma FillEnd(chunks: seq<seq<Request>>, current: seq<Request>, rows: seq<Request>, limits: Limits)
    requires Filling(chunks, current, rows, limits)
    ensures var all := if current == [] then chunks else chunks + [current];
      && Flatten(all) == NotOversized(rows, limits.maxBytes) && Greedy(all, limits) && AllEmitted(all, limits)
  {
    if current != [] {
      Close(chunks, current, limits);
    } else {
      assert Flatten(chunks) + [] == Flatten(chunks);
    }
  }

  predicate Full(chunk: seq<Request>, q: Request, limits: Limits) {
    |chunk| > 0 && (|chunk| >= limits.maxRequests || Bytes(chunk) + q.bytes > limits.maxBytes)
  }

  /** The next request goes into the chunk being filled. */
  lemma FillAdd(chunks: seq<seq<Request>>, current: seq<Request>, rows: seq<Request>, i: nat, limits: Limits)
    requires i < |rows| && Filling(chunks, current, rows[..i], limits)
    requires rows[i].bytes <= limits.maxBytes && !Full(current, rows[i], limits)
    ensures Filling(chunks, current + [rows[i]], rows[..i + 1], limits)
  {
    NotOversizedSnoc(rows, i, limits.maxBytes, Flatten(chunks), current);
    FitsSnoc(current, rows[i], limits);
  }

  /** The chunk being filled is closed, and the next request starts a new one. */
  lemma FillClose(chunks: seq<seq<Request>>, current: seq<Request>, rows: seq<Request>, i: nat, limits: Limits)
    requires i < |rows| && Filling(chunks, current, rows[..i], limits)
    requires rows[i].bytes <= limits.maxBytes && Full(current, rows[i], limits)
    ensures Filling(chunks + [current], [] + [rows[i]], rows[..i + 1], limits)
  {
    NotOversizedSnoc(rows, i, limits.maxBytes, Flatten(chunks), current);
    FitsSnoc(current, rows[i], limits);
    FitsSnoc([], rows[i], limits);
    Close(chunks, current, limits);
    var closed := chunks + [current];
    assert Flatten(closed) + [rows[i]] == NotOversized(rows[..i + 1], limits.maxBytes);
    assert closed[|closed| - 1] == current;
  }

  lemma FillStep(chunks: seq<seq<Request>>, current: seq<Request>, rows: seq<Request>, i: nat, limits: Limits)
    requires i < |rows| && Filling(chunks, current, rows[..i], limits)
    ensures var q := rows[i];
      if q.bytes > limits.maxBytes then Filling(chunks, current, rows[..i + 1], limits)
      else if Full(current, q, limits) then Filling(chunks + [current], [] + [q], rows[..i + 1], limits)
      else Filling(chunks, current + [q], rows[..i + 1], limits)
  {
    if rows[i].bytes > limits.maxBytes {
      NotOversizedSnoc(rows, i, limits.maxBytes, Flatten(chunks), current);
    } else if Full(current, rows[i], limits) {
      FillClose(chunks, current, rows, i, limits);
    } else {
      FillAdd(chunks, current, rows, i, limits);
    }
  }

  /** The chunk being filled starts with a request that did not fit the last closed chunk. */
  ghost predicate FollowsOn(chunks: seq<seq<Request>>, chunk: seq<Request>, limits: Limits) {
    chunks != [] ==> chunk != [] && !Fits(chunks[|chunks| - 1] + [chunk[0]], limits)
  }

  lemma Close(chunks: seq<seq<Request>>, chunk: seq<Request>, limits: Limits)
    requires chunk != [] && Greedy(chunks, limits) && FollowsOn(chunks, chunk, limits)
    requires AllEmitted(chunks, limits) && Emitted(chunk, limits)
    ensures AllEmitted(chunks + [chunk], limits)
    ensures Greedy(chunks + [chunk], limits) && Flatten(chunks + [chunk]) == Flatten(chunks) + chunk
  {
    assert (chunks + [chunk])[..|chunks|] == chunks;
    CloseEmitted(chunks, chunk, limits);
    CloseGreedy(chunks, chunk, limits);
  }

  lemma CloseEmitted(chunks: seq<seq<Request>>, chunk: seq<Request>, limits: Limits)
    requires AllEmitted(chunks, limits) && Emitted(chunk, limits)
    ensures AllEmitted(chunks + [chunk], limits)
  {
  }

  lemma CloseGreedy(chunks: seq<seq<Request>>, chunk: seq<Request>, limits: Limits)
    requires chunk != [] && Greedy(chunks, limits) && FollowsOn(chunks, chunk, limits)
    ensures Greedy(chunks + [chunk], limits)
  {
  }

  lemma NotOversizedSnoc(rows: seq<Request>, i: nat, maxBytes: nat, done: seq<Request>, current: seq<Request>)
    requires i < |rows| && done + current == NotOversized(rows[..i], maxBytes)
    ensures rows[i].bytes > maxBytes ==> NotOversized(rows[..i + 1], maxBytes) == done + current
    ensures rows[i].bytes <= maxBytes ==> NotOversized(rows[..i + 1], maxBytes) == done + (current + [rows[i]])
    ensures rows[i].bytes <= maxBytes ==> NotOversized(rows[..i + 1], maxBytes) == (done + current) + [rows[i]]
  {
    assert rows[..i + 1][..i] == rows[..i];
  }

  lemma FitsSnoc(chunk: seq<Request>, q: Request, limits: Limits)
    ensures Bytes(chunk + [q]) == Bytes(chunk) + q.bytes
    ensures Fits(chunk + [q], limits) <==> |chunk| < limits.maxRequests && Bytes(chunk) + q.bytes <= limits.maxBytes
    ensures [] + [q] == [q] && (chunk + [q])[0] == if chunk == [] then q else chunk[0]
  {
  }

  lemma BytesSnoc(chunk: seq<Request>, q: Request)
    ensures Bytes(chunk + [q]) == Bytes(chunk) + q.bytes
  {
  }

  // -- Optimality -------------------------------------------------------------------------

  lemma {:induction false} BytesConcat(a: seq<Request>, b: seq<Request>)
    ensures Bytes(a + b) == Bytes(a) + Bytes(b)
    decreases |b|
  {
    if b == [] {
      assert a + b == a;
    } else {
      assert (a + b)[..|a + b| - 1] == a + b[..|b| - 1];
      BytesConcat(a, b[..|b| - 1]);
    }
  }

  /** Limits are kept by every contiguous part of a run that keeps them. */
  lemma PartFits(before: seq<Request>, part: seq<Request>, after: seq<Request>, limits: Limits)
    requires Fits(before + part + after, limits)
    ensures Fits(part, limits)
  {
    BytesConcat(before + part, after);
    BytesConcat(before, part);
  }

  lemma {:induction false} FlattenCons(chunk: seq<Request>, rest: seq<seq<Request>>)
    ensures Flatten([chunk] + rest) == chunk + Flatten(rest)
    decreases |rest|
  {
    if rest == [] {
      assert ([chunk] + rest)[..0] == [] && Flatten([chunk]) == Flatten([]) + chunk;
      assert [chunk] + rest == [chunk];
    } else {
      FlattenCons(chunk, rest[..|rest| - 1]);
      assert ([chunk] + rest)[..|rest|] == [chunk] + rest[..|rest| - 1];
    }
  }

  lemma DropPrefix(p: seq<Request>, q: seq<Request>, x: seq<Request>, y: seq<Request>)
    requires p + q == x + y && |p| <= |x|
    ensures q == x[|p|..] + y
  {
    assert q == (p + q)[|p|..];
  }

  /** A run reaching past a full chunk cannot fit. */
  lemma NoRunPastFullChunk(p: seq<Request>, x: seq<Request>, c: seq<Request>, q: Request, limits: Limits)
    requires x + c + [q] <= p && Fits(p, limits)
    ensures Fits(c + [q], limits)
  {
    assert p == x + (c + [q]) + p[|x| + |c| + 1..];
    PartFits(x, c + [q], p[|x| + |c| + 1..], limits);
  }

  lemma Uncons(chunks: seq<seq<Request>>, limits: Limits)
    requires chunks != []
    ensures Flatten(chunks) == chunks[0] + Flatten(chunks[1..])
    ensures Greedy(chunks, limits) ==> Greedy(chunks[1..], limits)
  {
    assert chunks == [chunks[0]] + chunks[1..];
    FlattenCons(chunks[0], chunks[1..]);
    var rest := chunks[1..];
    assert Greedy(chunks, limits) ==>
      forall k, l | 0 <= k && l == k + 1 < |rest| :: rest[k] == chunks[k + 1] && rest[l] == chunks[l + 1];
  }

  /** No run that fits reaches past the greedy split's next chunk. */
  lemma CannotPass(
      greedy: seq<seq<Request>>, p: seq<Request>, rest: seq<Request>, x: seq<Request>, limits: Limits)
    requires Greedy(greedy, limits) && greedy != [] && Fits(p, limits)
    requires p + rest == (x + greedy[0]) + Flatten(greedy[1..])
    ensures |p| <= |x + greedy[0]|
  {
    var c, restG := greedy[0], greedy[1..];
    if |p| > |x + c| {
      var all := (x + c) + Flatten(restG);
      assert all == p + rest && |Flatten(restG)| > 0;
      Uncons(greedy, limits);
      Uncons(restG, limits);
      var q := restG[0][0];
      assert p == all[..|p|] && x + c + [q] == all[..|x + c| + 1];
      assert greedy[1] == restG[0];
      NoRunPastFullChunk(p, x, c, q, limits);
    }
  }

  /**
   Greedy stays ahead: if a split into acceptable runs still has to cover `x` before it stands
   where the greedy split stands, it has at least as many runs to come.
   */
  lemma {:induction false} GreedyStaysAhead(
      greedy: seq<seq<Request>>, other: seq<seq<Request>>, x: seq<Request>, limits: Limits)
    requires Greedy(greedy, limits) && Acceptable(other, limits)
    requires Flatten(other) == x + Flatten(greedy)
    ensures |greedy| <= |other|
    decreases |other|
  {
    if greedy != [] {
      Uncons(greedy, limits);
      var c, restG := greedy[0], greedy[1..];
      assert |Flatten(other)| > 0;
      Uncons(other, limits);
      var p, restO := other[0], other[1..];
      if |p| <= |x| {
        DropPrefix(p, Flatten(restO), x, Flatten(greedy));
        GreedyStaysAhead(greedy, restO, x[|p|..], limits);
      } else {
        assert p + Flatten(restO) == (x + c) + Flatten(restG);
        CannotPass(greedy, p, Flatten(restO), x, limits);
        DropPrefix(p, Flatten(restO), x + c, Flatten(restG));
        GreedyStaysAhead(restG, restO, (x + c)[|p|..], limits);
      }
    }
  }

  /** No split into contiguous acceptable runs has fewer chunks than a greedy one. */
  lemma FewestChunks(greedy: seq<seq<Request>>, other: seq<seq<Request>>, limits: Limits)
    requires Greedy(greedy, limits) && Acceptable(other, limits) && Flatten(other) == Flatten(greedy)
    ensures |greedy| <= |other|
  {
    assert Flatten(other) == [] + Flatten(greedy);
    GreedyStaysAhead(greedy, other, [], limits);
  }

  lemma {:induction false} NoneSendable(rows: seq<Request>, maxBytes: nat)
    ensures NotOversized(rows, maxBytes) == [] <==> forall q | q in rows :: q.bytes > maxBytes
  {
    if rows != [] {
      NoneSendable(rows[..|rows| - 1], maxBytes);
      assert rows == rows[..|rows| - 1] + [rows[|rows| - 1]];
    }
  }

  /**
   The split of `requests` respects the limits exactly when a chunk may hold a request at all, or
   every request is oversized: with maxRequests = 0 the code still emits one request per chunk.
   */
  lemma AcceptableIff(requests: seq<Request>, chunks: seq<seq<Request>>, limits: Limits)
    requires AllEmitted(chunks, limits) && Flatten(chunks) == NotOversized(requests, limits.maxBytes)
    ensures Acceptable(chunks, limits) <==>
              limits.maxRequests >= 1 || forall q | q in requests :: q.bytes > limits.maxBytes
  {
    NoneSendable(requests, limits.maxBytes);
    if chunks != [] {
      assert Emitted(chunks[0], limits);
      Uncons(chunks, limits);
    }
  }

  /** One small request, and no request allowed per chunk: the split has to put it in a chunk of its own. */
  lemma NotAcceptableAtZero(q: Request, chunks: seq<seq<Request>>)
    requires AllEmitted(chunks, Limits(0, q.bytes)) && Flatten(chunks) == NotOversized([q], q.bytes)
    ensures !Acceptable(chunks, Limits(0, q.bytes))
  {
    AcceptableIff([q], chunks, Limits(0, q.bytes));
    assert q in [q];
  }
}
