/** Which of a user's API keys to try, and in which order. */
module KeySelector {
  datatype ApiKeyInfo = ApiKeyInfo(id: string, priority: int, failoverEnabled: bool, revoked: bool)

  function Active(keys: seq<ApiKeyInfo>): seq<ApiKeyInfo> {
    if keys == [] then [] else (if keys[0].revoked then [] else [keys[0]]) + Active(keys[1..])
  }

  ghost predicate ByPriority(keys: seq<ApiKeyInfo>) {
    forall i, j | 0 <= i < j < |keys| :: keys[i].priority <= keys[j].priority
  }

  function Insert(k: ApiKeyInfo, keys: seq<ApiKeyInfo>): seq<ApiKeyInfo> {
    if keys == [] || k.priority <= keys[0].priority then [k] + keys else [keys[0]] + Insert(k, keys[1..])
  }

  /** `Array.prototype.sort` by ascending priority, which is stable. */
  function Sort(keys: seq<ApiKeyInfo>): seq<ApiKeyInfo> {
    if keys == [] then [] else Insert(keys[0], Sort(keys[1..]))
  }

  /** The keys of one priority, in order: equal before and after a stable sort. */
  function AtPriority(keys: seq<ApiKeyInfo>, p: int): seq<ApiKeyInfo> {
    if keys == [] then [] else (if keys[0].priority == p then [keys[0]] else []) + AtPriority(keys[1..], p)
  }

  lemma {:induction false} InsertMembers(k: ApiKeyInfo, keys: seq<ApiKeyInfo>)
    ensures forall x :: x in Insert(k, keys) <==> x == k || x in keys
  {
    if keys != [] && k.priority > keys[0].priority {
      InsertMembers(k, keys[1..]);
    }
  }

  lemma {:induction false} InsertSorts(k: ApiKeyInfo, keys: seq<ApiKeyInfo>)
    requires ByPriority(keys)
    ensures ByPriority(Insert(k, keys))
  {
    if keys != [] && k.priority > keys[0].priority {
      InsertSorts(k, keys[1..]);
      InsertMembers(k, keys[1..]);
      forall x | x in Insert(k, keys[1..]) ensures keys[0].priority <= x.priority {
        if x != k {
          assert x in keys[1..];
        }
      }
    }
  }

  lemma AtPriorityCons(x: ApiKeyInfo, keys: seq<ApiKeyInfo>, p: int)
    ensures AtPriority([x] + keys, p) == if x.priority == p then [x] + AtPriority(keys, p) else AtPriority(keys, p)
  {
  }

  /** A key goes before the keys of its own priority. */
  lemma {:induction false} InsertStable(k: ApiKeyInfo, keys: seq<ApiKeyInfo>, p: int)
    requires ByPriority(keys)
    ensures AtPriority(Insert(k, keys), p) == if k.priority == p then [k] + AtPriority(keys, p) else AtPriority(keys, p)
  {
    if keys == [] || k.priority <= keys[0].priority {
      AtPriorityCons(k, keys, p);
    } else {
      InsertStable(k, keys[1..], p);
      AtPriorityCons(keys[0], Insert(k, keys[1..]), p);
      AtPriorityCons(keys[0], keys[1..], p);
      assert keys == [keys[0]] + keys[1..];
    }
  }

  lemma {:induction false} SortSorts(keys: seq<ApiKeyInfo>)
    ensures ByPriority(Sort(keys))
    ensures forall x :: x in Sort(keys) <==> x in keys
    ensures forall p :: AtPriority(Sort(keys), p) == AtPriority(keys, p)
  {
    if keys != [] {
      SortSorts(keys[1..]);
      InsertSorts(keys[0], Sort(keys[1..]));
      InsertMembers(keys[0], Sort(keys[1..]));
      forall p { InsertStable(keys[0], Sort(keys[1..]), p); }
    }
  }

  /** The first key, and the later ones that allow failover. */
  function Candidates(sorted: seq<ApiKeyInfo>): seq<ApiKeyInfo> {
    if sorted == [] then []
    else
      var key := sorted[|sorted| - 1];
      Candidates(sorted[..|sorted| - 1]) + if |sorted| == 1 || key.failoverEnabled then [key] else []
  }

  /** The key at `p` goes before the one at `q`: smaller priority, or the same and given earlier. */
  ghost predicate Before(keys: seq<ApiKeyInfo>, p: nat, q: nat)
    requires p < |keys| && q < |keys|
  {
    keys[p].priority < keys[q].priority || (keys[p].priority == keys[q].priority && p < q)
  }

  /** The candidates, given by their positions among the keys. */
  ghost predicate RankedBy(candidates: seq<ApiKeyInfo>, keys: seq<ApiKeyInfo>, from: seq<nat>) {
    && |from| == |candidates|
    && (forall i | 0 <= i < |from| :: from[i] < |keys| && candidates[i] == keys[from[i]] && !keys[from[i]].revoked)
    && (forall i, j | 0 <= i < j < |from| :: Before(keys, from[i], from[j]))
    && (forall i | 0 < i < |from| :: keys[from[i]].failoverEnabled)
    && (forall p: nat | p < |keys| && !keys[p].revoked ::
          from != [] && (p == from[0] || Before(keys, from[0], p)) && (keys[p].failoverEnabled ==> p in from))
  }

  /**
   The active keys that are ever tried, each once and in order: first of all the one that goes
   before all others, then those of the others that allow failover.
   */
  ghost predicate Ranked(candidates: seq<ApiKeyInfo>, keys: seq<ApiKeyInfo>) {
    exists from :: RankedBy(candidates, keys, from)
  }

  // The same, followed by position.

  ghost predicate Within(keys: seq<ApiKeyInfo>, ps: seq<nat>) { forall i | 0 <= i < |ps| :: ps[i] < |keys| }

  ghost function At(keys: seq<ApiKeyInfo>, ps: seq<nat>): (r: seq<ApiKeyInfo>)
    requires Within(keys, ps)
    ensures |r| == |ps| && forall i | 0 <= i < |ps| :: r[i] == keys[ps[i]]
  {
    if ps == [] then [] else [keys[ps[0]]] + At(keys, ps[1..])
  }

  lemma AtSnoc(keys: seq<ApiKeyInfo>, ps: seq<nat>, p: nat)
    requires Within(keys, ps) && p < |keys|
    ensures Within(keys, ps + [p]) && At(keys, ps + [p]) == At(keys, ps) + [keys[p]]
  {
  }

  ghost function InsertAt(keys: seq<ApiKeyInfo>, p: nat, ps: seq<nat>): (r: seq<nat>)
    requires p < |keys| && Within(keys, ps)
    ensures Within(keys, r)
  {
    if ps == [] || keys[p].priority <= keys[ps[0]].priority then [p] + ps else [ps[0]] + InsertAt(keys, p, ps[1..])
  }

  /** The positions of the active keys from `i` on, sorted. */
  ghost function SortFrom(keys: seq<ApiKeyInfo>, i: nat): (r: seq<nat>)
    requires i <= |keys|
    ensures Within(keys, r)
    decreases |keys| - i
  {
    if i == |keys| then []
    else if keys[i].revoked then SortFrom(keys, i + 1)
    else InsertAt(keys, i, SortFrom(keys, i + 1))
  }

  lemma {:induction false} InsertIsAt(keys: seq<ApiKeyInfo>, p: nat, ps: seq<nat>)
    requires p < |keys| && Within(keys, ps)
    ensures Insert(keys[p], At(keys, ps)) == At(keys, InsertAt(keys, p, ps))
  {
    if ps != [] && keys[p].priority > keys[ps[0]].priority {
      InsertIsAt(keys, p, ps[1..]);
      assert At(keys, ps)[1..] == At(keys, ps[1..]);
      assert InsertAt(keys, p, ps)[1..] == InsertAt(keys, p, ps[1..]);
    } else {
      assert ([p] + ps)[1..] == ps;
    }
  }

  lemma {:induction false} SortIsAt(keys: seq<ApiKeyInfo>, i: nat)
    requires i <= |keys|
    ensures Sort(Active(keys[i..])) == At(keys, SortFrom(keys, i))
    decreases |keys| - i
  {
    if i < |keys| {
      SortIsAt(keys, i + 1);
      assert keys[i..][0] == keys[i] && keys[i..][1..] == keys[i + 1..];
      if keys[i].revoked {
        assert Active(keys[i..]) == Active(keys[i + 1..]);
      } else {
        assert Active(keys[i..])[1..] == Active(keys[i + 1..]);
        InsertIsAt(keys, i, SortFrom(keys, i + 1));
      }
    }
  }

  ghost predicate InOrder(keys: seq<ApiKeyInfo>, ps: seq<nat>)
    requires Within(keys, ps)
  {
    forall i, j | 0 <= i < j < |ps| :: Before(keys, ps[i], ps[j])
  }

  lemma {:induction false} InsertAtMembers(keys: seq<ApiKeyInfo>, p: nat, ps: seq<nat>)
    requires p < |keys| && Within(keys, ps)
    ensures forall q :: q in InsertAt(keys, p, ps) <==> q == p || q in ps
  {
    if ps != [] && keys[p].priority > keys[ps[0]].priority {
      InsertAtMembers(keys, p, ps[1..]);
    }
  }

  lemma {:induction false} InsertAtOrders(keys: seq<ApiKeyInfo>, p: nat, ps: seq<nat>)
    requires p < |keys| && Within(keys, ps) && InOrder(keys, ps) && forall q | q in ps :: p < q
    ensures InOrder(keys, InsertAt(keys, p, ps))
  {
    if ps != [] && keys[p].priority > keys[ps[0]].priority {
      var rest := InsertAt(keys, p, ps[1..]);
      assert forall q | q in ps[1..] :: q in ps;
      InsertAtOrders(keys, p, ps[1..]);
      InsertAtMembers(keys, p, ps[1..]);
      forall j | 0 <= j < |rest| ensures Before(keys, ps[0], rest[j]) {
        assert rest[j] in rest;
        if rest[j] != p {
          var k :| 0 <= k < |ps[1..]| && ps[1..][k] == rest[j];
          assert ps[k + 1] == rest[j];
        }
      }
    } else if ps != [] {
      forall j | 0 <= j < |ps| ensures Before(keys, p, ps[j]) {
        assert ps[j] in ps && (j > 0 ==> Before(keys, ps[0], ps[j]));
      }
    }
  }

  lemma {:induction false} SortFromOrders(keys: seq<ApiKeyInfo>, i: nat)
    requires i <= |keys|
    ensures InOrder(keys, SortFrom(keys, i))
    ensures forall q: nat :: q in SortFrom(keys, i) <==> i <= q < |keys| && !keys[q].revoked
    decreases |keys| - i
  {
    if i < |keys| {
      SortFromOrders(keys, i + 1);
      if !keys[i].revoked {
        InsertAtMembers(keys, i, SortFrom(keys, i + 1));
        InsertAtOrders(keys, i, SortFrom(keys, i + 1));
      }
    }
  }

  /** The positions `Candidates` keeps. */
  ghost function KeptAt(keys: seq<ApiKeyInfo>, ps: seq<nat>): (r: seq<nat>)
    requires Within(keys, ps)
    ensures Within(keys, r)
  {
    if ps == [] then []
    else
      var p := ps[|ps| - 1];
      KeptAt(keys, ps[..|ps| - 1]) + if |ps| == 1 || keys[p].failoverEnabled then [p] else []
  }

  lemma CandidatesAppend(sorted: seq<ApiKeyInfo>, key: ApiKeyInfo)
    ensures Candidates(sorted + [key]) == Candidates(sorted) + if sorted == [] || key.failoverEnabled then [key] else []
  {
    assert (sorted + [key])[..|sorted|] == sorted;
  }

  lemma KeptAppend(keys: seq<ApiKeyInfo>, ps: seq<nat>, p: nat)
    requires Within(keys, ps) && p < |keys|
    ensures KeptAt(keys, ps + [p]) == KeptAt(keys, ps) + if ps == [] || keys[p].failoverEnabled then [p] else []
  {
    assert (ps + [p])[..|ps|] == ps;
  }

  lemma {:induction false} CandidatesAreAt(keys: seq<ApiKeyInfo>, ps: seq<nat>)
    requires Within(keys, ps)
    ensures Candidates(At(keys, ps)) == At(keys, KeptAt(keys, ps))
  {
    if ps != [] {
      var init, p := ps[..|ps| - 1], ps[|ps| - 1];
      CandidatesAreAt(keys, init);
      assert ps == init + [p];
      CandidatesNext(keys, init, p);
    }
  }

  lemma CandidatesNext(keys: seq<ApiKeyInfo>, ps: seq<nat>, p: nat)
    requires Within(keys, ps) && p < |keys| && Candidates(At(keys, ps)) == At(keys, KeptAt(keys, ps))
    ensures Candidates(At(keys, ps + [p])) == At(keys, KeptAt(keys, ps + [p]))
  {
    AtSnoc(keys, ps, p);
    KeptAppend(keys, ps, p);
    CandidatesAppend(At(keys, ps), keys[p]);
    if ps == [] || keys[p].failoverEnabled {
      AtSnoc(keys, KeptAt(keys, ps), p);
    }
  }

  /** `r` keeps the first of the positions, and those of the others that allow failover, in order. */
  ghost predicate KeptFrom(keys: seq<ApiKeyInfo>, ps: seq<nat>, r: seq<nat>)
    requires Within(keys, ps) && Within(keys, r)
  {
    && InOrder(keys, r) && (forall q | q in r :: q in ps) && (ps != [] ==> r != [] && r[0] == ps[0])
    && (forall i | 0 < i < |r| :: keys[r[i]].failoverEnabled)
    && (forall q | q in ps && keys[q].failoverEnabled :: q in r)
  }

  lemma KeptFromNext(keys: seq<ApiKeyInfo>, ps: seq<nat>, r: seq<nat>, p: nat)
    requires Within(keys, ps) && Within(keys, r) && p < |keys| && InOrder(keys, ps + [p])
    requires KeptFrom(keys, ps, r) && (ps == [] ==> r == [])
    ensures KeptFrom(keys, ps + [p], r + if ps == [] || keys[p].failoverEnabled then [p] else [])
  {
    forall q | q in r ensures Before(keys, q, p) {
      var k :| 0 <= k < |ps| && ps[k] == q;
      assert (ps + [p])[k] == q && (ps + [p])[|ps|] == p;
    }
    if ps != [] && !keys[p].failoverEnabled {
      assert r + [] == r;
    }
  }

  lemma InOrderInit(keys: seq<ApiKeyInfo>, ps: seq<nat>, p: nat)
    requires Within(keys, ps + [p]) && InOrder(keys, ps + [p])
    ensures Within(keys, ps) && InOrder(keys, ps) && p < |keys|
  {
    assert forall i | 0 <= i < |ps| :: ps[i] == (ps + [p])[i];
    assert (ps + [p])[|ps|] == p;
  }

  lemma {:induction false} KeptInOrder(keys: seq<ApiKeyInfo>, ps: seq<nat>)
    requires Within(keys, ps) && InOrder(keys, ps)
    ensures KeptFrom(keys, ps, KeptAt(keys, ps))
  {
    if ps != [] {
      var init, p := ps[..|ps| - 1], ps[|ps| - 1];
      assert ps == init + [p];
      InOrderInit(keys, init, p);
      KeptInOrder(keys, init);
      KeptAppend(keys, init, p);
      KeptFromNext(keys, init, KeptAt(keys, init), p);
    }
  }

  lemma SelectedRanked(keys: seq<ApiKeyInfo>)
    ensures Ranked(Candidates(Sort(Active(keys))), keys)
  {
    var ps := SortFrom(keys, 0);
    assert keys[0..] == keys;
    SortIsAt(keys, 0);
    SortFromOrders(keys, 0);
    CandidatesAreAt(keys, ps);
    KeptInOrder(keys, ps);
    KeptRanked(keys, ps, KeptAt(keys, ps));
  }

  lemma KeptRanked(keys: seq<ApiKeyInfo>, ps: seq<nat>, r: seq<nat>)
    requires Within(keys, ps) && InOrder(keys, ps) && Within(keys, r)
    requires forall q: nat :: q in ps <==> q < |keys| && !keys[q].revoked
    requires KeptFrom(keys, ps, r)
    ensures RankedBy(At(keys, r), keys, r)
  {
    forall i | 0 <= i < |r| ensures !keys[r[i]].revoked {
      assert r[i] in r;
    }
    forall p: nat | p < |keys| && !keys[p].revoked ensures r != [] && (p == r[0] || Before(keys, r[0], p)) {
      var k :| 0 <= k < |ps| && ps[k] == p;
      assert k > 0 ==> Before(keys, ps[0], ps[k]);
    }
  }

  lemma CandidatesSnoc(sorted: seq<ApiKeyInfo>, i: nat)
    requires i < |sorted|
    ensures Candidates(sorted[..i + 1]) ==
              Candidates(sorted[..i]) + if i == 0 || sorted[i].failoverEnabled then [sorted[i]] else []
  {
    assert sorted[..i + 1] == sorted[..i] + [sorted[i]];
    CandidatesAppend(sorted[..i], sorted[i]);
  }

  /**
   The candidates are those to be tried, in the order in which they are (`Ranked`): by ascending
   priority, and in the order given among keys of the same priority.
   */
  method SelectKeys(keys: seq<ApiKeyInfo>) returns (candidates: seq<ApiKeyInfo>)
    ensures Ranked(candidates, keys)
    ensures candidates == Candidates(Sort(Active(keys)))
  {
    SelectedRanked(keys);
    var active := Active(keys);
    if |active| == 0 {
      return [];
    }
    var sorted := Sort(active);
    candidates := [];
    for i := 0 to |sorted|
      invariant candidates == Candidates(sorted[..i])
    {
      var key := sorted[i];
      CandidatesSnoc(sorted, i);
      if i == 0 {
        candidates := candidates + [key];
      } else if key.failoverEnabled {
        candidates := candidates + [key];
      }
    }
    assert sorted[..|sorted|] == sorted;
  }
}
