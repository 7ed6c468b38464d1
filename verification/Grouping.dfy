/** Grouping queued requests by (provider, model, userId), through a joined string key. */
module Grouping {
  import opened NorushTypes

  const SEP := "::"

  function GroupKey(provider: ProviderName, model: string, userId: string): string {
    ProviderKey(provider) + SEP + model + SEP + userId
  }

  function KeyOf(q: Request): string { GroupKey(q.provider, q.model, q.userId) }

  /** The requests with a given key, in order. */
  function ByKey(rows: seq<Request>, key: string): seq<Request> {
    if rows == [] then []
    else ByKey(rows[..|rows| - 1], key) + if KeyOf(rows[|rows| - 1]) == key then [rows[|rows| - 1]] else []
  }

  ghost predicate NoDuplicates(order: seq<string>) {
    forall i, j | 0 <= i < j < |order| :: order[i] != order[j]
  }

  ghost predicate FirstAt(rows: seq<Request>, k: nat, key: string) {
    k < |rows| && KeyOf(rows[k]) == key && forall j | 0 <= j < k :: KeyOf(rows[j]) != key
  }

  /** The keys are in the order in which they first appear. */
  ghost predicate ByFirstAppearance(rows: seq<Request>, order: seq<string>) {
    forall i, j, m: nat, n: nat | 0 <= i < j < |order| && FirstAt(rows, m, order[i]) && FirstAt(rows, n, order[j]) :: m < n
  }

  /** The groups of a map in insertion order. */
  ghost predicate GroupsOf(rows: seq<Request>, order: seq<string>, groups: map<string, seq<Request>>) {
    && NoDuplicates(order) && ByFirstAppearance(rows, order) && AllKeysIn(rows, order)
    && (forall k :: k in groups <==> k in order)
    && EachByKey(rows, groups)
  }

  ghost predicate AllKeysIn(rows: seq<Request>, order: seq<string>) { forall q | q in rows :: KeyOf(q) in order }

  method GroupRequests(rows: seq<Request>) returns (order: seq<string>, groups: map<string, seq<Request>>)
    ensures GroupsOf(rows, order, groups)
  {
    order, groups := [], map[];
    for i := 0 to |rows|
      invariant GroupsOf(rows[..i], order, groups)
    {
      var req := rows[i];
      var key := KeyOf(req);
      TakeNext(rows, i);
      if key in groups {
        GroupJoined(rows[..i], req, order, groups, key);
        groups := groups[key := groups[key] + [req]];
      } else {
        GroupBegun(rows[..i], req, order, groups, key);
        order := order + [key];
        groups := groups[key := [req]];
      }
    }
    assert rows[..|rows|] == rows;
  }

  lemma TakeNext(rows: seq<Request>, i: nat)
    requires i < |rows|
    ensures rows[..i + 1] == rows[..i] + [rows[i]]
  {
  }

  lemma GroupJoined(
      rows: seq<Request>, q: Request, order: seq<string>, groups: map<string, seq<Request>>, key: string)
    requires GroupsOf(rows, order, groups) && key == KeyOf(q) && key in groups
    ensures GroupsOf(rows + [q], order, groups[key := groups[key] + [q]])
  {
    OrderAppears(rows, order, groups);
    FirstsSnoc(rows, q, order);
    GroupGrown(rows, q, groups, key, groups[key] + [q]);
    SameKeys(groups, order, key, groups[key] + [q]);
    KeysIn(rows, q, order, order);
  }

  lemma GroupBegun(
      rows: seq<Request>, q: Request, order: seq<string>, groups: map<string, seq<Request>>, key: string)
    requires GroupsOf(rows, order, groups) && key == KeyOf(q) && key !in groups
    ensures GroupsOf(rows + [q], order + [key], groups[key := [q]])
  {
    NoneByKey(rows, key);
    OrderAppears(rows, order, groups);
    FirstsSnoc(rows, q, order);
    GroupGrown(rows, q, groups, key, [q]);
    SameKeys(groups, order, key, [q]);
    NoDuplicatesSnoc(order, key);
    KeysIn(rows, q, order, order + [key]);
  }

  lemma KeysIn(rows: seq<Request>, q: Request, order: seq<string>, more: seq<string>)
    requires AllKeysIn(rows, order) && order <= more && KeyOf(q) in more
    ensures AllKeysIn(rows + [q], more)
  {
    assert forall k | k in order :: k in more;
  }

  ghost predicate EachByKey(rows: seq<Request>, groups: map<string, seq<Request>>) {
    forall k | k in groups :: groups[k] == ByKey(rows, k) && groups[k] != []
  }

  lemma GroupGrown(
      rows: seq<Request>, q: Request, groups: map<string, seq<Request>>, key: string, group: seq<Request>)
    requires EachByKey(rows, groups) && key == KeyOf(q) && group == ByKey(rows, key) + [q]
    ensures EachByKey(rows + [q], groups[key := group])
  {
    var grown := groups[key := group];
    forall k | k in grown ensures grown[k] == ByKey(rows + [q], k) && grown[k] != [] {
      ByKeyAppend(rows, q, k);
    }
  }

  lemma SameKeys(groups: map<string, seq<Request>>, order: seq<string>, key: string, group: seq<Request>)
    requires forall k :: k in groups <==> k in order
    ensures key in order ==> forall k :: k in groups[key := group] <==> k in order
    ensures forall k :: k in groups[key := group] <==> k in order + [key]
  {
  }

  lemma NoDuplicatesSnoc(order: seq<string>, key: string)
    requires NoDuplicates(order) && key !in order
    ensures NoDuplicates(order + [key])
  {
  }

  lemma ByKeyAppend(rows: seq<Request>, q: Request, key: string)
    ensures ByKey(rows + [q], key) == ByKey(rows, key) + if KeyOf(q) == key then [q] else []
  {
    assert (rows + [q])[..|rows|] == rows;
  }

  lemma OrderAppears(rows: seq<Request>, order: seq<string>, groups: map<string, seq<Request>>)
    requires GroupsOf(rows, order, groups)
    ensures forall k | k in order :: Appears(rows, k)
  {
    forall k | k in order ensures Appears(rows, k) {
      ByKeyMembers(rows, k);
      assert ByKey(rows, k)[0] in ByKey(rows, k);
    }
  }

  ghost predicate Appears(rows: seq<Request>, key: string) { exists q :: q in rows && KeyOf(q) == key }

  lemma FirstsSnoc(rows: seq<Request>, q: Request, order: seq<string>)
    requires ByFirstAppearance(rows, order)
    requires AllKeysIn(rows, order)
    requires forall k | k in order :: Appears(rows, k)
    ensures ByFirstAppearance(rows + [q], if KeyOf(q) in order then order else order + [KeyOf(q)])
  {
    var key, more := KeyOf(q), rows + [q];
    var next := if key in order then order else order + [key];
    forall i, j, m: nat, n: nat | 0 <= i < j < |next| && FirstAt(more, m, next[i]) && FirstAt(more, n, next[j])
      ensures m < n
    {
      FirstEarlier(rows, q, m, next[i]);
      if next[j] in order {
        FirstEarlier(rows, q, n, next[j]);
      } else {
        assert forall k | 0 <= k < |rows| :: rows[k] in rows;
      }
    }
  }

  /** A key that had appeared before keeps its first appearance. */
  lemma FirstEarlier(rows: seq<Request>, q: Request, m: nat, key: string)
    requires FirstAt(rows + [q], m, key) && Appears(rows, key)
    ensures FirstAt(rows, m, key)
  {
    var r :| r in rows && KeyOf(r) == key;
    var j :| 0 <= j < |rows| && rows[j] == r;
    assert forall k | 0 <= k < |rows| :: rows[k] == (rows + [q])[k];
  }

  lemma {:induction false} NoneByKey(rows: seq<Request>, key: string)
    requires forall q | q in rows :: KeyOf(q) != key
    ensures ByKey(rows, key) == []
  {
    if rows != [] {
      NoneByKey(rows[..|rows| - 1], key);
    }
  }

  lemma {:induction false} ByKeyMembers(rows: seq<Request>, key: string)
    ensures forall q :: q in ByKey(rows, key) <==> q in rows && KeyOf(q) == key
  {
    if rows != [] {
      ByKeyMembers(rows[..|rows| - 1], key);
      assert rows == rows[..|rows| - 1] + [rows[|rows| - 1]];
    }
  }

  // -- The groups partition the input ------------------------------------------------------

  function Gather(rows: seq<Request>, order: seq<string>): seq<Request> {
    if order == [] then [] else Gather(rows, order[..|order| - 1]) + ByKey(rows, order[|order| - 1])
  }

  ghost function KeyedIn(rows: seq<Request>, keys: set<string>): seq<Request> {
    if rows == [] then []
    else
      KeyedIn(rows[..|rows| - 1], keys) + if KeyOf(rows[|rows| - 1]) in keys then [rows[|rows| - 1]] else []
  }

  lemma {:induction false} AddKey(rows: seq<Request>, keys: set<string>, key: string)
    requires key !in keys
    ensures multiset(KeyedIn(rows, keys + {key})) == multiset(KeyedIn(rows, keys)) + multiset(ByKey(rows, key))
  {
    if rows != [] {
      AddKey(rows[..|rows| - 1], keys, key);
    }
  }

  lemma {:induction false} AllKeyed(rows: seq<Request>, keys: set<string>)
    requires forall q | q in rows :: KeyOf(q) in keys
    ensures KeyedIn(rows, keys) == rows
  {
    if rows != [] {
      var init, q := rows[..|rows| - 1], rows[|rows| - 1];
      assert rows == init + [q] && q in rows;
      AllKeyed(init, keys);
      assert KeyedIn(rows, keys) == KeyedIn(init, keys) + [q];
    }
  }

  lemma {:induction false} GatherIsKeyed(rows: seq<Request>, order: seq<string>)
    requires NoDuplicates(order)
    ensures multiset(Gather(rows, order)) == multiset(KeyedIn(rows, (set k | k in order)))
  {
    if order == [] {
      NoneKeyed(rows);
      assert (set k | k in order) == {};
    } else {
      var init, key := order[..|order| - 1], order[|order| - 1];
      GatherIsKeyed(rows, init);
      AddKey(rows, (set k | k in init), key);
      assert (set k | k in order) == (set k | k in init) + {key};
    }
  }

  lemma {:induction false} NoneKeyed(rows: seq<Request>)
    ensures KeyedIn(rows, {}) == []
  {
    if rows != [] {
      NoneKeyed(rows[..|rows| - 1]);
    }
  }

  /** Grouping loses, duplicates and invents nothing; within a group the order is the input's. */
  lemma GroupingPartitions(rows: seq<Request>, order: seq<string>, groups: map<string, seq<Request>>)
    requires GroupsOf(rows, order, groups)
    ensures multiset(Gather(rows, order)) == multiset(rows)
  {
    GatherIsKeyed(rows, order);
    AllKeyed(rows, (set k | k in order));
  }

  // -- When the joined key tells users apart ------------------------------------------------

  ghost predicate EndsWith(s: string, suffix: string) {
    |suffix| <= |s| && s[|s| - |suffix|..] == suffix
  }

  /** One user id can be mistaken for the other's tail: it is ":" + u, or ends with "::" + u. */
  ghost predicate Shadows(v: string, u: string) {
    v == ":" + u || EndsWith(v, SEP + u)
  }

  /** Two users' requests never share a key, whatever the models. */
  ghost predicate KeysApart(u: string, v: string) {
    forall p, m, q, n :: GroupKey(p, m, u) == GroupKey(q, n, v) ==> p == q && m == n && u == v
  }

  lemma ProviderApart(p: ProviderName, m: string, u: string, q: ProviderName, n: string, v: string)
    requires GroupKey(p, m, u) == GroupKey(q, n, v)
    ensures p == q && m + SEP + u == n + SEP + v
  {
    var s, t := GroupKey(p, m, u), GroupKey(q, n, v);
    assert s[0] == ProviderKey(p)[0] && t[0] == ProviderKey(q)[0];
    assert s[8..] == m + SEP + u && t[8..] == n + SEP + v;
  }

  lemma CollisionShadows(m: string, u: string, n: string, v: string)
    requires m + SEP + u == n + SEP + v && |u| < |v|
    ensures Shadows(v, u)
  {
    var s := m + SEP + u;
    assert v == s[|n| + 2..];
    if |v| == |u| + 1 {
      assert v[0] == s[|m| + 1] == ':';
      assert v[1..] == s[|m| + 2..] == u;
      assert v == ":" + u;
    } else {
      assert v[|v| - |u| - 2..] == s[|m|..] == SEP + u;
    }
  }

  lemma ShadowCollides(u: string, v: string)
    requires Shadows(v, u)
    ensures !KeysApart(u, v) && !KeysApart(v, u)
  {
    if v == ":" + u {
      assert ":" + SEP + u == "" + SEP + v;
      Collide(":", u, "", v);
    } else {
      var y := v[..|v| - |u| - 2];
      assert v == y + (SEP + u);
      assert (SEP + y) + SEP + u == "" + SEP + v;
      Collide(SEP + y, u, "", v);
    }
  }

  lemma Collide(m: string, u: string, n: string, v: string)
    requires m + SEP + u == n + SEP + v && u != v
    ensures !KeysApart(u, v) && !KeysApart(v, u)
  {
    assert GroupKey(Claude, m, u) == "claude" + SEP + (m + SEP + u);
    assert GroupKey(Claude, n, v) == "claude" + SEP + (n + SEP + v);
    assert GroupKey(Claude, m, u) == GroupKey(Claude, n, v);
  }

  /** The joined key separates two users exactly when neither id shadows the other. */
  lemma KeysApartIff(u: string, v: string)
    ensures u != v ==> (KeysApart(u, v) <==> !Shadows(u, v) && !Shadows(v, u))
    ensures KeysApart(u, u)
  {
    if Shadows(v, u) { ShadowCollides(u, v); }
    if Shadows(u, v) { ShadowCollides(v, u); }
    forall p, m, q, n | GroupKey(p, m, u) == GroupKey(q, n, v)
      ensures p == q && (u == v ==> m == n) && (u != v ==> Shadows(u, v) || Shadows(v, u))
    {
      ProviderApart(p, m, u, q, n, v);
      if |u| == |v| {
        var s := m + SEP + u;
        assert m == s[..|m|] && n == s[..|n|] && u == s[|m| + 2..] && v == s[|n| + 2..];
      } else if |u| < |v| {
        CollisionShadows(m, u, n, v);
      } else {
        CollisionShadows(n, v, m, u);
      }
    }
    SameUserApart(u);
  }

  lemma SameUserApart(u: string)
    ensures KeysApart(u, u)
  {
    forall p, m, q, n | GroupKey(p, m, u) == GroupKey(q, n, u) ensures p == q && m == n {
      ProviderApart(p, m, u, q, n, u);
      var s := m + SEP + u;
      assert m == s[..|m|] && n == s[..|n|];
    }
  }

  /** The practical condition: user ids without ':' (models may contain it) never share a key. */
  lemma PlainUsersApart(u: string, v: string)
    requires ':' !in u && ':' !in v
    ensures KeysApart(u, v)
  {
    KeysApartIff(u, v);
    ShadowHasColon(u, v);
    ShadowHasColon(v, u);
  }

  lemma ShadowHasColon(v: string, u: string)
    ensures Shadows(v, u) ==> ':' in v
  {
    if Shadows(v, u) {
      assert v[|v| - |u| - 1] == ':';
    }
  }

  /** Then every group holds requests of one provider, one model and one user. */
  lemma GroupsUniform(rows: seq<Request>, key: string, a: Request, b: Request)
    requires forall q, r | q in rows && r in rows :: KeysApart(q.userId, r.userId)
    requires a in ByKey(rows, key) && b in ByKey(rows, key)
    ensures a.provider == b.provider && a.model == b.model && a.userId == b.userId
  {
    ByKeyMembers(rows, key);
    assert KeysApart(a.userId, b.userId);
  }

  lemma SameKeySameProvider(a: Request, b: Request)
    requires KeyOf(a) == KeyOf(b)
    ensures a.provider == b.provider
  {
    ProviderApart(a.provider, a.model, a.userId, b.provider, b.model, b.userId);
  }
}
