/** Re-encrypting every stored API key under a new master key, page by page, in one transaction. */
module RotateKeys {
  import opened NorushTypes
  import opened Vault

  const BATCH_SIZE := 500

  datatype RotateError = SameKey | BadMasterKey | CannotDecrypt(id: Id) | UpdateFailed

  datatype RotateResult = Rotated(reEncrypted: nat, dryRun: bool) | Threw(error: RotateError)

  datatype Row = Row(id: Id, blob: bytes)

  /** The `user_api_keys` table: the encrypted column by id. */
  class Database {
    var table: map<Id, bytes>
    /** Above every id in use. */
    var top: Id

    ghost predicate Valid()
      reads this
    {
      forall id | id in table :: id < top
    }

    constructor (table: map<Id, bytes>, top: Id)
      requires forall id | id in table :: id < top
      ensures Valid() && this.table == table
    {
      this.table, this.top := table, top;
    }

    /** SELECT ... WHERE id > lastId ORDER BY id ASC LIMIT limit. */
    method SelectPage(lastId: Option<Id>, limit: nat) returns (rows: seq<Row>)
      requires Valid() && limit > 0
      ensures PageAfter(rows, table, lastId, limit)
    {
      rows := [];
      var i := if lastId.Some? then lastId.value + 1 else 0;
      while i < top && |rows| < limit
        invariant |rows| <= limit && Climbing(rows)
        invariant forall q | q in rows :: q.id in table && table[q.id] == q.blob && After(q.id, lastId) && q.id < i
        invariant lastId.Some? ==> lastId.value < i
        invariant forall id | id in table && After(id, lastId) && id < i :: Row(id, table[id]) in rows
      {
        if i in table {
          rows := rows + [Row(i, table[i])];
        }
        i := i + 1;
      }
    }

    /** UPDATE ... WHERE id; the database may refuse. */
    method Update(id: Id, blob: bytes) returns (ok: bool)
      requires Valid() && id in table
      modifies `table
      ensures Valid()
      ensures table == if ok then old(table)[id := blob] else old(table)
    {
      ok := *;
      if ok {
        table := table[id := blob];
      }
    }
  }

  predicate After(id: Id, lastId: Option<Id>) { lastId.None? || id > lastId.value }

  ghost predicate Climbing(rows: seq<Row>) { forall i, j | 0 <= i < j < |rows| :: rows[i].id < rows[j].id }

  /** The first rows after `lastId`, in order; nothing is skipped. */
  ghost predicate PageAfter(rows: seq<Row>, table: map<Id, bytes>, lastId: Option<Id>, limit: nat) {
    && |rows| <= limit && Climbing(rows)
    && (forall q | q in rows :: q.id in table && table[q.id] == q.blob && After(q.id, lastId))
    && (forall id | id in table && After(id, lastId) && Row(id, table[id]) !in rows ::
          |rows| == limit && forall q | q in rows :: q.id < id)
  }

  ghost predicate Rising(ids: seq<Id>) { forall i, j | 0 <= i < j < |ids| :: ids[i] < ids[j] }

  /** Ids visited so far: ascending, so none twice, and all there are up to some point. */
  ghost predicate VisitedUpTo(visited: seq<Id>, table: map<Id, bytes>, lastId: Option<Id>) {
    && Rising(visited)
    && (forall id: Id :: id in visited <==> id in table && !After(id, lastId))
  }

  /** The visited rows decrypt under the new key to what they held under the old; the rest is untouched. */
  ghost predicate RotatedFor(
      c: Cipher, was: map<Id, bytes>, now: map<Id, bytes>, visited: seq<Id>, oldKey: bytes, newKey: bytes, dryRun: bool)
  {
    && now.Keys == was.Keys
    && (forall id | id in visited :: id in was && Decrypt(c, was[id], oldKey).Ok?
          && (!dryRun ==> Decrypt(c, now[id], newKey) == Decrypt(c, was[id], oldKey)))
    && (forall id | id in was && (dryRun || id !in visited) :: now[id] == was[id])
  }

  /** One row: validate under the old key; unless it is a dry run, write it under the new key. */
  method RotateRow(db: Database, c: Cipher, row: Row, oldKey: bytes, newKey: bytes, dryRun: bool)
    returns (error: Option<RotateError>)
    requires db.Valid() && Sealing(c) && |newKey| == 32 && row.id in db.table
    modifies db`table
    ensures db.Valid() && db.table.Keys == old(db.table).Keys
    ensures forall id | id in db.table && (id != row.id || dryRun) :: db.table[id] == old(db.table)[id]
    ensures error == Some(CannotDecrypt(row.id)) <==> Decrypt(c, row.blob, oldKey).Err?
    ensures error.Some? ==> error.value == CannotDecrypt(row.id) || (error.value == UpdateFailed && !dryRun)
    ensures error.None? && !dryRun ==> Decrypt(c, db.table[row.id], newKey) == Decrypt(c, row.blob, oldKey)
  {
    var plaintext := Decrypt(c, row.blob, oldKey);
    if plaintext.Err? {
      return Some(CannotDecrypt(row.id));
    }
    if !dryRun {
      assert |seq(IV_LENGTH, i => 0 as byte)| == IV_LENGTH;
      var iv: bytes :| |iv| == IV_LENGTH;
      DecryptedNonEmpty(c, row.blob, oldKey);
      RoundTrip(c, plaintext.value, newKey, iv);
      var ok := db.Update(row.id, Encrypt(c, plaintext.value, newKey, iv).value);
      if !ok {
        return Some(UpdateFailed);
      }
    }
    return None;
  }

  lemma RowRotated(
      c: Cipher, was: map<Id, bytes>, mid: map<Id, bytes>, now: map<Id, bytes>, visited: seq<Id>, row: Row, oldKey: bytes,
      newKey: bytes, dryRun: bool)
    requires RotatedFor(c, was, mid, visited, oldKey, newKey, dryRun)
    requires row.id in was && was[row.id] == row.blob && row.id !in visited && Decrypt(c, row.blob, oldKey).Ok?
    requires now.Keys == mid.Keys && forall id | id in mid && (id != row.id || dryRun) :: now[id] == mid[id]
    requires !dryRun ==> Decrypt(c, now[row.id], newKey) == Decrypt(c, row.blob, oldKey)
    ensures RotatedFor(c, was, now, visited + [row.id], oldKey, newKey, dryRun)
  {
  }

  /** The first row that does not decrypt, if that is what stopped the rotation. */
  ghost predicate StoppedAt(c: Cipher, was: map<Id, bytes>, oldKey: bytes, error: RotateError, dryRun: bool) {
    match error
    case CannotDecrypt(id) =>
      && id in was && Decrypt(c, was[id], oldKey).Err?
      && forall other | other in was && other < id :: Decrypt(c, was[other], oldKey).Ok?
    case UpdateFailed => !dryRun
    case _ => false
  }

  lemma StopsAtRow(
      c: Cipher, was: map<Id, bytes>, mid: map<Id, bytes>, visited: seq<Id>, row: Row, oldKey: bytes, newKey: bytes,
      dryRun: bool)
    requires RotatedFor(c, was, mid, visited, oldKey, newKey, dryRun)
    requires row.id in was && Decrypt(c, was[row.id], oldKey).Err?
    requires forall id | id in was && id < row.id :: id in visited
    ensures StoppedAt(c, was, oldKey, CannotDecrypt(row.id), dryRun)
  {
  }

  /** Within a page: what was visited before it, then the first `i` rows of it. */
  function Ids(rows: seq<Row>): seq<Id> {
    if rows == [] then [] else Ids(rows[..|rows| - 1]) + [rows[|rows| - 1].id]
  }

  lemma {:induction false} IdsAre(rows: seq<Row>)
    ensures |Ids(rows)| == |rows| && forall i | 0 <= i < |rows| :: Ids(rows)[i] == rows[i].id
  {
    if rows != [] {
      IdsAre(rows[..|rows| - 1]);
    }
  }

  lemma IdsSnoc(rows: seq<Row>, i: nat, visited: seq<Id>, seen: seq<Id>)
    requires i < |rows| && seen == visited + Ids(rows[..i])
    ensures seen + [rows[i].id] == visited + Ids(rows[..i + 1])
  {
    assert rows[..i + 1][..i] == rows[..i];
  }

  /** The ids of the first rows of a climbing list are the ids below the next one. */
  lemma IdsBelow(rows: seq<Row>, i: nat)
    requires Climbing(rows) && i < |rows|
    ensures forall q | q in rows :: q.id in Ids(rows[..i]) <==> q.id < rows[i].id
  {
    IdsAre(rows[..i]);
    forall q | q in rows ensures q.id in Ids(rows[..i]) <==> q.id < rows[i].id {
      var k :| 0 <= k < |rows| && rows[k] == q;
      if k < i {
        assert Ids(rows[..i])[k] == q.id;
      }
    }
  }

  /** Before the i-th row of a page, everything below it has been visited and nothing from it on. */
  lemma PageProgress(
      visited: seq<Id>, was: map<Id, bytes>, now: map<Id, bytes>, lastId: Option<Id>, rows: seq<Row>, limit: nat, i: nat,
      seen: seq<Id>)
    requires VisitedUpTo(visited, was, lastId) && now.Keys == was.Keys
    requires PageAfter(rows, now, lastId, limit) && i < |rows| && seen == visited + Ids(rows[..i])
    ensures rows[i].id in now && now[rows[i].id] == rows[i].blob
    ensures rows[i].id !in seen && rows[i].id !in visited
    ensures forall id | id in was && id < rows[i].id :: id in seen
  {
    IdsBelow(rows, i);
    assert rows[i] in rows;
    forall id | id in was && id < rows[i].id && After(id, lastId) ensures id in Ids(rows[..i]) {
      assert Row(id, now[id]) in rows;
    }
  }

  /** Ids taken up to some point, and ids after it, rise together. */
  lemma RiseOn(visited: seq<Id>, more: seq<Id>, lastId: Option<Id>)
    requires Rising(visited) && Rising(more)
    requires forall id | id in visited :: !After(id, lastId)
    requires forall id | id in more :: After(id, lastId)
    ensures Rising(visited + more)
  {
    var all := visited + more;
    forall i, j | 0 <= i < j < |all| ensures all[i] < all[j] {
      if i < |visited| <= j {
        assert all[i] in visited && all[j] in more;
      }
    }
  }

  /** The ids of a page are those after the last one, up to the page's own last. */
  lemma PageIds(now: map<Id, bytes>, lastId: Option<Id>, rows: seq<Row>, limit: nat, id: Id)
    requires PageAfter(rows, now, lastId, limit) && rows != []
    ensures id in Ids(rows) <==> id in now && After(id, lastId) && id <= rows[|rows| - 1].id
  {
    IdsAre(rows);
    if id in Ids(rows) {
      var i :| 0 <= i < |rows| && Ids(rows)[i] == id;
      assert rows[i] in rows;
    }
    if id in now && After(id, lastId) && id <= rows[|rows| - 1].id {
      assert rows[|rows| - 1] in rows;
      assert Row(id, now[id]) in rows;
    }
  }

  lemma PageDone(visited: seq<Id>, was: map<Id, bytes>, now: map<Id, bytes>, lastId: Option<Id>, rows: seq<Row>, limit: nat)
    requires VisitedUpTo(visited, was, lastId) && now.Keys == was.Keys
    requires PageAfter(rows, now, lastId, limit) && rows != []
    ensures VisitedUpTo(visited + Ids(rows), was, Some(rows[|rows| - 1].id))
  {
    var last := rows[|rows| - 1];
    forall id: Id ensures id in Ids(rows) <==> id in was && After(id, lastId) && id <= last.id {
      PageIds(now, lastId, rows, limit, id);
    }
    IdsAre(rows);
    RiseOn(visited, Ids(rows), lastId);
    assert last in rows && After(last.id, lastId);
  }

  /** One page. */
  method RotatePage(
      db: Database, c: Cipher, rows: seq<Row>, oldKey: bytes, newKey: bytes, dryRun: bool, ghost was: map<Id, bytes>,
      ghost visited: seq<Id>, ghost lastId: Option<Id>)
    returns (error: Option<RotateError>)
    requires db.Valid() && Sealing(c) && |newKey| == 32
    requires RotatedFor(c, was, db.table, visited, oldKey, newKey, dryRun) && VisitedUpTo(visited, was, lastId)
    requires PageAfter(rows, db.table, lastId, BATCH_SIZE)
    modifies db`table
    ensures db.Valid()
    ensures error.None? ==> RotatedFor(c, was, db.table, visited + Ids(rows), oldKey, newKey, dryRun)
    ensures error.Some? ==> StoppedAt(c, was, oldKey, error.value, dryRun)
  {
    ghost var fetched, seen := db.table, visited;
    for i := 0 to |rows|
      invariant db.Valid() && seen == visited + Ids(rows[..i])
      invariant RotatedFor(c, was, db.table, seen, oldKey, newKey, dryRun)
    {
      ghost var mid := db.table;
      PageProgress(visited, was, fetched, lastId, rows, BATCH_SIZE, i, seen);
      error := RotateRow(db, c, rows[i], oldKey, newKey, dryRun);
      if error.Some? {
        if error.value.CannotDecrypt? {
          StopsAtRow(c, was, mid, seen, rows[i], oldKey, newKey, dryRun);
        }
        return;
      }
      IdsSnoc(rows, i, visited, seen);
      RowRotated(c, was, mid, db.table, seen, rows[i], oldKey, newKey, dryRun);
      seen := seen + [rows[i].id];
    }
    assert rows[..|rows|] == rows;
    error := None;
  }

  function Unvisited(table: map<Id, bytes>, lastId: Option<Id>): set<Id> {
    set id | id in table && After(id, lastId)
  }

  /** The body of the transaction. */
  method RotateAll(db: Database, c: Cipher, oldKey: bytes, newKey: bytes, dryRun: bool)
    returns (r: RotateResult, ghost visited: seq<Id>)
    requires db.Valid() && Sealing(c) && |newKey| == 32
    modifies db`table
    ensures db.Valid()
    ensures r.Rotated? ==>
              && r.dryRun == dryRun && r.reEncrypted == |visited|
              && RotatedFor(c, old(db.table), db.table, visited, oldKey, newKey, dryRun)
              && VisitsAll(visited, old(db.table))
    ensures r.Threw? ==> StoppedAt(c, old(db.table), oldKey, r.error, dryRun)
  {
    var lastId: Option<Id> := None;
    var reEncrypted := 0;
    visited := [];
    ghost var was := db.table;
    while true
      invariant db.Valid() && reEncrypted == |visited|
      invariant RotatedFor(c, was, db.table, visited, oldKey, newKey, dryRun) && VisitedUpTo(visited, was, lastId)
      decreases Unvisited(was, lastId)
    {
      var rows := db.SelectPage(lastId, BATCH_SIZE);
      if |rows| == 0 {
        LastPage(visited, was, db.table, lastId);
        return Rotated(reEncrypted, dryRun), visited;
      }
      ghost var fetched := db.table;
      var error := RotatePage(db, c, rows, oldKey, newKey, dryRun, was, visited, lastId);
      if error.Some? {
        return Threw(error.value), visited;
      }
      PageDone(visited, was, fetched, lastId, rows, BATCH_SIZE);
      IdsAre(rows);
      FewerLeft(was, fetched, lastId, rows);
      visited := visited + Ids(rows);
      reEncrypted := reEncrypted + |rows|;
      lastId := Some(rows[|rows| - 1].id);
    }
  }

  lemma FewerLeft(was: map<Id, bytes>, fetched: map<Id, bytes>, lastId: Option<Id>, rows: seq<Row>)
    requires fetched.Keys == was.Keys && PageAfter(rows, fetched, lastId, BATCH_SIZE) && rows != []
    ensures Unvisited(was, Some(rows[|rows| - 1].id)) < Unvisited(was, lastId)
  {
    var last := rows[|rows| - 1];
    assert last in rows;
    assert last.id in Unvisited(was, lastId) && last.id !in Unvisited(was, Some(last.id));
  }

  lemma LastPage(visited: seq<Id>, was: map<Id, bytes>, now: map<Id, bytes>, lastId: Option<Id>)
    requires VisitedUpTo(visited, was, lastId) && now.Keys == was.Keys && PageAfter([], now, lastId, BATCH_SIZE)
    ensures VisitsAll(visited, was)
  {
  }

  /** Every row exactly once. */
  ghost predicate VisitsAll(visited: seq<Id>, table: map<Id, bytes>) {
    && (forall i, j | 0 <= i < j < |visited| :: visited[i] != visited[j])
    && (forall id :: id in visited <==> id in table)
  }

  function IdSet(s: seq<Id>): set<Id> { set id | id in s }

  lemma CountsRows(visited: seq<Id>, table: map<Id, bytes>)
    requires VisitsAll(visited, table)
    ensures |visited| == |table|
  {
    DistinctSize(visited);
    assert IdSet(visited) == table.Keys;
    assert |table.Keys| == |table|;
  }

  lemma {:induction false} DistinctSize(s: seq<Id>)
    requires forall i, j | 0 <= i < j < |s| :: s[i] != s[j]
    ensures |IdSet(s)| == |s|
  {
    if s != [] {
      var init, x := s[..|s| - 1], s[|s| - 1];
      DistinctSize(init);
      assert s == init + [x];
      assert IdSet(s) == IdSet(init) + {x};
      assert x !in IdSet(init);
    }
  }

  /**
   Rotate every key. On success each row decrypts under the new key to what it decrypted to under
   the old one, and the count is the number of rows. On any failure, and on a dry run, the table
   is unchanged. A dry run succeeds exactly when every row decrypts under the old key.
   */
  method Rotate(db: Database, c: Cipher, hkdf: string -> bytes, oldKey: string, newKey: string, dryRun: bool)
    returns (r: RotateResult)
    requires db.Valid() && Sealing(c) && forall s :: |hkdf(s)| == 32
    modifies db`table
    ensures db.Valid()
    ensures r.Threw? || dryRun ==> db.table == old(db.table)
    ensures r == Threw(SameKey) <==> oldKey == newKey
    ensures r == Threw(BadMasterKey) <==> oldKey != newKey && (oldKey == "" || newKey == "")
    ensures r.Rotated? ==>
              && r.dryRun == dryRun && r.reEncrypted == |db.table| && db.table.Keys == old(db.table).Keys
              && var k, k' := DeriveKey(hkdf, oldKey).value, DeriveKey(hkdf, newKey).value;
                forall id | id in db.table ::
                  && Decrypt(c, old(db.table)[id], k).Ok?
                  && (!dryRun ==> Decrypt(c, db.table[id], k') == Decrypt(c, old(db.table)[id], k))
    ensures r.Threw? && oldKey != newKey && oldKey != "" && newKey != "" ==>
              StoppedAt(c, old(db.table), DeriveKey(hkdf, oldKey).value, r.error, dryRun)
  {
    if oldKey == newKey {
      return Threw(SameKey);
    }
    var oldDerived, newDerived := DeriveKey(hkdf, oldKey), DeriveKey(hkdf, newKey);
    if oldDerived.Err? || newDerived.Err? {
      return Threw(BadMasterKey);
    }
    if IsHexKey(newKey) { FromHexLength(newKey); }
    var begun := db.table;
    ghost var visited;
    r, visited := RotateAll(db, c, oldDerived.value, newDerived.value, dryRun);
    if r.Threw? {
      db.table := begun;
      return;
    }
    CountsRows(visited, begun);
    assert |db.table| == |db.table.Keys| == |begun.Keys|;
    if dryRun {
      assert db.table == begun;
    }
  }

  /**
   "Old key and new key must be different" compares the strings. Two hex keys that differ only in
   the case of their digits pass, and stand for the same key; no other two hex keys do.
   */
  lemma SameKeyIff(hkdf: string -> bytes, oldKey: string, newKey: string)
    requires IsHexKey(oldKey) && IsHexKey(newKey)
    ensures DeriveKey(hkdf, oldKey) == DeriveKey(hkdf, newKey) <==>
              forall i | 0 <= i < 64 :: Nibble(oldKey[i]) == Nibble(newKey[i])
  {
    SameHexIff(oldKey, newKey);
  }

  function Repeat(ch: char, n: nat): string { seq(n, i => ch) }

  /** Two such keys: 64 times 'a', and 64 times 'A'. */
  lemma DifferentStringsSameKey(hkdf: string -> bytes)
    ensures Repeat('a', 64) != Repeat('A', 64)
    ensures IsHexKey(Repeat('a', 64)) && IsHexKey(Repeat('A', 64))
    ensures DeriveKey(hkdf, Repeat('a', 64)) == DeriveKey(hkdf, Repeat('A', 64))
  {
    assert Repeat('a', 64)[0] != Repeat('A', 64)[0];
    SameKeyIff(hkdf, Repeat('a', 64), Repeat('A', 64));
  }
}
