/**
 * The owner-scoped table operations that every entity of backend/crud/crud.py repeats:
 * the `filter(T.id == id, T.user_id == user_id).first()` lookup and the
 * `filter(T.user_id == user_id).offset(skip).limit(limit).all()` listing.
 */
module Tables {
  import opened Wrappers
  import opened Records

  /** A table: rows by primary key. */
  type Table<F> = map<Id, Row<F>>

  /** Every row is stored under its own id. */
  ghost predicate Keyed<F>(t: Table<F>) {
    forall k :: k in t ==> t[k].id == k
  }

  /** Every row has an owner (`user_id` is NOT NULL everywhere but in categories). */
  ghost predicate Owned<F>(t: Table<F>) {
    forall k :: k in t ==> t[k].userId.Some?
  }

  /** Every id in use is positive and below `next`, the next id to hand out. */
  ghost predicate Below<F>(t: Table<F>, next: Id) {
    forall k :: k in t ==> 0 < k < next
  }

  /** Row `id` exists and belongs to `uid`. */
  predicate OwnedBy<F>(t: Table<F>, id: Id, uid: Id) {
    id in t && t[id].userId == Some(uid)
  }

  /** Row `id` exists and belongs to `uid` or to nobody (a system row). */
  predicate VisibleTo<F>(t: Table<F>, id: Id, uid: Id) {
    id in t && (t[id].userId == Some(uid) || t[id].userId.None?)
  }

  /** The lookup `filter(T.id == id, T.user_id == uid).first()`. */
  function Find<F>(t: Table<F>, id: Id, uid: Id): Option<Row<F>> {
    if OwnedBy(t, id, uid) then Some(t[id]) else None
  }

  /** The lookup that also admits rows with no owner (categories). */
  function FindVisible<F>(t: Table<F>, id: Id, uid: Id): Option<Row<F>> {
    if VisibleTo(t, id, uid) then Some(t[id]) else None
  }

  /** Ids of the rows `filter(T.user_id == uid)` selects. */
  function OwnedIds<F>(t: Table<F>, uid: Id): set<Id> {
    set k | k in t && t[k].userId == Some(uid)
  }

  /** Ids of the rows `filter((T.user_id == uid) | (T.user_id.is_(None)))` selects. */
  function VisibleIds<F>(t: Table<F>, uid: Id): set<Id> {
    set k | k in t && (t[k].userId == Some(uid) || t[k].userId.None?)
  }

  /**
   * How many of `n` selected rows `.offset(skip).limit(limit)` returns, with SQLite's
   * reading of the clauses: a negative offset skips nothing, a negative limit sets no bound.
   */
  function Window(n: nat, skip: int, limit: int): (w: nat)
    ensures w <= n
    ensures limit >= 0 ==> w <= limit
    ensures skip <= 0 && (limit < 0 || n <= limit) ==> w == n
    ensures skip >= n ==> w == 0
  {
    var rest := if skip <= 0 then n else if skip >= n then 0 else n - skip;
    if limit < 0 || rest <= limit then rest else limit
  }

  /**
   * `r` is a possible answer of the listing over the selected ids: as many rows as the
   * window allows, each one a selected row as stored, none twice. No order is promised (the
   * query has no ORDER BY), so which rows the offset skips is left open.
   */
  ghost predicate IsPage<F>(t: Table<F>, ids: set<Id>, skip: int, limit: int, r: seq<Row<F>>) {
    && |r| == Window(|ids|, skip, limit)
    && (forall i :: 0 <= i < |r| ==> r[i].id in ids && r[i].id in t && r[i] == t[r[i].id])
    && (forall i, j :: 0 <= i < j < |r| ==> r[i].id != r[j].id)
  }

  /** A non-empty set of ids has a member to pick. */
  lemma Inhabited(s: set<Id>)
    requires s != {}
    ensures exists k :: k in s
  {
    if forall k :: k !in s {
      assert false;
    }
  }

  /** OFFSET: drops `offset` of the selected ids, or all of them when there are fewer. */
  method Skip(ids: set<Id>, offset: nat) returns (pool: set<Id>)
    ensures pool <= ids
    ensures |pool| == if offset >= |ids| then 0 else |ids| - offset
  {
    pool := ids;
    var dropped := 0;
    while dropped < offset && pool != {}
      invariant pool <= ids && |pool| + dropped == |ids| && dropped <= offset
      decreases |pool|
    {
      Inhabited(pool);
      var k :| k in pool;
      pool := pool - {k};
      dropped := dropped + 1;
    }
  }

  /** LIMIT: keeps the rows of `limit` of the remaining ids (all of them when `limit` is negative). */
  method Take<F>(t: Table<F>, pool: set<Id>, limit: int) returns (r: seq<Row<F>>)
    requires Keyed(t) && pool <= t.Keys
    ensures |r| == if limit < 0 || |pool| <= limit then |pool| else limit
    ensures forall i :: 0 <= i < |r| ==> r[i].id in pool && r[i] == t[r[i].id]
    ensures forall i, j :: 0 <= i < j < |r| ==> r[i].id != r[j].id
  {
    var rest := pool;
    r := [];
    while rest != {} && (limit < 0 || |r| < limit)
      invariant rest <= pool && |rest| + |r| == |pool|
      invariant limit >= 0 ==> |r| <= limit
      invariant forall i :: 0 <= i < |r| ==> r[i].id in pool && r[i].id !in rest && r[i] == t[r[i].id]
      invariant forall i, j :: 0 <= i < j < |r| ==> r[i].id != r[j].id
      decreases |rest|
    {
      Inhabited(rest);
      var k :| k in rest;
      rest := rest - {k};
      r := r + [t[k]];
    }
  }

  /** Runs the listing: the selected rows in some order, `skip` of them dropped, at most `limit` kept. */
  method Page<F>(t: Table<F>, ids: set<Id>, skip: int, limit: int) returns (r: seq<Row<F>>)
    requires Keyed(t) && ids <= t.Keys
    ensures IsPage(t, ids, skip, limit, r)
  {
    var pool := Skip(ids, if skip < 0 then 0 else skip);
    r := Take(t, pool, limit);
  }

  /** The ids of a sequence of rows. */
  ghost function IdsOf<F>(r: seq<Row<F>>): set<Id> {
    set i | 0 <= i < |r| :: r[i].id
  }

  /** Rows with pairwise different ids have as many ids as rows. */
  lemma {:induction false} DistinctIds<F>(r: seq<Row<F>>)
    requires forall i, j :: 0 <= i < j < |r| ==> r[i].id != r[j].id
    ensures |IdsOf(r)| == |r|
  {
    if r != [] {
      var last := |r| - 1;
      DistinctIds(r[..last]);
      assert IdsOf(r) == IdsOf(r[..last]) + {r[last].id};
      assert r[last].id !in IdsOf(r[..last]);
    }
  }

  /** A page whose window covers every selected row returns each of them. */
  lemma PageCoversAll<F>(t: Table<F>, ids: set<Id>, skip: int, limit: int, r: seq<Row<F>>)
    requires IsPage(t, ids, skip, limit, r)
    requires skip <= 0 && (limit < 0 || |ids| <= limit)
    ensures forall k :: k in ids <==> exists i :: 0 <= i < |r| && r[i].id == k
  {
    DistinctIds(r);
    assert IdsOf(r) <= ids;
    assert |ids - IdsOf(r)| == |ids| - |IdsOf(r)|;
    assert ids == IdsOf(r);
  }
}
