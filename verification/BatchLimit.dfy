/** A limit or offset on a sub-query: it applies to the batch, not to each parent. */
module BatchLimit {
  import opened Wrappers
  import opened Store
  import opened Database
  import opened Batch

  /** The key by which a batch asks for a row: a column, or the owner's key in a row of a join. */
  function RowKey(column: string): Row -> Option<int> {
    (r: Row) => IntAt(r, column)
  }

  function OwnerKey(): JoinRow -> Option<int> {
    (p: JoinRow) => Some(p.owner)
  }

  predicate In<T>(r: T, key: T -> Option<int>, ids: seq<int>) {
    key(r).Some? && key(r).value in ids
  }

  /** The answer to `key IN (ids...)`, in the order of the table or of the join. */
  function Select<T>(rows: seq<T>, key: T -> Option<int>, ids: seq<int>): seq<T> {
    if rows == [] then []
    else (if In(rows[0], key, ids) then [rows[0]] else []) + Select(rows[1..], key, ids)
  }

  /** Skips `offset` rows and keeps `limit`; an unset limit is zero and keeps all. */
  function Window<T>(s: seq<T>, limit: nat, offset: nat): seq<T> {
    var rest := if offset <= |s| then s[offset..] else [];
    if limit == 0 || |rest| <= limit then rest else rest[..limit]
  }

  /** The share of key `k` in the batch is what its own lookup with the same window returns. */
  ghost predicate Agrees<T>(rows: seq<T>, key: T -> Option<int>, ids: seq<int>, k: int, limit: nat, offset: nat) {
    Select(Window(Select(rows, key, ids), limit, offset), key, [k]) == Window(Select(rows, key, [k]), limit, offset)
  }

  /** The rows have ids, and no two share one. */
  ghost predicate Keyed(rows: seq<Row>) {
    && (forall i :: 0 <= i < |rows| ==> IntAt(rows[i], ID).Some?)
    && (forall i, j :: 0 <= i < j < |rows| ==> IntAt(rows[i], ID) != IntAt(rows[j], ID))
  }

  /** No pair of an owner and a target comes twice, though either may come with others. */
  ghost predicate NoPairTwice(stream: seq<JoinRow>) {
    forall i, j :: 0 <= i < j < |stream| ==> stream[i] != stream[j]
  }

  /** The stream is an answer of the join query for the owners `ids`. */
  ghost predicate AnswersJoin(db: Db, e: Edge, ids: seq<int>, stream: seq<JoinRow>)
    requires e.shape.M2M?
  {
    forall k, r :: JoinRow(k, r) in stream <==>
      k in ids && r in Rows(db, e.target) && IntAt(r, ID).Some? && Linked(db, e, k, IntAt(r, ID).value)
  }

  /** The share of a key is the rows that its owner joins: by foreign key for one-to-many edges, by id for many-to-one edges. */
  lemma {:induction false} ShareIsJoined(db: Db, e: Edge, owner: Row, k: int, r: Row)
    ensures e.shape.O2M? && IntAt(owner, ID) == Some(k) ==> (In(r, RowKey(e.shape.fk), [k]) <==> Joined(db, e, owner, r))
    ensures e.shape.M2O? && IntAt(owner, e.shape.fk) == Some(k) ==> (In(r, RowKey(ID), [k]) <==> Joined(db, e, owner, r))
    ensures forall column, ids :: InColumn(column, ids)(r) <==> In(r, RowKey(column), ids)
  {
    assert forall x :: x in [k] <==> x == k;
  }

  /** The share of a key in a join is the targets that its owner joins. */
  lemma {:induction false} ShareOfJoin(db: Db, e: Edge, ids: seq<int>, stream: seq<JoinRow>, owner: Row, k: int, r: Row)
    requires e.shape.M2M? && AnswersJoin(db, e, ids, stream) && k in ids && IntAt(owner, ID) == Some(k)
    ensures JoinRow(k, r) in Select(stream, OwnerKey(), [k]) <==> r in Rows(db, e.target) && Joined(db, e, owner, r)
  {
    assert k in [k];
    Selected(stream, OwnerKey(), [k], JoinRow(k, r));
  }

  lemma {:induction false} SelectAll<T>(rows: seq<T>, key: T -> Option<int>, ids: seq<int>)
    requires forall r :: r in rows ==> In(r, key, ids)
    ensures Select(rows, key, ids) == rows
  {
    if rows != [] {
      SelectAll(rows[1..], key, ids);
    }
  }

  lemma {:induction false} SelectNone<T>(rows: seq<T>, key: T -> Option<int>, ids: seq<int>)
    requires forall r :: r in rows ==> !In(r, key, ids)
    ensures Select(rows, key, ids) == []
  {
    if rows != [] {
      SelectNone(rows[1..], key, ids);
    }
  }

  lemma {:induction false} Selected<T>(rows: seq<T>, key: T -> Option<int>, ids: seq<int>, r: T)
    ensures r in Select(rows, key, ids) <==> r in rows && In(r, key, ids)
  {
    if rows != [] {
      Selected(rows[1..], key, ids, r);
    }
  }

  lemma {:induction false} SelectConcat<T>(a: seq<T>, b: seq<T>, key: T -> Option<int>, ids: seq<int>)
    ensures Select(a + b, key, ids) == Select(a, key, ids) + Select(b, key, ids)
  {
    if a == [] {
      assert a + b == b;
    } else {
      var head, rest := if In(a[0], key, ids) then [a[0]] else [], Select(a[1..], key, ids);
      assert (a + b)[0] == a[0] && (a + b)[1..] == a[1..] + b;
      SelectConcat(a[1..], b, key, ids);
      assert head + (rest + Select(b, key, ids)) == (head + rest) + Select(b, key, ids);
    }
  }

  lemma {:induction false} SelectTwice<T>(rows: seq<T>, key: T -> Option<int>, ids: seq<int>, k: int)
    requires k in ids
    ensures Select(Select(rows, key, ids), key, [k]) == Select(rows, key, [k])
  {
    if rows != [] {
      SelectTwice(rows[1..], key, ids, k);
      var head := if In(rows[0], key, ids) then [rows[0]] else [];
      SelectConcat(head, Select(rows[1..], key, ids), key, [k]);
      assert In(rows[0], key, ids) ==> head[1..] == [];
    }
  }

  /** Without a window the batch agrees with every lookup. */
  lemma {:induction false} NoWindowAgrees<T>(rows: seq<T>, key: T -> Option<int>, ids: seq<int>, k: int)
    requires k in ids
    ensures Agrees(rows, key, ids, k, 0, 0)
  {
    SelectTwice(rows, key, ids, k);
  }

  // ---------- To-many edges ----------

  predicate AtMostOne(ids: seq<int>) {
    forall i, j :: 0 <= i < |ids| && 0 <= j < |ids| ==> ids[i] == ids[j]
  }

  lemma {:induction false} SameKeys<T>(rows: seq<T>, key: T -> Option<int>, ids: seq<int>, k: int)
    requires forall x :: x in ids <==> x == k
    ensures Select(rows, key, ids) == Select(rows, key, [k])
  {
    if rows != [] {
      SameKeys(rows[1..], key, ids, k);
      assert forall x :: x in [k] <==> x == k;
    }
  }

  lemma {:induction false} OneKeyAgrees<T>(rows: seq<T>, key: T -> Option<int>, ids: seq<int>, k: int, limit: nat, offset: nat)
    requires AtMostOne(ids) && k in ids
    ensures Agrees(rows, key, ids, k, limit, offset)
  {
    SameKeys(rows, key, ids, k);
    var own := Select(rows, key, [k]);
    forall r | r in Window(own, limit, offset)
      ensures In(r, key, [k])
    {
      assert r in own;
      Selected(rows, key, [k], r);
    }
    SelectAll(Window(own, limit, offset), key, [k]);
  }

  lemma {:induction false} HarmlessAgrees<T>(rows: seq<T>, key: T -> Option<int>, ids: seq<int>, k: int, limit: nat, offset: nat)
    requires k in ids && ((limit == 0 && offset == 0) || AtMostOne(ids))
    ensures Agrees(rows, key, ids, k, limit, offset)
  {
    if AtMostOne(ids) {
      OneKeyAgrees(rows, key, ids, k, limit, offset);
    } else {
      NoWindowAgrees(rows, key, ids, k);
    }
  }

  /** All rows of the family ask for key `k`. */
  ghost predicate Family<T>(rows: seq<T>, key: T -> Option<int>, k: int, n: nat) {
    |rows| == n && forall r :: r in rows ==> key(r) == Some(k)
  }

  /** How long the families of two keys are, one after the other, for the window to cut them wrongly. */
  function FirstLength(limit: nat, offset: nat): nat {
    limit + offset
  }

  function SecondLength(limit: nat, offset: nat): nat {
    if limit == 0 then offset else offset + 1
  }

  /** The first family uses up the offset and fills the limit, so the second gets other rows than its own lookup. */
  lemma {:induction false} WindowShared<T>(first: seq<T>, second: seq<T>, key: T -> Option<int>, ids: seq<int>, a: int, b: int,
                                           limit: nat, offset: nat)
    requires a in ids && b in ids && a != b && (limit != 0 || offset != 0)
    requires Family(first, key, a, FirstLength(limit, offset)) && Family(second, key, b, SecondLength(limit, offset))
    ensures !Agrees(first + second, key, ids, b, limit, offset)
  {
    TwoFamilies(first, second, key, ids, a, b);
    var window := Window(first + second, limit, offset);
    if limit == 0 {
      assert window == second;
      SelectAll(second, key, [b]);
      assert |Window(second, limit, offset)| == 0;
    } else {
      assert window == first[offset..];
      SelectNone(window, key, [b]);
      assert |Window(second, limit, offset)| == 1;
    }
  }

  lemma {:induction false} TwoFamilies<T>(first: seq<T>, second: seq<T>, key: T -> Option<int>, ids: seq<int>, a: int, b: int)
    requires a in ids && b in ids && a != b && Family(first, key, a, |first|) && Family(second, key, b, |second|)
    ensures Select(first + second, key, ids) == first + second && Select(first + second, key, [b]) == second
  {
    SelectAll(first + second, key, ids);
    SelectConcat(first, second, key, [b]);
    SelectNone(first, key, [b]);
    SelectAll(second, key, [b]);
  }

  /** `n` rows that reference key `k`, with ids from `first` on. */
  function References(column: string, k: int, first: int, n: nat): (rows: seq<Row>)
    requires column != ID
    ensures Family(rows, RowKey(column), k, n)
    ensures |rows| == n && forall i :: 0 <= i < n ==> IntAt(rows[i], ID) == Some(first + i)
  {
    seq(n, i => map[ID := Int(first + i), column := Int(k)])
  }

  /** The batch agrees with the lookups of all its keys, on every table. */
  ghost predicate AlwaysAgrees(column: string, ids: seq<int>, limit: nat, offset: nat) {
    forall rows, k :: Keyed(rows) && k in ids ==> Agrees(rows, RowKey(column), ids, k, limit, offset)
  }

  /** A batch over a reference agrees with its lookups on every table exactly when it has no window, or at most one key. */
  lemma {:induction false} ToManyAgreesIff(column: string, ids: seq<int>, limit: nat, offset: nat)
    requires column != ID
    ensures AlwaysAgrees(column, ids, limit, offset) <==> (limit == 0 && offset == 0) || AtMostOne(ids)
  {
    if (limit == 0 && offset == 0) || AtMostOne(ids) {
      forall rows, k | Keyed(rows) && k in ids
        ensures Agrees(rows, RowKey(column), ids, k, limit, offset)
      {
        HarmlessAgrees(rows, RowKey(column), ids, k, limit, offset);
      }
    } else {
      var i, j :| 0 <= i < |ids| && 0 <= j < |ids| && ids[i] != ids[j];
      var n, m := FirstLength(limit, offset), SecondLength(limit, offset);
      var first, second := References(column, ids[i], 0, n), References(column, ids[j], n, m);
      assert Keyed(first + second);
      WindowShared(first, second, RowKey(column), ids, ids[i], ids[j], limit, offset);
    }
  }

  // ---------- Join tables ----------

  /** Owner `k` and `n` targets, the same ones for every owner. */
  function Links(k: int, n: nat): (stream: seq<JoinRow>)
    ensures Family(stream, OwnerKey(), k, n)
    ensures |stream| == n && forall i :: 0 <= i < n ==> stream[i] == JoinRow(k, map[ID := Int(i)])
  {
    seq(n, i => JoinRow(k, map[ID := Int(i)]))
  }

  lemma {:induction false} LinksDistinct(a: int, b: int, n: nat, m: nat)
    requires a != b
    ensures NoPairTwice(Links(a, n) + Links(b, m))
  {
    assert forall i, j :: 0 <= i < j ==> map[ID := Int(i)][ID] != map[ID := Int(j)][ID];
  }

  /** The batch of a join agrees with the lookups of all its owners, for every stream. */
  ghost predicate JoinAgrees(ids: seq<int>, limit: nat, offset: nat) {
    forall stream, k :: NoPairTwice(stream) && k in ids ==> Agrees(stream, OwnerKey(), ids, k, limit, offset)
  }

  /** A batch of a join, whose window counts pairs, agrees with its lookups for every stream under the same condition. */
  lemma {:induction false} JoinAgreesIff(ids: seq<int>, limit: nat, offset: nat)
    ensures JoinAgrees(ids, limit, offset) <==> (limit == 0 && offset == 0) || AtMostOne(ids)
  {
    if (limit == 0 && offset == 0) || AtMostOne(ids) {
      forall stream, k | NoPairTwice(stream) && k in ids
        ensures Agrees(stream, OwnerKey(), ids, k, limit, offset)
      {
        HarmlessAgrees(stream, OwnerKey(), ids, k, limit, offset);
      }
    } else {
      var i, j :| 0 <= i < |ids| && 0 <= j < |ids| && ids[i] != ids[j];
      var n, m := FirstLength(limit, offset), SecondLength(limit, offset);
      LinksDistinct(ids[i], ids[j], n, m);
      WindowShared(Links(ids[i], n), Links(ids[j], m), OwnerKey(), ids, ids[i], ids[j], limit, offset);
    }
  }

  // ---------- To-one edges ----------

  ghost predicate Distinct(ids: seq<int>) {
    forall i, j :: 0 <= i < j < |ids| ==> ids[i] != ids[j]
  }

  /** One row per key at most. */
  lemma {:induction false} SelectByID(rows: seq<Row>, ids: seq<int>)
    requires Keyed(rows)
    ensures |Select(rows, RowKey(ID), ids)| <= |ids|
  {
    if rows != [] && In(rows[0], RowKey(ID), ids) {
      var key := IntAt(rows[0], ID).value;
      var i :| 0 <= i < |ids| && ids[i] == key;
      var others := ids[..i] + ids[i + 1..];
      SelectByID(rows[1..], others);
      SameSelection(rows[1..], ids, others, key);
    } else if rows != [] {
      SelectByID(rows[1..], ids);
    }
  }

  /** A key that no row has makes no difference. */
  lemma {:induction false} SameSelection(rows: seq<Row>, ids: seq<int>, others: seq<int>, key: int)
    requires forall r :: r in rows ==> IntAt(r, ID) != Some(key)
    requires forall x :: x != key ==> (x in ids <==> x in others)
    ensures Select(rows, RowKey(ID), ids) == Select(rows, RowKey(ID), others)
  {
    if rows != [] {
      SameSelection(rows[1..], ids, others, key);
    }
  }

  lemma {:induction false} FewKeysAgree(rows: seq<Row>, ids: seq<int>, k: int, limit: nat, offset: nat)
    requires Keyed(rows) && k in ids
    requires if offset == 0 then limit == 0 || |ids| <= limit else |ids| <= offset
    ensures Agrees(rows, RowKey(ID), ids, k, limit, offset)
  {
    SelectByID(rows, ids);
    SelectByID(rows, [k]);
    SelectTwice(rows, RowKey(ID), ids, k);
  }

  /** One row for each of the keys, in order. */
  function RowPerKey(ids: seq<int>): (rows: seq<Row>)
    ensures |rows| == |ids| && forall i :: 0 <= i < |ids| ==> IntAt(rows[i], ID) == Some(ids[i])
  {
    seq(|ids|, i requires 0 <= i < |ids| => map[ID := Int(ids[i])])
  }

  lemma {:induction false} OwnPosition(ids: seq<int>, i: nat, j: nat)
    requires Distinct(ids) && i < |ids| && j < |ids|
    ensures In(RowPerKey(ids)[j], RowKey(ID), [ids[i]]) <==> i == j
  {
    assert ids[j] in [ids[i]] <==> ids[j] == ids[i];
  }

  /** A stretch of such a table holds a row of key `i` exactly when it holds position `i`. */
  lemma {:induction false} Stretch(ids: seq<int>, i: nat, from: nat, end: nat)
    requires Distinct(ids) && i < |ids| && from <= end <= |ids|
    ensures Select(RowPerKey(ids)[from..end], RowKey(ID), [ids[i]]) == if from <= i < end then [RowPerKey(ids)[i]] else []
    decreases end - from
  {
    if from < end {
      var stretch := RowPerKey(ids)[from..end];
      OwnPosition(ids, i, from);
      assert stretch[0] == RowPerKey(ids)[from] && stretch[1..] == RowPerKey(ids)[from + 1..end];
      Stretch(ids, i, from + 1, end);
    }
  }

  lemma {:induction false} ShareInWindow(ids: seq<int>, i: nat, limit: nat, offset: nat)
    requires Distinct(ids) && i < |ids|
    ensures Select(Window(RowPerKey(ids), limit, offset), RowKey(ID), [ids[i]]) != [] <==> offset <= i && (limit == 0 || i < offset + limit)
  {
    var end := if limit == 0 || offset + limit > |ids| then |ids| else offset + limit;
    if offset <= |ids| {
      Stretch(ids, i, offset, end);
      assert Window(RowPerKey(ids), limit, offset) == RowPerKey(ids)[offset..end];
    }
  }

  /** The table has the one row for each key, and all its rows are in the batch. */
  lemma {:induction false} RowsOfKeys(ids: seq<int>, i: nat)
    requires Distinct(ids) && i < |ids|
    ensures var rows := RowPerKey(ids);
            Keyed(rows) && Select(rows, RowKey(ID), ids) == rows && Select(rows, RowKey(ID), [ids[i]]) == [rows[i]]
  {
    SelectAll(RowPerKey(ids), RowKey(ID), ids);
    Stretch(ids, i, 0, |ids|);
    assert RowPerKey(ids)[0..|ids|] == RowPerKey(ids);
  }

  /** A batch over ids agrees with its lookups on every table exactly when the limit has room for all keys, or the offset skips all. */
  lemma {:induction false} ToOneAgreesIff(ids: seq<int>, limit: nat, offset: nat)
    requires Distinct(ids)
    ensures AlwaysAgrees(ID, ids, limit, offset)
       <==> if offset == 0 then limit == 0 || |ids| <= limit else |ids| <= offset
  {
    if if offset == 0 then limit == 0 || |ids| <= limit else |ids| <= offset {
      forall rows, k | Keyed(rows) && k in ids
        ensures Agrees(rows, RowKey(ID), ids, k, limit, offset)
      {
        FewKeysAgree(rows, ids, k, limit, offset);
      }
    } else {
      var i := if offset == 0 then limit else offset;
      RowsOfKeys(ids, i);
      ShareInWindow(ids, i, limit, offset);
      assert !Agrees(RowPerKey(ids), RowKey(ID), ids, ids[i], limit, offset);
    }
  }
}
