/** The database behind the loader: answers to single-table and join queries. */
module Database {
  import opened Wrappers
  import opened Store
  import opened QueryBuilder

  /** The answer to a query: each accepted row once, in an order the caller may not rely on. */
  method QueryNodes(db: Db, table: Table, preds: seq<Row -> bool>) returns (rows: seq<Row>)
    ensures forall i, j :: 0 <= i < j < |rows| ==> rows[i] != rows[j]
    ensures forall r :: r in rows <==> r in Rows(db, table) && Accepts(preds, r)
  {
    var rest := Rows(db, table);
    rows := [];
    while rest != {}
      invariant rest <= Rows(db, table)
      invariant forall i, j :: 0 <= i < j < |rows| ==> rows[i] != rows[j]
      invariant forall r :: r in rows <==> r in Rows(db, table) - rest && Accepts(preds, r)
      decreases rest
    {
      var r :| r in rest;
      if Accepts(preds, r) {
        rows := rows + [r];
      }
      rest := rest - {r};
    }
  }

  predicate JoinsRow(e: Edge, ids: seq<int>, l: Row, r: Row)
    requires e.shape.M2M?
  {
    && IntAt(l, e.shape.own).Some? && IntAt(l, e.shape.own).value in ids
    && IntAt(r, ID).Some? && IntAt(l, e.shape.other) == IntAt(r, ID)
  }

  /** One row of a join: the owner's key and the target's row. */
  datatype JoinRow = JoinRow(owner: int, target: Row)

  /** The answer to a join query: owner key and target row, in any order and with any repetition. */
  method QueryJoin(db: Db, e: Edge, preds: seq<Row -> bool>, ids: seq<int>) returns (stream: seq<JoinRow>)
    requires e.shape.M2M?
    ensures forall p :: p in stream ==>
              && p.owner in ids && p.target in Rows(db, e.target) && Accepts(preds, p.target)
              && IntAt(p.target, ID).Some? && Linked(db, e, p.owner, IntAt(p.target, ID).value)
    ensures forall a, r ::
              (a in ids && r in Rows(db, e.target) && Accepts(preds, r)
               && IntAt(r, ID).Some? && Linked(db, e, a, IntAt(r, ID).value)) ==> JoinRow(a, r) in stream
  {
    var rows := QueryNodes(db, e.target, preds);
    var links := Rows(db, e.shape.joinTable);
    stream := [];
    while links != {}
      invariant links <= Rows(db, e.shape.joinTable)
      invariant forall p :: p in stream ==>
                  && p.owner in ids && p.target in rows
                  && IntAt(p.target, ID).Some? && Linked(db, e, p.owner, IntAt(p.target, ID).value)
      invariant forall l, r :: l in Rows(db, e.shape.joinTable) - links && r in rows && JoinsRow(e, ids, l, r) ==>
                  JoinRow(IntAt(l, e.shape.own).value, r) in stream
      decreases links
    {
      var l :| l in links;
      for i := 0 to |rows|
        invariant forall p :: p in stream ==>
                    && p.owner in ids && p.target in rows
                    && IntAt(p.target, ID).Some? && Linked(db, e, p.owner, IntAt(p.target, ID).value)
        invariant forall k, r :: k in Rows(db, e.shape.joinTable) - links && r in rows && JoinsRow(e, ids, k, r) ==>
                    JoinRow(IntAt(k, e.shape.own).value, r) in stream
        invariant forall j :: 0 <= j < i && JoinsRow(e, ids, l, rows[j]) ==> JoinRow(IntAt(l, e.shape.own).value, rows[j]) in stream
      {
        if JoinsRow(e, ids, l, rows[i]) {
          stream := stream + [JoinRow(IntAt(l, e.shape.own).value, rows[i])];
        }
      }
      links := links - {l};
    }
    forall a, r | a in ids && r in Rows(db, e.target) && Accepts(preds, r)
                  && IntAt(r, ID).Some? && Linked(db, e, a, IntAt(r, ID).value)
      ensures JoinRow(a, r) in stream
    {
      var l :| l in Rows(db, e.shape.joinTable)
               && IntAt(l, e.shape.own) == Some(a) && IntAt(l, e.shape.other) == Some(IntAt(r, ID).value);
      assert JoinsRow(e, ids, l, r);
    }
  }
}
