/** The row stream of a many-to-many load: owner key and target row, with repetitions. */
module JoinStream {
  import opened Wrappers
  import opened Store
  import opened QueryBuilder
  import opened EagerTree
  import opened Database
  import opened Batch

  /** Distinct values of a stream, in order of first appearance. */
  function FirstSeen<T(==)>(xs: seq<T>): seq<T> {
    if xs == [] then []
    else
      var front := FirstSeen(xs[..|xs| - 1]);
      if xs[|xs| - 1] in front then front else front + [xs[|xs| - 1]]
  }

  lemma {:induction false} FirstSeenMember<T>(xs: seq<T>, x: T)
    ensures x in FirstSeen(xs) <==> x in xs
  {
    if xs != [] {
      FirstSeenMember(xs[..|xs| - 1], x);
      assert xs == xs[..|xs| - 1] + [xs[|xs| - 1]];
    }
  }

  lemma {:induction false} FirstSeenDistinct<T>(xs: seq<T>)
    ensures forall i, j :: 0 <= i < j < |FirstSeen(xs)| ==> FirstSeen(xs)[i] != FirstSeen(xs)[j]
  {
    if xs != [] {
      FirstSeenDistinct(xs[..|xs| - 1]);
    }
  }

  ghost function RowsOf(ns: seq<Node>): (rows: seq<Row>)
    ensures |rows| == |ns| && forall i :: 0 <= i < |ns| ==> rows[i] == ns[i].row
  {
    seq(|ns|, i requires 0 <= i < |ns| => ns[i].row)
  }

  lemma RowsAppend(ns: seq<Node>, n: Node)
    ensures RowsOf(ns + [n]) == RowsOf(ns) + [n.row]
  {
  }

  ghost function StreamRows(stream: seq<JoinRow>): (rows: seq<Row>)
    ensures |rows| == |stream| && forall i :: 0 <= i < |stream| ==> rows[i] == stream[i].target
  {
    seq(|stream|, i requires 0 <= i < |stream| => stream[i].target)
  }

  /** For each target key of a join stream, the owners the stream names for it. */
  ghost function OwnerMap(stream: seq<JoinRow>, byID: map<int, Node>): map<int, set<Node>>
    requires forall p :: p in stream ==> p.owner in byID
  {
    if stream == [] then map[]
    else
      var JoinRow(a, r) := stream[|stream| - 1];
      assert JoinRow(a, r) in stream;
      var front := OwnerMap(stream[..|stream| - 1], byID);
      front[Key(r) := if Key(r) in front then front[Key(r)] + {byID[a]} else {byID[a]}]
  }

  lemma {:induction false} OwnerKey(stream: seq<JoinRow>, byID: map<int, Node>, k: int)
    requires forall p :: p in stream ==> p.owner in byID
    ensures k in OwnerMap(stream, byID) <==> exists p :: p in stream && Key(p.target) == k
  {
    if stream != [] {
      var last := stream[|stream| - 1];
      OwnerKey(stream[..|stream| - 1], byID, k);
      assert stream == stream[..|stream| - 1] + [last];
    }
  }

  lemma {:induction false} OwnerMember(stream: seq<JoinRow>, byID: map<int, Node>, k: int, n: Node)
    requires forall p :: p in stream ==> p.owner in byID
    ensures k in OwnerMap(stream, byID) && n in OwnerMap(stream, byID)[k]
       <==> exists p :: p in stream && Key(p.target) == k && byID[p.owner] == n
  {
    if stream != [] {
      var last := stream[|stream| - 1];
      OwnerMember(stream[..|stream| - 1], byID, k, n);
      assert stream == stream[..|stream| - 1] + [last];
    }
  }

  /** What the join query returned, in terms of the sub-query and the nodes it was asked for. */
  ghost predicate IsJoin(db: Db, e: Edge, sub: Plan, nodes: seq<Node>, byID: map<int, Node>, stream: seq<JoinRow>) {
    && (forall p {:trigger p in stream} :: p in stream ==> p.owner in byID && p.target in Answer(db, sub) && Joined(db, e, byID[p.owner].row, p.target))
    && (forall n, r {:trigger Joined(db, e, n.row, r)} :: n in nodes && r in Answer(db, sub) && Joined(db, e, n.row, r) ==> JoinRow(Key(n.row), r) in stream)
  }

  /** The nodes that join target row `row`. */
  ghost function OwnersAmong(db: Db, e: Edge, row: Row, nodes: seq<Node>): set<Node> {
    set n | n in nodes && Joined(db, e, n.row, row)
  }

  /** Every scanned target is in the batch answer, once. */
  lemma {:induction false} TargetsJoined(db: Db, e: Edge, sub: Plan, nodes: seq<Node>, byID: map<int, Node>, stream: seq<JoinRow>, found: seq<Node>, c: Node)
    requires Indexed(nodes, byID) && IsJoin(db, e, sub, nodes, byID, stream)
    requires RowsOf(found) == FirstSeen(StreamRows(stream)) && c in found
    ensures c.row in StreamRows(stream) && c.row in Joint(db, e, sub, nodes)
  {
    var rows := StreamRows(stream);
    var i :| 0 <= i < |found| && found[i] == c;
    assert RowsOf(found)[i] == c.row;
    FirstSeenMember(rows, c.row);
    var j :| 0 <= j < |rows| && rows[j] == c.row;
    var JoinRow(a, r) := stream[j];
    assert JoinRow(a, r) in stream;
    assert byID[a] in nodes && Joined(db, e, byID[a].row, r);
  }

  /** Every row of the batch answer has been scanned. */
  lemma {:induction false} JoinedScanned(db: Db, e: Edge, sub: Plan, nodes: seq<Node>, byID: map<int, Node>, stream: seq<JoinRow>, found: seq<Node>, row: Row)
    requires IsJoin(db, e, sub, nodes, byID, stream)
    requires RowsOf(found) == FirstSeen(StreamRows(stream)) && row in Joint(db, e, sub, nodes)
    ensures exists c :: c in found && c.row == row
  {
    var rows := StreamRows(stream);
    var n :| n in nodes && Joined(db, e, n.row, row);
    var j :| 0 <= j < |stream| && stream[j] == JoinRow(Key(n.row), row);
    assert rows[j] == row;
    FirstSeenMember(rows, row);
    var i :| 0 <= i < |found| && RowsOf(found)[i] == row;
    assert found[i] in found;
  }

  /** The scanned targets are the batch answer. */
  lemma {:induction false} JoinCovers(db: Db, e: Edge, sub: Plan, nodes: seq<Node>, byID: map<int, Node>, stream: seq<JoinRow>, found: seq<Node>)
    requires Indexed(nodes, byID) && IsJoin(db, e, sub, nodes, byID, stream)
    requires RowsOf(found) == FirstSeen(StreamRows(stream))
    ensures Covers(found, Joint(db, e, sub, nodes))
    ensures forall c :: c in found ==> c.row in StreamRows(stream)
  {
    FirstSeenDistinct(StreamRows(stream));
    forall i, j | 0 <= i < j < |found|
      ensures found[i].row != found[j].row
    {
      assert found[i].row == RowsOf(found)[i] && found[j].row == RowsOf(found)[j];
    }
    forall c | c in found
      ensures c.row in StreamRows(stream) && c.row in Joint(db, e, sub, nodes)
    {
      TargetsJoined(db, e, sub, nodes, byID, stream, found, c);
    }
    forall r | r in Joint(db, e, sub, nodes)
      ensures exists c :: c in found && c.row == r
    {
      JoinedScanned(db, e, sub, nodes, byID, stream, found, r);
    }
  }

  lemma {:induction false} OwnerJoins(db: Db, e: Edge, sub: Plan, nodes: seq<Node>, byID: map<int, Node>, stream: seq<JoinRow>, row: Row, n: Node)
    requires ValidDb(db) && sub.table.hasId && Indexed(nodes, byID) && IsJoin(db, e, sub, nodes, byID, stream)
    requires row in Rows(db, sub.table)
    requires Key(row) in OwnerMap(stream, byID) && n in OwnerMap(stream, byID)[Key(row)]
    ensures n in nodes && Joined(db, e, n.row, row)
  {
    OwnerMember(stream, byID, Key(row), n);
    var p :| p in stream && Key(p.target) == Key(row) && byID[p.owner] == n;
    StreamElement(db, e, sub, nodes, byID, stream, p);
    SameKey(db, sub.table, p.target, row);
  }

  lemma StreamElement(db: Db, e: Edge, sub: Plan, nodes: seq<Node>, byID: map<int, Node>, stream: seq<JoinRow>, p: JoinRow)
    requires Indexed(nodes, byID) && IsJoin(db, e, sub, nodes, byID, stream) && p in stream
    ensures p.owner in byID && byID[p.owner] in nodes && p.target in Rows(db, sub.table) && Joined(db, e, byID[p.owner].row, p.target)
  {
  }

  lemma SameKey(db: Db, t: Table, r: Row, s: Row)
    requires ValidDb(db) && t.hasId && r in Rows(db, t) && s in Rows(db, t) && Key(r) == Key(s)
    ensures r == s
  {
  }

  lemma {:induction false} JoinerOwns(db: Db, e: Edge, sub: Plan, nodes: seq<Node>, byID: map<int, Node>, stream: seq<JoinRow>, row: Row, n: Node)
    requires Indexed(nodes, byID) && IsJoin(db, e, sub, nodes, byID, stream)
    requires row in Answer(db, sub) && n in nodes && Joined(db, e, n.row, row)
    ensures Key(row) in OwnerMap(stream, byID) && n in OwnerMap(stream, byID)[Key(row)]
  {
    var p := JoinRow(Key(n.row), row);
    assert p in stream && byID[p.owner] == n;
    OwnerMember(stream, byID, Key(row), n);
  }

  lemma {:induction false} StreamKey(stream: seq<JoinRow>, byID: map<int, Node>, row: Row)
    requires forall p :: p in stream ==> p.owner in byID
    requires row in StreamRows(stream)
    ensures Key(row) in OwnerMap(stream, byID)
  {
    var i :| 0 <= i < |stream| && StreamRows(stream)[i] == row;
    assert stream[i] in stream;
    OwnerKey(stream, byID, Key(row));
  }

  /** The owners scanned under a target's key are the nodes that join it. */
  lemma {:induction false} JoinOwners(db: Db, e: Edge, sub: Plan, nodes: seq<Node>, byID: map<int, Node>, stream: seq<JoinRow>, row: Row, owners: set<Node>)
    requires ValidDb(db) && sub.table.hasId
    requires Indexed(nodes, byID) && IsJoin(db, e, sub, nodes, byID, stream)
    requires row in Answer(db, sub)
    requires Key(row) in OwnerMap(stream, byID) && owners == OwnerMap(stream, byID)[Key(row)]
    ensures owners == OwnersAmong(db, e, row, nodes)
  {
    forall n
      ensures n in owners <==> n in nodes && Joined(db, e, n.row, row)
    {
      if n in owners {
        OwnerJoins(db, e, sub, nodes, byID, stream, row, n);
      }
      if n in nodes && Joined(db, e, n.row, row) {
        JoinerOwns(db, e, sub, nodes, byID, stream, row, n);
      }
    }
  }

  /** The scanned targets and owner sets of a join are the batch answer and its join condition. */
  lemma {:induction false} JoinScanned(db: Db, e: Edge, sub: Plan, nodes: seq<Node>, byID: map<int, Node>, stream: seq<JoinRow>, found: seq<Node>)
    requires ValidDb(db) && e.shape.M2M? && sub.table == e.target && e.target.hasId && WfTable(e.target)
    requires Indexed(nodes, byID) && IsJoin(db, e, sub, nodes, byID, stream)
    requires RowsOf(found) == FirstSeen(StreamRows(stream))
    requires forall c :: c in found ==> c.values == Visible(sub, sub.fields, c.row)
    ensures Covers(found, Joint(db, e, sub, nodes))
    ensures OwnedBy(db, e, nodes, found, OwnerMap(stream, byID))
  {
    JoinCovers(db, e, sub, nodes, byID, stream, found);
    forall c | c in found
      ensures Key(c.values) in OwnerMap(stream, byID)
      ensures OwnerMap(stream, byID)[Key(c.values)] == OwnersAmong(db, e, c.row, nodes)
    {
      IdVisible(sub, sub.fields, c.row);
      StreamKey(stream, byID, c.row);
      JoinOwners(db, e, sub, nodes, byID, stream, c.row, OwnerMap(stream, byID)[Key(c.row)]);
    }
  }

  /** `nids` holds, under the key of each target, the nodes that join it. */
  ghost predicate OwnedBy(db: Db, e: Edge, nodes: seq<Node>, found: seq<Node>, nids: map<int, set<Node>>) {
    forall c :: c in found ==> Key(c.values) in nids && nids[Key(c.values)] == OwnersAmong(db, e, c.row, nodes)
  }

  /** A key has owners among the first rows of a stream exactly when its row is one of them. */
  lemma {:induction false} ScannedBefore(db: Db, t: Table, stream: seq<JoinRow>, byID: map<int, Node>, i: nat)
    requires ValidDb(db) && t.hasId && i < |stream|
    requires forall p :: p in stream ==> p.owner in byID && p.target in Rows(db, t)
    ensures forall p :: p in stream[..i] ==> p.owner in byID
    ensures Key(stream[i].target) in OwnerMap(stream[..i], byID) <==> stream[i].target in StreamRows(stream)[..i]
  {
    var rows, row := StreamRows(stream), stream[i].target;
    OwnerKey(stream[..i], byID, Key(row));
    assert stream[i] in stream;
    if p :| p in stream[..i] && Key(p.target) == Key(row) {
      assert p in stream && p.target == row;
      var j :| 0 <= j < i && stream[j] == p;
      assert rows[..i][j] == row;
    }
    if row in rows[..i] {
      var j :| 0 <= j < i && rows[..i][j] == row;
      assert stream[..i][j] in stream[..i];
    }
  }

  /** A row has been scanned exactly when its key has owners. */
  lemma {:induction false} ScanFacts(db: Db, t: Table, stream: seq<JoinRow>, byID: map<int, Node>, i: nat)
    requires ValidDb(db) && t.hasId && i < |stream|
    requires forall p :: p in stream ==> p.owner in byID && p.target in Rows(db, t)
    ensures var rows := StreamRows(stream); var row := stream[i].target;
            && FirstSeen(rows[..i + 1])
            == if Key(row) in OwnerMap(stream[..i], byID) then FirstSeen(rows[..i]) else FirstSeen(rows[..i]) + [row]
    ensures OwnerMap(stream[..i + 1], byID)
         == var front := OwnerMap(stream[..i], byID); var k := Key(stream[i].target);
            front[k := if k in front then front[k] + {byID[stream[i].owner]} else {byID[stream[i].owner]}]
  {
    var rows := StreamRows(stream);
    ScannedBefore(db, t, stream, byID, i);
    FirstSeenMember(rows[..i], stream[i].target);
    assert rows[..i + 1] == rows[..i] + [stream[i].target] && rows[..i + 1][..i] == rows[..i];
    assert stream[..i + 1] == stream[..i] + [stream[i]] && stream[..i + 1][..i] == stream[..i];
    assert stream[i] in stream;
  }

  /** A freshly scanned node: its columns are set and no edge has been loaded. */
  ghost predicate Blank(db: Db, n: Node, p: Plan)
    reads n
  {
    && n.row in Rows(db, p.table) && n.values == Visible(p, p.fields, n.row)
    && n.loaded == (set i | 0 <= i < |p.edges| :: p.edges[i].edge)
    && n.one == map[] && n.many == map[]
  }

  lemma CoversRows(ns: seq<Node>, rows: seq<Row>, answer: set<Row>)
    requires RowsOf(ns) == rows
    requires forall i, j :: 0 <= i < j < |rows| ==> rows[i] != rows[j]
    requires forall r :: r in rows <==> r in answer
    ensures Covers(ns, answer)
  {
    forall n | n in ns
      ensures n.row in answer
    {
      var i :| 0 <= i < |ns| && ns[i] == n;
      assert rows[i] in rows;
    }
    forall r | r in answer
      ensures exists n :: n in ns && n.row == r
    {
      var i :| 0 <= i < |rows| && rows[i] == r;
      assert ns[i] in ns;
    }
  }

  /** Some node fails exactly when some row of the answer it covers does. */
  lemma CoversFails(db: Db, p: Plan, ns: seq<Node>, rows: set<Row>)
    requires Covers(ns, rows)
    ensures SomeNodeFails(db, p, ns) <==> SomeRowFails(db, p, rows)
  {
  }

  /** The answer of the join query, read back through the id index. */
  lemma {:induction false} JoinAnswer(db: Db, e: Edge, sub: Plan, nodes: seq<Node>, ids: seq<int>, byID: map<int, Node>, stream: seq<JoinRow>)
    requires e.shape.M2M? && sub.table == e.target && Indexed(nodes, byID) && forall k :: k in ids <==> k in byID
    requires forall p :: p in stream ==>
               && p.owner in ids && p.target in Rows(db, e.target) && Accepts(sub.preds, p.target)
               && IntAt(p.target, ID).Some? && Linked(db, e, p.owner, IntAt(p.target, ID).value)
    requires forall a, r ::
               (a in ids && r in Rows(db, e.target) && Accepts(sub.preds, r)
                && IntAt(r, ID).Some? && Linked(db, e, a, IntAt(r, ID).value)) ==> JoinRow(a, r) in stream
    ensures IsJoin(db, e, sub, nodes, byID, stream)
  {
  }
}
