/** Updating accounts: how the two update builders compile a mutation, and what its edge deltas do. */
module AccountUpdate {
  import opened Wrappers
  import opened AccountEntity
  import opened AccountCreate
  import opened EdgeOps

  /** What an update mutation records: fields set, numeric fields added to, fields cleared, and the five edges. */
  datatype Changes = Changes(fields: Fields, added: map<Column, Value>, cleared: set<Column>, groups: ToMany, proxy: ToOne,
                             parent: ToOne, children: ToMany, usageLogs: ToMany, id: Option<int>)

  datatype Error = Rejected(error: AccountCreate.Error) | MissingID | InvalidField(column: Column)

  // ---------- Fields ----------

  /** The order in which the update builders look at the columns. */
  const UPDATE_ORDER: seq<Column> := [
    UpdatedAt, DeletedAt, Name, Notes, Platform, Type, Credentials, Extra, ProxyFallbackOriginID, Concurrency,
    LoadFactor, Priority, RateMultiplier, Status, ErrorMessage, LastUsedAt, ExpiresAt, AutoPauseOnExpired, Schedulable,
    RateLimitedAt, RateLimitResetAt, OverloadUntil, TempUnschedulableUntil, TempUnschedulableReason, SessionWindowStart,
    SessionWindowEnd, SessionWindowStatus, QuotaDimension]

  /** Columns that can be added to. */
  predicate Numeric(c: Column) {
    match c
    case ProxyFallbackOriginID | Concurrency | LoadFactor | Priority | RateMultiplier => true
    case _ => false
  }

  /** Columns that can be cleared. */
  predicate Optional(c: Column) {
    match c
    case DeletedAt | Notes | ProxyFallbackOriginID | LoadFactor | ErrorMessage | LastUsedAt | ExpiresAt | RateLimitedAt
         | RateLimitResetAt | OverloadUntil | TempUnschedulableUntil | TempUnschedulableReason | SessionWindowStart
         | SessionWindowEnd | SessionWindowStatus => true
    case _ => false
  }

  /** An update can set everything that a create can, except the time of creation. */
  lemma {:induction false} UpdateOrderComplete(c: Column)
    requires Settable(c)
    ensures c in UPDATE_ORDER <==> c != CreatedAt
  {
    if c == CreatedAt {
      CreationIsFinal();
    } else {
      assert UPDATE_ORDER[SpecIndex(c) - 1] == c;
    }
  }

  lemma CreationIsFinal()
    ensures CreatedAt !in UPDATE_ORDER
  {
  }

  datatype FieldDeltas = FieldDeltas(assign: seq<FieldSpec>, increment: seq<FieldSpec>, clear: seq<Column>)

  /** What one column contributes. */
  function ColumnDeltas(m: Changes, c: Column, d: FieldDeltas): FieldDeltas {
    FieldDeltas(
      if c in m.fields then d.assign + [FieldSpec(c, m.fields[c])] else d.assign,
      if Numeric(c) && c in m.added then d.increment + [FieldSpec(c, m.added[c])] else d.increment,
      if Optional(c) && c in m.cleared then d.clear + [c] else d.clear)
  }

  function AllColumnDeltas(m: Changes, order: seq<Column>): FieldDeltas {
    if order == [] then FieldDeltas([], [], [])
    else ColumnDeltas(m, order[|order| - 1], AllColumnDeltas(m, order[..|order| - 1]))
  }

  /** Every set, added or cleared column of the order gets its delta, and no other does. */
  lemma {:induction false} FieldDeltasComplete(m: Changes, order: seq<Column>, c: Column, x: Value)
    ensures var d := AllColumnDeltas(m, order);
            && (FieldSpec(c, x) in d.assign <==> c in order && c in m.fields && m.fields[c] == x)
            && (FieldSpec(c, x) in d.increment <==> c in order && Numeric(c) && c in m.added && m.added[c] == x)
            && (c in d.clear <==> c in order && Optional(c) && c in m.cleared)
  {
    if order != [] {
      FieldDeltasComplete(m, order[..|order| - 1], c, x);
      assert order == order[..|order| - 1] + [order[|order| - 1]];
    }
  }

  /** Only columns with a setter are updated. */
  lemma OrderIsSettable(c: Column)
    requires c in UPDATE_ORDER
    ensures Settable(c)
  {
  }

  /** The optional columns are those whose NULL decodes to nil, but for JSON. */
  lemma OptionalIff(c: Column)
    requires Settable(c)
    ensures Optional(c) <==> Zero(c) == None && ScanKind(c) != ByteSlice
    ensures Numeric(c) <==> ScanKind(c) == NullInt64 || ScanKind(c) == NullFloat64
  {
  }

  /** A column is cleared exactly when the mutation clears it, it has a setter, NULL decodes to nil for it, and it is not JSON. */
  lemma {:induction false} ClearedIff(m: Changes, c: Column)
    ensures c in AllColumnDeltas(m, UPDATE_ORDER).clear
       <==> c in m.cleared && Settable(c) && Zero(c) == None && ScanKind(c) != ByteSlice
  {
    FieldDeltasComplete(m, UPDATE_ORDER, c, Int(0));
    if Settable(c) {
      UpdateOrderComplete(c);
      OptionalIff(c);
    } else if c in UPDATE_ORDER {
      OrderIsSettable(c);
    }
  }

  /** A column is added to exactly when the mutation adds to it, it has a setter and it is a number. */
  lemma {:induction false} IncrementedIff(m: Changes, c: Column, x: Value)
    ensures FieldSpec(c, x) in AllColumnDeltas(m, UPDATE_ORDER).increment
       <==> c in m.added && m.added[c] == x && Settable(c) && (ScanKind(c) == NullInt64 || ScanKind(c) == NullFloat64)
  {
    FieldDeltasComplete(m, UPDATE_ORDER, c, x);
    if Settable(c) {
      UpdateOrderComplete(c);
      OptionalIff(c);
    } else if c in UPDATE_ORDER {
      OrderIsSettable(c);
    }
  }

  /** A column is set exactly when the mutation sets it and it has a setter, but for the time of creation. */
  lemma {:induction false} SetIff(m: Changes, c: Column, x: Value)
    ensures FieldSpec(c, x) in AllColumnDeltas(m, UPDATE_ORDER).assign
       <==> c in m.fields && m.fields[c] == x && Settable(c) && c != CreatedAt
  {
    FieldDeltasComplete(m, UPDATE_ORDER, c, x);
    if Settable(c) {
      UpdateOrderComplete(c);
    } else if c in UPDATE_ORDER {
      OrderIsSettable(c);
    }
  }

  // ---------- Edges ----------

  /** One edge delta. A clear without ids clears the whole edge. */
  datatype EdgeDelta = EdgeDelta(edge: EdgeName, nodes: set<int>)

  datatype EdgeDeltas = EdgeDeltas(clear: seq<EdgeDelta>, insert: seq<EdgeDelta>)

  function ManyClears(n: EdgeName, e: ToMany): seq<EdgeDelta> {
    (if e.cleared then [EdgeDelta(n, {})] else [])
    + (if e.removed != {} && !e.cleared then [EdgeDelta(n, e.removed)] else [])
  }

  function Inserts(n: EdgeName, ids: set<int>): seq<EdgeDelta> {
    if ids != {} then [EdgeDelta(n, ids)] else []
  }

  function OneClears(n: EdgeName, e: ToOne): seq<EdgeDelta> {
    if Cleared(e) then [EdgeDelta(n, {})] else []
  }

  function Pending(e: ToOne): set<int> {
    if e.id.Some? then {e.id.value} else {}
  }

  function Joined(a: EdgeDeltas, b: EdgeDeltas): EdgeDeltas {
    EdgeDeltas(a.clear + b.clear, a.insert + b.insert)
  }

  function ManyDeltas(n: EdgeName, e: ToMany): EdgeDeltas {
    EdgeDeltas(ManyClears(n, e), Inserts(n, e.added))
  }

  function OneDeltas(n: EdgeName, e: ToOne): EdgeDeltas {
    EdgeDeltas(OneClears(n, e), Inserts(n, Pending(e)))
  }

  /** The edge deltas of a mutation, in the builder's order. */
  function AllEdgeDeltas(m: Changes): EdgeDeltas {
    var keys := Joined(Joined(ManyDeltas(GroupsEdge, m.groups), OneDeltas(ProxyEdge, m.proxy)), OneDeltas(ParentEdge, m.parent));
    Joined(Joined(keys, ManyDeltas(ChildrenEdge, m.children)), ManyDeltas(UsageLogsEdge, m.usageLogs))
  }

  predicate ToOneName(n: EdgeName) {
    n == ProxyEdge || n == ParentEdge
  }

  /** Executing the clear deltas on the targets of edge `n`. */
  function ClearedBy(deltas: seq<EdgeDelta>, n: EdgeName, targets: set<int>): set<int> {
    if deltas == [] then targets
    else
      var d := deltas[|deltas| - 1];
      var before := ClearedBy(deltas[..|deltas| - 1], n, targets);
      if d.edge != n then before else if d.nodes == {} then {} else before - d.nodes
  }

  /** Executing the insert deltas: a to-one edge has one target only. */
  function InsertedBy(deltas: seq<EdgeDelta>, n: EdgeName, targets: set<int>): set<int> {
    if deltas == [] then targets
    else
      var d := deltas[|deltas| - 1];
      var before := InsertedBy(deltas[..|deltas| - 1], n, targets);
      if d.edge != n then before else if ToOneName(n) then d.nodes else before + d.nodes
  }

  /** The targets of an edge after executing its deltas, clears first. */
  function Executed(d: EdgeDeltas, n: EdgeName, targets: set<int>): set<int> {
    InsertedBy(d.insert, n, ClearedBy(d.clear, n, targets))
  }

  lemma {:induction false} ClearedByBoth(a: seq<EdgeDelta>, b: seq<EdgeDelta>, n: EdgeName, targets: set<int>)
    ensures ClearedBy(a + b, n, targets) == ClearedBy(b, n, ClearedBy(a, n, targets))
  {
    if b == [] {
      assert a + b == a;
    } else {
      assert (a + b)[..|a + b| - 1] == a + b[..|b| - 1];
      ClearedByBoth(a, b[..|b| - 1], n, targets);
    }
  }

  lemma {:induction false} InsertedByBoth(a: seq<EdgeDelta>, b: seq<EdgeDelta>, n: EdgeName, targets: set<int>)
    ensures InsertedBy(a + b, n, targets) == InsertedBy(b, n, InsertedBy(a, n, targets))
  {
    if b == [] {
      assert a + b == a;
    } else {
      assert (a + b)[..|a + b| - 1] == a + b[..|b| - 1];
      InsertedByBoth(a, b[..|b| - 1], n, targets);
    }
  }

  /** The clears of one edge, on the targets of edge `n`. */
  lemma {:induction false} ManyClearsEffect(e: EdgeName, many: ToMany, n: EdgeName, targets: set<int>)
    ensures ClearedBy(ManyClears(e, many), n, targets)
         == if e != n then targets else if many.cleared then {} else targets - many.removed
  {
    assert ClearedBy([], n, targets) == targets;
    if many.cleared {
      assert ManyClears(e, many) == [EdgeDelta(e, {})];
      assert ManyClears(e, many)[..0] == [];
    } else if many.removed != {} {
      assert ManyClears(e, many) == [EdgeDelta(e, many.removed)];
      assert ManyClears(e, many)[..0] == [];
    }
  }

  lemma {:induction false} OneClearsEffect(e: EdgeName, one: ToOne, n: EdgeName, targets: set<int>)
    ensures ClearedBy(OneClears(e, one), n, targets) == if e == n && Cleared(one) then {} else targets
  {
    assert ClearedBy([], n, targets) == targets;
    if Cleared(one) {
      assert OneClears(e, one)[..0] == [];
    }
  }

  lemma {:induction false} InsertsEffect(e: EdgeName, ids: set<int>, n: EdgeName, targets: set<int>)
    ensures InsertedBy(Inserts(e, ids), n, targets)
         == if e != n || ids == {} then targets else if ToOneName(n) then ids else targets + ids
  {
    assert InsertedBy([], n, targets) == targets;
    if ids != {} {
      assert Inserts(e, ids)[..0] == [];
    }
  }

  function ManyEdge(m: Changes, n: EdgeName): ToMany
    requires !ToOneName(n)
  {
    match n
    case GroupsEdge => m.groups
    case ChildrenEdge => m.children
    case _ => m.usageLogs
  }

  function OneEdge(m: Changes, n: EdgeName): ToOne
    requires ToOneName(n)
  {
    if n == ProxyEdge then m.proxy else m.parent
  }

  lemma {:induction false} ClearDeltasEffect(m: Changes, n: EdgeName, targets: set<int>)
    ensures ClearedBy(AllEdgeDeltas(m).clear, n, targets)
         == if ToOneName(n) then (if Cleared(OneEdge(m, n)) then {} else targets)
            else if ManyEdge(m, n).cleared then {} else targets - ManyEdge(m, n).removed
  {
    var a, b, c := ManyClears(GroupsEdge, m.groups), OneClears(ProxyEdge, m.proxy), OneClears(ParentEdge, m.parent);
    var d, e := ManyClears(ChildrenEdge, m.children), ManyClears(UsageLogsEdge, m.usageLogs);
    var t1 := ClearedBy(a, n, targets);
    var t2 := ClearedBy(b, n, t1);
    var t3 := ClearedBy(c, n, t2);
    var t4 := ClearedBy(d, n, t3);
    ClearedByBoth(a, b, n, targets);
    ClearedByBoth(a + b, c, n, targets);
    ClearedByBoth(a + b + c, d, n, targets);
    ClearedByBoth(a + b + c + d, e, n, targets);
    ManyClearsEffect(GroupsEdge, m.groups, n, targets);
    OneClearsEffect(ProxyEdge, m.proxy, n, t1);
    OneClearsEffect(ParentEdge, m.parent, n, t2);
    ManyClearsEffect(ChildrenEdge, m.children, n, t3);
    ManyClearsEffect(UsageLogsEdge, m.usageLogs, n, t4);
  }

  lemma {:induction false} InsertDeltasEffect(m: Changes, n: EdgeName, targets: set<int>)
    ensures InsertedBy(AllEdgeDeltas(m).insert, n, targets)
         == if ToOneName(n) then (if OneEdge(m, n).id.Some? then {OneEdge(m, n).id.value} else targets)
            else targets + ManyEdge(m, n).added
  {
    var a, b, c := Inserts(GroupsEdge, m.groups.added), Inserts(ProxyEdge, Pending(m.proxy)), Inserts(ParentEdge, Pending(m.parent));
    var d, e := Inserts(ChildrenEdge, m.children.added), Inserts(UsageLogsEdge, m.usageLogs.added);
    var t1 := InsertedBy(a, n, targets);
    var t2 := InsertedBy(b, n, t1);
    var t3 := InsertedBy(c, n, t2);
    var t4 := InsertedBy(d, n, t3);
    InsertedByBoth(a, b, n, targets);
    InsertedByBoth(a + b, c, n, targets);
    InsertedByBoth(a + b + c, d, n, targets);
    InsertedByBoth(a + b + c + d, e, n, targets);
    InsertsEffect(GroupsEdge, m.groups.added, n, targets);
    InsertsEffect(ProxyEdge, Pending(m.proxy), n, t1);
    InsertsEffect(ParentEdge, Pending(m.parent), n, t2);
    InsertsEffect(ChildrenEdge, m.children.added, n, t3);
    InsertsEffect(UsageLogsEdge, m.usageLogs.added, n, t4);
  }

  /** A to-many edge becomes (cleared ? nothing : what it had minus the removed ids) plus the added ids. */
  lemma {:induction false} ToManyUpdated(m: Changes, n: EdgeName, targets: set<int>)
    requires !ToOneName(n)
    ensures Executed(AllEdgeDeltas(m), n, targets) == Applied(ManyEdge(m, n), targets)
  {
    ClearDeltasEffect(m, n, targets);
    InsertDeltasEffect(m, n, ClearedBy(AllEdgeDeltas(m).clear, n, targets));
  }

  function Targets(target: Option<int>): set<int> {
    if target.Some? then {target.value} else {}
  }

  lemma {:induction false} ToOneUpdated(m: Changes, n: EdgeName, target: Option<int>)
    requires ToOneName(n)
    ensures Executed(AllEdgeDeltas(m), n, Targets(target)) == Targets(OneApplied(OneEdge(m, n), target))
  {
    ClearDeltasEffect(m, n, Targets(target));
    InsertDeltasEffect(m, n, ClearedBy(AllEdgeDeltas(m).clear, n, Targets(target)));
  }

  /** Which record of the mutation changes which edge, and how. */
  lemma {:induction false} EdgesByField(m: Changes, targets: set<int>)
    ensures Executed(AllEdgeDeltas(m), GroupsEdge, targets)
         == (if m.groups.cleared then {} else targets - m.groups.removed) + m.groups.added
    ensures Executed(AllEdgeDeltas(m), ChildrenEdge, targets)
         == (if m.children.cleared then {} else targets - m.children.removed) + m.children.added
    ensures Executed(AllEdgeDeltas(m), UsageLogsEdge, targets)
         == (if m.usageLogs.cleared then {} else targets - m.usageLogs.removed) + m.usageLogs.added
  {
    ToManyUpdated(m, GroupsEdge, targets);
    ToManyUpdated(m, ChildrenEdge, targets);
    ToManyUpdated(m, UsageLogsEdge, targets);
  }

  lemma {:induction false} KeysByField(m: Changes, target: Option<int>)
    ensures Executed(AllEdgeDeltas(m), ProxyEdge, Targets(target))
         == if m.proxy.id.Some? then {m.proxy.id.value}
            else if m.proxy.clearedEdge || m.proxy.clearedField then {} else Targets(target)
    ensures Executed(AllEdgeDeltas(m), ParentEdge, Targets(target))
         == if m.parent.id.Some? then {m.parent.id.value}
            else if m.parent.clearedEdge || m.parent.clearedField then {} else Targets(target)
  {
    ToOneUpdated(m, ProxyEdge, target);
    ToOneUpdated(m, ParentEdge, target);
  }

  /** From the setters to the database: an edge ends as its operations say, whatever it was, exactly when no id is stale. */
  lemma {:induction false} UpdateIsFaithful(m: Changes, n: EdgeName, ops: seq<ManyOp>)
    requires !ToOneName(n) && ManyEdge(m, n) == AllRecorded(ops)
    ensures (forall targets :: Executed(AllEdgeDeltas(m), n, targets) == Meant(ops, targets)) <==> Stale(ops) == {}
  {
    forall targets
      ensures Executed(AllEdgeDeltas(m), n, targets) == Applied(AllRecorded(ops), targets)
    {
      ToManyUpdated(m, n, targets);
    }
    FaithfulIffNotStale(ops);
    if Stale(ops) != {} {
      var targets :| Applied(AllRecorded(ops), targets) != Meant(ops, targets);
      assert Executed(AllEdgeDeltas(m), n, targets) != Meant(ops, targets);
    }
  }

  lemma {:induction false} ToOneUpdateIsFaithful(m: Changes, n: EdgeName, ops: seq<OneOp>)
    requires ToOneName(n) && OneEdge(m, n) == AllOneRecorded(ops)
    ensures (forall target :: Executed(AllEdgeDeltas(m), n, Targets(target)) == Targets(OneMeant(ops, target))) <==> Handled(ops)
  {
    forall target
      ensures Executed(AllEdgeDeltas(m), n, Targets(target)) == Targets(OneApplied(AllOneRecorded(ops), target))
    {
      ToOneUpdated(m, n, target);
    }
    FaithfulIffHandled(ops);
    if !Handled(ops) {
      var target :| OneApplied(AllOneRecorded(ops), target) != OneMeant(ops, target);
      TargetsDiffer(OneApplied(AllOneRecorded(ops), target), OneMeant(ops, target));
    }
  }

  lemma {:induction false} TargetsDiffer(a: Option<int>, b: Option<int>)
    requires a != b
    ensures Targets(a) != Targets(b)
  {
    if a.Some? {
      assert a.value in Targets(a);
    } else {
      assert b.value in Targets(b);
    }
  }

  // ---------- The builders ----------

  /** The update spec that a builder fills in place. */
  class UpdateSpec {
    var node: Option<int>
    var columns: seq<Column>
    var fields: FieldDeltas
    var edges: EdgeDeltas

    constructor ()
      ensures node == None && columns == [] && fields == FieldDeltas([], [], []) && edges == EdgeDeltas([], [])
    {
      node, columns, fields, edges := None, [], FieldDeltas([], [], []), EdgeDeltas([], []);
    }

    method AddFields(m: Changes, order: seq<Column>)
      requires fields == FieldDeltas([], [], [])
      modifies this`fields
      ensures fields == AllColumnDeltas(m, order)
    {
      for k := 0 to |order|
        invariant fields == AllColumnDeltas(m, order[..k])
      {
        assert order[..k + 1][..k] == order[..k];
        var c := order[k];
        if c in m.fields {
          fields := fields.(assign := fields.assign + [FieldSpec(c, m.fields[c])]);
        }
        if Numeric(c) && c in m.added {
          fields := fields.(increment := fields.increment + [FieldSpec(c, m.added[c])]);
        }
        if Optional(c) && c in m.cleared {
          fields := fields.(clear := fields.clear + [c]);
        }
      }
      assert order[..|order|] == order;
    }

    method AddToMany(n: EdgeName, e: ToMany)
      modifies this`edges
      ensures edges == Joined(old(edges), ManyDeltas(n, e))
    {
      if e.cleared {
        edges := edges.(clear := edges.clear + [EdgeDelta(n, {})]);
      }
      if e.removed != {} && !e.cleared {
        edges := edges.(clear := edges.clear + [EdgeDelta(n, e.removed)]);
      }
      if e.added != {} {
        edges := edges.(insert := edges.insert + [EdgeDelta(n, e.added)]);
      }
    }

    method AddToOne(n: EdgeName, e: ToOne)
      modifies this`edges
      ensures edges == Joined(old(edges), OneDeltas(n, e))
    {
      if Cleared(e) {
        edges := edges.(clear := edges.clear + [EdgeDelta(n, {})]);
      }
      if e.id.Some? {
        edges := edges.(insert := edges.insert + [EdgeDelta(n, {e.id.value})]);
      }
    }

    method AddEdges(m: Changes)
      requires edges == EdgeDeltas([], [])
      modifies this`edges
      ensures edges == AllEdgeDeltas(m)
    {
      AddToMany(GroupsEdge, m.groups);
      assert edges == ManyDeltas(GroupsEdge, m.groups);
      AddToOne(ProxyEdge, m.proxy);
      AddToOne(ParentEdge, m.parent);
      AddToMany(ChildrenEdge, m.children);
      AddToMany(UsageLogsEdge, m.usageLogs);
    }

    /** The columns to read back: the id, then the selected columns; an unknown one is an error. */
    method SelectColumns(selected: seq<Column>) returns (err: Option<Error>)
      requires columns == []
      modifies this`columns
      ensures err.Some? <==> exists c :: c in selected && c.Unknown?
      ensures err.Some? ==> exists i :: FirstUnknown(selected, i) && err == Some(InvalidField(selected[i]))
      ensures err == None ==> columns == ReadBack(selected)
    {
      if selected == [] {
        return None;
      }
      columns := [ID];
      for i := 0 to |selected|
        invariant forall j :: 0 <= j < i ==> !selected[j].Unknown?
        invariant columns == [ID] + WithoutID(selected[..i])
      {
        assert selected[..i + 1][..i] == selected[..i];
        if selected[i].Unknown? {
          assert FirstUnknown(selected, i);
          return Some(InvalidField(selected[i]));
        }
        if selected[i] != ID {
          columns := columns + [selected[i]];
        }
      }
      assert selected[..|selected|] == selected;
      err := None;
    }
  }

  ghost predicate FirstUnknown(selected: seq<Column>, i: int) {
    0 <= i < |selected| && selected[i].Unknown? && forall j :: 0 <= j < i ==> !selected[j].Unknown?
  }

  function WithoutID(selected: seq<Column>): seq<Column> {
    if selected == [] then []
    else
      var front := WithoutID(selected[..|selected| - 1]);
      if selected[|selected| - 1] == ID then front else front + [selected[|selected| - 1]]
  }

  /** No selection reads all columns. */
  function ReadBack(selected: seq<Column>): seq<Column> {
    if selected == [] then [] else [ID] + WithoutID(selected)
  }

  /** The id is read back once and first, and every selected column is read back. */
  lemma {:induction false} ReadBackComplete(selected: seq<Column>, c: Column)
    requires selected != []
    ensures ReadBack(selected)[0] == ID && ID !in ReadBack(selected)[1..]
    ensures c in ReadBack(selected) <==> c == ID || c in selected
  {
    WithoutIDComplete(selected, c);
    WithoutIDComplete(selected, ID);
  }

  lemma {:induction false} WithoutIDComplete(selected: seq<Column>, c: Column)
    ensures c in WithoutID(selected) <==> c in selected && c != ID
  {
    if selected != [] {
      WithoutIDComplete(selected[..|selected| - 1], c);
      assert selected == selected[..|selected| - 1] + [selected[|selected| - 1]];
    }
  }

  const UPDATE_CHECKS: seq<Check> := [
    Validate(Name), Validate(Platform), Validate(Type), Validate(Status), Validate(SessionWindowStatus), Validate(QuotaDimension)]

  /** The selected columns are read back in the order of the selection. */
  lemma {:induction false} ReadBackInOrder(a: seq<Column>, b: seq<Column>)
    ensures WithoutID(a + b) == WithoutID(a) + WithoutID(b)
    ensures ID !in b ==> WithoutID(b) == b
    ensures WithoutID([ID]) == []
    decreases |b|
  {
    assert [ID][..0] == [];
    if b == [] {
      assert a + b == a;
    } else {
      var front := b[..|b| - 1];
      assert (a + b)[..|a + b| - 1] == a + front && b == front + [b[|b| - 1]];
      ReadBackInOrder(a, front);
    }
  }

  /** An update is checked by the same validators as a create, and nothing is required. */
  lemma {:induction false} UpdateAccepts(v: Validators, f: Fields)
    ensures FirstFailure(v, f, UPDATE_CHECKS) == None <==> AllValid(v, f)
  {
    UpdateChecksInOrder(v, f);
  }

  /** The checks of an update run in this order, and the first that fails is reported. */
  lemma {:induction false} UpdateChecksInOrder(v: Validators, f: Fields)
    ensures FirstFailure(v, f, UPDATE_CHECKS)
         == Failing(Valid(f, Name, v.name), Invalid(Name), Failing(Valid(f, Platform, v.platform), Invalid(Platform),
            Failing(Valid(f, Type, v.kind), Invalid(Type), Failing(Valid(f, Status, v.status), Invalid(Status),
            Failing(Valid(f, SessionWindowStatus, v.windowStatus), Invalid(SessionWindowStatus),
            Failing(Valid(f, QuotaDimension, s => s == "global" || s == "spark"), Invalid(QuotaDimension), None))))))
  {
    FirstOf(v, f, Validate(QuotaDimension), []);
    FirstOfFive(v, f, Validate(Name), Validate(Platform), Validate(Type), Validate(Status), Validate(SessionWindowStatus),
                [Validate(QuotaDimension)] + []);
    assert UPDATE_CHECKS == [Validate(Name), Validate(Platform), Validate(Type), Validate(Status), Validate(SessionWindowStatus)]
                            + ([Validate(QuotaDimension)] + []);
  }

  /** The update of all matching accounts. */
  method SaveMany(v: Validators, m: Changes) returns (r: Result<UpdateSpec, Error>)
    ensures r.Err? <==> FirstFailure(v, m.fields, UPDATE_CHECKS).Some?
    ensures r.Err? ==> r.error == Rejected(FirstFailure(v, m.fields, UPDATE_CHECKS).value)
    ensures r.Ok? ==> fresh(r.value) && r.value.node == None && r.value.columns == []
                      && r.value.fields == AllColumnDeltas(m, UPDATE_ORDER) && r.value.edges == AllEdgeDeltas(m)
  {
    var failure := FirstFailure(v, m.fields, UPDATE_CHECKS);
    if failure.Some? {
      return Err(Rejected(failure.value));
    }
    var spec := new UpdateSpec();
    spec.AddFields(m, UPDATE_ORDER);
    spec.AddEdges(m);
    return Ok(spec);
  }

  /** The update of one account: the same deltas, or one of two more errors. */
  method SaveOne(v: Validators, m: Changes, selected: seq<Column>) returns (r: Result<UpdateSpec, Error>)
    ensures r.Err? <==> FirstFailure(v, m.fields, UPDATE_CHECKS).Some? || m.id == None || exists c :: c in selected && c.Unknown?
    ensures r.Err? && FirstFailure(v, m.fields, UPDATE_CHECKS).Some? ==>
              r.error == Rejected(FirstFailure(v, m.fields, UPDATE_CHECKS).value)
    ensures r.Err? && FirstFailure(v, m.fields, UPDATE_CHECKS) == None && m.id == None ==> r.error == MissingID
    ensures r.Err? && FirstFailure(v, m.fields, UPDATE_CHECKS) == None && m.id != None ==>
              exists i :: FirstUnknown(selected, i) && r.error == InvalidField(selected[i])
    ensures r.Ok? ==> fresh(r.value) && r.value.node == m.id && r.value.columns == ReadBack(selected)
                      && r.value.fields == AllColumnDeltas(m, UPDATE_ORDER) && r.value.edges == AllEdgeDeltas(m)
  {
    var failure := FirstFailure(v, m.fields, UPDATE_CHECKS);
    if failure.Some? {
      return Err(Rejected(failure.value));
    }
    r := SpecOfOne(m.id, selected);
    if r.Ok? {
      r.value.AddFields(m, UPDATE_ORDER);
      r.value.AddEdges(m);
    }
  }

  /** The spec of one account before its deltas: its id, and the columns to read back. */
  method SpecOfOne(id: Option<int>, selected: seq<Column>) returns (r: Result<UpdateSpec, Error>)
    ensures r.Err? <==> id == None || exists c :: c in selected && c.Unknown?
    ensures id == None ==> r == Err(MissingID)
    ensures r.Err? && id != None ==> exists i :: FirstUnknown(selected, i) && r.error == InvalidField(selected[i])
    ensures r.Ok? ==> fresh(r.value) && r.value.node == id && r.value.columns == ReadBack(selected)
                      && r.value.fields == FieldDeltas([], [], []) && r.value.edges == EdgeDeltas([], [])
  {
    if id == None {
      return Err(MissingID);
    }
    var spec := new UpdateSpec();
    spec.node := id;
    var err := spec.SelectColumns(selected);
    if err.Some? {
      return Err(err.value);
    }
    return Ok(spec);
  }
}
