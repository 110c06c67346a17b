/** Creating one account: defaults, checks, and the row that is written. */
module AccountCreate {
  import opened Wrappers
  import opened AccountEntity

  /** The observable content of a create mutation: set fields, and edges by id. */
  datatype Mutation = Mutation(fields: Fields, groups: set<int>, proxy: Option<int>, parent: Option<int>,
                               children: set<int>, usageLogs: set<int>)

  /** The columns a setter exists for. Foreign keys are set through their edges. */
  predicate Settable(c: Column) {
    !c.Unknown? && !c.ID? && !c.ProxyID? && !c.ParentAccountID?
  }

  /** What the Go types of the setters guarantee. */
  predicate WellTyped(m: Mutation) {
    forall c :: c in m.fields ==> Settable(c) && Fits(m.fields[c], ScanKind(c))
  }

  /** A mutation as the setters leave it. */
  type TypedMutation = m: Mutation | WellTyped(m) witness Mutation(map[], {}, None, None, {}, {})

  datatype Error =
    | Uninitialized(column: Column) | Missing(column: Column) | Invalid(column: Column)
    | Failed(message: string) | Constraint(cause: Error)

  // ---------- Defaults ----------

  /** The default values of the runtime package; a function that was never registered is None. */
  datatype Runtime = Runtime(createdAt: Option<int>, updatedAt: Option<int>, credentials: Option<Dict>, extra: Option<Dict>,
                             concurrency: int, priority: int, rateMultiplier: real, status: string, autoPause: bool, schedulable: bool)

  const DEFAULTED: seq<Column> := [
    CreatedAt, UpdatedAt, Credentials, Extra, Concurrency, Priority, RateMultiplier, Status, AutoPauseOnExpired, Schedulable,
    QuotaDimension]

  function Default(rt: Runtime, c: Column): Option<Value> {
    match c
    case CreatedAt => if rt.createdAt.Some? then Some(Time(rt.createdAt.value)) else None
    case UpdatedAt => if rt.updatedAt.Some? then Some(Time(rt.updatedAt.value)) else None
    case Credentials => if rt.credentials.Some? then Some(Json(rt.credentials)) else None
    case Extra => if rt.extra.Some? then Some(Json(rt.extra)) else None
    case Concurrency => Some(Int(rt.concurrency))
    case Priority => Some(Int(rt.priority))
    case RateMultiplier => Some(Float(rt.rateMultiplier))
    case Status => Some(Str(rt.status))
    case AutoPauseOnExpired => Some(Bool(rt.autoPause))
    case Schedulable => Some(Bool(rt.schedulable))
    case QuotaDimension => Some(Str("global"))
    case _ => None
  }

  class Builder {
    var mutation: Mutation

    constructor (m: Mutation)
      ensures mutation == m
    {
      mutation := m;
    }

    /** Gives `c` its default unless it is set; fails when there is none. */
    method SetDefault(rt: Runtime, c: Column) returns (err: Option<Error>)
      modifies this
      ensures mutation == old(mutation).(fields := mutation.fields)
      ensures err == if c in old(mutation.fields) || Default(rt, c).Some? then None else Some(Uninitialized(c))
      ensures mutation.fields == if c in old(mutation.fields) || Default(rt, c).None? then old(mutation.fields)
                                 else old(mutation.fields)[c := Default(rt, c).value]
    {
      err := None;
      if c !in mutation.fields {
        if Default(rt, c).None? {
          return Some(Uninitialized(c));
        }
        mutation := mutation.(fields := mutation.fields[c := Default(rt, c).value]);
      }
    }

    /** Fills in the unset fields that have a default, in order; an unregistered default stops it there. */
    method Defaults(rt: Runtime) returns (err: Option<Error>)
      modifies this
      ensures mutation == old(mutation).(fields := mutation.fields)
      ensures exists k :: DefaultedUpTo(rt, old(mutation.fields), mutation.fields, err, k) && (err == None ==> k == |DEFAULTED|)
    {
      for k := 0 to |DEFAULTED|
        invariant mutation == old(mutation).(fields := mutation.fields)
        invariant DefaultedUpTo(rt, old(mutation.fields), mutation.fields, None, k)
      {
        err := SetDefault(rt, DEFAULTED[k]);
        if err.Some? {
          assert DefaultedUpTo(rt, old(mutation.fields), mutation.fields, err, k);
          return;
        }
      }
      err := None;
      assert DefaultedUpTo(rt, old(mutation.fields), mutation.fields, err, |DEFAULTED|);
    }

    /** Builds the entity to return and the row to write. */
    method CreateSpec() returns (node: Fields, spec: Spec)
      requires WellTyped(mutation)
      ensures node == NodeOf(mutation)
      ensures spec.fields == FieldSpecs(mutation.fields, SPEC_ORDER)
      ensures spec.edges == EdgeSpecs(mutation)
    {
      var fields, edges;
      node, fields := CreateFields(SPEC_ORDER);
      FieldsUpToAll(mutation);
      node, edges := CreateEdges(node);
      spec := Spec(fields, edges);
    }

    /** The set columns, in order: into the spec, and into the entity. */
    method CreateFields(order: seq<Column>) returns (node: Fields, fields: seq<FieldSpec>)
      ensures node == FieldsUpTo(mutation.fields, order)
      ensures fields == FieldSpecs(mutation.fields, order)
    {
      node, fields := ZERO_FIELDS, [];
      for k := 0 to |order|
        invariant fields == FieldSpecs(mutation.fields, order[..k])
        invariant node == FieldsUpTo(mutation.fields, order[..k])
      {
        assert order[..k + 1][..k] == order[..k];
        var c := order[k];
        if c in mutation.fields {
          fields := fields + [FieldSpec(c, mutation.fields[c])];
          node := if mutation.fields[c] == Json(None) then node - {c} else node[c := mutation.fields[c]];
        }
      }
      assert order[..|order|] == order;
    }

    /** The edges, in order; the two foreign keys also go into the entity. */
    method CreateEdges(own: Fields) returns (node: Fields, edges: seq<EdgeSpec>)
      ensures node == own + KeyFields(mutation)
      ensures edges == EdgeSpecs(mutation)
    {
      node := own;
      edges := AddEdge(GroupsEdge, []);
      edges := AddEdge(ProxyEdge, edges);
      if mutation.proxy.Some? {
        node := node[ProxyID := Int(mutation.proxy.value)];
      }
      edges := AddEdge(ParentEdge, edges);
      if mutation.parent.Some? {
        node := node[ParentAccountID := Int(mutation.parent.value)];
      }
      edges := AddEdge(ChildrenEdge, edges);
      edges := AddEdge(UsageLogsEdge, edges);
    }

    /** Adds the spec of one edge, unless the edge has no ids. */
    method AddEdge(n: EdgeName, before: seq<EdgeSpec>) returns (edges: seq<EdgeSpec>)
      ensures edges == before + EdgeSpecOf(mutation, n)
    {
      edges := before;
      if EdgeIDs(mutation, n) != {} {
        edges := edges + [EdgeSpec(n, EdgeIDs(mutation, n))];
      }
    }
  }

  /** The first `k` defaults are in place; the error, if any, is about the next one. */
  ghost predicate DefaultedUpTo(rt: Runtime, before: Fields, after: Fields, err: Option<Error>, k: nat) {
    && k <= |DEFAULTED|
    && (forall c :: c in after <==> c in before || c in DEFAULTED[..k])
    && (forall c :: c in after ==>
          if c in before then after[c] == before[c] else Default(rt, c) == Some(after[c]))
    && (err == None || (k < |DEFAULTED| && err == Some(Uninitialized(DEFAULTED[k])) && DEFAULTED[k] !in before && Default(rt, DEFAULTED[k]) == None))
  }

  // ---------- Checks ----------

  /** The validators of the schema, as opaque predicates; the enum's validator is concrete. */
  datatype Validators = Validators(name: string -> bool, platform: string -> bool, kind: string -> bool,
                                   status: string -> bool, windowStatus: string -> bool)

  predicate Validates(v: Validators, c: Column, x: Value) {
    match c
    case Name => x.Str? ==> v.name(x.s)
    case Platform => x.Str? ==> v.platform(x.s)
    case Type => x.Str? ==> v.kind(x.s)
    case Status => x.Str? ==> v.status(x.s)
    case SessionWindowStatus => x.Str? ==> v.windowStatus(x.s)
    case QuotaDimension => x.Str? ==> x.s in {"global", "spark"}
    case _ => true
  }

  datatype Check = Require(column: Column) | Validate(column: Column)

  /** The checks of the builder, in order. */
  const CHECKS: seq<Check> := [
    Require(CreatedAt), Require(UpdatedAt), Require(Name), Validate(Name), Require(Platform), Validate(Platform),
    Require(Type), Validate(Type), Require(Credentials), Require(Extra), Require(Concurrency), Require(Priority),
    Require(RateMultiplier), Require(Status), Validate(Status), Require(AutoPauseOnExpired), Require(Schedulable),
    Validate(SessionWindowStatus), Require(QuotaDimension), Validate(QuotaDimension)]

  predicate Passes(v: Validators, f: Fields, c: Check) {
    match c
    case Require(column) => column in f
    case Validate(column) => column in f ==> Validates(v, column, f[column])
  }

  function CheckError(c: Check): Error {
    match c
    case Require(column) => Missing(column)
    case Validate(column) => Invalid(column)
  }

  /** Runs the checks in order and reports the first that fails. */
  function FirstFailure(v: Validators, f: Fields, checks: seq<Check>): Option<Error> {
    if checks == [] then None
    else if Passes(v, f, checks[0]) then FirstFailure(v, f, checks[1..])
    else Some(CheckError(checks[0]))
  }

  function CheckAll(v: Validators, f: Fields): Option<Error> {
    FirstFailure(v, f, CHECKS)
  }

  const REQUIRED: set<Column> := {
    CreatedAt, UpdatedAt, Name, Platform, Type, Credentials, Extra, Concurrency, Priority, RateMultiplier, Status,
    AutoPauseOnExpired, Schedulable, QuotaDimension}

  lemma {:induction false} FailureIsFirst(v: Validators, f: Fields, checks: seq<Check>)
    ensures FirstFailure(v, f, checks) == None <==> forall c :: c in checks ==> Passes(v, f, c)
    ensures FirstFailure(v, f, checks).Some? ==>
              exists i :: 0 <= i < |checks| && FirstFailure(v, f, checks) == Some(CheckError(checks[i])) && !Passes(v, f, checks[i])
                && forall j :: 0 <= j < i ==> Passes(v, f, checks[j])
  {
    if checks != [] && Passes(v, f, checks[0]) {
      FailureIsFirst(v, f, checks[1..]);
      if FirstFailure(v, f, checks).Some? {
        var i :| 0 <= i < |checks[1..]| && FirstFailure(v, f, checks[1..]) == Some(CheckError(checks[1..][i]))
                 && !Passes(v, f, checks[1..][i]) && forall j :: 0 <= j < i ==> Passes(v, f, checks[1..][j]);
        assert checks[i + 1] == checks[1..][i];
        forall j | 0 <= j < i + 1
          ensures Passes(v, f, checks[j])
        {
          assert j > 0 ==> checks[j] == checks[1..][j - 1];
        }
      }
    }
  }

  // ---------- The row ----------

  /** The order in which the spec lists the set columns. */
  const SPEC_ORDER: seq<Column> := [
    CreatedAt, UpdatedAt, DeletedAt, Name, Notes, Platform, Type, Credentials, Extra, ProxyFallbackOriginID, Concurrency,
    LoadFactor, Priority, RateMultiplier, Status, ErrorMessage, LastUsedAt, ExpiresAt, AutoPauseOnExpired, Schedulable,
    RateLimitedAt, RateLimitResetAt, OverloadUntil, TempUnschedulableUntil, TempUnschedulableReason, SessionWindowStart,
    SessionWindowEnd, SessionWindowStatus, QuotaDimension]

  datatype FieldSpec = FieldSpec(column: Column, value: Value)
  datatype EdgeName = GroupsEdge | ProxyEdge | ParentEdge | ChildrenEdge | UsageLogsEdge

  /** An edge and its target ids. The ids come out of a hash map, so their order means nothing. */
  datatype EdgeSpec = EdgeSpec(edge: EdgeName, nodes: set<int>)

  datatype Spec = Spec(fields: seq<FieldSpec>, edges: seq<EdgeSpec>)

  function FieldSpecs(f: Fields, order: seq<Column>): seq<FieldSpec> {
    if order == [] then []
    else
      var c := order[|order| - 1];
      var front := FieldSpecs(f, order[..|order| - 1]);
      if c in f then front + [FieldSpec(c, f[c])] else front
  }

  /** A nil JSON map is stored as `null` and read back as nil. */
  function Stored(x: Value): Option<Value> {
    if x == Json(None) then None else Some(x)
  }

  /** The entity's own fields: zero unless set. */
  function OwnFields(f: Fields): Fields {
    Overlaid(ZERO_FIELDS, f)
  }

  function Overlaid(zero: Fields, f: Fields): Fields {
    (map c | c in zero && c !in f :: zero[c]) + (map c | c in f && f[c] != Json(None) :: f[c])
  }

  lemma OverlaidAt(zero: Fields, f: Fields, c: Column)
    ensures FieldOf(Overlaid(zero, f), c) == if c in f then Stored(f[c]) else FieldOf(zero, c)
  {
  }

  /** The foreign keys that the proxy and parent edges carry. */
  function KeyFields(m: Mutation): Fields {
    var proxy: Fields := if m.proxy.Some? then map[ProxyID := Int(m.proxy.value)] else map[];
    var parent: Fields := if m.parent.Some? then map[ParentAccountID := Int(m.parent.value)] else map[];
    proxy + parent
  }

  /** The entity a create returns, before the database has given it an id. */
  function NodeOf(m: Mutation): Fields {
    OwnFields(m.fields) + KeyFields(m)
  }

  function FieldsUpTo(f: Fields, order: seq<Column>): Fields {
    if order == [] then ZERO_FIELDS
    else
      var c := order[|order| - 1];
      var node := FieldsUpTo(f, order[..|order| - 1]);
      if c !in f then node else if f[c] == Json(None) then node - {c} else node[c := f[c]]
  }

  lemma {:induction false} FieldsUpToAt(f: Fields, order: seq<Column>, c: Column)
    ensures FieldOf(FieldsUpTo(f, order), c) == if c in order && c in f then Stored(f[c]) else FieldOf(ZERO_FIELDS, c)
  {
    if order != [] {
      FieldsUpToAt(f, order[..|order| - 1], c);
      assert order == order[..|order| - 1] + [order[|order| - 1]];
    }
  }

  lemma SettableInOrder(c: Column)
    requires Settable(c)
    ensures c in SPEC_ORDER
  {
    assert SPEC_ORDER[SpecIndex(c)] == c;
  }

  function SpecIndex(c: Column): nat {
    match c
    case CreatedAt => 0 case UpdatedAt => 1 case DeletedAt => 2 case Name => 3 case Notes => 4 case Platform => 5
    case Type => 6 case Credentials => 7 case Extra => 8 case ProxyFallbackOriginID => 9 case Concurrency => 10
    case LoadFactor => 11 case Priority => 12 case RateMultiplier => 13 case Status => 14 case ErrorMessage => 15
    case LastUsedAt => 16 case ExpiresAt => 17 case AutoPauseOnExpired => 18 case Schedulable => 19
    case RateLimitedAt => 20 case RateLimitResetAt => 21 case OverloadUntil => 22 case TempUnschedulableUntil => 23
    case TempUnschedulableReason => 24 case SessionWindowStart => 25 case SessionWindowEnd => 26
    case SessionWindowStatus => 27 case _ => 28
  }

  lemma {:induction false} FieldsUpToAll(m: Mutation)
    requires WellTyped(m)
    ensures FieldsUpTo(m.fields, SPEC_ORDER) == OwnFields(m.fields)
  {
    var built, own := FieldsUpTo(m.fields, SPEC_ORDER), OwnFields(m.fields);
    forall c
      ensures FieldOf(built, c) == FieldOf(own, c)
    {
      FieldsUpToAt(m.fields, SPEC_ORDER, c);
      OverlaidAt(ZERO_FIELDS, m.fields, c);
      if c in m.fields {
        SettableInOrder(c);
      }
    }
    SameFields(built, own);
  }

  lemma SameFields(f: Fields, g: Fields)
    requires forall c :: FieldOf(f, c) == FieldOf(g, c)
    ensures f == g
  {
    forall c
      ensures c in f <==> c in g
      ensures c in f ==> f[c] == g[c]
    {
      assert FieldOf(f, c) == FieldOf(g, c);
    }
  }

  function EdgeSpecOf(m: Mutation, n: EdgeName): seq<EdgeSpec> {
    if EdgeIDs(m, n) == {} then [] else [EdgeSpec(n, EdgeIDs(m, n))]
  }

  /** One spec per non-empty edge, in the builder's order. */
  function EdgeSpecs(m: Mutation): seq<EdgeSpec> {
    EdgeSpecOf(m, GroupsEdge) + EdgeSpecOf(m, ProxyEdge) + EdgeSpecOf(m, ParentEdge) + EdgeSpecOf(m, ChildrenEdge)
    + EdgeSpecOf(m, UsageLogsEdge)
  }

  /** An edge is written exactly when it has ids, and with exactly those. */
  lemma {:induction false} EdgeSpecsComplete(m: Mutation, e: EdgeSpec)
    ensures e in EdgeSpecs(m) <==> e.nodes != {} && e.nodes == EdgeIDs(m, e.edge)
  {
    assert forall n: EdgeName :: e in EdgeSpecOf(m, n) <==> e.edge == n && e.nodes != {} && e.nodes == EdgeIDs(m, n);
    match e.edge
    case GroupsEdge =>
    case ProxyEdge =>
    case ParentEdge =>
    case ChildrenEdge =>
    case UsageLogsEdge =>
  }

  /** Which field of the mutation goes into which edge. */
  lemma {:induction false} EdgeSpecsByField(m: Mutation, ids: set<int>)
    ensures EdgeSpec(GroupsEdge, ids) in EdgeSpecs(m) <==> ids == m.groups && ids != {}
    ensures EdgeSpec(ChildrenEdge, ids) in EdgeSpecs(m) <==> ids == m.children && ids != {}
    ensures EdgeSpec(UsageLogsEdge, ids) in EdgeSpecs(m) <==> ids == m.usageLogs && ids != {}
    ensures EdgeSpec(ProxyEdge, ids) in EdgeSpecs(m) <==> m.proxy.Some? && ids == {m.proxy.value}
    ensures EdgeSpec(ParentEdge, ids) in EdgeSpecs(m) <==> m.parent.Some? && ids == {m.parent.value}
  {
    EdgeSpecsComplete(m, EdgeSpec(GroupsEdge, ids));
    EdgeSpecsComplete(m, EdgeSpec(ChildrenEdge, ids));
    EdgeSpecsComplete(m, EdgeSpec(UsageLogsEdge, ids));
    EdgeSpecsComplete(m, EdgeSpec(ProxyEdge, ids));
    EdgeSpecsComplete(m, EdgeSpec(ParentEdge, ids));
  }

  function EdgeIDs(m: Mutation, n: EdgeName): set<int> {
    match n
    case GroupsEdge => m.groups
    case ProxyEdge => if m.proxy.Some? then {m.proxy.value} else {}
    case ParentEdge => if m.parent.Some? then {m.parent.value} else {}
    case ChildrenEdge => m.children
    case UsageLogsEdge => m.usageLogs
  }

  // ---------- Round trip ----------

  /** How a value is stored: JSON as bytes, everything else as a typed cell. */
  function CellFor(x: Value): Cell {
    if x.Json? then Text(Encoded(x.doc)) else Plain(x)
  }

  /** The row the database holds after executing the spec: its cells, the keys of its to-one edges, the id, NULL elsewhere. */
  ghost predicate Executed(spec: Spec, id: int, row: StoredRow) {
    && CellOf(row, ID) == Plain(Int(id))
    && (forall x :: x in spec.fields ==> CellOf(row, x.column) == CellFor(x.value))
    && KeyWritten(spec.edges, ProxyEdge, CellOf(row, ProxyID))
    && KeyWritten(spec.edges, ParentEdge, CellOf(row, ParentAccountID))
    && (forall c :: Settable(c) && CellOf(row, c) != Null ==> exists x :: x in spec.fields && x.column == c)
  }

  /** The foreign key of a to-one edge: the edge's one target, or NULL when the spec has no such edge. */
  ghost predicate KeyWritten(edges: seq<EdgeSpec>, edge: EdgeName, cell: Cell) {
    && (forall k :: EdgeSpec(edge, {k}) in edges ==> cell == Plain(Int(k)))
    && ((forall e :: e in edges ==> e.edge != edge) ==> cell == Null)
  }

  lemma {:induction false} SpecHoldsFields(f: Fields, order: seq<Column>, x: FieldSpec)
    ensures x in FieldSpecs(f, order) <==> x.column in order && x.column in f && x.value == f[x.column]
  {
    if order != [] {
      SpecHoldsFields(f, order[..|order| - 1], x);
      assert order == order[..|order| - 1] + [order[|order| - 1]];
    }
  }

  lemma {:induction false} KeyOf(m: Mutation, edge: EdgeName, key: Option<int>, cell: Cell)
    requires KeyWritten(EdgeSpecs(m), edge, cell)
    requires EdgeIDs(m, edge) == if key.Some? then {key.value} else {}
    ensures cell == if key.Some? then Plain(Int(key.value)) else Null
  {
    match key
    case Some(k) =>
      EdgeSpecsComplete(m, EdgeSpec(edge, {k}));
    case None =>
      forall e | e in EdgeSpecs(m)
        ensures e.edge != edge
      {
        EdgeSpecsComplete(m, e);
      }
  }

  /** What a create executes. */
  ghost predicate Written(m: Mutation, id: int, row: StoredRow) {
    Executed(Spec(FieldSpecs(m.fields, SPEC_ORDER), EdgeSpecs(m)), id, row)
  }

  lemma {:induction false} OwnCell(m: Mutation, id: int, row: StoredRow, c: Column)
    requires WellTyped(m) && Written(m, id, row) && Settable(c)
    ensures CellOf(row, c) == if c in m.fields then CellFor(m.fields[c]) else Null
  {
    var fields := FieldSpecs(m.fields, SPEC_ORDER);
    if c in m.fields {
      SettableInOrder(c);
      SpecHoldsFields(m.fields, SPEC_ORDER, FieldSpec(c, m.fields[c]));
      assert FieldSpec(c, m.fields[c]) in fields;
    } else if CellOf(row, c) != Null {
      var x :| x in fields && x.column == c;
      SpecHoldsFields(m.fields, SPEC_ORDER, x);
    }
  }

  lemma {:induction false} KeyCells(m: Mutation, id: int, row: StoredRow)
    requires Written(m, id, row)
    ensures CellOf(row, ID) == Plain(Int(id))
    ensures CellOf(row, ProxyID) == if m.proxy.Some? then Plain(Int(m.proxy.value)) else Null
    ensures CellOf(row, ParentAccountID) == if m.parent.Some? then Plain(Int(m.parent.value)) else Null
  {
    KeyOf(m, ProxyEdge, m.proxy, CellOf(row, ProxyID));
    KeyOf(m, ParentEdge, m.parent, CellOf(row, ParentAccountID));
  }

  lemma {:induction false} NodeAt(m: Mutation, own: Fields, id: int, c: Column)
    ensures FieldOf((own + KeyFields(m))[ID := Int(id)], c)
         == if c.ID? then Some(Int(id))
            else if c.ProxyID? && m.proxy.Some? then Some(Int(m.proxy.value))
            else if c.ParentAccountID? && m.parent.Some? then Some(Int(m.parent.value))
            else FieldOf(own, c)
  {
  }

  /** The entity that a create returns, column by column. */
  function NodeValue(m: Mutation, id: int, c: Column): Option<Value> {
    if c.ID? then Some(Int(id))
    else if c.ProxyID? && m.proxy.Some? then Some(Int(m.proxy.value))
    else if c.ParentAccountID? && m.parent.Some? then Some(Int(m.parent.value))
    else if c in m.fields then Stored(m.fields[c]) else Zero(c)
  }

  lemma {:induction false} NodeField(m: Mutation, id: int, c: Column)
    ensures FieldOf(NodeOf(m)[ID := Int(id)], c) == NodeValue(m, id, c)
  {
    NodeAt(m, OwnFields(m.fields), id, c);
    OverlaidAt(ZERO_FIELDS, m.fields, c);
    ZeroFields(c);
  }

  lemma KeyMeans(m: Mutation, id: int, c: Column, key: Option<int>)
    requires (c.ProxyID? && key == m.proxy) || (c.ParentAccountID? && key == m.parent)
    requires c !in m.fields
    ensures var cell := if key.Some? then Plain(Int(key.value)) else Null;
            CellFits(c, cell) && Meaning(c, cell) == NodeValue(m, id, c)
  {
  }

  lemma {:induction false} KeyCell(m: Mutation, id: int, row: StoredRow, c: Column)
    requires WellTyped(m) && Written(m, id, row) && !c.Unknown? && !Settable(c)
    ensures CellFits(c, CellOf(row, c)) && Meaning(c, CellOf(row, c)) == NodeValue(m, id, c)
  {
    KeyCells(m, id, row);
    assert c !in m.fields;
    if c.ProxyID? {
      KeyMeans(m, id, c, m.proxy);
    } else if c.ParentAccountID? {
      KeyMeans(m, id, c, m.parent);
    } else {
      assert c.ID?;
    }
  }

  lemma {:induction false} SetCell(m: Mutation, id: int, row: StoredRow, c: Column)
    requires WellTyped(m) && Written(m, id, row) && Settable(c)
    ensures CellFits(c, CellOf(row, c)) && Meaning(c, CellOf(row, c)) == NodeValue(m, id, c)
  {
    OwnCell(m, id, row, c);
    if c in m.fields {
      CellForMeans(c, m.fields[c]);
    }
  }

  /** Every cell of the written row decodes to the field of the entity that the create returned. */
  lemma {:induction false} CellRoundTrip(m: Mutation, id: int, row: StoredRow, c: Column)
    requires WellTyped(m) && Written(m, id, row) && !c.Unknown?
    ensures CellFits(c, CellOf(row, c))
    ensures Meaning(c, CellOf(row, c)) == FieldOf(NodeOf(m)[ID := Int(id)], c)
  {
    NodeField(m, id, c);
    if Settable(c) {
      SetCell(m, id, row, c);
    } else {
      KeyCell(m, id, row, c);
    }
  }

  lemma CellForMeans(c: Column, x: Value)
    requires Fits(x, ScanKind(c)) && !c.Unknown?
    ensures CellFits(c, CellFor(x)) && Meaning(c, CellFor(x)) == Stored(x)
  {
    match ScanKind(c)
    case ByteSlice =>
    case NullBool =>
    case NullFloat64 =>
    case NullInt64 =>
    case NullString =>
    case NullTime =>
    case UnknownType =>
  }

  /** The destinations hold the scanned cells of a row, column by column. */
  ghost predicate ScannedRow(columns: seq<Column>, row: StoredRow, slots: seq<Slot>) {
    |columns| <= |slots| && forall i :: 0 <= i < |columns| ==> slots[i] == Scanned(columns[i], CellOf(row, columns[i]))
  }

  lemma {:induction false} WrittenCellFits(m: Mutation, id: int, row: StoredRow, columns: seq<Column>, slots: seq<Slot>, i: nat)
    requires WellTyped(m) && Written(m, id, row) && ScannedRow(columns, row, slots)
    requires i < |columns| && !columns[i].Unknown?
    ensures CellFits(columns[i], CellOf(row, columns[i])) && ErrorAt(columns, slots, i) == None
  {
    CellRoundTrip(m, id, row, columns[i]);
    KindsAgree(columns[i]);
    if columns[i] in m.fields {
      OwnCell(m, id, row, columns[i]);
    } else if Settable(columns[i]) {
      OwnCell(m, id, row, columns[i]);
    } else {
      KeyCells(m, id, row);
    }
  }

  lemma {:induction false} UnknownField(m: Mutation, id: int, columns: seq<Column>, slots: seq<Slot>, c: Column)
    requires WellTyped(m) && |columns| <= |slots| && c.Unknown?
    ensures FieldOf(AllAssigned(ZERO_FIELDS, columns, slots), c) == FieldOf(NodeOf(m)[ID := Int(id)], c)
  {
    UnknownStays(columns, slots, c);
    NodeField(m, id, c);
  }

  lemma {:induction false} DecodedField(m: Mutation, id: int, row: StoredRow, columns: seq<Column>, slots: seq<Slot>, c: Column)
    requires WellTyped(m) && Written(m, id, row) && ScannedRow(columns, row, slots)
    requires !c.Unknown? && c in columns && forall d :: d in columns ==> !d.Unknown?
    ensures FieldOf(AllAssigned(ZERO_FIELDS, columns, slots), c) == Meaning(c, CellOf(row, c))
  {
    forall i | 0 <= i < |columns|
      ensures CellFits(columns[i], CellOf(row, columns[i]))
    {
      WrittenCellFits(m, id, row, columns, slots, i);
    }
    DecodingIsProjection(row, columns, slots, c);
  }

  lemma {:induction false} ReadField(m: Mutation, id: int, row: StoredRow, columns: seq<Column>, slots: seq<Slot>, c: Column)
    requires WellTyped(m) && Written(m, id, row) && ScannedRow(columns, row, slots)
    requires forall d :: d in columns <==> !d.Unknown?
    ensures FieldOf(AllAssigned(ZERO_FIELDS, columns, slots), c) == FieldOf(NodeOf(m)[ID := Int(id)], c)
  {
    if c.Unknown? {
      UnknownField(m, id, columns, slots, c);
    } else {
      DecodedField(m, id, row, columns, slots, c);
      CellRoundTrip(m, id, row, c);
    }
  }

  /** Reading all columns of the written row back, in any order, rebuilds the entity that the create returned. */
  lemma {:induction false} CreateReadRoundTrip(m: Mutation, id: int, row: StoredRow, columns: seq<Column>, slots: seq<Slot>)
    requires WellTyped(m) && Written(m, id, row) && ScannedRow(columns, row, slots)
    requires forall d :: d in columns <==> !d.Unknown?
    ensures AllAssigned(ZERO_FIELDS, columns, slots) == NodeOf(m)[ID := Int(id)]
    ensures forall i :: 0 <= i < |columns| ==> ErrorAt(columns, slots, i) == None
  {
    forall c
      ensures FieldOf(AllAssigned(ZERO_FIELDS, columns, slots), c) == FieldOf(NodeOf(m)[ID := Int(id)], c)
    {
      ReadField(m, id, row, columns, slots, c);
    }
    SameFields(AllAssigned(ZERO_FIELDS, columns, slots), NodeOf(m)[ID := Int(id)]);
    forall i | 0 <= i < |columns|
      ensures ErrorAt(columns, slots, i) == None
    {
      assert columns[i] in columns;
      WrittenCellFits(m, id, row, columns, slots, i);
    }
  }

  /** A query without a selection reads the table's columns, and so rebuilds the entity. */
  lemma {:induction false} ReadAllColumns(m: Mutation, id: int, row: StoredRow, slots: seq<Slot>)
    requires WellTyped(m) && Written(m, id, row) && ScannedRow(ACCOUNT_COLUMNS, row, slots)
    ensures AllAssigned(ZERO_FIELDS, ACCOUNT_COLUMNS, slots) == NodeOf(m)[ID := Int(id)]
  {
    forall c
      ensures c in ACCOUNT_COLUMNS <==> !c.Unknown?
    {
      ColumnsComplete(c);
    }
    CreateReadRoundTrip(m, id, row, ACCOUNT_COLUMNS, slots);
  }

  lemma {:induction false} UnknownStays(columns: seq<Column>, slots: seq<Slot>, c: Column)
    requires |columns| <= |slots| && c.Unknown?
    ensures c !in AllAssigned(ZERO_FIELDS, columns, slots)
  {
    if columns != [] {
      var k := |columns| - 1;
      UnknownStays(columns[..k], slots, c);
      if columns[k] != c {
        OtherColumn(AllAssigned(ZERO_FIELDS, columns[..k], slots), c, columns[k], slots[k]);
      }
    }
  }

  // ---------- Required fields ----------

  const VALIDATED: set<Column> := {Name, Platform, Type, Status, SessionWindowStatus, QuotaDimension}

  lemma {:induction false} CheckTable(x: Check)
    ensures x in CHECKS <==> x.column in if x.Require? then REQUIRED else VALIDATED
  {
  }

  lemma {:induction false} AllChecksPass(v: Validators, f: Fields, x: Check)
    requires REQUIRED <= f.Keys && forall c :: c in f ==> Validates(v, c, f[c])
    requires x in CHECKS
    ensures Passes(v, f, x)
  {
    CheckTable(x);
  }

  /** `check` accepts exactly the mutations with every required field set and every validator satisfied. */
  lemma {:induction false} CheckAccepts(v: Validators, f: Fields)
    ensures CheckAll(v, f) == None <==> REQUIRED <= f.Keys && forall c :: c in f ==> Validates(v, c, f[c])
  {
    FailureIsFirst(v, f, CHECKS);
    if REQUIRED <= f.Keys && forall c :: c in f ==> Validates(v, c, f[c]) {
      forall x | x in CHECKS
        ensures Passes(v, f, x)
      {
        AllChecksPass(v, f, x);
      }
    }
    if CheckAll(v, f) == None {
      forall c | c in REQUIRED
        ensures c in f
      {
        CheckTable(Require(c));
        assert Passes(v, f, Require(c));
      }
      forall c | c in f
        ensures Validates(v, c, f[c])
      {
        CheckTable(Validate(c));
        if c in VALIDATED {
          assert Passes(v, f, Validate(c));
        }
      }
    }
  }

  /** After defaults that succeeded, only name, platform and type can be missing. */
  lemma {:induction false} AfterDefaults(rt: Runtime, v: Validators, before: Fields, after: Fields)
    requires DefaultedUpTo(rt, before, after, None, |DEFAULTED|)
    ensures match CheckAll(v, after)
            case None => true
            case Some(Missing(c)) => c in {Name, Platform, Type} && c !in before
            case Some(Invalid(c)) => c in VALIDATED && c in after && !Validates(v, c, after[c])
            case Some(_) => false
  {
    FailureIsFirst(v, after, CHECKS);
    if CheckAll(v, after).Some? {
      var i :| 0 <= i < |CHECKS| && CheckAll(v, after) == Some(CheckError(CHECKS[i])) && !Passes(v, after, CHECKS[i]);
      CheckTable(CHECKS[i]);
      DefaultedRequired(CHECKS[i].column);
    }
  }

  lemma {:induction false} DefaultedRequired(c: Column)
    ensures c in REQUIRED ==> c in DEFAULTED || c in {Name, Platform, Type}
    ensures c in {Name, Platform, Type} ==> c !in DEFAULTED
  {
    if c in {Name, Platform, Type} {
      NoDefault(c);
    } else if c in REQUIRED {
      assert DEFAULTED[DefaultIndex(c)] == c;
    }
  }

  lemma NoDefault(c: Column)
    requires c in {Name, Platform, Type}
    ensures c !in DEFAULTED
  {
  }

  function DefaultIndex(c: Column): nat {
    match c
    case CreatedAt => 0 case UpdatedAt => 1 case Credentials => 2 case Extra => 3 case Concurrency => 4 case Priority => 5
    case RateMultiplier => 6 case Status => 7 case AutoPauseOnExpired => 8 case Schedulable => 9 case _ => 10
  }

  // ---------- Defaults and checks by column ----------

  /** Which value each unset column gets from defaults that succeeded. */
  lemma {:induction false} DefaultsByColumn(rt: Runtime, before: Fields, after: Fields, c: Column)
    requires DefaultedUpTo(rt, before, after, None, |DEFAULTED|) && c !in before
    ensures c.CreatedAt? ==> rt.createdAt.Some? && FieldOf(after, c) == Some(Time(rt.createdAt.value))
    ensures c.UpdatedAt? ==> rt.updatedAt.Some? && FieldOf(after, c) == Some(Time(rt.updatedAt.value))
    ensures c.Credentials? ==> rt.credentials.Some? && FieldOf(after, c) == Some(Json(rt.credentials))
    ensures c.Extra? ==> rt.extra.Some? && FieldOf(after, c) == Some(Json(rt.extra))
    ensures c.Concurrency? ==> FieldOf(after, c) == Some(Int(rt.concurrency))
    ensures c.Priority? ==> FieldOf(after, c) == Some(Int(rt.priority))
    ensures c.RateMultiplier? ==> FieldOf(after, c) == Some(Float(rt.rateMultiplier))
    ensures c.Status? ==> FieldOf(after, c) == Some(Str(rt.status))
    ensures c.AutoPauseOnExpired? ==> FieldOf(after, c) == Some(Bool(rt.autoPause))
    ensures c.Schedulable? ==> FieldOf(after, c) == Some(Bool(rt.schedulable))
    ensures c.QuotaDimension? ==> FieldOf(after, c) == Some(Str("global"))
    ensures c in after ==> c in REQUIRED && c !in {Name, Platform, Type}
  {
    assert DEFAULTED[..|DEFAULTED|] == DEFAULTED;
    DefaultedIff(c);
  }

  lemma {:induction false} DefaultedIff(c: Column)
    ensures c in DEFAULTED <==> c in REQUIRED && c !in {Name, Platform, Type}
  {
    DefaultedRequired(c);
    if c in DEFAULTED {
      OnlyRequiredDefaulted(c);
    }
  }

  lemma OnlyRequiredDefaulted(c: Column)
    requires c in DEFAULTED
    ensures c in REQUIRED
  {
  }

  /** The fields that must be set. */
  ghost predicate AllSet(f: Fields) {
    && CreatedAt in f && UpdatedAt in f && Name in f && Platform in f && Type in f && Credentials in f && Extra in f
    && Concurrency in f && Priority in f && RateMultiplier in f && Status in f && AutoPauseOnExpired in f && Schedulable in f
    && QuotaDimension in f
  }

  /** The fields that must be valid if they are set, each under its own validator. */
  ghost predicate AllValid(v: Validators, f: Fields) {
    && (Name in f && f[Name].Str? ==> v.name(f[Name].s))
    && (Platform in f && f[Platform].Str? ==> v.platform(f[Platform].s))
    && (Type in f && f[Type].Str? ==> v.kind(f[Type].s))
    && (Status in f && f[Status].Str? ==> v.status(f[Status].s))
    && (SessionWindowStatus in f && f[SessionWindowStatus].Str? ==> v.windowStatus(f[SessionWindowStatus].s))
    && (QuotaDimension in f && f[QuotaDimension].Str? ==> f[QuotaDimension].s == "global" || f[QuotaDimension].s == "spark")
  }

  lemma RequiredByColumn(f: Fields)
    ensures REQUIRED <= f.Keys <==> AllSet(f)
  {
  }

  lemma {:induction false} ValidByColumn(v: Validators, f: Fields)
    ensures (forall c :: c in f ==> Validates(v, c, f[c])) <==> AllValid(v, f)
  {
    if forall c :: c in f ==> Validates(v, c, f[c]) {
      assert Name in f ==> Validates(v, Name, f[Name]);
      assert Platform in f ==> Validates(v, Platform, f[Platform]);
      assert Type in f ==> Validates(v, Type, f[Type]);
      assert Status in f ==> Validates(v, Status, f[Status]);
      assert SessionWindowStatus in f ==> Validates(v, SessionWindowStatus, f[SessionWindowStatus]);
      assert QuotaDimension in f ==> Validates(v, QuotaDimension, f[QuotaDimension]);
    }
  }

  /** Which fields must be set, and which validator each one has to satisfy. */
  lemma {:induction false} CheckAcceptsByColumn(v: Validators, f: Fields)
    ensures CheckAll(v, f) == None <==> AllSet(f) && AllValid(v, f)
  {
    CheckAccepts(v, f);
    RequiredByColumn(f);
    ValidByColumn(v, f);
  }

  // ---------- The first error ----------

  /** Defaults stop at the first column, in this order, that is neither set nor has a registered default. */
  lemma {:induction false} FirstUnregistered(rt: Runtime, before: Fields, after: Fields, err: Option<Error>, k: nat)
    requires DefaultedUpTo(rt, before, after, err, k) && (err == None ==> k == |DEFAULTED|)
    ensures err == if CreatedAt !in before && rt.createdAt == None then Some(Uninitialized(CreatedAt))
                   else if UpdatedAt !in before && rt.updatedAt == None then Some(Uninitialized(UpdatedAt))
                   else if Credentials !in before && rt.credentials == None then Some(Uninitialized(Credentials))
                   else if Extra !in before && rt.extra == None then Some(Uninitialized(Extra))
                   else None
  {
    Reached(rt, before, after, err, k, 0, CreatedAt);
    Reached(rt, before, after, err, k, 1, UpdatedAt);
    Reached(rt, before, after, err, k, 2, Credentials);
    Reached(rt, before, after, err, k, 3, Extra);
    if k < |DEFAULTED| {
      CanFail(rt, k);
    }
  }

  /** A column that was reached has a default or was set. */
  lemma {:induction false} Reached(rt: Runtime, before: Fields, after: Fields, err: Option<Error>, k: nat, i: nat, c: Column)
    requires DefaultedUpTo(rt, before, after, err, k) && i < |DEFAULTED| && DEFAULTED[i] == c
    ensures i < k ==> c in before || Default(rt, c).Some?
    ensures i == k ==> err == None || (err == Some(Uninitialized(c)) && c !in before && Default(rt, c) == None)
  {
    if i < k {
      assert DEFAULTED[..k][i] == c;
    }
  }

  lemma CanFail(rt: Runtime, k: nat)
    requires k < |DEFAULTED| && Default(rt, DEFAULTED[k]) == None
    ensures k <= 3
  {
  }

  function Failing(ok: bool, e: Error, next: Option<Error>): Option<Error> {
    if ok then next else Some(e)
  }

  /** The first error that a create reports, column by column. */
  ghost function FirstProblem(v: Validators, f: Fields): Option<Error> {
    Failing(CreatedAt in f, Missing(CreatedAt),
    Failing(UpdatedAt in f, Missing(UpdatedAt),
    Failing(Name in f, Missing(Name),
    Failing(Valid(f, Name, v.name), Invalid(Name),
    Failing(Platform in f, Missing(Platform), SecondProblem(v, f))))))
  }

  ghost function SecondProblem(v: Validators, f: Fields): Option<Error> {
    Failing(Valid(f, Platform, v.platform), Invalid(Platform),
    Failing(Type in f, Missing(Type),
    Failing(Valid(f, Type, v.kind), Invalid(Type),
    Failing(Credentials in f, Missing(Credentials),
    Failing(Extra in f, Missing(Extra), ThirdProblem(v, f))))))
  }

  ghost function ThirdProblem(v: Validators, f: Fields): Option<Error> {
    Failing(Concurrency in f, Missing(Concurrency),
    Failing(Priority in f, Missing(Priority),
    Failing(RateMultiplier in f, Missing(RateMultiplier),
    Failing(Status in f, Missing(Status),
    Failing(Valid(f, Status, v.status), Invalid(Status), FourthProblem(v, f))))))
  }

  ghost function FourthProblem(v: Validators, f: Fields): Option<Error> {
    Failing(AutoPauseOnExpired in f, Missing(AutoPauseOnExpired),
    Failing(Schedulable in f, Missing(Schedulable),
    Failing(Valid(f, SessionWindowStatus, v.windowStatus), Invalid(SessionWindowStatus),
    Failing(QuotaDimension in f, Missing(QuotaDimension),
    Failing(Valid(f, QuotaDimension, s => s == "global" || s == "spark"), Invalid(QuotaDimension), None)))))
  }

  ghost predicate Valid(f: Fields, c: Column, valid: string -> bool) {
    c in f && f[c].Str? ==> valid(f[c].s)
  }

  lemma {:induction false} FirstOfFive(v: Validators, f: Fields, a: Check, b: Check, c: Check, d: Check, e: Check, rest: seq<Check>)
    ensures FirstFailure(v, f, [a, b, c, d, e] + rest)
         == Failing(Passes(v, f, a), CheckError(a), Failing(Passes(v, f, b), CheckError(b), Failing(Passes(v, f, c), CheckError(c),
            Failing(Passes(v, f, d), CheckError(d), Failing(Passes(v, f, e), CheckError(e), FirstFailure(v, f, rest))))))
  {
    FirstOf(v, f, e, rest);
    FirstOf(v, f, d, [e] + rest);
    FirstOf(v, f, c, [d] + ([e] + rest));
    FirstOf(v, f, b, [c] + ([d] + ([e] + rest)));
    FirstOf(v, f, a, [b] + ([c] + ([d] + ([e] + rest))));
    assert [a, b, c, d, e] + rest == [a] + ([b] + ([c] + ([d] + ([e] + rest))));
  }

  lemma {:induction false} FirstOf(v: Validators, f: Fields, x: Check, rest: seq<Check>)
    ensures FirstFailure(v, f, [x] + rest) == Failing(Passes(v, f, x), CheckError(x), FirstFailure(v, f, rest))
  {
    assert ([x] + rest)[1..] == rest;
  }

  /** The checks run in this order, each field under its own validator, and the first that fails is reported. */
  lemma {:induction false} ChecksByColumn(v: Validators, f: Fields)
    ensures CheckAll(v, f) == FirstProblem(v, f)
  {
    var first := [Require(CreatedAt), Require(UpdatedAt), Require(Name), Validate(Name), Require(Platform)];
    var second := [Validate(Platform), Require(Type), Validate(Type), Require(Credentials), Require(Extra)];
    var third := [Require(Concurrency), Require(Priority), Require(RateMultiplier), Require(Status), Validate(Status)];
    var fourth := [Require(AutoPauseOnExpired), Require(Schedulable), Validate(SessionWindowStatus), Require(QuotaDimension),
                   Validate(QuotaDimension)];
    assert CHECKS == first + (second + (third + (fourth + [])));
    FourthFive(v, f);
    ThirdFive(v, f, fourth + []);
    SecondFive(v, f, third + (fourth + []));
    FirstFive(v, f, second + (third + (fourth + [])));
  }

  lemma {:induction false} FirstFive(v: Validators, f: Fields, rest: seq<Check>)
    requires FirstFailure(v, f, rest) == SecondProblem(v, f)
    ensures FirstFailure(v, f, [Require(CreatedAt), Require(UpdatedAt), Require(Name), Validate(Name), Require(Platform)] + rest)
         == FirstProblem(v, f)
  {
    FirstOfFive(v, f, Require(CreatedAt), Require(UpdatedAt), Require(Name), Validate(Name), Require(Platform), rest);
  }

  lemma {:induction false} SecondFive(v: Validators, f: Fields, rest: seq<Check>)
    requires FirstFailure(v, f, rest) == ThirdProblem(v, f)
    ensures FirstFailure(v, f, [Validate(Platform), Require(Type), Validate(Type), Require(Credentials), Require(Extra)] + rest)
         == SecondProblem(v, f)
  {
    FirstOfFive(v, f, Validate(Platform), Require(Type), Validate(Type), Require(Credentials), Require(Extra), rest);
  }

  lemma {:induction false} ThirdFive(v: Validators, f: Fields, rest: seq<Check>)
    requires FirstFailure(v, f, rest) == FourthProblem(v, f)
    ensures FirstFailure(v, f, [Require(Concurrency), Require(Priority), Require(RateMultiplier), Require(Status), Validate(Status)]
                               + rest) == ThirdProblem(v, f)
  {
    FirstOfFive(v, f, Require(Concurrency), Require(Priority), Require(RateMultiplier), Require(Status), Validate(Status), rest);
  }

  lemma {:induction false} FourthFive(v: Validators, f: Fields)
    ensures FirstFailure(v, f, [Require(AutoPauseOnExpired), Require(Schedulable), Validate(SessionWindowStatus),
                                Require(QuotaDimension), Validate(QuotaDimension)] + []) == FourthProblem(v, f)
  {
    FirstOfFive(v, f, Require(AutoPauseOnExpired), Require(Schedulable), Validate(SessionWindowStatus), Require(QuotaDimension),
                Validate(QuotaDimension), []);
  }
}
