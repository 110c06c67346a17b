/** The query builder: a tree of mutable objects, one per table, and its value. */
module QueryBuilder {
  import opened Wrappers
  import opened Store

  /** The value of a builder tree: selected fields, predicates, and one sub-query per requested edge. */
  datatype Plan = Plan(table: Table, fields: seq<string>, preds: seq<Row -> bool>, edges: seq<Sub>)

  /** A requested edge and the query of its neighbours. */
  datatype Sub = Sub(edge: Edge, plan: Plan)

  predicate Accepts(preds: seq<Row -> bool>, r: Row) {
    forall i :: 0 <= i < |preds| ==> preds[i](r)
  }

  /** The rows the builder denotes. */
  ghost function Answer(db: Db, p: Plan): set<Row> {
    set r | r in Rows(db, p.table) && Accepts(p.preds, r)
  }

  /** What the Go types guarantee of a builder tree: sub-queries are on the edge's table, one per edge. */
  ghost predicate WfPlan(p: Plan)
    decreases p
  {
    && WfTable(p.table)
    && (forall i :: 0 <= i < |p.edges| ==>
          && WfEdge(p.table, p.edges[i].edge)
          && p.edges[i].plan.table == p.edges[i].edge.target
          && WfPlan(p.edges[i].plan))
    && (forall i, j :: 0 <= i < j < |p.edges| ==> p.edges[i].edge != p.edges[j].edge)
  }

  /** The condition under which a query is refused before it is sent. */
  predicate BadFields(p: Plan) {
    exists f :: f in p.fields && f !in p.table.columns
  }

  function AppendOnce(fields: seq<string>, f: string): seq<string> {
    if f in fields then fields else fields + [f]
  }

  /** Fields of the sub-query of edge `e`: a projected one-to-many query also reads its foreign key. */
  function EdgeFields(e: Edge, fields: seq<string>): seq<string> {
    if e.shape.O2M? && |fields| > 0 then AppendOnce(fields, e.shape.fk) else fields
  }

  /** Columns the foreign keys of requested many-to-one edges add to a projection. */
  ghost function KeyColumns(p: Plan): set<string> {
    set i | 0 <= i < |p.edges| && p.edges[i].edge.shape.M2O? :: p.edges[i].edge.shape.fk
  }

  /** The columns a query with these fields reads. */
  ghost function ColumnSet(p: Plan, fields: seq<string>): set<string> {
    if fields == [] then set c | c in p.table.columns
    else (if p.table.hasId then {ID} else {}) + (set c | c in fields) + KeyColumns(p)
  }

  /** The part of a row that reaches the decoded node. */
  ghost function Visible(p: Plan, fields: seq<string>, row: Row): Row {
    map c | c in row && c in ColumnSet(p, fields) :: row[c]
  }

  /** `p'` is `p` after runs: same tree, and every nested query has at most gained fields and predicates. */
  ghost predicate Narrowed(p: Plan, p': Plan)
    decreases p
  {
    && p'.table == p.table
    && p.fields <= p'.fields
    && p.preds <= p'.preds
    && |p'.edges| == |p.edges|
    && forall i :: 0 <= i < |p.edges| ==>
         p'.edges[i].edge == p.edges[i].edge && Narrowed(p.edges[i].plan, p'.edges[i].plan)
  }

  lemma NarrowedRefl(p: Plan)
    ensures Narrowed(p, p)
    decreases p
  {
    forall i | 0 <= i < |p.edges|
      ensures Narrowed(p.edges[i].plan, p.edges[i].plan)
    {
      NarrowedRefl(p.edges[i].plan);
    }
  }

  /** Narrowing the root of a plan, then running it, narrows the plan. */
  lemma {:induction false} NarrowedThen(p: Plan, mid: Plan, p': Plan)
    requires mid.table == p.table && mid.edges == p.edges && p.fields <= mid.fields && p.preds <= mid.preds
    requires Narrowed(mid, p')
    ensures Narrowed(p, p')
  {
  }

  lemma AcceptsAppend(preds: seq<Row -> bool>, p: Row -> bool)
    ensures forall r :: Accepts(preds + [p], r) <==> Accepts(preds, r) && p(r)
  {
    forall r
      ensures Accepts(preds + [p], r) <==> Accepts(preds, r) && p(r)
    {
      if Accepts(preds + [p], r) {
        assert forall i :: 0 <= i < |preds| ==> preds[i] == (preds + [p])[i];
        assert (preds + [p])[|preds|] == p;
      }
    }
  }

  function SlotOf(subs: seq<Sub>, e: Edge): (k: nat)
    ensures k <= |subs|
    ensures forall i :: 0 <= i < k ==> subs[i].edge != e
    ensures k < |subs| ==> subs[k].edge == e
  {
    if subs == [] || subs[0].edge == e then 0 else 1 + SlotOf(subs[1..], e)
  }

  /** Requests edge `e`; an earlier request for the same edge is replaced. */
  function Put(subs: seq<Sub>, e: Edge, p: Plan): seq<Sub> {
    var k := SlotOf(subs, e);
    if k < |subs| then subs[k := Sub(e, p)] else subs + [Sub(e, p)]
  }

  /** Requesting a schema edge keeps a plan well formed: at most one request per edge. */
  lemma {:induction false} PutWf(p: Plan, e: Edge, sub: Plan)
    requires WfPlan(p) && WfPlan(sub) && WfEdge(p.table, e) && sub.table == e.target
    ensures WfPlan(p.(edges := Put(p.edges, e, sub)))
  {
    var k := SlotOf(p.edges, e);
    var p' := p.(edges := Put(p.edges, e, sub));
    forall i | 0 <= i < |p'.edges|
      ensures WfEdge(p'.table, p'.edges[i].edge) && p'.edges[i].plan.table == p'.edges[i].edge.target && WfPlan(p'.edges[i].plan)
    {
      assert p'.edges[i] == if i == k then Sub(e, sub) else p.edges[i];
    }
  }

  /** The request is recorded, replaces an earlier one for the same edge, and leaves the others. */
  lemma {:induction false} PutReplaces(subs: seq<Sub>, e: Edge, p: Plan, s: Sub)
    requires forall i, j :: 0 <= i < j < |subs| ==> subs[i].edge != subs[j].edge
    ensures s in Put(subs, e, p) <==> s == Sub(e, p) || (s in subs && s.edge != e)
    ensures |Put(subs, e, p)| == if exists i :: 0 <= i < |subs| && subs[i].edge == e then |subs| else |subs| + 1
  {
    var k, put := SlotOf(subs, e), Put(subs, e, p);
    if k < |subs| {
      assert put[k] == Sub(e, p);
      assert forall i :: 0 <= i < |subs| && i != k ==> put[i] == subs[i] && subs[i].edge != e;
    }
  }

  datatype Request = Request(edge: Edge, query: Query)

  class Query {
    const table: Table
    var fields: seq<string>
    var preds: seq<Row -> bool>
    var edges: seq<Request>
    ghost var plan: Plan
    ghost var repr: set<Query>

    ghost predicate Valid()
      reads this, repr
      decreases repr
    {
      && this in repr
      && plan.table == table && plan.fields == fields && plan.preds == preds
      && |plan.edges| == |edges|
      && (forall i :: 0 <= i < |edges| ==>
            && edges[i].query in repr
            && this !in edges[i].query.repr
            && edges[i].query.repr <= repr
            && edges[i].query.Valid()
            && plan.edges[i] == Sub(edges[i].edge, edges[i].query.plan))
      && (forall i, j :: 0 <= i < j < |edges| ==>
            edges[i].query in repr && edges[j].query in repr && edges[i].query.repr !! edges[j].query.repr)
    }

    /** Valid but for the recorded value of sub-query `k`, which has just run. */
    ghost predicate ValidBut(k: nat)
      reads this, repr
    {
      && this in repr
      && plan.table == table && plan.fields == fields && plan.preds == preds
      && |plan.edges| == |edges| && k < |edges|
      && (forall i :: 0 <= i < |edges| ==>
            && edges[i].query in repr
            && this !in edges[i].query.repr
            && edges[i].query.repr <= repr
            && edges[i].query.Valid()
            && plan.edges[i].edge == edges[i].edge
            && (i != k ==> plan.edges[i].plan == edges[i].query.plan))
      && (forall i, j :: 0 <= i < j < |edges| ==>
            edges[i].query in repr && edges[j].query in repr && edges[i].query.repr !! edges[j].query.repr)
    }

    /** Records the value of sub-query `k` after its run. */
    ghost method Record(k: nat)
      requires ValidBut(k)
      modifies this`plan
      ensures Valid() && plan == old(plan).(edges := old(plan).edges[k := Sub(edges[k].edge, edges[k].query.plan)])
    {
      plan := plan.(edges := plan.edges[k := Sub(edges[k].edge, edges[k].query.plan)]);
    }

    constructor (table: Table)
      ensures Valid() && fresh(repr) && plan == Plan(table, [], [], [])
    {
      this.table := table;
      fields, preds, edges := [], [], [];
      plan := Plan(table, [], [], []);
      repr := {this};
    }

    method Where(p: Row -> bool)
      requires Valid()
      modifies this
      ensures Valid() && repr == old(repr) && edges == old(edges)
      ensures plan == old(plan).(preds := old(plan.preds) + [p])
    {
      preds := preds + [p];
      plan := plan.(preds := preds);
    }

    method Select(fs: seq<string>)
      requires Valid()
      modifies this
      ensures Valid() && repr == old(repr) && edges == old(edges)
      ensures plan == old(plan).(fields := old(plan.fields) + fs)
    {
      fields := fields + fs;
      plan := plan.(fields := fields);
    }

    method AppendFieldOnce(f: string)
      requires Valid()
      modifies this
      ensures Valid() && repr == old(repr) && edges == old(edges)
      ensures plan == old(plan).(fields := AppendOnce(old(plan.fields), f))
    {
      if f !in fields {
        fields := fields + [f];
      }
      plan := plan.(fields := fields);
    }

    /** The `With<Edge>` methods: the edge will be loaded by `sub`. */
    method With(e: Edge, sub: Query)
      requires Valid() && sub.Valid() && repr !! sub.repr
      modifies this
      ensures Valid() && repr == old(repr) + sub.repr
      ensures plan == old(plan).(edges := Put(old(plan.edges), e, sub.plan))
    {
      var k := 0;
      while k < |edges| && edges[k].edge != e
        invariant k <= |edges|
        invariant forall i :: 0 <= i < k ==> edges[i].edge != e
      {
        k := k + 1;
      }
      assert k == SlotOf(plan.edges, e);
      if k < |edges| {
        Replace(k, e, sub);
      } else {
        Append(e, sub);
      }
    }

    method Append(e: Edge, sub: Query)
      requires Valid() && sub.Valid() && repr !! sub.repr
      modifies this
      ensures Valid() && repr == old(repr) + sub.repr
      ensures plan == old(plan).(edges := old(plan.edges) + [Sub(e, sub.plan)])
    {
      edges := edges + [Request(e, sub)];
      plan := plan.(edges := plan.edges + [Sub(e, sub.plan)]);
      repr := repr + sub.repr;
    }

    method Replace(k: nat, e: Edge, sub: Query)
      requires Valid() && sub.Valid() && repr !! sub.repr && k < |edges|
      modifies this
      ensures Valid() && repr == old(repr) + sub.repr
      ensures plan == old(plan).(edges := old(plan.edges)[k := Sub(e, sub.plan)])
    {
      edges := edges[k := Request(e, sub)];
      plan := plan.(edges := plan.edges[k := Sub(e, sub.plan)]);
      repr := repr + sub.repr;
    }
  }
}
