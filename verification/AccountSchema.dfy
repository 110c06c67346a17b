/** The accounts schema: the five tables the account edges touch, and the six edges. */
module AccountSchema {
  import opened Store
  import opened QueryBuilder
  import Entity = AccountEntity

  const ACCOUNT_COLUMNS := [
    "id", "created_at", "updated_at", "deleted_at", "name", "notes", "platform", "type", "credentials", "extra",
    "proxy_id", "proxy_fallback_origin_id", "concurrency", "load_factor", "priority", "rate_multiplier", "status",
    "error_message", "last_used_at", "expires_at", "auto_pause_on_expired", "schedulable", "rate_limited_at",
    "rate_limit_reset_at", "overload_until", "temp_unschedulable_until", "temp_unschedulable_reason",
    "session_window_start", "session_window_end", "session_window_status", "parent_account_id", "quota_dimension"]

  const ACCOUNTS := Table("accounts", ACCOUNT_COLUMNS, true)

  // Of the neighbour tables only the columns the account edges read are listed.
  const GROUPS := Table("groups", ["id"], true)
  const PROXIES := Table("proxies", ["id"], true)
  const USAGE_LOGS := Table("usage_logs", ["id", "account_id"], true)
  const ACCOUNT_GROUPS := Table("account_groups", ["account_id", "group_id", "priority", "created_at"], false)

  const GROUPS_EDGE := Edge("groups", M2M(ACCOUNT_GROUPS, "account_id", "group_id"), GROUPS)
  const PROXY_EDGE := Edge("proxy", M2O("proxy_id"), PROXIES)
  const PARENT_EDGE := Edge("parent", M2O("parent_account_id"), ACCOUNTS)
  const CHILDREN_EDGE := Edge("children", O2M("parent_account_id"), ACCOUNTS)
  const USAGE_LOGS_EDGE := Edge("usage_logs", O2M("account_id"), USAGE_LOGS)
  const ACCOUNT_GROUPS_EDGE := Edge("account_groups", O2M("account_id"), ACCOUNT_GROUPS)

  /** Any combination of the six requests, made in any order, is a plan the loader accepts. */
  lemma {:induction false} AccountPlanWf(p: Plan, e: Edge, sub: Plan)
    requires WfPlan(p) && p.table == ACCOUNTS && WfPlan(sub) && sub.table == e.target
    requires e in {GROUPS_EDGE, PROXY_EDGE, PARENT_EDGE, CHILDREN_EDGE, USAGE_LOGS_EDGE, ACCOUNT_GROUPS_EDGE}
    ensures WfPlan(p.(edges := Put(p.edges, e, sub)))
  {
    assert ACCOUNT_COLUMNS[0] == ID && ACCOUNT_COLUMNS[10] == "proxy_id" && ACCOUNT_COLUMNS[30] == "parent_account_id";
    assert USAGE_LOGS.columns[1] == "account_id" && ACCOUNT_GROUPS.columns[0] == "account_id";
    PutWf(p, e, sub);
  }

  /** Column `left` of one row and column `right` of the other hold the same integer. */
  predicate SameInt(a: Row, left: string, b: Row, right: string) {
    left in a && right in b && a[left].Int? && a[left] == b[right]
  }

  /** A group is joined to an account by a row of the join table that holds the ids of both. */
  lemma {:induction false} GroupsJoin(db: Db, account: Row, g: Row)
    ensures GROUPS_EDGE.name == "groups" && GROUPS_EDGE.target.name == "groups" && ACCOUNT_GROUPS.name == "account_groups"
    ensures Joined(db, GROUPS_EDGE, account, g)
       <==> exists l :: l in Rows(db, ACCOUNT_GROUPS)
                        && SameInt(l, "account_id", account, "id") && SameInt(l, "group_id", g, "id")
  {
    if Joined(db, GROUPS_EDGE, account, g) {
      var l :| l in Rows(db, ACCOUNT_GROUPS)
               && IntAt(l, "account_id") == IntAt(account, "id") && IntAt(l, "group_id") == IntAt(g, "id");
      assert SameInt(l, "account_id", account, "id") && SameInt(l, "group_id", g, "id");
    }
    if l :| l in Rows(db, ACCOUNT_GROUPS) && SameInt(l, "account_id", account, "id") && SameInt(l, "group_id", g, "id") {
      assert IntAt(l, "account_id") == IntAt(account, "id") && IntAt(l, "group_id") == IntAt(g, "id");
      assert Linked(db, GROUPS_EDGE, IntAt(account, "id").value, IntAt(g, "id").value);
    }
  }

  /** The other five edges join on one column each. */
  lemma {:induction false} KeysJoin(db: Db, account: Row, r: Row)
    ensures Joined(db, PROXY_EDGE, account, r) <==> SameInt(account, "proxy_id", r, "id")
    ensures Joined(db, PARENT_EDGE, account, r) <==> SameInt(account, "parent_account_id", r, "id")
    ensures Joined(db, CHILDREN_EDGE, account, r) <==> SameInt(account, "id", r, "parent_account_id")
    ensures Joined(db, USAGE_LOGS_EDGE, account, r) <==> SameInt(account, "id", r, "account_id")
    ensures Joined(db, ACCOUNT_GROUPS_EDGE, account, r) <==> SameInt(account, "id", r, "account_id")
  {
  }

  /** Each edge leads from the accounts to its own table. */
  lemma EdgeTables()
    ensures ACCOUNTS.name == "accounts" && PARENT_EDGE.target == ACCOUNTS && CHILDREN_EDGE.target == ACCOUNTS
    ensures PROXY_EDGE.target.name == "proxies" && USAGE_LOGS_EDGE.target.name == "usage_logs"
    ensures ACCOUNT_GROUPS_EDGE.target.name == "account_groups" && GROUPS_EDGE.target.name == "groups"
    ensures ACCOUNTS.hasId && GROUPS.hasId && PROXIES.hasId && USAGE_LOGS.hasId && !ACCOUNT_GROUPS.hasId
  {
  }

  lemma {:induction false} FirstNames(c: Entity.Column)
    requires !c.Unknown? && Entity.Position(c) < 16
    ensures ACCOUNT_COLUMNS[Entity.Position(c)] == Entity.NameOf(c)
  {
  }

  lemma {:induction false} LastNames(c: Entity.Column)
    requires !c.Unknown? && 16 <= Entity.Position(c)
    ensures ACCOUNT_COLUMNS[Entity.Position(c)] == Entity.NameOf(c)
  {
  }

  /** The table lists the columns that an entity decodes, by their names and in the same order. */
  lemma {:induction false} ColumnNames(c: Entity.Column)
    requires !c.Unknown?
    ensures |ACCOUNT_COLUMNS| == |Entity.ACCOUNT_COLUMNS| && Entity.Position(c) < |ACCOUNT_COLUMNS|
    ensures Entity.ACCOUNT_COLUMNS[Entity.Position(c)] == c
    ensures ACCOUNT_COLUMNS[Entity.Position(c)] == Entity.NameOf(c)
  {
    Entity.InTable(c);
    if Entity.Position(c) < 16 {
      FirstNames(c);
    } else {
      LastNames(c);
    }
  }
}
