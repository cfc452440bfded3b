/** The tenant-scoping rewrite (packages/db/src/tenant.ts): every query, at every depth, gains one
    `ref.scope_column = workspace` conjunct per tenant table it names, and every INSERT is forced
    into the workspace or refused. */
module TenantRewrite {
  import opened Options
  import opened Sql

  /** packages/db/src/schema.ts:77-90. */
  const TENANT_SCOPE_COLUMNS: map<string, string> := map[
    "collections" := "workspace_id", "docs" := "workspace_id", "doc_snapshots" := "workspace_id",
    "doc_updates" := "workspace_id", "audit_events" := "workspace_id", "workspace_members" := "workspace_id",
    "workspaces" := "id", "spaces" := "workspace_id", "space_members" := "workspace_id",
    "grants" := "workspace_id", "agents" := "workspace_id", "agent_tokens" := "workspace_id"]

  /** The tenancy a `TenantScopedDb` is created with. */
  function ScopedTo(ws: string): Tenancy { Tenancy(TENANT_SCOPE_COLUMNS, ws) }

  // ---------------------------------------------------------------- queries

  function PinTest(p: Pin, ws: string): Expr { Eq(Col(p.ref, p.column), Lit(Str(ws))) }

  function ConjunctionOver(pins: seq<Pin>, ws: string): Expr
    requires pins != []
  {
    if |pins| == 1 then PinTest(pins[0], ws)
    else And(ConjunctionOver(pins[..|pins| - 1], ws), PinTest(pins[|pins| - 1], ws))
  }

  function AppendAnd(existing: Option<Expr>, pinned: Expr): Option<Expr> {
    Some(if existing.None? then pinned else And(existing.value, pinned))
  }

  function Pinning(existing: Option<Expr>, pins: seq<Pin>, ws: string): Option<Expr> {
    if pins == [] then existing else AppendAnd(existing, ConjunctionOver(pins, ws))
  }

  function RewriteQuery(q: Query, t: Tenancy): Query
    decreases q
  {
    var froms, joins := RewriteItems(q.froms, t), RewriteJoins(q.joins, t);
    var pins := FromPins(froms, t.columns) + JoinPins(joins, t.columns);
    Select(froms, joins, Pinning(RewriteCond(q.where, t), pins, t.ws), RewriteCols(q.cols, t), q.finish)
  }

  function RewriteItems(items: seq<Item>, t: Tenancy): seq<Item>
    decreases items
  {
    if items == [] then [] else [RewriteItem(items[0], t)] + RewriteItems(items[1..], t)
  }

  function RewriteItem(item: Item, t: Tenancy): Item
    decreases item
  {
    if item.Derived? then Derived(RewriteQuery(item.q, t), item.alias) else item
  }

  function RewriteJoins(joins: seq<Join>, t: Tenancy): seq<Join>
    decreases joins
  {
    if joins == [] then [] else [RewriteJoin(joins[0], t)] + RewriteJoins(joins[1..], t)
  }

  function RewriteJoin(j: Join, t: Tenancy): Join
    decreases j
  {
    Join(j.kind, RewriteItem(j.item, t), RewriteCond(j.on, t))
  }

  function RewriteCond(cond: Option<Expr>, t: Tenancy): Option<Expr>
    decreases cond
  {
    if cond.None? then None else Some(RewriteExpr(cond.value, t))
  }

  function RewriteCols(cols: seq<Column>, t: Tenancy): seq<Column>
    decreases cols
  {
    if cols == [] then [] else [Column(cols[0].name, RewriteExpr(cols[0].e, t))] + RewriteCols(cols[1..], t)
  }

  function RewriteExpr(e: Expr, t: Tenancy): Expr
    decreases e
  {
    match e
    case Col(_, _) => e
    case Lit(_) => e
    case Eq(l, r) => Eq(RewriteExpr(l, t), RewriteExpr(r, t))
    case And(l, r) => And(RewriteExpr(l, t), RewriteExpr(r, t))
    case Or(l, r) => Or(RewriteExpr(l, t), RewriteExpr(r, t))
    case Not(e) => Not(RewriteExpr(e, t))
    case Apply(f, l, r) => Apply(f, RewriteExpr(l, t), RewriteExpr(r, t))
    case Exists(q) => Exists(RewriteQuery(q, t))
    case In(e, q) => In(RewriteExpr(e, t), RewriteQuery(q, t))
    case Scalar(q) => Scalar(RewriteQuery(q, t))
  }

  // ---------------------------------------------------------------- writes

  /** A row of literals, or of arbitrary value nodes. */
  datatype InsertRow = Primitive(literals: seq<Value>) | Listed(nodes: seq<Expr>)

  datatype InsertSource = Rows(rows: seq<InsertRow>) | FromSelect(q: Query) | OtherShape

  datatype Insert = Insert(table: string, columns: Option<seq<string>>, source: Option<InsertSource>,
                           defaultValues: bool)

  datatype Assignment = Assignment(column: string, e: Expr)

  datatype Update = Update(
    target: Item, sets: seq<Assignment>, froms: Option<seq<Item>>, joins: seq<Join>, where: Option<Expr>)

  datatype Delete = Delete(target: Item, joins: seq<Join>, where: Option<Expr>)

  datatype Reason = ScopeMismatch | InsertMissingColumns | InsertDefaultValues | InsertSelectUnaudited

  datatype Forced = Kept(insert: Insert) | Violation(table: string, reason: Reason)

  function RewriteNodes(nodes: seq<Expr>, t: Tenancy): seq<Expr> {
    if nodes == [] then [] else [RewriteExpr(nodes[0], t)] + RewriteNodes(nodes[1..], t)
  }

  function RewriteSets(sets: seq<Assignment>, t: Tenancy): seq<Assignment> {
    if sets == [] then [] else [Assignment(sets[0].column, RewriteExpr(sets[0].e, t))] + RewriteSets(sets[1..], t)
  }

  function RewriteRows(rows: seq<InsertRow>, t: Tenancy): seq<InsertRow> {
    if rows == [] then []
    else [if rows[0].Listed? then Listed(RewriteNodes(rows[0].nodes, t)) else rows[0]] + RewriteRows(rows[1..], t)
  }

  function RewriteSource(source: InsertSource, t: Tenancy): InsertSource {
    match source
    case Rows(rows) => Rows(RewriteRows(rows, t))
    case FromSelect(q) => FromSelect(RewriteQuery(q, t))
    case OtherShape => OtherShape
  }

  /** The literal in one position of a row; anything else never equals a workspace id. */
  function LiteralAt(row: InsertRow, i: nat): Option<Value> {
    match row
    case Primitive(vs) => if i < |vs| then Some(vs[i]) else None
    case Listed(es) => if i < |es| && es[i].Lit? then Some(es[i].v) else None
  }

  function IndexOf(columns: seq<string>, column: string): (i: nat)
    requires column in columns
    ensures i < |columns| && columns[i] == column && column !in columns[..i]
  {
    if columns[0] == column then 0 else 1 + IndexOf(columns[1..], column)
  }

  predicate RowsMatchScope(rows: seq<InsertRow>, i: nat, ws: string) {
    forall k :: 0 <= k < |rows| ==> LiteralAt(rows[k], i) == Some(Str(ws))
  }

  function AppendValueToRow(row: InsertRow, ws: string): InsertRow {
    match row
    case Primitive(vs) => Primitive(vs + [Str(ws)])
    case Listed(es) => Listed(es + [Lit(Str(ws))])
  }

  function AppendToRows(rows: seq<InsertRow>, ws: string): seq<InsertRow> {
    if rows == [] then [] else [AppendValueToRow(rows[0], ws)] + AppendToRows(rows[1..], ws)
  }

  /** `forceScopeColumnInInsert`, on an INSERT into a tenant table. */
  function ForceScopeColumn(ins: Insert, column: string, ws: string): Forced {
    if ins.defaultValues then Violation(ins.table, InsertDefaultValues)
    else if ins.columns.None? || ins.columns.value == [] || ins.source.None?
       then Violation(ins.table, InsertMissingColumns)
    else if ins.source.value.FromSelect? then Violation(ins.table, InsertSelectUnaudited)
    else if ins.source.value.OtherShape? then Violation(ins.table, InsertMissingColumns)
    else if column in ins.columns.value then
      if RowsMatchScope(ins.source.value.rows, IndexOf(ins.columns.value, column), ws) then Kept(ins)
      else Violation(ins.table, ScopeMismatch)
    else
      Kept(ins.(columns := Some(ins.columns.value + [column]),
                source := Some(Rows(AppendToRows(ins.source.value.rows, ws)))))
  }

  function RewriteInsert(ins: Insert, t: Tenancy): Forced {
    var source := if ins.source.None? then None else Some(RewriteSource(ins.source.value, t));
    var transformed := ins.(source := source);
    if ins.table in t.columns then ForceScopeColumn(transformed, t.columns[ins.table], t.ws) else Kept(transformed)
  }

  function UpdatePins(u: Update, columns: map<string, string>): seq<Pin> {
    PinOf(u.target, columns) +
    (if u.froms.Some? then FromPins(u.froms.value, columns) + JoinPins(u.joins, columns) else [])
  }

  function RewriteUpdate(u: Update, t: Tenancy): Update {
    var froms := if u.froms.None? then None else Some(RewriteItems(u.froms.value, t));
    var transformed := Update(RewriteItem(u.target, t), RewriteSets(u.sets, t), froms, RewriteJoins(u.joins, t),
                              RewriteCond(u.where, t));
    transformed.(where := Pinning(transformed.where, UpdatePins(transformed, t.columns), t.ws))
  }

  function RewriteDelete(d: Delete, t: Tenancy): Delete {
    var joins := RewriteJoins(d.joins, t);
    var pins := FromPins([RewriteItem(d.target, t)], t.columns) + JoinPins(joins, t.columns);
    Delete(RewriteItem(d.target, t), joins, Pinning(RewriteCond(d.where, t), pins, t.ws))
  }

  // ---------------------------------------------------------------- the transformer

  /** The transformer holds one workspace id; its hooks are built on loops that push to local lists. */
  class WorkspaceScopingTransformer {
    const ws: string

    constructor (ws: string)
      ensures this.ws == ws
    {
      this.ws := ws;
    }

    function Scope(): Tenancy { ScopedTo(ws) }

    method CollectScopedRefs(items: seq<Item>, joins: seq<Join>) returns (out: seq<Pin>)
      ensures out == FromPins(items, TENANT_SCOPE_COLUMNS) + JoinPins(joins, TENANT_SCOPE_COLUMNS)
    {
      out := [];
      for i := 0 to |items|
        invariant out + FromPins(items[i..], TENANT_SCOPE_COLUMNS) == FromPins(items, TENANT_SCOPE_COLUMNS)
      {
        assert items[i..][1..] == items[i + 1..];
        assert out + (PinOf(items[i], TENANT_SCOPE_COLUMNS) + FromPins(items[i + 1..], TENANT_SCOPE_COLUMNS))
            == out + PinOf(items[i], TENANT_SCOPE_COLUMNS) + FromPins(items[i + 1..], TENANT_SCOPE_COLUMNS);
        out := Visit(items[i], out);
      }
      assert out + [] == out;
      ghost var base := out;
      for i := 0 to |joins|
        invariant out + JoinPins(joins[i..], TENANT_SCOPE_COLUMNS) == base + JoinPins(joins, TENANT_SCOPE_COLUMNS)
      {
        assert joins[i..][1..] == joins[i + 1..];
        assert out + (PinOf(joins[i].item, TENANT_SCOPE_COLUMNS) + JoinPins(joins[i + 1..], TENANT_SCOPE_COLUMNS))
            == out + PinOf(joins[i].item, TENANT_SCOPE_COLUMNS) + JoinPins(joins[i + 1..], TENANT_SCOPE_COLUMNS);
        out := Visit(joins[i].item, out);
      }
      assert out + [] == out;
    }

    /** Only a single table, plain or aliased, is pinned; its alias is what the predicate names. */
    method Visit(item: Item, collected: seq<Pin>) returns (out: seq<Pin>)
      ensures out == collected + PinOf(item, TENANT_SCOPE_COLUMNS)
    {
      out := collected;
      match item {
        case Table(name) =>
          if name in TENANT_SCOPE_COLUMNS { out := out + [Pin(name, TENANT_SCOPE_COLUMNS[name])]; }
        case Aliased(name, alias) =>
          if name in TENANT_SCOPE_COLUMNS { out := out + [Pin(alias, TENANT_SCOPE_COLUMNS[name])]; }
        case Derived(_, _) =>
      }
    }

    method TransformSelect(q: Query) returns (out: Query)
      ensures out == RewriteQuery(q, Scope())
    {
      var transformed := Select(RewriteItems(q.froms, Scope()), RewriteJoins(q.joins, Scope()),
                                RewriteCond(q.where, Scope()),
                                RewriteCols(q.cols, Scope()), q.finish);
      var refs := CollectScopedRefs(transformed.froms, transformed.joins);
      if refs == [] { return transformed; }
      out := transformed.(where := AppendAnd(transformed.where, ConjunctionOver(refs, ws)));
    }

    method TransformUpdate(u: Update) returns (out: Update)
      ensures out == RewriteUpdate(u, Scope())
    {
      var froms := if u.froms.None? then None else Some(RewriteItems(u.froms.value, Scope()));
      var transformed := Update(RewriteItem(u.target, Scope()), RewriteSets(u.sets, Scope()), froms,
                                RewriteJoins(u.joins, Scope()), RewriteCond(u.where, Scope()));
      var refs := Visit(transformed.target, []);
      if transformed.froms.Some? {
        var others := CollectScopedRefs(transformed.froms.value, transformed.joins);
        refs := refs + others;
      }
      assert refs == UpdatePins(transformed, TENANT_SCOPE_COLUMNS);
      if refs == [] { return transformed; }
      out := transformed.(where := AppendAnd(transformed.where, ConjunctionOver(refs, ws)));
    }

    method TransformDelete(d: Delete) returns (out: Delete)
      ensures out == RewriteDelete(d, Scope())
    {
      var transformed := Delete(RewriteItem(d.target, Scope()), RewriteJoins(d.joins, Scope()),
                                RewriteCond(d.where, Scope()));
      var refs := CollectScopedRefs([transformed.target], transformed.joins);
      if refs == [] { return transformed; }
      out := transformed.(where := AppendAnd(transformed.where, ConjunctionOver(refs, ws)));
    }

    method TransformInsert(ins: Insert) returns (out: Forced)
      ensures out == RewriteInsert(ins, Scope())
    {
      var source := if ins.source.None? then None else Some(RewriteSource(ins.source.value, Scope()));
      var transformed := ins.(source := source);
      if ins.table !in TENANT_SCOPE_COLUMNS { return Kept(transformed); }
      var column := TENANT_SCOPE_COLUMNS[ins.table];
      if transformed.defaultValues { return Violation(ins.table, InsertDefaultValues); }
      if transformed.columns.None? || transformed.columns.value == [] || source.None? {
        return Violation(ins.table, InsertMissingColumns);
      }
      match source.value {
        case FromSelect(_) => return Violation(ins.table, InsertSelectUnaudited);
        case OtherShape => return Violation(ins.table, InsertMissingColumns);
        case Rows(rows) =>
          if column in transformed.columns.value {
            var fits := ValuesColumnMatchesScope(rows, transformed.columns.value, column);
            return if fits then Kept(transformed) else Violation(ins.table, ScopeMismatch);
          }
          out := Kept(transformed.(columns := Some(transformed.columns.value + [column]),
                                   source := Some(Rows(AppendToRows(rows, ws)))));
      }
    }

    /** False where the source throws `scope_mismatch`. */
    method ValuesColumnMatchesScope(rows: seq<InsertRow>, columns: seq<string>, column: string) returns (fits: bool)
      requires column in columns
      ensures fits == RowsMatchScope(rows, IndexOf(columns, column), ws)
    {
      var i := IndexOf(columns, column);
      for k := 0 to |rows|
        invariant RowsMatchScope(rows[..k], i, ws)
      {
        if LiteralAt(rows[k], i) != Some(Str(ws)) { return false; }
      }
      assert rows[..|rows|] == rows;
      return true;
    }
  }
}
