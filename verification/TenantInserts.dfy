/** Which INSERTs the tenant rewrite accepts, what it answers to the others, and what it makes of
    those it accepts, read off the statement the caller wrote (packages/db/src/tenant.ts). */
module TenantInserts {
  import opened Options
  import opened Sql
  import opened TenantRewrite
  import opened TenantMeaning
  import opened TenantWrites

  /** The row holds the value as a literal in that position. */
  predicate Gives(row: InsertRow, i: nat, v: Value) {
    match row
    case Primitive(vs) => i < |vs| && vs[i] == v
    case Listed(es) => i < |es| && es[i] == Lit(v)
  }

  predicate IsFirst(columns: seq<string>, column: string, i: nat) {
    i < |columns| && columns[i] == column && forall j :: 0 <= j < i ==> columns[j] != column
  }

  /** Wherever the column list first names the scope column, every row gives the workspace. */
  ghost predicate NamesHome(columns: seq<string>, rows: seq<InsertRow>, column: string, ws: string) {
    forall i, k :: IsFirst(columns, column, i) && 0 <= k < |rows| ==> Gives(rows[k], i, Str(ws))
  }

  predicate ListsColumns(ins: Insert) { ins.columns.Some? && ins.columns.value != [] }

  lemma {:induction false} RewrittenRow(rows: seq<InsertRow>, t: Tenancy, k: nat)
    requires k < |rows|
    ensures |RewriteRows(rows, t)| == |rows|
    ensures RewriteRows(rows, t)[k]
         == if rows[k].Listed? then Listed(RewriteNodes(rows[k].nodes, t)) else rows[k]
  {
    if k > 0 { RewrittenRow(rows[1..], t, k - 1); }
    else if |rows| > 1 { RewrittenRow(rows[1..], t, 0); }
  }

  lemma {:induction false} RewrittenNode(nodes: seq<Expr>, t: Tenancy, i: nat)
    requires i < |nodes|
    ensures |RewriteNodes(nodes, t)| == |nodes| && RewriteNodes(nodes, t)[i] == RewriteExpr(nodes[i], t)
  {
    if i > 0 { RewrittenNode(nodes[1..], t, i - 1); }
    else if |nodes| > 1 { RewrittenNode(nodes[1..], t, 0); }
  }

  lemma NodesKeepLength(nodes: seq<Expr>, t: Tenancy)
    ensures |RewriteNodes(nodes, t)| == |nodes|
  {
    if nodes != [] { RewrittenNode(nodes, t, 0); }
  }

  /** Rewriting neither makes nor unmakes a literal. */
  lemma LiteralsStay(row: InsertRow, t: Tenancy, i: nat, v: Value)
    ensures var row' := if row.Listed? then Listed(RewriteNodes(row.nodes, t)) else row;
            LiteralAt(row', i) == Some(v) <==> Gives(row, i, v)
  {
    if row.Listed? {
      NodesKeepLength(row.nodes, t);
      if i < |row.nodes| { RewrittenNode(row.nodes, t, i); }
    }
  }

  lemma MatchIsHome(columns: seq<string>, rows: seq<InsertRow>, column: string, t: Tenancy)
    requires column in columns
    ensures RowsMatchScope(RewriteRows(rows, t), IndexOf(columns, column), t.ws)
       <==> NamesHome(columns, rows, column, t.ws)
  {
    var i := IndexOf(columns, column);
    assert IsFirst(columns, column, i);
    assert forall j :: 0 <= j < i ==> columns[j] == columns[..i][j];
    assert forall j :: IsFirst(columns, column, j) ==> j == i;
    var out := RewriteRows(rows, t);
    if rows != [] { RewrittenRow(rows, t, 0); }
    forall k | 0 <= k < |rows| ensures LiteralAt(out[k], i) == Some(Str(t.ws)) <==> Gives(rows[k], i, Str(t.ws)) {
      RewrittenRow(rows, t, k);
      LiteralsStay(rows[k], t, i, Str(t.ws));
    }
    if RowsMatchScope(out, i, t.ws) {
      forall k | 0 <= k < |rows| ensures Gives(rows[k], i, Str(t.ws)) {
        assert LiteralAt(out[k], i) == Some(Str(t.ws));
      }
    }
  }

  /** The caller wrote rows under a column list. */
  predicate PlainRows(ins: Insert) {
    !ins.defaultValues && ListsColumns(ins) && ins.source.Some? && ins.source.value.Rows?
  }

  /** An INSERT into a tenant table is accepted exactly if it lists its columns and gives rows, and
      the scope column is either not listed or is given the workspace as a literal in every row. */
  lemma AcceptedIff(ins: Insert, t: Tenancy)
    requires ins.table in t.columns
    ensures RewriteInsert(ins, t).Kept?
       <==> PlainRows(ins) &&
            (t.columns[ins.table] in ins.columns.value ==>
               NamesHome(ins.columns.value, ins.source.value.rows, t.columns[ins.table], t.ws))
  {
    if PlainRows(ins) && t.columns[ins.table] in ins.columns.value {
      MatchIsHome(ins.columns.value, ins.source.value.rows, t.columns[ins.table], t);
    }
  }

  /** Each refusal names the table, and its reason is the first of these that applies: default values,
      no column list or no readable source, a SELECT for a source, a foreign or computed scope. */
  lemma RefusedIff(ins: Insert, t: Tenancy)
    requires ins.table in t.columns
    ensures var out := RewriteInsert(ins, t);
            && (out == Violation(ins.table, InsertDefaultValues) <==> ins.defaultValues)
            && (out == Violation(ins.table, InsertMissingColumns) <==>
                  !ins.defaultValues && (!ListsColumns(ins) || ins.source.None? || ins.source.value.OtherShape?))
            && (out == Violation(ins.table, InsertSelectUnaudited) <==>
                  !ins.defaultValues && ListsColumns(ins) && ins.source.Some? && ins.source.value.FromSelect?)
            && (out == Violation(ins.table, ScopeMismatch) <==>
                  PlainRows(ins) && t.columns[ins.table] in ins.columns.value &&
                  !NamesHome(ins.columns.value, ins.source.value.rows, t.columns[ins.table], t.ws))
  {
    if PlainRows(ins) && t.columns[ins.table] in ins.columns.value {
      MatchIsHome(ins.columns.value, ins.source.value.rows, t.columns[ins.table], t);
    }
  }

  /** An INSERT into a table without a scope column is always accepted: the same columns, with the
      rows or the SELECT answered from the workspace's own share. */
  lemma UnscopedIsKept(ins: Insert, t: Tenancy, db: Db)
    requires ins.table !in t.columns
    ensures RewriteInsert(ins, t).Kept?
    ensures var kept := RewriteInsert(ins, t).insert;
            && kept.(source := ins.source) == ins
            && (kept.source.Some? <==> ins.source.Some?)
            && (ins.source.Some? ==>
                  match ins.source.value
                  case OtherShape => kept.source.value == OtherShape
                  case FromSelect(q) =>
                    kept.source.value.FromSelect? &&
                    (Apart(q) ==> Run(kept.source.value.q, db, map[], None) == Run(q, Restrict(db, t), map[], Some(t)))
                  case Rows(rows) =>
                    ApartRows(rows) ==>
                      InsertedRows(kept, db, None) == InsertedRows(ins, Restrict(db, t), Some(t)))
  {
    if ins.source.Some? {
      match ins.source.value
      case OtherShape =>
      case FromSelect(q) => if Apart(q) { QueryMeans(q, t, db, map[]); }
      case Rows(rows) => if ApartRows(rows) && ins.columns.Some? { RowsMean(ins.columns.value, rows, t, db); }
    }
  }
}
