/** Whole runs: statements of several workspaces, interleaved in any order over one database. */
module TenantRuns {
  import opened Options
  import opened Sql
  import opened TenantRewrite
  import opened TenantMeaning
  import opened TenantWrites

  datatype Statement = Ask(q: Query) | Add(ins: Insert) | Change(u: Update) | Remove(d: Delete)

  datatype Answer = Answered(rows: seq<Row>) | Affected(n: int) | Refused(reason: Reason) | DatabaseError

  /** One statement through a `TenantScopedDb`: rewritten, then plain SQL. */
  ghost function Perform(s: Statement, t: Tenancy, db: Db): (Db, Answer) {
    match s
    case Ask(q) => (db, Answered(Run(RewriteQuery(q, t), db, map[], None)))
    case Add(ins) =>
      var forced := RewriteInsert(ins, t);
      if forced.Violation? then (db, Refused(forced.reason))
         else AddRows(forced.insert.table, InsertedRows(forced.insert, db, None), db)
    case Change(u) =>
      var v, name := RewriteUpdate(u, t), ItemName(u.target);
      if name !in db then (db, DatabaseError)
      else (db[name := UpdatedRows(v, db, db[name], None)], Affected(UpdateCount(v, db, db[name], None)))
    case Remove(d) =>
      var e, name := RewriteDelete(d, t), ItemName(d.target);
      if name !in db then (db, DatabaseError)
      else
        var rest := RemainingRows(e, db, db[name], None);
        (db[name := rest], Affected(|db[name]| - |rest|))
  }

  ghost function AddRows(table: string, rows: Option<seq<Row>>, db: Db): (Db, Answer) {
    if rows.None? || table !in db then (db, DatabaseError)
    else (db[table := db[table] + rows.value], Affected(|rows.value|))
  }

  function ItemName(item: Item): string { if item.Derived? then "" else item.name }

  /** Distinct references, and writes to tenant tables only. */
  predicate WellFormed(s: Statement, columns: map<string, string>) {
    match s
    case Ask(q) => Apart(q)
    case Add(ins) => ApartInsert(ins, columns)
    case Change(u) => ApartUpdate(u, columns)
    case Remove(d) => ApartDelete(d, columns)
  }

  /** What a run may contain: the scope column is assigned only what no other workspace is named by. */
  predicate Allowed(s: Statement, t: Tenancy) {
    WellFormed(s, t.columns) && (s.Change? ==> Harmless(s.u.sets, t.columns[s.u.target.name], t.ws))
  }

  /** No row leaves the workspace by assignment. */
  predicate Stays(s: Statement, t: Tenancy)
    requires WellFormed(s, t.columns)
  {
    s.Change? ==> KeepsHome(s.u.sets, t.columns[s.u.target.name], t.ws)
  }

  // ---------------------------------------------------------------- one statement

  lemma RestrictUpdate(db: Db, name: string, rows: seq<Row>, t: Tenancy)
    requires name in t.columns
    ensures Restrict(db[name := rows], t) == Restrict(db, t)[name := RowsOf(rows, t.columns[name], t.ws)]
  {
  }

  lemma {:induction false} RowsOfConcat(a: seq<Row>, b: seq<Row>, column: string, ws: string)
    ensures RowsOf(a + b, column, ws) == RowsOf(a, column, ws) + RowsOf(b, column, ws)
  {
    if a == [] {
      assert a + b == b;
    } else {
      assert (a + b)[0] == a[0] && (a + b)[1..] == a[1..] + b;
      RowsOfConcat(a[1..], b, column, ws);
    }
  }

  lemma {:induction false} RowsOfInScope(rows: seq<Row>, column: string, ws: string, owner: string)
    requires AllInScope(rows, column, owner)
    ensures RowsOf(rows, column, ws) == if ws == owner then rows else []
  {
    if rows != [] {
      assert InScope(rows[0], column, owner);
      RowsOfInScope(rows[1..], column, ws, owner);
      assert [rows[0]] + rows[1..] == rows;
    }
  }

  /** The values of these rows are the same over everyone's rows and over the workspace's own. */
  ghost predicate Blind(rows: seq<InsertRow>, t: Tenancy, db: Db) {
    forall i :: 0 <= i < |rows| ==> RowValues(rows[i], db, None) == RowValues(rows[i], Restrict(db, t), None)
  }

  lemma {:induction false} NodesAreBlind(nodes: seq<Expr>, t: Tenancy, db: Db)
    requires ApartNodes(nodes)
    ensures NodeValues(RewriteNodes(nodes, t), db, None) == NodeValues(RewriteNodes(nodes, t), Restrict(db, t), None)
  {
    if nodes != [] {
      assert ApartNodes(nodes[1..]) by { assert forall i :: 0 <= i < |nodes[1..]| ==> nodes[1..][i] == nodes[i + 1]; }
      NodesAreBlind(nodes[1..], t, db);
      ExprMeans(nodes[0], t, db, map[]);
      ExprMeans(nodes[0], t, Restrict(db, t), map[]);
      RestrictTwice(db, t);
      var out := RewriteNodes(nodes, t);
      assert out[0] == RewriteExpr(nodes[0], t) && out[1..] == RewriteNodes(nodes[1..], t);
    }
  }

  lemma {:induction false} RewrittenRowsAreBlind(rows: seq<InsertRow>, t: Tenancy, db: Db)
    requires ApartRows(rows)
    ensures Blind(RewriteRows(rows, t), t, db)
  {
    if rows != [] {
      assert ApartRows(rows[1..]) by { assert forall i :: 0 <= i < |rows[1..]| ==> rows[1..][i] == rows[i + 1]; }
      RewrittenRowsAreBlind(rows[1..], t, db);
      if rows[0].Listed? { NodesAreBlind(rows[0].nodes, t, db); }
      var out := RewriteRows(rows, t);
      assert out[1..] == RewriteRows(rows[1..], t);
      assert forall i :: 1 <= i < |out| ==> out[i] == out[1..][i - 1];
    }
  }

  lemma {:induction false} AppendedRowsAreBlind(rows: seq<InsertRow>, t: Tenancy, db: Db)
    requires Blind(rows, t, db)
    ensures Blind(AppendToRows(rows, t.ws), t, db)
  {
    if rows != [] {
      assert Blind(rows[1..], t, db) by { assert forall i :: 0 <= i < |rows[1..]| ==> rows[1..][i] == rows[i + 1]; }
      AppendedRowsAreBlind(rows[1..], t, db);
      AppendedValues(rows[0], t.ws, db);
      AppendedValues(rows[0], t.ws, Restrict(db, t));
      var out := AppendToRows(rows, t.ws);
      assert out[1..] == AppendToRows(rows[1..], t.ws);
      assert forall i :: 1 <= i < |out| ==> out[i] == out[1..][i - 1];
    }
  }

  lemma {:induction false} BlindRowsBuild(columns: seq<string>, rows: seq<InsertRow>, t: Tenancy, db: Db)
    requires Blind(rows, t, db)
    ensures BuildRows(columns, rows, db, None) == BuildRows(columns, rows, Restrict(db, t), None)
  {
    if rows != [] {
      assert Blind(rows[1..], t, db) by { assert forall i :: 0 <= i < |rows[1..]| ==> rows[1..][i] == rows[i + 1]; }
      BlindRowsBuild(columns, rows[1..], t, db);
    }
  }

  lemma InsertIsBlind(ins: Insert, t: Tenancy, db: Db)
    requires ApartInsert(ins, t.columns) && RewriteInsert(ins, t).Kept?
    ensures InsertedRows(RewriteInsert(ins, t).insert, db, None)
            == InsertedRows(RewriteInsert(ins, t).insert, Restrict(db, t), None)
  {
    var rows := RewriteRows(ins.source.value.rows, t);
    RewrittenRowsAreBlind(ins.source.value.rows, t, db);
    AppendedRowsAreBlind(rows, t, db);
    var kept := RewriteInsert(ins, t).insert;
    BlindRowsBuild(kept.columns.value, kept.source.value.rows, t, db);
  }

  /** A statement does to its own workspace's share what it would do to that share alone, and
      answers the same, whatever it assigns. */
  lemma OwnShare(s: Statement, t: Tenancy, db: Db)
    requires WellFormed(s, t.columns)
    ensures Restrict(Perform(s, t, db).0, t) == Restrict(Perform(s, t, Restrict(db, t)).0, t)
    ensures Perform(s, t, db).1 == Perform(s, t, Restrict(db, t)).1
    ensures Stays(s, t) ==> Restrict(Perform(s, t, db).0, t) == Perform(s, t, Restrict(db, t)).0
  {
    RestrictTwice(db, t);
    match s
    case Ask(q) => DependsOnOwnRows(q, t, db, Restrict(db, t), map[]);
    case Add(ins) =>
      OwnInsert(ins, t, db);
      RestrictTwice(Perform(s, t, db).0, t);
    case Change(u) => OwnUpdate(u, t, db);
    case Remove(d) =>
      OwnDelete(d, t, db);
      RestrictTwice(Perform(s, t, db).0, t);
  }

  lemma OwnInsert(ins: Insert, t: Tenancy, db: Db)
    requires ApartInsert(ins, t.columns)
    ensures Restrict(Perform(Add(ins), t, db).0, t) == Perform(Add(ins), t, Restrict(db, t)).0
    ensures Perform(Add(ins), t, db).1 == Perform(Add(ins), t, Restrict(db, t)).1
  {
    if RewriteInsert(ins, t).Kept? {
      var column := t.columns[ins.table];
      InsertIsBlind(ins, t, db);
      InsertLandsInScope(ins, t, db);
      var rows := InsertedRows(RewriteInsert(ins, t).insert, db, None);
      if rows.Some? && ins.table in db {
        RowsOfConcat(db[ins.table], rows.value, column, t.ws);
        RowsOfInScope(rows.value, column, t.ws, t.ws);
        RestrictUpdate(db, ins.table, db[ins.table] + rows.value, t);
      }
    }
  }

  lemma OwnUpdate(u: Update, t: Tenancy, db: Db)
    requires ApartUpdate(u, t.columns)
    ensures var alone := Perform(Change(u), t, Restrict(db, t));
            Restrict(Perform(Change(u), t, db).0, t) == Restrict(alone.0, t) &&
            Perform(Change(u), t, db).1 == alone.1 &&
            (KeepsHome(u.sets, t.columns[u.target.name], t.ws) ==> Restrict(Perform(Change(u), t, db).0, t) == alone.0)
  {
    var name, own := u.target.name, Restrict(db, t);
    RestrictTwice(db, t);
    if name in db {
      UpdateMeans(u, t, db, db[name]);
      UpdateMeans(u, t, own, own[name]);
      UpdateOwnRows(u, t, db, db[name]);
      RestrictUpdate(db, name, UpdatedRows(u, own, db[name], Some(t)), t);
      RestrictUpdate(own, name, UpdatedRows(u, own, own[name], Some(t)), t);
    }
  }

  lemma OwnDelete(d: Delete, t: Tenancy, db: Db)
    requires ApartDelete(d, t.columns)
    ensures Restrict(Perform(Remove(d), t, db).0, t) == Perform(Remove(d), t, Restrict(db, t)).0
    ensures Perform(Remove(d), t, db).1 == Perform(Remove(d), t, Restrict(db, t)).1
  {
    var name, own := d.target.name, Restrict(db, t);
    if name in db {
      RestrictTwice(db, t);
      DeleteMeans(d, t, db, db[name]);
      DeleteMeans(d, t, own, own[name]);
      DeleteOwnRows(d, t, db, db[name]);
      RestrictUpdate(db, name, RemainingRows(d, own, db[name], Some(t)), t);
    }
  }

  lemma ForeignInsert(ins: Insert, t: Tenancy, db: Db, other: Tenancy)
    requires ApartInsert(ins, t.columns) && other.columns == t.columns && other.ws != t.ws
    ensures Restrict(Perform(Add(ins), t, db).0, other) == Restrict(db, other)
  {
    if RewriteInsert(ins, t).Kept? {
      InsertLandsInScope(ins, t, db);
      var rows := InsertedRows(RewriteInsert(ins, t).insert, db, None);
      if rows.Some? && ins.table in db {
        var own := RowsOf(db[ins.table], t.columns[ins.table], other.ws);
        RowsOfConcat(db[ins.table], rows.value, t.columns[ins.table], other.ws);
        RowsOfInScope(rows.value, t.columns[ins.table], other.ws, t.ws);
        assert own + [] == own;
        RestrictUpdate(db, ins.table, db[ins.table] + rows.value, other);
      }
    }
  }

  lemma ForeignUpdate(u: Update, t: Tenancy, db: Db, other: Tenancy)
    requires Allowed(Change(u), t) && other.columns == t.columns && other.ws != t.ws
    ensures Restrict(Perform(Change(u), t, db).0, other) == Restrict(db, other)
  {
    hide RewriteUpdate, UpdatedRows, UpdateCount, NoneMovesInto, Harmless;
    var name := u.target.name;
    if name in db {
      UpdateMeans(u, t, db, db[name]);
      HarmlessMovesNone(u, t, db, db[name], other.ws);
      UpdateForeignRowsIff(u, t, db, db[name], other.ws);
      RestrictUpdate(db, name, UpdatedRows(u, Restrict(db, t), db[name], Some(t)), other);
    }
  }

  lemma ForeignDelete(d: Delete, t: Tenancy, db: Db, other: Tenancy)
    requires ApartDelete(d, t.columns) && other.columns == t.columns && other.ws != t.ws
    ensures Restrict(Perform(Remove(d), t, db).0, other) == Restrict(db, other)
  {
    var name := d.target.name;
    if name in db {
      DeleteMeans(d, t, db, db[name]);
      DeleteForeignRows(d, t, db, db[name], other.ws);
      RestrictUpdate(db, name, RemainingRows(d, Restrict(db, t), db[name], Some(t)), other);
    }
  }

  /** A statement leaves every other workspace's share as it was. */
  lemma ForeignShare(s: Statement, t: Tenancy, db: Db, other: Tenancy)
    requires Allowed(s, t) && other.columns == t.columns && other.ws != t.ws
    ensures Restrict(Perform(s, t, db).0, other) == Restrict(db, other)
  {
    match s
    case Ask(_) =>
    case Add(ins) => ForeignInsert(ins, t, db, other);
    case Change(u) => ForeignUpdate(u, t, db, other);
    case Remove(d) => ForeignDelete(d, t, db, other);
  }

  // ---------------------------------------------------------------- runs

  datatype Request = Request(ws: string, s: Statement)

  ghost function PerformAll(reqs: seq<Request>, columns: map<string, string>, db: Db): Db
    decreases |reqs|
  {
    if reqs == [] then db
    else PerformAll(reqs[1..], columns, Perform(reqs[0].s, Tenancy(columns, reqs[0].ws), db).0)
  }

  /** What one workspace is answered during a run. */
  ghost function Answers(reqs: seq<Request>, columns: map<string, string>, db: Db, ws: string): seq<Answer>
    decreases |reqs|
  {
    if reqs == [] then []
    else
      var done := Perform(reqs[0].s, Tenancy(columns, reqs[0].ws), db);
      (if reqs[0].ws == ws then [done.1] else []) + Answers(reqs[1..], columns, done.0, ws)
  }

  function OwnRequests(reqs: seq<Request>, ws: string): seq<Request> {
    if reqs == [] then [] else (if reqs[0].ws == ws then [reqs[0]] else []) + OwnRequests(reqs[1..], ws)
  }

  predicate AllAllowed(reqs: seq<Request>, columns: map<string, string>) {
    forall i :: 0 <= i < |reqs| ==> Allowed(reqs[i].s, Tenancy(columns, reqs[i].ws))
  }

  predicate AllStay(reqs: seq<Request>, columns: map<string, string>)
    requires AllAllowed(reqs, columns)
  {
    forall i :: 0 <= i < |reqs| ==> Stays(reqs[i].s, Tenancy(columns, reqs[i].ws))
  }

  lemma AllowedTail(reqs: seq<Request>, columns: map<string, string>)
    requires reqs != [] && AllAllowed(reqs, columns)
    ensures AllAllowed(reqs[1..], columns)
  {
    assert forall i :: 0 <= i < |reqs[1..]| ==> reqs[1..][i] == reqs[i + 1];
  }

  /** An own statement keeps two databases with the same share together. */
  lemma OwnStepAgrees(s: Statement, t: Tenancy, db: Db, alone: Db)
    requires WellFormed(s, t.columns) && Restrict(db, t) == Restrict(alone, t)
    ensures Restrict(Perform(s, t, db).0, t) == Restrict(Perform(s, t, alone).0, t)
    ensures Perform(s, t, db).1 == Perform(s, t, alone).1
  {
    OwnShare(s, t, db);
    OwnShare(s, t, alone);
  }

  /** A run over everyone's rows and the workspace's own statements over any database with the same
      share keep agreeing on the share and on the answers. */
  lemma {:induction false} RunsAgree(reqs: seq<Request>, columns: map<string, string>, db: Db, alone: Db, ws: string)
    requires AllAllowed(reqs, columns) && Restrict(db, Tenancy(columns, ws)) == Restrict(alone, Tenancy(columns, ws))
    ensures var t, own := Tenancy(columns, ws), OwnRequests(reqs, ws);
            Restrict(PerformAll(reqs, columns, db), t) == Restrict(PerformAll(own, columns, alone), t) &&
            Answers(reqs, columns, db, ws) == Answers(own, columns, alone, ws)
    decreases |reqs|
  {
    if reqs != [] {
      var t, s := Tenancy(columns, ws), reqs[0].s;
      var next, rest := Perform(s, Tenancy(columns, reqs[0].ws), db).0, OwnRequests(reqs[1..], ws);
      AllowedTail(reqs, columns);
      if reqs[0].ws == ws {
        var alone' := Perform(s, t, alone).0;
        OwnStepAgrees(s, t, db, alone);
        RunsAgree(reqs[1..], columns, next, alone', ws);
        OwnFirst(reqs, columns, alone, ws);
      } else {
        ForeignShare(s, Tenancy(columns, reqs[0].ws), db, t);
        RunsAgree(reqs[1..], columns, next, alone, ws);
        assert [] + rest == rest;
        assert [] + Answers(reqs[1..], columns, next, ws) == Answers(reqs[1..], columns, next, ws);
      }
    }
  }

  lemma OwnFirst(reqs: seq<Request>, columns: map<string, string>, alone: Db, ws: string)
    requires reqs != [] && reqs[0].ws == ws
    ensures var own, rest, done := OwnRequests(reqs, ws), OwnRequests(reqs[1..], ws),
                                   Perform(reqs[0].s, Tenancy(columns, ws), alone);
            PerformAll(own, columns, alone) == PerformAll(rest, columns, done.0) &&
            Answers(own, columns, alone, ws) == [done.1] + Answers(rest, columns, done.0, ws)
  {
    var rest := OwnRequests(reqs[1..], ws);
    assert ([reqs[0]] + rest)[0] == reqs[0] && ([reqs[0]] + rest)[1..] == rest;
  }

  lemma {:induction false} OwnAreOwn(reqs: seq<Request>, columns: map<string, string>, ws: string)
    requires AllAllowed(reqs, columns)
    ensures AllAllowed(OwnRequests(reqs, ws), columns)
    ensures forall i :: 0 <= i < |OwnRequests(reqs, ws)| ==> OwnRequests(reqs, ws)[i].ws == ws
  {
    if reqs != [] {
      AllowedTail(reqs, columns);
      OwnAreOwn(reqs[1..], columns, ws);
    }
  }

  /** A workspace alone that never gives a row away has nothing but its share. */
  lemma {:induction false} StayingKeepsShare(reqs: seq<Request>, columns: map<string, string>, db: Db, ws: string)
    requires AllAllowed(reqs, columns) && AllStay(reqs, columns) && forall i :: 0 <= i < |reqs| ==> reqs[i].ws == ws
    requires Restrict(db, Tenancy(columns, ws)) == db
    ensures Restrict(PerformAll(reqs, columns, db), Tenancy(columns, ws)) == PerformAll(reqs, columns, db)
    decreases |reqs|
  {
    if reqs != [] {
      AllowedTail(reqs, columns);
      assert forall i :: 0 <= i < |reqs[1..]| ==> reqs[1..][i] == reqs[i + 1];
      OwnShare(reqs[0].s, Tenancy(columns, ws), db);
      StayingKeepsShare(reqs[1..], columns, Perform(reqs[0].s, Tenancy(columns, ws), db).0, ws);
    }
  }

  /** Whole-run isolation: each workspace's rows and answers are those of running its own statements
      alone on its own share. Rows a statement assigns to no workspace are in nobody's share. */
  lemma RunsAreIsolated(reqs: seq<Request>, columns: map<string, string>, db: Db, ws: string)
    requires AllAllowed(reqs, columns)
    ensures var t, own := Tenancy(columns, ws), OwnRequests(reqs, ws);
            AllAllowed(own, columns) &&
            Restrict(PerformAll(reqs, columns, db), t) == Restrict(PerformAll(own, columns, Restrict(db, t)), t) &&
            Answers(reqs, columns, db, ws) == Answers(own, columns, Restrict(db, t), ws) &&
            (AllStay(own, columns) ==>
              Restrict(PerformAll(reqs, columns, db), t) == PerformAll(own, columns, Restrict(db, t)))
  {
    var t, own := Tenancy(columns, ws), OwnRequests(reqs, ws);
    RestrictTwice(db, t);
    RunsAgree(reqs, columns, db, Restrict(db, t), ws);
    OwnAreOwn(reqs, columns, ws);
    if AllStay(own, columns) { StayingKeepsShare(own, columns, Restrict(db, t), ws); }
  }

  // ---------------------------------------------------------------- assigning the scope column

  ghost predicate SparesShare(u: Update, t: Tenancy, db: Db, other: string) {
    Restrict(Perform(Change(u), t, db).0, Tenancy(t.columns, other)) == Restrict(db, Tenancy(t.columns, other))
  }

  /** An UPDATE of any shape leaves another workspace's share as it was exactly when none of the
      caller's own rows is hit and assigned to that workspace. */
  lemma SparesShareIff(u: Update, t: Tenancy, db: Db, other: string)
    requires ApartUpdate(u, t.columns) && other != t.ws
    ensures SparesShare(u, t, db, other) <==> NoneMovesInto(u, t, db, TableRows(db, u.target.name), other)
  {
    var name, them := u.target.name, Tenancy(t.columns, other);
    if name in db {
      UpdateMeans(u, t, db, db[name]);
      UpdateForeignRowsIff(u, t, db, db[name], other);
      RestrictUpdate(db, name, UpdatedRows(u, Restrict(db, t), db[name], Some(t)), them);
      assert Restrict(Perform(Change(u), t, db).0, them)[name]
          == RowsOf(UpdatedRows(u, Restrict(db, t), db[name], Some(t)), t.columns[name], other);
      assert Restrict(db, them)[name] == RowsOf(db[name], t.columns[name], other);
    }
  }

  /** What a caller can check beforehand. */
  lemma HarmlessSpares(u: Update, t: Tenancy, db: Db, other: string)
    requires ApartUpdate(u, t.columns) && other != t.ws && Harmless(u.sets, t.columns[u.target.name], t.ws)
    ensures SparesShare(u, t, db, other)
  {
    HarmlessMovesNone(u, t, db, TableRows(db, u.target.name), other);
    SparesShareIff(u, t, db, other);
  }

  ghost predicate LeavesOthersAlone(u: Update, t: Tenancy) {
    forall db: Db, other: string :: other != t.ws ==> SparesShare(u, t, db, other)
  }

  /** Some database holds an own row that the statement selects. */
  ghost predicate CanHit(u: Update, t: Tenancy)
    requires ApartUpdate(u, t.columns)
  {
    exists db: Db, r: Row :: HitsOwn(u, t, db, r)
  }

  ghost predicate HitsOwn(u: Update, t: Tenancy, db: Db, r: Row)
    requires ApartUpdate(u, t.columns)
  {
    r in TableRows(db, u.target.name) && InScope(r, t.columns[u.target.name], t.ws) &&
    UpdateHits(u, Restrict(db, t), r, Some(t)) != []
  }

  /** The comment at tenant.ts:538-543 expects `SET workspace_id = <other>` to affect no rows. With any
      WHERE, FROM, joins and further assignments it affects the caller's own rows that it selects, and
      other workspaces are left alone exactly when the value names none of them or no own row can be
      selected at all. */
  lemma ReassignSparesOthersIff(u: Update, t: Tenancy, v: Value)
    requires ApartUpdate(u, t.columns) && u.sets != [] && u.sets[0] == Assignment(t.columns[u.target.name], Lit(v))
    ensures LeavesOthersAlone(u, t) <==> !v.Str? || v.s == t.ws || !CanHit(u, t)
  {
    if v.Str? && v.s != t.ws && CanHit(u, t) {
      var db: Db, r: Row :| HitsOwn(u, t, db, r);
      ReassignMoves(u, t, v.s, db, r);
      SparesShareIff(u, t, db, v.s);
      assert !SparesShare(u, t, db, v.s);
    } else {
      forall db: Db, other: string | other != t.ws ensures SparesShare(u, t, db, other) {
        var rows := TableRows(db, u.target.name);
        forall i | 0 <= i < |rows| ensures !MovesInto(u, t, db, rows[i], other) {
          if MovesInto(u, t, db, rows[i], other) { assert HitsOwn(u, t, db, rows[i]); }
        }
        SparesShareIff(u, t, db, other);
      }
    }
  }

  lemma ReassignMoves(u: Update, t: Tenancy, other: string, db: Db, r: Row)
    requires ApartUpdate(u, t.columns) && u.sets != [] &&
             u.sets[0] == Assignment(t.columns[u.target.name], Lit(Str(other)))
    requires HitsOwn(u, t, db, r)
    ensures !NoneMovesInto(u, t, db, TableRows(db, u.target.name), other)
  {
    var rows := TableRows(db, u.target.name);
    var i :| 0 <= i < |rows| && rows[i] == r;
    assert MovesInto(u, t, db, rows[i], other);
  }

  /** `UPDATE table SET scope_column = v WHERE cond`. */
  function Reassign(table: string, columns: map<string, string>, v: Value, where: Option<Expr>): Update
    requires table in columns
  {
    Update(Table(table), [Assignment(columns[table], Lit(v))], None, [], where)
  }

  lemma ReassignIsApart(table: string, t: Tenancy, v: Value, where: Option<Expr>)
    requires table in t.columns && ApartCond(where)
    ensures ApartUpdate(Reassign(table, t.columns, v, where), t.columns)
  {
    assert [table] + [] + [] == [table];
  }

  /** It moves exactly the workspace's own rows that the condition selects, to `v`. */
  lemma ReassignedRow(table: string, t: Tenancy, v: Value, where: Option<Expr>, db: Db, r: Row)
    requires table in t.columns && ApartCond(where)
    ensures UpdatedRow(Reassign(table, t.columns, v, where), Restrict(db, t), r, Some(t))
         == if InScope(r, t.columns[table], t.ws) && map[table := r] in Truth(where, Restrict(db, t), Some(t))
            then r[t.columns[table] := v] else r
  {
    var u, own := Reassign(table, t.columns, v, where), Restrict(db, t);
    var b: Env := map[table := r];
    var pins := WritePins(u.target, [], [], t.columns);
    assert pins == [Pin(table, t.columns[table])];
    assert AllPinned(b, pins, t.ws) == Pinned(b, pins[0], t.ws);
    assert Among([b][1..], PinSet(pins, t.ws)) == [] && Among([b][1..], Truth(where, own, Some(t))) == [];
    if InScope(r, t.columns[table], t.ws) {
      assert Among([b], PinSet(pins, t.ws)) == [b];
      assert SetRow(u.sets[1..], own, b, r, Some(t)) == r;
    } else {
      assert Among([b], PinSet(pins, t.ws)) == [];
    }
  }

  function DocIs(id: string): Option<Expr> { Some(Eq(Col("docs", "id"), Lit(Str(id)))) }

  function DocRow(id: string, ws: string): Row { map["id" := Str(id), "workspace_id" := Str(ws)] }

  lemma DocIsSelected(t: Tenancy, db: Db, id: string, ws: string)
    ensures map["docs" := DocRow(id, ws)] in Truth(DocIs(id), db, Some(t))
  {
    var b: Env := map["docs" := DocRow(id, ws)];
    assert Eval(Col("docs", "id"), db, b, Some(t)) == Str(id);
    assert Eval(DocIs(id).value, db, b, Some(t)) == Bool(true);
  }

  lemma {:induction false} DocIsUpdated(t: Tenancy, other: string, id: string, db: Db)
    requires "docs" in t.columns && t.columns["docs"] == "workspace_id"
    ensures UpdatedRows(Reassign("docs", t.columns, Str(other), DocIs(id)), Restrict(db, t), [DocRow(id, t.ws)],
                        Some(t)) == [DocRow(id, other)]
  {
    var doc, u, own := DocRow(id, t.ws), Reassign("docs", t.columns, Str(other), DocIs(id)), Restrict(db, t);
    DocIsSelected(t, own, id, t.ws);
    ReassignedRow("docs", t, Str(other), DocIs(id), db, doc);
    assert doc["workspace_id" := Str(other)] == DocRow(id, other);
    assert UpdatedRows(u, own, [doc][1..], Some(t)) == [];
  }

  /** `UPDATE docs SET workspace_id = other WHERE id = d` gives the caller's doc away. */
  lemma ReassignedDocMoves(t: Tenancy, other: string, id: string)
    requires "docs" in t.columns && t.columns["docs"] == "workspace_id" && t.ws != other
    ensures var u := Reassign("docs", t.columns, Str(other), DocIs(id));
            Perform(Change(u), t, map["docs" := [DocRow(id, t.ws)]]).0 == map["docs" := [DocRow(id, other)]] &&
            !LeavesOthersAlone(u, t)
  {
    hide RewriteUpdate, LeavesOthersAlone, UpdatedRows, UpdateCount;
    var doc, u := DocRow(id, t.ws), Reassign("docs", t.columns, Str(other), DocIs(id));
    var db: Db := map["docs" := [doc]];
    ReassignIsApart("docs", t, Str(other), DocIs(id));
    UpdateMeans(u, t, db, [doc]);
    DocIsUpdated(t, other, id, db);
    DocIsSelected(t, Restrict(db, t), id, t.ws);
    assert HitsOwn(u, t, db, doc);
    ReassignSparesOthersIff(u, t, Str(other));
  }
}
