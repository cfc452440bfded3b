/** INSERT, UPDATE and DELETE over the small database, and what each does to every workspace's rows
    when it goes through the tenant rewrite. */
module TenantWrites {
  import opened Options
  import opened Sql
  import opened JoinAlgebra
  import opened TenantRewrite
  import opened TenantMeaning

  // ---------------------------------------------------------------- plain SQL

  /** Where a write's target stands. The FROM list of an UPDATE is a join tree of its own, evaluated
      beside the target row, so an outer join in it null-supplies FROM items only; the join tree of a
      DELETE begins with its target. */
  datatype Stand = Beside | Within

  function TargetRow(target: Item, r: Row): Env { map[Ref(target) := r] }

  function Around(target: Item, stand: Stand, r: Row): Env { if stand.Beside? then TargetRow(target, r) else map[] }

  function Joined(target: Item, stand: Stand): seq<string> { if stand.Beside? then [] else [Ref(target)] }

  /** The bindings over which a write decides whether it touches one row of its target. */
  ghost function BoundTo(target: Item, stand: Stand, froms: seq<Item>, joins: seq<Join>, db: Db, r: Row,
                         strict: Option<Tenancy>): seq<Env>
  {
    var env, refs := Around(target, stand, r), Joined(target, stand) + FromRefs(froms);
    BindJoins(joins, db, env, strict, BindFroms(froms, db, env, strict, [TargetRow(target, r)]), refs)
  }

  /** The bindings that make a write touch one row of its target. */
  ghost function Hits(target: Item, stand: Stand, froms: seq<Item>, joins: seq<Join>, where: Option<Expr>, db: Db,
                      r: Row,
                      strict: Option<Tenancy>): seq<Env> {
    var bound := BoundTo(target, stand, froms, joins, db, r, strict);
    var kept := if strict.None? then bound
                else Among(bound, PinSet(WritePins(target, froms, joins, strict.value.columns), strict.value.ws));
    Among(kept, Truth(where, db, strict))
  }

  function WritePins(target: Item, froms: seq<Item>, joins: seq<Join>, columns: map<string, string>): seq<Pin> {
    PinOf(target, columns) + FromPins(froms, columns) + JoinPins(joins, columns)
  }

  ghost function SetRow(sets: seq<Assignment>, db: Db, b: Env, r: Row, strict: Option<Tenancy>): Row {
    if sets == [] then r else SetRow(sets[1..], db, b, r, strict)[sets[0].column := Eval(sets[0].e, db, b, strict)]
  }

  function FromsOf(u: Update): seq<Item> { if u.froms.Some? then u.froms.value else [] }

  ghost function UpdateHits(u: Update, db: Db, r: Row, strict: Option<Tenancy>): seq<Env> {
    Hits(u.target, Beside, FromsOf(u), u.joins, u.where, db, r, strict)
  }

  /** A row that is hit is assigned from its first binding. */
  ghost function UpdatedRow(u: Update, db: Db, r: Row, strict: Option<Tenancy>): Row {
    var h := UpdateHits(u, db, r, strict);
    if h == [] then r else SetRow(u.sets, db, h[0], r, strict)
  }

  ghost function UpdatedRows(u: Update, db: Db, rows: seq<Row>, strict: Option<Tenancy>): seq<Row> {
    if rows == [] then [] else [UpdatedRow(u, db, rows[0], strict)] + UpdatedRows(u, db, rows[1..], strict)
  }

  ghost function UpdateCount(u: Update, db: Db, rows: seq<Row>, strict: Option<Tenancy>): nat {
    if rows == [] then 0
    else (if UpdateHits(u, db, rows[0], strict) == [] then 0 else 1) + UpdateCount(u, db, rows[1..], strict)
  }

  ghost function DeleteHits(d: Delete, db: Db, r: Row, strict: Option<Tenancy>): seq<Env> {
    Hits(d.target, Within, [], d.joins, d.where, db, r, strict)
  }

  ghost function RemainingRows(d: Delete, db: Db, rows: seq<Row>, strict: Option<Tenancy>): seq<Row> {
    if rows == [] then []
    else (if DeleteHits(d, db, rows[0], strict) == [] then [rows[0]] else []) + RemainingRows(d, db, rows[1..], strict)
  }

  ghost function RowValues(row: InsertRow, db: Db, strict: Option<Tenancy>): seq<Value> {
    if row.Primitive? then row.literals else NodeValues(row.nodes, db, strict)
  }

  ghost function NodeValues(nodes: seq<Expr>, db: Db, strict: Option<Tenancy>): seq<Value> {
    if nodes == [] then [] else [Eval(nodes[0], db, map[], strict)] + NodeValues(nodes[1..], db, strict)
  }

  function BuildRow(columns: seq<string>, values: seq<Value>): Row
    requires |columns| == |values|
  {
    if columns == [] then map[] else BuildRow(columns[1..], values[1..])[columns[0] := values[0]]
  }

  /** None where the database would refuse a row whose length does not match the column list. */
  ghost function BuildRows(columns: seq<string>, rows: seq<InsertRow>, db: Db,
                           strict: Option<Tenancy>): Option<seq<Row>>
  {
    if rows == [] then Some([])
    else
      var values, rest := RowValues(rows[0], db, strict), BuildRows(columns, rows[1..], db, strict);
      if rest.None? || |values| != |columns| then None else Some([BuildRow(columns, values)] + rest.value)
  }

  /** None where the database would refuse the statement. */
  ghost function InsertedRows(ins: Insert, db: Db, strict: Option<Tenancy>): Option<seq<Row>> {
    if ins.columns.None? || ins.source.None? || !ins.source.value.Rows? || !NoRepeats(ins.columns.value) ||
       ins.table !in db then None
    else BuildRows(ins.columns.value, ins.source.value.rows, db, strict)
  }

  // ---------------------------------------------------------------- well-formed writes

  predicate ApartWrite(target: Item, froms: seq<Item>, joins: seq<Join>, where: Option<Expr>, columns: map<string,
                       string>)
  {
    && !target.Derived? && target.name in columns
    && ApartItems(froms) && ApartJoins(joins) && ApartCond(where)
    && NoRepeats([Ref(target)] + FromRefs(froms) + JoinRefs(joins))
  }

  predicate ApartSets(sets: seq<Assignment>) { forall i :: 0 <= i < |sets| ==> ApartExpr(sets[i].e) }

  /** Whatever the scope column is assigned is no string or the workspace's own id. */
  predicate Harmless(sets: seq<Assignment>, column: string, ws: string) {
    forall i :: 0 <= i < |sets| && sets[i].column == column ==>
      sets[i].e.Lit? && (sets[i].e.v.Str? ==> sets[i].e.v.s == ws)
  }

  /** The scope column is assigned the workspace's own id or nothing. */
  predicate KeepsHome(sets: seq<Assignment>, column: string, ws: string) {
    forall i :: 0 <= i < |sets| && sets[i].column == column ==> sets[i].e == Lit(Str(ws))
  }

  // ---------------------------------------------------------------- what makes a row be hit

  lemma PinSetSplit(a: seq<Pin>, b: seq<Pin>, ws: string)
    ensures PinSet(a + b, ws) == PinSet(b, ws) * PinSet(a, ws)
  {
    forall e: Env ensures AllPinned(e, a + b, ws) <==> AllPinned(e, a, ws) && AllPinned(e, b, ws) {
      assert forall i :: 0 <= i < |a| ==> (a + b)[i] == a[i];
      assert forall i :: 0 <= i < |b| ==> (a + b)[|a| + i] == b[i];
    }
  }

  lemma NoRepeatsTail(a: seq<string>, b: seq<string>)
    requires NoRepeats(a + b)
    ensures NoRepeats(b)
  {
    assert forall i :: 0 <= i < |b| ==> b[i] == (a + b)[|a| + i];
  }

  /** Whatever joins a write has, its bindings over everyone's rows and over the workspace's own agree
      where every reference other than a target beside them holds one of the workspace's rows. */
  lemma BoundMeansForWrite(target: Item, stand: Stand, froms: seq<Item>, joins: seq<Join>, where: Option<Expr>,
                           t: Tenancy, db: Db, r: Row)
    requires ApartWrite(target, froms, joins, where, t.columns)
    ensures var p := PinSet(WritePins(target, froms, joins, t.columns), t.ws);
            Among(BoundTo(target, stand, RewriteItems(froms, t), RewriteJoins(joins, t), db, r, None), p)
              == Among(BoundTo(target, stand, froms, joins, Restrict(db, t), r, Some(t)), p)
  {
    var refs, env := Joined(target, stand), Around(target, stand, r);
    var lead := if stand.Within? then PinOf(target, t.columns) else [];
    var pins := lead + FromPins(froms, t.columns);
    var start: seq<Env> := [TargetRow(target, r)];
    RefsApart(target, stand, froms, joins);
    FromPinsWithin(froms, t.columns);
    RewriteKeepsFromPins(froms, t);
    FromsMean(froms, t, db, env, start, start, lead, refs);
    JoinsMean(joins, t, db, env, BindFroms(RewriteItems(froms, t), db, env, None, start),
              BindFroms(froms, Restrict(db, t), env, Some(t), start), pins, refs + FromRefs(froms));
    TargetPinApart(target, stand, froms, joins, t,
                   BoundTo(target, stand, RewriteItems(froms, t), RewriteJoins(joins, t), db, r, None));
    TargetPinApart(target, stand, froms, joins, t, BoundTo(target, stand, froms, joins, Restrict(db, t), r, Some(t)));
  }

  lemma RefsApart(target: Item, stand: Stand, froms: seq<Item>, joins: seq<Join>)
    requires NoRepeats([Ref(target)] + FromRefs(froms) + JoinRefs(joins))
    ensures NoRepeats(Joined(target, stand) + FromRefs(froms) + JoinRefs(joins))
    ensures NoRepeats(Joined(target, stand) + FromRefs(froms))
  {
    var all := FromRefs(froms) + JoinRefs(joins);
    assert [Ref(target)] + FromRefs(froms) + JoinRefs(joins) == [Ref(target)] + all;
    NoRepeatsTail([Ref(target)], all);
    assert [] + FromRefs(froms) == FromRefs(froms);
    var refs := Joined(target, stand) + FromRefs(froms);
    NoRepeatsFront(refs, JoinRefs(joins));
    assert [] + refs == refs;
  }

  /** Keeping to all pins is keeping to those of the join tree and then to the target's. */
  lemma TargetPinApart(target: Item, stand: Stand, froms: seq<Item>, joins: seq<Join>, t: Tenancy, bound: seq<Env>)
    ensures var lead := if stand.Within? then PinOf(target, t.columns) else [];
            var rest := PinSet(lead + FromPins(froms, t.columns) + JoinPins(joins, t.columns), t.ws);
            Among(bound, PinSet(WritePins(target, froms, joins, t.columns), t.ws))
              == Among(Among(bound, rest), PinSet(PinOf(target, t.columns), t.ws))
  {
    var pin, own := PinOf(target, t.columns), FromPins(froms, t.columns) + JoinPins(joins, t.columns);
    PinsRegroup(pin, FromPins(froms, t.columns), JoinPins(joins, t.columns));
    assert [] + FromPins(froms, t.columns) + JoinPins(joins, t.columns) == own;
    PinSetSplit(pin, own, t.ws);
    var all := PinSet(pin + own, t.ws);
    AmongTwice(bound, PinSet(own, t.ws), PinSet(pin, t.ws));
    AmongTwice(bound, all, PinSet(pin, t.ws));
    assert all * PinSet(pin, t.ws) == all;
  }

  /** A rewritten write hits a row over the whole database exactly as the original does over the
      workspace's share of it. */
  lemma HitsMean(target: Item, stand: Stand, froms: seq<Item>, joins: seq<Join>, where: Option<Expr>, t: Tenancy,
                 db: Db, r: Row)
    requires ApartWrite(target, froms, joins, where, t.columns)
    ensures Hits(target, stand, RewriteItems(froms, t), RewriteJoins(joins, t),
                 Pinning(RewriteCond(where, t), WritePins(target, froms, joins, t.columns), t.ws), db, r, None)
         == Hits(target, stand, froms, joins, where, Restrict(db, t), r, Some(t))
  {
    var pins := WritePins(target, froms, joins, t.columns);
    BoundMeansForWrite(target, stand, froms, joins, where, t, db, r);
    CondMeans(where, t, db);
    PinningMeans(RewriteCond(where, t), pins, t.ws, db);
    AmongTwice(BoundTo(target, stand, RewriteItems(froms, t), RewriteJoins(joins, t), db, r, None),
               PinSet(pins, t.ws), Truth(where, Restrict(db, t), Some(t)));
  }

  // ---------------------------------------------------------------- rows of other workspaces

  /** The bindings in which a reference does not hold one of the workspace's rows. */
  ghost function Elsewhere(p: Pin, ws: string): iset<Env> { iset b: Env | !Pinned(b, p, ws) }

  lemma ElsewhereGrows(p: Pin, ws: string, ref: string)
    requires ref != p.ref
    ensures Grows(Elsewhere(p, ws), Elsewhere(p, ws), ref, GoodRows([], ""))
  {
    forall b: Env, r: Row ensures GrowsAt(Elsewhere(p, ws), Elsewhere(p, ws), ref, GoodRows([], ""), b, r) {
      assert Pinned(b[ref := r], p, ws) <==> Pinned(b, p, ws);
    }
  }

  lemma {:induction false} NullsElsewhere(env: Env, refs: seq<string>, p: Pin, ws: string)
    requires env in Elsewhere(p, ws)
    ensures NullEnv(env, refs) in Elsewhere(p, ws)
  {
    if refs != [] { NullsElsewhere(env, refs[1..], p, ws); }
  }

  lemma {:induction false} FromsElsewhere(items: seq<Item>, db: Db, env: Env, strict: Option<Tenancy>, bs: seq<Env>,
                                          p: Pin, ws: string)
    requires p.ref !in FromRefs(items) && AllIn(bs, Elsewhere(p, ws))
    ensures AllIn(BindFroms(items, db, env, strict, bs), Elsewhere(p, ws))
  {
    if items != [] {
      assert Ref(items[0]) == FromRefs(items)[0] && FromRefs(items)[1..] == FromRefs(items[1..]);
      ElsewhereGrows(p, ws, Ref(items[0]));
      JoinStepInside(Inner, bs, env, Ref(items[0]), ItemRows(items[0], db, env, strict), Everything(),
                     Elsewhere(p, ws), Elsewhere(p, ws), GoodRows([], ""));
      FromsElsewhere(items[1..], db, env, strict, BindFrom(items[0], db, env, strict, bs), p, ws);
    }
  }

  lemma {:induction false} JoinsElsewhere(joins: seq<Join>, db: Db, env: Env, strict: Option<Tenancy>, bs: seq<Env>,
                                          refs: seq<string>,
                                          p: Pin, ws: string)
    requires p.ref !in JoinRefs(joins) && AllIn(bs, Elsewhere(p, ws)) && env in Elsewhere(p, ws)
    ensures AllIn(BindJoins(joins, db, env, strict, bs, refs), Elsewhere(p, ws))
  {
    if joins != [] {
      var j := joins[0];
      assert Ref(j.item) == JoinRefs(joins)[0] && JoinRefs(joins)[1..] == JoinRefs(joins[1..]);
      ElsewhereGrows(p, ws, Ref(j.item));
      NullsElsewhere(env, refs, p, ws);
      JoinStepInside(j.kind, bs, NullEnv(env, refs), Ref(j.item), ItemRows(j.item, db, env, strict),
                     Truth(j.on, db, strict),
                     Elsewhere(p, ws), Elsewhere(p, ws), GoodRows([], ""));
      JoinsElsewhere(joins[1..], db, env, strict, BindJoin(j, db, env, strict, bs, refs), refs + [Ref(j.item)], p, ws);
    }
  }

  lemma {:induction false} AmongNone(bs: seq<Env>, p: Pin, ws: string, ok: iset<Env>)
    requires AllIn(bs, Elsewhere(p, ws)) && forall b: Env :: b in ok ==> Pinned(b, p, ws)
    ensures Among(bs, ok) == []
  {
    if bs != [] { AmongNone(bs[1..], p, ws, ok); }
  }

  /** Another workspace's row is never hit, whatever the joins: no binding gives it back as the
      workspace's own, and where an outer join null-supplies the target there is no row at all. */
  lemma ForeignRowsAreMissed(target: Item, stand: Stand, froms: seq<Item>, joins: seq<Join>, where: Option<Expr>,
                             t: Tenancy, db: Db, r: Row)
    requires ApartWrite(target, froms, joins, where, t.columns) && !InScope(r, t.columns[target.name], t.ws)
    ensures Hits(target, stand, froms, joins, where, Restrict(db, t), r, Some(t)) == []
  {
    var p, own, env := PinOf(target, t.columns)[0], Restrict(db, t), Around(target, stand, r);
    var start: seq<Env> := [TargetRow(target, r)];
    var all := [p.ref] + FromRefs(froms) + JoinRefs(joins);
    assert p.ref !in FromRefs(froms) && p.ref !in JoinRefs(joins) by {
      assert all[0] == p.ref && all[1..] == FromRefs(froms) + JoinRefs(joins);
      assert forall i :: 0 <= i < |all[1..]| ==> all[1..][i] == all[i + 1];
      assert p.ref !in all[1..];
    }
    FromsElsewhere(froms, own, env, Some(t), start, p, t.ws);
    JoinsElsewhere(joins, own, env, Some(t), BindFroms(froms, own, env, Some(t), start),
                   Joined(target, stand) + FromRefs(froms), p, t.ws);
    var pins := WritePins(target, froms, joins, t.columns);
    assert pins[0] == p;
    AmongNone(BoundTo(target, stand, froms, joins, own, r, Some(t)), p, t.ws, PinSet(pins, t.ws));
  }

  // ---------------------------------------------------------------- UPDATE

  predicate ApartUpdate(u: Update, columns: map<string, string>) {
    && ApartWrite(u.target, FromsOf(u), u.joins, u.where, columns) && ApartSets(u.sets)
    && (u.froms.None? ==> u.joins == [])
  }

  lemma {:induction false} SetsMean(sets: seq<Assignment>, t: Tenancy, db: Db, b: Env, r: Row)
    requires ApartSets(sets)
    ensures SetRow(RewriteSets(sets, t), db, b, r, None) == SetRow(sets, Restrict(db, t), b, r, Some(t))
  {
    if sets != [] {
      assert ApartSets(sets[1..]) by { assert forall i :: 0 <= i < |sets[1..]| ==> sets[1..][i] == sets[i + 1]; }
      ExprMeans(sets[0].e, t, db, b);
      SetsMean(sets[1..], t, db, b, r);
    }
  }

  lemma UpdateHitsMean(u: Update, t: Tenancy, db: Db, r: Row)
    requires ApartUpdate(u, t.columns)
    ensures UpdateHits(RewriteUpdate(u, t), db, r, None) == UpdateHits(u, Restrict(db, t), r, Some(t))
  {
    HitsMean(u.target, Beside, FromsOf(u), u.joins, u.where, t, db, r);
    RewriteKeepsFromPins(FromsOf(u), t);
    RewriteKeepsJoinPins(u.joins, t);
    UpdatePinsAre(u, t);
  }

  lemma UpdatePinsAre(u: Update, t: Tenancy)
    requires ApartUpdate(u, t.columns)
    ensures RewriteUpdate(u, t).where
            == Pinning(RewriteCond(u.where, t), WritePins(u.target, FromsOf(u), u.joins, t.columns), t.ws)
    ensures FromsOf(RewriteUpdate(u, t)) == RewriteItems(FromsOf(u), t)
  {
    RewriteKeepsFromPins(FromsOf(u), t);
    RewriteKeepsJoinPins(u.joins, t);
    var pin, froms, joins := PinOf(u.target, t.columns), FromPins(FromsOf(u), t.columns), JoinPins(u.joins, t.columns);
    PinsRegroup(pin, froms, joins);
    if u.froms.None? { assert pin + [] + [] == pin + []; }
  }

  lemma {:induction false} UpdateMeans(u: Update, t: Tenancy, db: Db, rows: seq<Row>)
    requires ApartUpdate(u, t.columns)
    ensures UpdatedRows(RewriteUpdate(u, t), db, rows, None) == UpdatedRows(u, Restrict(db, t), rows, Some(t))
    ensures UpdateCount(RewriteUpdate(u, t), db, rows, None) == UpdateCount(u, Restrict(db, t), rows, Some(t))
  {
    if rows != [] {
      UpdateHitsMean(u, t, db, rows[0]);
      UpdateMeans(u, t, db, rows[1..]);
      var h := UpdateHits(u, Restrict(db, t), rows[0], Some(t));
      if h != [] { SetsMean(u.sets, t, db, h[0], rows[0]); }
    }
  }

  /** The scope column keeps its value or takes one that is assigned to it. */
  lemma {:induction false} SetRowAt(sets: seq<Assignment>, db: Db, b: Env, r: Row, strict: Option<Tenancy>,
                                    column: string)
    ensures var v := Lookup(SetRow(sets, db, b, r, strict), column);
            v == Lookup(r, column) ||
            exists i :: 0 <= i < |sets| && sets[i].column == column && v == Eval(sets[i].e, db, b, strict)
  {
    if sets != [] {
      SetRowAt(sets[1..], db, b, r, strict, column);
      assert forall i :: 0 <= i < |sets[1..]| ==> sets[1..][i] == sets[i + 1];
      assert sets[0].column == column ==>
             Lookup(SetRow(sets, db, b, r, strict), column) == Eval(sets[0].e, db, b, strict);
    }
  }

  /** A foreign row stays as it was. Harmless assignments give no row to another workspace, and those
      that keep it home keep it where it is. */
  lemma UpdatedRowStays(u: Update, t: Tenancy, db: Db, r: Row)
    requires ApartUpdate(u, t.columns)
    ensures var column, after := t.columns[u.target.name], UpdatedRow(u, Restrict(db, t), r, Some(t));
            (!InScope(r, column, t.ws) ==> after == r && UpdateHits(u, Restrict(db, t), r, Some(t)) == []) &&
            (Harmless(u.sets, column, t.ws) ==> forall other :: other != t.ws && InScope(after, column, other) ==>
              after == r) &&
            (KeepsHome(u.sets, column, t.ws) ==> (InScope(after, column, t.ws) <==> InScope(r, column, t.ws)))
  {
    var h, column := UpdateHits(u, Restrict(db, t), r, Some(t)), t.columns[u.target.name];
    if !InScope(r, column, t.ws) {
      ForeignRowsAreMissed(u.target, Beside, FromsOf(u), u.joins, u.where, t, db, r);
    }
    if h != [] { SetRowAt(u.sets, Restrict(db, t), h[0], r, Some(t), column); }
  }

  lemma {:induction false} UpdateOwnRows(u: Update, t: Tenancy, db: Db, rows: seq<Row>)
    requires ApartUpdate(u, t.columns)
    ensures var column, own, mine := t.columns[u.target.name], Restrict(db, t),
            RowsOf(rows, t.columns[u.target.name], t.ws);
            RowsOf(UpdatedRows(u, own, rows, Some(t)), column, t.ws)
              == RowsOf(UpdatedRows(u, own, mine, Some(t)), column, t.ws) &&
            UpdateCount(u, own, rows, Some(t)) == UpdateCount(u, own, mine, Some(t)) &&
            (KeepsHome(u.sets, column, t.ws) ==>
               RowsOf(UpdatedRows(u, own, rows, Some(t)), column, t.ws) == UpdatedRows(u, own, mine, Some(t)))
  {
    if rows != [] {
      var column, own := t.columns[u.target.name], Restrict(db, t);
      UpdateOwnRows(u, t, db, rows[1..]);
      UpdatedRowStays(u, t, db, rows[0]);
      RowsOfCons(rows, column, t.ws);
      UpdatedCons(u, own, rows, t, column);
      if InScope(rows[0], column, t.ws) { UpdatedCons(u, own, RowsOf(rows, column, t.ws), t, column); }
    }
  }

  lemma UpdatedCons(u: Update, own: Db, rows: seq<Row>, t: Tenancy, column: string)
    requires rows != []
    ensures var first, rest := UpdatedRow(u, own, rows[0], Some(t)), UpdatedRows(u, own, rows[1..], Some(t));
            RowsOf(UpdatedRows(u, own, rows, Some(t)), column, t.ws)
              == (if InScope(first, column, t.ws) then [first] else []) + RowsOf(rest, column, t.ws)
  {
    var after := UpdatedRows(u, own, rows, Some(t));
    assert after[0] == UpdatedRow(u, own, rows[0], Some(t)) && after[1..] == UpdatedRows(u, own, rows[1..], Some(t));
  }

  lemma RowsOfCons(rows: seq<Row>, column: string, ws: string)
    requires rows != []
    ensures !InScope(rows[0], column, ws) ==> RowsOf(rows, column, ws) == RowsOf(rows[1..], column, ws)
    ensures InScope(rows[0], column, ws) ==> RowsOf(rows, column, ws) == [rows[0]] + RowsOf(rows[1..], column, ws)
    ensures InScope(rows[0], column, ws) ==> RowsOf(rows, column, ws)[1..] == RowsOf(rows[1..], column, ws)
  {
    assert [] + RowsOf(rows[1..], column, ws) == RowsOf(rows[1..], column, ws);
  }

  /** One of the workspace's own rows is hit and lands in another workspace. */
  ghost predicate MovesInto(u: Update, t: Tenancy, db: Db, r: Row, other: string)
    requires ApartUpdate(u, t.columns)
  {
    InScope(r, t.columns[u.target.name], t.ws) && UpdateHits(u, Restrict(db, t), r, Some(t)) != [] &&
    InScope(UpdatedRow(u, Restrict(db, t), r, Some(t)), t.columns[u.target.name], other)
  }

  ghost predicate NoneMovesInto(u: Update, t: Tenancy, db: Db, rows: seq<Row>, other: string)
    requires ApartUpdate(u, t.columns)
  {
    forall i :: 0 <= i < |rows| ==> !MovesInto(u, t, db, rows[i], other)
  }

  /** Another workspace's rows are the same afterwards exactly when no row moves in. */
  lemma {:induction false} UpdateForeignRowsIff(u: Update, t: Tenancy, db: Db, rows: seq<Row>, other: string)
    requires ApartUpdate(u, t.columns) && other != t.ws
    ensures var column, after := t.columns[u.target.name], UpdatedRows(u, Restrict(db, t), rows, Some(t));
            |RowsOf(after, column, other)| >= |RowsOf(rows, column, other)| &&
            (RowsOf(after, column, other) == RowsOf(rows, column, other) <==> NoneMovesInto(u, t, db, rows, other)) &&
            (!NoneMovesInto(u, t, db, rows, other) ==> |RowsOf(after, column, other)| > |RowsOf(rows, column, other)|)
  {
    if rows != [] {
      var column, own := t.columns[u.target.name], Restrict(db, t);
      UpdateForeignRowsIff(u, t, db, rows[1..], other);
      UpdatedRowStays(u, t, db, rows[0]);
      NoneMovesCons(u, t, db, rows, other);
      var after := UpdatedRows(u, own, rows, Some(t));
      assert after[0] == UpdatedRow(u, own, rows[0], Some(t)) && after[1..] == UpdatedRows(u, own, rows[1..], Some(t));
      RowsOfCons(rows, column, other);
      RowsOfCons(after, column, other);
      assert InScope(rows[0], column, other) ==> after[0] == rows[0];
    }
  }

  lemma NoneMovesCons(u: Update, t: Tenancy, db: Db, rows: seq<Row>, other: string)
    requires ApartUpdate(u, t.columns) && rows != []
    ensures NoneMovesInto(u, t, db, rows, other)
       <==> !MovesInto(u, t, db, rows[0], other) && NoneMovesInto(u, t, db, rows[1..], other)
  {
    assert forall i :: 0 <= i < |rows[1..]| ==> rows[1..][i] == rows[i + 1];
    assert forall i :: 1 <= i < |rows| ==> rows[i] == rows[1..][i - 1];
  }

  lemma HarmlessMovesNone(u: Update, t: Tenancy, db: Db, rows: seq<Row>, other: string)
    requires ApartUpdate(u, t.columns) && other != t.ws && Harmless(u.sets, t.columns[u.target.name], t.ws)
    ensures NoneMovesInto(u, t, db, rows, other)
  {
    forall i | 0 <= i < |rows| ensures !MovesInto(u, t, db, rows[i], other) { UpdatedRowStays(u, t, db, rows[i]); }
  }

  // ---------------------------------------------------------------- DELETE

  predicate ApartDelete(d: Delete, columns: map<string, string>) {
    ApartWrite(d.target, [], d.joins, d.where, columns)
  }

  lemma DeleteHitsMean(d: Delete, t: Tenancy, db: Db, r: Row)
    requires ApartDelete(d, t.columns)
    ensures DeleteHits(RewriteDelete(d, t), db, r, None) == DeleteHits(d, Restrict(db, t), r, Some(t))
  {
    HitsMean(d.target, Within, [], d.joins, d.where, t, db, r);
    RewriteKeepsJoinPins(d.joins, t);
    assert FromPins([d.target], t.columns) == PinOf(d.target, t.columns) + FromPins([], t.columns);
  }

  lemma {:induction false} DeleteMeans(d: Delete, t: Tenancy, db: Db, rows: seq<Row>)
    requires ApartDelete(d, t.columns)
    ensures RemainingRows(RewriteDelete(d, t), db, rows, None) == RemainingRows(d, Restrict(db, t), rows, Some(t))
  {
    if rows != [] {
      DeleteHitsMean(d, t, db, rows[0]);
      DeleteMeans(d, t, db, rows[1..]);
    }
  }

  lemma {:induction false} DeleteOwnRows(d: Delete, t: Tenancy, db: Db, rows: seq<Row>)
    requires ApartDelete(d, t.columns)
    ensures var column, own := t.columns[d.target.name], Restrict(db, t);
            RowsOf(RemainingRows(d, own, rows, Some(t)), column, t.ws)
              == RemainingRows(d, own, RowsOf(rows, column, t.ws), Some(t)) &&
            |rows| - |RemainingRows(d, own, rows, Some(t))|
              == |RowsOf(rows, column, t.ws)| - |RemainingRows(d, own, RowsOf(rows, column, t.ws), Some(t))|
  {
    if rows != [] {
      var column, own := t.columns[d.target.name], Restrict(db, t);
      DeleteOwnRows(d, t, db, rows[1..]);
      RowsOfCons(rows, column, t.ws);
      var rest := RemainingRows(d, own, rows[1..], Some(t));
      if !InScope(rows[0], column, t.ws) {
        ForeignRowsAreMissed(d.target, Within, [], d.joins, d.where, t, db, rows[0]);
      }
      if DeleteHits(d, own, rows[0], Some(t)) == [] {
        RowsOfCons([rows[0]] + rest, column, t.ws);
        assert ([rows[0]] + rest)[1..] == rest;
      } else {
        assert [] + rest == rest;
      }
    }
  }

  lemma {:induction false} DeleteForeignRows(d: Delete, t: Tenancy, db: Db, rows: seq<Row>, other: string)
    requires ApartDelete(d, t.columns) && other != t.ws
    ensures RowsOf(RemainingRows(d, Restrict(db, t), rows, Some(t)), t.columns[d.target.name], other)
         == RowsOf(rows, t.columns[d.target.name], other)
  {
    if rows != [] {
      var column, own := t.columns[d.target.name], Restrict(db, t);
      DeleteForeignRows(d, t, db, rows[1..], other);
      RowsOfCons(rows, column, other);
      var rest := RemainingRows(d, own, rows[1..], Some(t));
      if !InScope(rows[0], column, t.ws) {
        ForeignRowsAreMissed(d.target, Within, [], d.joins, d.where, t, db, rows[0]);
      }
      if DeleteHits(d, own, rows[0], Some(t)) == [] {
        RowsOfCons([rows[0]] + rest, column, other);
        assert ([rows[0]] + rest)[1..] == rest;
      } else {
        assert [] + rest == rest;
      }
    }
  }

  // ---------------------------------------------------------------- INSERT

  predicate ApartNodes(nodes: seq<Expr>) { forall i :: 0 <= i < |nodes| ==> ApartExpr(nodes[i]) }

  predicate ApartRows(rows: seq<InsertRow>) {
    forall i :: 0 <= i < |rows| ==> (rows[i].Listed? ==> ApartNodes(rows[i].nodes))
  }

  predicate ApartInsert(ins: Insert, columns: map<string, string>) {
    ins.table in columns && (ins.source.Some? && ins.source.value.Rows? ==> ApartRows(ins.source.value.rows))
  }

  lemma {:induction false} BuildRowAt(columns: seq<string>, values: seq<Value>, i: nat)
    requires NoRepeats(columns) && |columns| == |values| && i < |columns|
    ensures Lookup(BuildRow(columns, values), columns[i]) == values[i]
  {
    if i > 0 {
      assert columns[0] != columns[i] && columns[1..][i - 1] == columns[i];
      assert NoRepeats(columns[1..]);
      BuildRowAt(columns[1..], values[1..], i - 1);
    }
  }

  lemma {:induction false} NodeValuesAt(nodes: seq<Expr>, db: Db, strict: Option<Tenancy>, i: nat)
    requires i < |nodes|
    ensures |NodeValues(nodes, db, strict)| == |nodes| &&
            NodeValues(nodes, db, strict)[i] == Eval(nodes[i], db, map[], strict)
  {
    if i > 0 { NodeValuesAt(nodes[1..], db, strict, i - 1); }
    else if |nodes| > 1 { NodeValuesAt(nodes[1..], db, strict, 0); }
  }

  /** A literal at a position is the value there. */
  lemma LiteralIsValue(row: InsertRow, i: nat, db: Db, strict: Option<Tenancy>)
    requires LiteralAt(row, i).Some?
    ensures i < |RowValues(row, db, strict)| && RowValues(row, db, strict)[i] == LiteralAt(row, i).value
  {
    if row.Listed? { NodeValuesAt(row.nodes, db, strict, i); }
  }

  predicate AllInScope(rows: seq<Row>, column: string, ws: string) {
    forall i :: 0 <= i < |rows| ==> InScope(rows[i], column, ws)
  }

  lemma {:induction false} BuiltRowsInScope(columns: seq<string>, rows: seq<InsertRow>, i: nat, ws: string, db: Db)
    requires NoRepeats(columns) && i < |columns| && RowsMatchScope(rows, i, ws)
    requires BuildRows(columns, rows, db, None).Some?
    ensures AllInScope(BuildRows(columns, rows, db, None).value, columns[i], ws)
  {
    if rows != [] {
      assert RowsMatchScope(rows[1..], i, ws) by {
        assert forall k :: 0 <= k < |rows[1..]| ==> rows[1..][k] == rows[k + 1];
      }
      BuiltRowsInScope(columns, rows[1..], i, ws, db);
      assert LiteralAt(rows[0], i) == Some(Str(ws));
      LiteralIsValue(rows[0], i, db, None);
      BuildRowAt(columns, RowValues(rows[0], db, None), i);
    }
  }

  /** The appended rows carry the workspace in their last position, when their length fits. */
  lemma {:induction false} AppendedRowsMatch(rows: seq<InsertRow>, columns: seq<string>, ws: string, db: Db)
    requires BuildRows(columns, AppendToRows(rows, ws), db, None).Some? && columns != []
    ensures RowsMatchScope(AppendToRows(rows, ws), |columns| - 1, ws)
  {
    if rows != [] {
      var out := AppendToRows(rows, ws);
      assert out[1..] == AppendToRows(rows[1..], ws);
      AppendedRowsMatch(rows[1..], columns, ws, db);
      var n := |columns| - 1;
      if rows[0].Listed? { NodeValuesAt(out[0].nodes, db, None, 0); }
      assert LiteralAt(out[0], n) == Some(Str(ws));
      assert forall k :: 1 <= k < |out| ==> out[k] == out[1..][k - 1];
    }
  }

  /** Every INSERT into a tenant table is refused or lands only rows of the workspace. */
  lemma InsertLandsInScope(ins: Insert, t: Tenancy, db: Db)
    requires ins.table in t.columns
    ensures RewriteInsert(ins, t).Kept? ==>
              var kept := RewriteInsert(ins, t).insert;
              kept.table == ins.table &&
              (InsertedRows(kept, db, None).Some? ==>
                AllInScope(InsertedRows(kept, db, None).value, t.columns[ins.table], t.ws))
  {
    var column := t.columns[ins.table];
    if RewriteInsert(ins, t).Kept? {
      var kept := RewriteInsert(ins, t).insert;
      if InsertedRows(kept, db, None).Some? {
        var source := RewriteSource(ins.source.value, t);
        if column in ins.columns.value {
          BuiltRowsInScope(ins.columns.value, source.rows, IndexOf(ins.columns.value, column), t.ws, db);
        } else {
          var columns := ins.columns.value + [column];
          AppendedRowsMatch(source.rows, columns, t.ws, db);
          BuiltRowsInScope(columns, AppendToRows(source.rows, t.ws), |columns| - 1, t.ws, db);
        }
      }
    }
  }

  // ---------------------------------------------------------------- what an accepted INSERT means

  /** `scoped` are the rows of `plain` with the scope column set. */
  ghost predicate Scoped(plain: seq<Row>, scoped: seq<Row>, column: string, ws: string) {
    |scoped| == |plain| && forall i :: 0 <= i < |plain| ==> scoped[i] == plain[i][column := Str(ws)]
  }

  lemma {:induction false} BuildRowAppend(columns: seq<string>, values: seq<Value>, column: string, v: Value)
    requires |columns| == |values| && column !in columns
    ensures BuildRow(columns + [column], values + [v]) == BuildRow(columns, values)[column := v]
  {
    if columns == [] {
      assert BuildRow([column][1..], [v][1..]) == map[];
    } else {
      assert (columns + [column])[1..] == columns[1..] + [column] && (values + [v])[1..] == values[1..] + [v];
      BuildRowAppend(columns[1..], values[1..], column, v);
    }
  }

  lemma {:induction false} NodeValuesLast(nodes: seq<Expr>, v: Value, db: Db)
    ensures NodeValues(nodes + [Lit(v)], db, None) == NodeValues(nodes, db, None) + [v]
  {
    if nodes == [] {
      assert nodes + [Lit(v)] == [Lit(v)];
      assert NodeValues([Lit(v)][1..], db, None) == [];
    } else {
      assert (nodes + [Lit(v)])[0] == nodes[0] && (nodes + [Lit(v)])[1..] == nodes[1..] + [Lit(v)];
      NodeValuesLast(nodes[1..], v, db);
    }
  }

  lemma AppendedValues(row: InsertRow, ws: string, db: Db)
    ensures RowValues(AppendValueToRow(row, ws), db, None) == RowValues(row, db, None) + [Str(ws)]
  {
    if row.Listed? { NodeValuesLast(row.nodes, Str(ws), db); }
  }

  lemma {:induction false} AppendedRowsBuild(columns: seq<string>, rows: seq<InsertRow>, column: string, ws: string,
                                             db: Db)
    requires column !in columns
    ensures var plain, scoped := BuildRows(columns, rows, db, None),
                                 BuildRows(columns + [column], AppendToRows(rows, ws), db, None);
            (scoped.Some? <==> plain.Some?) && (plain.Some? ==> Scoped(plain.value, scoped.value, column, ws))
  {
    if rows != [] {
      assert AppendToRows(rows, ws)[1..] == AppendToRows(rows[1..], ws);
      AppendedRowsBuild(columns, rows[1..], column, ws, db);
      AppendedValues(rows[0], ws, db);
      var values := RowValues(rows[0], db, None);
      if |values| == |columns| { BuildRowAppend(columns, values, column, Str(ws)); }
    }
  }

  lemma {:induction false} NodesMean(nodes: seq<Expr>, t: Tenancy, db: Db)
    requires ApartNodes(nodes)
    ensures NodeValues(RewriteNodes(nodes, t), db, None) == NodeValues(nodes, Restrict(db, t), Some(t))
  {
    if nodes != [] {
      assert ApartNodes(nodes[1..]) by { assert forall i :: 0 <= i < |nodes[1..]| ==> nodes[1..][i] == nodes[i + 1]; }
      NodesMean(nodes[1..], t, db);
      ExprMeans(nodes[0], t, db, map[]);
      assert RewriteNodes(nodes, t)[1..] == RewriteNodes(nodes[1..], t);
    }
  }

  /** Rewritten rows are the caller's, with subqueries answered from the workspace's own share. */
  lemma {:induction false} RowsMean(columns: seq<string>, rows: seq<InsertRow>, t: Tenancy, db: Db)
    requires ApartRows(rows)
    ensures BuildRows(columns, RewriteRows(rows, t), db, None) == BuildRows(columns, rows, Restrict(db, t), Some(t))
  {
    if rows != [] {
      assert ApartRows(rows[1..]) by { assert forall i :: 0 <= i < |rows[1..]| ==> rows[1..][i] == rows[i + 1]; }
      RowsMean(columns, rows[1..], t, db);
      if rows[0].Listed? { NodesMean(rows[0].nodes, t, db); }
      assert RewriteRows(rows, t)[1..] == RewriteRows(rows[1..], t);
    }
  }

  lemma NoRepeatsAppend(columns: seq<string>, column: string)
    requires column !in columns
    ensures NoRepeats(columns + [column]) <==> NoRepeats(columns)
  {
    var all := columns + [column];
    assert forall i :: 0 <= i < |columns| ==> all[i] == columns[i];
  }

  /** An accepted INSERT is the caller's own rows with the scope column set to the workspace, their
      subqueries answered from its own share; the database takes it exactly if it would take those. */
  lemma InsertMeans(ins: Insert, t: Tenancy, db: Db)
    requires ApartInsert(ins, t.columns) && RewriteInsert(ins, t).Kept?
    ensures var plain, scoped := InsertedRows(ins, Restrict(db, t), Some(t)),
                                 InsertedRows(RewriteInsert(ins, t).insert, db, None);
            && (scoped.Some? <==> plain.Some?)
            && (plain.Some? ==> Scoped(plain.value, scoped.value, t.columns[ins.table], t.ws))
  {
    var column, columns, rows := t.columns[ins.table], ins.columns.value, ins.source.value.rows;
    RowsMean(columns, rows, t, db);
    if column in columns {
      InsertLandsInScope(ins, t, db);
      var scoped := InsertedRows(RewriteInsert(ins, t).insert, db, None);
      if scoped.Some? {
        forall i | 0 <= i < |scoped.value| ensures scoped.value[i] == scoped.value[i][column := Str(t.ws)] {
          SetAgain(scoped.value[i], column, t.ws);
        }
      }
    } else {
      NoRepeatsAppend(columns, column);
      AppendedRowsBuild(columns, RewriteRows(rows, t), column, t.ws, db);
    }
  }

  lemma SetAgain(row: Row, column: string, ws: string)
    requires InScope(row, column, ws)
    ensures row == row[column := Str(ws)]
  {
  }
}
