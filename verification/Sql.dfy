/** A small-database meaning for the queries that reach the tenant rewrite: tables are sequences of
    rows, a query is evaluated over a sequence of bindings (one row per FROM or JOIN reference), and
    a condition passes only when it is true, not unknown. */
module Sql {
  import opened Options

  datatype Value = Null | Bool(b: bool) | Int(n: int) | Str(s: string)
  type Row = map<string, Value>
  type Db = map<string, seq<Row>>
  /** The rows in scope, by reference name. */
  type Env = map<string, Row>

  function Lookup(row: Row, column: string): Value { if column in row then row[column] else Null }

  function TableRows(db: Db, table: string): seq<Row> { if table in db then db[table] else [] }

  // ---------------------------------------------------------------- syntax

  datatype Expr =
    | Col(ref: string, name: string)
    | Lit(v: Value)
    | Eq(l: Expr, r: Expr)
    | And(l: Expr, r: Expr)
    | Or(l: Expr, r: Expr)
    | Not(e: Expr)
    /** Any other operator or function. */
    | Apply(f: (Value, Value) -> Value, l: Expr, r: Expr)
    | Exists(q: Query)
    | In(e: Expr, q: Query)
    | Scalar(q: Query)

  datatype Item = Table(name: string) | Aliased(name: string, alias: string) | Derived(q: Query, alias: string)

  datatype JoinKind = Inner | LeftOuter | RightOuter | FullOuter

  datatype Join = Join(kind: JoinKind, item: Item, on: Option<Expr>)

  datatype Column = Column(name: string, e: Expr)

  /** `finish` stands for grouping, ordering and limits: any function of the bindings that passed
      and of their projections. */
  datatype Query = Select(
    froms: seq<Item>, joins: seq<Join>, where: Option<Expr>, cols: seq<Column>,
    finish: (seq<Env>, seq<Row>) -> seq<Row>)

  function Ref(item: Item): string { if item.Table? then item.name else item.alias }

  function FromRefs(items: seq<Item>): seq<string> {
    if items == [] then [] else [Ref(items[0])] + FromRefs(items[1..])
  }

  function JoinRefs(joins: seq<Join>): seq<string> {
    if joins == [] then [] else [Ref(joins[0].item)] + JoinRefs(joins[1..])
  }

  // ---------------------------------------------------------------- three-valued logic

  function EqValues(a: Value, b: Value): Value { if a.Null? || b.Null? then Null else Bool(a == b) }

  function AndValues(a: Value, b: Value): Value {
    if a == Bool(false) || b == Bool(false) then Bool(false)
    else if a == Bool(true) && b == Bool(true) then Bool(true)
    else Null
  }

  function NotValue(a: Value): Value { if a.Bool? then Bool(!a.b) else Null }

  function OrValues(a: Value, b: Value): Value { NotValue(AndValues(NotValue(a), NotValue(b))) }

  function InValues(v: Value, rows: seq<Row>, column: string): Value {
    if rows == [] then Bool(false) else OrValues(EqValues(v, Lookup(rows[0], column)), InValues(v, rows[1..], column))
  }

  function OutputColumn(q: Query): string { if q.cols == [] then "" else q.cols[0].name }

  // ---------------------------------------------------------------- bindings

  /** The members of `bs` that lie in `ok`, in order. */
  ghost function Among(bs: seq<Env>, ok: iset<Env>): seq<Env> {
    if bs == [] then [] else (if bs[0] in ok then [bs[0]] else []) + Among(bs[1..], ok)
  }

  ghost function Matches(b: Env, ref: string, rows: seq<Row>, ok: iset<Env>): seq<Env> {
    if rows == [] then []
    else (if b[ref := rows[0]] in ok then [b[ref := rows[0]]] else []) + Matches(b, ref, rows[1..], ok)
  }

  /** What one left binding contributes to a join. */
  ghost function Extend(kind: JoinKind, b: Env, ref: string, rows: seq<Row>, ok: iset<Env>): seq<Env> {
    var m := Matches(b, ref, rows, ok);
    if m == [] && (kind.LeftOuter? || kind.FullOuter?) then [b[ref := map[]]] else m
  }

  ghost function ExtendAll(kind: JoinKind, bs: seq<Env>, ref: string, rows: seq<Row>, ok: iset<Env>): seq<Env> {
    if bs == [] then [] else Extend(kind, bs[0], ref, rows, ok) + ExtendAll(kind, bs[1..], ref, rows, ok)
  }

  ghost predicate Matched(bs: seq<Env>, ref: string, r: Row, ok: iset<Env>) {
    exists i :: 0 <= i < |bs| && bs[i][ref := r] in ok
  }

  /** The right rows that no left binding matches, with every earlier reference null. */
  ghost function Unmatched(bs: seq<Env>, nulls: Env, ref: string, rows: seq<Row>, ok: iset<Env>): seq<Env> {
    if rows == [] then []
    else
      (if Matched(bs, ref, rows[0], ok) then [] else [nulls[ref := rows[0]]]) +
      Unmatched(bs, nulls, ref, rows[1..], ok)
  }

  /** One join; `ok` is where its ON condition is true. */
  ghost function JoinStep(kind: JoinKind, bs: seq<Env>, nulls: Env, ref: string, rows: seq<Row>,
                          ok: iset<Env>): seq<Env>
  {
    ExtendAll(kind, bs, ref, rows, ok) +
    (if kind.RightOuter? || kind.FullOuter? then Unmatched(bs, nulls, ref, rows, ok) else [])
  }

  function NullEnv(env: Env, refs: seq<string>): Env {
    if refs == [] then env else NullEnv(env, refs[1..])[refs[0] := map[]]
  }

  // ---------------------------------------------------------------- scoping

  /** The scope columns of the tenant tables, and one workspace. */
  datatype Tenancy = Tenancy(columns: map<string, string>, ws: string)

  /** A reference to a tenant table, with that table's scope column. */
  datatype Pin = Pin(ref: string, column: string)

  predicate InScope(row: Row, column: string, ws: string) { Lookup(row, column) == Str(ws) }

  function RowsOf(rows: seq<Row>, column: string, ws: string): seq<Row> {
    if rows == [] then []
    else (if InScope(rows[0], column, ws) then [rows[0]] else []) + RowsOf(rows[1..], column, ws)
  }

  /** The database as it would be if this workspace were the only one. */
  function Restrict(db: Db, t: Tenancy): Db {
    map name | name in db :: if name in t.columns then RowsOf(db[name], t.columns[name], t.ws) else db[name]
  }

  function PinOf(item: Item, columns: map<string, string>): seq<Pin> {
    if !item.Derived? && item.name in columns then [Pin(Ref(item), columns[item.name])] else []
  }

  function FromPins(items: seq<Item>, columns: map<string, string>): seq<Pin> {
    if items == [] then [] else PinOf(items[0], columns) + FromPins(items[1..], columns)
  }

  function JoinPins(joins: seq<Join>, columns: map<string, string>): seq<Pin> {
    if joins == [] then [] else PinOf(joins[0].item, columns) + JoinPins(joins[1..], columns)
  }

  predicate Pinned(b: Env, p: Pin, ws: string) { p.ref in b && InScope(b[p.ref], p.column, ws) }

  predicate AllPinned(b: Env, pins: seq<Pin>, ws: string) {
    forall i :: 0 <= i < |pins| ==> Pinned(b, pins[i], ws)
  }

  /** The bindings in which every pinned reference holds one of the workspace's rows. */
  ghost function PinSet(pins: seq<Pin>, ws: string): iset<Env> { iset b: Env | AllPinned(b, pins, ws) }

  ghost function Everything(): iset<Env> { PinSet([], "") }

  // ---------------------------------------------------------------- meaning

  /** With `strict`, a binding counts only when every tenant table of its query contributed a row
      of that workspace; without it this is plain SQL. */
  ghost function Eval(e: Expr, db: Db, env: Env, strict: Option<Tenancy>): Value
    decreases e
  {
    match e
    case Col(ref, name) => if ref in env then Lookup(env[ref], name) else Null
    case Lit(v) => v
    case Eq(l, r) => EqValues(Eval(l, db, env, strict), Eval(r, db, env, strict))
    case And(l, r) => AndValues(Eval(l, db, env, strict), Eval(r, db, env, strict))
    case Or(l, r) => OrValues(Eval(l, db, env, strict), Eval(r, db, env, strict))
    case Not(e) => NotValue(Eval(e, db, env, strict))
    case Apply(f, l, r) => f(Eval(l, db, env, strict), Eval(r, db, env, strict))
    case Exists(q) => Bool(Run(q, db, env, strict) != [])
    case In(e, q) => InValues(Eval(e, db, env, strict), Run(q, db, env, strict), OutputColumn(q))
    case Scalar(q) =>
      var rows := Run(q, db, env, strict);
      if rows == [] then Null else Lookup(rows[0], OutputColumn(q))
  }

  /** The bindings on which a condition is true; an absent one always is. */
  ghost function Truth(cond: Option<Expr>, db: Db, strict: Option<Tenancy>): iset<Env>
    decreases cond
  {
    match cond
    case None => Everything()
    case Some(e) => iset b: Env | Eval(e, db, b, strict) == Bool(true)
  }

  ghost function ItemRows(item: Item, db: Db, env: Env, strict: Option<Tenancy>): seq<Row>
    decreases item, 0
  {
    match item
    case Table(name) => TableRows(db, name)
    case Aliased(name, _) => TableRows(db, name)
    case Derived(q, _) => Run(q, db, env, strict)
  }

  ghost function BindFroms(items: seq<Item>, db: Db, env: Env, strict: Option<Tenancy>, bs: seq<Env>): seq<Env>
    decreases items
  {
    if items == [] then bs else BindFroms(items[1..], db, env, strict, BindFrom(items[0], db, env, strict, bs))
  }

  ghost function BindFrom(item: Item, db: Db, env: Env, strict: Option<Tenancy>, bs: seq<Env>): seq<Env>
    decreases item, 1
  {
    JoinStep(Inner, bs, env, Ref(item), ItemRows(item, db, env, strict), Everything())
  }

  ghost function BindJoins(joins: seq<Join>, db: Db, env: Env, strict: Option<Tenancy>, bs: seq<Env>,
                           refs: seq<string>): seq<Env>
    decreases joins
  {
    if joins == [] then bs
    else
      var next := BindJoin(joins[0], db, env, strict, bs, refs);
      BindJoins(joins[1..], db, env, strict, next, refs + [Ref(joins[0].item)])
  }

  ghost function BindJoin(j: Join, db: Db, env: Env, strict: Option<Tenancy>, bs: seq<Env>, refs: seq<string>): seq<Env>
    decreases j
  {
    var rows, ok := ItemRows(j.item, db, env, strict), Truth(j.on, db, strict);
    JoinStep(j.kind, bs, NullEnv(env, refs), Ref(j.item), rows, ok)
  }

  function QueryPins(q: Query, columns: map<string, string>): seq<Pin> {
    FromPins(q.froms, columns) + JoinPins(q.joins, columns)
  }

  /** The bindings of a query that pass its WHERE condition. */
  ghost function Passing(q: Query, db: Db, env: Env, strict: Option<Tenancy>): seq<Env>
    decreases q, 0
  {
    var bound := BindJoins(q.joins, db, env, strict, BindFroms(q.froms, db, env, strict, [env]), FromRefs(q.froms));
    var kept := if strict.Some? then Among(bound, PinSet(QueryPins(q, strict.value.columns), strict.value.ws))
                else bound;
    Among(kept, Truth(q.where, db, strict))
  }

  ghost function ProjectRow(cols: seq<Column>, db: Db, b: Env, strict: Option<Tenancy>): Row
    decreases cols, 0
  {
    if cols == [] then map[] else ProjectRow(cols[1..], db, b, strict)[cols[0].name := Eval(cols[0].e, db, b, strict)]
  }

  ghost function Project(cols: seq<Column>, db: Db, bs: seq<Env>, strict: Option<Tenancy>): seq<Row>
    decreases cols, 1, bs
  {
    if bs == [] then [] else [ProjectRow(cols, db, bs[0], strict)] + Project(cols, db, bs[1..], strict)
  }

  ghost function Run(q: Query, db: Db, env: Env, strict: Option<Tenancy>): seq<Row>
    decreases q, 1
  {
    var bs := Passing(q, db, env, strict);
    q.finish(bs, Project(q.cols, db, bs, strict))
  }

  // ---------------------------------------------------------------- well-formedness

  predicate NoRepeats(refs: seq<string>) { forall i, j :: 0 <= i < j < |refs| ==> refs[i] != refs[j] }

  /** Every query names its references apart, at every depth. */
  predicate Apart(q: Query)
    decreases q
  {
    NoRepeats(FromRefs(q.froms) + JoinRefs(q.joins)) && ApartItems(q.froms) && ApartJoins(q.joins) &&
    ApartCond(q.where) && ApartCols(q.cols)
  }

  predicate ApartItems(items: seq<Item>)
    decreases items
  {
    items == [] || (ApartItem(items[0]) && ApartItems(items[1..]))
  }

  predicate ApartItem(item: Item)
    decreases item
  {
    item.Derived? ==> Apart(item.q)
  }

  predicate ApartJoins(joins: seq<Join>)
    decreases joins
  {
    joins == [] || (ApartJoin(joins[0]) && ApartJoins(joins[1..]))
  }

  predicate ApartJoin(j: Join)
    decreases j
  {
    ApartItem(j.item) && ApartCond(j.on)
  }

  predicate ApartCond(cond: Option<Expr>)
    decreases cond
  {
    cond.Some? ==> ApartExpr(cond.value)
  }

  predicate ApartCols(cols: seq<Column>)
    decreases cols
  {
    cols == [] || (ApartExpr(cols[0].e) && ApartCols(cols[1..]))
  }

  predicate ApartExpr(e: Expr)
    decreases e
  {
    match e
    case Col(_, _) => true
    case Lit(_) => true
    case Eq(l, r) => ApartExpr(l) && ApartExpr(r)
    case And(l, r) => ApartExpr(l) && ApartExpr(r)
    case Or(l, r) => ApartExpr(l) && ApartExpr(r)
    case Not(e) => ApartExpr(e)
    case Apply(_, l, r) => ApartExpr(l) && ApartExpr(r)
    case Exists(q) => Apart(q)
    case In(e, q) => ApartExpr(e) && Apart(q)
    case Scalar(q) => Apart(q)
  }
}
