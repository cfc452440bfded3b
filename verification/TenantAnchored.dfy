/** When the rewrite means the original query itself: at every depth, no tenant table on the
    null-supplied side of an outer join, unless WHERE rejects its nulls. Inner joins always qualify. */
module TenantAnchored {
  import opened Options
  import opened Sql
  import opened JoinAlgebra
  import opened TenantRewrite
  import opened TenantMeaning

  // ---------------------------------------------------------------- a guard that can be read off the query

  /** The tenant tables that some join may null-supply; `seen` are those before the joins. */
  function Loose(joins: seq<Join>, columns: map<string, string>, seen: seq<Pin>): seq<Pin> {
    if joins == [] then []
    else
      var kind, mine := joins[0].kind, PinOf(joins[0].item, columns);
      (if kind.LeftOuter? || kind.FullOuter? then mine else []) +
      (if kind.RightOuter? || kind.FullOuter? then seen else []) +
      Loose(joins[1..], columns, seen + mine)
  }

  /** A condition that is never true while `ref` is null-supplied. */
  predicate RejectsNull(e: Expr, ref: string) {
    match e
    case Eq(l, r) => (l.Col? && l.ref == ref) || (r.Col? && r.ref == ref)
    case And(l, r) => RejectsNull(l, ref) || RejectsNull(r, ref)
    case Or(l, r) => RejectsNull(l, ref) && RejectsNull(r, ref)
    case _ => false
  }

  /** The WHERE condition rejects nulls in every tenant table that may be null-supplied. */
  predicate Guarded(q: Query, columns: map<string, string>) {
    RejectsAll(q.where, Loose(q.joins, columns, FromPins(q.froms, columns)))
  }

  predicate RejectsAll(where: Option<Expr>, loose: seq<Pin>) {
    forall i :: 0 <= i < |loose| ==> where.Some? && RejectsNull(where.value, loose[i].ref)
  }

  /** Every query, at every depth, is guarded. */
  predicate Anchored(q: Query, columns: map<string, string>)
    decreases q, 1
  {
    Guarded(q, columns) && InnerAnchored(q, columns)
  }

  /** Every query below the top level is guarded; the top-level joins may be of any kind. */
  predicate InnerAnchored(q: Query, columns: map<string, string>)
    decreases q, 0
  {
    AnchoredItems(q.froms, columns) && AnchoredJoins(q.joins, columns) && AnchoredCond(q.where, columns) &&
    AnchoredCols(q.cols, columns)
  }

  predicate AnchoredItems(items: seq<Item>, columns: map<string, string>)
    decreases items
  {
    items == [] || (AnchoredItem(items[0], columns) && AnchoredItems(items[1..], columns))
  }

  predicate AnchoredItem(item: Item, columns: map<string, string>)
    decreases item
  {
    item.Derived? ==> Anchored(item.q, columns)
  }

  predicate AnchoredJoins(joins: seq<Join>, columns: map<string, string>)
    decreases joins
  {
    joins == [] || (AnchoredJoin(joins[0], columns) && AnchoredJoins(joins[1..], columns))
  }

  predicate AnchoredJoin(j: Join, columns: map<string, string>)
    decreases j
  {
    AnchoredItem(j.item, columns) && AnchoredCond(j.on, columns)
  }

  predicate AnchoredCond(cond: Option<Expr>, columns: map<string, string>)
    decreases cond
  {
    cond.Some? ==> AnchoredExpr(cond.value, columns)
  }

  predicate AnchoredCols(cols: seq<Column>, columns: map<string, string>)
    decreases cols
  {
    cols == [] || (AnchoredExpr(cols[0].e, columns) && AnchoredCols(cols[1..], columns))
  }

  predicate AnchoredExpr(e: Expr, columns: map<string, string>)
    decreases e
  {
    match e
    case Col(_, _) => true
    case Lit(_) => true
    case Eq(l, r) => AnchoredExpr(l, columns) && AnchoredExpr(r, columns)
    case And(l, r) => AnchoredExpr(l, columns) && AnchoredExpr(r, columns)
    case Or(l, r) => AnchoredExpr(l, columns) && AnchoredExpr(r, columns)
    case Not(e) => AnchoredExpr(e, columns)
    case Apply(_, l, r) => AnchoredExpr(l, columns) && AnchoredExpr(r, columns)
    case Exists(q) => Anchored(q, columns)
    case In(e, q) => AnchoredExpr(e, columns) && Anchored(q, columns)
    case Scalar(q) => Anchored(q, columns)
  }

  // ---------------------------------------------------------------- what an outer join leaves of a tenant table

  lemma {:induction false} NullIsRejected(e: Expr, ref: string, db: Db, b: Env, strict: Option<Tenancy>)
    requires RejectsNull(e, ref) && ref in b && b[ref] == map[]
    ensures Eval(e, db, b, strict) != Bool(true)
  {
    match e
    case Eq(_, _) =>
    case And(l, r) =>
      if RejectsNull(l, ref) { NullIsRejected(l, ref, db, b, strict); } else { NullIsRejected(r, ref, db, b, strict); }
    case Or(l, r) =>
      NullIsRejected(l, ref, db, b, strict);
      NullIsRejected(r, ref, db, b, strict);
  }

  predicate HeldAt(b: Env, p: Pin, loose: seq<Pin>, ws: string) {
    Pinned(b, p, ws) || (p in loose && p.ref in b && b[p.ref] == map[])
  }

  predicate AllHeld(b: Env, pins: seq<Pin>, loose: seq<Pin>, ws: string) {
    forall i :: 0 <= i < |pins| ==> HeldAt(b, pins[i], loose, ws)
  }

  /** Each tenant reference holds one of the workspace's rows, or is loose and null. */
  ghost function Held(pins: seq<Pin>, loose: seq<Pin>, ws: string): iset<Env> {
    iset b: Env | AllHeld(b, pins, loose, ws)
  }

  ghost function HeldRows(pins: seq<Pin>, loose: seq<Pin>, ws: string): iset<Row> {
    iset r: Row | pins == [] || InScope(r, pins[0].column, ws) || (pins[0] in loose && r == map[])
  }

  lemma HeldGrows(pins: seq<Pin>, refs: seq<string>, item: Item, t: Tenancy, loose: seq<Pin>)
    requires PinsWithin(pins, refs) && Ref(item) !in refs
    ensures Grows(Held(pins, loose, t.ws), Held(pins + PinOf(item, t.columns), loose, t.ws), Ref(item),
                  HeldRows(PinOf(item, t.columns), loose, t.ws))
  {
    var p, mine, ref := Held(pins, loose, t.ws), PinOf(item, t.columns), Ref(item);
    var q, good := Held(pins + mine, loose, t.ws), HeldRows(mine, loose, t.ws);
    forall b: Env, r: Row ensures GrowsAt(p, q, ref, good, b, r) {
      var next := b[ref := r];
      assert forall i :: 0 <= i < |pins| ==>
        pins[i].ref in refs && HeldAt(next, pins[i], loose, t.ws) == HeldAt(b, pins[i], loose, t.ws);
      assert forall i :: 0 <= i < |pins| ==> (pins + mine)[i] == pins[i];
      if mine != [] {
        assert (pins + mine)[|pins|] == mine[0];
        assert HeldAt(next, mine[0], loose, t.ws) <==> r in good;
      }
    }
  }

  lemma NullsAreHeld(env: Env, refs: seq<string>, pins: seq<Pin>, loose: seq<Pin>, ws: string)
    requires PinsWithin(pins, refs) && forall p :: p in pins ==> p in loose
    ensures NullEnv(env, refs) in Held(pins, loose, ws)
  {
    forall i | 0 <= i < |pins| ensures HeldAt(NullEnv(env, refs), pins[i], loose, ws) {
      assert pins[i] in pins;
      NullEnvAt(env, refs, pins[i].ref);
    }
  }

  lemma LooseStep(joins: seq<Join>, columns: map<string, string>, seen: seq<Pin>, loose: seq<Pin>)
    requires joins != [] && forall p :: p in Loose(joins, columns, seen) ==> p in loose
    ensures var kind, mine := joins[0].kind, PinOf(joins[0].item, columns);
            (kind.LeftOuter? || kind.FullOuter? ==> forall p :: p in mine ==> p in loose) &&
            (kind.RightOuter? || kind.FullOuter? ==> forall p :: p in seen ==> p in loose) &&
            (forall p :: p in Loose(joins[1..], columns, seen + mine) ==> p in loose)
  {
    var kind, mine := joins[0].kind, PinOf(joins[0].item, columns);
    var a := if kind.LeftOuter? || kind.FullOuter? then mine else [];
    var b := if kind.RightOuter? || kind.FullOuter? then seen else [];
    var c := Loose(joins[1..], columns, seen + mine);
    assert Loose(joins, columns, seen) == a + b + c;
    forall p | p in a || p in b || p in c ensures p in loose { assert p in a + b + c; }
  }

  lemma PinnedIsHeld(bs: seq<Env>, pins: seq<Pin>, loose: seq<Pin>, ws: string)
    requires AllIn(bs, PinSet(pins, ws))
    ensures AllIn(bs, Held(pins, loose, ws))
  {
  }

  lemma {:induction false} AmongIn(bs: seq<Env>, p: iset<Env>, ok: iset<Env>)
    requires AllIn(bs, p)
    ensures AllIn(Among(bs, ok), p * ok)
  {
    if bs != [] { AmongIn(bs[1..], p, ok); }
  }

  /** A binding that passes a null-rejecting condition is pinned throughout. */
  lemma PassingIsPinned(q: Query, t: Tenancy, db: Db, b: Env, pins: seq<Pin>, loose: seq<Pin>)
    requires b in Held(pins, loose, t.ws) && b in Truth(q.where, db, None)
    requires RejectsAll(q.where, loose)
    ensures b in PinSet(pins, t.ws)
  {
    forall i | 0 <= i < |pins| ensures Pinned(b, pins[i], t.ws) {
      assert HeldAt(b, pins[i], loose, t.ws);
      if pins[i] in loose && !Pinned(b, pins[i], t.ws) {
        var l :| 0 <= l < |loose| && loose[l] == pins[i];
        NullIsRejected(q.where.value, loose[l].ref, db, b, None);
        assert false;
      }
    }
  }

  // ---------------------------------------------------------------- bindings, with and without pins

  ghost function Bound(q: Query, db: Db, env: Env, strict: Option<Tenancy>): seq<Env> {
    BindJoins(q.joins, db, env, strict, BindFroms(q.froms, db, env, strict, [env]), FromRefs(q.froms))
  }

  lemma {:induction false} AmongShrinks(bs: seq<Env>, p: iset<Env>)
    ensures |Among(bs, p)| <= |bs| && (|Among(bs, p)| == |bs| ==> AllIn(bs, p))
  {
    if bs != [] { AmongShrinks(bs[1..], p); }
  }

  lemma {:induction false} ProjectLength(cols: seq<Column>, db: Db, bs: seq<Env>, strict: Option<Tenancy>)
    ensures |Project(cols, db, bs, strict)| == |bs|
  {
    if bs != [] { ProjectLength(cols, db, bs[1..], strict); }
  }

  lemma AmongSwap(bs: seq<Env>, a: iset<Env>, b: iset<Env>)
    ensures Among(Among(bs, a), b) == Among(Among(bs, b), a)
  {
    AmongTwice(bs, a, b);
    AmongTwice(bs, b, a);
    assert a * b == b * a;
  }

  // ---------------------------------------------------------------- over a one-tenant database nothing is dropped

  lemma {:induction false} ExprIsPlain(e: Expr, t: Tenancy, db: Db, env: Env)
    requires ApartExpr(e) && AnchoredExpr(e, t.columns)
    ensures Eval(e, Restrict(db, t), env, Some(t)) == Eval(e, Restrict(db, t), env, None)
    decreases e
  {
    match e
    case Col(_, _) =>
    case Lit(_) =>
    case Eq(l, r) => ExprIsPlain(l, t, db, env); ExprIsPlain(r, t, db, env);
    case And(l, r) => ExprIsPlain(l, t, db, env); ExprIsPlain(r, t, db, env);
    case Or(l, r) => ExprIsPlain(l, t, db, env); ExprIsPlain(r, t, db, env);
    case Not(x) => ExprIsPlain(x, t, db, env);
    case Apply(_, l, r) => ExprIsPlain(l, t, db, env); ExprIsPlain(r, t, db, env);
    case Exists(q) => QueryIsPlain(q, t, db, env);
    case In(x, q) => ExprIsPlain(x, t, db, env); QueryIsPlain(q, t, db, env);
    case Scalar(q) => QueryIsPlain(q, t, db, env);
  }

  lemma {:induction false} CondIsPlain(cond: Option<Expr>, t: Tenancy, db: Db)
    requires ApartCond(cond) && AnchoredCond(cond, t.columns)
    ensures Truth(cond, Restrict(db, t), Some(t)) == Truth(cond, Restrict(db, t), None)
    decreases cond
  {
    if cond.Some? {
      forall b: Env ensures Eval(cond.value, Restrict(db, t), b, Some(t))
        == Eval(cond.value, Restrict(db, t), b, None) {
        ExprIsPlain(cond.value, t, db, b);
      }
    }
  }

  ghost predicate AllGoodRows(rows: seq<Row>, good: iset<Row>) { forall i :: 0 <= i < |rows| ==> rows[i] in good }

  lemma {:induction false} ItemIsPlain(item: Item, t: Tenancy, db: Db, env: Env)
    requires ApartItem(item) && AnchoredItem(item, t.columns)
    ensures ItemRows(item, Restrict(db, t), env, Some(t)) == ItemRows(item, Restrict(db, t), env, None)
    ensures AllGoodRows(ItemRows(item, Restrict(db, t), env, None), GoodRows(PinOf(item, t.columns), t.ws))
    decreases item, 0
  {
    if item.Derived? {
      QueryIsPlain(item.q, t, db, env);
    } else if item.name in t.columns {
      RowsOfIn(TableRows(db, item.name), t.columns[item.name], t.ws, GoodRows(PinOf(item, t.columns), t.ws));
    }
  }

  lemma {:induction false} FromIsPlain(item: Item, t: Tenancy, db: Db, env: Env, bs: seq<Env>, pins: seq<Pin>,
                                       refs: seq<string>)
    requires ApartItem(item) && AnchoredItem(item, t.columns) && Ref(item) !in refs && PinsWithin(pins, refs)
    requires AllIn(bs, PinSet(pins, t.ws))
    ensures BindFrom(item, Restrict(db, t), env, Some(t), bs) == BindFrom(item, Restrict(db, t), env, None, bs)
    ensures AllIn(BindFrom(item, Restrict(db, t), env, None, bs), PinSet(pins + PinOf(item, t.columns), t.ws))
    decreases item, 1
  {
    ItemIsPlain(item, t, db, env);
    PinGrows(pins, refs, item, t);
    JoinStepInside(Inner, bs, env, Ref(item), ItemRows(item, Restrict(db, t), env, None), Everything(),
                   PinSet(pins, t.ws), PinSet(pins + PinOf(item, t.columns), t.ws),
                   GoodRows(PinOf(item, t.columns), t.ws));
  }

  lemma {:induction false} FromsArePlain(items: seq<Item>, t: Tenancy, db: Db, env: Env, bs: seq<Env>, pins: seq<Pin>,
                                         refs: seq<string>)
    requires ApartItems(items) && AnchoredItems(items, t.columns) && NoRepeats(refs + FromRefs(items)) &&
             PinsWithin(pins, refs)
    requires AllIn(bs, PinSet(pins, t.ws))
    ensures BindFroms(items, Restrict(db, t), env, Some(t), bs) == BindFroms(items, Restrict(db, t), env, None, bs)
    ensures AllIn(BindFroms(items, Restrict(db, t), env, None, bs), PinSet(pins + FromPins(items, t.columns), t.ws))
    decreases items
  {
    if items == [] {
      assert pins + [] == pins;
    } else {
      var item := items[0];
      RefsStep(refs, Ref(item), FromRefs(items[1..]));
      FromIsPlain(item, t, db, env, bs, pins, refs);
      FromsArePlain(items[1..], t, db, env, BindFrom(item, Restrict(db, t), env, None, bs),
                    pins + PinOf(item, t.columns), refs + [Ref(item)]);
      PinsRegroup(pins, PinOf(item, t.columns), FromPins(items[1..], t.columns));
    }
  }

  lemma {:induction false} JoinIsPlain(j: Join, t: Tenancy, db: Db, env: Env, bs: seq<Env>, pins: seq<Pin>,
                                       refs: seq<string>, loose: seq<Pin>)
    requires ApartJoin(j) && AnchoredJoin(j, t.columns) && Ref(j.item) !in refs && PinsWithin(pins, refs)
    requires AllIn(bs, Held(pins, loose, t.ws))
    requires j.kind.LeftOuter? || j.kind.FullOuter? ==> forall p :: p in PinOf(j.item, t.columns) ==> p in loose
    requires j.kind.RightOuter? || j.kind.FullOuter? ==> forall p :: p in pins ==> p in loose
    ensures BindJoin(j, Restrict(db, t), env, Some(t), bs, refs) == BindJoin(j, Restrict(db, t), env, None, bs, refs)
    ensures AllIn(BindJoin(j, Restrict(db, t), env, None, bs, refs),
                  Held(pins + PinOf(j.item, t.columns), loose, t.ws))
    decreases j
  {
    var own, mine := Restrict(db, t), PinOf(j.item, t.columns);
    ItemIsPlain(j.item, t, db, env);
    CondIsPlain(j.on, t, db);
    HeldGrows(pins, refs, j.item, t, loose);
    if j.kind.RightOuter? || j.kind.FullOuter? { NullsAreHeld(env, refs, pins, loose, t.ws); }
    JoinStepInside(j.kind, bs, NullEnv(env, refs), Ref(j.item), ItemRows(j.item, own, env, None),
                   Truth(j.on, own, None),
                   Held(pins, loose, t.ws), Held(pins + mine, loose, t.ws), HeldRows(mine, loose, t.ws));
  }

  lemma {:induction false} JoinsArePlain(joins: seq<Join>, t: Tenancy, db: Db, env: Env, bs: seq<Env>, pins: seq<Pin>,
                                         refs: seq<string>, loose: seq<Pin>)
    requires ApartJoins(joins) && AnchoredJoins(joins, t.columns) && NoRepeats(refs + JoinRefs(joins))
    requires PinsWithin(pins, refs) && AllIn(bs, Held(pins, loose, t.ws))
    requires forall p :: p in Loose(joins, t.columns, pins) ==> p in loose
    ensures BindJoins(joins, Restrict(db, t), env, Some(t), bs, refs)
         == BindJoins(joins, Restrict(db, t), env, None, bs, refs)
    ensures AllIn(BindJoins(joins, Restrict(db, t), env, None, bs, refs),
                  Held(pins + JoinPins(joins, t.columns), loose, t.ws))
    decreases joins
  {
    if joins == [] {
      assert pins + [] == pins;
    } else {
      var item, own := joins[0].item, Restrict(db, t);
      RefsStep(refs, Ref(item), JoinRefs(joins[1..]));
      LooseStep(joins, t.columns, pins, loose);
      JoinIsPlain(joins[0], t, db, env, bs, pins, refs, loose);
      JoinsArePlain(joins[1..], t, db, env, BindJoin(joins[0], own, env, None, bs, refs), pins + PinOf(item, t.columns),
                    refs + [Ref(item)], loose);
      PinsRegroup(pins, PinOf(item, t.columns), JoinPins(joins[1..], t.columns));
    }
  }

  lemma {:induction false} ColsArePlain(cols: seq<Column>, t: Tenancy, db: Db, b: Env)
    requires ApartCols(cols) && AnchoredCols(cols, t.columns)
    ensures ProjectRow(cols, Restrict(db, t), b, Some(t)) == ProjectRow(cols, Restrict(db, t), b, None)
    decreases cols, 0
  {
    if cols != [] {
      ExprIsPlain(cols[0].e, t, db, b);
      ColsArePlain(cols[1..], t, db, b);
    }
  }

  lemma {:induction false} ProjectIsPlain(cols: seq<Column>, t: Tenancy, db: Db, bs: seq<Env>)
    requires ApartCols(cols) && AnchoredCols(cols, t.columns)
    ensures Project(cols, Restrict(db, t), bs, Some(t)) == Project(cols, Restrict(db, t), bs, None)
    decreases cols, 1, bs
  {
    if bs != [] {
      ColsArePlain(cols, t, db, bs[0]);
      ProjectIsPlain(cols, t, db, bs[1..]);
    }
  }

  /** Without guards at the top level: the bindings agree, and each tenant reference in them holds one
      of the workspace's rows or is null-supplied. */
  lemma {:induction false} BoundIsPlain(q: Query, t: Tenancy, db: Db, env: Env)
    requires Apart(q) && InnerAnchored(q, t.columns)
    ensures Bound(q, Restrict(db, t), env, Some(t)) == Bound(q, Restrict(db, t), env, None)
    ensures AllIn(Bound(q, Restrict(db, t), env, None),
                  Held(QueryPins(q, t.columns), Loose(q.joins, t.columns, FromPins(q.froms, t.columns)), t.ws))
    decreases q, 0
  {
    var own, froms := Restrict(db, t), FromPins(q.froms, t.columns);
    var loose := Loose(q.joins, t.columns, froms);
    FromPinsWithin(q.froms, t.columns);
    NoRepeatsFront(FromRefs(q.froms), JoinRefs(q.joins));
    assert [] + froms == froms;
    FromsArePlain(q.froms, t, db, env, [env], [], []);
    PinnedIsHeld(BindFroms(q.froms, own, env, None, [env]), froms, loose, t.ws);
    JoinsArePlain(q.joins, t, db, env, BindFroms(q.froms, own, env, None, [env]), froms, FromRefs(q.froms), loose);
  }

  lemma {:induction false} PassingAmong(q: Query, t: Tenancy, db: Db, env: Env)
    requires Apart(q) && InnerAnchored(q, t.columns)
    ensures Passing(q, Restrict(db, t), env, Some(t))
         == Among(Passing(q, Restrict(db, t), env, None), PinSet(QueryPins(q, t.columns), t.ws))
    ensures AllIn(Passing(q, Restrict(db, t), env, None),
                  Held(QueryPins(q, t.columns), Loose(q.joins, t.columns, FromPins(q.froms, t.columns)), t.ws)
                    * Truth(q.where, Restrict(db, t), None))
    decreases q, 1
  {
    var own, pins := Restrict(db, t), QueryPins(q, t.columns);
    BoundIsPlain(q, t, db, env);
    CondIsPlain(q.where, t, db);
    AmongSwap(Bound(q, own, env, None), PinSet(pins, t.ws), Truth(q.where, own, None));
    AmongIn(Bound(q, own, env, None), Held(pins, Loose(q.joins, t.columns, FromPins(q.froms, t.columns)), t.ws),
            Truth(q.where, own, None));
  }

  /** Under the guard every binding that passes is pinned throughout. */
  lemma {:induction false} PassingIsPlain(q: Query, t: Tenancy, db: Db, env: Env)
    requires Apart(q) && Anchored(q, t.columns)
    ensures Passing(q, Restrict(db, t), env, Some(t)) == Passing(q, Restrict(db, t), env, None)
    decreases q, 2
  {
    var own, pins := Restrict(db, t), QueryPins(q, t.columns);
    var loose, passing := Loose(q.joins, t.columns, FromPins(q.froms, t.columns)), Passing(q, own, env, None);
    PassingAmong(q, t, db, env);
    assert Guarded(q, t.columns);
    forall k | 0 <= k < |passing| ensures passing[k] in PinSet(pins, t.ws) {
      PassingIsPinned(q, t, own, passing[k], pins, loose);
    }
    AmongAll(passing, PinSet(pins, t.ws));
  }

  lemma {:induction false} QueryIsPlain(q: Query, t: Tenancy, db: Db, env: Env)
    requires Apart(q) && Anchored(q, t.columns)
    ensures Run(q, Restrict(db, t), env, Some(t)) == Run(q, Restrict(db, t), env, None)
    decreases q, 3
  {
    PassingIsPlain(q, t, db, env);
    ProjectIsPlain(q.cols, t, db, Passing(q, Restrict(db, t), env, None));
  }

  /** Meaning preservation: the rewritten query over everyone's rows is the original query over the
      database in which the workspace is alone. */
  lemma MeaningPreserved(q: Query, t: Tenancy, db: Db, env: Env)
    requires Apart(q) && Anchored(q, t.columns)
    ensures Run(RewriteQuery(q, t), db, env, None) == Run(q, Restrict(db, t), env, None)
  {
    QueryMeans(q, t, db, env);
    QueryIsPlain(q, t, db, env);
  }

  // ---------------------------------------------------------------- inner joins only

  /** Every join, at every depth, is inner. */
  predicate AllInner(q: Query)
    decreases q
  {
    InnerItems(q.froms) && InnerJoins(q.joins) && InnerCond(q.where) && InnerCols(q.cols)
  }

  predicate InnerItems(items: seq<Item>)
    decreases items
  {
    items == [] || (InnerItem(items[0]) && InnerItems(items[1..]))
  }

  predicate InnerItem(item: Item)
    decreases item
  {
    item.Derived? ==> AllInner(item.q)
  }

  predicate InnerJoins(joins: seq<Join>)
    decreases joins
  {
    joins == [] || (InnerJoin(joins[0]) && InnerJoins(joins[1..]))
  }

  predicate InnerJoin(j: Join)
    decreases j
  {
    j.kind.Inner? && InnerItem(j.item) && InnerCond(j.on)
  }

  predicate InnerCond(cond: Option<Expr>)
    decreases cond
  {
    cond.Some? ==> InnerExpr(cond.value)
  }

  predicate InnerCols(cols: seq<Column>)
    decreases cols
  {
    cols == [] || (InnerExpr(cols[0].e) && InnerCols(cols[1..]))
  }

  predicate InnerExpr(e: Expr)
    decreases e
  {
    match e
    case Col(_, _) => true
    case Lit(_) => true
    case Eq(l, r) => InnerExpr(l) && InnerExpr(r)
    case And(l, r) => InnerExpr(l) && InnerExpr(r)
    case Or(l, r) => InnerExpr(l) && InnerExpr(r)
    case Not(e) => InnerExpr(e)
    case Apply(_, l, r) => InnerExpr(l) && InnerExpr(r)
    case Exists(q) => AllInner(q)
    case In(e, q) => InnerExpr(e) && AllInner(q)
    case Scalar(q) => AllInner(q)
  }

  /** Inner joins supply no nulls. */
  lemma {:induction false} InnerJoinsAreFirm(joins: seq<Join>, columns: map<string, string>, seen: seq<Pin>)
    requires InnerJoins(joins)
    ensures Loose(joins, columns, seen) == []
  {
    if joins != [] {
      assert InnerJoin(joins[0]);
      InnerJoinsAreFirm(joins[1..], columns, seen + PinOf(joins[0].item, columns));
    }
  }

  /** A query with inner joins only needs no guard at any depth. */
  lemma {:induction false} InnerIsAnchored(q: Query, columns: map<string, string>)
    requires AllInner(q)
    ensures Anchored(q, columns)
    decreases q
  {
    InnerJoinsAreFirm(q.joins, columns, FromPins(q.froms, columns));
    InnerItemsAnchored(q.froms, columns);
    InnerJoinsAnchored(q.joins, columns);
    InnerCondAnchored(q.where, columns);
    InnerColsAnchored(q.cols, columns);
  }

  lemma {:induction false} InnerItemsAnchored(items: seq<Item>, columns: map<string, string>)
    requires InnerItems(items)
    ensures AnchoredItems(items, columns)
    decreases items
  {
    if items != [] {
      InnerItemAnchored(items[0], columns);
      InnerItemsAnchored(items[1..], columns);
    }
  }

  lemma {:induction false} InnerItemAnchored(item: Item, columns: map<string, string>)
    requires InnerItem(item)
    ensures AnchoredItem(item, columns)
    decreases item
  {
    if item.Derived? { InnerIsAnchored(item.q, columns); }
  }

  lemma {:induction false} InnerJoinsAnchored(joins: seq<Join>, columns: map<string, string>)
    requires InnerJoins(joins)
    ensures AnchoredJoins(joins, columns)
    decreases joins
  {
    if joins != [] {
      InnerJoinAnchored(joins[0], columns);
      InnerJoinsAnchored(joins[1..], columns);
    }
  }

  lemma {:induction false} InnerJoinAnchored(j: Join, columns: map<string, string>)
    requires InnerJoin(j)
    ensures AnchoredJoin(j, columns)
    decreases j
  {
    InnerItemAnchored(j.item, columns);
    InnerCondAnchored(j.on, columns);
  }

  lemma {:induction false} InnerCondAnchored(cond: Option<Expr>, columns: map<string, string>)
    requires InnerCond(cond)
    ensures AnchoredCond(cond, columns)
    decreases cond
  {
    if cond.Some? { InnerExprAnchored(cond.value, columns); }
  }

  lemma {:induction false} InnerColsAnchored(cols: seq<Column>, columns: map<string, string>)
    requires InnerCols(cols)
    ensures AnchoredCols(cols, columns)
    decreases cols
  {
    if cols != [] {
      InnerExprAnchored(cols[0].e, columns);
      InnerColsAnchored(cols[1..], columns);
    }
  }

  lemma {:induction false} InnerExprAnchored(e: Expr, columns: map<string, string>)
    requires InnerExpr(e)
    ensures AnchoredExpr(e, columns)
    decreases e
  {
    match e
    case Col(_, _) =>
    case Lit(_) =>
    case Eq(l, r) => InnerExprAnchored(l, columns); InnerExprAnchored(r, columns);
    case And(l, r) => InnerExprAnchored(l, columns); InnerExprAnchored(r, columns);
    case Or(l, r) => InnerExprAnchored(l, columns); InnerExprAnchored(r, columns);
    case Not(x) => InnerExprAnchored(x, columns);
    case Apply(_, l, r) => InnerExprAnchored(l, columns); InnerExprAnchored(r, columns);
    case Exists(q) => InnerIsAnchored(q, columns);
    case In(x, q) => InnerExprAnchored(x, columns); InnerIsAnchored(q, columns);
    case Scalar(q) => InnerIsAnchored(q, columns);
  }

  /** With inner joins only, rewriting means the original query over the one-tenant database. */
  lemma InnerQueriesPreserved(q: Query, t: Tenancy, db: Db, env: Env)
    requires Apart(q) && AllInner(q)
    ensures Run(RewriteQuery(q, t), db, env, None) == Run(q, Restrict(db, t), env, None)
  {
    InnerIsAnchored(q, t.columns);
    MeaningPreserved(q, t, db, env);
  }

  // ---------------------------------------------------------------- outer joins without a guard, exactly

  /** With top-level outer joins of any kind and any grouping, ordering or limit, the rewritten query
      answers the original one whenever no binding that answers it lacks a tenant table's row. */
  lemma OuterJoinsPreserved(q: Query, t: Tenancy, db: Db, env: Env)
    requires Apart(q) && InnerAnchored(q, t.columns)
    requires AllIn(Passing(q, Restrict(db, t), env, None), PinSet(QueryPins(q, t.columns), t.ws))
    ensures Run(RewriteQuery(q, t), db, env, None) == Run(q, Restrict(db, t), env, None)
  {
    QueryMeans(q, t, db, env);
    PassingAmong(q, t, db, env);
    AmongAll(Passing(q, Restrict(db, t), env, None), PinSet(QueryPins(q, t.columns), t.ws));
    ProjectIsPlain(q.cols, t, db, Passing(q, Restrict(db, t), env, None));
  }

  /** Where the rows come out as they are bound, it does so in no other case. */
  lemma OuterJoinsExactly(q: Query, t: Tenancy, db: Db, env: Env)
    requires Apart(q) && InnerAnchored(q, t.columns)
    requires forall bs, rows :: q.finish(bs, rows) == rows
    ensures Run(RewriteQuery(q, t), db, env, None) == Run(q, Restrict(db, t), env, None)
        <==> AllIn(Passing(q, Restrict(db, t), env, None), PinSet(QueryPins(q, t.columns), t.ws))
  {
    var own, p := Restrict(db, t), PinSet(QueryPins(q, t.columns), t.ws);
    var all := Passing(q, own, env, None);
    QueryMeans(q, t, db, env);
    PassingAmong(q, t, db, env);
    ProjectIsPlain(q.cols, t, db, Among(all, p));
    ProjectLength(q.cols, own, Among(all, p), None);
    ProjectLength(q.cols, own, all, None);
    AmongShrinks(all, p);
    if AllIn(all, p) { OuterJoinsPreserved(q, t, db, env); }
  }

  // ---------------------------------------------------------------- where rows are lost

  /** `docs LEFT JOIN grants ON grants.resource_id = docs.id`. */
  function DocsWithGrants(): Query {
    Select([Table("docs")],
           [Join(LeftOuter, Table("grants"), Some(Eq(Col("grants", "resource_id"), Col("docs", "id"))))], None,
           [Column("id", Col("docs", "id"))], (bs: seq<Env>, rows: seq<Row>) => rows)
  }

  function LoneDoc(ws: string): Row { map["id" := Str("d"), "workspace_id" := Str(ws)] }

  function LoneDocDb(ws: string): Db { map["docs" := [LoneDoc(ws)], "grants" := []] }

  /** A doc without grants is lost: the added conjunct on the null-supplied table is never true. */
  lemma LeftJoinLosesRows(ws: string)
    ensures Run(RewriteQuery(DocsWithGrants(), ScopedTo(ws)), LoneDocDb(ws), map[], None)
         != Run(DocsWithGrants(), Restrict(LoneDocDb(ws), ScopedTo(ws)), map[], None)
  {
    var t, q, db := ScopedTo(ws), DocsWithGrants(), LoneDocDb(ws);
    LoneDocTables(ws);
    OneDoc(Restrict(db, t), LoneDoc(ws));
    LeftJoinIsApart();
    OuterJoinsExactly(q, t, db, map[]);
    GrantsArePinned(ws);
    var b: Env := map["docs" := LoneDoc(ws), "grants" := map[]];
    assert !Pinned(b, QueryPins(q, t.columns)[1], ws);
    assert [b][0] !in PinSet(QueryPins(q, t.columns), ws);
  }

  lemma LoneDocTables(ws: string)
    ensures var own := Restrict(LoneDocDb(ws), ScopedTo(ws));
            TableRows(own, "docs") == [LoneDoc(ws)] && TableRows(own, "grants") == []
  {
    assert RowsOf([LoneDoc(ws)][1..], "workspace_id", ws) == [];
    assert InScope(LoneDoc(ws), "workspace_id", ws);
  }

  lemma LeftJoinIsApart()
    ensures Apart(DocsWithGrants()) && InnerAnchored(DocsWithGrants(), TENANT_SCOPE_COLUMNS)
  {
    var q := DocsWithGrants();
    assert FromRefs(q.froms) == ["docs"] && JoinRefs(q.joins) == ["grants"];
    assert ApartItems(q.froms[1..]) && ApartJoins(q.joins[1..]) && ApartCols(q.cols[1..]);
    assert AnchoredItems(q.froms[1..], TENANT_SCOPE_COLUMNS) && AnchoredJoins(q.joins[1..], TENANT_SCOPE_COLUMNS);
    assert AnchoredCols(q.cols[1..], TENANT_SCOPE_COLUMNS);
  }

  lemma GrantsArePinned(ws: string)
    ensures QueryPins(DocsWithGrants(), TENANT_SCOPE_COLUMNS)
            == [Pin("docs", "workspace_id"), Pin("grants", "workspace_id")]
  {
    var q := DocsWithGrants();
    assert FromPins(q.froms[1..], TENANT_SCOPE_COLUMNS) == [] && JoinPins(q.joins[1..], TENANT_SCOPE_COLUMNS) == [];
  }

  lemma OneDoc(own: Db, doc: Row)
    requires TableRows(own, "docs") == [doc] && TableRows(own, "grants") == []
    ensures Passing(DocsWithGrants(), own, map[], None) == [map["docs" := doc, "grants" := map[]]]
  {
    var q := DocsWithGrants();
    var b: Env := map["docs" := doc];
    assert AllPinned(b, [], "");
    assert Matches(map[], "docs", [doc][1..], Everything()) == [];
    assert Matches(map[], "docs", [doc], Everything()) == [b];
    assert ExtendAll(Inner, [map[]][1..], "docs", [doc], Everything()) == [];
    assert BindFrom(Table("docs"), own, map[], None, [map[]]) == [b];
    assert BindFroms(q.froms[1..], own, map[], None, [b]) == [b];
    var both: Env := b["grants" := map[]];
    assert ExtendAll(LeftOuter, [b][1..], "grants", [], Everything()) == [];
    assert BindJoin(q.joins[0], own, map[], None, [b], ["docs"]) == [both];
    assert BindJoins(q.joins[1..], own, map[], None, [both], ["docs"] + ["grants"]) == [both];
    assert AllPinned(both, [], "");
    assert Among([both], Everything()) == [both] by { assert Among([both][1..], Everything()) == []; }
    assert FromRefs(q.froms[1..]) == [];
    assert both == map["docs" := doc, "grants" := map[]];
  }
}
