/** What the tenant rewrite means. Run over the whole database, a rewritten query is the original
    query run over the database of one workspace, keeping the bindings in which every tenant table
    contributed a row; when no tenant table can be null-supplied that is the original query itself. */
module TenantMeaning {
  import opened Options
  import opened Sql
  import opened JoinAlgebra
  import opened TenantRewrite

  // ---------------------------------------------------------------- restricted tables

  ghost function GoodRows(pins: seq<Pin>, ws: string): iset<Row> {
    iset r: Row | pins == [] || InScope(r, pins[0].column, ws)
  }

  lemma {:induction false} RowsOfIn(rows: seq<Row>, column: string, ws: string, good: iset<Row>)
    requires forall r: Row :: r in good <==> InScope(r, column, ws)
    ensures RowsIn(rows, good) == RowsOf(rows, column, ws)
    ensures forall i :: 0 <= i < |RowsOf(rows, column, ws)| ==> RowsOf(rows, column, ws)[i] in good
  {
    if rows != [] { RowsOfIn(rows[1..], column, ws, good); }
  }

  lemma {:induction false} RowsOfTwice(rows: seq<Row>, column: string, ws: string)
    ensures RowsOf(RowsOf(rows, column, ws), column, ws) == RowsOf(rows, column, ws)
  {
    if rows != [] {
      RowsOfTwice(rows[1..], column, ws);
      var rest := RowsOf(rows[1..], column, ws);
      if InScope(rows[0], column, ws) {
        assert ([rows[0]] + rest)[1..] == rest;
      } else {
        assert [] + rest == rest;
      }
    }
  }

  lemma RestrictTwice(db: Db, t: Tenancy)
    ensures Restrict(Restrict(db, t), t) == Restrict(db, t)
  {
    forall name | name in db && name in t.columns ensures Restrict(Restrict(db, t), t)[name] == Restrict(db, t)[name] {
      RowsOfTwice(db[name], t.columns[name], t.ws);
    }
  }

  // ---------------------------------------------------------------- pins

  ghost predicate PinsWithin(pins: seq<Pin>, refs: seq<string>) {
    forall i :: 0 <= i < |pins| ==> pins[i].ref in refs
  }

  lemma PinGrows(pins: seq<Pin>, refs: seq<string>, item: Item, t: Tenancy)
    requires PinsWithin(pins, refs) && Ref(item) !in refs
    ensures Grows(PinSet(pins, t.ws), PinSet(pins + PinOf(item, t.columns), t.ws), Ref(item),
                  GoodRows(PinOf(item, t.columns), t.ws))
  {
    var p, new_, ref := PinSet(pins, t.ws), PinOf(item, t.columns), Ref(item);
    var q, good := PinSet(pins + new_, t.ws), GoodRows(new_, t.ws);
    forall b: Env, r: Row ensures GrowsAt(p, q, ref, good, b, r) {
      var next := b[ref := r];
      assert forall i :: 0 <= i < |pins| ==>
             pins[i].ref in refs && Pinned(next, pins[i], t.ws) == Pinned(b, pins[i], t.ws);
      assert forall i :: 0 <= i < |pins| ==> (pins + new_)[i] == pins[i];
      if new_ != [] {
        assert (pins + new_)[|pins|] == new_[0];
        assert Pinned(next, new_[0], t.ws) <==> r in good;
      }
    }
  }

  lemma {:induction false} NullEnvAt(env: Env, refs: seq<string>, ref: string)
    requires ref in refs
    ensures ref in NullEnv(env, refs) && NullEnv(env, refs)[ref] == map[]
  {
    if refs[0] != ref { NullEnvAt(env, refs[1..], ref); }
  }

  lemma PinsAreSafe(kind: JoinKind, pins: seq<Pin>, refs: seq<string>, env: Env, item: Item, t: Tenancy)
    requires PinsWithin(pins, refs)
    ensures NullRowSafe(kind, GoodRows(PinOf(item, t.columns), t.ws))
    ensures NullEnvSafe(kind, NullEnv(env, refs), PinSet(pins, t.ws))
  {
    if pins != [] {
      NullEnvAt(env, refs, pins[0].ref);
      assert !Pinned(NullEnv(env, refs), pins[0], t.ws);
    }
  }

  lemma {:induction false} RewriteKeepsFromPins(items: seq<Item>, t: Tenancy)
    ensures FromPins(RewriteItems(items, t), t.columns) == FromPins(items, t.columns)
    ensures FromRefs(RewriteItems(items, t)) == FromRefs(items)
  {
    if items != [] { RewriteKeepsFromPins(items[1..], t); }
  }

  lemma {:induction false} RewriteKeepsJoinPins(joins: seq<Join>, t: Tenancy)
    ensures JoinPins(RewriteJoins(joins, t), t.columns) == JoinPins(joins, t.columns)
  {
    if joins != [] {
      RewriteKeepsJoinPins(joins[1..], t);
      assert PinOf(RewriteJoin(joins[0], t).item, t.columns) == PinOf(joins[0].item, t.columns);
      assert RewriteJoins(joins, t)[1..] == RewriteJoins(joins[1..], t);
    }
  }

  lemma {:induction false} FromPinsWithin(items: seq<Item>, columns: map<string, string>)
    ensures PinsWithin(FromPins(items, columns), FromRefs(items))
  {
    if items != [] { FromPinsWithin(items[1..], columns); }
  }

  // ---------------------------------------------------------------- the added conjuncts

  lemma {:induction false} ConjunctionMeans(pins: seq<Pin>, ws: string, db: Db, b: Env)
    requires pins != []
    ensures Eval(ConjunctionOver(pins, ws), db, b, None) == Bool(true) <==> AllPinned(b, pins, ws)
  {
    var last := pins[|pins| - 1];
    assert Eval(PinTest(last, ws), db, b, None) == Bool(true) <==> Pinned(b, last, ws);
    if |pins| > 1 {
      var front := pins[..|pins| - 1];
      ConjunctionMeans(front, ws, db, b);
      assert AllPinned(b, pins, ws) <==> AllPinned(b, front, ws) && Pinned(b, last, ws);
    }
  }

  lemma PinningAt(cond: Option<Expr>, pinned: Expr, db: Db, b: Env)
    ensures b in Truth(AppendAnd(cond, pinned), db, None)
            <==> b in Truth(cond, db, None) && Eval(pinned, db, b, None) == Bool(true)
  {
    if cond.Some? {
      assert Eval(And(cond.value, pinned), db, b, None)
             == AndValues(Eval(cond.value, db, b, None), Eval(pinned, db, b, None));
    } else {
      assert AllPinned(b, [], "");
    }
  }

  lemma PinningMeans(cond: Option<Expr>, pins: seq<Pin>, ws: string, db: Db)
    ensures Truth(Pinning(cond, pins, ws), db, None) == PinSet(pins, ws) * Truth(cond, db, None)
  {
    var whole := Truth(Pinning(cond, pins, ws), db, None);
    forall b: Env ensures b in whole <==> b in PinSet(pins, ws) && b in Truth(cond, db, None) {
      if pins == [] {
        assert AllPinned(b, pins, ws);
      } else {
        ConjunctionMeans(pins, ws, db, b);
        PinningAt(cond, ConjunctionOver(pins, ws), db, b);
      }
    }
  }

  // ---------------------------------------------------------------- the rewritten query, by induction

  lemma {:induction false} ExprMeans(e: Expr, t: Tenancy, db: Db, env: Env)
    requires ApartExpr(e)
    ensures Eval(RewriteExpr(e, t), db, env, None) == Eval(e, Restrict(db, t), env, Some(t))
    decreases e
  {
    match e
    case Col(_, _) =>
    case Lit(_) =>
    case Eq(l, r) => ExprMeans(l, t, db, env); ExprMeans(r, t, db, env);
    case And(l, r) => ExprMeans(l, t, db, env); ExprMeans(r, t, db, env);
    case Or(l, r) => ExprMeans(l, t, db, env); ExprMeans(r, t, db, env);
    case Not(x) => ExprMeans(x, t, db, env);
    case Apply(_, l, r) => ExprMeans(l, t, db, env); ExprMeans(r, t, db, env);
    case Exists(q) => QueryMeans(q, t, db, env);
    case In(x, q) =>
      ExprMeans(x, t, db, env);
      QueryMeans(q, t, db, env);
      RewriteKeepsOutput(q, t);
    case Scalar(q) =>
      QueryMeans(q, t, db, env);
      RewriteKeepsOutput(q, t);
  }

  lemma RewriteKeepsOutput(q: Query, t: Tenancy)
    ensures OutputColumn(RewriteQuery(q, t)) == OutputColumn(q)
  {
  }

  lemma {:induction false} CondMeans(cond: Option<Expr>, t: Tenancy, db: Db)
    requires ApartCond(cond)
    ensures Truth(RewriteCond(cond, t), db, None) == Truth(cond, Restrict(db, t), Some(t))
    decreases cond
  {
    if cond.Some? {
      forall b: Env ensures Eval(RewriteExpr(cond.value, t), db, b, None)
        == Eval(cond.value, Restrict(db, t), b, Some(t)) {
        ExprMeans(cond.value, t, db, b);
      }
    }
  }

  lemma {:induction false} ItemMeans(item: Item, t: Tenancy, db: Db, env: Env)
    requires ApartItem(item)
    ensures var good := GoodRows(PinOf(item, t.columns), t.ws);
            RowsIn(ItemRows(RewriteItem(item, t), db, env, None), good)
              == RowsIn(ItemRows(item, Restrict(db, t), env, Some(t)), good)
    decreases item, 0
  {
    if item.Derived? {
      QueryMeans(item.q, t, db, env);
    } else if item.name in t.columns {
      var column, rows := t.columns[item.name], TableRows(db, item.name);
      var good := GoodRows(PinOf(item, t.columns), t.ws);
      RowsOfIn(rows, column, t.ws, good);
      RowsOfIn(RowsOf(rows, column, t.ws), column, t.ws, good);
      RowsOfTwice(rows, column, t.ws);
      assert TableRows(Restrict(db, t), item.name) == RowsOf(rows, column, t.ws);
    }
  }

  lemma {:induction false} FromsMean(items: seq<Item>, t: Tenancy, db: Db, env: Env, bs: seq<Env>, mine: seq<Env>,
                                     pins: seq<Pin>, refs: seq<string>)
    requires ApartItems(items) && NoRepeats(refs + FromRefs(items)) && PinsWithin(pins, refs)
    requires Among(bs, PinSet(pins, t.ws)) == Among(mine, PinSet(pins, t.ws))
    ensures var all := PinSet(pins + FromPins(items, t.columns), t.ws);
            Among(BindFroms(RewriteItems(items, t), db, env, None, bs), all)
              == Among(BindFroms(items, Restrict(db, t), env, Some(t), mine), all)
    decreases items
  {
    if items == [] {
      assert pins + [] == pins;
    } else {
      var item := items[0];
      var next := pins + PinOf(item, t.columns);
      RefsStep(refs, Ref(item), FromRefs(items[1..]));
      FromMeans(item, t, db, env, bs, mine, pins, refs);
      FromsMean(items[1..], t, db, env, BindFrom(RewriteItem(item, t), db, env, None, bs),
                BindFrom(item, Restrict(db, t), env, Some(t), mine), next, refs + [Ref(item)]);
      PinsRegroup(pins, PinOf(item, t.columns), FromPins(items[1..], t.columns));
    }
  }

  lemma PinsRegroup(a: seq<Pin>, b: seq<Pin>, c: seq<Pin>)
    ensures a + (b + c) == a + b + c
  {
  }

  lemma {:induction false} FromMeans(item: Item, t: Tenancy, db: Db, env: Env, bs: seq<Env>, mine: seq<Env>,
                                     pins: seq<Pin>, refs: seq<string>)
    requires ApartItem(item) && Ref(item) !in refs && PinsWithin(pins, refs)
    requires Among(bs, PinSet(pins, t.ws)) == Among(mine, PinSet(pins, t.ws))
    ensures var next := PinSet(pins + PinOf(item, t.columns), t.ws);
            Among(BindFrom(RewriteItem(item, t), db, env, None, bs), next)
              == Among(BindFrom(item, Restrict(db, t), env, Some(t), mine), next)
    decreases item, 1
  {
    ItemMeans(item, t, db, env);
    PinGrows(pins, refs, item, t);
    PinsAreSafe(Inner, pins, refs, env, item, t);
    JoinStepAgrees(Inner, bs, mine, env, Ref(item), ItemRows(RewriteItem(item, t), db, env, None),
                   ItemRows(item, Restrict(db, t), env, Some(t)), Everything(),
                   PinSet(pins, t.ws), PinSet(pins + PinOf(item, t.columns), t.ws),
                   GoodRows(PinOf(item, t.columns), t.ws));
  }

  lemma RefsStep(refs: seq<string>, ref: string, rest: seq<string>)
    requires NoRepeats(refs + ([ref] + rest))
    ensures ref !in refs && NoRepeats(refs + [ref] + rest)
  {
    assert refs + ([ref] + rest) == refs + [ref] + rest;
    assert (refs + ([ref] + rest))[|refs|] == ref;
    forall i | 0 <= i < |refs| ensures refs[i] != ref { assert (refs + ([ref] + rest))[i] == refs[i]; }
  }

  lemma {:induction false} JoinsMean(joins: seq<Join>, t: Tenancy, db: Db, env: Env, bs: seq<Env>, mine: seq<Env>,
                                     pins: seq<Pin>, refs: seq<string>)
    requires ApartJoins(joins) && NoRepeats(refs + JoinRefs(joins)) && PinsWithin(pins, refs)
    requires Among(bs, PinSet(pins, t.ws)) == Among(mine, PinSet(pins, t.ws))
    ensures var all := PinSet(pins + JoinPins(joins, t.columns), t.ws);
            Among(BindJoins(RewriteJoins(joins, t), db, env, None, bs, refs), all)
              == Among(BindJoins(joins, Restrict(db, t), env, Some(t), mine, refs), all)
    decreases joins
  {
    if joins == [] {
      assert pins + [] == pins;
    } else {
      var item := joins[0].item;
      var next := pins + PinOf(item, t.columns);
      RefsStep(refs, Ref(item), JoinRefs(joins[1..]));
      JoinMeans(joins[0], t, db, env, bs, mine, pins, refs);
      JoinsMean(joins[1..], t, db, env, BindJoin(RewriteJoin(joins[0], t), db, env, None, bs, refs),
                BindJoin(joins[0], Restrict(db, t), env, Some(t), mine, refs), next, refs + [Ref(item)]);
      PinsRegroup(pins, PinOf(item, t.columns), JoinPins(joins[1..], t.columns));
    }
  }

  lemma {:induction false} JoinMeans(j: Join, t: Tenancy, db: Db, env: Env, bs: seq<Env>, mine: seq<Env>,
                                     pins: seq<Pin>, refs: seq<string>)
    requires ApartJoin(j) && Ref(j.item) !in refs && PinsWithin(pins, refs)
    requires Among(bs, PinSet(pins, t.ws)) == Among(mine, PinSet(pins, t.ws))
    ensures var next := PinSet(pins + PinOf(j.item, t.columns), t.ws);
            Among(BindJoin(RewriteJoin(j, t), db, env, None, bs, refs), next)
              == Among(BindJoin(j, Restrict(db, t), env, Some(t), mine, refs), next)
    decreases j
  {
    ItemMeans(j.item, t, db, env);
    CondMeans(j.on, t, db);
    PinGrows(pins, refs, j.item, t);
    PinsAreSafe(j.kind, pins, refs, env, j.item, t);
    JoinStepAgrees(j.kind, bs, mine, NullEnv(env, refs), Ref(j.item), ItemRows(RewriteItem(j.item, t), db, env, None),
                   ItemRows(j.item, Restrict(db, t), env, Some(t)), Truth(j.on, Restrict(db, t), Some(t)),
                   PinSet(pins, t.ws), PinSet(pins + PinOf(j.item, t.columns), t.ws),
                   GoodRows(PinOf(j.item, t.columns), t.ws));
  }

  lemma {:induction false} ColsMean(cols: seq<Column>, t: Tenancy, db: Db, b: Env)
    requires ApartCols(cols)
    ensures ProjectRow(RewriteCols(cols, t), db, b, None) == ProjectRow(cols, Restrict(db, t), b, Some(t))
    decreases cols, 0
  {
    if cols != [] {
      ExprMeans(cols[0].e, t, db, b);
      ColsMean(cols[1..], t, db, b);
    }
  }

  lemma {:induction false} ProjectMeans(cols: seq<Column>, t: Tenancy, db: Db, bs: seq<Env>)
    requires ApartCols(cols)
    ensures Project(RewriteCols(cols, t), db, bs, None) == Project(cols, Restrict(db, t), bs, Some(t))
    decreases cols, 1, bs
  {
    if bs != [] {
      ColsMean(cols, t, db, bs[0]);
      ProjectMeans(cols, t, db, bs[1..]);
    }
  }

  lemma {:induction false} PassingMeans(q: Query, t: Tenancy, db: Db, env: Env)
    requires Apart(q)
    ensures Passing(RewriteQuery(q, t), db, env, None) == Passing(q, Restrict(db, t), env, Some(t))
    decreases q, 1
  {
    var own, pins := Restrict(db, t), QueryPins(q, t.columns);
    var p := PinSet(pins, t.ws);
    BoundMeans(q, t, db, env);
    CondMeans(q.where, t, db);
    RewriteKeepsFromPins(q.froms, t);
    RewriteKeepsJoinPins(q.joins, t);
    PinningMeans(RewriteCond(q.where, t), pins, t.ws, db);
    var bound := BindJoins(RewriteJoins(q.joins, t), db, env, None,
                           BindFroms(RewriteItems(q.froms, t), db, env, None, [env]), FromRefs(q.froms));
    AmongTwice(bound, p, Truth(q.where, own, Some(t)));
  }

  lemma {:induction false} BoundMeans(q: Query, t: Tenancy, db: Db, env: Env)
    requires Apart(q)
    ensures var p := PinSet(QueryPins(q, t.columns), t.ws);
            Among(BindJoins(RewriteJoins(q.joins, t), db, env, None,
                            BindFroms(RewriteItems(q.froms, t), db, env, None, [env]), FromRefs(q.froms)), p)
              == Among(BindJoins(q.joins, Restrict(db, t), env, Some(t),
                                 BindFroms(q.froms, Restrict(db, t), env, Some(t), [env]), FromRefs(q.froms)), p)
    decreases q, 0
  {
    FromPinsWithin(q.froms, t.columns);
    assert [] + FromPins(q.froms, t.columns) == FromPins(q.froms, t.columns);
    NoRepeatsFront(FromRefs(q.froms), JoinRefs(q.joins));
    FromsMean(q.froms, t, db, env, [env], [env], [], []);
    JoinsMean(q.joins, t, db, env, BindFroms(RewriteItems(q.froms, t), db, env, None, [env]),
              BindFroms(q.froms, Restrict(db, t), env, Some(t), [env]), FromPins(q.froms, t.columns),
              FromRefs(q.froms));
  }

  lemma NoRepeatsFront(a: seq<string>, b: seq<string>)
    requires NoRepeats(a + b)
    ensures NoRepeats([] + a)
  {
    assert forall i :: 0 <= i < |a| ==> (a + b)[i] == ([] + a)[i];
  }

  /** The exact meaning, for every kind of join. */
  lemma {:induction false} QueryMeans(q: Query, t: Tenancy, db: Db, env: Env)
    requires Apart(q)
    ensures Run(RewriteQuery(q, t), db, env, None) == Run(q, Restrict(db, t), env, Some(t))
    decreases q, 2
  {
    PassingMeans(q, t, db, env);
    ProjectMeans(q.cols, t, db, Passing(q, Restrict(db, t), env, Some(t)));
  }

  /** Whatever the joins, the answer depends on the workspace's rows only. */
  lemma DependsOnOwnRows(q: Query, t: Tenancy, db: Db, other: Db, env: Env)
    requires Apart(q) && Restrict(db, t) == Restrict(other, t)
    ensures Run(RewriteQuery(q, t), db, env, None) == Run(RewriteQuery(q, t), other, env, None)
  {
    QueryMeans(q, t, db, env);
    QueryMeans(q, t, other, env);
  }
}
