/** How joins behave when one side of the world holds more rows than the other: filtering the result
    of a join by the pinned references commutes with filtering its inputs. */
module JoinAlgebra {
  import opened Sql

  // ---------------------------------------------------------------- filtering

  lemma {:induction false} AmongConcat(x: seq<Env>, y: seq<Env>, ok: iset<Env>)
    ensures Among(x + y, ok) == Among(x, ok) + Among(y, ok)
  {
    if x == [] {
      assert x + y == y;
    } else {
      assert (x + y)[0] == x[0] && (x + y)[1..] == x[1..] + y;
      AmongConcat(x[1..], y, ok);
      var head := if x[0] in ok then [x[0]] else [];
      assert head + (Among(x[1..], ok) + Among(y, ok)) == head + Among(x[1..], ok) + Among(y, ok);
    }
  }

  lemma {:induction false} AmongTwice(bs: seq<Env>, a: iset<Env>, b: iset<Env>)
    ensures Among(Among(bs, a), b) == Among(bs, a * b)
  {
    if bs != [] {
      AmongTwice(bs[1..], a, b);
      AmongConcat(if bs[0] in a then [bs[0]] else [], Among(bs[1..], a), b);
    }
  }

  ghost predicate AllIn(bs: seq<Env>, ok: iset<Env>) { forall i :: 0 <= i < |bs| ==> bs[i] in ok }

  lemma {:induction false} AmongAll(bs: seq<Env>, ok: iset<Env>)
    requires AllIn(bs, ok)
    ensures Among(bs, ok) == bs
  {
    if bs != [] {
      AmongAll(bs[1..], ok);
      assert [bs[0]] + bs[1..] == bs;
    }
  }

  ghost function RowsIn(rows: seq<Row>, good: iset<Row>): seq<Row> {
    if rows == [] then [] else (if rows[0] in good then [rows[0]] else []) + RowsIn(rows[1..], good)
  }

  lemma {:induction false} RowsInAll(rows: seq<Row>, good: iset<Row>)
    requires forall i :: 0 <= i < |rows| ==> rows[i] in good
    ensures RowsIn(rows, good) == rows
  {
    if rows != [] {
      RowsInAll(rows[1..], good);
      assert [rows[0]] + rows[1..] == rows;
    }
  }

  lemma RowsInCons(rows: seq<Row>, good: iset<Row>)
    requires rows != []
    ensures rows[0] !in good ==> RowsIn(rows, good) == RowsIn(rows[1..], good)
    ensures rows[0] in good ==> RowsIn(rows, good) != [] && RowsIn(rows, good)[0] == rows[0] &&
                                RowsIn(rows, good)[1..] == RowsIn(rows[1..], good)
  {
    assert [] + RowsIn(rows[1..], good) == RowsIn(rows[1..], good);
  }

  // ---------------------------------------------------------------- one join

  /** `q` asks of a binding what `p` asks of it before `ref` was bound, and that `ref` holds a good row. */
  ghost predicate Grows(p: iset<Env>, q: iset<Env>, ref: string, good: iset<Row>) {
    forall b: Env, r: Row :: GrowsAt(p, q, ref, good, b, r)
  }

  ghost predicate GrowsAt(p: iset<Env>, q: iset<Env>, ref: string, good: iset<Row>, b: Env, r: Row) {
    b[ref := r] in q <==> b in p && r in good
  }

  ghost predicate AllGood(good: iset<Row>) { forall r: Row :: r in good }

  ghost predicate AllPass(p: iset<Env>) { forall b: Env :: b in p }

  /** A null row is either never good, or goodness is no restriction. */
  ghost predicate NullRowSafe(kind: JoinKind, good: iset<Row>) {
    kind.LeftOuter? || kind.FullOuter? ==> map[] !in good || AllGood(good)
  }

  ghost predicate NullEnvSafe(kind: JoinKind, nulls: Env, p: iset<Env>) {
    kind.RightOuter? || kind.FullOuter? ==> nulls !in p || AllPass(p)
  }

  lemma {:induction false} MatchesKept(b: Env, ref: string, rows: seq<Row>, ok: iset<Env>, p: iset<Env>, q: iset<Env>,
                                       good: iset<Row>)
    requires Grows(p, q, ref, good)
    ensures Among(Matches(b, ref, rows, ok), q) == if b in p then Matches(b, ref, RowsIn(rows, good), ok) else []
  {
    if rows != [] {
      MatchesKept(b, ref, rows[1..], ok, p, q, good);
      var next := b[ref := rows[0]];
      AmongConcat(if next in ok then [next] else [], Matches(b, ref, rows[1..], ok), q);
      assert GrowsAt(p, q, ref, good, b, rows[0]);
      RowsInCons(rows, good);
    }
  }

  lemma ExtendKept(kind: JoinKind, b: Env, ref: string, rows: seq<Row>, ok: iset<Env>, p: iset<Env>, q: iset<Env>,
                   good: iset<Row>)
    requires Grows(p, q, ref, good) && (b !in p || map[] !in good)
    ensures Among(Extend(kind, b, ref, rows, ok), q) == if b in p then Matches(b, ref, RowsIn(rows, good), ok) else []
  {
    MatchesKept(b, ref, rows, ok, p, q, good);
    assert GrowsAt(p, q, ref, good, b, map[]);
    assert Among([b[ref := map[]]], q) == [];
  }

  lemma ExtendAgrees(kind: JoinKind, b: Env, ref: string, rows: seq<Row>, own: seq<Row>, ok: iset<Env>, p: iset<Env>,
                     q: iset<Env>, good: iset<Row>)
    requires Grows(p, q, ref, good) && NullRowSafe(kind, good) && RowsIn(rows, good) == RowsIn(own, good)
    ensures Among(Extend(kind, b, ref, rows, ok), q) == Among(Extend(kind, b, ref, own, ok), q)
  {
    if AllGood(good) {
      RowsInAll(rows, good);
      RowsInAll(own, good);
    } else if b in p && map[] in good {
      MatchesKept(b, ref, rows, ok, p, q, good);
      MatchesKept(b, ref, own, ok, p, q, good);
    } else {
      ExtendKept(kind, b, ref, rows, ok, p, q, good);
      ExtendKept(kind, b, ref, own, ok, p, q, good);
    }
  }

  lemma {:induction false} ExtendAllAgree(kind: JoinKind, bs: seq<Env>, ref: string, rows: seq<Row>, own: seq<Row>,
                                          ok: iset<Env>, p: iset<Env>, q: iset<Env>, good: iset<Row>)
    requires Grows(p, q, ref, good) && NullRowSafe(kind, good) && RowsIn(rows, good) == RowsIn(own, good)
    ensures Among(ExtendAll(kind, bs, ref, rows, ok), q) == Among(ExtendAll(kind, bs, ref, own, ok), q)
  {
    if bs != [] {
      ExtendAllAgree(kind, bs[1..], ref, rows, own, ok, p, q, good);
      ExtendAgrees(kind, bs[0], ref, rows, own, ok, p, q, good);
      AmongConcat(Extend(kind, bs[0], ref, rows, ok), ExtendAll(kind, bs[1..], ref, rows, ok), q);
      AmongConcat(Extend(kind, bs[0], ref, own, ok), ExtendAll(kind, bs[1..], ref, own, ok), q);
    }
  }

  /** Left bindings outside `p` contribute nothing. */
  lemma {:induction false} ExtendAllKept(kind: JoinKind, bs: seq<Env>, ref: string, rows: seq<Row>, ok: iset<Env>,
                                         p: iset<Env>, q: iset<Env>, good: iset<Row>)
    requires Grows(p, q, ref, good)
    ensures Among(ExtendAll(kind, bs, ref, rows, ok), q) == Among(ExtendAll(kind, Among(bs, p), ref, rows, ok), q)
  {
    if bs != [] {
      ExtendAllKept(kind, bs[1..], ref, rows, ok, p, q, good);
      var first, rest := Extend(kind, bs[0], ref, rows, ok), Among(bs[1..], p);
      AmongConcat(first, ExtendAll(kind, bs[1..], ref, rows, ok), q);
      AmongConcat(first, ExtendAll(kind, rest, ref, rows, ok), q);
      if bs[0] in p {
        assert ([bs[0]] + rest)[1..] == rest;
      } else {
        ExtendKept(kind, bs[0], ref, rows, ok, p, q, good);
        assert [] + rest == rest;
      }
    }
  }

  lemma {:induction false} UnmatchedKept(bs: seq<Env>, nulls: Env, ref: string, rows: seq<Row>, ok: iset<Env>,
                                         p: iset<Env>, q: iset<Env>, good: iset<Row>)
    requires Grows(p, q, ref, good)
    ensures Among(Unmatched(bs, nulls, ref, rows, ok), q)
         == if nulls in p then Unmatched(bs, nulls, ref, RowsIn(rows, good), ok) else []
  {
    if rows != [] {
      UnmatchedKept(bs, nulls, ref, rows[1..], ok, p, q, good);
      var next := nulls[ref := rows[0]];
      AmongConcat(if Matched(bs, ref, rows[0], ok) then [] else [next], Unmatched(bs, nulls, ref, rows[1..], ok), q);
      assert GrowsAt(p, q, ref, good, nulls, rows[0]);
      RowsInCons(rows, good);
    }
  }

  /** One join over the whole database and over the workspace's share of it agree on the bindings
      whose pinned references hold the workspace's rows. */
  lemma JoinStepAgrees(kind: JoinKind, bs: seq<Env>, mine: seq<Env>, nulls: Env, ref: string, rows: seq<Row>,
                       own: seq<Row>,
                       ok: iset<Env>, p: iset<Env>, q: iset<Env>, good: iset<Row>)
    requires Grows(p, q, ref, good) && NullRowSafe(kind, good) && NullEnvSafe(kind, nulls, p)
    requires RowsIn(rows, good) == RowsIn(own, good) && Among(bs, p) == Among(mine, p)
    ensures Among(JoinStep(kind, bs, nulls, ref, rows, ok), q) == Among(JoinStep(kind, mine, nulls, ref, own, ok), q)
  {
    ExtendAllKept(kind, bs, ref, rows, ok, p, q, good);
    ExtendAllKept(kind, mine, ref, own, ok, p, q, good);
    ExtendAllAgree(kind, Among(mine, p), ref, rows, own, ok, p, q, good);
    if kind.RightOuter? || kind.FullOuter? {
      UnmatchedAgree(bs, mine, nulls, ref, rows, own, ok, p, q, good);
      AmongConcat(ExtendAll(kind, bs, ref, rows, ok), Unmatched(bs, nulls, ref, rows, ok), q);
      AmongConcat(ExtendAll(kind, mine, ref, own, ok), Unmatched(mine, nulls, ref, own, ok), q);
    } else {
      assert ExtendAll(kind, bs, ref, rows, ok) + [] == ExtendAll(kind, bs, ref, rows, ok);
      assert ExtendAll(kind, mine, ref, own, ok) + [] == ExtendAll(kind, mine, ref, own, ok);
    }
  }

  lemma UnmatchedAgree(bs: seq<Env>, mine: seq<Env>, nulls: Env, ref: string, rows: seq<Row>, own: seq<Row>,
                       ok: iset<Env>, p: iset<Env>, q: iset<Env>, good: iset<Row>)
    requires Grows(p, q, ref, good) && (nulls !in p || AllPass(p))
    requires RowsIn(rows, good) == RowsIn(own, good) && Among(bs, p) == Among(mine, p)
    ensures Among(Unmatched(bs, nulls, ref, rows, ok), q) == Among(Unmatched(mine, nulls, ref, own, ok), q)
  {
    UnmatchedKept(bs, nulls, ref, rows, ok, p, q, good);
    UnmatchedKept(mine, nulls, ref, own, ok, p, q, good);
    if nulls in p {
      AmongAll(bs, p);
      AmongAll(mine, p);
    }
  }

  // ---------------------------------------------------------------- staying inside

  lemma {:induction false} MatchesInside(b: Env, ref: string, rows: seq<Row>, ok: iset<Env>, p: iset<Env>, q: iset<Env>,
                                         good: iset<Row>)
    requires Grows(p, q, ref, good) && b in p && forall i :: 0 <= i < |rows| ==> rows[i] in good
    ensures AllIn(Matches(b, ref, rows, ok), q)
  {
    if rows != [] {
      MatchesInside(b, ref, rows[1..], ok, p, q, good);
      assert GrowsAt(p, q, ref, good, b, rows[0]);
    }
  }

  lemma {:induction false} ExtendAllInside(kind: JoinKind, bs: seq<Env>, ref: string, rows: seq<Row>, ok: iset<Env>,
                                           p: iset<Env>, q: iset<Env>, good: iset<Row>)
    requires Grows(p, q, ref, good) && AllIn(bs, p) && forall i :: 0 <= i < |rows| ==> rows[i] in good
    requires kind.LeftOuter? || kind.FullOuter? ==> map[] in good
    ensures AllIn(ExtendAll(kind, bs, ref, rows, ok), q)
  {
    if bs != [] {
      ExtendAllInside(kind, bs[1..], ref, rows, ok, p, q, good);
      MatchesInside(bs[0], ref, rows, ok, p, q, good);
      assert GrowsAt(p, q, ref, good, bs[0], map[]);
      assert AllIn(Extend(kind, bs[0], ref, rows, ok), q);
    }
  }

  lemma {:induction false} UnmatchedInside(bs: seq<Env>, nulls: Env, ref: string, rows: seq<Row>, ok: iset<Env>,
                                           p: iset<Env>, q: iset<Env>, good: iset<Row>)
    requires Grows(p, q, ref, good) && nulls in p && forall i :: 0 <= i < |rows| ==> rows[i] in good
    ensures AllIn(Unmatched(bs, nulls, ref, rows, ok), q)
  {
    if rows != [] {
      UnmatchedInside(bs, nulls, ref, rows[1..], ok, p, q, good);
      assert GrowsAt(p, q, ref, good, nulls, rows[0]);
    }
  }

  lemma JoinStepInside(kind: JoinKind, bs: seq<Env>, nulls: Env, ref: string, rows: seq<Row>, ok: iset<Env>,
                       p: iset<Env>, q: iset<Env>, good: iset<Row>)
    requires Grows(p, q, ref, good) && AllIn(bs, p) && forall i :: 0 <= i < |rows| ==> rows[i] in good
    requires kind.LeftOuter? || kind.FullOuter? ==> map[] in good
    requires kind.RightOuter? || kind.FullOuter? ==> nulls in p
    ensures AllIn(JoinStep(kind, bs, nulls, ref, rows, ok), q)
  {
    ExtendAllInside(kind, bs, ref, rows, ok, p, q, good);
    if kind.RightOuter? || kind.FullOuter? {
      UnmatchedInside(bs, nulls, ref, rows, ok, p, q, good);
    }
  }
}
