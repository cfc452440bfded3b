/** Lost-update safety of a hash-stamped diff on a list that changed meanwhile
    (packages/blocks/src/ops.ts, `expect_prior_content_hash`). */
module LostUpdate {
  import opened BlockModel
  import opened BlockOps
  import opened BlockDiff
  import opened Lcs
  import opened Options
  import opened RoundTrip

  /** The block an op updates or removes. */
  function Touches(op: Op): set<string> { if op.Insert? then {} else {op.id} }

  function AllTouched(ops: seq<Op>): set<string> {
    if ops == [] then {} else Touches(ops[0]) + AllTouched(ops[1..])
  }

  /** No block is updated or removed twice. */
  predicate TouchOnce(ops: seq<Op>) {
    ops == [] || (Touches(ops[0]) !! AllTouched(ops[1..]) && TouchOnce(ops[1..]))
  }

  /** The first block of that id. */
  function Lookup(bs: seq<Block>, id: string): Option<Block> {
    if bs == [] then None else if bs[0].id == id then Some(bs[0]) else Lookup(bs[1..], id)
  }

  lemma {:induction false} LookupIsFind(bs: seq<Block>, id: string)
    ensures Lookup(bs, id) == if FindIndex(bs, id) < |bs| then Some(bs[FindIndex(bs, id)]) else None
  {
    if bs != [] { LookupIsFind(bs[1..], id); }
  }

  lemma {:induction false} LookupConcat(a: seq<Block>, b: seq<Block>, id: string)
    ensures Lookup(a + b, id) == if Lookup(a, id).Some? then Lookup(a, id) else Lookup(b, id)
  {
    if a == [] {
      assert a + b == b;
    } else {
      assert (a + b)[0] == a[0] && (a + b)[1..] == a[1..] + b;
      LookupConcat(a[1..], b, id);
    }
  }

  /** Blocks outside `ids`, in order. */
  function Outside(bs: seq<Block>, ids: set<string>): seq<Block> {
    if bs == [] then [] else (if bs[0].id in ids then [] else [bs[0]]) + Outside(bs[1..], ids)
  }

  lemma {:induction false} OutsideConcat(a: seq<Block>, b: seq<Block>, ids: set<string>)
    ensures Outside(a + b, ids) == Outside(a, ids) + Outside(b, ids)
  {
    if a == [] {
      assert a + b == b;
    } else {
      assert (a + b)[0] == a[0] && (a + b)[1..] == a[1..] + b;
      OutsideConcat(a[1..], b, ids);
    }
  }

  lemma SplitAt(bs: seq<Block>, i: nat)
    requires i < |bs|
    ensures bs == bs[..i] + ([bs[i]] + bs[i + 1..])
  {
  }

  /** `q` is `p` with at most one block, named `id`, replaced by at most one of that name. */
  ghost predicate Replaces(p: seq<Block>, q: seq<Block>, front: seq<Block>, x: seq<Block>, y: seq<Block>,
                           rest: seq<Block>, id: string)
  {
    && p == front + (x + rest) && q == front + (y + rest) && |x| <= 1 && |y| <= 1
    && (x != [] ==> x[0].id == id) && (y != [] ==> y[0].id == id)
  }

  lemma InsertShape(p: Progress, op: Op, deps: Deps) returns (front: seq<Block>, y: seq<Block>, rest: seq<Block>)
    requires op.Insert? && ApplyInsert(p, op, deps).Ok?
    ensures Replaces(p.blocks, ApplyInsert(p, op, deps).value.blocks, front, [], y, rest, deps.mint(p.minted))
  {
    var i := InsertIndex(p.blocks, op.after).value;
    front, y, rest := p.blocks[..i], [InsertBlock(op, deps.mint(p.minted)).value], p.blocks[i..];
    assert front + y + rest == front + (y + rest) && p.blocks == front + ([] + rest);
  }

  lemma TargetShape(bs: seq<Block>, i: nat, y: seq<Block>) returns (front: seq<Block>, x: seq<Block>, rest: seq<Block>)
    requires i < |bs| && |y| <= 1 && (y != [] ==> y[0].id == bs[i].id)
    ensures y == [] ==> Replaces(bs, bs[..i] + bs[i + 1..], front, x, y, rest, bs[i].id)
    ensures y != [] ==> Replaces(bs, bs[i := y[0]], front, x, y, rest, bs[i].id)
  {
    SplitAt(bs, i);
    front, x, rest := bs[..i], [bs[i]], bs[i + 1..];
    assert y == [] ==> y + rest == rest;
    assert y != [] ==> bs[i := y[0]] == front + (y + rest);
  }

  /** Every op replaces at most one block, of the id it names or mints, by at most one. */
  lemma OpShape(p: Progress, op: Op, deps: Deps)
    returns (front: seq<Block>, x: seq<Block>, y: seq<Block>, rest: seq<Block>)
    requires ApplyOp(p, op, deps).Ok?
    ensures Replaces(p.blocks, ApplyOp(p, op, deps).value.blocks, front, x, y, rest,
                     if op.Insert? then deps.mint(p.minted) else op.id)
  {
    if op.Insert? {
      x := [];
      front, y, rest := InsertShape(p, op, deps);
    } else {
      var i := FindIndex(p.blocks, op.id);
      y := if op.Update? then [Patched(p.blocks[i], op.patch).value] else [];
      front, x, rest := TargetShape(p.blocks, i, y);
    }
  }

  /** One op leaves every other block's first occurrence and the order of the rest alone. */
  lemma OpIsLocal(p: Progress, op: Op, deps: Deps, id: string, ids: set<string>)
    requires ApplyOp(p, op, deps).Ok?
    ensures var q := ApplyOp(p, op, deps).value;
            id !in Touches(op) && (op.Insert? ==> deps.mint(p.minted) != id) ==>
              Lookup(q.blocks, id) == Lookup(p.blocks, id)
    ensures var q := ApplyOp(p, op, deps).value;
            Touches(op) <= ids && (op.Insert? ==> deps.mint(p.minted) in ids) ==>
              Outside(q.blocks, ids) == Outside(p.blocks, ids)
    ensures ApplyOp(p, op, deps).value.minted == p.minted + if op.Insert? then 1 else 0
  {
    var front, x, y, rest := OpShape(p, op, deps);
    LocalChange(front, x, y, rest, id, ids);
  }

  /** Replacing a stretch of at most one block by another. */
  lemma LocalChange(front: seq<Block>, x: seq<Block>, y: seq<Block>, rest: seq<Block>, id: string, ids: set<string>)
    requires |x| <= 1 && |y| <= 1
    ensures (x != [] ==> x[0].id != id) && (y != [] ==> y[0].id != id) ==>
              Lookup(front + (x + rest), id) == Lookup(front + (y + rest), id)
    ensures (x != [] ==> x[0].id in ids) && (y != [] ==> y[0].id in ids) ==>
              Outside(front + (x + rest), ids) == Outside(front + (y + rest), ids)
  {
    LookupConcat(front, x + rest, id);
    LookupConcat(front, y + rest, id);
    LookupConcat(x, rest, id);
    LookupConcat(y, rest, id);
    OutsideConcat(front, x + rest, ids);
    OutsideConcat(front, y + rest, ids);
    OutsideConcat(x, rest, ids);
    OutsideConcat(y, rest, ids);
    assert x != [] ==> x[1..] == [];
    assert y != [] ==> y[1..] == [];
  }

  /** A stamped op that went through found its block exactly as it was loaded. */
  lemma TargetWasFresh(p: Progress, op: Op, deps: Deps)
    requires !op.Insert? && op.expect_.Some? && ApplyOp(p, op, deps).Ok?
    ensures Lookup(p.blocks, op.id).Some? && HashOf(Lookup(p.blocks, op.id).value) == op.expect_.value
  {
    LookupIsFind(p.blocks, op.id);
  }

  ghost predicate NeverMints(deps: Deps, ids: set<string>) { forall k :: deps.mint(k) !in ids }

  lemma {:induction false} TouchedIn(ops: seq<Op>, i: nat)
    requires i < |ops|
    ensures Touches(ops[i]) <= AllTouched(ops)
  {
    if i > 0 {
      assert ops[i] == ops[1..][i - 1];
      TouchedIn(ops[1..], i - 1);
    }
  }

  /** If a replay of stamped ops touching each block at most once goes through, every block it
      updated or removed still had its expected state in the list it started from. */
  lemma {:induction false} EveryTargetWasFresh(p: Progress, ops: seq<Op>, deps: Deps, i: nat)
    requires TouchOnce(ops) && NeverMints(deps, AllTouched(ops)) && ApplyOps(p, ops, deps).Ok?
    requires i < |ops| && !ops[i].Insert? && ops[i].expect_.Some?
    ensures Lookup(p.blocks, ops[i].id).Some? && HashOf(Lookup(p.blocks, ops[i].id).value) == ops[i].expect_.value
    decreases |ops|
  {
    if i == 0 {
      TargetWasFresh(p, ops[0], deps);
    } else {
      var q := ApplyOp(p, ops[0], deps).value;
      assert ops[i] == ops[1..][i - 1];
      TouchedIn(ops[1..], i - 1);
      EveryTargetWasFresh(q, ops[1..], deps, i - 1);
      OpIsLocal(p, ops[0], deps, ops[i].id, {});
    }
  }

  /** Blocks neither touched nor minted survive unchanged, in the same order. */
  lemma {:induction false} RestSurvives(p: Progress, ops: seq<Op>, deps: Deps, ids: set<string>)
    requires ApplyOps(p, ops, deps).Ok? && AllTouched(ops) <= ids
    requires forall k :: p.minted <= k < ApplyOps(p, ops, deps).value.minted ==> deps.mint(k) in ids
    ensures Outside(ApplyOps(p, ops, deps).value.blocks, ids) == Outside(p.blocks, ids)
    ensures p.minted <= ApplyOps(p, ops, deps).value.minted
    decreases |ops|
  {
    if ops != [] {
      var q := ApplyOp(p, ops[0], deps).value;
      MintedGrows(q, ops[1..], deps);
      OpIsLocal(p, ops[0], deps, "", ids);
      RestSurvives(q, ops[1..], deps, ids);
    }
  }

  lemma {:induction false} MintedGrows(p: Progress, ops: seq<Op>, deps: Deps)
    requires ApplyOps(p, ops, deps).Ok?
    ensures p.minted <= ApplyOps(p, ops, deps).value.minted
    decreases |ops|
  {
    if ops != [] {
      OpIsLocal(p, ops[0], deps, "", {});
      MintedGrows(ApplyOp(p, ops[0], deps).value, ops[1..], deps);
    }
  }

  // ---------------------------------------------------------------- the diff touches once

  lemma {:induction false} TouchedConcat(a: seq<Op>, b: seq<Op>)
    ensures AllTouched(a + b) == AllTouched(a) + AllTouched(b)
    ensures TouchOnce(a + b) <==> TouchOnce(a) && TouchOnce(b) && AllTouched(a) !! AllTouched(b)
  {
    if a == [] {
      assert a + b == b;
    } else {
      assert (a + b)[0] == a[0] && (a + b)[1..] == a[1..] + b;
      TouchedConcat(a[1..], b);
    }
  }

  lemma {:induction false} InsertsTouchNothing(stable: set<string>, after: seq<Block>, n: nat)
    requires n <= |after|
    ensures AllTouched(Inserts(stable, after, n)) == {} && TouchOnce(Inserts(stable, after, n))
  {
    if n > 0 {
      InsertsTouchNothing(stable, after, n - 1);
      TouchedConcat(if StableAt(stable, after, n - 1) then [] else [InsertFor(stable, after, n - 1)],
                    Inserts(stable, after, n - 1));
    }
  }

  lemma UpdateTouches(byId: map<string, Block>, block: Block, hashes: map<string, Hash>)
    ensures TouchOnce(UpdateFor(byId, block, hashes)) && AllTouched(UpdateFor(byId, block, hashes)) <= {block.id}
  {
    var ops := UpdateFor(byId, block, hashes);
    assert ops != [] ==> ops[1..] == [];
  }

  lemma {:induction false} UpdatesTouch(byId: map<string, Block>, stable: set<string>, after: seq<Block>,
                                        hashes: map<string, Hash>, n: nat)
    requires n <= |after|
    ensures var ops := Updates(byId, stable, after, hashes, n);
            TouchOnce(ops) && AllTouched(ops) <= stable && AllTouched(ops) <= set j | 0 <= j < n :: after[j].id
  {
    if n > 0 {
      UpdatesTouch(byId, stable, after, hashes, n - 1);
      UpdateTouches(byId, after[n - 1], hashes);
      var more := if StableAt(stable, after, n - 1) then UpdateFor(byId, after[n - 1], hashes) else [];
      TouchedConcat(Updates(byId, stable, after, hashes, n - 1), more);
    }
  }

  lemma {:induction false} RemovesTouch(afterIds: set<string>, stable: set<string>, before: seq<Block>,
                                        hashes: map<string, Hash>)
    requires Distinct(IdsOf(before)) && stable <= afterIds
    ensures var ops := Removes(afterIds, stable, before, hashes);
            TouchOnce(ops) && AllTouched(ops) !! stable && forall x :: x in AllTouched(ops) ==> x in IdsOf(before)
  {
    if before != [] {
      assert forall i :: 0 <= i < |before| - 1 ==> IdsOf(before[1..])[i] == IdsOf(before)[i + 1];
      RemovesTouch(afterIds, stable, before[1..], hashes);
      var one, rest := RemoveFor(afterIds, stable, before[0], hashes), Removes(afterIds, stable, before[1..], hashes);
      assert one != [] ==> one[1..] == [];
      assert IdsOf(before)[0] !in IdsOf(before[1..]);
      TouchedConcat(one, rest);
    }
  }

  /** The diff updates or removes each loaded block at most once, and no other. */
  lemma DiffTouchesOnce(before: seq<Block>, after: seq<Block>, hashes: map<string, Hash>)
    requires Distinct(IdsOf(before))
    ensures TouchOnce(Diff(before, after, hashes))
    ensures forall x :: x in AllTouched(Diff(before, after, hashes)) ==> x in IdsOf(before)
  {
    var stable := AsSet(StableIds(before, after));
    StableIsKnown(before, after);
    var u := Updates(ById(before), stable, after, hashes, |after|);
    var r := Removes(NonEmptyIds(after), stable, before, hashes);
    var i := Inserts(stable, after, |after|);
    UpdatesTouch(ById(before), stable, after, hashes, |after|);
    RemovesTouch(NonEmptyIds(after), stable, before, hashes);
    InsertsTouchNothing(stable, after, |after|);
    TouchedConcat(u, r);
    TouchedConcat(u + r, i);
  }

  /** Every update and remove carries the hash on file for its block. */
  ghost predicate Stamped(ops: seq<Op>, hashes: map<string, Hash>) {
    forall i :: 0 <= i < |ops| && !ops[i].Insert? ==> ops[i].expect_ == HashFor(hashes, ops[i].id)
  }

  lemma {:induction false} UpdatesStamped(byId: map<string, Block>, stable: set<string>, after: seq<Block>,
                                          hashes: map<string, Hash>, n: nat)
    requires n <= |after|
    ensures Stamped(Updates(byId, stable, after, hashes, n), hashes)
  {
    if n > 0 { UpdatesStamped(byId, stable, after, hashes, n - 1); }
  }

  lemma {:induction false} RemovesStamped(afterIds: set<string>, stable: set<string>, before: seq<Block>,
                                          hashes: map<string, Hash>)
    ensures Stamped(Removes(afterIds, stable, before, hashes), hashes)
  {
    if before != [] { RemovesStamped(afterIds, stable, before[1..], hashes); }
  }

  lemma {:induction false} InsertsStamped(stable: set<string>, after: seq<Block>, hashes: map<string, Hash>, n: nat)
    requires n <= |after|
    ensures Stamped(Inserts(stable, after, n), hashes)
  {
    if n > 0 { InsertsStamped(stable, after, hashes, n - 1); }
  }

  lemma DiffIsStamped(before: seq<Block>, after: seq<Block>, hashes: map<string, Hash>)
    ensures Stamped(Diff(before, after, hashes), hashes)
  {
    var stable := AsSet(StableIds(before, after));
    UpdatesStamped(ById(before), stable, after, hashes, |after|);
    RemovesStamped(NonEmptyIds(after), stable, before, hashes);
    InsertsStamped(stable, after, hashes, |after|);
  }

  /** The patch names exactly the fields in which the edited block differs from the loaded one. */
  predicate SaysWhatChanged(op: Op, loaded: Block, edited: Block) {
    && op.Update? && op.id == loaded.id == edited.id
    && (if edited.kind != loaded.kind then op.patch.kind == Some(edited.kind) else op.patch.kind.None?)
    && (if edited.props != loaded.props then op.patch.props == Some(edited.props) else op.patch.props.None?)
    && (if edited.content != loaded.content then op.patch.content == Some(Runs(edited.content))
        else op.patch.content.None?)
    && (edited.kind != loaded.kind || edited.props != loaded.props || edited.content != loaded.content)
  }

  lemma {:induction false} UpdatesSay(before: seq<Block>, stable: set<string>, after: seq<Block>,
                                      hashes: map<string, Hash>, n: nat, op: Op)
    requires Distinct(IdsOf(before)) && n <= |after| && op in Updates(ById(before), stable, after, hashes, n)
    ensures exists j, i :: 0 <= j < |before| && 0 <= i < n && SaysWhatChanged(op, before[j], after[i])
  {
    var front := Updates(ById(before), stable, after, hashes, n - 1);
    if op in front {
      UpdatesSay(before, stable, after, hashes, n - 1, op);
    } else {
      KnownIds(before);
      var j :| 0 <= j < |before| && IdsOf(before)[j] == after[n - 1].id;
      ByIdAt(before, j);
      assert SaysWhatChanged(op, before[j], after[n - 1]);
    }
  }

  lemma {:induction false} OnlyRemoves(afterIds: set<string>, stable: set<string>, before: seq<Block>,
                                       hashes: map<string, Hash>, op: Op)
    requires op in Removes(afterIds, stable, before, hashes)
    ensures op.Remove?
  {
    if op !in RemoveFor(afterIds, stable, before[0], hashes) {
      OnlyRemoves(afterIds, stable, before[1..], hashes, op);
    }
  }

  lemma {:induction false} OnlyInserts(stable: set<string>, after: seq<Block>, n: nat, op: Op)
    requires n <= |after| && op in Inserts(stable, after, n)
    ensures op.Insert?
  {
    if op in Inserts(stable, after, n - 1) { OnlyInserts(stable, after, n - 1, op); }
  }

  /** Every update of a diff names what changed and nothing else. */
  lemma DiffSaysWhatChanged(before: seq<Block>, after: seq<Block>, hashes: map<string, Hash>, op: Op)
    requires Distinct(IdsOf(before)) && op in Diff(before, after, hashes) && op.Update?
    ensures exists j, i :: 0 <= j < |before| && 0 <= i < |after| && SaysWhatChanged(op, before[j], after[i])
  {
    var stable := AsSet(StableIds(before, after));
    if op in Updates(ById(before), stable, after, hashes, |after|) {
      UpdatesSay(before, stable, after, hashes, |after|, op);
    } else if op in Removes(NonEmptyIds(after), stable, before, hashes) {
      OnlyRemoves(NonEmptyIds(after), stable, before, hashes, op);
    } else {
      OnlyInserts(stable, after, |after|, op);
    }
  }

  /** If a diff stamped with the hashes of `before` replays on a list that changed meanwhile, then
      every block it updated or removed still had its loaded type, props and content there, and all
      other blocks survive unchanged and in order. */
  lemma NoLostUpdate(before: seq<Block>, after: seq<Block>, current: seq<Block>, hashes: map<string, Hash>, deps: Deps,
                     m: nat, ids: set<string>)
    requires Distinct(IdsOf(before)) && NeverMints(deps, AsSet(IdsOf(before)))
    requires forall i :: 0 <= i < |before| ==> before[i].id in hashes && hashes[before[i].id] == HashOf(before[i])
    requires ApplyOps(Progress(current, [], m), Diff(before, after, hashes), deps).Ok?
    requires var post := ApplyOps(Progress(current, [], m), Diff(before, after, hashes), deps).value;
             AllTouched(Diff(before, after, hashes)) <= ids && forall k :: m <= k < post.minted ==> deps.mint(k) in ids
    ensures forall x :: x in AllTouched(Diff(before, after, hashes)) ==>
              exists j :: 0 <= j < |before| && before[j].id == x &&
                Lookup(current, x).Some? && HashOf(Lookup(current, x).value) == HashOf(before[j])
    ensures Outside(ApplyOps(Progress(current, [], m), Diff(before, after, hashes), deps).value.blocks, ids)
            == Outside(current, ids)
  {
    var ops, p := Diff(before, after, hashes), Progress(current, [], m);
    DiffTouchesOnce(before, after, hashes);
    DiffIsStamped(before, after, hashes);
    RestSurvives(p, ops, deps, ids);
    forall x | x in AllTouched(ops)
      ensures exists j :: 0 <= j < |before| && before[j].id == x &&
                Lookup(current, x).Some? && HashOf(Lookup(current, x).value) == HashOf(before[j])
    {
      var i := TouchedBy(ops, x);
      var j :| 0 <= j < |before| && IdsOf(before)[j] == x;
      assert before[j].id == x;
      EveryTargetWasFresh(p, ops, deps, i);
    }
  }

  lemma {:induction false} TouchedBy(ops: seq<Op>, x: string) returns (i: nat)
    requires x in AllTouched(ops)
    ensures i < |ops| && !ops[i].Insert? && ops[i].id == x
  {
    if x in Touches(ops[0]) {
      i := 0;
    } else {
      i := TouchedBy(ops[1..], x);
      i := i + 1;
    }
  }
}
