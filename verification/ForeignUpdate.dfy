/** Accepting a foreign update (packages/sync/src/foreign-update.ts): the order of its checks, the
    duplicate scan with its shared set, and the id repair. The Yjs document is given by what the
    source observes of it after the apply. */
module ForeignUpdate {
  import opened BlockModel
  import opened BlockOps
  import opened Lcs
  import opened Options

  // ---------------------------------------------------------------- preorder

  /** All ids, depth first. */
  function Preorder(bs: seq<Block>): seq<string> {
    if bs == [] then [] else [bs[0].id] + Preorder(bs[0].children) + Preorder(bs[1..])
  }

  function NonEmpty(ids: seq<string>): seq<string> {
    if ids == [] then [] else (if ids[0] == "" then [] else [ids[0]]) + NonEmpty(ids[1..])
  }

  lemma {:induction false} NonEmptyConcat(a: seq<string>, b: seq<string>)
    ensures NonEmpty(a + b) == NonEmpty(a) + NonEmpty(b)
  {
    if a == [] {
      assert a + b == b;
    } else {
      assert (a + b)[0] == a[0] && (a + b)[1..] == a[1..] + b;
      NonEmptyConcat(a[1..], b);
    }
  }

  // ---------------------------------------------------------------- the duplicate scan

  /** The first id that repeats an earlier one or a member of `seen`. */
  function FirstRepeat(ids: seq<string>, seen: set<string>): Option<string> {
    if ids == [] then None else if ids[0] in seen then Some(ids[0]) else FirstRepeat(ids[1..], seen + {ids[0]})
  }

  function ElementsOf(ids: seq<string>): set<string> { set x | x in ids }

  lemma {:induction false} FirstRepeatConcat(a: seq<string>, b: seq<string>, seen: set<string>)
    ensures FirstRepeat(a + b, seen)
         == if FirstRepeat(a, seen).Some? then FirstRepeat(a, seen) else FirstRepeat(b, seen + ElementsOf(a))
  {
    if a == [] {
      assert a + b == b && seen + ElementsOf(a) == seen;
    } else {
      assert (a + b)[0] == a[0] && (a + b)[1..] == a[1..] + b;
      FirstRepeatConcat(a[1..], b, seen + {a[0]});
      assert seen + {a[0]} + ElementsOf(a[1..]) == seen + ElementsOf(a);
    }
  }

  /** The `seen` set the recursive calls share. */
  class SeenIds {
    var ids: set<string>

    constructor ()
      ensures ids == {}
    {
      ids := {};
    }
  }

  method FindDuplicateId(blocks: seq<Block>, seen: SeenIds) returns (dup: Option<string>)
    modifies seen
    ensures dup == FirstRepeat(NonEmpty(Preorder(blocks)), old(seen.ids))
    ensures dup.None? ==> seen.ids == old(seen.ids) + ElementsOf(NonEmpty(Preorder(blocks)))
    decreases blocks
  {
    ghost var done: seq<string> := [];
    ghost var start := seen.ids;
    for i := 0 to |blocks|
      invariant done + NonEmpty(Preorder(blocks[i..])) == NonEmpty(Preorder(blocks))
      invariant FirstRepeat(done, start).None? && seen.ids == start + ElementsOf(done)
    {
      var block := blocks[i];
      ghost var id, inner, rest := NonEmpty([block.id]), NonEmpty(Preorder(block.children)),
      NonEmpty(Preorder(blocks[i + 1..]));
      PreorderStep(blocks, i);
      ScanStep(done, id, inner, rest, start);
      if block.id != "" {
        if block.id in seen.ids { return Some(block.id); }
        seen.ids := seen.ids + {block.id};
      }
      assert seen.ids == start + ElementsOf(done + id);
      var nested := FindDuplicateId(block.children, seen);
      if nested.Some? { return nested; }
      done := done + id + inner;
    }
    assert done + [] == done;
    return None;
  }

  /** Scanning `done` without a hit, then one block, then its children, then the rest. */
  lemma ScanStep(done: seq<string>, id: seq<string>, inner: seq<string>, rest: seq<string>, start: set<string>)
    requires FirstRepeat(done, start).None? && |id| <= 1
    ensures done + (id + inner + rest) == done + id + inner + rest
    ensures start + ElementsOf(done + id) == start + ElementsOf(done) + ElementsOf(id)
    ensures start + ElementsOf(done + id + inner) == start + ElementsOf(done + id) + ElementsOf(inner)
    ensures id != [] && id[0] in start + ElementsOf(done) ==>
            FirstRepeat(done + (id + inner + rest), start) == Some(id[0])
    ensures (id != [] ==> id[0] !in start + ElementsOf(done)) ==>
              var hit := FirstRepeat(inner, start + ElementsOf(done + id));
              if hit.Some? then FirstRepeat(done + (id + inner + rest), start) == hit
              else FirstRepeat(done + id + inner, start).None?
  {
    var s1 := start + ElementsOf(done);
    assert done + (id + inner + rest) == done + (id + (inner + rest)) == done + id + inner + rest;
    assert id != [] ==> id[1..] == [];
    FirstRepeatConcat(done, id + (inner + rest), start);
    FirstRepeatConcat(id, inner + rest, s1);
    FirstRepeatConcat(inner, rest, s1 + ElementsOf(id));
    FirstRepeatConcat(done + id, inner, start);
    FirstRepeatConcat(done, id, start);
    assert s1 + ElementsOf(id) == start + ElementsOf(done + id);
  }

  lemma PreorderStep(blocks: seq<Block>, i: nat)
    requires i < |blocks|
    ensures NonEmpty(Preorder(blocks[i..]))
         == NonEmpty([blocks[i].id]) + NonEmpty(Preorder(blocks[i].children)) + NonEmpty(Preorder(blocks[i + 1..]))
  {
    assert blocks[i..][0] == blocks[i] && blocks[i..][1..] == blocks[i + 1..];
    NonEmptyConcat([blocks[i].id], Preorder(blocks[i].children));
    NonEmptyConcat([blocks[i].id] + Preorder(blocks[i].children), Preorder(blocks[i + 1..]));
  }

  /** Nothing is reported exactly when the ids are pairwise distinct and new; otherwise the report
      is the first repeated id. */
  lemma {:induction false} FirstRepeatIs(ids: seq<string>, seen: set<string>)
    ensures FirstRepeat(ids, seen).None? <==> Distinct(ids) && forall i :: 0 <= i < |ids| ==> ids[i] !in seen
    ensures FirstRepeat(ids, seen).Some? ==>
              exists k :: 0 <= k < |ids| && ids[k] == FirstRepeat(ids, seen).value &&
                (ids[k] in seen || ids[k] in ids[..k]) &&
                Distinct(ids[..k]) && forall i :: 0 <= i < k ==> ids[i] !in seen
  {
    if ids != [] && ids[0] !in seen {
      FirstRepeatIs(ids[1..], seen + {ids[0]});
      if FirstRepeat(ids[1..], seen + {ids[0]}).None? {
        assert forall i :: 1 <= i < |ids| ==> ids[i] == ids[1..][i - 1];
      } else {
        var k :| 0 <= k < |ids[1..]| && ids[1..][k] == FirstRepeat(ids, seen).value &&
                 (ids[1..][k] in seen + {ids[0]} || ids[1..][k] in ids[1..][..k]) &&
                 Distinct(ids[1..][..k]) && forall i :: 0 <= i < k ==> ids[1..][i] !in seen + {ids[0]};
        RepeatShifts(ids, seen, k);
      }
    } else if ids != [] {
      assert Distinct(ids[..0]);
    }
  }

  lemma RepeatShifts(ids: seq<string>, seen: set<string>, k: nat)
    requires k < |ids| - 1 && ids[0] !in seen
    requires ids[1..][k] in seen + {ids[0]} || ids[1..][k] in ids[1..][..k]
    requires Distinct(ids[1..][..k]) && forall i :: 0 <= i < k ==> ids[1..][i] !in seen + {ids[0]}
    ensures ids[k + 1] in seen || ids[k + 1] in ids[..k + 1]
    ensures Distinct(ids[..k + 1]) && forall i :: 0 <= i < k + 1 ==> ids[i] !in seen
    ensures !Distinct(ids) || ids[k + 1] in seen
  {
    var front := ids[..k + 1];
    assert front == [ids[0]] + ids[1..][..k];
    forall i | 1 <= i < k + 1 ensures ids[i] !in seen && ids[i] != ids[0] { assert ids[i] == ids[1..][i - 1]; }
    if ids[k + 1] in front {
      var j :| 0 <= j < k + 1 && front[j] == ids[k + 1];
      assert ids[j] == ids[k + 1];
    }
  }

  // ---------------------------------------------------------------- the repair

  /** How many blocks have no id. */
  function Missing(ids: seq<string>): nat {
    if ids == [] then 0 else (if ids[0] == "" then 1 else 0) + Missing(ids[1..])
  }

  /** How many ids a block and everything below it lack. */
  function Gaps(b: Block): nat { Missing([b.id]) + Missing(Preorder(b.children)) }

  function Repair(bs: seq<Block>, mint: nat -> string, k: nat): seq<Block> {
    if bs == [] then [] else [Entry(bs[0], mint, k)] + Repair(bs[1..], mint, k + Gaps(bs[0]))
  }

  /** How one entry is repaired. */
  function Entry(b: Block, mint: nat -> string, k: nat): Block {
    b.(id := if b.id == "" then mint(k) else b.id, children := Repair(b.children, mint, k + Missing([b.id])))
  }

  /** The minted ids that are recorded: all of them, unless the minter returns the empty id. */
  function MintedFrom(mint: nat -> string, k: nat, n: nat): seq<string>
    decreases n
  {
    if n == 0 then [] else (if mint(k) == "" then [] else [mint(k)]) + MintedFrom(mint, k + 1, n - 1)
  }

  lemma {:induction false} MissingConcat(a: seq<string>, b: seq<string>)
    ensures Missing(a + b) == Missing(a) + Missing(b)
  {
    if a == [] {
      assert a + b == b;
    } else {
      assert (a + b)[0] == a[0] && (a + b)[1..] == a[1..] + b;
      MissingConcat(a[1..], b);
    }
  }

  lemma {:induction false} MintedConcat(mint: nat -> string, k: nat, n: nat, m: nat)
    ensures MintedFrom(mint, k, n + m) == MintedFrom(mint, k, n) + MintedFrom(mint, k + n, m)
    decreases n
  {
    if n > 0 { MintedConcat(mint, k + 1, n - 1, m); }
  }

  class MintedIds {
    var ids: seq<string>

    constructor ()
      ensures ids == []
    {
      ids := [];
    }
  }

  method MintMissingIds(blocks: seq<Block>, minter: Minter, minted: MintedIds) returns (out: seq<Block>)
    modifies minter, minted
    ensures out == Repair(blocks, minter.stream, old(minter.used))
    ensures minter.used == old(minter.used) + Missing(Preorder(blocks))
    ensures minted.ids == old(minted.ids) + MintedFrom(minter.stream, old(minter.used), Missing(Preorder(blocks)))
    decreases blocks
  {
    if blocks == [] { return []; }
    ghost var k := minter.used;
    MissingCons(blocks);
    MintedCons(blocks, minted.ids, minter.stream, k);
    var entry := MintInBlock(blocks[0], minter, minted);
    var rest := MintMissingIds(blocks[1..], minter, minted);
    out := [entry] + rest;
  }

  /** The callback of the map: one block and, below it, its children. */
  method MintInBlock(block: Block, minter: Minter, minted: MintedIds) returns (entry: Block)
    modifies minter, minted
    ensures entry == Entry(block, minter.stream, old(minter.used))
    ensures minter.used == old(minter.used) + Gaps(block)
    ensures minted.ids == old(minted.ids) + MintedFrom(minter.stream, old(minter.used), Gaps(block))
    decreases block
  {
    ghost var k, one := minter.used, Missing([block.id]);
    MintedTwice(minted.ids, minter.stream, k, one, Missing(Preorder(block.children)));
    var id := IdFor(block.id, minter, minted);
    var children := MintMissingIds(block.children, minter, minted);
    entry := block.(id := id, children := children);
  }

  /** The id a block keeps or is given; a given one is recorded. */
  method IdFor(current: string, minter: Minter, minted: MintedIds) returns (id: string)
    modifies minter, minted
    ensures id == (if current == "" then minter.stream(old(minter.used)) else current)
    ensures minter.used == old(minter.used) + Missing([current])
    ensures minted.ids == old(minted.ids) + MintedFrom(minter.stream, old(minter.used), Missing([current]))
  {
    id := current;
    if current == "" {
      id := minter.MintId();
    }
    if id != current {
      minted.ids := minted.ids + [id];
    }
  }

  lemma MintedTwice(front: seq<string>, mint: nat -> string, k: nat, n: nat, m: nat)
    ensures front + MintedFrom(mint, k, n + m) == front + MintedFrom(mint, k, n) + MintedFrom(mint, k + n, m)
  {
    MintedConcat(mint, k, n, m);
  }

  lemma MissingCons(blocks: seq<Block>)
    requires blocks != []
    ensures Missing(Preorder(blocks)) == Gaps(blocks[0]) + Missing(Preorder(blocks[1..]))
  {
    var b := blocks[0];
    MissingConcat([b.id], Preorder(b.children));
    MissingConcat([b.id] + Preorder(b.children), Preorder(blocks[1..]));
  }

  lemma MintedCons(blocks: seq<Block>, front: seq<string>, mint: nat -> string, k: nat)
    requires blocks != []
    ensures var gaps, others := Gaps(blocks[0]), Missing(Preorder(blocks[1..]));
            front + MintedFrom(mint, k, Missing(Preorder(blocks)))
              == front + MintedFrom(mint, k, gaps) + MintedFrom(mint, k + gaps, others)
  {
    MissingCons(blocks);
    MintedTwice(front, mint, k, Gaps(blocks[0]), Missing(Preorder(blocks[1..])));
  }

  // ---------------------------------------------------------------- what the repair achieves

  /** The preorder ids with the gaps filled in order. */
  function Filled(ids: seq<string>, mint: nat -> string, k: nat): (r: seq<string>)
    ensures |r| == |ids|
  {
    if ids == [] then []
    else [if ids[0] == "" then mint(k) else ids[0]] + Filled(ids[1..], mint, k + Missing([ids[0]]))
  }

  lemma {:induction false} FilledConcat(a: seq<string>, b: seq<string>, mint: nat -> string, k: nat)
    ensures Filled(a + b, mint, k) == Filled(a, mint, k) + Filled(b, mint, k + Missing(a))
  {
    if a == [] {
      assert a + b == b;
    } else {
      assert (a + b)[0] == a[0] && (a + b)[1..] == a[1..] + b;
      var k1 := k + Missing([a[0]]);
      FilledConcat(a[1..], b, mint, k1);
      assert Missing(a) == Missing([a[0]]) + Missing(a[1..]);
      Regroup(if a[0] == "" then mint(k) else a[0], Filled(a[1..], mint, k1), Filled(b, mint, k + Missing(a)));
    }
  }

  lemma Regroup(x: string, a: seq<string>, b: seq<string>)
    ensures [x] + (a + b) == [x] + a + b
  {
  }

  /** The repair fills the gaps of the preorder and nothing else. */
  lemma {:induction false} RepairFills(bs: seq<Block>, mint: nat -> string, k: nat)
    ensures Preorder(Repair(bs, mint, k)) == Filled(Preorder(bs), mint, k)
    decreases bs
  {
    if bs != [] {
      var e := Entry(bs[0], mint, k);
      var rest := Repair(bs[1..], mint, k + Gaps(bs[0]));
      assert Repair(bs, mint, k)[0] == e && Repair(bs, mint, k)[1..] == rest;
      EntryFills(bs[0], mint, k);
      RepairFills(bs[1..], mint, k + Gaps(bs[0]));
      FilledConcat([bs[0].id] + Preorder(bs[0].children), Preorder(bs[1..]), mint, k);
      MissingConcat([bs[0].id], Preorder(bs[0].children));
    }
  }

  lemma {:induction false} EntryFills(b: Block, mint: nat -> string, k: nat)
    ensures var e := Entry(b, mint, k);
            [e.id] + Preorder(e.children) == Filled([b.id] + Preorder(b.children), mint, k)
    decreases b
  {
    RepairFills(b.children, mint, k + Missing([b.id]));
    FilledConcat([b.id], Preorder(b.children), mint, k);
    assert Filled([b.id], mint, k) == [Entry(b, mint, k).id];
  }

  /** The tree with its ids blanked: shape, types, props and content. */
  function Blank(bs: seq<Block>): seq<Block> {
    if bs == [] then [] else [bs[0].(id := "", children := Blank(bs[0].children))] + Blank(bs[1..])
  }

  lemma {:induction false} RepairKeepsShape(bs: seq<Block>, mint: nat -> string, k: nat)
    ensures Blank(Repair(bs, mint, k)) == Blank(bs)
  {
    if bs != [] {
      var k1 := k + Missing([bs[0].id]);
      RepairKeepsShape(bs[0].children, mint, k1);
      RepairKeepsShape(bs[1..], mint, k1 + Missing(Preorder(bs[0].children)));
      assert Repair(bs, mint, k)[1..] == Repair(bs[1..], mint, k1 + Missing(Preorder(bs[0].children)));
    }
  }

  lemma {:induction false} CompleteNeedsNoRepair(bs: seq<Block>, mint: nat -> string, k: nat)
    requires Missing(Preorder(bs)) == 0
    ensures Repair(bs, mint, k) == bs
  {
    if bs != [] {
      MissingCons(bs);
      CompleteNeedsNoRepair(bs[0].children, mint, k);
      CompleteNeedsNoRepair(bs[1..], mint, k);
      assert Entry(bs[0], mint, k) == bs[0];
      assert [bs[0]] + bs[1..] == bs;
    }
  }

  ghost predicate FreshStream(mint: nat -> string, ids: seq<string>) {
    && (forall k :: mint(k) != "" && mint(k) !in ids)
    && (forall j, k :: j != k ==> mint(j) != mint(k))
  }

  lemma {:induction false} FilledAt(ids: seq<string>, mint: nat -> string, k: nat, i: nat)
    requires i < |ids|
    ensures Filled(ids, mint, k)[i] == if ids[i] == "" then mint(k + Missing(ids[..i])) else ids[i]
  {
    if i > 0 {
      assert ids[..i] == [ids[0]] + ids[1..][..i - 1];
      MissingConcat([ids[0]], ids[1..][..i - 1]);
      FilledAt(ids[1..], mint, k + Missing([ids[0]]), i - 1);
    }
  }

  lemma {:induction false} MissingGrows(ids: seq<string>, i: nat, j: nat)
    requires i < j <= |ids| && ids[i] == ""
    ensures Missing(ids[..i]) < Missing(ids[..j])
  {
    assert ids[..j] == ids[..i] + [ids[i]] + ids[i + 1..j];
    MissingConcat(ids[..i], [ids[i]]);
    MissingConcat(ids[..i] + [ids[i]], ids[i + 1..j]);
  }

  lemma {:induction false} NonEmptyIn(ids: seq<string>, i: nat, j: nat)
    requires Distinct(NonEmpty(ids)) && i < j < |ids| && ids[i] != "" && ids[j] != ""
    ensures ids[i] != ids[j]
  {
    if i > 0 {
      var rest := NonEmpty(ids[1..]);
      assert NonEmpty(ids) == NonEmpty([ids[0]]) + rest by {
        NonEmptyConcat([ids[0]], ids[1..]);
        assert [ids[0]] + ids[1..] == ids;
      }
      var d := |NonEmpty([ids[0]])|;
      assert forall a :: 0 <= a < |rest| ==> rest[a] == NonEmpty(ids)[a + d];
      NonEmptyIn(ids[1..], i - 1, j - 1);
    } else {
      NonEmptyMember(ids[1..], j - 1);
      var m :| 0 <= m < |NonEmpty(ids[1..])| && NonEmpty(ids[1..])[m] == ids[j];
      assert NonEmpty(ids)[0] == ids[0] && NonEmpty(ids)[m + 1] == ids[j];
    }
  }

  lemma {:induction false} NonEmptyMember(ids: seq<string>, i: nat)
    requires i < |ids| && ids[i] != ""
    ensures ids[i] in NonEmpty(ids)
  {
    if i > 0 { NonEmptyMember(ids[1..], i - 1); }
  }

  lemma {:induction false} MintedAt(mint: nat -> string, k: nat, n: nat, i: nat)
    requires i < n && forall j :: mint(j) != ""
    ensures |MintedFrom(mint, k, n)| == n && MintedFrom(mint, k, n)[i] == mint(k + i)
    decreases n
  {
    if n > 1 { MintedAt(mint, k + 1, n - 1, if i > 0 then i - 1 else 0); }
  }

  lemma NoneMissing(ids: seq<string>)
    requires forall i :: 0 <= i < |ids| ==> ids[i] != ""
    ensures Missing(ids) == 0
  {
    if ids != [] { NoneMissing(ids[1..]); }
  }

  /** An accepted tree repaired with a fresh minter has distinct non-empty ids everywhere, the same
      shape and content, its old ids where it had any, the j-th gap filled by the j-th minted id,
      and nothing left for a second repair. */
  lemma RepairedTree(bs: seq<Block>, mint: nat -> string, k: nat)
    requires FirstRepeat(NonEmpty(Preorder(bs)), {}).None? && FreshStream(mint, Preorder(bs))
    ensures WellFilled(Preorder(bs), Preorder(Repair(bs, mint, k)), MintedFrom(mint, k, Missing(Preorder(bs))))
    ensures Blank(Repair(bs, mint, k)) == Blank(bs)
    ensures forall again :: Repair(Repair(bs, mint, k), mint, again) == Repair(bs, mint, k)
  {
    RepairFills(bs, mint, k);
    RepairKeepsShape(bs, mint, k);
    FirstRepeatIs(NonEmpty(Preorder(bs)), {});
    FilledWell(Preorder(bs), mint, k);
    forall again ensures Repair(Repair(bs, mint, k), mint, again) == Repair(bs, mint, k) {
      CompleteNeedsNoRepair(Repair(bs, mint, k), mint, again);
    }
  }

  /** `post` is `pre` with its gaps filled by `minted` in order, and has distinct non-empty ids. */
  ghost predicate WellFilled(pre: seq<string>, post: seq<string>, minted: seq<string>) {
    && |post| == |pre| && Distinct(post) && Missing(post) == 0
    && (forall i :: 0 <= i < |pre| && pre[i] != "" ==> post[i] == pre[i])
    && (forall i :: 0 <= i < |pre| && pre[i] == "" ==> GapFilled(pre, post[i], minted, i))
  }

  ghost predicate GapFilled(pre: seq<string>, id: string, minted: seq<string>, i: nat)
    requires i < |pre|
  {
    var n := Missing(pre[..i]); n < |minted| && id == minted[n]
  }

  lemma FilledWell(pre: seq<string>, mint: nat -> string, k: nat)
    requires Distinct(NonEmpty(pre)) && FreshStream(mint, pre)
    ensures WellFilled(pre, Filled(pre, mint, k), MintedFrom(mint, k, Missing(pre)))
  {
    var post := Filled(pre, mint, k);
    forall i | 0 <= i < |pre|
      ensures post[i] != "" && (pre[i] != "" ==> post[i] == pre[i]) &&
              (pre[i] == "" ==> GapFilled(pre, post[i], MintedFrom(mint, k, Missing(pre)), i))
    {
      FilledAt(pre, mint, k, i);
      if pre[i] == "" {
        MissingGrows(pre, i, |pre|);
        assert pre[..|pre|] == pre;
        MintedAt(mint, k, Missing(pre), Missing(pre[..i]));
      }
    }
    forall i, j | 0 <= i < j < |pre| ensures post[i] != post[j] { FilledApart(pre, mint, k, i, j); }
    NoneMissing(post);
  }

  lemma FilledApart(pre: seq<string>, mint: nat -> string, k: nat, i: nat, j: nat)
    requires Distinct(NonEmpty(pre)) && FreshStream(mint, pre) && i < j < |pre|
    ensures Filled(pre, mint, k)[i] != Filled(pre, mint, k)[j]
  {
    FilledAt(pre, mint, k, i);
    FilledAt(pre, mint, k, j);
    if pre[i] == "" {
      MissingGrows(pre, i, j);
      if pre[j] != "" { assert pre[j] in pre; }
    } else if pre[j] == "" {
      assert pre[i] in pre;
    } else {
      NonEmptyIn(pre, i, j);
    }
  }

  // ---------------------------------------------------------------- the decision order

  datatype Refusal = NotIntegrable | ForeignSharedType | SchemaViolation | DuplicateBlockId(id: string)

  /** What the source observes after `Y.applyUpdate`; `parsed` is what the owned schema reads, if it reads. */
  datatype Observed = Observed(
    applyThrew: bool, pending: bool, events: bool, stateChanged: bool, foreignTypes: bool,
    topLevelBlocks: nat, parsed: Option<seq<Block>>, healed: bool)

  datatype Verdict =
    | Refused(why: Refusal)
    | AmbientTransaction
    | NoOp
    | Accepted(blocks: seq<Block>, minted: seq<string>)

  predicate Integrated(o: Observed) { !o.applyThrew && !o.pending }

  predicate Readable(o: Observed) { o.topLevelBlocks > 0 && o.parsed.Some? && !o.healed }

  /** `applyForeignUpdate`: each verdict, exactly when. */
  method ApplyForeignUpdate(o: Observed, minter: Minter) returns (v: Verdict)
    modifies minter
    ensures v == Refused(NotIntegrable) <==> o.applyThrew || o.pending
    ensures v.NoOp? <==> Integrated(o) && !o.events && !o.stateChanged
    ensures v.AmbientTransaction? <==> Integrated(o) && !o.events && o.stateChanged
    ensures v == Refused(ForeignSharedType) <==> Integrated(o) && o.events && o.foreignTypes
    ensures v == Refused(SchemaViolation) <==> Integrated(o) && o.events && !o.foreignTypes && !Readable(o)
    ensures v.Accepted? <==>
              Integrated(o) && o.events && !o.foreignTypes && Readable(o) &&
                Distinct(NonEmpty(Preorder(o.parsed.value)))
    ensures v.Accepted? ==>
              v.blocks == Repair(o.parsed.value, minter.stream, old(minter.used)) &&
              v.minted == MintedFrom(minter.stream, old(minter.used), Missing(Preorder(o.parsed.value)))
    ensures !v.Accepted? ==> minter.used == old(minter.used)
    ensures v.Refused? && v.why.DuplicateBlockId? ==>
              o.parsed.Some? && FirstRepeat(NonEmpty(Preorder(o.parsed.value)), {}) == Some(v.why.id)
  {
    if o.applyThrew || o.pending { return Refused(NotIntegrable); }
    if !o.events { return if o.stateChanged then AmbientTransaction else NoOp; }
    if o.foreignTypes { return Refused(ForeignSharedType); }
    if o.topLevelBlocks == 0 || o.parsed.None? || o.healed { return Refused(SchemaViolation); }
    var seen := new SeenIds();
    FirstRepeatIs(NonEmpty(Preorder(o.parsed.value)), {});
    var duplicate := FindDuplicateId(o.parsed.value, seen);
    if duplicate.Some? { return Refused(DuplicateBlockId(duplicate.value)); }
    var minted := new MintedIds();
    var repaired := MintMissingIds(o.parsed.value, minter, minted);
    v := Accepted(repaired, minted.ids);
  }
}
