/** The law tying the two halves of `doc.update`: replaying the diff of `before` and `after` on
    `before` yields `after`, up to server-minted ids (packages/blocks/src/ops.ts). */
module RoundTrip {
  import opened BlockModel
  import opened BlockOps
  import opened BlockDiff
  import opened Lcs
  import opened Options
  import Ids

  /** A list as the server persists it: distinct minted ids, canonical blocks. */
  ghost predicate Persisted(bs: seq<Block>) {
    Distinct(IdsOf(bs)) && AllCanonical(bs) && forall i :: 0 <= i < |bs| ==> Ids.ParsesV7(bs[i].id)
  }

  /** Minted ids are block ids nobody in `bs` uses. */
  ghost predicate FreshMint(mint: nat -> string, bs: seq<Block>) {
    MintsBlockIds(mint) && forall k :: mint(k) !in IdsOf(bs)
  }

  /** Hashes, where given, were computed over the loaded blocks. */
  ghost predicate HashesMatch(hashes: map<string, Hash>, bs: seq<Block>) {
    forall i :: 0 <= i < |bs| && bs[i].id in hashes ==> hashes[bs[i].id] == HashOf(bs[i])
  }

  lemma FoundAt(bs: seq<Block>, j: nat)
    requires Distinct(IdsOf(bs)) && j < |bs|
    ensures FindIndex(bs, bs[j].id) == j
  {
    var k := FindIndex(bs, bs[j].id);
    assert k <= j && IdsOf(bs)[k] == IdsOf(bs)[j];
  }

  // ---------------------------------------------------------------- running ops

  /** The ops run through and leave this list, with this many ids minted in all. */
  ghost predicate Lands(p: Progress, ops: seq<Op>, deps: Deps, blocks: seq<Block>, minted: nat) {
    var r := ApplyOps(p, ops, deps);
    r.Ok? && r.value.blocks == blocks && r.value.minted == minted
  }

  lemma ApplyOne(p: Progress, op: Op, deps: Deps)
    ensures ApplyOps(p, [op], deps) == ApplyOp(p, op, deps)
  {
    assert [op][1..] == [];
  }

  lemma LandsConcat(p: Progress, a: seq<Op>, b: seq<Op>, deps: Deps, mid: seq<Block>, k: nat, blocks: seq<Block>,
                    minted: nat)
    requires Lands(p, a, deps, mid, k) && Lands(ApplyOps(p, a, deps).value, b, deps, blocks, minted)
    ensures Lands(p, a + b, deps, blocks, minted)
  {
    ApplyOpsConcat(p, a, b, deps);
  }

  // ---------------------------------------------------------------- updates

  function Retouched(b: Block, a: Block): Block { Block(b.id, a.kind, a.props, a.content, b.children) }

  /** A merged and reparsed patch lands exactly on the edited block. */
  lemma PatchLands(b: Block, a: Block)
    requires Canonical(b) && Canonical(a)
    ensures Patched(b, PatchFor(b, a)) == Ok(Retouched(b, a))
  {
    NormalizeIsCanonical(a.content);
    var patch := PatchFor(b, a);
    if patch.props.None? {
      assert b.props + map[] == a.props;
    } else if a.kind == "heading" {
      assert "level" in a.props;
      assert (b.props + a.props)["level"] == a.props["level"];
    }
  }

  function LandedAt(stable: set<string>, b: Block, after: seq<Block>, n: nat): Block
    requires n <= |after|
  {
    if n == 0 then b
    else if StableAt(stable, after, n - 1) && after[n - 1].id == b.id then Retouched(b, after[n - 1])
    else LandedAt(stable, b, after, n - 1)
  }

  /** The list once the first `n` entries' updates are in. */
  function Landed(stable: set<string>, bs: seq<Block>, after: seq<Block>, n: nat): (r: seq<Block>)
    requires n <= |after|
    ensures |r| == |bs|
  {
    seq(|bs|, j requires 0 <= j < |bs| => LandedAt(stable, bs[j], after, n))
  }

  lemma {:induction false} LandedKeepsId(stable: set<string>, b: Block, after: seq<Block>, n: nat)
    requires n <= |after|
    ensures LandedAt(stable, b, after, n).id == b.id && LandedAt(stable, b, after, n).children == b.children
    ensures (forall i :: 0 <= i < n ==> after[i].id != b.id) ==> LandedAt(stable, b, after, n) == b
    ensures b.id !in stable ==> LandedAt(stable, b, after, n) == b
  {
    if n > 0 { LandedKeepsId(stable, b, after, n - 1); }
  }

  lemma LandedKeepsIds(stable: set<string>, bs: seq<Block>, after: seq<Block>, n: nat)
    requires n <= |after|
    ensures IdsOf(Landed(stable, bs, after, n)) == IdsOf(bs)
  {
    forall j | 0 <= j < |bs| ensures Landed(stable, bs, after, n)[j].id == bs[j].id {
      LandedKeepsId(stable, bs[j], after, n);
    }
  }

  lemma {:induction false} ByIdAt(bs: seq<Block>, j: nat)
    requires Distinct(IdsOf(bs)) && j < |bs|
    ensures bs[j].id in ById(bs) && ById(bs)[bs[j].id] == bs[j]
    decreases |bs|
  {
    if j < |bs| - 1 {
      assert forall i :: 0 <= i < |bs| - 1 ==> IdsOf(Front(bs))[i] == IdsOf(bs)[i];
      ByIdAt(Front(bs), j);
      assert IdsOf(bs)[j] != IdsOf(bs)[|bs| - 1];
    }
  }

  lemma StableInBoth(before: seq<Block>, after: seq<Block>, x: string)
    requires x in StableIds(before, after)
    ensures x in IdsOf(before) && x != "" && exists i :: 0 <= i < |after| && after[i].id == x
  {
    StableIsKept(before, after);
    assert after[..|after|] == after;
    KeptElements(AsSet(IdsOf(before)), after, |after|);
  }

  /** One update op on a list that still holds the loaded block. */
  lemma UpdateAt(p: Progress, j: nat, b: Block, a: Block, expected: Option<Hash>, deps: Deps)
    requires Distinct(IdsOf(p.blocks)) && j < |p.blocks| && p.blocks[j] == b
    requires Canonical(b) && Canonical(a) && Ids.ParsesV7(b.id) && (expected.Some? ==> expected.value == HashOf(b))
    ensures Lands(p, [Update(b.id, PatchFor(b, a), expected)], deps, p.blocks[j := Retouched(b, a)], p.minted)
  {
    FoundAt(p.blocks, j);
    PatchLands(b, a);
    ApplyOne(p, Update(b.id, PatchFor(b, a), expected), deps);
  }

  lemma PersistedAt(before: seq<Block>, hashes: map<string, Hash>, j: nat)
    requires Persisted(before) && HashesMatch(hashes, before) && j < |before|
    ensures Canonical(before[j]) && Ids.ParsesV7(before[j].id)
    ensures var h := HashFor(hashes, before[j].id); h.Some? ==> h.value == HashOf(before[j])
    ensures ById(before)[before[j].id := before[j]] == ById(before) && before[j].id in ById(before)
  {
    ByIdAt(before, j);
  }

  lemma LandedStep(stable: set<string>, before: seq<Block>, after: seq<Block>, n: nat, j: nat)
    requires Distinct(IdsOf(before)) && n < |after| && j < |before| && StableAt(stable, after, n) &&
             after[n].id == before[j].id
    ensures Landed(stable, before, after, n)[j] == before[j]
    ensures Landed(stable, before, after, n + 1)
            == Landed(stable, before, after, n)[j := Retouched(before[j], after[n])]
  {
    LandedKeepsId(stable, before[j], after, n);
    forall i | 0 <= i < |before| && i != j ensures before[i].id != before[j].id {
      assert IdsOf(before)[i] != IdsOf(before)[j];
    }
  }

  function UpdateOpsFor(byId: map<string, Block>, stable: set<string>, after: seq<Block>, hashes: map<string, Hash>,
                        n: nat): seq<Op>
    requires n < |after|
  {
    if StableAt(stable, after, n) then UpdateFor(byId, after[n], hashes) else []
  }

  lemma UpdateStep(before: seq<Block>, after: seq<Block>, hashes: map<string, Hash>, deps: Deps, stable: set<string>,
                   n: nat, p: Progress)
    requires Persisted(before) && AllCanonical(after) && HashesMatch(hashes, before) &&
             StableKnown(stable, before, after)
    requires n < |after| && p.blocks == Landed(stable, before, after, n)
    ensures Lands(p, UpdateOpsFor(ById(before), stable, after, hashes, n), deps, Landed(stable, before, after, n + 1),
                  p.minted)
  {
    if StableAt(stable, after, n) {
      var x := after[n].id;
      var j :| 0 <= j < |before| && IdsOf(before)[j] == x;
      LandedKeepsIds(stable, before, after, n);
      LandedStep(stable, before, after, n, j);
      PersistedAt(before, hashes, j);
      var b := before[j];
      assert ById(before)[x] == b;
      if PatchFor(b, after[n]) == NO_PATCH {
        assert Retouched(b, after[n]) == b;
        assert p.blocks[j := b] == p.blocks;
      } else {
        UpdateAt(p, j, b, after[n], HashFor(hashes, x), deps);
      }
    } else {
      LandedSame(stable, before, after, n);
    }
  }

  /** Stable ids are known and occur in `after`. */
  ghost predicate StableKnown(stable: set<string>, before: seq<Block>, after: seq<Block>) {
    forall x :: x in stable ==> x in IdsOf(before) && x in NonEmptyIds(after)
  }

  lemma StableIsKnown(before: seq<Block>, after: seq<Block>)
    ensures StableKnown(AsSet(StableIds(before, after)), before, after)
  {
    forall x | x in StableIds(before, after) ensures x in IdsOf(before) && x in NonEmptyIds(after) {
      StableInBoth(before, after, x);
    }
  }

  lemma {:induction false} UpdatesLand(before: seq<Block>, after: seq<Block>, hashes: map<string, Hash>, deps: Deps,
                                       stable: set<string>, n: nat, p: Progress)
    requires Persisted(before) && AllCanonical(after) && HashesMatch(hashes, before) &&
             StableKnown(stable, before, after)
    requires n <= |after| && p.blocks == before
    ensures Lands(p, Updates(ById(before), stable, after, hashes, n), deps, Landed(stable, before, after, n), p.minted)
  {
    if n == 0 {
      LandedNowhere(stable, before, after);
    } else {
      UpdatesLand(before, after, hashes, deps, stable, n - 1, p);
      var ops := Updates(ById(before), stable, after, hashes, n - 1);
      UpdateStep(before, after, hashes, deps, stable, n - 1, ApplyOps(p, ops, deps).value);
      LandsConcat(p, ops, UpdateOpsFor(ById(before), stable, after, hashes, n - 1), deps,
                  Landed(stable, before, after, n - 1), p.minted, Landed(stable, before, after, n), p.minted);
    }
  }

  lemma LandedNowhere(stable: set<string>, before: seq<Block>, after: seq<Block>)
    ensures Landed(stable, before, after, 0) == before
  {
  }

  lemma LandedSame(stable: set<string>, before: seq<Block>, after: seq<Block>, n: nat)
    requires n < |after| && !StableAt(stable, after, n)
    ensures Landed(stable, before, after, n + 1) == Landed(stable, before, after, n)
  {
  }

  // ---------------------------------------------------------------- removes

  function KeepBlocks(bs: seq<Block>, ids: set<string>): seq<Block>
    decreases |bs|
  {
    if bs == [] then [] else KeepBlocks(Front(bs), ids) + if Last(bs).id in ids then [Last(bs)] else []
  }

  lemma {:induction false} KeepBlocksIn(bs: seq<Block>, ids: set<string>)
    ensures forall b :: b in KeepBlocks(bs, ids) <==> b in bs && b.id in ids
    decreases |bs|
  {
    if bs != [] {
      KeepBlocksIn(Front(bs), ids);
      assert bs == Front(bs) + [Last(bs)];
    }
  }

  lemma {:induction false} KeepBlocksIds(bs: seq<Block>, ids: set<string>)
    ensures IdsOf(KeepBlocks(bs, ids)) == Keep(IdsOf(bs), ids)
    decreases |bs|
  {
    if bs != [] {
      KeepBlocksIds(Front(bs), ids);
      assert IdsOf(bs) == IdsOf(Front(bs)) + [Last(bs).id];
    }
  }

  lemma {:induction false} KeepElements(a: seq<string>, ids: set<string>)
    ensures forall x :: x in Keep(a, ids) <==> x in a && x in ids
    decreases |a|
  {
    if a != [] {
      KeepElements(Front(a), ids);
      assert a == Front(a) + [Last(a)];
    }
  }

  lemma {:induction false} KeepDistinct(a: seq<string>, ids: set<string>)
    requires Distinct(a)
    ensures Distinct(Keep(a, ids))
    decreases |a|
  {
    if a != [] {
      KeepDistinct(Front(a), ids);
      KeepElements(Front(a), ids);
    }
  }

  /** One remove op takes out the first block of that id. */
  lemma RemoveAt(p: Progress, front: seq<Block>, b: Block, rest: seq<Block>, expected: Option<Hash>, deps: Deps)
    requires p.blocks == front + [b] + rest && forall c :: c in front ==> c.id != b.id
    requires Ids.ParsesV7(b.id) && (expected.Some? ==> expected.value == HashOf(b))
    ensures Lands(p, [Remove(b.id, expected)], deps, front + rest, p.minted)
  {
    FindBehind(front, b, rest);
    assert p.blocks[..|front|] == front && p.blocks[|front| + 1..] == rest;
    ApplyOne(p, Remove(b.id, expected), deps);
  }

  lemma {:induction false} FindBehind(front: seq<Block>, b: Block, rest: seq<Block>)
    requires forall c :: c in front ==> c.id != b.id
    ensures FindIndex(front + [b] + rest, b.id) == |front| && (front + [b] + rest)[|front|] == b
  {
    var all := front + [b] + rest;
    if front != [] {
      assert all[0] == front[0] && front[0] in front;
      assert all[1..] == front[1..] + [b] + rest;
      FindBehind(front[1..], b, rest);
    }
  }

  /** The list once the first `m` removes are in. */
  function Purged(w: seq<Block>, stable: set<string>, m: nat): seq<Block>
    requires m <= |w|
  {
    KeepBlocks(w[..m], stable) + w[m..]
  }

  lemma PurgedStep(w: seq<Block>, stable: set<string>, m: nat)
    requires m < |w|
    ensures Purged(w, stable, m) == KeepBlocks(w[..m], stable) + [w[m]] + w[m + 1..]
    ensures Purged(w, stable, m + 1)
         == if w[m].id in stable then Purged(w, stable, m) else KeepBlocks(w[..m], stable) + w[m + 1..]
  {
    assert Front(w[..m + 1]) == w[..m] && Last(w[..m + 1]) == w[m] && w[m..] == [w[m]] + w[m + 1..];
  }

  lemma RemoveStep(before: seq<Block>, after: seq<Block>, hashes: map<string, Hash>, deps: Deps, stable: set<string>,
                   m: nat, p: Progress)
    requires Persisted(before) && HashesMatch(hashes, before) && StableKnown(stable, before, after) && m < |before|
    requires p.blocks == Purged(Landed(stable, before, after, |after|), stable, m)
    ensures Lands(p, RemoveFor(NonEmptyIds(after), stable, before[m], hashes), deps,
                  Purged(Landed(stable, before, after, |after|), stable, m + 1), p.minted)
  {
    var w := Landed(stable, before, after, |after|);
    PurgedStep(w, stable, m);
    LandedKeepsId(stable, before[m], after, |after|);
    if before[m].id !in stable {
      FrontHasNot(before, after, stable, m);
      PersistedAt(before, hashes, m);
      RemoveAt(p, KeepBlocks(w[..m], stable), before[m], w[m + 1..], HashFor(hashes, before[m].id), deps);
    }
  }

  /** Removing the unstable blocks from position `m` on leaves the stable ones. */
  lemma {:induction false} RemovesLand(before: seq<Block>, after: seq<Block>, hashes: map<string, Hash>, deps: Deps,
                                       stable: set<string>,
                                       m: nat, p: Progress)
    requires Persisted(before) && HashesMatch(hashes, before) && StableKnown(stable, before, after) && m <= |before|
    requires p.blocks == Purged(Landed(stable, before, after, |after|), stable, m)
    ensures Lands(p, Removes(NonEmptyIds(after), stable, before[m..], hashes), deps,
                  KeepBlocks(Landed(stable, before, after, |after|), stable), p.minted)
    decreases |before| - m
  {
    var w, afterIds := Landed(stable, before, after, |after|), NonEmptyIds(after);
    if m == |before| {
      assert w[..m] == w && w[m..] == [];
    } else {
      assert before[m..][0] == before[m] && before[m..][1..] == before[m + 1..];
      RemoveStep(before, after, hashes, deps, stable, m, p);
      var ops := RemoveFor(afterIds, stable, before[m], hashes);
      RemovesLand(before, after, hashes, deps, stable, m + 1, ApplyOps(p, ops, deps).value);
      LandsConcat(p, ops, Removes(afterIds, stable, before[m + 1..], hashes), deps,
                  Purged(w, stable, m + 1), p.minted, KeepBlocks(w, stable), p.minted);
    }
  }

  lemma FrontHasNot(before: seq<Block>, after: seq<Block>, stable: set<string>, m: nat)
    requires Distinct(IdsOf(before)) && m < |before|
    ensures forall b :: b in KeepBlocks(Landed(stable, before, after, |after|)[..m], stable) ==> b.id != before[m].id
  {
    var w := Landed(stable, before, after, |after|);
    LandedKeepsIds(stable, before, after, |after|);
    KeepBlocksIn(w[..m], stable);
    forall b | b in KeepBlocks(w[..m], stable) ensures b.id != before[m].id {
      var i :| 0 <= i < m && w[..m][i] == b;
      assert IdsOf(w)[i] == IdsOf(before)[i] != IdsOf(before)[m];
    }
  }

  // ---------------------------------------------------------------- what is left

  /** The stable entries among the first `n`. */
  function StableBlocks(stable: set<string>, after: seq<Block>, n: nat): seq<Block>
    requires n <= |after|
  {
    if n == 0 then [] else StableBlocks(stable, after, n - 1) + if StableAt(stable, after, n - 1) then [after[n - 1]]
       else []
  }

  lemma {:induction false} StableBlocksIn(stable: set<string>, after: seq<Block>, n: nat)
    requires n <= |after|
    ensures forall b :: b in StableBlocks(stable, after, n) ==>
            exists i :: 0 <= i < n && StableAt(stable, after, i) && after[i] == b
  {
    if n > 0 {
      StableBlocksIn(stable, after, n - 1);
      if StableAt(stable, after, n - 1) { assert after[n - 1] == after[n - 1]; }
    }
  }

  lemma StableIdsStep(stable: set<string>, after: seq<Block>, n: nat)
    requires 0 < n <= |after|
    ensures IdsOf(StableBlocks(stable, after, n))
         == IdsOf(StableBlocks(stable, after, n - 1)) + if StableAt(stable, after, n - 1) then [after[n - 1].id] else []
  {
  }

  lemma {:induction false} StableBlocksIds(before: seq<Block>, after: seq<Block>, stable: set<string>, n: nat)
    requires n <= |after| && stable == AsSet(StableIds(before, after))
    ensures IdsOf(StableBlocks(stable, after, n)) == Keep(KeptIds(AsSet(IdsOf(before)), after[..n]), stable)
  {
    if n > 0 {
      StableBlocksIds(before, after, stable, n - 1);
      StableIsKnown(before, after);
      KeptStep(AsSet(IdsOf(before)), after, stable, n - 1);
      StableIdsStep(stable, after, n);
    }
  }

  lemma KeptStep(known: set<string>, after: seq<Block>, stable: set<string>, i: nat)
    requires i < |after| && forall x :: x in stable ==> x in known && x != ""
    ensures Keep(KeptIds(known, after[..i + 1]), stable)
         == Keep(KeptIds(known, after[..i]), stable) + if StableAt(stable, after, i) then [after[i].id] else []
  {
    assert Front(after[..i + 1]) == after[..i] && Last(after[..i + 1]) == after[i];
    KeptElements(known, after, i);
    var kept, x := KeptIds(known, after[..i]), after[i].id;
    assert Front(kept + [x]) == kept && Last(kept + [x]) == x;
  }

  /** Filtering either side by the stable ids gives the stable sequence itself. */
  lemma StableOrder(before: seq<Block>, after: seq<Block>)
    requires Distinct(IdsOf(before))
    ensures var s := StableIds(before, after);
            Keep(IdsOf(before), AsSet(s)) == s && Keep(KeptIds(AsSet(IdsOf(before)), after), AsSet(s)) == s &&
              Distinct(s)
  {
    var ids, s := IdsOf(before), StableIds(before, after);
    var kept := KeptIds(AsSet(ids), after);
    assert after[..|after|] == after;
    KeptElements(AsSet(ids), after, |after|);
    var seqB := Keep(ids, AsSet(kept));
    KeepDistinct(ids, AsSet(kept));
    LcsIsCommon(seqB, kept);
    KeepSub(s, seqB);
    KeepSub(s, kept);
    SubElements(s, kept);
    KeepDistinct(kept, AsSet(s));
    KeepTwice(ids, AsSet(kept), AsSet(s));
  }

  lemma {:induction false} KeepTwice(a: seq<string>, s: set<string>, t: set<string>)
    requires t <= s
    ensures Keep(Keep(a, s), t) == Keep(a, t)
    decreases |a|
  {
    if a != [] {
      KeepTwice(Front(a), s, t);
      var k := Keep(Front(a), s);
      assert Front(k + [Last(a)]) == k && k + [] == k;
    }
  }

  lemma {:induction false} LandsOnEntry(stable: set<string>, b: Block, after: seq<Block>, i: nat, n: nat)
    requires i < n <= |after| && StableAt(stable, after, i) && after[i].id == b.id
    ensures LandedAt(stable, b, after, n) == Retouched(b, after[i])
  {
    if i < n - 1 { LandsOnEntry(stable, b, after, i, n - 1); }
  }

  /** Updates and removes together leave exactly the stable entries of `after`, in order. */
  lemma SurvivorsAreStableEntries(before: seq<Block>, after: seq<Block>, stable: set<string>)
    requires Persisted(before) && AllCanonical(after) && stable == AsSet(StableIds(before, after))
    ensures KeepBlocks(Landed(stable, before, after, |after|), stable) == StableBlocks(stable, after, |after|)
    ensures Distinct(IdsOf(StableBlocks(stable, after, |after|)))
  {
    var w := Landed(stable, before, after, |after|);
    var left, right := KeepBlocks(w, stable), StableBlocks(stable, after, |after|);
    LandedKeepsIds(stable, before, after, |after|);
    KeepBlocksIds(w, stable);
    assert after[..|after|] == after;
    StableBlocksIds(before, after, stable, |after|);
    StableOrder(before, after);
    KeepBlocksIn(w, stable);
    StableBlocksIn(stable, after, |after|);
    forall k | 0 <= k < |left| ensures left[k] == right[k] {
      assert IdsOf(left)[k] == IdsOf(right)[k];
      assert left[k] in left && right[k] in right;
      var j :| 0 <= j < |w| && w[j] == left[k];
      var i :| 0 <= i < |after| && StableAt(stable, after, i) && after[i] == right[k];
      LandedKeepsId(stable, before[j], after, |after|);
      LandsOnEntry(stable, before[j], after, i, |after|);
    }
  }

  // ---------------------------------------------------------------- inserts

  function InsertCount(stable: set<string>, after: seq<Block>, n: nat): nat
    requires n <= |after|
    decreases |after| - n
  {
    if n == |after| then 0 else (if StableAt(stable, after, n) then 0 else 1) + InsertCount(stable, after, n + 1)
  }

  /** What entry `n` becomes: a stable entry itself, or a copy under the next minted id. */
  function EntryAt(stable: set<string>, after: seq<Block>, mint: nat -> string, m: nat, n: nat): Block
    requires n < |after|
  {
    if StableAt(stable, after, n) then after[n] else after[n].(id := mint(m + InsertCount(stable, after, n + 1)))
  }

  function Replayed(stable: set<string>, after: seq<Block>, mint: nat -> string, m: nat, n: nat): (r: seq<Block>)
    requires n <= |after|
    ensures |r| == |after| - n
    decreases |after| - n
  {
    if n == |after| then [] else [EntryAt(stable, after, mint, m, n)] + Replayed(stable, after, mint, m, n + 1)
  }

  lemma {:induction false} ReplayedAt(stable: set<string>, after: seq<Block>, mint: nat -> string, m: nat, n: nat,
                                      i: nat)
    requires n <= i < |after|
    ensures Replayed(stable, after, mint, m, n)[i - n] == EntryAt(stable, after, mint, m, i)
    decreases |after| - n
  {
    if n < i { ReplayedAt(stable, after, mint, m, n + 1, i); }
  }

  lemma {:induction false} AnchorIsLastStable(stable: set<string>, after: seq<Block>, n: nat)
    requires n <= |after|
    ensures var s := StableBlocks(stable, after, n);
            Anchor(stable, after, n) == if s == [] then None else Some(Last(s).id)
  {
    if n > 0 { AnchorIsLastStable(stable, after, n - 1); }
  }

  lemma InsertLands(stable: set<string>, after: seq<Block>, i: nat, id: string)
    requires i < |after| && Canonical(after[i])
    ensures InsertBlock(InsertFor(stable, after, i), id) == Ok(after[i].(id := id))
  {
    NormalizeIsCanonical(after[i].content);
    NormalizeIdempotent(after[i].content);
  }

  lemma InsertIndexIs(s: seq<Block>, rest: seq<Block>, anchor: Option<string>)
    requires Distinct(IdsOf(s)) && anchor == if s == [] then None else Some(Last(s).id)
    ensures InsertIndex(s + rest, anchor) == Ok(|s|)
  {
    if s != [] {
      FoundAt(s, |s| - 1);
      FindInFront(s, rest, Last(s).id);
    }
  }

  lemma {:induction false} FindInFront(s: seq<Block>, rest: seq<Block>, id: string)
    requires FindIndex(s, id) < |s|
    ensures FindIndex(s + rest, id) == FindIndex(s, id)
  {
    assert (s + rest)[0] == s[0];
    if s[0].id != id {
      assert (s + rest)[1..] == s[1..] + rest;
      FindInFront(s[1..], rest, id);
    }
  }

  lemma {:induction false} StableBlocksDistinct(stable: set<string>, after: seq<Block>, n: nat)
    requires n <= |after|
    ensures Distinct(IdsOf(StableBlocks(stable, after, n)))
  {
    if n > 0 {
      StableBlocksDistinct(stable, after, n - 1);
      var s := StableBlocks(stable, after, n - 1);
      StableBlocksIn(stable, after, n - 1);
      forall k | 0 <= k < |s| && StableAt(stable, after, n - 1) ensures s[k].id != after[n - 1].id {
        assert s[k] in s;
      }
    }
  }

  /** One insert op puts its block right behind the blocks `s`. */
  lemma InsertAt(p: Progress, s: seq<Block>, rest: seq<Block>, op: Op, block: Block, deps: Deps)
    requires op.Insert? && p.blocks == s + rest && InsertIndex(p.blocks, op.after) == Ok(|s|)
    requires InsertBlock(op, deps.mint(p.minted)) == Ok(block) && Ids.ParsesV7(block.id)
    ensures Lands(p, [op], deps, s + ([block] + rest), p.minted + 1)
  {
    assert p.blocks[..|s|] == s && p.blocks[|s|..] == rest;
    assert s + [block] + rest == s + ([block] + rest);
    ApplyOne(p, op, deps);
  }

  lemma InsertReady(stable: set<string>, after: seq<Block>, i: nat, rest: seq<Block>, id: string)
    requires i < |after| && Canonical(after[i])
    ensures InsertIndex(StableBlocks(stable, after, i) + rest, InsertFor(stable, after, i).after)
            == Ok(|StableBlocks(stable, after, i)|)
    ensures InsertBlock(InsertFor(stable, after, i), id) == Ok(after[i].(id := id))
  {
    InsertLands(stable, after, i, id);
    AnchorIsLastStable(stable, after, i);
    StableBlocksDistinct(stable, after, i);
    InsertIndexIs(StableBlocks(stable, after, i), rest, Anchor(stable, after, i));
  }

  ghost predicate MintsBlockIds(mint: nat -> string) { forall k :: Ids.ParsesV7(mint(k)) }

  /** The ops entry `n` contributes to the insert phase. */
  function InsertOpsFor(stable: set<string>, after: seq<Block>, n: nat): seq<Op>
    requires n < |after|
  {
    if StableAt(stable, after, n) then [] else [InsertFor(stable, after, n)]
  }

  /** The list before the insert of entry `n - 1`: stable blocks in front, finished entries behind. */
  function Stage(stable: set<string>, after: seq<Block>, mint: nat -> string, m: nat, n: nat): seq<Block>
    requires n <= |after|
  {
    StableBlocks(stable, after, n) + Replayed(stable, after, mint, m, n)
  }

  lemma StageEnds(stable: set<string>, after: seq<Block>, mint: nat -> string, m: nat)
    ensures Stage(stable, after, mint, m, 0) == Replayed(stable, after, mint, m, 0)
    ensures Stage(stable, after, mint, m, |after|) == StableBlocks(stable, after, |after|)
  {
    var all, s := Replayed(stable, after, mint, m, 0), StableBlocks(stable, after, |after|);
    assert [] + all == all && s + [] == s;
  }

  lemma EntryStep(stable: set<string>, after: seq<Block>, deps: Deps, m: nat, i: nat, p: Progress)
    requires AllCanonical(after) && i < |after| && MintsBlockIds(deps.mint)
    requires p.blocks == Stage(stable, after, deps.mint, m, i + 1) && p.minted == m + InsertCount(stable, after, i + 1)
    ensures Lands(p, InsertOpsFor(stable, after, i), deps, Stage(stable, after, deps.mint, m, i),
                  m + InsertCount(stable, after, i))
  {
    if StableAt(stable, after, i) {
      EntryMoves(stable, after, deps.mint, m, i);
    } else {
      var s, rest := StableBlocks(stable, after, i), Replayed(stable, after, deps.mint, m, i + 1);
      var op, entry := InsertFor(stable, after, i), EntryAt(stable, after, deps.mint, m, i);
      assert deps.mint(p.minted) == entry.id && after[i].(id := entry.id) == entry;
      assert StableBlocks(stable, after, i + 1) == s;
      assert Replayed(stable, after, deps.mint, m, i) == [entry] + rest;
      InsertReady(stable, after, i, rest, entry.id);
      assert p.blocks == s + rest && op.Insert? && InsertIndex(p.blocks, op.after) == Ok(|s|);
      InsertAt(p, s, rest, op, entry, deps);
    }
  }

  /** Reverse-order anchored inserts stack up to the edited list. */
  lemma {:induction false} InsertsLand(stable: set<string>, after: seq<Block>, deps: Deps, m: nat, n: nat, p: Progress)
    requires AllCanonical(after) && n <= |after| && MintsBlockIds(deps.mint)
    requires p.blocks == Stage(stable, after, deps.mint, m, n) && p.minted == m + InsertCount(stable, after, n)
    ensures Lands(p, Inserts(stable, after, n), deps, Stage(stable, after, deps.mint, m, 0),
                  m + InsertCount(stable, after, 0))
  {
    hide ApplyOps, Stage, InsertCount, InsertOpsFor, Inserts, MintsBlockIds, AllCanonical;
    if n == 0 {
      NothingLands(stable, after, p, deps);
    } else {
      var first, rest := InsertOpsFor(stable, after, n - 1), Inserts(stable, after, n - 1);
      var list, count := Stage(stable, after, deps.mint, m, n - 1), m + InsertCount(stable, after, n - 1);
      EntryStep(stable, after, deps, m, n - 1, p);
      InsertsLand(stable, after, deps, m, n - 1, ApplyOps(p, first, deps).value);
      InsertsSplit(stable, after, n);
      LandsConcat(p, first, rest, deps, list, count, Stage(stable, after, deps.mint, m, 0),
                  m + InsertCount(stable, after, 0));
    }
  }

  lemma NothingLands(stable: set<string>, after: seq<Block>, p: Progress, deps: Deps)
    ensures Lands(p, Inserts(stable, after, 0), deps, p.blocks, p.minted)
  {
  }

  lemma InsertsSplit(stable: set<string>, after: seq<Block>, n: nat)
    requires 0 < n <= |after|
    ensures Inserts(stable, after, n) == InsertOpsFor(stable, after, n - 1) + Inserts(stable, after, n - 1)
  {
  }

  lemma EntryMoves(stable: set<string>, after: seq<Block>, mint: nat -> string, m: nat, i: nat)
    requires i < |after| && StableAt(stable, after, i)
    ensures Stage(stable, after, mint, m, i + 1) == Stage(stable, after, mint, m, i)
  {
    var s, rest := StableBlocks(stable, after, i), Replayed(stable, after, mint, m, i + 1);
    assert s + [after[i]] + rest == s + ([after[i]] + rest);
  }

  // ---------------------------------------------------------------- the law

  /** `post` is `after`, except for the ids of inserted blocks. */
  ghost predicate SameUpToIds(post: seq<Block>, after: seq<Block>) {
    |post| == |after| && forall i :: 0 <= i < |post| ==> post[i] == after[i].(id := post[i].id)
  }

  /** Stable entries keep their id; entry `i` otherwise gets the id minted after those behind it. */
  ghost predicate IdsAsPromised(post: seq<Block>, stable: set<string>, after: seq<Block>, mint: nat -> string, m: nat)
    requires |post| == |after|
  {
    forall i :: 0 <= i < |after| ==>
      post[i].id == if StableAt(stable, after, i) then after[i].id else mint(m + InsertCount(stable, after, i + 1))
  }

  lemma ReplayIs(before: seq<Block>, after: seq<Block>, hashes: map<string, Hash>, deps: Deps, m: nat)
    requires Persisted(before) && AllCanonical(after) && HashesMatch(hashes, before) && FreshMint(deps.mint, before)
    ensures var r := ApplyOps(Progress(before, [], m), Diff(before, after, hashes), deps);
            var stable := AsSet(StableIds(before, after));
            r.Ok? && r.value.blocks == Replayed(stable, after, deps.mint, m, 0) &&
              r.value.minted == m + InsertCount(stable, after, 0)
  {
    hide ApplyOps, Updates, Removes, Inserts, Stage, Replayed, StableBlocks, StableIds, AsSet, AllCanonical, ById;
    var stable, p := AsSet(StableIds(before, after)), Progress(before, [], m);
    var u := Updates(ById(before), stable, after, hashes, |after|);
    var rm := Removes(NonEmptyIds(after), stable, before, hashes);
    var ins := Inserts(stable, after, |after|);
    StableIsKnown(before, after);
    UpdatesLand(before, after, hashes, deps, stable, |after|, p);
    var p1 := ApplyOps(p, u, deps).value;
    assert Purged(p1.blocks, stable, 0) == p1.blocks && before[0..] == before;
    RemovesLand(before, after, hashes, deps, stable, 0, p1);
    var p2 := ApplyOps(p1, rm, deps).value;
    SurvivorsAreStableEntries(before, after, stable);
    StageEnds(stable, after, deps.mint, m);
    InsertsLand(stable, after, deps, m, |after|, p2);
    ApplyOpsConcat(p, u, rm, deps);
    ApplyOpsConcat(p, u + rm, ins, deps);
  }

  /** Replaying the diff never throws and yields `after` position by position: stable entries keep
      their id, every other entry gets a minted one. */
  lemma RoundTripLaw(before: seq<Block>, after: seq<Block>, hashes: map<string, Hash>, deps: Deps, m: nat)
    requires Persisted(before) && AllCanonical(after) && HashesMatch(hashes, before) && FreshMint(deps.mint, before)
    ensures var r := ApplyOps(Progress(before, [], m), Diff(before, after, hashes), deps);
            var stable := AsSet(StableIds(before, after));
            r.Ok? && SameUpToIds(r.value.blocks, after) && IdsAsPromised(r.value.blocks, stable, after, deps.mint, m) &&
            r.value.minted == m + InsertCount(stable, after, 0)
  {
    ReplayIs(before, after, hashes, deps, m);
    ReplayedShape(AsSet(StableIds(before, after)), after, deps.mint, m);
  }

  lemma ReplayedShape(stable: set<string>, after: seq<Block>, mint: nat -> string, m: nat)
    ensures var post := Replayed(stable, after, mint, m, 0);
            SameUpToIds(post, after) && IdsAsPromised(post, stable, after, mint, m)
  {
    var post := Replayed(stable, after, mint, m, 0);
    forall i | 0 <= i < |after| ensures post[i] == EntryAt(stable, after, mint, m, i) {
      ReplayedAt(stable, after, mint, m, 0, i);
    }
  }

  /** For a persisted `before` the law holds of an edited list exactly when that list is canonical. */
  lemma RoundTripIff(before: seq<Block>, after: seq<Block>, hashes: map<string, Hash>, deps: Deps, m: nat)
    requires Persisted(before) && HashesMatch(hashes, before) && FreshMint(deps.mint, before)
    ensures var r := ApplyOps(Progress(before, [], m), Diff(before, after, hashes), deps);
            (r.Ok? && SameUpToIds(r.value.blocks, after)) <==> AllCanonical(after)
  {
    var r := ApplyOps(Progress(before, [], m), Diff(before, after, hashes), deps);
    if AllCanonical(after) {
      RoundTripLaw(before, after, hashes, deps, m);
    }
    if r.Ok? && SameUpToIds(r.value.blocks, after) {
      OpsKeepCanonical(Progress(before, [], m), Diff(before, after, hashes), deps);
      forall i | 0 <= i < |after| ensures Canonical(after[i]) { assert Canonical(r.value.blocks[i]); }
    }
  }

  // ---------------------------------------------------------------- the list can be loaded again

  /** No two minted ids are equal. */
  ghost predicate NeverRepeats(mint: nat -> string) { forall i, j :: i != j ==> mint(i) != mint(j) }

  lemma {:induction false} LaterInsertsCountLess(stable: set<string>, after: seq<Block>, i: nat, j: nat)
    requires i < j < |after| && !StableAt(stable, after, j)
    ensures InsertCount(stable, after, j + 1) < InsertCount(stable, after, i + 1)
    decreases j - i
  {
    if i + 1 < j { LaterInsertsCountLess(stable, after, i + 1, j); }
  }

  /** With a minter that never repeats itself the replayed list is fit to be stored and edited again. */
  lemma RoundTripPersists(before: seq<Block>, after: seq<Block>, hashes: map<string, Hash>, deps: Deps, m: nat)
    requires Persisted(before) && AllCanonical(after) && HashesMatch(hashes, before) && FreshMint(deps.mint, before)
    requires NeverRepeats(deps.mint)
    ensures var r := ApplyOps(Progress(before, [], m), Diff(before, after, hashes), deps);
            r.Ok? && Persisted(r.value.blocks)
  {
    RoundTripLaw(before, after, hashes, deps, m);
    var post, stable := ApplyOps(Progress(before, [], m), Diff(before, after, hashes), deps).value.blocks,
                        AsSet(StableIds(before, after));
    forall i | 0 <= i < |post| ensures Canonical(post[i]) && Ids.ParsesV7(post[i].id) {
      assert Canonical(after[i]);
      if StableAt(stable, after, i) { StableIsLoaded(before, after, i); }
    }
    forall i, j | 0 <= i < j < |post| ensures post[i].id != post[j].id {
      if StableAt(stable, after, i) { StableIsLoaded(before, after, i); }
      if StableAt(stable, after, j) {
        StableIsLoaded(before, after, j);
      } else {
        LaterInsertsCountLess(stable, after, i, j);
      }
    }
  }

  lemma StableIsLoaded(before: seq<Block>, after: seq<Block>, i: nat)
    requires Persisted(before) && i < |after| && StableAt(AsSet(StableIds(before, after)), after, i)
    ensures after[i].id in IdsOf(before) && Ids.ParsesV7(after[i].id)
  {
    StableInBoth(before, after, after[i].id);
    var k :| 0 <= k < |before| && IdsOf(before)[k] == after[i].id;
    assert before[k].id == after[i].id;
  }
}
