/** The client half of `doc.update` (packages/blocks/src/ops.ts, `diffBlocksToOps`). */
module BlockDiff {
  import opened BlockModel
  import opened BlockOps
  import opened Lcs
  import opened Options

  // ---------------------------------------------------------------- specification

  /** `new Map(before.map((b) => [b.id, b]))`: a later block wins. */
  function ById(bs: seq<Block>): map<string, Block>
    decreases |bs|
  {
    if bs == [] then map[] else ById(Front(bs))[Last(bs).id := Last(bs)]
  }

  function AsSet(ids: seq<string>): set<string> { set x | x in ids }

  /** Ids of `after` that survive: the first occurrence of each known, non-empty id. */
  function KeptIds(known: set<string>, after: seq<Block>): seq<string>
    decreases |after|
  {
    if after == [] then []
    else
      var kept := KeptIds(known, Front(after));
      var id := Last(after).id;
      if id != "" && id in known && id !in kept then kept + [id] else kept
  }

  /** Ids the diff keeps in place. */
  function StableIds(before: seq<Block>, after: seq<Block>): seq<string> {
    var kept := KeptIds(AsSet(IdsOf(before)), after);
    Lcs.Lcs(Keep(IdsOf(before), AsSet(kept)), kept)
  }

  /** Entry `i` is the surviving occurrence of a stable id; every other entry is an insert. */
  predicate StableAt(stable: set<string>, after: seq<Block>, i: nat)
    requires i < |after|
  {
    after[i].id in stable && forall j :: 0 <= j < i ==> after[j].id != after[i].id
  }

  function HashFor(hashes: map<string, Hash>, id: string): Option<Hash> {
    if id in hashes then Some(hashes[id]) else None
  }

  function PatchFor(prior: Block, block: Block): Patch {
    Patch(if block.kind != prior.kind then Some(block.kind) else None,
          if block.props != prior.props then Some(block.props) else None,
          if block.content != prior.content then Some(Runs(block.content)) else None)
  }

  const NO_PATCH := Patch(None, None, None)

  function UpdateFor(byId: map<string, Block>, block: Block, hashes: map<string, Hash>): seq<Op> {
    if block.id !in byId || PatchFor(byId[block.id], block) == NO_PATCH then []
    else [Update(block.id, PatchFor(byId[block.id], block), HashFor(hashes, block.id))]
  }

  /** Updates for the stable entries among the first `n`. */
  function Updates(byId: map<string, Block>, stable: set<string>, after: seq<Block>, hashes: map<string, Hash>,
                   n: nat): seq<Op>
    requires n <= |after|
  {
    if n == 0 then []
    else Updates(byId, stable, after, hashes, n - 1) +
         if StableAt(stable, after, n - 1) then UpdateFor(byId, after[n - 1], hashes) else []
  }

  function RemoveFor(afterIds: set<string>, stable: set<string>, block: Block, hashes: map<string, Hash>): seq<Op> {
    if block.id in afterIds && block.id in stable then [] else [Remove(block.id, HashFor(hashes, block.id))]
  }

  function Removes(afterIds: set<string>, stable: set<string>, before: seq<Block>, hashes: map<string, Hash>): seq<Op> {
    if before == [] then []
    else RemoveFor(afterIds, stable, before[0], hashes) + Removes(afterIds, stable, before[1..], hashes)
  }

  /** The nearest stable entry before `i`. */
  function Anchor(stable: set<string>, after: seq<Block>, i: nat): Option<string>
    requires i <= |after|
  {
    if i == 0 then None
    else if StableAt(stable, after, i - 1) then Some(after[i - 1].id)
    else Anchor(stable, after, i - 1)
  }

  function InsertFor(stable: set<string>, after: seq<Block>, i: nat): Op
    requires i < |after|
  {
    var content := NormalizeRuns(after[i].content);
    Insert(after[i].kind,
           if after[i].props != map[] then Some(after[i].props) else None,
           if content != [] then Runs(content) else Missing,
           Anchor(stable, after, i))
  }

  /** Inserts for the entries below `n`, last entry first. */
  function Inserts(stable: set<string>, after: seq<Block>, n: nat): seq<Op>
    requires n <= |after|
  {
    if n == 0 then []
    else
      (if StableAt(stable, after, n - 1) then [] else [InsertFor(stable, after, n - 1)]) +
      Inserts(stable, after, n - 1)
  }

  function NonEmptyIds(after: seq<Block>): set<string> { set b | b in after && b.id != "" :: b.id }

  function Diff(before: seq<Block>, after: seq<Block>, hashes: map<string, Hash>): seq<Op> {
    var stable := AsSet(StableIds(before, after));
    Updates(ById(before), stable, after, hashes, |after|) +
    Removes(NonEmptyIds(after), stable, before, hashes) +
    Inserts(stable, after, |after|)
  }

  // ---------------------------------------------------------------- the loops

  method IndexBlocks(bs: seq<Block>) returns (byId: map<string, Block>)
    ensures byId == ById(bs)
  {
    byId := map[];
    for i := 0 to |bs|
      invariant byId == ById(bs[..i])
    {
      assert Front(bs[..i + 1]) == bs[..i];
      byId := byId[bs[i].id := bs[i]];
    }
    assert bs[..|bs|] == bs;
  }

  /** The first pass: survivors in order, and the entries that are inserts at once. */
  method Survivors(known: set<string>, after: seq<Block>) returns (keptIds: seq<string>, insertEntries: set<nat>)
    ensures keptIds == KeptIds(known, after)
    ensures forall i: nat :: i in insertEntries <==> i < |after| && !KeptAt(known, after, i)
  {
    var seen: set<string> := {};
    keptIds, insertEntries := [], {};
    for i := 0 to |after|
      invariant keptIds == KeptIds(known, after[..i]) && seen == AsSet(keptIds)
      invariant forall k: nat :: k in insertEntries <==> k < i && !KeptAt(known, after, k)
    {
      var block := after[i];
      assert Front(after[..i + 1]) == after[..i];
      KeptElements(known, after, i);
      if block.id != "" && block.id in known && block.id !in seen {
        seen := seen + {block.id};
        keptIds := keptIds + [block.id];
      } else {
        insertEntries := insertEntries + {i};
      }
    }
    assert after[..|after|] == after;
  }

  predicate KeptAt(known: set<string>, after: seq<Block>, i: nat)
    requires i < |after|
  {
    after[i].id != "" && after[i].id in known && forall j :: 0 <= j < i ==> after[j].id != after[i].id
  }

  lemma {:induction false} KeptElements(known: set<string>, after: seq<Block>, n: nat)
    requires n <= |after|
    ensures forall x :: x in KeptIds(known, after[..n])
                   <==> x != "" && x in known && exists j :: 0 <= j < n && after[j].id == x
    ensures Distinct(KeptIds(known, after[..n]))
  {
    if n > 0 {
      assert Front(after[..n]) == after[..n - 1];
      KeptElements(known, after, n - 1);
    }
  }

  /** `before.map((b) => b.id).filter((id) => seen.has(id))`. */
  method FilterIds(bs: seq<Block>, seen: set<string>) returns (ids: seq<string>)
    ensures ids == Keep(IdsOf(bs), seen)
  {
    ids := [];
    for i := 0 to |bs|
      invariant ids == Keep(IdsOf(bs)[..i], seen)
    {
      assert Front(IdsOf(bs)[..i + 1]) == IdsOf(bs)[..i];
      if bs[i].id in seen { ids := ids + [bs[i].id]; }
    }
    assert IdsOf(bs)[..|bs|] == IdsOf(bs);
  }

  method DiffBlocksToOps(before: seq<Block>, after: seq<Block>, hashes: map<string, Hash>) returns (ops: seq<Op>)
    ensures ops == Diff(before, after, hashes)
  {
    var beforeById := IndexBlocks(before);
    KnownIds(before);
    var keptIds, insertEntries := Survivors(beforeById.Keys, after);
    var beforeSeq := FilterIds(before, set x | x in keptIds);
    var common := LongestCommonSubsequence(beforeSeq, keptIds);
    var stable := set x | x in common;
    assert stable == AsSet(StableIds(before, after));
    StableIsKept(before, after);
    insertEntries := AddUnstable(beforeById.Keys, stable, after, insertEntries);
    ops := PushUpdates(beforeById, stable, after, hashes, insertEntries);
    var removes := PushRemoves(NonEmptyIds(after), stable, before, hashes);
    ops := ops + removes;
    var inserts := PushInserts(stable, after, insertEntries);
    ops := ops + inserts;
  }

  lemma {:induction false} KnownIds(bs: seq<Block>)
    ensures ById(bs).Keys == AsSet(IdsOf(bs))
    decreases |bs|
  {
    if bs != [] {
      KnownIds(Front(bs));
      assert IdsOf(bs) == IdsOf(Front(bs)) + [Last(bs).id];
    }
  }

  /** Stable ids are among the kept ones. */
  lemma StableIsKept(before: seq<Block>, after: seq<Block>)
    ensures forall x :: x in StableIds(before, after) ==> x in KeptIds(AsSet(IdsOf(before)), after)
  {
    var kept := KeptIds(AsSet(IdsOf(before)), after);
    LcsIsCommon(Keep(IdsOf(before), AsSet(kept)), kept);
    SubElements(StableIds(before, after), kept);
  }

  /** Kept entries whose id is not stable become inserts too. */
  method AddUnstable(known: set<string>, stable: set<string>, after: seq<Block>, entries: set<nat>)
    returns (all: set<nat>)
    requires forall i: nat :: i in entries <==> i < |after| && !KeptAt(known, after, i)
    requires forall x :: x in stable ==> x in KeptIds(known, after)
    ensures forall i: nat :: i in all <==> i < |after| && !StableAt(stable, after, i)
  {
    assert after[..|after|] == after;
    KeptElements(known, after, |after|);
    all := entries;
    for i := 0 to |after|
      invariant forall k: nat ::
                  k in all <==> k < |after| && (if k < i then !StableAt(stable, after, k) else k in entries)
    {
      if i !in all && after[i].id !in stable {
        all := all + {i};
      }
    }
  }

  method PushUpdates(byId: map<string, Block>, stable: set<string>, after: seq<Block>, hashes: map<string, Hash>,
                     insertEntries: set<nat>)
    returns (ops: seq<Op>)
    requires forall i: nat :: i in insertEntries <==> i < |after| && !StableAt(stable, after, i)
    ensures ops == Updates(byId, stable, after, hashes, |after|)
  {
    ops := [];
    for i := 0 to |after|
      invariant ops == Updates(byId, stable, after, hashes, i)
    {
      var block := after[i];
      if i in insertEntries || block.id !in byId { continue; }
      var prior := byId[block.id];
      var patch := NO_PATCH;
      if block.kind != prior.kind { patch := patch.(kind := Some(block.kind)); }
      if block.props != prior.props { patch := patch.(props := Some(block.props)); }
      if block.content != prior.content { patch := patch.(content := Some(Runs(block.content))); }
      if patch == NO_PATCH { continue; }
      ops := ops + [Update(block.id, patch, HashFor(hashes, block.id))];
    }
  }

  lemma Regroup(ops: seq<Op>, op: Op, rest: seq<Op>)
    ensures ops + ([op] + rest) == ops + [op] + rest
  {
  }

  method PushRemoves(afterIds: set<string>, stable: set<string>, before: seq<Block>, hashes: map<string, Hash>)
    returns (ops: seq<Op>)
    ensures ops == Removes(afterIds, stable, before, hashes)
  {
    ops := [];
    for i := 0 to |before|
      invariant ops + Removes(afterIds, stable, before[i..], hashes) == Removes(afterIds, stable, before, hashes)
    {
      var block := before[i];
      assert before[i..][0] == block && before[i..][1..] == before[i + 1..];
      if block.id in afterIds && block.id in stable { continue; }
      var rest := Removes(afterIds, stable, before[i + 1..], hashes);
      var op := Remove(block.id, HashFor(hashes, block.id));
      Regroup(ops, op, rest);
      ops := ops + [op];
    }
    assert ops + [] == ops;
  }

  lemma InsertsAt(stable: set<string>, after: seq<Block>, i: nat)
    requires i < |after|
    ensures Inserts(stable, after, i + 1) == if StableAt(stable, after, i) then Inserts(stable, after, i)
                                             else [InsertFor(stable, after, i)] + Inserts(stable, after, i)
  {
  }

  method PushInserts(stable: set<string>, after: seq<Block>, insertEntries: set<nat>) returns (ops: seq<Op>)
    requires forall i: nat :: i in insertEntries <==> i < |after| && !StableAt(stable, after, i)
    ensures ops == Inserts(stable, after, |after|)
  {
    ops := [];
    var i := |after|;
    while i > 0
      invariant 0 <= i <= |after|
      invariant ops + Inserts(stable, after, i) == Inserts(stable, after, |after|)
    {
      i := i - 1;
      InsertsAt(stable, after, i);
      if i !in insertEntries { continue; }
      var anchor := FindAnchor(stable, after, insertEntries, i);
      var block := after[i];
      var content := NormalizeRuns(block.content);
      var op := Insert(block.kind, if block.props != map[] then Some(block.props) else None,
                       if content != [] then Runs(content) else Missing, anchor);
      assert op == InsertFor(stable, after, i);
      Regroup(ops, op, Inserts(stable, after, i));
      ops := ops + [op];
    }
    assert ops + [] == ops;
  }

  method FindAnchor(stable: set<string>, after: seq<Block>, insertEntries: set<nat>, i: nat)
    returns (anchor: Option<string>)
    requires i < |after| && forall k: nat :: k in insertEntries <==> k < |after| && !StableAt(stable, after, k)
    ensures anchor == Anchor(stable, after, i)
  {
    var j := i;
    while j > 0
      invariant 0 <= j <= i
      invariant Anchor(stable, after, i) == Anchor(stable, after, j)
    {
      j := j - 1;
      if j !in insertEntries && after[j].id in stable {
        return Some(after[j].id);
      }
    }
    anchor := None;
  }
}
