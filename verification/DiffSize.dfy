/** How much a diff says (packages/blocks/src/ops.ts): it is empty exactly when nothing changed, and
    when it keeps as many blocks in place as any choice of ids could. */
module DiffSize {
  import opened BlockModel
  import opened BlockOps
  import opened BlockDiff
  import opened Lcs
  import opened RoundTrip

  /** What the diff needs of the loaded list: every block has an id of its own. */
  ghost predicate Loaded(bs: seq<Block>) { Distinct(IdsOf(bs)) && "" !in IdsOf(bs) }

  predicate Childless(bs: seq<Block>) { forall i :: 0 <= i < |bs| ==> bs[i].children == [] }

  // ---------------------------------------------------------------- an unchanged list

  lemma {:induction false} SubOfSameLength(c: seq<string>, a: seq<string>)
    requires IsSub(c, a)
    ensures |c| <= |a| && (|c| == |a| ==> c == a)
    decreases |a|
  {
    if c != [] {
      if Last(c) == Last(a) && IsSub(Front(c), Front(a)) {
        SubOfSameLength(Front(c), Front(a));
        assert c == Front(c) + [Last(c)] && a == Front(a) + [Last(a)];
      } else {
        SubOfSameLength(c, Front(a));
      }
    }
  }

  lemma {:induction false} SubSelf(a: seq<string>)
    ensures IsSub(a, a)
    decreases |a|
  {
    if a != [] { SubSelf(Front(a)); }
  }

  lemma {:induction false} KeptAll(known: set<string>, after: seq<Block>)
    requires Distinct(IdsOf(after)) && forall i :: 0 <= i < |after| ==> after[i].id != "" && after[i].id in known
    ensures KeptIds(known, after) == IdsOf(after)
    decreases |after|
  {
    if after != [] {
      assert IdsOf(after) == IdsOf(Front(after)) + [Last(after).id];
      assert forall i :: 0 <= i < |after| - 1 ==> IdsOf(Front(after))[i] == IdsOf(after)[i];
      KeptAll(known, Front(after));
      assert Last(after).id !in IdsOf(Front(after));
    }
  }

  lemma {:induction false} KeepEvery(a: seq<string>, ids: set<string>)
    requires forall x :: x in a ==> x in ids
    ensures Keep(a, ids) == a
    decreases |a|
  {
    if a != [] {
      assert a == Front(a) + [Last(a)];
      KeepEvery(Front(a), ids);
    }
  }

  lemma SelfDiffIsStable(bs: seq<Block>)
    requires Loaded(bs)
    ensures StableIds(bs, bs) == IdsOf(bs)
  {
    var ids := IdsOf(bs);
    forall i | 0 <= i < |bs| ensures bs[i].id != "" { assert ids[i] in ids; }
    KeptAll(AsSet(ids), bs);
    KeepEvery(ids, AsSet(ids));
    SubSelf(ids);
    LcsIsOptimal(ids, ids);
    SubOfSameLength(Lcs.Lcs(ids, ids), ids);
  }

  lemma {:induction false} NoUpdates(bs: seq<Block>, stable: set<string>, hashes: map<string, Hash>, n: nat)
    requires Distinct(IdsOf(bs)) && n <= |bs|
    ensures Updates(ById(bs), stable, bs, hashes, n) == []
  {
    if n > 0 {
      NoUpdates(bs, stable, hashes, n - 1);
      ByIdAt(bs, n - 1);
    }
  }

  lemma {:induction false} NoRemovesIff(
      afterIds: set<string>, stable: set<string>, bs: seq<Block>, hashes: map<string, Hash>)
    ensures Removes(afterIds, stable, bs, hashes) == []
       <==> forall i :: 0 <= i < |bs| ==> bs[i].id in afterIds && bs[i].id in stable
  {
    if bs != [] {
      assert forall i :: 0 <= i < |bs[1..]| ==> bs[1..][i] == bs[i + 1];
      assert forall i :: 1 <= i < |bs| ==> bs[i] == bs[1..][i - 1];
      NoRemovesIff(afterIds, stable, bs[1..], hashes);
    }
  }

  lemma {:induction false} NoInsertsIff(stable: set<string>, after: seq<Block>, n: nat)
    requires n <= |after|
    ensures Inserts(stable, after, n) == [] <==> forall i :: 0 <= i < n ==> StableAt(stable, after, i)
  {
    if n > 0 { NoInsertsIff(stable, after, n - 1); }
  }

  lemma SelfDiffIsEmpty(bs: seq<Block>, hashes: map<string, Hash>)
    requires Loaded(bs)
    ensures Diff(bs, bs, hashes) == []
  {
    SelfDiffIsStable(bs);
    var stable := AsSet(IdsOf(bs));
    NoUpdates(bs, stable, hashes, |bs|);
    forall i | 0 <= i < |bs| ensures bs[i].id in NonEmptyIds(bs) && bs[i].id in stable && StableAt(stable, bs, i) {
      assert bs[i] in bs && IdsOf(bs)[i] == bs[i].id;
      forall j | 0 <= j < i ensures bs[j].id != bs[i].id { assert IdsOf(bs)[j] != IdsOf(bs)[i]; }
    }
    NoRemovesIff(NonEmptyIds(bs), stable, bs, hashes);
    NoInsertsIff(stable, bs, |bs|);
  }

  // ---------------------------------------------------------------- an empty diff

  ghost predicate PatchFree(byId: map<string, Block>, b: Block) {
    b.id in byId ==> PatchFor(byId[b.id], b) == NO_PATCH
  }

  lemma {:induction false} NoUpdatesMeans(
      byId: map<string, Block>, stable: set<string>, after: seq<Block>, hashes: map<string, Hash>, n: nat)
    requires n <= |after| && Updates(byId, stable, after, hashes, n) == []
    ensures forall i :: 0 <= i < n && StableAt(stable, after, i) ==> PatchFree(byId, after[i])
  {
    if n > 0 { NoUpdatesMeans(byId, stable, after, hashes, n - 1); }
  }

  lemma {:induction false} AllStable(stable: set<string>, after: seq<Block>, n: nat)
    requires n <= |after| && forall i :: 0 <= i < n ==> StableAt(stable, after, i)
    ensures StableBlocks(stable, after, n) == after[..n]
  {
    if n > 0 { AllStable(stable, after, n - 1); }
  }

  /** Without inserts and removes both lists hold the stable ids in their order. */
  lemma SameIds(before: seq<Block>, after: seq<Block>, hashes: map<string, Hash>)
    requires Loaded(before) && Diff(before, after, hashes) == []
    ensures IdsOf(after) == IdsOf(before)
    ensures forall i :: 0 <= i < |after| ==> StableAt(AsSet(StableIds(before, after)), after, i)
  {
    var s := StableIds(before, after);
    var stable := AsSet(s);
    NoInsertsIff(stable, after, |after|);
    NoRemovesIff(NonEmptyIds(after), stable, before, hashes);
    AllStable(stable, after, |after|);
    assert after[..|after|] == after;
    StableBlocksIds(before, after, stable, |after|);
    StableOrder(before, after);
    KeepEvery(IdsOf(before), stable);
  }

  lemma NoPatchMeans(prior: Block, b: Block)
    requires PatchFor(prior, b) == NO_PATCH
    ensures b.kind == prior.kind && b.props == prior.props && b.content == prior.content
  {
    var patch := PatchFor(prior, b);
    assert patch.kind.None? && patch.props.None? && patch.content.None?;
  }

  lemma UnpatchedIsSame(before: seq<Block>, b: Block, i: nat)
    requires Distinct(IdsOf(before)) && i < |before| && b.id == before[i].id && b.children == before[i].children
    requires PatchFree(ById(before), b)
    ensures b == before[i]
  {
    ByIdAt(before, i);
    NoPatchMeans(before[i], b);
  }

  /** The diff is empty exactly when nothing changed, canonical or not. */
  lemma EmptyDiffIff(before: seq<Block>, after: seq<Block>, hashes: map<string, Hash>)
    requires Loaded(before) && Childless(before) && Childless(after)
    ensures Diff(before, after, hashes) == [] <==> after == before
  {
    SelfDiffIsEmpty(before, hashes);
    if Diff(before, after, hashes) == [] { EmptyDiffMeans(before, after, hashes); }
  }

  lemma EmptyDiffMeans(before: seq<Block>, after: seq<Block>, hashes: map<string, Hash>)
    requires Loaded(before) && Childless(before) && Childless(after) && Diff(before, after, hashes) == []
    ensures after == before
  {
    SameIds(before, after, hashes);
    NoUpdatesMeans(ById(before), AsSet(StableIds(before, after)), after, hashes, |after|);
    assert |IdsOf(after)| == |after| && |IdsOf(before)| == |before|;
    forall i | 0 <= i < |after| ensures after[i] == before[i] {
      assert IdsOf(after)[i] == IdsOf(before)[i];
      UnpatchedIsSame(before, after[i], i);
    }
  }

  // ---------------------------------------------------------------- how much is kept in place

  /** How many blocks the diff leaves where they are. */
  function KeptCount(before: seq<Block>, after: seq<Block>): nat {
    |StableBlocks(AsSet(StableIds(before, after)), after, |after|)|
  }

  /** No list of ids that occurs in order on both sides is longer than what the diff keeps. */
  ghost predicate KeepsTheMost(before: seq<Block>, after: seq<Block>) {
    forall c :: IsSub(c, IdsOf(before)) && IsSub(c, IdsOf(after)) ==> |c| <= KeptCount(before, after)
  }

  /** Leaving out ids the server does not know, copies of a block stand right behind it. */
  ghost predicate CopiesFollow(after: seq<Block>, known: set<string>) {
    forall i, k, j :: 0 <= i < k < j < |after| && after[i].id == after[j].id && after[i].id in known ==>
      after[k].id == after[i].id || after[k].id !in known
  }

  lemma KeptCountIs(before: seq<Block>, after: seq<Block>)
    requires Distinct(IdsOf(before))
    ensures KeptCount(before, after) == |StableIds(before, after)|
  {
    assert after[..|after|] == after;
    StableBlocksIds(before, after, AsSet(StableIds(before, after)), |after|);
    StableOrder(before, after);
  }

  lemma {:induction false} SubDistinct(c: seq<string>, a: seq<string>)
    requires IsSub(c, a) && Distinct(a)
    ensures Distinct(c)
    decreases |a|
  {
    if c != [] {
      if Last(c) == Last(a) && IsSub(Front(c), Front(a)) {
        SubDistinct(Front(c), Front(a));
        SubElements(Front(c), Front(a));
        assert forall i :: 0 <= i < |c| - 1 ==> c[i] == Front(c)[i] && c[i] in Front(c);
      } else {
        SubDistinct(c, Front(a));
      }
    }
  }

  lemma {:induction false} SubKeep(c: seq<string>, a: seq<string>, ids: set<string>)
    requires IsSub(c, a) && forall x :: x in c ==> x in ids
    ensures IsSub(c, Keep(a, ids))
    decreases |a|
  {
    if c != [] {
      var k := Keep(Front(a), ids);
      if Last(c) == Last(a) && IsSub(Front(c), Front(a)) {
        SubKeep(Front(c), Front(a), ids);
        assert Keep(a, ids) == k + [Last(a)] && Front(k + [Last(a)]) == k;
      } else {
        SubKeep(c, Front(a), ids);
        assert Front(k + [Last(a)]) == k && k + [] == k;
      }
    }
  }

  lemma {:induction false} SubWithout(c: seq<string>, a: seq<string>)
    requires a != [] && IsSub(c, a) && Last(a) !in c
    ensures IsSub(c, Front(a))
  {
  }

  /** After a known block all of whose followers are copies of it, it was the last id kept. */
  lemma {:induction false} LastKept(known: set<string>, after: seq<Block>, n: nat, j: nat, x: string)
    requires n <= j < |after| && CopiesFollow(after, known) && after[j].id == x && x in known && x != ""
    requires exists i :: 0 <= i < n && after[i].id == x
    requires forall k :: n <= k < j ==> after[k].id == x || after[k].id !in known
    ensures KeptIds(known, after[..n]) != [] && Last(KeptIds(known, after[..n])) == x
    decreases n
  {
    var i :| 0 <= i < n && after[i].id == x;
    assert Front(after[..n]) == after[..n - 1];
    KeptElements(known, after, n - 1);
    if exists e :: 0 <= e < n - 1 && after[e].id == x {
      var e :| 0 <= e < n - 1 && after[e].id == x;
      assert after[n - 1].id == x || after[n - 1].id !in known;
      LastKept(known, after, n - 1, j, x);
    }
  }

  /** What occurs in order in such a list occurs in order among the first occurrences. */
  lemma {:induction false} SubOfKept(c: seq<string>, known: set<string>, after: seq<Block>, n: nat)
    requires n <= |after| && CopiesFollow(after, known) && "" !in known
    requires IsSub(c, IdsOf(after[..n])) && Distinct(c) && forall x :: x in c ==> x in known
    ensures IsSub(c, KeptIds(known, after[..n]))
    decreases n
  {
    if c != [] {
      var ids, x := IdsOf(after[..n]), after[n - 1].id;
      assert Front(after[..n]) == after[..n - 1] && Front(ids) == IdsOf(after[..n - 1]) && Last(ids) == x;
      var kept := KeptIds(known, after[..n - 1]);
      assert Front(kept + [x]) == kept && Last(kept + [x]) == x;
      if IsSub(c, Front(ids)) {
        SubOfKept(c, known, after, n - 1);
      } else {
        assert x == Last(c) && x in c;
        assert forall i :: 0 <= i < |Front(c)| ==> Front(c)[i] == c[i] != x;
        SubOfKept(Front(c), known, after, n - 1);
        if x in kept {
          KeptElements(known, after, n - 1);
          LastKept(known, after, n - 1, n - 1, x);
          SubWithout(Front(c), kept);
        }
      }
    }
  }

  /** Where copies follow their block, no choice of ids to keep in place beats the diff. */
  lemma DiffKeepsTheMost(before: seq<Block>, after: seq<Block>)
    requires Loaded(before) && CopiesFollow(after, AsSet(IdsOf(before)))
    ensures KeepsTheMost(before, after)
  {
    var ids := IdsOf(before);
    var known := AsSet(ids);
    var kept := KeptIds(known, after);
    assert after[..|after|] == after;
    KeptCountIs(before, after);
    forall c | IsSub(c, ids) && IsSub(c, IdsOf(after)) ensures |c| <= KeptCount(before, after) {
      SubDistinct(c, ids);
      SubElements(c, ids);
      SubOfKept(c, known, after, |after|);
      SubElements(c, kept);
      SubKeep(c, ids, AsSet(kept));
      LcsIsOptimal(Keep(ids, AsSet(kept)), kept);
    }
  }

  // ---------------------------------------------------------------- copies elsewhere

  lemma {:induction false} OneIsSub(a: seq<string>, u: nat)
    requires u < |a|
    ensures IsSub([a[u]], a)
    decreases |a|
  {
    assert Front([a[u]]) == [] && Last([a[u]]) == a[u];
    if u < |a| - 1 { OneIsSub(Front(a), u); }
  }

  lemma {:induction false} PairIsSub(a: seq<string>, u: nat, v: nat)
    requires u < v < |a|
    ensures IsSub([a[u], a[v]], a)
    decreases |a|
  {
    if v == |a| - 1 {
      assert Front([a[u], a[v]]) == [a[u]] && Last([a[u], a[v]]) == Last(a);
      OneIsSub(Front(a), u);
    } else {
      PairIsSub(Front(a), u, v);
    }
  }

  lemma SwappedLcs(p: string, q: string)
    requires p != q
    ensures |Lcs.Lcs([q, p], [p, q])| == 1
  {
    assert Front([q, p]) == [q] && Front([p, q]) == [p] && Last([q, p]) == p && Last([p, q]) == q;
    assert Front([q]) == [] && Front([p]) == [] && Last([q]) == q && Last([p]) == p;
    assert Length([q], [p]) == 0 && Length([q], [p, q]) == 1;
    assert Length([q], []) == 0 && Length([q, p], [p]) == 1;
    LcsIsCommon([q, p], [p, q]);
  }

  function Paragraph(id: string): Block { Block(id, "paragraph", map[], [], []) }

  lemma ApartFrom(s: seq<string>, e: nat, u: nat, v: nat)
    requires Distinct(s) && e < |s| && u < |s| && v < |s| && e != u && e != v
    ensures s[e] != s[u] && s[e] != s[v]
  {
  }

  lemma TwoElements(s: seq<string>, x: string, y: string)
    requires x != y && Distinct(s) && x in s && y in s && forall i :: 0 <= i < |s| ==> s[i] == x || s[i] == y
    ensures s == [x, y] || s == [y, x]
  {
    var u :| 0 <= u < |s| && s[u] == x;
    var v :| 0 <= v < |s| && s[v] == y;
    if |s| > 2 {
      var e := if u != 0 && v != 0 then 0 else if u != 1 && v != 1 then 1 else 2;
      ApartFrom(s, e, u, v);
      assert false;
    }
  }

  lemma TwoKept(x: string, y: string, known: set<string>, after: seq<Block>, i: nat, k: nat)
    requires x != y && x != "" && y != "" && known == {x, y}
    requires i < |after| && k < |after| && after[i].id == x && after[k].id == y
    ensures KeptIds(known, after) == [x, y] || KeptIds(known, after) == [y, x]
  {
    assert after[..|after|] == after;
    KeptElements(known, after, |after|);
    var kept := KeptIds(known, after);
    assert x in kept && y in kept;
    forall e | 0 <= e < |kept| ensures kept[e] == x || kept[e] == y { assert kept[e] in kept; }
    TwoElements(kept, x, y);
  }

  lemma SwappedLoad(p: string, q: string, after: seq<Block>)
    requires p != q && p != "" && q != "" && KeptIds({p, q}, after) == [p, q]
    requires IsSub([q, p], IdsOf(after))
    ensures Loaded([Paragraph(q), Paragraph(p)]) && !KeepsTheMost([Paragraph(q), Paragraph(p)], after)
  {
    var before := [Paragraph(q), Paragraph(p)];
    assert IdsOf(before) == [q, p] && AsSet([q, p]) == {p, q};
    KeepEvery([q, p], AsSet([p, q]));
    SwappedLcs(p, q);
    KeptCountIs(before, after);
    SubSelf([q, p]);
  }

  /** A copy that another block separates from its original defeats the diff on some loaded list. */
  lemma StrayCopyCosts(after: seq<Block>, i: nat, k: nat, j: nat) returns (before: seq<Block>)
    requires i < k < j < |after| && after[i].id == after[j].id != "" && after[k].id != "" && after[k].id != after[i].id
    ensures Loaded(before) && !KeepsTheMost(before, after)
  {
    var x, y, ids := after[i].id, after[k].id, IdsOf(after);
    assert {y, x} == {x, y};
    TwoKept(x, y, {x, y}, after, i, k);
    PairIsSub(ids, i, k);
    PairIsSub(ids, k, j);
    if KeptIds({x, y}, after) == [x, y] {
      SwappedLoad(x, y, after);
      before := [Paragraph(y), Paragraph(x)];
    } else {
      SwappedLoad(y, x, after);
      before := [Paragraph(x), Paragraph(y)];
    }
  }

  /** An edited list is kept in place as far as possible, whatever was loaded, exactly when every
      copy in it follows its block. */
  lemma DiffKeepsTheMostIff(after: seq<Block>)
    ensures (forall before :: Loaded(before) ==> KeepsTheMost(before, after))
            <==> CopiesFollow(after, NonEmptyIds(after))
  {
    var all := NonEmptyIds(after);
    if CopiesFollow(after, all) {
      forall before | Loaded(before) ensures KeepsTheMost(before, after) {
        KnownCopiesFollow(before, after);
        DiffKeepsTheMost(before, after);
      }
    } else {
      var i, k, j :| 0 <= i < k < j < |after| && after[i].id == after[j].id && after[i].id in all &&
                     after[k].id != after[i].id && after[k].id in all;
      var before := StrayCopyCosts(after, i, k, j);
    }
  }

  lemma KnownCopiesFollow(before: seq<Block>, after: seq<Block>)
    requires Loaded(before) && CopiesFollow(after, NonEmptyIds(after))
    ensures CopiesFollow(after, AsSet(IdsOf(before)))
  {
    forall i | 0 <= i < |after| && after[i].id in AsSet(IdsOf(before)) ensures after[i].id in NonEmptyIds(after) {
      assert after[i] in after && after[i].id != "";
    }
  }

  /** Pasting a copy of `b` above `a` costs a place: `[a, b]` stays in order, and the diff keeps one. */
  lemma PastedAboveCosts(a: string, b: string)
    requires a != b && a != "" && b != ""
    ensures var before, after := [Paragraph(a), Paragraph(b)], [Paragraph(b), Paragraph(a), Paragraph(b)];
            IsSub([a, b], IdsOf(before)) && IsSub([a, b], IdsOf(after)) && KeptCount(before, after) == 1
  {
    var before, after := [Paragraph(a), Paragraph(b)], [Paragraph(b), Paragraph(a), Paragraph(b)];
    assert IdsOf(before) == [a, b] && IdsOf(after) == [b, a, b];
    SubSelf([a, b]);
    PairIsSub([b, a, b], 1, 2);
    FirstTwoKept(after, AsSet([a, b]), a, b);
    KeepEvery([a, b], AsSet([b, a]));
    SwappedLcs(b, a);
    KeptCountIs(before, after);
  }

  lemma FirstTwoKept(after: seq<Block>, known: set<string>, a: string, b: string)
    requires after == [Paragraph(b), Paragraph(a), Paragraph(b)] && a != b && a != "" && b != ""
    requires a in known && b in known
    ensures KeptIds(known, after) == [b, a]
  {
    assert Front(after) == [Paragraph(b), Paragraph(a)] && Front(Front(after)) == [Paragraph(b)];
    assert Front(Front(Front(after))) == [];
    assert KeptIds(known, Front(Front(after))) == [b];
    assert KeptIds(known, Front(after)) == [b, a];
  }
}
