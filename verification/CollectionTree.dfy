/** Whole logs keep the collections a forest in which every child carries its parent's space, which
    is what lets one `collection.move` row stand for the rebinding of a whole subtree. */
module CollectionTree {
  import opened Options
  import opened AuditReducer

  // ---------------------------------------------------------------- the invariant

  /** Every parent link leads to a collection that is nearer the root. */
  ghost predicate Ranked(m: map<string, Collection>, rank: map<string, nat>) {
    rank.Keys == m.Keys && forall k :: k in m && m[k].parent_id.Some? ==> RankedAt(m, rank, k)
  }

  ghost predicate RankedAt(m: map<string, Collection>, rank: map<string, nat>, k: string)
    requires rank.Keys == m.Keys && k in m && m[k].parent_id.Some?
  {
    var p := m[k].parent_id.value;
    p in m && rank[p] < rank[k]
  }

  ghost predicate Forest(m: map<string, Collection>) { exists rank: map<string, nat> :: Ranked(m, rank) }

  /** Denormalization: a child carries its parent's space binding. */
  ghost predicate SpacesAgree(m: map<string, Collection>) {
    forall k :: k in m && m[k].parent_id.Some? && m[k].parent_id.value in m ==>
      m[k].space_id == m[m[k].parent_id.value].space_id
  }

  ghost predicate TreeInv(m: map<string, Collection>) { Keyed(m) && Forest(m) && SpacesAgree(m) }

  /** Climbing lowers the rank, so no collection is its own ancestor. */
  lemma {:induction false} ClimbLowersRank(m: map<string, Collection>, rank: map<string, nat>, x: string, y: string,
                                           n: nat)
    requires Ranked(m, rank) && x in m && Climbs(m, x, y, n)
    ensures y in m && rank[y] + n <= rank[x]
    decreases n
  {
    if n > 0 {
      assert RankedAt(m, rank, x);
      ClimbLowersRank(m, rank, m[x].parent_id.value, y, n - 1);
    }
  }

  lemma ForestsAreAcyclic(m: map<string, Collection>, x: string, n: nat)
    requires Forest(m) && n > 0
    ensures !Climbs(m, x, x, n)
  {
    var rank :| Ranked(m, rank);
    if Climbs(m, x, x, n) { ClimbLowersRank(m, rank, x, x, n); }
  }

  // ---------------------------------------------------------------- create

  lemma CreateKeepsTree(m: map<string, Collection>, c: Collection)
    requires TreeInv(m) && c.id !in m
    requires c.parent_id.Some? ==> c.parent_id.value in m && m[c.parent_id.value].space_id == c.space_id
    ensures TreeInv(m[c.id := c])
  {
    var out := m[c.id := c];
    var rank :| Ranked(m, rank);
    var rank' := rank[c.id := if c.parent_id.Some? then rank[c.parent_id.value] + 1 else 0];
    forall k | k in out && out[k].parent_id.Some?
      ensures out[k].parent_id.value in out && rank'[out[k].parent_id.value] < rank'[k] &&
              out[k].space_id == out[out[k].parent_id.value].space_id
    {
      if k != c.id { assert RankedAt(m, rank, k); }
    }
    assert forall k :: k in out && out[k].parent_id.Some? ==> RankedAt(out, rank', k);
    assert Ranked(out, rank');
  }

  // ---------------------------------------------------------------- move

  function Moved(m: map<string, Collection>, id: string, parent: Option<string>, key: string): map<string, Collection>
    requires id in m
  {
    m[id := m[id].(parent_id := parent, order_key := key)]
  }

  ghost predicate Bounds(rank: map<string, nat>, top: nat) { forall k :: k in rank ==> rank[k] <= top }

  lemma {:induction false} SomeBound(rank: map<string, nat>) returns (top: nat)
    ensures Bounds(rank, top)
    decreases |rank|
  {
    top := 0;
    if rank != map[] {
      var k :| k in rank;
      var rest := rank - {k};
      assert rest.Keys == rank.Keys - {k};
      var below := SomeBound(rest);
      top := below + rank[k];
      forall j | j in rank ensures rank[j] <= top { assert j != k ==> j in rest && rest[j] == rank[j]; }
    }
  }

  /** Lifting the moved subtree above everything else ranks the result. */
  lemma MoveKeepsForest(m: map<string, Collection>, id: string, parent: Option<string>, key: string)
    requires Keyed(m) && Forest(m) && id in m
    requires parent.Some? ==> parent.value in m && !InSubtree(m, parent.value, id)
    ensures Forest(Moved(m, id, parent, key))
  {
    var out := Moved(m, id, parent, key);
    var rank :| Ranked(m, rank);
    var top := SomeBound(rank);
    var lift := top + 1;
    var rank' := map k | k in m :: if InSubtree(m, k, id) then rank[k] + lift else rank[k];
    assert Climbs(m, id, id, 0);
    forall k | k in out && out[k].parent_id.Some? ensures RankedAt(out, rank', k) {
      if k != id {
        assert RankedAt(m, rank, k);
        StepInSubtree(m, k, id);
      }
    }
    assert Ranked(out, rank');
  }

  /** Below the root, a collection is in the subtree exactly when its parent is. */
  lemma StepInSubtree(m: map<string, Collection>, k: string, root: string)
    requires k in m && m[k].parent_id.Some? && k != root
    ensures InSubtree(m, k, root) <==> InSubtree(m, m[k].parent_id.value, root)
  {
    if InSubtree(m, k, root) {
      var n: nat :| Climbs(m, k, root, n);
      assert Climbs(m, m[k].parent_id.value, root, n - 1);
    }
    if InSubtree(m, m[k].parent_id.value, root) { ChildDescends(m, k, root); }
  }

  /** Re-parenting a collection does not change who climbs to it. */
  lemma {:induction false} ClimbSurvivesMove(m: map<string, Collection>, id: string, parent: Option<string>,
                                             key: string, x: string, n: nat)
    requires id in m && Climbs(m, x, id, n)
    ensures InSubtree(Moved(m, id, parent, key), x, id)
    decreases n
  {
    var out := Moved(m, id, parent, key);
    if x == id {
      assert Climbs(out, id, id, 0);
    } else {
      ClimbSurvivesMove(m, id, parent, key, m[x].parent_id.value, n - 1);
      ChildDescends(out, x, id);
    }
  }

  /** A move to an existing parent keeps the forest exactly when the parent is outside the moved subtree. */
  lemma MoveKeepsForestIff(m: map<string, Collection>, id: string, parent: string, key: string)
    requires Keyed(m) && Forest(m) && id in m && parent in m
    ensures Forest(Moved(m, id, Some(parent), key)) <==> !InSubtree(m, parent, id)
  {
    var out := Moved(m, id, Some(parent), key);
    if InSubtree(m, parent, id) {
      var n: nat :| Climbs(m, parent, id, n);
      ClimbSurvivesMove(m, id, Some(parent), key, parent, n);
      var j: nat :| Climbs(out, parent, id, j);
      assert Climbs(out, id, id, j + 1);
      if Forest(out) { ForestsAreAcyclic(out, id, j + 1); }
    } else {
      MoveKeepsForest(m, id, Some(parent), key);
    }
  }

  /** Stamping the moved subtree with the new parent's space restores the denormalization. */
  lemma ReboundAgrees(m: map<string, Collection>, id: string, space: Option<string>)
    requires Keyed(m) && Forest(m) && id in m
    requires forall k :: k in m && k != id && m[k].parent_id.Some? && m[k].parent_id.value in m ==>
             m[k].space_id == m[m[k].parent_id.value].space_id
    requires m[id].parent_id.Some? ==> m[id].parent_id.value in m && m[m[id].parent_id.value].space_id == space
    ensures TreeInv(Rebound(m, id, space))
  {
    var out := Rebound(m, id, space);
    var rank :| Ranked(m, rank);
    assert Climbs(m, id, id, 0);
    forall k | k in out && out[k].parent_id.Some?
      ensures RankedAt(out, rank, k) && out[k].space_id == out[out[k].parent_id.value].space_id
    {
      assert RankedAt(m, rank, k);
      var p := m[k].parent_id.value;
      if k != id {
        StepInSubtree(m, k, id);
      } else if InSubtree(m, p, id) {
        var n: nat :| Climbs(m, p, id, n);
        assert Climbs(m, id, id, n + 1);
        ForestsAreAcyclic(m, id, n + 1);
      }
    }
    assert Ranked(out, rank);
  }

  /** Rebinding an unknown root touches nothing: no collection has a missing parent. */
  lemma ReboundUnknown(m: map<string, Collection>, id: string, space: Option<string>)
    requires Forest(m) && id !in m
    ensures Rebound(m, id, space) == m
  {
    var rank :| Ranked(m, rank);
    forall k | k in m ensures !InSubtree(m, k, id) {
      if InSubtree(m, k, id) {
        var n: nat :| Climbs(m, k, id, n);
        ClimbLowersRank(m, rank, k, id, n);
      }
    }
  }

  // ---------------------------------------------------------------- logs

  /** What the handlers guarantee of the rows they emit: a created id is fresh and takes an existing
      parent's binding; a move names an existing parent outside the moved subtree and takes its binding. */
  ghost predicate WellFormedEffect(m: map<string, Collection>, e: Effect) {
    match e
    case CollectionCreate(id, _, parent, space, _, _, _, _) =>
      id !in m && (parent.Some? ==> parent.value in m && m[parent.value].space_id == space)
    case CollectionMove(id, parent, _, space, _) =>
      parent.Some? ==> parent.value in m && !InSubtree(m, parent.value, id) && m[parent.value].space_id == space
    case _ => true
  }

  ghost predicate WellFormedLog(rows: seq<AuditRow>) {
    forall i :: 0 <= i < |rows| && rows[i].record.Allow? ==>
      WellFormedEffect(Replay(rows[..i]).collections, rows[i].record.effect)
  }

  lemma MoveKeepsTree(m: map<string, Collection>, e: Effect)
    requires TreeInv(m) && e.CollectionMove? && WellFormedEffect(m, e)
    ensures TreeInv(CollectionsAfter(m, e))
  {
    var id, parent, key := e.collection_id, e.new_parent_id, e.order_key;
    if id in m {
      var out := Moved(m, id, parent, key);
      MoveKeepsForest(m, id, parent, key);
      if parent.Some? { assert Climbs(m, id, id, 0); }
      ReboundAgrees(out, id, e.new_space_id);
    } else {
      ReboundUnknown(m, id, e.new_space_id);
    }
  }

  /** A patch that keeps ids, parents and spaces keeps the tree. */
  lemma PatchKeepsTree(m: map<string, Collection>, c: Collection)
    requires TreeInv(m) && c.id in m && m[c.id].parent_id == c.parent_id && m[c.id].space_id == c.space_id
    ensures TreeInv(m[c.id := c])
  {
    var out := m[c.id := c];
    var rank :| Ranked(m, rank);
    forall k | k in out && out[k].parent_id.Some? ensures RankedAt(out, rank, k) { assert RankedAt(m, rank, k); }
    assert Ranked(out, rank);
  }

  lemma PatchEffectKeepsTree(m: map<string, Collection>, e: Effect)
    requires TreeInv(m) && (e.CollectionUpdate? || e.CollectionSoftDelete? || e.CollectionRestore?)
    ensures TreeInv(CollectionsAfter(m, e))
  {
    var id := e.collection_id;
    if id in m { PatchKeepsTree(m, CollectionsAfter(m, e)[id]); }
  }

  lemma EffectKeepsTree(m: map<string, Collection>, e: Effect)
    requires TreeInv(m) && WellFormedEffect(m, e)
    ensures TreeInv(CollectionsAfter(m, e))
  {
    if e.CollectionCreate? {
      CreateKeepsTree(m, Collection(e.collection_id, e.workspace_id, e.parent_id, e.space, e.title, e.slug, e.order_key,
                                    e.created_by, None));
    } else if e.CollectionMove? {
      MoveKeepsTree(m, e);
    } else if OnCollections(e) {
      PatchEffectKeepsTree(m, e);
    }
  }

  /** Replaying any well-formed log yields an acyclic graph in which every child carries its
      parent's space. */
  lemma {:induction false} ReplayKeepsTree(rows: seq<AuditRow>)
    requires WellFormedLog(rows)
    ensures TreeInv(Replay(rows).collections)
  {
    if rows == [] {
      assert Ranked(map[], map[]);
    } else {
      var front, last := rows[..|rows| - 1], rows[|rows| - 1];
      assert forall i :: 0 <= i < |front| ==> front[i] == rows[i] && front[..i] == rows[..i];
      ReplayKeepsTree(front);
      if last.record.Allow? {
        EffectKeepsTree(Replay(front).collections, last.record.effect);
      }
    }
  }

  /** So every collection of a subtree carries its root's space, however deep. */
  lemma {:induction false} SubtreeSharesSpace(m: map<string, Collection>, x: string, root: string, n: nat)
    requires TreeInv(m) && x in m && Climbs(m, x, root, n)
    ensures root in m && m[x].space_id == m[root].space_id
    decreases n
  {
    if n > 0 {
      var rank :| Ranked(m, rank);
      assert RankedAt(m, rank, x);
      SubtreeSharesSpace(m, m[x].parent_id.value, root, n - 1);
    }
  }
}
