/** Which collection requests are accepted, and what each of them changes, read off the tables and the
    request (packages/capabilities/src/collection/). */
module CollectionLaws {
  import opened Options
  import opened AuditReducer
  import opened CollectionTree
  import opened CollectionHandlers

  // ---------------------------------------------------------------- up and down the tree

  /** `c` and the `n - 1` rows above it are live, none of them is `avoid`, and the last has no parent. */
  ghost predicate RootedIn(m: map<string, Collection>, c: string, avoid: Option<string>, n: nat)
    decreases n
  {
    && n > 0 && Live(m, c) && Some(c) != avoid
    && match m[c].parent_id
       case None => n == 1
       case Some(p) => n > 1 && RootedIn(m, p, avoid, n - 1)
  }

  lemma {:induction false} WalkFinds(m: map<string, Collection>, c: string, avoid: Option<string>, seen: nat,
                                     limit: nat)
    requires seen <= limit && WalkUp(m, Some(c), avoid, seen, limit).Reached?
    ensures var nodes := WalkUp(m, Some(c), avoid, seen, limit).nodes;
            seen < nodes <= limit && RootedIn(m, c, avoid, nodes - seen)
    decreases limit - seen
  {
    if m[c].parent_id.Some? { WalkFinds(m, m[c].parent_id.value, avoid, seen + 1, limit); }
  }

  lemma {:induction false} RootedIsWalked(m: map<string, Collection>, c: string, avoid: Option<string>, n: nat,
                                          seen: nat, limit: nat)
    requires RootedIn(m, c, avoid, n) && seen + n <= limit
    ensures WalkUp(m, Some(c), avoid, seen, limit) == Reached(seen + n)
    decreases n
  {
    if n > 1 {
      RootedIsWalked(m, m[c].parent_id.value, avoid, n - 1, seen + 1, limit);
    } else {
      assert WalkUp(m, None, avoid, seen + 1, limit) == Reached(seen + 1);
    }
  }

  /** The ancestor walk reaches the root exactly if there are at most `limit` rows up to it, all of them
      live and none to be avoided; it counts them. */
  lemma WalkReachesIff(m: map<string, Collection>, c: string, avoid: Option<string>, limit: nat, n: nat)
    ensures WalkUp(m, Some(c), avoid, 0, limit) == Reached(n) <==> n <= limit && RootedIn(m, c, avoid, n)
  {
    if WalkUp(m, Some(c), avoid, 0, limit).Reached? { WalkFinds(m, c, avoid, 0, limit); }
    if n <= limit && RootedIn(m, c, avoid, n) { RootedIsWalked(m, c, avoid, n, 0, limit); }
  }

  /** Some live row lies `n` live links below `id`. */
  ghost predicate ReachesDown(m: map<string, Collection>, id: string, n: nat) { exists x :: LiveClimbs(m, x, id, n) }

  lemma {:induction false} HeightIsReached(m: map<string, Collection>, frontier: set<string>, height: nat, id: string,
                                           n: nat)
    requires forall x :: x in frontier ==> LiveClimbs(m, x, id, height)
    requires height < n <= HeightFrom(m, frontier, height)
    ensures ReachesDown(m, id, n)
    decreases n - height
  {
    var children := LiveChildren(m, frontier);
    forall x | x in children ensures LiveClimbs(m, x, id, height + 1) {}
    var x :| x in children;
    if n > height + 1 { HeightIsReached(m, children, height + 1, id, n); }
  }

  /** The height walk counts up to n exactly if some live row lies n links below, up to the cap. */
  lemma HeightIff(m: map<string, Collection>, id: string, n: nat)
    requires 0 < n <= COLLECTION_MAX_DEPTH
    ensures HeightFrom(m, {id}, 0) >= n <==> ReachesDown(m, id, n)
  {
    if HeightFrom(m, {id}, 0) >= n {
      HeightIsReached(m, {id}, 0, id, n);
    } else if x :| LiveClimbs(m, x, id, n) {
      HeightBounds(m, {id}, 0, id, x, n);
    }
  }

  /** Below a place with `t` rows above it there is room for what hangs below `id`. */
  ghost predicate HasRoom(m: map<string, Collection>, id: string, t: nat) {
    t < COLLECTION_MAX_DEPTH && !ReachesDown(m, id, COLLECTION_MAX_DEPTH - t)
  }

  lemma RoomIff(m: map<string, Collection>, id: string, t: nat)
    ensures t + HeightFrom(m, {id}, 0) < COLLECTION_MAX_DEPTH <==> HasRoom(m, id, t)
  {
    if t < COLLECTION_MAX_DEPTH { HeightIff(m, id, COLLECTION_MAX_DEPTH - t); }
  }

  // ---------------------------------------------------------------- placements

  predicate IsLegacy(stored: Option<string>) { stored.None? }

  predicate IsIn(w: World, stored: Option<string>, space: string) {
    stored == Some(space) && space in w.spaces && w.spaces[space]
  }

  /** A stored space that is gone or trashed. */
  predicate IsAstray(w: World, stored: Option<string>) { stored.Some? && !IsIn(w, stored, stored.value) }

  /** The stored space at the destination. */
  function StoredAt(w: World, dest: Destination): Option<string>
    requires dest.Under? ==> dest.collection_id in w.collections
  {
    match dest
    case LegacyRoot => None
    case SpaceRoot(s) => Some(s)
    case Under(c) => w.collections[c].space_id
  }

  /** The destination as it is taken: a named space root is the space, whatever became of it. */
  predicate LeadsAstray(w: World, dest: Destination)
    requires dest.Under? ==> dest.collection_id in w.collections
  {
    dest.Under? && IsAstray(w, StoredAt(w, dest))
  }

  /** No boundary is crossed: from a known bucket to the same one. */
  predicate StaysInside(w: World, moved: Collection, dest: Destination)
    requires dest.Under? ==> dest.collection_id in w.collections
  {
    !IsAstray(w, moved.space_id) && !LeadsAstray(w, dest) && StoredAt(w, dest) == moved.space_id
  }

  /** The caller may place something there. */
  predicate MayPlace(w: World, r: Request)
    requires r.Move? && (r.dest.Under? ==> r.dest.collection_id in w.collections)
  {
    IsLegacy(StoredAt(w, r.dest)) || (!LeadsAstray(w, r.dest) && r.reach)
  }

  /** A move inside a bucket takes no policy; one that crosses needs a policy and authority over the
      docs. Either needs standing at the destination. A crossing binds to where it leads. */
  lemma BindingIff(w: World, moved: Collection, r: Request)
    requires r.Move? && (r.dest.Under? ==> r.dest.collection_id in w.collections)
    ensures var inside := StaysInside(w, moved, r.dest);
            && (Binding(w, moved, r).Some?
                <==> MayPlace(w, r) && if inside then r.policy.None? else r.policy.Some? && r.administers)
            && (Binding(w, moved, r).Some? ==>
                  Binding(w, moved, r).value == Rebinding(StoredAt(w, r.dest), !inside))
  {
  }

  // ---------------------------------------------------------------- who is accepted

  /** Another live row under that parent has the slug. */
  predicate Collides(m: map<string, Collection>, parent: Option<string>, slug: string, self: string) {
    exists k :: k in m && k != self && m[k].deleted_at.None? && m[k].parent_id == parent && m[k].slug == slug
  }

  /** `t` rows lie between the destination and the root, all of them live and outside the moved subtree. */
  ghost predicate LeadsTo(w: World, r: Request, t: nat)
    requires r.Move?
  {
    match r.dest
    case LegacyRoot => t == 0
    case SpaceRoot(s) => t == 0 && s in w.spaces && w.spaces[s]
    case Under(c) => t <= COLLECTION_MAX_DEPTH && RootedIn(w.collections, c, Some(r.id), t)
  }

  lemma TargetIff(w: World, r: Request, t: nat)
    requires r.Move?
    ensures TargetNodes(w, r) == Some(t) <==> LeadsTo(w, r, t)
    ensures LeadsTo(w, r, t) && r.dest.Under? ==> r.dest.collection_id in w.collections
  {
    if r.dest.Under? { WalkReachesIff(w.collections, r.dest.collection_id, Some(r.id), COLLECTION_MAX_DEPTH, t); }
  }

  /** Everything a move has to meet, with `t` rows above its new place. */
  ghost predicate MoveFits(w: World, r: Request, t: nat)
    requires r.Move?
  {
    && Live(w.collections, r.id) && LeadsTo(w, r, t) && (r.dest.Under? ==> r.dest.collection_id in w.collections)
    && HasRoom(w.collections, r.id, t) && MayPlace(w, r)
    && (if StaysInside(w, w.collections[r.id], r.dest) then r.policy.None? else r.policy.Some? && r.administers)
    && (NewParent(r.dest) != w.collections[r.id].parent_id ==>
          !Collides(w.collections, NewParent(r.dest), w.collections[r.id].slug, r.id))
  }

  /** A move is accepted exactly if it fits; it rebinds exactly if it leaves its bucket. */
  lemma MoveAcceptedIff(w: World, r: Request)
    requires r.Move?
    ensures Accepted(w, r) <==> exists t: nat :: MoveFits(w, r, t)
    ensures Accepted(w, r) ==>
              (r.dest.Under? ==> r.dest.collection_id in w.collections) && r.id in w.collections &&
              AcceptedMove(w, r).value
                == Rebinding(StoredAt(w, r.dest), !StaysInside(w, w.collections[r.id], r.dest))
  {
    hide Binding, HeightFrom, WalkUp, LeadsTo, HasRoom, TargetNodes, StaysInside, MayPlace;
    if Accepted(w, r) {
      var t := TargetNodes(w, r).value;
      TargetIff(w, r, t);
      RoomIff(w.collections, r.id, t);
      BindingIff(w, w.collections[r.id], r);
      assert MoveFits(w, r, t);
    }
    if t: nat :| MoveFits(w, r, t) {
      TargetIff(w, r, t);
      RoomIff(w.collections, r.id, t);
      BindingIff(w, w.collections[r.id], r);
    }
  }

  /** A creation is accepted exactly if its id is new, its slug is free, and it goes to the legacy root,
      to a live space the caller reaches, or under a live chain of at most seven rows whose stored space
      is none or one the caller reaches. */
  lemma CreateAcceptedIff(w: World, r: Request)
    requires r.Create?
    ensures Accepted(w, r)
       <==> r.id !in w.collections && !Collides(w.collections, r.parent, r.slug, r.id) &&
            match r.parent
            case None => r.space.Some? ==> IsIn(w, r.space, r.space.value) && r.reach
            case Some(p) =>
              r.space.None? &&
              exists t: nat :: t < COLLECTION_MAX_DEPTH && RootedIn(w.collections, p, None, t) &&
                p in w.collections &&
                (w.collections[p].space_id.Some? ==>
                   IsIn(w, w.collections[p].space_id, w.collections[p].space_id.value) && r.reach)
  {
    hide WalkUp;
    if r.parent.Some? {
      var walk := WalkUp(w.collections, r.parent, None, 0, COLLECTION_MAX_DEPTH - 1);
      if walk.Reached? { WalkReachesIff(w.collections, r.parent.value, None, COLLECTION_MAX_DEPTH - 1, walk.nodes); }
      if t: nat :| t < COLLECTION_MAX_DEPTH && RootedIn(w.collections, r.parent.value, None, t) {
        WalkReachesIff(w.collections, r.parent.value, None, COLLECTION_MAX_DEPTH - 1, t);
      }
    }
  }

  lemma RenameAcceptedIff(w: World, r: Request)
    requires r.Rename?
    ensures Accepted(w, r)
       <==> Live(w.collections, r.id) &&
            (r.slug == w.collections[r.id].slug ||
             !Collides(w.collections, w.collections[r.id].parent_id, r.slug, r.id))
  {
  }

  /** Only an empty collection can be trashed: no live child, no live doc. */
  lemma DeleteAcceptedIff(w: World, r: Request)
    requires r.Delete?
    ensures Accepted(w, r)
       <==> Live(w.collections, r.id) &&
            (forall k :: Live(w.collections, k) ==> w.collections[k].parent_id != Some(r.id)) &&
            (forall d :: d in w.docs && w.docs[d].live ==> w.docs[d].collection != Some(r.id))
  {
    var children := LiveChildren(w.collections, {r.id});
    if children != {} { var k :| k in children; }
    if k :| Live(w.collections, k) && w.collections[k].parent_id == Some(r.id) { assert k in children; }
    if d :| d in w.docs && w.docs[d].live && w.docs[d].collection == Some(r.id) {
      assert w.docs[d] == DocAt(Some(r.id), true);
    }
  }

  /** A restore needs a trashed row, its space not astray, its slug free, and a live place with room. */
  lemma RestoreAcceptedIff(w: World, r: Request)
    requires r.Restore?
    ensures Accepted(w, r)
       <==> r.id in w.collections && w.collections[r.id].deleted_at.Some? &&
            !IsAstray(w, w.collections[r.id].space_id) &&
            !Collides(w.collections, w.collections[r.id].parent_id, w.collections[r.id].slug, r.id) &&
            match w.collections[r.id].parent_id
            case None => HasRoom(w.collections, r.id, 0)
            case Some(p) =>
              exists t: nat :: t <= COLLECTION_MAX_DEPTH && RootedIn(w.collections, p, None, t) &&
                HasRoom(w.collections, r.id, t)
  {
    hide WalkUp, HeightFrom, HasRoom;
    if r.id in w.collections {
      var parent := w.collections[r.id].parent_id;
      var walk := WalkUp(w.collections, parent, None, 0, COLLECTION_MAX_DEPTH);
      if parent.Some? {
        forall t: nat { WalkReachesIff(w.collections, parent.value, None, COLLECTION_MAX_DEPTH, t); }
        if walk.Reached? { assert RootedIn(w.collections, parent.value, None, walk.nodes); }
      } else {
        RootIsReached(w.collections);
      }
      if walk.Reached? { RoomIff(w.collections, r.id, walk.nodes); }
    }
  }

  lemma RootIsReached(m: map<string, Collection>)
    ensures WalkUp(m, None, None, 0, COLLECTION_MAX_DEPTH) == Reached(0)
  {
  }

  // ---------------------------------------------------------------- what is changed

  /** The row that a request leaves where it found `c`, in the subtree of its target or not. */
  predicate Becomes(w: World, r: Request, c: Collection, inSubtree: bool, next: Collection)
    requires r.Move? && r.dest.Under? ==> r.dest.collection_id in w.collections
    requires r.id in w.collections
  {
    match r
    case Create(_, _, _, _, _, _, _, _) => next == c
    case Rename(id, title, slug) => next == if c.id == id then c.(title := title, slug := slug) else c
    case Delete(id, now) => next == if c.id == id then c.(deleted_at := Some(now)) else c
    case Restore(id) => next == if c.id == id then c.(deleted_at := None) else c
    case Move(id, dest, _, key, _, _) =>
      var rebound := if inSubtree && !StaysInside(w, w.collections[id], dest) then c.(space_id := StoredAt(w, dest))
                     else c;
      next == if c.id == id then rebound.(parent_id := NewParent(dest), order_key := key) else rebound
  }

  /** An accepted creation adds the row asked for, bound as its parent is or as asked, and changes no other. */
  lemma CreateAdds(w: World, r: Request)
    requires r.Create? && Accepted(w, r)
    ensures var m', space := CollectionsNext(w, r),
                             if r.parent.Some? then w.collections[r.parent.value].space_id else r.space;
            && r.id !in w.collections && m'.Keys == w.collections.Keys + {r.id}
            && m'[r.id] == Collection(r.id, r.ws, r.parent, space, r.title, r.slug, r.id, r.who, None)
            && forall k :: k in w.collections ==> m'[k] == w.collections[k]
  {
  }

  /** Every other accepted request changes exactly what it names: a rename title and slug, a delete and a
      restore the trash mark, a move parent and key of its collection and, if it leaves its bucket, the
      binding of the whole subtree. */
  lemma RequestChanges(w: World, r: Request, k: string)
    requires !r.Create? && Accepted(w, r) && k in w.collections && Keyed(w.collections)
    ensures r.id in w.collections && (r.Move? && r.dest.Under? ==> r.dest.collection_id in w.collections)
    ensures CollectionsNext(w, r).Keys == w.collections.Keys
    ensures Becomes(w, r, w.collections[k], InSubtree(w.collections, k, r.id), CollectionsNext(w, r)[k])
  {
    if r.Move? {
      MoveAcceptedIff(w, r);
      assert Climbs(w.collections, r.id, r.id, 0);
    }
  }

  /** The policy decides about the grants: a crossing that adopts the baseline deletes exactly the doc
      grants of the subtree, trashed collections and docs included; keeping grants, staying inside a
      bucket and every other request delete none. */
  lemma GrantsLostIff(w: World, r: Request, g: string)
    requires Accepted(w, r)
    ensures g in GrantsLost(w, r)
       <==> r.Move? && r.policy == Some(AdoptBaseline) && g in w.grants && w.grants[g].resource_kind == "doc" &&
            w.grants[g].resource_id in w.docs && w.docs[w.grants[g].resource_id].collection.Some? &&
            InSubtree(w.collections, w.docs[w.grants[g].resource_id].collection.value, r.id)
  {
    if r.Move? {
      MoveAcceptedIff(w, r);
      var t: nat :| MoveFits(w, r, t);
    }
  }
}
