/** The collection capabilities (packages/capabilities/src/collection/): what create, update, move,
    delete and restore do to the live tables, and the one audit row each of them emits. */
module CollectionHandlers {
  import opened Options
  import opened AuditReducer
  import opened CollectionTree

  /** packages/constants/src/index.ts:239. */
  const COLLECTION_MAX_DEPTH: nat := 8

  datatype DocAt = DocAt(collection: Option<string>, live: bool)

  /** The tables. `spaces` tells which spaces are not trashed. Collection rows carry no timestamps
      other than `deleted_at`. */
  datatype World = World(
    collections: map<string, Collection>, spaces: map<string, bool>, docs: map<string, DocAt>,
    grants: map<string, Grant>, audit: seq<AuditRow>)

  datatype Destination = LegacyRoot | SpaceRoot(space_id: string) | Under(collection_id: string)

  datatype Policy = AdoptBaseline | KeepGrants

  /** `reach` and `administers` are the resolver's answers for this caller. */
  datatype Request =
    | Create(id: string, ws: string, parent: Option<string>, space: Option<string>, title: string, slug: string,
             who: string, reach: bool)
    | Rename(id: string, title: string, slug: string)
    | Move(id: string, dest: Destination, policy: Option<Policy>, key: string, reach: bool, administers: bool)
    | Delete(id: string, now: int)
    | Restore(id: string)

  // ---------------------------------------------------------------- reading the tables

  predicate Live(m: map<string, Collection>, id: string) { id in m && m[id].deleted_at.None? }

  datatype Walk = Reached(nodes: nat) | Cycle | TooDeep | Gone(id: string)

  /** The ancestor walk: from `cursor` to the root over live rows, giving up beyond `limit` rows. */
  function WalkUp(m: map<string, Collection>, cursor: Option<string>, avoid: Option<string>, nodes: nat,
                  limit: nat): Walk
    decreases if nodes <= limit then limit - nodes + 1 else 0
  {
    if cursor.None? then Reached(nodes)
    else if cursor == avoid then Cycle
    else if nodes + 1 > limit then TooDeep
    else if !Live(m, cursor.value) then Gone(cursor.value)
    else WalkUp(m, m[cursor.value].parent_id, avoid, nodes + 1, limit)
  }

  function LiveChildren(m: map<string, Collection>, frontier: set<string>): set<string> {
    set k | k in m && m[k].deleted_at.None? && m[k].parent_id.Some? && m[k].parent_id.value in frontier
  }

  /** The level-by-level height walk, with its defensive break at the cap. */
  function HeightFrom(m: map<string, Collection>, frontier: set<string>, height: nat): nat
    decreases if height < COLLECTION_MAX_DEPTH then COLLECTION_MAX_DEPTH - height else 0
  {
    if LiveChildren(m, frontier) == {} then height
    else if height + 1 >= COLLECTION_MAX_DEPTH then height + 1
    else HeightFrom(m, LiveChildren(m, frontier), height + 1)
  }

  predicate SlugTaken(m: map<string, Collection>, parent: Option<string>, slug: string, self: string) {
    exists k :: k in m && k != self && m[k].deleted_at.None? && m[k].parent_id == parent && m[k].slug == slug
  }

  predicate LiveSpace(spaces: map<string, bool>, id: string) { id in spaces && spaces[id] }

  datatype Placement = Legacy | InSpace(id: string) | Anomaly

  function PlacementOf(w: World, stored: Option<string>): Placement {
    if stored.None? then Legacy else if LiveSpace(w.spaces, stored.value) then InSpace(stored.value) else Anomaly
  }

  predicate CanPlace(p: Placement, reach: bool) { p.Legacy? || (p.InSpace? && reach) }

  /** The docs of the moved subtree decide which grants `adopt_baseline` deletes. */
  ghost function DroppedGrants(w: World, root: string): set<string> {
    set g | g in w.grants && w.grants[g].resource_kind == "doc" && DocInSubtree(w, w.grants[g].resource_id, root)
  }

  ghost predicate DocInSubtree(w: World, doc: string, root: string) {
    doc in w.docs && w.docs[doc].collection.Some? && InSubtree(w.collections, w.docs[doc].collection.value, root)
  }

  // ---------------------------------------------------------------- moves

  datatype Rebinding = Rebinding(space: Option<string>, crosses: bool)

  /** None where the handler throws; otherwise the new binding and whether the move crosses buckets. */
  function Binding(w: World, moved: Collection, r: Request): Option<Rebinding>
    requires r.Move? && (r.dest.Under? ==> r.dest.collection_id in w.collections)
  {
    var target := if r.dest.Under? then w.collections[r.dest.collection_id].space_id else None;
    if moved.space_id.None? && !r.dest.SpaceRoot? && target.None? then
      if r.policy.Some? then None else Some(Rebinding(moved.space_id, false))
    else
      var src := PlacementOf(w, moved.space_id);
      var dst := if r.dest.SpaceRoot? then InSpace(r.dest.space_id) else PlacementOf(w, target);
      if !src.Anomaly? && src == dst then
        if r.policy.Some? || (!r.dest.LegacyRoot? && !CanPlace(dst, r.reach)) then None
           else Some(Rebinding(moved.space_id, false))
      else if !r.administers || (!r.dest.LegacyRoot? && !CanPlace(dst, r.reach)) || r.policy.None? then None
      else Some(Rebinding(if dst.InSpace? then Some(dst.id) else None, true))
  }

  function NewParent(dest: Destination): Option<string> { if dest.Under? then Some(dest.collection_id) else None }

  /** How far down the destination is, or None where it is refused. */
  function TargetNodes(w: World, r: Request): Option<nat>
    requires r.Move?
  {
    match r.dest
    case LegacyRoot => Some(0)
    case SpaceRoot(s) => if LiveSpace(w.spaces, s) then Some(0) else None
    case Under(c) =>
      var walk := WalkUp(w.collections, Some(c), Some(r.id), 0, COLLECTION_MAX_DEPTH);
      if walk.Reached? then Some(walk.nodes) else None
  }

  /** The binding of an accepted move, and whether it crosses. */
  function AcceptedMove(w: World, r: Request): Option<Rebinding>
    requires r.Move?
  {
    var m := w.collections;
    if !Live(m, r.id) || TargetNodes(w, r).None? then None
    else if r.dest.Under? && r.dest.collection_id !in m then None
    else
      var binding := Binding(w, m[r.id], r);
      if binding.None? || TargetNodes(w, r).value + HeightFrom(m, {r.id}, 0) >= COLLECTION_MAX_DEPTH then None
      else if NewParent(r.dest) != m[r.id].parent_id && SlugTaken(m, NewParent(r.dest), m[r.id].slug, r.id) then None
      else binding
  }

  /** A crossing first rebinds every descendant. */
  ghost function Descended(m: map<string, Collection>, r: Request, to: Rebinding): map<string, Collection>
    requires r.Move?
  {
    if to.crosses then map k | k in m ::
       if k != r.id && InSubtree(m, k, r.id) then m[k].(space_id := to.space) else m[k] else m
  }

  /** The table after an accepted move: the root row is re-parented and rebound last. */
  ghost function MovedTable(m: map<string, Collection>, r: Request, to: Rebinding): map<string, Collection>
    requires r.Move? && r.id in m
  {
    var table := Descended(m, r, to);
    table[r.id := table[r.id].(parent_id := NewParent(r.dest), order_key := r.key, space_id := to.space)]
  }

  // ---------------------------------------------------------------- the other handlers

  predicate Creates(w: World, r: Request)
    requires r.Create?
  {
    && r.id !in w.collections && (r.parent.None? || r.space.None?) && !SlugTaken(w.collections, r.parent, r.slug, r.id)
    && (if r.parent.Some? then
          WalkUp(w.collections, r.parent, None, 0, COLLECTION_MAX_DEPTH - 1).Reached? &&
            r.parent.value in w.collections &&
          CanPlace(PlacementOf(w, w.collections[r.parent.value].space_id), r.reach)
        else r.space.Some? ==> LiveSpace(w.spaces, r.space.value) && r.reach)
  }

  function CreatedRow(w: World, r: Request): Collection
    requires r.Create? && Creates(w, r)
  {
    var space := if r.parent.Some? then w.collections[r.parent.value].space_id else r.space;
    Collection(r.id, r.ws, r.parent, space, r.title, r.slug, r.id, r.who, None)
  }

  predicate Renames(w: World, r: Request)
    requires r.Rename?
  {
    Live(w.collections, r.id) &&
    (r.slug != w.collections[r.id].slug ==> !SlugTaken(w.collections, w.collections[r.id].parent_id, r.slug, r.id))
  }

  predicate Deletes(w: World, r: Request)
    requires r.Delete?
  {
    Live(w.collections, r.id) && LiveChildren(w.collections, {r.id}) == {} && NoLiveDocIn(w, r.id)
  }

  predicate NoLiveDocIn(w: World, id: string) { forall d :: d in w.docs ==> w.docs[d] != DocAt(Some(id), true) }

  predicate Restores(w: World, r: Request)
    requires r.Restore?
  {
    var m := w.collections;
    && r.id in m && m[r.id].deleted_at.Some?
    && (m[r.id].space_id.Some? ==> LiveSpace(w.spaces, m[r.id].space_id.value))
    && !SlugTaken(m, m[r.id].parent_id, m[r.id].slug, r.id)
    && var walk := WalkUp(m, m[r.id].parent_id, None, 0, COLLECTION_MAX_DEPTH);
       walk.Reached? && walk.nodes + HeightFrom(m, {r.id}, 0) < COLLECTION_MAX_DEPTH
  }

  // ---------------------------------------------------------------- one request

  /** The envelope's principal plays no part in replay. */
  function Row(e: Effect): AuditRow { AuditRow("caller", Allow(e)) }

  ghost predicate Accepted(w: World, r: Request) {
    match r
    case Create(_, _, _, _, _, _, _, _) => Creates(w, r)
    case Rename(_, _, _) => Renames(w, r)
    case Move(_, _, _, _, _, _) => AcceptedMove(w, r).Some?
    case Delete(_, _) => Deletes(w, r)
    case Restore(_) => Restores(w, r)
  }

  /** The audit effect of an accepted request; `dropped` lists the grants a crossing deleted. */
  function EffectOf(w: World, r: Request, dropped: seq<string>): Effect
    requires r.Create? ==> Creates(w, r)
    requires r.Move? ==> AcceptedMove(w, r).Some?
  {
    match r
    case Create(id, ws, parent, _, title, slug, who, _) =>
      CollectionCreate(id, ws, parent, CreatedRow(w, r).space_id, title, slug, id, who)
    case Rename(id, title, slug) => CollectionUpdate(id, Some(title), Some(slug), None)
    case Move(id, dest, _, key, _, _) =>
      CollectionMove(id, NewParent(dest), key, AcceptedMove(w, r).value.space, dropped)
    case Delete(id, now) => CollectionSoftDelete(id, now)
    case Restore(id) => CollectionRestore(id)
  }

  ghost function CollectionsNext(w: World, r: Request): map<string, Collection>
    requires Accepted(w, r)
  {
    var m := w.collections;
    match r
    case Create(id, _, _, _, _, _, _, _) => m[id := CreatedRow(w, r)]
    case Rename(id, title, slug) => m[id := m[id].(title := title, slug := slug)]
    case Move(id, _, _, _, _, _) => MovedTable(m, r, AcceptedMove(w, r).value)
    case Delete(id, now) => m[id := m[id].(deleted_at := Some(now))]
    case Restore(id) => m[id := m[id].(deleted_at := None)]
  }

  ghost function GrantsLost(w: World, r: Request): set<string>
    requires Accepted(w, r)
  {
    if r.Move? && AcceptedMove(w, r).value.crosses && r.policy == Some(AdoptBaseline) then DroppedGrants(w, r.id)
       else {}
  }

  ghost predicate Lists(ids: seq<string>, elements: set<string>) { forall x :: x in ids <==> x in elements }

  /** An accepted request and its row, in one transaction. */
  ghost function Next(w: World, r: Request, dropped: seq<string>): World
    requires Accepted(w, r)
  {
    w.(collections := CollectionsNext(w, r), grants := w.grants - GrantsLost(w, r),
       audit := w.audit + [Row(EffectOf(w, r, dropped))])
  }

  // ---------------------------------------------------------------- the handlers

  /** The tables of one workspace, within a dispatch: a throw leaves them as they were. */
  class Tables {
    var collections: map<string, Collection>
    var spaces: map<string, bool>
    var docs: map<string, DocAt>
    var grants: map<string, Grant>
    var audit: seq<AuditRow>

    constructor (w: World)
      ensures Snapshot() == w
    {
      collections, spaces, docs, grants, audit := w.collections, w.spaces, w.docs, w.grants, w.audit;
    }

    function Snapshot(): World
      reads this
    {
      World(collections, spaces, docs, grants, audit)
    }

    method WalkAncestors(start: Option<string>, avoid: Option<string>, limit: nat) returns (walk: Walk)
      ensures walk == WalkUp(collections, start, avoid, 0, limit)
    {
      var cursor, nodes := start, 0;
      while cursor.Some?
        invariant nodes <= limit &&
                  WalkUp(collections, cursor, avoid, nodes, limit) == WalkUp(collections, start, avoid, 0, limit)
        decreases limit - nodes, if cursor.Some? then 1 else 0
      {
        if cursor == avoid { return Cycle; }
        if nodes + 1 > limit { return TooDeep; }
        if !Live(collections, cursor.value) { return Gone(cursor.value); }
        cursor, nodes := collections[cursor.value].parent_id, nodes + 1;
      }
      return Reached(nodes);
    }

    method SubtreeHeight(root: string) returns (height: nat)
      ensures height == HeightFrom(collections, {root}, 0)
    {
      height := 0;
      var frontier := {root};
      var children := LiveChildren(collections, frontier);
      while children != {}
        invariant height < COLLECTION_MAX_DEPTH && children == LiveChildren(collections, frontier)
        invariant HeightFrom(collections, frontier, height) == HeightFrom(collections, {root}, 0)
        decreases COLLECTION_MAX_DEPTH - height
      {
        height := height + 1;
        if height >= COLLECTION_MAX_DEPTH { return; }
        frontier := children;
        children := LiveChildren(collections, frontier);
      }
    }

    /** Breadth first, trashed rows included; the seen-set guards against cyclic links. */
    method SubtreeIds(root: string) returns (seen: set<string>)
      ensures root in seen && seen <= collections.Keys + {root}
      ensures forall k :: k in collections || k == root ==> (k in seen <==> InSubtree(collections, k, root))
    {
      seen := {root};
      var frontier := {root};
      assert Climbs(collections, root, root, 0);
      while frontier != {}
        invariant root in seen && frontier <= seen <= collections.Keys + {root}
        invariant forall x :: x in seen ==> InSubtree(collections, x, root)
        invariant forall k :: k in collections && collections[k].parent_id.Some? ==>
                    collections[k].parent_id.value in seen - frontier ==> k in seen
        decreases collections.Keys - seen, frontier
      {
        var found := set k | k in collections && collections[k].parent_id.Some? &&
                     collections[k].parent_id.value in frontier && k !in seen;
        forall k | k in found ensures InSubtree(collections, k, root) { ChildDescends(collections, k, root); }
        assert found != {} ==> collections.Keys - (seen + found) < collections.Keys - seen by {
          if k :| k in found { assert k in collections.Keys - seen; }
        }
        if found == {} { assert collections.Keys - (seen + found) == collections.Keys - seen; }
        seen, frontier := seen + found, found;
      }
      forall k | (k in collections || k == root) && InSubtree(collections, k, root) ensures k in seen {
        var n: nat :| Climbs(collections, k, root, n);
        ClosedHoldsSubtree(collections, seen, k, root, n);
      }
    }

    /** `DELETE … RETURNING` over the doc grants of the subtree. */
    method DropGrants(doomed: set<string>) returns (dropped: seq<string>)
      modifies this`grants
      ensures grants == old(grants) - doomed && Lists(dropped, doomed)
    {
      dropped := [];
      var rest := doomed;
      while rest != {}
        invariant rest <= doomed && Lists(dropped, doomed - rest)
        decreases rest
      {
        var g :| g in rest;
        dropped, rest := dropped + [g], rest - {g};
      }
      grants := grants - doomed;
    }

    /** Every check of a move; None where one of them throws. */
    method DecideMove(r: Request) returns (binding: Option<Rebinding>)
      requires r.Move?
      ensures binding == AcceptedMove(Snapshot(), r)
    {
      if !Live(collections, r.id) { return None; }
      var moved, nodes := collections[r.id], 0;
      if r.dest.Under? {
        var walk := WalkAncestors(Some(r.dest.collection_id), Some(r.id), COLLECTION_MAX_DEPTH);
        if !walk.Reached? || r.dest.collection_id !in collections { return None; }
        nodes := walk.nodes;
      } else if r.dest.SpaceRoot? {
        if !LiveSpace(spaces, r.dest.space_id) { return None; }
      }
      binding := Binding(Snapshot(), moved, r);
      if binding.None? { return; }
      var height := SubtreeHeight(r.id);
      if nodes + height >= COLLECTION_MAX_DEPTH { return None; }
      if NewParent(r.dest) != moved.parent_id && SlugTaken(collections, NewParent(r.dest), moved.slug, r.id) {
        return None;
      }
    }

    /** The crossing arm: sheds the grants the policy asks for and rebinds every descendant. */
    method Cross(r: Request, to: Rebinding) returns (dropped: seq<string>)
      requires r.Move? && AcceptedMove(Snapshot(), r) == Some(to) && to.crosses
      modifies this`collections, this`grants
      ensures Lists(dropped, GrantsLost(old(Snapshot()), r)) && grants == old(grants) - GrantsLost(old(Snapshot()), r)
      ensures collections == Descended(old(collections), r, to)
    {
      ghost var w := Snapshot();
      var subtree := SubtreeIds(r.id);
      dropped := [];
      if r.policy == Some(AdoptBaseline) {
        var doomed := set g | g in grants && grants[g].resource_kind == "doc" && grants[g].resource_id in docs &&
                              docs[grants[g].resource_id].collection.Some? &&
                                docs[grants[g].resource_id].collection.value in subtree;
        DoomedAre(w, r.id, subtree, doomed);
        dropped := DropGrants(doomed);
      }
      collections := map k | k in collections ::
        if k != r.id && k in subtree then collections[k].(space_id := to.space) else collections[k];
      assert w.grants - {} == w.grants;
    }

    method Move(r: Request) returns (threw: bool, dropped: seq<string>)
      requires r.Move?
      modifies this
      ensures threw == AcceptedMove(old(Snapshot()), r).None?
      ensures threw ==> Snapshot() == old(Snapshot())
      ensures !threw ==>
                Lists(dropped, GrantsLost(old(Snapshot()), r)) && Snapshot() == Next(old(Snapshot()), r, dropped)
    {
      ghost var w := Snapshot();
      var binding := DecideMove(r);
      if binding.None? { return true, []; }
      threw, dropped := false, [];
      if binding.value.crosses { dropped := Cross(r, binding.value); }
      NextOfMove(w, r, dropped);
      collections := collections[r.id := collections[r.id].(parent_id := NewParent(r.dest), order_key := r.key,
                                                            space_id := binding.value.space)];
      audit := audit + [Row(CollectionMove(r.id, NewParent(r.dest), r.key, binding.value.space, dropped))];
    }

    method Create(r: Request) returns (threw: bool)
      requires r.Create?
      modifies this
      ensures threw == !Creates(old(Snapshot()), r)
      ensures Snapshot() == if threw then old(Snapshot()) else Next(old(Snapshot()), r, [])
    {
      ghost var w := Snapshot();
      if r.parent.Some? && r.space.Some? { return true; }
      var space := r.space;
      if r.parent.Some? {
        var walk := WalkAncestors(r.parent, None, COLLECTION_MAX_DEPTH - 1);
        if !walk.Reached? || r.parent.value !in collections { return true; }
        space := collections[r.parent.value].space_id;
        if !CanPlace(PlacementOf(Snapshot(), space), r.reach) { return true; }
      } else if r.space.Some? {
        if !LiveSpace(spaces, r.space.value) || !r.reach { return true; }
      }
      if SlugTaken(collections, r.parent, r.slug, r.id) || r.id in collections { return true; }
      collections := collections[r.id := Collection(r.id, r.ws, r.parent, space, r.title, r.slug, r.id, r.who, None)];
      audit := audit + [Row(CollectionCreate(r.id, r.ws, r.parent, space, r.title, r.slug, r.id, r.who))];
      assert w.grants - {} == w.grants;
      return false;
    }

    method Rename(r: Request) returns (threw: bool)
      requires r.Rename?
      modifies this
      ensures threw == !Renames(old(Snapshot()), r)
      ensures Snapshot() == if threw then old(Snapshot()) else Next(old(Snapshot()), r, [])
    {
      ghost var w := Snapshot();
      if !Live(collections, r.id) { return true; }
      var current := collections[r.id];
      if r.slug != current.slug && SlugTaken(collections, current.parent_id, r.slug, r.id) { return true; }
      collections := collections[r.id := current.(title := r.title, slug := r.slug)];
      audit := audit + [Row(CollectionUpdate(r.id, Some(r.title), Some(r.slug), None))];
      assert w.grants - {} == w.grants;
      return false;
    }

    method Delete(r: Request) returns (threw: bool)
      requires r.Delete?
      modifies this
      ensures threw == !Deletes(old(Snapshot()), r)
      ensures Snapshot() == if threw then old(Snapshot()) else Next(old(Snapshot()), r, [])
    {
      ghost var w := Snapshot();
      if !Live(collections, r.id) { return true; }
      if LiveChildren(collections, {r.id}) != {} || !NoLiveDocIn(Snapshot(), r.id) { return true; }
      collections := collections[r.id := collections[r.id].(deleted_at := Some(r.now))];
      audit := audit + [Row(CollectionSoftDelete(r.id, r.now))];
      assert w.grants - {} == w.grants;
      return false;
    }

    method Restore(r: Request) returns (threw: bool)
      requires r.Restore?
      modifies this
      ensures threw == !Restores(old(Snapshot()), r)
      ensures Snapshot() == if threw then old(Snapshot()) else Next(old(Snapshot()), r, [])
    {
      ghost var w := Snapshot();
      if r.id !in collections || collections[r.id].deleted_at.None? { return true; }
      var current := collections[r.id];
      if current.space_id.Some? && !LiveSpace(spaces, current.space_id.value) { return true; }
      if SlugTaken(collections, current.parent_id, current.slug, r.id) { return true; }
      var walk := WalkAncestors(current.parent_id, None, COLLECTION_MAX_DEPTH);
      if !walk.Reached? { return true; }
      var height := SubtreeHeight(r.id);
      if walk.nodes + height >= COLLECTION_MAX_DEPTH { return true; }
      collections := collections[r.id := current.(deleted_at := None)];
      audit := audit + [Row(CollectionRestore(r.id))];
      assert w.grants - {} == w.grants;
      return false;
    }
  }

  lemma NextOfMove(w: World, r: Request, dropped: seq<string>)
    requires r.Move? && AcceptedMove(w, r).Some?
    ensures var to := AcceptedMove(w, r).value;
            Next(w, r, dropped) == World(MovedTable(w.collections, r, to), w.spaces, w.docs,
                                         w.grants - GrantsLost(w, r),
                                         w.audit + [Row(CollectionMove(r.id, NewParent(r.dest), r.key, to.space,
                                                                       dropped))])
    ensures !AcceptedMove(w, r).value.crosses ==> w.grants - GrantsLost(w, r) == w.grants
  {
  }

  lemma DoomedAre(w: World, root: string, subtree: set<string>, doomed: set<string>)
    requires root in subtree && subtree <= w.collections.Keys + {root}
    requires forall k :: k in w.collections || k == root ==> (k in subtree <==> InSubtree(w.collections, k, root))
    requires doomed == set g | g in w.grants && w.grants[g].resource_kind == "doc" &&
             w.grants[g].resource_id in w.docs &&
                               w.docs[w.grants[g].resource_id].collection.Some? &&
                                 w.docs[w.grants[g].resource_id].collection.value in subtree
    ensures doomed == DroppedGrants(w, root)
  {
    forall k | InSubtree(w.collections, k, root) ensures k in subtree {
      var n: nat :| Climbs(w.collections, k, root, n);
    }
  }

  // ---------------------------------------------------------------- invariants

  /** A live collection's parent is live. */
  ghost predicate LiveParents(m: map<string, Collection>) {
    forall k :: Live(m, k) && m[k].parent_id.Some? ==> Live(m, m[k].parent_id.value)
  }

  /** No live collection is deeper than the cap allows. */
  ghost predicate Shallow(m: map<string, Collection>) {
    forall k, y, n: nat :: Live(m, k) && Climbs(m, k, y, n) ==> n < COLLECTION_MAX_DEPTH
  }

  /** Live siblings have different slugs. */
  ghost predicate SlugsApart(m: map<string, Collection>) { forall j, k :: SiblingsDiffer(m, j, k) }

  ghost predicate SiblingsDiffer(m: map<string, Collection>, j: string, k: string) {
    Live(m, j) && Live(m, k) && j != k && m[j].parent_id == m[k].parent_id ==> m[j].slug != m[k].slug
  }

  ghost predicate TableInv(m: map<string, Collection>) { TreeInv(m) && LiveParents(m) && Shallow(m) && SlugsApart(m) }

  /** The tables are what the log alone replays to. */
  ghost predicate Replays(w: World) {
    Replay(w.audit).collections == w.collections && Replay(w.audit).grants == w.grants
  }

  // ---------------------------------------------------------------- walking up

  /** A walk that reaches the root has seen every ancestor: all live, none to be avoided, as many as
      it counted. */
  lemma {:induction false} WalkSees(m: map<string, Collection>, start: string, avoid: Option<string>, nodes: nat,
                                    limit: nat, y: string, n: nat)
    requires WalkUp(m, Some(start), avoid, nodes, limit).Reached? && Climbs(m, start, y, n)
    ensures Live(m, y) && Some(y) != avoid && nodes + n < WalkUp(m, Some(start), avoid, nodes, limit).nodes <= limit
    decreases n
  {
    WalkCounts(m, m[start].parent_id, avoid, nodes + 1, limit);
    if n > 0 {
      WalkSees(m, m[start].parent_id.value, avoid, nodes + 1, limit, y, n - 1);
    }
  }

  lemma {:induction false} WalkCounts(m: map<string, Collection>, cursor: Option<string>, avoid: Option<string>,
                                      nodes: nat, limit: nat)
    requires WalkUp(m, cursor, avoid, nodes, limit).Reached? && nodes <= limit
    ensures nodes <= WalkUp(m, cursor, avoid, nodes, limit).nodes <= limit
    decreases limit - nodes
  {
    if cursor.Some? { WalkCounts(m, m[cursor.value].parent_id, avoid, nodes + 1, limit); }
  }

  /** The destination of an accepted move is outside the moved subtree. */
  lemma DestinationOutside(w: World, r: Request)
    requires r.Move? && AcceptedMove(w, r).Some? && r.dest.Under?
    ensures Live(w.collections, r.dest.collection_id) && !InSubtree(w.collections, r.dest.collection_id, r.id)
  {
    var c, m := r.dest.collection_id, w.collections;
    assert Climbs(m, c, c, 0);
    WalkSees(m, c, Some(r.id), 0, COLLECTION_MAX_DEPTH, c, 0);
    if InSubtree(m, c, r.id) {
      var n: nat :| Climbs(m, c, r.id, n);
      WalkSees(m, c, Some(r.id), 0, COLLECTION_MAX_DEPTH, r.id, n);
    }
  }

  // ---------------------------------------------------------------- emitted rows are well formed

  /** What each handler emits is what `CollectionTree` asks of a log. */
  lemma EmitsWellFormed(w: World, r: Request, dropped: seq<string>)
    requires Accepted(w, r)
    ensures WellFormedEffect(w.collections, EffectOf(w, r, dropped))
  {
    if r.Move? && r.dest.Under? { DestinationOutside(w, r); }
  }

  // ---------------------------------------------------------------- the tables are what replay gives

  /** Re-parenting a collection does not change who climbs to it. */
  lemma {:induction false} ClimbWasThere(m: map<string, Collection>, id: string, parent: Option<string>, key: string,
                                         x: string, n: nat)
    requires id in m && Climbs(Moved(m, id, parent, key), x, id, n)
    ensures InSubtree(m, x, id)
    decreases n
  {
    if x == id {
      assert Climbs(m, id, id, 0);
    } else {
      ClimbWasThere(m, id, parent, key, m[x].parent_id.value, n - 1);
      ChildDescends(m, x, id);
    }
  }

  lemma SubtreeSurvivesMove(m: map<string, Collection>, id: string, parent: Option<string>, key: string, x: string)
    requires id in m
    ensures InSubtree(Moved(m, id, parent, key), x, id) <==> InSubtree(m, x, id)
  {
    if InSubtree(m, x, id) {
      var n: nat :| Climbs(m, x, id, n);
      ClimbSurvivesMove(m, id, parent, key, x, n);
    }
    if InSubtree(Moved(m, id, parent, key), x, id) {
      var n: nat :| Climbs(Moved(m, id, parent, key), x, id, n);
      ClimbWasThere(m, id, parent, key, x, n);
    }
  }

  /** A same-bucket move writes only the root row, yet replay, which stamps the whole subtree, agrees:
      every descendant already carries the binding. A crossing writes them all. */
  lemma MoveReplays(w: World, r: Request)
    requires r.Move? && AcceptedMove(w, r).Some? && TreeInv(w.collections)
    ensures var to := AcceptedMove(w, r).value;
            MovedTable(w.collections, r, to)
              == Rebound(Moved(w.collections, r.id, NewParent(r.dest), r.key), r.id, to.space)
  {
    var m, to := w.collections, AcceptedMove(w, r).value;
    var out := Moved(m, r.id, NewParent(r.dest), r.key);
    assert Climbs(out, r.id, r.id, 0);
    forall k | k in m ensures MovedTable(m, r, to)[k] == Rebound(out, r.id, to.space)[k] {
      SubtreeSurvivesMove(m, r.id, NewParent(r.dest), r.key, k);
      if !to.crosses && InSubtree(m, k, r.id) {
        var n: nat :| Climbs(m, k, r.id, n);
        SubtreeSharesSpace(m, k, r.id, n);
      }
    }
  }

  lemma MoveEffectReplays(w: World, r: Request, dropped: seq<string>)
    requires Accepted(w, r) && TreeInv(w.collections) && r.Move?
    ensures CollectionsAfter(w.collections, EffectOf(w, r, dropped))
         == MovedTable(w.collections, r, AcceptedMove(w, r).value)
  {
    MoveReplays(w, r);
  }

  lemma CreateEffectReplays(w: World, r: Request, dropped: seq<string>)
    requires Accepted(w, r) && r.Create?
    ensures CollectionsNext(w, r) == CollectionsAfter(w.collections, EffectOf(w, r, dropped))
  {
  }

  lemma PatchEffectReplays(w: World, r: Request, dropped: seq<string>)
    requires Accepted(w, r) && TreeInv(w.collections) && !r.Move? && !r.Create?
    ensures CollectionsNext(w, r) == CollectionsAfter(w.collections, EffectOf(w, r, dropped))
  {
    assert r.id in w.collections && w.collections[r.id].id == r.id;
  }

  lemma TableReplays(w: World, r: Request, dropped: seq<string>)
    requires Accepted(w, r) && TreeInv(w.collections)
    ensures CollectionsNext(w, r) == CollectionsAfter(w.collections, EffectOf(w, r, dropped))
  {
    if r.Move? { MoveEffectReplays(w, r, dropped); }
    else if r.Create? { CreateEffectReplays(w, r, dropped); }
    else { PatchEffectReplays(w, r, dropped); }
  }

  lemma {:induction false} RemoveListed(m: map<string, Grant>, ids: seq<string>)
    ensures RemoveGrants(m, ids) == m - (set x | x in ids)
    decreases ids
  {
    if ids != [] {
      RemoveListed(m - {ids[0]}, ids[1..]);
      assert (set x | x in ids) == {ids[0]} + (set x | x in ids[1..]);
    }
  }

  lemma MoveDropsGrants(s: Projection, e: Effect)
    requires e.CollectionMove?
    ensures ApplyStateEffect(s, e).grants == s.grants - (set x | x in e.dropped_grants)
  {
    RemoveListed(s.grants, e.dropped_grants);
  }

  lemma OthersKeepGrants(s: Projection, e: Effect)
    requires OnCollections(e) && !e.CollectionMove?
    ensures ApplyStateEffect(s, e).grants == s.grants
  {
  }

  lemma GrantsReplay(w: World, r: Request, dropped: seq<string>, s: Projection)
    requires Accepted(w, r) && Lists(dropped, GrantsLost(w, r)) && s.grants == w.grants
    ensures ApplyStateEffect(s, EffectOf(w, r, dropped)).grants == w.grants - GrantsLost(w, r)
  {
    if r.Move? {
      MoveDropsGrants(s, EffectOf(w, r, dropped));
      assert (set x | x in dropped) == GrantsLost(w, r);
    } else {
      OthersKeepGrants(s, EffectOf(w, r, dropped));
      assert w.grants - {} == w.grants;
    }
  }

  lemma NextReplays(w: World, r: Request, dropped: seq<string>)
    requires Accepted(w, r) && Lists(dropped, GrantsLost(w, r)) && TreeInv(w.collections) && Replays(w)
    ensures Replays(Next(w, r, dropped)) && TreeInv(CollectionsNext(w, r))
  {
    var e := EffectOf(w, r, dropped);
    var t := Next(w, r, dropped);
    assert t.audit[..|w.audit|] == w.audit;
    TableReplays(w, r, dropped);
    GrantsReplay(w, r, dropped, Replay(w.audit));
    EmitsWellFormed(w, r, dropped);
    EffectKeepsTree(w.collections, e);
  }

  // ---------------------------------------------------------------- the height walk

  /** Climbing over live rows only. */
  ghost predicate LiveClimbs(m: map<string, Collection>, x: string, root: string, n: nat)
    decreases n
  {
    if n == 0 then x == root else Live(m, x) && m[x].parent_id.Some? && LiveClimbs(m, m[x].parent_id.value, root, n - 1)
  }

  lemma {:induction false} LiveAllTheWay(m: map<string, Collection>, x: string, root: string, n: nat)
    requires LiveParents(m) && Live(m, x) && Climbs(m, x, root, n)
    ensures LiveClimbs(m, x, root, n)
    decreases n
  {
    if n > 0 { LiveAllTheWay(m, m[x].parent_id.value, root, n - 1); }
  }

  /** On the way from level `n` to the root lies some row of every level below `n`. */
  lemma {:induction false} LevelBelow(m: map<string, Collection>, x: string, root: string, n: nat, k: nat)
    returns (y: string)
    requires LiveClimbs(m, x, root, n) && 0 < k <= n
    ensures LiveClimbs(m, y, root, k) && Live(m, y)
    decreases n
  {
    if n == k { y := x; } else { y := LevelBelow(m, m[x].parent_id.value, root, n - 1, k); }
  }

  ghost predicate HoldsLevel(m: map<string, Collection>, frontier: set<string>, root: string, n: nat) {
    forall x :: LiveClimbs(m, x, root, n) ==> x in frontier
  }

  /** The walk's height bounds every live climb, unless it hit the cap. */
  lemma {:induction false} HeightBounds(m: map<string, Collection>, frontier: set<string>, height: nat, root: string,
                                        x: string, n: nat)
    requires HoldsLevel(m, frontier, root, height) && LiveClimbs(m, x, root, n) && height < COLLECTION_MAX_DEPTH
    requires HeightFrom(m, frontier, height) < COLLECTION_MAX_DEPTH
    ensures n <= HeightFrom(m, frontier, height)
    decreases COLLECTION_MAX_DEPTH - height
  {
    var children := LiveChildren(m, frontier);
    forall y | LiveClimbs(m, y, root, height + 1) ensures y in children {}
    if n > height {
      var y := LevelBelow(m, x, root, n, height + 1);
      assert y in children;
    }
    if children != {} {
      HeightGrows(m, frontier, height);
      assert HoldsLevel(m, children, root, height + 1);
      HeightBounds(m, children, height + 1, root, x, n);
    }
  }

  lemma HeightGrows(m: map<string, Collection>, frontier: set<string>, height: nat)
    requires LiveChildren(m, frontier) != {} && height < COLLECTION_MAX_DEPTH
    requires HeightFrom(m, frontier, height) < COLLECTION_MAX_DEPTH
    ensures height + 1 < COLLECTION_MAX_DEPTH
    ensures HeightFrom(m, frontier, height) == HeightFrom(m, LiveChildren(m, frontier), height + 1)
  {
  }

  // ---------------------------------------------------------------- create and patches keep the table

  /** Climbing from `p` takes fewer than `t` steps. */
  ghost predicate Within(m: map<string, Collection>, p: string, t: nat) {
    forall y, n: nat :: Climbs(m, p, y, n) ==> n < t
  }

  lemma {:induction false} ClimbIgnoresNew(m: map<string, Collection>, c: Collection, x: string, y: string, n: nat)
    requires TreeInv(m) && c.id !in m && x in m && Climbs(m[c.id := c], x, y, n)
    ensures Climbs(m, x, y, n)
    decreases n
  {
    if n > 0 {
      var rank :| Ranked(m, rank);
      assert RankedAt(m, rank, x);
      ClimbIgnoresNew(m, c, m[x].parent_id.value, y, n - 1);
    }
  }

  lemma CreateKeepsTable(w: World, r: Request)
    requires r.Create? && Creates(w, r) && TableInv(w.collections)
    ensures var out := w.collections[r.id := CreatedRow(w, r)]; LiveParents(out) && Shallow(out) && SlugsApart(out)
  {
    var m, c := w.collections, CreatedRow(w, r);
    var out := m[r.id := c];
    if r.parent.Some? {
      assert Climbs(m, r.parent.value, r.parent.value, 0);
      WalkSees(m, r.parent.value, None, 0, COLLECTION_MAX_DEPTH - 1, r.parent.value, 0);
    }
    forall k, y, n: nat | Live(out, k) && Climbs(out, k, y, n) ensures n < COLLECTION_MAX_DEPTH {
      if k != r.id {
        ClimbIgnoresNew(m, c, k, y, n);
      } else if n > 0 {
        ClimbIgnoresNew(m, c, r.parent.value, y, n - 1);
        WalkSees(m, r.parent.value, None, 0, COLLECTION_MAX_DEPTH - 1, y, n - 1);
      }
    }
    forall k | Live(out, k) && out[k].parent_id.Some? ensures Live(out, out[k].parent_id.value) {
      if k != r.id { assert Live(m, k); }
    }
    forall j, k ensures SiblingsDiffer(out, j, k) { assert SiblingsDiffer(m, j, k); }
  }

  ghost predicate SameLinks(m: map<string, Collection>, out: map<string, Collection>) {
    out.Keys == m.Keys && forall k :: k in m ==> out[k].parent_id == m[k].parent_id
  }

  lemma {:induction false} ClimbSameLinks(m: map<string, Collection>, out: map<string, Collection>, x: string,
                                          y: string, n: nat)
    requires SameLinks(m, out)
    ensures Climbs(out, x, y, n) <==> Climbs(m, x, y, n)
    decreases n
  {
    if n > 0 && x in m && m[x].parent_id.Some? { ClimbSameLinks(m, out, m[x].parent_id.value, y, n - 1); }
  }

  /** With the links unchanged, a row that becomes live must be shallow itself. */
  lemma SameLinksShallow(m: map<string, Collection>, out: map<string, Collection>)
    requires SameLinks(m, out) && Shallow(m)
    requires forall k :: Live(out, k) ==> Live(m, k) || Within(m, k, COLLECTION_MAX_DEPTH)
    ensures Shallow(out)
  {
    forall k, y, n: nat | Live(out, k) && Climbs(out, k, y, n) ensures n < COLLECTION_MAX_DEPTH {
      ClimbSameLinks(m, out, k, y, n);
    }
  }

  lemma RenameKeepsTable(w: World, r: Request)
    requires r.Rename? && Renames(w, r) && TableInv(w.collections)
    ensures var out := CollectionsNext(w, r); LiveParents(out) && Shallow(out) && SlugsApart(out)
  {
    var m, out := w.collections, CollectionsNext(w, r);
    SameLinksShallow(m, out);
    forall k | Live(out, k) && out[k].parent_id.Some? ensures Live(out, out[k].parent_id.value) { assert Live(m, k); }
    forall j, k ensures SiblingsDiffer(out, j, k) { assert SiblingsDiffer(m, j, k); }
  }

  lemma DeleteKeepsTable(w: World, r: Request)
    requires r.Delete? && Deletes(w, r) && TableInv(w.collections)
    ensures var out := CollectionsNext(w, r); LiveParents(out) && Shallow(out) && SlugsApart(out)
  {
    var m, out := w.collections, CollectionsNext(w, r);
    SameLinksShallow(m, out);
    forall k | Live(out, k) && out[k].parent_id.Some? ensures Live(out, out[k].parent_id.value) {
      assert Live(m, k);
      assert k !in LiveChildren(m, {r.id});
    }
    forall j, k ensures SiblingsDiffer(out, j, k) { assert SiblingsDiffer(m, j, k); }
  }

  lemma RestoreKeepsTable(w: World, r: Request)
    requires r.Restore? && Restores(w, r) && TableInv(w.collections)
    ensures var out := CollectionsNext(w, r); LiveParents(out) && Shallow(out) && SlugsApart(out)
  {
    var m, out := w.collections, CollectionsNext(w, r);
    RestoredIsShallow(m, r.id);
    SameLinksShallow(m, out);
    forall k | Live(out, k) && out[k].parent_id.Some? ensures Live(out, out[k].parent_id.value) {
      if k != r.id {
        assert Live(m, k);
      } else {
        assert Climbs(m, m[k].parent_id.value, m[k].parent_id.value, 0);
        WalkSees(m, m[k].parent_id.value, None, 0, COLLECTION_MAX_DEPTH, m[k].parent_id.value, 0);
      }
    }
    forall j, k ensures SiblingsDiffer(out, j, k) { assert SiblingsDiffer(m, j, k); }
  }

  lemma RestoredIsShallow(m: map<string, Collection>, id: string)
    requires id in m && WalkUp(m, m[id].parent_id, None, 0, COLLECTION_MAX_DEPTH).Reached?
    requires WalkUp(m, m[id].parent_id, None, 0, COLLECTION_MAX_DEPTH).nodes < COLLECTION_MAX_DEPTH
    ensures Within(m, id, COLLECTION_MAX_DEPTH)
  {
    forall y, n: nat | Climbs(m, id, y, n) ensures n < COLLECTION_MAX_DEPTH {
      if n > 0 { WalkSees(m, m[id].parent_id.value, None, 0, COLLECTION_MAX_DEPTH, y, n - 1); }
    }
  }

  // ---------------------------------------------------------------- moves keep the table

  /** Outside the moved subtree climbing is as before. */
  lemma {:induction false} OutsideClimbs(m: map<string, Collection>, id: string, parent: Option<string>, key: string,
                                         x: string, y: string, n: nat)
    requires id in m && !InSubtree(m, x, id) && Climbs(Moved(m, id, parent, key), x, y, n)
    ensures Climbs(m, x, y, n)
    decreases n
  {
    assert Climbs(m, id, id, 0);
    if n > 0 {
      if InSubtree(m, m[x].parent_id.value, id) { ChildDescends(m, x, id); }
      OutsideClimbs(m, id, parent, key, m[x].parent_id.value, y, n - 1);
    }
  }

  /** In a forest the moved row is reached at one height only, the same before and after. */
  lemma {:induction false} ClimbBack(m: map<string, Collection>, id: string, parent: Option<string>, key: string,
                                     x: string, n: nat)
    requires id in m && Forest(Moved(m, id, parent, key)) && Climbs(Moved(m, id, parent, key), x, id, n)
    ensures Climbs(m, x, id, n)
    decreases n
  {
    if x == id {
      if n > 0 { ForestsAreAcyclic(Moved(m, id, parent, key), id, n); }
    } else {
      ClimbBack(m, id, parent, key, m[x].parent_id.value, n - 1);
    }
  }

  /** A climb that goes beyond `z` goes on from `z`. */
  lemma {:induction false} ClimbFrom(m: map<string, Collection>, x: string, z: string, j: nat, y: string, n: nat)
    requires Climbs(m, x, z, j) && Climbs(m, x, y, n) && j <= n
    ensures Climbs(m, z, y, n - j)
    decreases j
  {
    if j > 0 { ClimbFrom(m, m[x].parent_id.value, z, j - 1, y, n - 1); }
  }

  /** What the walks of an accepted move establish: `t` rows from the new parent to the root, none of
      them in the moved subtree, and room for the subtree below. */
  ghost predicate Fits(m: map<string, Collection>, id: string, parent: Option<string>, t: nat) {
    && Live(m, id) && t + HeightFrom(m, {id}, 0) < COLLECTION_MAX_DEPTH
    && (parent.Some? ==> Live(m, parent.value) && !InSubtree(m, parent.value, id) && Within(m, parent.value, t))
  }

  lemma AcceptedFits(w: World, r: Request)
    requires r.Move? && AcceptedMove(w, r).Some?
    ensures Fits(w.collections, r.id, NewParent(r.dest), TargetNodes(w, r).value)
  {
    if r.dest.Under? {
      var m, c := w.collections, r.dest.collection_id;
      DestinationOutside(w, r);
      forall y, n: nat | Climbs(m, c, y, n) ensures n < TargetNodes(w, r).value {
        WalkSees(m, c, Some(r.id), 0, COLLECTION_MAX_DEPTH, y, n);
      }
    }
  }

  lemma BelowMoved(m: map<string, Collection>, id: string, parent: Option<string>, key: string, t: nat, k: string,
                   j: nat)
    requires TableInv(m) && Fits(m, id, parent, t) && Live(m, k) && Climbs(Moved(m, id, parent, key), k, id, j)
    ensures j <= HeightFrom(m, {id}, 0)
  {
    MoveKeepsForest(m, id, parent, key);
    ClimbBack(m, id, parent, key, k, j);
    LiveAllTheWay(m, k, id, j);
    HeightBounds(m, {id}, 0, id, k, j);
  }

  lemma AboveMoved(m: map<string, Collection>, id: string, parent: Option<string>, key: string, t: nat, y: string,
                   n: nat)
    requires Fits(m, id, parent, t) && n > 0 && Climbs(Moved(m, id, parent, key), id, y, n)
    ensures n <= t
  {
    OutsideClimbs(m, id, parent, key, parent.value, y, n - 1);
  }

  /** No climb in the moved tree reaches the cap. */
  lemma MovedIsShallow(m: map<string, Collection>, id: string, parent: Option<string>, key: string, t: nat, k: string,
                       y: string, n: nat)
    requires TableInv(m) && Fits(m, id, parent, t) && Live(m, k) && Climbs(Moved(m, id, parent, key), k, y, n)
    ensures n < COLLECTION_MAX_DEPTH
  {
    if InSubtree(m, k, id) {
      SubtreeSurvivesMove(m, id, parent, key, k);
      var j: nat :| Climbs(Moved(m, id, parent, key), k, id, j);
      InsideIsShallow(m, id, parent, key, t, k, j, y, n);
    } else {
      OutsideClimbs(m, id, parent, key, k, y, n);
      assert n < COLLECTION_MAX_DEPTH by { assert Shallow(m); }
    }
  }

  lemma InsideIsShallow(m: map<string, Collection>, id: string, parent: Option<string>, key: string, t: nat, k: string,
                        j: nat, y: string, n: nat)
    requires TableInv(m) && Fits(m, id, parent, t) && Live(m, k)
    requires Climbs(Moved(m, id, parent, key), k, id, j) && Climbs(Moved(m, id, parent, key), k, y, n)
    ensures n < COLLECTION_MAX_DEPTH
  {
    BelowMoved(m, id, parent, key, t, k, j);
    if n > j {
      ClimbFrom(Moved(m, id, parent, key), k, id, j, y, n);
      AboveMoved(m, id, parent, key, t, y, n - j);
    }
  }

  lemma MoveKeepsDepth(m: map<string, Collection>, id: string, parent: Option<string>, key: string, t: nat,
                       out: map<string, Collection>)
    requires TableInv(m) && Fits(m, id, parent, t) && OnlyMoves(m, id, parent, key, out)
    ensures LiveParents(out) && Shallow(out)
  {
    forall k, y, n: nat | Live(out, k) && Climbs(out, k, y, n) ensures n < COLLECTION_MAX_DEPTH {
      ClimbSameLinks(Moved(m, id, parent, key), out, k, y, n);
      assert Live(m, k);
      MovedIsShallow(m, id, parent, key, t, k, y, n);
    }
    forall k | Live(out, k) && out[k].parent_id.Some? ensures Live(out, out[k].parent_id.value) { assert Live(m, k); }
  }

  lemma MoveKeepsSlugs(m: map<string, Collection>, id: string, parent: Option<string>, key: string,
                       out: map<string, Collection>)
    requires SlugsApart(m) && id in m && OnlyMoves(m, id, parent, key, out)
    requires parent != m[id].parent_id ==> !SlugTaken(m, parent, m[id].slug, id)
    ensures SlugsApart(out)
  {
    forall j, k ensures SiblingsDiffer(out, j, k) { assert SiblingsDiffer(m, j, k); }
  }

  /** A move changes the links of the root row only, and bindings. */
  ghost predicate OnlyMoves(m: map<string, Collection>, id: string, parent: Option<string>, key: string,
                            out: map<string, Collection>)
    requires id in m
  {
    && SameLinks(Moved(m, id, parent, key), out)
    && forall k :: k in m ==> out[k].deleted_at == m[k].deleted_at && out[k].slug == m[k].slug
  }

  lemma MovedTableOnlyMoves(m: map<string, Collection>, r: Request, to: Rebinding)
    requires r.Move? && r.id in m
    ensures OnlyMoves(m, r.id, NewParent(r.dest), r.key, MovedTable(m, r, to))
  {
  }

  lemma MoveFindsSlot(w: World, r: Request)
    requires r.Move? && AcceptedMove(w, r).Some?
    ensures var m, parent := w.collections, NewParent(r.dest);
            r.id in m && (parent != m[r.id].parent_id ==> !SlugTaken(m, parent, m[r.id].slug, r.id))
  {
  }

  lemma MoveKeepsTable(w: World, r: Request)
    requires r.Move? && AcceptedMove(w, r).Some? && TableInv(w.collections)
    ensures var out := MovedTable(w.collections, r, AcceptedMove(w, r).value);
            LiveParents(out) && Shallow(out) && SlugsApart(out)
  {
    var m, out := w.collections, MovedTable(w.collections, r, AcceptedMove(w, r).value);
    AcceptedFits(w, r);
    MoveFindsSlot(w, r);
    MovedTableOnlyMoves(m, r, AcceptedMove(w, r).value);
    MoveKeepsDepth(m, r.id, NewParent(r.dest), r.key, TargetNodes(w, r).value, out);
    MoveKeepsSlugs(m, r.id, NewParent(r.dest), r.key, out);
  }

  // ---------------------------------------------------------------- whole runs

  /** A request served, or what other capabilities do meanwhile to spaces, docs and grants. */
  datatype Event =
    | Serve(r: Request, dropped: seq<string>)
    | Share(g: Grant)
    | Unshare(row: AuditRow)
    | Elsewhere(spaces: map<string, bool>, docs: map<string, DocAt>, row: AuditRow)

  ghost predicate Enabled(w: World, e: Event) {
    match e
    case Serve(r, dropped) => Accepted(w, r) && Lists(dropped, GrantsLost(w, r))
    case Share(g) => g.id !in w.grants
    case Unshare(row) => row.record.Allow? && (row.record.effect.AclRevoke? || row.record.effect.DocMove?)
    case Elsewhere(_, _, row) =>
      row.record.Allow? ==>
        var f := row.record.effect; !OnCollections(f) && !f.AclGrant? && !f.AclRevoke? && !f.DocMove?
  }

  function RevokedBy(row: AuditRow): set<string> {
    if !row.record.Allow? then {}
    else if row.record.effect.AclRevoke? then {row.record.effect.grant_id}
    else if row.record.effect.DocMove? then set x | x in row.record.effect.dropped_grants
    else {}
  }

  ghost function Do(w: World, e: Event): World
    requires Enabled(w, e)
  {
    match e
    case Serve(r, dropped) => Next(w, r, dropped)
    case Share(g) =>
      var f := AclGrant(g.id, g.workspace_id, g.resource_kind, g.resource_id, g.subject_kind, g.subject_id, g.role,
                        g.is_guest, g.created_by);
      w.(grants := w.grants[g.id := g], audit := w.audit + [Row(f)])
    case Unshare(row) => w.(grants := w.grants - RevokedBy(row), audit := w.audit + [row])
    case Elsewhere(spaces, docs, row) => w.(spaces := spaces, docs := docs, audit := w.audit + [row])
  }

  const EMPTY: World := World(map[], map[], map[], map[], [])

  ghost predicate Legal(run: seq<Event>) {
    run == [] || (Legal(run[..|run| - 1]) && Enabled(Exec(run[..|run| - 1]), run[|run| - 1]))
  }

  ghost function Exec(run: seq<Event>): World
  {
    if run == [] then EMPTY
    else
      var w, e := Exec(run[..|run| - 1]), run[|run| - 1];
      if Enabled(w, e) then Do(w, e) else w
  }

  ghost predicate WorldInv(w: World) { Replays(w) && TableInv(w.collections) }

  lemma ServeKeepsInv(w: World, r: Request, dropped: seq<string>)
    requires WorldInv(w) && Accepted(w, r) && Lists(dropped, GrantsLost(w, r))
    ensures WorldInv(Next(w, r, dropped))
  {
    NextReplays(w, r, dropped);
    match r
    case Create(_, _, _, _, _, _, _, _) => CreateKeepsTable(w, r);
    case Rename(_, _, _) => RenameKeepsTable(w, r);
    case Move(_, _, _, _, _, _) => MoveKeepsTable(w, r);
    case Delete(_, _) => DeleteKeepsTable(w, r);
    case Restore(_) => RestoreKeepsTable(w, r);
  }

  lemma RowReplays(audit: seq<AuditRow>, row: AuditRow)
    ensures Replay(audit + [row]) == ApplyRow(Replay(audit), row)
  {
    assert (audit + [row])[..|audit|] == audit;
  }

  lemma ShareReplays(s: Projection, e: Effect)
    requires e.AclGrant?
    ensures ApplyStateEffect(s, e).collections == s.collections
    ensures ApplyStateEffect(s, e).grants
         == s.grants[e.grant_id := Grant(e.grant_id, e.workspace_id, e.resource_kind, e.resource_id, e.subject_kind,
                                         e.subject_id, e.role, e.is_guest, e.created_by)]
  {
  }

  lemma UnshareReplays(s: Projection, row: AuditRow)
    requires row.record.Allow? && (row.record.effect.AclRevoke? || row.record.effect.DocMove?)
    ensures ApplyRow(s, row).collections == s.collections && ApplyRow(s, row).grants == s.grants - RevokedBy(row)
  {
    var e := row.record.effect;
    if e.AclRevoke? {
      RemoveListed(s.grants, [e.grant_id]);
      assert (set x | x in [e.grant_id]) == {e.grant_id};
    } else {
      RemoveListed(s.grants, e.dropped_grants);
    }
  }

  lemma ElsewhereReplays(s: Projection, e: Effect)
    requires !OnCollections(e) && !e.AclGrant? && !e.AclRevoke? && !e.DocMove?
    ensures ApplyStateEffect(s, e).collections == s.collections && ApplyStateEffect(s, e).grants == s.grants
  {
  }

  lemma EventKeepsInv(w: World, e: Event)
    requires WorldInv(w) && Enabled(w, e)
    ensures WorldInv(Do(w, e))
  {
    match e
    case Serve(r, dropped) => ServeKeepsInv(w, r, dropped);
    case Share(g) =>
      var row := Do(w, e).audit[|w.audit|];
      RowReplays(w.audit, row);
      ShareReplays(Replay(w.audit), row.record.effect);
    case Unshare(row) =>
      RowReplays(w.audit, row);
      UnshareReplays(Replay(w.audit), row);
    case Elsewhere(_, _, row) =>
      RowReplays(w.audit, row);
      if row.record.Allow? { ElsewhereReplays(Replay(w.audit), row.record.effect); }
  }

  /** Over every run, whatever else happens to spaces, docs and grants: the log alone reconstructs the
      collections and the grants; the collections are a forest in which children carry their parent's
      space; live ones hang under live parents, at most eight deep, with distinct sibling slugs. */
  lemma {:induction false} LogReconstructsCollections(run: seq<Event>)
    requires Legal(run)
    ensures WorldInv(Exec(run))
  {
    if run == [] {
      assert Ranked(map[], map[]);
    } else {
      LogReconstructsCollections(run[..|run| - 1]);
      EventKeepsInv(Exec(run[..|run| - 1]), run[|run| - 1]);
    }
  }
}
