/** The audit replay reducer (packages/audit/src/reducer.ts, state.ts): folding audit rows into the
    metadata projection. Every projected field comes from the effect; denied and failed rows, and
    effects outside the `state` class, change nothing. */
module AuditReducer {
  import opened Options

  // ---------------------------------------------------------------- the projection

  datatype Workspace = Workspace(
    id: string, slug: string, name: string, trash_retention_days: int, settings: string, created_by: string,
    deleted_at: Option<int>)

  datatype Member = Member(workspace_id: string, user_id: string, role: string, deleted_at: Option<int>)

  datatype Collection = Collection(
    id: string, workspace_id: string, parent_id: Option<string>, space_id: Option<string>, title: string, slug: string,
    order_key: string, created_by: string, deleted_at: Option<int>)

  datatype Doc = Doc(
    id: string, workspace_id: string, collection_id: Option<string>, title: string, slug: string, order_key: string,
    access_mode: string, published_slug: Option<string>, published_at: Option<int>, created_by: string,
    deleted_at: Option<int>)

  datatype Space = Space(
    id: string, workspace_id: string, kind: string, type_: string, owner_user_id: Option<string>, name: string,
    slug: string,
    baseline_access: string, created_by: string, deleted_at: Option<int>)

  datatype SpaceMember = SpaceMember(workspace_id: string, space_id: string, user_id: string, role: string)

  datatype Grant = Grant(
    id: string, workspace_id: string, resource_kind: string, resource_id: string, subject_kind: string,
    subject_id: string,
    role: string, is_guest: bool, created_by: string)

  datatype Agent = Agent(
    id: string, workspace_id: string, name: string, owner_user_id: string, created_by: string, revoked_at: Option<int>)

  datatype AgentToken = AgentToken(
    id: string, workspace_id: string, agent_id: string, token_prefix: string, last4: string, scopes: seq<string>,
    tier: string,
    expires_at: Option<int>, created_by: string, revoked_at: Option<int>)

  datatype Projection = Projection(
    workspaces: map<string, Workspace>, members: map<string, Member>, collections: map<string, Collection>,
    docs: map<string, Doc>, spaces: map<string, Space>, space_members: map<string, SpaceMember>,
    grants: map<string, Grant>, agents: map<string, Agent>, agent_tokens: map<string, AgentToken>)

  const EMPTY_STATE: Projection := Projection(map[], map[], map[], map[], map[], map[], map[], map[], map[])

  function MemberKey(workspace_id: string, user_id: string): string { workspace_id + "::" + user_id }

  function SpaceMemberKey(space_id: string, user_id: string): string { space_id + "::" + user_id }

  // ---------------------------------------------------------------- effects

  /** The `state` kinds, and one constructor for each class that replay ignores. */
  datatype Effect =
    | WorkspaceCreate(workspace_id: string, slug: string, name: string, trash_retention_days: int, settings: string,
                      created_by: string)
    | WorkspaceUpdate(workspace_id: string, new_name: Option<string>, new_retention: Option<int>,
                      new_settings: Option<string>)
    | WorkspaceSoftDelete(workspace_id: string, deleted_at: int)
    | WorkspaceRestore(workspace_id: string)
    | MemberAdd(workspace_id: string, user_id: string, role: string)
    | MemberRemove(workspace_id: string, user_id: string, deleted_at: int)
    | MemberUpdateRole(workspace_id: string, user_id: string, role: string)
    | SpaceCreate(
        space_id: string, workspace_id: string, space_kind: string, space_type: string, owner_user_id: Option<string>,
        name: string,
        slug: string, baseline_access: string, created_by: string)
    | SpaceUpdate(
        space_id: string, new_name: Option<string>, new_slug: Option<string>, new_type: Option<string>,
        new_baseline: Option<string>)
    | SpaceArchive(space_id: string, deleted_at: int)
    | SpaceRestore(space_id: string)
    | SpaceMemberAdd(workspace_id: string, space_id: string, user_id: string, role: string)
    | SpaceMemberRemove(space_id: string, user_id: string)
    | SpaceMemberUpdateRole(space_id: string, user_id: string, role: string)
    | AgentCreate(agent_id: string, workspace_id: string, name: string, agent_owner: string, created_by: string)
    | AgentUpdate(agent_id: string, new_name: Option<string>)
    | AgentRevoke(agent_id: string, revoked_at: int)
    | AgentTokenMint(
        token_id: string, workspace_id: string, agent_id: string, token_prefix: string, last4: string,
        scopes: seq<string>,
        tier: string, expires_at: Option<int>, created_by: string)
    | AgentTokenRevoke(token_id: string, revoked_at: int)
    | AclGrant(
        grant_id: string, workspace_id: string, resource_kind: string, resource_id: string, subject_kind: string,
        subject_id: string,
        role: string, is_guest: bool, created_by: string)
    | AclRevoke(grant_id: string)
    | CollectionCreate(
        collection_id: string, workspace_id: string, parent_id: Option<string>, space: Option<string>, title: string,
        slug: string,
        order_key: string, created_by: string)
    | CollectionUpdate(collection_id: string, new_title: Option<string>, new_slug: Option<string>,
                       new_order_key: Option<string>)
    | CollectionMove(
        collection_id: string, new_parent_id: Option<string>, order_key: string, new_space_id: Option<string>,
        dropped_grants: seq<string>)
    | CollectionSoftDelete(collection_id: string, deleted_at: int)
    | CollectionRestore(collection_id: string)
    | DocCreate(
        doc_id: string, workspace_id: string, collection: Option<string>, title: string, slug: string,
        order_key: string,
        access_mode: string, created_by: string)
    | DocRename(doc_id: string, title: string, slug: string)
    | DocMove(doc_id: string, new_collection_id: Option<string>, order_key: string, dropped_grants: seq<string>)
    | DocPublish(doc_id: string, published_slug: string, published_at: int)
    | DocUnpublish(doc_id: string)
    | DocSoftDelete(doc_id: string, deleted_at: int)
    | DocRestore(doc_id: string)
    | Content(kind: string)
    | AuditOnly(kind: string)
    | Deferred(kind: string)

  datatype Outcome = Allow(effect: Effect) | Deny | Error

  datatype AuditRow = AuditRow(principal: string, record: Outcome)

  // ---------------------------------------------------------------- one effect

  /** Removing keys one by one. */
  function RemoveGrants(m: map<string, Grant>, ids: seq<string>): map<string, Grant>
    decreases ids
  {
    if ids == [] then m else RemoveGrants(m - {ids[0]}, ids[1..])
  }

  // ---------------------------------------------------------------- rebinding a subtree

  /** From `x`, the n-th parent link up is `root`. */
  ghost predicate Climbs(m: map<string, Collection>, x: string, root: string, n: nat)
    decreases n
  {
    if n == 0 then x == root
    else x in m && m[x].parent_id.Some? && Climbs(m, m[x].parent_id.value, root, n - 1)
  }

  /** `x` is `root` or lies below it; parent links may be cyclic. */
  ghost predicate InSubtree(m: map<string, Collection>, x: string, root: string) {
    exists n: nat :: Climbs(m, x, root, n)
  }

  ghost function Rebound(m: map<string, Collection>, root: string, space: Option<string>): map<string, Collection> {
    map k | k in m :: if InSubtree(m, k, root) then m[k].(space_id := space) else m[k]
  }

  ghost predicate Keyed(m: map<string, Collection>) { forall k :: k in m ==> m[k].id == k }

  /** `Object.values`, in some order. */
  method Values(m: map<string, Collection>) returns (all: seq<Collection>)
    ensures forall k :: k in m ==> m[k] in all
    ensures forall i :: 0 <= i < |all| ==> all[i] in m.Values
  {
    all := [];
    var keys := m.Keys;
    while keys != {}
      invariant keys <= m.Keys && (forall k :: k in m && k !in keys ==> m[k] in all)
      invariant forall i :: 0 <= i < |all| ==> all[i] in m.Values
      decreases keys
    {
      var k :| k in keys;
      all := all + [m[k]];
      keys := keys - {k};
    }
  }

  ghost predicate Expanded(m: map<string, Collection>, subtree: set<string>, frontier: seq<string>) {
    forall k :: k in m && m[k].parent_id.Some? && m[k].parent_id.value in subtree && m[k].parent_id.value !in frontier
      ==> k in subtree
  }

  ghost predicate OnlyDescendants(m: map<string, Collection>, subtree: set<string>, root: string) {
    forall x :: x in subtree ==> InSubtree(m, x, root)
  }

  /** One pass over all collections: the children of the frontier that are new. */
  method NextFrontier(m: map<string, Collection>, all: seq<Collection>, subtree: set<string>, frontier: seq<string>,
                      root: string)
    returns (grown: set<string>, next: seq<string>)
    requires Keyed(m) && (forall k :: k in m ==> m[k] in all) && (forall i :: 0 <= i < |all| ==> all[i] in m.Values)
    requires Expanded(m, subtree, frontier) && OnlyDescendants(m, subtree, root) &&
             (forall x :: x in frontier ==> x in subtree)
    ensures Expanded(m, grown, next) && OnlyDescendants(m, grown, root) && subtree <= grown
    ensures (forall x :: x in next ==> x in grown && x in m) && (next == [] ==> grown == subtree)
    ensures next != [] ==> exists x :: x in next && x in m && x !in subtree
    ensures grown <= subtree + m.Keys
  {
    grown, next := subtree, [];
    for i := 0 to |all|
      invariant subtree <= grown <= subtree + m.Keys && OnlyDescendants(m, grown, root)
      invariant forall x :: x in grown <==> x in subtree || x in next
      invariant forall x :: x in next ==> x in m && x !in subtree
      invariant forall j :: 0 <= j < i ==> ChildTaken(all[j], frontier, grown)
    {
      var c := all[i];
      var key :| key in m && m[key] == c;
      assert c.id == key;
      if c.parent_id.Some? && c.parent_id.value in frontier && c.id !in grown {
        ChildDescends(m, c.id, root);
        grown := grown + {c.id};
        next := next + [c.id];
      }
    }
    forall k | k in m && m[k].parent_id.Some? && m[k].parent_id.value in grown && m[k].parent_id.value !in next
      ensures k in grown {
      var j :| 0 <= j < |all| && all[j] == m[k];
      assert ChildTaken(all[j], frontier, grown);
    }
    if next != [] { assert next[0] in next; }
  }

  ghost predicate ChildTaken(c: Collection, frontier: seq<string>, subtree: set<string>) {
    c.parent_id.Some? && c.parent_id.value in frontier ==> c.id in subtree
  }

  lemma ChildDescends(m: map<string, Collection>, k: string, root: string)
    requires k in m && m[k].parent_id.Some? && InSubtree(m, m[k].parent_id.value, root)
    ensures InSubtree(m, k, root)
  {
    var n: nat :| Climbs(m, m[k].parent_id.value, root, n);
    assert Climbs(m, k, root, n + 1);
  }

  /** A set that holds the root and is closed under children holds the whole subtree. */
  lemma {:induction false} ClosedHoldsSubtree(m: map<string, Collection>, subtree: set<string>, x: string, root: string,
                                              n: nat)
    requires root in subtree && Expanded(m, subtree, []) && Climbs(m, x, root, n)
    ensures x in subtree
    decreases n
  {
    if n > 0 { ClosedHoldsSubtree(m, subtree, m[x].parent_id.value, root, n - 1); }
  }

  /** `rebindSubtreeSpace`: a breadth-first walk that ends even on cyclic parent links, and stamps
      exactly the collections from which the root can be climbed to. */
  method RebindSubtreeSpace(m: map<string, Collection>, root: string, space: Option<string>)
    returns (out: map<string, Collection>)
    requires Keyed(m)
    ensures out == Rebound(m, root, space)
  {
    var all := Values(m);
    var subtree: set<string>, frontier := {root}, [root];
    assert Climbs(m, root, root, 0);
    while frontier != []
      invariant root in subtree && Expanded(m, subtree, frontier) && OnlyDescendants(m, subtree, root)
      invariant forall x :: x in frontier ==> x in subtree
      decreases m.Keys - subtree, |frontier|
    {
      ghost var before := subtree;
      subtree, frontier := NextFrontier(m, all, subtree, frontier, root);
      if frontier != [] {
        ghost var x :| x in frontier && x in m && x !in before;
        assert x in m.Keys - before && x !in m.Keys - subtree;
        assert m.Keys - subtree < m.Keys - before;
      }
    }
    forall k | k in m ensures k in subtree <==> InSubtree(m, k, root) {
      if InSubtree(m, k, root) {
        var n: nat :| Climbs(m, k, root, n);
        ClosedHoldsSubtree(m, subtree, k, root, n);
      }
    }
    out := Stamp(m, subtree, space);
  }

  /** The loop over the subtree's ids. */
  method Stamp(m: map<string, Collection>, subtree: set<string>, space: Option<string>)
    returns (out: map<string, Collection>)
    ensures out == map k | k in m :: if k in subtree then m[k].(space_id := space) else m[k]
  {
    out := m;
    var ids := subtree;
    while ids != {}
      invariant ids <= subtree && out.Keys == m.Keys
      invariant forall k :: k in m ==> out[k] == if k in subtree && k !in ids then m[k].(space_id := space) else m[k]
      decreases ids
    {
      var id :| id in ids;
      if id in out { out := out[id := out[id].(space_id := space)]; }
      ids := ids - {id};
    }
  }

  // ---------------------------------------------------------------- applying and replaying

  // Which table an effect is about. The source's switch treats them one after the other.

  predicate OnWorkspaces(e: Effect) {
    e.WorkspaceCreate? || e.WorkspaceUpdate? || e.WorkspaceSoftDelete? || e.WorkspaceRestore?
  }

  predicate OnMembers(e: Effect) { e.MemberAdd? || e.MemberRemove? || e.MemberUpdateRole? }

  predicate OnSpaces(e: Effect) { e.SpaceCreate? || e.SpaceUpdate? || e.SpaceArchive? || e.SpaceRestore? }

  predicate OnSpaceMembers(e: Effect) { e.SpaceMemberAdd? || e.SpaceMemberRemove? || e.SpaceMemberUpdateRole? }

  predicate OnAgents(e: Effect) { e.AgentCreate? || e.AgentUpdate? || e.AgentRevoke? }

  predicate OnTokens(e: Effect) { e.AgentTokenMint? || e.AgentTokenRevoke? }

  predicate OnGrants(e: Effect) { e.AclGrant? || e.AclRevoke? || e.CollectionMove? || e.DocMove? }

  predicate OnCollections(e: Effect) {
    e.CollectionCreate? || e.CollectionUpdate? || e.CollectionMove? || e.CollectionSoftDelete? || e.CollectionRestore?
  }

  predicate OnDocs(e: Effect) {
    e.DocCreate? || e.DocRename? || e.DocMove? || e.DocPublish? || e.DocUnpublish? || e.DocSoftDelete? || e.DocRestore?
  }

  // What an effect makes of one entity, and of its table. A patch re-keys by the entity's own id.

  function CreatedWorkspace(e: Effect): Workspace
    requires e.WorkspaceCreate?
  {
    Workspace(e.workspace_id, e.slug, e.name, e.trash_retention_days, e.settings, e.created_by, None)
  }

  function PatchedWorkspace(w: Workspace, e: Effect): Workspace
    requires OnWorkspaces(e) && !e.WorkspaceCreate?
  {
    match e
    case WorkspaceUpdate(_, name, days, settings) =>
      w.(name := Or(name, w.name), trash_retention_days := Or(days, w.trash_retention_days),
         settings := Or(settings, w.settings))
    case WorkspaceSoftDelete(_, at) => w.(deleted_at := Some(at))
    case WorkspaceRestore(_) => w.(deleted_at := None)
  }

  function ApplyToWorkspaces(m: map<string, Workspace>, e: Effect): map<string, Workspace> {
    if !OnWorkspaces(e) then m
    else if e.WorkspaceCreate? then m[e.workspace_id := CreatedWorkspace(e)]
    else if e.workspace_id in m then
      var w := PatchedWorkspace(m[e.workspace_id], e);
      m[w.id := w]
    else m
  }

  function CreatedMember(e: Effect): Member
    requires e.MemberAdd?
  {
    Member(e.workspace_id, e.user_id, e.role, None)
  }

  function PatchedMember(m: Member, e: Effect): Member
    requires OnMembers(e) && !e.MemberAdd?
  {
    if e.MemberRemove? then m.(deleted_at := Some(e.deleted_at)) else m.(role := e.role)
  }

  function ApplyToMembers(m: map<string, Member>, e: Effect): map<string, Member> {
    if !OnMembers(e) then m
    else
      var key := MemberKey(e.workspace_id, e.user_id);
      if e.MemberAdd? then m[key := CreatedMember(e)]
      else if key in m then
        var member := PatchedMember(m[key], e);
        m[MemberKey(member.workspace_id, member.user_id) := member]
      else m
  }

  function CreatedSpace(e: Effect): Space
    requires e.SpaceCreate?
  {
    Space(e.space_id, e.workspace_id, e.space_kind, e.space_type, e.owner_user_id, e.name, e.slug, e.baseline_access,
          e.created_by, None)
  }

  function PatchedSpace(sp: Space, e: Effect): Space
    requires OnSpaces(e) && !e.SpaceCreate?
  {
    match e
    case SpaceUpdate(_, name, slug, type_, access) =>
      sp.(name := Or(name, sp.name), slug := Or(slug, sp.slug), type_ := Or(type_, sp.type_),
          baseline_access := Or(access, sp.baseline_access))
    case SpaceArchive(_, at) => sp.(deleted_at := Some(at))
    case SpaceRestore(_) => sp.(deleted_at := None)
  }

  function ApplyToSpaces(m: map<string, Space>, e: Effect): map<string, Space> {
    if !OnSpaces(e) then m
    else if e.SpaceCreate? then m[e.space_id := CreatedSpace(e)]
    else if e.space_id in m then
      var sp := PatchedSpace(m[e.space_id], e);
      m[sp.id := sp]
    else m
  }

  function CreatedSpaceMember(e: Effect): SpaceMember
    requires e.SpaceMemberAdd?
  {
    SpaceMember(e.workspace_id, e.space_id, e.user_id, e.role)
  }

  function PatchedSpaceMember(m: SpaceMember, e: Effect): SpaceMember
    requires e.SpaceMemberUpdateRole?
  {
    m.(role := e.role)
  }

  /** Removing a membership removes its key. */
  function ApplyToSpaceMembers(m: map<string, SpaceMember>, e: Effect): map<string, SpaceMember> {
    if !OnSpaceMembers(e) then m
    else
      var key := SpaceMemberKey(e.space_id, e.user_id);
      if e.SpaceMemberAdd? then m[key := CreatedSpaceMember(e)]
      else if e.SpaceMemberRemove? then m - {key}
      else if key in m then
        var member := PatchedSpaceMember(m[key], e);
        m[SpaceMemberKey(member.space_id, member.user_id) := member]
      else m
  }

  function CreatedAgent(e: Effect): Agent
    requires e.AgentCreate?
  {
    Agent(e.agent_id, e.workspace_id, e.name, e.agent_owner, e.created_by, None)
  }

  function PatchedAgent(a: Agent, e: Effect): Agent
    requires OnAgents(e) && !e.AgentCreate?
  {
    if e.AgentUpdate? then a.(name := Or(e.new_name, a.name)) else a.(revoked_at := Some(e.revoked_at))
  }

  function ApplyToAgents(m: map<string, Agent>, e: Effect): map<string, Agent> {
    if !OnAgents(e) then m
    else if e.AgentCreate? then m[e.agent_id := CreatedAgent(e)]
    else if e.agent_id in m then
      var a := PatchedAgent(m[e.agent_id], e);
      m[a.id := a]
    else m
  }

  function CreatedToken(e: Effect): AgentToken
    requires e.AgentTokenMint?
  {
    AgentToken(e.token_id, e.workspace_id, e.agent_id, e.token_prefix, e.last4, e.scopes, e.tier, e.expires_at,
               e.created_by, None)
  }

  function PatchedToken(k: AgentToken, e: Effect): AgentToken
    requires e.AgentTokenRevoke?
  {
    k.(revoked_at := Some(e.revoked_at))
  }

  function ApplyToTokens(m: map<string, AgentToken>, e: Effect): map<string, AgentToken> {
    if !OnTokens(e) then m
    else if e.AgentTokenMint? then m[e.token_id := CreatedToken(e)]
    else if e.token_id in m then
      var k := PatchedToken(m[e.token_id], e);
      m[k.id := k]
    else m
  }

  function CreatedCollection(e: Effect): Collection
    requires e.CollectionCreate?
  {
    Collection(e.collection_id, e.workspace_id, e.parent_id, e.space, e.title, e.slug, e.order_key, e.created_by, None)
  }

  /** A move only re-parents the collection here; the rebinding of its subtree follows. */
  function PatchedCollection(c: Collection, e: Effect): Collection
    requires OnCollections(e) && !e.CollectionCreate?
  {
    match e
    case CollectionUpdate(_, title, slug, key) =>
      c.(title := Or(title, c.title), slug := Or(slug, c.slug), order_key := Or(key, c.order_key))
    case CollectionMove(_, parent, key, _, _) => c.(parent_id := parent, order_key := key)
    case CollectionSoftDelete(_, at) => c.(deleted_at := Some(at))
    case CollectionRestore(_) => c.(deleted_at := None)
  }

  function ApplyToCollections(m: map<string, Collection>, e: Effect): map<string, Collection> {
    if !OnCollections(e) then m
    else if e.CollectionCreate? then m[e.collection_id := CreatedCollection(e)]
    else if e.collection_id in m then
      var c := PatchedCollection(m[e.collection_id], e);
      m[c.id := c]
    else m
  }

  function CreatedDoc(e: Effect): Doc
    requires e.DocCreate?
  {
    Doc(e.doc_id, e.workspace_id, e.collection, e.title, e.slug, e.order_key, e.access_mode, None, None, e.created_by,
        None)
  }

  function PatchedDoc(d: Doc, e: Effect): Doc
    requires OnDocs(e) && !e.DocCreate?
  {
    match e
    case DocRename(_, title, slug) => d.(title := title, slug := slug)
    case DocMove(_, place, key, _) => d.(collection_id := place, order_key := key)
    case DocPublish(_, slug, at) => d.(published_slug := Some(slug), published_at := Some(at))
    case DocUnpublish(_) => d.(published_slug := None, published_at := None)
    case DocSoftDelete(_, at) => d.(deleted_at := Some(at), published_slug := None, published_at := None)
    case DocRestore(_) => d.(deleted_at := None)
  }

  function ApplyToDocs(m: map<string, Doc>, e: Effect): map<string, Doc> {
    if !OnDocs(e) then m
    else if e.DocCreate? then m[e.doc_id := CreatedDoc(e)]
    else if e.doc_id in m then
      var d := PatchedDoc(m[e.doc_id], e);
      m[d.id := d]
    else m
  }

  /** Moves across a boundary drop grants in passing. */
  function ApplyToGrants(m: map<string, Grant>, e: Effect): map<string, Grant> {
    if !OnGrants(e) then m
    else if e.AclGrant? then
      m[e.grant_id := Grant(e.grant_id, e.workspace_id, e.resource_kind, e.resource_id, e.subject_kind, e.subject_id,
                            e.role, e.is_guest, e.created_by)]
    else RemoveGrants(m, if e.AclRevoke? then [e.grant_id] else e.dropped_grants)
  }

  /** Everything but the collections, which are given: their moves walk the subtree. */
  function ApplyBeside(s: Projection, e: Effect, collections: map<string, Collection>): Projection {
    Projection(
      ApplyToWorkspaces(s.workspaces, e), ApplyToMembers(s.members, e), collections, ApplyToDocs(s.docs, e),
      ApplyToSpaces(s.spaces, e), ApplyToSpaceMembers(s.space_members, e), ApplyToGrants(s.grants, e),
      ApplyToAgents(s.agents, e), ApplyToTokens(s.agent_tokens, e))
  }

  /** What an effect does to the collections. */
  ghost function CollectionsAfter(m: map<string, Collection>, e: Effect): map<string, Collection> {
    var next := ApplyToCollections(m, e);
    if e.CollectionMove? then Rebound(next, e.collection_id, e.new_space_id) else next
  }

  ghost function ApplyStateEffect(s: Projection, e: Effect): Projection {
    ApplyBeside(s, e, CollectionsAfter(s.collections, e))
  }

  ghost function ApplyRow(s: Projection, row: AuditRow): Projection {
    if row.record.Allow? then ApplyStateEffect(s, row.record.effect) else s
  }

  ghost function Replay(rows: seq<AuditRow>): Projection {
    if rows == [] then EMPTY_STATE else ApplyRow(Replay(rows[..|rows| - 1]), rows[|rows| - 1])
  }

  method ApplyAuditRow(s: Projection, row: AuditRow) returns (out: Projection)
    requires Keyed(s.collections)
    ensures out == ApplyRow(s, row) && Keyed(out.collections)
  {
    if !row.record.Allow? { return s; }
    var e := row.record.effect;
    EffectKeepsKeys(s.collections, e);
    var collections := ApplyToCollections(s.collections, e);
    if e.CollectionMove? {
      collections := RebindSubtreeSpace(collections, e.collection_id, e.new_space_id);
    }
    out := ApplyBeside(s, e, collections);
  }

  lemma EffectKeepsKeys(m: map<string, Collection>, e: Effect)
    requires Keyed(m)
    ensures Keyed(CollectionsAfter(m, e))
  {
  }

  /** `replay`: one pass over the log. */
  method ReplayLog(rows: seq<AuditRow>) returns (state: Projection)
    ensures state == Replay(rows)
  {
    state := EMPTY_STATE;
    for i := 0 to |rows|
      invariant state == Replay(rows[..i]) && Keyed(state.collections)
    {
      state := ApplyAuditRow(state, rows[i]);
      assert rows[..i + 1][..i] == rows[..i];
    }
    assert rows[..|rows|] == rows;
  }
}
