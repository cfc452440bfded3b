/** What the effects of the audit log say of the entities they name, field by field, and what a state
    holds of them (packages/audit/src/reducer.ts, state.ts). */
module AuditFacts {
  import opened Options
  import opened AuditReducer

  // ---------------------------------------------------------------- what there is to say

  datatype Subject =
    | TheWorkspace(id: string)
    | TheMember(id: string)
    | TheSpace(id: string)
    | TheSpaceMember(id: string)
    | TheAgent(id: string)
    | TheToken(id: string)
    | TheGrant(id: string)
    | TheCollection(id: string)
    | TheDoc(id: string)

  datatype Field =
    | Id | InWorkspace | Name | Slug | Title | Settings | Retention | CreatedBy | DeletedAt | RevokedAt | User | Role
    | Kind | Type | Owner | Baseline | InSpace | OfAgent | Prefix | Last4 | Scopes | Tier | ExpiresAt
    | ResourceKind | ResourceId | SubjectKind | SubjectId | Guest | Parent | OrderKey | Place | AccessMode
    | PublishedSlug | PublishedAt

  datatype Value =
    | Text(s: string)
    | OptText(o: Option<string>)
    | Number(n: int)
    | At(t: Option<int>)
    | Flag(b: bool)
    | Texts(l: seq<string>)

  /** A patch says something only where it names the field. */
  function TextIf(t: Option<string>): Option<Value> { if t.Some? then Some(Text(t.value)) else None }

  function NumberIf(n: Option<int>): Option<Value> { if n.Some? then Some(Number(n.value)) else None }

  // ---------------------------------------------------------------- what an effect says of a field

  function SaidOfWorkspace(e: Effect, x: string, f: Field): Option<Value> {
    if OnWorkspaces(e) && e.workspace_id == x then WorkspaceSays(e, f) else None
  }

  function WorkspaceSays(e: Effect, f: Field): Option<Value>
    requires OnWorkspaces(e)
  {
    match f
    case Id => if e.WorkspaceCreate? then Some(Text(e.workspace_id)) else None
    case Slug => if e.WorkspaceCreate? then Some(Text(e.slug)) else None
    case CreatedBy => if e.WorkspaceCreate? then Some(Text(e.created_by)) else None
    case Name =>
      if e.WorkspaceCreate? then Some(Text(e.name)) else if e.WorkspaceUpdate? then TextIf(e.new_name) else None
    case Retention =>
      if e.WorkspaceCreate? then Some(Number(e.trash_retention_days))
      else if e.WorkspaceUpdate? then NumberIf(e.new_retention) else None
    case Settings =>
      if e.WorkspaceCreate? then Some(Text(e.settings))
      else if e.WorkspaceUpdate? then TextIf(e.new_settings) else None
    case DeletedAt =>
      if e.WorkspaceCreate? || e.WorkspaceRestore? then Some(At(None))
      else if e.WorkspaceSoftDelete? then Some(At(Some(e.deleted_at))) else None
    case _ => None
  }

  function WorkspaceFacts(f: Field): Workspace -> Option<Value> { (v: Workspace) => WorkspaceFact(v, f) }

  function WorkspaceFact(w: Workspace, f: Field): Option<Value> {
    match f
    case Id => Some(Text(w.id))
    case Slug => Some(Text(w.slug))
    case Name => Some(Text(w.name))
    case Retention => Some(Number(w.trash_retention_days))
    case Settings => Some(Text(w.settings))
    case CreatedBy => Some(Text(w.created_by))
    case DeletedAt => Some(At(w.deleted_at))
    case _ => None
  }

  // ---------------------------------------------------------------- members

  function SaidOfMember(e: Effect, x: string, f: Field): Option<Value> {
    if OnMembers(e) && MemberKey(e.workspace_id, e.user_id) == x then MemberSays(e, f) else None
  }

  function MemberSays(e: Effect, f: Field): Option<Value>
    requires OnMembers(e)
  {
    match f
    case InWorkspace => if e.MemberAdd? then Some(Text(e.workspace_id)) else None
    case User => if e.MemberAdd? then Some(Text(e.user_id)) else None
    case Role => if e.MemberAdd? || e.MemberUpdateRole? then Some(Text(e.role)) else None
    case DeletedAt =>
      if e.MemberAdd? then Some(At(None)) else if e.MemberRemove? then Some(At(Some(e.deleted_at))) else None
    case _ => None
  }

  function MemberFacts(f: Field): Member -> Option<Value> { (v: Member) => MemberFact(v, f) }

  function MemberFact(m: Member, f: Field): Option<Value> {
    match f
    case InWorkspace => Some(Text(m.workspace_id))
    case User => Some(Text(m.user_id))
    case Role => Some(Text(m.role))
    case DeletedAt => Some(At(m.deleted_at))
    case _ => None
  }

  // ---------------------------------------------------------------- spaces

  function SaidOfSpace(e: Effect, x: string, f: Field): Option<Value> {
    if OnSpaces(e) && e.space_id == x then SpaceSays(e, f) else None
  }

  function SpaceSays(e: Effect, f: Field): Option<Value>
    requires OnSpaces(e)
  {
    match f
    case Id => if e.SpaceCreate? then Some(Text(e.space_id)) else None
    case InWorkspace => if e.SpaceCreate? then Some(Text(e.workspace_id)) else None
    case Kind => if e.SpaceCreate? then Some(Text(e.space_kind)) else None
    case Owner => if e.SpaceCreate? then Some(OptText(e.owner_user_id)) else None
    case CreatedBy => if e.SpaceCreate? then Some(Text(e.created_by)) else None
    case Type =>
      if e.SpaceCreate? then Some(Text(e.space_type)) else if e.SpaceUpdate? then TextIf(e.new_type) else None
    case Name =>
      if e.SpaceCreate? then Some(Text(e.name)) else if e.SpaceUpdate? then TextIf(e.new_name) else None
    case Slug =>
      if e.SpaceCreate? then Some(Text(e.slug)) else if e.SpaceUpdate? then TextIf(e.new_slug) else None
    case Baseline =>
      if e.SpaceCreate? then Some(Text(e.baseline_access))
      else if e.SpaceUpdate? then TextIf(e.new_baseline) else None
    case DeletedAt =>
      if e.SpaceCreate? || e.SpaceRestore? then Some(At(None))
      else if e.SpaceArchive? then Some(At(Some(e.deleted_at))) else None
    case _ => None
  }

  function SpaceFacts(f: Field): Space -> Option<Value> { (v: Space) => SpaceFact(v, f) }

  function SpaceFact(sp: Space, f: Field): Option<Value> {
    match f
    case Id => Some(Text(sp.id))
    case InWorkspace => Some(Text(sp.workspace_id))
    case Kind => Some(Text(sp.kind))
    case Owner => Some(OptText(sp.owner_user_id))
    case CreatedBy => Some(Text(sp.created_by))
    case Type => Some(Text(sp.type_))
    case Name => Some(Text(sp.name))
    case Slug => Some(Text(sp.slug))
    case Baseline => Some(Text(sp.baseline_access))
    case DeletedAt => Some(At(sp.deleted_at))
    case _ => None
  }

  function SaidOfSpaceMember(e: Effect, x: string, f: Field): Option<Value> {
    if OnSpaceMembers(e) && SpaceMemberKey(e.space_id, e.user_id) == x then SpaceMemberSays(e, f) else None
  }

  function SpaceMemberSays(e: Effect, f: Field): Option<Value>
    requires OnSpaceMembers(e)
  {
    match f
    case InWorkspace => if e.SpaceMemberAdd? then Some(Text(e.workspace_id)) else None
    case InSpace => if e.SpaceMemberAdd? then Some(Text(e.space_id)) else None
    case User => if e.SpaceMemberAdd? then Some(Text(e.user_id)) else None
    case Role => if e.SpaceMemberAdd? || e.SpaceMemberUpdateRole? then Some(Text(e.role)) else None
    case _ => None
  }

  function SpaceMemberFacts(f: Field): SpaceMember -> Option<Value> { (v: SpaceMember) => SpaceMemberFact(v, f) }

  function SpaceMemberFact(m: SpaceMember, f: Field): Option<Value> {
    match f
    case InWorkspace => Some(Text(m.workspace_id))
    case InSpace => Some(Text(m.space_id))
    case User => Some(Text(m.user_id))
    case Role => Some(Text(m.role))
    case _ => None
  }

  // ---------------------------------------------------------------- agents and their tokens

  function SaidOfAgent(e: Effect, x: string, f: Field): Option<Value> {
    if OnAgents(e) && e.agent_id == x then AgentSays(e, f) else None
  }

  function AgentSays(e: Effect, f: Field): Option<Value>
    requires OnAgents(e)
  {
    match f
    case Id => if e.AgentCreate? then Some(Text(e.agent_id)) else None
    case InWorkspace => if e.AgentCreate? then Some(Text(e.workspace_id)) else None
    case Owner => if e.AgentCreate? then Some(Text(e.agent_owner)) else None
    case CreatedBy => if e.AgentCreate? then Some(Text(e.created_by)) else None
    case Name =>
      if e.AgentCreate? then Some(Text(e.name)) else if e.AgentUpdate? then TextIf(e.new_name) else None
    case RevokedAt =>
      if e.AgentCreate? then Some(At(None)) else if e.AgentRevoke? then Some(At(Some(e.revoked_at))) else None
    case _ => None
  }

  function AgentFacts(f: Field): Agent -> Option<Value> { (v: Agent) => AgentFact(v, f) }

  function AgentFact(a: Agent, f: Field): Option<Value> {
    match f
    case Id => Some(Text(a.id))
    case InWorkspace => Some(Text(a.workspace_id))
    case Owner => Some(Text(a.owner_user_id))
    case CreatedBy => Some(Text(a.created_by))
    case Name => Some(Text(a.name))
    case RevokedAt => Some(At(a.revoked_at))
    case _ => None
  }

  function SaidOfToken(e: Effect, x: string, f: Field): Option<Value> {
    if OnTokens(e) && e.token_id == x then TokenSays(e, f) else None
  }

  function TokenSays(e: Effect, f: Field): Option<Value>
    requires OnTokens(e)
  {
    if e.AgentTokenRevoke? then if f == RevokedAt then Some(At(Some(e.revoked_at))) else None
    else
      match f
      case Id => Some(Text(e.token_id))
      case InWorkspace => Some(Text(e.workspace_id))
      case OfAgent => Some(Text(e.agent_id))
      case Prefix => Some(Text(e.token_prefix))
      case Last4 => Some(Text(e.last4))
      case Scopes => Some(Texts(e.scopes))
      case Tier => Some(Text(e.tier))
      case ExpiresAt => Some(At(e.expires_at))
      case CreatedBy => Some(Text(e.created_by))
      case RevokedAt => Some(At(None))
      case _ => None
  }

  function TokenFacts(f: Field): AgentToken -> Option<Value> { (v: AgentToken) => TokenFact(v, f) }

  function TokenFact(k: AgentToken, f: Field): Option<Value> {
    match f
    case Id => Some(Text(k.id))
    case InWorkspace => Some(Text(k.workspace_id))
    case OfAgent => Some(Text(k.agent_id))
    case Prefix => Some(Text(k.token_prefix))
    case Last4 => Some(Text(k.last4))
    case Scopes => Some(Texts(k.scopes))
    case Tier => Some(Text(k.tier))
    case ExpiresAt => Some(At(k.expires_at))
    case CreatedBy => Some(Text(k.created_by))
    case RevokedAt => Some(At(k.revoked_at))
    case _ => None
  }

  // ---------------------------------------------------------------- grants

  function SaidOfGrant(e: Effect, x: string, f: Field): Option<Value> {
    if e.AclGrant? && e.grant_id == x then GrantSays(e, f) else None
  }

  function GrantSays(e: Effect, f: Field): Option<Value>
    requires e.AclGrant?
  {
    match f
    case Id => Some(Text(e.grant_id))
    case InWorkspace => Some(Text(e.workspace_id))
    case ResourceKind => Some(Text(e.resource_kind))
    case ResourceId => Some(Text(e.resource_id))
    case SubjectKind => Some(Text(e.subject_kind))
    case SubjectId => Some(Text(e.subject_id))
    case Role => Some(Text(e.role))
    case Guest => Some(Flag(e.is_guest))
    case CreatedBy => Some(Text(e.created_by))
    case _ => None
  }

  function GrantFacts(f: Field): Grant -> Option<Value> { (v: Grant) => GrantFact(v, f) }

  function GrantFact(g: Grant, f: Field): Option<Value> {
    match f
    case Id => Some(Text(g.id))
    case InWorkspace => Some(Text(g.workspace_id))
    case ResourceKind => Some(Text(g.resource_kind))
    case ResourceId => Some(Text(g.resource_id))
    case SubjectKind => Some(Text(g.subject_kind))
    case SubjectId => Some(Text(g.subject_id))
    case Role => Some(Text(g.role))
    case Guest => Some(Flag(g.is_guest))
    case CreatedBy => Some(Text(g.created_by))
    case _ => None
  }

  // ---------------------------------------------------------------- collections

  /** All but the space, which a move of an enclosing collection sets too. */
  function SaidOfCollection(e: Effect, x: string, f: Field): Option<Value> {
    if OnCollections(e) && e.collection_id == x then CollectionSays(e, f) else None
  }

  function CollectionSays(e: Effect, f: Field): Option<Value>
    requires OnCollections(e)
  {
    match f
    case Id => if e.CollectionCreate? then Some(Text(e.collection_id)) else None
    case InWorkspace => if e.CollectionCreate? then Some(Text(e.workspace_id)) else None
    case CreatedBy => if e.CollectionCreate? then Some(Text(e.created_by)) else None
    case Parent =>
      if e.CollectionCreate? then Some(OptText(e.parent_id))
      else if e.CollectionMove? then Some(OptText(e.new_parent_id)) else None
    case Title =>
      if e.CollectionCreate? then Some(Text(e.title)) else if e.CollectionUpdate? then TextIf(e.new_title) else None
    case Slug =>
      if e.CollectionCreate? then Some(Text(e.slug)) else if e.CollectionUpdate? then TextIf(e.new_slug) else None
    case OrderKey =>
      if e.CollectionCreate? || e.CollectionMove? then Some(Text(e.order_key))
      else if e.CollectionUpdate? then TextIf(e.new_order_key) else None
    case DeletedAt =>
      if e.CollectionCreate? || e.CollectionRestore? then Some(At(None))
      else if e.CollectionSoftDelete? then Some(At(Some(e.deleted_at))) else None
    case _ => None
  }

  function CollectionFacts(f: Field): Collection -> Option<Value> { (v: Collection) => CollectionFact(v, f) }

  function CollectionFact(c: Collection, f: Field): Option<Value> {
    match f
    case Id => Some(Text(c.id))
    case InWorkspace => Some(Text(c.workspace_id))
    case CreatedBy => Some(Text(c.created_by))
    case Parent => Some(OptText(c.parent_id))
    case Title => Some(Text(c.title))
    case Slug => Some(Text(c.slug))
    case OrderKey => Some(Text(c.order_key))
    case DeletedAt => Some(At(c.deleted_at))
    case _ => None
  }

  // ---------------------------------------------------------------- docs

  function SaidOfDoc(e: Effect, x: string, f: Field): Option<Value> {
    if OnDocs(e) && e.doc_id == x then DocSays(e, f) else None
  }

  function DocSays(e: Effect, f: Field): Option<Value>
    requires OnDocs(e)
  {
    match f
    case Id => if e.DocCreate? then Some(Text(e.doc_id)) else None
    case InWorkspace => if e.DocCreate? then Some(Text(e.workspace_id)) else None
    case AccessMode => if e.DocCreate? then Some(Text(e.access_mode)) else None
    case CreatedBy => if e.DocCreate? then Some(Text(e.created_by)) else None
    case Title => if e.DocCreate? || e.DocRename? then Some(Text(e.title)) else None
    case Slug => if e.DocCreate? || e.DocRename? then Some(Text(e.slug)) else None
    case Place =>
      if e.DocCreate? then Some(OptText(e.collection))
      else if e.DocMove? then Some(OptText(e.new_collection_id)) else None
    case OrderKey => if e.DocCreate? || e.DocMove? then Some(Text(e.order_key)) else None
    case DeletedAt =>
      if e.DocCreate? || e.DocRestore? then Some(At(None))
      else if e.DocSoftDelete? then Some(At(Some(e.deleted_at))) else None
    case PublishedSlug =>
      if e.DocPublish? then Some(OptText(Some(e.published_slug)))
      else if e.DocCreate? || e.DocUnpublish? || e.DocSoftDelete? then Some(OptText(None)) else None
    case PublishedAt =>
      if e.DocPublish? then Some(At(Some(e.published_at)))
      else if e.DocCreate? || e.DocUnpublish? || e.DocSoftDelete? then Some(At(None)) else None
    case _ => None
  }

  function DocFacts(f: Field): Doc -> Option<Value> { (v: Doc) => DocFact(v, f) }

  function DocFact(d: Doc, f: Field): Option<Value> {
    match f
    case Id => Some(Text(d.id))
    case InWorkspace => Some(Text(d.workspace_id))
    case AccessMode => Some(Text(d.access_mode))
    case CreatedBy => Some(Text(d.created_by))
    case Title => Some(Text(d.title))
    case Slug => Some(Text(d.slug))
    case Place => Some(OptText(d.collection_id))
    case OrderKey => Some(Text(d.order_key))
    case DeletedAt => Some(At(d.deleted_at))
    case PublishedSlug => Some(OptText(d.published_slug))
    case PublishedAt => Some(At(d.published_at))
    case _ => None
  }

  // ---------------------------------------------------------------- all entities alike

  function Said(e: Effect, x: Subject, f: Field): Option<Value> {
    match x
    case TheWorkspace(id) => SaidOfWorkspace(e, id, f)
    case TheMember(id) => SaidOfMember(e, id, f)
    case TheSpace(id) => SaidOfSpace(e, id, f)
    case TheSpaceMember(id) => SaidOfSpaceMember(e, id, f)
    case TheAgent(id) => SaidOfAgent(e, id, f)
    case TheToken(id) => SaidOfToken(e, id, f)
    case TheGrant(id) => SaidOfGrant(e, id, f)
    case TheCollection(id) => SaidOfCollection(e, id, f)
    case TheDoc(id) => SaidOfDoc(e, id, f)
  }

  predicate Creates(e: Effect, x: Subject) {
    match x
    case TheWorkspace(id) => e.WorkspaceCreate? && e.workspace_id == id
    case TheMember(id) => e.MemberAdd? && MemberKey(e.workspace_id, e.user_id) == id
    case TheSpace(id) => e.SpaceCreate? && e.space_id == id
    case TheSpaceMember(id) => e.SpaceMemberAdd? && SpaceMemberKey(e.space_id, e.user_id) == id
    case TheAgent(id) => e.AgentCreate? && e.agent_id == id
    case TheToken(id) => e.AgentTokenMint? && e.token_id == id
    case TheGrant(id) => e.AclGrant? && e.grant_id == id
    case TheCollection(id) => e.CollectionCreate? && e.collection_id == id
    case TheDoc(id) => e.DocCreate? && e.doc_id == id
  }

  /** A revocation's grant, or those that a move across a boundary drops. */
  predicate DropsGrant(e: Effect, id: string) {
    (e.AclRevoke? && e.grant_id == id) || ((e.CollectionMove? || e.DocMove?) && id in e.dropped_grants)
  }

  /** Space memberships and grants are deleted; everything else is only marked. */
  predicate Removes(e: Effect, x: Subject) {
    match x
    case TheSpaceMember(id) => e.SpaceMemberRemove? && SpaceMemberKey(e.space_id, e.user_id) == id
    case TheGrant(id) => DropsGrant(e, id)
    case _ => false
  }

  predicate Has(s: Projection, x: Subject) {
    match x
    case TheWorkspace(id) => id in s.workspaces
    case TheMember(id) => id in s.members
    case TheSpace(id) => id in s.spaces
    case TheSpaceMember(id) => id in s.space_members
    case TheAgent(id) => id in s.agents
    case TheToken(id) => id in s.agent_tokens
    case TheGrant(id) => id in s.grants
    case TheCollection(id) => id in s.collections
    case TheDoc(id) => id in s.docs
  }

  /** The field as the state has it; None where the entity has no such field. */
  function Fact(s: Projection, x: Subject, f: Field): Option<Value>
    requires Has(s, x)
  {
    match x
    case TheWorkspace(id) => WorkspaceFacts(f)(s.workspaces[id])
    case TheMember(id) => MemberFacts(f)(s.members[id])
    case TheSpace(id) => SpaceFacts(f)(s.spaces[id])
    case TheSpaceMember(id) => SpaceMemberFacts(f)(s.space_members[id])
    case TheAgent(id) => AgentFacts(f)(s.agents[id])
    case TheToken(id) => TokenFacts(f)(s.agent_tokens[id])
    case TheGrant(id) => GrantFacts(f)(s.grants[id])
    case TheCollection(id) => CollectionFacts(f)(s.collections[id])
    case TheDoc(id) => DocFacts(f)(s.docs[id])
  }

  /** The fields that each kind of entity has. */
  predicate HasField(x: Subject, f: Field) {
    match x
    case TheWorkspace(_) => f.Id? || f.Slug? || f.Name? || f.Retention? || f.Settings? || f.CreatedBy? || f.DeletedAt?
    case TheMember(_) => f.InWorkspace? || f.User? || f.Role? || f.DeletedAt?
    case TheSpace(_) =>
      f.Id? || f.InWorkspace? || f.Kind? || f.Owner? || f.CreatedBy? || f.Type? || f.Name? || f.Slug? ||
      f.Baseline? || f.DeletedAt?
    case TheSpaceMember(_) => f.InWorkspace? || f.InSpace? || f.User? || f.Role?
    case TheAgent(_) => f.Id? || f.InWorkspace? || f.Owner? || f.CreatedBy? || f.Name? || f.RevokedAt?
    case TheToken(_) =>
      f.Id? || f.InWorkspace? || f.OfAgent? || f.Prefix? || f.Last4? || f.Scopes? || f.Tier? || f.ExpiresAt? ||
      f.CreatedBy? || f.RevokedAt?
    case TheGrant(_) =>
      f.Id? || f.InWorkspace? || f.ResourceKind? || f.ResourceId? || f.SubjectKind? || f.SubjectId? || f.Role? ||
      f.Guest? || f.CreatedBy?
    case TheCollection(_) =>
      f.Id? || f.InWorkspace? || f.CreatedBy? || f.Parent? || f.Title? || f.Slug? || f.OrderKey? || f.DeletedAt?
    case TheDoc(_) =>
      f.Id? || f.InWorkspace? || f.AccessMode? || f.CreatedBy? || f.Title? || f.Slug? || f.Place? || f.OrderKey? ||
      f.DeletedAt? || f.PublishedSlug? || f.PublishedAt?
  }
}
