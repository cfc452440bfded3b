/** Replay, entity by entity and field by field: an entity is in the replayed state exactly if some
    row created it and no later row removed it, and each of its fields is what the last row that says
    anything about it says (packages/audit/src/reducer.ts). */
module AuditReplay {
  import opened Options
  import opened AuditReducer
  import opened AuditFacts

  // ---------------------------------------------------------------- one effect, table by table

  // Every key is the one its entity has by itself. The steps below hide what they need not look into.

  ghost predicate WorkspaceKeys(m: map<string, Workspace>) { forall k :: k in m ==> m[k].id == k }

  ghost predicate MemberKeys(m: map<string, Member>) {
    forall k :: k in m ==> MemberKey(m[k].workspace_id, m[k].user_id) == k
  }

  ghost predicate SpaceKeys(m: map<string, Space>) { forall k :: k in m ==> m[k].id == k }

  ghost predicate SpaceMemberKeys(m: map<string, SpaceMember>) {
    forall k :: k in m ==> SpaceMemberKey(m[k].space_id, m[k].user_id) == k
  }

  ghost predicate AgentKeys(m: map<string, Agent>) { forall k :: k in m ==> m[k].id == k }

  ghost predicate TokenKeys(m: map<string, AgentToken>) { forall k :: k in m ==> m[k].id == k }

  ghost predicate CollectionKeys(m: map<string, Collection>) { forall k :: k in m ==> m[k].id == k }

  ghost predicate DocKeys(m: map<string, Doc>) { forall k :: k in m ==> m[k].id == k }

  /** The field as said, or as it was where an entity that was there is not spoken of. */
  function Later(said: Option<Value>, creates: bool, before: Option<Value>): Option<Value> {
    if said.Some? || creates then said else before
  }

  /** What an effect leaves of an entity of one table: it is there if it is created now, or was there
      and is not removed; a field is as said, or as it was. */
  ghost predicate TableStepped<V>(m: map<string, V>, m': map<string, V>, creates: bool, removes: bool,
                                  said: Option<Value>, fact: V -> Option<Value>, id: string)
  {
    && (id in m' <==> creates || (id in m && !removes))
    && (id in m' ==> fact(m'[id]) == Later(said, creates, if id in m then fact(m[id]) else None))
  }

  lemma PutSteps<V>(m: map<string, V>, m': map<string, V>, key: string, creates: bool, said: Option<Value>,
                    fact: V -> Option<Value>, id: string)
    requires key in m' && m' == m[key := m'[key]] && (creates || key in m)
    requires if id == key then fact(m'[key]) == Later(said, creates, if key in m then fact(m[key]) else None)
             else said.None?
    ensures TableStepped(m, m', creates && key == id, false, said, fact, id)
  {
  }

  lemma Untouched<V>(m: map<string, V>, said: Option<Value>, fact: V -> Option<Value>, id: string)
    requires id in m ==> said.None?
    ensures TableStepped(m, m, false, false, said, fact, id)
  {
  }

  lemma WorkspaceCreated(e: Effect, f: Field)
    requires e.WorkspaceCreate?
    ensures CreatedWorkspace(e).id == e.workspace_id
    ensures WorkspaceFact(CreatedWorkspace(e), f) == WorkspaceSays(e, f)
    ensures HasField(TheWorkspace(e.workspace_id), f) ==> WorkspaceSays(e, f).Some?
  {
  }

  lemma WorkspacePatched(w: Workspace, e: Effect, f: Field)
    requires OnWorkspaces(e) && !e.WorkspaceCreate?
    ensures PatchedWorkspace(w, e).id == w.id
    ensures WorkspaceFact(PatchedWorkspace(w, e), f) == Later(WorkspaceSays(e, f), false, WorkspaceFact(w, f))
  {
    match e
    case WorkspaceUpdate(_, _, _, _) =>
    case WorkspaceSoftDelete(_, _) =>
    case WorkspaceRestore(_) =>
  }

  lemma WorkspaceStep(m: map<string, Workspace>, m': map<string, Workspace>, e: Effect, id: string, f: Field)
    requires WorkspaceKeys(m) && m' == ApplyToWorkspaces(m, e)
    ensures WorkspaceKeys(m')
    ensures TableStepped(m, m', e.WorkspaceCreate? && e.workspace_id == id,
                         false, SaidOfWorkspace(e, id, f), WorkspaceFacts(f), id)
  {
    hide WorkspaceSays, WorkspaceFact, CreatedWorkspace, PatchedWorkspace;
    if !OnWorkspaces(e) {
      Untouched(m, SaidOfWorkspace(e, id, f), WorkspaceFacts(f), id);
    } else if e.WorkspaceCreate? {
      WorkspaceCreated(e, f);
      PutSteps(m, m', e.workspace_id, true, SaidOfWorkspace(e, id, f), WorkspaceFacts(f), id);
    } else if e.workspace_id in m {
      WorkspacePatched(m[e.workspace_id], e, f);
      PutSteps(m, m', e.workspace_id, false, SaidOfWorkspace(e, id, f), WorkspaceFacts(f), id);
    } else {
      Untouched(m, SaidOfWorkspace(e, id, f), WorkspaceFacts(f), id);
    }
  }


  lemma MemberCreated(e: Effect, f: Field)
    requires e.MemberAdd?
    ensures MemberKey(CreatedMember(e).workspace_id, CreatedMember(e).user_id) == MemberKey(e.workspace_id, e.user_id)
    ensures MemberFact(CreatedMember(e), f) == MemberSays(e, f)
    ensures HasField(TheMember(MemberKey(e.workspace_id, e.user_id)), f) ==> MemberSays(e, f).Some?
  {
  }

  lemma MemberPatched(m: Member, e: Effect, f: Field)
    requires OnMembers(e) && !e.MemberAdd?
    ensures MemberKey(PatchedMember(m, e).workspace_id, PatchedMember(m, e).user_id)
            == MemberKey(m.workspace_id, m.user_id)
    ensures MemberFact(PatchedMember(m, e), f) == Later(MemberSays(e, f), false, MemberFact(m, f))
  {
    match e
    case MemberRemove(_, _, _) =>
    case MemberUpdateRole(_, _, _) =>
  }

  lemma MemberStep(m: map<string, Member>, m': map<string, Member>, e: Effect, id: string, f: Field)
    requires MemberKeys(m) && m' == ApplyToMembers(m, e)
    ensures MemberKeys(m')
    ensures TableStepped(m, m', e.MemberAdd? && MemberKey(e.workspace_id, e.user_id) == id,
                         false, SaidOfMember(e, id, f), MemberFacts(f), id)
  {
    hide MemberSays, MemberFact, CreatedMember, PatchedMember;
    if !OnMembers(e) {
      Untouched(m, SaidOfMember(e, id, f), MemberFacts(f), id);
    } else if e.MemberAdd? {
      MemberCreated(e, f);
      PutSteps(m, m', MemberKey(e.workspace_id, e.user_id), true, SaidOfMember(e, id, f), MemberFacts(f), id);
    } else if MemberKey(e.workspace_id, e.user_id) in m {
      MemberPatched(m[MemberKey(e.workspace_id, e.user_id)], e, f);
      PutSteps(m, m', MemberKey(e.workspace_id, e.user_id), false, SaidOfMember(e, id, f), MemberFacts(f), id);
    } else {
      Untouched(m, SaidOfMember(e, id, f), MemberFacts(f), id);
    }
  }


  lemma SpaceCreated(e: Effect, f: Field)
    requires e.SpaceCreate?
    ensures CreatedSpace(e).id == e.space_id
    ensures SpaceFact(CreatedSpace(e), f) == SpaceSays(e, f)
    ensures HasField(TheSpace(e.space_id), f) ==> SpaceSays(e, f).Some?
  {
  }

  lemma SpacePatched(sp: Space, e: Effect, f: Field)
    requires OnSpaces(e) && !e.SpaceCreate?
    ensures PatchedSpace(sp, e).id == sp.id
    ensures SpaceFact(PatchedSpace(sp, e), f) == Later(SpaceSays(e, f), false, SpaceFact(sp, f))
  {
    match e
    case SpaceUpdate(_, _, _, _, _) =>
    case SpaceArchive(_, _) =>
    case SpaceRestore(_) =>
  }

  lemma SpaceStep(m: map<string, Space>, m': map<string, Space>, e: Effect, id: string, f: Field)
    requires SpaceKeys(m) && m' == ApplyToSpaces(m, e)
    ensures SpaceKeys(m')
    ensures TableStepped(m, m', e.SpaceCreate? && e.space_id == id,
                         false, SaidOfSpace(e, id, f), SpaceFacts(f), id)
  {
    hide SpaceSays, SpaceFact, CreatedSpace, PatchedSpace;
    if !OnSpaces(e) {
      Untouched(m, SaidOfSpace(e, id, f), SpaceFacts(f), id);
    } else if e.SpaceCreate? {
      SpaceCreated(e, f);
      PutSteps(m, m', e.space_id, true, SaidOfSpace(e, id, f), SpaceFacts(f), id);
    } else if e.space_id in m {
      SpacePatched(m[e.space_id], e, f);
      PutSteps(m, m', e.space_id, false, SaidOfSpace(e, id, f), SpaceFacts(f), id);
    } else {
      Untouched(m, SaidOfSpace(e, id, f), SpaceFacts(f), id);
    }
  }


  lemma SpaceMemberCreated(e: Effect, f: Field)
    requires e.SpaceMemberAdd?
    ensures SpaceMemberKey(CreatedSpaceMember(e).space_id, CreatedSpaceMember(e).user_id)
            == SpaceMemberKey(e.space_id, e.user_id)
    ensures SpaceMemberFact(CreatedSpaceMember(e), f) == SpaceMemberSays(e, f)
    ensures HasField(TheSpaceMember(SpaceMemberKey(e.space_id, e.user_id)), f) ==> SpaceMemberSays(e, f).Some?
  {
  }

  lemma SpaceMemberPatched(m: SpaceMember, e: Effect, f: Field)
    requires e.SpaceMemberUpdateRole?
    ensures SpaceMemberKey(PatchedSpaceMember(m, e).space_id, PatchedSpaceMember(m, e).user_id)
            == SpaceMemberKey(m.space_id, m.user_id)
    ensures SpaceMemberFact(PatchedSpaceMember(m, e), f) == Later(SpaceMemberSays(e, f), false, SpaceMemberFact(m, f))
  {
  }

  lemma SpaceMemberStep(m: map<string, SpaceMember>, m': map<string, SpaceMember>, e: Effect, id: string, f: Field)
    requires SpaceMemberKeys(m) && m' == ApplyToSpaceMembers(m, e)
    ensures SpaceMemberKeys(m')
    ensures TableStepped(m, m', e.SpaceMemberAdd? && SpaceMemberKey(e.space_id, e.user_id) == id,
                         e.SpaceMemberRemove? && SpaceMemberKey(e.space_id, e.user_id) == id,
                         SaidOfSpaceMember(e, id, f), SpaceMemberFacts(f), id)
  {
    hide SpaceMemberSays, SpaceMemberFact, CreatedSpaceMember, PatchedSpaceMember;
    if !OnSpaceMembers(e) {
      Untouched(m, SaidOfSpaceMember(e, id, f), SpaceMemberFacts(f), id);
    } else if e.SpaceMemberAdd? {
      SpaceMemberCreated(e, f);
      PutSteps(m, m', SpaceMemberKey(e.space_id, e.user_id), true, SaidOfSpaceMember(e, id, f), SpaceMemberFacts(f),
               id);
    } else if e.SpaceMemberRemove? {
    } else if SpaceMemberKey(e.space_id, e.user_id) in m {
      SpaceMemberPatched(m[SpaceMemberKey(e.space_id, e.user_id)], e, f);
      PutSteps(m, m', SpaceMemberKey(e.space_id, e.user_id), false, SaidOfSpaceMember(e, id, f), SpaceMemberFacts(f),
               id);
    } else {
      Untouched(m, SaidOfSpaceMember(e, id, f), SpaceMemberFacts(f), id);
    }
  }


  lemma AgentCreated(e: Effect, f: Field)
    requires e.AgentCreate?
    ensures CreatedAgent(e).id == e.agent_id
    ensures AgentFact(CreatedAgent(e), f) == AgentSays(e, f)
    ensures HasField(TheAgent(e.agent_id), f) ==> AgentSays(e, f).Some?
  {
  }

  lemma AgentPatched(a: Agent, e: Effect, f: Field)
    requires OnAgents(e) && !e.AgentCreate?
    ensures PatchedAgent(a, e).id == a.id
    ensures AgentFact(PatchedAgent(a, e), f) == Later(AgentSays(e, f), false, AgentFact(a, f))
  {
    match e
    case AgentUpdate(_, _) =>
    case AgentRevoke(_, _) =>
  }

  lemma AgentStep(m: map<string, Agent>, m': map<string, Agent>, e: Effect, id: string, f: Field)
    requires AgentKeys(m) && m' == ApplyToAgents(m, e)
    ensures AgentKeys(m')
    ensures TableStepped(m, m', e.AgentCreate? && e.agent_id == id,
                         false, SaidOfAgent(e, id, f), AgentFacts(f), id)
  {
    hide AgentSays, AgentFact, CreatedAgent, PatchedAgent;
    if !OnAgents(e) {
      Untouched(m, SaidOfAgent(e, id, f), AgentFacts(f), id);
    } else if e.AgentCreate? {
      AgentCreated(e, f);
      PutSteps(m, m', e.agent_id, true, SaidOfAgent(e, id, f), AgentFacts(f), id);
    } else if e.agent_id in m {
      AgentPatched(m[e.agent_id], e, f);
      PutSteps(m, m', e.agent_id, false, SaidOfAgent(e, id, f), AgentFacts(f), id);
    } else {
      Untouched(m, SaidOfAgent(e, id, f), AgentFacts(f), id);
    }
  }


  lemma TokenCreated(e: Effect, f: Field)
    requires e.AgentTokenMint?
    ensures CreatedToken(e).id == e.token_id
    ensures TokenFact(CreatedToken(e), f) == TokenSays(e, f)
    ensures HasField(TheToken(e.token_id), f) ==> TokenSays(e, f).Some?
  {
  }

  lemma TokenPatched(k: AgentToken, e: Effect, f: Field)
    requires e.AgentTokenRevoke?
    ensures PatchedToken(k, e).id == k.id
    ensures TokenFact(PatchedToken(k, e), f) == Later(TokenSays(e, f), false, TokenFact(k, f))
  {
  }

  lemma TokenStep(m: map<string, AgentToken>, m': map<string, AgentToken>, e: Effect, id: string, f: Field)
    requires TokenKeys(m) && m' == ApplyToTokens(m, e)
    ensures TokenKeys(m')
    ensures TableStepped(m, m', e.AgentTokenMint? && e.token_id == id,
                         false, SaidOfToken(e, id, f), TokenFacts(f), id)
  {
    hide TokenSays, TokenFact, CreatedToken, PatchedToken;
    if !OnTokens(e) {
      Untouched(m, SaidOfToken(e, id, f), TokenFacts(f), id);
    } else if e.AgentTokenMint? {
      TokenCreated(e, f);
      PutSteps(m, m', e.token_id, true, SaidOfToken(e, id, f), TokenFacts(f), id);
    } else if e.token_id in m {
      TokenPatched(m[e.token_id], e, f);
      PutSteps(m, m', e.token_id, false, SaidOfToken(e, id, f), TokenFacts(f), id);
    } else {
      Untouched(m, SaidOfToken(e, id, f), TokenFacts(f), id);
    }
  }


  lemma DocCreated(e: Effect, f: Field)
    requires e.DocCreate?
    ensures CreatedDoc(e).id == e.doc_id
    ensures DocFact(CreatedDoc(e), f) == DocSays(e, f)
    ensures HasField(TheDoc(e.doc_id), f) ==> DocSays(e, f).Some?
  {
  }

  lemma DocPatched(d: Doc, e: Effect, f: Field)
    requires OnDocs(e) && !e.DocCreate?
    ensures PatchedDoc(d, e).id == d.id
    ensures DocFact(PatchedDoc(d, e), f) == Later(DocSays(e, f), false, DocFact(d, f))
  {
    match e
    case DocRename(_, _, _) =>
    case DocMove(_, _, _, _) =>
    case DocPublish(_, _, _) =>
    case DocUnpublish(_) =>
    case DocSoftDelete(_, _) =>
    case DocRestore(_) =>
  }

  lemma DocStep(m: map<string, Doc>, m': map<string, Doc>, e: Effect, id: string, f: Field)
    requires DocKeys(m) && m' == ApplyToDocs(m, e)
    ensures DocKeys(m')
    ensures TableStepped(m, m', e.DocCreate? && e.doc_id == id,
                         false, SaidOfDoc(e, id, f), DocFacts(f), id)
  {
    hide DocSays, DocFact, CreatedDoc, PatchedDoc;
    if !OnDocs(e) {
      Untouched(m, SaidOfDoc(e, id, f), DocFacts(f), id);
    } else if e.DocCreate? {
      DocCreated(e, f);
      PutSteps(m, m', e.doc_id, true, SaidOfDoc(e, id, f), DocFacts(f), id);
    } else if e.doc_id in m {
      DocPatched(m[e.doc_id], e, f);
      PutSteps(m, m', e.doc_id, false, SaidOfDoc(e, id, f), DocFacts(f), id);
    } else {
      Untouched(m, SaidOfDoc(e, id, f), DocFacts(f), id);
    }
  }


  lemma CollectionCreated(e: Effect, f: Field)
    requires e.CollectionCreate?
    ensures CreatedCollection(e).id == e.collection_id
    ensures CollectionFact(CreatedCollection(e), f) == CollectionSays(e, f)
    ensures HasField(TheCollection(e.collection_id), f) ==> CollectionSays(e, f).Some?
  {
  }

  lemma CollectionPatched(c: Collection, e: Effect, f: Field)
    requires OnCollections(e) && !e.CollectionCreate?
    ensures PatchedCollection(c, e).id == c.id
    ensures CollectionFact(PatchedCollection(c, e), f) == Later(CollectionSays(e, f), false, CollectionFact(c, f))
  {
    match e
    case CollectionUpdate(_, _, _, _) =>
    case CollectionMove(_, _, _, _, _) =>
    case CollectionSoftDelete(_, _) =>
    case CollectionRestore(_) =>
  }

  lemma CollectionRebound(c: Collection, space: Option<string>, f: Field)
    ensures CollectionFact(c.(space_id := space), f) == CollectionFact(c, f)
  {
  }

  lemma CollectionPatches(m: map<string, Collection>, m': map<string, Collection>, e: Effect, id: string, f: Field)
    requires CollectionKeys(m) && m' == ApplyToCollections(m, e)
    ensures CollectionKeys(m')
    ensures TableStepped(m, m', e.CollectionCreate? && e.collection_id == id,
                         false, SaidOfCollection(e, id, f), CollectionFacts(f), id)
  {
    hide CollectionSays, CollectionFact, CreatedCollection, PatchedCollection;
    if !OnCollections(e) {
      Untouched(m, SaidOfCollection(e, id, f), CollectionFacts(f), id);
    } else if e.CollectionCreate? {
      CollectionCreated(e, f);
      PutSteps(m, m', e.collection_id, true, SaidOfCollection(e, id, f), CollectionFacts(f), id);
    } else if e.collection_id in m {
      CollectionPatched(m[e.collection_id], e, f);
      PutSteps(m, m', e.collection_id, false, SaidOfCollection(e, id, f), CollectionFacts(f), id);
    } else {
      Untouched(m, SaidOfCollection(e, id, f), CollectionFacts(f), id);
    }
  }

  /** Rebinding a subtree changes spaces only. */
  lemma CollectionStep(m: map<string, Collection>, m': map<string, Collection>, e: Effect, id: string, f: Field)
    requires CollectionKeys(m) && m' == CollectionsAfter(m, e)
    ensures CollectionKeys(m')
    ensures TableStepped(m, m', e.CollectionCreate? && e.collection_id == id, false, SaidOfCollection(e, id, f),
                         CollectionFacts(f), id)
  {
    hide CollectionSays, CollectionFact, ApplyToCollections;
    var next := ApplyToCollections(m, e);
    CollectionPatches(m, next, e, id, f);
    if e.CollectionMove? && id in next {
      CollectionRebound(next[id], e.new_space_id, f);
    }
  }


  lemma {:induction false} GrantsRemoved(m: map<string, Grant>, ids: seq<string>, id: string)
    ensures id in RemoveGrants(m, ids) <==> id in m && id !in ids
    ensures id in RemoveGrants(m, ids) ==> RemoveGrants(m, ids)[id] == m[id]
    decreases ids
  {
    if ids != [] { GrantsRemoved(m - {ids[0]}, ids[1..], id); }
  }

  lemma GrantCreated(e: Effect, f: Field)
    requires e.AclGrant?
    ensures HasField(TheGrant(e.grant_id), f) ==> GrantSays(e, f).Some?
  {
  }

  lemma GrantAdded(m: map<string, Grant>, e: Effect, f: Field)
    requires e.AclGrant?
    ensures GrantFact(ApplyToGrants(m, e)[e.grant_id], f) == GrantSays(e, f)
  {
  }

  lemma GrantStep(m: map<string, Grant>, m': map<string, Grant>, e: Effect, id: string, f: Field)
    requires m' == ApplyToGrants(m, e)
    ensures TableStepped(m, m', e.AclGrant? && e.grant_id == id, DropsGrant(e, id), SaidOfGrant(e, id, f),
                         GrantFacts(f), id)
  {
    hide GrantSays, GrantFact;
    if !OnGrants(e) {
      Untouched(m, SaidOfGrant(e, id, f), GrantFacts(f), id);
    } else if e.AclGrant? {
      GrantAdded(m, e, f);
      PutSteps(m, m', e.grant_id, true, SaidOfGrant(e, id, f), GrantFacts(f), id);
    } else {
      GrantsRemoved(m, if e.AclRevoke? then [e.grant_id] else e.dropped_grants, id);
    }
  }

  // ---------------------------------------------------------------- one effect on the state

  ghost predicate Paired(s: Projection) {
    WorkspaceKeys(s.workspaces) && MemberKeys(s.members) && SpaceKeys(s.spaces) && SpaceMemberKeys(s.space_members) &&
    AgentKeys(s.agents) && TokenKeys(s.agent_tokens) && CollectionKeys(s.collections) && DocKeys(s.docs)
  }

  /** `s'` is `s` with the effect applied to every table. */
  ghost predicate Applied(s: Projection, s': Projection, e: Effect) {
    && s'.workspaces == ApplyToWorkspaces(s.workspaces, e) && s'.members == ApplyToMembers(s.members, e)
    && s'.collections == CollectionsAfter(s.collections, e) && s'.docs == ApplyToDocs(s.docs, e)
    && s'.spaces == ApplyToSpaces(s.spaces, e) && s'.space_members == ApplyToSpaceMembers(s.space_members, e)
    && s'.grants == ApplyToGrants(s.grants, e) && s'.agents == ApplyToAgents(s.agents, e)
    && s'.agent_tokens == ApplyToTokens(s.agent_tokens, e)
  }

  lemma EffectApplies(s: Projection, e: Effect)
    ensures Applied(s, ApplyStateEffect(s, e), e)
  {
  }

  /** The effect creates the entity, removes it, overrides what it speaks of, or leaves it alone. */
  ghost predicate Stepped(s: Projection, s': Projection, e: Effect, x: Subject, f: Field) {
    match x
    case TheWorkspace(id) =>
      TableStepped(s.workspaces, s'.workspaces, Creates(e, x), Removes(e, x), Said(e, x, f), WorkspaceFacts(f), id)
    case TheMember(id) =>
      TableStepped(s.members, s'.members, Creates(e, x), Removes(e, x), Said(e, x, f), MemberFacts(f), id)
    case TheSpace(id) =>
      TableStepped(s.spaces, s'.spaces, Creates(e, x), Removes(e, x), Said(e, x, f), SpaceFacts(f), id)
    case TheSpaceMember(id) =>
      TableStepped(s.space_members, s'.space_members, Creates(e, x), Removes(e, x), Said(e, x, f), SpaceMemberFacts(f),
                   id)
    case TheAgent(id) =>
      TableStepped(s.agents, s'.agents, Creates(e, x), Removes(e, x), Said(e, x, f), AgentFacts(f), id)
    case TheToken(id) =>
      TableStepped(s.agent_tokens, s'.agent_tokens, Creates(e, x), Removes(e, x), Said(e, x, f), TokenFacts(f), id)
    case TheDoc(id) =>
      TableStepped(s.docs, s'.docs, Creates(e, x), Removes(e, x), Said(e, x, f), DocFacts(f), id)
    case TheCollection(id) =>
      TableStepped(s.collections, s'.collections, Creates(e, x), Removes(e, x), Said(e, x, f), CollectionFacts(f), id)
    case TheGrant(id) =>
      TableStepped(s.grants, s'.grants, Creates(e, x), Removes(e, x), Said(e, x, f), GrantFacts(f), id)
  }

  lemma SteppedMeans(s: Projection, s': Projection, e: Effect, x: Subject, f: Field)
    requires Stepped(s, s', e, x, f)
    ensures Has(s', x) <==> Creates(e, x) || (Has(s, x) && !Removes(e, x))
    ensures Has(s', x) ==>
              Fact(s', x, f) == Later(Said(e, x, f), Creates(e, x), if Has(s, x) then Fact(s, x, f) else None)
  {
    hide Creates, Removes, Said, Later, WorkspaceFact, MemberFact, SpaceFact, SpaceMemberFact, AgentFact, TokenFact,
         GrantFact, CollectionFact, DocFact;
  }

  lemma EffectKeepsPairs(s: Projection, s': Projection, e: Effect)
    requires Paired(s) && Applied(s, s', e)
    ensures Paired(s')
  {
    WorkspaceStep(s.workspaces, s'.workspaces, e, "", Id);
    MemberStep(s.members, s'.members, e, "", Id);
    SpaceStep(s.spaces, s'.spaces, e, "", Id);
    SpaceMemberStep(s.space_members, s'.space_members, e, "", Id);
    AgentStep(s.agents, s'.agents, e, "", Id);
    TokenStep(s.agent_tokens, s'.agent_tokens, e, "", Id);
    DocStep(s.docs, s'.docs, e, "", Id);
    CollectionStep(s.collections, s'.collections, e, "", Id);
  }

  lemma HomeStep(s: Projection, s': Projection, e: Effect, x: Subject, f: Field)
    requires Paired(s) && Applied(s, s', e)
    requires x.TheWorkspace? || x.TheMember? || x.TheSpace? || x.TheSpaceMember?
    ensures Stepped(s, s', e, x, f)
  {
    hide TableStepped, MemberKey, SpaceMemberKey, DropsGrant;
    hide ApplyToWorkspaces, ApplyToMembers, ApplyToSpaces, ApplyToSpaceMembers, ApplyToAgents, ApplyToTokens,
         ApplyToGrants, ApplyToDocs, CollectionsAfter;
    hide SaidOfWorkspace, SaidOfMember, SaidOfSpace, SaidOfSpaceMember, SaidOfAgent, SaidOfToken, SaidOfGrant,
         SaidOfCollection, SaidOfDoc;
    hide WorkspaceFacts, MemberFacts, SpaceFacts, SpaceMemberFacts, AgentFacts, TokenFacts, GrantFacts, CollectionFacts,
         DocFacts;
    hide WorkspaceKeys, MemberKeys, SpaceKeys, SpaceMemberKeys, AgentKeys, TokenKeys, CollectionKeys, DocKeys;
    match x
    case TheWorkspace(id) => WorkspaceStep(s.workspaces, s'.workspaces, e, id, f);
    case TheMember(id) => MemberStep(s.members, s'.members, e, id, f);
    case TheSpace(id) => SpaceStep(s.spaces, s'.spaces, e, id, f);
    case TheSpaceMember(id) => SpaceMemberStep(s.space_members, s'.space_members, e, id, f);
  }

  lemma ContentStep(s: Projection, s': Projection, e: Effect, x: Subject, f: Field)
    requires Paired(s) && Applied(s, s', e)
    requires x.TheAgent? || x.TheToken? || x.TheGrant? || x.TheCollection? || x.TheDoc?
    ensures Stepped(s, s', e, x, f)
  {
    hide TableStepped, MemberKey, SpaceMemberKey, DropsGrant;
    hide ApplyToWorkspaces, ApplyToMembers, ApplyToSpaces, ApplyToSpaceMembers, ApplyToAgents, ApplyToTokens,
         ApplyToGrants, ApplyToDocs, CollectionsAfter;
    hide SaidOfWorkspace, SaidOfMember, SaidOfSpace, SaidOfSpaceMember, SaidOfAgent, SaidOfToken, SaidOfGrant,
         SaidOfCollection, SaidOfDoc;
    hide WorkspaceFacts, MemberFacts, SpaceFacts, SpaceMemberFacts, AgentFacts, TokenFacts, GrantFacts, CollectionFacts,
         DocFacts;
    hide WorkspaceKeys, MemberKeys, SpaceKeys, SpaceMemberKeys, AgentKeys, TokenKeys, CollectionKeys, DocKeys;
    match x
    case TheAgent(id) => AgentStep(s.agents, s'.agents, e, id, f);
    case TheToken(id) => TokenStep(s.agent_tokens, s'.agent_tokens, e, id, f);
    case TheDoc(id) => DocStep(s.docs, s'.docs, e, id, f);
    case TheCollection(id) => CollectionStep(s.collections, s'.collections, e, id, f);
    case TheGrant(id) => GrantStep(s.grants, s'.grants, e, id, f);
  }

  lemma EffectStep(s: Projection, s': Projection, e: Effect, x: Subject, f: Field)
    requires Paired(s) && Applied(s, s', e)
    ensures Stepped(s, s', e, x, f)
  {
    hide Paired, Applied, Stepped;
    if x.TheWorkspace? || x.TheMember? || x.TheSpace? || x.TheSpaceMember? {
      HomeStep(s, s', e, x, f);
    } else {
      ContentStep(s, s', e, x, f);
    }
  }

  // ---------------------------------------------------------------- whole logs

  predicate MadeBy(row: AuditRow, x: Subject) { row.record.Allow? && Creates(row.record.effect, x) }

  predicate RemovedBy(row: AuditRow, x: Subject) { row.record.Allow? && Removes(row.record.effect, x) }

  function SaidIn(row: AuditRow, x: Subject, f: Field): Option<Value> {
    if row.record.Allow? then Said(row.record.effect, x, f) else None
  }

  lemma RowStep(s: Projection, row: AuditRow, x: Subject, f: Field)
    requires Paired(s)
    ensures var s' := ApplyRow(s, row);
            && Paired(s') && (Has(s', x) <==> MadeBy(row, x) || (Has(s, x) && !RemovedBy(row, x)))
            && (Has(s', x) ==>
                  Fact(s', x, f)
                    == Later(SaidIn(row, x, f), MadeBy(row, x), if Has(s, x) then Fact(s, x, f) else None))
  {
    if row.record.Allow? {
      hide Creates, Removes, Said, Has, Fact, Stepped, Applied, Paired, ApplyStateEffect;
      var e := row.record.effect;
      var s' := ApplyStateEffect(s, e);
      EffectApplies(s, e);
      EffectKeepsPairs(s, s', e);
      EffectStep(s, s', e, x, f);
      SteppedMeans(s, s', e, x, f);
    }
  }

  /** Row `i` created the entity, and no later row removed it. */
  predicate LivesFrom(rows: seq<AuditRow>, x: Subject, i: int) {
    0 <= i < |rows| && MadeBy(rows[i], x) && forall j :: i < j < |rows| ==> !RemovedBy(rows[j], x)
  }

  lemma LivesStep(rows: seq<AuditRow>, x: Subject)
    requires rows != []
    ensures var front, last := rows[..|rows| - 1], rows[|rows| - 1];
            (exists i :: LivesFrom(rows, x, i))
              <==> MadeBy(last, x) || ((exists i :: LivesFrom(front, x, i)) && !RemovedBy(last, x))
  {
    var front, last := rows[..|rows| - 1], rows[|rows| - 1];
    if MadeBy(last, x) {
      assert LivesFrom(rows, x, |rows| - 1);
    } else if i :| LivesFrom(rows, x, i) {
      assert LivesFrom(front, x, i);
    } else if i :| LivesFrom(front, x, i) && !RemovedBy(last, x) {
      assert LivesFrom(rows, x, i);
    }
  }

  /** What the last row that says anything about the field says. */
  function LastSaid(rows: seq<AuditRow>, x: Subject, f: Field): Option<Value> {
    if rows == [] then None
    else
      var said := SaidIn(rows[|rows| - 1], x, f);
      if said.Some? then said else LastSaid(rows[..|rows| - 1], x, f)
  }

  lemma {:induction false} ReplayIsPaired(rows: seq<AuditRow>)
    ensures Paired(Replay(rows))
  {
    if rows != [] {
      ReplayIsPaired(rows[..|rows| - 1]);
      RowStep(Replay(rows[..|rows| - 1]), rows[|rows| - 1], TheDoc(""), Id);
    }
  }

  /** A creation speaks of all of them. */
  lemma CreationSaysAll(e: Effect, x: Subject, f: Field)
    requires Creates(e, x) && HasField(x, f)
    ensures Said(e, x, f).Some?
  {
    hide WorkspaceSays, MemberSays, SpaceSays, SpaceMemberSays, AgentSays, TokenSays, GrantSays,
         CollectionSays, DocSays, HasField, MemberKey, SpaceMemberKey;
    match x
    case TheWorkspace(_) => WorkspaceCreated(e, f);
    case TheMember(_) => MemberCreated(e, f);
    case TheSpace(_) => SpaceCreated(e, f);
    case TheSpaceMember(_) => SpaceMemberCreated(e, f);
    case TheAgent(_) => AgentCreated(e, f);
    case TheToken(_) => TokenCreated(e, f);
    case TheGrant(_) => GrantCreated(e, f);
    case TheCollection(_) => CollectionCreated(e, f);
    case TheDoc(_) => DocCreated(e, f);
  }

  lemma RowSaysAll(row: AuditRow, x: Subject, f: Field)
    requires MadeBy(row, x) && HasField(x, f)
    ensures SaidIn(row, x, f).Some?
  {
    CreationSaysAll(row.record.effect, x, f);
  }

  lemma NothingYet(x: Subject)
    ensures !Has(EMPTY_STATE, x) && !exists i :: LivesFrom([], x, i)
  {
  }

  /** An entity is in the replayed state exactly if some row created it and no later row removed it. */
  lemma {:induction false} PresentIff(rows: seq<AuditRow>, x: Subject)
    ensures Has(Replay(rows), x) <==> exists i :: LivesFrom(rows, x, i)
  {
    hide Has, Fact, SaidIn, MadeBy, RemovedBy, ApplyRow, Paired, LivesFrom;
    if rows == [] {
      NothingYet(x);
    } else {
      var front := rows[..|rows| - 1];
      PresentIff(front, x);
      ReplayIsPaired(front);
      RowStep(Replay(front), rows[|rows| - 1], x, Id);
      LivesStep(rows, x);
    }
  }

  /** Each field of each entity of the replayed state is what the last row that speaks of it says. */
  lemma {:induction false} LastWriterWins(rows: seq<AuditRow>, x: Subject, f: Field)
    requires Has(Replay(rows), x) && HasField(x, f)
    ensures Fact(Replay(rows), x, f) == LastSaid(rows, x, f)
  {
    hide Has, Fact, SaidIn, MadeBy, RemovedBy, ApplyRow, Paired, HasField;
    if rows == [] {
      NothingYet(x);
    } else {
      var front, last := rows[..|rows| - 1], rows[|rows| - 1];
      ReplayIsPaired(front);
      RowStep(Replay(front), last, x, f);
      if MadeBy(last, x) { RowSaysAll(last, x, f); } else { LastWriterWins(front, x, f); }
    }
  }

  /** Row `i` says `v`, and no later row says anything. */
  predicate SaysLast(rows: seq<AuditRow>, x: Subject, f: Field, i: int, v: Value) {
    0 <= i < |rows| && SaidIn(rows[i], x, f) == Some(v) && forall j :: i < j < |rows| ==> SaidIn(rows[j], x, f).None?
  }

  lemma SaysLastFront(rows: seq<AuditRow>, x: Subject, f: Field, i: int, v: Value)
    requires rows != [] && SaidIn(rows[|rows| - 1], x, f).None?
    ensures SaysLast(rows, x, f, i, v) <==> SaysLast(rows[..|rows| - 1], x, f, i, v)
  {
    hide SaidIn;
  }

  lemma SaysLastEnd(rows: seq<AuditRow>, x: Subject, f: Field, v: Value)
    requires rows != [] && SaidIn(rows[|rows| - 1], x, f).Some?
    ensures SaidIn(rows[|rows| - 1], x, f) == Some(v) <==> exists i :: SaysLast(rows, x, f, i, v)
  {
    hide SaidIn;
    if SaidIn(rows[|rows| - 1], x, f) == Some(v) { assert SaysLast(rows, x, f, |rows| - 1, v); }
  }

  lemma {:induction false} LastSaidIs(rows: seq<AuditRow>, x: Subject, f: Field, v: Value)
    ensures LastSaid(rows, x, f) == Some(v) <==> exists i :: SaysLast(rows, x, f, i, v)
  {
    hide SaidIn, SaysLast;
    if rows == [] {
      NothingSaid(x, f, v);
    } else {
      var front := rows[..|rows| - 1];
      LastSaidIs(front, x, f, v);
      if SaidIn(rows[|rows| - 1], x, f).Some? {
        SaysLastEnd(rows, x, f, v);
      } else {
        if i :| SaysLast(rows, x, f, i, v) { SaysLastFront(rows, x, f, i, v); }
        if i :| SaysLast(front, x, f, i, v) { SaysLastFront(rows, x, f, i, v); }
      }
    }
  }

  lemma NothingSaid(x: Subject, f: Field, v: Value)
    ensures !exists i :: SaysLast([], x, f, i, v)
  {
  }
}
