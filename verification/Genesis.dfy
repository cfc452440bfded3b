/** The signup bootstrap (packages/auth/src/create-auth.ts, `user.create.after`): one transaction that
    inserts the workspace, its owner and a personal space, each unless already there, and writes one
    audit row per row inserted. */
module Genesis {
  import opened Options
  import opened AuditReducer
  import Ids

  // ---------------------------------------------------------------- tables

  datatype WorkspaceRow = WorkspaceRow(
    id: string, slug: string, name: string, trash_retention_days: int, diagnostic_salt: seq<nat>, created_by: string,
    created_at: int, deleted_at: Option<int>, settings: string)

  datatype MemberRow = MemberRow(
    workspace_id: string, user_id: string, role: string, created_at: int, updated_at: int, deleted_at: Option<int>)

  datatype SpaceRow = SpaceRow(
    id: string, workspace_id: string, kind: string, type_: string, owner_user_id: Option<string>, name: string,
    slug: string,
    baseline_access: string, created_by: string, created_at: int, updated_at: int, deleted_at: Option<int>)

  /** Keyed by primary key. */
  datatype Tables = Tables(
    workspaces: map<string, WorkspaceRow>, members: map<(string, string), MemberRow>, spaces: map<string, SpaceRow>,
    audit: seq<AuditRow>)

  const NO_ROWS: Tables := Tables(map[], map[], map[], [])

  /** One call of the hook. `slug` is the composed slug, `space_id` the generated id, and `fails_at`
      a statement of the transaction at which the database throws, if any. */
  datatype Attempt = Attempt(
    user_id: string, workspace_id: Option<string>, email: string, slug: string, now: int, salt: seq<nat>,
    space_id: string,
    fails_at: Option<nat>)

  function LocalPart(email: string): string {
    if email == "" || email[0] == '@' then "" else [email[0]] + LocalPart(email[1..])
  }

  /** The hook throws before its transaction unless both ids parse. */
  predicate IdsParse(a: Attempt) {
    a.workspace_id.Some? && a.workspace_id.value != "" && Ids.ParsesV7(a.workspace_id.value) && Ids.IsUuid(a.user_id)
  }

  // ---------------------------------------------------------------- the rows

  function NewWorkspace(a: Attempt): WorkspaceRow
    requires a.workspace_id.Some?
  {
    WorkspaceRow(a.workspace_id.value, a.slug, LocalPart(a.email) + "'s workspace", 30, a.salt, a.user_id, a.now, None,
                 "{}")
  }

  function NewMember(a: Attempt): MemberRow
    requires a.workspace_id.Some?
  {
    MemberRow(a.workspace_id.value, a.user_id, "owner", a.now, a.now, None)
  }

  function NewSpace(a: Attempt): SpaceRow
    requires a.workspace_id.Some?
  {
    SpaceRow(a.space_id, a.workspace_id.value, "personal", "private", Some(a.user_id), "Personal", "personal", "view",
             a.user_id, a.now, a.now, None)
  }

  /** A row of the partial unique index on personal spaces. */
  predicate Personal(sp: SpaceRow, ws: string, user: string) {
    sp.workspace_id == ws && sp.owner_user_id == Some(user) && sp.kind == "personal" && sp.deleted_at.None?
  }

  predicate HasPersonal(spaces: map<string, SpaceRow>, ws: string, user: string) {
    exists id :: id in spaces && Personal(spaces[id], ws, user)
  }

  function WorkspaceAudit(w: WorkspaceRow): AuditRow {
    AuditRow(w.created_by, Allow(WorkspaceCreate(w.id, w.slug, w.name, w.trash_retention_days, "{}", w.created_by)))
  }

  function MemberAudit(m: MemberRow): AuditRow {
    AuditRow(m.user_id, Allow(MemberAdd(m.workspace_id, m.user_id, "owner")))
  }

  function SpaceAudit(sp: SpaceRow, user: string): AuditRow {
    AuditRow(user, Allow(SpaceCreate(sp.id, sp.workspace_id, "personal", "private", Some(user), "Personal", "personal",
                                     "view", user)))
  }

  // ---------------------------------------------------------------- the transaction, as a function

  function WithWorkspace(t: Tables, w: WorkspaceRow): Tables {
    if w.id in t.workspaces then t
       else t.(workspaces := t.workspaces[w.id := w], audit := t.audit + [WorkspaceAudit(w)])
  }

  function WithMember(t: Tables, m: MemberRow): Tables {
    var key := (m.workspace_id, m.user_id);
    if key in t.members then t else t.(members := t.members[key := m], audit := t.audit + [MemberAudit(m)])
  }

  function WithSpace(t: Tables, sp: SpaceRow, user: string): Tables {
    if HasPersonal(t.spaces, sp.workspace_id, user) then t
    else t.(spaces := t.spaces[sp.id := sp], audit := t.audit + [SpaceAudit(sp, user)])
  }

  function Bootstrapped(t: Tables, a: Attempt): Tables
    requires a.workspace_id.Some?
  {
    WithSpace(WithMember(WithWorkspace(t, NewWorkspace(a)), NewMember(a)), NewSpace(a), a.user_id)
  }

  /** The statements that run: the two audit writes of skipped inserts do not. */
  predicate Runs(t: Tables, a: Attempt, i: nat)
    requires a.workspace_id.Some?
  {
    var ws := a.workspace_id.value;
    (i <= 6) && (i == 2 ==> ws !in t.workspaces) && (i == 3 ==> (ws, a.user_id) !in t.members) &&
    (i == 5 ==> !HasPersonal(t.spaces, ws, a.user_id))
  }

  /** Ids that do not parse, a failing statement, or a space id already taken. */
  predicate Throws(t: Tables, a: Attempt) {
    !IdsParse(a) || (a.fails_at.Some? && Runs(t, a, a.fails_at.value)) ||
    (!HasPersonal(t.spaces, a.workspace_id.value, a.user_id) && a.space_id in t.spaces)
  }

  function After(t: Tables, a: Attempt): Tables { if Throws(t, a) then t else Bootstrapped(t, a) }

  // ---------------------------------------------------------------- the hook

  class Driver {
    var workspaces: map<string, WorkspaceRow>
    var members: map<(string, string), MemberRow>
    var spaces: map<string, SpaceRow>
    var audit: seq<AuditRow>

    constructor ()
      ensures Snapshot() == NO_ROWS
    {
      workspaces, members, spaces, audit := map[], map[], map[], [];
    }

    function Snapshot(): Tables
      reads this
    {
      Tables(workspaces, members, spaces, audit)
    }

    /** Rolling back discards the transaction's copy; committing writes it back. */
    method Commit(tx: Tables)
      modifies this
      ensures Snapshot() == tx
    {
      workspaces, members, spaces, audit := tx.workspaces, tx.members, tx.spaces, tx.audit;
    }

    method UserCreateAfter(a: Attempt) returns (threw: bool)
      modifies this
      ensures threw == Throws(old(Snapshot()), a)
      ensures Snapshot() == After(old(Snapshot()), a)
    {
      if a.workspace_id.None? || a.workspace_id.value == "" { return true; }
      var ws := a.workspace_id.value;
      if !Ids.ParsesV7(ws) || !Ids.IsUuid(a.user_id) { return true; }
      var tx := Snapshot();

      if a.fails_at == Some(0) { return true; }
      var wsRow := ws !in tx.workspaces;
      if wsRow { tx := tx.(workspaces := tx.workspaces[ws := NewWorkspace(a)]); }

      if a.fails_at == Some(1) { return true; }
      var memberRow := (ws, a.user_id) !in tx.members;
      if memberRow { tx := tx.(members := tx.members[(ws, a.user_id) := NewMember(a)]); }

      if wsRow {
        if a.fails_at == Some(2) { return true; }
        tx := tx.(audit := tx.audit + [WorkspaceAudit(NewWorkspace(a))]);
      }
      if memberRow {
        if a.fails_at == Some(3) { return true; }
        tx := tx.(audit := tx.audit + [MemberAudit(NewMember(a))]);
      }

      if a.fails_at == Some(4) { return true; }
      var spaceRow := !HasPersonal(tx.spaces, ws, a.user_id);
      if spaceRow {
        if a.space_id in tx.spaces { return true; }
        tx := tx.(spaces := tx.spaces[a.space_id := NewSpace(a)]);
        if a.fails_at == Some(5) { return true; }
        tx := tx.(audit := tx.audit + [SpaceAudit(NewSpace(a), a.user_id)]);
      }
      if a.fails_at == Some(6) { return true; }
      Commit(tx);
      return false;
    }

    /** Any number of signups and retries. */
    method Serve(attempts: seq<Attempt>)
      modifies this
      ensures Snapshot() == AfterAll(old(Snapshot()), attempts)
    {
      ghost var start := Snapshot();
      for i := 0 to |attempts|
        invariant Snapshot() == AfterAll(start, attempts[..i])
      {
        assert attempts[..i + 1][..i] == attempts[..i];
        var _ := UserCreateAfter(attempts[i]);
      }
      assert attempts[..|attempts|] == attempts;
    }
  }

  function AfterAll(t: Tables, attempts: seq<Attempt>): Tables {
    if attempts == [] then t else After(AfterAll(t, attempts[..|attempts| - 1]), attempts[|attempts| - 1])
  }

  // ---------------------------------------------------------------- the log reconstructs the tables

  function ProjectWorkspace(w: WorkspaceRow): Workspace {
    Workspace(w.id, w.slug, w.name, w.trash_retention_days, w.settings, w.created_by, w.deleted_at)
  }

  function ProjectMember(m: MemberRow): Member { Member(m.workspace_id, m.user_id, m.role, m.deleted_at) }

  function ProjectSpace(sp: SpaceRow): Space {
    Space(sp.id, sp.workspace_id, sp.kind, sp.type_, sp.owner_user_id, sp.name, sp.slug, sp.baseline_access,
          sp.created_by, sp.deleted_at)
  }

  /** The projected members are exactly the member rows, under their composite keys. */
  ghost predicate MembersProject(members: map<(string, string), MemberRow>, projected: map<string, Member>) {
    && (forall k :: k in members ==>
       MemberKey(k.0, k.1) in projected && projected[MemberKey(k.0, k.1)] == ProjectMember(members[k]))
    && (forall key :: key in projected ==> exists k :: k in members && MemberKey(k.0, k.1) == key)
  }

  /** The replayed projection is the projection of the tables, and there is one audit row per row. */
  ghost predicate Reconstructs(t: Tables, s: Projection) {
    && s.workspaces == (map id | id in t.workspaces :: ProjectWorkspace(t.workspaces[id]))
    && MembersProject(t.members, s.members)
    && s.spaces == (map id | id in t.spaces :: ProjectSpace(t.spaces[id]))
    && s == EMPTY_STATE.(workspaces := s.workspaces, members := s.members, spaces := s.spaces)
  }

  ghost predicate UuidKeys(members: map<(string, string), MemberRow>) {
    forall k :: k in members ==> Ids.IsUuid(k.0) && Ids.IsUuid(k.1)
  }

  ghost predicate GenesisInv(t: Tables) {
    && Reconstructs(t, Replay(t.audit)) && UuidKeys(t.members)
    && |t.audit| == |t.workspaces| + |t.members| + |t.spaces|
  }

  /** Composite keys of ids that parse are unambiguous: no such id holds a colon. */
  lemma MemberKeysApart(a: string, b: string, c: string, d: string)
    requires Ids.IsUuid(a) && Ids.IsUuid(c)
    ensures MemberKey(a, b) == MemberKey(c, d) ==> a == c && b == d
  {
    if MemberKey(a, b) == MemberKey(c, d) {
      var key := MemberKey(a, b);
      Ids.UuidChars(a, Ids.UUID_GROUPS);
      Ids.UuidChars(c, Ids.UUID_GROUPS);
      assert key[|a|] == ':' && key[|c|] == ':';
      assert forall i :: 0 <= i < |a| ==> key[i] == a[i];
      assert forall i :: 0 <= i < |c| ==> key[i] == c[i];
      assert a == key[..|a|] && c == key[..|c|];
      assert b == key[|a| + 2..] && d == key[|c| + 2..];
    }
  }

  lemma ReplayNext(log: seq<AuditRow>, row: AuditRow)
    ensures Replay(log + [row]) == ApplyRow(Replay(log), row)
  {
    assert (log + [row])[..|log|] == log;
  }

  lemma WorkspaceReplayed(s: Projection, w: WorkspaceRow)
    requires w.settings == "{}" && w.deleted_at.None?
    ensures ApplyRow(s, WorkspaceAudit(w)) == s.(workspaces := s.workspaces[w.id := ProjectWorkspace(w)])
  {
  }

  lemma WorkspaceStep(t: Tables, w: WorkspaceRow)
    requires GenesisInv(t) && w.settings == "{}" && w.deleted_at.None?
    ensures GenesisInv(WithWorkspace(t, w))
  {
    var s := Replay(t.audit);
    ReplayNext(t.audit, WorkspaceAudit(w));
    WorkspaceReplayed(s, w);
    if w.id !in t.workspaces { WorkspaceProjected(t, s, w); }
  }

  lemma WorkspaceProjected(t: Tables, s: Projection, w: WorkspaceRow)
    requires Reconstructs(t, s)
    ensures Reconstructs(t.(workspaces := t.workspaces[w.id := w], audit := t.audit + [WorkspaceAudit(w)]),
                         s.(workspaces := s.workspaces[w.id := ProjectWorkspace(w)]))
  {
  }

  lemma MemberReplayed(s: Projection, m: MemberRow)
    requires m.role == "owner" && m.deleted_at.None?
    ensures ApplyRow(s, MemberAudit(m))
            == s.(members := s.members[MemberKey(m.workspace_id, m.user_id) := ProjectMember(m)])
  {
  }

  lemma MemberStep(t: Tables, m: MemberRow)
    requires GenesisInv(t) && m.role == "owner" && m.deleted_at.None? && Ids.IsUuid(m.workspace_id) &&
             Ids.IsUuid(m.user_id)
    ensures GenesisInv(WithMember(t, m))
  {
    var key, s := (m.workspace_id, m.user_id), Replay(t.audit);
    ReplayNext(t.audit, MemberAudit(m));
    MemberReplayed(s, m);
    if key !in t.members {
      forall k | k in t.members ensures MemberKey(k.0, k.1) != MemberKey(key.0, key.1) {
        MemberKeysApart(k.0, k.1, key.0, key.1);
      }
      MembersGrow(t.members, s.members, key, m);
    }
  }

  lemma MembersGrow(members: map<(string, string), MemberRow>, projected: map<string, Member>, key: (string, string),
                    m: MemberRow)
    requires MembersProject(members, projected)
    requires forall k :: k in members ==> MemberKey(k.0, k.1) != MemberKey(key.0, key.1)
    ensures MembersProject(members[key := m], projected[MemberKey(key.0, key.1) := ProjectMember(m)])
  {
    var grown, after := members[key := m], projected[MemberKey(key.0, key.1) := ProjectMember(m)];
    forall s | s in after ensures exists k :: k in grown && MemberKey(k.0, k.1) == s {
      if s == MemberKey(key.0, key.1) {
        assert key in grown;
      } else {
        var k :| k in members && MemberKey(k.0, k.1) == s;
        assert k in grown;
      }
    }
  }

  lemma SpaceReplayed(s: Projection, a: Attempt)
    requires a.workspace_id.Some?
    ensures ApplyRow(s, SpaceAudit(NewSpace(a), a.user_id))
            == s.(spaces := s.spaces[a.space_id := ProjectSpace(NewSpace(a))])
  {
  }

  lemma SpaceProjected(t: Tables, s: Projection, sp: SpaceRow, user: string)
    requires Reconstructs(t, s)
    ensures Reconstructs(t.(spaces := t.spaces[sp.id := sp], audit := t.audit + [SpaceAudit(sp, user)]),
                         s.(spaces := s.spaces[sp.id := ProjectSpace(sp)]))
  {
  }

  lemma SpaceStep(t: Tables, a: Attempt)
    requires GenesisInv(t) && a.workspace_id.Some?
    requires HasPersonal(t.spaces, a.workspace_id.value, a.user_id) || a.space_id !in t.spaces
    ensures GenesisInv(WithSpace(t, NewSpace(a), a.user_id))
  {
    var s := Replay(t.audit);
    if !HasPersonal(t.spaces, a.workspace_id.value, a.user_id) {
      ReplayNext(t.audit, SpaceAudit(NewSpace(a), a.user_id));
      SpaceReplayed(s, a);
      SpaceProjected(t, s, NewSpace(a), a.user_id);
    }
  }

  lemma SpaceSlotFree(t: Tables, a: Attempt)
    requires !Throws(t, a)
    ensures var mid := WithMember(WithWorkspace(t, NewWorkspace(a)), NewMember(a));
            HasPersonal(mid.spaces, a.workspace_id.value, a.user_id) || a.space_id !in mid.spaces
  {
  }

  lemma AttemptKeepsInv(t: Tables, a: Attempt)
    requires GenesisInv(t)
    ensures GenesisInv(After(t, a))
  {
    if !Throws(t, a) {
      var t1 := WithWorkspace(t, NewWorkspace(a));
      WorkspaceStep(t, NewWorkspace(a));
      MemberStep(t1, NewMember(a));
      SpaceSlotFree(t, a);
      SpaceStep(WithMember(t1, NewMember(a)), a);
    }
  }

  /** After any run of signups and retries, failed ones included, replaying the log gives exactly
      the projected tables, with one audit row per row inserted. */
  lemma {:induction false} LogReconstructsGenesis(attempts: seq<Attempt>)
    ensures GenesisInv(AfterAll(NO_ROWS, attempts))
  {
    if attempts != [] {
      LogReconstructsGenesis(attempts[..|attempts| - 1]);
      AttemptKeepsInv(AfterAll(NO_ROWS, attempts[..|attempts| - 1]), attempts[|attempts| - 1]);
    }
  }

  /** A retry of a signup that went through, whatever space id it mints, adds no row and no audit entry. */
  lemma RetryAddsNothing(t: Tables, a: Attempt, retry: Attempt)
    requires !Throws(t, a) && retry.user_id == a.user_id && retry.workspace_id == a.workspace_id
    ensures After(After(t, a), retry) == After(t, a)
  {
    var done := After(t, a);
    var mid := WithMember(WithWorkspace(t, NewWorkspace(a)), NewMember(a));
    if !HasPersonal(mid.spaces, a.workspace_id.value, a.user_id) {
      assert Personal(done.spaces[a.space_id], a.workspace_id.value, a.user_id);
    }
    assert HasPersonal(done.spaces, a.workspace_id.value, a.user_id);
  }

  // ---------------------------------------------------------------- what a signup leaves

  /** What stands before the first `@`, or everything. */
  lemma {:induction false} LocalPartIs(email: string)
    ensures var local := LocalPart(email);
            '@' !in local && local <= email && (|local| < |email| ==> email[|local|] == '@')
  {
    if email != "" && email[0] != '@' { LocalPartIs(email[1..]); }
  }

  /** Nothing is lost or changed, and at most one row is added, under this key. */
  ghost predicate Adds<K, V>(before: map<K, V>, after: map<K, V>, key: K) {
    (forall k :: k in before ==> k in after && after[k] == before[k]) && after.Keys <= before.Keys + {key}
  }

  /** A signup that goes through leaves the user as an owner in the workspace and with a live personal
      space in it. A row that was there stays as it was; a new one says what the signup says. A clean one
      under a new space id does go through. */
  lemma SignupLeaves(t: Tables, a: Attempt)
    requires !Throws(t, a)
    ensures var ws, u := a.workspace_id.value, After(t, a);
            && Adds(t.workspaces, u.workspaces, ws) && Adds(t.members, u.members, (ws, a.user_id))
            && Adds(t.spaces, u.spaces, a.space_id) && t.audit <= u.audit
            && ws in u.workspaces && (ws, a.user_id) in u.members && HasPersonal(u.spaces, ws, a.user_id)
            && (ws !in t.workspaces ==>
                  u.workspaces[ws] == WorkspaceRow(ws, a.slug, LocalPart(a.email) + "'s workspace", 30, a.salt,
                                                   a.user_id, a.now, None, "{}"))
            && ((ws, a.user_id) !in t.members ==>
                  u.members[(ws, a.user_id)] == MemberRow(ws, a.user_id, "owner", a.now, a.now, None))
            && (a.space_id in u.spaces && a.space_id !in t.spaces ==>
                  Personal(u.spaces[a.space_id], ws, a.user_id) && u.spaces[a.space_id].type_ == "private" &&
                  u.spaces[a.space_id].baseline_access == "view")
            && (HasPersonal(t.spaces, ws, a.user_id) ==> u.spaces == t.spaces)
  {
    var ws, u := a.workspace_id.value, After(t, a);
    if HasPersonal(t.spaces, ws, a.user_id) {
      assert u.spaces == t.spaces;
    } else {
      assert Personal(u.spaces[a.space_id], ws, a.user_id);
    }
  }

  /** A signup throws exactly if an id does not parse, if a statement that it runs fails, or if its space
      id is taken while the user has no live personal space there. Each insert always runs, and so does
      what follows the last one; an audit write runs only behind an insert that adds a row. */
  lemma ThrowsIff(t: Tables, a: Attempt)
    ensures Throws(t, a)
       <==> a.workspace_id.None? || a.workspace_id.value == "" || !Ids.ParsesV7(a.workspace_id.value) ||
            !Ids.IsUuid(a.user_id) || a.fails_at in [Some(0), Some(1), Some(4), Some(6)] ||
            (a.fails_at == Some(2) && a.workspace_id.value !in t.workspaces) ||
            (a.fails_at == Some(3) && (a.workspace_id.value, a.user_id) !in t.members) ||
            (!HasPersonal(t.spaces, a.workspace_id.value, a.user_id) &&
               (a.fails_at == Some(5) || a.space_id in t.spaces))
  {
  }
}
