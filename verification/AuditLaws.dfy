/** Laws of replay that hold over every log. */
module AuditLaws {
  import opened Options
  import opened AuditReducer

  // ---------------------------------------------------------------- what replay ignores

  /** Denied and failed rows, and the classes `content`, `audit-only` and `deferred`. */
  predicate Ignored(row: AuditRow) {
    !row.record.Allow? || row.record.effect.Content? || row.record.effect.AuditOnly? || row.record.effect.Deferred?
  }

  function StateRows(rows: seq<AuditRow>): seq<AuditRow> {
    if rows == [] then []
    else StateRows(rows[..|rows| - 1]) + (if Ignored(rows[|rows| - 1]) then [] else [rows[|rows| - 1]])
  }

  lemma IgnoredRow(s: Projection, row: AuditRow)
    requires Ignored(row)
    ensures ApplyRow(s, row) == s
  {
  }

  /** The log without its ignored rows replays to the same state. */
  lemma {:induction false} OnlyStateRowsMatter(rows: seq<AuditRow>)
    ensures Replay(StateRows(rows)) == Replay(rows)
  {
    if rows != [] {
      var front, last := rows[..|rows| - 1], rows[|rows| - 1];
      OnlyStateRowsMatter(front);
      if Ignored(last) {
        IgnoredRow(Replay(front), last);
        assert StateRows(front) + [] == StateRows(front);
      } else {
        assert (StateRows(front) + [last])[..|StateRows(front)|] == StateRows(front);
      }
    }
  }

  // ---------------------------------------------------------------- revocation is terminal

  predicate MintsToken(row: AuditRow, id: string) {
    row.record.Allow? && row.record.effect.AgentTokenMint? && row.record.effect.token_id == id
  }

  predicate TokenRevoked(s: Projection, id: string) { id in s.agent_tokens && s.agent_tokens[id].revoked_at.Some? }

  ghost predicate TokenKeys(s: Projection) { forall id :: id in s.agent_tokens ==> s.agent_tokens[id].id == id }

  lemma TokensUntouched(s: Projection, e: Effect)
    requires !e.AgentTokenMint? && !e.AgentTokenRevoke?
    ensures ApplyStateEffect(s, e).agent_tokens == s.agent_tokens
  {
  }

  lemma RevokedToken(s: Projection, e: Effect)
    requires e.AgentTokenRevoke? && TokenKeys(s)
    ensures ApplyStateEffect(s, e).agent_tokens
         == if e.token_id in s.agent_tokens
           then s.agent_tokens[e.token_id := s.agent_tokens[e.token_id].(revoked_at := Some(e.revoked_at))]
            else s.agent_tokens
  {
  }

  lemma TokenStaysRevoked(s: Projection, row: AuditRow, id: string)
    requires TokenRevoked(s, id) && TokenKeys(s) && !MintsToken(row, id)
    ensures TokenRevoked(ApplyRow(s, row), id)
  {
    if row.record.Allow? { TokenEffect(s, row.record.effect, id); }
  }

  lemma TokenEffect(s: Projection, e: Effect, id: string)
    requires TokenRevoked(s, id) && TokenKeys(s) && !(e.AgentTokenMint? && e.token_id == id)
    ensures TokenRevoked(ApplyStateEffect(s, e), id)
  {
    if e.AgentTokenRevoke? { RevokedToken(s, e); }
    else if !e.AgentTokenMint? { TokensUntouched(s, e); }
  }

  lemma EffectKeepsTokenKeys(s: Projection, e: Effect)
    requires TokenKeys(s)
    ensures TokenKeys(ApplyStateEffect(s, e))
  {
    if e.AgentTokenRevoke? { RevokedToken(s, e); }
    else if !e.AgentTokenMint? { TokensUntouched(s, e); }
  }

  lemma RowKeepsTokenKeys(s: Projection, row: AuditRow)
    requires TokenKeys(s)
    ensures TokenKeys(ApplyRow(s, row))
  {
    if row.record.Allow? { EffectKeepsTokenKeys(s, row.record.effect); }
  }

  lemma {:induction false} ReplayKeepsTokenKeys(rows: seq<AuditRow>)
    ensures TokenKeys(Replay(rows))
  {
    if rows != [] {
      ReplayKeepsTokenKeys(rows[..|rows| - 1]);
      RowKeepsTokenKeys(Replay(rows[..|rows| - 1]), rows[|rows| - 1]);
    }
  }

  /** A token revoked at one point of a log is revoked ever after, unless its id is minted anew. */
  lemma {:induction false} TokenRevocationIsTerminal(rows: seq<AuditRow>, more: seq<AuditRow>, id: string)
    requires TokenRevoked(Replay(rows), id) && NeverMints(more, id)
    ensures TokenRevoked(Replay(rows + more), id)
  {
    if more == [] {
      assert rows + more == rows;
    } else {
      var front, last := more[..|more| - 1], more[|more| - 1];
      TokenRevocationIsTerminal(rows, front, id);
      ReplayKeepsTokenKeys(rows + front);
      TokenStaysRevoked(Replay(rows + front), last, id);
      ReplayLast(rows, more);
    }
  }

  lemma ReplayLast(rows: seq<AuditRow>, more: seq<AuditRow>)
    requires more != []
    ensures Replay(rows + more) == ApplyRow(Replay(rows + more[..|more| - 1]), more[|more| - 1])
  {
    assert (rows + more)[..|rows + more| - 1] == rows + more[..|more| - 1];
  }

  predicate NeverMints(rows: seq<AuditRow>, id: string) { forall i :: 0 <= i < |rows| ==> !MintsToken(rows[i], id) }
}
