/** The dispatch pipeline (packages/dispatcher/src/dispatcher.ts): audit atomicity under every pattern
    of faults in the gate, the handler, the output parse, the audit projections and writes, and the
    commits. Spans and clocks are left out; the tracer does not throw. */
module Dispatcher {
  import opened Options

  datatype Outcome = AllowRow | DenyRow | ErrorRow

  datatype AuditEntry = AuditEntry(invocation: nat, outcome: Outcome)

  datatype Tagged = Tagged(invocation: nat, value: string)

  /** What the database and the residents hold once transactions are over. */
  datatype Store = Store(audit: seq<AuditEntry>, data: seq<Tagged>, published: seq<Tagged>)

  // ---------------------------------------------------------------- an invocation and its faults

  /** A `PermissionDeniedError`, or anything else. */
  datatype Thrown = Denial | Other

  /** What a handler does with its context. Each act may throw, and the handler may catch that. */
  datatype Act =
    | DbWrite(value: string, fails: Option<Thrown>, caught: bool)
    | Transact(delta: string, fails: Option<Thrown>, caught: bool)

  /** How a handler ends once its acts are done. */
  datatype Finish = Returned(valid: bool) | Threw(e: Thrown)

  datatype Gate = Pass | Refuse | GateThrows

  /** Where an audit transaction breaks, if it does. */
  datatype Fault = Fine | ProjectionThrows(e: Thrown) | WriteThrows(e: Thrown) | CommitFails(e: Thrown)

  /** `opens` and `closes`: what the runner throws before its body, and (reads) behind it. `allow` is
      the fault of the allow row's transaction, `fallback` that of the other audit transaction. */
  datatype Invocation = Invocation(
    id: nat, tenantAgrees: bool, known: bool, inputParses: bool, gate: Gate, read: bool,
    opens: Option<Thrown>, acts: seq<Act>, finish: Finish, closes: Option<Thrown>, allow: Fault, fallback: Fault)

  datatype Response = Output | Refused | ValidationError | PermissionDenied | HandlerError | AuditFailure

  // ---------------------------------------------------------------- the handler

  /** `passed`: the calls that reached the sync service; `staged`: those that succeeded. */
  datatype Handling = Handling(called: bool, writes: seq<string>, passed: seq<string>, staged: seq<string>,
                               threw: Option<Thrown>)

  const START := Handling(false, [], [], [], None)

  /** The second `transact` of an invocation throws. */
  function ErrorOf(act: Act, called: bool): Option<Thrown> {
    if act.Transact? && called then Some(Other) else act.fails
  }

  function PerformAct(h: Handling, act: Act): Handling {
    var error := ErrorOf(act, h.called);
    var threw := if act.caught then None else error;
    match act
    case DbWrite(value, _, _) => h.(writes := h.writes + (if error.Some? then [] else [value]), threw := threw)
    case Transact(delta, _, _) =>
      Handling(true, h.writes, h.passed + (if h.called then [] else [delta]),
               h.staged + (if error.Some? then [] else [delta]), threw)
  }

  function RunActs(acts: seq<Act>, h: Handling): Handling
    decreases |acts|
  {
    if acts == [] || h.threw.Some? then h else RunActs(acts[1..], PerformAct(h, acts[0]))
  }

  /** At most one `transact` is passed through, whatever the handler attempts or catches, and only what
      was passed through is staged. */
  lemma {:induction false} AtMostOneTransact(acts: seq<Act>, h: Handling)
    requires |h.passed| <= 1 && (h.staged == [] || h.staged == h.passed) && (!h.called ==> h.passed == [])
    ensures var r := RunActs(acts, h); |r.passed| <= 1 && (r.staged == [] || r.staged == r.passed)
    decreases |acts|
  {
    if acts != [] && h.threw.None? { AtMostOneTransact(acts[1..], PerformAct(h, acts[0])); }
  }

  function Ran(v: Invocation): Handling { RunActs(v.acts, START) }

  // ---------------------------------------------------------------- the pipeline, as a function

  function FaultError(fault: Fault): Option<Thrown> { if fault.Fine? then None else Some(fault.e) }

  /** The first error of the try block, if any: the runner, the handler, the output parse, the read
      runner's end, the allow row. */
  function TryError(v: Invocation): Option<Thrown> {
    if v.opens.Some? then v.opens
    else if Ran(v).threw.Some? then Ran(v).threw
    else if v.finish.Threw? then Some(v.finish.e)
    else if !v.finish.valid then Some(Other)
    else if v.read && v.closes.Some? then v.closes
    else FaultError(v.allow)
  }

  function RowFor(e: Thrown): Outcome { if e.Denial? then DenyRow else ErrorRow }

  function WithAuditTx(s: Store, entry: AuditEntry, fault: Fault): Store {
    if fault.Fine? then s.(audit := s.audit + [entry]) else s
  }

  function Tag(id: nat, values: seq<string>): seq<Tagged> {
    if values == [] then [] else [Tagged(id, values[0])] + Tag(id, values[1..])
  }

  function After(s: Store, v: Invocation): Store {
    if !v.tenantAgrees || !v.known then s
    else if !v.inputParses then WithAuditTx(s, AuditEntry(v.id, ErrorRow), v.fallback)
    else if v.gate.GateThrows? then s
    else if v.gate.Refuse? then WithAuditTx(s, AuditEntry(v.id, DenyRow), v.fallback)
    else if TryError(v).None? then
      Store(s.audit + [AuditEntry(v.id, AllowRow)],
            if v.read then s.data else s.data + Tag(v.id, Ran(v).writes),
            if v.read then s.published else s.published + Tag(v.id, Ran(v).staged))
    else WithAuditTx(s, AuditEntry(v.id, RowFor(TryError(v).value)), v.fallback)
  }

  /** Past the tenant check and the registry, and not lost to a throwing gate. */
  predicate Reached(v: Invocation) { v.tenantAgrees && v.known && (!v.inputParses || !v.gate.GateThrows?) }

  /** The allow row's transaction commits, where there is one. */
  predicate Allowed(v: Invocation) {
    v.tenantAgrees && v.known && v.inputParses && v.gate.Pass? && TryError(v).None?
  }

  /** The caller lacks a permission: the gate says so, or the first error of the try block does. */
  predicate IsDenied(v: Invocation) {
    v.inputParses && (v.gate.Refuse? || (v.gate.Pass? && TryError(v) == Some(Denial)))
  }

  /** The rows one invocation adds: its own outcome, at most once. */
  function RowOf(v: Invocation): seq<Outcome> {
    if !Reached(v) || !(Allowed(v) || v.fallback.Fine?) then []
    else if Allowed(v) then [AllowRow]
    else if IsDenied(v) then [DenyRow]
    else [ErrorRow]
  }

  /** What the caller is told, given what persists. */
  predicate AnswersFor(v: Invocation, r: Response) {
    && (r.Output? <==> RowOf(v) == [AllowRow])
    && (r.PermissionDenied? <==> RowOf(v) == [DenyRow])
    && (r.ValidationError? <==> RowOf(v) == [ErrorRow] && !v.inputParses)
    && (r.HandlerError? <==> RowOf(v) == [ErrorRow] && v.inputParses)
    && (r.AuditFailure? <==> Reached(v) && RowOf(v) == [])
  }

  // ---------------------------------------------------------------- the dispatcher

  /** The flag `transactOnce` closes over, and the calls it lets through. */
  class TransactOnce {
    var transactCalled: bool
    var passed: seq<string>
    var staged: seq<string>

    constructor ()
      ensures !transactCalled && passed == [] && staged == []
    {
      transactCalled, passed, staged := false, [], [];
    }

    method Transact(delta: string, fails: Option<Thrown>) returns (error: Option<Thrown>)
      modifies this
      ensures transactCalled && error == if old(transactCalled) then Some(Other) else fails
      ensures passed == old(passed) + (if old(transactCalled) then [] else [delta])
      ensures staged == old(staged) + (if old(transactCalled) || fails.Some? then [] else [delta])
    {
      if transactCalled { return Some(Other); }
      transactCalled := true;
      passed := passed + [delta];
      if fails.Some? { return fails; }
      staged := staged + [delta];
      return None;
    }
  }

  class System {
    var audit: seq<AuditEntry>
    var data: seq<Tagged>
    var published: seq<Tagged>

    constructor ()
      ensures Snapshot() == Store([], [], [])
    {
      audit, data, published := [], [], [];
    }

    function Snapshot(): Store
      reads this
    {
      Store(audit, data, published)
    }

    method InvokeHandler(acts: seq<Act>, once: TransactOnce) returns (writes: seq<string>, threw: Option<Thrown>)
      requires !once.transactCalled && once.passed == [] && once.staged == []
      modifies once
      ensures Handling(once.transactCalled, writes, once.passed, once.staged, threw) == RunActs(acts, START)
    {
      writes, threw := [], None;
      for i := 0 to |acts|
        invariant threw.None?
        invariant RunActs(acts[i..], Handling(once.transactCalled, writes, once.passed, once.staged, threw))
                  == RunActs(acts, START)
      {
        assert acts[i..][0] == acts[i] && acts[i..][1..] == acts[i + 1..];
        ghost var next := PerformAct(Handling(once.transactCalled, writes, once.passed, once.staged, threw), acts[i]);
        var error: Option<Thrown>;
        match acts[i] {
          case DbWrite(value, fails, _) =>
            error := fails;
            if fails.None? { writes := writes + [value]; }
          case Transact(delta, fails, _) =>
            error := once.Transact(delta, fails);
        }
        if error.Some? && !acts[i].caught { threw := error; }
        assert Handling(once.transactCalled, writes, once.passed, once.staged, threw) == next;
        if threw.Some? { return; }
      }
    }

    /** A short transaction for one audit row. */
    method RunAuditTx(entry: AuditEntry, fault: Fault) returns (error: Option<Thrown>)
      modifies this
      ensures Snapshot() == WithAuditTx(old(Snapshot()), entry, fault) && error == FaultError(fault)
    {
      if fault.ProjectionThrows? || fault.WriteThrows? { return Some(fault.e); }
      var tx := audit + [entry];
      if fault.CommitFails? { return Some(fault.e); }
      audit := tx;
      return None;
    }

    /** The body of either runner. */
    method InvokeAndParse(v: Invocation) returns (error: Option<Thrown>, writes: seq<string>, staged: seq<string>)
      ensures error == if Ran(v).threw.Some? then Ran(v).threw
                       else if v.finish.Threw? then Some(v.finish.e) else if v.finish.valid then None else Some(Other)
      ensures writes == Ran(v).writes && staged == Ran(v).staged
    {
      var once := new TransactOnce();
      writes, error := InvokeHandler(v.acts, once);
      staged := once.staged;
      if error.Some? { return; }
      match v.finish {
        case Returned(valid) => if !valid { error := Some(Other); }
        case Threw(e) => error := Some(e);
      }
    }

    /** The try block: no error once the allow row is in. A write transaction commits the handler's
        writes and the allow row together, then publishes what was staged. */
    method TryToAllow(v: Invocation) returns (error: Option<Thrown>)
      modifies this
      ensures error == TryError(v)
      ensures error.Some? ==> Snapshot() == old(Snapshot())
      ensures error.None? ==>
        var s := old(Snapshot());
        Snapshot() == Store(s.audit + [AuditEntry(v.id, AllowRow)],
                            if v.read then s.data else s.data + Tag(v.id, Ran(v).writes),
                            if v.read then s.published else s.published + Tag(v.id, Ran(v).staged))
    {
      if v.opens.Some? { return v.opens; }
      var writes, staged;
      error, writes, staged := InvokeAndParse(v);
      if error.Some? { return; }
      if v.read {
        if v.closes.Some? { return v.closes; }
        error := RunAuditTx(AuditEntry(v.id, AllowRow), v.allow);
        return;
      }
      if v.allow.ProjectionThrows? || v.allow.WriteThrows? { return Some(v.allow.e); }
      var txData, txAudit := data + Tag(v.id, writes), audit + [AuditEntry(v.id, AllowRow)];
      if v.allow.CommitFails? { return Some(v.allow.e); }
      data, audit := txData, txAudit;
      published := published + Tag(v.id, staged);
    }

    /** The caller's answer agrees with the row that persists. */
    method Dispatch(v: Invocation) returns (r: Response)
      modifies this
      ensures Snapshot() == After(old(Snapshot()), v)
      ensures AnswersFor(v, r)
    {
      if !v.tenantAgrees || !v.known { return Refused; }
      if !v.inputParses {
        var failed := RunAuditTx(AuditEntry(v.id, ErrorRow), v.fallback);
        return if failed.Some? then AuditFailure else ValidationError;
      }
      if v.gate.GateThrows? { return Refused; }
      if v.gate.Refuse? {
        var failed := RunAuditTx(AuditEntry(v.id, DenyRow), v.fallback);
        return if failed.Some? then AuditFailure else PermissionDenied;
      }
      var error := TryToAllow(v);
      if error.None? { return Output; }
      var failed := RunAuditTx(AuditEntry(v.id, RowFor(error.value)), v.fallback);
      r := if failed.Some? then AuditFailure else if error == Some(Denial) then PermissionDenied else HandlerError;
    }
  }

  // ---------------------------------------------------------------- audit atomicity

  /** Exactly one row when the invocation is reached and its last audit transaction commits,
      otherwise none; the handler's writes and its staged update persist exactly with an allow row. */
  lemma OneRowOrNone(s: Store, v: Invocation)
    ensures |After(s, v).audit| == |s.audit| + (if Reached(v) && (Allowed(v) || v.fallback.Fine?) then 1 else 0)
    ensures s.audit <= After(s, v).audit
    ensures Allowed(v) <==> After(s, v).audit == s.audit + [AuditEntry(v.id, AllowRow)]
    ensures After(s, v).data == s.data + (if Allowed(v) && !v.read then Tag(v.id, Ran(v).writes) else [])
    ensures After(s, v).published == s.published + (if Allowed(v) && !v.read then Tag(v.id, Ran(v).staged) else [])
  {
    assert s.data + [] == s.data && s.published + [] == s.published;
    var out := After(s, v);
    if out.audit == s.audit + [AuditEntry(v.id, AllowRow)] {
      assert out.audit[|s.audit|] == AuditEntry(v.id, AllowRow);
    }
  }
}
