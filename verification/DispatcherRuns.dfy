/** Many dispatches at once (packages/dispatcher/src/dispatcher.ts): their steps interleave freely, one
    SQL transaction writes at a time, and what was staged is published only behind the commit. In every
    reachable state each invocation has left what audit atomicity allows. */
module DispatcherRuns {
  import opened Options
  import opened Dispatcher

  /** Where a dispatch stands. A mutation's body runs inside its write transaction. */
  datatype Stage =
    | Arrived
    | Running(next: nat, h: Handling)
    | Auditing(h: Handling)
    | Publishing(staged: seq<string>)
    | Failing(row: Outcome)
    | InFallback(row: Outcome)
    | Done(r: Response)

  datatype Task = Task(v: Invocation, stage: Stage)

  /** `writer`: the dispatch whose transaction is open. */
  datatype Sys = Sys(store: Store, tasks: map<nat, Task>, writer: Option<nat>)

  predicate InTx(t: Task) { t.stage.Auditing? || t.stage.InFallback? || (t.stage.Running? && !t.v.read) }

  // ---------------------------------------------------------------- steps

  function Started(v: Invocation): Stage {
    if !v.tenantAgrees || !v.known then Done(Refused)
    else if !v.inputParses then Failing(ErrorRow)
    else if v.gate.GateThrows? then Done(Refused)
    else if v.gate.Refuse? then Failing(DenyRow)
    else if v.opens.Some? then Failing(RowFor(v.opens.value))
    else Running(0, START)
  }

  /** The handler's next act, or what follows its last one. */
  function Continued(v: Invocation, next: nat, h: Handling): Stage {
    if h.threw.Some? then Failing(RowFor(h.threw.value))
    else if next < |v.acts| then Running(next + 1, PerformAct(h, v.acts[next]))
    else if v.finish.Threw? then Failing(RowFor(v.finish.e))
    else if !v.finish.valid then Failing(ErrorRow)
    else if v.read && v.closes.Some? then Failing(RowFor(v.closes.value))
    else Auditing(h)
  }

  function Audited(v: Invocation, h: Handling): Stage {
    if FaultError(v.allow).Some? then Failing(RowFor(FaultError(v.allow).value))
    else if v.read then Done(Output) else Publishing(h.staged)
  }

  function Told(v: Invocation, row: Outcome): Response {
    if !v.fallback.Fine? then AuditFailure
    else if !v.inputParses then ValidationError
    else if row.DenyRow? then PermissionDenied else HandlerError
  }

  function Next(t: Task): Stage {
    match t.stage
    case Arrived => Started(t.v)
    case Running(next, h) => Continued(t.v, next, h)
    case Auditing(h) => Audited(t.v, h)
    case Publishing(_) => Done(Output)
    case Failing(row) => InFallback(row)
    case InFallback(row) => Done(Told(t.v, row))
    case Done(r) => Done(r)
  }

  /** What the step writes: rows and writes at a commit, updates at publication. */
  function Written(s: Store, t: Task): Store {
    match t.stage
    case Auditing(h) =>
      if !t.v.allow.Fine? then s
      else Store(s.audit + [AuditEntry(t.v.id, AllowRow)], s.data + (if t.v.read then [] else Tag(t.v.id, h.writes)),
                 s.published)
    case InFallback(row) => WithAuditTx(s, AuditEntry(t.v.id, row), t.v.fallback)
    case Publishing(staged) => s.(published := s.published + Tag(t.v.id, staged))
    case _ => s
  }

  /** A step that opens a transaction waits until no other is open. */
  predicate Enabled(s: Sys, id: nat) {
    && id in s.tasks && !s.tasks[id].stage.Done?
    && (!InTx(s.tasks[id]) && InTx(s.tasks[id].(stage := Next(s.tasks[id]))) ==> s.writer.None?)
  }

  function Step(s: Sys, id: nat): Sys {
    if !Enabled(s, id) then s
    else
      var t := s.tasks[id];
      var moved := t.(stage := Next(t));
      Sys(Written(s.store, t), s.tasks[id := moved],
          if InTx(moved) then Some(id) else if InTx(t) then None else s.writer)
  }

  /** Any list of ids is a schedule; a dispatch that cannot move is passed over. */
  function Run(s: Sys, schedule: seq<nat>): (r: Sys)
    ensures r.tasks.Keys == s.tasks.Keys
    decreases |schedule|
  {
    if schedule == [] then s else Step(Run(s, schedule[..|schedule| - 1]), schedule[|schedule| - 1])
  }

  function Launch(vs: map<nat, Invocation>): Sys {
    Sys(Store([], [], []), map id | id in vs :: Task(vs[id], Arrived), None)
  }

  // ---------------------------------------------------------------- what one invocation left

  function RowsOf(audit: seq<AuditEntry>, id: nat): seq<Outcome> {
    if audit == [] then []
    else
      RowsOf(audit[..|audit| - 1], id) +
      (if audit[|audit| - 1].invocation == id then [audit[|audit| - 1].outcome] else [])
  }

  function ValuesOf(data: seq<Tagged>, id: nat): seq<string> {
    if data == [] then [] else (if data[0].invocation == id then [data[0].value] else []) + ValuesOf(data[1..], id)
  }

  /** The rows, writes and updates of one invocation in a store. */
  datatype Trace = Trace(rows: seq<Outcome>, writes: seq<string>, updates: seq<string>)

  function TraceOf(s: Store, id: nat): Trace {
    Trace(RowsOf(s.audit, id), ValuesOf(s.data, id), ValuesOf(s.published, id))
  }

  lemma {:induction false} ValuesConcat(a: seq<Tagged>, b: seq<Tagged>, id: nat)
    ensures ValuesOf(a + b, id) == ValuesOf(a, id) + ValuesOf(b, id)
  {
    if a == [] {
      assert a + b == b;
    } else {
      assert (a + b)[0] == a[0] && (a + b)[1..] == a[1..] + b;
      ValuesConcat(a[1..], b, id);
    }
  }

  lemma {:induction false} ValuesOfTag(values: seq<string>, tag: nat, id: nat)
    ensures ValuesOf(Tag(tag, values), id) == if tag == id then values else []
  {
    if values != [] {
      ValuesOfTag(values[1..], tag, id);
      assert [values[0]] + values[1..] == values;
    }
  }

  lemma RowsOfNext(audit: seq<AuditEntry>, entry: AuditEntry, id: nat)
    ensures RowsOf(audit + [entry], id) == RowsOf(audit, id) + (if entry.invocation == id then [entry.outcome] else [])
  {
    assert (audit + [entry])[..|audit|] == audit;
  }

  /** What a step adds to the traces: its own invocation's part, and nothing to any other. */
  lemma WrittenTrace(s: Store, t: Task, id: nat)
    ensures var was, now := TraceOf(s, id), TraceOf(Written(s, t), id);
            if t.v.id != id then now == was
            else match t.stage
                 case Auditing(h) =>
                   now == if !t.v.allow.Fine? then was
                          else Trace(was.rows + [AllowRow], was.writes + (if t.v.read then [] else h.writes),
                                     was.updates)
                 case InFallback(row) => now == if t.v.fallback.Fine? then was.(rows := was.rows + [row]) else was
                 case Publishing(staged) => now == was.(updates := was.updates + staged)
                 case _ => now == was
  {
    match t.stage
    case Auditing(h) =>
      RowsOfNext(s.audit, AuditEntry(t.v.id, AllowRow), id);
      ValuesConcat(s.data, if t.v.read then [] else Tag(t.v.id, h.writes), id);
      ValuesOfTag(h.writes, t.v.id, id);
      assert RowsOf(s.audit, id) + [] == RowsOf(s.audit, id) && ValuesOf(s.data, id) + [] == ValuesOf(s.data, id);
    case InFallback(row) =>
      RowsOfNext(s.audit, AuditEntry(t.v.id, row), id);
      assert RowsOf(s.audit, id) + [] == RowsOf(s.audit, id);
    case Publishing(staged) =>
      ValuesConcat(s.published, Tag(t.v.id, staged), id);
      ValuesOfTag(staged, t.v.id, id);
      assert ValuesOf(s.published, id) + [] == ValuesOf(s.published, id);
    case _ =>
  }

  // ---------------------------------------------------------------- the invariant

  const NOTHING := Trace([], [], [])

  /** Nothing yet, the allow row with all writes, those with the update, or one other row. */
  function Expected(t: Task): Trace {
    match t.stage
    case Publishing(_) => Trace([AllowRow], Ran(t.v).writes, [])
    case Done(_) => Final(t.v)
    case _ => NOTHING
  }

  function Final(v: Invocation): Trace {
    if Allowed(v) && !v.read then Trace([AllowRow], Ran(v).writes, Ran(v).staged) else Trace(RowOf(v), [], [])
  }

  /** The stage fits what the invocation is going to do. */
  predicate Fits(t: Task) {
    var v := t.v;
    var entered := v.tenantAgrees && v.known && v.inputParses && v.gate.Pass? && v.opens.None?;
    match t.stage
    case Arrived => true
    case Running(next, h) => entered && next <= |v.acts| && RunActs(v.acts[next..], h) == Ran(v)
    case Auditing(h) => entered && h == Ran(v) && TryError(v) == FaultError(v.allow)
    case Publishing(staged) => !v.read && Allowed(v) && staged == Ran(v).staged
    case Failing(row) => Reached(v) && !Allowed(v) && row == (if IsDenied(v) then DenyRow else ErrorRow)
    case InFallback(row) => Reached(v) && !Allowed(v) && row == (if IsDenied(v) then DenyRow else ErrorRow)
    case Done(r) => AnswersFor(v, r)
  }

  predicate TaskInv(s: Sys, id: nat)
    requires id in s.tasks
  {
    s.tasks[id].v.id == id && Fits(s.tasks[id]) && TraceOf(s.store, id) == Expected(s.tasks[id])
  }

  ghost predicate Inv(s: Sys) {
    && (forall id :: id in s.tasks ==> TaskInv(s, id) && (InTx(s.tasks[id]) ==> s.writer == Some(id)))
    && (s.writer.Some? ==> s.writer.value in s.tasks && InTx(s.tasks[s.writer.value]))
  }

  lemma StepFits(t: Task)
    requires Fits(t) && !t.stage.Done?
    ensures Fits(t.(stage := Next(t)))
  {
    match t.stage
    case Running(next, h) =>
      if next < |t.v.acts| && h.threw.None? {
        assert t.v.acts[next..][0] == t.v.acts[next] && t.v.acts[next..][1..] == t.v.acts[next + 1..];
      } else {
        assert RunActs(t.v.acts[next..], h) == h;
      }
    case Arrived => assert t.v.acts[0..] == t.v.acts;
    case _ =>
  }

  lemma StepTraces(s: Sys, id: nat)
    requires Inv(s) && Enabled(s, id)
    ensures TraceOf(Written(s.store, s.tasks[id]), id) == Expected(s.tasks[id].(stage := Next(s.tasks[id])))
  {
    hide TraceOf, Written, RunActs, Told, AnswersFor;
    var t := s.tasks[id];
    assert TaskInv(s, id);
    WrittenTrace(s.store, t, id);
    assert [] + Ran(t.v).writes == Ran(t.v).writes && [] + Ran(t.v).staged == Ran(t.v).staged;
  }

  lemma StepKeepsInv(s: Sys, id: nat)
    requires Inv(s)
    ensures Inv(Step(s, id))
  {
    if Enabled(s, id) {
      var t, next := s.tasks[id], Step(s, id);
      assert TaskInv(s, id);
      StepFits(t);
      StepTraces(s, id);
      forall other | other in next.tasks
        ensures TaskInv(next, other) && (InTx(next.tasks[other]) ==> next.writer == Some(other))
      {
        assert TaskInv(s, other);
        if other != id { WrittenTrace(s.store, t, other); }
      }
    }
  }

  predicate Numbered(vs: map<nat, Invocation>) { forall id :: id in vs ==> vs[id].id == id }

  lemma {:induction false} RunKeepsInv(vs: map<nat, Invocation>, schedule: seq<nat>)
    requires Numbered(vs)
    ensures Inv(Run(Launch(vs), schedule))
    ensures forall id :: id in vs ==> Run(Launch(vs), schedule).tasks[id].v == vs[id]
    decreases |schedule|
  {
    if schedule != [] {
      var front := schedule[..|schedule| - 1];
      RunKeepsInv(vs, front);
      StepKeepsInv(Run(Launch(vs), front), schedule[|schedule| - 1]);
    }
  }

  // ---------------------------------------------------------------- audit atomicity, interleaved

  /** What any observer may find of one invocation, finished or not: at most one row; a mutation's
      writes complete and in order together with its allow row and never without it; its one staged
      update only behind them. */
  predicate Atomic(v: Invocation, t: Trace) {
    && |t.rows| <= 1
    && t.writes == (if t.rows == [AllowRow] && !v.read then Ran(v).writes else [])
    && (t.updates == [] || (t.rows == [AllowRow] && !v.read && t.updates == Ran(v).staged))
    && |t.updates| <= 1
  }

  lemma ExpectedIsAtomic(t: Task)
    requires Fits(t)
    ensures Atomic(t.v, Expected(t))
  {
    AtMostOneTransact(t.v.acts, START);
  }

  /** In every state that any interleaving of any dispatches with any faults reaches. */
  lemma RunsAreAtomic(vs: map<nat, Invocation>, schedule: seq<nat>, id: nat)
    requires Numbered(vs) && id in vs
    ensures Atomic(vs[id], TraceOf(Run(Launch(vs), schedule).store, id))
  {
    RunKeepsInv(vs, schedule);
    var s := Run(Launch(vs), schedule);
    assert TaskInv(s, id);
    ExpectedIsAtomic(s.tasks[id]);
  }

  /** A finished dispatch has left exactly its outcome, and its caller was told so. */
  lemma FinishedRunsAreComplete(vs: map<nat, Invocation>, schedule: seq<nat>, id: nat)
    requires Numbered(vs) && id in vs && Run(Launch(vs), schedule).tasks[id].stage.Done?
    ensures var s, v := Run(Launch(vs), schedule), vs[id];
            var t := TraceOf(s.store, id);
            t.rows == RowOf(v) && AnswersFor(v, s.tasks[id].stage.r) &&
            t.updates == (if RowOf(v) == [AllowRow] && !v.read then Ran(v).staged else [])
  {
    RunKeepsInv(vs, schedule);
    assert TaskInv(Run(Launch(vs), schedule), id);
  }

  /** While a dispatch is unfinished, some dispatch can move: an open transaction never waits. */
  lemma SomeDispatchMoves(vs: map<nat, Invocation>, schedule: seq<nat>, id: nat) returns (mover: nat)
    requires Numbered(vs) && id in vs && !Run(Launch(vs), schedule).tasks[id].stage.Done?
    ensures Enabled(Run(Launch(vs), schedule), mover)
  {
    RunKeepsInv(vs, schedule);
    var s := Run(Launch(vs), schedule);
    mover := if s.writer.Some? then s.writer.value else id;
  }
}
