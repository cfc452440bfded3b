/** What holds in every reachable state of the protocol, and its refinement of `MemorySyncService`. */
module SyncTheorems {
  import opened DocLog
  import opened Watermark
  import opened SyncModel
  import opened SyncProtocol

  // ---------------------------------------------------------------- safety of every run

  lemma ReachableInv(run: seq<Step>)
    requires Legal(INIT, run)
    ensures Inv(Exec(INIT, run))
  {
    RunKeepsInv(INIT, run);
  }

  /** Clients and reads see committed deltas only; the watermark hides no committed row from a tail
      read, because every seq it covers is already in the resident. */
  lemma ResidentsAreCommittedOnly(run: seq<Step>, d: DocId)
    requires Legal(INIT, run) && d in Exec(INIT, run).residents
    ensures var s := Exec(INIT, run);
            var rows, res := s.db.RowsOf(d), s.residents[d];
            && res.doc <= Deltas(rows)
            && res.mark.low <= |rows|
            && (forall i :: 0 <= i < res.mark.low ==> rows[i].blob <= res.doc)
            && (forall a :: a in res.mark.ahead ==> res.mark.low + 1 < a <= |rows| && rows[a - 1].blob <= res.doc)
  {
    ReachableInv(run);
    var s := Exec(INIT, run);
    var rows, res := s.db.RowsOf(d), s.residents[d];
    assert ResidentInv(rows, res);
    forall i: nat | i < res.mark.low ensures i < |rows| && rows[i].blob <= res.doc {
      var k := i + 1;
      assert res.mark.Has(k) && rows[k - 1] == rows[i];
    }
    forall a | a in res.mark.ahead ensures res.mark.low + 1 < a <= |rows| && rows[a - 1].blob <= res.doc {
      assert res.mark.Has(a);
    }
    if res.mark.low > 0 { assert res.mark.Has(res.mark.low); }
  }

  /** A clone in a handler's hands holds all rows its transaction saw when the tail was read, its
      own staged ones included, and nothing of any other open transaction. */
  lemma ClonesAreComplete(run: seq<Step>, d: DocId)
    requires Legal(INIT, run) && d in Exec(INIT, run).locks && Exec(INIT, run).locks[d].Cloned?
    ensures var s := Exec(INIT, run);
            var h := s.locks[d];
            && s.CanSee(h.tx, d, h.view)
            && Deltas(s.Visible(h.tx, d, h.view)) <= h.clone
            && h.clone <= Deltas(s.db.RowsOf(d)) + Deltas(s.txs[h.tx].own.RowsOf(d))
  {
    ReachableInv(run);
    var s := Exec(INIT, run);
    var h := s.locks[d];
    assert LockInv(s.db, s.live, s.txs, d, h);
    DeltasConcat(s.db.RowsOf(d), s.txs[h.tx].own.RowsOf(d));
  }

  /** Committed seqs are exactly 1..n, and the counter names the next one. */
  lemma CommittedSeqsAreGapless(run: seq<Step>, d: DocId)
    requires Legal(INIT, run)
    ensures var db := Exec(INIT, run).db;
            (forall i :: 0 <= i < |db.RowsOf(d)| ==> db.RowsOf(d)[i].num == i + 1) &&
            NextSeq(db, NOTHING_OWN, d) == |db.RowsOf(d)| + 1
  {
    ReachableInv(run);
    var db := Exec(INIT, run).db;
    assert GaplessAt(db, d);
  }

  lemma {:induction false} LogOnlyGrows(s: State, run: seq<Step>, d: DocId)
    requires Inv(s) && Legal(s, run)
    ensures s.db.RowsOf(d) <= Exec(s, run).db.RowsOf(d)
    decreases |run|
  {
    if run != [] {
      StepKeepsInv(s, run[0]);
      if run[0].SqlCommit? {
        assert TxInv(s.db, s.live, s.txs[run[0].t]);
        CommitGapless(s.db, s.txs[run[0].t].own);
      }
      LogOnlyGrows(Do(s, run[0]), run[1..], d);
    }
  }

  /** Numbers are reused after a rollback, yet whatever a resident ever applied under number k is
      the row that number names in the log from then on: a rolled-back blob is in neither. */
  lemma AppliedRowsStayInTheLog(run: seq<Step>, rest: seq<Step>, t: TxId, d: DocId, done: nat, partial: Blob, r: Row)
    requires Legal(INIT, run) && Enabled(Exec(INIT, run), Apply(t, d, done, partial))
    requires Legal(Exec(INIT, run), rest)
    requires r in Exec(INIT, run).txs[t].staged[d]
    ensures var rows := Exec(Exec(INIT, run), rest).db.RowsOf(d);
            1 <= r.num <= |rows| && rows[r.num - 1] == r
  {
    ReachableInv(run);
    var s := Exec(INIT, run);
    assert TxInv(s.db, s.live, s.txs[t]) && GaplessAt(s.db, d);
    assert r in s.db.RowsOf(d);
    LogOnlyGrows(s, rest, d);
  }

  // ---------------------------------------------------------------- MemorySyncService

  /** A handler's `fn`: from the document it is given to the updates it makes. */
  datatype Call = Call(d: DocId, fn: Blob -> seq<Blob>)

  function DocIn(docs: map<DocId, Blob>, d: DocId): Blob { if d in docs then docs[d] else {} }

  function MemAfter(docs: map<DocId, Blob>, c: Call): map<DocId, Blob> {
    docs[c.d := DocIn(docs, c.d) + MergeUpdates(c.fn(DocIn(docs, c.d)))]
  }

  /** A call merges all its updates, and nothing else, into its document only. */
  lemma CallMerges(docs: map<DocId, Blob>, c: Call)
    ensures var doc, after := DocIn(docs, c.d), MemAfter(docs, c);
            && (forall x :: x in DocIn(after, c.d) <==>
                  x in doc || exists i :: 0 <= i < |c.fn(doc)| && x in c.fn(doc)[i])
            && (forall e :: e != c.d ==> DocIn(after, e) == DocIn(docs, e))
  {
    MergedIsUnion(c.fn(DocIn(docs, c.d)));
  }

  /** What each `fn` sees, in order, when every call runs straight on the document. */
  function MemSees(docs: map<DocId, Blob>, calls: seq<Call>): seq<Blob>
    decreases |calls|
  {
    if calls == [] then [] else [DocIn(docs, calls[0].d)] + MemSees(MemAfter(docs, calls[0]), calls[1..])
  }

  function MemRun(docs: map<DocId, Blob>, calls: seq<Call>): map<DocId, Blob>
    decreases |calls|
  {
    if calls == [] then docs else MemRun(MemAfter(docs, calls[0]), calls[1..])
  }

  class MemorySyncService {
    var docs: map<DocId, Blob>
    var closed: bool

    constructor ()
      ensures docs == map[] && !closed
    {
      docs, closed := map[], false;
    }

    /** `ok` is false where the source throws. */
    method Transact(c: Call) returns (ok: bool, seen: Blob)
      modifies this`docs
      ensures ok == !closed
      ensures ok ==> seen == DocIn(old(docs), c.d) && docs == MemAfter(old(docs), c)
      ensures ok ==> forall x :: x in DocIn(docs, c.d) <==>
                       x in seen || exists i :: 0 <= i < |c.fn(seen)| && x in c.fn(seen)[i]
      ensures !ok ==> docs == old(docs)
    {
      CallMerges(docs, c);
      seen := {};
      if closed {
        return false, seen;
      }
      if c.d !in docs {
        docs := docs[c.d := {}];
      }
      seen := docs[c.d];
      docs := docs[c.d := seen + MergeUpdates(c.fn(seen))];
      ok := true;
    }

    method Close()
      modifies this
      ensures closed && docs == map[]
    {
      closed := true;
      docs := map[];
    }
  }

  // ---------------------------------------------------------------- refinement

  /** Only `t` is open, and no document is locked. */
  ghost predicate InDispatch(s: State, t: TxId) {
    s.locks == map[] && s.IsOpen(t) && forall u :: u in s.txs && u != t ==> s.txs[u].phase == Committed
  }

  ghost predicate Idle(s: State) {
    s.locks == map[] && forall u :: u in s.txs ==> s.txs[u].phase == Committed
  }

  /** The first half of a `ctx.transact`: open and clone. */
  ghost function HocClone(s: State, t: TxId, d: DocId): State
    requires InDispatch(s, t)
  {
    var n := |s.db.RowsOf(d)|;
    Do(Do(s, OpenDoc(t, d, n)), CloneDoc(t, d, n))
  }

  /** One `ctx.transact`: open, clone, run `fn`, persist and stage. */
  ghost function HocCall(s: State, t: TxId, c: Call): (State, Blob)
    requires InDispatch(s, t)
  {
    var cloned := HocClone(s, t, c.d);
    var seen := cloned.locks[c.d].clone;
    (Do(cloned, Persist(t, c.d, c.fn(seen))), seen)
  }

  lemma ClonePrepares(s: State, t: TxId, d: DocId)
    requires Inv(s) && InDispatch(s, t)
    ensures var cloned := HocClone(s, t, d);
            Inv(cloned) && cloned.db == s.db && cloned.txs == s.txs && cloned.locks.Keys == {d} &&
            cloned.locks[d].Cloned? && cloned.locks[d].tx == t
  {
    var n := |s.db.RowsOf(d)|;
    StepKeepsInv(s, OpenDoc(t, d, n));
    StepKeepsInv(Do(s, OpenDoc(t, d, n)), CloneDoc(t, d, n));
  }

  /** The in-memory documents are the committed rows plus the open dispatch's own. */
  ghost predicate Agree(s: State, t: TxId, docs: map<DocId, Blob>)
    requires t in s.txs
  {
    forall d :: DocIn(docs, d) == Deltas(s.db.RowsOf(d) + s.txs[t].own.RowsOf(d))
  }

  lemma CallKeepsDispatch(s: State, t: TxId, c: Call)
    requires Inv(s) && InDispatch(s, t)
    ensures Inv(HocCall(s, t, c).0) && InDispatch(HocCall(s, t, c).0, t) && HocCall(s, t, c).0.db == s.db
  {
    ClonePrepares(s, t, c.d);
    var cloned := HocClone(s, t, c.d);
    StepKeepsInv(cloned, Persist(t, c.d, c.fn(cloned.locks[c.d].clone)));
  }

  /** The clone is exactly the in-memory document. */
  lemma CallSeesMemory(s: State, t: TxId, c: Call, docs: map<DocId, Blob>)
    requires Inv(s) && InDispatch(s, t) && Agree(s, t, docs)
    ensures HocCall(s, t, c).1 == DocIn(docs, c.d)
  {
    var n := |s.db.RowsOf(c.d)|;
    StepKeepsInv(s, OpenDoc(t, c.d, n));
    var loaded := Do(s, OpenDoc(t, c.d, n));
    CloneIsExact(loaded, t, c.d, n);
    assert s.db.RowsOf(c.d)[..n] == s.db.RowsOf(c.d);
  }

  lemma CallAgrees(s: State, t: TxId, c: Call, docs: map<DocId, Blob>)
    requires Inv(s) && InDispatch(s, t) && Agree(s, t, docs)
    ensures t in HocCall(s, t, c).0.txs && Agree(HocCall(s, t, c).0, t, MemAfter(docs, c))
  {
    CallSeesMemory(s, t, c, docs);
    ClonePrepares(s, t, c.d);
    WriteAgrees(s.db, s.txs[t].own, c, docs);
  }

  /** Persisting the updates moves the durable side exactly as the in-memory document moves. */
  lemma WriteAgrees(db: Tables, own: Own, c: Call, docs: map<DocId, Blob>)
    requires forall d :: DocIn(docs, d) == Deltas(db.RowsOf(d) + own.RowsOf(d))
    ensures var updates := c.fn(DocIn(docs, c.d));
            var own' := if updates == [] then own else WriteOne(db, own, c.d, MergeUpdates(updates));
            forall d :: DocIn(MemAfter(docs, c), d) == Deltas(db.RowsOf(d) + own'.RowsOf(d))
  {
    var blob := MergeUpdates(c.fn(DocIn(docs, c.d)));
    DeltasAppend(db.RowsOf(c.d), own.RowsOf(c.d), Row(NextSeq(db, own, c.d), blob));
  }

  lemma DeltasAppend(rows: seq<Row>, mine: seq<Row>, r: Row)
    ensures Deltas(rows + (mine + [r])) == Deltas(rows + mine) + r.blob
  {
    assert rows + (mine + [r]) == rows + mine + [r];
    DeltasConcat(rows + mine, [r]);
    assert Deltas([r]) == r.blob;
  }

  ghost function HocCalls(s: State, t: TxId, calls: seq<Call>): (State, seq<Blob>)
    requires Inv(s) && InDispatch(s, t)
    decreases |calls|
  {
    if calls == [] then (s, [])
    else
      var one := HocCall(s, t, calls[0]);
      CallKeepsDispatch(s, t, calls[0]);
      var rest := HocCalls(one.0, t, calls[1..]);
      (rest.0, [one.1] + rest.1)
  }

  lemma {:induction false} CallsRefine(s: State, t: TxId, calls: seq<Call>, docs: map<DocId, Blob>)
    requires Inv(s) && InDispatch(s, t) && Agree(s, t, docs)
    ensures var r := HocCalls(s, t, calls);
            r.1 == MemSees(docs, calls) && Inv(r.0) && InDispatch(r.0, t) && Agree(r.0, t, MemRun(docs, calls))
    decreases |calls|
  {
    if calls != [] {
      CallKeepsDispatch(s, t, calls[0]);
      CallSeesMemory(s, t, calls[0], docs);
      CallAgrees(s, t, calls[0], docs);
      CallsRefine(HocCall(s, t, calls[0]).0, t, calls[1..], MemAfter(docs, calls[0]));
    }
  }

  /** Between dispatches anything but a write may happen: delayed, failed or lost applies, reads,
      attaches, native applies of committed deltas, unloads and restarts. */
  datatype Event = Dispatch(t: TxId, calls: seq<Call>) | Background(a: Step)

  ghost predicate Harmless(a: Step) {
    a.Apply? || a.Finish? || a.Attach? || a.Read? || a.Unload? || a.NativeApply? || a.Restart?
  }

  ghost predicate Possible(s: State, e: Event) {
    Inv(s) && Idle(s) && match e case Dispatch(t, _) => t !in s.txs case Background(a) => Harmless(a) && Enabled(s, a)
  }

  ghost function HocEvent(s: State, e: Event): (State, seq<Blob>)
    requires Possible(s, e)
  {
    match e
    case Background(a) => (Do(s, a), [])
    case Dispatch(t, calls) =>
      StepKeepsInv(s, Begin(t));
      var r := HocCalls(Do(s, Begin(t)), t, calls);
      CallsEnd(Do(s, Begin(t)), t, calls);
      (Do(r.0, SqlCommit(t)), r.1)
  }

  lemma {:induction false} CallsEnd(s: State, t: TxId, calls: seq<Call>)
    requires Inv(s) && InDispatch(s, t)
    ensures Inv(HocCalls(s, t, calls).0) && InDispatch(HocCalls(s, t, calls).0, t)
    decreases |calls|
  {
    if calls != [] {
      CallKeepsDispatch(s, t, calls[0]);
      CallsEnd(HocCall(s, t, calls[0]).0, t, calls[1..]);
    }
  }

  ghost predicate AtRest(s: State, docs: map<DocId, Blob>) {
    Inv(s) && Idle(s) && forall d :: DocIn(docs, d) == Deltas(s.db.RowsOf(d))
  }

  function CallsOf(e: Event): seq<Call> { if e.Dispatch? then e.calls else [] }

  lemma DispatchRefines(s: State, t: TxId, calls: seq<Call>, docs: map<DocId, Blob>)
    requires AtRest(s, docs) && t !in s.txs
    ensures var r := HocEvent(s, Dispatch(t, calls));
            r.1 == MemSees(docs, calls) && AtRest(r.0, MemRun(docs, calls))
  {
    StepKeepsInv(s, Begin(t));
    var begun := Do(s, Begin(t));
    forall d ensures begun.db.RowsOf(d) + begun.txs[t].own.RowsOf(d) == s.db.RowsOf(d) { }
    CallsRefine(begun, t, calls, docs);
    var r := HocCalls(begun, t, calls);
    CommitComesToRest(r.0, t, MemRun(docs, calls));
  }

  lemma CommitComesToRest(s: State, t: TxId, docs: map<DocId, Blob>)
    requires Inv(s) && InDispatch(s, t) && Agree(s, t, docs)
    ensures AtRest(Do(s, SqlCommit(t)), docs)
  {
    StepKeepsInv(s, SqlCommit(t));
    assert TxInv(s.db, s.live, s.txs[t]);
    CommitGapless(s.db, s.txs[t].own);
  }

  lemma BackgroundRefines(s: State, a: Step, docs: map<DocId, Blob>)
    requires AtRest(s, docs) && Harmless(a) && Enabled(s, a)
    ensures AtRest(Do(s, a), docs)
  {
    StepKeepsInv(s, a);
  }

  /** Legal event lists, what the handlers see in them, and the calls they make. */
  ghost predicate LegalEvents(s: State, events: seq<Event>)
    decreases |events|
  {
    events == [] || (Possible(s, events[0]) && LegalEvents(HocEvent(s, events[0]).0, events[1..]))
  }

  ghost function HocSees(s: State, events: seq<Event>): seq<Blob>
    requires LegalEvents(s, events)
    decreases |events|
  {
    if events == [] then [] else var r := HocEvent(s, events[0]); r.1 + HocSees(r.0, events[1..])
  }

  function AllCalls(events: seq<Event>): seq<Call> {
    if events == [] then [] else CallsOf(events[0]) + AllCalls(events[1..])
  }

  lemma {:induction false} MemSeesConcat(docs: map<DocId, Blob>, a: seq<Call>, b: seq<Call>)
    ensures MemSees(docs, a + b) == MemSees(docs, a) + MemSees(MemRun(docs, a), b)
    decreases |a|
  {
    if a == [] {
      assert a + b == b;
    } else {
      assert (a + b)[1..] == a[1..] + b;
      MemSeesConcat(MemAfter(docs, a[0]), a[1..], b);
    }
  }

  lemma {:induction false} EventsRefine(s: State, events: seq<Event>, docs: map<DocId, Blob>)
    requires AtRest(s, docs) && LegalEvents(s, events)
    ensures HocSees(s, events) == MemSees(docs, AllCalls(events))
    decreases |events|
  {
    if events != [] {
      var e := events[0];
      var s' := HocEvent(s, e).0;
      var calls := CallsOf(e);
      if e.Dispatch? { DispatchRefines(s, e.t, e.calls, docs); } else { BackgroundRefines(s, e.a, docs); }
      EventsRefine(s', events[1..], MemRun(docs, calls));
      MemSeesConcat(docs, calls, AllCalls(events[1..]));
    }
  }

  /** Each `fn` sees under `HocuspocusSync` exactly what it sees under `MemorySyncService`. */
  lemma HocuspocusRefinesMemory(events: seq<Event>)
    requires LegalEvents(INIT, events)
    ensures HocSees(INIT, events) == MemSees(map[], AllCalls(events))
  {
    EventsRefine(INIT, events, map[]);
  }
}
