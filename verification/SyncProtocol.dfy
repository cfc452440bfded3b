/** Broadcast-after-commit as a step system: dispatches open SQL transactions, hydrate, clone,
    persist, commit or roll back, and later apply their staged rows to the residents, in any
    interleaving the per-document lock and the counter row allow
    (packages/sync/src/hocuspocus.ts with packages/db/src/doc-updates-writer.ts). */
module SyncProtocol {
  import opened DocLog
  import opened Watermark
  import opened SyncModel

  type TxId = nat

  datatype Phase = Open | Committed

  /** A dispatch: its SQL writes, and the rows its binding staged for each document. */
  datatype Tx = Tx(phase: Phase, own: Own, staged: map<DocId, seq<Row>>)

  /** Who holds a document's lock, and how far its transact has come. */
  datatype Holder = Opened(tx: TxId) | Cloned(tx: TxId, clone: Blob, view: nat)

  datatype State = State(
    db: Tables,
    txs: map<TxId, Tx>,
    residents: map<DocId, Resident>,
    live: set<DocId>,
    locks: map<DocId, Holder>)
  {
    predicate IsOpen(t: TxId) { t in txs && txs[t].phase == Open }

    /** Rows a transaction sees for `d` when its snapshot holds the first `view` committed rows. */
    function Visible(t: TxId, d: DocId, view: nat): seq<Row>
      requires t in txs && view <= |db.RowsOf(d)|
    {
      db.RowsOf(d)[..view] + txs[t].own.RowsOf(d)
    }

    /** A snapshot may be old, except once the transaction itself holds the counter row. */
    predicate CanSee(t: TxId, d: DocId, view: nat) {
      IsOpen(t) && view <= |db.RowsOf(d)| && (d in txs[t].own.rows ==> view == |db.RowsOf(d)|)
    }

    /** What the untransacted handle reads: on a single connection that includes the rows of the
        transaction open on it. */
    function Untransacted(d: DocId, peek: Peek): seq<Row>
      requires peek.At? ==> peek.t in txs
    {
      db.RowsOf(d) + if peek.At? then txs[peek.t].own.RowsOf(d) else []
    }
  }

  /** Whose uncommitted rows the untransacted handle sees, if anyone's. */
  datatype Peek = Nobody | At(t: TxId)

  const INIT := State(NO_TABLES, map[], map[], {}, map[])

  datatype Step =
    | Begin(t: TxId)
    | OpenDoc(t: TxId, d: DocId, view: nat)
    | CloneDoc(t: TxId, d: DocId, view: nat)
    | Persist(t: TxId, d: DocId, updates: seq<Blob>)
    | FnThrows(t: TxId, d: DocId)
    | SqlCommit(t: TxId)
    | SqlRollback(t: TxId)
    | Apply(t: TxId, d: DocId, done: nat, partial: Blob)
    | Finish(t: TxId)
    | Attach(d: DocId, peek: Peek)
    | Read(d: DocId, peek: Peek)
    | Unload(d: DocId)
    | NativeApply(d: DocId, delta: Blob)
    | Restart

  predicate HoldsNoLock(s: State, t: TxId) { forall d :: d in s.locks ==> s.locks[d].tx != t }

  /** Nobody else holds the counter row of `d`. */
  predicate CounterFree(s: State, t: TxId, d: DocId) {
    forall u :: u in s.txs && s.txs[u].phase == Open && u != t ==> d !in s.txs[u].own.rows
  }

  predicate PeeksOpen(s: State, peek: Peek) {
    peek.At? ==> s.IsOpen(peek.t)
  }

  predicate Enabled(s: State, a: Step) {
    match a
    case Begin(t) => t !in s.txs
    case OpenDoc(t, d, view) => d !in s.locks && s.CanSee(t, d, view)
    case CloneDoc(t, d, view) =>
      d in s.locks && s.locks[d] == Opened(t) && d in s.residents && s.CanSee(t, d, view)
    case Persist(t, d, updates) =>
      d in s.locks && s.locks[d].Cloned? && s.locks[d].tx == t && t in s.txs &&
      (updates != [] ==> CounterFree(s, t, d))
    case FnThrows(t, d) => d in s.locks && s.locks[d].tx == t
    case SqlCommit(t) => s.IsOpen(t) && HoldsNoLock(s, t)
    case SqlRollback(t) => s.IsOpen(t) && HoldsNoLock(s, t)
    case Apply(t, d, done, partial) =>
      t in s.txs && s.txs[t].phase == Committed && d in s.txs[t].staged && d !in s.locks &&
      done <= |s.txs[t].staged[d]| &&
      (if done < |s.txs[t].staged[d]| then partial <= s.txs[t].staged[d][done].blob else partial == {})
    case Finish(t) => t in s.txs && s.txs[t].phase == Committed && s.txs[t].staged == map[]
    case Attach(d, peek) => d !in s.residents && PeeksOpen(s, peek)
    case Read(d, peek) => d !in s.locks && PeeksOpen(s, peek)
    case Unload(d) => d in s.residents && d !in s.live
    case NativeApply(d, delta) => d in s.residents && delta <= Deltas(s.db.RowsOf(d))
    case Restart => true
  }

  function Opening(s: State, d: DocId, rows: seq<Row>): State {
    s.(residents := if d in s.residents then s.residents else s.residents[d := Hydrate(rows)], live := s.live + {d})
  }

  function Do(s: State, a: Step): State
    requires Enabled(s, a)
  {
    match a
    case Begin(t) => s.(txs := s.txs[t := Tx(Open, NOTHING_OWN, map[])])
    case OpenDoc(t, d, view) =>
      Opening(s, d, s.Visible(t, d, view)).(locks := s.locks[d := Opened(t)])
    case CloneDoc(t, d, view) =>
      s.(locks := s.locks[d := Cloned(t, CloneOf(s.residents[d], s.Visible(t, d, view)), view)])
    case Persist(t, d, updates) =>
      var released := s.(locks := s.locks - {d});
      if updates == [] then released else released.(txs := s.txs[t := PersistTx(s.db, s.txs[t], d, updates)])
    case FnThrows(t, d) => s.(locks := s.locks - {d})
    case SqlCommit(t) =>
      s.(db := CommitTables(s.db, s.txs[t].own), txs := s.txs[t := Tx(Committed, NOTHING_OWN, s.txs[t].staged)])
    case SqlRollback(t) => s.(txs := s.txs - {t})
    case Apply(t, d, done, partial) =>
      var tx := s.txs[t];
      var applied := s.(txs := s.txs[t := tx.(staged := tx.staged - {d})]);
      if d !in s.residents then applied
      else applied.(residents := s.residents[d := ApplyStaged(s.residents[d], tx.staged[d], done, partial)])
    case Finish(t) => s.(txs := s.txs - {t})
    case Attach(d, peek) => s.(residents := s.residents[d := Hydrate(s.Untransacted(d, peek))])
    case Read(d, peek) => Opening(s, d, s.Untransacted(d, peek))
    case Unload(d) => s.(residents := s.residents - {d})
    case NativeApply(d, delta) => Grown(s, d, delta)
    case Restart => State(s.db, map[], map[], {}, map[])
  }

  /** The native receiver merges what a socket sent, past the watermark. */
  function Grown(s: State, d: DocId, delta: Blob): State
    requires d in s.residents
  {
    s.(residents := s.residents[d := Resident(s.residents[d].doc + delta, s.residents[d].mark)])
  }

  function PersistTx(db: Tables, tx: Tx, d: DocId, updates: seq<Blob>): Tx {
    var own := WriteOne(db, tx.own, d, MergeUpdates(updates));
    var mine := own.RowsOf(d);
    Tx(tx.phase, own, tx.staged[d := (if d in tx.staged then tx.staged[d] else []) + mine[|mine| - 1..]])
  }

  // ---------------------------------------------------------------- invariant

  /** An open transaction continues the log and stages what it wrote; a committed one stages only
      committed rows. */
  ghost predicate TxInv(db: Tables, live: set<DocId>, tx: Tx) {
    if tx.phase == Open then
      Continues(db, tx.own) && tx.staged == tx.own.rows && tx.own.rows.Keys <= live
    else
      tx.own == NOTHING_OWN && forall d, r :: d in tx.staged && r in tx.staged[d] ==> r in db.RowsOf(d)
  }

  /** Two open transactions never hold the same counter row. */
  ghost predicate Apart(a: Tx, b: Tx) {
    a.phase == Open && b.phase == Open ==> forall d :: d in a.own.rows ==> d !in b.own.rows
  }

  ghost predicate TxsInv(db: Tables, live: set<DocId>, txs: map<TxId, Tx>) {
    && (forall t :: t in txs ==> TxInv(db, live, txs[t]))
    && (forall t, u :: t in txs && u in txs && t != u ==> Apart(txs[t], txs[u]))
  }

  /** The resident holds committed deltas only, and every seq its mark names is in it. */
  ghost predicate ResidentInv(rows: seq<Row>, res: Resident) {
    && res.doc <= Deltas(rows)
    && res.mark.Tight()
    && forall k :: 0 <= k && res.mark.Has(k) ==> 1 <= k <= |rows| && rows[k - 1].blob <= res.doc
  }

  ghost predicate ResidentsInv(db: Tables, residents: map<DocId, Resident>) {
    forall d :: d in residents ==> ResidentInv(db.RowsOf(d), residents[d])
  }

  /** A clone holds everything its transaction sees and nothing of another open transaction. */
  ghost predicate CloneInv(db: Tables, own: Own, d: DocId, clone: Blob, view: nat) {
    && view <= |db.RowsOf(d)|
    && (d in own.rows ==> view == |db.RowsOf(d)|)
    && Deltas(db.RowsOf(d)[..view] + own.RowsOf(d)) <= clone <= Deltas(db.RowsOf(d) + own.RowsOf(d))
  }

  ghost predicate LockInv(db: Tables, live: set<DocId>, txs: map<TxId, Tx>, d: DocId, h: Holder) {
    && d in live && h.tx in txs && txs[h.tx].phase == Open
    && (h.Cloned? ==> CloneInv(db, txs[h.tx].own, d, h.clone, h.view))
  }

  ghost predicate LocksInv(db: Tables, live: set<DocId>, txs: map<TxId, Tx>, locks: map<DocId, Holder>) {
    forall d :: d in locks ==> LockInv(db, live, txs, d, locks[d])
  }

  ghost predicate Inv(s: State) {
    && Gapless(s.db)
    && s.live <= s.residents.Keys
    && TxsInv(s.db, s.live, s.txs)
    && ResidentsInv(s.db, s.residents)
    && LocksInv(s.db, s.live, s.txs, s.locks)
  }

  // ---------------------------------------------------------------- residents

  lemma HydrateInv(rows: seq<Row>, n: nat)
    requires Numbered(rows, 1) && n <= |rows|
    ensures ResidentInv(rows, Hydrate(rows[..n]))
  {
    MergeIsDeltas(rows[..n]);
    forall i | 0 <= i < n ensures rows[i].blob <= Merge(rows[..n]) {
      assert rows[..n][i] == rows[i] && rows[i] in rows[..n];
    }
  }

  lemma {:induction false} ApplyRowsInv(rows: seq<Row>, res: Resident, updates: seq<Row>)
    requires Numbered(rows, 1) && ResidentInv(rows, res) && forall r :: r in updates ==> r in rows
    ensures ResidentInv(rows, ApplyRows(res, updates))
    ensures res.doc <= ApplyRows(res, updates).doc
    decreases |updates|
  {
    if updates != [] {
      var front, last := updates[..|updates| - 1], updates[|updates| - 1];
      ApplyRowsInv(rows, res, front);
      var before := ApplyRows(res, front);
      AdvanceAdds(before.mark, last.num);
      assert last in rows;
      assert rows[last.num - 1] == last;
    }
  }

  lemma ApplyStagedInv(rows: seq<Row>, res: Resident, updates: seq<Row>, done: nat, partial: Blob)
    requires Numbered(rows, 1) && ResidentInv(rows, res) && forall r :: r in updates ==> r in rows
    requires done <= |updates| && if done < |updates| then partial <= updates[done].blob else partial == {}
    ensures ResidentInv(rows, ApplyStaged(res, updates, done, partial))
  {
    ApplyRowsInv(rows, res, updates[..done]);
    if done < |updates| { assert updates[done] in updates; }
  }

  lemma ResidentInvGrows(rows: seq<Row>, more: seq<Row>, res: Resident)
    requires ResidentInv(rows, res)
    ensures ResidentInv(rows + more, res)
  {
    DeltasConcat(rows, more);
  }

  /** The clone handed to a handler is complete for its view and free of foreign uncommitted rows. */
  lemma CloneIsExact(s: State, t: TxId, d: DocId, view: nat)
    requires Inv(s) && s.CanSee(t, d, view) && d in s.residents
    ensures CloneInv(s.db, s.txs[t].own, d, CloneOf(s.residents[d], s.Visible(t, d, view)), view)
  {
    var rows, own, res := s.db.RowsOf(d), s.txs[t].own.RowsOf(d), s.residents[d];
    var visible := s.Visible(t, d, view);
    var tail := ReadRows(visible, res.mark.low);
    assert TxInv(s.db, s.live, s.txs[t]) && ResidentInv(rows, res);
    MergeIsDeltas(tail);
    DeltasConcat(rows, own);
    forall r | r in visible ensures r.blob <= CloneOf(res, visible) && (r in rows || r in own) {
      if r.num > res.mark.low {
        assert r in tail;
      } else {
        assert r in rows[..view] || r in own;
        CommittedBelow(s, t, d, r);
      }
    }
  }

  /** A visible row at or below the watermark is a committed row the resident already holds. */
  lemma CommittedBelow(s: State, t: TxId, d: DocId, r: Row)
    requires Inv(s) && s.IsOpen(t) && d in s.residents && r.num <= s.residents[d].mark.low
    requires r in s.db.RowsOf(d) || r in s.txs[t].own.RowsOf(d)
    ensures r in s.db.RowsOf(d) && r.blob <= s.residents[d].doc
  {
    var rows, own, res := s.db.RowsOf(d), s.txs[t].own.RowsOf(d), s.residents[d];
    assert TxInv(s.db, s.live, s.txs[t]) && ResidentInv(rows, res) && GaplessAt(s.db, d);
    assert res.mark.low == 0 || res.mark.Has(res.mark.low);
    assert res.mark.low <= |rows|;
    if r in own { assert Numbered(own, |rows| + 1); }
    assert res.mark.Has(r.num);
    assert rows[r.num - 1] == r;
  }

  /** A document nobody has loaded has no uncommitted rows, so any handle reads committed ones. */
  lemma ColdReadsAreCommitted(s: State, t: TxId, d: DocId)
    requires Inv(s) && d !in s.residents && s.IsOpen(t)
    ensures s.txs[t].own.RowsOf(d) == []
  {
    assert TxInv(s.db, s.live, s.txs[t]);
  }

  lemma UntransactedIsCommitted(s: State, d: DocId, peek: Peek)
    requires Inv(s) && d !in s.residents && PeeksOpen(s, peek)
    ensures s.Untransacted(d, peek) == s.db.RowsOf(d)
  {
    if peek.At? { ColdReadsAreCommitted(s, peek.t, d); }
  }

  // ---------------------------------------------------------------- one step

  lemma LiveGrows(db: Tables, live: set<DocId>, live': set<DocId>, txs: map<TxId, Tx>, locks: map<DocId, Holder>)
    requires TxsInv(db, live, txs) && LocksInv(db, live, txs, locks) && live <= live'
    ensures TxsInv(db, live', txs) && LocksInv(db, live', txs, locks)
  {
    forall t | t in txs ensures TxInv(db, live', txs[t]) { assert TxInv(db, live, txs[t]); }
    forall d | d in locks ensures LockInv(db, live', txs, d, locks[d]) { assert LockInv(db, live, txs, d, locks[d]); }
  }

  lemma PutResident(db: Tables, residents: map<DocId, Resident>, d: DocId, res: Resident)
    requires ResidentsInv(db, residents) && ResidentInv(db.RowsOf(d), res)
    ensures ResidentsInv(db, residents[d := res])
  {
  }

  lemma ColdHydration(s: State, d: DocId, rows: seq<Row>, n: nat)
    requires Inv(s) && n <= |s.db.RowsOf(d)| && (d !in s.residents ==> rows == s.db.RowsOf(d)[..n])
    ensures Inv(Opening(s, d, rows))
  {
    LiveGrows(s.db, s.live, s.live + {d}, s.txs, s.locks);
    if d !in s.residents {
      assert GaplessAt(s.db, d);
      HydrateInv(s.db.RowsOf(d), n);
      PutResident(s.db, s.residents, d, Hydrate(rows));
    }
  }

  lemma OpenDocStep(s: State, t: TxId, d: DocId, view: nat)
    requires Inv(s) && Enabled(s, OpenDoc(t, d, view))
    ensures Inv(Do(s, OpenDoc(t, d, view)))
  {
    var rows := s.Visible(t, d, view);
    if d !in s.residents {
      ColdReadsAreCommitted(s, t, d);
      assert rows == s.db.RowsOf(d)[..view];
    }
    ColdHydration(s, d, rows, view);
  }

  lemma LoadStep(s: State, a: Step)
    requires Inv(s) && Enabled(s, a) && (a.Attach? || a.Read?)
    ensures Inv(Do(s, a))
  {
    var rows := s.db.RowsOf(a.d);
    assert rows[..|rows|] == rows;
    if a.d !in s.residents {
      UntransactedIsCommitted(s, a.d, a.peek);
    }
    if a.Read? {
      ColdHydration(s, a.d, s.Untransacted(a.d, a.peek), |rows|);
    } else {
      assert GaplessAt(s.db, a.d);
      HydrateInv(rows, |rows|);
      PutResident(s.db, s.residents, a.d, Hydrate(rows));
    }
  }

  lemma CloneDocStep(s: State, t: TxId, d: DocId, view: nat)
    requires Inv(s) && Enabled(s, CloneDoc(t, d, view))
    ensures Inv(Do(s, CloneDoc(t, d, view)))
  {
    CloneIsExact(s, t, d, view);
    assert LockInv(s.db, s.live, s.txs, d, s.locks[d]);
  }

  predicate SameRows(a: Own, b: Own, d: DocId) { (d in a.rows <==> d in b.rows) && a.RowsOf(d) == b.RowsOf(d) }

  /** Replacing a transaction keeps the invariant when it stays apart from the others and every
      lock it holds still sees the same rows. */
  lemma PutTx(s: State, t: TxId, tx: Tx, touched: set<DocId>)
    requires Inv(s) && TxInv(s.db, s.live, tx) && touched !! s.locks.Keys
    requires forall u :: u in s.txs && u != t ==> Apart(tx, s.txs[u]) && Apart(s.txs[u], tx)
    requires s.IsOpen(t) ==> tx.phase == Open && forall e :: e !in touched ==> SameRows(s.txs[t].own, tx.own, e)
    ensures Inv(s.(txs := s.txs[t := tx]))
  {
    var txs' := s.txs[t := tx];
    forall e | e in s.locks ensures LockInv(s.db, s.live, txs', e, s.locks[e]) {
      assert LockInv(s.db, s.live, s.txs, e, s.locks[e]);
      assert e !in touched;
    }
  }

  /** A rolled-back or finished dispatch disappears; nothing in memory needs undoing. */
  lemma DropTx(s: State, t: TxId)
    requires Inv(s) && HoldsNoLock(s, t)
    ensures Inv(s.(txs := s.txs - {t}))
  {
    forall e | e in s.locks ensures LockInv(s.db, s.live, s.txs - {t}, e, s.locks[e]) {
      assert LockInv(s.db, s.live, s.txs, e, s.locks[e]);
    }
  }

  lemma PersistStep(s: State, t: TxId, d: DocId, updates: seq<Blob>)
    requires Inv(s) && Enabled(s, Persist(t, d, updates)) && updates != []
    ensures Inv(Do(s, Persist(t, d, updates)))
  {
    assert LockInv(s.db, s.live, s.txs, d, s.locks[d]);
    PersistKeepsTx(s, t, d, updates);
    var tx := PersistTx(s.db, s.txs[t], d, updates);
    forall u | u in s.txs && u != t ensures Apart(tx, s.txs[u]) && Apart(s.txs[u], tx) {
      assert Apart(s.txs[t], s.txs[u]);
    }
    PutTx(s.(locks := s.locks - {d}), t, tx, {d});
  }

  lemma PersistKeepsTx(s: State, t: TxId, d: DocId, updates: seq<Blob>)
    requires Inv(s) && s.IsOpen(t) && d in s.live
    ensures var tx := PersistTx(s.db, s.txs[t], d, updates);
            TxInv(s.db, s.live, tx) && tx.phase == Open && tx.own.rows.Keys == s.txs[t].own.rows.Keys + {d} &&
            forall e :: e != d ==> SameRows(s.txs[t].own, tx.own, e)
  {
    var old_, tx := s.txs[t], PersistTx(s.db, s.txs[t], d, updates);
    assert TxInv(s.db, s.live, old_);
    WriteContinues(s.db, old_.own, d, MergeUpdates(updates));
    StagedIsOwn(s.db, old_, d, updates);
  }

  lemma StagedIsOwn(db: Tables, tx: Tx, d: DocId, updates: seq<Blob>)
    requires tx.staged == tx.own.rows
    ensures PersistTx(db, tx, d, updates).staged == PersistTx(db, tx, d, updates).own.rows
  {
    var mine := PersistTx(db, tx, d, updates).own.rows[d];
    assert mine == tx.own.RowsOf(d) + mine[|mine| - 1..];
  }

  lemma CommitStep(s: State, t: TxId)
    requires Inv(s) && Enabled(s, SqlCommit(t))
    ensures Inv(Do(s, SqlCommit(t)))
  {
    var s', own := Do(s, SqlCommit(t)), s.txs[t].own;
    assert TxInv(s.db, s.live, s.txs[t]);
    CommitGapless(s.db, own);
    CommitKeepsTxs(s, t);
    forall e | e in s'.residents ensures ResidentInv(s'.db.RowsOf(e), s'.residents[e]) {
      ResidentInvGrows(s.db.RowsOf(e), own.RowsOf(e), s.residents[e]);
    }
    forall e | e in s'.locks ensures LockInv(s'.db, s'.live, s'.txs, e, s'.locks[e]) {
      CommitKeepsClone(s, t, e);
    }
  }

  lemma CommitKeepsTxs(s: State, t: TxId)
    requires Inv(s) && Enabled(s, SqlCommit(t))
    requires forall d :: CommitTables(s.db, s.txs[t].own).RowsOf(d) == s.db.RowsOf(d) + s.txs[t].own.RowsOf(d)
    ensures var s' := Do(s, SqlCommit(t)); TxsInv(s'.db, s'.live, s'.txs)
  {
    forall u | u in s.txs ensures TxInv(CommitTables(s.db, s.txs[t].own), s.live, Do(s, SqlCommit(t)).txs[u]) {
      CommitKeepsTx(s, t, u);
    }
  }

  lemma CommitKeepsTx(s: State, t: TxId, u: TxId)
    requires Inv(s) && Enabled(s, SqlCommit(t)) && u in s.txs
    requires forall d :: CommitTables(s.db, s.txs[t].own).RowsOf(d) == s.db.RowsOf(d) + s.txs[t].own.RowsOf(d)
    ensures TxInv(CommitTables(s.db, s.txs[t].own), s.live, Do(s, SqlCommit(t)).txs[u])
  {
    var db' := CommitTables(s.db, s.txs[t].own);
    assert TxInv(s.db, s.live, s.txs[u]) && TxInv(s.db, s.live, s.txs[t]);
    if u != t && s.txs[u].phase == Open {
      assert Apart(s.txs[u], s.txs[t]);
      ContinuesElsewhere(s.db, db', s.txs[u].own);
    }
  }

  lemma CommitKeepsClone(s: State, t: TxId, d: DocId)
    requires Inv(s) && Enabled(s, SqlCommit(t)) && d in s.locks
    requires Do(s, SqlCommit(t)).db.RowsOf(d) == s.db.RowsOf(d) + s.txs[t].own.RowsOf(d)
    ensures var s' := Do(s, SqlCommit(t)); LockInv(s'.db, s'.live, s'.txs, d, s'.locks[d])
  {
    assert LockInv(s.db, s.live, s.txs, d, s.locks[d]);
    var s', h := Do(s, SqlCommit(t)), s.locks[d];
    assert h.tx != t && Apart(s.txs[h.tx], s.txs[t]);
    if h.Cloned? {
      var rows, new_, mine := s.db.RowsOf(d), s.txs[t].own.RowsOf(d), s.txs[h.tx].own.RowsOf(d);
      DeltasGrow(rows, new_, mine);
      assert (rows + new_)[..h.view] == rows[..h.view];
    }
  }

  lemma DeltasGrow(a: seq<Row>, b: seq<Row>, c: seq<Row>)
    ensures Deltas(a + c) <= Deltas(a + b + c)
  {
    DeltasConcat(a, c);
    DeltasConcat(a, b);
    DeltasConcat(a + b, c);
  }

  lemma ApplyStep(s: State, t: TxId, d: DocId, done: nat, partial: Blob)
    requires Inv(s) && Enabled(s, Apply(t, d, done, partial))
    ensures Inv(Do(s, Apply(t, d, done, partial)))
  {
    var tx := s.txs[t];
    assert TxInv(s.db, s.live, tx);
    PutTx(s, t, tx.(staged := tx.staged - {d}), {});
    if d in s.residents {
      assert GaplessAt(s.db, d);
      ApplyStagedInv(s.db.RowsOf(d), s.residents[d], tx.staged[d], done, partial);
      PutResident(s.db, s.residents, d, ApplyStaged(s.residents[d], tx.staged[d], done, partial));
    }
  }

  lemma StepKeepsInv(s: State, a: Step)
    requires Inv(s) && Enabled(s, a)
    ensures Inv(Do(s, a))
  {
    match a
    case Begin(t) => PutTx(s, t, Tx(Open, NOTHING_OWN, map[]), {});
    case OpenDoc(t, d, view) => OpenDocStep(s, t, d, view);
    case CloneDoc(t, d, view) => CloneDocStep(s, t, d, view);
    case Persist(t, d, updates) => if updates != [] { PersistStep(s, t, d, updates); }
    case FnThrows(t, d) =>
    case SqlCommit(t) => CommitStep(s, t);
    case SqlRollback(t) => DropTx(s, t);
    case Finish(t) => FinishedHoldsNoLock(s, t); DropTx(s, t);
    case Apply(t, d, done, partial) => ApplyStep(s, t, d, done, partial);
    case Attach(d, peek) => LoadStep(s, a);
    case Read(d, peek) => LoadStep(s, a);
    case Unload(d) =>
    case NativeApply(d, delta) => PutResident(s.db, s.residents, d, Do(s, a).residents[d]);
    case Restart =>
  }

  lemma FinishedHoldsNoLock(s: State, t: TxId)
    requires Inv(s) && t in s.txs && s.txs[t].phase == Committed
    ensures HoldsNoLock(s, t)
  {
    forall d | d in s.locks ensures s.locks[d].tx != t { assert LockInv(s.db, s.live, s.txs, d, s.locks[d]); }
  }

  // ---------------------------------------------------------------- whole runs

  predicate Legal(s: State, run: seq<Step>)
    decreases |run|
  {
    run == [] || (Enabled(s, run[0]) && Legal(Do(s, run[0]), run[1..]))
  }

  function Exec(s: State, run: seq<Step>): State
    requires Legal(s, run)
    decreases |run|
  {
    if run == [] then s else Exec(Do(s, run[0]), run[1..])
  }

  lemma {:induction false} RunKeepsInv(s: State, run: seq<Step>)
    requires Inv(s) && Legal(s, run)
    ensures Inv(Exec(s, run))
    decreases |run|
  {
    if run != [] {
      StepKeepsInv(s, run[0]);
      RunKeepsInv(Do(s, run[0]), run[1..]);
    }
  }
}
