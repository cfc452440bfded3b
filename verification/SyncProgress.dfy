/** Who waits for whom among dispatches, reads and sockets, and when nobody can go on. With one
    `transact` per dispatch (packages/dispatcher/src/dispatcher.ts) a circle needs every connection in
    an open transaction that waits for a document whose load waits for a connection; with two, row
    locks alone can close one. */
module SyncProgress {
  import opened DocLog
  import opened SyncProtocol
  import opened SyncWaits

  // ---------------------------------------------------------------- waiting

  predicate OpenWriter(s: Sys, x: Agent) { x.Writer? && s.core.IsOpen(x.t) }

  predicate BehindAt(q: seq<Agent>, i: int, x: Agent, y: Agent) { 0 < i < |q| && q[i] == x && q[i - 1] == y }

  /** `y` is next in front of `x` in a document's queue. */
  ghost predicate Behind(s: Sys, x: Agent, y: Agent) {
    exists d, i :: d in s.queues && BehindAt(s.queues[d], i, x, y)
  }

  predicate PersistsBehind(s: Sys, t: TxId, d: DocId) {
    d in s.core.locks && s.core.locks[d].Cloned? && s.core.locks[d].tx == t
  }

  /** A dispatch waits for the load of a document it opens, or for the counter row it persists under. */
  ghost predicate WriterWaits(s: Sys, t: TxId, y: Agent) {
    || (y.Attacher? && s.core.IsOpen(t) && HeadIs(s.queues, y.d, Writer(t)) && y.d in s.loading)
    || (OpenWriter(s, y) && y.t != t && exists d :: PersistsBehind(s, t, d) && d in s.core.txs[y.t].own.rows)
  }

  predicate ColdReader(s: Sys, r: nat) {
    r in s.readers && s.readers[r].stage == Holding && s.readers[r].d !in s.core.residents
  }

  /** Any open transaction may give its connection back; until one does, nothing else is read. */
  predicate WaitsForConnection(s: Sys, cap: nat, y: Agent) { !Free(s.core, cap) && OpenWriter(s, y) }

  ghost predicate WaitsFor(s: Sys, cap: nat, x: Agent, y: Agent) {
    Behind(s, x, y) ||
    match x
    case Writer(t) => WriterWaits(s, t, y)
    case Reader(r) =>
      ColdReader(s, r) &&
      if s.readers[r].d in s.loading then y == Attacher(s.readers[r].d) else WaitsForConnection(s, cap, y)
    case Attacher(d) => d in s.loading && WaitsForConnection(s, cap, y)
  }

  /** Everyone in the set waits, and whoever could end its wait is in the set. */
  ghost predicate Stuck(s: Sys, cap: nat, stuck: set<Agent>) {
    forall x :: x in stuck ==> StuckAt(s, cap, x, stuck)
  }

  ghost predicate StuckAt(s: Sys, cap: nat, x: Agent, stuck: set<Agent>) {
    (exists y :: WaitsFor(s, cap, x, y)) && forall y :: WaitsFor(s, cap, x, y) ==> y in stuck
  }

  /** What an agent does next, unless it throws or rolls back. */
  predicate NextOf(s: Sys, x: Agent, m: Move) {
    match x
    case Writer(t) => WriterNext(s, t, m)
    case Reader(r) =>
      m == ReadLock(r) || m == ReadHydrate(r, Nobody) ||
      (m == ReadRelease(r) && r in s.readers && s.readers[r].stage == Serving)
    case Attacher(d) => m == AttachDone(d, Nobody)
  }

  predicate WriterNext(s: Sys, t: TxId, m: Move) {
    match m
    case CallApply(u, _) => u == t
    case Core(OpenDoc(u, d, view)) => u == t && view == |s.core.db.RowsOf(d)|
    case Core(CloneDoc(u, d, view)) => u == t && view == |s.core.db.RowsOf(d)|
    case Core(Persist(u, _, updates)) => u == t && updates != []
    case Core(SqlCommit(u)) => u == t
    case Core(Apply(u, d, done, partial)) =>
      u == t && t in s.core.txs && d in s.core.txs[t].staged && done == |s.core.txs[t].staged[d]|
    case Core(Finish(u)) => u == t
    case _ => false
  }

  // ---------------------------------------------------------------- who is free

  lemma QueuedAt(s: Sys, d: DocId, x: Agent)
    requires x in QueueOf(s.queues, d)
    ensures InSome(s.queues, x)
  {
  }

  /** The head of a queue waits for nobody in front of it. */
  lemma HeadIsFirst(s: Sys, d: DocId, x: Agent, y: Agent)
    requires Orderly(s) && HeadIs(s.queues, d, x)
    ensures !Behind(s, x, y)
  {
    if e, i :| e in s.queues && BehindAt(s.queues[e], i, x, y) {
      OneQueue(s.core.txs, s.readers, s.called, s.queues, d, e, x);
      assert false;
    }
  }

  lemma OutsidersAreFirst(s: Sys, x: Agent, y: Agent)
    requires !InSome(s.queues, x)
    ensures !Behind(s, x, y)
  {
    if e, i :| e in s.queues && BehindAt(s.queues[e], i, x, y) { assert false; }
  }

  /** A dispatch that is not queued waits for nobody. */
  lemma OutsidersAreFree(s: Sys, cap: nat, t: TxId, y: Agent)
    requires Orderly(s) && !InSome(s.queues, Writer(t))
    ensures !WaitsFor(s, cap, Writer(t), y)
  {
    OutsidersAreFirst(s, Writer(t), y);
  }

  /** Who has written is not queued. */
  lemma WritersAreOutside(s: Sys, t: TxId)
    requires Orderly(s) && s.core.IsOpen(t) && s.core.txs[t].own.rows != map[]
    ensures !InSome(s.queues, Writer(t))
  {
    forall d | d in s.queues ensures Writer(t) !in s.queues[d] {
      if Writer(t) in s.queues[d] {
        QueuedIsOk(s, t, d);
        assert false;
      }
    }
  }

  // ---------------------------------------------------------------- when everyone is stuck

  /** The document's head waits for its load, and the load for a connection. */
  predicate HeadStuck(s: Sys, d: DocId) {
    d !in s.core.residents && QueueOf(s.queues, d) != [] &&
    match QueueOf(s.queues, d)[0]
    case Reader(r) => r in s.readers && s.readers[r].stage == Holding
    case Writer(t) => s.core.IsOpen(t) && d in s.loading
    case Attacher(_) => false
  }

  ghost predicate Caught(s: Sys, t: TxId) { exists d :: d in s.queues && Writer(t) in s.queues[d] && HeadStuck(s, d) }

  /** All connections are in open transactions, each of which waits for a load. */
  ghost predicate Deadlocked(s: Sys, cap: nat) {
    !Free(s.core, cap) && forall t :: t in OpenTxs(s.core) ==> Caught(s, t)
  }

  ghost predicate HoldsAllOpen(s: Sys, stuck: set<Agent>) { forall t :: t in OpenTxs(s.core) ==> Writer(t) in stuck }

  lemma NextInFront(s: Sys, cap: nat, d: DocId, i: nat)
    requires d in s.queues && 0 < i < |s.queues[d]|
    ensures WaitsFor(s, cap, s.queues[d][i], s.queues[d][i - 1])
  {
    assert BehindAt(s.queues[d], i, s.queues[d][i], s.queues[d][i - 1]);
  }

  lemma {:induction false} HeadIsStuckToo(s: Sys, cap: nat, stuck: set<Agent>, d: DocId, i: nat)
    requires Stuck(s, cap, stuck) && d in s.queues && i < |s.queues[d]| && s.queues[d][i] in stuck
    ensures s.queues[d][0] in stuck
  {
    if i > 0 {
      NextInFront(s, cap, d, i);
      assert StuckAt(s, cap, s.queues[d][i], stuck);
      HeadIsStuckToo(s, cap, stuck, d, i - 1);
    }
  }

  /** Who waits for a connection waits for every open transaction. */
  lemma ConnectionHolds(s: Sys, cap: nat, x: Agent, stuck: set<Agent>)
    requires StuckAt(s, cap, x, stuck) && forall t :: t in OpenTxs(s.core) ==> WaitsFor(s, cap, x, Writer(t))
    ensures HoldsAllOpen(s, stuck)
  {
  }

  lemma LoadWaits(s: Sys, cap: nat, d: DocId, y: Agent)
    requires !InSome(s.queues, Attacher(d)) && WaitsFor(s, cap, Attacher(d), y)
    ensures !Free(s.core, cap) && forall t :: t in OpenTxs(s.core) ==> WaitsFor(s, cap, Attacher(d), Writer(t))
  {
    OutsidersAreFirst(s, Attacher(d), y);
  }

  lemma AttacherIsStuck(s: Sys, cap: nat, stuck: set<Agent>, d: DocId)
    requires Orderly(s) && Stuck(s, cap, stuck) && Attacher(d) in stuck
    ensures !Free(s.core, cap) && HoldsAllOpen(s, stuck)
  {
    assert StuckAt(s, cap, Attacher(d), stuck);
    var y :| WaitsFor(s, cap, Attacher(d), y);
    AttachersAreOutside(s, d);
    LoadWaits(s, cap, d, y);
    ConnectionHolds(s, cap, Attacher(d), stuck);
  }

  lemma AttachersAreOutside(s: Sys, d: DocId)
    requires Orderly(s)
    ensures !InSome(s.queues, Attacher(d))
  {
    forall e | e in s.queues ensures Attacher(d) !in s.queues[e] {
      if Attacher(d) in s.queues[e] {
        MemberOk(s.core.txs, s.readers, s.called, s.queues, e, Attacher(d));
        assert false;
      }
    }
  }

  lemma StuckWriterHead(s: Sys, cap: nat, stuck: set<Agent>, d: DocId, t: TxId)
    requires WaitInv(s) && Stuck(s, cap, stuck) && HeadIs(s.queues, d, Writer(t)) && Writer(t) in stuck
    ensures HeadStuck(s, d) && !Free(s.core, cap) && HoldsAllOpen(s, stuck)
  {
    assert StuckAt(s, cap, Writer(t), stuck);
    var y :| WaitsFor(s, cap, Writer(t), y);
    HeadIsFirst(s, d, Writer(t), y);
    if y.Attacher? {
      OneQueue(s.core.txs, s.readers, s.called, s.queues, d, y.d, Writer(t));
      AttacherIsStuck(s, cap, stuck, y.d);
    } else {
      var u := y.t;
      WritersAreOutside(s, u);
      assert StuckAt(s, cap, y, stuck);
      var z :| WaitsFor(s, cap, y, z);
      OutsidersAreFree(s, cap, u, z);
      assert false;
    }
  }

  lemma HeadReaderWaits(s: Sys, cap: nat, d: DocId, r: nat, y: Agent)
    requires Orderly(s) && HeadIs(s.queues, d, Reader(r)) && WaitsFor(s, cap, Reader(r), y)
    ensures HeadStuck(s, d) && (d in s.loading ==> y == Attacher(d))
    ensures d !in s.loading ==>
              !Free(s.core, cap) && forall t :: t in OpenTxs(s.core) ==> WaitsFor(s, cap, Reader(r), Writer(t))
  {
    HeadIsFirst(s, d, Reader(r), y);
    MemberOk(s.core.txs, s.readers, s.called, s.queues, d, Reader(r));
  }

  lemma StuckReaderHead(s: Sys, cap: nat, stuck: set<Agent>, d: DocId, r: nat)
    requires Orderly(s) && Stuck(s, cap, stuck) && HeadIs(s.queues, d, Reader(r)) && Reader(r) in stuck
    ensures HeadStuck(s, d) && !Free(s.core, cap) && HoldsAllOpen(s, stuck)
  {
    assert StuckAt(s, cap, Reader(r), stuck);
    var y :| WaitsFor(s, cap, Reader(r), y);
    HeadReaderWaits(s, cap, d, r, y);
    if d in s.loading {
      AttacherIsStuck(s, cap, stuck, d);
    } else {
      ConnectionHolds(s, cap, Reader(r), stuck);
    }
  }

  lemma StuckQueue(s: Sys, cap: nat, stuck: set<Agent>, d: DocId, x: Agent)
    requires WaitInv(s) && Stuck(s, cap, stuck) && d in s.queues && x in s.queues[d] && x in stuck
    ensures HeadStuck(s, d) && !Free(s.core, cap) && HoldsAllOpen(s, stuck)
  {
    var i :| 0 <= i < |s.queues[d]| && s.queues[d][i] == x;
    HeadIsStuckToo(s, cap, stuck, d, i);
    match s.queues[d][0]
    case Writer(t) => StuckWriterHead(s, cap, stuck, d, t);
    case Reader(r) => StuckReaderHead(s, cap, stuck, d, r);
    case Attacher(e) =>
      AttachersAreOutside(s, e);
      assert false;
  }

  lemma StuckIsQueued(s: Sys, cap: nat, stuck: set<Agent>, t: TxId) returns (d: DocId)
    requires WaitInv(s) && Stuck(s, cap, stuck) && Writer(t) in stuck
    ensures d in s.queues && Writer(t) in s.queues[d]
  {
    assert StuckAt(s, cap, Writer(t), stuck);
    var y :| WaitsFor(s, cap, Writer(t), y);
    if !InSome(s.queues, Writer(t)) {
      OutsidersAreFree(s, cap, t, y);
      assert false;
    }
    d :| d in s.queues && Writer(t) in s.queues[d];
  }

  lemma StuckMeansDeadlocked(s: Sys, cap: nat, stuck: set<Agent>)
    requires WaitInv(s) && Stuck(s, cap, stuck) && stuck != {}
    ensures Deadlocked(s, cap)
  {
    var x :| x in stuck;
    match x {
      case Writer(t) =>
        var d := StuckIsQueued(s, cap, stuck, t);
        StuckQueue(s, cap, stuck, d, x);
      case Reader(r) =>
        assert StuckAt(s, cap, x, stuck);
        var y :| WaitsFor(s, cap, x, y);
        var d := ReaderIsQueued(s, cap, r, y);
        StuckQueue(s, cap, stuck, d, x);
      case Attacher(d) => AttacherIsStuck(s, cap, stuck, d);
    }
    forall t | t in OpenTxs(s.core) ensures Caught(s, t) {
      var d := StuckIsQueued(s, cap, stuck, t);
      StuckQueue(s, cap, stuck, d, Writer(t));
    }
  }

  lemma ReaderIsQueued(s: Sys, cap: nat, r: nat, y: Agent) returns (d: DocId)
    requires WaitInv(s) && WaitsFor(s, cap, Reader(r), y)
    ensures d in s.queues && Reader(r) in s.queues[d]
  {
    if Behind(s, Reader(r), y) {
      var e, i :| e in s.queues && BehindAt(s.queues[e], i, Reader(r), y);
      d := e;
    } else {
      d := s.readers[r].d;
    }
  }

  /** Everyone behind a stuck head, and every load. */
  function CaughtSet(s: Sys): set<Agent> {
    (set d, i | d in s.queues && 0 <= i < |s.queues[d]| && HeadStuck(s, d) :: s.queues[d][i]) +
    (set d | d in s.loading :: Attacher(d))
  }

  lemma CaughtSetHas(s: Sys, d: DocId, x: Agent)
    requires d in s.queues && x in s.queues[d] && HeadStuck(s, d)
    ensures x in CaughtSet(s)
  {
    var i :| 0 <= i < |s.queues[d]| && s.queues[d][i] == x;
    assert s.queues[d][i] in CaughtSet(s);
  }

  lemma CaughtSetHasOpen(s: Sys, cap: nat, y: Agent)
    requires Deadlocked(s, cap) && OpenWriter(s, y)
    ensures y in CaughtSet(s)
  {
    assert y.t in OpenTxs(s.core);
    var d :| d in s.queues && y in s.queues[d] && HeadStuck(s, d);
    CaughtSetHas(s, d, y);
  }

  /** In a stuck queue nobody can be waited for that is not caught as well. */
  lemma CaughtWaitsForCaught(s: Sys, cap: nat, d: DocId, x: Agent, y: Agent)
    requires WaitInv(s) && Deadlocked(s, cap) && d in s.queues && x in s.queues[d] && HeadStuck(s, d)
    requires WaitsFor(s, cap, x, y)
    ensures y in CaughtSet(s)
  {
    if Behind(s, x, y) {
      var e, i :| e in s.queues && BehindAt(s.queues[e], i, x, y);
      OneQueue(s.core.txs, s.readers, s.called, s.queues, d, e, x);
      CaughtSetHas(s, d, y);
    } else if OpenWriter(s, y) {
      CaughtSetHasOpen(s, cap, y);
    }
  }

  lemma CaughtWaits(s: Sys, cap: nat, d: DocId, i: nat) returns (y: Agent)
    requires WaitInv(s) && Deadlocked(s, cap) && OpenTxs(s.core) != {}
    requires d in s.queues && i < |s.queues[d]| && HeadStuck(s, d)
    ensures WaitsFor(s, cap, s.queues[d][i], y)
  {
    var x := s.queues[d][i];
    if i > 0 {
      y := s.queues[d][i - 1];
      NextInFront(s, cap, d, i);
    } else if d in s.loading {
      y := Attacher(d);
      MemberOk(s.core.txs, s.readers, s.called, s.queues, d, x);
    } else {
      MemberOk(s.core.txs, s.readers, s.called, s.queues, d, x);
      var t :| t in OpenTxs(s.core);
      y := Writer(t);
    }
  }

  lemma CaughtMember(s: Sys, cap: nat, d: DocId, i: nat)
    requires WaitInv(s) && Deadlocked(s, cap) && OpenTxs(s.core) != {}
    requires d in s.queues && i < |s.queues[d]| && HeadStuck(s, d)
    ensures StuckAt(s, cap, s.queues[d][i], CaughtSet(s))
  {
    var x := s.queues[d][i];
    var y := CaughtWaits(s, cap, d, i);
    forall z | WaitsFor(s, cap, x, z) ensures z in CaughtSet(s) { CaughtWaitsForCaught(s, cap, d, x, z); }
  }

  lemma CaughtLoad(s: Sys, cap: nat, d: DocId)
    requires WaitInv(s) && Deadlocked(s, cap) && OpenTxs(s.core) != {} && d in s.loading
    ensures StuckAt(s, cap, Attacher(d), CaughtSet(s))
  {
    var t :| t in OpenTxs(s.core);
    AttachersAreOutside(s, d);
    assert WaitsFor(s, cap, Attacher(d), Writer(t));
    forall y | WaitsFor(s, cap, Attacher(d), y) ensures y in CaughtSet(s) {
      OutsidersAreFirst(s, Attacher(d), y);
      CaughtSetHasOpen(s, cap, y);
    }
  }

  lemma DeadlockedMeansStuck(s: Sys, cap: nat)
    requires WaitInv(s) && Deadlocked(s, cap) && OpenTxs(s.core) != {}
    ensures CaughtSet(s) != {} && Stuck(s, cap, CaughtSet(s)) && HoldsAllOpen(s, CaughtSet(s))
  {
    hide StuckAt, HeadStuck, WaitInv, Deadlocked;
    forall t | t in OpenTxs(s.core) ensures Writer(t) in CaughtSet(s) { CaughtSetHasOpen(s, cap, Writer(t)); }
    var t :| t in OpenTxs(s.core);
    assert Writer(t) in CaughtSet(s);
    forall x | x in CaughtSet(s) ensures StuckAt(s, cap, x, CaughtSet(s)) {
      if d :| x == Attacher(d) && d in s.loading {
        CaughtLoad(s, cap, d);
      } else {
        var d, i :| d in s.queues && 0 <= i < |s.queues[d]| && HeadStuck(s, d) && s.queues[d][i] == x;
        CaughtMember(s, cap, d, i);
      }
    }
  }

  lemma FullMeansOpen(core: State, cap: nat)
    requires cap >= 1 && !Free(core, cap)
    ensures OpenTxs(core) != {}
  {
  }

  /** Reads, writes and sockets wait in a circle exactly when every connection is in an open transaction
      that waits for a document whose load waits for a connection. */
  lemma StuckIff(run: seq<Move>, cap: nat)
    requires cap >= 1 && LegalMoves(START, cap, true, run)
    ensures (exists stuck :: stuck != {} && Stuck(After(START, cap, true, run), cap, stuck))
       <==> Deadlocked(After(START, cap, true, run), cap)
  {
    var s := After(START, cap, true, run);
    RunKeepsWaits(START, cap, run);
    if stuck :| stuck != {} && Stuck(s, cap, stuck) { StuckMeansDeadlocked(s, cap, stuck); }
    if Deadlocked(s, cap) {
      FullMeansOpen(s.core, cap);
      DeadlockedMeansStuck(s, cap);
    }
  }

  /** So while a connection is free, as it always is where every transaction and every read has its own,
      nobody waits in a circle. */
  lemma NoCircle(run: seq<Move>, cap: nat, stuck: set<Agent>)
    requires LegalMoves(START, cap, true, run) && Free(After(START, cap, true, run).core, cap)
    requires Stuck(After(START, cap, true, run), cap, stuck)
    ensures stuck == {}
  {
    RunKeepsWaits(START, cap, run);
    if stuck != {} { StuckMeansDeadlocked(After(START, cap, true, run), cap, stuck); }
  }

  // ---------------------------------------------------------------- waiting is what the guards do

  lemma StuckWriterStays(s: Sys, cap: nat, stuck: set<Agent>, t: TxId, m: Move)
    requires WaitInv(s) && Stuck(s, cap, stuck) && Writer(t) in stuck && WriterNext(s, t, m)
    ensures !Can(s, cap, m)
  {
    var d := StuckIsQueued(s, cap, stuck, t);
    StuckQueue(s, cap, stuck, d, Writer(t));
    QueuedIsOk(s, t, d);
    if Can(s, cap, m) && m.Core? && !m.a.SqlCommit? && !m.a.Finish? {
      assert HeadIs(s.queues, m.a.d, Writer(t));
      OneQueue(s.core.txs, s.readers, s.called, s.queues, d, m.a.d, Writer(t));
      assert false;
    }
  }

  lemma StuckReaderStays(s: Sys, cap: nat, stuck: set<Agent>, r: nat, m: Move)
    requires WaitInv(s) && Stuck(s, cap, stuck) && Reader(r) in stuck && NextOf(s, Reader(r), m)
    ensures !Can(s, cap, m)
  {
    assert StuckAt(s, cap, Reader(r), stuck);
    var y :| WaitsFor(s, cap, Reader(r), y);
    var d := ReaderIsQueued(s, cap, r, y);
    StuckQueue(s, cap, stuck, d, Reader(r));
    MemberOk(s.core.txs, s.readers, s.called, s.queues, d, Reader(r));
    if HeadIs(s.queues, d, Reader(r)) { HeadIsFirst(s, d, Reader(r), y); }
    else if s.readers[r].stage != Queued { HolderIsHead(s, r); }
  }

  /** Nobody in a stuck set can take its next step. */
  lemma StuckStays(run: seq<Move>, cap: nat, stuck: set<Agent>, x: Agent, m: Move)
    requires LegalMoves(START, cap, true, run)
    requires Stuck(After(START, cap, true, run), cap, stuck) && x in stuck && NextOf(After(START, cap, true, run), x, m)
    ensures !Can(After(START, cap, true, run), cap, m)
  {
    var s := After(START, cap, true, run);
    RunKeepsWaits(START, cap, run);
    match x
    case Writer(t) => StuckWriterStays(s, cap, stuck, t, m);
    case Reader(r) => StuckReaderStays(s, cap, stuck, r, m);
    case Attacher(d) => AttacherIsStuck(s, cap, stuck, d);
  }

  predicate Present(s: Sys, x: Agent) {
    match x
    case Writer(t) => t in s.core.txs
    case Reader(r) => r in s.readers
    case Attacher(d) => d in s.loading
  }

  /** A dispatch that is not queued can commit, go on with its applies, or finish. */
  lemma OutsiderMoves(s: Sys, cap: nat, t: TxId) returns (m: Move)
    requires WaitInv(s) && t in s.core.txs && !InSome(s.queues, Writer(t))
    ensures WriterNext(s, t, m) && Can(s, cap, m)
  {
    if s.core.txs[t].phase == Open {
      forall d | d in s.core.locks ensures s.core.locks[d].tx != t {
        assert HeadIs(s.queues, d, Writer(s.core.locks[d].tx));
      }
      m := Core(SqlCommit(t));
    } else if s.core.txs[t].staged == map[] {
      m := Core(Finish(t));
    } else {
      var d :| d in s.core.txs[t].staged;
      m := CallApply(t, d);
    }
  }

  /** A dispatch with the lock goes on, or the dispatch that keeps its counter row does. */
  lemma LockHolderMoves(s: Sys, cap: nat, d: DocId) returns (x: Agent, m: Move)
    requires WaitInv(s) && d in s.core.locks
    ensures NextOf(s, x, m) && Can(s, cap, m)
  {
    var t, n := s.core.locks[d].tx, |s.core.db.RowsOf(d)|;
    assert LockInv(s.core.db, s.core.live, s.core.txs, d, s.core.locks[d]);
    if s.core.locks[d].Opened? {
      x, m := Writer(t), Core(CloneDoc(t, d, n));
    } else if CounterFree(s.core, t, d) {
      x, m := Writer(t), Core(Persist(t, d, [{}]));
    } else {
      var u :| u in s.core.txs && s.core.txs[u].phase == Open && u != t && d in s.core.txs[u].own.rows;
      WritersAreOutside(s, u);
      m := OutsiderMoves(s, cap, u);
      x := Writer(u);
    }
  }

  lemma WriterHeadMoves(s: Sys, cap: nat, d: DocId, t: TxId) returns (x: Agent, m: Move)
    requires WaitInv(s) && HeadIs(s.queues, d, Writer(t)) && (Free(s.core, cap) || !HeadStuck(s, d))
    ensures NextOf(s, x, m) && Can(s, cap, m)
  {
    QueuedIsOk(s, t, d);
    if d in s.core.locks {
      x, m := LockHolderMoves(s, cap, d);
    } else if s.core.txs[t].phase == Committed {
      x, m := Writer(t), Core(Apply(t, d, |s.core.txs[t].staged[d]|, {}));
    } else if d in s.loading {
      x, m := Attacher(d), AttachDone(d, Nobody);
    } else {
      x, m := Writer(t), Core(OpenDoc(t, d, |s.core.db.RowsOf(d)|));
    }
  }

  lemma ReaderHeadMoves(s: Sys, cap: nat, d: DocId, r: nat) returns (x: Agent, m: Move)
    requires WaitInv(s) && HeadIs(s.queues, d, Reader(r)) && (Free(s.core, cap) || !HeadStuck(s, d))
    ensures NextOf(s, x, m) && Can(s, cap, m)
  {
    MemberOk(s.core.txs, s.readers, s.called, s.queues, d, Reader(r));
    x := Reader(r);
    match s.readers[r].stage
    case Queued => m := ReadLock(r);
    case Serving => m := ReadRelease(r);
    case Holding =>
      if d !in s.core.residents && d in s.loading { x, m := Attacher(d), AttachDone(d, Nobody); }
      else { m := ReadHydrate(r, Nobody); }
  }

  lemma HeadMoves(s: Sys, cap: nat, d: DocId) returns (x: Agent, m: Move)
    requires WaitInv(s) && QueueOf(s.queues, d) != [] && (Free(s.core, cap) || !HeadStuck(s, d))
    ensures NextOf(s, x, m) && Can(s, cap, m)
  {
    match s.queues[d][0]
    case Writer(t) => x, m := WriterHeadMoves(s, cap, d, t);
    case Reader(r) => x, m := ReaderHeadMoves(s, cap, d, r);
    case Attacher(e) =>
      AttachersAreOutside(s, e);
      assert false;
  }

  lemma SomeoneMoves(s: Sys, cap: nat, x: Agent) returns (y: Agent, m: Move)
    requires WaitInv(s) && Present(s, x) && !Deadlocked(s, cap)
    ensures NextOf(s, y, m) && Can(s, cap, m)
  {
    if !Free(s.core, cap) {
      var t :| t in OpenTxs(s.core) && !Caught(s, t);
      if d :| d in s.queues && Writer(t) in s.queues[d] {
        y, m := HeadMoves(s, cap, d);
      } else {
        m := OutsiderMoves(s, cap, t);
        y := Writer(t);
      }
    } else {
      match x
      case Attacher(d) => y, m := x, AttachDone(d, Nobody);
      case Reader(r) => y, m := HeadMoves(s, cap, s.readers[r].d);
      case Writer(t) =>
        if d :| d in s.queues && Writer(t) in s.queues[d] {
          y, m := HeadMoves(s, cap, d);
        } else {
          m := OutsiderMoves(s, cap, t);
          y := x;
        }
    }
  }

  /** Outside a deadlock somebody can take a next step while anybody is there. */
  lemma SomeDispatchAdvances(run: seq<Move>, cap: nat, x: Agent) returns (y: Agent, m: Move)
    requires LegalMoves(START, cap, true, run)
    requires Present(After(START, cap, true, run), x) && !Deadlocked(After(START, cap, true, run), cap)
    ensures NextOf(After(START, cap, true, run), y, m) && Can(After(START, cap, true, run), cap, m)
  {
    RunKeepsWaits(START, cap, run);
    y, m := SomeoneMoves(After(START, cap, true, run), cap, x);
  }
}
