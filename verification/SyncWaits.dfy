/** The sync protocol with everything that makes someone wait (packages/sync/src/hocuspocus.ts,
    packages/db/src/doc-updates-writer.ts, packages/db/src/doc-updates-reader.ts): the queue of each
    document's lock, which writes, reads and post-commit applies share, the load of a document that
    others join, the counter rows, and the database connections. Every run is a run of the protocol. */
module SyncWaits {
  import opened DocLog
  import opened SyncProtocol

  /** A write dispatch, a read, or the load of a document for a socket. */
  datatype Agent = Writer(t: TxId) | Reader(r: nat) | Attacher(d: DocId)

  /** A read waits for the lock, holds it while the document loads, and runs `fn` on a clone. */
  datatype Stage = Queued | Holding | Serving

  datatype Reading = Reading(d: DocId, stage: Stage)

  type Queues = map<DocId, seq<Agent>>
  type Readers = map<nat, Reading>
  type Calls = map<TxId, DocId>
  type Txs = map<TxId, Tx>

  /** `queues`: the promise chain of each document, its head first; `loading`: documents a socket is
      loading; `called`: the document of each dispatch's last `transact` or apply. */
  datatype Sys = Sys(
    core: State, queues: Queues, readers: Readers, loading: set<DocId>, called: Calls)

  const START := Sys(INIT, map[], map[], {}, map[])

  function QueueOf(queues: Queues, d: DocId): seq<Agent> { if d in queues then queues[d] else [] }

  predicate HeadIs(queues: Queues, d: DocId, x: Agent) {
    QueueOf(queues, d) != [] && QueueOf(queues, d)[0] == x
  }

  predicate InSome(queues: Queues, x: Agent) { exists d :: d in queues && x in queues[d] }

  function Push(queues: Queues, d: DocId, x: Agent): Queues {
    queues[d := QueueOf(queues, d) + [x]]
  }

  function Pop(queues: Queues, d: DocId): Queues {
    if QueueOf(queues, d) == [] then queues else queues[d := QueueOf(queues, d)[1..]]
  }

  function OpenTxs(core: State): set<TxId> { set t | t in core.txs && core.txs[t].phase == Open }

  /** An open transaction keeps its connection; SQLite has one, a Postgres pool has `poolMax`. */
  predicate Free(core: State, cap: nat) { |OpenTxs(core)| < cap }

  // ---------------------------------------------------------------- moves

  datatype Move =
    | Core(a: Step)
    | Call(t: TxId, d: DocId)
    | CallApply(t: TxId, d: DocId)
    | ReadCall(r: nat, d: DocId)
    | ReadLock(r: nat)
    | ReadHydrate(r: nat, peek: Peek)
    | ReadRelease(r: nat)
    | AttachCall(d: DocId)
    | AttachDone(d: DocId, peek: Peek)

  /** What a step of the protocol waits for beyond the protocol's own guards. */
  predicate CoreCan(s: Sys, cap: nat, a: Step) {
    match a
    case Begin(_) => Free(s.core, cap)
    case OpenDoc(t, d, _) => HeadIs(s.queues, d, Writer(t)) && d !in s.loading
    case Apply(t, d, _, _) => HeadIs(s.queues, d, Writer(t))
    case SqlCommit(t) => !InSome(s.queues, Writer(t))
    case SqlRollback(t) => !InSome(s.queues, Writer(t))
    case Attach(_, _) => false
    case Read(_, _) => false
    case _ => true
  }

  /** A document that is not resident is read through a connection of its own, unless someone is
      loading it already. A handler awaits its `transact`, and applies go one document at a time. */
  predicate Can(s: Sys, cap: nat, m: Move) {
    match m
    case Core(a) => Enabled(s.core, a) && CoreCan(s, cap, a)
    case Call(t, _) => s.core.IsOpen(t) && !InSome(s.queues, Writer(t))
    case CallApply(t, d) =>
      t in s.core.txs && s.core.txs[t].phase == Committed && d in s.core.txs[t].staged && !InSome(s.queues, Writer(t))
    case ReadCall(r, _) => r !in s.readers
    case ReadLock(r) =>
      r in s.readers && s.readers[r].stage == Queued && HeadIs(s.queues, s.readers[r].d, Reader(r))
    case ReadHydrate(r, peek) =>
      r in s.readers && s.readers[r].stage == Holding && Enabled(s.core, Read(s.readers[r].d, peek)) &&
      (s.readers[r].d in s.core.residents || (s.readers[r].d !in s.loading && Free(s.core, cap)))
    case ReadRelease(r) => r in s.readers && s.readers[r].stage != Queued
    case AttachCall(d) => d !in s.core.residents && d !in s.loading && !ReadHeld(s, d)
    case AttachDone(d, peek) => d in s.loading && Enabled(s.core, Attach(d, peek)) && Free(s.core, cap)
  }

  predicate ReadHeld(s: Sys, d: DocId) { exists r :: r in s.readers && s.readers[r] == Reading(d, Holding) }

  function CoreGo(s: Sys, a: Step): Sys
    requires Enabled(s.core, a)
  {
    var next := s.(core := Do(s.core, a));
    match a
    case Begin(t) => next.(called := s.called - {t})
    case Persist(_, d, _) => next.(queues := Pop(s.queues, d))
    case FnThrows(_, d) => next.(queues := Pop(s.queues, d))
    case Apply(_, d, _, _) => next.(queues := Pop(s.queues, d))
    case Restart => START.(core := Do(s.core, a))
    case _ => next
  }

  function Go(s: Sys, cap: nat, m: Move): Sys
    requires Can(s, cap, m)
  {
    match m
    case Core(a) => CoreGo(s, a)
    case Call(t, d) => s.(queues := Push(s.queues, d, Writer(t)), called := s.called[t := d])
    case CallApply(t, d) => s.(queues := Push(s.queues, d, Writer(t)), called := s.called[t := d])
    case ReadCall(r, d) => s.(queues := Push(s.queues, d, Reader(r)), readers := s.readers[r := Reading(d, Queued)])
    case ReadLock(r) => s.(readers := s.readers[r := s.readers[r].(stage := Holding)])
    case ReadHydrate(r, peek) =>
      s.(core := Do(s.core, Read(s.readers[r].d, peek)), readers := s.readers[r := s.readers[r].(stage := Serving)])
    case ReadRelease(r) => s.(queues := Pop(s.queues, s.readers[r].d), readers := s.readers - {r})
    case AttachCall(d) => s.(loading := s.loading + {d})
    case AttachDone(d, peek) => s.(core := Do(s.core, Attach(d, peek)), loading := s.loading - {d})
  }

  /** With `once`, a dispatch calls `transact` at most once. */
  predicate May(s: Sys, cap: nat, once: bool, m: Move) { Can(s, cap, m) && (once && m.Call? ==> m.t !in s.called) }

  predicate LegalMoves(s: Sys, cap: nat, once: bool, run: seq<Move>)
    decreases |run|
  {
    run == [] || (May(s, cap, once, run[0]) && LegalMoves(Go(s, cap, run[0]), cap, once, run[1..]))
  }

  function After(s: Sys, cap: nat, once: bool, run: seq<Move>): Sys
    requires LegalMoves(s, cap, once, run)
    decreases |run|
  {
    if run == [] then s else After(Go(s, cap, run[0]), cap, once, run[1..])
  }

  // ---------------------------------------------------------------- every run is a run of the protocol

  function StepsOf(s: Sys, m: Move): seq<Step> {
    match m
    case Core(a) => [a]
    case ReadHydrate(r, peek) => if r in s.readers then [Read(s.readers[r].d, peek)] else []
    case AttachDone(d, peek) => [Attach(d, peek)]
    case _ => []
  }

  function AllSteps(s: Sys, cap: nat, once: bool, run: seq<Move>): seq<Step>
    requires LegalMoves(s, cap, once, run)
    decreases |run|
  {
    if run == [] then [] else StepsOf(s, run[0]) + AllSteps(Go(s, cap, run[0]), cap, once, run[1..])
  }

  lemma MoveRefines(s: Sys, cap: nat, m: Move, rest: seq<Step>)
    requires Can(s, cap, m) && Legal(Go(s, cap, m).core, rest)
    ensures Legal(s.core, StepsOf(s, m) + rest) && Exec(s.core, StepsOf(s, m) + rest) == Exec(Go(s, cap, m).core, rest)
  {
    var steps := StepsOf(s, m);
    if steps == [] {
      assert [] + rest == rest;
    } else {
      assert (steps + rest)[0] == steps[0] && (steps + rest)[1..] == rest;
    }
  }

  /** Whatever waits there are, the protocol's theorems hold of what happens. */
  lemma {:induction false} RunsRefine(s: Sys, cap: nat, once: bool, run: seq<Move>)
    requires LegalMoves(s, cap, once, run)
    ensures Legal(s.core, AllSteps(s, cap, once, run))
    ensures Exec(s.core, AllSteps(s, cap, once, run)) == After(s, cap, once, run).core
    decreases |run|
  {
    if run != [] {
      var next := Go(s, cap, run[0]);
      RunsRefine(next, cap, once, run[1..]);
      MoveRefines(s, cap, run[0], AllSteps(next, cap, once, run[1..]));
    }
  }

  // ---------------------------------------------------------------- invariant

  predicate NoDups(q: seq<Agent>) { forall i, j :: 0 <= i < j < |q| ==> q[i] != q[j] }

  /** A queued dispatch is on its one call: it has written nothing yet, or it applies what it staged. */
  predicate WriterOk(txs: Txs, called: Calls, t: TxId, d: DocId) {
    t in txs && t in called && called[t] == d &&
    if txs[t].phase == Open then txs[t].own.rows == map[] else d in txs[t].staged
  }

  /** Only the head of a queue may be past waiting. */
  predicate AgentOk(txs: Txs, readers: Readers, called: Calls, d: DocId, x: Agent, head: bool) {
    match x
    case Writer(t) => WriterOk(txs, called, t, d)
    case Reader(r) => r in readers && readers[r].d == d && (!head ==> readers[r].stage == Queued)
    case Attacher(_) => false
  }

  predicate QueueOk(txs: Txs, readers: Readers, called: Calls, d: DocId, q: seq<Agent>) {
    NoDups(q) && forall i :: 0 <= i < |q| ==> AgentOk(txs, readers, called, d, q[i], i == 0)
  }

  ghost predicate QueuesOk(txs: Txs, readers: Readers, called: Calls,
                           queues: Queues)
  {
    forall d :: d in queues ==> QueueOk(txs, readers, called, d, queues[d])
  }

  ghost predicate ReadersOk(queues: Queues, readers: Readers, live: set<DocId>) {
    forall r :: r in readers ==>
      Reader(r) in QueueOf(queues, readers[r].d) && (readers[r].stage == Serving ==> readers[r].d in live)
  }

  ghost predicate LocksOk(queues: Queues, locks: map<DocId, Holder>) {
    forall d :: d in locks ==> HeadIs(queues, d, Writer(locks[d].tx))
  }

  predicate TxOk(called: Calls, live: set<DocId>, t: TxId, tx: Tx) {
    if tx.phase == Open then tx.own.rows != map[] ==> t in called else tx.staged.Keys <= live
  }

  ghost predicate TxsOk(txs: Txs, called: Calls, live: set<DocId>) {
    forall t :: t in txs ==> TxOk(called, live, t, txs[t])
  }

  ghost predicate Orderly(s: Sys) {
    && s.loading !! s.core.residents.Keys
    && QueuesOk(s.core.txs, s.readers, s.called, s.queues) && ReadersOk(s.queues, s.readers, s.core.live)
    && LocksOk(s.queues, s.core.locks) && TxsOk(s.core.txs, s.called, s.core.live)
  }

  ghost predicate WaitInv(s: Sys) { Inv(s.core) && Orderly(s) }

  // ---------------------------------------------------------------- queues

  /** The records of everyone but `x` are the same. */
  ghost predicate SameBut(x: Agent, txs: Txs, readers: Readers, called: Calls,
                          txs': Txs, readers': Readers, called': Calls)
  {
    && (forall t :: Writer(t) != x && t in txs ==> t in txs' && txs'[t] == txs[t])
    && (forall t :: Writer(t) != x && t in called ==> t in called' && called'[t] == called[t])
    && (forall r :: Reader(r) != x && r in readers ==> r in readers' && readers'[r] == readers[r])
  }

  lemma QueuesFrame(x: Agent, txs: Txs, readers: Readers, called: Calls,
                    txs': Txs, readers': Readers, called': Calls,
                    queues: Queues)
    requires QueuesOk(txs, readers, called, queues) && !InSome(queues, x)
    requires SameBut(x, txs, readers, called, txs', readers', called')
    ensures QueuesOk(txs', readers', called', queues)
  {
    forall d | d in queues ensures QueueOk(txs', readers', called', d, queues[d]) {
      var q := queues[d];
      assert QueueOk(txs, readers, called, d, q);
      forall i | 0 <= i < |q| ensures AgentOk(txs', readers', called', d, q[i], i == 0) {
        assert AgentOk(txs, readers, called, d, q[i], i == 0) && q[i] in q;
      }
    }
  }

  lemma PushKeeps(x: Agent, txs: Txs, readers: Readers, called: Calls,
                  readers': Readers, called': Calls, queues: Queues, d: DocId)
    requires QueuesOk(txs, readers, called, queues) && !InSome(queues, x)
    requires SameBut(x, txs, readers, called, txs, readers', called')
    requires AgentOk(txs, readers', called', d, x, false)
    ensures QueuesOk(txs, readers', called', Push(queues, d, x))
  {
    QueuesFrame(x, txs, readers, called, txs, readers', called', queues);
    var q := QueueOf(queues, d);
    assert x !in q;
    var p := q + [x];
    forall i | 0 <= i < |p| ensures AgentOk(txs, readers', called', d, p[i], i == 0) {
      if i < |q| { assert p[i] == q[i] && AgentOk(txs, readers', called', d, q[i], i == 0); }
    }
    assert QueueOk(txs, readers', called', d, p);
  }

  /** The head leaves, and is in no queue then. */
  lemma PopKeeps(txs: Txs, readers: Readers, called: Calls, queues: Queues,
                 d: DocId, x: Agent)
    requires QueuesOk(txs, readers, called, queues) && HeadIs(queues, d, x)
    ensures QueuesOk(txs, readers, called, Pop(queues, d)) && !InSome(Pop(queues, d), x)
  {
    var q := queues[d];
    assert QueueOk(txs, readers, called, d, q);
    assert forall i :: 0 <= i < |q[1..]| ==> q[1..][i] == q[i + 1];
    forall i | 0 <= i < |q[1..]| ensures AgentOk(txs, readers, called, d, q[1..][i], i == 0) {
      assert AgentOk(txs, readers, called, d, q[i + 1], false);
    }
    assert QueueOk(txs, readers, called, d, q[1..]);
    forall e | e in queues && e != d ensures x !in queues[e] {
      if x in queues[e] { OneQueue(txs, readers, called, queues, d, e, x); }
    }
  }

  lemma MemberOk(txs: Txs, readers: Readers, called: Calls, queues: Queues,
                 d: DocId, x: Agent)
    requires QueuesOk(txs, readers, called, queues) && d in queues && x in queues[d]
    ensures AgentOk(txs, readers, called, d, x, true)
  {
    var i :| 0 <= i < |queues[d]| && queues[d][i] == x;
    assert QueueOk(txs, readers, called, d, queues[d]) && AgentOk(txs, readers, called, d, queues[d][i], i == 0);
  }

  /** Nobody is in two queues. */
  lemma OneQueue(txs: Txs, readers: Readers, called: Calls, queues: Queues,
                 d: DocId, e: DocId, x: Agent)
    requires QueuesOk(txs, readers, called, queues) && d in queues && e in queues && x in queues[d] && x in queues[e]
    ensures d == e
  {
    MemberOk(txs, readers, called, queues, d, x);
    MemberOk(txs, readers, called, queues, e, x);
  }

  lemma HeadsStayRead(queues: Queues, readers: Readers, live: set<DocId>, d: DocId, x: Agent)
    requires ReadersOk(queues, readers, live) && HeadIs(queues, d, x)
    ensures forall r :: r in readers && Reader(r) != x ==> Reader(r) in QueueOf(Pop(queues, d), readers[r].d)
  {
    var q := queues[d];
    assert q == [x] + q[1..];
  }

  lemma PushKeepsOthers(queues: Queues, readers: Readers, live: set<DocId>,
                        locks: map<DocId, Holder>, d: DocId, x: Agent)
    requires ReadersOk(queues, readers, live) && LocksOk(queues, locks)
    ensures ReadersOk(Push(queues, d, x), readers, live) && LocksOk(Push(queues, d, x), locks)
    ensures x in QueueOf(Push(queues, d, x), d)
  {
    var p := Push(queues, d, x)[d];
    assert p[|p| - 1] == x;
    forall r | r in readers ensures Reader(r) in QueueOf(Push(queues, d, x), readers[r].d) {
      assert Reader(r) in QueueOf(queues, readers[r].d);
    }
  }

  // ---------------------------------------------------------------- one move

  /** A dispatch that is not queued changes: it begins, commits, rolls back or is finished. */
  lemma TxMoveKeeps(s: Sys, core: State, called: Calls, t: TxId)
    requires Orderly(s) && !InSome(s.queues, Writer(t))
    requires core.locks == s.core.locks && core.live == s.core.live && core.residents == s.core.residents
    requires forall u :: u != t && u in s.core.txs ==> u in core.txs && core.txs[u] == s.core.txs[u]
    requires forall u :: u != t && u in core.txs ==> u in s.core.txs
    requires forall u :: u != t && u in s.called ==> u in called && called[u] == s.called[u]
    requires t in core.txs ==> TxOk(called, core.live, t, core.txs[t])
    ensures Orderly(s.(core := core, called := called))
  {
    QueuesFrame(Writer(t), s.core.txs, s.readers, s.called, core.txs, s.readers, called, s.queues);
    forall u | u in core.txs ensures TxOk(called, core.live, u, core.txs[u]) {
      if u != t { assert TxOk(s.called, s.core.live, u, s.core.txs[u]); }
    }
  }

  lemma PopKeepsLocks(queues: Queues, locks: map<DocId, Holder>, d: DocId)
    requires LocksOk(queues, locks)
    ensures LocksOk(Pop(queues, d), locks - {d})
  {
    forall e | e in locks - {d} ensures HeadIs(Pop(queues, d), e, Writer(locks[e].tx)) {
      assert HeadIs(queues, e, Writer(locks[e].tx));
    }
  }

  lemma PopKeepsReaders(queues: Queues, readers: Readers, live: set<DocId>, d: DocId, t: TxId)
    requires ReadersOk(queues, readers, live) && HeadIs(queues, d, Writer(t))
    ensures ReadersOk(Pop(queues, d), readers, live)
  {
    HeadsStayRead(queues, readers, live, d, Writer(t));
  }

  lemma TxsFrame(txs: Txs, called: Calls, live: set<DocId>, txs': Txs, t: TxId)
    requires TxsOk(txs, called, live) && txs'.Keys == txs.Keys && t in txs
    requires forall u :: u != t && u in txs ==> txs'[u] == txs[u]
    requires TxOk(called, live, t, txs'[t])
    ensures TxsOk(txs', called, live)
  {
    forall u | u in txs' ensures TxOk(called, live, u, txs'[u]) {
      if u != t { assert TxOk(called, live, u, txs[u]); }
    }
  }

  /** The dispatch at the head of a queue is done with the document. */
  lemma ReleaseKeeps(s: Sys, core: State, t: TxId, d: DocId)
    requires Orderly(s) && HeadIs(s.queues, d, Writer(t))
    requires core.locks == s.core.locks - {d} && core.live == s.core.live
    requires core.residents.Keys == s.core.residents.Keys
    requires core.txs.Keys == s.core.txs.Keys && forall u :: u != t && u in s.core.txs ==> core.txs[u] == s.core.txs[u]
    requires t in core.txs && TxOk(s.called, core.live, t, core.txs[t])
    ensures Orderly(s.(core := core, queues := Pop(s.queues, d)))
  {
    PopKeeps(s.core.txs, s.readers, s.called, s.queues, d, Writer(t));
    QueuesFrame(Writer(t), s.core.txs, s.readers, s.called, core.txs, s.readers, s.called, Pop(s.queues, d));
    PopKeepsReaders(s.queues, s.readers, s.core.live, d, t);
    PopKeepsLocks(s.queues, s.core.locks, d);
    TxsFrame(s.core.txs, s.called, s.core.live, core.txs, t);
  }

  /** Residents and locks change, and no dispatch does. */
  lemma LoadKeeps(s: Sys, core: State, loading: set<DocId>)
    requires Orderly(s) && core.txs == s.core.txs && s.core.live <= core.live
    requires loading !! core.residents.Keys && LocksOk(s.queues, core.locks)
    ensures Orderly(s.(core := core, loading := loading))
  {
    forall t | t in core.txs ensures TxOk(s.called, core.live, t, core.txs[t]) {
      assert TxOk(s.called, s.core.live, t, s.core.txs[t]);
    }
    forall r | r in s.readers ensures s.readers[r].stage == Serving ==> s.readers[r].d in core.live {
      assert Reader(r) in QueueOf(s.queues, s.readers[r].d);
    }
  }

  lemma CallKeeps(s: Sys, t: TxId, d: DocId)
    requires Orderly(s) && t in s.core.txs && !InSome(s.queues, Writer(t))
    requires if s.core.txs[t].phase == Open then t !in s.called else d in s.core.txs[t].staged
    ensures Orderly(s.(queues := Push(s.queues, d, Writer(t)), called := s.called[t := d]))
  {
    var called := s.called[t := d];
    assert TxOk(s.called, s.core.live, t, s.core.txs[t]);
    PushKeeps(Writer(t), s.core.txs, s.readers, s.called, s.readers, called, s.queues, d);
    PushKeepsOthers(s.queues, s.readers, s.core.live, s.core.locks, d, Writer(t));
    forall u | u in s.core.txs ensures TxOk(called, s.core.live, u, s.core.txs[u]) {
      assert TxOk(s.called, s.core.live, u, s.core.txs[u]);
    }
  }

  lemma NewReaderIsNew(queues: Queues, txs: Txs, readers: Readers,
                       called: Calls, r: nat)
    requires QueuesOk(txs, readers, called, queues) && r !in readers
    ensures !InSome(queues, Reader(r))
  {
    forall d | d in queues ensures Reader(r) !in queues[d] {
      if Reader(r) in queues[d] {
        MemberOk(txs, readers, called, queues, d, Reader(r));
        assert false;
      }
    }
  }

  lemma ReadCallKeeps(s: Sys, r: nat, d: DocId)
    requires Orderly(s) && r !in s.readers
    ensures Orderly(s.(queues := Push(s.queues, d, Reader(r)), readers := s.readers[r := Reading(d, Queued)]))
  {
    var readers := s.readers[r := Reading(d, Queued)];
    NewReaderIsNew(s.queues, s.core.txs, s.readers, s.called, r);
    PushKeeps(Reader(r), s.core.txs, s.readers, s.called, readers, s.called, s.queues, d);
    PushKeepsOthers(s.queues, s.readers, s.core.live, s.core.locks, d, Reader(r));
  }

  /** The head reader moves on. */
  lemma PromoteKeeps(txs: Txs, readers: Readers, called: Calls,
                     queues: Queues, r: nat, stage: Stage)
    requires QueuesOk(txs, readers, called, queues) && r in readers && HeadIs(queues, readers[r].d, Reader(r))
    ensures QueuesOk(txs, readers[r := readers[r].(stage := stage)], called, queues)
  {
    var readers' := readers[r := readers[r].(stage := stage)];
    forall d | d in queues ensures QueueOk(txs, readers', called, d, queues[d]) {
      var q := queues[d];
      assert QueueOk(txs, readers, called, d, q);
      forall i | 0 <= i < |q| ensures AgentOk(txs, readers', called, d, q[i], i == 0) {
        assert AgentOk(txs, readers, called, d, q[i], i == 0);
        if q[i] == Reader(r) && i > 0 { assert false; }
      }
    }
  }

  /** A reader past waiting is the head of its queue. */
  lemma HolderIsHead(s: Sys, r: nat)
    requires Orderly(s) && r in s.readers && s.readers[r].stage != Queued
    ensures HeadIs(s.queues, s.readers[r].d, Reader(r))
  {
    var d := s.readers[r].d;
    var q := QueueOf(s.queues, d);
    assert Reader(r) in q;
    var i :| 0 <= i < |q| && q[i] == Reader(r);
    assert QueueOk(s.core.txs, s.readers, s.called, d, q);
    assert AgentOk(s.core.txs, s.readers, s.called, d, q[i], i == 0);
  }

  lemma ReadLockKeeps(s: Sys, r: nat)
    requires Orderly(s) && r in s.readers && HeadIs(s.queues, s.readers[r].d, Reader(r))
    ensures Orderly(s.(readers := s.readers[r := s.readers[r].(stage := Holding)]))
  {
    PromoteKeeps(s.core.txs, s.readers, s.called, s.queues, r, Holding);
  }

  lemma ReadHydrateKeeps(s: Sys, cap: nat, r: nat, peek: Peek)
    requires Orderly(s) && Can(s, cap, ReadHydrate(r, peek))
    ensures Orderly(Go(s, cap, ReadHydrate(r, peek)))
  {
    var d := s.readers[r].d;
    var core := Do(s.core, Read(d, peek));
    HolderIsHead(s, r);
    LoadKeeps(s, core, s.loading);
    PromoteKeeps(core.txs, s.readers, s.called, s.queues, r, Serving);
  }

  lemma ReadReleaseKeeps(s: Sys, r: nat)
    requires Orderly(s) && r in s.readers && s.readers[r].stage != Queued
    ensures Orderly(s.(queues := Pop(s.queues, s.readers[r].d), readers := s.readers - {r}))
  {
    var d, readers := s.readers[r].d, s.readers - {r};
    HolderIsHead(s, r);
    PopKeeps(s.core.txs, s.readers, s.called, s.queues, d, Reader(r));
    QueuesFrame(Reader(r), s.core.txs, s.readers, s.called, s.core.txs, readers, s.called, Pop(s.queues, d));
    HeadsStayRead(s.queues, s.readers, s.core.live, d, Reader(r));
    PopKeepsLocks(s.queues, s.core.locks, d);
    assert s.core.locks - {d} == s.core.locks;
  }

  lemma NotQueued(s: Sys, t: TxId)
    requires Orderly(s) && (t !in s.core.txs || (s.core.txs[t].phase == Committed && s.core.txs[t].staged == map[]))
    ensures !InSome(s.queues, Writer(t))
  {
    forall d | d in s.queues ensures Writer(t) !in s.queues[d] {
      if Writer(t) in s.queues[d] {
        MemberOk(s.core.txs, s.readers, s.called, s.queues, d, Writer(t));
        assert false;
      }
    }
  }

  lemma CommitMoveKeeps(s: Sys, t: TxId)
    requires Inv(s.core) && Orderly(s) && Enabled(s.core, SqlCommit(t)) && !InSome(s.queues, Writer(t))
    ensures Orderly(s.(core := Do(s.core, SqlCommit(t))))
  {
    assert TxInv(s.core.db, s.core.live, s.core.txs[t]);
    TxMoveKeeps(s, Do(s.core, SqlCommit(t)), s.called, t);
  }

  predicate OfOneTx(a: Step) { a.Begin? || a.SqlCommit? || a.SqlRollback? || a.Finish? }

  lemma TxStepKeeps(s: Sys, cap: nat, a: Step)
    requires Inv(s.core) && Orderly(s) && Can(s, cap, Core(a)) && OfOneTx(a)
    ensures Orderly(CoreGo(s, a))
  {
    match a
    case Begin(t) =>
      NotQueued(s, t);
      TxMoveKeeps(s, Do(s.core, a), s.called - {t}, t);
    case SqlCommit(t) => CommitMoveKeeps(s, t);
    case SqlRollback(t) => TxMoveKeeps(s, Do(s.core, a), s.called, t);
    case Finish(t) =>
      NotQueued(s, t);
      TxMoveKeeps(s, Do(s.core, a), s.called, t);
  }

  predicate Releases(a: Step) { a.Persist? || a.FnThrows? || a.Apply? }

  lemma PersistMoveKeeps(s: Sys, t: TxId, d: DocId, updates: seq<Blob>)
    requires Inv(s.core) && Orderly(s) && Enabled(s.core, Persist(t, d, updates))
    ensures Orderly(CoreGo(s, Persist(t, d, updates)))
  {
    assert HeadIs(s.queues, d, Writer(t));
    QueuedIsOk(s, t, d);
    ReleaseKeeps(s, Do(s.core, Persist(t, d, updates)), t, d);
  }

  lemma ThrowMoveKeeps(s: Sys, t: TxId, d: DocId)
    requires Inv(s.core) && Orderly(s) && Enabled(s.core, FnThrows(t, d))
    ensures Orderly(CoreGo(s, FnThrows(t, d)))
  {
    assert HeadIs(s.queues, d, Writer(t));
    QueuedIsOk(s, t, d);
    assert TxOk(s.called, s.core.live, t, s.core.txs[t]);
    ReleaseKeeps(s, Do(s.core, FnThrows(t, d)), t, d);
  }

  lemma ApplyMoveKeeps(s: Sys, t: TxId, d: DocId, done: nat, partial: Blob)
    requires Orderly(s) && Enabled(s.core, Apply(t, d, done, partial)) && HeadIs(s.queues, d, Writer(t))
    ensures Orderly(CoreGo(s, Apply(t, d, done, partial)))
  {
    assert TxOk(s.called, s.core.live, t, s.core.txs[t]);
    assert s.core.locks - {d} == s.core.locks;
    ReleaseKeeps(s, Do(s.core, Apply(t, d, done, partial)), t, d);
  }

  lemma ReleaseStepKeeps(s: Sys, cap: nat, a: Step)
    requires Inv(s.core) && Orderly(s) && Can(s, cap, Core(a)) && Releases(a)
    ensures Orderly(CoreGo(s, a))
  {
    match a
    case Persist(t, d, updates) => PersistMoveKeeps(s, t, d, updates);
    case FnThrows(t, d) => ThrowMoveKeeps(s, t, d);
    case Apply(t, d, done, partial) => ApplyMoveKeeps(s, t, d, done, partial);
  }

  lemma QueuedIsOk(s: Sys, t: TxId, d: DocId)
    requires Orderly(s) && Writer(t) in QueueOf(s.queues, d)
    ensures WriterOk(s.core.txs, s.called, t, d)
  {
    MemberOk(s.core.txs, s.readers, s.called, s.queues, d, Writer(t));
  }

  lemma OpenMoveKeeps(s: Sys, cap: nat, t: TxId, d: DocId, view: nat)
    requires Orderly(s) && Can(s, cap, Core(OpenDoc(t, d, view)))
    ensures Orderly(CoreGo(s, OpenDoc(t, d, view)))
  {
    LoadKeeps(s, Do(s.core, OpenDoc(t, d, view)), s.loading);
  }

  lemma OtherStepKeeps(s: Sys, cap: nat, a: Step)
    requires Orderly(s) && Can(s, cap, Core(a)) && (a.CloneDoc? || a.Unload? || a.NativeApply?)
    ensures Orderly(CoreGo(s, a))
  {
    forall d | d in Do(s.core, a).locks ensures HeadIs(s.queues, d, Writer(Do(s.core, a).locks[d].tx)) {
      assert HeadIs(s.queues, d, Writer(s.core.locks[d].tx));
    }
    LoadKeeps(s, Do(s.core, a), s.loading);
  }

  lemma CoreStepKeeps(s: Sys, cap: nat, a: Step)
    requires Inv(s.core) && Orderly(s) && Can(s, cap, Core(a))
    ensures Orderly(CoreGo(s, a))
  {
    if OfOneTx(a) { TxStepKeeps(s, cap, a); }
    else if Releases(a) { ReleaseStepKeeps(s, cap, a); }
    else if a.OpenDoc? { OpenMoveKeeps(s, cap, a.t, a.d, a.view); }
    else if !a.Restart? { OtherStepKeeps(s, cap, a); }
  }

  lemma CoreInvKept(s: Sys, cap: nat, m: Move)
    requires Inv(s.core) && Can(s, cap, m)
    ensures Inv(Go(s, cap, m).core)
  {
    match m
    case Core(a) => StepKeepsInv(s.core, a);
    case ReadHydrate(r, peek) => StepKeepsInv(s.core, Read(s.readers[r].d, peek));
    case AttachDone(d, peek) => StepKeepsInv(s.core, Attach(d, peek));
    case _ =>
  }

  /** With one call per dispatch every move keeps the invariant. */
  lemma MoveKeepsInv(s: Sys, cap: nat, m: Move)
    requires WaitInv(s) && May(s, cap, true, m)
    ensures WaitInv(Go(s, cap, m))
  {
    CoreInvKept(s, cap, m);
    match m
    case Core(a) => CoreStepKeeps(s, cap, a);
    case Call(t, d) => CallKeeps(s, t, d);
    case CallApply(t, d) => CallKeeps(s, t, d);
    case ReadCall(r, d) => ReadCallKeeps(s, r, d);
    case ReadLock(r) => ReadLockKeeps(s, r);
    case ReadHydrate(r, peek) => ReadHydrateKeeps(s, cap, r, peek);
    case ReadRelease(r) => ReadReleaseKeeps(s, r);
    case AttachCall(d) => LoadKeeps(s, s.core, s.loading + {d});
    case AttachDone(d, peek) => LoadKeeps(s, Do(s.core, Attach(d, peek)), s.loading - {d});
  }

  lemma {:induction false} RunKeepsWaits(s: Sys, cap: nat, run: seq<Move>)
    requires WaitInv(s) && LegalMoves(s, cap, true, run)
    ensures WaitInv(After(s, cap, true, run))
    decreases |run|
  {
    if run != [] {
      MoveKeepsInv(s, cap, run[0]);
      RunKeepsWaits(Go(s, cap, run[0]), cap, run[1..]);
    }
  }
}
