/** Runs that end in a circle, and what rules them out beforehand. */
module SyncDeadlocks {
  import opened DocLog
  import opened SyncProtocol
  import opened SyncWaits
  import opened SyncProgress

  // ---------------------------------------------------------------- reaching a state

  predicate Restarts(m: Move) { m.Core? && m.a.Restart? }

  predicate NoRestart(run: seq<Move>) { forall i :: 0 <= i < |run| ==> !Restarts(run[i]) }

  /** Some run from `s`, without a restart of the process, ends in `z`. */
  ghost predicate Reaches(s: Sys, cap: nat, once: bool, z: Sys) {
    exists run :: RunTo(s, cap, once, run, z)
  }

  predicate RunTo(s: Sys, cap: nat, once: bool, run: seq<Move>, z: Sys) {
    NoRestart(run) && LegalMoves(s, cap, once, run) && After(s, cap, once, run) == z
  }

  lemma Stays(s: Sys, cap: nat, once: bool)
    ensures Reaches(s, cap, once, s)
  {
    assert RunTo(s, cap, once, [], s);
  }

  lemma {:induction false} RunSnoc(s: Sys, cap: nat, once: bool, run: seq<Move>, m: Move)
    requires LegalMoves(s, cap, once, run) && May(After(s, cap, once, run), cap, once, m)
    ensures LegalMoves(s, cap, once, run + [m])
    ensures After(s, cap, once, run + [m]) == Go(After(s, cap, once, run), cap, m)
    decreases |run|
  {
    if run == [] {
      assert [] + [m] == [m] && [m][1..] == [];
    } else {
      assert (run + [m])[0] == run[0] && (run + [m])[1..] == run[1..] + [m];
      RunSnoc(Go(s, cap, run[0]), cap, once, run[1..], m);
    }
  }

  lemma ThenReaches(s: Sys, cap: nat, once: bool, z: Sys, m: Move)
    requires Reaches(s, cap, once, z) && May(z, cap, once, m) && !Restarts(m)
    ensures Reaches(s, cap, once, Go(z, cap, m))
  {
    var run :| RunTo(s, cap, once, run, z);
    RunSnoc(s, cap, once, run, m);
    assert RunTo(s, cap, once, run + [m], Go(z, cap, m));
  }

  // ---------------------------------------------------------------- first come, first served

  /** What one move does to a queue: nothing, a new last, or the head leaves. */
  lemma QueueMoves(s: Sys, cap: nat, m: Move, d: DocId) returns (k: nat, more: seq<Agent>)
    requires Can(s, cap, m) && !Restarts(m)
    ensures k <= |QueueOf(s.queues, d)| && QueueOf(Go(s, cap, m).queues, d) == QueueOf(s.queues, d)[k..] + more
  {
    var q, p := QueueOf(s.queues, d), QueueOf(Go(s, cap, m).queues, d);
    if |p| < |q| {
      k, more := 1, [];
    } else {
      k, more := 0, p[|q|..];
    }
  }

  lemma DropTwice(q: seq<Agent>, j: nat, late: seq<Agent>, k: nat, later: seq<Agent>) returns (n: nat, more: seq<Agent>)
    requires j <= |q| && k <= |q[j..] + late|
    ensures n <= |q| && (q[j..] + late)[k..] + later == q[n..] + more
  {
    if k <= |q| - j {
      n, more := j + k, late + later;
    } else {
      n, more := |q|, late[k - (|q| - j)..] + later;
    }
  }

  /** Along any run a document's queue is what is left of it, in its order, and then newcomers: nobody
      overtakes a waiter. */
  lemma {:induction false} NobodyOvertakes(s: Sys, cap: nat, once: bool, run: seq<Move>, d: DocId)
    returns (k: nat, more: seq<Agent>)
    requires LegalMoves(s, cap, once, run) && NoRestart(run)
    ensures k <= |QueueOf(s.queues, d)|
    ensures QueueOf(After(s, cap, once, run).queues, d) == QueueOf(s.queues, d)[k..] + more
    decreases |run|
  {
    var q := QueueOf(s.queues, d);
    if run == [] {
      k, more := 0, [];
    } else {
      var j, late := QueueMoves(s, cap, run[0], d);
      assert NoRestart(run[1..]) by { assert forall i :: 0 <= i < |run[1..]| ==> run[1..][i] == run[i + 1]; }
      k, more := NobodyOvertakes(Go(s, cap, run[0]), cap, once, run[1..], d);
      k, more := DropTwice(q, j, late, k, more);
    }
  }

  // ---------------------------------------------------------------- one connection

  /** The dispatch is in a circle while it waits for its turn on the document. */
  ghost predicate CaughtOn(s: Sys, cap: nat, t: TxId, d: DocId) {
    Writer(t) in QueueOf(s.queues, d) && exists stuck :: Writer(t) in stuck && Stuck(s, cap, stuck)
  }

  lemma StepKeepsLive(core: State, a: Step)
    requires Enabled(core, a) && !a.Restart?
    ensures core.live <= Do(core, a).live
  {
  }

  lemma LiveGrowsBy(s: Sys, cap: nat, m: Move)
    requires Can(s, cap, m) && !Restarts(m)
    ensures s.core.live <= Go(s, cap, m).core.live
  {
    match m
    case Core(a) => StepKeepsLive(s.core, a);
    case ReadHydrate(r, peek) => StepKeepsLive(s.core, Read(s.readers[r].d, peek));
    case AttachDone(d, peek) => StepKeepsLive(s.core, Attach(d, peek));
    case _ =>
  }

  lemma {:induction false} LiveStays(s: Sys, cap: nat, once: bool, run: seq<Move>)
    requires LegalMoves(s, cap, once, run) && NoRestart(run)
    ensures s.core.live <= After(s, cap, once, run).core.live
    decreases |run|
  {
    if run != [] {
      LiveGrowsBy(s, cap, run[0]);
      assert NoRestart(run[1..]) by { assert forall i :: 0 <= i < |run[1..]| ==> run[1..][i] == run[i + 1]; }
      LiveStays(Go(s, cap, run[0]), cap, once, run[1..]);
    }
  }

  /** A document with a live direct connection stays resident, so nobody waits for its load. */
  lemma LiveIsSafe(s: Sys, cap: nat, z: Sys, t: TxId, d: DocId)
    requires WaitInv(s) && Reaches(s, cap, true, z) && d in s.core.live
    ensures !CaughtOn(z, cap, t, d)
  {
    var run :| RunTo(s, cap, true, run, z);
    RunKeepsWaits(s, cap, run);
    LiveStays(s, cap, true, run);
    if CaughtOn(z, cap, t, d) {
      var stuck :| Writer(t) in stuck && Stuck(z, cap, stuck);
      StuckQueue(z, cap, stuck, d, Writer(t));
      assert false;
    }
  }

  lemma {:induction false} FreshId(ids: set<nat>) returns (r: nat)
    ensures r !in ids
    ensures forall i :: i in ids ==> i < r
    decreases |ids|
  {
    if ids == {} {
      r := 0;
    } else {
      var i :| i in ids;
      var rest := FreshId(ids - {i});
      assert forall j :: j in ids ==> j == i || j in ids - {i};
      r := if i < rest then rest else i + 1;
    }
  }

  /** The only open transaction has not called `transact`, and the document may be unloaded. */
  ghost predicate Exposed(s: Sys, t: TxId, d: DocId) {
    WaitInv(s) && OpenTxs(s.core) == {t} && t !in s.called && d !in s.core.live
  }

  lemma QueuedWriterIsLive(s: Sys, t: TxId, u: TxId, d: DocId)
    requires Orderly(s) && OpenTxs(s.core) == {t} && t !in s.called && WriterOk(s.core.txs, s.called, u, d)
    ensures d in s.core.live
  {
    assert TxOk(s.called, s.core.live, u, s.core.txs[u]);
    assert s.core.txs[u].phase == Open ==> u in OpenTxs(s.core);
  }

  /** Whoever is queued on such a document is a reader that has not loaded it. */
  lemma OnlyReadersQueue(s: Sys, t: TxId, d: DocId, x: Agent)
    requires Exposed(s, t, d) && x in QueueOf(s.queues, d)
    ensures x.Reader? && x.r in s.readers && s.readers[x.r].d == d && s.readers[x.r].stage != Serving
  {
    MemberOk(s.core.txs, s.readers, s.called, s.queues, d, x);
    if x.Writer? {
      QueuedWriterIsLive(s, t, x.t, d);
      assert false;
    }
  }

  lemma TNotQueued(s: Sys, t: TxId, d: DocId)
    requires Exposed(s, t, d)
    ensures !InSome(s.queues, Writer(t))
  {
    forall e | e in s.queues ensures Writer(t) !in s.queues[e] {
      if Writer(t) in s.queues[e] {
        QueuedIsOk(s, t, e);
        assert false;
      }
    }
  }

  /** First the document is unloaded, if it is there. */
  lemma GoCold(s: Sys, t: TxId, d: DocId) returns (z: Sys)
    requires Exposed(s, t, d)
    ensures Reaches(s, 1, true, z) && Exposed(z, t, d) && d !in z.core.residents
  {
    Stays(s, 1, true);
    z := s;
    if d in s.core.residents {
      var m := Core(Unload(d));
      z := Go(s, 1, m);
      MoveKeepsInv(s, 1, m);
      ThenReaches(s, 1, true, s, m);
    }
  }

  /** Exposed, and not resident. */
  ghost predicate Cold(s: Sys, z: Sys, t: TxId, d: DocId) {
    Reaches(s, 1, true, z) && Exposed(z, t, d) && d !in z.core.residents
  }

  /** Then a read is queued, unless one is or a socket loads the document. */
  lemma GetQueued(s: Sys, y: Sys, t: TxId, d: DocId) returns (z: Sys)
    requires Cold(s, y, t, d)
    ensures Cold(s, z, t, d) && (QueueOf(z.queues, d) != [] || d in z.loading)
  {
    z := y;
    if QueueOf(y.queues, d) == [] && d !in y.loading {
      var r := FreshId(y.readers.Keys);
      MoveKeepsInv(y, 1, ReadCall(r, d));
      ThenReaches(s, 1, true, y, ReadCall(r, d));
      z := Go(y, 1, ReadCall(r, d));
    }
  }

  predicate Held(z: Sys, d: DocId) { if QueueOf(z.queues, d) == [] then d in z.loading else HeadStuck(z, d) }

  /** And it takes the lock. */
  lemma GetHeld(s: Sys, y: Sys, t: TxId, d: DocId) returns (z: Sys)
    requires Cold(s, y, t, d) && (QueueOf(y.queues, d) != [] || d in y.loading)
    ensures Cold(s, z, t, d) && Held(z, d)
  {
    z := y;
    if !Held(y, d) {
      var x := QueueOf(y.queues, d)[0];
      OnlyReadersQueue(y, t, d, x);
      MoveKeepsInv(y, 1, ReadLock(x.r));
      ThenReaches(s, 1, true, y, ReadLock(x.r));
      z := Go(y, 1, ReadLock(x.r));
    }
  }

  lemma CallIsCaught(z: Sys, t: TxId, d: DocId)
    requires Exposed(z, t, d) && d !in z.core.residents && May(z, 1, true, Call(t, d))
    requires Held(z, d)
    ensures CaughtOn(Go(z, 1, Call(t, d)), 1, t, d)
  {
    hide Stuck, WaitInv, CaughtSet, Inv;
    var w := Go(z, 1, Call(t, d));
    var q := QueueOf(w.queues, d);
    MoveKeepsInv(z, 1, Call(t, d));
    assert q[|q| - 1] == Writer(t);
    assert HeadStuck(w, d);
    assert OpenTxs(w.core) == {t} && Caught(w, t);
    DeadlockedMeansStuck(w, 1);
  }

  /** On a single connection a dispatch that has just begun can be caught on the document it is going to
      open exactly if that document has no live direct connection yet. */
  lemma CanBeCaughtIff(run: seq<Move>, t: TxId, d: DocId)
    requires LegalMoves(START, 1, true, run) && Can(After(START, 1, true, run), 1, Core(Begin(t)))
    ensures var s := Go(After(START, 1, true, run), 1, Core(Begin(t)));
            (exists z :: Reaches(s, 1, true, z) && CaughtOn(z, 1, t, d)) <==> d !in s.core.live
  {
    var s0 := After(START, 1, true, run);
    var s := Go(s0, 1, Core(Begin(t)));
    RunKeepsWaits(START, 1, run);
    MoveKeepsInv(s0, 1, Core(Begin(t)));
    BegunIsAlone(s0, t);
    if d in s.core.live {
      forall z | Reaches(s, 1, true, z) ensures !CaughtOn(z, 1, t, d) { LiveIsSafe(s, 1, z, t, d); }
    } else {
      var cold := GoCold(s, t, d);
      var queued := GetQueued(s, cold, t, d);
      var held := GetHeld(s, queued, t, d);
      TNotQueued(held, t, d);
      assert t in OpenTxs(held.core);
      CallIsCaught(held, t, d);
      ThenReaches(s, 1, true, held, Call(t, d));
    }
  }

  lemma BegunIsAlone(s: Sys, t: TxId)
    requires Can(s, 1, Core(Begin(t)))
    ensures OpenTxs(Go(s, 1, Core(Begin(t))).core) == {t}
  {
    assert OpenTxs(s.core) == {};
    assert OpenTxs(Go(s, 1, Core(Begin(t))).core) == OpenTxs(s.core) + {t};
  }

  /** Dispatch 0 has begun, and read 0 holds the lock of `d`. */
  lemma ReadGoesFirst(d: DocId) returns (z: Sys)
    ensures Reaches(START, 1, true, z) && OpenTxs(z.core) == {0}
    ensures z == Sys(Do(INIT, Begin(0)), map[d := [Reader(0)]], map[0 := Reading(d, Holding)], {}, map[])
  {
    Stays(START, 1, true);
    BegunIsAlone(START, 0);
    var s1 := Go(START, 1, Core(Begin(0)));
    ThenReaches(START, 1, true, START, Core(Begin(0)));
    var s2 := Go(s1, 1, ReadCall(0, d));
    ThenReaches(START, 1, true, s1, ReadCall(0, d));
    assert [] + [Reader(0)] == [Reader(0)];
    assert s2.queues == map[d := [Reader(0)]];
    ThenReaches(START, 1, true, s2, ReadLock(0));
    z := Go(s2, 1, ReadLock(0));
  }

  /** One read and one write of the same document that nobody has opened yet: the write holds the only
      connection and waits for the lock, the read holds the lock and waits for the connection. */
  lemma ReadAndWriteDeadlock(d: DocId) returns (z: Sys)
    ensures Reaches(START, 1, true, z) && Stuck(z, 1, {Writer(0), Reader(0)})
    ensures z.called == map[0 := d] && z.readers == map[0 := Reading(d, Holding)]
  {
    var s := ReadGoesFirst(d);
    ThenReaches(START, 1, true, s, Call(0, d));
    z := Go(s, 1, Call(0, d));
    assert [Reader(0)] + [Writer(0)] == [Reader(0), Writer(0)];
    assert z.queues == map[d := [Reader(0), Writer(0)]];
    ReadAndWriteStuck(z, d);
  }

  lemma ReadAndWriteStuck(z: Sys, d: DocId)
    requires z.core == Do(INIT, Begin(0)) && OpenTxs(z.core) == {0} && z.loading == {}
    requires z.queues == map[d := [Reader(0), Writer(0)]] && z.readers == map[0 := Reading(d, Holding)]
    ensures Stuck(z, 1, {Writer(0), Reader(0)})
  {
    var stuck := {Writer(0), Reader(0)};
    assert BehindAt(z.queues[d], 1, Writer(0), Reader(0));
    assert 0 in OpenTxs(z.core);
    assert WaitsFor(z, 1, Writer(0), Reader(0)) && WaitsFor(z, 1, Reader(0), Writer(0));
    forall y | WaitsFor(z, 1, Writer(0), y) ensures y in stuck { }
    forall y | WaitsFor(z, 1, Reader(0), y) ensures y in stuck {
      if OpenWriter(z, y) { assert y.t in OpenTxs(z.core); }
    }
    assert StuckAt(z, 1, Writer(0), stuck) && StuckAt(z, 1, Reader(0), stuck);
  }

  // ---------------------------------------------------------------- two transacts per dispatch

  /** Dispatch 1 has persisted and keeps the counter row of `d`; dispatch 2 has cloned `d` under its lock;
      dispatch 1 asks for that lock again. */
  predicate Crossed(z: Sys, d: DocId) {
    && z.core.IsOpen(1) && z.core.IsOpen(2) && OpenTxs(z.core) == {1, 2} && z.core.locks.Keys == {d}
    && d in z.core.txs[1].own.rows && PersistsBehind(z, 2, d)
    && z.queues == map[d := [Writer(2), Writer(1)]] && z.readers == map[] && z.loading == {}
  }

  lemma CrossedIsStuck(z: Sys, cap: nat, d: DocId)
    requires Crossed(z, d)
    ensures Stuck(z, cap, {Writer(1), Writer(2)})
  {
    var stuck := {Writer(1), Writer(2)};
    assert BehindAt(z.queues[d], 1, Writer(1), Writer(2));
    assert WaitsFor(z, cap, Writer(1), Writer(2)) && WaitsFor(z, cap, Writer(2), Writer(1));
    forall x, y | x in stuck && WaitsFor(z, cap, x, y) ensures y in stuck {
      if y.Writer? && z.core.IsOpen(y.t) { assert y.t in OpenTxs(z.core); }
    }
    assert StuckAt(z, cap, Writer(1), stuck) && StuckAt(z, cap, Writer(2), stuck);
  }

  lemma CallsFirst(s: Sys, t: TxId, d: DocId) returns (z: Sys)
    requires Reaches(START, 2, false, s) && Free(s.core, 2) && t !in s.core.txs
    requires QueueOf(s.queues, d) == [] && !InSome(s.queues, Writer(t))
    ensures Reaches(START, 2, false, z) && z.core == Do(s.core, Begin(t))
    ensures z.queues == s.queues[d := [Writer(t)]] && z.readers == s.readers && z.loading == s.loading
  {
    ThenReaches(START, 2, false, s, Core(Begin(t)));
    var s1 := Go(s, 2, Core(Begin(t)));
    ThenReaches(START, 2, false, s1, Call(t, d));
    assert [] + [Writer(t)] == [Writer(t)];
    z := Go(s1, 2, Call(t, d));
  }

  /** A dispatch begins, calls, opens the document and clones it. */
  lemma Clones(s: Sys, t: TxId, d: DocId) returns (z: Sys)
    requires Reaches(START, 2, false, s) && Free(s.core, 2) && t !in s.core.txs && s.core.locks == map[]
    requires QueueOf(s.queues, d) == [] && !InSome(s.queues, Writer(t)) && s.loading == {}
    ensures Reaches(START, 2, false, z) && PersistsBehind(z, t, d) && z.core.locks.Keys == {d}
    ensures z.core.txs == s.core.txs[t := Tx(Open, NOTHING_OWN, map[])] && z.core.db == s.core.db
    ensures z.queues == s.queues[d := [Writer(t)]] && z.readers == s.readers && z.loading == {}
  {
    var called := CallsFirst(s, t, d);
    z := OpensAndClones(called, t, d);
  }

  lemma OpensAndClones(s: Sys, t: TxId, d: DocId) returns (z: Sys)
    requires Reaches(START, 2, false, s) && s.core.IsOpen(t) && s.core.txs[t].own == NOTHING_OWN
    requires s.core.locks == map[] && HeadIs(s.queues, d, Writer(t)) && s.loading == {}
    ensures Reaches(START, 2, false, z) && PersistsBehind(z, t, d) && z.core.locks.Keys == {d}
    ensures z.core.txs == s.core.txs && z.core.db == s.core.db
    ensures z.queues == s.queues && z.readers == s.readers && z.loading == {}
  {
    ThenReaches(START, 2, false, s, Core(OpenDoc(t, d, 0)));
    var mid := Go(s, 2, Core(OpenDoc(t, d, 0)));
    ThenReaches(START, 2, false, mid, Core(CloneDoc(t, d, 0)));
    z := Go(mid, 2, Core(CloneDoc(t, d, 0)));
  }

  lemma FirstPersists(d: DocId) returns (z: Sys)
    ensures Reaches(START, 2, false, z) && z.core.IsOpen(1) && d in z.core.txs[1].own.rows && z.core.txs.Keys == {1}
    ensures OpenTxs(z.core) == {1} && z.core.locks == map[] && z.queues == map[d := []]
    ensures z.readers == map[] && z.loading == {}
  {
    Stays(START, 2, false);
    assert OpenTxs(INIT) == {};
    var s := Clones(START, 1, d);
    var m := Core(Persist(1, d, [{0}]));
    ThenReaches(START, 2, false, s, m);
    z := Go(s, 2, m);
    assert z.core.txs.Keys == {1};
    assert OpenTxs(z.core) == {1};
    assert z.core.locks == map[];
  }

  lemma CallsAgain(s: Sys, d: DocId) returns (z: Sys)
    requires Reaches(START, 2, false, s) && OpenTxs(s.core) == {1, 2} && s.core.locks.Keys == {d}
    requires s.core.IsOpen(1) && d in s.core.txs[1].own.rows && s.core.IsOpen(2) && PersistsBehind(s, 2, d)
    requires s.queues == map[d := [Writer(2)]] && s.readers == map[] && s.loading == {}
    ensures Reaches(START, 2, false, z) && Crossed(z, d)
  {
    ThenReaches(START, 2, false, s, Call(1, d));
    assert [Writer(2)] + [Writer(1)] == [Writer(2), Writer(1)];
    z := Go(s, 2, Call(1, d));
  }

  /** Without the limit of one call, and with a connection for everyone, two dispatches can wait for each
      other: for the document's lock, and for its counter row. */
  lemma TwoTransactsCanDeadlock(d: DocId) returns (z: Sys)
    ensures Reaches(START, 2, false, z) && Stuck(z, 2, {Writer(1), Writer(2)})
  {
    var s := FirstPersists(d);
    var s3 := Clones(s, 2, d);
    assert OpenTxs(s3.core) == {1, 2};
    z := CallsAgain(s3, d);
    CrossedIsStuck(z, 2, d);
  }
}
