/** The socket gate over the sync protocol itself (packages/sync/src/collab-gate.ts with
    packages/sync/src/hocuspocus.ts). A policy that succeeds has committed the update; the apply behind
    its commit may be late or fail, and then the native apply adds the update past the watermark. */
module GateOverSync {
  import opened Options
  import opened DocLog
  import opened CollabGate
  import M = SyncModel
  import P = SyncProtocol
  import T = SyncTheorems

  /** `stale` is what the document object of a closed connection holds once it is unloaded. */
  datatype Joint = Joint(
    chains: map<Conn, nat>, promises: seq<Promise>, native: set<nat>,
    core: P.State, open: set<Conn>, gone: set<Conn>, stale: map<Conn, Blob>)

  const START_JOINT := Joint(map[], [], {}, P.INIT, {}, {}, map[])

  /** What the log holds of a document. */
  function Logged(core: P.State, d: DocId): Blob { Deltas(core.db.RowsOf(d)) }

  /** What a connection's document object holds. */
  function Seen(j: Joint, c: Conn): Blob {
    if c in j.stale then j.stale[c] else if c.doc in j.core.residents then j.core.residents[c.doc].doc else {}
  }

  datatype JointStep =
    | Arrival(conn: Conn, frame: Frame)
    | Gate(i: nat)
    | Latch(i: nat)
    | PolicyPasses(i: nat)
    | PolicyRefuses(i: nat)
    | Native(i: nat)
    | Connect(conn: Conn)
    | Disconnect(conn: Conn)
    | Sync(a: P.Step)

  /** The protocol's own steps; a document is not unloaded under an open connection. */
  predicate SyncCan(j: Joint, a: P.Step) {
    P.Enabled(j.core, a) && !a.NativeApply? && (a.Unload? ==> forall c :: c in j.open ==> c.doc != a.d)
  }

  predicate JointCan(j: Joint, a: JointStep) {
    match a
    case Arrival(conn, _) => conn in j.open
    case Gate(i) =>
      i < |j.promises| && j.promises[i].status.Waiting? &&
      (j.promises[i].prev.Some? ==>
        var k := j.promises[i].prev.value; k < |j.promises| && j.promises[k].status.Resolved? && k in j.native)
    case Latch(i) =>
      i < |j.promises| && j.promises[i].status.Waiting? && j.promises[i].prev.Some? &&
      var k := j.promises[i].prev.value; k < |j.promises| && j.promises[k].status.Rejected?
    case PolicyPasses(i) =>
      i < |j.promises| && j.promises[i].status.Running? &&
      j.promises[i].status.update <= Logged(j.core, j.promises[i].conn.doc)
    case PolicyRefuses(i) => i < |j.promises| && j.promises[i].status.Running?
    case Native(i) => i < |j.promises| && j.promises[i].status.Resolved? && i !in j.native
    case Connect(conn) => conn !in j.open && conn !in j.gone && conn.doc in j.core.residents
    case Disconnect(conn) => conn in j.open
    case Sync(a) => SyncCan(j, a)
  }

  function BodyOver(j: Joint, p: Promise): Status {
    match Classify(p.frame)
    case Pass => Resolved
    case Refuse => Rejected
    case Bears(u) => if p.conn.readOnly || u <= Seen(j, p.conn) then Resolved else Running(u)
  }

  /** The native receiver merges whatever the frame bears into its connection's document object. */
  function Merged(j: Joint, c: Conn, delta: Blob): Joint {
    if c in j.stale then j.(stale := j.stale[c := j.stale[c] + delta])
    else if c.doc in j.core.residents then j.(core := P.Grown(j.core, c.doc, delta))
    else j
  }

  function Synced(j: Joint, a: P.Step): Joint
    requires P.Enabled(j.core, a)
  {
    if a.Restart? then START_JOINT.(core := P.Do(j.core, a))
    else if a.Unload? then
      j.(core := P.Do(j.core, a), stale := map c | c in j.gone && (c in j.stale || c.doc == a.d) :: Seen(j, c))
    else j.(core := P.Do(j.core, a))
  }

  function JointDo(j: Joint, a: JointStep): Joint
    requires JointCan(j, a)
  {
    match a
    case Arrival(conn, frame) =>
      j.(promises := Chained(j.chains, j.promises, conn, frame), chains := j.chains[conn := |j.promises|])
    case Gate(i) => j.(promises := SetStatus(j.promises, i, BodyOver(j, j.promises[i])))
    case Latch(i) => j.(promises := SetStatus(j.promises, i, Rejected))
    case PolicyPasses(i) => j.(promises := SetStatus(j.promises, i, Resolved))
    case PolicyRefuses(i) => j.(promises := SetStatus(j.promises, i, Rejected))
    case Native(i) => Merged(j.(native := j.native + {i}), j.promises[i].conn, NativeUpdate(j.promises[i]))
    case Connect(conn) => j.(open := j.open + {conn})
    case Disconnect(conn) => j.(open := j.open - {conn}, gone := j.gone + {conn})
    case Sync(a) => Synced(j, a)
  }

  /** Over the protocol, too, the policy is asked exactly about a novel update on a writable connection. */
  lemma GateDecidesOver(j: Joint, i: nat)
    requires JointCan(j, Gate(i))
    ensures var p, j' := j.promises[i], JointDo(j, Gate(i));
            var asks := BearsUpdate(p.frame) && !p.conn.readOnly && IsNovel(p.frame.payload.value, Seen(j, p.conn));
            && j' == j.(promises := j'.promises) && |j'.promises| == |j.promises|
            && (forall k :: 0 <= k < |j.promises| && k != i ==> j'.promises[k] == j.promises[k])
            && j'.promises[i] == p.(status := if asks then Running(p.frame.payload.value)
                                              else if IsHarmless(p.frame) || BearsUpdate(p.frame) then Resolved
                                              else Rejected)
  {
    var p := j.promises[i];
    if BearsUpdate(p.frame) && !IsNovel(p.frame.payload.value, Seen(j, p.conn)) {
      assert forall x :: x in p.frame.payload.value ==> x in Seen(j, p.conn);
    }
  }

  // ---------------------------------------------------------------- invariant

  predicate Known(j: Joint, c: Conn) { c in j.open || c in j.gone }

  /** What was let through is in the log, and in the connection's document once applied. */
  ghost predicate LetThrough(j: Joint, p: Promise, applied: bool) {
    && Known(j, p.conn)
    && (p.status.Running? ==> !p.conn.readOnly && Classify(p.frame) == Bears(p.status.update))
    && (p.status.Resolved? ==> !Classify(p.frame).Refuse? && NativeUpdate(p) <= Logged(j.core, p.conn.doc))
    && (p.status.Resolved? && applied ==> NativeUpdate(p) <= Seen(j, p.conn))
  }

  ghost predicate AllLetThrough(j: Joint) {
    forall i :: 0 <= i < |j.promises| ==> LetThrough(j, j.promises[i], i in j.native)
  }

  ghost predicate ConnsOk(j: Joint) {
    && (forall c :: c in j.open ==> c.doc in j.core.residents && c !in j.gone)
    && (forall c :: c in j.gone && c !in j.stale ==> c.doc in j.core.residents)
    && (forall c :: c in j.stale ==> c in j.gone && j.stale[c] <= Logged(j.core, c.doc))
  }

  ghost predicate AppliedResolved(j: Joint) {
    forall i :: i in j.native ==> i < |j.promises| && j.promises[i].status.Resolved?
  }

  ghost predicate ChainsOk(j: Joint) {
    ChainsInv(j.chains, j.promises) && PrevInv(j.promises) && OrderInv(j.promises, j.native) && AppliedResolved(j)
  }

  ghost predicate JointInv(j: Joint) { P.Inv(j.core) && ChainsOk(j) && ConnsOk(j) && AllLetThrough(j) }

  /** Residents hold logged deltas, so everyone's document does. */
  lemma SeenIsLogged(j: Joint, c: Conn)
    requires P.Inv(j.core) && ConnsOk(j)
    ensures Seen(j, c) <= Logged(j.core, c.doc)
  {
    if c !in j.stale && c.doc in j.core.residents {
      assert P.ResidentInv(j.core.db.RowsOf(c.doc), j.core.residents[c.doc]);
    }
  }

  // ---------------------------------------------------------------- the gate's own steps

  lemma FrameKeeps(j: Joint, conn: Conn, frame: Frame)
    requires JointInv(j) && conn in j.open
    ensures JointInv(JointDo(j, Arrival(conn, frame)))
  {
    var n, qs := |j.promises|, Chained(j.chains, j.promises, conn, frame);
    ArriveKeepsChains(j.chains, j.promises, j.chains[conn := n], qs, conn, frame);
    var next := JointDo(j, Arrival(conn, frame));
    forall i | 0 <= i < |qs| ensures LetThrough(next, qs[i], i in j.native) {
      if i < n { assert qs[i] == j.promises[i] && LetThrough(j, j.promises[i], i in j.native); }
    }
    forall i | 0 <= i < |qs| && qs[i].prev.Some? ensures OrderAt(qs, j.native, i) {
      if i < n { assert qs[i] == j.promises[i] && OrderAt(j.promises, j.native, i); }
    }
  }

  /** A waiting frame starts, or a running one settles. */
  lemma StatusKeeps(j: Joint, i: nat, status: Status)
    requires JointInv(j) && i < |j.promises| && !status.Waiting? && i !in j.native
    requires j.promises[i].status.Waiting? || (j.promises[i].status.Running? && !status.Running?)
    requires j.promises[i].prev.Some? ==>
      var k := j.promises[i].prev.value;
      k < i && Settled(j.promises[k]) &&
      (status.Running? || status.Resolved? ==> j.promises[k].status.Resolved? && k in j.native)
    requires LetThrough(j, j.promises[i].(status := status), false)
    ensures JointInv(j.(promises := SetStatus(j.promises, i, status)))
  {
    var qs := SetStatus(j.promises, i, status);
    StatusKeepsChains(j.chains, j.promises, i, status);
    StatusKeepsOrder(j.promises, j.native, i, status);
    forall k | 0 <= k < |qs| ensures LetThrough(j.(promises := qs), qs[k], k in j.native) {
      assert LetThrough(j, j.promises[k], k in j.native);
    }
  }

  lemma GateKeeps(j: Joint, i: nat)
    requires JointInv(j) && JointCan(j, Gate(i))
    ensures JointInv(JointDo(j, Gate(i)))
  {
    var p := j.promises[i];
    assert PrevAt(j.promises, i) && LetThrough(j, p, false);
    SeenIsLogged(j, p.conn);
    StatusKeeps(j, i, BodyOver(j, p));
  }

  lemma SettlesKeeps(j: Joint, i: nat, status: Status)
    requires JointInv(j) && i < |j.promises| && j.promises[i].status.Running?
    requires status.Rejected? || status.Resolved?
    requires status.Resolved? ==> j.promises[i].status.update <= Logged(j.core, j.promises[i].conn.doc)
    ensures JointInv(j.(promises := SetStatus(j.promises, i, status)))
  {
    assert PrevAt(j.promises, i) && LetThrough(j, j.promises[i], i in j.native);
    if j.promises[i].prev.Some? { assert OrderAt(j.promises, j.native, i); }
    StatusKeeps(j, i, status);
  }

  lemma LatchKeeps(j: Joint, i: nat)
    requires JointInv(j) && JointCan(j, Latch(i))
    ensures JointInv(JointDo(j, Latch(i)))
  {
    assert PrevAt(j.promises, i) && LetThrough(j, j.promises[i], false);
    StatusKeeps(j, i, Rejected);
  }

  // ---------------------------------------------------------------- documents

  /** The log and everyone's document only grow, and nobody is forgotten. */
  ghost predicate Grows(j: Joint, next: Joint) {
    && (forall d :: Logged(j.core, d) <= Logged(next.core, d))
    && (forall c :: Known(j, c) ==> Known(next, c) && Seen(j, c) <= Seen(next, c))
  }

  lemma GrowthKeeps(j: Joint, next: Joint)
    requires AllLetThrough(j) && next.promises == j.promises && next.native == j.native && Grows(j, next)
    ensures AllLetThrough(next)
  {
    forall i | 0 <= i < |next.promises| ensures LetThrough(next, next.promises[i], i in next.native) {
      assert LetThrough(j, j.promises[i], i in j.native);
    }
  }

  lemma {:induction false} ApplyRowsGrow(res: M.Resident, rows: seq<Row>)
    ensures res.doc <= M.ApplyRows(res, rows).doc
    decreases |rows|
  {
    if rows != [] { ApplyRowsGrow(res, rows[..|rows| - 1]); }
  }

  lemma LogGrows(core: P.State, a: P.Step, d: DocId)
    requires P.Inv(core) && P.Enabled(core, a)
    ensures Logged(core, d) <= Logged(P.Do(core, a), d)
  {
    assert [a][1..] == [];
    T.LogOnlyGrows(core, [a], d);
    var was, now := core.db.RowsOf(d), P.Do(core, a).db.RowsOf(d);
    assert now == was + now[|was|..];
    DeltasConcat(was, now[|was|..]);
  }

  lemma ResidentGrows(core: P.State, a: P.Step, d: DocId)
    requires P.Enabled(core, a) && !a.Restart? && d in core.residents && !(a.Unload? && a.d == d)
    ensures d in P.Do(core, a).residents && core.residents[d].doc <= P.Do(core, a).residents[d].doc
  {
    if a.Apply? && a.d == d { ApplyRowsGrow(core.residents[d], core.txs[a.t].staged[d][..a.done]); }
  }

  lemma SyncGrows(j: Joint, a: P.Step)
    requires JointInv(j) && SyncCan(j, a) && !a.Restart?
    ensures Grows(j, Synced(j, a)) && ConnsOk(Synced(j, a))
  {
    var next := Synced(j, a);
    forall d ensures Logged(j.core, d) <= Logged(next.core, d) { LogGrows(j.core, a, d); }
    forall d | d in j.core.residents && !(a.Unload? && a.d == d)
      ensures d in next.core.residents && j.core.residents[d].doc <= next.core.residents[d].doc
    {
      ResidentGrows(j.core, a, d);
    }
    forall c | Known(j, c) ensures Seen(j, c) <= Seen(next, c) { SeenIsLogged(j, c); }
    forall c | c in next.stale ensures c in j.gone && next.stale[c] <= Logged(next.core, c.doc) {
      SeenIsLogged(j, c);
      assert next.stale[c] == Seen(j, c);
    }
  }

  lemma SyncKeeps(j: Joint, a: P.Step)
    requires JointInv(j) && SyncCan(j, a)
    ensures JointInv(Synced(j, a))
  {
    P.StepKeepsInv(j.core, a);
    if !a.Restart? {
      SyncGrows(j, a);
      GrowthKeeps(j, Synced(j, a));
    }
  }

  lemma ConnKeeps(j: Joint, a: JointStep)
    requires JointInv(j) && JointCan(j, a) && (a.Connect? || a.Disconnect?)
    ensures JointInv(JointDo(j, a))
  {
    GrowthKeeps(j, JointDo(j, a));
  }

  /** Whatever the native receiver applies is a step of the protocol: it is in the log. */
  lemma NativeIsLogged(j: Joint, i: nat)
    requires JointInv(j) && JointCan(j, Native(i))
    ensures var c, delta := j.promises[i].conn, NativeUpdate(j.promises[i]);
            delta <= Logged(j.core, c.doc) &&
            (c !in j.stale ==> P.Enabled(j.core, P.NativeApply(c.doc, delta)))
  {
    assert LetThrough(j, j.promises[i], false);
  }

  lemma MergedGrows(j: Joint, c: Conn, delta: Blob)
    requires P.Inv(j.core) && ConnsOk(j) && Known(j, c) && delta <= Logged(j.core, c.doc)
    ensures P.Inv(Merged(j, c, delta).core) && ConnsOk(Merged(j, c, delta))
    ensures Grows(j, Merged(j, c, delta)) && delta <= Seen(Merged(j, c, delta), c)
  {
    if c !in j.stale { P.StepKeepsInv(j.core, P.NativeApply(c.doc, delta)); }
  }

  lemma MarkKeepsOrder(ps: seq<Promise>, native: set<nat>, i: nat)
    requires OrderInv(ps, native)
    ensures OrderInv(ps, native + {i})
  {
    forall k | 0 <= k < |ps| && ps[k].prev.Some? ensures OrderAt(ps, native + {i}, k) { assert OrderAt(ps, native, k); }
  }

  lemma MarkKeepsCover(j: Joint, next: Joint, i: nat)
    requires AllLetThrough(j) && i < |j.promises| && Grows(j, next)
    requires next.promises == j.promises && next.native == j.native + {i}
    requires NativeUpdate(j.promises[i]) <= Seen(next, j.promises[i].conn)
    ensures AllLetThrough(next)
  {
    forall k | 0 <= k < |next.promises| ensures LetThrough(next, next.promises[k], k in next.native) {
      assert LetThrough(j, j.promises[k], k in j.native);
    }
  }

  lemma MarkKeepsChains(j: Joint, i: nat)
    requires ChainsOk(j) && i < |j.promises| && j.promises[i].status.Resolved?
    ensures ChainsOk(j.(native := j.native + {i}))
  {
    MarkKeepsOrder(j.promises, j.native, i);
  }

  lemma MergeLeavesChains(j: Joint, c: Conn, delta: Blob)
    requires ChainsOk(j)
    ensures ChainsOk(Merged(j, c, delta))
    ensures Merged(j, c, delta).promises == j.promises && Merged(j, c, delta).native == j.native
  {
  }

  lemma NativeKeeps(j: Joint, i: nat)
    requires JointInv(j) && JointCan(j, Native(i))
    ensures JointInv(JointDo(j, Native(i)))
  {
    var marked, c, delta := j.(native := j.native + {i}), j.promises[i].conn, NativeUpdate(j.promises[i]);
    assert LetThrough(j, j.promises[i], false);
    MarkKeepsChains(j, i);
    MergeLeavesChains(marked, c, delta);
    MergedGrows(marked, c, delta);
    MarkKeepsCover(j, Merged(marked, c, delta), i);
  }

  lemma JointStepKeeps(j: Joint, a: JointStep)
    requires JointInv(j) && JointCan(j, a)
    ensures JointInv(JointDo(j, a))
  {
    match a
    case Arrival(conn, frame) => FrameKeeps(j, conn, frame);
    case Gate(i) => GateKeeps(j, i);
    case Latch(i) => LatchKeeps(j, i);
    case PolicyPasses(i) => SettlesKeeps(j, i, Resolved);
    case PolicyRefuses(i) => SettlesKeeps(j, i, Rejected);
    case Native(i) => NativeKeeps(j, i);
    case Connect(_) => ConnKeeps(j, a);
    case Disconnect(_) => ConnKeeps(j, a);
    case Sync(b) => SyncKeeps(j, b);
  }

  // ---------------------------------------------------------------- runs

  predicate JointLegal(j: Joint, run: seq<JointStep>)
    decreases |run|
  {
    run == [] || (JointCan(j, run[0]) && JointLegal(JointDo(j, run[0]), run[1..]))
  }

  function JointExec(j: Joint, run: seq<JointStep>): Joint
    requires JointLegal(j, run)
    decreases |run|
  {
    if run == [] then j else JointExec(JointDo(j, run[0]), run[1..])
  }

  function SyncStepsOf(j: Joint, a: JointStep): seq<P.Step>
    requires JointCan(j, a)
  {
    match a
    case Sync(b) => [b]
    case Native(i) =>
      var c := j.promises[i].conn;
      if c !in j.stale && c.doc in j.core.residents then [P.NativeApply(c.doc, NativeUpdate(j.promises[i]))] else []
    case _ => []
  }

  function SyncRun(j: Joint, run: seq<JointStep>): seq<P.Step>
    requires JointLegal(j, run)
    decreases |run|
  {
    if run == [] then [] else SyncStepsOf(j, run[0]) + SyncRun(JointDo(j, run[0]), run[1..])
  }

  lemma JointStepRefines(j: Joint, a: JointStep, rest: seq<P.Step>)
    requires JointInv(j) && JointCan(j, a) && P.Legal(JointDo(j, a).core, rest)
    ensures P.Legal(j.core, SyncStepsOf(j, a) + rest)
    ensures P.Exec(j.core, SyncStepsOf(j, a) + rest) == P.Exec(JointDo(j, a).core, rest)
  {
    var steps := SyncStepsOf(j, a);
    if a.Native? { NativeIsLogged(j, a.i); }
    if steps == [] {
      assert [] + rest == rest;
    } else {
      assert (steps + rest)[0] == steps[0] && (steps + rest)[1..] == rest;
    }
  }

  /** Behind the gate every run is a run of the protocol, native applies included. */
  lemma {:induction false} JointRunsRefine(j: Joint, run: seq<JointStep>)
    requires JointInv(j) && JointLegal(j, run)
    ensures JointInv(JointExec(j, run))
    ensures P.Legal(j.core, SyncRun(j, run)) && P.Exec(j.core, SyncRun(j, run)) == JointExec(j, run).core
    decreases |run|
  {
    if run != [] {
      JointStepKeeps(j, run[0]);
      JointRunsRefine(JointDo(j, run[0]), run[1..]);
      JointStepRefines(j, run[0], SyncRun(JointDo(j, run[0]), run[1..]));
    }
  }

  /** Even when post-commit applies fail, residents hold committed deltas only, and the watermark hides
      no committed row. */
  lemma ResidentsStayCommitted(run: seq<JointStep>, d: DocId)
    requires JointLegal(START_JOINT, run) && d in JointExec(START_JOINT, run).core.residents
    ensures var core := JointExec(START_JOINT, run).core;
            var rows, res := core.db.RowsOf(d), core.residents[d];
            res.doc <= Deltas(rows) && res.mark.low <= |rows| &&
            forall i :: 0 <= i < res.mark.low ==> rows[i].blob <= res.doc
  {
    JointRunsRefine(START_JOINT, run);
    T.ResidentsAreCommittedOnly(SyncRun(START_JOINT, run), d);
  }

  /** And clones stay complete for what their transaction sees, and free of others' uncommitted deltas. */
  lemma ClonesStayComplete(run: seq<JointStep>, d: DocId)
    requires JointLegal(START_JOINT, run)
    requires d in JointExec(START_JOINT, run).core.locks && JointExec(START_JOINT, run).core.locks[d].Cloned?
    ensures var core := JointExec(START_JOINT, run).core;
            var h := core.locks[d];
            && core.CanSee(h.tx, d, h.view)
            && Deltas(core.Visible(h.tx, d, h.view)) <= h.clone
            && h.clone <= Deltas(core.db.RowsOf(d)) + Deltas(core.txs[h.tx].own.RowsOf(d))
  {
    JointRunsRefine(START_JOINT, run);
    T.ClonesAreComplete(SyncRun(START_JOINT, run), d);
  }

  /** Every update let through on a writable connection is in the log, and once applied natively in the
      connection's document, whatever became of the apply behind its commit. */
  lemma PassedUpdatesAreLogged(run: seq<JointStep>, i: nat)
    requires JointLegal(START_JOINT, run) && i < |JointExec(START_JOINT, run).promises|
    requires JointExec(START_JOINT, run).promises[i].status.Resolved?
    ensures var j := JointExec(START_JOINT, run);
            var p := j.promises[i];
            NativeUpdate(p) <= Logged(j.core, p.conn.doc) && (i in j.native ==> NativeUpdate(p) <= Seen(j, p.conn))
  {
    JointRunsRefine(START_JOINT, run);
    var j := JointExec(START_JOINT, run);
    assert LetThrough(j, j.promises[i], i in j.native);
  }

  lemma PredecessorIsSeen(j: Joint, i: nat, k: nat)
    requires ChainsOk(j) && AllLetThrough(j) && i < k < |j.promises| && j.promises[i].conn == j.promises[k].conn
    requires j.promises[k].prev.Some? && j.promises[k].prev.value < |j.promises|
    requires j.promises[j.promises[k].prev.value].status.Resolved? && j.promises[k].prev.value in j.native
    ensures j.promises[i].status.Resolved? && NativeUpdate(j.promises[i]) <= Seen(j, j.promises[i].conn)
  {
    var prev := j.promises[k].prev.value;
    assert PrevAt(j.promises, k);
    if i < prev { EarlierSettled(j.promises, j.native, i, prev); }
    assert LetThrough(j, j.promises[i], i in j.native);
  }

  /** So when a frame's gate starts, its document holds every earlier update of its connection. */
  lemma PredecessorsAreSeen(run: seq<JointStep>, i: nat, k: nat)
    requires JointLegal(START_JOINT, run) && JointCan(JointExec(START_JOINT, run), Gate(k)) && i < k
    requires JointExec(START_JOINT, run).promises[i].conn == JointExec(START_JOINT, run).promises[k].conn
    ensures var j := JointExec(START_JOINT, run);
            j.promises[i].status.Resolved? && NativeUpdate(j.promises[i]) <= Seen(j, j.promises[i].conn)
  {
    JointRunsRefine(START_JOINT, run);
    var j := JointExec(START_JOINT, run);
    assert PrevAt(j.promises, k);
    PredecessorIsSeen(j, i, k);
  }
}
