/** The write gate of the collaboration socket (packages/sync/src/collab-gate.ts): one promise chain
    per connection, over residents that other writers change meanwhile. The policy's success is taken
    to mean that the update is committed and applied to the resident. */
module CollabGate {
  import opened Options
  import opened DocLog

  // ---------------------------------------------------------------- classification

  datatype Sub = SyncStep1 | SyncStep2 | SyncUpdate | UnknownSub(n: nat)

  /** A decoded frame. `payload` is absent where its bytes cannot be read. */
  datatype Frame =
    | Sync(reply: bool, sub: Sub, payload: Option<Blob>)
    | Awareness
    | Auth
    | QueryAwareness
    | Stateless
    | CloseFrame
    | BroadcastStateless
    | UnknownType(n: nat)
    | Malformed

  datatype Class = Pass | Bears(update: Blob) | Refuse

  /** Every frame is passed, refused or dispatched; nothing unknown or unreadable passes. */
  function Classify(f: Frame): (c: Class)
    ensures c.Bears? <==> f.Sync? && (f.sub.SyncStep2? || f.sub.SyncUpdate?) && f.payload.Some?
    ensures c.Bears? ==> f.payload == Some(c.update)
    ensures c.Pass? <==> f in {Awareness, Auth, QueryAwareness, Stateless, CloseFrame} || (f.Sync? && f.sub.SyncStep1?)
  {
    match f
    case Sync(_, SyncStep1, _) => Pass
    case Sync(_, UnknownSub(_), _) => Refuse
    case Sync(_, _, payload) => if payload.Some? then Bears(payload.value) else Refuse
    case Awareness => Pass
    case Auth => Pass
    case QueryAwareness => Pass
    case Stateless => Pass
    case CloseFrame => Pass
    case BroadcastStateless => Refuse
    case UnknownType(_) => Refuse
    case Malformed => Refuse
  }

  // ---------------------------------------------------------------- state

  /** One socket on one document. */
  datatype Conn = Conn(socket: nat, doc: DocId, readOnly: bool)

  /** `Running`: awaiting the policy with a novel update. */
  datatype Status = Waiting | Running(update: Blob) | Resolved | Rejected

  /** `prev.then(() => gateFrame(payload))`. */
  datatype Promise = Promise(conn: Conn, prev: Option<nat>, frame: Frame, status: Status)

  /** The documents around the gate. A closed connection keeps the document object it was opened on:
      once that is unloaded, `stale` is what the object held. */
  datatype Docs = Docs(
    resident: map<DocId, Blob>, committed: map<DocId, Blob>, open: set<Conn>, gone: set<Conn>, stale: map<Conn, Blob>)

  datatype State = State(chains: map<Conn, nat>, promises: seq<Promise>, native: set<nat>, docs: Docs)

  function At(docs: map<DocId, Blob>, d: DocId): Blob { if d in docs then docs[d] else {} }

  function Grow(docs: map<DocId, Blob>, d: DocId, delta: Blob): map<DocId, Blob> { docs[d := At(docs, d) + delta] }

  const START: State := State(map[], [], {}, Docs(map[], map[], {}, {}, map[]))

  /** What a connection's document object holds. */
  function View(docs: Docs, c: Conn): Blob { if c in docs.stale then docs.stale[c] else At(docs.resident, c.doc) }

  /** What the body of a gate does before it has to wait for the policy. */
  function BodyOf(p: Promise, docs: Docs): Status {
    match Classify(p.frame)
    case Pass => Resolved
    case Refuse => Rejected
    case Bears(u) => if p.conn.readOnly || u <= View(docs, p.conn) then Resolved else Running(u)
  }

  /** The update a resolved frame lets the native receiver apply. */
  function NativeUpdate(p: Promise): Blob {
    if Classify(p.frame).Bears? && !p.conn.readOnly then Classify(p.frame).update else {}
  }

  function SetStatus(ps: seq<Promise>, i: nat, status: Status): seq<Promise>
    requires i < |ps|
  {
    ps[i := ps[i].(status := status)]
  }

  // ---------------------------------------------------------------- the gate

  /** The gate's `chains` map and the promises behind it, beside the residents. */
  class CollabWriteGate {
    var chains: map<Conn, nat>
    var promises: seq<Promise>
    var native: set<nat>
    var docs: Docs

    constructor ()
      ensures Snapshot() == START
    {
      chains, promises, native, docs := map[], [], {}, START.docs;
    }

    function Snapshot(): State
      reads this
    {
      State(chains, promises, native, docs)
    }

    /** The hook: chain the frame behind its connection's last one. */
    method OnFrame(conn: Conn, frame: Frame)
      modifies this
      ensures Snapshot() == Do(old(Snapshot()), Arrive(conn, frame))
    {
      var prev := if conn in chains then Some(chains[conn]) else None;
      promises := promises + [Promise(conn, prev, frame, Waiting)];
      chains := chains[conn := |promises| - 1];
    }

    /** `gateFrame`, up to its await. */
    method GateFrame(i: nat)
      requires i < |promises|
      modifies this
      ensures Snapshot() == Do(old(Snapshot()), Fire(i))
    {
      var p := promises[i];
      var classified := Classify(p.frame);
      var status := Resolved;
      if classified.Refuse? {
        status := Rejected;
      } else if classified.Bears? {
        if !p.conn.readOnly && !(classified.update <= View(docs, p.conn)) {
          status := Running(classified.update);
        }
      }
      promises := SetStatus(promises, i, status);
    }

    /** The policy settles: committed and applied, with what the repair added, or refused. */
    method PolicySettles(i: nat, ok: bool, repair: Blob)
      requires i < |promises| && promises[i].status.Running?
      modifies this
      ensures Snapshot() == Do(old(Snapshot()), Settle(i, ok, repair))
    {
      var p := promises[i];
      if ok {
        docs := Commit(docs, p.conn.doc, p.status.update + repair);
        docs := Apply(docs, p.conn.doc, p.status.update + repair);
      }
      promises := SetStatus(promises, i, if ok then Resolved else Rejected);
    }
  }

  // ---------------------------------------------------------------- steps

  /** Residency is everyone's: connections and direct opens load a document from what is committed, and
      it may be unloaded while no connection is open on it. */
  datatype Step =
    | Arrive(conn: Conn, frame: Frame)
    | Fire(i: nat)
    | ShortCircuit(i: nat)
    | Settle(i: nat, ok: bool, repair: Blob)
    | NativeApply(i: nat)
    | Open(conn: Conn)
    | Close(conn: Conn)
    | Load(d: DocId)
    | Unload(d: DocId)
    | OtherCommit(d: DocId, delta: Blob)
    | OtherApply(d: DocId, delta: Blob)

  /** The native apply of a frame is registered before the next frame's gate, so it runs first. */
  predicate Enabled(s: State, a: Step) {
    match a
    case Arrive(conn, _) => conn in s.docs.open
    case Fire(i) =>
      i < |s.promises| && s.promises[i].status.Waiting? &&
      (s.promises[i].prev.Some? ==>
        var j := s.promises[i].prev.value; j < |s.promises| && s.promises[j].status.Resolved? && j in s.native)
    case ShortCircuit(i) =>
      i < |s.promises| && s.promises[i].status.Waiting? && s.promises[i].prev.Some? &&
      var j := s.promises[i].prev.value; j < |s.promises| && s.promises[j].status.Rejected?
    case Settle(i, _, _) => i < |s.promises| && s.promises[i].status.Running?
    case NativeApply(i) => i < |s.promises| && s.promises[i].status.Resolved? && i !in s.native
    case Open(conn) => conn !in s.docs.open && conn !in s.docs.gone
    case Close(conn) => conn in s.docs.open
    case Load(_) => true
    case Unload(d) => d in s.docs.resident && forall c :: c in s.docs.open ==> c.doc != d
    case OtherCommit(_, _) => true
    case OtherApply(d, delta) => delta <= At(s.docs.committed, d)
  }

  function Commit(docs: Docs, d: DocId, delta: Blob): Docs { docs.(committed := Grow(docs.committed, d, delta)) }

  /** A document that is not resident is not touched. */
  function Apply(docs: Docs, d: DocId, delta: Blob): Docs {
    if d in docs.resident then docs.(resident := Grow(docs.resident, d, delta)) else docs
  }

  function Loaded(docs: Docs, d: DocId): Docs {
    if d in docs.resident then docs else docs.(resident := docs.resident[d := At(docs.committed, d)])
  }

  function Unloaded(docs: Docs, d: DocId): Docs {
    docs.(resident := docs.resident - {d},
          stale := map c | c in docs.gone && (c in docs.stale || c.doc == d) :: View(docs, c))
  }

  /** The native receiver applies to the document object its connection was opened on. */
  function AppliedNatively(docs: Docs, c: Conn, delta: Blob): Docs {
    if c in docs.stale then docs.(stale := docs.stale[c := docs.stale[c] + delta]) else Apply(docs, c.doc, delta)
  }

  function Do(s: State, a: Step): State {
    match a
    case Arrive(conn, frame) =>
      var prev := if conn in s.chains then Some(s.chains[conn]) else None;
      s.(promises := s.promises + [Promise(conn, prev, frame, Waiting)], chains := s.chains[conn := |s.promises|])
    case Fire(i) =>
      if i < |s.promises| then s.(promises := SetStatus(s.promises, i, BodyOf(s.promises[i], s.docs))) else s
    case ShortCircuit(i) => if i < |s.promises| then s.(promises := SetStatus(s.promises, i, Rejected)) else s
    case Settle(i, ok, repair) =>
      if i >= |s.promises| || !s.promises[i].status.Running? then s
      else
        var d, delta := s.promises[i].conn.doc, s.promises[i].status.update + repair;
        s.(promises := SetStatus(s.promises, i, if ok then Resolved else Rejected),
           docs := if ok then Apply(Commit(s.docs, d, delta), d, delta) else s.docs)
    case NativeApply(i) =>
      if i >= |s.promises| then s
      else s.(native := s.native + {i},
              docs := AppliedNatively(s.docs, s.promises[i].conn, NativeUpdate(s.promises[i])))
    case Open(conn) => s.(docs := Loaded(s.docs, conn.doc).(open := s.docs.open + {conn}))
    case Close(conn) => s.(docs := s.docs.(open := s.docs.open - {conn}, gone := s.docs.gone + {conn}))
    case Load(d) => s.(docs := Loaded(s.docs, d))
    case Unload(d) => s.(docs := Unloaded(s.docs, d))
    case OtherCommit(d, delta) => s.(docs := Commit(s.docs, d, delta))
    case OtherApply(d, delta) => s.(docs := Apply(s.docs, d, delta))
  }

  // ---------------------------------------------------------------- what one step decides

  /** A readable step-2 or update frame. */
  predicate BearsUpdate(f: Frame) { f.Sync? && (f.sub.SyncStep2? || f.sub.SyncUpdate?) && f.payload.Some? }

  /** The kinds that are let through as they are. */
  predicate IsHarmless(f: Frame) {
    f.Awareness? || f.Auth? || f.QueryAwareness? || f.Stateless? || f.CloseFrame? || (f.Sync? && f.sub.SyncStep1?)
  }

  /** The update holds a delta that the connection's document does not. */
  ghost predicate IsNovel(update: Blob, held: Blob) { exists x :: x in update && x !in held }

  /** The body of a gate asks the policy exactly about a novel update on a writable connection. Every
      other update and every harmless frame passes, and everything else is refused. Nothing else moves. */
  lemma GateDecides(s: State, i: nat)
    requires i < |s.promises|
    ensures var p, s' := s.promises[i], Do(s, Fire(i));
            var asks := BearsUpdate(p.frame) && !p.conn.readOnly &&
                        IsNovel(p.frame.payload.value, View(s.docs, p.conn));
            && s' == s.(promises := s'.promises) && |s'.promises| == |s.promises|
            && (forall k :: 0 <= k < |s.promises| && k != i ==> s'.promises[k] == s.promises[k])
            && s'.promises[i] == p.(status := if asks then Running(p.frame.payload.value)
                                              else if IsHarmless(p.frame) || BearsUpdate(p.frame) then Resolved
                                              else Rejected)
  {
    var p := s.promises[i];
    if BearsUpdate(p.frame) && !IsNovel(p.frame.payload.value, View(s.docs, p.conn)) {
      assert forall x :: x in p.frame.payload.value ==> x in View(s.docs, p.conn);
    }
  }

  /** A policy that succeeds lets the frame pass and adds the update, with its repair, to what is
      committed and, if it is in memory, to the document; one that fails refuses the frame. No other
      document is touched. */
  lemma SettleDoes(s: State, i: nat, ok: bool, repair: Blob)
    requires i < |s.promises| && s.promises[i].status.Running?
    ensures var p, s' := s.promises[i], Do(s, Settle(i, ok, repair));
            var delta := if ok then p.status.update + repair else {};
            && s'.promises == s.promises[i := p.(status := if ok then Resolved else Rejected)]
            && s'.chains == s.chains && s'.native == s.native
            && s'.docs.open == s.docs.open && s'.docs.gone == s.docs.gone && s'.docs.stale == s.docs.stale
            && s'.docs.resident.Keys == s.docs.resident.Keys
            && (forall d :: At(s'.docs.committed, d) == At(s.docs.committed, d) + if d == p.conn.doc then delta else {})
            && (forall d :: d in s.docs.resident ==>
                  s'.docs.resident[d] == s.docs.resident[d] + if d == p.conn.doc then delta else {})
  {
  }

  // ---------------------------------------------------------------- invariants

  ghost predicate ChainsInv(chains: map<Conn, nat>, ps: seq<Promise>) {
    && (forall c :: c in chains ==> chains[c] < |ps| && ps[chains[c]].conn == c)
    && (forall i :: 0 <= i < |ps| ==> LastAt(chains, ps, i))
  }

  ghost predicate LastAt(chains: map<Conn, nat>, ps: seq<Promise>, i: nat)
    requires i < |ps|
  {
    ps[i].conn in chains && i <= chains[ps[i].conn]
  }

  /** `prev` is the connection's previous frame. */
  ghost predicate PrevInv(ps: seq<Promise>) { forall i :: 0 <= i < |ps| ==> PrevAt(ps, i) }

  ghost predicate PrevAt(ps: seq<Promise>, i: nat)
    requires i < |ps|
  {
    match ps[i].prev
    case None => forall k :: 0 <= k < i ==> ps[k].conn != ps[i].conn
    case Some(j) => j < i && ps[j].conn == ps[i].conn && forall k :: j < k < i ==> ps[k].conn != ps[i].conn
  }

  predicate Settled(p: Promise) { p.status.Resolved? || p.status.Rejected? }

  /** A frame leaves `Waiting` only after its predecessor settled, and passes only after it resolved and
      was applied. */
  ghost predicate OrderInv(ps: seq<Promise>, native: set<nat>) {
    forall i :: 0 <= i < |ps| && ps[i].prev.Some? ==> OrderAt(ps, native, i)
  }

  ghost predicate OrderAt(ps: seq<Promise>, native: set<nat>, i: nat)
    requires i < |ps| && ps[i].prev.Some?
  {
    var j := ps[i].prev.value;
    && j < i && (!ps[i].status.Waiting? ==> Settled(ps[j]))
    && (ps[i].status.Running? || ps[i].status.Resolved? ==> ps[j].status.Resolved? && j in native)
  }

  /** Only novel updates on writable connections are dispatched, and what was let through is committed,
      resident while its document is, and in the connection's own document once applied. */
  ghost predicate CoverInv(ps: seq<Promise>, native: set<nat>, docs: Docs) {
    forall i :: 0 <= i < |ps| ==> CoverAt(ps[i], i in native, docs)
  }

  ghost predicate CoverAt(p: Promise, applied: bool, docs: Docs) {
    && (p.conn in docs.open || p.conn in docs.gone)
    && (p.status.Running? ==> !p.conn.readOnly && Classify(p.frame) == Bears(p.status.update))
    && (p.status.Resolved? ==> !Classify(p.frame).Refuse? && Covers(docs, p.conn.doc, NativeUpdate(p)))
    && (applied && p.status.Resolved? ==> NativeUpdate(p) <= View(docs, p.conn))
  }

  predicate Covers(docs: Docs, d: DocId, delta: Blob) {
    delta <= At(docs.committed, d) && (d in docs.resident ==> delta <= docs.resident[d])
  }

  /** Residents and stale documents are committed; a document stays while a connection is open on it. */
  ghost predicate DocsInv(docs: Docs) {
    && (forall d :: At(docs.resident, d) <= At(docs.committed, d))
    && (forall c :: c in docs.open ==> c.doc in docs.resident && c !in docs.gone)
    && (forall c :: c in docs.gone && c !in docs.stale ==> c.doc in docs.resident)
    && (forall c :: c in docs.stale ==> c in docs.gone && Covers(docs, c.doc, docs.stale[c]))
  }

  ghost predicate Inv(s: State) {
    && ChainsInv(s.chains, s.promises) && PrevInv(s.promises) && OrderInv(s.promises, s.native)
    && CoverInv(s.promises, s.native, s.docs) && DocsInv(s.docs)
  }

  // ---------------------------------------------------------------- what happens to the documents

  /** Whatever was covered stays covered, connections are not forgotten, and documents lose nothing
      that a connection has seen. */
  ghost predicate Keeps(docs: Docs, next: Docs) {
    && (forall d, delta :: Covers(docs, d, delta) ==> Covers(next, d, delta))
    && (forall c :: c in docs.open || c in docs.gone ==>
       (c in next.open || c in next.gone) && View(docs, c) <= View(next, c))
  }

  lemma LoadKeeps(docs: Docs, d: DocId)
    requires DocsInv(docs)
    ensures DocsInv(Loaded(docs, d)) && Keeps(docs, Loaded(docs, d))
  {
  }

  lemma OpenKeeps(docs: Docs, conn: Conn)
    requires DocsInv(docs) && conn !in docs.open && conn !in docs.gone
    ensures var next := Loaded(docs, conn.doc).(open := docs.open + {conn}); DocsInv(next) && Keeps(docs, next)
  {
    LoadKeeps(docs, conn.doc);
  }

  lemma CloseKeeps(docs: Docs, conn: Conn)
    requires DocsInv(docs) && conn in docs.open
    ensures var next := docs.(open := docs.open - {conn}, gone := docs.gone + {conn});
            DocsInv(next) && Keeps(docs, next)
  {
  }

  lemma UnloadKeeps(docs: Docs, d: DocId)
    requires DocsInv(docs) && d in docs.resident && forall c :: c in docs.open ==> c.doc != d
    ensures DocsInv(Unloaded(docs, d)) && Keeps(docs, Unloaded(docs, d))
  {
    var next := Unloaded(docs, d);
    assert forall c :: c in next.stale ==> c in docs.gone && next.stale[c] == View(docs, c);
    forall e ensures At(next.resident, e) <= At(next.committed, e) {
      assert At(docs.resident, e) <= At(docs.committed, e);
    }
  }

  lemma CommitKeeps(docs: Docs, d: DocId, delta: Blob)
    requires DocsInv(docs)
    ensures DocsInv(Commit(docs, d, delta)) && Keeps(docs, Commit(docs, d, delta))
  {
  }

  lemma ApplyKeeps(docs: Docs, d: DocId, delta: Blob)
    requires DocsInv(docs) && delta <= At(docs.committed, d)
    ensures DocsInv(Apply(docs, d, delta)) && Keeps(docs, Apply(docs, d, delta))
  {
  }

  lemma NativeKeeps(docs: Docs, c: Conn, delta: Blob)
    requires DocsInv(docs) && (c in docs.open || c in docs.gone) && Covers(docs, c.doc, delta)
    ensures DocsInv(AppliedNatively(docs, c, delta)) && Keeps(docs, AppliedNatively(docs, c, delta))
    ensures delta <= View(AppliedNatively(docs, c, delta), c)
    ensures forall d :: At(AppliedNatively(docs, c, delta).resident, d) == At(docs.resident, d)
  {
    if c !in docs.stale { assert c.doc in docs.resident; }
  }

  /** Coverage of unchanged promises survives whatever happens to the documents. */
  lemma CoverKept(ps: seq<Promise>, native: set<nat>, docs: Docs, next: Docs)
    requires CoverInv(ps, native, docs) && Keeps(docs, next)
    ensures CoverInv(ps, native, next)
  {
    forall i | 0 <= i < |ps| ensures CoverAt(ps[i], i in native, next) { assert CoverAt(ps[i], i in native, docs); }
  }

  // ---------------------------------------------------------------- what every step keeps

  function Chained(chains: map<Conn, nat>, ps: seq<Promise>, conn: Conn, frame: Frame): seq<Promise> {
    ps + [Promise(conn, if conn in chains then Some(chains[conn]) else None, frame, Waiting)]
  }

  lemma ArriveKeepsChains(chains: map<Conn, nat>, ps: seq<Promise>, next: map<Conn, nat>, qs: seq<Promise>,
                          conn: Conn, frame: Frame)
    requires ChainsInv(chains, ps) && PrevInv(ps)
    requires next == chains[conn := |ps|] && qs == Chained(chains, ps, conn, frame)
    ensures ChainsInv(next, qs) && PrevInv(qs)
  {
    var n := |ps|;
    assert forall i :: 0 <= i < n ==> qs[i] == ps[i];
    forall i | 0 <= i < |qs| ensures LastAt(next, qs, i) {
      if i < n { assert LastAt(chains, ps, i); }
    }
    forall i | 0 <= i < |qs| ensures PrevAt(qs, i) {
      if i < n {
        assert PrevAt(ps, i);
      } else {
        forall k | 0 <= k < n && ps[k].conn == conn ensures conn in chains && k <= chains[conn] {
          assert LastAt(chains, ps, k);
        }
      }
    }
  }

  lemma ArriveKeepsInv(s: State, conn: Conn, frame: Frame)
    requires Inv(s) && NativeInv(s) && Enabled(s, Arrive(conn, frame))
    ensures Inv(Do(s, Arrive(conn, frame)))
  {
    var qs, n := Chained(s.chains, s.promises, conn, frame), |s.promises|;
    ArriveKeepsChains(s.chains, s.promises, s.chains[conn := n], qs, conn, frame);
    assert forall i :: 0 <= i < n ==> qs[i] == s.promises[i];
    forall i | 0 <= i < |qs| ensures CoverAt(qs[i], i in s.native, s.docs) {
      if i < n { assert CoverAt(s.promises[i], i in s.native, s.docs); }
    }
    forall i | 0 <= i < |qs| && qs[i].prev.Some? ensures OrderAt(qs, s.native, i) {
      if i < n { assert OrderAt(s.promises, s.native, i); }
    }
  }

  /** A status change keeps the chains. */
  lemma StatusKeepsChains(chains: map<Conn, nat>, ps: seq<Promise>, i: nat, status: Status)
    requires ChainsInv(chains, ps) && PrevInv(ps) && i < |ps|
    ensures ChainsInv(chains, SetStatus(ps, i, status)) && PrevInv(SetStatus(ps, i, status))
  {
    var qs := SetStatus(ps, i, status);
    assert forall k :: 0 <= k < |qs| ==> qs[k].conn == ps[k].conn && qs[k].prev == ps[k].prev;
    forall k | 0 <= k < |qs| ensures LastAt(chains, qs, k) && PrevAt(qs, k) {
      assert LastAt(chains, ps, k) && PrevAt(ps, k);
    }
  }

  /** The chain is kept when a waiting frame starts or a running one settles. */
  lemma StatusKeepsOrder(ps: seq<Promise>, native: set<nat>, i: nat, status: Status)
    requires PrevInv(ps) && OrderInv(ps, native) && i < |ps| && !status.Waiting?
    requires ps[i].status.Waiting? || (ps[i].status.Running? && !status.Running?)
    requires ps[i].prev.Some? ==>
      var j := ps[i].prev.value;
      j < i && Settled(ps[j]) && (status.Running? || status.Resolved? ==> ps[j].status.Resolved? && j in native)
    ensures OrderInv(SetStatus(ps, i, status), native)
  {
    var qs := SetStatus(ps, i, status);
    forall k | 0 <= k < |qs| && qs[k].prev.Some? ensures OrderAt(qs, native, k) {
      assert PrevAt(ps, k) && OrderAt(ps, native, k);
    }
  }

  lemma CoverSurvives(ps: seq<Promise>, native: set<nat>, i: nat, status: Status, docs: Docs, next: Docs)
    requires CoverInv(ps, native, docs) && i < |ps| && Keeps(docs, next)
    requires CoverAt(ps[i].(status := status), i in native, next)
    ensures CoverInv(SetStatus(ps, i, status), native, next)
  {
    var qs := SetStatus(ps, i, status);
    forall k | 0 <= k < |qs| ensures CoverAt(qs[k], k in native, next) { assert CoverAt(ps[k], k in native, docs); }
  }

  /** Only resolved frames were applied. */
  ghost predicate NativeInv(s: State) {
    forall i :: i in s.native ==> i < |s.promises| && s.promises[i].status.Resolved?
  }

  lemma ViewIsCovered(docs: Docs, c: Conn, delta: Blob)
    requires DocsInv(docs) && (c in docs.open || c in docs.gone) && delta <= View(docs, c)
    ensures Covers(docs, c.doc, delta)
  {
    assert At(docs.resident, c.doc) <= At(docs.committed, c.doc);
  }

  lemma FireKeepsInv(s: State, i: nat)
    requires Inv(s) && NativeInv(s) && Enabled(s, Fire(i))
    ensures Inv(Do(s, Fire(i)))
  {
    var p, status := s.promises[i], BodyOf(s.promises[i], s.docs);
    assert PrevAt(s.promises, i) && CoverAt(p, i in s.native, s.docs);
    StatusKeepsChains(s.chains, s.promises, i, status);
    StatusKeepsOrder(s.promises, s.native, i, status);
    if status.Resolved? { ViewIsCovered(s.docs, p.conn, NativeUpdate(p)); }
    CoverSurvives(s.promises, s.native, i, status, s.docs, s.docs);
  }

  lemma ShortCircuitKeepsInv(s: State, i: nat)
    requires Inv(s) && Enabled(s, ShortCircuit(i))
    ensures Inv(Do(s, ShortCircuit(i)))
  {
    assert PrevAt(s.promises, i) && CoverAt(s.promises[i], i in s.native, s.docs);
    StatusKeepsChains(s.chains, s.promises, i, Rejected);
    StatusKeepsOrder(s.promises, s.native, i, Rejected);
    CoverSurvives(s.promises, s.native, i, Rejected, s.docs, s.docs);
  }

  lemma SettleKeepsInv(s: State, i: nat, ok: bool, repair: Blob)
    requires Inv(s) && NativeInv(s) && Enabled(s, Settle(i, ok, repair))
    ensures Inv(Do(s, Settle(i, ok, repair)))
  {
    var t, p := Do(s, Settle(i, ok, repair)), s.promises[i];
    var status, delta := if ok then Resolved else Rejected, p.status.update + repair;
    assert CoverAt(p, i in s.native, s.docs);
    if s.promises[i].prev.Some? { assert OrderAt(s.promises, s.native, i); }
    StatusKeepsChains(s.chains, s.promises, i, status);
    StatusKeepsOrder(s.promises, s.native, i, status);
    if ok {
      CommitKeeps(s.docs, p.conn.doc, delta);
      ApplyKeeps(Commit(s.docs, p.conn.doc, delta), p.conn.doc, delta);
    }
    CoverSurvives(s.promises, s.native, i, status, s.docs, t.docs);
  }

  /** The native apply changes no resident: the update is there already. */
  lemma NativeApplyIsNoOp(s: State, i: nat)
    requires Inv(s) && Enabled(s, NativeApply(i))
    ensures forall d :: At(Do(s, NativeApply(i)).docs.resident, d) == At(s.docs.resident, d)
    ensures Inv(Do(s, NativeApply(i)))
  {
    var t, p := Do(s, NativeApply(i)), s.promises[i];
    assert CoverAt(p, false, s.docs);
    NativeKeeps(s.docs, p.conn, NativeUpdate(p));
    forall k | 0 <= k < |t.promises| ensures CoverAt(t.promises[k], k in t.native, t.docs) {
      assert CoverAt(s.promises[k], k in s.native, s.docs);
    }
    forall k | 0 <= k < |t.promises| && t.promises[k].prev.Some? ensures OrderAt(t.promises, t.native, k) {
      assert OrderAt(s.promises, s.native, k);
    }
  }

  /** Connections and other writers leave the chains alone. */
  lemma OthersKeepInv(s: State, a: Step)
    requires Inv(s) && Enabled(s, a)
    requires a.Open? || a.Close? || a.Load? || a.Unload? || a.OtherCommit? || a.OtherApply?
    ensures Inv(Do(s, a))
  {
    match a {
      case Open(conn) => OpenKeeps(s.docs, conn);
      case Close(conn) => CloseKeeps(s.docs, conn);
      case Load(d) => LoadKeeps(s.docs, d);
      case Unload(d) => UnloadKeeps(s.docs, d);
      case OtherCommit(d, delta) => CommitKeeps(s.docs, d, delta);
      case OtherApply(d, delta) => ApplyKeeps(s.docs, d, delta);
    }
    CoverKept(s.promises, s.native, s.docs, Do(s, a).docs);
  }

  lemma StepKeepsInv(s: State, a: Step)
    requires Inv(s) && NativeInv(s) && Enabled(s, a)
    ensures Inv(Do(s, a)) && NativeInv(Do(s, a))
  {
    match a
    case Arrive(conn, frame) => ArriveKeepsInv(s, conn, frame);
    case Fire(i) => FireKeepsInv(s, i);
    case ShortCircuit(i) => ShortCircuitKeepsInv(s, i);
    case Settle(i, ok, repair) => SettleKeepsInv(s, i, ok, repair);
    case NativeApply(i) => NativeApplyIsNoOp(s, i);
    case _ => OthersKeepInv(s, a);
  }

  // ---------------------------------------------------------------- runs

  ghost predicate Legal(run: seq<Step>) {
    run == [] || (Legal(run[..|run| - 1]) && Enabled(Exec(run[..|run| - 1]), run[|run| - 1]))
  }

  function Exec(run: seq<Step>): State {
    if run == [] then START else Do(Exec(run[..|run| - 1]), run[|run| - 1])
  }

  lemma {:induction false} RunKeepsInv(run: seq<Step>)
    requires Legal(run)
    ensures Inv(Exec(run)) && NativeInv(Exec(run))
  {
    if run != [] {
      RunKeepsInv(run[..|run| - 1]);
      StepKeepsInv(Exec(run[..|run| - 1]), run[|run| - 1]);
    }
  }

  /** Along one connection's chain, everything before a started frame has settled, and everything
      before a running or resolved one has resolved. */
  lemma {:induction false} EarlierSettled(ps: seq<Promise>, native: set<nat>, i: nat, k: nat)
    requires PrevInv(ps) && OrderInv(ps, native) && i < k < |ps| && ps[i].conn == ps[k].conn && !ps[k].status.Waiting?
    ensures Settled(ps[i])
    ensures ps[k].status.Running? || ps[k].status.Resolved? ==> ps[i].status.Resolved? && i in native
    decreases k
  {
    assert PrevAt(ps, k);
    assert OrderAt(ps, native, k);
    var j := ps[k].prev.value;
    if i < j { EarlierSettled(ps, native, i, j); }
  }

  /** Gate bodies of one connection never overlap and start in arrival order; behind a refused frame
      nothing ever runs or passes. */
  lemma BodiesRunInOrder(run: seq<Step>, i: nat, k: nat)
    requires Legal(run) && i < k < |Exec(run).promises|
    requires Exec(run).promises[i].conn == Exec(run).promises[k].conn
    ensures var ps := Exec(run).promises;
            && (ps[i].status.Waiting? || ps[i].status.Running? ==> ps[k].status.Waiting?)
            && (ps[i].status.Rejected? ==> ps[k].status.Waiting? || ps[k].status.Rejected?)
  {
    RunKeepsInv(run);
    if !Exec(run).promises[k].status.Waiting? { EarlierSettled(Exec(run).promises, Exec(run).native, i, k); }
  }

  /** Every update let through on a writable connection is committed and, whenever its document is
      resident, in the resident: unloading and loading again do not lose it, and while the connection
      is open the document stays. A read-only connection never reaches the policy. */
  lemma PassedUpdatesAreResident(run: seq<Step>, i: nat)
    requires Legal(run) && i < |Exec(run).promises|
    ensures var docs, p := Exec(run).docs, Exec(run).promises[i];
            && (p.status.Resolved? && Classify(p.frame).Bears? && !p.conn.readOnly ==>
                  Covers(docs, p.conn.doc, Classify(p.frame).update))
            && (p.conn in docs.open ==> p.conn.doc in docs.resident)
            && (p.status.Running? ==> !p.conn.readOnly && Classify(p.frame).Bears?)
            && (p.status.Resolved? ==> !Classify(p.frame).Refuse?)
  {
    RunKeepsInv(run);
    assert CoverAt(Exec(run).promises[i], i in Exec(run).native, Exec(run).docs);
  }

  lemma ResidentsAreCommitted(run: seq<Step>, d: DocId)
    requires Legal(run)
    ensures At(Exec(run).docs.resident, d) <= At(Exec(run).docs.committed, d)
  {
    RunKeepsInv(run);
  }

  predicate GateStep(a: Step) { a.Fire? || a.ShortCircuit? || a.Settle? || a.NativeApply? }

  /** The chain never stalls: while a frame is unsettled, some step of the gate can be taken. */
  lemma {:induction false} GateNeverStalls(s: State, k: nat) returns (a: Step)
    requires Inv(s) && k < |s.promises| && !Settled(s.promises[k])
    ensures GateStep(a) && Enabled(s, a)
    decreases k
  {
    var p := s.promises[k];
    assert PrevAt(s.promises, k);
    if p.status.Running? {
      a := Settle(k, true, {});
    } else if p.prev.None? {
      a := Fire(k);
    } else {
      var j := p.prev.value;
      match s.promises[j].status
      case Rejected => a := ShortCircuit(k);
      case Resolved => a := if j in s.native then Fire(k) else NativeApply(j);
      case _ => a := GateNeverStalls(s, j);
    }
  }

  lemma EarlierUpdatesAt(ps: seq<Promise>, native: set<nat>, docs: Docs, i: nat, k: nat)
    requires PrevInv(ps) && OrderInv(ps, native) && CoverInv(ps, native, docs) && i < k < |ps| &&
             ps[i].conn == ps[k].conn
    requires ps[k].prev.Some? && ps[k].prev.value < |ps|
    requires ps[ps[k].prev.value].status.Resolved? && ps[k].prev.value in native
    ensures ps[i].status.Resolved? && NativeUpdate(ps[i]) <= View(docs, ps[i].conn)
  {
    var j := ps[k].prev.value;
    assert PrevAt(ps, k);
    if i < j { EarlierSettled(ps, native, i, j); }
    assert CoverAt(ps[i], i in native, docs);
  }

  /** By the time a frame's gate starts, its document holds every earlier update of its connection
      that was let through, so a causally dependent frame never finds its predecessor missing, even
      when the connection has closed and the document was unloaded meanwhile. */
  lemma EarlierUpdatesAreThere(run: seq<Step>, i: nat, k: nat)
    requires Legal(run) && Enabled(Exec(run), Fire(k)) && i < k
    requires Exec(run).promises[i].conn == Exec(run).promises[k].conn
    ensures var s, p := Exec(run), Exec(run).promises[i];
            p.status.Resolved? && NativeUpdate(p) <= View(s.docs, p.conn)
  {
    RunKeepsInv(run);
    var s := Exec(run);
    assert PrevAt(s.promises, k);
    EarlierUpdatesAt(s.promises, s.native, s.docs, i, k);
  }
}
