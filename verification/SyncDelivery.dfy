/** That committed edits arrive: what a persisted row carries, what a post-commit apply merges, and
    when a resident has caught up with its log (packages/sync/src/hocuspocus.ts). */
module SyncDelivery {
  import opened DocLog
  import opened Watermark
  import opened SyncModel
  import opened SyncProtocol

  /** Persisting stages one row under the next seq, holding exactly what the updates hold, behind
      what the dispatch had staged; it is also what the transaction has written more than before. */
  lemma PersistCarriesAll(s: State, t: TxId, d: DocId, updates: seq<Blob>)
    requires Inv(s) && Enabled(s, Persist(t, d, updates)) && updates != []
    ensures var s' := Do(s, Persist(t, d, updates));
            && d in s'.txs[t].staged && s'.txs[t].staged[d] != []
            && var staged := s'.txs[t].staged[d];
               var row := staged[|staged| - 1];
               && Persisted(s.db, s.txs[t].own, s'.txs[t].own, d, [row], updates)
               && staged[..|staged| - 1] == (if d in s.txs[t].staged then s.txs[t].staged[d] else [])
               && forall e :: e != d && e in s.txs[t].staged ==>
                    e in s'.txs[t].staged && s'.txs[t].staged[e] == s.txs[t].staged[e]
  {
    assert LockInv(s.db, s.live, s.txs, d, s.locks[d]) && TxInv(s.db, s.live, s.txs[t]);
    WriteIsPersisted(s.db, s.txs[t].own, d, updates);
    var own := WriteOne(s.db, s.txs[t].own, d, MergeUpdates(updates)).RowsOf(d);
    assert own[|own| - 1..] == [own[|own| - 1]];
  }

  /** What a step appends to the log of `d`. */
  function RowsCommitted(s: State, a: Step, d: DocId): seq<Row>
    requires Enabled(s, a)
  {
    if a.SqlCommit? then s.txs[a.t].own.RowsOf(d) else []
  }

  /** Only a commit writes to the log, and what it writes is what its transaction has persisted. */
  lemma OnlyCommitsWrite(s: State, a: Step, d: DocId)
    requires Inv(s) && Enabled(s, a)
    ensures Do(s, a).db.RowsOf(d) == s.db.RowsOf(d) + RowsCommitted(s, a, d)
  {
    if a.SqlCommit? {
      assert TxInv(s.db, s.live, s.txs[a.t]);
      CommitGapless(s.db, s.txs[a.t].own);
    }
  }

  /** Only persisting adds to what a transaction has written, until it commits or is gone. */
  lemma OnlyPersistsDraft(s: State, a: Step, t: TxId)
    requires Enabled(s, a) && t in Do(s, a).txs && !(a.SqlCommit? && a.t == t) && !(a.Persist? && a.t == t)
    ensures Do(s, a).txs[t].own == if t in s.txs then s.txs[t].own else NOTHING_OWN
  {
  }

  /** The post-commit apply delivers the first `done` staged rows and what it merged of the next one
      to the resident; nothing stays staged for the document, and no other resident changes. */
  lemma ApplyDelivers(s: State, t: TxId, d: DocId, done: nat, partial: Blob)
    requires Inv(s) && Enabled(s, Apply(t, d, done, partial))
    ensures var s', rows := Do(s, Apply(t, d, done, partial)), s.txs[t].staged[d];
            && s'.residents.Keys == s.residents.Keys
            && (d in s.residents ==> Received(s.residents[d], s'.residents[d], rows[..done], partial))
            && (forall e :: e in s.residents && e != d ==> s'.residents[e] == s.residents[e])
            && s'.txs[t].staged == s.txs[t].staged - {d}
  {
    if d in s.residents {
      assert ResidentInv(s.db.RowsOf(d), s.residents[d]);
      StagedIsReceived(s.residents[d], s.txs[t].staged[d], done, partial);
    }
  }

  /** In particular, an apply that succeeds leaves every staged blob in the resident. */
  lemma CompleteApplyDelivers(s: State, t: TxId, d: DocId, done: nat, r: Row)
    requires Inv(s) && Enabled(s, Apply(t, d, done, {})) && d in s.residents
    requires done == |s.txs[t].staged[d]| && r in s.txs[t].staged[d]
    ensures var res := Do(s, Apply(t, d, done, {})).residents[d];
            r.blob <= res.doc && res.mark.Has(r.num)
  {
    ApplyDelivers(s, t, d, done, {});
    var rows, res := s.txs[t].staged[d], Do(s, Apply(t, d, done, {})).residents[d];
    assert rows[..done] == rows;
    forall x | x in r.blob ensures x in res.doc { assert x in Deltas(rows); }
    assert TxInv(s.db, s.live, s.txs[t]) && GaplessAt(s.db, d);
    assert r in s.db.RowsOf(d);
    assert Names(rows, r.num);
  }

  // ---------------------------------------------------------------- whole runs

  /** Steps that take a document out of memory. */
  predicate Drops(a: Step, d: DocId) { a.Restart? || (a.Unload? && a.d == d) }

  predicate StaysLoaded(run: seq<Step>, d: DocId) { forall i :: 0 <= i < |run| ==> !Drops(run[i], d) }

  /** The rows of `d` that a step applies in full, and the other deltas it merges into its resident. */
  function RowsApplied(s: State, a: Step, d: DocId): seq<Row>
    requires Enabled(s, a)
  {
    if a.Apply? && a.d == d then s.txs[a.t].staged[d][..a.done] else []
  }

  function OtherDeltas(a: Step, d: DocId): Blob {
    if a.Apply? && a.d == d then a.partial else if a.NativeApply? && a.d == d then a.delta else {}
  }

  function AllRowsApplied(s: State, run: seq<Step>, d: DocId): seq<Row>
    requires Legal(s, run)
    decreases |run|
  {
    if run == [] then [] else RowsApplied(s, run[0], d) + AllRowsApplied(Do(s, run[0]), run[1..], d)
  }

  function AllOtherDeltas(run: seq<Step>, d: DocId): Blob {
    if run == [] then {} else OtherDeltas(run[0], d) + AllOtherDeltas(run[1..], d)
  }

  lemma StepReceives(s: State, a: Step, d: DocId)
    requires Inv(s) && Enabled(s, a) && d in s.residents && !Drops(a, d)
    ensures d in Do(s, a).residents
    ensures Received(s.residents[d], Do(s, a).residents[d], RowsApplied(s, a, d), OtherDeltas(a, d))
  {
    if a.Apply? {
      ApplyDelivers(s, a.t, a.d, a.done, a.partial);
    } else {
      OnlyAppliesMark(s, a, d);
      NothingReceived(s.residents[d], OtherDeltas(a, d));
    }
  }

  lemma OnlyAppliesMark(s: State, a: Step, d: DocId)
    requires Enabled(s, a) && d in s.residents && !Drops(a, d) && !a.Apply?
    ensures d in Do(s, a).residents
    ensures Do(s, a).residents[d] == Resident(s.residents[d].doc + OtherDeltas(a, d), s.residents[d].mark)
  {
    assert s.residents[d].doc + {} == s.residents[d].doc;
  }

  /** A document is in memory after a step if it was and is not dropped, or if the step loads it. */
  lemma ResidentAfter(s: State, a: Step, d: DocId)
    requires Enabled(s, a)
    ensures d in Do(s, a).residents <==> (d in s.residents && !Drops(a, d)) || Loads(a, d)
  {
  }

  lemma NothingReceived(res: Resident, delta: Blob)
    ensures Received(res, Resident(res.doc + delta, res.mark), [], delta)
  {
  }

  lemma NamesConcat(a: seq<Row>, b: seq<Row>, k: nat)
    ensures Names(a + b, k) <==> Names(a, k) || Names(b, k)
  {
    if Names(a, k) { var r :| r in a && r.num == k; assert r in a + b; }
    if Names(b, k) { var r :| r in b && r.num == k; assert r in a + b; }
  }

  lemma ReceivedConcat(p: Resident, q: Resident, r: Resident, a: seq<Row>, x: Blob, b: seq<Row>, y: Blob)
    requires Received(p, q, a, x) && Received(q, r, b, y)
    ensures Received(p, r, a + b, x + y)
  {
    DeltasConcat(a, b);
    forall k: nat { NamesConcat(a, b, k); }
  }

  /** Along any run a resident gets exactly what is applied to it: its document grows by those blobs
      and its mark by those seqs, whatever else happens, until it is unloaded. */
  lemma {:induction false} RunReceives(s: State, run: seq<Step>, d: DocId)
    requires Inv(s) && Legal(s, run) && d in s.residents && StaysLoaded(run, d)
    ensures d in Exec(s, run).residents
    ensures Received(s.residents[d], Exec(s, run).residents[d], AllRowsApplied(s, run, d), AllOtherDeltas(run, d))
    decreases |run|
  {
    if run != [] {
      var s' := Do(s, run[0]);
      StepReceives(s, run[0], d);
      StepKeepsInv(s, run[0]);
      RunReceives(s', run[1..], d);
      ReceivedConcat(s.residents[d], s'.residents[d], Exec(s', run[1..]).residents[d],
                     RowsApplied(s, run[0], d), OtherDeltas(run[0], d),
                     AllRowsApplied(s', run[1..], d), AllOtherDeltas(run[1..], d));
    }
  }

  /** Steps that load `d`, and how many rows of the log they hydrate from. */
  predicate Loads(a: Step, d: DocId) { (a.OpenDoc? || a.Attach? || a.Read?) && a.d == d }

  function RowsLoaded(s: State, a: Step, d: DocId): nat
    requires Loads(a, d)
  {
    if a.OpenDoc? then a.view else |s.db.RowsOf(d)|
  }

  lemma LoadHydrates(s: State, a: Step, d: DocId)
    requires Inv(s) && Enabled(s, a) && d !in s.residents && Loads(a, d)
    ensures var n := RowsLoaded(s, a, d);
            && n <= |s.db.RowsOf(d)| && d in Do(s, a).residents
            && Do(s, a).residents[d] == Resident(Deltas(s.db.RowsOf(d)[..n]), Mark(n, {}))
  {
    var rows, n := s.db.RowsOf(d), RowsLoaded(s, a, d);
    assert GaplessAt(s.db, d);
    if a.OpenDoc? {
      ColdReadsAreCommitted(s, a.t, d);
      assert s.Visible(a.t, d, a.view) == rows[..n];
    } else {
      UntransactedIsCommitted(s, d, a.peek);
      assert rows == rows[..n];
    }
    HydratedIsLog(rows[..n]);
  }

  /** A loaded resident has the watermark n of its log, with nothing parked, exactly when every row
      behind those it was hydrated from has been applied to it; its document is then the log. */
  lemma CaughtUpIff(s: State, load: Step, rest: seq<Step>, d: DocId)
    requires Inv(s) && Enabled(s, load) && d !in s.residents && Loads(load, d)
    requires Legal(Do(s, load), rest) && StaysLoaded(rest, d)
    ensures var f, applied := Exec(Do(s, load), rest), AllRowsApplied(Do(s, load), rest, d);
            var log := f.db.RowsOf(d);
            && d in f.residents
            && (f.residents[d].mark == Mark(|log|, {})
                <==> forall i :: RowsLoaded(s, load, d) <= i < |log| ==> log[i] in applied)
            && (f.residents[d].mark == Mark(|log|, {}) ==> f.residents[d].doc == Deltas(log))
  {
    var loaded := Do(s, load);
    var f, applied := Exec(loaded, rest), AllRowsApplied(loaded, rest, d);
    StepKeepsInv(s, load);
    LoadHydrates(s, load, d);
    RunReceives(loaded, rest, d);
    RunKeepsInv(loaded, rest);
    AppliedAreLogged(loaded, rest, d);
    assert GaplessAt(f.db, d) && ResidentInv(f.db.RowsOf(d), f.residents[d]);
    MarkIsFull(f.db.RowsOf(d), f.residents[d], RowsLoaded(s, load, d), applied);
  }

  lemma MarkIsFull(log: seq<Row>, res: Resident, loaded: nat, applied: seq<Row>)
    requires Numbered(log, 1) && ResidentInv(log, res)
    requires forall k: nat :: res.mark.Has(k) <==> 1 <= k <= loaded || Names(applied, k)
    requires forall r :: r in applied ==> r in log
    ensures res.mark == Mark(|log|, {}) <==> forall i :: loaded <= i < |log| ==> log[i] in applied
    ensures res.mark == Mark(|log|, {}) ==> res.doc == Deltas(log)
  {
    var n := |log|;
    if res.mark == Mark(n, {}) {
      forall i: nat | loaded <= i < n ensures log[i] in applied {
        assert res.mark.Has(i + 1);
        var r :| r in applied && r.num == i + 1;
        assert r in log;
      }
      forall x | x in Deltas(log) ensures x in res.doc {
        var r :| r in log && x in r.blob;
        assert res.mark.Has(r.num) && log[r.num - 1] == r;
      }
    }
    if forall i :: loaded <= i < n ==> log[i] in applied {
      forall k: nat | 1 <= k <= n ensures res.mark.Has(k) {
        if k > loaded { assert log[k - 1] in applied && log[k - 1].num == k; }
      }
      FullMark(res.mark, n);
    }
  }

  lemma FullMark(m: Mark, n: nat)
    requires m.Tight() && forall k: nat :: m.Has(k) <==> 1 <= k <= n
    ensures m == Mark(n, {})
  {
    assert m.low >= n || m.Has(m.low + 1);
    assert m.low <= n || m.Has(m.low);
    forall k ensures k !in m.ahead { assert k in m.ahead ==> m.Has(k); }
  }

  /** Whatever a run applies is a row of the log at its end. */
  lemma {:induction false} AppliedAreLogged(s: State, run: seq<Step>, d: DocId)
    requires Inv(s) && Legal(s, run)
    ensures forall r :: r in AllRowsApplied(s, run, d) ==> r in Exec(s, run).db.RowsOf(d)
    ensures s.db.RowsOf(d) <= Exec(s, run).db.RowsOf(d)
    decreases |run|
  {
    if run != [] {
      var a := run[0];
      StepKeepsInv(s, a);
      AppliedAreLogged(Do(s, a), run[1..], d);
      OnlyCommitsWrite(s, a, d);
      forall r | r in RowsApplied(s, a, d) ensures r in s.db.RowsOf(d) {
        assert TxInv(s.db, s.live, s.txs[a.t]);
      }
    }
  }

  /** What the commits of a run append to the log of `d`, in their order. */
  function CommittedRows(s: State, run: seq<Step>, d: DocId): seq<Row>
    requires Legal(s, run)
    decreases |run|
  {
    if run == [] then []
    else RowsCommitted(s, run[0], d) + CommittedRows(Do(s, run[0]), run[1..], d)
  }

  lemma Associates(a: seq<Row>, b: seq<Row>, c: seq<Row>)
    ensures a + b + c == a + (b + c)
  {
  }

  /** The log is what was committed, in commit order; whatever was rolled back has left nothing. */
  lemma {:induction false} LogIsCommitted(s: State, run: seq<Step>, d: DocId)
    requires Inv(s) && Legal(s, run)
    ensures Exec(s, run).db.RowsOf(d) == s.db.RowsOf(d) + CommittedRows(s, run, d)
    decreases |run|
  {
    if run != [] {
      StepKeepsInv(s, run[0]);
      OnlyCommitsWrite(s, run[0], d);
      LogIsCommitted(Do(s, run[0]), run[1..], d);
      Associates(s.db.RowsOf(d), RowsCommitted(s, run[0], d), CommittedRows(Do(s, run[0]), run[1..], d));
    }
  }
}
