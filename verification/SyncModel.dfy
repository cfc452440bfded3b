/** Resident documents and the operations `HocuspocusSync` performs on them
    (packages/sync/src/hocuspocus.ts), as functions and as the class that updates its maps in place. */
module SyncModel {
  import opened DocLog
  import opened Watermark

  datatype Resident = Resident(doc: Blob, mark: Mark)

  function Merge(rows: seq<Row>): Blob {
    if rows == [] then {} else rows[0].blob + Merge(rows[1..])
  }

  lemma {:induction false} MergeIsDeltas(rows: seq<Row>)
    ensures Merge(rows) == Deltas(rows)
  {
    if rows != [] {
      MergeIsDeltas(rows[1..]);
      DeltasConcat([rows[0]], rows[1..]);
      assert rows == [rows[0]] + rows[1..];
      assert Deltas([rows[0]]) == rows[0].blob;
    }
  }

  /** `onLoadDocument`: replay the rows, watermark at the last one. */
  function Hydrate(rows: seq<Row>): Resident {
    Resident(Merge(rows), Mark(if rows == [] then 0 else rows[|rows| - 1].num, {}))
  }

  /** Snapshot of the resident topped up with the rows above the watermark. */
  function CloneOf(res: Resident, visible: seq<Row>): Blob {
    res.doc + Merge(ReadRows(visible, res.mark.low))
  }

  /** Right after hydration the clone is what was read. */
  lemma ColdClone(visible: seq<Row>)
    ensures CloneOf(Hydrate(visible), visible) == Deltas(visible)
  {
    var tail := ReadRows(visible, Hydrate(visible).mark.low);
    MergeIsDeltas(visible);
    MergeIsDeltas(tail);
    assert Deltas(tail) <= Deltas(visible);
  }

  /** The clone holds the resident and every visible row above its watermark, and nothing else. */
  lemma CloneHolds(res: Resident, visible: seq<Row>, x: Delta)
    ensures x in CloneOf(res, visible)
       <==> x in res.doc || exists r :: r in visible && r.num > res.mark.low && x in r.blob
  {
    MergeIsDeltas(ReadRows(visible, res.mark.low));
  }

  /** Hydrating from gapless rows gives the whole log, and a watermark at its end. */
  lemma HydratedIsLog(rows: seq<Row>)
    requires Numbered(rows, 1)
    ensures Hydrate(rows) == Resident(Deltas(rows), Mark(|rows|, {}))
  {
    MergeIsDeltas(rows);
  }

  function ApplyRows(res: Resident, rows: seq<Row>): Resident
    decreases |rows|
  {
    if rows == [] then res
    else
      var last := rows[|rows| - 1];
      var before := ApplyRows(res, rows[..|rows| - 1]);
      Resident(before.doc + last.blob, Advance(before.mark, last.num))
  }

  /** `#applyCommitted` when the apply of `updates[done]` throws after merging `partial`. */
  function ApplyStaged(res: Resident, updates: seq<Row>, done: nat, partial: Blob): Resident
    requires done <= |updates|
  {
    var r := ApplyRows(res, updates[..done]);
    Resident(r.doc + partial, r.mark)
  }

  /** Some row carries the seq `k`. */
  ghost predicate Names(rows: seq<Row>, k: nat) { k >= 1 && exists r :: r in rows && r.num == k }

  /** `after` is `before` with exactly the blobs of `rows` and the deltas of `partial` merged in, and
      with exactly the seqs of `rows` added to those applied. */
  ghost predicate Received(before: Resident, after: Resident, rows: seq<Row>, partial: Blob) {
    && after.doc == before.doc + Deltas(rows) + partial
    && forall k: nat :: after.mark.Has(k) <==> before.mark.Has(k) || Names(rows, k)
  }

  lemma {:induction false} RowsAreReceived(res: Resident, rows: seq<Row>)
    requires res.mark.Tight()
    ensures ApplyRows(res, rows).mark.Tight() && Received(res, ApplyRows(res, rows), rows, {})
    decreases |rows|
  {
    if rows != [] {
      var front, last := rows[..|rows| - 1], rows[|rows| - 1];
      RowsAreReceived(res, front);
      AdvanceAdds(ApplyRows(res, front).mark, last.num);
      assert rows == front + [last];
      DeltasConcat(front, [last]);
      assert Deltas([last]) == last.blob;
      NamesAppend(front, last);
    }
  }

  lemma NamesAppend(rows: seq<Row>, r: Row)
    ensures forall k: nat :: Names(rows + [r], k) <==> Names(rows, k) || (k == r.num && k >= 1)
  {
    assert r in rows + [r];
    forall k: nat | Names(rows, k) ensures Names(rows + [r], k) {
      var q :| q in rows && q.num == k;
      assert q in rows + [r];
    }
  }

  /** An apply that fails at `updates[done]` has delivered the rows before it, and `partial`. */
  lemma StagedIsReceived(res: Resident, updates: seq<Row>, done: nat, partial: Blob)
    requires res.mark.Tight() && done <= |updates|
    ensures var after := ApplyStaged(res, updates, done, partial);
            after.mark.Tight() && Received(res, after, updates[..done], partial)
  {
    RowsAreReceived(res, updates[..done]);
  }

  /** `Y.mergeUpdates` over the captured updates. */
  function MergeUpdates(updates: seq<Blob>): Blob {
    if updates == [] then {} else updates[0] + MergeUpdates(updates[1..])
  }

  /** `blob` holds the deltas of all the updates, and nothing else. */
  ghost predicate UnionOf(blob: Blob, updates: seq<Blob>) {
    forall x :: x in blob <==> exists i :: 0 <= i < |updates| && x in updates[i]
  }

  lemma {:induction false} MergedIsUnion(updates: seq<Blob>)
    ensures UnionOf(MergeUpdates(updates), updates)
  {
    if updates != [] {
      MergedIsUnion(updates[1..]);
      forall x ensures x in MergeUpdates(updates) <==> exists i :: 0 <= i < |updates| && x in updates[i] {
        if x in MergeUpdates(updates[1..]) {
          var i :| 0 <= i < |updates[1..]| && x in updates[1..][i];
          assert x in updates[i + 1];
        } else if i :| 0 <= i < |updates| && x in updates[i] {
          if i > 0 { assert x in updates[1..][i - 1]; }
        }
      }
    }
  }

  /** One row is staged, under the next seq; it holds what the updates hold, and is what the
      transaction has written more than before. */
  ghost predicate Persisted(db: Tables, own: Own, own': Own, d: DocId, staged: seq<Row>, updates: seq<Blob>) {
    && |staged| == 1 && staged[0].num == |db.RowsOf(d)| + |own.RowsOf(d)| + 1
    && UnionOf(staged[0].blob, updates)
    && own'.RowsOf(d) == own.RowsOf(d) + staged
    && forall e :: e != d ==> own'.RowsOf(e) == own.RowsOf(e)
  }

  lemma WriteIsPersisted(db: Tables, own: Own, d: DocId, updates: seq<Blob>)
    requires Gapless(db) && Continues(db, own)
    ensures var row := Row(NextSeq(db, own, d), MergeUpdates(updates));
            Persisted(db, own, WriteOne(db, own, d, row.blob), d, [row], updates)
  {
    MergedIsUnion(updates);
    WriteContinues(db, own, d, MergeUpdates(updates));
  }

  /** What an entry of the ahead map looks like: not empty, and behind a gap. */
  ghost predicate Parked(m: Mark) { m.ahead != {} && m.Tight() }

  /** The private maps of the service. */
  class HocuspocusSync {
    var documents: map<DocId, Blob>
    var appliedSeq: map<DocId, nat>
    var aheadSeqs: map<DocId, set<nat>>
    var liveConnections: set<DocId>

    ghost predicate Valid()
      reads this
    {
      && appliedSeq.Keys == documents.Keys
      && aheadSeqs.Keys <= documents.Keys
      && liveConnections <= documents.Keys
      && forall d :: d in aheadSeqs ==> Parked(Mark(appliedSeq[d], aheadSeqs[d]))
    }

    ghost function MarkOf(d: DocId): Mark
      reads this
    {
      Mark(if d in appliedSeq then appliedSeq[d] else 0, if d in aheadSeqs then aheadSeqs[d] else {})
    }

    ghost function Residents(): map<DocId, Resident>
      reads this
    {
      map d | d in documents :: Resident(documents[d], MarkOf(d))
    }

    constructor ()
      ensures Valid() && Residents() == map[] && liveConnections == {}
    {
      documents, appliedSeq, aheadSeqs, liveConnections := map[], map[], map[], {};
    }

    method OnLoadDocument(d: DocId, rows: seq<Row>)
      requires Valid() && d !in documents
      modifies this
      ensures Valid() && Residents() == old(Residents())[d := Hydrate(rows)]
      ensures documents.Keys == old(documents.Keys) + {d} && liveConnections == old(liveConnections)
    {
      var doc: Blob := {};
      for i := 0 to |rows|
        invariant doc + Merge(rows[i..]) == Merge(rows)
      {
        assert rows[i..][1..] == rows[i + 1..];
        doc := doc + rows[i].blob;
      }
      documents := documents[d := doc];
      appliedSeq := appliedSeq[d := if rows == [] then 0 else rows[|rows| - 1].num];
      aheadSeqs := aheadSeqs - {d};
    }

    method AfterUnloadDocument(d: DocId)
      requires Valid() && d !in liveConnections
      modifies this
      ensures Valid() && Residents() == old(Residents()) - {d}
      ensures liveConnections == old(liveConnections)
    {
      documents := documents - {d};
      appliedSeq := appliedSeq - {d};
      aheadSeqs := aheadSeqs - {d};
    }

    /** Open-replace: the new direct connection is stored before the previous one is dropped. */
    method OpenDirect(d: DocId, rows: seq<Row>)
      requires Valid()
      modifies this
      ensures Valid() && liveConnections == old(liveConnections) + {d}
      ensures Residents() == if d in old(documents) then old(Residents()) else old(Residents())[d := Hydrate(rows)]
    {
      if d !in documents {
        OnLoadDocument(d, rows);
      }
      liveConnections := liveConnections + {d};
    }

    method AdvanceWatermark(d: DocId, num: nat)
      requires Valid() && d in documents
      modifies this`appliedSeq, this`aheadSeqs
      ensures Valid() && MarkOf(d) == Advance(old(MarkOf(d)), num)
      ensures forall e :: e != d ==> MarkOf(e) == old(MarkOf(e))
    {
      AdvanceAdds(MarkOf(d), num);
      var current := appliedSeq[d];
      if num <= current {
        return;
      }
      if num > current + 1 {
        var ahead := if d in aheadSeqs then aheadSeqs[d] else {};
        aheadSeqs := aheadSeqs[d := ahead + {num}];
        return;
      }
      var next := num;
      if d in aheadSeqs {
        var ahead := aheadSeqs[d];
        while next + 1 in ahead
          invariant Drain(next, ahead) == Drain(num, aheadSeqs[d])
          decreases |ahead|
        {
          next := next + 1;
          ahead := ahead - {next};
        }
        aheadSeqs := if ahead == {} then aheadSeqs - {d} else aheadSeqs[d := ahead];
      }
      appliedSeq := appliedSeq[d := next];
    }

    /** The loop of `#applyCommitted` over a resident document, up to the update that throws. */
    method ApplyToResident(d: DocId, updates: seq<Row>, done: nat, partial: Blob)
      requires Valid() && d in documents && done <= |updates|
      modifies this`documents, this`appliedSeq, this`aheadSeqs
      ensures Valid() && documents.Keys == old(documents.Keys)
      ensures Resident(documents[d], MarkOf(d))
           == ApplyStaged(Resident(old(documents[d]), old(MarkOf(d))), updates, done, partial)
      ensures Received(Resident(old(documents[d]), old(MarkOf(d))), Resident(documents[d], MarkOf(d)),
                       updates[..done], partial)
      ensures forall e :: e != d && e in documents ==>
                documents[e] == old(documents[e]) && MarkOf(e) == old(MarkOf(e))
    {
      ghost var start := Resident(documents[d], MarkOf(d));
      StagedIsReceived(start, updates, done, partial);
      for i := 0 to done
        invariant Valid() && documents.Keys == old(documents.Keys)
        invariant Resident(documents[d], MarkOf(d)) == ApplyRows(start, updates[..i])
        invariant forall e :: e != d && e in documents ==>
                    documents[e] == old(documents[e]) && MarkOf(e) == old(MarkOf(e))
      {
        assert updates[..i + 1][..i] == updates[..i];
        documents := documents[d := documents[d] + updates[i].blob];
        AdvanceWatermark(d, updates[i].num);
      }
      documents := documents[d := documents[d] + partial];
    }

    method ApplyCommitted(d: DocId, updates: seq<Row>, done: nat, partial: Blob)
      requires Valid() && done <= |updates|
      modifies this`documents, this`appliedSeq, this`aheadSeqs
      ensures Valid()
      ensures Residents() == if d in old(documents)
                             then old(Residents())[d := ApplyStaged(old(Residents())[d], updates, done, partial)]
                             else old(Residents())
      ensures d in old(documents) ==>
                Received(old(Residents())[d], Residents()[d], updates[..done], partial)
    {
      if d !in documents {
        appliedSeq, aheadSeqs := appliedSeq - {d}, aheadSeqs - {d};
        return;
      }
      ApplyToResident(d, updates, done, partial);
    }

    /** The body of `#runTransactLocked`, given the rows its reads return. */
    method TransactOver(tx: WriteTx, visible: seq<Row>, d: DocId, fn: Blob -> seq<Blob>)
      returns (seen: Blob, staged: seq<Row>)
      requires Valid() && Gapless(tx.db) && Continues(tx.db, tx.State())
      modifies this, tx
      ensures Valid() && Continues(tx.db, tx.State())
      ensures Residents() == if d in old(documents) then old(Residents()) else old(Residents())[d := Hydrate(visible)]
      ensures d in Residents() && seen == CloneOf(Residents()[d], visible)
      ensures fn(seen) == [] ==> staged == [] && tx.State() == old(tx.State())
      ensures fn(seen) != [] ==>
                tx.State() == WriteOne(tx.db, old(tx.State()), d, MergeUpdates(fn(seen))) &&
                staged == [Row(NextSeq(tx.db, old(tx.State()), d), MergeUpdates(fn(seen)))]
      ensures fn(seen) != [] ==> Persisted(tx.db, old(tx.State()), tx.State(), d, staged, fn(seen))
    {
      OpenDirect(d, visible);
      var low := appliedSeq[d];
      seen := documents[d] + Merge(ReadRows(visible, low));
      assert seen == CloneOf(Residents()[d], visible);
      var updates := fn(seen);
      staged := [];
      if updates != [] {
        var merged := MergeUpdates(updates);
        WriteIsPersisted(tx.db, tx.State(), d, updates);
        var num := tx.Write(d, merged);
        staged := [Row(num, merged)];
      }
    }

    /** `#runTransactLocked` with nothing interleaved: open, clone, run `fn`, persist, stage. Hydration
        and tail both read what the transaction sees; a document that was not resident is exactly that. */
    method RunTransactLocked(tx: WriteTx, view: nat, d: DocId, fn: Blob -> seq<Blob>)
      returns (seen: Blob, staged: seq<Row>)
      requires Valid() && Gapless(tx.db) && Continues(tx.db, tx.State()) && tx.CanSee(d, view)
      modifies this, tx
      ensures Valid() && Continues(tx.db, tx.State())
      ensures Residents() == if d in old(documents) then old(Residents())
                             else old(Residents())[d := Hydrate(old(tx.Visible(d, view)))]
      ensures d in Residents() && seen == CloneOf(Residents()[d], old(tx.Visible(d, view)))
      ensures d !in old(documents) ==> seen == Deltas(old(tx.Visible(d, view)))
      ensures fn(seen) == [] ==> staged == [] && tx.State() == old(tx.State())
      ensures fn(seen) != [] ==>
                tx.State() == WriteOne(tx.db, old(tx.State()), d, MergeUpdates(fn(seen))) &&
                staged == [Row(NextSeq(tx.db, old(tx.State()), d), MergeUpdates(fn(seen)))]
      ensures fn(seen) != [] ==> Persisted(tx.db, old(tx.State()), tx.State(), d, staged, fn(seen))
      ensures forall x :: x in seen <==>
                x in Residents()[d].doc ||
                exists r :: r in old(tx.Visible(d, view)) && r.num > Residents()[d].mark.low && x in r.blob
    {
      var visible := tx.Visible(d, view);
      ColdClone(visible);
      seen, staged := TransactOver(tx, visible, d, fn);
      forall x { CloneHolds(Residents()[d], visible, x); }
    }
  }
}
