/** The durable side of document updates: the `doc_updates` and `doc_counters` tables, the ordered
    reader (packages/db/src/doc-updates-reader.ts) and the seq-allocating writer
    (packages/db/src/doc-updates-writer.ts). A document is the set of deltas merged into it. */
module DocLog {
  type DocId = string
  type Delta = nat
  type Blob = set<Delta>

  /** One `doc_updates` row; a binding's staged update has the same shape. */
  datatype Row = Row(num: nat, blob: Blob)

  /** `rows[d]` in seq order; `counters[d]` is `doc_counters.next_seq`. */
  datatype Tables = Tables(rows: map<DocId, seq<Row>>, counters: map<DocId, nat>) {
    function RowsOf(d: DocId): seq<Row> { if d in rows then rows[d] else [] }
  }

  const NO_TABLES := Tables(map[], map[])

  /** Everything a list of rows carries. */
  function Deltas(rows: seq<Row>): Blob {
    set r, x | r in rows && x in r.blob :: x
  }

  /** Rows numbered `first`, `first + 1`, ... */
  ghost predicate Numbered(rows: seq<Row>, first: nat) {
    forall i :: 0 <= i < |rows| ==> rows[i].num == first + i
  }

  ghost predicate InSeqOrder(rows: seq<Row>) { forall i, j :: 0 <= i < j < |rows| ==> rows[i].num <= rows[j].num }

  /** `readRows`: `WHERE seq > afterSeq ORDER BY seq`. Tables hold a document's rows in seq order. */
  function ReadRows(rows: seq<Row>, afterSeq: nat): (tail: seq<Row>)
    ensures forall r :: r in tail <==> r in rows && r.num > afterSeq
  {
    if rows == [] then []
    else (if rows[0].num > afterSeq then [rows[0]] else []) + ReadRows(rows[1..], afterSeq)
  }

  /** Every row above `afterSeq` is read as often as it is stored. */
  lemma {:induction false} TailKeepsCount(rows: seq<Row>, afterSeq: nat, r: Row)
    ensures multiset(ReadRows(rows, afterSeq))[r] == if r.num > afterSeq then multiset(rows)[r] else 0
  {
    if rows != [] {
      var head, tail := [rows[0]], ReadRows(rows[1..], afterSeq);
      assert rows == head + rows[1..];
      TailKeepsCount(rows[1..], afterSeq, r);
      assert multiset(head + tail)[r] == multiset(head)[r] + multiset(tail)[r];
    }
  }

  /** Rows are read in seq order. */
  lemma {:induction false} TailInOrder(rows: seq<Row>, afterSeq: nat)
    requires InSeqOrder(rows)
    ensures InSeqOrder(ReadRows(rows, afterSeq))
  {
    if rows != [] {
      var tail := ReadRows(rows[1..], afterSeq);
      TailInOrder(rows[1..], afterSeq);
      forall j | 0 <= j < |tail| ensures rows[0].num <= tail[j].num {
        assert tail[j] in tail;
        var k :| 0 <= k < |rows[1..]| && rows[1..][k] == tail[j];
        assert rows[k + 1] == tail[j];
      }
    }
  }

  /** On gapless rows the tail is the suffix behind the first `afterSeq` rows. */
  lemma {:induction false} TailIsSuffix(rows: seq<Row>, first: nat, afterSeq: nat)
    requires Numbered(rows, first) && first >= 1
    ensures ReadRows(rows, afterSeq)
         == if afterSeq < first then rows else if afterSeq - first + 1 <= |rows| then rows[afterSeq - first + 1..]
           else []
  {
    if rows != [] {
      TailIsSuffix(rows[1..], first + 1, afterSeq);
      var tail := ReadRows(rows[1..], afterSeq);
      if rows[0].num > afterSeq {
        assert tail == rows[1..] && rows == [rows[0]] + rows[1..];
      } else {
        assert ReadRows(rows, afterSeq) == tail;
      }
    }
  }

  // ---------------------------------------------------------------- writer

  /** What an open transaction has written so far. */
  datatype Own = Own(rows: map<DocId, seq<Row>>, counters: map<DocId, nat>) {
    function RowsOf(d: DocId): seq<Row> { if d in rows then rows[d] else [] }
  }

  const NOTHING_OWN := Own(map[], map[])

  /** The counter the transaction reads after the bootstrap insert. */
  function NextSeq(db: Tables, own: Own, d: DocId): nat {
    if d in own.counters then own.counters[d] else if d in db.counters then db.counters[d] else 1
  }

  function WriteOne(db: Tables, own: Own, d: DocId, blob: Blob): Own {
    var num := NextSeq(db, own, d);
    Own(own.rows[d := own.RowsOf(d) + [Row(num, blob)]], own.counters[d := num + 1])
  }

  function CommitTables(db: Tables, own: Own): Tables {
    Tables(map d | d in db.rows.Keys + own.rows.Keys :: db.RowsOf(d) + own.RowsOf(d), db.counters + own.counters)
  }

  /** The committed tables are gapless: rows 1..n, and the counter names n + 1. */
  ghost predicate Gapless(db: Tables) {
    forall d :: GaplessAt(db, d)
  }

  ghost predicate GaplessAt(db: Tables, d: DocId) {
    Numbered(db.RowsOf(d), 1) && if d in db.counters then db.counters[d] == |db.RowsOf(d)| + 1 else db.RowsOf(d) == []
  }

  /** A transaction's rows continue the committed ones. */
  ghost predicate Continues(db: Tables, own: Own) {
    && own.rows.Keys == own.counters.Keys
    && forall d :: d in own.rows ==> ContinuesAt(|db.RowsOf(d)|, own.rows[d], own.counters[d])
  }

  /** Rows n + 1, n + 2, ... and the counter behind them. */
  ghost predicate ContinuesAt(n: nat, rows: seq<Row>, counter: nat) {
    rows != [] && Numbered(rows, n + 1) && counter == n + |rows| + 1
  }

  lemma ContinuesElsewhere(db: Tables, db': Tables, own: Own)
    requires Continues(db, own) && forall d :: d in own.rows ==> db'.RowsOf(d) == db.RowsOf(d)
    ensures Continues(db', own)
  {
  }

  /** `DocUpdatesWriter.write`: bootstrap the counter row, read it, bump it, insert the row. */
  class WriteTx {
    const db: Tables
    var rows: map<DocId, seq<Row>>
    var counters: map<DocId, nat>

    constructor (db: Tables)
      ensures this.db == db && State() == NOTHING_OWN
    {
      this.db := db;
      rows, counters := map[], map[];
    }

    ghost function State(): Own
      reads this
    {
      Own(rows, counters)
    }

    /** What the transaction reads of `d` when its snapshot holds the first `view` committed rows. */
    function Visible(d: DocId, view: nat): seq<Row>
      requires view <= |db.RowsOf(d)|
      reads this
    {
      db.RowsOf(d)[..view] + (if d in rows then rows[d] else [])
    }

    /** A snapshot may be old, except once the transaction itself holds the counter row. */
    predicate CanSee(d: DocId, view: nat)
      reads this
    {
      view <= |db.RowsOf(d)| && (d in rows ==> view == |db.RowsOf(d)|)
    }

    method Write(d: DocId, blob: Blob) returns (num: nat)
      requires Gapless(db) && Continues(db, State())
      modifies this
      ensures State() == WriteOne(db, old(State()), d, blob)
      ensures Continues(db, State()) && num == |db.RowsOf(d)| + |old(State()).RowsOf(d)| + 1
    {
      ghost var own := State();
      WriteContinues(db, own, d, blob);
      if d !in counters && d !in db.counters {
        counters := counters[d := 1];
      }
      num := if d in counters then counters[d] else db.counters[d];
      counters := counters[d := num + 1];
      var mine := if d in rows then rows[d] else [];
      rows := rows[d := mine + [Row(num, blob)]];
      assert counters == WriteOne(db, own, d, blob).counters;
    }
  }

  lemma WriteContinues(db: Tables, own: Own, d: DocId, blob: Blob)
    requires Gapless(db) && Continues(db, own)
    ensures Continues(db, WriteOne(db, own, d, blob))
    ensures WriteOne(db, own, d, blob).RowsOf(d) == own.RowsOf(d) + [Row(|db.RowsOf(d)| + |own.RowsOf(d)| + 1, blob)]
  {
    var n, own' := |db.RowsOf(d)|, WriteOne(db, own, d, blob);
    if d in own.rows { assert ContinuesAt(n, own.rows[d], own.counters[d]); }
    assert GaplessAt(db, d);
    assert NextSeq(db, own, d) == n + |own.RowsOf(d)| + 1;
    assert ContinuesAt(n, own'.rows[d], own'.counters[d]);
  }

  /** Committing keeps the log gapless. */
  lemma CommitGapless(db: Tables, own: Own)
    requires Gapless(db) && Continues(db, own)
    ensures Gapless(CommitTables(db, own))
    ensures forall d :: CommitTables(db, own).RowsOf(d) == db.RowsOf(d) + own.RowsOf(d)
  {
    forall d {
      CommitGaplessAt(db, own, d);
    }
  }

  lemma CommitGaplessAt(db: Tables, own: Own, d: DocId)
    requires GaplessAt(db, d) && own.rows.Keys == own.counters.Keys
    requires d in own.rows ==> ContinuesAt(|db.RowsOf(d)|, own.rows[d], own.counters[d])
    ensures CommitTables(db, own).RowsOf(d) == db.RowsOf(d) + own.RowsOf(d)
    ensures GaplessAt(CommitTables(db, own), d)
  {
    var after := CommitTables(db, own);
    if d !in after.rows { assert db.RowsOf(d) + own.RowsOf(d) == []; }
  }

  lemma DeltasConcat(a: seq<Row>, b: seq<Row>)
    ensures Deltas(a + b) == Deltas(a) + Deltas(b)
  {
    forall x ensures x in Deltas(a + b) <==> x in Deltas(a) + Deltas(b) {
      if x in Deltas(a) { var r :| r in a && x in r.blob; assert r in a + b; }
      if x in Deltas(b) { var r :| r in b && x in r.blob; assert r in a + b; }
    }
  }
}
