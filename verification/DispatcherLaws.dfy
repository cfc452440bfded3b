/** What a dispatch leaves and answers, read off the invocation: which acts of the handler count, which
    fault decides, and what the caller is told (packages/dispatcher/src/dispatcher.ts). */
module DispatcherLaws {
  import opened Options
  import opened Dispatcher

  // ---------------------------------------------------------------- the handler

  /** One of the first `n` acts is a `transact`. */
  predicate TransactsBefore(acts: seq<Act>, n: nat)
    requires n <= |acts|
  {
    exists j :: 0 <= j < n && acts[j].Transact?
  }

  /** What act `i` throws: a `transact` behind another one always does. */
  function ErrorAt(acts: seq<Act>, i: nat): Option<Thrown>
    requires i < |acts|
  {
    if acts[i].Transact? && TransactsBefore(acts, i) then Some(Other) else acts[i].fails
  }

  /** The act throws and the handler does not catch it. */
  predicate BreaksAt(acts: seq<Act>, i: nat)
    requires i < |acts|
  {
    ErrorAt(acts, i).Some? && !acts[i].caught
  }

  /** The handler attempts exactly its first `n` acts: it stops behind the first that breaks. */
  predicate Attempts(acts: seq<Act>, n: nat) {
    && n <= |acts| && (forall i :: 0 <= i < n - 1 ==> !BreaksAt(acts, i))
    && (n < |acts| ==> n > 0 && BreaksAt(acts, n - 1))
  }

  /** The values of the writes among the first `n` acts that went through, in order. */
  function Written(acts: seq<Act>, n: nat): seq<string>
    requires n <= |acts|
  {
    if n == 0 then []
    else Written(acts, n - 1) + if acts[n - 1].DbWrite? && acts[n - 1].fails.None? then [acts[n - 1].value] else []
  }

  /** Act `i` is the first `transact` among the first `n`. */
  predicate FirstTransact(acts: seq<Act>, n: nat, i: nat) {
    i < n <= |acts| && acts[i].Transact? && !TransactsBefore(acts, i)
  }

  /** `passed` and `staged` are those of the first `transact` among the first `n` acts, if any. */
  ghost predicate OnlyTheFirst(acts: seq<Act>, n: nat, passed: seq<string>, staged: seq<string>)
    requires n <= |acts|
  {
    && (!TransactsBefore(acts, n) ==> passed == [] && staged == [])
    && (forall i: nat :: FirstTransact(acts, n, i) ==>
          passed == [acts[i].delta] && staged == if acts[i].fails.None? then [acts[i].delta] else [])
  }

  /** The handling behind the first `n` acts. */
  ghost predicate Behind(acts: seq<Act>, n: nat, h: Handling)
    requires n <= |acts|
  {
    && h.writes == Written(acts, n) && h.called == TransactsBefore(acts, n) && OnlyTheFirst(acts, n, h.passed, h.staged)
    && h.threw == if n > 0 && BreaksAt(acts, n - 1) then ErrorAt(acts, n - 1) else None
  }

  lemma FirstStays(acts: seq<Act>, n: nat, passed: seq<string>, staged: seq<string>)
    requires n < |acts| && OnlyTheFirst(acts, n, passed, staged) && (TransactsBefore(acts, n) || !acts[n].Transact?)
    ensures OnlyTheFirst(acts, n + 1, passed, staged)
  {
    forall i: nat | FirstTransact(acts, n + 1, i) ensures FirstTransact(acts, n, i) {
      if i == n { assert false; }
    }
  }

  lemma FirstIsNew(acts: seq<Act>, n: nat, passed: seq<string>, staged: seq<string>)
    requires n < |acts| && OnlyTheFirst(acts, n, [], []) && !TransactsBefore(acts, n) && acts[n].Transact?
    requires passed == [acts[n].delta] && staged == if acts[n].fails.None? then [acts[n].delta] else []
    ensures OnlyTheFirst(acts, n + 1, passed, staged)
  {
  }

  lemma OneMoreAct(acts: seq<Act>, n: nat, h: Handling)
    requires n < |acts| && Behind(acts, n, h) && h.threw.None?
    ensures Behind(acts, n + 1, PerformAct(h, acts[n]))
  {
    hide OnlyTheFirst;
    var next := PerformAct(h, acts[n]);
    assert ErrorOf(acts[n], h.called) == ErrorAt(acts, n);
    assert TransactsBefore(acts, n + 1) == (TransactsBefore(acts, n) || acts[n].Transact?);
    if h.called || !acts[n].Transact? {
      FirstStays(acts, n, h.passed, h.staged);
      assert next.passed == h.passed && next.staged == h.staged;
    } else {
      NoneYet(acts, n, h.passed, h.staged);
      FirstIsNew(acts, n, next.passed, next.staged);
    }
  }

  lemma NoneYet(acts: seq<Act>, n: nat, passed: seq<string>, staged: seq<string>)
    requires n <= |acts| && OnlyTheFirst(acts, n, passed, staged) && !TransactsBefore(acts, n)
    ensures passed == [] && staged == [] && OnlyTheFirst(acts, n, [], [])
  {
  }

  /** A handler attempts its acts in order up to the first that breaks. It throws what that one throws;
      the writes that went through remain, in order; the first `transact` alone is passed through, and
      staged if it succeeds. */
  lemma {:induction false} HandlerLeaves(acts: seq<Act>, n: nat, h: Handling)
    requires n <= |acts| && Behind(acts, n, h) && forall i :: 0 <= i < n - 1 ==> !BreaksAt(acts, i)
    ensures exists m: nat :: Attempts(acts, m) && Behind(acts, m, RunActs(acts[n..], h))
    decreases |acts| - n
  {
    hide PerformAct;
    if n == |acts| || h.threw.Some? {
      assert Attempts(acts, n);
    } else {
      OneMoreAct(acts, n, h);
      assert acts[n..][0] == acts[n] && acts[n..][1..] == acts[n + 1..];
      HandlerLeaves(acts, n + 1, PerformAct(h, acts[n]));
    }
  }

  lemma RanLeaves(v: Invocation)
    ensures exists m: nat :: Attempts(v.acts, m) && Behind(v.acts, m, Ran(v))
  {
    assert v.acts[0..] == v.acts;
    HandlerLeaves(v.acts, 0, START);
  }

  /** The handler throws exactly if one of its acts breaks. */
  lemma ThrowsIff(v: Invocation)
    ensures Ran(v).threw.None? <==> forall i :: 0 <= i < |v.acts| ==> !BreaksAt(v.acts, i)
  {
    RanLeaves(v);
    var m: nat :| Attempts(v.acts, m) && Behind(v.acts, m, Ran(v));
    if Ran(v).threw.None? {
      assert m == |v.acts|;
      assert m > 0 ==> !BreaksAt(v.acts, m - 1);
    }
  }

  lemma {:induction false} TaggedInOrder(id: nat, values: seq<string>)
    ensures |Tag(id, values)| == |values|
    ensures forall i :: 0 <= i < |values| ==> Tag(id, values)[i] == Tagged(id, values[i])
  {
    if values != [] {
      TaggedInOrder(id, values[1..]);
      assert forall i :: 1 <= i < |values| ==> values[i] == values[1..][i - 1];
    }
  }

  // ---------------------------------------------------------------- the try block

  /** The places where the try block can throw, in order, and what is thrown there: the runner, the
      handler's acts, its end, the output parse, the end of a read, the allow row. */
  function Stage(v: Invocation, k: nat): Option<Thrown>
    requires k < 6
  {
    if k == 0 then v.opens
    else if k == 1 then Ran(v).threw
    else if k == 2 then if v.finish.Threw? then Some(v.finish.e) else None
    else if k == 3 then if v.finish == Returned(false) then Some(Other) else None
    else if k == 4 then if v.read then v.closes else None
    else if v.allow.Fine? then None else Some(v.allow.e)
  }

  /** Place `k` throws `e`, and no earlier one throws. */
  predicate Decides(v: Invocation, k: nat, e: Thrown) {
    k < 6 && Stage(v, k) == Some(e) && forall j :: 0 <= j < k ==> Stage(v, j).None?
  }

  lemma FirstErrorDecides(v: Invocation, e: Thrown)
    ensures TryError(v) == Some(e) <==> exists k: nat :: Decides(v, k, e)
  {
    hide Ran;
    assert Decides(v, 0, e) || Decides(v, 1, e) || Decides(v, 2, e) || Decides(v, 3, e) || Decides(v, 4, e) ||
           Decides(v, 5, e) || TryError(v) != Some(e);
  }

  /** A dispatch is allowed exactly if nothing at all goes wrong. */
  lemma AllowedIff(v: Invocation)
    ensures Allowed(v)
       <==> v.tenantAgrees && v.known && v.inputParses && v.gate.Pass? && v.opens.None? &&
            (forall i :: 0 <= i < |v.acts| ==> !BreaksAt(v.acts, i)) && v.finish == Returned(true) &&
            (v.read ==> v.closes.None?) && v.allow.Fine?
  {
    ThrowsIff(v);
  }

  /** The row and the answer of a dispatch that is not allowed. A permission denial is one wherever it
      comes from first; without a row the caller is told that the audit failed. */
  lemma RefusedAs(v: Invocation, r: Response)
    requires AnswersFor(v, r) && !Allowed(v)
    ensures r == if !v.tenantAgrees || !v.known || (v.inputParses && v.gate.GateThrows?) then Refused
                 else if !v.fallback.Fine? then AuditFailure
                 else if !v.inputParses then ValidationError
                 else if v.gate.Refuse? || TryError(v) == Some(Denial) then PermissionDenied
                 else HandlerError
    ensures RowOf(v) == if !v.tenantAgrees || !v.known || (v.inputParses && v.gate.GateThrows?) || !v.fallback.Fine?
                        then []
                        else if v.inputParses && (v.gate.Refuse? || TryError(v) == Some(Denial)) then [DenyRow]
                        else [ErrorRow]
  {
  }

  lemma AllowedAs(v: Invocation, r: Response)
    requires AnswersFor(v, r) && Allowed(v)
    ensures r == Output && RowOf(v) == [AllowRow]
  {
  }

  /** `out` is `s` with the tagged values behind it. */
  predicate Extended(s: seq<Tagged>, out: seq<Tagged>, id: nat, values: seq<string>) {
    && |out| == |s| + |values| && out[..|s|] == s
    && forall i :: 0 <= i < |values| ==> out[|s| + i] == Tagged(id, values[i])
  }

  /** What an allowed mutation leaves: its own writes in order, each under its id, and the update of its
      first `transact` if that succeeded. A read leaves neither, nor does whatever is not allowed. */
  lemma AllowedLeaves(s: Store, v: Invocation)
    ensures !Allowed(v) || v.read ==> After(s, v).data == s.data && After(s, v).published == s.published
    ensures Allowed(v) && !v.read ==>
              Extended(s.data, After(s, v).data, v.id, Written(v.acts, |v.acts|)) &&
              exists staged :: OnlyTheFirst(v.acts, |v.acts|, Ran(v).passed, staged) &&
                Extended(s.published, After(s, v).published, v.id, staged)
  {
    hide OnlyTheFirst, After, RowOf;
    OneRowOrNone(s, v);
    if Allowed(v) && !v.read {
      AllowedIff(v);
      RanLeaves(v);
      var m: nat :| Attempts(v.acts, m) && Behind(v.acts, m, Ran(v));
      assert m == |v.acts|;
      TaggedInOrder(v.id, Ran(v).writes);
      TaggedInOrder(v.id, Ran(v).staged);
      assert OnlyTheFirst(v.acts, |v.acts|, Ran(v).passed, Ran(v).staged);
    }
  }
}
