/** `longestCommonSubsequence` (packages/blocks/src/ops.ts): the filled table, the walk back through
    it, and why the result is a longest common subsequence. */
module Lcs {

  function Front<T>(s: seq<T>): seq<T> requires s != [] { s[..|s| - 1] }
  function Last<T>(s: seq<T>): T requires s != [] { s[|s| - 1] }

  /** `c` is `a` with some elements left out. */
  predicate IsSub(c: seq<string>, a: seq<string>)
    decreases |a|
  {
    c == [] || (a != [] && ((Last(c) == Last(a) && IsSub(Front(c), Front(a))) || IsSub(c, Front(a))))
  }

  function Max(x: nat, y: nat): nat { if x >= y then x else y }

  /** What a table cell holds. */
  function Length(a: seq<string>, b: seq<string>): nat
    decreases |a| + |b|
  {
    if a == [] || b == [] then 0
    else if Last(a) == Last(b) then Length(Front(a), Front(b)) + 1
    else Max(Length(Front(a), b), Length(a, Front(b)))
  }

  /** What the walk back collects. */
  function Lcs(a: seq<string>, b: seq<string>): seq<string>
    decreases |a| + |b|
  {
    if a == [] || b == [] then []
    else if Last(a) == Last(b) then Lcs(Front(a), Front(b)) + [Last(a)]
    else if Length(Front(a), b) >= Length(a, Front(b)) then Lcs(Front(a), b)
    else Lcs(a, Front(b))
  }

  /** Rows below `rows` are done, and so are the first `cols` cells of row `rows`. */
  ghost predicate Filled(table: array2<nat>, a: seq<string>, b: seq<string>, rows: nat, cols: nat)
    reads table
    requires table.Length0 == |a| + 1 && table.Length1 == |b| + 1
  {
    forall i, j :: 0 <= i <= |a| && 0 <= j <= |b| && (i < rows || (i == rows && j < cols)) ==>
      table[i, j] == Length(a[..i], b[..j])
  }

  lemma CellValue(a: seq<string>, b: seq<string>, i: nat, j: nat)
    requires 1 <= i <= |a| && 1 <= j <= |b|
    ensures Length(a[..i], b[..j]) == if a[i - 1] == b[j - 1] then Length(a[..i - 1], b[..j - 1]) + 1
                                      else Max(Length(a[..i - 1], b[..j]), Length(a[..i], b[..j - 1]))
    ensures Lcs(a[..i], b[..j]) == if a[i - 1] == b[j - 1] then Lcs(a[..i - 1], b[..j - 1]) + [a[i - 1]]
                                   else if Length(a[..i - 1], b[..j]) >= Length(a[..i], b[..j - 1])
                                      then Lcs(a[..i - 1], b[..j])
                                   else Lcs(a[..i], b[..j - 1])
  {
    assert Front(a[..i]) == a[..i - 1] && Front(b[..j]) == b[..j - 1];
  }

  method FillTable(a: seq<string>, b: seq<string>) returns (table: array2<nat>)
    ensures fresh(table) && table.Length0 == |a| + 1 && table.Length1 == |b| + 1
    ensures Filled(table, a, b, |a| + 1, 0)
  {
    table := new nat[|a| + 1, |b| + 1]((i, j) => 0);
    for i := 1 to |a| + 1
      invariant Filled(table, a, b, i, 0)
      invariant forall r :: i <= r <= |a| ==> table[r, 0] == 0
    {
      for j := 1 to |b| + 1
        invariant Filled(table, a, b, i, j)
        invariant forall r :: i <= r <= |a| ==> table[r, 0] == 0
      {
        CellValue(a, b, i, j);
        table[i, j] := if a[i - 1] == b[j - 1] then table[i - 1, j - 1] + 1 else Max(table[i - 1, j], table[i, j - 1]);
      }
    }
  }

  lemma Regroup(front: seq<string>, x: string, rest: seq<string>)
    ensures front + [x] + rest == front + ([x] + rest)
  {
  }

  /** Walks from the far corner of the table, collecting equal elements in front of `out`. */
  method WalkBack(a: seq<string>, b: seq<string>, table: array2<nat>) returns (out: seq<string>)
    requires table.Length0 == |a| + 1 && table.Length1 == |b| + 1
    requires Filled(table, a, b, |a| + 1, 0)
    ensures out == Lcs(a, b)
  {
    out := [];
    var i, j := |a|, |b|;
    assert a[..i] == a && b[..j] == b;
    while i > 0 && j > 0
      invariant 0 <= i <= |a| && 0 <= j <= |b|
      invariant Lcs(a[..i], b[..j]) + out == Lcs(a, b)
      decreases i + j
    {
      CellValue(a, b, i, j);
      if a[i - 1] == b[j - 1] {
        Regroup(Lcs(a[..i - 1], b[..j - 1]), a[i - 1], out);
        out := [a[i - 1]] + out;
        i, j := i - 1, j - 1;
      } else if table[i - 1, j] >= table[i, j - 1] {
        i := i - 1;
      } else {
        j := j - 1;
      }
    }
  }

  method LongestCommonSubsequence(a: seq<string>, b: seq<string>) returns (out: seq<string>)
    ensures out == Lcs(a, b)
  {
    var table := FillTable(a, b);
    out := WalkBack(a, b, table);
  }

  // ---------------------------------------------------------------- optimality

  lemma {:induction false} LcsIsCommon(a: seq<string>, b: seq<string>)
    ensures IsSub(Lcs(a, b), a) && IsSub(Lcs(a, b), b)
    ensures |Lcs(a, b)| == Length(a, b)
    decreases |a| + |b|
  {
    if a != [] && b != [] {
      LcsIsCommon(Front(a), Front(b));
      LcsIsCommon(Front(a), b);
      LcsIsCommon(a, Front(b));
      if Last(a) == Last(b) {
        assert Front(Lcs(a, b)) == Lcs(Front(a), Front(b));
      }
    }
  }

  lemma {:induction false} SubDropsLast(c: seq<string>, a: seq<string>)
    requires IsSub(c, a) && c != []
    ensures IsSub(Front(c), a) && IsSub(Front(c), Front(a))
    decreases |a|
  {
    if !(Last(c) == Last(a) && IsSub(Front(c), Front(a))) {
      SubDropsLast(c, Front(a));
    }
  }

  lemma {:induction false} NoLongerCommon(c: seq<string>, a: seq<string>, b: seq<string>)
    requires IsSub(c, a) && IsSub(c, b)
    ensures |c| <= Length(a, b)
    decreases |a| + |b|
  {
    if c != [] {
      SubDropsLast(c, a);
      SubDropsLast(c, b);
      if Last(a) == Last(b) {
        NoLongerCommon(Front(c), Front(a), Front(b));
      } else if IsSub(c, Front(a)) {
        NoLongerCommon(c, Front(a), b);
      } else {
        NoLongerCommon(c, a, Front(b));
      }
    }
  }

  /** The result is common to both inputs and no common subsequence is longer. */
  lemma LcsIsOptimal(a: seq<string>, b: seq<string>)
    ensures IsSub(Lcs(a, b), a) && IsSub(Lcs(a, b), b)
    ensures forall c :: IsSub(c, a) && IsSub(c, b) ==> |c| <= |Lcs(a, b)|
  {
    LcsIsCommon(a, b);
    forall c | IsSub(c, a) && IsSub(c, b) ensures |c| <= |Lcs(a, b)| { NoLongerCommon(c, a, b); }
  }

  // ---------------------------------------------------------------- subsequences of distinct lists

  predicate Distinct(a: seq<string>) { forall i, j :: 0 <= i < j < |a| ==> a[i] != a[j] }

  function Keep(a: seq<string>, ids: set<string>): seq<string>
    decreases |a|
  {
    if a == [] then [] else Keep(Front(a), ids) + if Last(a) in ids then [Last(a)] else []
  }

  lemma {:induction false} SubElements(c: seq<string>, a: seq<string>)
    requires IsSub(c, a)
    ensures forall x :: x in c ==> x in a
    decreases |a|
  {
    if c != [] {
      if Last(c) == Last(a) && IsSub(Front(c), Front(a)) { SubElements(Front(c), Front(a)); }
      else { SubElements(c, Front(a)); }
      assert c == Front(c) + [Last(c)] && a == Front(a) + [Last(a)];
    }
  }

  lemma {:induction false} KeepSame(a: seq<string>, s: set<string>, t: set<string>)
    requires forall x :: x in a ==> (x in s <==> x in t)
    ensures Keep(a, s) == Keep(a, t)
    decreases |a|
  {
    if a != [] {
      assert a == Front(a) + [Last(a)];
      KeepSame(Front(a), s, t);
    }
  }

  lemma {:induction false} KeepNone(a: seq<string>)
    ensures Keep(a, {}) == []
    decreases |a|
  {
    if a != [] { KeepNone(Front(a)); }
  }

  /** Filtering a list without repetitions by the elements of a subsequence gives that subsequence. */
  lemma {:induction false} KeepSub(c: seq<string>, a: seq<string>)
    requires IsSub(c, a) && Distinct(a)
    ensures Keep(a, set x | x in c) == c
    decreases |a|
  {
    if c == [] {
      assert (set x | x in c) == {};
      KeepNone(a);
    } else {
      var x := Last(a);
      assert a == Front(a) + [x] && x !in Front(a);
      if Last(c) == x && IsSub(Front(c), Front(a)) {
        assert c == Front(c) + [x];
        KeepSub(Front(c), Front(a));
        KeepSame(Front(a), set y | y in c, set y | y in Front(c));
      } else {
        SubElements(c, Front(a));
        KeepSub(c, Front(a));
      }
    }
  }
}
