/** What replaying an op says and does (packages/blocks/src/ops.ts, packages/blocks/src/model.ts):
    the content it keeps, the props it sets, the place it writes to, when it throws and what, and what
    the audit projection of every op of a replay reports about the list. */
module OpLaws {
  import opened BlockModel
  import opened BlockOps
  import opened Options
  import Ids

  // ---------------------------------------------------------------- content

  /** How many of the first `n` runs have text. */
  function Filled(runs: seq<StyledText>, n: nat): nat
    requires n <= |runs|
  {
    if n == 0 then 0 else Filled(runs, n - 1) + if runs[n - 1].text != "" then 1 else 0
  }

  /** Same text, and exactly the styles that were set to true. */
  ghost predicate SameRun(given: StyledText, run: StyledText) {
    run.text == given.text && forall k :: k in run.styles <==> k in given.styles && given.styles[k]
  }

  /** `runs` are the runs of `given` that have text, in order, text and styles intact. */
  ghost predicate KeepsRuns(given: seq<StyledText>, runs: seq<StyledText>) {
    && |runs| == Filled(given, |given|)
    && forall i :: 0 <= i < |given| && given[i].text != "" ==>
         Filled(given, i) < |runs| && SameRun(given[i], runs[Filled(given, i)])
  }

  lemma {:induction false} FilledTail(runs: seq<StyledText>, n: nat)
    requires 1 <= n <= |runs|
    ensures Filled(runs, n) == Filled(runs, 1) + Filled(runs[1..], n - 1)
  {
    if n > 1 { FilledTail(runs, n - 1); }
  }

  lemma {:induction false} NormalizeCounts(given: seq<StyledText>)
    ensures |NormalizeRuns(given)| == Filled(given, |given|)
  {
    if given != [] {
      NormalizeCounts(given[1..]);
      FilledTail(given, |given|);
    }
  }

  lemma {:induction false} NormalizeKeepsRun(given: seq<StyledText>, i: nat)
    requires i < |given| && given[i].text != ""
    ensures var out, j := NormalizeRuns(given), Filled(given, i); j < |out| && SameRun(given[i], out[j])
  {
    if i > 0 {
      NormalizeKeepsRun(given[1..], i - 1);
      FilledTail(given, i);
      assert given[i] == given[1..][i - 1];
    }
  }

  lemma NormalizeKeepsRuns(given: seq<StyledText>)
    ensures KeepsRuns(given, NormalizeRuns(given))
  {
    NormalizeCounts(given);
    forall i: nat | i < |given| && given[i].text != ""
      ensures Filled(given, i) < |NormalizeRuns(given)| && SameRun(given[i], NormalizeRuns(given)[Filled(given, i)])
    {
      NormalizeKeepsRun(given, i);
    }
  }

  /** What each shape of content becomes; anything else is refused. */
  ghost predicate Becomes(input: ContentInput, runs: seq<StyledText>) {
    match input
    case Missing => runs == []
    case Text(text) => if text == "" then runs == [] else runs == [StyledText(text, map[])]
    case Runs(given) => KeepsRuns(given, runs)
    case NotContent => false
  }

  lemma ContentIsKept(input: ContentInput)
    ensures Normalize(input) == Throw(InvalidContent) <==> input.NotContent?
    ensures !input.NotContent? ==>
              Normalize(input).Ok? && Becomes(input, Normalize(input).value) && CanonicalContent(Normalize(input).value)
  {
    NormalizedHas(input);
    if input.Runs? { NormalizeKeepsRuns(input.runs); }
  }

  lemma NormalizedHas(input: ContentInput)
    ensures Normalize(input).Ok? ==> CanonicalContent(Normalize(input).value)
  {
    if Normalize(input).Ok? { NormalizedIsCanonical(input); }
  }

  // ---------------------------------------------------------------- order keys

  /** The number that a string of decimal digits spells. */
  function Spells(s: string): int {
    if s == "" then 0 else 10 * Spells(s[..|s| - 1]) + (s[|s| - 1] as int - '0' as int)
  }

  predicate AllDigits(s: string) { forall i :: 0 <= i < |s| ==> '0' <= s[i] <= '9' }

  /** At least six digits that spell the position, with no zero in front beyond the sixth. */
  predicate KeyOf(key: string, index: nat) {
    AllDigits(key) && |key| >= 6 && Spells(key) == index && (|key| > 6 ==> key[0] != '0')
  }

  lemma {:induction false} DecimalSpells(n: nat)
    ensures AllDigits(Decimal(n)) && Spells(Decimal(n)) == n && |Decimal(n)| >= 1
    ensures n > 0 ==> Decimal(n)[0] != '0'
  {
    if n < 10 {
      assert Decimal(n)[..0] == "";
    } else {
      DecimalSpells(n / 10);
      var s := Decimal(n);
      assert s[..|s| - 1] == Decimal(n / 10);
    }
  }

  lemma {:induction false} ZeroInFront(s: string)
    requires AllDigits(s)
    ensures AllDigits("0" + s) && Spells("0" + s) == Spells(s)
  {
    if s == "" {
      assert "0" + s == "0" && "0"[..0] == "";
    } else {
      ZeroInFront(s[..|s| - 1]);
      assert ("0" + s)[..|s|] == "0" + s[..|s| - 1];
    }
  }

  lemma {:induction false} PaddingSpells(s: string, width: nat)
    requires AllDigits(s)
    ensures var p := Ids.PadStart(s, width);
            AllDigits(p) && Spells(p) == Spells(s) && |p| == if |s| >= width then |s| else width
    decreases width - |s|
  {
    if |s| < width {
      ZeroInFront(s);
      PaddingSpells("0" + s, width);
    }
  }

  /** The projection's key is the one key of its position. */
  lemma OrderKeyIs(index: nat)
    ensures KeyOf(Ids.PadStart(Decimal(index), 6), index)
  {
    DecimalSpells(index);
    PaddingSpells(Decimal(index), 6);
  }

  function Pow10(n: nat): nat { if n == 0 then 1 else 10 * Pow10(n - 1) }

  lemma {:induction false} SpellsBounds(s: string)
    requires AllDigits(s)
    ensures 0 <= Spells(s) < Pow10(|s|)
    ensures s != "" && s[0] != '0' ==> Pow10(|s| - 1) <= Spells(s)
  {
    if |s| > 1 {
      SpellsBounds(s[..|s| - 1]);
    } else if |s| == 1 {
      assert s[..0] == "" && Spells("") == 0;
    }
  }

  lemma {:induction false} SpellsFront(s: string)
    requires AllDigits(s) && s != ""
    ensures Spells(s) == (s[0] as int - '0' as int) * Pow10(|s| - 1) + Spells(s[1..])
  {
    if |s| == 1 {
      assert s[..0] == "" && s[1..] == "";
    } else {
      var front := s[..|s| - 1];
      SpellsFront(front);
      assert s[1..][..|s| - 2] == front[1..];
      assert Spells(s[1..]) == 10 * Spells(front[1..]) + (s[|s| - 1] as int - '0' as int);
      Scaled(s[0] as int - '0' as int, Pow10(|s| - 2));
    }
  }

  lemma Scaled(d: int, p: int)
    ensures 10 * (d * p) == d * (10 * p)
  {
  }

  lemma {:induction false} DigitsSort(a: string, b: string)
    requires AllDigits(a) && AllDigits(b) && |a| == |b|
    ensures Ids.LexLess(a, b) <==> Spells(a) < Spells(b)
    ensures a == b <==> Spells(a) == Spells(b)
    decreases |a|
  {
    if a != "" {
      SpellsFront(a);
      SpellsFront(b);
      SpellsBounds(a[1..]);
      SpellsBounds(b[1..]);
      DigitsSort(a[1..], b[1..]);
      var d, e, p := a[0] as int - '0' as int, b[0] as int - '0' as int, Pow10(|a| - 1);
      if d < e { LeadDecides(d, e, p, Spells(a[1..]), Spells(b[1..])); }
      else if e < d { LeadDecides(e, d, p, Spells(b[1..]), Spells(a[1..])); }
      else { assert a == [a[0]] + a[1..] && b == [b[0]] + b[1..]; }
    }
  }

  lemma LeadDecides(d: int, e: int, p: nat, x: int, y: int)
    requires d < e && x < p && 0 <= y
    ensures d * p + x < e * p + y
  {
    assert (d + 1) * p <= e * p;
  }

  const MILLION: nat := 1_000_000

  lemma KeyWidth(key: string, index: nat)
    requires KeyOf(key, index)
    ensures |key| == 6 <==> index < MILLION
  {
    SpellsBounds(key);
    assert Pow10(6) == MILLION;
    if |key| > 6 { PowGrows(6, |key| - 1); }
  }

  lemma {:induction false} PowGrows(m: nat, n: nat)
    requires m <= n
    ensures Pow10(m) <= Pow10(n)
  {
    if m < n { PowGrows(m, n - 1); }
  }

  /** The keys of the positions below `n` sort as the positions do. */
  ghost predicate KeysSort(n: nat) {
    forall i: nat, j: nat, a, b :: i < j < n && KeyOf(a, i) && KeyOf(b, j) ==> Ids.LexLess(a, b)
  }

  /** Order keys sort as positions do exactly in lists of at most a million blocks. */
  lemma KeysSortIff(n: nat)
    ensures KeysSort(n) <==> n <= MILLION
  {
    if n <= MILLION {
      forall i: nat, j: nat, a, b | i < j < n && KeyOf(a, i) && KeyOf(b, j) ensures Ids.LexLess(a, b) {
        KeyWidth(a, i);
        KeyWidth(b, j);
        DigitsSort(a, b);
      }
    } else {
      var a, b := Ids.PadStart(Decimal(MILLION - 1), 6), Ids.PadStart(Decimal(MILLION), 6);
      OrderKeyIs(MILLION - 1);
      OrderKeyIs(MILLION);
      LastSixDigits(a);
      FirstSevenDigits(b);
    }
  }

  lemma LastSixDigits(a: string)
    requires KeyOf(a, MILLION - 1)
    ensures a[0] == '9'
  {
    KeyWidth(a, MILLION - 1);
    SpellsFront(a);
    SpellsBounds(a[1..]);
    assert Pow10(5) == 100_000;
  }

  lemma FirstSevenDigits(b: string)
    requires KeyOf(b, MILLION)
    ensures b[0] == '1'
  {
    KeyWidth(b, MILLION);
    SpellsFront(b);
    SpellsBounds(b[1..]);
    SpellsBounds(b);
    PowGrows(6, |b| - 1);
    assert Pow10(6) == MILLION;
    if |b| > 7 { PowGrows(7, |b| - 1); }
    assert |b| == 7;
  }

  // ---------------------------------------------------------------- props

  predicate Supported(kind: string) { kind == "paragraph" || kind == "heading" }

  /** The whole numbers from 1 to 6. */
  predicate IsLevel(v: Json) {
    v in [JNum(1.0), JNum(2.0), JNum(3.0), JNum(4.0), JNum(5.0), JNum(6.0)]
  }

  /** The level a caller asks for, and the one a block has. */
  function LevelIn(props: Props): Option<Json> { if "level" in props then Some(props["level"]) else None }

  function Asked(props: Option<Props>): Option<Json> { if props.Some? then LevelIn(props.value) else None }

  /** The new level is the one asked for, else the one there was, else 1. */
  function NewLevel(asked: Option<Json>, current: Option<Json>): Json { Or(asked, Or(current, JNum(1.0))) }

  /** A paragraph has no props, a heading has its level and nothing else. */
  predicate HasProps(props: Props, kind: string, level: Json) {
    if kind == "heading" then props == map["level" := level] else props == map[]
  }

  lemma LevelsAre(v: Json)
    ensures ValidLevel(v) <==> IsLevel(v)
  {
  }

  lemma ParsedProps(kind: string, current: Props, patch: Option<Props>)
    ensures var level := NewLevel(Asked(patch), LevelIn(current));
            match ParseProps(kind, current + Or(patch, map[]))
            case Throw(UnsupportedType(k)) => k == kind && !Supported(kind)
            case Throw(InvalidProps) => kind == "heading" && !IsLevel(level)
            case Throw(_) => false
            case Ok(props) => Supported(kind) && HasProps(props, kind, level) && (kind == "heading" ==> IsLevel(level))
  {
    LevelsAre(NewLevel(Asked(patch), LevelIn(current)));
  }

  // ---------------------------------------------------------------- inserts

  /** Where a block stands that no earlier one shares its id with. */
  ghost predicate FirstWith(bs: seq<Block>, id: string, i: nat) {
    i < |bs| && bs[i].id == id && forall j :: 0 <= j < i ==> bs[j].id != id
  }

  predicate Absent(bs: seq<Block>, id: string) { forall i :: 0 <= i < |bs| ==> bs[i].id != id }

  /** The projection reports the block that stands at position `i`. */
  ghost predicate Reports(post: PostState, doc_id: string, bs: seq<Block>, i: nat) {
    && i < |bs| && post.id == bs[i].id && post.kind == bs[i].kind && post.props == bs[i].props
    && post.content == bs[i].content && post.doc_id == doc_id && KeyOf(post.order_key, i)
  }

  /** On top, or right behind the first block with the anchor's id. */
  ghost predicate PlaceFor(bs: seq<Block>, after: Option<string>, i: nat) {
    if after.None? then i == 0 else i > 0 && FirstWith(bs, after.value, i - 1)
  }

  /** The block that an insert asks for. */
  ghost predicate IsNewBlock(b: Block, op: Op, id: string)
    requires op.Insert?
  {
    && b.id == id && b.kind == op.kind && b.children == []
    && HasProps(b.props, op.kind, NewLevel(Asked(op.props), None)) && Becomes(op.content, b.content)
  }

  /** What the entry of an op reports, given the list before and after it: what an insert or update
      left, and what a remove took. */
  ghost predicate Tells(entry: Applied, op: Op, doc_id: string, before: seq<Block>, after: seq<Block>) {
    match entry
    case AppliedInsert(block, anchor) =>
      op.Insert? && anchor == op.after &&
      exists i: nat :: PlaceFor(before, op.after, i) && Reports(block, doc_id, after, i)
    case AppliedUpdate(id, post) =>
      op.Update? && id == op.id && exists i: nat :: FirstWith(before, op.id, i) && Reports(post, doc_id, after, i)
    case AppliedRemove(id, preimage) =>
      op.Remove? && id == op.id && exists i: nat :: FirstWith(before, op.id, i) && Reports(preimage, doc_id, before, i)
  }

  /** One more projection, behind the earlier ones. */
  predicate OneMore(p: Progress, q: Progress) {
    |q.applied| == |p.applied| + 1 && q.applied[..|p.applied|] == p.applied
  }

  ghost predicate InsertedAt(before: seq<Block>, op: Op, id: string, after: seq<Block>, i: nat)
    requires op.Insert?
  {
    && PlaceFor(before, op.after, i) && |after| == |before| + 1 && i < |after|
    && after[..i] == before[..i] && IsNewBlock(after[i], op, id) && after[i + 1..] == before[i..]
  }

  /** An insert puts the block it asks for in its place, moves nothing else, uses one minted id, and
      reports the block where it now stands. */
  lemma InsertDoes(p: Progress, op: Op, deps: Deps)
    requires op.Insert? && ApplyOp(p, op, deps).Ok?
    ensures var q := ApplyOp(p, op, deps).value;
            && q.minted == p.minted + 1 && OneMore(p, q)
            && Tells(q.applied[|p.applied|], op, deps.doc_id, p.blocks, q.blocks)
            && exists i: nat :: InsertedAt(p.blocks, op, deps.mint(p.minted), q.blocks, i)
  {
    var q := ApplyOp(p, op, deps).value;
    var i := InsertIndex(p.blocks, op.after).value;
    assert map[] + Or(op.props, map[]) == Or(op.props, map[]);
    ParsedProps(op.kind, map[], op.props);
    ContentIsKept(op.content);
    OrderKeyIs(i);
    assert InsertedAt(p.blocks, op, deps.mint(p.minted), q.blocks, i);
    assert Reports(q.applied[|p.applied|].block, deps.doc_id, q.blocks, i);
  }

  /** When an insert throws, and what: the first of these that applies. */
  lemma InsertThrowsIff(p: Progress, op: Op, deps: Deps)
    requires op.Insert?
    ensures var r, level := ApplyOp(p, op, deps), NewLevel(Asked(op.props), None);
            var badProps := op.kind == "heading" && !IsLevel(level);
            var astray := op.after.Some? && Absent(p.blocks, op.after.value);
            r == if !Supported(op.kind) then Throw(UnsupportedType(op.kind))
                 else if badProps then Throw(InvalidProps)
                 else if op.content.NotContent? then Throw(InvalidContent)
                 else if astray then Throw(NotFound(op.after.value))
                 else if !Ids.ParsesV7(deps.mint(p.minted)) then Throw(InvalidId(deps.mint(p.minted)))
                 else Ok(r.value)
  {
    assert map[] + Or(op.props, map[]) == Or(op.props, map[]);
    ParsedProps(op.kind, map[], op.props);
    ContentIsKept(op.content);
    if op.after.Some? { AbsentIff(p.blocks, op.after.value); }
  }

  lemma AbsentIff(bs: seq<Block>, id: string)
    ensures Absent(bs, id) <==> FindIndex(bs, id) == |bs|
    ensures !Absent(bs, id) ==> FirstWith(bs, id, FindIndex(bs, id))
  {
  }

  // ---------------------------------------------------------------- updates

  function KindAfter(b: Block, patch: Patch): string { Or(patch.kind, b.kind) }

  predicate Reparses(patch: Patch) { patch.kind.Some? || patch.props.Some? }

  /** `next` is `b` with what the patch names changed, and nothing else. */
  ghost predicate IsPatched(b: Block, patch: Patch, next: Block) {
    && next.id == b.id && next.children == b.children && next.kind == KindAfter(b, patch)
    && (if Reparses(patch) then HasProps(next.props, next.kind, NewLevel(Asked(patch.props), LevelIn(b.props)))
        else next.props == b.props)
    && (if patch.content.Some? then Becomes(patch.content.value, next.content) else next.content == b.content)
  }

  /** The block is not in the state the caller last saw. */
  predicate Differs(b: Block, expected: Option<Hash>) {
    expected.Some? &&
    (b.kind != expected.value.kind || b.props != expected.value.props || b.content != expected.value.content)
  }

  /** Why a patch is refused: the first of these that applies. */
  function PatchFailure(b: Block, patch: Patch): Option<Failure> {
    var level := NewLevel(Asked(patch.props), LevelIn(b.props));
    if Reparses(patch) && !Supported(KindAfter(b, patch)) then Some(UnsupportedType(KindAfter(b, patch)))
    else if Reparses(patch) && KindAfter(b, patch) == "heading" && !IsLevel(level) then Some(InvalidProps)
    else if patch.content == Some(NotContent) then Some(InvalidContent)
    else None
  }

  lemma PatchDoes(b: Block, patch: Patch)
    ensures match Patched(b, patch)
            case Throw(error) => PatchFailure(b, patch) == Some(error)
            case Ok(next) => PatchFailure(b, patch) == None && IsPatched(b, patch, next)
  {
    ParsedProps(KindAfter(b, patch), b.props, patch.props);
    if patch.content.Some? { ContentIsKept(patch.content.value); }
  }

  ghost predicate UpdatedAt(before: seq<Block>, op: Op, after: seq<Block>, i: nat)
    requires op.Update?
  {
    && FirstWith(before, op.id, i) && !Differs(before[i], op.expect_) && |after| == |before|
    && after == before[i := after[i]] && IsPatched(before[i], op.patch, after[i])
  }

  /** An update patches the first block with its id, which is as expected, in place, touches no other,
      and reports the block as it stands afterwards. */
  lemma UpdateDoes(p: Progress, op: Op, deps: Deps)
    requires op.Update? && ApplyOp(p, op, deps).Ok?
    ensures var q := ApplyOp(p, op, deps).value;
            && q.minted == p.minted && OneMore(p, q)
            && Tells(q.applied[|p.applied|], op, deps.doc_id, p.blocks, q.blocks)
            && exists i: nat :: UpdatedAt(p.blocks, op, q.blocks, i)
  {
    var i := FindIndex(p.blocks, op.id);
    AbsentIff(p.blocks, op.id);
    PatchDoes(p.blocks[i], op.patch);
    OrderKeyIs(i);
    var q := ApplyOp(p, op, deps).value;
    assert UpdatedAt(p.blocks, op, q.blocks, i);
    assert Reports(q.applied[|p.applied|].post, deps.doc_id, q.blocks, i);
  }

  /** When an update throws, and what: the first of these that applies. */
  lemma UpdateThrowsIff(p: Progress, op: Op, deps: Deps, i: nat)
    requires op.Update? && (!Absent(p.blocks, op.id) ==> FirstWith(p.blocks, op.id, i))
    ensures var r := ApplyOp(p, op, deps);
            if Absent(p.blocks, op.id) then r == Throw(NotFound(op.id))
            else if Differs(p.blocks[i], op.expect_) then r == Throw(StalePrecondition(op.id))
            else if PatchFailure(p.blocks[i], op.patch).Some? then r == Throw(PatchFailure(p.blocks[i], op.patch).value)
            else if !Ids.ParsesV7(op.id) then r == Throw(InvalidId(op.id))
            else r.Ok?
  {
    AbsentIff(p.blocks, op.id);
    if !Absent(p.blocks, op.id) { PatchDoes(p.blocks[i], op.patch); }
  }

  // ---------------------------------------------------------------- removes

  ghost predicate RemovedAt(before: seq<Block>, op: Op, after: seq<Block>, i: nat)
    requires op.Remove?
  {
    && FirstWith(before, op.id, i) && !Differs(before[i], op.expect_) && |after| == |before| - 1
    && after[..i] == before[..i] && after[i..] == before[i + 1..]
  }

  /** A remove takes out the first block with its id, which is as expected, and reports that block as
      it stood. */
  lemma RemoveDoes(p: Progress, op: Op, deps: Deps)
    requires op.Remove? && ApplyOp(p, op, deps).Ok?
    ensures var q := ApplyOp(p, op, deps).value;
            && q.minted == p.minted && OneMore(p, q)
            && Tells(q.applied[|p.applied|], op, deps.doc_id, p.blocks, q.blocks)
            && exists i: nat :: RemovedAt(p.blocks, op, q.blocks, i)
  {
    var i := FindIndex(p.blocks, op.id);
    AbsentIff(p.blocks, op.id);
    OrderKeyIs(i);
    var q := ApplyOp(p, op, deps).value;
    assert RemovedAt(p.blocks, op, q.blocks, i);
    assert Reports(q.applied[|p.applied|].preimage, deps.doc_id, p.blocks, i);
  }

  lemma RemoveThrowsIff(p: Progress, op: Op, deps: Deps, i: nat)
    requires op.Remove? && (!Absent(p.blocks, op.id) ==> FirstWith(p.blocks, op.id, i))
    ensures var r := ApplyOp(p, op, deps);
            if Absent(p.blocks, op.id) then r == Throw(NotFound(op.id))
            else if Differs(p.blocks[i], op.expect_) then r == Throw(StalePrecondition(op.id))
            else if !Ids.ParsesV7(op.id) then r == Throw(InvalidId(op.id))
            else r.Ok?
  {
    AbsentIff(p.blocks, op.id);
  }

  // ---------------------------------------------------------------- whole replays

  lemma OpTells(p: Progress, op: Op, deps: Deps)
    requires ApplyOp(p, op, deps).Ok?
    ensures var q := ApplyOp(p, op, deps).value;
            OneMore(p, q) && Tells(q.applied[|p.applied|], op, deps.doc_id, p.blocks, q.blocks)
  {
    match op
    case Insert(_, _, _, _) => InsertDoes(p, op, deps);
    case Update(_, _, _) => UpdateDoes(p, op, deps);
    case Remove(_, _) => RemoveDoes(p, op, deps);
  }

  /** A replay that goes through goes through up to any op, and goes on from there. */
  lemma {:induction false} ReplayPrefix(p: Progress, ops: seq<Op>, deps: Deps, k: nat)
    requires ApplyOps(p, ops, deps).Ok? && k <= |ops|
    ensures ApplyOps(p, ops[..k], deps).Ok?
    ensures ApplyOps(p, ops, deps) == ApplyOps(ApplyOps(p, ops[..k], deps).value, ops[k..], deps)
    decreases k
  {
    hide ApplyOp;
    if k > 0 {
      ReplayPrefix(ApplyOp(p, ops[0], deps).value, ops[1..], deps, k - 1);
      assert ops[..k][0] == ops[0] && ops[..k][1..] == ops[1..][..k - 1] && ops[1..][k - 1..] == ops[k..];
    } else {
      assert ops[..0] == [] && ops[0..] == ops;
    }
  }

  lemma {:induction false} EntriesStay(p: Progress, ops: seq<Op>, deps: Deps)
    requires ApplyOps(p, ops, deps).Ok?
    ensures p.applied <= ApplyOps(p, ops, deps).value.applied
    ensures |ApplyOps(p, ops, deps).value.applied| == |p.applied| + |ops|
    decreases |ops|
  {
    hide ApplyOp, Tells;
    if ops != [] {
      OpTells(p, ops[0], deps);
      EntriesStay(ApplyOp(p, ops[0], deps).value, ops[1..], deps);
    }
  }

  /** In any replay that goes through, entry k of the projections reports op k, on the list as it
      stands right before and right after that op. */
  lemma ReplayTells(p: Progress, ops: seq<Op>, deps: Deps, k: nat)
    requires ApplyOps(p, ops, deps).Ok? && k < |ops|
    ensures ApplyOps(p, ops[..k], deps).Ok? && ApplyOps(p, ops[..k + 1], deps).Ok?
    ensures var f := ApplyOps(p, ops, deps).value;
            |f.applied| == |p.applied| + |ops| && f.applied[..|p.applied|] == p.applied &&
            Tells(f.applied[|p.applied| + k], ops[k], deps.doc_id,
                  ApplyOps(p, ops[..k], deps).value.blocks, ApplyOps(p, ops[..k + 1], deps).value.blocks)
  {
    hide ApplyOp, ApplyOps, Tells;
    ReplayPrefix(p, ops, deps, k);
    ReplayPrefix(p, ops, deps, k + 1);
    var before := ApplyOps(p, ops[..k], deps).value;
    OneStep(p, ops, deps, k);
    var after := ApplyOps(p, ops[..k + 1], deps).value;
    OpTells(before, ops[k], deps);
    EntriesStay(p, ops[..k], deps);
    EntriesStay(after, ops[k + 1..], deps);
    EntriesStay(p, ops, deps);
    assert ApplyOps(p, ops, deps).value.applied[|p.applied| + k] == after.applied[|p.applied| + k];
  }

  lemma OneStep(p: Progress, ops: seq<Op>, deps: Deps, k: nat)
    requires k < |ops| && ApplyOps(p, ops[..k], deps).Ok? && ApplyOps(p, ops[..k + 1], deps).Ok?
    ensures ApplyOp(ApplyOps(p, ops[..k], deps).value, ops[k], deps) == ApplyOps(p, ops[..k + 1], deps)
  {
    hide ApplyOp;
    assert ops[..k + 1] == ops[..k] + [ops[k]] && [ops[k]][1..] == [];
    ApplyOpsConcat(p, ops[..k], [ops[k]], deps);
  }
}
