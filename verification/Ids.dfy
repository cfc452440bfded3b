/** UUIDv7 ids (packages/ids/src/index.ts): the parsers, the generator and its ordering. */
module Ids {

  // ---------------------------------------------------------------- text helpers

  predicate IsHexChar(c: char) {
    '0' <= c <= '9' || 'a' <= c <= 'f' || 'A' <= c <= 'F'
  }

  function HexDigit(n: nat): char
    requires n < 16
  {
    "0123456789abcdef"[n]
  }

  /** `n.toString(16)`. */
  function ToHex(n: nat): string {
    if n < 16 then [HexDigit(n)] else ToHex(n / 16) + [HexDigit(n % 16)]
  }

  /** `s.padStart(width, "0")`. */
  function PadStart(s: string, width: nat): string
    decreases width - |s|
  {
    if |s| >= width then s else PadStart("0" + s, width)
  }

  /** `s.slice(-width)`. */
  function SliceLast(s: string, width: nat): string {
    if |s| <= width then s else s[|s| - width..]
  }

  /** JavaScript's `a < b` on strings. */
  predicate LexLess(a: string, b: string) {
    b != "" && (a == "" || a[0] < b[0] || (a[0] == b[0] && LexLess(a[1..], b[1..])))
  }

  // ---------------------------------------------------------------- parsers

  const UUID_GROUPS: seq<nat> := [8] + [4, 4, 4] + [12]

  /** The regular expression UUID_RE: hex groups, each hyphen optional. */
  predicate MatchGroups(s: string, groups: seq<nat>)
    decreases |groups|
  {
    if groups == [] then s == ""
    else
      |s| >= groups[0] && (forall i :: 0 <= i < groups[0] ==> IsHexChar(s[i])) &&
      var rest := s[groups[0]..];
      if |groups| == 1 then rest == ""
      else MatchGroups(if rest != "" && rest[0] == '-' then rest[1..] else rest, groups[1..])
  }

  predicate IsUuid(s: string) {
    MatchGroups(s, UUID_GROUPS)
  }

  /** `value.replace(/-/g, "")`. */
  function Undash(s: string): string {
    if s == "" then "" else (if s[0] == '-' then "" else [s[0]]) + Undash(s[1..])
  }

  predicate IsUuidV7(s: string) {
    var undashed := Undash(s);
    |undashed| == 32 && undashed[12] == '7'
  }

  /** `parseV7` returns normally exactly on these strings. */
  predicate ParsesV7(s: string) {
    IsUuid(s) && IsUuidV7(s)
  }

  // ---------------------------------------------------------------- generator

  const SUB_MS_COUNTER_MAX: nat := 0xfff
  const TS_LIMIT: nat := 0x1_0000_0000_0000

  datatype Clocked = Clocked(lastTs: nat, subMsCounter: nat) {
    ghost predicate Valid() { subMsCounter <= SUB_MS_COUNTER_MAX }
    /** The 60-bit number the ordered part of an id spells. */
    function Key(): nat { 4096 * lastTs + subMsCounter }
  }

  /** Eight random bytes. */
  predicate EightBytes(rand: seq<nat>) { |rand| == 8 && forall i :: 0 <= i < 8 ==> rand[i] < 256 }

  /** One draw: the clock reading, the 16-bit seed and the eight random bytes. */
  datatype Draw = Draw(now: int, seed: nat, rand: seq<nat>) {
    ghost predicate Valid() { seed < 0x1_0000 && EightBytes(rand) }
  }

  predicate Reseeds(s: Clocked, now: int) { now > s.lastTs }

  function Tick(s: Clocked, now: int, seed: nat): Clocked {
    if Reseeds(s, now) then Clocked(now, seed % 0x800)
    else
      var bumped := (s.subMsCounter + 1) % 0x1000;
      if bumped == 0 then Clocked(s.lastTs + 1, 0) else Clocked(s.lastTs, bumped)
  }

  function BytesHex(bytes: seq<nat>): string
    requires forall i :: 0 <= i < |bytes| ==> bytes[i] < 256
    ensures |BytesHex(bytes)| == 2 * |bytes|
  {
    if bytes == [] then "" else BytesHex(bytes[..|bytes| - 1]) + Nibbles(bytes[|bytes| - 1], 2)
  }

  /** The low `width` hex digits of `n`, most significant first. */
  function Nibbles(n: nat, width: nat): (s: string)
    ensures |s| == width
    ensures forall i :: 0 <= i < width ==> IsHexChar(s[i]) && s[i] != '-'
  {
    if width == 0 then "" else Nibbles(n / 16, width - 1) + [HexDigit(n % 16)]
  }

  /** Sets the two variant bits of the first byte. */
  function WithVariant(rand: seq<nat>): (bytes: seq<nat>)
    requires EightBytes(rand)
    ensures |bytes| == 8 && (forall i :: 0 <= i < 8 ==> bytes[i] < 256) && 128 <= bytes[0] < 192
  {
    rand[0 := rand[0] % 64 + 128]
  }

  function Render(s: Clocked, rand: seq<nat>): (id: string)
    requires s.Valid() && EightBytes(rand)
    ensures |id| == 36
  {
    Layout(Nibbles(s.lastTs, 12), Nibbles(s.subMsCounter, 3), BytesHex(WithVariant(rand)))
  }

  /** `TTTTTTTT-TTTT-7ccc-Vxxx-xxxxxxxxxxxx`. */
  function Layout(tsHex: string, counterHex: string, randHex: string): (id: string)
    requires |tsHex| == 12 && |counterHex| == 3 && |randHex| == 16
    ensures |id| == 36
  {
    tsHex[..8] + "-" + tsHex[8..12] + "-7" + counterHex + "-" + randHex[..4] + "-" + randHex[4..16]
  }

  /** The module variables `lastTs` and `subMsCounter` and the function that updates them. */
  class UuidGenerator {
    var lastTs: nat
    var subMsCounter: nat

    constructor ()
      ensures State() == Clocked(0, 0)
    {
      lastTs, subMsCounter := 0, 0;
    }

    ghost function State(): Clocked
      reads this
    {
      Clocked(lastTs, subMsCounter)
    }

    method UuidV7(d: Draw) returns (id: string)
      requires State().Valid() && d.Valid()
      modifies this
      ensures State() == Tick(old(State()), d.now, d.seed) && State().Valid()
      ensures id == Render(State(), d.rand)
    {
      var ts := d.now;
      if ts > lastTs {
        lastTs := ts;
        subMsCounter := d.seed % 0x800;
      } else {
        ts := lastTs;
        subMsCounter := (subMsCounter + 1) % 0x1000;
        if subMsCounter == 0 {
          lastTs := lastTs + 1;
          ts := lastTs;
        }
      }
      id := IdText(ts, subMsCounter, d.rand);
    }
  }

  /** The rendering half of `uuidV7`. */
  method IdText(ts: nat, counter: nat, rand: seq<nat>) returns (id: string)
    requires counter <= SUB_MS_COUNTER_MAX && EightBytes(rand)
    ensures id == Render(Clocked(ts, counter), rand)
  {
    var tsHex := SliceLast(PadStart(ToHex(ts), 12), 12);
    var counterHex := PadStart(ToHex(counter), 3);
    PaddedIsNibbles(ts, 12);
    CounterIsNibbles(counter);
    var randHex := BytesToHex(WithVariant(rand));
    id := Layout(tsHex, counterHex, randHex);
  }

  /** The loop over the eight random bytes. */
  method BytesToHex(bytes: seq<nat>) returns (h: string)
    requires forall i :: 0 <= i < |bytes| ==> bytes[i] < 256
    ensures h == BytesHex(bytes)
  {
    h := "";
    for i := 0 to |bytes|
      invariant h == BytesHex(bytes[..i])
    {
      ByteIsNibbles(bytes[i]);
      assert bytes[..i + 1][..i] == bytes[..i];
      h := h + PadStart(ToHex(bytes[i]), 2);
    }
    assert bytes[..|bytes|] == bytes;
  }

  // ---------------------------------------------------------------- rendering lemmas

  lemma {:induction false} PadStartPads(s: string, width: nat)
    ensures |s| >= width ==> PadStart(s, width) == s
    ensures |s| < width ==> PadStart(s, width) == seq(width - |s|, _ => '0') + s
    decreases width - |s|
  {
    if |s| < width {
      PadStartPads("0" + s, width);
      assert seq(width - |s|, _ => '0') + s == seq(width - |s| - 1, _ => '0') + ("0" + s);
    }
  }

  lemma {:induction false} NibblesOfZero(width: nat)
    ensures Nibbles(0, width) == seq(width, _ => '0')
  {
    if width > 0 {
      NibblesOfZero(width - 1);
    }
  }

  lemma {:induction false} ToHexIsNibbles(n: nat, width: nat)
    requires width > 0
    ensures |ToHex(n)| >= width ==> ToHex(n)[|ToHex(n)| - width..] == Nibbles(n, width)
    ensures |ToHex(n)| < width ==> seq(width - |ToHex(n)|, _ => '0') + ToHex(n) == Nibbles(n, width)
  {
    if n < 16 {
      assert n / 16 == 0 && n % 16 == n;
      NibblesOfZero(width - 1);
    } else if width == 1 {
      assert Nibbles(n / 16, 0) == "";
    } else {
      ToHexIsNibbles(n / 16, width - 1);
    }
  }

  /** `toString(16).padStart(w, "0").slice(-w)` keeps exactly the low `w` digits. */
  lemma PaddedIsNibbles(n: nat, width: nat)
    requires width > 0
    ensures SliceLast(PadStart(ToHex(n), width), width) == Nibbles(n, width)
  {
    hide ToHex, Nibbles;
    ToHexIsNibbles(n, width);
    PadStartPads(ToHex(n), width);
  }

  lemma CounterIsNibbles(n: nat)
    requires n < 0x1000
    ensures PadStart(ToHex(n), 3) == Nibbles(n, 3)
  {
    assert n / 16 / 16 < 16;
    assert |ToHex(n / 16 / 16)| == 1;
    assert |ToHex(n / 16)| <= 2;
    assert |ToHex(n)| <= 3;
    PaddedIsNibbles(n, 3);
    PadStartPads(ToHex(n), 3);
  }

  lemma ByteIsNibbles(n: nat)
    requires n < 256
    ensures PadStart(ToHex(n), 2) == Nibbles(n, 2)
  {
    assert n / 16 < 16;
    assert |ToHex(n)| <= 2;
    PaddedIsNibbles(n, 2);
    PadStartPads(ToHex(n), 2);
  }

  lemma {:induction false} BytesHexIsHex(bytes: seq<nat>)
    requires forall i :: 0 <= i < |bytes| ==> bytes[i] < 256
    ensures forall i :: 0 <= i < 2 * |bytes| ==> IsHexChar(BytesHex(bytes)[i]) && BytesHex(bytes)[i] != '-'
  {
    if bytes != [] {
      BytesHexIsHex(bytes[..|bytes| - 1]);
    }
  }

  // ---------------------------------------------------------------- every id is accepted

  lemma {:induction false} UndashPlain(s: string)
    requires '-' !in s
    ensures Undash(s) == s
  {
    if s != "" {
      UndashPlain(s[1..]);
    }
  }

  lemma {:induction false} UndashConcat(s: string, t: string)
    ensures Undash(s + t) == Undash(s) + Undash(t)
  {
    if s == "" {
      assert s + t == t;
    } else {
      assert (s + t)[0] == s[0] && (s + t)[1..] == s[1..] + t;
      UndashConcat(s[1..], t);
    }
  }

  /** A hex group is consumed together with the hyphen behind it. */
  lemma MatchOneGroup(g: string, rest: string, groups: seq<nat>)
    requires |groups| > 1 && |g| == groups[0] && forall i :: 0 <= i < |g| ==> IsHexChar(g[i])
    requires MatchGroups(rest, groups[1..])
    ensures MatchGroups(g + "-" + rest, groups)
  {
    hide IsHexChar;
    var s := g + "-" + rest;
    assert s[|g|..] == "-" + rest;
    assert s[|g|..][1..] == rest;
  }

  /** The five groups of a generated id. */
  function Groups(s: Clocked, rand: seq<nat>): (g: seq<string>)
    requires s.Valid() && EightBytes(rand)
    ensures |g| == 5
  {
    var ts, r := Nibbles(s.lastTs, 12), BytesHex(WithVariant(rand));
    [ts[..8], ts[8..12], "7" + Nibbles(s.subMsCounter, 3), r[..4], r[4..16]]
  }

  predicate HexGroup(g: string, width: nat) {
    |g| == width && forall i :: 0 <= i < width ==> IsHexChar(g[i]) && g[i] != '-'
  }

  lemma GroupsShape(s: Clocked, rand: seq<nat>)
    requires s.Valid() && EightBytes(rand)
    ensures var g := Groups(s, rand);
            HexGroup(g[0], 8) && HexGroup(g[1], 4) && HexGroup(g[2], 4) && HexGroup(g[3], 4) &&
            HexGroup(g[4], 12) && g[2][0] == '7'
    ensures var g := Groups(s, rand);
            Render(s, rand) == g[0] + "-" + (g[1] + "-" + (g[2] + "-" + (g[3] + "-" + g[4])))
  {
    BytesHexIsHex(WithVariant(rand));
  }

  lemma GroupedParses(a: string, b: string, c: string, d: string, e: string)
    requires HexGroup(a, 8) && HexGroup(b, 4) && HexGroup(c, 4) && HexGroup(d, 4) && HexGroup(e, 12)
    ensures IsUuid(a + "-" + (b + "-" + (c + "-" + (d + "-" + e))))
    ensures Undash(a + "-" + (b + "-" + (c + "-" + (d + "-" + e)))) == a + (b + (c + (d + e)))
  {
    assert UUID_GROUPS[1..] == [4, 4, 4, 12] && [4, 4, 4, 12][1..] == [4, 4, 12];
    assert [4, 4, 12][1..] == [4, 12] && [4, 12][1..] == [12];
    assert e[12..] == "";
    assert MatchGroups(e, [12]);
    MatchOneGroup(d, e, [4, 12]);
    var t4 := d + "-" + e;
    MatchOneGroup(c, t4, [4, 4, 12]);
    var t3 := c + "-" + t4;
    MatchOneGroup(b, t3, [4, 4, 4, 12]);
    var t2 := b + "-" + t3;
    MatchOneGroup(a, t2, UUID_GROUPS);
    UndashPlain(e);
    UndashGroup(d, e);
    UndashGroup(c, t4);
    UndashGroup(b, t3);
    UndashGroup(a, t2);
  }

  lemma GeneratedIdParses(s: Clocked, rand: seq<nat>)
    requires s.Valid() && EightBytes(rand)
    ensures ParsesV7(Render(s, rand))
  {
    var g := Groups(s, rand);
    GroupsShape(s, rand);
    GroupedParses(g[0], g[1], g[2], g[3], g[4]);
    var undashed := g[0] + (g[1] + (g[2] + (g[3] + g[4])));
    assert undashed[12] == g[2][0];
  }

  lemma UndashGroup(g: string, rest: string)
    requires '-' !in g
    ensures Undash(g + "-" + rest) == g + Undash(rest)
  {
    UndashPlain(g);
    UndashConcat(g, "-" + rest);
    assert g + "-" + rest == g + ("-" + rest);
    assert ("-" + rest)[1..] == rest;
  }

  /** Accepted ids hold hex digits and hyphens only (no ':' in particular). */
  lemma {:induction false} UuidChars(s: string, groups: seq<nat>)
    requires MatchGroups(s, groups)
    ensures forall i :: 0 <= i < |s| ==> IsHexChar(s[i]) || s[i] == '-'
    decreases |groups|
  {
    if groups != [] && |groups| > 1 {
      var rest := s[groups[0]..];
      var next := if rest != "" && rest[0] == '-' then rest[1..] else rest;
      UuidChars(next, groups[1..]);
      forall i | 0 <= i < |s| ensures IsHexChar(s[i]) || s[i] == '-' {
        if i >= groups[0] {
          assert s[i] == rest[i - groups[0]];
          if next != rest && i > groups[0] { assert s[i] == next[i - groups[0] - 1]; }
        }
      }
    }
  }

  // ---------------------------------------------------------------- what is accepted

  predicate AllHex(g: string) { forall i :: 0 <= i < |g| ==> IsHexChar(g[i]) }

  /** Runs of hex digits of these lengths, each but the last followed by a hyphen or not. */
  ghost predicate InGroups(s: string, groups: seq<nat>, digits: string)
    decreases |groups|
  {
    if groups == [] then s == "" && digits == ""
    else
      exists g: string, rest: string, others: string ::
        Grouped(s, groups[0], |groups| > 1, g, rest) && InGroups(rest, groups[1..], others) && digits == g + others
  }

  predicate Grouped(s: string, width: nat, more: bool, g: string, rest: string) {
    |g| == width && AllHex(g) && (s == g + rest || (more && s == g + "-" + rest))
  }

  lemma FirstGroup(s: string, groups: seq<nat>) returns (g: string, rest: string)
    requires groups != [] && MatchGroups(s, groups)
    ensures Grouped(s, groups[0], |groups| > 1, g, rest) && MatchGroups(rest, groups[1..])
  {
    g, rest := s[..groups[0]], s[groups[0]..];
    if |groups| > 1 && rest != "" && rest[0] == '-' {
      rest := rest[1..];
      assert s == g + "-" + rest;
    } else {
      assert s == g + rest;
    }
  }

  lemma {:induction false} MatchedIsGrouped(s: string, groups: seq<nat>)
    requires MatchGroups(s, groups)
    ensures InGroups(s, groups, Undash(s))
    decreases |groups|
  {
    if groups != [] {
      hide MatchGroups, Grouped, Undash;
      var g, rest := FirstGroup(s, groups);
      MatchedIsGrouped(rest, groups[1..]);
      GroupUndashes(s, groups[0], |groups| > 1, g, rest);
    }
  }

  lemma HexHasNoDash(g: string)
    requires forall i :: 0 <= i < |g| ==> IsHexChar(g[i])
    ensures '-' !in g && AllHex(g)
  {
  }

  lemma GroupIsMatched(s: string, groups: seq<nat>, g: string, rest: string)
    requires groups != [] && groups[0] > 0 && Grouped(s, groups[0], |groups| > 1, g, rest)
    requires MatchGroups(rest, groups[1..]) && (rest != "" ==> rest[0] != '-')
    ensures MatchGroups(s, groups) && s != "" && s[0] != '-'
  {
    assert s[..groups[0]] == g && s[0] == g[0] && forall i :: 0 <= i < groups[0] ==> s[i] == g[i];
    if s == g + rest {
      assert s[groups[0]..] == rest;
    } else {
      assert s[groups[0]..] == "-" + rest && ("-" + rest)[1..] == rest;
    }
  }

  lemma GroupUndashes(s: string, width: nat, more: bool, g: string, rest: string)
    requires Grouped(s, width, more, g, rest)
    ensures Undash(s) == g + Undash(rest)
  {
    HexHasNoDash(g);
    if s == g + rest {
      UndashPlain(g);
      UndashConcat(g, rest);
    } else {
      UndashGroup(g, rest);
    }
  }

  lemma {:induction false} GroupedIsMatched(s: string, groups: seq<nat>, digits: string)
    requires InGroups(s, groups, digits) && forall i :: 0 <= i < |groups| ==> groups[i] > 0
    ensures MatchGroups(s, groups) && digits == Undash(s)
    ensures groups != [] ==> s != "" && s[0] != '-'
    decreases |groups|
  {
    hide Grouped;
    if groups != [] {
      var g: string, rest: string, others: string :|
        Grouped(s, groups[0], |groups| > 1, g, rest) && InGroups(rest, groups[1..], others) && digits == g + others;
      assert forall i :: 0 <= i < |groups[1..]| ==> groups[1..][i] == groups[i + 1];
      hide InGroups, MatchGroups, Undash;
      GroupedIsMatched(rest, groups[1..], others);
      if groups[1..] == [] { NothingLeft(rest); }
      GroupIsMatched(s, groups, g, rest);
      GroupUndashes(s, groups[0], |groups| > 1, g, rest);
    }
  }

  lemma NothingLeft(rest: string)
    requires MatchGroups(rest, [])
    ensures rest == ""
  {
  }

  /** A string is accepted exactly if it is 8, 4, 4, 4 and 12 hex digits with hyphens between them or
      not, of which the thirteenth is a 7. */
  lemma AcceptedIff(s: string)
    ensures ParsesV7(s) <==> exists digits: string :: InGroups(s, UUID_GROUPS, digits) && |digits| == 32 &&
                               digits[12] == '7'
  {
    hide InGroups, MatchGroups, Undash;
    if ParsesV7(s) { MatchedIsGrouped(s, UUID_GROUPS); }
    if digits: string :| InGroups(s, UUID_GROUPS, digits) && |digits| == 32 && digits[12] == '7' {
      GroupedIsMatched(s, UUID_GROUPS, digits);
    }
  }

  // ---------------------------------------------------------------- order

  lemma {:induction false} LexLessAt(a: string, b: string, k: nat)
    requires k < |a| && k < |b| && a[..k] == b[..k] && a[k] < b[k]
    ensures LexLess(a, b)
  {
    if k > 0 {
      assert a[0] == a[..k][0] == b[..k][0] == b[0];
      assert a[1..][..k - 1] == a[..k][1..] == b[..k][1..] == b[1..][..k - 1];
      LexLessAt(a[1..], b[1..], k - 1);
    }
  }

  function Pow16(w: nat): (p: nat)
    ensures p > 0
  {
    if w == 0 then 1 else 16 * Pow16(w - 1)
  }

  /** Fixed-width hex digits order as the numbers they spell; `k` is the first difference. */
  lemma {:induction false} NibblesOrder(n: nat, m: nat, w: nat) returns (k: nat)
    requires n < m < Pow16(w)
    ensures k < w && Nibbles(n, w)[..k] == Nibbles(m, w)[..k] && Nibbles(n, w)[k] < Nibbles(m, w)[k]
  {
    var a, b := Nibbles(n / 16, w - 1), Nibbles(m / 16, w - 1);
    assert Nibbles(n, w) == a + [HexDigit(n % 16)] && Nibbles(m, w) == b + [HexDigit(m % 16)];
    if n / 16 < m / 16 {
      k := NibblesOrder(n / 16, m / 16, w - 1);
      assert (a + [HexDigit(n % 16)])[..k] == a[..k];
      assert (b + [HexDigit(m % 16)])[..k] == b[..k];
    } else {
      assert n / 16 == m / 16 && n % 16 < m % 16;
      k := w - 1;
      assert (a + [HexDigit(n % 16)])[..k] == a;
      assert (b + [HexDigit(m % 16)])[..k] == b;
    }
  }

  lemma LayoutOrder(x: string, y: string, c: string, d: string, r: string, q: string, k: nat)
    requires |x| == |y| == 12 && |c| == |d| == 3 && |r| == |q| == 16
    requires k < 12 && x[..k] == y[..k] && x[k] < y[k]
    ensures LexLess(Layout(x, c, r), Layout(y, d, q))
  {
    var a, b := Layout(x, c, r), Layout(y, d, q);
    forall i | 0 <= i < k ensures x[i] == y[i] { assert x[i] == x[..k][i] == y[..k][i]; }
    if k < 8 {
      assert a[..k] == x[..k] && b[..k] == y[..k];
      LexLessAt(a, b, k);
    } else {
      assert a[..k + 1] == x[..8] + "-" + x[8..k] && b[..k + 1] == y[..8] + "-" + y[8..k];
      LexLessAt(a, b, k + 1);
    }
  }

  lemma TimestampOrder(s: Clocked, t: Clocked, rs: seq<nat>, rt: seq<nat>)
    requires s.Valid() && t.Valid() && s.lastTs < t.lastTs < TS_LIMIT
    requires EightBytes(rs) && EightBytes(rt)
    ensures LexLess(Render(s, rs), Render(t, rt))
  {
    assert Pow16(4) == 0x1_0000;
    assert Pow16(8) == 0x1_0000_0000;
    var k := NibblesOrder(s.lastTs, t.lastTs, 12);
    LayoutOrder(Nibbles(s.lastTs, 12), Nibbles(t.lastTs, 12), Nibbles(s.subMsCounter, 3),
                Nibbles(t.subMsCounter, 3), BytesHex(WithVariant(rs)), BytesHex(WithVariant(rt)), k);
  }

  lemma CounterOrder(s: Clocked, t: Clocked, rs: seq<nat>, rt: seq<nat>)
    requires s.Valid() && t.Valid() && s.lastTs == t.lastTs && s.subMsCounter < t.subMsCounter
    requires EightBytes(rs) && EightBytes(rt)
    ensures LexLess(Render(s, rs), Render(t, rt))
  {
    assert Pow16(3) == 4096;
    var k := NibblesOrder(s.subMsCounter, t.subMsCounter, 3);
    var x, y := Nibbles(s.subMsCounter, 3), Nibbles(t.subMsCounter, 3);
    forall i | 0 <= i < k ensures x[i] == y[i] { assert x[i] == x[..k][i] == y[..k][i]; }
    LexLessAt(Render(s, rs), Render(t, rt), 15 + k);
  }

  /** Ids order as their keys while timestamps fit 48 bits, whatever the random tails. */
  lemma RenderOrder(s: Clocked, t: Clocked, rs: seq<nat>, rt: seq<nat>)
    requires s.Valid() && t.Valid() && s.Key() < t.Key() && t.lastTs < TS_LIMIT
    requires EightBytes(rs) && EightBytes(rt)
    ensures LexLess(Render(s, rs), Render(t, rt))
  {
    if s.lastTs < t.lastTs {
      TimestampOrder(s, t, rs, rt);
    } else {
      CounterOrder(s, t, rs, rt);
    }
  }

  // ---------------------------------------------------------------- what an id spells

  function HexValue(c: char): nat {
    if '0' <= c <= '9' then c as int - '0' as int else if 'a' <= c <= 'f' then c as int - 'a' as int + 10 else 0
  }

  /** The number that hex digits spell. */
  function SpellsHex(s: string): nat {
    if s == "" then 0 else 16 * SpellsHex(s[..|s| - 1]) + HexValue(s[|s| - 1])
  }

  lemma {:induction false} NibblesSpell(n: nat, width: nat)
    ensures SpellsHex(Nibbles(n, width)) == n % Pow16(width)
  {
    if width > 0 {
      NibblesSpell(n / 16, width - 1);
      var s := Nibbles(n, width);
      assert s[..width - 1] == Nibbles(n / 16, width - 1) && HexValue(s[width - 1]) == n % 16;
      LowDigits(n, Pow16(width - 1));
    }
  }

  lemma LowDigits(n: nat, p: nat)
    requires p > 0
    ensures 16 * (n / 16 % p) + n % 16 == n % (16 * p)
  {
    var q, r := n / 16 / p, n / 16 % p;
    assert n / 16 == p * q + r && n == 16 * (n / 16) + n % 16;
    assert n == (16 * p) * q + (16 * r + n % 16);
    assert 0 <= 16 * r + n % 16 < 16 * p;
    RemainderIs(n, 16 * p, q, 16 * r + n % 16);
  }

  lemma RemainderIs(n: nat, d: nat, q: nat, r: nat)
    requires d > 0 && n == d * q + r && r < d
    ensures n % d == r
  {
    var k := q - n / d;
    assert n == d * (n / d) + n % d;
    assert d * k == d * q - d * (n / d);
    assert k >= 1 ==> d * k >= d;
    assert k <= -1 ==> d * k + d <= 0;
  }

  lemma {:induction false} ByteAt(bytes: seq<nat>, i: nat)
    requires (forall k :: 0 <= k < |bytes| ==> bytes[k] < 256) && i < |bytes|
    ensures SpellsHex(BytesHex(bytes)[2 * i..2 * i + 2]) == bytes[i]
  {
    hide SpellsHex;
    var front, last := bytes[..|bytes| - 1], bytes[|bytes| - 1];
    assert BytesHex(bytes) == BytesHex(front) + Nibbles(last, 2);
    hide BytesHex, Nibbles;
    if i < |front| {
      ByteAt(front, i);
      Middle(BytesHex(front), Nibbles(last, 2), 2 * i, 2 * i + 2);
    } else {
      assert (BytesHex(front) + Nibbles(last, 2))[2 * i..2 * i + 2] == Nibbles(last, 2);
      ByteSpells(last);
    }
  }

  lemma ByteSpells(b: nat)
    requires b < 256
    ensures SpellsHex(Nibbles(b, 2)) == b
  {
    hide SpellsHex, Nibbles;
    NibblesSpell(b, 2);
    assert Pow16(2) == 256;
  }

  lemma Middle(a: string, b: string, i: nat, j: nat)
    requires i <= j <= |a|
    ensures (a + b)[i..j] == a[i..j]
  {
  }

  /** The random half of an id, without its hyphen. */
  function TailOf(id: string): (tail: string)
    requires |id| == 36
    ensures |tail| == 16
  {
    id[19..23] + id[24..]
  }

  lemma LayoutSplits(ts: string, counter: string, tail: string)
    requires |ts| == 12 && |counter| == 3 && |tail| == 16
    ensures var id := Layout(ts, counter, tail);
            && id[..8] + id[9..13] == ts && id[14] == '7' && id[15..18] == counter && TailOf(id) == tail
            && id[8] == id[13] == id[18] == id[23] == '-'
  {
    var id := Layout(ts, counter, tail);
    assert id[..8] == ts[..8] && id[9..13] == ts[8..];
    assert id[19..23] == tail[..4] && id[24..] == tail[4..];
  }

  /** A generated id spells the low 48 bits of the timestamp, the version 7, the counter, and the eight
      random bytes with the variant in the top two bits of the first. */
  lemma IdSpells(s: Clocked, rand: seq<nat>)
    requires s.Valid() && EightBytes(rand)
    ensures var id := Render(s, rand);
            && SpellsHex(id[..8] + id[9..13]) == s.lastTs % TS_LIMIT
            && id[14] == '7' && SpellsHex(id[15..18]) == s.subMsCounter
            && id[8] == id[13] == id[18] == id[23] == '-'
            && forall i :: 0 <= i < 8 ==>
                 SpellsHex(TailOf(id)[2 * i..2 * i + 2]) == if i == 0 then 128 + rand[0] % 64 else rand[i]
  {
    hide SpellsHex, Nibbles, BytesHex;
    var id, ts, counter, tail := Render(s, rand), Nibbles(s.lastTs, 12), Nibbles(s.subMsCounter, 3),
                                 BytesHex(WithVariant(rand));
    LayoutSplits(ts, counter, tail);
    NibblesSpell(s.lastTs, 12);
    NibblesSpell(s.subMsCounter, 3);
    assert Pow16(4) == 0x1_0000 && Pow16(3) == 4096;
    assert Pow16(8) == 0x1_0000_0000;
    forall i | 0 <= i < 8
      ensures SpellsHex(TailOf(id)[2 * i..2 * i + 2]) == if i == 0 then 128 + rand[0] % 64 else rand[i]
    {
      ByteAt(WithVariant(rand), i);
    }
  }

  // ---------------------------------------------------------------- whole runs

  /** The state after each call of a run. */
  function After(s: Clocked, calls: seq<Draw>): Clocked
    decreases |calls|
  {
    if calls == [] then s
    else var c := calls[|calls| - 1]; Tick(After(s, calls[..|calls| - 1]), c.now, c.seed)
  }

  ghost predicate ValidCalls(calls: seq<Draw>) { forall i :: 0 <= i < |calls| ==> calls[i].Valid() }

  /** The id the `i`-th call of a run returns. */
  function IdAt(s: Clocked, calls: seq<Draw>, i: nat): string
    requires s.Valid() && ValidCalls(calls) && i < |calls|
  {
    AfterValid(s, calls[..i + 1]);
    Render(After(s, calls[..i + 1]), calls[i].rand)
  }

  lemma TickAdvances(s: Clocked, now: int, seed: nat)
    requires s.Valid()
    ensures Tick(s, now, seed).Valid() && s.Key() < Tick(s, now, seed).Key()
    ensures s.lastTs <= Tick(s, now, seed).lastTs
    ensures !Reseeds(s, now) ==> Tick(s, now, seed).Key() == s.Key() + 1
  {
  }

  lemma {:induction false} AfterValid(s: Clocked, calls: seq<Draw>)
    requires s.Valid()
    ensures After(s, calls).Valid()
    decreases |calls|
  {
    if calls != [] {
      AfterValid(s, calls[..|calls| - 1]);
      TickAdvances(After(s, calls[..|calls| - 1]), calls[|calls| - 1].now, calls[|calls| - 1].seed);
    }
  }

  lemma {:induction false} KeysGrow(s: Clocked, calls: seq<Draw>, i: nat, j: nat)
    requires s.Valid() && i <= j <= |calls|
    ensures After(s, calls[..i]).lastTs <= After(s, calls[..j]).lastTs
    ensures i < j ==> After(s, calls[..i]).Key() < After(s, calls[..j]).Key()
    decreases j
  {
    if i < j {
      KeysGrow(s, calls, i, j - 1);
      AfterValid(s, calls[..j - 1]);
      assert calls[..j][..j - 1] == calls[..j - 1];
      TickAdvances(After(s, calls[..j - 1]), calls[j - 1].now, calls[j - 1].seed);
    }
  }

  /** Every id of a run parses as UUIDv7, and the ids strictly increase as strings, for any clock
      readings (repeated or reversed), seeds and random bytes, while the run stays below 2^48 ms. */
  lemma RunIsMonotone(s: Clocked, calls: seq<Draw>, i: nat, j: nat)
    requires s.Valid() && ValidCalls(calls) && i < j < |calls|
    requires After(s, calls).lastTs < TS_LIMIT
    ensures LexLess(IdAt(s, calls, i), IdAt(s, calls, j))
    ensures ParsesV7(IdAt(s, calls, i)) && ParsesV7(IdAt(s, calls, j))
  {
    KeysGrow(s, calls, i + 1, j + 1);
    KeysGrow(s, calls, j + 1, |calls|);
    assert calls[..|calls|] == calls;
    AfterValid(s, calls[..i + 1]);
    AfterValid(s, calls[..j + 1]);
    RenderOrder(After(s, calls[..i + 1]), After(s, calls[..j + 1]), calls[i].rand, calls[j].rand);
    GeneratedIdParses(After(s, calls[..i + 1]), calls[i].rand);
    GeneratedIdParses(After(s, calls[..j + 1]), calls[j].rand);
  }

  /** No call of the run reads a clock past the logical timestamp. */
  ghost predicate NoReseed(s: Clocked, calls: seq<Draw>) {
    forall i :: 0 <= i < |calls| ==> !Reseeds(After(s, calls[..i]), calls[i].now)
  }

  /** Since a reseed at `t0` the key is `4096*t0 + seed + later calls`; the logical clock is
      ahead of `t0` by that many 4096ths only. */
  lemma {:induction false} DriftSinceReseed(s: Clocked, t0: int, seed: nat, calls: seq<Draw>)
    requires s.Valid() && Reseeds(s, t0) && NoReseed(Tick(s, t0, seed), calls)
    ensures var now := After(Tick(s, t0, seed), calls);
            now.Key() == 4096 * t0 + seed % 0x800 + |calls| &&
            now.lastTs - t0 == (seed % 0x800 + |calls|) / 4096
    decreases |calls|
  {
    var s0 := Tick(s, t0, seed);
    if calls != [] {
      var front := calls[..|calls| - 1];
      assert forall i :: 0 <= i < |front| ==> front[..i] == calls[..i];
      DriftSinceReseed(s, t0, seed, front);
      AfterValid(s0, front);
      TickAdvances(After(s0, front), calls[|calls| - 1].now, calls[|calls| - 1].seed);
    }
    AfterValid(s0, calls);
  }

  /** One more call with a clock below 2^48 sorts after the previous id unless that id already
      used the last counter of the last millisecond and the clock has not moved past it. */
  lemma NextIdSortsAfterIff(s: Clocked, d: Draw, rand: seq<nat>)
    requires s.Valid() && d.Valid() && s.lastTs < TS_LIMIT && d.now < TS_LIMIT
    requires EightBytes(rand)
    ensures Tick(s, d.now, d.seed).Valid()
    ensures LexLess(Render(s, rand), Render(Tick(s, d.now, d.seed), d.rand))
       <==> !(d.now <= s.lastTs == TS_LIMIT - 1 && s.subMsCounter == SUB_MS_COUNTER_MAX)
  {
    var t := Tick(s, d.now, d.seed);
    TickAdvances(s, d.now, d.seed);
    if t.lastTs < TS_LIMIT {
      RenderOrder(s, t, rand, d.rand);
    } else {
      WrapSortsFirst(s, t, rand, d.rand);
    }
  }

  lemma WrapSortsFirst(s: Clocked, t: Clocked, rs: seq<nat>, rt: seq<nat>)
    requires s.Valid() && t.Valid() && s.lastTs == TS_LIMIT - 1 && t.lastTs == TS_LIMIT
    requires EightBytes(rs) && EightBytes(rt)
    ensures !LexLess(Render(s, rs), Render(t, rt))
  {
    LastIdWraps();
    assert Render(s, rs)[0] == 'f' && Render(t, rt)[0] == '0';
  }

  lemma LastIdWraps()
    ensures Nibbles(TS_LIMIT, 12)[0] == '0' && Nibbles(TS_LIMIT - 1, 12)[0] == 'f'
  {
    NibblesTop(TS_LIMIT, 11);
    NibblesTop(TS_LIMIT - 1, 11);
    assert Shift(TS_LIMIT, 4) == 0x1_0000_0000 && Shift(0x1_0000_0000, 4) == 0x1_0000 && Shift(0x1_0000, 3) == 16;
    assert Shift(0xffff_ffff_ffff, 2) == 0xff_ffff_ffff && Shift(0xff_ffff_ffff, 2) == 0xffff_ffff;
    ShiftMore(0xffff_ffff_ffff, 2, 2);
    assert Shift(0xffff_ffff, 2) == 0xff_ffff && Shift(0xff_ffff, 2) == 0xffff && Shift(0xffff, 3) == 15;
    ShiftMore(0xffff_ffff, 2, 2);
    ShiftMore(TS_LIMIT, 4, 4);
    ShiftMore(TS_LIMIT, 8, 3);
    ShiftMore(TS_LIMIT - 1, 4, 4);
    ShiftMore(TS_LIMIT - 1, 8, 3);
  }

  /** `n` without its `w` lowest hex digits. */
  function Shift(n: nat, w: nat): nat { if w == 0 then n else Shift(n / 16, w - 1) }

  lemma {:induction false} ShiftMore(n: nat, v: nat, w: nat)
    ensures Shift(n, v + w) == Shift(Shift(n, v), w)
  {
    if v > 0 {
      ShiftMore(n / 16, v - 1, w);
    }
  }

  lemma {:induction false} NibblesTop(n: nat, w: nat)
    ensures Nibbles(n, w + 1)[0] == HexDigit(Shift(n, w) % 16)
  {
    if w > 0 {
      NibblesTop(n / 16, w - 1);
    }
  }
}
