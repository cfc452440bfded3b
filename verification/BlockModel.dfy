/** The canonical block model (packages/blocks/src/model.ts) and the per-type attribute schemas
    (packages/blocks/src/core/paragraph.ts, heading.ts). */
module BlockModel {

  datatype Json =
    | JNull
    | JBool(b: bool)
    | JNum(n: real)
    | JStr(s: string)
    | JArr(items: seq<Json>)
    | JObj(fields: map<string, Json>)

  type Props = map<string, Json>

  datatype StyleKey = Bold | Italic | Code

  /** A style key may be absent, `true` or `false`. */
  datatype StyledText = StyledText(text: string, styles: map<StyleKey, bool>)

  datatype Block = Block(id: string, kind: string, props: Props, content: seq<StyledText>, children: seq<Block>)

  /** What the source throws. */
  datatype Failure =
    | NotFound(id: string)
    | StalePrecondition(id: string)
    | UnsupportedType(kind: string)
    | InvalidProps
    | InvalidContent
    | InvalidId(id: string)
    | Malformed

  datatype Outcome<+T> = Ok(value: T) | Throw(error: Failure) {
    predicate IsFailure() { Throw? }
    function PropagateFailure<U>(): Outcome<U> requires Throw? { Throw(error) }
    function Extract(): T requires Ok? { value }
  }

  // ---------------------------------------------------------------- content

  /** The `unknown` a caller may pass as content. */
  datatype ContentInput = Missing | Text(text: string) | Runs(runs: seq<StyledText>) | NotContent

  /** Only keys set to `true` survive. */
  function TrueStyles(styles: map<StyleKey, bool>): map<StyleKey, bool> {
    map k | k in styles && styles[k] :: true
  }

  /** Empty runs are dropped and styles get one spelling. */
  function NormalizeRuns(runs: seq<StyledText>): seq<StyledText> {
    if runs == [] then []
    else
      (if runs[0].text == "" then [] else [StyledText(runs[0].text, TrueStyles(runs[0].styles))]) +
      NormalizeRuns(runs[1..])
  }

  function Normalize(input: ContentInput): Outcome<seq<StyledText>> {
    match input
    case Missing => Ok([])
    case Text(text) => Ok(if text == "" then [] else [StyledText(text, map[])])
    case Runs(runs) => Ok(NormalizeRuns(runs))
    case NotContent => Throw(InvalidContent)
  }

  predicate CanonicalRun(run: StyledText) {
    run.text != "" && forall k :: k in run.styles ==> run.styles[k]
  }

  ghost predicate CanonicalContent(runs: seq<StyledText>) {
    forall i :: 0 <= i < |runs| ==> CanonicalRun(runs[i])
  }

  const TEXT_STYLE_KEYS: seq<StyleKey> := [Bold, Italic, Code]

  method NormalizeContent(input: ContentInput) returns (r: Outcome<seq<StyledText>>)
    ensures r == Normalize(input)
    ensures r.Ok? ==> CanonicalContent(r.value)
  {
    match input {
      case Missing => return Ok([]);
      case NotContent => return Throw(InvalidContent);
      case Text(text) => return Ok(if text == "" then [] else [StyledText(text, map[])]);
      case Runs(parsed) =>
        var runs: seq<StyledText> := [];
        for i := 0 to |parsed|
          invariant runs + NormalizeRuns(parsed[i..]) == NormalizeRuns(parsed)
          invariant CanonicalContent(runs)
        {
          var run := parsed[i];
          assert parsed[i..][0] == run && parsed[i..][1..] == parsed[i + 1..];
          if run.text != "" {
            var styles := StylesOf(run.styles);
            assert runs + ([StyledText(run.text, styles)] + NormalizeRuns(parsed[i + 1..]))
                == runs + [StyledText(run.text, styles)] + NormalizeRuns(parsed[i + 1..]);
            runs := runs + [StyledText(run.text, styles)];
          }
        }
        assert runs + [] == runs;
        return Ok(runs);
    }
  }

  /** The inner loop over the three style keys. */
  method StylesOf(given: map<StyleKey, bool>) returns (styles: map<StyleKey, bool>)
    ensures styles == TrueStyles(given)
  {
    styles := map[];
    for i := 0 to |TEXT_STYLE_KEYS|
      invariant styles == map k | k in given && given[k] && k in TEXT_STYLE_KEYS[..i] :: true
    {
      var key := TEXT_STYLE_KEYS[i];
      assert TEXT_STYLE_KEYS[..i + 1] == TEXT_STYLE_KEYS[..i] + [key];
      if key in given && given[key] {
        styles := styles[key := true];
      }
    }
    assert TEXT_STYLE_KEYS[..|TEXT_STYLE_KEYS|] == TEXT_STYLE_KEYS;
    AllStyleKeys();
  }

  lemma AllStyleKeys()
    ensures forall k: StyleKey :: k in TEXT_STYLE_KEYS
  {
    forall k: StyleKey ensures k in TEXT_STYLE_KEYS {
      var keys := TEXT_STYLE_KEYS;
      assert keys[0] == Bold && keys[1] == Italic && keys[2] == Code;
      match k case Bold => case Italic => case Code =>
    }
  }

  /** Normalised content is canonical, and canonical content is left alone. */
  lemma {:induction false} NormalizeIsCanonical(runs: seq<StyledText>)
    ensures CanonicalContent(NormalizeRuns(runs))
    ensures NormalizeRuns(runs) == runs <==> CanonicalContent(runs)
    ensures |NormalizeRuns(runs)| <= |runs|
  {
    if runs != [] {
      NormalizeIsCanonical(runs[1..]);
      var rest := NormalizeRuns(runs[1..]);
      if CanonicalContent(runs) {
        assert CanonicalRun(runs[0]);
        assert forall i :: 0 <= i < |runs[1..]| ==> runs[1..][i] == runs[i + 1];
        assert TrueStyles(runs[0].styles) == runs[0].styles;
      }
    }
  }

  /** Normalising twice is normalising once. */
  lemma NormalizeIdempotent(runs: seq<StyledText>)
    ensures NormalizeRuns(NormalizeRuns(runs)) == NormalizeRuns(runs)
  {
    NormalizeIsCanonical(runs);
    NormalizeIsCanonical(NormalizeRuns(runs));
  }

  // ---------------------------------------------------------------- props

  predicate ValidLevel(v: Json) {
    v.JNum? && v.n.Floor as real == v.n && 1.0 <= v.n <= 6.0
  }

  /** The attribute schema of the block type: unknown keys stripped, a missing level is 1. */
  function ParseProps(kind: string, merged: Props): Outcome<Props> {
    if kind == "paragraph" then Ok(map[])
    else if kind == "heading" then
      if "level" !in merged then Ok(map["level" := JNum(1.0)])
      else if ValidLevel(merged["level"]) then Ok(map["level" := merged["level"]])
      else Throw(InvalidProps)
    else Throw(UnsupportedType(kind))
  }

  /** A supported block in its one spelling. */
  ghost predicate Canonical(b: Block) {
    CanonicalBody(b.kind, b.props, b.content) && b.children == []
  }

  ghost predicate CanonicalBody(kind: string, props: Props, content: seq<StyledText>) {
    ParseProps(kind, props) == Ok(props) && CanonicalContent(content)
  }

  ghost predicate AllCanonical(bs: seq<Block>) { forall i :: 0 <= i < |bs| ==> Canonical(bs[i]) }

  /** `materializeBlock`. */
  function Materialize(kind: string, props: Props, content: ContentInput, id: string): Outcome<Block> {
    var runs :- Normalize(content);
    Ok(Block(id, kind, props, runs, []))
  }
}
