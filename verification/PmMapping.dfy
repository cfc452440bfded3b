/** Block JSON to ProseMirror JSON and back (packages/blocks/src/pm.ts). */
module PmMapping {
  import opened BlockModel

  predicate Supported(kind: string) { kind == "paragraph" || kind == "heading" }

  /** BLOCK_NODE_PROPS. */
  function PropKeys(kind: string): seq<string>
  {
    if kind == "heading" then ["level"] else []
  }

  // ---------------------------------------------------------------- blocks to PM

  function StyleName(k: StyleKey): string {
    match k case Bold => "bold" case Italic => "italic" case Code => "code"
  }

  function Marks(styles: map<StyleKey, bool>, keys: seq<StyleKey>): seq<Json> {
    if keys == [] then []
    else (if keys[0] in styles && styles[keys[0]] then [JObj(map["type" := JStr(StyleName(keys[0]))])] else [])
         + Marks(styles, keys[1..])
  }

  function PrintText(run: StyledText): Json {
    var marks := Marks(run.styles, TEXT_STYLE_KEYS);
    var bare := map["type" := JStr("text"), "text" := JStr(run.text)];
    JObj(if marks == [] then bare else bare["marks" := JArr(marks)])
  }

  function PrintTexts(runs: seq<StyledText>): seq<Json> {
    if runs == [] then [] else [PrintText(runs[0])] + PrintTexts(runs[1..])
  }

  function PrintAttrs(b: Block): map<string, Json> {
    var id := map["id" := if b.id == "" then JNull else JStr(b.id)];
    if b.kind == "heading" && "level" in b.props then id["level" := b.props["level"]] else id
  }

  predicate Printable(b: Block) {
    Supported(b.kind) && b.children == [] && forall k :: k in b.props ==> k in PropKeys(b.kind)
  }

  function PrintBlock(b: Block): Outcome<Json> {
    if !Supported(b.kind) then Throw(UnsupportedType(b.kind))
    else if !Printable(b) then Throw(Malformed)
    else
      Ok(Node(b.kind, PrintAttrs(b), PrintTexts(NormalizeRuns(b.content))))
  }

  function Node(kind: string, attrs: map<string, Json>, content: seq<Json>): Json {
    var bare := map["type" := JStr(kind), "attrs" := JObj(attrs)];
    JObj(if content == [] then bare else bare["content" := JArr(content)])
  }

  function PrintBlocks(bs: seq<Block>): Outcome<seq<Json>> {
    if bs == [] then Ok([])
    else
      var head :- PrintBlock(bs[0]);
      var tail :- PrintBlocks(bs[1..]);
      Ok([head] + tail)
  }

  function BlocksToPmDoc(bs: seq<Block>): Outcome<Json> {
    var nodes :- PrintBlocks(bs);
    Ok(JObj(map["type" := JStr("doc"), "content" := JArr(nodes)]))
  }

  // ---------------------------------------------------------------- PM to blocks

  /** The style a mark sets, if it is one of the three. */
  function ParseMark(mark: Json): Outcome<StyleKey> {
    if mark.JObj? && "type" in mark.fields && mark.fields["type"].JStr? then
      var name := mark.fields["type"].s;
      if name == "bold" then Ok(Bold) else if name == "italic" then Ok(Italic)
      else if name == "code" then Ok(Code) else Throw(Malformed)
    else Throw(Malformed)
  }

  function ParseMarks(marks: seq<Json>, styles: map<StyleKey, bool>): Outcome<map<StyleKey, bool>> {
    if marks == [] then Ok(styles)
    else
      var k :- ParseMark(marks[0]);
      ParseMarks(marks[1..], styles[k := true])
  }

  function ParseText(json: Json): Outcome<StyledText> {
    if !(json.JObj? && "type" in json.fields && json.fields["type"] == JStr("text") &&
         "text" in json.fields && json.fields["text"].JStr?) then Throw(Malformed)
    else if "marks" !in json.fields then Ok(StyledText(json.fields["text"].s, map[]))
    else if !json.fields["marks"].JArr? then Throw(Malformed)
    else
      var styles :- ParseMarks(json.fields["marks"].items, map[]);
      Ok(StyledText(json.fields["text"].s, styles))
  }

  function ParseTexts(items: seq<Json>): Outcome<seq<StyledText>> {
    if items == [] then Ok([])
    else
      var head :- ParseText(items[0]);
      var tail :- ParseTexts(items[1..]);
      Ok([head] + tail)
  }

  function ParseAttrs(node: map<string, Json>): Outcome<map<string, Json>> {
    if "attrs" !in node then Ok(map[])
    else if node["attrs"].JObj? then Ok(node["attrs"].fields)
    else Throw(Malformed)
  }

  function KeptProps(kind: string, attrs: map<string, Json>): Props {
    if kind == "heading" && "level" in attrs && attrs["level"] != JNull then map["level" := attrs["level"]] else map[]
  }

  function ParseNode(json: Json): Outcome<Block> {
    if !(json.JObj? && "type" in json.fields && json.fields["type"].JStr?) then Throw(Malformed)
    else
      var kind := json.fields["type"].s;
      if !Supported(kind) then Throw(UnsupportedType(kind))
      else
        var attrs :- ParseAttrs(json.fields);
        var content :-
          if "content" !in json.fields then Ok([])
          else if json.fields["content"].JArr? then ParseTexts(json.fields["content"].items)
          else Throw(Malformed);
        Ok(Block(if "id" in attrs && attrs["id"].JStr? then attrs["id"].s else "",
                 kind, KeptProps(kind, attrs), content, []))
  }

  function ParseNodes(items: seq<Json>): Outcome<seq<Block>> {
    if items == [] then Ok([])
    else
      var head :- ParseNode(items[0]);
      var tail :- ParseNodes(items[1..]);
      Ok([head] + tail)
  }

  function PmDocToBlocks(json: Json): Outcome<seq<Block>> {
    if !(json.JObj? && "type" in json.fields && json.fields["type"] == JStr("doc")) then Throw(Malformed)
    else if "content" !in json.fields then Ok([])
    else if json.fields["content"].JArr? then ParseNodes(json.fields["content"].items)
    else Throw(Malformed)
  }

  // ---------------------------------------------------------------- the loops of the helpers

  method StyledTextToPmText(run: StyledText) returns (json: Json)
    ensures json == PrintText(run)
  {
    var marks: seq<Json> := [];
    for i := 0 to |TEXT_STYLE_KEYS|
      invariant marks + Marks(run.styles, TEXT_STYLE_KEYS[i..]) == Marks(run.styles, TEXT_STYLE_KEYS)
    {
      var key := TEXT_STYLE_KEYS[i];
      assert TEXT_STYLE_KEYS[i..][0] == key && TEXT_STYLE_KEYS[i..][1..] == TEXT_STYLE_KEYS[i + 1..];
      if key in run.styles && run.styles[key] {
        var mark := JObj(map["type" := JStr(StyleName(key))]);
        assert marks + ([mark] + Marks(run.styles, TEXT_STYLE_KEYS[i + 1..]))
               == marks + [mark] + Marks(run.styles, TEXT_STYLE_KEYS[i + 1..]);
        marks := marks + [mark];
      }
    }
    assert marks == Marks(run.styles, TEXT_STYLE_KEYS) by { assert marks + [] == marks; }
    var bare := map["type" := JStr("text"), "text" := JStr(run.text)];
    json := JObj(if marks == [] then bare else bare["marks" := JArr(marks)]);
  }

  method PmTextToStyledText(json: Json) returns (r: Outcome<StyledText>)
    ensures r == ParseText(json)
  {
    if !(json.JObj? && "type" in json.fields && json.fields["type"] == JStr("text") &&
         "text" in json.fields && json.fields["text"].JStr?) {
      return Throw(Malformed);
    }
    var styles: map<StyleKey, bool> := map[];
    if "marks" in json.fields {
      if !json.fields["marks"].JArr? {
        return Throw(Malformed);
      }
      var marks := json.fields["marks"].items;
      for i := 0 to |marks|
        invariant ParseMarks(marks, map[]) == ParseMarks(marks[i..], styles)
      {
        assert marks[i..][0] == marks[i] && marks[i..][1..] == marks[i + 1..];
        var k := ParseMark(marks[i]);
        if k.Throw? {
          return Throw(k.error);
        }
        styles := styles[k.value := true];
      }
    }
    return Ok(StyledText(json.fields["text"].s, styles));
  }

  function Prepended(front: seq<StyledText>, rest: Outcome<seq<StyledText>>): Outcome<seq<StyledText>> {
    if rest.Throw? then rest else Ok(front + rest.value)
  }

  lemma PrependedTwice(front: seq<StyledText>, items: seq<Json>)
    ensures items != [] && ParseText(items[0]).Ok? ==>
              Prepended(front, ParseTexts(items))
                == Prepended(front + [ParseText(items[0]).value], ParseTexts(items[1..]))
  {
    if items != [] && ParseText(items[0]).Ok? && ParseTexts(items[1..]).Ok? {
      var x, rest := ParseText(items[0]).value, ParseTexts(items[1..]).value;
      assert front + ([x] + rest) == front + [x] + rest;
    }
  }

  method ParseInline(items: seq<Json>) returns (r: Outcome<seq<StyledText>>)
    ensures r == ParseTexts(items)
  {
    var content: seq<StyledText> := [];
    assert items[0..] == items;
    assert ParseTexts(items).Ok? ==> [] + ParseTexts(items).value == ParseTexts(items).value;
    for i := 0 to |items|
      invariant ParseTexts(items) == Prepended(content, ParseTexts(items[i..]))
    {
      PrependedTwice(content, items[i..]);
      assert items[i..][0] == items[i] && items[i..][1..] == items[i + 1..];
      var one := PmTextToStyledText(items[i]);
      if one.Throw? {
        return Throw(one.error);
      }
      content := content + [one.value];
    }
    assert content + [] == content;
    return Ok(content);
  }

  // ---------------------------------------------------------------- round trips

  /** What printing keeps of a block: normalised content and the props that are not null. */
  function Kept(b: Block): Block {
    Block(b.id, b.kind, map k | k in b.props && b.props[k] != JNull :: b.props[k], NormalizeRuns(b.content), [])
  }

  function KeptAll(bs: seq<Block>): seq<Block> {
    if bs == [] then [] else [Kept(bs[0])] + KeptAll(bs[1..])
  }

  lemma MarkRoundTrip(k: StyleKey)
    ensures ParseMark(JObj(map["type" := JStr(StyleName(k))])) == Ok(k)
  {
  }

  /** The styles set to true among `keys`. */
  function Chosen(styles: map<StyleKey, bool>, keys: seq<StyleKey>): map<StyleKey, bool> {
    map k | k in keys && k in styles && styles[k] :: true
  }

  /** Reading the emitted marks restores exactly the styles set to true. */
  lemma MarksRoundTrip(styles: map<StyleKey, bool>)
    ensures ParseMarks(Marks(styles, TEXT_STYLE_KEYS), map[]) == Ok(TrueStyles(styles))
  {
    MarksParse(styles, TEXT_STYLE_KEYS, map[]);
    AllStyleKeys();
    assert map[] + Chosen(styles, TEXT_STYLE_KEYS) == TrueStyles(styles);
  }

  lemma {:induction false} MarksParse(styles: map<StyleKey, bool>, keys: seq<StyleKey>, sofar: map<StyleKey, bool>)
    ensures ParseMarks(Marks(styles, keys), sofar) == Ok(sofar + Chosen(styles, keys))
  {
    if keys == [] {
      assert sofar + Chosen(styles, keys) == sofar;
    } else {
      var k, rest := keys[0], keys[1..];
      ChosenCons(styles, k, rest, sofar);
      assert keys == [k] + rest;
      if k in styles && styles[k] {
        MarkRoundTrip(k);
        assert Marks(styles, keys)[1..] == Marks(styles, rest);
        MarksParse(styles, rest, sofar[k := true]);
      } else {
        assert Marks(styles, keys) == Marks(styles, rest);
        MarksParse(styles, rest, sofar);
      }
    }
  }

  lemma ChosenCons(styles: map<StyleKey, bool>, k: StyleKey, rest: seq<StyleKey>, sofar: map<StyleKey, bool>)
    ensures sofar + Chosen(styles, [k] + rest)
         == (if k in styles && styles[k] then sofar[k := true] else sofar) + Chosen(styles, rest)
  {
  }

  lemma TextRoundTrip(run: StyledText)
    ensures ParseText(PrintText(run)) == Ok(StyledText(run.text, TrueStyles(run.styles)))
  {
    MarksRoundTrip(run.styles);
  }

  lemma {:induction false} TextsRoundTrip(runs: seq<StyledText>)
    requires CanonicalContent(runs)
    ensures ParseTexts(PrintTexts(runs)) == Ok(runs) && |PrintTexts(runs)| == |runs|
  {
    if runs != [] {
      assert CanonicalRun(runs[0]);
      TextRoundTrip(runs[0]);
      assert TrueStyles(runs[0].styles) == runs[0].styles;
      TextsRoundTrip(runs[1..]);
      assert PrintTexts(runs)[1..] == PrintTexts(runs[1..]);
      assert [runs[0]] + runs[1..] == runs;
    }
  }

  lemma BlockRoundTrip(b: Block)
    requires Printable(b)
    ensures PrintBlock(b).Ok? && ParseNode(PrintBlock(b).value) == Ok(Kept(b))
  {
    NormalizeIsCanonical(b.content);
    TextsRoundTrip(NormalizeRuns(b.content));
    AttrsRoundTrip(b);
    NodeFields(b.kind, PrintAttrs(b), PrintTexts(NormalizeRuns(b.content)));
  }

  lemma AttrsRoundTrip(b: Block)
    requires Printable(b)
    ensures KeptProps(b.kind, PrintAttrs(b)) == Kept(b).props
    ensures (if "id" in PrintAttrs(b) && PrintAttrs(b)["id"].JStr? then PrintAttrs(b)["id"].s else "") == b.id
  {
    assert forall k :: k in b.props ==> k == "level";
  }

  lemma NodeFields(kind: string, attrs: map<string, Json>, texts: seq<Json>)
    requires Supported(kind) && ParseTexts(texts).Ok?
    ensures ParseNode(Node(kind, attrs, texts))
         == Ok(Block(if "id" in attrs && attrs["id"].JStr? then attrs["id"].s else "",
                     kind, KeptProps(kind, attrs), ParseTexts(texts).value, []))
  {
  }

  predicate AllPrintable(bs: seq<Block>) { forall i :: 0 <= i < |bs| ==> Printable(bs[i]) }

  lemma AllPrintableCons(bs: seq<Block>)
    requires bs != []
    ensures AllPrintable(bs) <==> Printable(bs[0]) && AllPrintable(bs[1..])
  {
    if AllPrintable(bs[1..]) {
      forall i | 1 <= i < |bs| ensures Printable(bs[i]) { assert bs[i] == bs[1..][i - 1]; }
    }
  }

  lemma {:induction false} PrintsIff(bs: seq<Block>)
    ensures PrintBlocks(bs).Ok? <==> AllPrintable(bs)
  {
    if bs != [] {
      PrintsIff(bs[1..]);
      AllPrintableCons(bs);
    }
  }

  lemma {:induction false} BlocksRoundTrip(bs: seq<Block>)
    requires AllPrintable(bs)
    ensures PrintBlocks(bs).Ok? && ParseNodes(PrintBlocks(bs).value) == Ok(KeptAll(bs))
  {
    if bs != [] {
      AllPrintableCons(bs);
      BlocksRoundTrip(bs[1..]);
      BlockRoundTrip(bs[0]);
      assert PrintBlocks(bs).value[1..] == PrintBlocks(bs[1..]).value;
    }
  }

  /** Printing succeeds exactly on supported, childless blocks without foreign props, and reading
      the document back gives every block with its content normalised and its null props dropped. */
  lemma PmRoundTrip(bs: seq<Block>)
    ensures BlocksToPmDoc(bs).Ok? <==> AllPrintable(bs)
    ensures BlocksToPmDoc(bs).Ok? ==> PmDocToBlocks(BlocksToPmDoc(bs).value) == Ok(KeptAll(bs))
  {
    PrintsIff(bs);
    if AllPrintable(bs) { BlocksRoundTrip(bs); }
  }

  /** A block printing keeps whole: canonical content, no null prop, no children. */
  ghost predicate SurvivesPrinting(b: Block) {
    Printable(b) && CanonicalContent(b.content) && forall k :: k in b.props ==> b.props[k] != JNull
  }

  lemma {:induction false} KeptAllAt(bs: seq<Block>)
    ensures |KeptAll(bs)| == |bs| && forall i :: 0 <= i < |bs| ==> KeptAll(bs)[i] == Kept(bs[i])
  {
    if bs != [] { KeptAllAt(bs[1..]); }
  }

  lemma KeptWhole(b: Block)
    requires Printable(b)
    ensures Kept(b) == b <==> SurvivesPrinting(b)
  {
    NormalizeIsCanonical(b.content);
    var kept := map k | k in b.props && b.props[k] != JNull :: b.props[k];
    if kept == b.props {
      forall k | k in b.props ensures b.props[k] != JNull { assert k in kept; }
    }
  }

  /** The round trip is the identity exactly when every block survives printing; canonical blocks do. */
  lemma PmIdentityIff(bs: seq<Block>)
    requires BlocksToPmDoc(bs).Ok?
    ensures PmDocToBlocks(BlocksToPmDoc(bs).value) == Ok(bs)
       <==> forall i :: 0 <= i < |bs| ==> SurvivesPrinting(bs[i])
  {
    PmRoundTrip(bs);
    KeptAllAt(bs);
    forall i | 0 <= i < |bs| ensures Kept(bs[i]) == bs[i] <==> SurvivesPrinting(bs[i]) { KeptWhole(bs[i]); }
    if forall i :: 0 <= i < |bs| ==> SurvivesPrinting(bs[i]) {
      assert KeptAll(bs) == bs;
    }
  }

  lemma CanonicalSurvives(b: Block)
    requires Canonical(b)
    ensures SurvivesPrinting(b)
  {
    if b.kind == "heading" { assert b.props.Keys == {"level"}; }
  }

  lemma ParsedBlock(json: Json)
    requires ParseNode(json).Ok?
    ensures var b := ParseNode(json).value;
            Printable(b) && Kept(b) == b.(content := NormalizeRuns(b.content))
  {
    var b := ParseNode(json).value;
    assert (map k | k in b.props && b.props[k] != JNull :: b.props[k]) == b.props;
  }

  function NormalizedAll(bs: seq<Block>): seq<Block> {
    if bs == [] then [] else [bs[0].(content := NormalizeRuns(bs[0].content))] + NormalizedAll(bs[1..])
  }

  lemma {:induction false} ParsedBlocks(items: seq<Json>)
    requires ParseNodes(items).Ok?
    ensures var bs := ParseNodes(items).value;
            AllPrintable(bs) && KeptAll(bs) == NormalizedAll(bs)
  {
    if items != [] {
      ParsedBlock(items[0]);
      ParsedBlocks(items[1..]);
      var bs := ParseNodes(items).value;
      assert bs[1..] == ParseNodes(items[1..]).value;
      forall i | 0 <= i < |bs| ensures Printable(bs[i]) { if i > 0 { assert bs[i] == bs[1..][i - 1]; } }
    }
  }

  /** Whatever JSON the parser accepts, printing and reparsing gives the same blocks with their
      content normalised. */
  lemma ReparseNormalizes(json: Json)
    requires PmDocToBlocks(json).Ok?
    ensures var bs := PmDocToBlocks(json).value;
            BlocksToPmDoc(bs).Ok? && PmDocToBlocks(BlocksToPmDoc(bs).value) == Ok(NormalizedAll(bs))
  {
    var bs := PmDocToBlocks(json).value;
    if "content" in json.fields {
      ParsedBlocks(json.fields["content"].items);
    }
    PmRoundTrip(bs);
  }

  /** The styles read off a mark list depend on which marks occur, not on order or repetition. */
  lemma {:induction false} MarksAsSet(marks: seq<Json>, styles: map<StyleKey, bool>)
    ensures ParseMarks(marks, styles).Ok? <==> forall i :: 0 <= i < |marks| ==> ParseMark(marks[i]).Ok?
    ensures ParseMarks(marks, styles).Ok? ==>
              forall k :: k in ParseMarks(marks, styles).value
                     <==> k in styles || exists i :: 0 <= i < |marks| && ParseMark(marks[i]) == Ok(k)
    ensures ParseMarks(marks, styles).Ok? && (forall k :: k in styles ==> styles[k]) ==>
              forall k :: k in ParseMarks(marks, styles).value ==> ParseMarks(marks, styles).value[k]
  {
    if marks != [] {
      assert forall i :: 0 <= i < |marks[1..]| ==> marks[1..][i] == marks[i + 1];
      var one := ParseMark(marks[0]);
      if one.Ok? {
        MarksAsSet(marks[1..], styles[one.value := true]);
        forall k ensures (exists i :: 0 <= i < |marks| && ParseMark(marks[i]) == Ok(k))
                    <==> one == Ok(k) || exists i :: 0 <= i < |marks[1..]| && ParseMark(marks[1..][i]) == Ok(k)
        {
          if i :| 0 <= i < |marks| && ParseMark(marks[i]) == Ok(k) && i > 0 {
            assert ParseMark(marks[1..][i - 1]) == Ok(k);
          }
          if i :| 0 <= i < |marks[1..]| && ParseMark(marks[1..][i]) == Ok(k) {
            assert ParseMark(marks[i + 1]) == Ok(k);
          }
        }
      }
    }
  }
}
