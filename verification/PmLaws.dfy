/** The JSON on either side of the mapping (packages/blocks/src/pm.ts): which documents are read and
    what is read off them, and what is printed for a block. */
module PmLaws {
  import opened BlockModel
  import opened PmMapping

  // ---------------------------------------------------------------- the shape of a document

  predicate Field(j: Json, key: string) { j.JObj? && key in j.fields }

  /** A mark object of this style. */
  predicate MarkFor(j: Json, k: StyleKey) {
    Field(j, "type") && match k
                        case Bold => j.fields["type"] == JStr("bold")
                        case Italic => j.fields["type"] == JStr("italic")
                        case Code => j.fields["type"] == JStr("code")
  }

  predicate IsMark(j: Json) { MarkFor(j, Bold) || MarkFor(j, Italic) || MarkFor(j, Code) }

  predicate IsText(j: Json) {
    && Field(j, "type") && j.fields["type"] == JStr("text") && Field(j, "text") && j.fields["text"].JStr?
    && (Field(j, "marks") ==> j.fields["marks"].JArr? && AllMarks(j.fields["marks"].items))
  }

  predicate AllMarks(js: seq<Json>) { forall i :: 0 <= i < |js| ==> IsMark(js[i]) }

  predicate AllTexts(js: seq<Json>) { forall i :: 0 <= i < |js| ==> IsText(js[i]) }

  /** Attributes and content may both be missing. */
  predicate IsNode(j: Json) {
    && Field(j, "type") && j.fields["type"] in [JStr("paragraph"), JStr("heading")]
    && (Field(j, "attrs") ==> j.fields["attrs"].JObj?)
    && (Field(j, "content") ==> j.fields["content"].JArr? && AllTexts(j.fields["content"].items))
  }

  predicate AllNodes(js: seq<Json>) { forall i :: 0 <= i < |js| ==> IsNode(js[i]) }

  predicate IsDoc(j: Json) {
    && Field(j, "type") && j.fields["type"] == JStr("doc")
    && (Field(j, "content") ==> j.fields["content"].JArr? && AllNodes(j.fields["content"].items))
  }

  // ---------------------------------------------------------------- reading

  lemma MarkReads(j: Json)
    ensures ParseMark(j).Ok? <==> IsMark(j)
    ensures forall k :: ParseMark(j) == Ok(k) <==> MarkFor(j, k)
  {
  }

  /** The styles are those of the marks that occur. */
  predicate StyledBy(styles: map<StyleKey, bool>, marks: seq<Json>) {
    && (forall k :: k in styles <==> exists i :: 0 <= i < |marks| && MarkFor(marks[i], k))
    && forall k :: k in styles ==> styles[k]
  }

  lemma MarksRead(marks: seq<Json>)
    ensures ParseMarks(marks, map[]).Ok? <==> AllMarks(marks)
    ensures ParseMarks(marks, map[]).Ok? ==> StyledBy(ParseMarks(marks, map[]).value, marks)
  {
    forall i | 0 <= i < |marks| { MarkReads(marks[i]); }
    MarksAsSet(marks, map[]);
  }

  function MarksOf(j: Json): seq<Json> {
    if Field(j, "marks") && j.fields["marks"].JArr? then j.fields["marks"].items else []
  }

  predicate IsRun(run: StyledText, j: Json) {
    Field(j, "text") && j.fields["text"] == JStr(run.text) && StyledBy(run.styles, MarksOf(j))
  }

  lemma TextReads(j: Json)
    ensures ParseText(j).Ok? <==> IsText(j)
    ensures ParseText(j).Ok? ==> IsRun(ParseText(j).value, j)
  {
    MarksRead(MarksOf(j));
  }

  lemma {:induction false} TextsRead(js: seq<Json>)
    ensures ParseTexts(js).Ok? <==> AllTexts(js)
    ensures ParseTexts(js).Ok? ==>
              |ParseTexts(js).value| == |js| && forall i :: 0 <= i < |js| ==> IsRun(ParseTexts(js).value[i], js[i])
  {
    if js != [] {
      TextReads(js[0]);
      TextsRead(js[1..]);
      assert AllTexts(js) <==> IsText(js[0]) && AllTexts(js[1..]) by {
        assert forall i :: 1 <= i < |js| ==> js[i] == js[1..][i - 1];
      }
    }
  }

  function AttrOf(j: Json, key: string): Json {
    if Field(j, "attrs") && Field(j.fields["attrs"], key) then j.fields["attrs"].fields[key] else JNull
  }

  function ContentOf(j: Json): seq<Json> {
    if Field(j, "content") && j.fields["content"].JArr? then j.fields["content"].items else []
  }

  /** The block read off a node: its type, its id or none, a heading's level if it has one, one run per
      inline node, and no children. */
  predicate IsRead(b: Block, j: Json) {
    && Field(j, "type") && j.fields["type"] == JStr(b.kind)
    && b.id == (if AttrOf(j, "id").JStr? then AttrOf(j, "id").s else "")
    && b.props == (if b.kind == "heading" && AttrOf(j, "level") != JNull then map["level" := AttrOf(j, "level")]
                   else map[])
    && |b.content| == |ContentOf(j)| && (forall i :: 0 <= i < |b.content| ==> IsRun(b.content[i], ContentOf(j)[i]))
    && b.children == []
  }

  lemma NodeReads(j: Json)
    ensures ParseNode(j).Ok? <==> IsNode(j)
    ensures ParseNode(j).Ok? ==> IsRead(ParseNode(j).value, j)
  {
    TextsRead(ContentOf(j));
  }

  lemma {:induction false} NodesRead(js: seq<Json>)
    ensures ParseNodes(js).Ok? <==> AllNodes(js)
    ensures ParseNodes(js).Ok? ==>
              |ParseNodes(js).value| == |js| && forall i :: 0 <= i < |js| ==> IsRead(ParseNodes(js).value[i], js[i])
  {
    if js != [] {
      NodeReads(js[0]);
      NodesRead(js[1..]);
      assert AllNodes(js) <==> IsNode(js[0]) && AllNodes(js[1..]) by {
        assert forall i :: 1 <= i < |js| ==> js[i] == js[1..][i - 1];
      }
    }
  }

  /** A document is accepted exactly if it has the shape of one, and each block is read off its node;
      a node without attributes has no id and no props. */
  lemma DocReads(j: Json)
    ensures PmDocToBlocks(j).Ok? <==> IsDoc(j)
    ensures PmDocToBlocks(j).Ok? ==>
              var bs, nodes := PmDocToBlocks(j).value, ContentOf(j);
              |bs| == |nodes| && forall i :: 0 <= i < |bs| ==> IsRead(bs[i], nodes[i])
  {
    NodesRead(ContentOf(j));
  }

  // ---------------------------------------------------------------- printing

  /** One mark per style set to true, in key order, and no `marks` field without one. */
  predicate PrintsRun(j: Json, run: StyledText) {
    && IsText(j)
    && j.fields.Keys == (if TrueStyles(run.styles) == map[] then {"type", "text"} else {"type", "text", "marks"})
    && j.fields["text"] == JStr(run.text)
    && MarksOf(j) == Emitted(run.styles, Bold, "bold") + Emitted(run.styles, Italic, "italic")
                     + Emitted(run.styles, Code, "code")
  }

  function Emitted(styles: map<StyleKey, bool>, k: StyleKey, name: string): seq<Json> {
    if k in styles && styles[k] then [JObj(map["type" := JStr(name)])] else []
  }

  lemma MarksPrint(styles: map<StyleKey, bool>)
    ensures Marks(styles, TEXT_STYLE_KEYS)
         == Emitted(styles, Bold, "bold") + Emitted(styles, Italic, "italic") + Emitted(styles, Code, "code")
  {
    var keys: seq<StyleKey> := TEXT_STYLE_KEYS;
    assert keys[0] == Bold && keys[1..][0] == Italic && keys[1..][1..][0] == Code && keys[1..][1..][1..] == [];
    assert Marks(styles, keys[1..][1..][1..]) == [];
    assert Marks(styles, keys[1..][1..]) == Emitted(styles, Code, "code");
    assert Marks(styles, keys[1..]) == Emitted(styles, Italic, "italic") + Emitted(styles, Code, "code");
    assert Marks(styles, keys) == Emitted(styles, Bold, "bold") + Marks(styles, keys[1..]);
  }

  lemma TextPrints(run: StyledText)
    ensures PrintsRun(PrintText(run), run)
  {
    MarksPrint(run.styles);
    var marks, chosen := Marks(run.styles, TEXT_STYLE_KEYS), TrueStyles(run.styles);
    if marks == [] {
      assert forall k: StyleKey :: k !in chosen by {
        forall k: StyleKey ensures k !in chosen { match k case Bold => case Italic => case Code => }
      }
    } else {
      assert Bold in chosen || Italic in chosen || Code in chosen;
    }
  }

  lemma {:induction false} TextsPrint(runs: seq<StyledText>)
    ensures |PrintTexts(runs)| == |runs| && AllTexts(PrintTexts(runs))
    ensures forall i :: 0 <= i < |runs| ==> PrintsRun(PrintTexts(runs)[i], runs[i])
  {
    if runs != [] {
      TextPrints(runs[0]);
      TextsPrint(runs[1..]);
      assert forall i :: 1 <= i < |runs| ==> runs[i] == runs[1..][i - 1];
    }
  }

  /** The node printed for a block: its type, its id or null, a heading's level if it has that prop, and
      its normalised runs, with no `content` field where there are none. */
  predicate PrintsBlock(j: Json, b: Block) {
    var runs := NormalizeRuns(b.content);
    && IsNode(j) && j.fields.Keys == (if runs == [] then {"type", "attrs"} else {"type", "attrs", "content"})
    && j.fields["type"] == JStr(b.kind) && j.fields["attrs"].JObj?
    && j.fields["attrs"].fields.Keys == (if b.kind == "heading" && "level" in b.props then {"id", "level"} else {"id"})
    && AttrOf(j, "id") == (if b.id == "" then JNull else JStr(b.id))
    && (b.kind == "heading" && "level" in b.props ==> AttrOf(j, "level") == b.props["level"])
    && |ContentOf(j)| == |runs| && forall i :: 0 <= i < |runs| ==> PrintsRun(ContentOf(j)[i], runs[i])
  }

  lemma BlockPrints(b: Block)
    requires Printable(b)
    ensures PrintBlock(b).Ok? && PrintsBlock(PrintBlock(b).value, b)
  {
    hide PrintsRun, PrintTexts, IsText, NormalizeRuns;
    var runs := NormalizeRuns(b.content);
    var j := PrintBlock(b).value;
    TextsPrint(runs);
    assert ContentOf(j) == PrintTexts(runs);
  }

  lemma {:induction false} BlocksPrint(bs: seq<Block>)
    requires AllPrintable(bs)
    ensures PrintBlocks(bs).Ok? && |PrintBlocks(bs).value| == |bs|
    ensures forall i :: 0 <= i < |bs| ==> PrintsBlock(PrintBlocks(bs).value[i], bs[i])
  {
    hide PrintsBlock, PrintBlock, Printable;
    if bs != [] {
      AllPrintableCons(bs);
      BlockPrints(bs[0]);
      BlocksPrint(bs[1..]);
      assert forall i :: 1 <= i < |bs| ==> bs[i] == bs[1..][i - 1];
    }
  }

  /** A printed document has one node per block, in order. */
  lemma DocPrints(bs: seq<Block>)
    requires BlocksToPmDoc(bs).Ok?
    ensures var j := BlocksToPmDoc(bs).value;
            && IsDoc(j) && |ContentOf(j)| == |bs|
            && forall i :: 0 <= i < |bs| ==> PrintsBlock(ContentOf(j)[i], bs[i])
  {
    PrintsIff(bs);
    BlocksPrint(bs);
  }
}
