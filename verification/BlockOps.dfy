/** The server half of `doc.update` (packages/blocks/src/ops.ts): replaying an op list on a block list. */
module BlockOps {
  import opened BlockModel
  import opened Options
  import Ids

  /** The hash of a block's editable state; SHA-256 of canonical JSON is taken to be injective. */
  datatype Hash = Hash(kind: string, props: Props, content: seq<StyledText>)

  function HashOf(b: Block): Hash { Hash(b.kind, b.props, b.content) }

  datatype Patch = Patch(kind: Option<string>, props: Option<Props>, content: Option<ContentInput>)

  datatype Op =
    | Insert(kind: string, props: Option<Props>, content: ContentInput, after: Option<string>)
    | Update(id: string, patch: Patch, expect_: Option<Hash>)
    | Remove(id: string, expect_: Option<Hash>)

  /** The audit projection of one block. */
  datatype PostState = PostState(id: string, doc_id: string, kind: string, order_key: string, props: Props,
                                 content: seq<StyledText>)

  datatype Applied =
    | AppliedInsert(block: PostState, after: Option<string>)
    | AppliedUpdate(id: string, post: PostState)
    | AppliedRemove(id: string, preimage: PostState)

  /** The working list, the projections so far, and how many ids were minted. */
  datatype Progress = Progress(blocks: seq<Block>, applied: seq<Applied>, minted: nat)

  /** Where the audit projection goes and where ids come from. */
  datatype Deps = Deps(doc_id: string, mint: nat -> string)

  // ---------------------------------------------------------------- one op

  function IdsOf(bs: seq<Block>): (ids: seq<string>)
    ensures |ids| == |bs| && forall i :: 0 <= i < |bs| ==> ids[i] == bs[i].id
  {
    seq(|bs|, i requires 0 <= i < |bs| => bs[i].id)
  }

  /** `findIndex`, with the length standing for -1. */
  function FindIndex(bs: seq<Block>, id: string): (i: nat)
    ensures i <= |bs| && (i < |bs| ==> bs[i].id == id)
    ensures forall j :: 0 <= j < i ==> bs[j].id != id
  {
    if bs == [] || bs[0].id == id then 0 else 1 + FindIndex(bs[1..], id)
  }

  function Decimal(n: nat): string {
    if n < 10 then ["0123456789"[n]] else Decimal(n / 10) + ["0123456789"[n % 10]]
  }

  /** `BlockId(...)` throws on anything that is not a UUIDv7. */
  function Project(b: Block, doc_id: string, index: nat): Outcome<PostState> {
    if !Ids.ParsesV7(b.id) then Throw(InvalidId(b.id))
    else Ok(PostState(b.id, doc_id, b.kind, Ids.PadStart(Decimal(index), 6), b.props, b.content))
  }

  function InsertBlock(op: Op, id: string): Outcome<Block>
    requires op.Insert?
  {
    var props :- ParseProps(op.kind, Or(op.props, map[]));
    Materialize(op.kind, props, op.content, id)
  }

  function InsertIndex(bs: seq<Block>, after: Option<string>): (r: Outcome<nat>)
    ensures r.Ok? ==> r.value <= |bs|
  {
    if after.None? then Ok(0)
    else var anchor := FindIndex(bs, after.value);
      if anchor == |bs| then Throw(NotFound(after.value)) else Ok(anchor + 1)
  }

  /** `post` is `pre` with the block of `op` right behind its anchor, or on top. */
  ghost predicate SplicedIn(pre: seq<Block>, op: Op, id: string, post: seq<Block>)
    requires op.Insert?
  {
    var block, index := InsertBlock(op, id), InsertIndex(pre, op.after);
    block.Ok? && index.Ok? && post == pre[..index.value] + [block.value] + pre[index.value..]
  }

  function ApplyInsert(p: Progress, op: Op, deps: Deps): Outcome<Progress>
    requires op.Insert?
  {
    var block :- InsertBlock(op, deps.mint(p.minted));
    var index :- InsertIndex(p.blocks, op.after);
    var post :- Project(block, deps.doc_id, index);
    Ok(Progress(p.blocks[..index] + [block] + p.blocks[index..], p.applied + [AppliedInsert(post, op.after)],
                p.minted + 1))
  }

  /** The block an update or remove names, if it exists and is still as expected. */
  function Target(bs: seq<Block>, id: string, expected: Option<Hash>): (r: Outcome<nat>)
    ensures r.Ok? ==> r.value < |bs| && bs[r.value].id == id
  {
    var index := FindIndex(bs, id);
    if index == |bs| then Throw(NotFound(id))
    else if expected.Some? && HashOf(bs[index]) != expected.value then Throw(StalePrecondition(id))
    else Ok(index)
  }

  function Patched(current: Block, patch: Patch): Outcome<Block> {
    var kind := Or(patch.kind, current.kind);
    var props :- if patch.kind.Some? || patch.props.Some?
                 then ParseProps(kind, current.props + Or(patch.props, map[])) else Ok(current.props);
    var content :- if patch.content.Some? then Normalize(patch.content.value) else Ok(current.content);
    Ok(Block(current.id, kind, props, content, current.children))
  }

  function ApplyUpdate(p: Progress, op: Op, deps: Deps): Outcome<Progress>
    requires op.Update?
  {
    var index :- Target(p.blocks, op.id, op.expect_);
    var next :- Patched(p.blocks[index], op.patch);
    var post :- Project(next, deps.doc_id, index);
    Ok(Progress(p.blocks[index := next], p.applied + [AppliedUpdate(op.id, post)], p.minted))
  }

  function ApplyRemove(p: Progress, op: Op, deps: Deps): Outcome<Progress>
    requires op.Remove?
  {
    var index :- Target(p.blocks, op.id, op.expect_);
    var preimage :- Project(p.blocks[index], deps.doc_id, index);
    Ok(Progress(p.blocks[..index] + p.blocks[index + 1..], p.applied + [AppliedRemove(op.id, preimage)], p.minted))
  }

  function ApplyOp(p: Progress, op: Op, deps: Deps): Outcome<Progress> {
    match op
    case Insert(_, _, _, _) => ApplyInsert(p, op, deps)
    case Update(_, _, _) => ApplyUpdate(p, op, deps)
    case Remove(_, _) => ApplyRemove(p, op, deps)
  }

  function ApplyOps(p: Progress, ops: seq<Op>, deps: Deps): Outcome<Progress>
    decreases |ops|
  {
    if ops == [] then Ok(p)
    else
      var next :- ApplyOp(p, ops[0], deps);
      ApplyOps(next, ops[1..], deps)
  }

  lemma {:induction false} ApplyOpsConcat(p: Progress, a: seq<Op>, b: seq<Op>, deps: Deps)
    requires ApplyOps(p, a, deps).Ok?
    ensures ApplyOps(p, a + b, deps) == ApplyOps(ApplyOps(p, a, deps).value, b, deps)
    decreases |a|
  {
    if a == [] {
      assert a + b == b;
    } else {
      assert (a + b)[0] == a[0] && (a + b)[1..] == a[1..] + b;
      ApplyOpsConcat(ApplyOp(p, a[0], deps).value, a[1..], b, deps);
    }
  }

  // ---------------------------------------------------------------- the in-place form

  class Minter {
    const stream: nat -> string
    var used: nat

    constructor (stream: nat -> string)
      ensures this.stream == stream && used == 0
    {
      this.stream := stream;
      used := 0;
    }

    method MintId() returns (id: string)
      modifies this
      ensures id == stream(old(used)) && used == old(used) + 1
    {
      id := stream(used);
      used := used + 1;
    }
  }

  class Applier {
    var working: seq<Block>
    var applied: seq<Applied>
    const minter: Minter
    const doc_id: string

    constructor (pre: seq<Block>, doc_id: string, minter: Minter)
      ensures working == pre && applied == [] && this.minter == minter && this.doc_id == doc_id
    {
      working, applied := pre, [];
      this.minter := minter;
      this.doc_id := doc_id;
    }

    ghost function State(): Progress
      reads this, minter
    {
      Progress(working, applied, minter.used)
    }

    function Env(): Deps { Deps(doc_id, minter.stream) }

    /** The splice comes before the projection: a throw leaves the list as it was, unless the minted id
        is no block id; then the block is in the list but not in the projections. */
    method Insert(op: Op) returns (r: Outcome<()>)
      requires op.Insert?
      modifies this, minter
      ensures ApplyInsert(old(State()), op, Env()).Ok? <==> r.Ok?
      ensures r.Ok? ==> State() == ApplyInsert(old(State()), op, Env()).value
      ensures r.Throw? ==> r.error == ApplyInsert(old(State()), op, Env()).error && applied == old(applied)
      ensures r.Throw? && !r.error.InvalidId? ==> working == old(working)
      ensures r.Throw? && r.error.InvalidId? ==>
                SplicedIn(old(working), op, minter.stream(old(minter.used)), working) &&
                !Ids.ParsesV7(minter.stream(old(minter.used)))
      ensures minter.used == old(minter.used) + if ParseProps(op.kind, Or(op.props, map[])).Ok? then 1 else 0
    {
      var props := ParseProps(op.kind, Or(op.props, map[]));
      if props.Throw? { return Throw(props.error); }
      var id := minter.MintId();
      var block := Materialize(op.kind, props.value, op.content, id);
      if block.Throw? { return Throw(block.error); }
      var index := 0;
      if op.after.Some? {
        var anchor := FindIndex(working, op.after.value);
        if anchor == |working| { return Throw(NotFound(op.after.value)); }
        index := anchor + 1;
      }
      working := working[..index] + [block.value] + working[index..];
      var post := Project(block.value, doc_id, index);
      if post.Throw? { return Throw(post.error); }
      applied := applied + [AppliedInsert(post.value, op.after)];
      r := Ok(());
    }

    method Update(op: Op) returns (r: Outcome<()>)
      requires op.Update?
      modifies this
      ensures ApplyUpdate(old(State()), op, Env()).Ok? <==> r.Ok?
      ensures r.Ok? ==> State() == ApplyUpdate(old(State()), op, Env()).value
      ensures r.Throw? ==> r.error == ApplyUpdate(old(State()), op, Env()).error && applied == old(applied)
      ensures r.Throw? && !r.error.InvalidId? ==> working == old(working)
    {
      var index := FindIndex(working, op.id);
      if index == |working| { return Throw(NotFound(op.id)); }
      var current := working[index];
      if op.expect_.Some? && HashOf(current) != op.expect_.value { return Throw(StalePrecondition(op.id)); }
      var next := Patched(current, op.patch);
      if next.Throw? { return Throw(next.error); }
      working := working[index := next.value];
      var post := Project(next.value, doc_id, index);
      if post.Throw? { return Throw(post.error); }
      applied := applied + [AppliedUpdate(op.id, post.value)];
      r := Ok(());
    }

    method Remove(op: Op) returns (r: Outcome<()>)
      requires op.Remove?
      modifies this
      ensures ApplyRemove(old(State()), op, Env()).Ok? <==> r.Ok?
      ensures r.Ok? ==> State() == ApplyRemove(old(State()), op, Env()).value
      ensures r.Throw? ==> r.error == ApplyRemove(old(State()), op, Env()).error && State() == old(State())
    {
      var index := FindIndex(working, op.id);
      if index == |working| { return Throw(NotFound(op.id)); }
      var current := working[index];
      if op.expect_.Some? && HashOf(current) != op.expect_.value { return Throw(StalePrecondition(op.id)); }
      var preimage := Project(current, doc_id, index);
      if preimage.Throw? { return Throw(preimage.error); }
      working := working[..index] + working[index + 1..];
      applied := applied + [AppliedRemove(op.id, preimage.value)];
      r := Ok(());
    }

    /** The loop of `applyOpsToBlocks`. */
    method Run(ops: seq<Op>) returns (r: Outcome<()>)
      modifies this, minter
      ensures ApplyOps(old(State()), ops, Env()).Ok? <==> r.Ok?
      ensures r.Ok? ==> State() == ApplyOps(old(State()), ops, Env()).value
      ensures r.Throw? ==> r.error == ApplyOps(old(State()), ops, Env()).error
    {
      assert ops[0..] == ops;
      for i := 0 to |ops|
        invariant ApplyOps(old(State()), ops, Env()) == ApplyOps(State(), ops[i..], Env())
      {
        assert ops[i..][0] == ops[i] && ops[i..][1..] == ops[i + 1..];
        var one: Outcome<()>;
        match ops[i] {
          case Insert(_, _, _, _) => one := Insert(ops[i]);
          case Update(_, _, _) => one := Update(ops[i]);
          case Remove(_, _) => one := Remove(ops[i]);
        }
        if one.Throw? { return Throw(one.error); }
      }
      r := Ok(());
    }
  }

  /** `applyOpsToBlocks`. */
  method ApplyOpsToBlocks(pre: seq<Block>, ops: seq<Op>, doc_id: string, minter: Minter) returns (r: Outcome<Progress>)
    modifies minter
    ensures r == ApplyOps(Progress(pre, [], old(minter.used)), ops, Deps(doc_id, minter.stream))
  {
    var a := new Applier(pre, doc_id, minter);
    var done := a.Run(ops);
    r := if done.Ok? then Ok(Progress(a.working, a.applied, minter.used)) else Throw(done.error);
  }

  // ---------------------------------------------------------------- what every replay keeps

  lemma OpKeepsCanonical(p: Progress, op: Op, deps: Deps)
    requires AllCanonical(p.blocks) && ApplyOp(p, op, deps).Ok?
    ensures AllCanonical(ApplyOp(p, op, deps).value.blocks)
    ensures |ApplyOp(p, op, deps).value.applied| == |p.applied| + 1
  {
    match op
    case Insert(_, _, _, _) => InsertedIsCanonical(op, deps.mint(p.minted));
    case Update(_, _, _) =>
      var index := FindIndex(p.blocks, op.id);
      PatchKeepsCanonical(p.blocks[index], op.patch);
    case Remove(_, _) =>
  }

  lemma ParsedPropsParse(kind: string, props: Props)
    requires ParseProps(kind, props).Ok?
    ensures ParseProps(kind, ParseProps(kind, props).value) == ParseProps(kind, props)
  {
  }

  lemma NormalizedIsCanonical(input: ContentInput)
    requires Normalize(input).Ok?
    ensures CanonicalContent(Normalize(input).value)
  {
    if input.Runs? { NormalizeIsCanonical(input.runs); }
  }

  lemma InsertedIsCanonical(op: Op, id: string)
    requires op.Insert? && InsertBlock(op, id).Ok?
    ensures Canonical(InsertBlock(op, id).value)
  {
    ParsedPropsParse(op.kind, Or(op.props, map[]));
    NormalizedIsCanonical(op.content);
  }

  lemma PatchKeepsCanonical(b: Block, patch: Patch)
    requires Canonical(b) && Patched(b, patch).Ok?
    ensures Canonical(Patched(b, patch).value)
  {
    if patch.kind.Some? || patch.props.Some? {
      ParsedPropsParse(Or(patch.kind, b.kind), b.props + Or(patch.props, map[]));
    }
    if patch.content.Some? { NormalizedIsCanonical(patch.content.value); }
  }

  /** A replay of any op list keeps a canonical list canonical and projects one entry per op. */
  lemma {:induction false} OpsKeepCanonical(p: Progress, ops: seq<Op>, deps: Deps)
    requires AllCanonical(p.blocks) && ApplyOps(p, ops, deps).Ok?
    ensures AllCanonical(ApplyOps(p, ops, deps).value.blocks)
    ensures |ApplyOps(p, ops, deps).value.applied| == |p.applied| + |ops|
    decreases |ops|
  {
    if ops != [] {
      OpKeepsCanonical(p, ops[0], deps);
      OpsKeepCanonical(ApplyOp(p, ops[0], deps).value, ops[1..], deps);
    }
  }
}
