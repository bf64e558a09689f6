/**
 * What the dq grammar accepts and builds: every program written out from a
 * syntax tree parses back to the tree it describes, in source order, with
 * `|` binding tighter than `,` and a trailing comma in a block making no
 * difference; conversely, whatever parses is such a written-out program,
 * so every other token stream raises; and the error token is pinned down
 * for the rejected streams the lemmas below name.
 */
module ParserFacts {
  import opened Wrappers
  import opened Lexer
  import opened Ast
  import opened Parser
  import opened LexerFacts

  // ---------------------------------------------------------------------
  // Syntax trees and their token spelling
  // ---------------------------------------------------------------------

  /** A pipeline item as written: a device's two tokens, or a block. */
  datatype SynItem = SynDevice(symbol: string, pyargs: string) | SynBlock(branches: SynBranches)

  /** A pipeline as written: a first item, then `| item` any number of times. */
  datatype SynPipeline = SynPipeline(first: SynItem, rest: SynItems)

  datatype SynItems = INil | ICons(head: SynItem, tail: SynItems)

  /** The inside of a block: nothing, or branches separated by `,` with an optional trailing `,`. */
  datatype SynBranches = NoBranches | Branches(first: SynPipeline, rest: SynPipes, trailingComma: bool)

  datatype SynPipes = PNil | PCons(head: SynPipeline, tail: SynPipes)

  /** A token as the parser reads it: its kind and its text. */
  datatype Word = Word(kind: Kind, text: string)

  function RenderItem(it: SynItem): seq<Word> {
    match it
    case SynDevice(s, a) => [Word(SYMBOL, s), Word(PYARGS, a)]
    case SynBlock(bs) => [Word(LBRACE, "{")] + BlockBody(bs)
  }

  /** What follows the `{` of a block, through its `}`. */
  function BlockBody(bs: SynBranches): seq<Word> {
    match bs
    case NoBranches => [Word(RBRACE, "}")]
    case Branches(f, r, tc) => RenderPipeline(f) + BlockTail(r, tc)
  }

  /** The branches after the first one, then the optional trailing `,` and the `}`. */
  function BlockTail(ps: SynPipes, tc: bool): seq<Word> {
    match ps
    case PNil => if tc then [Word(COMMA, ","), Word(RBRACE, "}")] else [Word(RBRACE, "}")]
    case PCons(h, t) => [Word(COMMA, ",")] + (RenderPipeline(h) + BlockTail(t, tc))
  }

  function RenderPipeline(p: SynPipeline): seq<Word> {
    RenderItem(p.first) + RenderItems(p.rest)
  }

  function RenderItems(xs: SynItems): seq<Word> {
    match xs
    case INil => []
    case ICons(h, t) => [Word(PIPE, "|")] + (RenderItem(h) + RenderItems(t))
  }

  /** Every device of the tree has an argument list the parser accepts. */
  predicate ItemOk(it: SynItem, split: string -> CallShape) {
    match it
    case SynDevice(s, a) => DeviceOk(s, a, split)
    case SynBlock(bs) => BranchesOk(bs, split)
  }

  predicate PipelineOk(p: SynPipeline, split: string -> CallShape) {
    ItemOk(p.first, split) && ItemsOk(p.rest, split)
  }

  predicate ItemsOk(xs: SynItems, split: string -> CallShape) {
    match xs
    case INil => true
    case ICons(h, t) => ItemOk(h, split) && ItemsOk(t, split)
  }

  predicate BranchesOk(bs: SynBranches, split: string -> CallShape) {
    match bs
    case NoBranches => true
    case Branches(f, r, _) => PipelineOk(f, split) && PipesOk(r, split)
  }

  predicate PipesOk(ps: SynPipes, split: string -> CallShape) {
    match ps
    case PNil => true
    case PCons(h, t) => PipelineOk(h, split) && PipesOk(t, split)
  }

  /** The tree a syntax tree stands for. */
  function BuildItem(it: SynItem, split: string -> CallShape): Item
    requires ItemOk(it, split)
  {
    match it
    case SynDevice(s, a) => DeviceItem(CallDevice(s, split(s + a)))
    case SynBlock(bs) => BlockItem(BuildBranches(bs, split))
  }

  function BuildPipeline(p: SynPipeline, split: string -> CallShape): Pipeline
    requires PipelineOk(p, split)
  {
    Pipeline([BuildItem(p.first, split)] + BuildItems(p.rest, split))
  }

  function BuildItems(xs: SynItems, split: string -> CallShape): seq<Item>
    requires ItemsOk(xs, split)
  {
    match xs
    case INil => []
    case ICons(h, t) => [BuildItem(h, split)] + BuildItems(t, split)
  }

  function BuildBranches(bs: SynBranches, split: string -> CallShape): seq<Pipeline>
    requires BranchesOk(bs, split)
  {
    match bs
    case NoBranches => []
    case Branches(f, r, _) => [BuildPipeline(f, split)] + BuildPipes(r, split)
  }

  function BuildPipes(ps: SynPipes, split: string -> CallShape): seq<Pipeline>
    requires PipesOk(ps, split)
  {
    match ps
    case PNil => []
    case PCons(h, t) => [BuildPipeline(h, split)] + BuildPipes(t, split)
  }

  /** Sizes, for the induction over the mutually recursive syntax trees. */
  function SizeItem(it: SynItem): nat {
    match it
    case SynDevice(_, _) => 1
    case SynBlock(bs) => 1 + SizeBranches(bs)
  }

  function SizePipeline(p: SynPipeline): nat {
    1 + SizeItem(p.first) + SizeItems(p.rest)
  }

  function SizeItems(xs: SynItems): nat {
    match xs
    case INil => 0
    case ICons(h, t) => 1 + SizeItem(h) + SizeItems(t)
  }

  function SizeBranches(bs: SynBranches): nat {
    match bs
    case NoBranches => 0
    case Branches(f, r, _) => 1 + SizePipeline(f) + SizePipes(r)
  }

  function SizePipes(ps: SynPipes): nat {
    match ps
    case PNil => 0
    case PCons(h, t) => 1 + SizePipeline(h) + SizePipes(t)
  }

  // ---------------------------------------------------------------------
  // Token streams that spell a syntax tree
  // ---------------------------------------------------------------------

  /**
   * A token reads as a word: the same kind and, for a symbol or an argument
   * list, the same text. The parser looks at no other token's text.
   */
  predicate Matches(t: Token, w: Word) {
    t.kind == w.kind && (w.kind == SYMBOL || w.kind == PYARGS ==> t.text == w.text)
  }

  /** From token `i` on, the input spells the words `w`. */
  predicate Spells(inp: Input, i: nat, w: seq<Word>) {
    && i + |w| <= |inp.tokens|
    && forall k :: 0 <= k < |w| ==> Matches(inp.tokens[i + k], w[k])
  }

  lemma SpellsSplit(inp: Input, i: nat, a: seq<Word>, b: seq<Word>)
    requires Spells(inp, i, a + b)
    ensures Spells(inp, i, a) && Spells(inp, i + |a|, b)
  {
    forall k | 0 <= k < |b|
      ensures Matches(inp.tokens[i + |a| + k], b[k])
    {
      assert (a + b)[|a| + k] == b[k];
    }
    forall k | 0 <= k < |a|
      ensures Matches(inp.tokens[i + k], a[k])
    {
      assert (a + b)[k] == a[k];
    }
  }

  /** Two spelled stretches, one after the other, spell the words of both. */
  lemma SpellsJoin(inp: Input, i: nat, a: seq<Word>, b: seq<Word>)
    requires Spells(inp, i, a) && Spells(inp, i + |a|, b)
    ensures Spells(inp, i, a + b)
  {
    forall k | 0 <= k < |a + b|
      ensures Matches(inp.tokens[i + k], (a + b)[k])
    {
      if k >= |a| {
        assert Matches(inp.tokens[i + |a| + (k - |a|)], b[k - |a|]);
      }
    }
  }

  /** The token at `i` is the first word, and the rest spell the other words. */
  lemma SpellsCons(inp: Input, i: nat, x: Word, rest: seq<Word>)
    requires Spells(inp, i, [x] + rest)
    ensures IsKind(inp, i, x.kind) && Matches(inp.tokens[i], x) && Spells(inp, i + 1, rest)
  {
    assert ([x] + rest)[0] == x;
    assert Matches(inp.tokens[i + 0], x);
    forall k | 0 <= k < |rest|
      ensures Matches(inp.tokens[i + 1 + k], rest[k])
    {
      assert ([x] + rest)[k + 1] == rest[k];
      assert inp.tokens[i + (k + 1)] == inp.tokens[i + 1 + k];
    }
  }

  /** A token that reads as `x`, then the words `rest`, spell `[x] + rest`. */
  lemma SpellsConsBack(inp: Input, i: nat, x: Word, rest: seq<Word>)
    requires i < |inp.tokens| && Matches(inp.tokens[i], x) && Spells(inp, i + 1, rest)
    ensures Spells(inp, i, [x] + rest)
  {
    assert Spells(inp, i, [x]) by {
      assert Matches(inp.tokens[i + 0], [x][0]);
    }
    SpellsJoin(inp, i, [x], rest);
  }

  /** The token at `i` is the first word. */
  lemma SpellsHead(inp: Input, i: nat, w: seq<Word>)
    requires Spells(inp, i, w) && |w| > 0
    ensures IsKind(inp, i, w[0].kind)
  {
    assert Matches(inp.tokens[i + 0], w[0]);
  }

  /** A pipeline starts with a symbol or `{`, never with `}`, `,` or `|`. */
  lemma PipelineStart(p: SynPipeline)
    ensures |RenderPipeline(p)| > 0
    ensures RenderPipeline(p)[0].kind == SYMBOL || RenderPipeline(p)[0].kind == LBRACE
  {
    match p.first
    case SynDevice(_, _) =>
    case SynBlock(_) =>
  }

  /** What ends a branch of a block is `,` or `}`. */
  lemma TailStart(ps: SynPipes, tc: bool)
    ensures |BlockTail(ps, tc)| > 0
    ensures BlockTail(ps, tc)[0].kind == COMMA || BlockTail(ps, tc)[0].kind == RBRACE
  {
  }

  /** The last item of a pipeline whose items are `first`, then `rest`. */
  function LastItem(first: SynItem, rest: SynItems): SynItem
    decreases rest
  {
    match rest
    case INil => first
    case ICons(h, t) => LastItem(h, t)
  }

  /** A device item ending before token `end` is built only when that token may follow a device. */
  predicate EndOk(inp: Input, end: nat, it: SynItem) {
    it.SynDevice? ==> DeviceLookahead(inp, end)
  }

  // ---------------------------------------------------------------------
  // Round trip: a spelled-out tree parses back to the tree
  // ---------------------------------------------------------------------

  lemma {:induction false} ItemRoundTrip(inp: Input, split: string -> CallShape, i: nat, it: SynItem)
    requires Spells(inp, i, RenderItem(it)) && ItemOk(it, split) && EndOk(inp, i + |RenderItem(it)|, it)
    ensures ParseItem(inp, split, i) == Ok(Parsed(BuildItem(it, split), i + |RenderItem(it)|))
    decreases SizeItem(it), 1
  {
    match it
    case SynDevice(s, a) =>
      DeviceRoundTrip(inp, split, i, s, a);
    case SynBlock(bs) =>
      SpellsCons(inp, i, Word(LBRACE, "{"), BlockBody(bs));
      match bs
      case NoBranches =>
        SpellsHead(inp, i + 1, BlockBody(bs));
      case Branches(f, r, tc) =>
        assert SizeItem(it) == 2 + SizePipeline(f) + SizePipes(r);
        BlockItemRoundTrip(inp, split, i, f, r, tc);
  }

  lemma DeviceRoundTrip(inp: Input, split: string -> CallShape, i: nat, s: string, a: string)
    requires Spells(inp, i, [Word(SYMBOL, s), Word(PYARGS, a)]) && DeviceOk(s, a, split)
    requires DeviceLookahead(inp, i + 2)
    ensures ParseItem(inp, split, i) == Ok(Parsed(DeviceItem(CallDevice(s, split(s + a))), i + 2))
  {
    assert [Word(SYMBOL, s), Word(PYARGS, a)] == [Word(SYMBOL, s)] + [Word(PYARGS, a)];
    SpellsCons(inp, i, Word(SYMBOL, s), [Word(PYARGS, a)]);
    SpellsCons(inp, i + 1, Word(PYARGS, a), []);
  }

  /** A block with branches, from its `{`. */
  lemma {:induction false} BlockItemRoundTrip(inp: Input, split: string -> CallShape, i: nat,
                                              f: SynPipeline, r: SynPipes, tc: bool)
    requires IsKind(inp, i, LBRACE) && Spells(inp, i + 1, RenderPipeline(f) + BlockTail(r, tc))
    requires PipelineOk(f, split) && PipesOk(r, split)
    ensures ParseItem(inp, split, i)
         == Ok(Parsed(BlockItem([BuildPipeline(f, split)] + BuildPipes(r, split)), i + 1 + |RenderPipeline(f) + BlockTail(r, tc)|))
    decreases SizePipeline(f) + SizePipes(r) + 1, 1
  {
    PipelineStart(f);
    SpellsHead(inp, i + 1, RenderPipeline(f) + BlockTail(r, tc));
    BlockRoundTrip(inp, split, [], i + 1, f, r, tc);
    assert [] + [BuildPipeline(f, split)] + BuildPipes(r, split) == [BuildPipeline(f, split)] + BuildPipes(r, split);
  }

  /** `block_content` and what closes it, after the branches `acc`. */
  lemma {:induction false} BlockRoundTrip(inp: Input, split: string -> CallShape, acc: seq<Pipeline>, j: nat,
                                          f: SynPipeline, r: SynPipes, tc: bool)
    requires Spells(inp, j, RenderPipeline(f) + BlockTail(r, tc))
    requires PipelineOk(f, split) && PipesOk(r, split)
    ensures BlockContent(inp, split, acc, j)
         == Ok(Parsed(acc + [BuildPipeline(f, split)] + BuildPipes(r, split), j + |RenderPipeline(f) + BlockTail(r, tc)|))
    decreases SizePipeline(f) + SizePipes(r) + 1, 0
  {
    SpellsSplit(inp, j, RenderPipeline(f), BlockTail(r, tc));
    var k := j + |RenderPipeline(f)|;
    TailStart(r, tc);
    SpellsHead(inp, k, BlockTail(r, tc));
    PipelineRoundTrip(inp, split, j, f);
    BlockNextRoundTrip(inp, split, acc + [BuildPipeline(f, split)], k, r, tc);
  }

  /** What follows a branch: the further branches, then the optional `,` and the `}`. */
  lemma {:induction false} BlockNextRoundTrip(inp: Input, split: string -> CallShape, branches: seq<Pipeline>, k: nat,
                                              r: SynPipes, tc: bool)
    requires 0 < k && Spells(inp, k, BlockTail(r, tc)) && PipesOk(r, split)
    ensures BlockNext(inp, split, branches, k)
         == Ok(Parsed(branches + BuildPipes(r, split), k + |BlockTail(r, tc)|))
    decreases SizePipes(r), 2
  {
    match r
    case PNil =>
      assert branches + BuildPipes(r, split) == branches;
      if tc {
        assert BlockTail(r, tc) == [Word(COMMA, ",")] + [Word(RBRACE, "}")];
        SpellsCons(inp, k, Word(COMMA, ","), [Word(RBRACE, "}")]);
        SpellsHead(inp, k + 1, [Word(RBRACE, "}")]);
      } else {
        SpellsHead(inp, k, BlockTail(r, tc));
      }
    case PCons(h, t) =>
      SpellsCons(inp, k, Word(COMMA, ","), RenderPipeline(h) + BlockTail(t, tc));
      PipelineStart(h);
      SpellsHead(inp, k + 1, RenderPipeline(h) + BlockTail(t, tc));
      BlockRoundTrip(inp, split, branches, k + 1, h, t, tc);
      assert branches + [BuildPipeline(h, split)] + BuildPipes(t, split) == branches + BuildPipes(r, split);
  }

  /**
   * Further items start with `|`, which may follow a device; with none, the
   * last item is the one before.
   */
  lemma ItemsStart(inp: Input, k: nat, xs: SynItems)
    requires Spells(inp, k, RenderItems(xs))
    ensures xs.ICons? ==> IsKind(inp, k, PIPE) && DeviceLookahead(inp, k)
    ensures xs.INil? ==> |RenderItems(xs)| == 0
  {
    if xs.ICons? {
      SpellsCons(inp, k, Word(PIPE, "|"), RenderItem(xs.head) + RenderItems(xs.tail));
    }
  }

  lemma {:induction false} PipelineRoundTrip(inp: Input, split: string -> CallShape, i: nat, p: SynPipeline)
    requires Spells(inp, i, RenderPipeline(p)) && PipelineOk(p, split)
    requires !IsKind(inp, i + |RenderPipeline(p)|, PIPE) && EndOk(inp, i + |RenderPipeline(p)|, LastItem(p.first, p.rest))
    ensures ParsePipeline(inp, split, i) == Ok(Parsed(BuildPipeline(p, split), i + |RenderPipeline(p)|))
    decreases SizePipeline(p), 2
  {
    PipelineRoundTripAt(inp, split, i, p.first, p.rest, i + |RenderItem(p.first)|, i + |RenderPipeline(p)|);
  }

  /** A pipeline's first item, ending at token `k`, and its further items, ending at token `end`. */
  lemma {:induction false} PipelineRoundTripAt(inp: Input, split: string -> CallShape, i: nat,
                                               first: SynItem, rest: SynItems, k: nat, end: nat)
    requires Spells(inp, i, RenderItem(first) + RenderItems(rest)) && ItemOk(first, split) && ItemsOk(rest, split)
    requires k == i + |RenderItem(first)| && end == k + |RenderItems(rest)|
    requires !IsKind(inp, end, PIPE) && EndOk(inp, end, LastItem(first, rest))
    ensures ParsePipeline(inp, split, i) == Ok(Parsed(Pipeline([BuildItem(first, split)] + BuildItems(rest, split)), end))
    decreases 1 + SizeItem(first) + SizeItems(rest), 1
  {
    FirstThenRest(inp, i, first, rest, k, end);
    ItemRoundTrip(inp, split, i, first);
    ItemsRoundTrip(inp, split, Pipeline([BuildItem(first, split)]), k, rest);
    PipelineStep(inp, split, i, BuildItem(first, split), k, BuildItems(rest, split), end);
  }

  /**
   * A pipeline's tokens are its first item's, then the further items'; the
   * first item ends before `|` or where the pipeline ends.
   */
  lemma FirstThenRest(inp: Input, i: nat, first: SynItem, rest: SynItems, k: nat, end: nat)
    requires Spells(inp, i, RenderItem(first) + RenderItems(rest))
    requires k == i + |RenderItem(first)| && end == k + |RenderItems(rest)|
    requires EndOk(inp, end, LastItem(first, rest))
    ensures Spells(inp, i, RenderItem(first)) && Spells(inp, k, RenderItems(rest))
    ensures EndOk(inp, k, first)
    ensures rest.ICons? ==> EndOk(inp, end, LastItem(rest.head, rest.tail))
  {
    SpellsSplit(inp, i, RenderItem(first), RenderItems(rest));
    ItemsStart(inp, k, rest);
  }

  /** An item that parses, then the rest of the pipeline after it. */
  lemma PipelineStep(inp: Input, split: string -> CallShape, i: nat, item: Item, k: nat, tail: seq<Item>, end: nat)
    requires i <= |inp.tokens| && ParseItem(inp, split, i) == Ok(Parsed(item, k))
    requires RestGives(inp, split, Pipeline([item]), k, Pipeline([item]).items + tail, end)
    ensures ParsePipeline(inp, split, i) == Ok(Parsed(Pipeline([item] + tail), end))
  {
  }

  /** From token `j`, the rest of a pipeline holding `acc` parses to the items `items`, up to `end`. */
  predicate RestGives(inp: Input, split: string -> CallShape, acc: Pipeline, j: nat, items: seq<Item>, end: nat) {
    j <= |inp.tokens| && PipelineRest(inp, split, acc, j) == Ok(Parsed(Pipeline(items), end))
  }

  /** Each further `| item` of a pipeline, after the items of `acc`. */
  lemma {:induction false} ItemsRoundTrip(inp: Input, split: string -> CallShape, acc: Pipeline, j: nat, xs: SynItems)
    requires Spells(inp, j, RenderItems(xs)) && ItemsOk(xs, split)
    requires !IsKind(inp, j + |RenderItems(xs)|, PIPE)
    requires xs.ICons? ==> EndOk(inp, j + |RenderItems(xs)|, LastItem(xs.head, xs.tail))
    ensures RestGives(inp, split, acc, j, acc.items + BuildItems(xs, split), j + |RenderItems(xs)|)
    decreases SizeItems(xs), 1
  {
    match xs
    case INil =>
      assert acc.items + BuildItems(xs, split) == acc.items;
    case ICons(h, t) =>
      SpellsCons(inp, j, Word(PIPE, "|"), RenderItem(h) + RenderItems(t));
      SpellsSplit(inp, j + 1, RenderItem(h), RenderItems(t));
      ItemsConsRoundTrip(inp, split, acc, j, h, t, j + 1 + |RenderItem(h)|, j + |RenderItems(xs)|);
  }

  lemma {:induction false} ItemsConsRoundTrip(inp: Input, split: string -> CallShape, acc: Pipeline, j: nat,
                                              h: SynItem, t: SynItems, k: nat, end: nat)
    requires IsKind(inp, j, PIPE) && Spells(inp, j + 1, RenderItem(h)) && Spells(inp, k, RenderItems(t))
    requires k == j + 1 + |RenderItem(h)| && end == k + |RenderItems(t)|
    requires ItemOk(h, split) && ItemsOk(t, split) && !IsKind(inp, end, PIPE) && EndOk(inp, end, LastItem(h, t))
    ensures RestGives(inp, split, acc, j, acc.items + ([BuildItem(h, split)] + BuildItems(t, split)), end)
    decreases 1 + SizeItem(h) + SizeItems(t), 0
  {
    ItemsStart(inp, k, t);
    ItemRoundTrip(inp, split, j + 1, h);
    var longer := Pipeline(acc.items + [BuildItem(h, split)]);
    ItemsRoundTrip(inp, split, longer, k, t);
    RestStep(inp, split, acc, j, BuildItem(h, split), k, BuildItems(t, split), end);
  }

  /** A `|` and an item that parses: the item is appended and the pipeline goes on after it. */
  lemma RestStep(inp: Input, split: string -> CallShape, acc: Pipeline, j: nat, item: Item, k: nat,
                 tail: seq<Item>, end: nat)
    requires IsKind(inp, j, PIPE) && k <= |inp.tokens| && ParseItem(inp, split, j + 1) == Ok(Parsed(item, k))
    requires RestGives(inp, split, Pipeline(acc.items + [item]), k, Pipeline(acc.items + [item]).items + tail, end)
    ensures RestGives(inp, split, acc, j, acc.items + ([item] + tail), end)
  {
    assert acc.items + [item] + tail == acc.items + ([item] + tail);
  }

  /**
   * A program spelled out from a syntax tree, with nothing after it, parses
   * to the tree it stands for: the items of every pipeline and the branches
   * of every block in source order.
   */
  lemma ParseRoundTrip(inp: Input, split: string -> CallShape, p: SynPipeline)
    requires PipelineOk(p, split) && inp.lexError.None?
    requires |inp.tokens| == |RenderPipeline(p)| && Spells(inp, 0, RenderPipeline(p))
    ensures Parse(inp, split) == Ok(BuildPipeline(p, split))
  {
    PipelineRoundTrip(inp, split, 0, p);
  }

  // ---------------------------------------------------------------------
  // Soundness: whatever parses is a spelled-out tree
  // ---------------------------------------------------------------------

  /** An item that parses is a spelled-out item, and the parser built the tree it stands for. */
  lemma {:induction false} ItemSound(inp: Input, split: string -> CallShape, i: nat) returns (it: SynItem)
    requires i <= |inp.tokens| && ParseItem(inp, split, i).Ok?
    ensures ItemOk(it, split) && Spells(inp, i, RenderItem(it))
    ensures ParseItem(inp, split, i).value == Parsed(BuildItem(it, split), i + |RenderItem(it)|)
    decreases |inp.tokens| - i, 1
  {
    if IsKind(inp, i, SYMBOL) {
      var s, a := inp.tokens[i].text, inp.tokens[i + 1].text;
      DeviceParsed(inp, split, i, s, a);
      it := SynDevice(s, a);
      DeviceSpelled(inp, i, s, a);
    } else if IsKind(inp, i + 1, RBRACE) {
      EmptyBlockParsed(inp, split, i);
      it := SynBlock(NoBranches);
      SpellsConsBack(inp, i + 1, Word(RBRACE, "}"), []);
      SpellsConsBack(inp, i, Word(LBRACE, "{"), [Word(RBRACE, "}")]);
    } else {
      BlockParsed(inp, split, i);
      var f, r, tc := BlockContentSound(inp, split, [], i + 1);
      it := SynBlock(Branches(f, r, tc));
      SpellsConsBack(inp, i, Word(LBRACE, "{"), RenderPipeline(f) + BlockTail(r, tc));
      assert [] + [BuildPipeline(f, split)] + BuildPipes(r, split) == BuildBranches(Branches(f, r, tc), split);
    }
  }

  /** An item that parses and starts with a symbol is the device of the symbol and the argument text after it. */
  lemma DeviceParsed(inp: Input, split: string -> CallShape, i: nat, s: string, a: string)
    requires i <= |inp.tokens| && ParseItem(inp, split, i).Ok? && IsKind(inp, i, SYMBOL)
    requires s == inp.tokens[i].text && (IsKind(inp, i + 1, PYARGS) ==> a == inp.tokens[i + 1].text)
    ensures IsKind(inp, i + 1, PYARGS) && DeviceOk(s, a, split)
    ensures ParseItem(inp, split, i).value == Parsed(DeviceItem(CallDevice(s, split(s + a))), i + 2)
  {
    DeviceOutcome(s, a, split);
  }

  /** A symbol and an argument list spell a device. */
  lemma DeviceSpelled(inp: Input, i: nat, s: string, a: string)
    requires IsKind(inp, i, SYMBOL) && IsKind(inp, i + 1, PYARGS)
    requires s == inp.tokens[i].text && a == inp.tokens[i + 1].text
    ensures Spells(inp, i, RenderItem(SynDevice(s, a)))
  {
    SpellsConsBack(inp, i + 1, Word(PYARGS, a), []);
    SpellsConsBack(inp, i, Word(SYMBOL, s), [Word(PYARGS, a)]);
    assert [Word(SYMBOL, s)] + [Word(PYARGS, a)] == RenderItem(SynDevice(s, a));
  }

  /** An item that parses, starting with anything but a symbol and followed by `}`, is `{}`. */
  lemma EmptyBlockParsed(inp: Input, split: string -> CallShape, i: nat)
    requires i <= |inp.tokens| && ParseItem(inp, split, i).Ok? && !IsKind(inp, i, SYMBOL) && IsKind(inp, i + 1, RBRACE)
    ensures IsKind(inp, i, LBRACE) && ParseItem(inp, split, i).value == Parsed(BlockItem([]), i + 2)
  {
  }

  /** Any other item that parses is `{` and a `block_content` that parses. */
  lemma BlockParsed(inp: Input, split: string -> CallShape, i: nat)
    requires i <= |inp.tokens| && ParseItem(inp, split, i).Ok? && !IsKind(inp, i, SYMBOL) && !IsKind(inp, i + 1, RBRACE)
    ensures IsKind(inp, i, LBRACE) && BlockContent(inp, split, [], i + 1).Ok?
    ensures var c := BlockContent(inp, split, [], i + 1).value;
            ParseItem(inp, split, i).value == Parsed(BlockItem(c.value), c.next)
  {
  }

  /** `block_content` and its closing tokens, when they parse, spell branches appended to `acc`. */
  lemma {:induction false} BlockContentSound(inp: Input, split: string -> CallShape, acc: seq<Pipeline>, j: nat)
    returns (f: SynPipeline, r: SynPipes, tc: bool)
    requires j <= |inp.tokens| && BlockContent(inp, split, acc, j).Ok?
    ensures PipelineOk(f, split) && PipesOk(r, split) && Spells(inp, j, RenderPipeline(f) + BlockTail(r, tc))
    ensures BlockContent(inp, split, acc, j).value
         == Parsed(acc + [BuildPipeline(f, split)] + BuildPipes(r, split), j + |RenderPipeline(f) + BlockTail(r, tc)|)
    decreases |inp.tokens| - j, 3
  {
    f := PipelineSound(inp, split, j);
    var k := j + |RenderPipeline(f)|;
    r, tc := BlockNextSound(inp, split, acc + [BuildPipeline(f, split)], k);
    SpellsJoin(inp, j, RenderPipeline(f), BlockTail(r, tc));
  }

  /** What follows a branch, when it parses, spells the further branches and the closing tokens. */
  lemma {:induction false} BlockNextSound(inp: Input, split: string -> CallShape, branches: seq<Pipeline>, k: nat)
    returns (r: SynPipes, tc: bool)
    requires 0 < k <= |inp.tokens| && BlockNext(inp, split, branches, k).Ok?
    ensures PipesOk(r, split) && Spells(inp, k, BlockTail(r, tc))
    ensures BlockNext(inp, split, branches, k).value == Parsed(branches + BuildPipes(r, split), k + |BlockTail(r, tc)|)
    decreases |inp.tokens| - k, 4
  {
    if IsKind(inp, k, COMMA) && IsKind(inp, k + 1, RBRACE) {
      r, tc := PNil, true;
      SpellsConsBack(inp, k + 1, Word(RBRACE, "}"), []);
      SpellsConsBack(inp, k, Word(COMMA, ","), [Word(RBRACE, "}")]);
      assert branches + BuildPipes(r, split) == branches;
    } else if IsKind(inp, k, COMMA) {
      MoreBranchesParsed(inp, split, branches, k);
      var f, r', tc' := BlockContentSound(inp, split, branches, k + 1);
      r, tc := PCons(f, r'), tc';
      SpellsConsBack(inp, k, Word(COMMA, ","), RenderPipeline(f) + BlockTail(r', tc'));
      assert branches + [BuildPipeline(f, split)] + BuildPipes(r', split) == branches + BuildPipes(r, split);
    } else {
      ClosingBraceParsed(inp, split, branches, k);
      r, tc := PNil, false;
      SpellsConsBack(inp, k, Word(RBRACE, "}"), []);
      assert branches + BuildPipes(r, split) == branches;
    }
  }

  /** After a branch, `,` not followed by `}` goes on with another `block_content`. */
  lemma MoreBranchesParsed(inp: Input, split: string -> CallShape, branches: seq<Pipeline>, k: nat)
    requires 0 < k <= |inp.tokens| && BlockNext(inp, split, branches, k).Ok?
    requires IsKind(inp, k, COMMA) && !IsKind(inp, k + 1, RBRACE)
    ensures BlockNext(inp, split, branches, k) == BlockContent(inp, split, branches, k + 1)
  {
  }

  /** After a branch, anything but `,` that parses is the closing `}`. */
  lemma ClosingBraceParsed(inp: Input, split: string -> CallShape, branches: seq<Pipeline>, k: nat)
    requires 0 < k <= |inp.tokens| && BlockNext(inp, split, branches, k).Ok? && !IsKind(inp, k, COMMA)
    ensures IsKind(inp, k, RBRACE) && BlockNext(inp, split, branches, k).value == Parsed(branches, k + 1)
  {
  }

  /** A pipeline that parses is a spelled-out pipeline, and the parser built the tree it stands for. */
  lemma {:induction false} PipelineSound(inp: Input, split: string -> CallShape, i: nat) returns (p: SynPipeline)
    requires i <= |inp.tokens| && ParsePipeline(inp, split, i).Ok?
    ensures PipelineOk(p, split) && Spells(inp, i, RenderPipeline(p))
    ensures ParsePipeline(inp, split, i).value == Parsed(BuildPipeline(p, split), i + |RenderPipeline(p)|)
    decreases |inp.tokens| - i, 2
  {
    var first := ItemSound(inp, split, i);
    var j := i + |RenderItem(first)|;
    var rest := RestSound(inp, split, Pipeline([BuildItem(first, split)]), j);
    p := SynPipeline(first, rest);
    SpellsJoin(inp, i, RenderItem(first), RenderItems(rest));
  }

  /** The further `| item`s that parse spell items appended to those of `acc`. */
  lemma {:induction false} RestSound(inp: Input, split: string -> CallShape, acc: Pipeline, j: nat) returns (xs: SynItems)
    requires j <= |inp.tokens| && PipelineRest(inp, split, acc, j).Ok?
    ensures ItemsOk(xs, split) && Spells(inp, j, RenderItems(xs))
    ensures PipelineRest(inp, split, acc, j).value == Parsed(Pipeline(acc.items + BuildItems(xs, split)), j + |RenderItems(xs)|)
    decreases |inp.tokens| - j, 0
  {
    if IsKind(inp, j, PIPE) {
      var h := ItemSound(inp, split, j + 1);
      var k := j + 1 + |RenderItem(h)|;
      var longer := Pipeline(acc.items + [BuildItem(h, split)]);
      PipeParsed(inp, split, acc, j, BuildItem(h, split), k);
      var t := RestSound(inp, split, longer, k);
      xs := ICons(h, t);
      PipeSpelled(inp, j, h, t);
      assert acc.items + [BuildItem(h, split)] + BuildItems(t, split) == acc.items + BuildItems(xs, split);
    } else {
      xs := INil;
      assert acc.items + BuildItems(xs, split) == acc.items;
    }
  }

  /** `|` and an item that parses: the rest of the pipeline goes on after the item, with the item appended. */
  lemma PipeParsed(inp: Input, split: string -> CallShape, acc: Pipeline, j: nat, item: Item, k: nat)
    requires j <= |inp.tokens| && PipelineRest(inp, split, acc, j).Ok? && IsKind(inp, j, PIPE)
    requires ParseItem(inp, split, j + 1) == Ok(Parsed(item, k))
    ensures k <= |inp.tokens| && PipelineRest(inp, split, acc, j) == PipelineRest(inp, split, Pipeline(acc.items + [item]), k)
  {
  }

  /** `|`, an item and further items spell the further items with that item first. */
  lemma PipeSpelled(inp: Input, j: nat, h: SynItem, t: SynItems)
    requires IsKind(inp, j, PIPE) && Spells(inp, j + 1, RenderItem(h)) && Spells(inp, j + 1 + |RenderItem(h)|, RenderItems(t))
    ensures Spells(inp, j, RenderItems(ICons(h, t)))
  {
    SpellsJoin(inp, j + 1, RenderItem(h), RenderItems(t));
    SpellsConsBack(inp, j, Word(PIPE, "|"), RenderItem(h) + RenderItems(t));
  }

  /** The whole token stream spells the program `p`, which stands for the tree `x`. */
  predicate SpelledProgram(inp: Input, split: string -> CallShape, p: SynPipeline, x: Pipeline) {
    && PipelineOk(p, split)
    && |inp.tokens| == |RenderPipeline(p)| && Spells(inp, 0, RenderPipeline(p))
    && x == BuildPipeline(p, split)
  }

  /**
   * Only programs of the grammar parse: when parsing succeeds, the lexer
   * reached the end of the text and the tokens spell out a syntax tree whose
   * tree is the result. Any other token stream raises.
   */
  lemma ParseSound(inp: Input, split: string -> CallShape)
    ensures Parse(inp, split).Ok? ==>
              && inp.lexError.None?
              && exists p :: SpelledProgram(inp, split, p, Parse(inp, split).value)
  {
    if Parse(inp, split).Ok? {
      var p := PipelineSound(inp, split, 0);
      assert SpelledProgram(inp, split, p, Parse(inp, split).value);
    }
  }

  /**
   * A token stream parses to `x` exactly when the lexer reached the end of
   * the text and the tokens spell out a syntax tree that stands for `x`.
   */
  lemma ParseExactly(inp: Input, split: string -> CallShape, x: Pipeline)
    ensures Parse(inp, split) == Ok(x) <==> inp.lexError.None? && exists p :: SpelledProgram(inp, split, p, x)
  {
    ParseSound(inp, split);
    if inp.lexError.None? && exists p :: SpelledProgram(inp, split, p, x) {
      var p :| SpelledProgram(inp, split, p, x);
      ParseRoundTrip(inp, split, p);
    }
  }

  /** `{p1, ..., pn}` and `{p1, ..., pn,}` parse to the same block, whose branches are p1..pn. */
  lemma TrailingCommaIgnored(with: Input, without: Input, split: string -> CallShape, i: nat,
                             f: SynPipeline, r: SynPipes)
    requires PipelineOk(f, split) && PipesOk(r, split)
    requires IsKind(with, i, LBRACE) && Spells(with, i + 1, RenderPipeline(f) + BlockTail(r, true))
    requires IsKind(without, i, LBRACE) && Spells(without, i + 1, RenderPipeline(f) + BlockTail(r, false))
    ensures ParseItem(with, split, i).Ok? && ParseItem(without, split, i).Ok?
    ensures ParseItem(with, split, i).value.value == ParseItem(without, split, i).value.value
         == BlockItem([BuildPipeline(f, split)] + BuildPipes(r, split))
  {
    BlockItemRoundTrip(with, split, i, f, r, true);
    BlockItemRoundTrip(without, split, i, f, r, false);
  }

  /** `{}` is a block with no branches. */
  lemma EmptyBlock(inp: Input, split: string -> CallShape, i: nat)
    requires IsKind(inp, i, LBRACE) && IsKind(inp, i + 1, RBRACE)
    ensures ParseItem(inp, split, i) == Ok(Parsed(BlockItem([]), i + 2))
  {
  }

  // ---------------------------------------------------------------------
  // Rejected token streams
  // ---------------------------------------------------------------------

  /**
   * After a complete pipeline, any token but `|` ends the program; when it
   * is not the end of the input it is the error token. This rejects a
   * top-level `,`, a `}` and two devices without `|` between them.
   */
  lemma JunkAfterPipeline(inp: Input, split: string -> CallShape, p: SynPipeline)
    requires PipelineOk(p, split) && Spells(inp, 0, RenderPipeline(p))
    requires |RenderPipeline(p)| < |inp.tokens| && inp.tokens[|RenderPipeline(p)|].kind != PIPE
    ensures Parse(inp, split) == Err(ParserError(Some(inp.tokens[|RenderPipeline(p)|])))
  {
    PipelineOutcome(inp, split, p);
  }

  /** A pipeline that stops where the lexer failed raises the lexer's error. */
  lemma LexErrorAfterPipeline(inp: Input, split: string -> CallShape, p: SynPipeline)
    requires PipelineOk(p, split) && Spells(inp, 0, RenderPipeline(p))
    requires |RenderPipeline(p)| == |inp.tokens| && inp.lexError.Some?
    ensures Parse(inp, split) == Err(LexFailure(inp.lexError.value))
  {
    PipelineOutcome(inp, split, p);
  }

  /**
   * A spelled-out pipeline followed by a token other than `|` parses to its
   * tree, unless its last item is a device and that token cannot follow a
   * device: then the parser stops at that token, before building the device.
   */
  lemma PipelineOutcome(inp: Input, split: string -> CallShape, p: SynPipeline)
    requires PipelineOk(p, split) && Spells(inp, 0, RenderPipeline(p))
    requires !IsKind(inp, |RenderPipeline(p)|, PIPE)
    ensures var end := |RenderPipeline(p)|;
      ParsePipeline(inp, split, 0)
      == if EndOk(inp, end, LastItem(p.first, p.rest)) then Ok(Parsed(BuildPipeline(p, split), end))
         else Err(Unexpected(inp, end))
  {
    var end := |RenderPipeline(p)|;
    if EndOk(inp, end, LastItem(p.first, p.rest)) {
      PipelineRoundTrip(inp, split, 0, p);
    } else {
      SpellsSplit(inp, 0, RenderItem(p.first), RenderItems(p.rest));
      var k := |RenderItem(p.first)|;
      ItemsStart(inp, k, p.rest);
      match p.rest
      case INil =>
        DeviceStops(inp, split, 0, p.first.symbol, p.first.pyargs);
      case ICons(h, t) =>
        ItemRoundTrip(inp, split, 0, p.first);
        ItemsStop(inp, split, Pipeline([BuildItem(p.first, split)]), k, p.rest, end);
    }
  }

  /** A device followed by a token that cannot follow a device: the error is at that token. */
  lemma DeviceStops(inp: Input, split: string -> CallShape, i: nat, s: string, a: string)
    requires Spells(inp, i, [Word(SYMBOL, s), Word(PYARGS, a)]) && !DeviceLookahead(inp, i + 2)
    ensures ParseItem(inp, split, i) == Err(Unexpected(inp, i + 2))
  {
    assert [Word(SYMBOL, s), Word(PYARGS, a)] == [Word(SYMBOL, s)] + [Word(PYARGS, a)];
    SpellsCons(inp, i, Word(SYMBOL, s), [Word(PYARGS, a)]);
    SpellsCons(inp, i + 1, Word(PYARGS, a), []);
  }

  /**
   * Further `| item`s whose last item is a device that the token at `end`
   * cannot follow: the rest of the pipeline fails at `end`.
   */
  lemma {:induction false} ItemsStop(inp: Input, split: string -> CallShape, acc: Pipeline, j: nat, xs: SynItems, end: nat)
    requires xs.ICons? && Spells(inp, j, RenderItems(xs)) && ItemsOk(xs, split)
    requires end == j + |RenderItems(xs)| && !EndOk(inp, end, LastItem(xs.head, xs.tail))
    ensures j <= |inp.tokens| && PipelineRest(inp, split, acc, j) == Err(Unexpected(inp, end))
    decreases xs
  {
    var h, t := xs.head, xs.tail;
    SpellsCons(inp, j, Word(PIPE, "|"), RenderItem(h) + RenderItems(t));
    SpellsSplit(inp, j + 1, RenderItem(h), RenderItems(t));
    var k := j + 1 + |RenderItem(h)|;
    ItemsStart(inp, k, t);
    match t
    case INil =>
      DeviceStops(inp, split, j + 1, h.symbol, h.pyargs);
    case ICons(_, _) =>
      ItemRoundTrip(inp, split, j + 1, h);
      ItemsStop(inp, split, Pipeline(acc.items + [BuildItem(h, split)]), k, t, end);
  }

  /** `{ , }`: a block cannot start with a comma. */
  lemma CommaOpensBlock(split: string -> CallShape)
    ensures var comma := Token(COMMA, ",", 1, 2);
      Parse(Input([Token(LBRACE, "{", 1, 0), comma, Token(RBRACE, "}", 1, 4)], None), split)
      == Err(ParserError(Some(comma)))
  {
    var inp := Input([Token(LBRACE, "{", 1, 0), Token(COMMA, ",", 1, 2), Token(RBRACE, "}", 1, 4)], None);
    assert !IsKind(inp, 1, RBRACE) && !IsKind(inp, 1, SYMBOL) && !IsKind(inp, 1, LBRACE);
  }

  /** `A()` followed by `B()` without `|`: the error is at `B`. */
  lemma DevicesWithoutPipe(split: string -> CallShape)
    requires DeviceOk("A", "()", split)
    ensures var b := Token(SYMBOL, "B", 1, 4);
      Parse(Input([Token(SYMBOL, "A", 1, 0), Token(PYARGS, "()", 1, 2), b, Token(PYARGS, "()", 1, 6)], None), split)
      == Err(ParserError(Some(b)))
  {
    var inp := Input([Token(SYMBOL, "A", 1, 0), Token(PYARGS, "()", 1, 2), Token(SYMBOL, "B", 1, 4), Token(PYARGS, "()", 1, 6)], None);
    JunkAfterPipeline(inp, split, SynPipeline(SynDevice("A", "()"), INil));
  }

  /**
   * A device whose `*args` the parser rejects is built only once the token
   * after it has been read: before `|` it raises the `*args` error, before
   * another device the error is at that device, and before a character the
   * lexer rejects it is the lexer's error.
   */
  lemma RejectedDeviceNeedsLookahead(split: string -> CallShape, e: LexerError)
    requires split("A(*x)").Call? && split("A(*x)").starArgs
    ensures var a, x, b := Token(SYMBOL, "A", 1, 0), Token(PYARGS, "(*x)", 1, 4), Token(SYMBOL, "B", 1, 6);
      && Parse(Input([a, x, Token(PIPE, "|", 1, 6), Token(SYMBOL, "B", 1, 8), Token(PYARGS, "()", 1, 10)], None), split)
         == Err(StarArgsRejected)
      && Parse(Input([a, x, b, Token(PYARGS, "()", 1, 8)], None), split) == Err(ParserError(Some(b)))
      && Parse(Input([a, x], Some(e)), split) == Err(LexFailure(e))
  {
    var a, x, b := Token(SYMBOL, "A", 1, 0), Token(PYARGS, "(*x)", 1, 4), Token(SYMBOL, "B", 1, 6);
    assert "A" + "(*x)" == "A(*x)";
    assert MakeDevice("A", "(*x)", split) == Err(StarArgsRejected);
    var piped := Input([a, x, Token(PIPE, "|", 1, 6), Token(SYMBOL, "B", 1, 8), Token(PYARGS, "()", 1, 10)], None);
    assert IsKind(piped, 0, SYMBOL) && IsKind(piped, 1, PYARGS) && DeviceLookahead(piped, 2);
    assert ParseItem(piped, split, 0) == Err(StarArgsRejected);
    var joined := Input([a, x, b, Token(PYARGS, "()", 1, 8)], None);
    assert IsKind(joined, 0, SYMBOL) && IsKind(joined, 1, PYARGS) && !DeviceLookahead(joined, 2);
    assert ParseItem(joined, split, 0) == Err(ParserError(Some(b)));
    var broken := Input([a, x], Some(e));
    assert IsKind(broken, 0, SYMBOL) && IsKind(broken, 1, PYARGS) && !DeviceLookahead(broken, 2);
    assert ParseItem(broken, split, 0) == Err(LexFailure(e));
  }

  /** An empty program is rejected at the end of the input. */
  lemma EmptyProgram(split: string -> CallShape)
    ensures Parse(Input([], None), split) == Err(ParserError(None))
  {
    assert !IsKind(Input([], None), 0, SYMBOL) && !IsKind(Input([], None), 0, LBRACE);
  }

  // ---------------------------------------------------------------------
  // The shapes the parser tests pin down
  // ---------------------------------------------------------------------

  function Dev(name: string): SynItem {
    SynDevice(name, "()")
  }

  /** `DEV1() | DEV2()`: one pipeline of two devices, named after their symbols, in order. */
  lemma TwoDevices(inp: Input, split: string -> CallShape)
    requires DeviceOk("DEV1", "()", split) && DeviceOk("DEV2", "()", split)
    requires inp.lexError.None?
    requires |inp.tokens| == 5 && Spells(inp, 0, [Word(SYMBOL, "DEV1"), Word(PYARGS, "()"), Word(PIPE, "|"),
                                                  Word(SYMBOL, "DEV2"), Word(PYARGS, "()")])
    ensures Parse(inp, split).Ok?
    ensures var t := Parse(inp, split).value.items;
      && |t| == 2
      && t[0].DeviceItem? && t[0].device.name == "DEV1"
      && t[1].DeviceItem? && t[1].device.name == "DEV2"
  {
    var p := SynPipeline(Dev("DEV1"), ICons(Dev("DEV2"), INil));
    assert RenderPipeline(p) == [Word(SYMBOL, "DEV1"), Word(PYARGS, "()"), Word(PIPE, "|"),
                                 Word(SYMBOL, "DEV2"), Word(PYARGS, "()")];
    ParseRoundTrip(inp, split, p);
  }

  /** `IN() | filter(item.price >= 50) | OUT()` as a syntax tree, and its tokens. */
  function SimplePipeline(): SynPipeline {
    SynPipeline(Dev("IN"), ICons(SynDevice("filter", "(item.price >= 50)"), ICons(Dev("OUT"), INil)))
  }

  function SimplePipelineWords(): seq<Word> {
    [Word(SYMBOL, "IN"), Word(PYARGS, "()"), Word(PIPE, "|"),
     Word(SYMBOL, "filter"), Word(PYARGS, "(item.price >= 50)"), Word(PIPE, "|"),
     Word(SYMBOL, "OUT"), Word(PYARGS, "()")]
  }

  /** The pipeline of devices made with `Device.from_star` in the object test. */
  function FromStarPipeline(cond: PyExpr): Pipeline {
    Pipeline([DeviceItem(FromStar("IN", [], map[])),
              DeviceItem(FromStar("filter", [NewExpression(cond, None)], map[])),
              DeviceItem(FromStar("OUT", [], map[]))])
  }

  lemma SimplePipelineSpelling()
    ensures RenderPipeline(SimplePipeline()) == SimplePipelineWords()
  {
  }

  lemma SimplePipelineTree(split: string -> CallShape, cond: PyExpr)
    requires split("IN()") == Call([], [], false, false) && split("OUT()") == Call([], [], false, false)
    requires split("filter(item.price >= 50)") == Call([cond], [], false, false)
    ensures PipelineOk(SimplePipeline(), split)
    ensures BuildPipeline(SimplePipeline(), split) == FromStarPipeline(cond)
  {
    assert "IN" + "()" == "IN()" && "OUT" + "()" == "OUT()";
    assert "filter" + "(item.price >= 50)" == "filter(item.price >= 50)";
    PlainCall(split, "IN", "()", []);
    PlainCall(split, "filter", "(item.price >= 50)", [cond]);
    PlainCall(split, "OUT", "()", []);
    assert Positional([cond]) == [NewExpression(cond, None)];
    assert Positional([]) == [];
  }

  /** A call with positional arguments only builds the device `Device.from_star` makes from them. */
  lemma PlainCall(split: string -> CallShape, s: string, a: string, args: seq<PyExpr>)
    requires split(s + a) == Call(args, [], false, false)
    ensures DeviceOk(s, a, split) && CallDevice(s, split(s + a)) == FromStar(s, Positional(args), map[])
  {
  }

  /**
   * `IN() | filter(item.price >= 50) | OUT()` parses to the pipeline that
   * `Device.from_star` builds by hand from the same names, the condition
   * being the one positional argument of `filter`, unnamed.
   */
  lemma SimplePipelineParsed(inp: Input, split: string -> CallShape, cond: PyExpr)
    requires split("IN()") == Call([], [], false, false) && split("OUT()") == Call([], [], false, false)
    requires split("filter(item.price >= 50)") == Call([cond], [], false, false)
    requires inp.lexError.None? && |inp.tokens| == 8 && Spells(inp, 0, SimplePipelineWords())
    ensures Parse(inp, split) == Ok(FromStarPipeline(cond))
  {
    SimplePipelineSpelling();
    SimplePipelineTree(split, cond);
    ParseRoundTrip(inp, split, SimplePipeline());
  }

  /** `{ DEV1() | DEV2() , DEV3() | DEV4() } | MERGE()` as a syntax tree. */
  function BlockThenMerge(): SynPipeline {
    var left := SynPipeline(Dev("DEV1"), ICons(Dev("DEV2"), INil));
    var right := SynPipeline(Dev("DEV3"), ICons(Dev("DEV4"), INil));
    SynPipeline(SynBlock(Branches(left, PCons(right, PNil), false)), ICons(Dev("MERGE"), INil))
  }

  function BlockThenMergeWords(): seq<Word> {
    [Word(LBRACE, "{"),
     Word(SYMBOL, "DEV1"), Word(PYARGS, "()"), Word(PIPE, "|"), Word(SYMBOL, "DEV2"), Word(PYARGS, "()"),
     Word(COMMA, ","),
     Word(SYMBOL, "DEV3"), Word(PYARGS, "()"), Word(PIPE, "|"), Word(SYMBOL, "DEV4"), Word(PYARGS, "()"),
     Word(RBRACE, "}"), Word(PIPE, "|"), Word(SYMBOL, "MERGE"), Word(PYARGS, "()")]
  }

  lemma BlockThenMergeSpelling()
    ensures RenderPipeline(BlockThenMerge()) == BlockThenMergeWords()
  {
  }

  lemma BlockThenMergeTree(split: string -> CallShape)
    requires forall n :: n in {"DEV1", "DEV2", "DEV3", "DEV4", "MERGE"} ==> DeviceOk(n, "()", split)
    ensures PipelineOk(BlockThenMerge(), split)
    ensures var t := BuildPipeline(BlockThenMerge(), split).items;
      && |t| == 2 && t[0].BlockItem? && |t[0].branches| == 2
      && |t[0].branches[0].items| == 2 && |t[0].branches[1].items| == 2
      && t[0].branches[0].items[0].DeviceItem? && t[0].branches[0].items[0].device.name == "DEV1"
      && t[0].branches[0].items[1].DeviceItem? && t[0].branches[0].items[1].device.name == "DEV2"
      && t[0].branches[1].items[0].DeviceItem? && t[0].branches[1].items[0].device.name == "DEV3"
      && t[0].branches[1].items[1].DeviceItem? && t[0].branches[1].items[1].device.name == "DEV4"
      && t[1].DeviceItem? && t[1].device.name == "MERGE"
  {
    assert DeviceOk("DEV1", "()", split) && DeviceOk("DEV2", "()", split) && DeviceOk("DEV3", "()", split);
    assert DeviceOk("DEV4", "()", split) && DeviceOk("MERGE", "()", split);
  }

  /**
   * `{ DEV1() | DEV2() , DEV3() | DEV4() } | MERGE()`: `|` binds tighter
   * than `,`, so the block has two branches of two devices each.
   */
  lemma PipeBindsTighter(inp: Input, split: string -> CallShape)
    requires forall n :: n in {"DEV1", "DEV2", "DEV3", "DEV4", "MERGE"} ==> DeviceOk(n, "()", split)
    requires inp.lexError.None? && |inp.tokens| == 16 && Spells(inp, 0, BlockThenMergeWords())
    ensures Parse(inp, split) == Ok(BuildPipeline(BlockThenMerge(), split))
    ensures var t := Parse(inp, split).value.items;
      && |t| == 2 && t[0].BlockItem? && |t[0].branches| == 2
      && |t[0].branches[0].items| == 2 && |t[0].branches[1].items| == 2
      && t[0].branches[0].items[0].DeviceItem? && t[0].branches[0].items[0].device.name == "DEV1"
      && t[0].branches[0].items[1].DeviceItem? && t[0].branches[0].items[1].device.name == "DEV2"
      && t[0].branches[1].items[0].DeviceItem? && t[0].branches[1].items[0].device.name == "DEV3"
      && t[0].branches[1].items[1].DeviceItem? && t[0].branches[1].items[1].device.name == "DEV4"
      && t[1].DeviceItem? && t[1].device.name == "MERGE"
  {
    BlockThenMergeSpelling();
    BlockThenMergeTree(split);
    ParseRoundTrip(inp, split, BlockThenMerge());
  }

  // ---------------------------------------------------------------------
  // From text: the lexer's example input is not a program
  // ---------------------------------------------------------------------

  /**
   * `Example(<args>) | OUT` lexes cleanly, but `OUT` has no argument list,
   * so the parser fails at the end of the input, after building `Example`.
   */
  lemma ExampleIsNotAProgram(ps: Pieces, split: string -> CallShape)
    requires WellFormed(ps) && DeviceOk("Example", "(" + Flatten(ps) + ")", split)
    ensures ParseText(ExampleInput(Flatten(ps)), split) == Err(ParserError(None))
  {
    var args := Flatten(ps);
    var n := |args|;
    var line := 1 + Count(args, 0, n, '\n');
    ExampleTokens(ps);
    OutWithoutArguments(LexedInput(ExampleInput(args)), split, "(" + args + ")");
  }

  /** A device then `| OUT` at the end of the input: `OUT` misses its argument list. */
  lemma OutWithoutArguments(inp: Input, split: string -> CallShape, pyargs: string)
    requires DeviceOk("Example", pyargs, split) && inp.lexError.None? && |inp.tokens| == 4
    requires inp.tokens[0].kind == SYMBOL && inp.tokens[0].text == "Example"
    requires inp.tokens[1].kind == PYARGS && inp.tokens[1].text == pyargs
    requires inp.tokens[2].kind == PIPE && inp.tokens[3].kind == SYMBOL
    ensures Parse(inp, split) == Err(ParserError(None))
  {
    assert ParseItem(inp, split, 0).Ok? && ParseItem(inp, split, 0).value.next == 2;
    assert ParseItem(inp, split, 3) == Err(ParserError(None));
    assert PipelineRest(inp, split, Pipeline([ParseItem(inp, split, 0).value.value]), 2) == Err(ParserError(None));
  }
}
