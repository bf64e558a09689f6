/**
 * The dq grammar (dq/parser.py) as a recursive-descent parser over the
 * token stream:
 *
 *   program       : pipeline
 *   pipeline      : pipeline_item | pipeline PIPE pipeline_item
 *   pipeline_item : device | block
 *   block         : LBRACE RBRACE
 *                 | LBRACE block_content RBRACE
 *                 | LBRACE block_content COMMA RBRACE
 *   block_content : pipeline | block_content COMMA pipeline
 *   device        : SYMBOL PYARGS
 *
 * The parser reports an error at the first token that cannot continue a
 * program, which is where the LALR parser calls `p_error`. The lexer runs
 * on demand, so a lexer error surfaces only when the parser asks for the
 * token at which the lexer failed. Building a device is the only action
 * that can fail, and it runs once the token after its two tokens has been
 * read and found to be one that may follow a device.
 */
module Parser {
  import opened Wrappers
  import opened Lexer
  import opened Ast

  /**
   * What Python's `ast.parse` makes of a device text `SYMBOL + PYARGS`: a
   * single call with its positional arguments, its keyword arguments in
   * source order and whether it has `*args` or `**kwargs`; something that
   * parses but is not one call expression; or a syntax error. The callee of
   * a call parsed from `NAME(...)` is the name `NAME`.
   */
  datatype CallShape =
    | Call(args: seq<PyExpr>, keywords: seq<(string, PyExpr)>, starArgs: bool, starKwargs: bool)
    | NotACall
    | SyntaxError

  datatype ParseError =
    | ParserError(at: Option<Token>)   // `p_error`: the offending token, None at end of input
    | LexFailure(error: LexerError)     // the lexer failed where the parser asked for a token
    | DeviceSyntaxError(text: string)   // `ast.parse` rejected the device text
    | DeviceNotACall(text: string)      // one of the assertions on the parsed device text failed
    | StarArgsRejected                  // ValueError("*varargs are not supported")
    | StarKwargsRejected                // ValueError("**kwargs are not supported")

  /** The tokens the lexer produces, and the error it stops with, if any. */
  datatype Input = Input(tokens: seq<Token>, lexError: Option<LexerError>)

  /** What the parser sees when it asks for token `i`. */
  datatype Look = Next(token: Token) | AtEnd | LexBroken(error: LexerError)

  function Peek(inp: Input, i: nat): Look {
    if i < |inp.tokens| then Next(inp.tokens[i])
    else if inp.lexError.Some? then LexBroken(inp.lexError.value)
    else AtEnd
  }

  predicate IsKind(inp: Input, i: nat, k: Kind) {
    i < |inp.tokens| && inp.tokens[i].kind == k
  }

  /** The error raised when token `i` cannot continue the program. */
  function Unexpected(inp: Input, i: nat): ParseError {
    match Peek(inp, i)
    case Next(t) => ParserError(Some(t))
    case AtEnd => ParserError(None)
    case LexBroken(e) => LexFailure(e)
  }

  // ---------------------------------------------------------------------
  // Devices (`p_device`)
  // ---------------------------------------------------------------------

  /** `[Expression(a) for a in _call.args]`. */
  function Positional(args: seq<PyExpr>): (es: seq<Expression>)
    ensures |es| == |args|
    ensures forall k :: 0 <= k < |args| ==> es[k].node == args[k] && es[k].name == "<none>"
  {
    seq(|args|, k requires 0 <= k < |args| => NewExpression(args[k], None))
  }

  /** `dict((k.arg, Expression(k.value)) for k in _call.keywords)`: a later repeat of a name wins. */
  function KeywordMap(kws: seq<(string, PyExpr)>): map<string, Expression>
    decreases |kws|
  {
    if |kws| == 0 then map[]
    else KeywordMap(kws[..|kws| - 1])[kws[|kws| - 1].0 := NewExpression(kws[|kws| - 1].1, None)]
  }

  /** The device a call builds: named after the symbol, arguments in source order. */
  function CallDevice(name: string, c: CallShape): Device
    requires c.Call?
  {
    Device(name, Positional(c.args), KeywordMap(c.keywords))
  }

  /** `p_device` for the tokens `symbol` and `pyargs`. */
  function MakeDevice(symbol: string, pyargs: string, split: string -> CallShape): Result<Device, ParseError> {
    var text := symbol + pyargs;
    match split(text)
    case SyntaxError => Err(DeviceSyntaxError(text))
    case NotACall => Err(DeviceNotACall(text))
    case Call(_, _, starArgs, starKwargs) =>
      if starArgs then Err(StarArgsRejected)
      else if starKwargs then Err(StarKwargsRejected)
      else Ok(CallDevice(symbol, split(text)))
  }

  /** A device text that `MakeDevice` accepts. */
  predicate DeviceOk(symbol: string, pyargs: string, split: string -> CallShape) {
    var c := split(symbol + pyargs);
    c.Call? && !c.starArgs && !c.starKwargs
  }

  /** The keyword names of a call are exactly the keys of its keyword map. */
  lemma {:induction false} KeywordNames(kws: seq<(string, PyExpr)>)
    ensures KeywordMap(kws).Keys == set k | 0 <= k < |kws| :: kws[k].0
    decreases |kws|
  {
    if |kws| > 0 {
      var n := |kws| - 1;
      KeywordNames(kws[..n]);
      var before := set k | 0 <= k < n :: kws[..n][k].0;
      forall k | 0 <= k < |kws|
        ensures kws[k].0 in before + {kws[n].0}
      {
        if k < n {
          assert kws[..n][k].0 == kws[k].0;
        }
      }
      assert (set k | 0 <= k < |kws| :: kws[k].0) == before + {kws[n].0};
    }
  }

  /** A keyword is stored with the value of its last occurrence. */
  lemma {:induction false} KeywordLastWins(kws: seq<(string, PyExpr)>, k: nat)
    requires k < |kws| && forall j :: k < j < |kws| ==> kws[j].0 != kws[k].0
    ensures kws[k].0 in KeywordMap(kws) && KeywordMap(kws)[kws[k].0] == Expression(kws[k].1, "<none>")
    decreases |kws|
  {
    var n := |kws| - 1;
    if k < n {
      KeywordLastWins(kws[..n], k);
    }
  }

  /**
   * What building a device gives: the device named after the symbol, with
   * the positional arguments in source order and the keywords under their
   * names; otherwise the error for the syntax error, the non-call or the
   * star argument, `*args` checked first.
   */
  lemma DeviceOutcome(symbol: string, pyargs: string, split: string -> CallShape)
    ensures var c := split(symbol + pyargs); var r := MakeDevice(symbol, pyargs, split);
      && (r.Ok? <==> DeviceOk(symbol, pyargs, split))
      && (r.Ok? ==>
            && r.value.name == symbol
            && |r.value.args| == |c.args|
            && (forall k :: 0 <= k < |c.args| ==> r.value.args[k].node == c.args[k])
            && r.value.keywords.Keys == (set k | 0 <= k < |c.keywords| :: c.keywords[k].0))
      && (c.SyntaxError? ==> r == Err(DeviceSyntaxError(symbol + pyargs)))
      && (c.NotACall? ==> r == Err(DeviceNotACall(symbol + pyargs)))
      && (c.Call? && c.starArgs ==> r == Err(StarArgsRejected))
      && (c.Call? && !c.starArgs && c.starKwargs ==> r == Err(StarKwargsRejected))
  {
    var c := split(symbol + pyargs);
    if c.Call? {
      KeywordNames(c.keywords);
    }
  }

  // ---------------------------------------------------------------------
  // The grammar
  // ---------------------------------------------------------------------

  datatype Parsed<T> = Parsed(value: T, next: nat)

  /**
   * The tokens on which the LALR parser reduces `device : SYMBOL PYARGS`:
   * `|`, `,`, `}` and the end of the input. The parser reads this token
   * before it runs `p_device`; on any other token, or where the lexer fails,
   * it stops there and the device is never built.
   */
  predicate DeviceLookahead(inp: Input, k: nat) {
    match Peek(inp, k)
    case AtEnd => true
    case Next(t) => t.kind == PIPE || t.kind == COMMA || t.kind == RBRACE
    case LexBroken(_) => false
  }

  /** `pipeline_item`, starting at token `i`: a device or a block. */
  function ParseItem(inp: Input, split: string -> CallShape, i: nat): (r: Result<Parsed<Item>, ParseError>)
    requires i <= |inp.tokens|
    ensures r.Ok? ==> i < r.value.next <= |inp.tokens|
    ensures r.Ok? && r.value.value.DeviceItem? ==> r.value.next == i + 2 && DeviceLookahead(inp, i + 2)
    ensures IsKind(inp, i, SYMBOL) && IsKind(inp, i + 1, PYARGS) && !DeviceLookahead(inp, i + 2)
            ==> r == Err(Unexpected(inp, i + 2))
    decreases |inp.tokens| - i, 1
  {
    if IsKind(inp, i, SYMBOL) then
      if IsKind(inp, i + 1, PYARGS) then
        if !DeviceLookahead(inp, i + 2) then
          Err(Unexpected(inp, i + 2))                       // p_device is never reached
        else
          match MakeDevice(inp.tokens[i].text, inp.tokens[i + 1].text, split)
          case Ok(d) => Ok(Parsed(DeviceItem(d), i + 2))
          case Err(e) => Err(e)
      else
        Err(Unexpected(inp, i + 1))
    else if IsKind(inp, i, LBRACE) then
      if IsKind(inp, i + 1, RBRACE) then
        Ok(Parsed(BlockItem([]), i + 2))                   // p_block_empty
      else
        match BlockContent(inp, split, [], i + 1)          // p_block
        case Ok(Parsed(branches, k)) => Ok(Parsed(BlockItem(branches), k))
        case Err(e) => Err(e)
    else
      Err(Unexpected(inp, i))
  }

  /**
   * `block_content`, then the optional `,` and the closing `}`, after the
   * branches `acc` already read: a branch pipeline, appended to them.
   */
  function BlockContent(inp: Input, split: string -> CallShape, acc: seq<Pipeline>, j: nat)
    : (r: Result<Parsed<seq<Pipeline>>, ParseError>)
    requires j <= |inp.tokens|
    ensures r.Ok? ==> j < r.value.next <= |inp.tokens| && |r.value.value| > |acc| && r.value.value[..|acc|] == acc
    decreases |inp.tokens| - j, 3
  {
    match ParsePipeline(inp, split, j)
    case Err(e) => Err(e)
    case Ok(Parsed(p, k)) =>
      var r := BlockNext(inp, split, acc + [p], k);
      assert r.Ok? ==> r.value.value[..|acc|] == r.value.value[..|acc| + 1][..|acc|];
      r
  }

  /** After a branch: `,` and another branch, `,` and `}`, or `}`. */
  function BlockNext(inp: Input, split: string -> CallShape, branches: seq<Pipeline>, k: nat)
    : (r: Result<Parsed<seq<Pipeline>>, ParseError>)
    requires 0 < k <= |inp.tokens|
    ensures r.Ok? ==> k < r.value.next <= |inp.tokens| && |r.value.value| >= |branches| && r.value.value[..|branches|] == branches
    decreases |inp.tokens| - k, 4
  {
    if IsKind(inp, k, COMMA) then
      if IsKind(inp, k + 1, RBRACE) then Ok(Parsed(branches, k + 2))
      else BlockContent(inp, split, branches, k + 1)
    else if IsKind(inp, k, RBRACE) then Ok(Parsed(branches, k + 1))
    else Err(Unexpected(inp, k))
  }

  /** `pipeline`, starting at token `i`: at least one item, and it stops before a token other than `|`. */
  function ParsePipeline(inp: Input, split: string -> CallShape, i: nat): (r: Result<Parsed<Pipeline>, ParseError>)
    requires i <= |inp.tokens|
    ensures r.Ok? ==> i < r.value.next <= |inp.tokens| && |r.value.value.items| > 0 && !IsKind(inp, r.value.next, PIPE)
    decreases |inp.tokens| - i, 2
  {
    match ParseItem(inp, split, i)
    case Err(e) => Err(e)
    case Ok(Parsed(item, j)) => PipelineRest(inp, split, Pipeline([item]), j)   // p_pipeline_single
  }

  /** Each further `| item` is appended to the pipeline `p` read so far. */
  function PipelineRest(inp: Input, split: string -> CallShape, p: Pipeline, j: nat)
    : (r: Result<Parsed<Pipeline>, ParseError>)
    requires j <= |inp.tokens|
    ensures r.Ok? ==> && j <= r.value.next <= |inp.tokens| && !IsKind(inp, r.value.next, PIPE)
                      && |r.value.value.items| >= |p.items| && r.value.value.items[..|p.items|] == p.items
    decreases |inp.tokens| - j, 0
  {
    if IsKind(inp, j, PIPE) then
      match ParseItem(inp, split, j + 1)
      case Err(e) => Err(e)
      case Ok(Parsed(item, k)) =>
        var longer := Pipeline(p.items + [item]);                // p_pipeline_append
        var r := PipelineRest(inp, split, longer, k);
        assert r.Ok? ==> r.value.value.items[..|p.items|] == r.value.value.items[..|longer.items|][..|p.items|];
        r
    else
      Ok(Parsed(p, j))
  }

  /** `program`: one pipeline covering the whole input. */
  function Parse(inp: Input, split: string -> CallShape): (r: Result<Pipeline, ParseError>)
    ensures r.Ok? ==> |r.value.items| > 0 && inp.lexError.None?
  {
    match ParsePipeline(inp, split, 0)
    case Err(e) => Err(e)
    case Ok(Parsed(p, j)) => if Peek(inp, j).AtEnd? then Ok(p) else Err(Unexpected(inp, j))
  }

  // ---------------------------------------------------------------------
  // The lexer feeding the parser
  // ---------------------------------------------------------------------

  /** The tokens of `data` up to the lexer's first error, and that error. */
  function LexedInput(data: string): (inp: Input)
    ensures Lex(data).Ok? ==> inp == Input(Lex(data).value, None)
    ensures Lex(data).Err? ==> inp.lexError == Some(Lex(data).error)
  {
    var o := Scan(data, 0, Fresh);
    ScanInBounds(data, 0, Fresh);
    Input(Tokens(data, o.tokens),
          if o.error.Some? then Some(LexerError(o.error.value, data[o.error.value..])) else None)
  }

  /** `parser.parse(text)`. */
  function ParseText(data: string, split: string -> CallShape): Result<Pipeline, ParseError> {
    Parse(LexedInput(data), split)
  }

  /** A text the lexer rejects is never a program. */
  lemma LexErrorRejects(data: string, split: string -> CallShape)
    ensures Lex(data).Err? ==> ParseText(data, split).Err?
  {
  }
}
