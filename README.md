# dq: a verified model of the pipeline language core

dq runs pipelines written as text, such as `{ A() | B(), C() } | D()`. A
program is a pipeline of items separated by `|`. Each item is a device call
`NAME(<python arguments>)` or a block `{ p1, p2, ... }` of branch pipelines
that run side by side. This project models the engine that takes such a text
to a result, and proves properties of the model:

- **Lexer** (`lexer.dfy`, `lexer_facts.dfy`). This models the PLY rules of
  `dq/lexer.py` as pure rule functions over the lexer fields (the state,
  `level`, `code_start`, `lineno`). `Scan` is the whole run. `Tokenize` is
  the scanning loop, and it is proved equal to `Lex`. The facts cover:
  - each rule on its own;
  - the verbatim capture of an argument list as one `PYARGS` token;
  - line numbers;
  - errors;
  - the lexer test input `Example(<args>) | OUT`.
- **Parser** (`parser.dfy`, `parser_facts.dfy`). The LALR grammar of
  `dq/parser.py` is modelled as a recursive-descent parser over the tokens.
  Each error is reported at the token where the LALR parser reports it. In
  particular a device is built only after the token that follows it has been
  read and found to be one that may follow a device (PIPE, `,`, `}` or the
  end of the input), so a device whose arguments are rejected is reported
  only when that token allows it. The facts cover:
  - a round trip: every spelled-out syntax tree parses back to that tree;
  - soundness: whatever parses is a spelled-out syntax tree, so together
    with the round trip a token stream parses to a tree exactly when it
    spells that tree;
  - the shapes the parser tests pin down (`|` binds tighter than `,`);
  - the token streams the grammar rejects.
- **Tree** (`ast.dfy`). This covers:
  - the nodes of `dq/ast.py` and their reprs;
  - `WrappedList`, a class over a `seq` with Python's index rules for get,
    set, delete and insert;
  - the one-shot compile cache `Expression.compiled`.

  `dq/objects.py` repeats `WrappedList` (`dq/objects.py:14-33`) and the cache
  (`dq/objects.py:168-173`) word for word. The same members model both, and
  the table cites each file for some of them.
- **Executor** (`execution.dfy`, `values.dfy`). This models `execute` of
  `dq/execution.py` as specification functions with methods proved equal to
  them. The methods are the block's matrix and branch loops and the
  pipeline's fold with the `wasblock` flag. Run-time values are tagged:
  - a generator is a finite sequence;
  - an `itertools.tee` copy is a separate tag, because it is not a
    generator;
  - any other object is an atom.

  Device classes come from a registry that maps a name to a function of the
  unevaluated constructor arguments and the inputs. An event log records
  which devices were constructed and called, and in what order.
- **Stream dispatcher** (`tee.dfy`). This models `dispatch_stream` of
  `dq/piping/tee.py` with greenlet objects that record what their `next()`
  calls returned. The dispatcher also returns the trace of what it did.
- **Filter and Transform** (`filter.dfy`). `Filter` is a pure
  order-preserving filter. `Transform` updates record objects in place, item
  by item and keyword by keyword. The same object may occur several times in
  the stream.
- **Older object model** (`objects.dfy`). This covers:
  - `Pipeline.execute`, a fold that passes one argument from each item to
    the next;
  - `PipelineBlock.execute` and `Device.execute`;
  - `GenericDevice` and `get_device` from `dq/objects.py`.

What the code does, in the places where a reader might expect otherwise:
- A grammar violation raises the one generic exception of `p_error`
  (`dq/parser.py:33-34`).
- A star argument raises `ValueError` (`dq/parser.py:152-155`).
- The parser and the executor raise only built-in exceptions (`Exception`,
  `ValueError`, `KeyError`, `TypeError`). `LexerError` (`dq/lexer.py:23`)
  is the lexer's own class.
- Nothing rejects a block that directly follows a block, although the
  comment at `dq/objects.py:84-86` suggests disallowing it. Such a block gets
  the previous block's results as its inputs, and a tee copy among them is
  replicated like any other non-generator.
- An unregistered device name fails with `KeyError`, before anything is
  constructed.

## Model

| member | source | states |
|---|---|---|
| `Lexer.RunEndMaximal` | dq/lexer.py:65-76 | a run rule (`\n+`, `#.*`, `[a-zA-Z_][a-zA-Z_0-9]*`) matches a maximal run: every character before its end is in the class and the character at the end is not (or the input ends) |
| `Lexer.StringEnd` | dq/lexer.py:108-110 | a quoted literal found by the string rule ends right after a closing quote of the same kind |
| `Lexer.InitialRule` | dq/lexer.py:27-87 | a rule of the initial state that matches moves strictly forward inside the input and leaves the lexer fields consistent |
| `Lexer.PyArgsRule` | dq/lexer.py:90-123 | in the capture state some rule always matches (the error rule skips one character), moving strictly forward and keeping the fields consistent |
| `Lexer.Step` | dq/lexer.py:27-123 | one match: a token ends where scanning resumes, and only the initial state can fail, at the current position |
| `Lexer.Scan` | dq/lexer.py:27-29 | a scan that stops with an error stops at a position inside the input |
| `Lexer.ScanInBounds` | dq/lexer.py:99-105 | every token value the scan produces is a slice of the input |
| `Lexer.Tokenize` | dq/lexer.py:83-123 | the scanning loop, whose token actions update the state, `level`, `code_start` and `lineno`, returns exactly the tokens or the `LexerError` of `Lex` |
| `LexerFacts.StringEndIff` | dq/lexer.py:108-110 | the string rule ends a literal at `e` if and only if `e-1` holds the same quote and the body between consists of plain characters (no quote, backslash or newline) and backslash escapes of non-newlines |
| `LexerFacts.ScanBlank` | dq/lexer.py:62 | a blank or tab is skipped with no token and no change to the fields |
| `LexerFacts.ScanNewlines` | dq/lexer.py:65-68 | a maximal run of newlines produces no token and advances `lineno` by its number of `\n` |
| `LexerFacts.ScanComment` | dq/lexer.py:71-73 | a `#` comment to the end of the line produces no token |
| `LexerFacts.ScanSymbol` | dq/lexer.py:76 | a maximal identifier is one `SYMBOL` token whose text is exactly that identifier |
| `LexerFacts.ScanStructural` | dq/lexer.py:45-59 | each of the four symbols (braces, comma, pipe) is one token of its kind whose text is that character |
| `LexerFacts.ScanIllegal` | dq/lexer.py:27-29 | in the initial state a character no rule matches stops the scan with an error at that position and no token |
| `LexerFacts.ScanOpenCapture` | dq/lexer.py:83-87 | `(` enters the capture state at depth 1 and records where the argument text starts, without a token |
| `LexerFacts.ScanNestedOpen` | dq/lexer.py:90-92 | an unquoted `(` in the capture state raises the depth by one |
| `LexerFacts.ScanNestedClose` | dq/lexer.py:95-97 | an unquoted `)` that does not close the capture lowers the depth by one, without a token |
| `LexerFacts.ScanCloseCapture` | dq/lexer.py:95-105 | the `)` that brings the depth to 0 emits one `PYARGS` token spanning from the opening `(`, returns to the initial state and adds the newlines of the capture to `lineno` |
| `LexerFacts.ScanLiteral` | dq/lexer.py:108-110 | a complete quoted literal is skipped whole, so its parentheses never change the depth |
| `LexerFacts.ScanExprChar` | dq/lexer.py:113-114 | a character other than a parenthesis or quote is skipped without changing the depth |
| `LexerFacts.ScanUnterminatedQuote` | dq/lexer.py:120-123 | in the capture state a quote that starts no complete literal is skipped on its own, without an error |
| `LexerFacts.ScanPieces` | dq/lexer.py:90-114 | well-formed argument text (plain characters, complete literals, balanced groups) is skipped and leaves the depth where it was |
| `LexerFacts.CaptureArgs` | dq/lexer.py:83-105 | `(` + well-formed argument text + `)` is captured as one `PYARGS` token whose text is exactly that slice, after which the lexer is back in the initial state |
| `LexerFacts.UnclosedCapture` | dq/lexer.py:83-123 | an argument list never closed ends the input with no token and no error |
| `LexerFacts.LexemesPlaced` | dq/lexer.py:65-105 | the tokens of a whole input are in input order without overlap, and each token's `lineno` is 1 plus the number of newlines before it |
| `LexerFacts.ScanFailsAt` | dq/lexer.py:27-29 | a scan fails only in the initial state, on a character no initial-state rule matches |
| `LexerFacts.LexErrorIsIllegal` | dq/lexer.py:27-29 | the `LexerError` carries the position of an unmatched character and the rest of the input from there |
| `LexerFacts.ExampleTokens` | dq/tests/unit/test_lexer.py:78-85 | the test input `Example(<args>)`, a pipe and `OUT` lexes to `SYMBOL Example`, `PYARGS (<args>)`, `PIPE` and `SYMBOL OUT` for any well-formed argument text, quotes and nested parentheses included |
| `Ast.NewExpression` | dq/ast.py:83-85 | an expression keeps its node, and a missing or empty name becomes `<none>` |
| `Ast.JoinConcat` | dq/ast.py:31-32 | joining two non-empty lists puts exactly one separator between the joins of the two |
| `Ast.JoinLength` | dq/ast.py:37-38 | a join is as long as the parts plus one separator between each neighbouring pair |
| `Ast.EmptyBlockRepr` | dq/ast.py:35-38 | an empty block prints as `{  }` |
| `Ast.PipelineReprAppend` | dq/ast.py:29-32 | appending an item to a pipeline adds the pipe separator and the item's repr before the closing brace |
| `Ast.SlotRange` | dq/objects.py:20-24 | a Python index is valid exactly when `-n <= pos < n`, and it then denotes the slot `pos mod n` |
| `Ast.AssignedOnlyThere` | dq/objects.py:23-24 | assignment succeeds exactly for a valid index; the length is unchanged, the slot holds the new value, and every other slot is unchanged |
| `Ast.DeletedOne` | dq/objects.py:26-27 | deletion succeeds exactly for a valid index; it removes that one element and keeps the rest in order (as a multiset: the old list minus one occurrence) |
| `Ast.InsertedShifts` | dq/objects.py:32-33 | insertion never fails: the element lands at the clamped position, earlier elements stay, later ones shift right, and the length grows by one |
| `Ast.InsertThenDelete` | dq/objects.py:26-33 | deleting at the slot an insertion used gives the original list back |
| `Ast.WrappedList.constructor` | dq/ast.py:8-11 | `WrappedList(it)` holds exactly the elements of `it`, in order |
| `Ast.WrappedList.Empty` | dq/ast.py:8-11 | `WrappedList()` is empty |
| `Ast.WrappedList.Get` | dq/ast.py:13-14 | `__getitem__` returns the element at the Python index, or `IndexError` |
| `Ast.WrappedList.Len` | dq/ast.py:22-23 | `__len__` is the number of elements |
| `Ast.WrappedList.Set` | dq/ast.py:16-17 | `__setitem__` updates the list in place exactly as the assignment above, or raises `IndexError` and changes nothing |
| `Ast.WrappedList.Delete` | dq/ast.py:19-20 | `__delitem__` removes in place exactly as the deletion above, or raises `IndexError` and changes nothing |
| `Ast.WrappedList.Insert` | dq/ast.py:25-26 | `insert` changes the list in place to the insertion above |
| `Ast.WrappedList.Append` | dq/parser.py:76-78 | `append` (the inherited `insert(len(self), x)`, used by the parser) adds `x` at the end |
| `Ast.ExpressionObject.constructor` | dq/objects.py:150-152 | a new expression has an empty compile cache and has compiled nothing |
| `Ast.ExpressionObject.Compile` | dq/ast.py:96-99 | `compile()` makes a new code object from the node, filed under the expression's name |
| `Ast.ExpressionObject.Compiled` | dq/ast.py:101-106 | `compiled` compiles only when the cache is empty, caches the result and otherwise returns the cached object; at most one compilation ever happens |
| `Ast.CompiledTwice` | dq/objects.py:168-173 | two accesses to `compiled` return the same object after at most one compilation |
| `Parser.Positional` | dq/parser.py:149 | one unevaluated expression per positional argument, in source order, named `<none>` |
| `Parser.KeywordNames` | dq/parser.py:150 | the keys of the keyword map are exactly the keyword names of the call |
| `Parser.KeywordLastWins` | dq/parser.py:150 | a keyword is stored with the expression of its last occurrence |
| `Parser.DeviceOutcome` | dq/parser.py:132-157 | a device is built exactly when the text is one call without star arguments; it is named after the symbol, with the positional arguments in order and the keywords under their names; otherwise the error is the syntax error, the non-call, `*args` (checked first) or `**kwargs` |
| `Parser.ParseItem` | dq/parser.py:81-87 | an item that parses consumes at least one token and stays inside the input; a device is built only when the token after it may follow a device, and otherwise the error is at that token |
| `Parser.BlockContent` | dq/parser.py:112-124 | `block_content` appends at least one branch to the branches already read, keeping them as they were |
| `Parser.BlockNext` | dq/parser.py:119-124 | after a branch, the branches read so far are kept as a prefix |
| `Parser.ParsePipeline` | dq/parser.py:63-68 | a pipeline that parses has at least one item and stops before a token other than PIPE |
| `Parser.PipelineRest` | dq/parser.py:71-78 | each further PIPE and item is appended in place: the items read so far stay a prefix |
| `Parser.Parse` | dq/parser.py:47-52 | A parsed program is a pipeline of at least one item, and a parse succeeds only when the lexer reached the end of the text. |
| `Parser.LexErrorRejects` | dq/lexer.py:27-29 | a text the lexer rejects is never a program |
| `ParserFacts.ItemRoundTrip` | dq/parser.py:81-87 | a spelled-out item parses back to the item it stands for, consuming exactly its tokens |
| `ParserFacts.DeviceRoundTrip` | dq/parser.py:132-148 | `SYMBOL PYARGS` parses to the device built from the symbol and the argument text |
| `ParserFacts.BlockItemRoundTrip` | dq/parser.py:104-109 | a spelled-out block parses to a block whose branches are the branch pipelines, in order |
| `ParserFacts.BlockRoundTrip` | dq/parser.py:112-118 | `block_content` appends the spelled-out branches to those already read, in order |
| `ParserFacts.BlockNextRoundTrip` | dq/parser.py:119-124 | each `, pipeline` appends one branch, with an optional trailing `,` before `}` |
| `ParserFacts.PipelineRoundTrip` | dq/parser.py:63-78 | a spelled-out pipeline parses to its items in source order |
| `ParserFacts.ItemsRoundTrip` | dq/parser.py:71-78 | spelled-out tails of PIPE and an item are appended in source order |
| `ParserFacts.ParseRoundTrip` | dq/parser.py:47-52 | a whole program spelled out from a syntax tree parses to that tree |
| `ParserFacts.ItemSound` | dq/parser.py:81-109 | an item that parses is spelled by the tokens it consumed, and the parser built the item that spelling stands for |
| `ParserFacts.BlockContentSound` | dq/parser.py:112-118 | a `block_content` that parses is spelled by its tokens, and its branches are appended to those already read, in order |
| `ParserFacts.BlockNextSound` | dq/parser.py:104-124 | what follows a branch, when it parses, spells the further branches and the optional trailing comma before the closing brace |
| `ParserFacts.PipelineSound` | dq/parser.py:63-68 | a pipeline that parses is spelled by its tokens, and its items are the ones that spelling stands for, in order |
| `ParserFacts.RestSound` | dq/parser.py:71-78 | each further PIPE and item that parses is spelled by its tokens and appended in order |
| `ParserFacts.ParseSound` | dq/parser.py:33-34 | when parsing succeeds, the lexer reached the end of the text and the whole token stream spells a program of the grammar whose tree is the result; every other token stream raises |
| `ParserFacts.ParseExactly` | dq/parser.py:47-52 | a token stream parses to a tree exactly when the lexer reached the end of the text and the tokens spell a program that stands for that tree |
| `ParserFacts.TrailingCommaIgnored` | dq/parser.py:104-109 | `{p1, ..., pn}` and `{p1, ..., pn,}` parse to the same block, with branches p1..pn |
| `ParserFacts.EmptyBlock` | dq/parser.py:99-101 | `{}` is a block with no branches |
| `ParserFacts.JunkAfterPipeline` | dq/parser.py:33-34 | after a complete pipeline any token but PIPE is a parser error at that token |
| `ParserFacts.LexErrorAfterPipeline` | dq/lexer.py:27-29 | when the lexer fails right after a complete pipeline, parsing raises the lexer's error |
| `ParserFacts.PipelineOutcome` | dq/parser.py:63-78 | a spelled-out pipeline followed by a token other than PIPE parses to its tree, unless its last item is a device that token cannot follow, in which case the error is at that token |
| `ParserFacts.DeviceStops` | dq/parser.py:132-133 | a device followed by a token that cannot follow a device fails at that token, before the device is built |
| `ParserFacts.ItemsStop` | dq/parser.py:71-78 | a pipeline whose last item is such a device fails at the token after it |
| `ParserFacts.RejectedDeviceNeedsLookahead` | dq/parser.py:132-157 | a device with `*x` arguments raises the `*args` error before PIPE, but before another device the error is at that device, and before a character the lexer rejects it is the lexer's error |
| `ParserFacts.CommaOpensBlock` | dq/parser.py:112-124 | `{ , }` is a parser error at the comma |
| `ParserFacts.DevicesWithoutPipe` | dq/parser.py:63-78 | two devices without PIPE between them are a parser error at the second device's symbol |
| `ParserFacts.EmptyProgram` | dq/parser.py:47-52 | an empty token stream is a parser error at the end of the input |
| `ParserFacts.SimplePipelineParsed` | dq/tests/unit/test_objects.py:51-73 | the text IN() PIPE filter(item.price >= 50) PIPE OUT() parses to the pipeline of devices built with `Device.from_star` from the same names, the condition being filter's one unnamed positional argument |
| `ParserFacts.TwoDevices` | dq/tests/unit/test_parser.py:5-17 | the test text DEV1() PIPE DEV2() is one pipeline of the two devices, named DEV1 and DEV2, in order |
| `ParserFacts.PipeBindsTighter` | dq/tests/unit/test_parser.py:20-46 | PIPE binds tighter than COMMA: the test text with branches DEV1()-DEV2() and DEV3()-DEV4() followed by MERGE() is a block of two branches of two devices each, then MERGE |
| `ParserFacts.ExampleIsNotAProgram` | dq/parser.py:132-133 | the lexer's test input `Example(<args>)`, a pipe and `OUT` lexes but does not parse: `OUT` lacks its argument list |
| `ParserFacts.OutWithoutArguments` | dq/parser.py:132-133 | a device, PIPE and a bare symbol at the end of the input is a parser error at the end |
| `Execution.DeviceRun` | dq/execution.py:13-15 | a registered name constructs its class from the unevaluated argument expressions and calls it with the inputs; an unregistered name is `KeyError` with nothing constructed |
| `Execution.Matrix` | dq/execution.py:42-49 | the matrix has one row per input, each as wide as the branch count |
| `Execution.ExecItem` | dq/execution.py:34-59 | a block that succeeds returns a tuple |
| `Execution.Execute` | dq/execution.py:18-92 | `execute` returns the result and the construction and call events of the specification |
| `Execution.ExecuteItem` | dq/execution.py:25-59 | the device case and the block's matrix and branch loops compute the specified result and events |
| `Execution.ExecutePipeline` | dq/execution.py:61-89 | the fold over the items with the `wasblock` flag computes the specified result and events |
| `Execution.ForeignRejected` | dq/execution.py:91-92 | any other object raises `TypeError` |
| `Execution.DeviceExecution` | dq/execution.py:25-32 | a device fails exactly when its name is unregistered (`KeyError`, no events); otherwise it is constructed from its unevaluated arguments and then called with the inputs |
| `Execution.BlockWithoutInputs` | dq/execution.py:42-59 | a block given no inputs returns `()` whatever its branch count, running no branch |
| `Execution.BlockRows` | dq/execution.py:47-57 | every branch row has one entry per input, in input order, the same for every branch |
| `Execution.BranchInputShape` | dq/execution.py:43-49 | a non-generator input is passed to each branch as the identical value; a generator becomes a tee copy with the full item sequence in order |
| `Execution.BlockResults` | dq/execution.py:55-59 | a block with inputs succeeds exactly when every branch does; it returns one result per branch, in branch order, with the events of the branches in order; otherwise it fails with the first failing branch's error |
| `Execution.EmptyPipeline` | dq/execution.py:65-89 | an empty pipeline returns its inputs as a tuple |
| `Execution.PipelineAppend` | dq/execution.py:69-89 | one more item runs on the previous stage's output: a device result is passed on as a one-element input, and a block's tuple as it is; the pipeline returns the bare value after a device and the tuple after a block |
| `Tee.Greenlet.constructor` | dq/piping/tee.py:37 | a consumer's greenlet starts unstarted and has received nothing |
| `Tee.Greenlet.Start` | dq/piping/tee.py:38-39 | the first switch starts the consumer without handing it an item |
| `Tee.Greenlet.Resume` | dq/piping/tee.py:28-31 | a consumer's pending `next()` returns exactly the value switched in |
| `Tee.Spawn` | dq/piping/tee.py:37 | one fresh, distinct, unstarted greenlet per consumer, in declared order |
| `Tee.StartAll` | dq/piping/tee.py:38-39 | every greenlet is started, in declared order, and none receives an item |
| `Tee.DeliverToAll` | dq/piping/tee.py:41-42 | the item is handed to every consumer once, in declared order |
| `Tee.DispatchStream` | dq/piping/tee.py:36-42 | afterwards every consumer has received exactly the whole stream, and the trace is starts followed by one round per item |
| `Tee.EveryConsumerGetsTheStream` | dq/piping/tee.py:40-42 | each consumer is handed every item exactly once, in stream order, and the producer is run through the stream once, for any number of consumers, none included |
| `Tee.StartsFirst` | dq/piping/tee.py:37-39 | all consumers are started, in declared order, before the producer is first advanced, and none is started again |
| `Tee.ItemMajor` | dq/piping/tee.py:40-42 | the trace is item-major and consumer-minor: item `i` is pulled and then handed to consumers 0..n-1 before item `i+1` is pulled |
| `Tee.TraceEnd` | dq/piping/tee.py:40-42 | after the last item no consumer is resumed again |
| `Tee.TraceOutputs` | dq/piping/tee.py:40-42 | what the consumers see, in order, is each item seen by consumers 0..n-1 in turn |
| `Tee.ThreeConsumersFiveItems` | dq/tests/unit/test_tee.py:10-34 | five items and three recording consumers give the record (1,0),(2,0),(3,0),(1,1),... (consumers counted from 0) |
| `Filtering.Filter` | dq/piping/filter.py:8-11 | every item yielded satisfies the condition, and the output is no longer than the input |
| `Filtering.FilterPicks` | dq/piping/filter.py:8-11 | the output is the input at increasing positions, and a position is kept exactly when its item satisfies the condition |
| `Filtering.FilterMembers` | dq/piping/filter.py:8-11 | an item is yielded exactly when it is in the input and satisfies the condition |
| `Filtering.FilterCounts` | dq/piping/filter.py:8-11 | every occurrence of a satisfying item is kept and no other |
| `Filtering.UpdateItem` | dq/piping/filter.py:20-22 | for one item, each keyword sets its field to the expression evaluated on the item as updated so far, and the item is yielded once per keyword |
| `Filtering.Transform` | dq/piping/filter.py:18-22 | the output is each input item repeated once per keyword, in stream order, and each item object is transformed once per occurrence, in place |
| `Filtering.RepeatLength` | dq/piping/filter.py:18-22 | `Transform` yields the stream length times the keyword count items: nothing with no keywords, and the stream itself with one |
| `Filtering.OnlyNamedFieldsChange` | dq/piping/filter.py:21 | only keyword-named fields change: other fields keep their presence and value, and every named field is present |
| `Filtering.FieldValue` | dq/piping/filter.py:20-21 | the field of keyword `j` ends up holding its expression evaluated on the item as updated by the keywords before `j` |
| `Filtering.TransformedTwice` | dq/piping/filter.py:18-22 | an item occurring twice is transformed twice, the second time on its already transformed fields |
| `Objects.NewDevice` | dq/objects.py:101-123 | `Device(*args, **keywords)` keeps the arguments and keywords as given, with no name, and executing the device raises `NotImplementedError` whatever it is given |
| `Objects.NewGenericDevice` | dq/objects.py:126-130 | `GenericDevice` takes its name from the first positional argument and keeps the others, in order, as `args`; with no arguments it raises `IndexError` |
| `Objects.GetDevice` | dq/objects.py:137-141 | a registered name constructs the registered class from the arguments; any other name gives a generic device with that name and the arguments |
| `Objects.Execute` | dq/objects.py:59-123 | executing a node returns what the specification says for its class |
| `Objects.ExecutePipeline` | dq/objects.py:59-62 | the loop `args = item.execute(*args),` followed by `args[0]` computes the specified pipeline result |
| `Objects.ErrorStops` | dq/objects.py:59-62 | an item that raises ends the pipeline with that exception |
| `Objects.SoleArgument` | dq/objects.py:59-62 | after the first item, each item is called with exactly one argument, the previous item's result |
| `Objects.LastResult` | dq/objects.py:59-62 | a non-empty pipeline returns its last item's result, or the first error an item raised |
| `Objects.EmptyPipeline` | dq/objects.py:59-62 | with no items the pipeline returns its first call argument, and with no arguments either it raises `IndexError` |
| `Objects.BlockAndDeviceExecute` | dq/objects.py:70-123 | `PipelineBlock.execute` returns None, and a plain or generic device raises `NotImplementedError` |
| `Objects.StagesSucceed` | dq/objects.py:59-62 | the first `k` items all get through exactly when each of them is reached and returns |

## Left out

- PLY's table generation, its LALR driver and the `DQ_DEBUG` switches (`dq/lexer.py:128-129`, `dq/parser.py:164-165`). The scan rules are modelled directly, and the grammar as a recursive-descent parser that fails at the same token and reads the token after a device before building it, as the LALR parser's reduction of `device` does.
- The PLY lexer object is one module-level singleton whose `lineno` and state carry over from one input to the next. The model starts each input fresh, at line 1.
- Python's `ast.parse` of a device text is a given function (`split`) from the text to its call shape. Python's expression grammar is not re-implemented.
- `compile` and `eval` are not modelled. An expression is an opaque node; compiling gives a code object recording its node and name; evaluation is a function supplied by the caller.
- The repr of a Python expression node is supplied by the caller, and so is the iteration order of a keyword dictionary in `Device.__repr__`. The `dq/objects.py` reprs are not modelled, because no operation of the core uses them. They differ from those of `dq/ast.py` in one respect: the objects `Device.__repr__` starts from an empty argument list (`dq/objects.py:112`), so the device name never appears in it, not even a `GenericDevice`'s name.
- The parser builds values (`Ast.Pipeline`, `Ast.Item`), not `WrappedList` objects. Appending in place is modelled once, by `Ast.WrappedList.Append`.
- Python's `assert isinstance(...)` checks (`dq/parser.py:141-144`, `dq/execution.py:56,70,76,83`) are not modelled, because the datatypes guarantee them. The parser's `assert`s on the call shape become the `NotACall` error.
- `execute` normalises `args=None` to `()`. The model's inputs are always a sequence.
- Greenlet switching and `itertools.tee` buffering are not modelled. Streams are finite sequences, a tee copy is a tagged value, and consumers are modelled by what they receive.
- `inspect.isgenerator` is the `Generator` tag of a value.
- Laziness is not modelled. `Filter` and `Transform` are eager, so the interleaving of their steps with a downstream consumer is not captured.
- Tee.DispatchStream: returns its greenlets and the trace, where `dispatch_stream` returns None.
- Tee.DispatchStream: consumers are assumed to loop on their stream for ever, as the test's consumers do. A consumer that returns after k items is a dead greenlet; later switches to it come straight back (`dq/piping/tee.py:41-42`), so in the source it sees only a prefix of the stream, while the model says every consumer receives the whole stream.
- Execution.BranchInputShape: the copies `(arg,) * _count` (`dq/execution.py:49`) are one shared object, and the model does not capture that. When the shared value is a single-pass iterator (a tee copy, or a tuple holding a generator), the branches consume the same iterator, so what one branch reads the others never see. The model gives every branch its own copy with all the items. For example, in `X() | { { A(), B() }, C() }` where X yields a generator, A and B share one tee copy in the source, but each receives every item in the model.
- Exceptions raised inside a device, a consumer, a condition or an expression are not modelled. Devices and expressions are total functions.
- The mutable `DEVICES_REGISTER` of both modules is a parameter (a map from name to class).
- `dq/piping/base.py` and the CSV, JSON and XML devices are out of scope, because they are file I/O.
