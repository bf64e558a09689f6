/**
 * The dq lexer (dq/lexer.py): PLY rules for the initial state and for the
 * exclusive `pyargs` state that captures a device's argument list verbatim.
 *
 * The rules are pure functions from the scanner position and the lexer
 * fields the token actions touch (the PLY state, `level`, `code_start`,
 * `lineno`) to the next position and fields; `Scan` is the whole run, and
 * `Tokenize` is the driver loop that advances `lexpos`.
 */
module Lexer {
  import opened Wrappers

  datatype Kind = LBRACE | RBRACE | COMMA | PIPE | SYMBOL | PYARGS

  /** A PLY token: its type, value, line number and `lexpos`. */
  datatype Token = Token(kind: Kind, text: string, lineno: int, lexpos: nat)

  /**
   * A token as the rules find it: its value is the input between `start`
   * and `end`.
   */
  datatype Lexeme = Lexeme(kind: Kind, start: nat, end: nat, lineno: int, lexpos: nat)

  /** `LexerError("Unknown text ...")`: where scanning stopped and the rest of the input. */
  datatype LexerError = LexerError(lexpos: nat, text: string)

  /** The PLY lexer state: `INITIAL` or the exclusive `pyargs` state. */
  datatype Mode = Initial | PyArgs

  /** The lexer fields written by the token actions. */
  datatype LexState = LexState(mode: Mode, level: int, codeStart: nat, lineno: int)

  /** A freshly built lexer: initial state, line 1. */
  const Fresh := LexState(Initial, 0, 0, 1)

  // ---------------------------------------------------------------------
  // Character classes of the token regular expressions
  // ---------------------------------------------------------------------

  predicate IsIdentStart(c: char) { ('a' <= c <= 'z') || ('A' <= c <= 'Z') || c == '_' }

  predicate IsIdentChar(c: char) { IsIdentStart(c) || ('0' <= c <= '9') }

  predicate IsQuote(c: char) { c == '"' || c == '\'' }

  /** Characters of a `PYEXPR` run: anything but parentheses and quotes. */
  predicate IsExprChar(c: char) { c != '(' && c != ')' && !IsQuote(c) }

  /** `[a-zA-Z_][a-zA-Z_0-9]*` */
  predicate IsIdentifier(s: string) {
    |s| > 0 && IsIdentStart(s[0]) && forall k :: 1 <= k < |s| ==> IsIdentChar(s[k])
  }

  /** The single-character token rules `t_LBRACE`, `t_RBRACE`, `t_COMMA`, `t_PIPE`. */
  function StructuralKind(c: char): Option<Kind> {
    if c == '{' then Some(LBRACE)
    else if c == '}' then Some(RBRACE)
    else if c == ',' then Some(COMMA)
    else if c == '|' then Some(PIPE)
    else None
  }

  /** Number of occurrences of `c` in `data[i..j]` (`str.count` on that slice). */
  function Count(data: string, i: nat, j: nat, c: char): nat
    requires i <= j <= |data|
    decreases j - i
  {
    if i == j then 0 else (if data[i] == c then 1 else 0) + Count(data, i + 1, j, c)
  }

  // ---------------------------------------------------------------------
  // Regular-expression matches
  // ---------------------------------------------------------------------

  /** The character classes matched by the run rules. */
  datatype CharClass = Newlines | NonNewlines | IdentChars | ExprChars

  predicate InClass(c: char, k: CharClass) {
    match k
    case Newlines => c == '\n'
    case NonNewlines => c != '\n'
    case IdentChars => IsIdentChar(c)
    case ExprChars => IsExprChar(c)
  }

  /** End of the longest run of characters of class `k` that starts at `i`. */
  function RunEnd(data: string, i: nat, k: CharClass): (e: nat)
    requires i <= |data|
    ensures i <= e <= |data|
    decreases |data| - i
  {
    if i < |data| && InClass(data[i], k) then RunEnd(data, i + 1, k) else i
  }

  /** The run `RunEnd` finds is made of characters of class `k` and cannot be extended. */
  lemma {:induction false} RunEndMaximal(data: string, i: nat, k: CharClass)
    requires i <= |data|
    ensures forall j :: i <= j < RunEnd(data, i, k) ==> InClass(data[j], k)
    ensures RunEnd(data, i, k) == |data| || !InClass(data[RunEnd(data, i, k)], k)
    decreases |data| - i
  {
    if i < |data| && InClass(data[i], k) {
      RunEndMaximal(data, i + 1, k);
    }
  }

  /**
   * The shortest match of `q([^\\\n]|\\.)*?q` whose opening quote `q` sits
   * just before `i`: the position after the closing quote, or None when a
   * newline, a backslash before a newline, or the end of input comes first.
   */
  function StringEnd(data: string, i: nat, q: char): (r: Option<nat>)
    requires i <= |data|
    requires q != '\\' && q != '\n'
    ensures r.Some? ==> i < r.value <= |data| && data[r.value - 1] == q
    decreases |data| - i
  {
    if i == |data| then None
    else if data[i] == q then Some(i + 1)
    else if data[i] == '\n' then None
    else if data[i] == '\\' then
      (if i + 1 < |data| && data[i + 1] != '\n' then StringEnd(data, i + 2, q) else None)
    else StringEnd(data, i + 1, q)
  }

  // ---------------------------------------------------------------------
  // Token rules
  // ---------------------------------------------------------------------

  /** What one match does: maybe a token, the new position and fields; or `t_error`. */
  datatype Action = Emit(token: Option<Lexeme>, next: nat, st: LexState) | Fail(at: nat)

  /** The fields the rules keep consistent: inside a capture, `code_start` follows its `(`. */
  predicate Inv(data: string, pos: nat, st: LexState) {
    && pos <= |data|
    && (st.mode == PyArgs ==> 1 <= st.codeStart <= pos && data[st.codeStart - 1] == '(' && st.level >= 1)
  }

  /** Initial state: `t_ignore`, `t_newline`, `t_COMMENT`, `t_pyargs`, `t_SYMBOL`, the symbol rules, `t_error`. */
  function InitialRule(data: string, pos: nat, st: LexState): (a: Action)
    requires Inv(data, pos, st) && pos < |data| && st.mode == Initial
    ensures a.Emit? ==> pos < a.next <= |data| && Inv(data, a.next, a.st)
  {
    var c := data[pos];
    if c == ' ' || c == '\t' then
      Emit(None, pos + 1, st)
    else if c == '\n' then
      var e := RunEnd(data, pos, Newlines);
      Emit(None, e, st.(lineno := st.lineno + (e - pos)))
    else if c == '#' then
      Emit(None, RunEnd(data, pos, NonNewlines), st)
    else if c == '(' then
      Emit(None, pos + 1, st.(mode := PyArgs, level := 1, codeStart := pos + 1))
    else if IsIdentStart(c) then
      var e := RunEnd(data, pos + 1, IdentChars);
      Emit(Some(Lexeme(SYMBOL, pos, e, st.lineno, pos)), e, st)
    else if StructuralKind(c).Some? then
      Emit(Some(Lexeme(StructuralKind(c).value, pos, pos + 1, st.lineno, pos)), pos + 1, st)
    else
      Fail(pos)
  }

  /** `pyargs` state: `t_pyargs_LPAREN`, `t_pyargs_RPAREN`, `t_pyargs_STRING`, `t_pyargs_PYEXPR`, `t_pyargs_error`. */
  function PyArgsRule(data: string, pos: nat, st: LexState): (a: Action)
    requires Inv(data, pos, st) && pos < |data| && st.mode == PyArgs
    ensures a.Emit? && pos < a.next <= |data| && Inv(data, a.next, a.st)
  {
    var c := data[pos];
    if c == '(' then
      Emit(None, pos + 1, st.(level := st.level + 1))
    else if c == ')' then
      if st.level - 1 == 0 then
        Emit(Some(Lexeme(PYARGS, st.codeStart - 1, pos + 1, st.lineno, pos)), pos + 1,
             st.(mode := Initial, level := 0, lineno := st.lineno + Count(data, st.codeStart - 1, pos + 1, '\n')))
      else
        Emit(None, pos + 1, st.(level := st.level - 1))
    else if IsQuote(c) then
      match StringEnd(data, pos + 1, c)
      case Some(e) => Emit(None, e, st)
      case None => Emit(None, pos + 1, st)
    else
      Emit(None, RunEnd(data, pos, ExprChars), st)
  }

  function Step(data: string, pos: nat, st: LexState): (a: Action)
    requires Inv(data, pos, st) && pos < |data|
    ensures a.Emit? ==> pos < a.next <= |data| && Inv(data, a.next, a.st)
    ensures a.Emit? && a.token.Some? ==> a.token.value.start <= a.token.value.end == a.next
    ensures a.Fail? ==> st.mode == Initial && a.at == pos
  {
    if st.mode == Initial then InitialRule(data, pos, st) else PyArgsRule(data, pos, st)
  }

  // ---------------------------------------------------------------------
  // The whole run
  // ---------------------------------------------------------------------

  /**
   * The tokens produced before scanning stopped, the position of the
   * character `t_error` rejected if any, and the final fields.
   */
  datatype LexOutcome = LexOutcome(tokens: seq<Lexeme>, error: Option<nat>, final: LexState)

  function Prepend(ts: seq<Lexeme>, o: LexOutcome): LexOutcome {
    o.(tokens := ts + o.tokens)
  }

  function TokenList(t: Option<Lexeme>): seq<Lexeme> {
    if t.Some? then [t.value] else []
  }

  /** Scanning `data` from `pos` with fields `st` until the end of input or an error. */
  function Scan(data: string, pos: nat, st: LexState): (o: LexOutcome)
    requires Inv(data, pos, st)
    ensures o.error.Some? ==> pos <= o.error.value < |data|
    decreases |data| - pos, 1
  {
    if pos == |data| then LexOutcome([], None, st) else Resume(data, pos, st)
  }

  /** Scanning at `pos` before the end of input: apply the rule that matches there and go on. */
  function Resume(data: string, pos: nat, st: LexState): (o: LexOutcome)
    requires Inv(data, pos, st) && pos < |data|
    ensures o.error.Some? ==> pos <= o.error.value < |data|
    decreases |data| - pos, 0
  {
    match Step(data, pos, st)
    case Fail(at) => LexOutcome([], Some(at), st)
    case Emit(t, next, st') => Prepend(TokenList(t), Scan(data, next, st'))
  }

  /** One unfolding of `Scan`. */
  lemma ScanUnfold(data: string, pos: nat, st: LexState)
    requires Inv(data, pos, st) && pos < |data|
    ensures Scan(data, pos, st) == match Step(data, pos, st)
      case Fail(at) => LexOutcome([], Some(at), st)
      case Emit(t, next, st') => Prepend(TokenList(t), Scan(data, next, st'))
  {
    assert Scan(data, pos, st) == Resume(data, pos, st);
  }

  lemma PrependAppend(ts: seq<Lexeme>, t: Option<Lexeme>, o: LexOutcome)
    ensures Prepend(ts, Prepend(TokenList(t), o)) == Prepend(ts + TokenList(t), o)
  {
    assert ts + (TokenList(t) + o.tokens) == (ts + TokenList(t)) + o.tokens;
  }

  /** Every lexeme's value lies inside the input. */
  predicate InBounds(data: string, ls: seq<Lexeme>) {
    forall k :: 0 <= k < |ls| ==> ls[k].start <= ls[k].end <= |data|
  }

  function TokenOf(data: string, l: Lexeme): (t: Token)
    requires l.start <= l.end <= |data|
    ensures |t.text| == l.end - l.start && t.kind == l.kind && t.lexpos == l.lexpos
  {
    Token(l.kind, data[l.start..l.end], l.lineno, l.lexpos)
  }

  /** The tokens the lexemes stand for. */
  function Tokens(data: string, ls: seq<Lexeme>): (ts: seq<Token>)
    requires InBounds(data, ls)
    ensures |ts| == |ls| && forall k :: 0 <= k < |ls| ==> ts[k] == TokenOf(data, ls[k])
  {
    seq(|ls|, k requires 0 <= k < |ls| => TokenOf(data, ls[k]))
  }

  /** Scanning only produces lexemes inside the input. */
  lemma {:induction false} ScanInBounds(data: string, pos: nat, st: LexState)
    requires Inv(data, pos, st)
    ensures InBounds(data, Scan(data, pos, st).tokens)
    decreases |data| - pos
  {
    if pos < |data| {
      ScanUnfold(data, pos, st);
      match Step(data, pos, st)
      case Fail(_) =>
      case Emit(t, next, st') =>
        ScanInBounds(data, next, st');
        var rest := Scan(data, next, st').tokens;
        forall k | 0 <= k < |TokenList(t) + rest|
          ensures (TokenList(t) + rest)[k].start <= (TokenList(t) + rest)[k].end <= |data|
        {
          if k >= |TokenList(t)| {
            assert (TokenList(t) + rest)[k] == rest[k - |TokenList(t)|];
          }
        }
    }
  }

  /**
   * `list(lexer)` after `lexer.input(data)` on a fresh lexer: the tokens, or
   * the `LexerError` raised at the first character no rule matches, which
   * carries the rest of the input.
   */
  function Lex(data: string): Result<seq<Token>, LexerError> {
    var o := Scan(data, 0, Fresh);
    ScanInBounds(data, 0, Fresh);
    if o.error.Some? then Err(LexerError(o.error.value, data[o.error.value..])) else Ok(Tokens(data, o.tokens))
  }

  lemma TokensAppend(data: string, ls: seq<Lexeme>, l: Lexeme)
    requires InBounds(data, ls) && l.start <= l.end <= |data|
    ensures InBounds(data, ls + [l])
    ensures Tokens(data, ls + [l]) == Tokens(data, ls) + [TokenOf(data, l)]
  {
    assert (ls + [l])[|ls|] == l;
    forall k | 0 <= k < |ls|
      ensures (ls + [l])[k] == ls[k]
    {
    }
  }

  /**
   * The scanning loop: one rule per iteration, the token actions updating
   * the state, `level`, `code_start` and `lineno` in place.
   */
  method Tokenize(data: string) returns (r: Result<seq<Token>, LexerError>)
    ensures r == Lex(data)
  {
    var pos: nat := 0;
    var mode := Initial;
    var level := 0;
    var codeStart: nat := 0;
    var lineno := 1;
    var tokens: seq<Token> := [];
    ghost var found: seq<Lexeme> := [];
    while pos < |data|
      invariant Inv(data, pos, LexState(mode, level, codeStart, lineno))
      invariant Scan(data, 0, Fresh) == Prepend(found, Scan(data, pos, LexState(mode, level, codeStart, lineno)))
      invariant InBounds(data, found) && tokens == Tokens(data, found)
      decreases |data| - pos
    {
      ghost var st := LexState(mode, level, codeStart, lineno);
      ghost var a := Step(data, pos, st);
      ghost var emitted: Option<Lexeme> := None;
      ghost var found0 := found;
      ScanUnfold(data, pos, st);
      var c := data[pos];
      if mode == Initial {
        if c == ' ' || c == '\t' {
          pos := pos + 1;
        } else if c == '\n' {
          var e := RunEnd(data, pos, Newlines);
          lineno := lineno + (e - pos);
          pos := e;
        } else if c == '#' {
          pos := RunEnd(data, pos, NonNewlines);
        } else if c == '(' {
          pos := pos + 1;
          codeStart := pos;
          level := 1;
          mode := PyArgs;
        } else if IsIdentStart(c) {
          var e := RunEnd(data, pos + 1, IdentChars);
          var l := Lexeme(SYMBOL, pos, e, lineno, pos);
          emitted := Some(l);
          TokensAppend(data, found, l);
          tokens, found := tokens + [TokenOf(data, l)], found + [l];
          pos := e;
        } else if StructuralKind(c).Some? {
          var l := Lexeme(StructuralKind(c).value, pos, pos + 1, lineno, pos);
          emitted := Some(l);
          TokensAppend(data, found, l);
          tokens, found := tokens + [TokenOf(data, l)], found + [l];
          pos := pos + 1;
        } else {
          assert a == Fail(pos);
          return Err(LexerError(pos, data[pos..]));
        }
      } else {
        if c == '(' {
          level := level + 1;
          pos := pos + 1;
        } else if c == ')' {
          level := level - 1;
          if level == 0 {
            var l := Lexeme(PYARGS, codeStart - 1, pos + 1, lineno, pos);
            emitted := Some(l);
            TokensAppend(data, found, l);
            tokens, found := tokens + [TokenOf(data, l)], found + [l];
            lineno := lineno + Count(data, codeStart - 1, pos + 1, '\n');
            mode := Initial;
          }
          pos := pos + 1;
        } else if IsQuote(c) {
          var e := StringEnd(data, pos + 1, c);
          pos := if e.Some? then e.value else pos + 1;
        } else {
          pos := RunEnd(data, pos, ExprChars);
        }
      }
      assert a == Emit(emitted, pos, LexState(mode, level, codeStart, lineno));
      assert found == found0 + TokenList(emitted);
      PrependAppend(found0, emitted, Scan(data, pos, LexState(mode, level, codeStart, lineno)));
    }
    assert found + [] == found;
    return Ok(tokens);
  }
}
