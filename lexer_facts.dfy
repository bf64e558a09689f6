/**
 * Properties of the dq lexer model: how the argument capture treats
 * nesting and quoted literals, where tokens come from, line counting,
 * and when scanning stops with an error.
 */
module LexerFacts {
  import opened Wrappers
  import opened Lexer

  // ---------------------------------------------------------------------
  // Counting and runs
  // ---------------------------------------------------------------------

  lemma {:induction false} CountSplit(data: string, i: nat, j: nat, k: nat, c: char)
    requires i <= j <= k <= |data|
    ensures Count(data, i, k, c) == Count(data, i, j, c) + Count(data, j, k, c)
    decreases j - i
  {
    if i < j {
      CountSplit(data, i + 1, j, k, c);
    }
  }

  /** A range none of whose characters is `c` counts no `c`; a range of `c` counts its length. */
  lemma {:induction false} CountRun(data: string, i: nat, j: nat, c: char)
    requires i <= j <= |data|
    ensures (forall k :: i <= k < j ==> data[k] != c) ==> Count(data, i, j, c) == 0
    ensures (forall k :: i <= k < j ==> data[k] == c) ==> Count(data, i, j, c) == j - i
    decreases j - i
  {
    if i < j {
      CountRun(data, i + 1, j, c);
    }
  }

  /** `RunEnd` is the one position that ends a maximal run. */
  lemma {:induction false} RunEndIs(data: string, i: nat, k: CharClass, e: nat)
    requires i <= e <= |data|
    requires forall j :: i <= j < e ==> InClass(data[j], k)
    requires e == |data| || !InClass(data[e], k)
    ensures RunEnd(data, i, k) == e
    decreases e - i
  {
    if i < e {
      RunEndIs(data, i + 1, k, e);
    }
  }

  // ---------------------------------------------------------------------
  // Quoted literals
  // ---------------------------------------------------------------------

  /**
   * `s[i..j]` is the body of a literal closed by `q`: plain characters
   * other than `q`, a backslash and a newline, or a backslash followed by
   * any character but a newline.
   */
  predicate ValidRange(s: string, i: nat, j: nat, q: char)
    requires i <= j <= |s|
    decreases j - i
  {
    || i == j
    || (s[i] != q && s[i] != '\\' && s[i] != '\n' && ValidRange(s, i + 1, j, q))
    || (i + 1 < j && s[i] == '\\' && s[i + 1] != '\n' && ValidRange(s, i + 2, j, q))
  }

  predicate ValidBody(body: string, q: char) {
    ValidRange(body, 0, |body|, q)
  }

  /**
   * The string rule ends a literal exactly after a closing quote whose body
   * is valid, so parentheses inside a literal never reach the depth counter.
   */
  lemma {:induction false} StringEndIff(data: string, i: nat, q: char, e: nat)
    requires q != '\\' && q != '\n'
    requires i < e <= |data|
    ensures StringEnd(data, i, q) == Some(e) <==> data[e - 1] == q && ValidRange(data, i, e - 1, q)
    decreases e - i
  {
    if i < e - 1 {
      if data[i] == '\\' {
        if i + 1 < e - 1 && data[i + 1] != '\n' {
          StringEndIff(data, i + 2, q, e);
        }
      } else if data[i] != q && data[i] != '\n' {
        StringEndIff(data, i + 1, q, e);
      }
    }
  }

  /** Validity of a literal body only depends on its characters. */
  lemma {:induction false} ValidRangeShift(s: string, i: nat, j: nat, t: string, off: nat, q: char)
    requires i <= j <= |s| && j + off <= |t|
    requires forall k :: i <= k < j ==> t[k + off] == s[k]
    ensures ValidRange(s, i, j, q) == ValidRange(t, i + off, j + off, q)
    decreases j - i
  {
    if i < j {
      ValidRangeShift(s, i + 1, j, t, off, q);
      if i + 1 < j {
        ValidRangeShift(s, i + 2, j, t, off, q);
      }
    }
  }

  // ---------------------------------------------------------------------
  // The argument capture
  // ---------------------------------------------------------------------

  /**
   * Reference grammar for the text of an argument list: characters the
   * expression rule consumes, complete quoted literals, and balanced
   * parenthesised groups.
   */
  datatype ArgPiece = Plain(c: char) | Quoted(q: char, body: string) | Group(inner: Pieces)
  datatype Pieces = Nil | Cons(head: ArgPiece, tail: Pieces)

  function PieceText(p: ArgPiece): string
    decreases p
  {
    match p
    case Plain(c) => [c]
    case Quoted(q, body) => [q] + body + [q]
    case Group(inner) => "(" + Flatten(inner) + ")"
  }

  function Flatten(ps: Pieces): string
    decreases ps
  {
    match ps
    case Nil => []
    case Cons(h, t) => PieceText(h) + Flatten(t)
  }

  function PieceWidth(p: ArgPiece): nat
    decreases p
  {
    match p
    case Plain(_) => 1
    case Quoted(_, body) => |body| + 2
    case Group(inner) => Width(inner) + 2
  }

  function Width(ps: Pieces): nat
    decreases ps
  {
    match ps
    case Nil => 0
    case Cons(h, t) => PieceWidth(h) + Width(t)
  }

  predicate WellFormedPiece(p: ArgPiece)
    decreases p
  {
    match p
    case Plain(c) => IsExprChar(c)
    case Quoted(q, body) => IsQuote(q) && ValidBody(body, q)
    case Group(inner) => WellFormed(inner)
  }

  predicate WellFormed(ps: Pieces)
    decreases ps
  {
    match ps
    case Nil => true
    case Cons(h, t) => WellFormedPiece(h) && WellFormed(t)
  }

  /** `data` holds `text` at `pos`. */
  predicate Spells(data: string, pos: nat, text: string) {
    pos + |text| <= |data| && forall k :: 0 <= k < |text| ==> data[pos + k] == text[k]
  }

  /** `data` holds the piece `p` at `pos`, stated character by character. */
  predicate PieceAt(data: string, pos: nat, p: ArgPiece)
    decreases p
  {
    && pos + PieceWidth(p) <= |data|
    && match p
       case Plain(c) => data[pos] == c
       case Quoted(q, body) => data[pos] == q && data[pos + |body| + 1] == q && Spells(data, pos + 1, body)
       case Group(inner) => data[pos] == '(' && PiecesAt(data, pos + 1, inner) && data[pos + Width(inner) + 1] == ')'
  }

  predicate PiecesAt(data: string, pos: nat, ps: Pieces)
    decreases ps
  {
    && pos + Width(ps) <= |data|
    && match ps
       case Nil => true
       case Cons(h, t) => PieceAt(data, pos, h) && PiecesAt(data, pos + PieceWidth(h), t)
  }

  lemma {:induction false} WidthIsLength(ps: Pieces)
    ensures |Flatten(ps)| == Width(ps)
    decreases ps
  {
    match ps
    case Nil =>
    case Cons(h, t) =>
      PieceWidthIsLength(h);
      WidthIsLength(t);
  }

  lemma {:induction false} PieceWidthIsLength(p: ArgPiece)
    ensures |PieceText(p)| == PieceWidth(p)
    decreases p
  {
    match p
    case Plain(_) =>
    case Quoted(_, _) =>
    case Group(inner) => WidthIsLength(inner);
  }

  lemma SpellsConcat(data: string, pos: nat, a: string, b: string)
    requires Spells(data, pos, a + b)
    ensures Spells(data, pos, a) && Spells(data, pos + |a|, b)
  {
    forall k | 0 <= k < |a|
      ensures data[pos + k] == a[k]
    {
      assert (a + b)[k] == a[k];
    }
    forall k | 0 <= k < |b|
      ensures data[pos + |a| + k] == b[k]
    {
      assert (a + b)[|a| + k] == b[k];
    }
  }

  lemma SliceSpells(data: string, pos: nat, text: string)
    requires pos + |text| <= |data| && data[pos..pos + |text|] == text
    ensures Spells(data, pos, text)
  {
    forall k | 0 <= k < |text|
      ensures data[pos + k] == text[k]
    {
      assert data[pos..pos + |text|][k] == data[pos + k];
    }
  }

  /** Text that spells a sequence of pieces lays each piece out in turn. */
  lemma {:induction false} SpelledPieces(data: string, pos: nat, ps: Pieces)
    requires Spells(data, pos, Flatten(ps))
    ensures PiecesAt(data, pos, ps)
    decreases ps
  {
    WidthIsLength(ps);
    match ps
    case Nil =>
    case Cons(h, t) =>
      SpellsConcat(data, pos, PieceText(h), Flatten(t));
      PieceWidthIsLength(h);
      SpelledPiece(data, pos, h);
      SpelledPieces(data, pos + PieceWidth(h), t);
  }

  lemma {:induction false} SpelledPiece(data: string, pos: nat, p: ArgPiece)
    requires Spells(data, pos, PieceText(p))
    ensures PieceAt(data, pos, p)
    decreases p
  {
    PieceWidthIsLength(p);
    match p
    case Plain(c) =>
      assert PieceText(p)[0] == c;
    case Quoted(q, body) =>
      SpellsConcat(data, pos, [q] + body, [q]);
      SpellsConcat(data, pos, [q], body);
      assert ([q] + body)[0] == q;
    case Group(inner) =>
      var f := Flatten(inner);
      SpellsConcat(data, pos, "(" + f, ")");
      SpellsConcat(data, pos, "(", f);
      assert ("(" + f)[0] == '(';
      assert data[pos + |"(" + f|] == ")"[0];
      WidthIsLength(inner);
      SpelledPieces(data, pos + 1, inner);
  }

  // ---------------------------------------------------------------------
  // One rule at a time
  // ---------------------------------------------------------------------

  /** Scanning from `pos` skips to `next` without a token. */
  predicate Skips(data: string, pos: nat, st: LexState, next: nat, st': LexState)
    requires Inv(data, pos, st) && Inv(data, next, st')
  {
    Scan(data, pos, st) == Scan(data, next, st')
  }

  /** Scanning from `pos` produces the lexeme `l` and goes on at `next`. */
  predicate Emits(data: string, pos: nat, st: LexState, l: Lexeme, next: nat, st': LexState)
    requires Inv(data, pos, st) && Inv(data, next, st')
  {
    Scan(data, pos, st) == Prepend([l], Scan(data, next, st'))
  }

  /** A character no rule of the initial state matches. */
  predicate Illegal(c: char) {
    !(c == ' ' || c == '\t' || c == '\n' || c == '#' || c == '(' || IsIdentStart(c) || StructuralKind(c).Some?)
  }

  /** A blank or a tab is skipped. */
  lemma ScanBlank(data: string, pos: nat, st: LexState)
    requires Inv(data, pos, st) && st.mode == Initial && pos < |data| && (data[pos] == ' ' || data[pos] == '\t')
    ensures Inv(data, pos + 1, st) && Skips(data, pos, st, pos + 1, st)
  {
  }

  /** A maximal run of newlines is skipped and advances `lineno` by its length. */
  lemma ScanNewlines(data: string, pos: nat, st: LexState, e: nat)
    requires Inv(data, pos, st) && st.mode == Initial && pos < e <= |data|
    requires forall k :: pos <= k < e ==> data[k] == '\n'
    requires e == |data| || data[e] != '\n'
    ensures Count(data, pos, e, '\n') == e - pos
    ensures Inv(data, e, st) && Skips(data, pos, st, e, st.(lineno := st.lineno + Count(data, pos, e, '\n')))
  {
    RunEndIs(data, pos, Newlines, e);
    CountRun(data, pos, e, '\n');
  }

  /** A comment runs to the end of the line, which it leaves in place, and is skipped. */
  lemma ScanComment(data: string, pos: nat, st: LexState, e: nat)
    requires Inv(data, pos, st) && st.mode == Initial && pos < e <= |data| && data[pos] == '#'
    requires forall k :: pos <= k < e ==> data[k] != '\n'
    requires e == |data| || data[e] == '\n'
    ensures Inv(data, e, st) && Skips(data, pos, st, e, st)
  {
    RunEndIs(data, pos, NonNewlines, e);
  }

  /** A maximal identifier is one SYMBOL token. */
  lemma ScanSymbol(data: string, pos: nat, st: LexState, e: nat)
    requires Inv(data, pos, st) && st.mode == Initial && pos < e <= |data|
    requires IsIdentStart(data[pos]) && forall k :: pos < k < e ==> IsIdentChar(data[k])
    requires e == |data| || !IsIdentChar(data[e])
    ensures Inv(data, e, st) && Emits(data, pos, st, Lexeme(SYMBOL, pos, e, st.lineno, pos), e, st)
    ensures IsIdentifier(TokenOf(data, Lexeme(SYMBOL, pos, e, st.lineno, pos)).text)
  {
    RunEndIs(data, pos + 1, IdentChars, e);
    SymbolText(data, pos, e);
  }

  lemma SymbolText(data: string, pos: nat, e: nat)
    requires pos < e <= |data|
    requires IsIdentStart(data[pos]) && forall k :: pos < k < e ==> IsIdentChar(data[k])
    ensures IsIdentifier(data[pos..e])
  {
    assert data[pos..e][0] == data[pos];
    forall k | 1 <= k < e - pos
      ensures IsIdentChar(data[pos..e][k])
    {
      assert data[pos..e][k] == data[pos + k];
    }
  }

  /** Each of `{ } , |` is one token of its kind whose text is that character. */
  lemma ScanStructural(data: string, pos: nat, st: LexState)
    requires Inv(data, pos, st) && st.mode == Initial && pos < |data| && StructuralKind(data[pos]).Some?
    ensures var l := Lexeme(StructuralKind(data[pos]).value, pos, pos + 1, st.lineno, pos);
      && Inv(data, pos + 1, st) && Emits(data, pos, st, l, pos + 1, st)
      && TokenOf(data, l).text == [data[pos]]
  {
    var l := Lexeme(StructuralKind(data[pos]).value, pos, pos + 1, st.lineno, pos);
    OneCharText(data, l);
  }

  lemma OneCharText(data: string, l: Lexeme)
    requires l.start < |data| && l.end == l.start + 1
    ensures TokenOf(data, l).text == [data[l.start]]
  {
  }

  /** In the initial state an illegal character stops the scan with an error at its position. */
  lemma ScanIllegal(data: string, pos: nat, st: LexState)
    requires Inv(data, pos, st) && st.mode == Initial && pos < |data| && Illegal(data[pos])
    ensures Scan(data, pos, st) == LexOutcome([], Some(pos), st)
  {
  }

  // One step of the capture state, for each kind of character.

  lemma ScanNestedOpen(data: string, pos: nat, st: LexState)
    requires Inv(data, pos, st) && st.mode == PyArgs && pos < |data| && data[pos] == '('
    ensures Inv(data, pos + 1, st.(level := st.level + 1))
    ensures Skips(data, pos, st, pos + 1, st.(level := st.level + 1))
  {
  }

  lemma ScanNestedClose(data: string, pos: nat, st: LexState, outer: LexState)
    requires Inv(data, pos, st) && st.mode == PyArgs && pos < |data| && data[pos] == ')'
    requires st == outer.(level := outer.level + 1) && outer.level >= 1
    ensures Inv(data, pos + 1, outer)
    ensures Skips(data, pos, st, pos + 1, outer)
  {
  }

  lemma ScanLiteral(data: string, pos: nat, st: LexState, e: nat)
    requires Inv(data, pos, st) && st.mode == PyArgs && pos < |data| && IsQuote(data[pos])
    requires StringEnd(data, pos + 1, data[pos]) == Some(e)
    ensures Inv(data, e, st)
    ensures Skips(data, pos, st, e, st)
  {
    assert PyArgsRule(data, pos, st) == Emit(None, e, st);
  }

  /** A quote that starts no complete literal is skipped on its own, without an error. */
  lemma ScanUnterminatedQuote(data: string, pos: nat, st: LexState)
    requires Inv(data, pos, st) && st.mode == PyArgs && pos < |data| && IsQuote(data[pos])
    requires StringEnd(data, pos + 1, data[pos]) == None
    ensures Inv(data, pos + 1, st) && Skips(data, pos, st, pos + 1, st)
  {
  }

  lemma ScanExprChar(data: string, pos: nat, st: LexState)
    requires Inv(data, pos, st) && st.mode == PyArgs && pos < |data| && IsExprChar(data[pos])
    ensures Inv(data, pos + 1, st)
    ensures Skips(data, pos, st, pos + 1, st)
  {
    var r := RunEnd(data, pos, ExprChars);
    RunEndMaximal(data, pos, ExprChars);
    if pos + 1 < |data| && IsExprChar(data[pos + 1]) {
      RunEndIs(data, pos + 1, ExprChars, r);
    }
  }

  lemma ScanOpenCapture(data: string, pos: nat, st: LexState)
    requires Inv(data, pos, st) && st.mode == Initial && pos < |data| && data[pos] == '('
    ensures Inv(data, pos + 1, LexState(PyArgs, 1, pos + 1, st.lineno))
    ensures Skips(data, pos, st, pos + 1, LexState(PyArgs, 1, pos + 1, st.lineno))
  {
  }

  lemma ScanCloseCapture(data: string, start: nat, pos: nat, st: LexState)
    requires Inv(data, pos, st) && st.mode == PyArgs && pos < |data| && data[pos] == ')' && st.level == 1
    requires st.codeStart == start + 1
    ensures Inv(data, pos + 1, LexState(Initial, 0, start + 1, st.lineno + Count(data, start, pos + 1, '\n')))
    ensures Scan(data, pos, st)
         == Prepend([Lexeme(PYARGS, start, pos + 1, st.lineno, pos)],
                    Scan(data, pos + 1, LexState(Initial, 0, start + 1, st.lineno + Count(data, start, pos + 1, '\n'))))
  {
  }

  // Whole pieces.

  /** A well-formed piece leaves the capture depth, `code_start` and `lineno` as they were. */
  lemma {:induction false} ScanPiece(data: string, pos: nat, st: LexState, p: ArgPiece)
    requires Inv(data, pos, st) && st.mode == PyArgs
    requires WellFormedPiece(p) && PieceAt(data, pos, p)
    ensures Inv(data, pos + PieceWidth(p), st)
    ensures Skips(data, pos, st, pos + PieceWidth(p), st)
    decreases p, 1
  {
    match p
    case Plain(c) =>
      ScanExprChar(data, pos, st);
    case Quoted(q, body) =>
      ScanQuoted(data, pos, st, q, body);
    case Group(inner) =>
      ScanGroup(data, pos, st, p);
  }

  lemma ScanQuoted(data: string, pos: nat, st: LexState, q: char, body: string)
    requires Inv(data, pos, st) && st.mode == PyArgs
    requires IsQuote(q) && ValidBody(body, q) && PieceAt(data, pos, Quoted(q, body))
    ensures Inv(data, pos + |body| + 2, st)
    ensures Skips(data, pos, st, pos + |body| + 2, st)
  {
    var e := pos + |body| + 2;
    ValidRangeShift(body, 0, |body|, data, pos + 1, q);
    StringEndIff(data, pos + 1, q, e);
    ScanLiteral(data, pos, st, e);
  }

  /** A parenthesised group goes one level deeper and comes back to the same depth. */
  lemma {:induction false} ScanGroup(data: string, pos: nat, st: LexState, p: ArgPiece)
    requires Inv(data, pos, st) && st.mode == PyArgs
    requires p.Group? && WellFormedPiece(p) && PieceAt(data, pos, p)
    ensures Inv(data, pos + PieceWidth(p), st)
    ensures Skips(data, pos, st, pos + PieceWidth(p), st)
    decreases p, 0
  {
    var close := pos + 1 + Width(p.inner);
    var deeper := st.(level := st.level + 1);
    assert close + 1 == pos + PieceWidth(p);
    ScanNestedOpen(data, pos, st);
    ScanPieces(data, pos + 1, deeper, p.inner);
    ScanNestedClose(data, close, deeper, st);
  }

  lemma {:induction false} ScanPieces(data: string, pos: nat, st: LexState, ps: Pieces)
    requires Inv(data, pos, st) && st.mode == PyArgs
    requires WellFormed(ps) && PiecesAt(data, pos, ps)
    ensures Inv(data, pos + Width(ps), st)
    ensures Skips(data, pos, st, pos + Width(ps), st)
    decreases ps
  {
    match ps
    case Nil =>
    case Cons(h, t) =>
      var mid := pos + PieceWidth(h);
      assert pos + Width(ps) == mid + Width(t);
      ScanPiece(data, pos, st, h);
      ScanPieces(data, mid, st, t);
  }

  /**
   * Scanning from `pos` captures `data[pos..end]` as a single PYARGS token
   * whose `lexpos` is its last character, then goes on in the initial state
   * with `lineno` advanced by the newlines of the capture.
   */
  predicate Captures(data: string, pos: nat, st: LexState, end: nat)
    requires Inv(data, pos, st) && pos < end <= |data|
  {
    Scan(data, pos, st)
    == Prepend([Lexeme(PYARGS, pos, end, st.lineno, end - 1)],
               Scan(data, end, LexState(Initial, 0, pos + 1, st.lineno + Count(data, pos, end, '\n'))))
  }

  /**
   * `(` followed by well-formed argument text and `)` is captured as one
   * PYARGS token holding exactly that text, whatever follows it: nested
   * parentheses and parentheses inside literals do not end the capture.
   */
  lemma CaptureArgs(data: string, pos: nat, st: LexState, ps: Pieces)
    requires Inv(data, pos, st) && st.mode == Initial
    requires WellFormed(ps)
    requires pos + |Flatten(ps)| + 2 <= |data|
    requires data[pos..pos + |Flatten(ps)| + 2] == "(" + Flatten(ps) + ")"
    ensures var end := pos + |Flatten(ps)| + 2;
      && Captures(data, pos, st, end)
      && TokenOf(data, Lexeme(PYARGS, pos, end, st.lineno, end - 1)).text == "(" + Flatten(ps) + ")"
  {
    var g := Group(ps);
    var end := pos + |Flatten(ps)| + 2;
    CapturedText(data, Lexeme(PYARGS, pos, end, st.lineno, end - 1), "(" + Flatten(ps) + ")");
    GroupLaidOut(data, pos, ps);
    CaptureGroup(data, pos, st, g, end);
  }

  lemma CapturedText(data: string, l: Lexeme, text: string)
    requires l.start <= l.end <= |data| && data[l.start..l.end] == text
    ensures TokenOf(data, l).text == text
  {
  }

  lemma GroupLaidOut(data: string, pos: nat, ps: Pieces)
    requires pos + |Flatten(ps)| + 2 <= |data|
    requires data[pos..pos + |Flatten(ps)| + 2] == "(" + Flatten(ps) + ")"
    ensures PieceAt(data, pos, Group(ps)) && PieceWidth(Group(ps)) == |Flatten(ps)| + 2
  {
    var g := Group(ps);
    var text := "(" + Flatten(ps) + ")";
    assert PieceText(g) == text;
    PieceWidthIsLength(g);
    SliceSpells(data, pos, text);
    SpelledPiece(data, pos, g);
  }

  lemma CaptureGroup(data: string, pos: nat, st: LexState, g: ArgPiece, end: nat)
    requires Inv(data, pos, st) && st.mode == Initial
    requires g.Group? && WellFormedPiece(g) && PieceAt(data, pos, g)
    requires end == pos + PieceWidth(g)
    ensures Captures(data, pos, st, end)
  {
    var inside := LexState(PyArgs, 1, pos + 1, st.lineno);
    var close := pos + 1 + Width(g.inner);
    assert close + 1 == end;
    ScanOpenCapture(data, pos, st);
    ScanPieces(data, pos + 1, inside, g.inner);
    ScanCloseCapture(data, pos, close, inside);
  }

  /**
   * An argument list that is never closed ends the input silently: no
   * token and no error, whatever the capture depth.
   */
  lemma UnclosedCapture(data: string, pos: nat, st: LexState, ps: Pieces)
    requires Inv(data, pos, st) && st.mode == PyArgs
    requires WellFormed(ps) && data[pos..] == Flatten(ps)
    ensures Scan(data, pos, st) == LexOutcome([], None, st)
  {
    SliceSpells(data, pos, Flatten(ps));
    SpelledPieces(data, pos, ps);
    WidthIsLength(ps);
    ScanPieces(data, pos, st, ps);
  }

  // ---------------------------------------------------------------------
  // Where tokens come from, and line numbers
  // ---------------------------------------------------------------------

  /** Where the token being scanned starts: the `(` of an open capture, else the scan position. */
  function Origin(data: string, pos: nat, st: LexState): (o: nat)
    requires Inv(data, pos, st)
    ensures o <= pos
  {
    if st.mode == PyArgs then st.codeStart - 1 else pos
  }

  /** `lineno` is `base` plus the newlines before the token being scanned. */
  predicate LinesOk(data: string, pos: nat, st: LexState, base: int)
    requires Inv(data, pos, st)
  {
    st.lineno == base + Count(data, 0, Origin(data, pos, st), '\n')
  }

  /**
   * Lexemes inside the input, not before `lo`, in input order without
   * overlap, each carrying `base` plus the number of newlines before it.
   */
  predicate Placed(data: string, lo: nat, ls: seq<Lexeme>, base: int) {
    Within(data, lo, ls) && Ordered(ls) && OnLines(data, ls, base)
  }

  predicate Within(data: string, lo: nat, ls: seq<Lexeme>) {
    forall k :: 0 <= k < |ls| ==> lo <= ls[k].start <= ls[k].end <= |data|
  }

  predicate Ordered(ls: seq<Lexeme>) {
    forall k :: 0 <= k < |ls| - 1 ==> ls[k].end <= ls[k + 1].start
  }

  predicate OnLines(data: string, ls: seq<Lexeme>, base: int) {
    forall k :: 0 <= k < |ls| ==> ls[k].start <= |data| && ls[k].lineno == base + Count(data, 0, ls[k].start, '\n')
  }

  lemma CountStep(data: string, i: nat, j: nat)
    requires i <= j <= |data|
    requires forall k :: i <= k < j ==> data[k] != '\n'
    ensures Count(data, 0, j, '\n') == Count(data, 0, i, '\n')
  {
    CountSplit(data, 0, i, j, '\n');
    CountRun(data, i, j, '\n');
  }

  /** One rule keeps the line bookkeeping, and the lexeme it emits sits where it should. */
  lemma StepPlaced(data: string, pos: nat, st: LexState, base: int)
    requires Inv(data, pos, st) && pos < |data| && LinesOk(data, pos, st, base)
    requires Step(data, pos, st).Emit?
    ensures var a := Step(data, pos, st);
      && LinesOk(data, a.next, a.st, base)
      && Origin(data, pos, st) <= Origin(data, a.next, a.st)
      && (a.token.Some? ==>
            && Origin(data, pos, st) <= a.token.value.start
            && a.token.value.end <= Origin(data, a.next, a.st)
            && a.token.value.lineno == base + Count(data, 0, a.token.value.start, '\n'))
  {
    if st.mode == Initial {
      InitialPlaced(data, pos, st, base);
    } else {
      PyArgsPlaced(data, pos, st, base);
    }
  }

  lemma InitialPlaced(data: string, pos: nat, st: LexState, base: int)
    requires Inv(data, pos, st) && pos < |data| && st.mode == Initial && LinesOk(data, pos, st, base)
    requires InitialRule(data, pos, st).Emit?
    ensures InitialOk(data, pos, st, base)
  {
    var c := data[pos];
    if c == ' ' || c == '\t' || c == '(' || StructuralKind(c).Some? {
      SingleCharPlaced(data, pos, st, base);
    } else if c == '\n' {
      NewlinesPlaced(data, pos, st, base);
    } else if c == '#' {
      CommentPlaced(data, pos, st, base);
    } else {
      SymbolPlaced(data, pos, st, base);
    }
  }

  /** The placement facts one emitting step of the initial state keeps. */
  predicate InitialOk(data: string, pos: nat, st: LexState, base: int)
    requires Inv(data, pos, st) && pos < |data| && st.mode == Initial
    requires InitialRule(data, pos, st).Emit?
  {
    var a := InitialRule(data, pos, st);
    && LinesOk(data, a.next, a.st, base)
    && pos <= Origin(data, a.next, a.st)
    && (a.token.Some? ==>
          && pos == a.token.value.start
          && a.token.value.end <= Origin(data, a.next, a.st)
          && a.token.value.lineno == base + Count(data, 0, pos, '\n'))
  }

  lemma SingleCharPlaced(data: string, pos: nat, st: LexState, base: int)
    requires Inv(data, pos, st) && pos < |data| && st.mode == Initial && LinesOk(data, pos, st, base)
    requires var c := data[pos]; c == ' ' || c == '\t' || c == '(' || StructuralKind(c).Some?
    ensures InitialRule(data, pos, st).Emit? && InitialOk(data, pos, st, base)
  {
    CountStep(data, pos, pos + 1);
  }

  lemma NewlinesPlaced(data: string, pos: nat, st: LexState, base: int)
    requires Inv(data, pos, st) && pos < |data| && st.mode == Initial && LinesOk(data, pos, st, base)
    requires data[pos] == '\n'
    ensures InitialRule(data, pos, st).Emit? && InitialOk(data, pos, st, base)
  {
    RunCount(data, pos, Newlines);
  }

  lemma CommentPlaced(data: string, pos: nat, st: LexState, base: int)
    requires Inv(data, pos, st) && pos < |data| && st.mode == Initial && LinesOk(data, pos, st, base)
    requires data[pos] == '#'
    ensures InitialRule(data, pos, st).Emit? && InitialOk(data, pos, st, base)
  {
    RunCount(data, pos, NonNewlines);
  }

  lemma SymbolPlaced(data: string, pos: nat, st: LexState, base: int)
    requires Inv(data, pos, st) && pos < |data| && st.mode == Initial && LinesOk(data, pos, st, base)
    requires IsIdentStart(data[pos])
    ensures InitialRule(data, pos, st).Emit? && InitialOk(data, pos, st, base)
  {
    RunCount(data, pos + 1, IdentChars);
    CountStep(data, pos, pos + 1);
  }

  /** Newlines counted up to the end of a run: all of a newline run, none of the other classes. */
  lemma RunCount(data: string, i: nat, k: CharClass)
    requires i <= |data| && k != ExprChars
    ensures var e := RunEnd(data, i, k);
      Count(data, 0, e, '\n') == Count(data, 0, i, '\n') + (if k == Newlines then e - i else 0)
  {
    var e := RunEnd(data, i, k);
    RunEndMaximal(data, i, k);
    CountSplit(data, 0, i, e, '\n');
    CountRun(data, i, e, '\n');
  }

  lemma PyArgsPlaced(data: string, pos: nat, st: LexState, base: int)
    requires Inv(data, pos, st) && pos < |data| && st.mode == PyArgs && LinesOk(data, pos, st, base)
    ensures var a := PyArgsRule(data, pos, st);
      && LinesOk(data, a.next, a.st, base)
      && st.codeStart - 1 <= Origin(data, a.next, a.st)
      && (a.token.Some? ==>
            && st.codeStart - 1 == a.token.value.start
            && a.token.value.end <= Origin(data, a.next, a.st)
            && a.token.value.lineno == base + Count(data, 0, st.codeStart - 1, '\n'))
  {
    if data[pos] == ')' && st.level - 1 == 0 {
      CountSplit(data, 0, st.codeStart - 1, pos + 1, '\n');
    }
  }

  lemma PlacedCons(data: string, lo: nat, mid: nat, t: Option<Lexeme>, rest: seq<Lexeme>, base: int)
    requires lo <= mid <= |data| && Placed(data, mid, rest, base)
    requires t.Some? ==> lo <= t.value.start <= t.value.end <= mid
    requires t.Some? ==> t.value.lineno == base + Count(data, 0, t.value.start, '\n')
    ensures Placed(data, lo, TokenList(t) + rest, base)
  {
    if t.Some? {
      var l := t.value;
      assert TokenList(t) + rest == [l] + rest;
      WithinCons(data, lo, mid, l, rest);
      OrderedCons(mid, l, rest, data);
      OnLinesCons(data, l, rest, base);
    } else {
      assert TokenList(t) + rest == rest;
      assert Within(data, lo, rest);
    }
  }

  lemma WithinCons(data: string, lo: nat, mid: nat, l: Lexeme, rest: seq<Lexeme>)
    requires lo <= mid && Within(data, mid, rest) && lo <= l.start <= l.end <= |data|
    ensures Within(data, lo, [l] + rest)
  {
    var ls := [l] + rest;
    forall k | 0 < k < |ls|
      ensures lo <= ls[k].start <= ls[k].end <= |data|
    {
      assert ls[k] == rest[k - 1];
    }
  }

  lemma OrderedCons(mid: nat, l: Lexeme, rest: seq<Lexeme>, data: string)
    requires Ordered(rest) && Within(data, mid, rest) && l.end <= mid
    ensures Ordered([l] + rest)
  {
    var ls := [l] + rest;
    forall k | 0 <= k < |ls| - 1
      ensures ls[k].end <= ls[k + 1].start
    {
      assert ls[k + 1] == rest[k];
      if k > 0 {
        assert ls[k] == rest[k - 1];
      }
    }
  }

  lemma OnLinesCons(data: string, l: Lexeme, rest: seq<Lexeme>, base: int)
    requires OnLines(data, rest, base)
    requires l.start <= |data| && l.lineno == base + Count(data, 0, l.start, '\n')
    ensures OnLines(data, [l] + rest, base)
  {
    var ls := [l] + rest;
    forall k | 0 < k < |ls|
      ensures ls[k].start <= |data| && ls[k].lineno == base + Count(data, 0, ls[k].start, '\n')
    {
      assert ls[k] == rest[k - 1];
    }
  }

  /**
   * The lexemes found from any reachable point are placed from the start of
   * the token being scanned on.
   */
  lemma {:induction false} ScanPlaced(data: string, pos: nat, st: LexState, base: int)
    requires Inv(data, pos, st) && LinesOk(data, pos, st, base)
    ensures Placed(data, Origin(data, pos, st), Scan(data, pos, st).tokens, base)
    decreases |data| - pos
  {
    if pos < |data| {
      ScanUnfold(data, pos, st);
      match Step(data, pos, st)
      case Fail(_) =>
      case Emit(t, next, st') =>
        StepPlaced(data, pos, st, base);
        ScanPlaced(data, next, st', base);
        PlacedCons(data, Origin(data, pos, st), Origin(data, next, st'), t, Scan(data, next, st').tokens, base);
    }
  }

  /**
   * On a whole input the lexemes are in input order without overlap, and
   * each token's `lineno` is one plus the number of newlines before it.
   */
  lemma LexemesPlaced(data: string)
    ensures Placed(data, 0, Scan(data, 0, Fresh).tokens, 1)
  {
    ScanPlaced(data, 0, Fresh, 1);
  }

  // ---------------------------------------------------------------------
  // Errors
  // ---------------------------------------------------------------------

  /** Scanning stops with an error only on an illegal character met in the initial state. */
  lemma {:induction false} ScanFailsAt(data: string, pos: nat, st: LexState)
    requires Inv(data, pos, st)
    ensures var o := Scan(data, pos, st);
      o.error.Some? ==> o.error.value < |data| && Illegal(data[o.error.value]) && o.final.mode == Initial
    decreases |data| - pos
  {
    if pos < |data| {
      ScanUnfold(data, pos, st);
      match Step(data, pos, st)
      case Fail(_) =>
      case Emit(t, next, st') =>
        ScanFailsAt(data, next, st');
    }
  }

  /** `LexerError` reports an illegal character and the rest of the input from it. */
  lemma LexErrorIsIllegal(data: string)
    ensures Lex(data).Err? ==>
      var e := Lex(data).error;
      e.lexpos < |data| && Illegal(data[e.lexpos]) && e.text == data[e.lexpos..]
  {
    ScanFailsAt(data, 0, Fresh);
  }

  // ---------------------------------------------------------------------
  // A device call followed by a pipe
  // ---------------------------------------------------------------------

  lemma {:induction false} CountShift(s: string, i: nat, j: nat, t: string, off: nat, c: char)
    requires i <= j <= |s| && j + off <= |t|
    requires forall k :: i <= k < j ==> t[k + off] == s[k]
    ensures Count(s, i, j, c) == Count(t, i + off, j + off, c)
    decreases j - i
  {
    if i < j {
      CountShift(s, i + 1, j, t, off, c);
    }
  }

  function ExampleInput(args: string): string {
    "Example(" + args + ") | OUT"
  }

  lemma ExampleChars(args: string)
    ensures var data := ExampleInput(args); var n := |args|;
      && |data| == n + 15
      && data[0] == 'E' && (forall k :: 0 < k < 7 ==> IsIdentChar(data[k])) && data[7] == '('
      && (forall k :: 0 <= k < n ==> data[k + 8] == args[k])
      && data[n + 8] == ')' && data[n + 9] == ' ' && data[n + 10] == '|' && data[n + 11] == ' '
      && data[n + 12] == 'O' && data[n + 13] == 'U' && data[n + 14] == 'T'
  {
    var data := ExampleInput(args);
    var n := |args|;
    var head, tail := "Example(", ") | OUT";
    assert data == head + args + tail;
    forall k | 0 <= k < 8
      ensures data[k] == head[k]
    {
    }
    forall k | 0 <= k < n
      ensures data[k + 8] == args[k]
    {
    }
    forall k | 0 <= k < 7
      ensures data[k + n + 8] == tail[k]
    {
    }
    assert data[n + 8] == tail[0] && data[n + 10] == tail[2] && data[n + 14] == tail[6];
  }

  lemma ExampleArgsChars(args: string)
    ensures var data := ExampleInput(args); var n := |args|;
      && |data| == n + 15 && data[7] == '(' && data[n + 8] == ')'
      && forall k :: 0 <= k < n ==> data[k + 8] == args[k]
  {
    ExampleChars(args);
  }

  lemma ExampleSlices(args: string)
    ensures var data := ExampleInput(args); var n := |args|;
      && |data| == n + 15
      && data[0..7] == "Example" && data[7..n + 9] == "(" + args + ")"
      && data[n + 10..n + 11] == "|" && data[n + 12..n + 15] == "OUT"
  {
    var data := ExampleInput(args);
    var n := |args|;
    assert data == "Example" + ("(" + args + ")") + " " + "|" + " " + "OUT";
  }

  /** After the argument list: a blank, `|`, a blank and `OUT`. */
  lemma ExampleTail(args: string, st: LexState)
    requires Inv(ExampleInput(args), |args| + 9, st) && st.mode == Initial
    ensures var n := |args|;
      Scan(ExampleInput(args), n + 9, st)
      == LexOutcome([Lexeme(PIPE, n + 10, n + 11, st.lineno, n + 10), Lexeme(SYMBOL, n + 12, n + 15, st.lineno, n + 12)], None, st)
  {
    var data := ExampleInput(args);
    var n := |args|;
    ExampleChars(args);
    var last := Scan(data, n + 15, st);
    assert last == LexOutcome([], None, st);
    ScanSymbol(data, n + 12, st, n + 15);
    ScanBlank(data, n + 11, st);
    ScanStructural(data, n + 10, st);
    ScanBlank(data, n + 9, st);
  }

  /** The lexemes of `Example(<args>) | OUT`, for any well-formed argument text. */
  lemma ExampleScan(ps: Pieces)
    requires WellFormed(ps)
    ensures var data := ExampleInput(Flatten(ps)); var n := |Flatten(ps)|;
      var st := LexState(Initial, 0, 8, 1 + Count(data, 7, n + 9, '\n'));
      Scan(data, 0, Fresh)
      == LexOutcome([Lexeme(SYMBOL, 0, 7, 1, 0), Lexeme(PYARGS, 7, n + 9, 1, n + 8),
                     Lexeme(PIPE, n + 10, n + 11, st.lineno, n + 10), Lexeme(SYMBOL, n + 12, n + 15, st.lineno, n + 12)],
                    None, st)
  {
    var args := Flatten(ps);
    var data := ExampleInput(args);
    var n := |args|;
    var st := LexState(Initial, 0, 8, 1 + Count(data, 7, n + 9, '\n'));
    ExampleHead(ps, st);
    ExampleTail(args, st);
  }

  /** `Example` and the argument list, up to the blank after it. */
  lemma ExampleHead(ps: Pieces, st: LexState)
    requires WellFormed(ps)
    requires var data := ExampleInput(Flatten(ps));
      st == LexState(Initial, 0, 8, 1 + Count(data, 7, |Flatten(ps)| + 9, '\n'))
    ensures var data := ExampleInput(Flatten(ps)); var n := |Flatten(ps)|;
      && Inv(data, n + 9, st)
      && Scan(data, 0, Fresh)
         == Prepend([Lexeme(SYMBOL, 0, 7, 1, 0), Lexeme(PYARGS, 7, n + 9, 1, n + 8)], Scan(data, n + 9, st))
  {
    var args := Flatten(ps);
    var data := ExampleInput(args);
    var n := |args|;
    ExampleNameChars(args);
    ExampleSlices(args);
    CaptureArgs(data, 7, Fresh, ps);
    ScanSymbol(data, 0, Fresh, 7);
  }

  lemma ExampleNameChars(args: string)
    ensures var data := ExampleInput(args);
      && |data| == |args| + 15 && IsIdentStart(data[0])
      && (forall k :: 0 < k < 7 ==> IsIdentChar(data[k])) && !IsIdentChar(data[7])
  {
    ExampleChars(args);
  }

  /**
   * `Example(<args>) | OUT` lexes to `Example`, the whole argument list,
   * `|` and `OUT`, the last two on the line after the newlines of the
   * argument list.
   */
  lemma ExampleTokens(ps: Pieces)
    requires WellFormed(ps)
    ensures var args := Flatten(ps); var n := |args|; var line := 1 + Count(args, 0, n, '\n');
      Lex(ExampleInput(args))
      == Ok([Token(SYMBOL, "Example", 1, 0), Token(PYARGS, "(" + args + ")", 1, n + 8),
             Token(PIPE, "|", line, n + 10), Token(SYMBOL, "OUT", line, n + 12)])
  {
    var args := Flatten(ps);
    var data := ExampleInput(args);
    var n := |args|;
    ExampleScan(ps);
    ExampleLine(args);
    ExampleTexts(args, 1 + Count(data, 7, n + 9, '\n'));
  }

  lemma ExampleLine(args: string)
    ensures Count(ExampleInput(args), 7, |args| + 9, '\n') == Count(args, 0, |args|, '\n')
  {
    var data := ExampleInput(args);
    var n := |args|;
    ExampleArgsChars(args);
    CountShift(args, 0, n, data, 8, '\n');
    CountSplit(data, 7, 8, n + 9, '\n');
    CountSplit(data, 8, n + 8, n + 9, '\n');
    CountRun(data, 7, 8, '\n');
    CountRun(data, n + 8, n + 9, '\n');
  }

  lemma ExampleTexts(args: string, line: int)
    ensures var n := |args|; var data := ExampleInput(args);
      var ls := [Lexeme(SYMBOL, 0, 7, 1, 0), Lexeme(PYARGS, 7, n + 9, 1, n + 8),
                 Lexeme(PIPE, n + 10, n + 11, line, n + 10), Lexeme(SYMBOL, n + 12, n + 15, line, n + 12)];
      InBounds(data, ls)
      && Tokens(data, ls)
         == [Token(SYMBOL, "Example", 1, 0), Token(PYARGS, "(" + args + ")", 1, n + 8),
             Token(PIPE, "|", line, n + 10), Token(SYMBOL, "OUT", line, n + 12)]
  {
    var n := |args|;
    var data := ExampleInput(args);
    ExampleSlices(args);
    var ls := [Lexeme(SYMBOL, 0, 7, 1, 0), Lexeme(PYARGS, 7, n + 9, 1, n + 8),
               Lexeme(PIPE, n + 10, n + 11, line, n + 10), Lexeme(SYMBOL, n + 12, n + 15, line, n + 12)];
    var ts := Tokens(data, ls);
    assert ts[0] == Token(SYMBOL, "Example", 1, 0);
    assert ts[1] == Token(PYARGS, "(" + args + ")", 1, n + 8);
    assert ts[2] == Token(PIPE, "|", line, n + 10);
    assert ts[3] == Token(SYMBOL, "OUT", line, n + 12);
  }
}
