/**
  The state machine of `tokenize` in src/compilation_unit.cc: one pass over
  the buffer, one state variable, one classifier call per byte. Tokens are
  appended by `END_TOKEN`; a pending token's start offset and start line are
  recorded by `BEGIN_TOKEN`.
 */
module Lexer {
  import opened Wrappers
  import opened Strings
  import opened Tokens
  import opened CharClasses
  import opened Keywords
  import opened Operators

  /** `TokenizerState`, in declaration order. */
  datatype State =
    | NullState | OpState | BracketState | IdentState | NumState | StrState
    | StrEscState | StrEndState | SemicolonState | CommaState | CommentState

  /**
    The local variables of `tokenize`: the state, the current line, the start
    offset and start line of the pending token, and the tokens emitted so far.
   */
  datatype Scanner = Scanner(state: State, line: nat, start: nat, startLine: nat, tokens: seq<Token>)

  const Initial: Scanner := Scanner(NullState, 1, 0, 1, [])

  /** What the machine needs to hold to take its next step: the pending token lies behind the cursor. */
  predicate Sane(s: Scanner, i: nat) {
    s.start <= i && (s.state == OpState ==> s.start < i)
  }

  /** The pending token `[start, i)`, before any retagging. */
  function Pending(s: Scanner, i: nat, kind: TokenKind): (t: Token)
    requires s.start <= i
    ensures t.End() == i
  {
    Token(s.start, i - s.start, s.startLine, kind, None)
  }

  /**
    `END_TOKEN(kind)` with the cursor at `i`: one token `[start, i)` on the
    start line is appended, the earlier tokens are kept, and the state is null.
   */
  function EndToken(s: Scanner, i: nat, kind: TokenKind): (r: Scanner)
    requires s.start <= i
    ensures r.state == NullState && r.line == s.line
    ensures |r.tokens| == |s.tokens| + 1 && r.tokens[..|s.tokens|] == s.tokens
    ensures var t := r.tokens[|s.tokens|];
            t.offset == s.start && t.End() == i && t.line == s.startLine && t.kind == kind && t.op == None
  {
    s.(tokens := s.tokens + [Pending(s, i, kind)], state := NullState)
  }

  /**
    `END_TOKEN(TOKEN_IDENT)` followed by `check_keyword`, which retags the
    token just pushed without moving it; only a word operator gets a code.
   */
  function EndIdent(text: seq<Byte>, s: Scanner, i: nat): (r: Scanner)
    requires s.start <= i <= |text|
    ensures r.state == NullState && r.line == s.line
    ensures |r.tokens| == |s.tokens| + 1 && r.tokens[..|s.tokens|] == s.tokens
    ensures var t := r.tokens[|s.tokens|];
            t.offset == s.start && t.End() == i && t.line == s.startLine && (t.kind != Op ==> t.op == None)
  {
    s.(tokens := s.tokens + [CheckKeyword(text, Pending(s, i, Ident))], state := NullState)
  }

  /**
    `END_TOKEN(TOKEN_OP)` followed by `check_operator`, which resolves the
    token just pushed without moving it or adding another.
   */
  function EndOperator(text: seq<Byte>, s: Scanner, i: nat): (r: Scanner)
    requires s.start < i <= |text|
    ensures r.state == NullState && r.line == s.line
    ensures |r.tokens| == |s.tokens| + 1 && r.tokens[..|s.tokens|] == s.tokens
    ensures var t := r.tokens[|s.tokens|];
            t.offset == s.start && t.End() == i && t.line == s.startLine
            && t.kind in {Op, StatementOp} && t.op.Some?
  {
    s.(tokens := s.tokens + [ResolveOperator(text, Pending(s, i, Op))], state := NullState)
  }

  /** `BEGIN_TOKEN(st)` at byte `i`: a token is pending from `i` on the current line, and nothing is emitted. */
  function BeginToken(s: Scanner, i: nat, st: State): (r: Scanner)
    ensures r.state == st && r.start == i && r.startLine == s.line
    ensures r.tokens == s.tokens && r.line == s.line
  {
    s.(start := i, startLine := s.line, state := st)
  }

  /** The first `switch (state)` of the loop body: continue or close the pending token. */
  function Close(text: seq<Byte>, i: nat, c: CharClass, s: Scanner): (r: Scanner)
    requires i < |text| && Sane(s, i)
    ensures Sane(r, i + 1)
    ensures r.state == NullState || r.state == s.state || s.state in {StrState, StrEscState}
  {
    match s.state
    case OpState =>
      if c == PeriodChar || c == PunctChar then s else EndOperator(text, s, i)
    case BracketState => EndToken(s, i, Bracket)
    case IdentState =>
      if c == IdentChar || c == NumChar then s else EndIdent(text, s, i)
    case NumState =>
      if c == IdentChar || c == NumChar || c == PeriodChar then s else EndToken(s, i, Num)
    case StrState =>
      if c == EscChar then s.(state := StrEscState)
      else if c == QuoteChar then s.(state := StrEndState)
      else s
    case StrEscState => s.(state := StrState)
    case StrEndState => EndToken(s, i, Str)
    case SemicolonState => EndToken(s, i, Semicolon)
    case CommaState => EndToken(s, i, Comma)
    case CommentState => if text[i] == '\n' then s.(state := NullState) else s
    case NullState => s
  }

  /** The second `switch`, run only in the null state: the byte's class picks the next token. */
  function Open(i: nat, c: CharClass, s: Scanner): (r: Scanner)
    requires s.state == NullState && s.start <= i
    ensures Sane(r, i + 1)
  {
    match c
    case PeriodChar | PunctChar => BeginToken(s, i, OpState)
    case BracketChar => BeginToken(s, i, BracketState)
    case IdentChar => BeginToken(s, i, IdentState)
    case NumChar => BeginToken(s, i, NumState)
    case SemicolonChar => BeginToken(s, i, SemicolonState)
    case CommaChar => BeginToken(s, i, CommaState)
    case QuoteChar => BeginToken(s, i, StrState)
    case CommentChar => s.(state := CommentState)
    case SpaceChar | EscChar => s
  }

  /** The loop's first statement: a newline byte starts a new line, whatever the state. */
  function CountLine(s: Scanner, b: Byte): Scanner {
    if b == '\n' then s.(line := s.line + 1) else s
  }

  /** One iteration of the loop, for byte `i`: count a newline, close, then maybe open. */
  function Step(text: seq<Byte>, signedChar: bool, i: nat, s: Scanner): (r: Scanner)
    requires i < |text| && Sane(s, i)
    ensures Sane(r, i + 1)
  {
    var c := Classify(text[i], signedChar);
    var s2 := Close(text, i, c, CountLine(s, text[i]));
    if s2.state == NullState then Open(i, c, s2) else s2
  }

  /** The scanner after the loop has consumed the first `n` bytes. */
  function ScanPrefix(text: seq<Byte>, signedChar: bool, n: nat): (r: Scanner)
    requires n <= |text|
    ensures Sane(r, n)
    decreases n
  {
    if n == 0 then Initial
    else Step(text, signedChar, n - 1, ScanPrefix(text, signedChar, n - 1))
  }

  /** The compilation unit's fields that tokenizing writes. */
  datatype Unit = Unit(tokens: seq<Token>, status: UnitStatus, errors: bool)

  /**
    The `switch` after the loop. The null state marks the unit tokenized; an
    open string is an error and is dropped; every other pending token is
    emitted, the identifier retagged, but an operator run is NOT resolved; a
    comment leaves everything as it is.
   */
  function Finish(text: seq<Byte>, s: Scanner, status: UnitStatus, errors: bool): (u: Unit)
    requires Sane(s, |text|)
    ensures s.state == NullState ==> u == Unit(s.tokens, UnitToken, errors)
    ensures s.state in {StrState, StrEscState} ==> u == Unit(s.tokens, UnitError, true)
    ensures s.state == CommentState ==> u == Unit(s.tokens, status, errors)
    ensures s.state !in {NullState, StrState, StrEscState, CommentState} ==>
              && u.status == status && u.errors == errors
              && |u.tokens| == |s.tokens| + 1 && u.tokens[..|s.tokens|] == s.tokens
              && u.tokens[|s.tokens|].offset == s.start && u.tokens[|s.tokens|].End() == |text|
              && u.tokens[|s.tokens|].line == s.startLine
    ensures s.state == OpState ==> u.tokens[|s.tokens|].kind == Op && u.tokens[|s.tokens|].op == None
  {
    var n := |text|;
    match s.state
    case NullState => Unit(s.tokens, UnitToken, errors)
    case OpState => Unit(EndToken(s, n, Op).tokens, status, errors)
    case BracketState => Unit(EndToken(s, n, Bracket).tokens, status, errors)
    case IdentState => Unit(EndIdent(text, s, n).tokens, status, errors)
    case NumState => Unit(EndToken(s, n, Num).tokens, status, errors)
    case StrState | StrEscState => Unit(s.tokens, UnitError, true)
    case StrEndState => Unit(EndToken(s, n, Str).tokens, status, errors)
    case SemicolonState => Unit(EndToken(s, n, Semicolon).tokens, status, errors)
    case CommaState => Unit(EndToken(s, n, Comma).tokens, status, errors)
    case CommentState => Unit(s.tokens, status, errors)
  }
}
