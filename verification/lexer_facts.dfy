/**
  What the state machine of `tokenize` keeps true from one byte to the next,
  stated against the reference descriptions of `SourceText`: every emitted
  token is placed, numbered and shaped as its first byte demands, the tokens
  appear in buffer order, and together with the pending token and the rest of
  the text they account for every kept byte of the source.

  The large predicates (`Inv`, `MidInv`, `Closes`, `HoldOk`, `Shaped`) are
  written `P(...) == true` in contracts. The comparison keeps the verifier
  from splitting them into their conjuncts at every call. Each lemma then
  pays only for the facts its body names, not for the whole invariant.
 */
module LexerFacts {
  import opened Wrappers
  import opened Strings
  import opened Tokens
  import opened CharClasses
  import opened Keywords
  import opened Operators
  import opened Lexer
  import opened SourceText

  /** The three kinds of multi-byte run, each extended by its own classes of byte. */
  datatype Run = IdentRun | NumRun | OpRun

  predicate Extends(r: Run, c: CharClass) {
    match r
    case IdentRun => c == IdentChar || c == NumChar
    case NumRun => c == IdentChar || c == NumChar || c == PeriodChar
    case OpRun => c == PunctChar || c == PeriodChar
  }

  /** Every byte of `[from, to)` extends a run of kind `r`. */
  predicate RunOf(text: seq<Byte>, signedChar: bool, from: nat, to: nat, r: Run)
    requires to <= |text|
  {
    forall p :: from <= p < to ==> Extends(r, Classify(text[p], signedChar))
  }

  /** A run ending at `end` cannot be extended: the text ends there or the next byte does not extend it. */
  predicate Maximal(text: seq<Byte>, signedChar: bool, end: nat, r: Run)
    requires end <= |text|
  {
    end == |text| || !Extends(r, Classify(text[end], signedChar))
  }

  /**
    The shape of an emitted token, decided by the class of its first byte:
    brackets, semicolons and commas are single bytes; identifiers, numbers
    and operator runs are maximal runs, identifiers passed through the
    keyword table and operator runs through the operator table unless the
    run reaches the end of the text; a string runs from its opening quote to
    the quote that closes it.
   */
  predicate Shaped(text: seq<Byte>, signedChar: bool, t: Token)
    requires 0 < t.length && t.End() <= |text|
  {
    var end := t.End();
    match Classify(text[t.offset], signedChar)
    case BracketChar => t.length == 1 && t.kind == Bracket && t.op == None
    case SemicolonChar => t.length == 1 && t.kind == Semicolon && t.op == None
    case CommaChar => t.length == 1 && t.kind == Comma && t.op == None
    case IdentChar =>
      RunOf(text, signedChar, t.offset, end, IdentRun) && Maximal(text, signedChar, end, IdentRun)
      && t == CheckKeyword(text, t.(kind := Ident, op := None))
    case NumChar =>
      RunOf(text, signedChar, t.offset, end, NumRun) && Maximal(text, signedChar, end, NumRun)
      && t.kind == Num && t.op == None
    case PunctChar | PeriodChar =>
      RunOf(text, signedChar, t.offset, end, OpRun) && Maximal(text, signedChar, end, OpRun)
      && if end < |text| then t == ResolveOperator(text, t.(kind := Op, op := None))
         else t.kind == Op && t.op == None
    case QuoteChar =>
      CloseQuote(text, t.offset + 1, false) == Some(end - 1) && t.kind == Str && t.op == None
    case SpaceChar | EscChar | CommentChar => false
  }

  /**
    A token that is non-empty, ends by `bound`, carries the line it starts on,
    starts at a byte read in code (not inside a comment or a string), and is shaped.
   */
  predicate TokenOk(text: seq<Byte>, signedChar: bool, t: Token, bound: nat) {
    0 < t.length && t.End() <= bound <= |text|
    && t.line == LineAt(text, t.offset) && ModeAt(text, t.offset) == Code
    && Shaped(text, signedChar, t)
  }

  /** Every token is well formed and ends by `bound`, and each ends before the next begins. */
  predicate TokensOk(text: seq<Byte>, signedChar: bool, ts: seq<Token>, bound: nat) {
    bound <= |text|
    && (forall k :: 0 <= k < |ts| ==> TokenOk(text, signedChar, ts[k], bound))
    && (forall j, k :: 0 <= j < k < |ts| ==> ts[j].End() <= ts[k].offset)
  }

  /** The states in which a token has been begun and not yet emitted. */
  predicate Holding(st: State) {
    st != NullState && st != CommentState
  }

  /** The reading mode each state stands for. */
  function ModeOf(st: State): Mode {
    match st
    case StrState => InString
    case StrEscState => InEscape
    case CommentState => InComment
    case _ => Code
  }

  /** The bytes of the pending token read so far. */
  function PendingText(text: seq<Byte>, s: Scanner, n: nat): seq<Byte>
    requires s.start <= n <= |text|
  {
    if Holding(s.state) then text[s.start..n] else []
  }

  /** Where emitted tokens must end: at the pending token's start, or at the cursor. */
  function Bound(s: Scanner, n: nat): nat {
    if Holding(s.state) then s.start else n
  }

  /** The pending token read so far is a proper beginning of a token of its state's kind. */
  predicate HoldOk(text: seq<Byte>, signedChar: bool, s: Scanner, n: nat)
    requires s.start <= n <= |text|
  {
    match s.state
    case NullState | CommentState => true
    case OpState => s.start < n && RunOf(text, signedChar, s.start, n, OpRun)
    case BracketState => n == s.start + 1 && Classify(text[s.start], signedChar) == BracketChar
    case SemicolonState => n == s.start + 1 && Classify(text[s.start], signedChar) == SemicolonChar
    case CommaState => n == s.start + 1 && Classify(text[s.start], signedChar) == CommaChar
    case IdentState =>
      s.start < n && Classify(text[s.start], signedChar) == IdentChar
      && RunOf(text, signedChar, s.start, n, IdentRun)
    case NumState =>
      s.start < n && Classify(text[s.start], signedChar) == NumChar
      && RunOf(text, signedChar, s.start, n, NumRun)
    case StrState =>
      s.start < n && text[s.start] == '"'
      && CloseQuote(text, s.start + 1, false) == CloseQuote(text, n, false)
    case StrEscState =>
      s.start < n && text[s.start] == '"'
      && CloseQuote(text, s.start + 1, false) == CloseQuote(text, n, true)
    case StrEndState =>
      s.start + 1 < n && text[s.start] == '"'
      && CloseQuote(text, s.start + 1, false) == Some(n - 1)
  }

  /** After `n` bytes a reader is in code and the last byte was whitespace or a backslash (or there was none). */
  predicate Idle(text: seq<Byte>, signedChar: bool, n: nat)
    requires n <= |text|
  {
    ModeAt(text, n) == Code && (n == 0 || Classify(text[n - 1], signedChar) in {SpaceChar, EscChar})
  }

  /** The emitted tokens, the pending token and the unread text together hold exactly the kept bytes. */
  predicate Covers(text: seq<Byte>, signedChar: bool, s: Scanner, n: nat)
    requires s.start <= n <= |text|
  {
    AllInBuffer(text, s.tokens)
    && Concat(text, s.tokens) + PendingText(text, s, n) + KeptFrom(text, signedChar, n, ModeOf(s.state))
       == KeptText(text, signedChar)
  }

  /** With nothing pending before byte `i` is read in code: the tokens and the rest of the text hold the kept bytes. */
  predicate MidCovers(text: seq<Byte>, signedChar: bool, i: nat, ts: seq<Token>) {
    AllInBuffer(text, ts)
    && Concat(text, ts) + KeptFrom(text, signedChar, i, Code) == KeptText(text, signedChar)
  }

  /** The loop invariant of `tokenize` after `n` bytes. */
  predicate Inv(text: seq<Byte>, signedChar: bool, n: nat, s: Scanner) {
    n <= |text| && Sane(s, n)
    && s.line == LineAt(text, n)
    && (Holding(s.state) ==> s.startLine == LineAt(text, s.start) && ModeAt(text, s.start) == Code)
    && TokensOk(text, signedChar, s.tokens, Bound(s, n))
    && HoldOk(text, signedChar, s, n)
    && ModeOf(s.state) == ModeAt(text, n)
    && (s.state == NullState <==> Idle(text, signedChar, n))
    && Covers(text, signedChar, s, n)
  }

  /**
    Halfway through the step for byte `i`: the first switch has left the null
    state. Byte `i` was read in code, unless it is the newline that ends a comment.
   */
  predicate MidInv(text: seq<Byte>, signedChar: bool, i: nat, s: Scanner) {
    i < |text| && s.state == NullState && s.start <= i
    && s.line == LineAt(text, i + 1)
    && TokensOk(text, signedChar, s.tokens, i)
    && ModeAt(text, i + 1) == NextMode(Code, text[i])
    && (ModeAt(text, i) == Code || text[i] == '\n')
    && MidCovers(text, signedChar, i, s.tokens)
  }

  /** What the first switch leaves behind for byte `i`. */
  predicate Closes(text: seq<Byte>, signedChar: bool, i: nat, s: Scanner) {
    if s.state == NullState then MidInv(text, signedChar, i, s) else Inv(text, signedChar, i + 1, s)
  }

  /** Reading byte `i` moves the line count and the reading mode on by that byte. */
  lemma Advance(text: seq<Byte>, i: nat)
    requires i < |text|
    ensures LineAt(text, i + 1) == LineAt(text, i) + (if text[i] == '\n' then 1 else 0)
    ensures ModeAt(text, i + 1) == NextMode(ModeAt(text, i), text[i])
  {
  }

  /** Reading byte `i` in mode `m`: keep it or not, then go on in the next mode. */
  lemma KeptStep(text: seq<Byte>, signedChar: bool, i: nat, m: Mode)
    requires i < |text|
    ensures KeptFrom(text, signedChar, i, m)
            == (if Kept(m, text[i], signedChar) then [text[i]] else []) + KeptFrom(text, signedChar, i + 1, NextMode(m, text[i]))
  {
  }

  /** Nothing pending and reading in code: the coverage reads as the halfway form. */
  lemma CoversIdle(text: seq<Byte>, signedChar: bool, i: nat, s: Scanner)
    requires s.start <= i <= |text| && !Holding(s.state) && ModeOf(s.state) == Code
    requires Covers(text, signedChar, s, i)
    ensures MidCovers(text, signedChar, i, s.tokens)
  {
    assert Concat(text, s.tokens) + PendingText(text, s, i) == Concat(text, s.tokens);
  }

  /** A newline ends a comment; neither it nor the comment is kept. */
  lemma CoversCommentEnds(text: seq<Byte>, signedChar: bool, i: nat, s: Scanner)
    requires s.start <= i < |text| && s.state == CommentState && text[i] == '\n'
    requires Covers(text, signedChar, s, i)
    ensures MidCovers(text, signedChar, i, s.tokens)
  {
    KeptStep(text, signedChar, i, InComment);
    KeptStep(text, signedChar, i, Code);
    assert !Kept(Code, text[i], signedChar);
    assert Concat(text, s.tokens) + PendingText(text, s, i) == Concat(text, s.tokens);
  }

  /** A byte that is not kept, read with nothing pending before and after. */
  lemma CoversSkip(text: seq<Byte>, signedChar: bool, i: nat, s: Scanner, s': Scanner)
    requires s.start <= i < |text| && s'.start <= i + 1
    requires !Holding(s.state) && !Holding(s'.state) && s'.tokens == s.tokens
    requires !Kept(ModeOf(s.state), text[i], signedChar)
    requires ModeOf(s'.state) == NextMode(ModeOf(s.state), text[i])
    requires Covers(text, signedChar, s, i)
    ensures Covers(text, signedChar, s', i + 1)
  {
    KeptStep(text, signedChar, i, ModeOf(s.state));
  }

  /** The pending token, read in code up to `i`, becomes the last token. */
  lemma CoversEmit(text: seq<Byte>, signedChar: bool, i: nat, s: Scanner, t: Token)
    requires s.start <= i <= |text| && Holding(s.state) && ModeOf(s.state) == Code
    requires t.offset == s.start && t.End() == i
    requires Covers(text, signedChar, s, i)
    ensures MidCovers(text, signedChar, i, s.tokens + [t])
  {
    ConcatAppend(text, s.tokens, t);
  }

  /** A kept byte read in code begins the pending token. */
  lemma CoversBegin(text: seq<Byte>, signedChar: bool, i: nat, ts: seq<Token>, s': Scanner)
    requires i < |text| && MidCovers(text, signedChar, i, ts)
    requires s'.tokens == ts && s'.start == i && Holding(s'.state)
    requires Kept(Code, text[i], signedChar) && ModeOf(s'.state) == NextMode(Code, text[i])
    ensures Covers(text, signedChar, s', i + 1)
  {
    KeptStep(text, signedChar, i, Code);
    assert PendingText(text, s', i + 1) == [text[i]];
  }

  /** A byte read in code that is not kept, with nothing pending after it. */
  lemma CoversPass(text: seq<Byte>, signedChar: bool, i: nat, ts: seq<Token>, s': Scanner)
    requires i < |text| && MidCovers(text, signedChar, i, ts)
    requires s'.tokens == ts && s'.start <= i + 1 && !Holding(s'.state)
    requires !Kept(Code, text[i], signedChar) && ModeOf(s'.state) == NextMode(Code, text[i])
    ensures Covers(text, signedChar, s', i + 1)
  {
    KeptStep(text, signedChar, i, Code);
    assert Concat(text, ts) + PendingText(text, s', i + 1) == Concat(text, ts);
  }

  lemma TokensOkWiden(text: seq<Byte>, signedChar: bool, ts: seq<Token>, bound: nat, bound': nat)
    requires TokensOk(text, signedChar, ts, bound) && bound <= bound' <= |text|
    ensures TokensOk(text, signedChar, ts, bound')
    ensures AllInBuffer(text, ts)
  {
  }

  lemma TokensOkAppend(text: seq<Byte>, signedChar: bool, ts: seq<Token>, t: Token, bound: nat)
    requires TokensOk(text, signedChar, ts, t.offset) && TokenOk(text, signedChar, t, bound)
    ensures TokensOk(text, signedChar, ts + [t], bound)
  {
    var ts' := ts + [t];
    forall k | 0 <= k < |ts'|
      ensures TokenOk(text, signedChar, ts'[k], bound)
    {
      if k < |ts| {
        assert ts'[k] == ts[k];
      }
    }
    forall j, k | 0 <= j < k < |ts'|
      ensures ts'[j].End() <= ts'[k].offset
    {
      assert ts'[j] == ts[j];
      if k < |ts| {
        assert ts'[k] == ts[k];
      }
    }
  }

  /** The kind of run each run state reads. */
  function StateRun(st: State): Run {
    match st
    case OpState => OpRun
    case IdentState => IdentRun
    case _ => NumRun
  }

  /**
    A run state reads a byte that extends its run: the byte is kept, the
    reader stays in code, and the pending run grows by it.
   */
  lemma RunHolds(text: seq<Byte>, signedChar: bool, i: nat, s: Scanner, st: State)
    requires i < |text| && s.start <= i && st == s.state && st in {OpState, IdentState, NumState}
    requires HoldOk(text, signedChar, s, i) == true
    requires Extends(StateRun(st), Classify(text[i], signedChar))
    ensures Holding(st) && Kept(ModeOf(st), text[i], signedChar)
    ensures ModeOf(st) == NextMode(ModeOf(st), text[i]) && Classify(text[i], signedChar) !in {SpaceChar, EscChar}
    ensures HoldOk(text, signedChar, s.(state := st), i + 1) == true
  {
    assert RunOf(text, signedChar, s.start, i + 1, StateRun(st));
  }

  /** The kind a pending token is emitted with when it is emitted as it is. */
  function PendingKind(st: State): TokenKind {
    match st
    case OpState => Op
    case BracketState => Bracket
    case NumState => Num
    case SemicolonState => Semicolon
    case CommaState => Comma
    case _ => Str
  }

  /**
    A pending token emitted as it is at `n` has the shape of its kind: a
    number run when byte `n` cannot extend it, an operator run only when the
    text ends at `n`.
   */
  lemma HeldShaped(text: seq<Byte>, signedChar: bool, s: Scanner, n: nat)
    requires s.start <= n <= |text| && HoldOk(text, signedChar, s, n) == true
    requires s.state in {OpState, BracketState, NumState, SemicolonState, CommaState, StrEndState}
    requires s.state == NumState ==> Maximal(text, signedChar, n, NumRun)
    requires s.state == OpState ==> n == |text|
    ensures var t := Pending(s, n, PendingKind(s.state));
            t.offset == s.start && t.End() == n && t.line == s.startLine && 0 < t.length
            && Shaped(text, signedChar, t) == true
  {
    if s.state == StrEndState {
      assert Classify(text[s.start], signedChar) == QuoteChar;
    } else if s.state == OpState {
      assert Extends(OpRun, Classify(text[s.start], signedChar));
    }
  }

  /** An operator run that byte `i` cannot extend is resolved by the operator table. */
  lemma OpShaped(text: seq<Byte>, signedChar: bool, s: Scanner, i: nat)
    requires s.start <= i < |text| && s.state == OpState && HoldOk(text, signedChar, s, i) == true
    requires Maximal(text, signedChar, i, OpRun)
    ensures var t := ResolveOperator(text, Pending(s, i, Op));
            t.offset == s.start && t.End() == i && t.line == s.startLine && 0 < t.length
            && Shaped(text, signedChar, t) == true
  {
    var p := Pending(s, i, Op);
    assert ResolveOperator(text, p).(kind := Op, op := None) == p;
    assert Extends(OpRun, Classify(text[s.start], signedChar));
  }

  /** A complete identifier is retagged by the keyword table. */
  lemma IdentShaped(text: seq<Byte>, signedChar: bool, s: Scanner, n: nat)
    requires s.start <= n <= |text| && s.state == IdentState && HoldOk(text, signedChar, s, n) == true
    requires Maximal(text, signedChar, n, IdentRun)
    ensures var t := CheckKeyword(text, Pending(s, n, Ident));
            t.offset == s.start && t.End() == n && t.line == s.startLine && 0 < t.length
            && Shaped(text, signedChar, t) == true
  {
    var p := Pending(s, n, Ident);
    assert CheckKeyword(text, p).(kind := Ident, op := None) == p;
  }

  /** Emitting the pending token `t` at byte `i` from a state read in code mode. */
  lemma Emit(text: seq<Byte>, signedChar: bool, i: nat, s: Scanner, t: Token)
    requires i < |text| && Inv(text, signedChar, i, s) == true && Holding(s.state) && ModeOf(s.state) == Code
    requires t.offset == s.start && t.End() == i && t.line == s.startLine
    requires 0 < t.length && Shaped(text, signedChar, t) == true
    ensures MidInv(text, signedChar, i, CountLine(s, text[i]).(tokens := s.tokens + [t], state := NullState)) == true
  {
    assert TokenOk(text, signedChar, t, i);
    TokensOkAppend(text, signedChar, s.tokens, t, i);
    CoversEmit(text, signedChar, i, s, t);
    Advance(text, i);
  }

  /** The null state reads byte `i` without a change beyond the line count. */
  lemma NullCloses(text: seq<Byte>, signedChar: bool, i: nat, s: Scanner)
    requires i < |text| && Sane(s, i) && s.state == NullState
    ensures Close(text, i, Classify(text[i], signedChar), CountLine(s, text[i])) == CountLine(s, text[i])
  {
  }

  lemma CloseNull(text: seq<Byte>, signedChar: bool, i: nat, s: Scanner)
    requires i < |text| && Inv(text, signedChar, i, s) == true && s.state == NullState
    ensures Closes(text, signedChar, i, Close(text, i, Classify(text[i], signedChar), CountLine(s, text[i]))) == true
  {
    NullCloses(text, signedChar, i, s);
    Advance(text, i);
    CoversIdle(text, signedChar, i, s);
  }

  /** In a comment a newline returns to the null state; any other byte changes nothing. */
  lemma CommentCloses(text: seq<Byte>, signedChar: bool, i: nat, s: Scanner)
    requires i < |text| && Sane(s, i) && s.state == CommentState
    ensures Close(text, i, Classify(text[i], signedChar), CountLine(s, text[i]))
            == if text[i] == '\n' then CountLine(s, text[i]).(state := NullState) else s
  {
  }

  /** A newline ends a comment. */
  lemma CommentEnds(text: seq<Byte>, signedChar: bool, i: nat, s: Scanner)
    requires i < |text| && Inv(text, signedChar, i, s) == true && s.state == CommentState && text[i] == '\n'
    ensures Closes(text, signedChar, i, Close(text, i, Classify(text[i], signedChar), CountLine(s, text[i]))) == true
  {
    CommentCloses(text, signedChar, i, s);
    Advance(text, i);
    CoversCommentEnds(text, signedChar, i, s);
  }

  /** Any other byte stays in the comment, and is not kept. */
  lemma CommentStays(text: seq<Byte>, signedChar: bool, i: nat, s: Scanner)
    requires i < |text| && Inv(text, signedChar, i, s) == true && s.state == CommentState && text[i] != '\n'
    ensures Inv(text, signedChar, i + 1, s) == true
  {
    Advance(text, i);
    CoversSkip(text, signedChar, i, s, s);
    TokensOkWiden(text, signedChar, s.tokens, i, i + 1);
  }

  lemma CommentGoesOn(text: seq<Byte>, signedChar: bool, i: nat, s: Scanner)
    requires i < |text| && Inv(text, signedChar, i, s) == true && s.state == CommentState && text[i] != '\n'
    ensures Closes(text, signedChar, i, Close(text, i, Classify(text[i], signedChar), CountLine(s, text[i]))) == true
  {
    CommentCloses(text, signedChar, i, s);
    CommentStays(text, signedChar, i, s);
  }

  /** A comment runs up to and including the next newline, and nothing in it is kept. */
  lemma CloseComment(text: seq<Byte>, signedChar: bool, i: nat, s: Scanner)
    requires i < |text| && Inv(text, signedChar, i, s) == true && s.state == CommentState
    ensures Closes(text, signedChar, i, Close(text, i, Classify(text[i], signedChar), CountLine(s, text[i]))) == true
  {
    if text[i] == '\n' {
      CommentEnds(text, signedChar, i, s);
    } else {
      CommentGoesOn(text, signedChar, i, s);
    }
  }

  /**
    The states whose pending token is emitted as it is at the byte after it:
    brackets, semicolons, commas and closed strings always, numbers when the
    byte cannot extend them.
   */
  lemma PendingCloses(text: seq<Byte>, signedChar: bool, i: nat, s: Scanner)
    requires i < |text| && Sane(s, i)
    requires s.state in {BracketState, NumState, SemicolonState, CommaState, StrEndState}
    requires s.state == NumState ==> !Extends(NumRun, Classify(text[i], signedChar))
    ensures Close(text, i, Classify(text[i], signedChar), CountLine(s, text[i]))
            == CountLine(s, text[i]).(tokens := s.tokens + [Pending(s, i, PendingKind(s.state))], state := NullState)
  {
  }

  lemma EmitPending(text: seq<Byte>, signedChar: bool, i: nat, s: Scanner)
    requires i < |text| && Inv(text, signedChar, i, s) == true
    requires s.state in {BracketState, NumState, SemicolonState, CommaState, StrEndState}
    requires s.state == NumState ==> !Extends(NumRun, Classify(text[i], signedChar))
    ensures Closes(text, signedChar, i, Close(text, i, Classify(text[i], signedChar), CountLine(s, text[i]))) == true
  {
    PendingCloses(text, signedChar, i, s);
    HeldShaped(text, signedChar, s, i);
    Emit(text, signedChar, i, s, Pending(s, i, PendingKind(s.state)));
  }

  lemma Regroup(pre: seq<Byte>, mid: seq<Byte>, b: Byte, rest: seq<Byte>)
    ensures pre + (mid + [b]) + rest == pre + mid + ([b] + rest)
  {
  }

  /** The pending token absorbs a kept byte: the three parts still hold the kept bytes. */
  lemma CoversGrow(text: seq<Byte>, signedChar: bool, i: nat, s: Scanner, s': Scanner)
    requires s.start <= i < |text| && Holding(s.state) && Holding(s'.state)
    requires s'.start == s.start && s'.tokens == s.tokens
    requires Kept(ModeOf(s.state), text[i], signedChar)
    requires ModeOf(s'.state) == NextMode(ModeOf(s.state), text[i])
    requires Covers(text, signedChar, s, i)
    ensures Covers(text, signedChar, s', i + 1)
  {
    var b := text[i];
    KeptStep(text, signedChar, i, ModeOf(s.state));
    assert text[s.start..i + 1] == text[s.start..i] + [b];
    Regroup(Concat(text, s.tokens), text[s.start..i], b, KeptFrom(text, signedChar, i + 1, ModeOf(s'.state)));
  }

  /** The pending token grows by the byte at `i`, moving to state `st`. */
  lemma GrowPending(text: seq<Byte>, signedChar: bool, i: nat, s: Scanner, st: State)
    requires i < |text| && Inv(text, signedChar, i, s) == true && Holding(s.state) && Holding(st)
    requires Kept(ModeOf(s.state), text[i], signedChar)
    requires ModeOf(st) == NextMode(ModeOf(s.state), text[i])
    requires ModeOf(st) == Code ==> Classify(text[i], signedChar) !in {SpaceChar, EscChar}
    requires HoldOk(text, signedChar, s.(state := st), i + 1) == true
    ensures Inv(text, signedChar, i + 1, CountLine(s, text[i]).(state := st)) == true
  {
    Advance(text, i);
    CoversGrow(text, signedChar, i, s, CountLine(s, text[i]).(state := st));
  }

  /** A run state keeps its state while the byte extends its run. */
  lemma RunCloses(text: seq<Byte>, signedChar: bool, i: nat, s: Scanner)
    requires i < |text| && Sane(s, i) && s.state in {OpState, IdentState, NumState}
    requires Extends(StateRun(s.state), Classify(text[i], signedChar))
    ensures Close(text, i, Classify(text[i], signedChar), CountLine(s, text[i])) == CountLine(s, text[i]).(state := s.state)
  {
  }

  lemma RunGrows(text: seq<Byte>, signedChar: bool, i: nat, s: Scanner)
    requires i < |text| && Inv(text, signedChar, i, s) == true && s.state in {OpState, IdentState, NumState}
    requires Extends(StateRun(s.state), Classify(text[i], signedChar))
    ensures Closes(text, signedChar, i, Close(text, i, Classify(text[i], signedChar), CountLine(s, text[i]))) == true
  {
    RunCloses(text, signedChar, i, s);
    RunHolds(text, signedChar, i, s, s.state);
    GrowPending(text, signedChar, i, s, s.state);
  }

  /** An operator run is emitted at the first byte that cannot extend it, then resolved. */
  lemma OpCloses(text: seq<Byte>, signedChar: bool, i: nat, s: Scanner)
    requires i < |text| && Sane(s, i) && s.state == OpState
    requires !Extends(OpRun, Classify(text[i], signedChar))
    ensures Close(text, i, Classify(text[i], signedChar), CountLine(s, text[i]))
            == CountLine(s, text[i]).(tokens := s.tokens + [ResolveOperator(text, Pending(s, i, Op))], state := NullState)
  {
  }

  lemma OpEnds(text: seq<Byte>, signedChar: bool, i: nat, s: Scanner)
    requires i < |text| && Inv(text, signedChar, i, s) == true && s.state == OpState
    requires !Extends(OpRun, Classify(text[i], signedChar))
    ensures Closes(text, signedChar, i, Close(text, i, Classify(text[i], signedChar), CountLine(s, text[i]))) == true
  {
    OpCloses(text, signedChar, i, s);
    OpShaped(text, signedChar, s, i);
    Emit(text, signedChar, i, s, ResolveOperator(text, Pending(s, i, Op)));
  }

  /** An identifier is emitted at the first byte that cannot extend it, then retagged. */
  lemma IdentCloses(text: seq<Byte>, signedChar: bool, i: nat, s: Scanner)
    requires i < |text| && Sane(s, i) && s.state == IdentState
    requires !Extends(IdentRun, Classify(text[i], signedChar))
    ensures Close(text, i, Classify(text[i], signedChar), CountLine(s, text[i]))
            == CountLine(s, text[i]).(tokens := s.tokens + [CheckKeyword(text, Pending(s, i, Ident))], state := NullState)
  {
  }

  lemma IdentEnds(text: seq<Byte>, signedChar: bool, i: nat, s: Scanner)
    requires i < |text| && Inv(text, signedChar, i, s) == true && s.state == IdentState
    requires !Extends(IdentRun, Classify(text[i], signedChar))
    ensures Closes(text, signedChar, i, Close(text, i, Classify(text[i], signedChar), CountLine(s, text[i]))) == true
  {
    IdentCloses(text, signedChar, i, s);
    IdentShaped(text, signedChar, s, i);
    Emit(text, signedChar, i, s, CheckKeyword(text, Pending(s, i, Ident)));
  }

  /**
    Inside a string every byte is kept and only moves between the string
    states: the pending literal stays a proper beginning of one.
   */
  lemma StrHolds(text: seq<Byte>, signedChar: bool, i: nat, s: Scanner, st: State)
    requires i < |text| && s.start <= i && s.state == StrState
    requires HoldOk(text, signedChar, s, i) == true
    requires st == Close(text, i, Classify(text[i], signedChar), s).state
    ensures HoldOk(text, signedChar, s.(state := st), i + 1) == true
  {
  }

  /** The byte after a backslash in a string is taken as it is. */
  lemma EscHolds(text: seq<Byte>, signedChar: bool, i: nat, s: Scanner)
    requires i < |text| && s.start <= i && s.state == StrEscState
    requires HoldOk(text, signedChar, s, i) == true
    ensures Close(text, i, Classify(text[i], signedChar), CountLine(s, text[i])) == CountLine(s, text[i]).(state := StrState)
    ensures HoldOk(text, signedChar, s.(state := StrState), i + 1) == true
  {
  }

  /** The string state moves by class: a backslash escapes, a quote closes, anything else stays. */
  lemma StrMoves(text: seq<Byte>, signedChar: bool, i: nat, s: Scanner)
    requires i < |text| && s.start <= i && s.state == StrState
    ensures var c := Classify(text[i], signedChar);
            var st := Close(text, i, c, s).state;
            Close(text, i, c, CountLine(s, text[i])) == CountLine(s, text[i]).(state := st)
            && Holding(st) && ModeOf(st) == NextMode(InString, text[i])
            && (ModeOf(st) == Code ==> c !in {SpaceChar, EscChar})
  {
  }

  lemma CloseStr(text: seq<Byte>, signedChar: bool, i: nat, s: Scanner)
    requires i < |text| && Inv(text, signedChar, i, s) == true && s.state == StrState
    ensures Closes(text, signedChar, i, Close(text, i, Classify(text[i], signedChar), CountLine(s, text[i]))) == true
  {
    var st := Close(text, i, Classify(text[i], signedChar), s).state;
    StrMoves(text, signedChar, i, s);
    StrHolds(text, signedChar, i, s, st);
    GrowPending(text, signedChar, i, s, st);
  }

  lemma CloseStrEsc(text: seq<Byte>, signedChar: bool, i: nat, s: Scanner)
    requires i < |text| && Inv(text, signedChar, i, s) == true && s.state == StrEscState
    ensures Closes(text, signedChar, i, Close(text, i, Classify(text[i], signedChar), CountLine(s, text[i]))) == true
  {
    EscHolds(text, signedChar, i, s);
    GrowPending(text, signedChar, i, s, StrState);
  }

  /** Whitespace and backslashes leave the null state as it is; `#` enters a comment. */
  lemma OpenSkips(text: seq<Byte>, signedChar: bool, i: nat, s: Scanner)
    requires i < |text| && s.state == NullState && s.start <= i
    requires Classify(text[i], signedChar) in {SpaceChar, EscChar, CommentChar}
    ensures var r := Open(i, Classify(text[i], signedChar), s);
            r.tokens == s.tokens && r.line == s.line && r.start == s.start && !Holding(r.state)
            && !Kept(Code, text[i], signedChar) && ModeOf(r.state) == NextMode(Code, text[i])
            && (r.state == NullState
                <==> NextMode(Code, text[i]) == Code && Classify(text[i], signedChar) in {SpaceChar, EscChar})
  {
  }

  /** Nothing pending after byte `i`: the state reads as the mode, and is null exactly when idle. */
  lemma NothingPending(text: seq<Byte>, signedChar: bool, i: nat, r: Scanner)
    requires i < |text| && r.start <= i + 1 && !Holding(r.state)
    requires ModeAt(text, i + 1) == NextMode(Code, text[i]) && ModeOf(r.state) == NextMode(Code, text[i])
    requires r.state == NullState
             <==> NextMode(Code, text[i]) == Code && Classify(text[i], signedChar) in {SpaceChar, EscChar}
    ensures ModeOf(r.state) == ModeAt(text, i + 1)
    ensures r.state == NullState <==> Idle(text, signedChar, i + 1)
    ensures HoldOk(text, signedChar, r, i + 1) == true
  {
  }

  /** The second switch, from the null state, when the byte begins no token. */
  lemma OpenNothing(text: seq<Byte>, signedChar: bool, i: nat, s: Scanner, r: Scanner)
    requires MidInv(text, signedChar, i, s) == true
    requires r.tokens == s.tokens && r.line == s.line && r.start == s.start && !Holding(r.state)
    requires !Kept(Code, text[i], signedChar) && ModeOf(r.state) == NextMode(Code, text[i])
    requires r.state == NullState
             <==> NextMode(Code, text[i]) == Code && Classify(text[i], signedChar) in {SpaceChar, EscChar}
    ensures Inv(text, signedChar, i + 1, r) == true
  {
    Advance(text, i);
    NothingPending(text, signedChar, i, r);
    CoversPass(text, signedChar, i, s.tokens, r);
    TokensOkWiden(text, signedChar, s.tokens, i, i + 1);
  }

  /**
    The second switch begins a token at a byte of code that is kept, in the
    state its class picks, which reads as the mode after the byte.
   */
  lemma OpenHolds(text: seq<Byte>, signedChar: bool, i: nat, s: Scanner)
    requires i < |text| && s.state == NullState && s.start <= i
    requires Classify(text[i], signedChar) !in {SpaceChar, EscChar, CommentChar}
    ensures var r := Open(i, Classify(text[i], signedChar), s);
            r.tokens == s.tokens && r.line == s.line && r.start == i && r.startLine == s.line
            && Holding(r.state) && Kept(Code, text[i], signedChar) && ModeOf(r.state) == NextMode(Code, text[i])
  {
  }

  /** The one-byte token begun by the second switch is a proper beginning of a token of its state. */
  lemma BeginHolds(text: seq<Byte>, signedChar: bool, i: nat, s: Scanner)
    requires i < |text| && s.state == NullState && s.start <= i
    requires Classify(text[i], signedChar) !in {SpaceChar, EscChar, CommentChar}
    ensures HoldOk(text, signedChar, Open(i, Classify(text[i], signedChar), s), i + 1) == true
  {
  }

  /** The second switch, from the null state, when the byte begins a token. */
  lemma OpenToken(text: seq<Byte>, signedChar: bool, i: nat, s: Scanner, r: Scanner)
    requires MidInv(text, signedChar, i, s) == true
    requires r.tokens == s.tokens && r.line == s.line && r.start == i && r.startLine == s.line && Holding(r.state)
    requires Kept(Code, text[i], signedChar) && Classify(text[i], signedChar) !in {SpaceChar, EscChar}
    requires ModeOf(r.state) == NextMode(Code, text[i]) && HoldOk(text, signedChar, r, i + 1) == true
    ensures Inv(text, signedChar, i + 1, r) == true
  {
    Advance(text, i);
    CoversBegin(text, signedChar, i, s.tokens, r);
  }

  /** The run states: grow the run, or end it at the first byte that cannot extend it. */
  lemma CloseRun(text: seq<Byte>, signedChar: bool, i: nat, s: Scanner)
    requires i < |text| && Inv(text, signedChar, i, s) == true && s.state in {OpState, IdentState, NumState}
    ensures Closes(text, signedChar, i, Close(text, i, Classify(text[i], signedChar), CountLine(s, text[i]))) == true
  {
    if Extends(StateRun(s.state), Classify(text[i], signedChar)) {
      RunGrows(text, signedChar, i, s);
    } else if s.state == OpState {
      OpEnds(text, signedChar, i, s);
    } else if s.state == IdentState {
      IdentEnds(text, signedChar, i, s);
    } else {
      EmitPending(text, signedChar, i, s);
    }
  }

  /** The first switch, for every state. */
  lemma CloseStep(text: seq<Byte>, signedChar: bool, i: nat, s: Scanner)
    requires i < |text| && Inv(text, signedChar, i, s) == true
    ensures Closes(text, signedChar, i, Close(text, i, Classify(text[i], signedChar), CountLine(s, text[i]))) == true
  {
    match s.state
    case NullState => CloseNull(text, signedChar, i, s);
    case CommentState => CloseComment(text, signedChar, i, s);
    case BracketState | SemicolonState | CommaState | StrEndState => EmitPending(text, signedChar, i, s);
    case OpState | IdentState | NumState => CloseRun(text, signedChar, i, s);
    case StrState => CloseStr(text, signedChar, i, s);
    case StrEscState => CloseStrEsc(text, signedChar, i, s);
  }

  /** One whole iteration of the loop keeps the invariant. */
  lemma StepPreserves(text: seq<Byte>, signedChar: bool, i: nat, s: Scanner)
    requires i < |text| && Inv(text, signedChar, i, s) == true
    ensures Inv(text, signedChar, i + 1, Step(text, signedChar, i, s)) == true
  {
    var c := Classify(text[i], signedChar);
    var s2 := Close(text, i, c, CountLine(s, text[i]));
    CloseStep(text, signedChar, i, s);
    if s2.state == NullState {
      if c in {SpaceChar, EscChar, CommentChar} {
        OpenSkips(text, signedChar, i, s2);
        OpenNothing(text, signedChar, i, s2, Open(i, c, s2));
      } else {
        OpenHolds(text, signedChar, i, s2);
        BeginHolds(text, signedChar, i, s2);
        OpenToken(text, signedChar, i, s2, Open(i, c, s2));
      }
    }
  }

  /** Before the first byte: nothing emitted, nothing pending, in code. */
  lemma InvStart(text: seq<Byte>, signedChar: bool)
    ensures Inv(text, signedChar, 0, Initial) == true
  {
    assert Concat(text, []) + PendingText(text, Initial, 0) == [];
  }

  /** The scanner after one more byte is one more step. */
  lemma ScanStep(text: seq<Byte>, signedChar: bool, i: nat)
    requires i < |text|
    ensures ScanPrefix(text, signedChar, i + 1) == Step(text, signedChar, i, ScanPrefix(text, signedChar, i))
  {
  }

  /** `StepPreserves`, naming the position after the step `n`. */
  lemma StepInto(text: seq<Byte>, signedChar: bool, i: nat, n: nat, s: Scanner)
    requires n == i + 1 && i < |text| && Inv(text, signedChar, i, s) == true
    ensures Inv(text, signedChar, n, Step(text, signedChar, i, s)) == true
  {
    StepPreserves(text, signedChar, i, s);
  }

  /** The invariant holds after every prefix of the text. */
  lemma {:induction false} ScanInvariant(text: seq<Byte>, signedChar: bool, n: nat)
    requires n <= |text|
    ensures Inv(text, signedChar, n, ScanPrefix(text, signedChar, n)) == true
  {
    if n == 0 {
      InvStart(text, signedChar);
    } else {
      ScanInvariant(text, signedChar, n - 1);
      assert ScanPrefix(text, signedChar, n) == Step(text, signedChar, n - 1, ScanPrefix(text, signedChar, n - 1));
      StepInto(text, signedChar, n - 1, n, ScanPrefix(text, signedChar, n - 1));
    }
  }
}
