/**
  `CompilationUnit::tokenize` as a whole: the loop over every byte followed
  by the final switch, and what the resulting unit satisfies, stated against
  the reference descriptions of the source text. As in `LexerFacts`, the
  large predicates are written `P(...) == true` in contracts so that they
  stay whole at call sites.
 */
module Tokenizer {
  import opened Wrappers
  import opened Strings
  import opened Tokens
  import opened CharClasses
  import opened Keywords
  import opened Lexer
  import opened SourceText
  import opened LexerFacts

  /** The text ends inside a string literal: its closing quote is missing. */
  predicate EndsInString(text: seq<Byte>) {
    ModeAt(text, |text|) in {InString, InEscape}
  }

  /**
    What tokenizing promises about the unit `u` it leaves behind, given the
    unit's `status` and `errors` beforehand. The tokens are well formed and in
    buffer order, and each begins at a byte read in code, never inside a
    comment or a string. An unterminated string is an error and contributes no token;
    the tokens before it reproduce a prefix of the kept bytes. Otherwise the
    tokens reproduce exactly the kept bytes, and the unit is marked tokenized
    precisely when the text ends idle (in code, after whitespace or a
    backslash); any other ending leaves the status as it was.
   */
  predicate Tokenized(text: seq<Byte>, signedChar: bool, status: UnitStatus, errors: bool, u: Unit) {
    TokensOk(text, signedChar, u.tokens, |text|)
    && AllInBuffer(text, u.tokens)
    && if EndsInString(text) then
         u.status == UnitError && u.errors && Concat(text, u.tokens) <= KeptText(text, signedChar)
       else
         Concat(text, u.tokens) == KeptText(text, signedChar) && u.errors == errors
         && u.status == (if Idle(text, signedChar, |text|) then UnitToken else status)
  }

  /** Emitting the pending token `t` after the last byte. */
  lemma EmitAtEnd(text: seq<Byte>, signedChar: bool, s: Scanner, t: Token)
    requires Inv(text, signedChar, |text|, s) == true && Holding(s.state) && ModeOf(s.state) == Code
    requires t.offset == s.start && t.End() == |text| && t.line == s.startLine
    requires 0 < t.length && Shaped(text, signedChar, t) == true
    ensures TokensOk(text, signedChar, s.tokens + [t], |text|) && AllInBuffer(text, s.tokens + [t])
    ensures Concat(text, s.tokens + [t]) == KeptText(text, signedChar)
  {
    TokensOkAppend(text, signedChar, s.tokens, t, |text|);
    ConcatAppend(text, s.tokens, t);
    assert KeptFrom(text, signedChar, |text|, Code) == [];
    assert PendingText(text, s, |text|) == text[t.offset..t.End()];
  }

  /** The final switch for a pending token emitted as it is; an operator run is left unresolved. */
  lemma FinishPending(text: seq<Byte>, signedChar: bool, s: Scanner, status: UnitStatus, errors: bool)
    requires Inv(text, signedChar, |text|, s) == true
    requires s.state in {OpState, BracketState, NumState, SemicolonState, CommaState, StrEndState}
    ensures Tokenized(text, signedChar, status, errors, Finish(text, s, status, errors)) == true
  {
    var t := Pending(s, |text|, PendingKind(s.state));
    assert Finish(text, s, status, errors) == Unit(s.tokens + [t], status, errors);
    HeldShaped(text, signedChar, s, |text|);
    assert !EndsInString(text) && !Idle(text, signedChar, |text|);
    EmitAtEnd(text, signedChar, s, t);
  }

  /** The final switch for a pending identifier, retagged by the keyword check. */
  lemma FinishIdent(text: seq<Byte>, signedChar: bool, s: Scanner, status: UnitStatus, errors: bool)
    requires Inv(text, signedChar, |text|, s) == true && s.state == IdentState
    ensures Tokenized(text, signedChar, status, errors, Finish(text, s, status, errors)) == true
  {
    var t := CheckKeyword(text, Pending(s, |text|, Ident));
    IdentShaped(text, signedChar, s, |text|);
    assert Finish(text, s, status, errors) == Unit(s.tokens + [t], status, errors);
    assert !EndsInString(text) && !Idle(text, signedChar, |text|);
    EmitAtEnd(text, signedChar, s, t);
  }

  /** The final switch when nothing is pending: the null, comment and open-string states. */
  lemma FinishIdle(text: seq<Byte>, signedChar: bool, s: Scanner, status: UnitStatus, errors: bool)
    requires Inv(text, signedChar, |text|, s) == true && s.state in {NullState, CommentState, StrState, StrEscState}
    ensures Finish(text, s, status, errors).tokens == s.tokens
    ensures Tokenized(text, signedChar, status, errors, Finish(text, s, status, errors)) == true
  {
    var n := |text|;
    assert KeptFrom(text, signedChar, n, ModeOf(s.state)) == [];
    var pre := Concat(text, s.tokens);
    assert pre + PendingText(text, s, n) + [] == pre + PendingText(text, s, n);
    assert pre <= pre + PendingText(text, s, n);
    TokensOkWiden(text, signedChar, s.tokens, Bound(s, n), n);
  }

  /** The final switch, for every state, after the invariant held at the end of the text. */
  lemma FinishOk(text: seq<Byte>, signedChar: bool, s: Scanner, status: UnitStatus, errors: bool)
    requires Inv(text, signedChar, |text|, s) == true
    ensures Tokenized(text, signedChar, status, errors, Finish(text, s, status, errors)) == true
  {
    if s.state in {NullState, CommentState, StrState, StrEscState} {
      FinishIdle(text, signedChar, s, status, errors);
    } else if s.state == IdentState {
      FinishIdent(text, signedChar, s, status, errors);
    } else {
      FinishPending(text, signedChar, s, status, errors);
    }
  }

  /** `tokenize` on a unit whose buffer is `text` and whose status and error flag are `status` and `errors`. */
  function Tokenize(text: seq<Byte>, signedChar: bool, status: UnitStatus, errors: bool): (u: Unit)
    ensures Tokenized(text, signedChar, status, errors, u) == true
  {
    var s := ScanPrefix(text, signedChar, |text|);
    ScanInvariant(text, signedChar, |text|);
    FinishOk(text, signedChar, s, status, errors);
    Finish(text, s, status, errors)
  }

  /** A word inside a comment is no token: in `#x`, newline, `x`, only the second `x` may be emitted. */
  lemma CommentedWordIsNoToken(signedChar: bool)
    ensures !Tokenized("#x\nx", signedChar, UnitRead, false, Unit([Token(1, 1, 1, Ident, None)], UnitRead, false))
  {
    assert ModeAt("#x\nx", 1) == InComment;
  }

  /** A word inside an unterminated string is no token: in `x"x` the second `x` is never emitted. */
  lemma QuotedWordIsNoToken(signedChar: bool)
    ensures !Tokenized("x\"x", signedChar, UnitRead, false, Unit([Token(0, 1, 1, Ident, None), Token(2, 1, 1, Ident, None)], UnitError, true))
  {
    var text: seq<Byte> := "x\"x";
    var u := Unit([Token(0, 1, 1, Ident, None), Token(2, 1, 1, Ident, None)], UnitError, true);
    assert ModeAt(text, 2) == InString;
    assert !TokenOk(text, signedChar, u.tokens[1], |text|);
  }

  /** The loop of `tokenize`, one step per byte. */
  method Scan(text: seq<Byte>, signedChar: bool) returns (s: Scanner)
    ensures s == ScanPrefix(text, signedChar, |text|)
  {
    s := Initial;
    for i := 0 to |text|
      invariant s == ScanPrefix(text, signedChar, i)
    {
      ScanStep(text, signedChar, i);
      s := Step(text, signedChar, i, s);
    }
  }

  /** `tokenize` written as the loop followed by the final switch. */
  method TokenizeBuffer(text: seq<Byte>, signedChar: bool, status: UnitStatus, errors: bool) returns (u: Unit)
    ensures u == Tokenize(text, signedChar, status, errors)
  {
    var s := Scan(text, signedChar);
    u := Finish(text, s, status, errors);
  }
}
