/**
  Reference descriptions of the source text, independent of the tokenizer:
  line numbers, string literals, and which bytes a token stream should
  reproduce. The tokenizer's results are proved against these.
 */
module SourceText {
  import opened Wrappers
  import opened Strings
  import opened Tokens
  import opened CharClasses

  /** The number of newline bytes among the first `i` bytes. */
  function NewlinesBefore(text: seq<Byte>, i: nat): nat
    requires i <= |text|
  {
    if i == 0 then 0 else NewlinesBefore(text, i - 1) + (if text[i - 1] == '\n' then 1 else 0)
  }

  /** The line byte `i` is on, counting from 1. */
  function LineAt(text: seq<Byte>, i: nat): nat
    requires i <= |text|
  {
    1 + NewlinesBefore(text, i)
  }

  /**
    The position of the quote that closes a string literal, scanning from `i`;
    `escaped` says the byte before `i` was an escaping backslash. None when the
    text ends first.
   */
  function CloseQuote(text: seq<Byte>, i: nat, escaped: bool): (r: Option<nat>)
    ensures r.Some? ==> i <= r.value < |text| && text[r.value] == '"'
    decreases |text| - i
  {
    if i >= |text| then None
    else if escaped then CloseQuote(text, i + 1, false)
    else if text[i] == '"' then Some(i)
    else CloseQuote(text, i + 1, text[i] == '\\')
  }

  /** Where a reader of the source is: in code, in a string, just after a backslash in a string, or in a comment. */
  datatype Mode = Code | InString | InEscape | InComment

  function NextMode(m: Mode, b: Byte): Mode {
    match m
    case Code => if b == '#' then InComment else if b == '"' then InString else Code
    case InString => if b == '\\' then InEscape else if b == '"' then Code else InString
    case InEscape => InString
    case InComment => if b == '\n' then Code else InComment
  }

  /** The mode after reading the first `n` bytes. */
  function ModeAt(text: seq<Byte>, n: nat): Mode
    requires n <= |text|
  {
    if n == 0 then Code else NextMode(ModeAt(text, n - 1), text[n - 1])
  }

  /** Whether a byte read in mode `m` belongs to some token: strings are kept whole; in code, whitespace, backslashes and `#` are not. */
  predicate Kept(m: Mode, b: Byte, signedChar: bool) {
    match m
    case Code => b != '#' && b != '\\' && Classify(b, signedChar) != SpaceChar
    case InString | InEscape => true
    case InComment => false
  }

  /** The kept bytes from position `i` on, reading in mode `m`. */
  function KeptFrom(text: seq<Byte>, signedChar: bool, i: nat, m: Mode): seq<Byte>
    decreases |text| - i
  {
    if i >= |text| then []
    else
      (if Kept(m, text[i], signedChar) then [text[i]] else [])
      + KeptFrom(text, signedChar, i + 1, NextMode(m, text[i]))
  }

  /**
    The source without whitespace, backslashes and comments (from `#` up to
    and including the newline), all taken outside string literals.
   */
  function KeptText(text: seq<Byte>, signedChar: bool): seq<Byte> {
    KeptFrom(text, signedChar, 0, Code)
  }

  predicate AllInBuffer(text: seq<Byte>, ts: seq<Token>) {
    forall k :: 0 <= k < |ts| ==> ts[k].End() <= |text|
  }

  /** The texts of the tokens, concatenated in order. */
  function Concat(text: seq<Byte>, ts: seq<Token>): seq<Byte>
    requires AllInBuffer(text, ts)
  {
    if ts == [] then []
    else
      var t := ts[|ts| - 1];
      Concat(text, ts[..|ts| - 1]) + text[t.offset..t.End()]
  }

  lemma ConcatAppend(text: seq<Byte>, ts: seq<Token>, t: Token)
    requires AllInBuffer(text, ts) && t.End() <= |text|
    ensures AllInBuffer(text, ts + [t])
    ensures Concat(text, ts + [t]) == Concat(text, ts) + text[t.offset..t.End()]
  {
    assert (ts + [t])[..|ts|] == ts;
  }
}
