/**
  The byte classifier `get_type` of src/compilation_unit.cc. Whether the
  compiler's `char` is signed is a parameter: the same byte can classify
  differently under the two choices.
 */
module CharClasses {
  import opened Strings

  /** `CharType`, in declaration order. */
  datatype CharClass =
    | SpaceChar | PunctChar | BracketChar | IdentChar | NumChar | EscChar
    | SemicolonChar | CommaChar | QuoteChar | PeriodChar | CommentChar

  /**
    The integer value of a byte read as a C `char`: the value in the `char`'s
    range that has the byte's bit pattern, in two's complement when signed.
   */
  function CharValue(c: Byte, signedChar: bool): (v: int)
    ensures -128 <= v < 256
    ensures v == c as int || (signedChar && v == c as int - 256)
    ensures (v - c as int) % 256 == 0
    ensures if signedChar then -128 <= v < 128 else 0 <= v < 256
  {
    if signedChar && c as int >= 0x80 then c as int - 0x100 else c as int
  }

  /** `c & 0x80` for a `char` promoted to `int`: bit 7 of its two's-complement form. */
  predicate HighBit(v: int) {
    v < 0 || v >= 0x80
  }

  function Classify(c: Byte, signedChar: bool): (r: CharClass)
    ensures r == SpaceChar <==> c as int <= 0x20 || c as int == 0x7f || (signedChar && c as int >= 0x80)
    ensures r == NumChar <==> '0' <= c <= '9'
    ensures r == IdentChar <==> 'A' <= c <= 'Z' || 'a' <= c <= 'z' || c == '_' || (!signedChar && c as int >= 0x80)
    ensures r == BracketChar <==> c in {'(', ')', '[', ']', '{', '}'}
    ensures r == EscChar <==> c == '\\'
    ensures r == SemicolonChar <==> c == ';'
    ensures r == CommaChar <==> c == ','
    ensures r == QuoteChar <==> c == '"'
    ensures r == PeriodChar <==> c == '.'
    ensures r == CommentChar <==> c == '#'
  {
    var v := CharValue(c, signedChar);
    if v <= ' ' as int || v == 0x7f then SpaceChar
    else if '0' as int <= v <= '9' as int then NumChar
    else if ('A' as int <= v <= 'Z' as int) || ('a' as int <= v <= 'z' as int) then IdentChar
    else if v == '_' as int || HighBit(v) then IdentChar
    else if v == '(' as int || v == ')' as int then BracketChar
    else if v == '[' as int || v == ']' as int then BracketChar
    else if v == '{' as int || v == '}' as int then BracketChar
    else if v == '\\' as int then EscChar
    else if v == ';' as int then SemicolonChar
    else if v == ',' as int then CommaChar
    else if v == '"' as int then QuoteChar
    else if v == '.' as int then PeriodChar
    else if v == '#' as int then CommentChar
    else PunctChar
  }

  /**
    With a signed `char` every byte from 0x80 up is negative and so already
    whitespace at the first test: no byte reaches the high-bit test as an identifier byte.
   */
  lemma SignedHighBytesAreSpace(c: Byte)
    requires c as int >= 0x80
    ensures Classify(c, true) == SpaceChar
    ensures Classify(c, false) == IdentChar
  {
  }

  /** NUL and the newline are whitespace under both readings. */
  lemma NulAndNewlineAreSpace(signedChar: bool)
    ensures Classify(NUL, signedChar) == SpaceChar
    ensures Classify('\n', signedChar) == SpaceChar
  {
  }
}
