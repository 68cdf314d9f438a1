/**
  The keyword retagger `check_keyword` of src/compilation_unit.cc: it looks
  at the identifier token just emitted and may change its kind, and for the
  word operators its operator code. It never moves or resizes the token.
 */
module Keywords {
  import opened Wrappers
  import opened Strings
  import opened Tokens

  /** The retagged token: a keyword kind, and for a word operator its code. */
  function Retag(t: Token, kind: TokenKind): Token {
    t.(kind := kind)
  }

  function RetagOp(t: Token, o: Operator): Token {
    t.(kind := Op, op := Some(Code(o)))
  }

  /**
    `check_keyword` on token `t`. The source compares with `==`, which is a
    prefix test (see `Strings.EqualsLiteralIsPrefix`), and its `case 'd'`,
    `case 'e'`, `case 'f'` and `case 'n'` arms begin with `break`, so nothing
    in those arms runs.
   */
  function CheckKeyword(text: seq<Byte>, t: Token): (r: Token)
    requires t.End() <= |text|
    ensures r.offset == t.offset && r.length == t.length && r.line == t.line
    ensures t.length < 2 || t.length > 10 ==> r == t
    ensures t.length >= 2 && text[t.offset] in {'d', 'e', 'f', 'n'} ==> r == t
    ensures r != t ==> r.kind != Ident
    ensures r.kind == Op && t.kind != Op ==> r.op.Some?
    ensures r.kind != Op ==> r.op == t.op
  {
    var len := t.length;
    if len < 2 || len > 10 then t
    else
      var ident := t.Text();
      var b1 := text[t.offset + 1];
      match text[t.offset]
      case 'a' =>
        if b1 == 'n' then
          if len == 3 && text[t.offset + 2] == 'd' then RetagOp(t, And) else t
        else if b1 == 's' then
          if len == 2 then RetagOp(t, Cast) else t
        else t
      case 'b' =>
        if EqualsLiteral(text, ident, "break") then Retag(t, Break) else t
      case 'c' =>
        if b1 == 'a' then
          if EqualsLiteral(text, ident, "case") then Retag(t, Case) else t
        else if b1 == 'l' then
          if EqualsLiteral(text, ident, "class") then Retag(t, Class) else t
        else if b1 == 'o' then
          if EqualsLiteral(text, ident, "continue") then Retag(t, Continue) else t
        else t
      case 'd' => t
      case 'e' => t
      case 'f' => t
      case 'i' =>
        if b1 == 'm' then
          if EqualsLiteral(text, ident, "import") then Retag(t, Import) else t
        else if b1 == 'n' then
          if len == 2 then RetagOp(t, In) else t
        else t
      case 'n' => t
      case 'o' =>
        if len == 2 && b1 == 'r' then RetagOp(t, Or) else t
      case 'r' =>
        if EqualsLiteral(text, ident, "return") then Retag(t, Return) else t
      case 's' =>
        if EqualsLiteral(text, ident, "struct") then Retag(t, Struct)
        else if EqualsLiteral(text, ident, "switch") then Retag(t, Switch)
        else t
      case 't' =>
        if EqualsLiteral(text, ident, "true") then Retag(t, Constant) else t
      case 'w' =>
        if EqualsLiteral(text, ident, "while") then Retag(t, While)
        else if EqualsLiteral(text, ident, "with") then Retag(t, With)
        else t
      case 'x' =>
        if EqualsLiteral(text, ident, "xor") then RetagOp(t, Xor) else t
      case 'y' =>
        if EqualsLiteral(text, ident, "yield") then Retag(t, Yield) else t
      case _ => t
  }

  /** What a keyword match does to a token: its new kind, and the operator code of a word operator. */
  datatype Keyword = Keyword(kind: TokenKind, op: Option<Operator>)

  /**
    The keyword table as the retagger actually applies it: the word operators
    `and`, `as`, `in` and `or` only when spelled out in full; every other entry
    for any word of at least two bytes that is a prefix of it. No entry starts
    with `d`, `e`, `f` or `n`.
   */
  function KeywordOf(w: seq<Byte>): Option<Keyword> {
    if w == "and" then Some(Keyword(Op, Some(And)))
    else if w == "as" then Some(Keyword(Op, Some(Cast)))
    else if w == "in" then Some(Keyword(Op, Some(In)))
    else if w == "or" then Some(Keyword(Op, Some(Or)))
    else if |w| < 2 then None
    else if w <= "break" then Some(Keyword(Break, None))
    else if w <= "case" then Some(Keyword(Case, None))
    else if w <= "class" then Some(Keyword(Class, None))
    else if w <= "continue" then Some(Keyword(Continue, None))
    else if w <= "import" then Some(Keyword(Import, None))
    else if w <= "return" then Some(Keyword(Return, None))
    else if w <= "struct" then Some(Keyword(Struct, None))
    else if w <= "switch" then Some(Keyword(Switch, None))
    else if w <= "true" then Some(Keyword(Constant, None))
    else if w <= "while" then Some(Keyword(While, None))
    else if w <= "with" then Some(Keyword(With, None))
    else if w <= "xor" then Some(Keyword(Op, Some(Xor)))
    else if w <= "yield" then Some(Keyword(Yield, None))
    else None
  }

  function ApplyKeyword(t: Token, k: Option<Keyword>): Token {
    match k
    case None => t
    case Some(Keyword(kind, None)) => t.(kind := kind)
    case Some(Keyword(kind, Some(o))) => t.(kind := kind, op := Some(Code(o)))
  }

  /** A word of two bytes or more that is a table entry or a prefix of one shares its first two bytes. */
  lemma SameHead(w: seq<Byte>, lit: seq<Byte>)
    requires |w| >= 2 && |lit| >= 2
    ensures w <= lit || w == lit ==> w[0] == lit[0] && w[1] == lit[1]
  {
  }

  lemma SameHeads(w: seq<Byte>)
    requires |w| >= 2
    ensures w[0] != 'a' ==> w != "and" && w != "as"
    ensures w[0] != 'i' ==> w != "in"
    ensures w[0] != 'o' ==> w != "or"
    ensures w[0] != 'b' ==> !(w <= "break")
    ensures w[0] != 'c' ==> !(w <= "case") && !(w <= "class") && !(w <= "continue")
    ensures w[0] != 'i' ==> !(w <= "import")
    ensures w[0] != 'r' ==> !(w <= "return")
    ensures w[0] != 's' ==> !(w <= "struct") && !(w <= "switch")
    ensures w[0] != 't' ==> !(w <= "true")
    ensures w[0] != 'w' ==> !(w <= "while") && !(w <= "with")
    ensures w[0] != 'x' ==> !(w <= "xor")
    ensures w[0] != 'y' ==> !(w <= "yield")
    ensures w[1] != 'a' ==> !(w <= "case")
    ensures w[1] != 'l' ==> !(w <= "class")
    ensures w[1] != 'o' ==> !(w <= "continue")
    ensures w[1] != 'm' ==> !(w <= "import")
    ensures w[1] != 'n' ==> w != "in"
    ensures w[1] != 't' ==> !(w <= "struct")
    ensures w[1] != 'h' ==> !(w <= "while")
    ensures w[1] != 'i' ==> !(w <= "with")
  {
    SameHead(w, "and");
    SameHead(w, "as");
    SameHead(w, "in");
    SameHead(w, "or");
    SameHead(w, "break");
    SameHead(w, "case");
    SameHead(w, "class");
    SameHead(w, "continue");
    SameHead(w, "import");
    SameHead(w, "return");
    SameHead(w, "struct");
    SameHead(w, "switch");
    SameHead(w, "true");
    SameHead(w, "while");
    SameHead(w, "with");
    SameHead(w, "xor");
    SameHead(w, "yield");
  }

  /** The table's entries for a word of two to ten bytes starting with `a`: only `and` and `as`, in full. */
  lemma TableWordA(text: seq<Byte>, t: Token)
    requires t.End() <= |text|
    requires NulFree(Bytes(text, t.Text()))
    requires 2 <= t.length <= 10 && text[t.offset] == 'a'
    ensures CheckKeyword(text, t) == ApplyKeyword(t, KeywordOf(Bytes(text, t.Text())))
  {
    var w := Bytes(text, t.Text());
    assert w[0] == text[t.offset] && w[1] == text[t.offset + 1];
    SameHeads(w);
    if t.length == 3 {
      assert w[2] == text[t.offset + 2];
    }
  }

  /** Starting with `i`: `in` in full, or a prefix of `import`. */
  lemma TableWordI(text: seq<Byte>, t: Token)
    requires t.End() <= |text|
    requires NulFree(Bytes(text, t.Text()))
    requires 2 <= t.length <= 10 && text[t.offset] == 'i'
    ensures CheckKeyword(text, t) == ApplyKeyword(t, KeywordOf(Bytes(text, t.Text())))
  {
    var v := t.Text();
    var w := Bytes(text, v);
    assert w[0] == text[t.offset] && w[1] == text[t.offset + 1];
    SameHeads(w);
    EqualsLiteralIsPrefix(text, v, "import");
    assert KeywordOf(w) ==
      if w == "in" then Some(Keyword(Op, Some(In)))
      else if w <= "import" then Some(Keyword(Import, None))
      else None;
  }

  /** Starting with `o`: only `or`, in full. */
  lemma TableWordO(text: seq<Byte>, t: Token)
    requires t.End() <= |text|
    requires NulFree(Bytes(text, t.Text()))
    requires 2 <= t.length <= 10 && text[t.offset] == 'o'
    ensures CheckKeyword(text, t) == ApplyKeyword(t, KeywordOf(Bytes(text, t.Text())))
  {
    var w := Bytes(text, t.Text());
    assert w[0] == text[t.offset] && w[1] == text[t.offset + 1];
    SameHeads(w);
    if t.length == 2 && w[1] == 'r' {
      assert w == "or";
    }
    assert KeywordOf(w) == if w == "or" then Some(Keyword(Op, Some(Or))) else None;
  }

  /** Starting with a letter that has one entry: a prefix of that entry. */
  lemma TableSingleKeyword(text: seq<Byte>, t: Token, lit: seq<Byte>, k: Keyword)
    requires t.End() <= |text|
    requires NulFree(Bytes(text, t.Text()))
    requires 2 <= t.length <= 10
    requires (text[t.offset], lit, k) in {
               ('b', "break", Keyword(Break, None)), ('r', "return", Keyword(Return, None)),
               ('t', "true", Keyword(Constant, None)), ('x', "xor", Keyword(Op, Some(Xor))),
               ('y', "yield", Keyword(Yield, None))}
    ensures CheckKeyword(text, t) == ApplyKeyword(t, KeywordOf(Bytes(text, t.Text())))
  {
    var v := t.Text();
    var w := Bytes(text, v);
    assert w[0] == text[t.offset] && w[1] == text[t.offset + 1];
    SameHeads(w);
    EqualsLiteralIsPrefix(text, v, lit);
    assert KeywordOf(w) == if w <= lit then Some(k) else None;
  }

  lemma TableKeywordsC(text: seq<Byte>, t: Token)
    requires t.End() <= |text|
    requires NulFree(Bytes(text, t.Text()))
    requires 2 <= t.length <= 10
    requires text[t.offset] == 'c'
    ensures CheckKeyword(text, t) == ApplyKeyword(t, KeywordOf(Bytes(text, t.Text())))
  {
    var v := t.Text();
    var w := Bytes(text, v);
    assert w[0] == text[t.offset] && w[1] == text[t.offset + 1];
    SameHeads(w);
    EqualsLiteralIsPrefix(text, v, "case");
    EqualsLiteralIsPrefix(text, v, "class");
    EqualsLiteralIsPrefix(text, v, "continue");
    assert KeywordOf(w) ==
      if w <= "case" then Some(Keyword(Case, None))
      else if w <= "class" then Some(Keyword(Class, None))
      else if w <= "continue" then Some(Keyword(Continue, None))
      else None;
  }

  lemma TablePairedKeywords(text: seq<Byte>, t: Token)
    requires t.End() <= |text|
    requires NulFree(Bytes(text, t.Text()))
    requires 2 <= t.length <= 10
    requires text[t.offset] in {'s', 'w'}
    ensures CheckKeyword(text, t) == ApplyKeyword(t, KeywordOf(Bytes(text, t.Text())))
  {
    var v := t.Text();
    var w := Bytes(text, v);
    assert w[0] == text[t.offset] && w[1] == text[t.offset + 1];
    SameHeads(w);
    if text[t.offset] == 's' {
      EqualsLiteralIsPrefix(text, v, "struct");
      EqualsLiteralIsPrefix(text, v, "switch");
      assert KeywordOf(w) ==
        if w <= "struct" then Some(Keyword(Struct, None))
        else if w <= "switch" then Some(Keyword(Switch, None))
        else None;
    } else {
      EqualsLiteralIsPrefix(text, v, "while");
      EqualsLiteralIsPrefix(text, v, "with");
      assert KeywordOf(w) ==
        if w <= "while" then Some(Keyword(While, None))
        else if w <= "with" then Some(Keyword(With, None))
        else None;
    }
  }

  /** For an identifier without NUL bytes, `check_keyword` applies exactly the keyword table. */
  lemma CheckKeywordIsTable(text: seq<Byte>, t: Token)
    requires t.End() <= |text|
    requires NulFree(Bytes(text, t.Text()))
    ensures CheckKeyword(text, t) == ApplyKeyword(t, KeywordOf(Bytes(text, t.Text())))
  {
    var w := Bytes(text, t.Text());
    if 2 <= t.length <= 10 {
      var b0 := text[t.offset];
      if b0 == 'a' {
        TableWordA(text, t);
      } else if b0 == 'i' {
        TableWordI(text, t);
      } else if b0 == 'o' {
        TableWordO(text, t);
      } else if b0 == 'b' {
        TableSingleKeyword(text, t, "break", Keyword(Break, None));
      } else if b0 == 'r' {
        TableSingleKeyword(text, t, "return", Keyword(Return, None));
      } else if b0 == 't' {
        TableSingleKeyword(text, t, "true", Keyword(Constant, None));
      } else if b0 == 'x' {
        TableSingleKeyword(text, t, "xor", Keyword(Op, Some(Xor)));
      } else if b0 == 'y' {
        TableSingleKeyword(text, t, "yield", Keyword(Yield, None));
      } else if b0 == 'c' {
        TableKeywordsC(text, t);
      } else if b0 in {'s', 'w'} {
        TablePairedKeywords(text, t);
      } else {
        assert w[0] == b0;
        SameHeads(w);
      }
    } else if t.length > 10 {
      assert !(w <= "continue");
    }
  }

  /**
    Consequences of the prefix comparison: `wh`, `tr` and `xo` are retagged
    like `while`, `true` and `xor`.
   */
  lemma KeywordPrefixMatches(text: seq<Byte>, t: Token)
    requires t.End() <= |text|
    ensures Bytes(text, t.Text()) == "wh" ==> CheckKeyword(text, t) == t.(kind := While)
    ensures Bytes(text, t.Text()) == "tr" ==> CheckKeyword(text, t) == t.(kind := Constant)
    ensures Bytes(text, t.Text()) == "xo" ==> CheckKeyword(text, t) == t.(kind := Op, op := Some(Code(Xor)))
  {
    var w := Bytes(text, t.Text());
    if w == "wh" {
      PrefixWh(text, t);
    } else if w == "tr" {
      PrefixTr(text, t);
    } else if w == "xo" {
      PrefixXo(text, t);
    }
  }

  lemma PrefixWh(text: seq<Byte>, t: Token)
    requires t.End() <= |text| && Bytes(text, t.Text()) == "wh"
    ensures CheckKeyword(text, t) == t.(kind := While)
  {
    var w := Bytes(text, t.Text());
    assert NUL !in w;
    CheckKeywordIsTable(text, t);
    assert KeywordOf(w) == Some(Keyword(While, None));
  }

  lemma PrefixTr(text: seq<Byte>, t: Token)
    requires t.End() <= |text| && Bytes(text, t.Text()) == "tr"
    ensures CheckKeyword(text, t) == t.(kind := Constant)
  {
    var w := Bytes(text, t.Text());
    assert NUL !in w;
    CheckKeywordIsTable(text, t);
    assert KeywordOf(w) == Some(Keyword(Constant, None));
  }

  lemma PrefixXo(text: seq<Byte>, t: Token)
    requires t.End() <= |text| && Bytes(text, t.Text()) == "xo"
    ensures CheckKeyword(text, t) == t.(kind := Op, op := Some(Code(Xor)))
  {
    var w := Bytes(text, t.Text());
    assert NUL !in w;
    CheckKeywordIsTable(text, t);
    assert KeywordOf(w) == Some(Keyword(Op, Some(Xor)));
  }

  /**
    The word operators need their full spelling, and the disabled arms leave
    `do`, `for`, `not`, `null` and `else` identifiers.
   */
  lemma KeywordNonMatches(text: seq<Byte>, t: Token)
    requires t.End() <= |text|
    ensures Bytes(text, t.Text()) == "an" ==> CheckKeyword(text, t) == t
    ensures Bytes(text, t.Text()) in ["do", "for", "not", "null", "else"] ==> CheckKeyword(text, t) == t
  {
    var w := Bytes(text, t.Text());
    if w == "an" {
      assert NUL !in w;
      CheckKeywordIsTable(text, t);
      assert KeywordOf(w) == None;
    } else if t.length >= 2 {
      assert text[t.offset] == w[0];
    }
  }
}
