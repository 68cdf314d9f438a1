/**
  The operator resolver `check_operator` of src/compilation_unit.cc with its
  `SPLIT_TOKEN` and `MAYBE_ASSIGN` macros. It gives the operator-run token
  just emitted an operator code, and makes it a statement operator for the
  increment, decrement and assignment spellings.
 */
module Operators {
  import opened Wrappers
  import opened Strings
  import opened Tokens

  /**
    The decision `check_operator` takes for one run: the kind and operator the
    token ends up with, and the offset at which `SPLIT_TOKEN` cuts the run, if it does.
   */
  datatype Resolution = Resolution(kind: TokenKind, op: Operator, split: Option<int>)

  /**
    `SPLIT_TOKEN(idx)`: the source cuts off the bytes from `idx` on into a new
    token only when `idx > len`, a guard no call site can meet.
   */
  function SplitToken(idx: int, len: int, kind: TokenKind, op: Operator): (r: Resolution)
    ensures r.kind == kind && r.op == op
    ensures r.split.Some? <==> idx > len
    ensures r.split.Some? ==> r.split.value > len
  {
    Resolution(kind, op, if idx > len then Some(idx) else None)
  }

  /**
    `MAYBE_ASSIGN(idx)`: a `=` at `idx` makes the token a statement operator.
    Both of its `SPLIT_TOKEN` sites lie within the run, so it never splits.
   */
  function MaybeAssign(run: seq<Byte>, idx: nat, kind: TokenKind, op: Operator): (r: Resolution)
    ensures r.split == None && r.op == op
    ensures r.kind == if |run| > idx && run[idx] == '=' then StatementOp else kind
  {
    if |run| > idx then
      if run[idx] == '=' then SplitToken(idx + 1, |run|, StatementOp, op)
      else SplitToken(idx, |run|, kind, op)
    else Resolution(kind, op, None)
  }

  /**
    `check_operator` on a run of punctuation and periods. The code starts as
    `OP_UNK` and the kind as the `TOKEN_OP` the token was emitted with; the
    run is never split and only its first three bytes are looked at.
   */
  function CheckOperator(run: seq<Byte>): (r: Resolution)
    requires |run| >= 1
    ensures r.split == None
    ensures r.kind == Op || r.kind == StatementOp
    ensures r.kind == StatementOp ==> run[0] in {'%', '&', '*', '+', '-', '/', '<', '=', '>', '^', '|', '~'}
    ensures run[0] !in {'!', '%', '&', '*', '+', '-', '.', '/', ':', '<', '=', '>', '?', '@', '^', '|', '~'} ==> r == Resolution(Op, Unk, None)
  {
    var len := |run|;
    match run[0]
    case '!' =>
      if len > 1 && run[1] == '=' then SplitToken(2, len, Op, Neq) else SplitToken(1, len, Op, Unk)
    case '%' => MaybeAssign(run, 1, Op, Mod)
    case '&' =>
      if len > 1 then
        if run[1] == '&' then MaybeAssign(run, 2, Op, And) else MaybeAssign(run, 1, Op, BitAnd)
      else Resolution(Op, BitAnd, None)
    case '*' => MaybeAssign(run, 1, Op, Mul)
    case '+' =>
      if len > 1 && run[1] == '+' then SplitToken(2, len, StatementOp, Inc) else MaybeAssign(run, 1, Op, Add)
    case '-' =>
      if len > 1 && run[1] == '-' then SplitToken(2, len, StatementOp, Dec) else MaybeAssign(run, 1, Op, Sub)
    case '.' => SplitToken(1, len, Op, Access)
    case '/' => MaybeAssign(run, 1, Op, Div)
    case ':' => SplitToken(1, len, Op, Colon)
    case '<' =>
      if len == 1 then Resolution(Op, Lt, None)
      else if run[1] == '<' then MaybeAssign(run, 2, Op, LShift)
      else if run[1] == '=' then SplitToken(2, len, Op, Lte)
      else SplitToken(1, len, Op, Unk)
    case '=' =>
      if len > 1 && run[1] == '=' then SplitToken(2, len, Op, Eq) else SplitToken(1, len, StatementOp, Unk)
    case '>' =>
      if len == 1 then Resolution(Op, Gt, None)
      else if run[1] == '>' then MaybeAssign(run, 2, Op, RShift)
      else if run[1] == '=' then SplitToken(2, len, Op, Gte)
      else SplitToken(1, len, Op, Unk)
    case '?' =>
      if len > 1 && run[1] == '?' then SplitToken(2, len, Op, IfNull) else SplitToken(1, len, Op, CheckNull)
    case '@' => SplitToken(1, len, Op, Unk)
    case '^' =>
      if len > 1 then
        if run[1] == '^' then MaybeAssign(run, 2, Op, Xor) else MaybeAssign(run, 1, Op, BitXor)
      else Resolution(Op, BitXor, None)
    case '|' =>
      if len > 1 then
        if run[1] == '|' then MaybeAssign(run, 2, Op, Or) else MaybeAssign(run, 1, Op, BitOr)
      else Resolution(Op, BitOr, None)
    case '~' => MaybeAssign(run, 1, Op, BitNot)
    case _ => Resolution(Op, Unk, None)
  }

  /**
    The operator token `t` after `check_operator`: kind and code replaced, the
    view, offset and line untouched, and no token added.
   */
  function ResolveOperator(text: seq<Byte>, t: Token): (r: Token)
    requires t.End() <= |text|
    requires t.length >= 1
    ensures r.Text() == t.Text() && r.line == t.line
    ensures r.kind in {Op, StatementOp} && r.op.Some?
  {
    var res := CheckOperator(Bytes(text, t.Text()));
    t.(kind := res.kind, op := Some(Code(res.op)))
  }

  /** The run begins with the spelling `lit` (every operator spelling has at most three bytes). */
  predicate StartsWith(run: seq<Byte>, lit: seq<Byte>)
    requires |lit| <= 3
  {
    && |lit| <= |run|
    && (|lit| > 0 ==> run[0] == lit[0])
    && (|lit| > 1 ==> run[1] == lit[1])
    && (|lit| > 2 ==> run[2] == lit[2])
  }

  lemma StartsWithIsPrefix(run: seq<Byte>, lit: seq<Byte>)
    requires |lit| <= 3
    ensures StartsWith(run, lit) <==> lit <= run
  {
    if StartsWith(run, lit) {
      assert run[..|lit|] == lit;
    }
  }

  /**
    The operator spellings as a table, longest spelling first: the first entry
    the run starts with decides, except that `<` and `>` only count when they
    are the whole run. A run matching no entry is `OP_UNK`.
   */
  function OperatorOf(run: seq<Byte>): (TokenKind, Operator) {
    if StartsWith(run, "!=") then (Op, Neq)
    else if StartsWith(run, "%=") then (StatementOp, Mod)
    else if StartsWith(run, "%") then (Op, Mod)
    else if StartsWith(run, "&&=") then (StatementOp, And)
    else if StartsWith(run, "&&") then (Op, And)
    else if StartsWith(run, "&=") then (StatementOp, BitAnd)
    else if StartsWith(run, "&") then (Op, BitAnd)
    else if StartsWith(run, "*=") then (StatementOp, Mul)
    else if StartsWith(run, "*") then (Op, Mul)
    else if StartsWith(run, "++") then (StatementOp, Inc)
    else if StartsWith(run, "+=") then (StatementOp, Add)
    else if StartsWith(run, "+") then (Op, Add)
    else if StartsWith(run, "--") then (StatementOp, Dec)
    else if StartsWith(run, "-=") then (StatementOp, Sub)
    else if StartsWith(run, "-") then (Op, Sub)
    else if StartsWith(run, ".") then (Op, Access)
    else if StartsWith(run, "/=") then (StatementOp, Div)
    else if StartsWith(run, "/") then (Op, Div)
    else if StartsWith(run, ":") then (Op, Colon)
    else if StartsWith(run, "<<=") then (StatementOp, LShift)
    else if StartsWith(run, "<<") then (Op, LShift)
    else if StartsWith(run, "<=") then (Op, Lte)
    else if run == "<" then (Op, Lt)
    else if StartsWith(run, "==") then (Op, Eq)
    else if StartsWith(run, "=") then (StatementOp, Unk)
    else if StartsWith(run, ">>=") then (StatementOp, RShift)
    else if StartsWith(run, ">>") then (Op, RShift)
    else if StartsWith(run, ">=") then (Op, Gte)
    else if run == ">" then (Op, Gt)
    else if StartsWith(run, "??") then (Op, IfNull)
    else if StartsWith(run, "?") then (Op, CheckNull)
    else if StartsWith(run, "^^=") then (StatementOp, Xor)
    else if StartsWith(run, "^^") then (Op, Xor)
    else if StartsWith(run, "^=") then (StatementOp, BitXor)
    else if StartsWith(run, "^") then (Op, BitXor)
    else if StartsWith(run, "||=") then (StatementOp, Or)
    else if StartsWith(run, "||") then (Op, Or)
    else if StartsWith(run, "|=") then (StatementOp, BitOr)
    else if StartsWith(run, "|") then (Op, BitOr)
    else if StartsWith(run, "~=") then (StatementOp, BitNot)
    else if StartsWith(run, "~") then (Op, BitNot)
    else (Op, Unk)
  }

  lemma TableForHeadsA(run: seq<Byte>)
    requires |run| >= 1 && run[0] in {'!', '%', '&', '*'}
    ensures (CheckOperator(run).kind, CheckOperator(run).op) == OperatorOf(run)
  {
  }

  lemma TableForHeadsB(run: seq<Byte>)
    requires |run| >= 1 && run[0] in {'+', '-', '.', '/', ':'}
    ensures (CheckOperator(run).kind, CheckOperator(run).op) == OperatorOf(run)
  {
  }

  lemma TableForHeadsC(run: seq<Byte>)
    requires |run| >= 1 && run[0] in {'<', '=', '>'}
    ensures (CheckOperator(run).kind, CheckOperator(run).op) == OperatorOf(run)
  {
  }

  lemma TableForHeadsD(run: seq<Byte>)
    requires |run| >= 1 && run[0] in {'?', '@', '^', '|', '~'}
    ensures (CheckOperator(run).kind, CheckOperator(run).op) == OperatorOf(run)
  {
  }

  /** `check_operator` agrees with the spelling table on every run. */
  lemma CheckOperatorIsTable(run: seq<Byte>)
    requires |run| >= 1
    ensures (CheckOperator(run).kind, CheckOperator(run).op) == OperatorOf(run)
  {
    if run[0] in {'!', '%', '&', '*'} {
      TableForHeadsA(run);
    } else if run[0] in {'+', '-', '.', '/', ':'} {
      TableForHeadsB(run);
    } else if run[0] in {'<', '=', '>'} {
      TableForHeadsC(run);
    } else if run[0] in {'?', '@', '^', '|', '~'} {
      TableForHeadsD(run);
    }
  }

  /** The spellings that take a trailing `=` as an assignment, with the operator they keep. */
  const AssignmentBases: map<seq<Byte>, Operator> := map[
    "%" := Mod, "&" := BitAnd, "&&" := And, "*" := Mul, "+" := Add, "-" := Sub,
    "/" := Div, "<<" := LShift, ">>" := RShift, "^" := BitXor, "^^" := Xor,
    "|" := BitOr, "||" := Or, "~" := BitNot]

  /**
    A base operator followed by `=` becomes a statement operator that keeps the
    base operator's code, whatever follows it in the run.
   */
  lemma AssignmentKeepsBaseCode(base: seq<Byte>, rest: seq<Byte>)
    requires base in AssignmentBases
    ensures CheckOperator(base + "=" + rest) == Resolution(StatementOp, AssignmentBases[base], None)
  {
    var run := base + "=" + rest;
    assert run[0] == base[0];
    assert |base| == 2 ==> run[1] == base[1] && run[2] == '=';
    assert |base| == 1 ==> run[1] == '=';
  }

  /**
    The split guard never fires, so a run stays one token: `+++` is a single
    increment. `=` alone is an assignment with no operator code, `==` is
    equality, and both shift spellings get the one shift code.
   */
  lemma OperatorRuns()
    ensures CheckOperator("+++") == Resolution(StatementOp, Inc, None)
    ensures CheckOperator("++") == Resolution(StatementOp, Inc, None)
    ensures CheckOperator("--") == Resolution(StatementOp, Dec, None)
    ensures CheckOperator("=") == Resolution(StatementOp, Unk, None)
    ensures CheckOperator("==") == Resolution(Op, Eq, None)
    ensures Code(CheckOperator("<<").op) == Code(CheckOperator(">>").op) == Code(LShift)
  {
    IncrementRuns();
    AssignmentRuns();
    ShiftRuns();
  }

  lemma IncrementRuns()
    ensures CheckOperator("+++") == Resolution(StatementOp, Inc, None)
    ensures CheckOperator("++") == Resolution(StatementOp, Inc, None)
    ensures CheckOperator("--") == Resolution(StatementOp, Dec, None)
  {
  }

  lemma AssignmentRuns()
    ensures CheckOperator("=") == Resolution(StatementOp, Unk, None)
    ensures CheckOperator("==") == Resolution(Op, Eq, None)
  {
  }

  lemma ShiftRuns()
    ensures CheckOperator("<<").op == LShift && CheckOperator(">>").op == RShift
    ensures Code(LShift) == Code(RShift)
  {
  }
}
