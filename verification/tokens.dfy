/**
  The token record and the enumerations of src/compilation_unit.h: token
  kinds, the precedence-encoded operator codes and the unit status.
 */
module Tokens {
  import opened Wrappers
  import opened Strings

  /** `UnitStatus`: how far a compilation unit has progressed. */
  datatype UnitStatus = UnitNull | UnitRead | UnitToken | UnitParse | UnitTyped | UnitError

  /** `TokenType`, in declaration order. */
  datatype TokenKind =
    | Bracket | Break | Case | Class | Comma | Constant | Continue | Defer | Delete
    | Do | Elif | Else | Enum | For | Ident | Import | Num | Op | Return | Semicolon
    | StatementOp | Str | Struct | Switch | While | With | Yield

  /** The value of an `Operator` enumerator: one byte, precedence in the upper four bits. */
  type OpCode = c: int | 0 <= c < 0x100

  /** The enumerators of `Operator`, by name. */
  datatype Operator =
    | Unk | Access | Colon
    | UnaryPlus | UnaryMinus | UnaryNot | BitNot
    | Mul | Div | Mod
    | Add | Sub
    | LShift | RShift
    | BitAnd | BitOr | BitXor
    | Lt | Lte | Gt | Gte | Eq | Neq | In | NotIn
    | Not | And | Or | Xor
    | Pipe | CheckNull | IfNull
    | Cast
    | Inc | Dec

  /**
    The value each enumerator is declared with. Both shifts are declared 0x40.
    The upper four bits are the declaration group's level, and only `OP_UNK` is zero.
   */
  function Code(o: Operator): (c: OpCode)
    ensures c / 16 == if GroupOf(o) == Statement then 0xF else Rank(GroupOf(o))
    ensures c == 0 <==> o == Unk
  {
    match o
    case Unk => 0x00
    case Access => 0x01
    case Colon => 0x02
    case UnaryPlus => 0x10
    case UnaryMinus => 0x11
    case UnaryNot => 0x12
    case BitNot => 0x13
    case Mul => 0x20
    case Div => 0x21
    case Mod => 0x22
    case Add => 0x30
    case Sub => 0x31
    case LShift => 0x40
    case RShift => 0x40
    case BitAnd => 0x50
    case BitOr => 0x51
    case BitXor => 0x52
    case Lt => 0x60
    case Lte => 0x61
    case Gt => 0x62
    case Gte => 0x63
    case Eq => 0x64
    case Neq => 0x65
    case In => 0x66
    case NotIn => 0x67
    case Not => 0x70
    case And => 0x71
    case Or => 0x72
    case Xor => 0x73
    case Pipe => 0x80
    case CheckNull => 0x81
    case IfNull => 0x82
    case Cast => 0x90
    case Inc => 0xF0
    case Dec => 0xF1
  }

  /** Reads a code back as the first enumerator declared with that value, if any. */
  function NameOf(c: OpCode): Option<Operator> {
    if c == 0x00 then Some(Unk)
    else if c == 0x01 then Some(Access)
    else if c == 0x02 then Some(Colon)
    else if c == 0x10 then Some(UnaryPlus)
    else if c == 0x11 then Some(UnaryMinus)
    else if c == 0x12 then Some(UnaryNot)
    else if c == 0x13 then Some(BitNot)
    else if c == 0x20 then Some(Mul)
    else if c == 0x21 then Some(Div)
    else if c == 0x22 then Some(Mod)
    else if c == 0x30 then Some(Add)
    else if c == 0x31 then Some(Sub)
    else if c == 0x40 then Some(LShift)
    else if c == 0x50 then Some(BitAnd)
    else if c == 0x51 then Some(BitOr)
    else if c == 0x52 then Some(BitXor)
    else if c == 0x60 then Some(Lt)
    else if c == 0x61 then Some(Lte)
    else if c == 0x62 then Some(Gt)
    else if c == 0x63 then Some(Gte)
    else if c == 0x64 then Some(Eq)
    else if c == 0x65 then Some(Neq)
    else if c == 0x66 then Some(In)
    else if c == 0x67 then Some(NotIn)
    else if c == 0x70 then Some(Not)
    else if c == 0x71 then Some(And)
    else if c == 0x72 then Some(Or)
    else if c == 0x73 then Some(Xor)
    else if c == 0x80 then Some(Pipe)
    else if c == 0x81 then Some(CheckNull)
    else if c == 0x82 then Some(IfNull)
    else if c == 0x90 then Some(Cast)
    else if c == 0xF0 then Some(Inc)
    else if c == 0xF1 then Some(Dec)
    else None
  }

  /** Every enumerator but `RShift` is recovered from its code; `RShift` reads back as `LShift`. */
  lemma CodeRoundTrip(o: Operator)
    ensures o != RShift ==> NameOf(Code(o)) == Some(o)
    ensures o == RShift ==> NameOf(Code(o)) == Some(LShift)
  {
  }

  /** Apart from the shift pair, no two enumerators share a value; `OP_UNK` is zero. */
  lemma CodesDistinct(a: Operator, b: Operator)
    ensures Code(Unk) == 0
    ensures Code(a) == Code(b) <==> a == b || (a in {LShift, RShift} && b in {LShift, RShift})
  {
    CodeRoundTrip(a);
    CodeRoundTrip(b);
  }

  /** The precedence level of a code: the value of its upper four bits. */
  function Precedence(c: OpCode): (level: nat)
    ensures level < 16
    ensures level * 16 <= c < level * 16 + 16
  {
    if c < 0x10 then 0
    else if c < 0x20 then 1
    else if c < 0x30 then 2
    else if c < 0x40 then 3
    else if c < 0x50 then 4
    else if c < 0x60 then 5
    else if c < 0x70 then 6
    else if c < 0x80 then 7
    else if c < 0x90 then 8
    else if c < 0xA0 then 9
    else if c < 0xB0 then 10
    else if c < 0xC0 then 11
    else if c < 0xD0 then 12
    else if c < 0xE0 then 13
    else if c < 0xF0 then 14
    else 15
  }

  /** The groups the enumerators are declared in, in declaration order. */
  datatype Group =
    | Special | Unary | Multiplicative | Additive | Shift | Bitwise
    | Comparison | Logical | Piping | Other | Statement

  function GroupOf(o: Operator): Group {
    match o
    case Unk | Access | Colon => Special
    case UnaryPlus | UnaryMinus | UnaryNot | BitNot => Unary
    case Mul | Div | Mod => Multiplicative
    case Add | Sub => Additive
    case LShift | RShift => Shift
    case BitAnd | BitOr | BitXor => Bitwise
    case Lt | Lte | Gt | Gte | Eq | Neq | In | NotIn => Comparison
    case Not | And | Or | Xor => Logical
    case Pipe | CheckNull | IfNull => Piping
    case Cast => Other
    case Inc | Dec => Statement
  }

  function Rank(g: Group): nat {
    match g
    case Special => 0
    case Unary => 1
    case Multiplicative => 2
    case Additive => 3
    case Shift => 4
    case Bitwise => 5
    case Comparison => 6
    case Logical => 7
    case Piping => 8
    case Other => 9
    case Statement => 10
  }

  /** Each group sits on one level: the group's rank, except statements, which sit on level 0xF. */
  lemma PrecedenceOfGroup(o: Operator)
    ensures Precedence(Code(o)) == if GroupOf(o) == Statement then 0xF else Rank(GroupOf(o))
  {
  }

  /**
    Comparing precedence levels compares declaration groups: multiplicative <
    additive < shift < bitwise < comparison < logical < piping < cast < increment.
   */
  lemma PrecedenceFollowsGroups(a: Operator, b: Operator)
    ensures Precedence(Code(a)) == Precedence(Code(b)) <==> GroupOf(a) == GroupOf(b)
    ensures Precedence(Code(a)) < Precedence(Code(b)) <==> Rank(GroupOf(a)) < Rank(GroupOf(b))
  {
    PrecedenceOfGroup(a);
    PrecedenceOfGroup(b);
  }

  /**
    A token: a view of `length` bytes at byte `offset` of the buffer (the
    source's `text.data` and `byte_number` always denote the same position),
    the line it starts on, its kind, and its operator code when one was assigned.
   */
  datatype Token = Token(offset: nat, length: nat, line: nat, kind: TokenKind, op: Option<OpCode>) {
    function Text(): View {
      View(offset, length)
    }

    function End(): nat {
      offset + length
    }
  }
}
