/**
  The `String` view of src/string.h: a byte count plus a pointer into a buffer
  owned by someone else. Here the buffer is an immutable sequence and the
  pointer an offset into it.
 */
module Strings {

  /** A C `char`, kept as its unsigned byte value. */
  type Byte = c: char | c as int < 256

  const NUL: Byte := '\0'

  /** A non-owning view of `count` bytes of a buffer, starting at `offset`. */
  datatype View = View(offset: nat, count: nat)

  predicate InBuffer(buf: seq<Byte>, v: View) {
    v.offset + v.count <= |buf|
  }

  /** The bytes a view denotes. */
  function Bytes(buf: seq<Byte>, v: View): (r: seq<Byte>)
    requires InBuffer(buf, v)
    ensures |r| == v.count
    ensures forall k :: 0 <= k < v.count ==> r[k] == buf[v.offset + k]
  {
    buf[v.offset..v.offset + v.count]
  }

  /** The byte `strncmp` sees at position k of a C string literal: its terminator past the end. */
  function LiteralAt(lit: seq<Byte>, k: nat): Byte {
    if k < |lit| then lit[k] else NUL
  }

  /**
    `strncmp(s.data, c, s.count) == 0`, examining positions k, k+1, ... of both.
    It stops with "equal" after `count` bytes or at a NUL common to both,
    and with "different" at the first mismatching byte.
   */
  function StrncmpEqualFrom(buf: seq<Byte>, v: View, lit: seq<Byte>, k: nat): bool
    requires InBuffer(buf, v)
    decreases v.count - k
  {
    if k >= v.count then true
    else
      var a := buf[v.offset + k];
      if a != LiteralAt(lit, k) then false
      else if a == NUL then true
      else StrncmpEqualFrom(buf, v, lit, k + 1)
  }

  /**
    `operator==(String, const char*)`: the view compared with a NUL-free literal.
    An empty view compares equal to every literal.
   */
  function EqualsLiteral(buf: seq<Byte>, v: View, lit: seq<Byte>): (r: bool)
    requires InBuffer(buf, v)
    requires NUL !in lit
    ensures v.count == 0 ==> r
  {
    StrncmpEqualFrom(buf, v, lit, 0)
  }

  predicate NulFree(s: seq<Byte>) {
    NUL !in s
  }

  /** From position k on, a NUL-free view matches iff its remaining bytes are the literal's. */
  lemma {:induction false} StrncmpEqualFromIsPrefix(buf: seq<Byte>, v: View, lit: seq<Byte>, k: nat)
    requires InBuffer(buf, v)
    requires NUL !in lit
    requires NulFree(Bytes(buf, v))
    requires k <= v.count
    ensures StrncmpEqualFrom(buf, v, lit, k) <==>
              forall j :: k <= j < v.count ==> buf[v.offset + j] == LiteralAt(lit, j)
    decreases v.count - k
  {
    if k < v.count {
      var a := buf[v.offset + k];
      assert a == Bytes(buf, v)[k];
      assert a != NUL;
      StrncmpEqualFromIsPrefix(buf, v, lit, k + 1);
    }
  }

  /**
    For a view with no NUL byte, `==` holds exactly when the view's bytes are a
    prefix of the literal: it is a prefix test, not equality.
   */
  lemma EqualsLiteralIsPrefix(buf: seq<Byte>, v: View, lit: seq<Byte>)
    requires InBuffer(buf, v)
    requires NUL !in lit
    requires NulFree(Bytes(buf, v))
    ensures EqualsLiteral(buf, v, lit) <==> Bytes(buf, v) <= lit
  {
    StrncmpEqualFromIsPrefix(buf, v, lit, 0);
    var w := Bytes(buf, v);
    if v.count > |lit| {
      assert w[|lit|] in w;
      assert buf[v.offset + |lit|] != LiteralAt(lit, |lit|);
    } else {
      if forall j :: 0 <= j < v.count ==> buf[v.offset + j] == LiteralAt(lit, j) {
        forall j | 0 <= j < v.count
          ensures w[j] == lit[..v.count][j]
        {
          assert buf[v.offset + j] == LiteralAt(lit, j);
        }
        assert w == lit[..v.count];
      }
      if w <= lit {
        forall j | 0 <= j < v.count
          ensures buf[v.offset + j] == LiteralAt(lit, j)
        {
          assert w[j] == lit[j];
        }
      }
    }
  }

  /** A NUL-free view longer than the literal never compares equal. */
  lemma LongerViewNeverEqual(buf: seq<Byte>, v: View, lit: seq<Byte>)
    requires InBuffer(buf, v)
    requires NUL !in lit
    requires NulFree(Bytes(buf, v))
    requires v.count > |lit|
    ensures !EqualsLiteral(buf, v, lit)
  {
    EqualsLiteralIsPrefix(buf, v, lit);
  }

  /** From position k on, the comparison depends on nothing but the view's own bytes. */
  lemma {:induction false} StrncmpEqualFromReadsView(buf: seq<Byte>, buf': seq<Byte>, v: View, v': View, lit: seq<Byte>, k: nat)
    requires InBuffer(buf, v) && InBuffer(buf', v')
    requires v.count == v'.count
    requires Bytes(buf, v) == Bytes(buf', v')
    ensures StrncmpEqualFrom(buf, v, lit, k) == StrncmpEqualFrom(buf', v', lit, k)
    decreases v.count - k
  {
    if k < v.count {
      assert buf[v.offset + k] == Bytes(buf, v)[k] == Bytes(buf', v')[k] == buf'[v'.offset + k];
      StrncmpEqualFromReadsView(buf, buf', v, v', lit, k + 1);
    }
  }

  /**
    The comparison reads at most `count` bytes of the view: two views with the
    same bytes, wherever they sit, compare alike against every literal.
   */
  lemma EqualsLiteralReadsOnlyView(buf: seq<Byte>, buf': seq<Byte>, v: View, v': View, lit: seq<Byte>)
    requires InBuffer(buf, v) && InBuffer(buf', v')
    requires NUL !in lit
    requires Bytes(buf, v) == Bytes(buf', v')
    ensures EqualsLiteral(buf, v, lit) == EqualsLiteral(buf', v', lit)
  {
    StrncmpEqualFromReadsView(buf, buf', v, v', lit, 0);
  }
}
