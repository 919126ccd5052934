/**
 * Shared vocabulary of the SpeedDate model: an optional value (the source's
 * `null`), bytes, and the big-endian 32-bit integer layout that
 * `EndianBitConverter.Big` reads and writes.
 */
module Common {

  /** A value that may be absent; `None` stands for the source's `null`. */
  datatype Option<T> = None | Some(value: T)

  type byte = x: int | 0 <= x < 256

  const TwoTo31: int := 0x8000_0000
  const TwoTo32: int := 0x1_0000_0000

  predicate IsInt32(x: int) {
    -TwoTo31 <= x < TwoTo31
  }

  /** The unsigned big-endian 32-bit value stored at `b[i..i+4]`. */
  function UInt32At(b: seq<byte>, i: nat): (r: nat)
    requires i + 4 <= |b|
    ensures r < TwoTo32
  {
    (b[i] as int) * 0x100_0000 + (b[i + 1] as int) * 0x1_0000 + (b[i + 2] as int) * 0x100 + (b[i + 3] as int)
  }

  /** The signed (two's complement) big-endian 32-bit value stored at `b[i..i+4]`. */
  function Int32At(b: seq<byte>, i: nat): (r: int)
    requires i + 4 <= |b|
    ensures IsInt32(r)
  {
    var u := UInt32At(b, i);
    if u >= TwoTo31 then u - TwoTo32 else u
  }

  /** The four big-endian bytes of an unsigned 32-bit value. */
  function UInt32Bytes(u: nat): (r: seq<byte>)
    requires u < TwoTo32
    ensures |r| == 4
  {
    [u / 0x100 / 0x100 / 0x100, u / 0x100 / 0x100 % 0x100, u / 0x100 % 0x100, u % 0x100]
  }

  /**
   * The four bytes a big-endian writer emits for a C# `int`: the value is
   * taken modulo 2^32, so a count of 2^31 or more wraps to a negative number.
   */
  function Int32Bytes(x: int): (r: seq<byte>)
    ensures |r| == 4
  {
    UInt32Bytes(x % TwoTo32)
  }

  lemma {:induction false} UInt32RoundTrip(u: nat, rest: seq<byte>)
    requires u < TwoTo32
    ensures UInt32At(UInt32Bytes(u) + rest, 0) == u
  {
    var q1 := u / 0x100;
    var q2 := q1 / 0x100;
    var q3 := q2 / 0x100;
    assert u == q1 * 0x100 + u % 0x100;
    assert q1 == q2 * 0x100 + q1 % 0x100;
    assert q2 == q3 * 0x100 + q2 % 0x100;
    var b := UInt32Bytes(u) + rest;
    assert b[0] == q3 && b[1] == q2 % 0x100 && b[2] == q1 % 0x100 && b[3] == u % 0x100;
  }

  /** Reading back a written `int` yields the same value. */
  lemma {:induction false} Int32RoundTrip(x: int, rest: seq<byte>)
    requires IsInt32(x)
    ensures Int32At(Int32Bytes(x) + rest, 0) == x
  {
    UInt32RoundTrip(x % TwoTo32, rest);
  }

  /** Bytes at an offset: reading a value that sits after a prefix. */
  lemma {:induction false} Int32AtOffset(prefix: seq<byte>, x: int, rest: seq<byte>)
    requires IsInt32(x)
    ensures Int32At(prefix + Int32Bytes(x) + rest, |prefix|) == x
  {
    var b := prefix + Int32Bytes(x) + rest;
    assert b[|prefix|..] == Int32Bytes(x) + rest;
    Int32RoundTrip(x, rest);
    var c := Int32Bytes(x) + rest;
    assert b[|prefix|] == c[0] && b[|prefix| + 1] == c[1] && b[|prefix| + 2] == c[2] && b[|prefix| + 3] == c[3];
  }

  lemma {:induction false} UInt32AtOffset(prefix: seq<byte>, u: nat, rest: seq<byte>)
    requires u < TwoTo32
    ensures UInt32At(prefix + UInt32Bytes(u) + rest, |prefix|) == u
  {
    var b := prefix + UInt32Bytes(u) + rest;
    UInt32RoundTrip(u, rest);
    var c := UInt32Bytes(u) + rest;
    assert b[|prefix|] == c[0] && b[|prefix| + 1] == c[1] && b[|prefix| + 2] == c[2] && b[|prefix| + 3] == c[3];
  }

  // ---------------------------------------------------------------------
  // Decimal text of integers (string interpolation of an `int`).
  // ---------------------------------------------------------------------

  predicate IsDigit(c: char) { '0' as int <= c as int <= '9' as int }

  function DigitChar(d: nat): (c: char)
    requires d < 10
    ensures IsDigit(c) && c as int - '0' as int == d
  {
    (d + '0' as int) as char
  }

  function NatToString(n: nat): (s: string)
    ensures |s| > 0 && forall i :: 0 <= i < |s| ==> IsDigit(s[i])
  {
    if n < 10 then [DigitChar(n)] else NatToString(n / 10) + [DigitChar(n % 10)]
  }

  function IntToString(x: int): (s: string)
    ensures |s| > 0 && forall i :: 0 <= i < |s| ==> s[i] != ' ' && s[i] != '"'
  {
    if x < 0 then "-" + NatToString(-x) else NatToString(x)
  }

  function ParseDigits(s: string): nat
    requires forall i :: 0 <= i < |s| ==> IsDigit(s[i])
  {
    if s == [] then 0
    else
      assert IsDigit(s[|s| - 1]);
      ParseDigits(s[..|s| - 1]) * 10 + (s[|s| - 1] as int - '0' as int)
  }

  /** `int.Parse` of a decimal text with an optional leading minus. */
  function ParseInt(s: string): Option<int> {
    if s == [] then None
    else if s[0] == '-' then
      if |s| > 1 && forall i :: 1 <= i < |s| ==> IsDigit(s[i]) then Some(0 - ParseDigits(s[1..]) as int) else None
    else if forall i :: 0 <= i < |s| ==> IsDigit(s[i]) then Some(ParseDigits(s)) else None
  }

  lemma {:induction false} NatRoundTrip(n: nat)
    ensures ParseDigits(NatToString(n)) == n
  {
    if n >= 10 {
      var s := NatToString(n);
      assert s[..|s| - 1] == NatToString(n / 10);
      NatRoundTrip(n / 10);
    }
  }

  /** The spawned process reads back every number written into its arguments. */
  lemma IntRoundTrip(x: int)
    ensures ParseInt(IntToString(x)) == Some(x)
  {
    if x < 0 {
      NatRoundTrip(-x);
      assert IntToString(x)[1..] == NatToString(-x);
    } else {
      NatRoundTrip(x);
    }
  }
}
