/**
 * Vocabulary shared by every driver model: the asyn status codes, an
 * Option wrapper, and the C arithmetic conversions the drivers rely on
 * (truncating casts, the NINT rounding macro, clamps and bit tests).
 */
module CSemantics {

  /** The asynStatus values of the asyn framework, in their numeric order. */
  datatype AsynStatus =
    | AsynSuccess
    | AsynTimeout
    | AsynOverflow
    | AsynError
    | AsynDisconnected
    | AsynDisabled
  {
    /** The numeric value of the C enumerator. */
    function Code(): (c: nat)
      ensures c <= 5
      ensures c == 0 <==> this == AsynSuccess
    {
      match this
      case AsynSuccess => 0
      case AsynTimeout => 1
      case AsynOverflow => 2
      case AsynError => 3
      case AsynDisconnected => 4
      case AsynDisabled => 5
    }
  }

  /** Inverse of AsynStatus.Code. */
  function StatusOfCode(c: nat): (s: AsynStatus)
    requires c <= 5
    ensures s.Code() == c
  {
    if c == 0 then AsynSuccess
    else if c == 1 then AsynTimeout
    else if c == 2 then AsynOverflow
    else if c == 3 then AsynError
    else if c == 4 then AsynDisconnected
    else AsynDisabled
  }

  datatype Option<T> = None | Some(value: T)

  function Abs(x: real): (r: real)
    ensures r >= 0.0 && (r == x || r == -x)
  {
    if x < 0.0 then -x else x
  }

  /** LONG_MIN and LONG_MAX of a 64-bit long (LP64). */
  const LONG_MIN: int := -0x8000_0000_0000_0000
  const LONG_MAX: int := 0x7FFF_FFFF_FFFF_FFFF

  /** strtol's ERANGE result: a value beyond the range of long is replaced by the nearer bound. */
  function SaturateLong(x: int): (r: int)
    ensures LONG_MIN <= r <= LONG_MAX
    ensures LONG_MIN <= x <= LONG_MAX ==> r == x
    ensures x > LONG_MAX ==> r == LONG_MAX
    ensures x < LONG_MIN ==> r == LONG_MIN
  {
    if x > LONG_MAX then LONG_MAX else if x < LONG_MIN then LONG_MIN else x
  }

  /**
   * The conversion of an integer to a 32-bit int: in range it is kept;
   * out of range it wraps modulo 2^32, as the usual compilers define it.
   */
  function Int32(x: int): (r: int)
    ensures -0x8000_0000 <= r < 0x8000_0000
    ensures -0x8000_0000 <= x < 0x8000_0000 ==> r == x
    ensures (x - r) % 0x1_0000_0000 == 0
  {
    var u := x % 0x1_0000_0000;
    if u >= 0x8000_0000 then u - 0x1_0000_0000 else u
  }

  function IAbs(x: int): (r: nat)
    ensures r == x || r == -x
  {
    if x < 0 then -x else x
  }

  function Max(a: real, b: real): (r: real)
    ensures r >= a && r >= b && (r == a || r == b)
  {
    if a < b then b else a
  }

  function Min(a: real, b: real): (r: real)
    ensures r <= a && r <= b && (r == a || r == b)
  {
    if a < b then a else b
  }

  /**
   * A C cast from double to an integer type: the fraction is dropped,
   * rounding toward zero (unlike Dafny's Floor for negative values).
   */
  function Trunc(x: real): (r: int)
    ensures x >= 0.0 ==> 0 <= r && r as real <= x < r as real + 1.0
    ensures x < 0.0 ==> r <= 0 && r as real - 1.0 < x <= r as real
  {
    if x >= 0.0 then x.Floor else -((-x).Floor)
  }

  /**
   * The NINT(f) macro, (int)(f > 0 ? f + 0.5 : f - 0.5): nearest integer,
   * halves rounded away from zero.
   */
  function Nint(x: real): (r: int)
    ensures x - 0.5 <= r as real <= x + 0.5
    ensures x > 0.0 ==> x - 0.5 < r as real
    ensures x <= 0.0 ==> r as real < x + 0.5
  {
    if x > 0.0 then Trunc(x + 0.5) else Trunc(x - 0.5)
  }

  /** Clamp of an integer into [lo, hi]. */
  function Clamp(v: int, lo: int, hi: int): (r: int)
    requires lo <= hi
    ensures lo <= r <= hi
    ensures lo <= v <= hi ==> r == v
    ensures v < lo ==> r == lo
    ensures v > hi ==> r == hi
  {
    if v < lo then lo else if v > hi then hi else v
  }

  /** Bit k of a 32-bit word. */
  predicate Bit(w: bv32, k: nat)
    requires k < 32
  {
    w & ((1 as bv32) << k) != 0
  }

  /**
   * C integer division, which truncates toward zero; Dafny's / is
   * Euclidean and rounds negative quotients down instead.
   */
  function CDiv(a: int, b: int): (q: int)
    requires b > 0
    ensures IAbs(a - q * b) < b
    ensures a >= 0 ==> q >= 0 && q * b <= a
    ensures a < 0 ==> q <= 0 && q * b >= a
  {
    if a >= 0 then a / b else -((-a) / b)
  }

  /**
   * The C string held in a character buffer: everything before the first
   * NUL, or the whole buffer when it holds none.
   */
  function CText(s: string): (t: string)
    ensures |t| <= |s| && t == s[..|t|]
    ensures '\0' !in t
    ensures |t| < |s| ==> s[|t|] == '\0'
  {
    if |s| == 0 || s[0] == '\0' then [] else [s[0]] + CText(s[1..])
  }

  /** The C string of a buffer is the run before its first NUL. */
  lemma {:induction false} CTextIs(s: string, m: nat)
    requires m <= |s| && '\0' !in s[..m] && (m == |s| || s[m] == '\0')
    ensures CText(s) == s[..m]
  {
    if m > 0 {
      assert s[1..][..m - 1] == s[1..m];
      CTextIs(s[1..], m - 1);
    }
  }

  /** The string contains character c. */
  predicate Contains(s: seq<char>, c: char)
  {
    c in s
  }

  /** Index of the first occurrence of c in s, if any (strchr). */
  function IndexOf(s: seq<char>, c: char): (r: Option<nat>)
    ensures r.None? <==> !Contains(s, c)
    ensures r.Some? ==> r.value < |s| && s[r.value] == c && c !in s[..r.value]
  {
    if |s| == 0 then None
    else if s[0] == c then Some(0)
    else match IndexOf(s[1..], c)
      case None => None
      case Some(k) => Some(k + 1)
  }
}
