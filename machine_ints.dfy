/** Go's fixed-width integers over Dafny's unbounded `int`. A Go integer of
    width w holds a value in a half-open range; a conversion `T(x)` between
    integer types keeps `x` when it fits and otherwise truncates it, which is
    reduction modulo 2^w, read back in two's complement for signed `T`.
    The model assumes a 64-bit platform, so `int` and `uint` have 64 bits. */
module MachineInts {

  datatype Width = W8 | W16 | W32 | W64

  /** The ten integer types a Go type switch can name. */
  datatype IntType =
    | GoInt | GoInt8 | GoInt16 | GoInt32 | GoInt64
    | GoUint | GoUint8 | GoUint16 | GoUint32 | GoUint64
  {
    predicate Signed() {
      GoInt? || GoInt8? || GoInt16? || GoInt32? || GoInt64?
    }

    function Width(): Width {
      match this
      case GoInt8 | GoUint8 => W8
      case GoInt16 | GoUint16 => W16
      case GoInt32 | GoUint32 => W32
      case _ => W64
    }
  }

  /** 2^w */
  function Modulus(w: Width): (m: nat)
    ensures m >= 256
  {
    match w
    case W8 => 0x100
    case W16 => 0x1_0000
    case W32 => 0x1_0000_0000
    case W64 => 0x1_0000_0000_0000_0000
  }

  const MaxUint64: nat := 0xFFFF_FFFF_FFFF_FFFF
  const MaxInt64: nat := 0x7FFF_FFFF_FFFF_FFFF
  const MinInt64: int := -0x8000_0000_0000_0000

  predicate InUnsigned(x: int, w: Width) {
    0 <= x < Modulus(w)
  }

  predicate InSigned(x: int, w: Width) {
    -(Modulus(w) / 2) <= x < Modulus(w) / 2
  }

  /** The values a Go variable of type `t` can hold. */
  predicate InRange(x: int, t: IntType) {
    if t.Signed() then InSigned(x, t.Width()) else InUnsigned(x, t.Width())
  }

  /** Unsigned truncation: the width-w unsigned integer congruent to x. */
  function WrapUnsigned(x: int, w: Width): (r: int)
    ensures InUnsigned(r, w)
    ensures (x - r) % Modulus(w) == 0
  {
    var m := Modulus(w);
    var r := x % m;
    assert x == (x / m) * m + r;
    ModUnique(x - r, x / m, 0, m);
    r
  }

  /** Two's-complement truncation: the width-w signed integer congruent to x. */
  function WrapSigned(x: int, w: Width): (r: int)
    ensures InSigned(r, w)
    ensures (x - r) % Modulus(w) == 0
  {
    var m := Modulus(w);
    var u := x % m;
    assert x == (x / m) * m + u;
    if u >= m / 2 then
      ModUnique(x - (u - m), x / m + 1, 0, m);
      u - m
    else
      ModUnique(x - u, x / m, 0, m);
      u
  }

  /** Go's conversion `t(x)` for an integer value x. */
  function Convert(x: int, t: IntType): (r: int)
    ensures InRange(r, t)
  {
    if t.Signed() then WrapSigned(x, t.Width()) else WrapUnsigned(x, t.Width())
  }

  /** A conversion keeps every value that fits the target type. */
  lemma ConvertKeepsInRange(x: int, t: IntType)
    requires InRange(x, t)
    ensures Convert(x, t) == x
  {
    var m := Modulus(t.Width());
    if t.Signed() {
      if x < 0 {
        assert x % m == x + m;
      }
    }
  }

  /** The result of a wrap depends only on x modulo 2^w. */
  lemma WrapCongruent(x: int, y: int, w: Width)
    requires (x - y) % Modulus(w) == 0
    ensures WrapUnsigned(x, w) == WrapUnsigned(y, w)
    ensures WrapSigned(x, w) == WrapSigned(y, w)
  {
    var m := Modulus(w);
    var k := (x - y) / m;
    assert x == y + k * m;
    ModShift(y, k, m);
  }

  lemma ModShift(y: int, k: int, m: int)
    requires m > 0
    ensures (y + k * m) % m == y % m
  {
    var q, r := y / m, y % m;
    assert y == q * m + r && 0 <= r < m;
    assert y + k * m == (q + k) * m + r;
    ModUnique(y + k * m, q + k, r, m);
  }

  lemma ModUnique(a: int, q: int, r: int, m: int)
    requires m > 0 && 0 <= r < m && a == q * m + r
    ensures a % m == r
  {
    var q2, r2 := a / m, a % m;
    assert a == q2 * m + r2 && 0 <= r2 < m;
    var d := q - q2;
    assert d * m == r2 - r by {
      assert q * m - q2 * m == (q - q2) * m;
    }
    if d >= 1 {
      MulAtLeast(d, m);
    } else if d <= -1 {
      MulAtLeast(-d, m);
    }
    assert d == 0;
  }

  lemma MulAtLeast(d: int, m: int)
    requires d >= 1 && m > 0
    ensures d * m >= m
  {
    assert d * m == (d - 1) * m + m;
    assert (d - 1) * m >= 0;
  }

  /** Narrowing in two steps equals narrowing at once: converting to 64
      bits and then truncating to width w gives the same result as
      converting to width w directly. */
  lemma NarrowAfterWide(x: int, t: IntType)
    ensures Convert(WrapSigned(x, W64), t) == Convert(x, t)
    ensures Convert(WrapUnsigned(x, W64), t) == Convert(x, t)
  {
    var w := t.Width();
    var m, m64 := Modulus(w), Modulus(W64);
    var k := m64 / m;
    assert m * k == m64;
    DivisorCongruence(x - WrapSigned(x, W64), m, k);
    DivisorCongruence(x - WrapUnsigned(x, W64), m, k);
    WrapCongruent(WrapSigned(x, W64), x, w);
    WrapCongruent(WrapUnsigned(x, W64), x, w);
  }

  lemma DivisorCongruence(d: int, m: int, k: int)
    requires m > 0 && k > 0 && d % (m * k) == 0
    ensures d % m == 0 && -d % m == 0
  {
    var q := d / (m * k);
    assert d == (q * k) * m;
    ModUnique(d, q * k, 0, m);
    assert -d == (-(q * k)) * m;
    ModUnique(-d, -(q * k), 0, m);
  }

  /** Rows of the repository's tests: int8 wraps around at 128 and -129,
      uint8 keeps values modulo 256. */
  lemma NarrowExamples()
    ensures Convert(128, GoInt8) == -128 && Convert(129, GoInt8) == -127
    ensures Convert(256, GoInt8) == 0 && Convert(-129, GoInt8) == 127
    ensures Convert(257, GoUint8) == 1 && Convert(MaxUint64, GoUint8) == 255
  {
    assert 128 % 256 == 128 && 129 % 256 == 129 && 256 % 256 == 0 && -129 % 256 == 127;
    assert 257 % 256 == 1 && MaxUint64 % 256 == 255;
  }
}
