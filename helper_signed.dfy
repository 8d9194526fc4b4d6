/** `di.GetInt64`, `GetInt`, `GetInt32`, `GetInt16`, `GetInt8`: integers and
    floats are converted to the target type (two's-complement truncation),
    strings are parsed as base-10 64-bit signed numbers, everything else is
    `ErrUnexpectedType` with result 0. */
module HelperSigned {
  import opened GoRuntime
  import opened MachineInts
  import opened Errors
  import opened Values
  import StrConv

  /** The non-string arms shared by the five functions: Go's conversion
      `T(x)` of an integer or a float to the signed type t. */
  function SignedFromNumber(v: Value, t: IntType): (r: (int, Option<Error>))
    requires t.Signed() && !v.Str?
    ensures InRange(r.0, t)
    ensures r.1 != None <==> !(v.Int? || v.Float?)
    ensures r.1 != None ==> r == (0, Some(UnexpectedType))
  {
    match v
    case Int(_, i) => (Convert(i, t), None)
    case Float(x, _) => (Convert(TruncFloat(x), t), None)
    case _ => (0, Some(UnexpectedType))
  }

  /** The string arm of the narrow functions: parse as 64-bit, keep the
      truncated value only when the parse succeeded. */
  function NarrowParsed(s: string, t: IntType): (r: (int, Option<Error>))
    requires t.Signed()
    ensures InRange(r.0, t)
    ensures r.1 != None ==> r.0 == 0
  {
    var (aux, err) := StrConv.ParseInt(s);
    if err == None then (Convert(aux, t), None) else (0, err)
  }

  /** `GetInt64`: the string arm returns `ParseInt`'s value even with its
      error (saturated on overflow). */
  function GetInt64(v: Value): (r: (int, Option<Error>))
    ensures InSigned(r.0, W64)
  {
    if v.Str? then StrConv.ParseInt(v.s) else SignedFromNumber(v, GoInt64)
  }

  function GetInt(v: Value): (r: (int, Option<Error>))
    ensures InSigned(r.0, W64)
  {
    if v.Str? then NarrowParsed(v.s, GoInt) else SignedFromNumber(v, GoInt)
  }

  function GetInt32(v: Value): (r: (int, Option<Error>))
    ensures InSigned(r.0, W32)
  {
    if v.Str? then NarrowParsed(v.s, GoInt32) else SignedFromNumber(v, GoInt32)
  }

  function GetInt16(v: Value): (r: (int, Option<Error>))
    ensures InSigned(r.0, W16)
  {
    if v.Str? then NarrowParsed(v.s, GoInt16) else SignedFromNumber(v, GoInt16)
  }

  function GetInt8(v: Value): (r: (int, Option<Error>))
    ensures InSigned(r.0, W8)
  {
    if v.Str? then NarrowParsed(v.s, GoInt8) else SignedFromNumber(v, GoInt8)
  }

  /** The function of the five for target type t. */
  function GetSigned(v: Value, t: IntType): (int, Option<Error>)
    requires t.Signed()
  {
    match t
    case GoInt64 => GetInt64(v)
    case GoInt => GetInt(v)
    case GoInt32 => GetInt32(v)
    case GoInt16 => GetInt16(v)
    case GoInt8 => GetInt8(v)
  }

  /** An int64 passes through `GetInt64` unchanged; every other integer is
      reinterpreted in two's complement, so a uint64 above 2^63-1 becomes
      negative. */
  lemma GetInt64OfIntegers(v: Value)
    requires v.Int? && WellFormed(v)
    ensures v.t == GoInt64 ==> GetInt64(v) == (v.i, None)
    ensures v.t == GoUint64 && v.i > MaxInt64 ==> GetInt64(v) == (v.i - Modulus(W64), None)
    ensures GetInt64(v).1 == None
  {
    if v.t == GoInt64 {
      ConvertKeepsInRange(v.i, GoInt64);
    } else if v.t == GoUint64 && v.i > MaxInt64 {
      assert v.i % Modulus(W64) == v.i;
    }
  }

  /** A string gives a number exactly when it is one optional sign and
      base-10 digits whose value fits in 64 bits; the narrow functions then
      truncate that value to their width. */
  lemma GetSignedOfString(s: string, t: IntType)
    requires t.Signed()
    ensures GetSigned(Str(s), t).1 == None <==>
              StrConv.SignedBody(s) != "" && StrConv.AllDigits(StrConv.SignedBody(s))
              && InSigned(StrConv.SignedValue(s), W64)
    ensures GetSigned(Str(s), t).1 == None ==> GetSigned(Str(s), t).0 == Convert(StrConv.SignedValue(s), t)
    ensures t != GoInt64 && GetSigned(Str(s), t).1 != None ==> GetSigned(Str(s), t).0 == 0
  {
    StrConv.ParseIntAccepts(s);
    if t == GoInt64 && StrConv.ParseInt(s).1 == None {
      ConvertKeepsInRange(StrConv.SignedValue(s), GoInt64);
    }
  }

  /** The error of every string arm is `ParseInt`'s error. */
  lemma GetSignedStringError(s: string, t: IntType)
    requires t.Signed()
    ensures GetSigned(Str(s), t).1 == StrConv.ParseInt(s).1
  {
  }

  /** Narrowing a value already coerced to 64 bits is the same as coercing
      straight to the narrow type: the narrow functions agree with taking
      `GetInt64` and then converting. */
  lemma NarrowAgreesWithInt64(v: Value, t: IntType)
    requires t.Signed() && GetInt64(v).1 == None
    ensures GetSigned(v, t) == (Convert(GetInt64(v).0, t), None)
  {
    match v
    case Int(_, i) => NarrowAfterWide(i, t);
    case Float(x, _) => NarrowAfterWide(TruncFloat(x), t);
    case Str(s) =>
      ConvertKeepsInRange(StrConv.ParseInt(s).0, GoInt64);
    case _ =>
  }

  /** Bool, nil, sequences and maps are rejected with result 0. */
  lemma GetSignedRejects(v: Value, t: IntType)
    requires t.Signed() && (v.Nil? || v.Bool? || v.List? || v.Dict?)
    ensures GetSigned(v, t) == (0, Some(UnexpectedType))
  {
  }

  /** Rows of the repository's tests: int8 wraps around. */
  lemma Int8Examples()
    ensures GetInt8(Int(GoInt, 128)).0 == -128
    ensures GetInt8(Int(GoInt, 129)).0 == -127
    ensures GetInt8(Int(GoInt, 256)).0 == 0
    ensures GetInt8(Int(GoInt, -129)).0 == 127
  {
  }

  /** Rows of the repository's tests: one leading sign is accepted. */
  lemma SignExamples()
    ensures GetInt64(Str("+123")) == (123, None)
    ensures GetInt64(Str("-215")) == (-215, None)
  {
    GetSignedOfString("+123", GoInt64);
    assert StrConv.SignedBody("+123") == "123";
    Decimal3("123", 123);
    GetSignedOfString("-215", GoInt64);
    assert StrConv.SignedBody("-215") == "215";
    Decimal3("215", 215);
  }

  lemma Decimal3(s: string, n: nat)
    requires |s| == 3 && StrConv.AllDigits(s)
    requires n == StrConv.DigitVal(s[0]) * 100 + StrConv.DigitVal(s[1]) * 10 + StrConv.DigitVal(s[2])
    ensures StrConv.DecimalValue(s) == n
  {
    assert s[..2][..1] == s[..1];
    assert s[..1][..0] == "";
    assert s[..3] == s;
    assert StrConv.DecimalValue(s[..1]) == StrConv.DigitVal(s[0]);
    assert StrConv.DecimalValue(s[..2]) == StrConv.DigitVal(s[0]) * 10 + StrConv.DigitVal(s[1]);
  }

  /** Rows of the repository's tests: a sign inside the number is refused. */
  lemma InnerSignRefused()
    ensures GetInt64(Str("1+55")).1 != None
  {
    GetSignedOfString("1+55", GoInt64);
    assert !StrConv.IsDigit("1+55"[1]);
  }
}
