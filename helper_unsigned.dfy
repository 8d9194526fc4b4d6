/** `di.GetUint64`, `GetUint`, `GetUint32`, `GetUint16`, `GetUint8`:
    integers and floats are converted with unsigned wrap-around, strings are
    parsed as base-10 64-bit unsigned numbers, everything else is
    `ErrUnexpectedType`. */
module HelperUnsigned {
  import opened GoRuntime
  import opened MachineInts
  import opened Errors
  import opened Values
  import StrConv

  /** The non-string arms shared by the five functions: Go's conversion
      `T(x)` of an integer or a float to the unsigned type t. */
  function UnsignedFromNumber(v: Value, t: IntType): (r: (int, Option<Error>))
    requires !t.Signed() && !v.Str?
    ensures InRange(r.0, t)
    ensures r.1 != None <==> !(v.Int? || v.Float?)
    ensures r.1 != None ==> r == (0, Some(UnexpectedType))
  {
    match v
    case Int(_, i) => (Convert(i, t), None)
    case Float(x, _) => (Convert(TruncFloat(x), t), None)
    case _ => (0, Some(UnexpectedType))
  }

  /** The string arm of `GetUint`, `GetUint32`, `GetUint16` and `GetUint8`
      as the repository writes it: the result is assigned only when the
      parse FAILED, so a number that parses gives 0. */
  function NarrowParsedAsWritten(s: string, t: IntType): (r: (int, Option<Error>))
    requires !t.Signed()
    ensures InRange(r.0, t)
    ensures r.1 == None ==> r.0 == 0
  {
    var (aux, err) := StrConv.ParseUint(s);
    if err != None then (Convert(aux, t), err) else (0, None)
  }

  /** The string arm as evidently intended (the pattern of the signed
      functions): keep the truncated value when the parse succeeded. */
  function NarrowParsed(s: string, t: IntType): (r: (int, Option<Error>))
    requires !t.Signed()
    ensures InRange(r.0, t)
    ensures r.1 != None ==> r.0 == 0
  {
    var (aux, err) := StrConv.ParseUint(s);
    if err == None then (Convert(aux, t), None) else (0, err)
  }

  /** `GetUint64`: the string arm returns `ParseUint`'s value even with its
      error (MaxUint64 on overflow). */
  function GetUint64(v: Value): (r: (int, Option<Error>))
    ensures InUnsigned(r.0, W64)
  {
    if v.Str? then StrConv.ParseUint(v.s) else UnsignedFromNumber(v, GoUint64)
  }

  function GetUint(v: Value): (r: (int, Option<Error>))
    ensures InUnsigned(r.0, W64)
  {
    if v.Str? then NarrowParsedAsWritten(v.s, GoUint) else UnsignedFromNumber(v, GoUint)
  }

  function GetUint32(v: Value): (r: (int, Option<Error>))
    ensures InUnsigned(r.0, W32)
  {
    if v.Str? then NarrowParsedAsWritten(v.s, GoUint32) else UnsignedFromNumber(v, GoUint32)
  }

  function GetUint16(v: Value): (r: (int, Option<Error>))
    ensures InUnsigned(r.0, W16)
  {
    if v.Str? then NarrowParsedAsWritten(v.s, GoUint16) else UnsignedFromNumber(v, GoUint16)
  }

  function GetUint8(v: Value): (r: (int, Option<Error>))
    ensures InUnsigned(r.0, W8)
  {
    if v.Str? then NarrowParsedAsWritten(v.s, GoUint8) else UnsignedFromNumber(v, GoUint8)
  }

  /** The function of the five for target type t, as written. */
  function GetUnsigned(v: Value, t: IntType): (int, Option<Error>)
    requires !t.Signed()
  {
    match t
    case GoUint64 => GetUint64(v)
    case GoUint => GetUint(v)
    case GoUint32 => GetUint32(v)
    case GoUint16 => GetUint16(v)
    case GoUint8 => GetUint8(v)
  }

  /** The narrow functions with the guard as intended. */
  function GetUnsignedCorrected(v: Value, t: IntType): (r: (int, Option<Error>))
    requires !t.Signed()
    ensures InRange(r.0, t)
  {
    if t == GoUint64 then GetUint64(v)
    else if v.Str? then NarrowParsed(v.s, t) else UnsignedFromNumber(v, t)
  }

  /** Integers wrap modulo 2^64: -1 becomes 2^64-1 and MinInt64 becomes 2^63. */
  lemma GetUint64OfIntegers()
    ensures GetUint64(Int(GoInt, -1)) == (MaxUint64, None)
    ensures GetUint64(Int(GoInt64, MinInt64)) == (0x8000_0000_0000_0000, None)
  {
  }

  /** The narrow functions truncate integers modulo 2^width. */
  lemma NarrowTruncatesIntegers(v: Value, t: IntType)
    requires !t.Signed() && v.Int?
    ensures GetUnsigned(v, t) == (WrapUnsigned(v.i, t.Width()), None)
  {
  }

  /** A string gives a number exactly when it is all base-10 digits, is not
      empty and fits in 64 bits: signs, dots and the empty string fail. */
  lemma GetUint64OfString(s: string)
    ensures GetUint64(Str(s)).1 == None <==> s != "" && StrConv.AllDigits(s) && StrConv.DecimalValue(s) <= MaxUint64
    ensures GetUint64(Str(s)).1 == None ==> GetUint64(Str(s)).0 == StrConv.DecimalValue(s)
  {
    StrConv.ParseUintAccepts(s);
  }

  /** Signs, an inner sign and a decimal point (rows of the repository's
      tests) are refused, and so is the empty string. */
  lemma GetUint64Refuses()
    ensures GetUint64(Str("+123")).1 != None
    ensures GetUint64(Str("-215")).1 != None
    ensures GetUint64(Str("1+55")).1 != None
    ensures GetUint64(Str("155.0")).1 != None
    ensures GetUint64(Str("")).1 != None
  {
    GetUint64OfString("+123");
    assert !StrConv.IsDigit("+123"[0]);
    GetUint64OfString("-215");
    assert !StrConv.IsDigit("-215"[0]);
    GetUint64OfString("1+55");
    assert !StrConv.IsDigit("1+55"[1]);
    GetUint64OfString("155.0");
    assert !StrConv.IsDigit("155.0"[3]);
  }

  /** Rows of the repository's tests: the largest uint64 parses. */
  lemma GetUint64Max()
    ensures GetUint64(Str("18446744073709551615")) == (MaxUint64, None)
  {
    FormatMax();
    StrConv.ParseFormatUint(MaxUint64);
  }

  /** Rows of the repository's tests: one more than the largest uint64 is
      out of range. */
  lemma GetUint64AboveMax()
    ensures GetUint64(Str("18446744073709551616")).1 != None
  {
    FormatAboveMax();
    StrConv.FormatUintValue(MaxUint64 + 1);
    GetUint64OfString("18446744073709551616");
  }

  lemma FormatMax()
    ensures StrConv.FormatUint(MaxUint64) == "18446744073709551615"
  {
    assert StrConv.FormatUint(1) == "1";
    assert StrConv.FormatUint(18) == StrConv.FormatUint(1) + "8";
    assert StrConv.FormatUint(184) == StrConv.FormatUint(18) + "4";
    assert StrConv.FormatUint(1844) == StrConv.FormatUint(184) + "4";
    assert StrConv.FormatUint(18446) == StrConv.FormatUint(1844) + "6";
    assert StrConv.FormatUint(184467) == StrConv.FormatUint(18446) + "7";
    assert StrConv.FormatUint(1844674) == StrConv.FormatUint(184467) + "4";
    assert StrConv.FormatUint(18446744) == StrConv.FormatUint(1844674) + "4";
    assert StrConv.FormatUint(184467440) == StrConv.FormatUint(18446744) + "0";
    assert StrConv.FormatUint(1844674407) == StrConv.FormatUint(184467440) + "7";
    assert StrConv.FormatUint(18446744073) == StrConv.FormatUint(1844674407) + "3";
    assert StrConv.FormatUint(184467440737) == StrConv.FormatUint(18446744073) + "7";
    assert StrConv.FormatUint(1844674407370) == StrConv.FormatUint(184467440737) + "0";
    assert StrConv.FormatUint(18446744073709) == StrConv.FormatUint(1844674407370) + "9";
    assert StrConv.FormatUint(184467440737095) == StrConv.FormatUint(18446744073709) + "5";
    assert StrConv.FormatUint(1844674407370955) == StrConv.FormatUint(184467440737095) + "5";
    assert StrConv.FormatUint(18446744073709551) == StrConv.FormatUint(1844674407370955) + "1";
    assert StrConv.FormatUint(184467440737095516) == StrConv.FormatUint(18446744073709551) + "6";
    assert StrConv.FormatUint(1844674407370955161) == StrConv.FormatUint(184467440737095516) + "1";
    assert StrConv.FormatUint(18446744073709551615) == StrConv.FormatUint(1844674407370955161) + "5";
  }

  lemma FormatAboveMax()
    ensures StrConv.FormatUint(MaxUint64 + 1) == "18446744073709551616"
  {
    assert StrConv.FormatUint(1) == "1";
    assert StrConv.FormatUint(18) == StrConv.FormatUint(1) + "8";
    assert StrConv.FormatUint(184) == StrConv.FormatUint(18) + "4";
    assert StrConv.FormatUint(1844) == StrConv.FormatUint(184) + "4";
    assert StrConv.FormatUint(18446) == StrConv.FormatUint(1844) + "6";
    assert StrConv.FormatUint(184467) == StrConv.FormatUint(18446) + "7";
    assert StrConv.FormatUint(1844674) == StrConv.FormatUint(184467) + "4";
    assert StrConv.FormatUint(18446744) == StrConv.FormatUint(1844674) + "4";
    assert StrConv.FormatUint(184467440) == StrConv.FormatUint(18446744) + "0";
    assert StrConv.FormatUint(1844674407) == StrConv.FormatUint(184467440) + "7";
    assert StrConv.FormatUint(18446744073) == StrConv.FormatUint(1844674407) + "3";
    assert StrConv.FormatUint(184467440737) == StrConv.FormatUint(18446744073) + "7";
    assert StrConv.FormatUint(1844674407370) == StrConv.FormatUint(184467440737) + "0";
    assert StrConv.FormatUint(18446744073709) == StrConv.FormatUint(1844674407370) + "9";
    assert StrConv.FormatUint(184467440737095) == StrConv.FormatUint(18446744073709) + "5";
    assert StrConv.FormatUint(1844674407370955) == StrConv.FormatUint(184467440737095) + "5";
    assert StrConv.FormatUint(18446744073709551) == StrConv.FormatUint(1844674407370955) + "1";
    assert StrConv.FormatUint(184467440737095516) == StrConv.FormatUint(18446744073709551) + "6";
    assert StrConv.FormatUint(1844674407370955161) == StrConv.FormatUint(184467440737095516) + "1";
    assert StrConv.FormatUint(18446744073709551616) == StrConv.FormatUint(1844674407370955161) + "6";
  }

  /** Bool, nil, sequences and maps are rejected. */
  lemma GetUnsignedRejects(v: Value, t: IntType)
    requires !t.Signed() && (v.Nil? || v.Bool? || v.List? || v.Dict?)
    ensures GetUnsigned(v, t) == (0, Some(UnexpectedType))
    ensures GetUnsignedCorrected(v, t) == (0, Some(UnexpectedType))
  {
  }

  /** The guard as written: for the four narrow functions a string that
      parses yields 0 with no error, and a string that does not parse
      yields the truncated saturation value with the error. */
  lemma NarrowStringAsWritten(s: string, t: IntType)
    requires !t.Signed() && t != GoUint64
    ensures StrConv.ParseUint(s).1 == None ==> GetUnsigned(Str(s), t) == (0, None)
    ensures StrConv.ParseUint(s).1 != None ==>
              GetUnsigned(Str(s), t) == (Convert(StrConv.ParseUint(s).0, t), StrConv.ParseUint(s).1)
  {
  }

  /** The discrepancy on a concrete input: "5" parses, yet `GetUint`
      returns 0 where the corrected function returns 5. */
  lemma GetUintLosesParsedValue()
    ensures GetUint(Str("5")) == (0, None)
    ensures GetUnsignedCorrected(Str("5"), GoUint) == (5, None)
  {
    GetUint64OfString("5");
    assert "5"[..0] == "";
  }

  /** The corrected narrow functions: a string gives a number exactly when
      `GetUint64` does, and the number is its truncation to the width. */
  lemma CorrectedAgreesWithUint64(v: Value, t: IntType)
    requires !t.Signed()
    ensures GetUnsignedCorrected(v, t).1 == GetUint64(v).1
    ensures GetUint64(v).1 == None ==> GetUnsignedCorrected(v, t).0 == Convert(GetUint64(v).0, t)
  {
    match v
    case Int(_, i) => NarrowAfterWide(i, t);
    case Float(x, _) => NarrowAfterWide(TruncFloat(x), t);
    case Str(s) =>
      if t == GoUint64 && StrConv.ParseUint(s).1 == None {
        ConvertKeepsInRange(StrConv.ParseUint(s).0, GoUint64);
      }
    case _ =>
  }
}
