/** The base-10, 64-bit subset of Go's `strconv` that the core calls:
    `ParseBool`, `ParseUint`, `ParseInt`, `Atoi` and the decimal formatters.
    Every parse returns the value Go returns together with the error, so
    the error paths keep the values Go gives them (0 after a syntax error,
    the saturated bound after a range error). */
module StrConv {
  import opened GoRuntime
  import opened MachineInts
  import opened Errors
  import GoStrings

  predicate IsDigit(c: char) {
    '0' <= c <= '9'
  }

  function DigitVal(c: char): nat {
    if IsDigit(c) then c as int - '0' as int else 0
  }

  predicate AllDigits(s: string) {
    forall i :: 0 <= i < |s| ==> IsDigit(s[i])
  }

  /** The number a digit string denotes, read left to right. */
  function DecimalValue(s: string): nat
    decreases |s|
  {
    if |s| == 0 then 0 else DecimalValue(s[..|s| - 1]) * 10 + DigitVal(s[|s| - 1])
  }

  /** The length of the longest all-digit prefix. */
  function LeadingDigits(s: string): (j: nat)
    ensures j <= |s| && AllDigits(s[..j])
    ensures j < |s| ==> !IsDigit(s[j])
    decreases |s|
  {
    if |s| == 0 || !IsDigit(s[0]) then 0
    else
      var j := 1 + LeadingDigits(s[1..]);
      assert s[..j] == [s[0]] + s[1..][..j - 1];
      j
  }

  lemma {:induction false} LeadingDigitsAll(s: string)
    requires AllDigits(s)
    ensures LeadingDigits(s) == |s|
    decreases |s|
  {
    if |s| > 0 {
      LeadingDigitsAll(s[1..]);
    }
  }

  lemma LeadingDigitsFull(s: string)
    ensures LeadingDigits(s) == |s| ==> AllDigits(s)
  {
    assert s[..|s|] == s;
  }

  function Pow10(n: nat): (p: nat)
    ensures p >= 1
  {
    if n == 0 then 1 else 10 * Pow10(n - 1)
  }

  // ---------------------------------------------------------------- ParseBool

  /** `strconv.ParseBool`. */
  function ParseBool(s: string): (r: (bool, Option<Error>))
    ensures r.1 == None <==> s in {"1", "t", "T", "true", "TRUE", "True", "0", "f", "F", "false", "FALSE", "False"}
    ensures r.1 == None ==> (r.0 <==> s in {"1", "t", "T", "true", "TRUE", "True"})
    ensures r.1 != None ==> !r.0 && r.1 == Some(NumError("ParseBool", s, Syntax))
  {
    if s in {"1", "t", "T", "true", "TRUE", "True"} then (true, None)
    else if s in {"0", "f", "F", "false", "FALSE", "False"} then (false, None)
    else (false, Some(NumError("ParseBool", s, Syntax)))
  }

  /** `strconv.FormatBool`. */
  function FormatBool(b: bool): string {
    if b then "true" else "false"
  }

  lemma ParseFormatBool(b: bool)
    ensures ParseBool(FormatBool(b)) == (b, None)
  {
  }

  // ---------------------------------------------------------------- ParseUint

  /** The cutoff of Go's loop: a value at or above it overflows on the next
      digit. */
  const UintCutoff: nat := MaxUint64 / 10 + 1

  /** The digit loop of `strconv.ParseUint` from position i with the value n
      read so far; the result holds the value and the error cause. */
  function ScanUint(s: string, i: nat, n: nat): (nat, Option<NumCause>)
    requires i <= |s|
    decreases |s| - i
  {
    if i == |s| then (n, None)
    else if !IsDigit(s[i]) then (0, Some(Syntax))
    else if n >= UintCutoff then (MaxUint64, Some(Range))
    else
      var n1 := n * 10 + DigitVal(s[i]);
      if n1 > MaxUint64 then (MaxUint64, Some(Range))
      else ScanUint(s, i + 1, n1)
  }

  function WithError(fn: string, num: string, r: (nat, Option<NumCause>)): (nat, Option<Error>) {
    (r.0, if r.1 == None then None else Some(NumError(fn, num, r.1.value)))
  }

  /** `strconv.ParseUint(s, 10, 64)`. */
  function ParseUint(s: string): (r: (nat, Option<Error>))
    ensures r.0 <= MaxUint64
  {
    var scan := if s == "" then (0, Some(Syntax)) else ScanUint(s, 0, 0);
    ScanUintBound(s, 0, 0);
    WithError("ParseUint", s, scan)
  }

  lemma {:induction false} ScanUintBound(s: string, i: nat, n: nat)
    requires i <= |s| && n <= MaxUint64
    ensures ScanUint(s, i, n).0 <= MaxUint64
    decreases |s| - i
  {
    if i < |s| && IsDigit(s[i]) && n < UintCutoff && n * 10 + DigitVal(s[i]) <= MaxUint64 {
      ScanUintBound(s, i + 1, n * 10 + DigitVal(s[i]));
    }
  }

  /** What `ParseUint` accepts, stated without the loop: the longest digit
      prefix overflowing is a range error; otherwise any other character is
      a syntax error; otherwise the value is the number the digits denote. */
  function ParseUintReference(s: string): (nat, Option<Error>) {
    var j := LeadingDigits(s);
    if s == "" then (0, Some(NumError("ParseUint", s, Syntax)))
    else if DecimalValue(s[..j]) > MaxUint64 then (MaxUint64, Some(NumError("ParseUint", s, Range)))
    else if j < |s| then (0, Some(NumError("ParseUint", s, Syntax)))
    else (DecimalValue(s), None)
  }

  lemma ParseUintMatchesReference(s: string)
    ensures ParseUint(s) == ParseUintReference(s)
  {
    if s != "" {
      assert s[..0] == "";
      ScanUintReference(s, 0);
    }
  }

  /** `ParseUint` succeeds exactly on non-empty digit strings whose value
      fits in 64 bits, and then returns that value. */
  lemma ParseUintAccepts(s: string)
    ensures ParseUint(s).1 == None <==> s != "" && AllDigits(s) && DecimalValue(s) <= MaxUint64
    ensures ParseUint(s).1 == None ==> ParseUint(s).0 == DecimalValue(s)
  {
    ParseUintMatchesReference(s);
    var j := LeadingDigits(s);
    if s != "" && AllDigits(s) {
      LeadingDigitsAll(s);
      assert s[..j] == s;
    }
  }

  lemma {:induction false} ScanUintReference(s: string, i: nat)
    requires i <= LeadingDigits(s) && |s| > 0
    requires DecimalValue(s[..i]) <= MaxUint64
    ensures var j := LeadingDigits(s);
            ScanUint(s, i, DecimalValue(s[..i])) ==
              if DecimalValue(s[..j]) > MaxUint64 then (MaxUint64, Some(Range))
              else if j < |s| then (0, Some(Syntax))
              else (DecimalValue(s), None)
    decreases |s| - i
  {
    var j := LeadingDigits(s);
    var n := DecimalValue(s[..i]);
    if i == j {
      if j == |s| {
        assert s[..j] == s;
      }
    } else {
      assert IsDigit(s[i]) by {
        assert s[..j][i] == s[i];
      }
      assert s[..i + 1][..i] == s[..i];
      var n1 := n * 10 + DigitVal(s[i]);
      assert DecimalValue(s[..i + 1]) == n1;
      if n >= UintCutoff || n1 > MaxUint64 {
        assert n1 > MaxUint64;
        DecimalPrefixMonotone(s, i + 1, j);
      } else {
        ScanUintReference(s, i + 1);
      }
    }
  }

  /** Extending a digit prefix never decreases its value. */
  lemma {:induction false} DecimalPrefixMonotone(s: string, a: nat, b: nat)
    requires a <= b <= |s| && AllDigits(s[..b])
    ensures DecimalValue(s[..a]) <= DecimalValue(s[..b])
    decreases b - a
  {
    if a < b {
      assert s[..b][..b - 1] == s[..b - 1];
      DecimalPrefixMonotone(s, a, b - 1);
    }
  }

  // ---------------------------------------------------------------- ParseInt

  const Int64Cutoff: nat := 0x8000_0000_0000_0000

  /** `strconv.ParseInt(s, 10, 64)`: one optional sign, then `ParseUint`
      on the rest; errors report `ParseInt` and the whole input. */
  function ParseInt(s: string): (r: (int, Option<Error>))
    ensures InSigned(r.0, W64)
  {
    if s == "" then (0, Some(NumError("ParseInt", s, Syntax)))
    else SignUint(s, ParseUint(SignedBody(s)))
  }

  /** The second half of `ParseInt`: the unsigned result `u` of the body
      turned into a signed value and error for the input s. */
  function SignUint(s: string, u: (nat, Option<Error>)): (r: (int, Option<Error>))
    requires u.0 <= MaxUint64
    ensures InSigned(r.0, W64)
  {
    var (un, err) := u;
    if err.Some? && err.value.NumError? && err.value.cause != Range then (0, Some(NumError("ParseInt", s, err.value.cause)))
    else if !Negative(s) && un >= Int64Cutoff then (MaxInt64, Some(NumError("ParseInt", s, Range)))
    else if Negative(s) && un > Int64Cutoff then (MinInt64, Some(NumError("ParseInt", s, Range)))
    else
      var v: int := if Negative(s) then -(un as int) else un;
      (v, None)
  }

  /** The sign the input carries and the digits after it. */
  function SignedBody(s: string): string {
    if |s| > 0 && (s[0] == '+' || s[0] == '-') then s[1..] else s
  }

  predicate Negative(s: string) {
    |s| > 0 && s[0] == '-'
  }

  function SignedValue(s: string): int {
    if Negative(s) then -(DecimalValue(SignedBody(s)) as int) else DecimalValue(SignedBody(s))
  }

  /** `ParseInt` succeeds exactly on an optional sign followed by a
      non-empty digit string whose signed value fits in 64 bits. */
  lemma ParseIntAccepts(s: string)
    ensures ParseInt(s).1 == None <==> SignedBody(s) != "" && AllDigits(SignedBody(s)) && InSigned(SignedValue(s), W64)
    ensures ParseInt(s).1 == None ==> ParseInt(s).0 == SignedValue(s)
  {
    var body := SignedBody(s);
    ParseUintAccepts(body);
    ParseUintMatchesReference(body);
  }

  /** Out-of-range inputs saturate: the error is a range error and the value
      is the bound on the side of the sign. */
  lemma ParseIntSaturates(s: string)
    requires SignedBody(s) != "" && AllDigits(SignedBody(s))
    requires !InSigned(SignedValue(s), W64)
    ensures ParseInt(s).1 == Some(NumError("ParseInt", s, Range))
    ensures ParseInt(s).0 == if Negative(s) then MinInt64 else MaxInt64
  {
    var body := SignedBody(s);
    ParseUintMatchesReference(body);
    var j := LeadingDigits(body);
    LeadingDigitsAll(body);
    assert body[..j] == body;
  }

  // ------------------------------------------------------------- formatting

  function DigitChar(d: nat): char
    requires d < 10
  {
    ('0' as int + d) as char
  }

  /** `strconv.FormatUint(n, 10)`: decimal digits, no leading zeros. */
  function FormatUint(n: nat): (r: string)
    ensures |r| >= 1 && AllDigits(r)
    ensures |r| > 1 ==> r[0] != '0'
    decreases n
  {
    if n < 10 then [DigitChar(n)] else FormatUint(n / 10) + [DigitChar(n % 10)]
  }

  /** `strconv.FormatInt(i, 10)`: a leading '-' for negatives. */
  function FormatInt(i: int): (r: string)
    ensures |r| >= 1
  {
    if i < 0 then "-" + FormatUint(-i) else FormatUint(i)
  }

  lemma {:induction false} FormatUintValue(n: nat)
    ensures DecimalValue(FormatUint(n)) == n
    decreases n
  {
    if n >= 10 {
      FormatUintValue(n / 10);
      var r := FormatUint(n);
      assert r[..|r| - 1] == FormatUint(n / 10);
    }
  }

  /** Formatting and then parsing gives back every 64-bit unsigned value. */
  lemma ParseFormatUint(n: nat)
    requires n <= MaxUint64
    ensures ParseUint(FormatUint(n)) == (n, None)
  {
    FormatUintValue(n);
    ParseUintAccepts(FormatUint(n));
  }

  /** Formatting and then parsing gives back every 64-bit signed value. */
  lemma ParseFormatInt(i: int)
    requires InSigned(i, W64)
    ensures ParseInt(FormatInt(i)) == (i, None)
  {
    var s := FormatInt(i);
    var n := if i < 0 then -i else i;
    FormatUintValue(n);
    var digits := FormatUint(n);
    if i < 0 {
      assert s[1..] == digits;
    } else {
      assert s[0] != '+' && s[0] != '-';
    }
    assert SignedBody(s) == digits;
    ParseIntAccepts(s);
  }

  // -------------------------------------------------------------------- Atoi

  /** The digit loop of Atoi's fast path. */
  function AtoiDigits(s: string, i: nat, n: int): (int, bool)
    requires i <= |s|
    decreases |s| - i
  {
    if i == |s| then (n, true)
    else if !IsDigit(s[i]) then (0, false)
    else AtoiDigits(s, i + 1, n * 10 + DigitVal(s[i]))
  }

  /** `strconv.Atoi` on a 64-bit platform. Inputs of 1 to 18 bytes take a
      direct loop; others go through `ParseInt` with the error renamed. */
  function Atoi(s: string): (r: (int, Option<Error>))
  {
    var len := GoStrings.Utf8Len(s);
    if 0 < len < 19 then
      var body := SignedBody(s);
      if body == "" then (0, Some(NumError("Atoi", s, Syntax)))
      else
        var (n, ok) := AtoiDigits(body, 0, 0);
        if !ok then (0, Some(NumError("Atoi", s, Syntax)))
        else (if Negative(s) then -n else n, None)
    else
      var (v, err) := ParseInt(s);
      (v, if err == None then None else Some(NumError("Atoi", s, err.value.cause)))
  }

  lemma {:induction false} AtoiDigitsValue(s: string, i: nat)
    requires i <= |s| && AllDigits(s[..i])
    ensures AtoiDigits(s, i, DecimalValue(s[..i])).1 <==> AllDigits(s)
    ensures AllDigits(s) ==> AtoiDigits(s, i, DecimalValue(s[..i])).0 == DecimalValue(s)
    ensures !AllDigits(s) ==> AtoiDigits(s, i, DecimalValue(s[..i])).0 == 0
    decreases |s| - i
  {
    if i == |s| {
      assert s[..i] == s;
    } else if IsDigit(s[i]) {
      assert s[..i + 1][..i] == s[..i];
      assert s[..i + 1] == s[..i] + [s[i]];
      AtoiDigitsValue(s, i + 1);
    }
  }

  lemma {:induction false} DecimalBound(s: string)
    ensures DecimalValue(s) < Pow10(|s|)
    decreases |s|
  {
    if |s| > 0 {
      DecimalBound(s[..|s| - 1]);
    }
  }

  /** A number with k digits formats to exactly k characters. */
  lemma {:induction false} FormatUintLength(n: nat, k: nat)
    requires 1 <= k && Pow10(k - 1) <= n < Pow10(k)
    ensures |FormatUint(n)| == k
    decreases k
  {
    if k > 1 {
      assert Pow10(k - 1) == 10 * Pow10(k - 2);
      assert (n / 10) * 10 <= n < (n / 10) * 10 + 10;
      FormatUintLength(n / 10, k - 1);
    }
  }

  /** Reading a digit string from the front: its first digit is worth
      10^(length-1). */
  lemma {:induction false} DecimalFront(s: string)
    requires |s| >= 1
    ensures DecimalValue(s) == DigitVal(s[0]) * Pow10(|s| - 1) + DecimalValue(s[1..])
    decreases |s|
  {
    if |s| > 1 {
      var init := s[..|s| - 1];
      DecimalFront(init);
      var d, p, v, last := DigitVal(s[0]), Pow10(|s| - 2), DecimalValue(init[1..]), DigitVal(s[|s| - 1]);
      assert init[0] == s[0];
      assert DecimalValue(init) == d * p + v;
      assert init[1..] == s[1..][..|s[1..]| - 1];
      assert DecimalValue(s[1..]) == v * 10 + last;
      assert Pow10(|s| - 1) == 10 * p;
      calc {
        DecimalValue(s);
        DecimalValue(init) * 10 + last;
        (d * p + v) * 10 + last;
        { MulDistributes(d * p, v, 10); }
        (d * p) * 10 + v * 10 + last;
        { MulAssociates(d, p, 10); }
        d * (10 * p) + v * 10 + last;
      }
    } else {
      assert s[..0] == "";
    }
  }

  lemma MulDistributes(a: int, b: int, c: int)
    ensures (a + b) * c == a * c + b * c
  {
  }

  lemma MulAssociates(a: int, b: int, c: int)
    ensures (a * b) * c == a * (c * b)
  {
  }

  lemma Pow10Of18()
    ensures Pow10(18) == 1_000_000_000_000_000_000
  {
    assert Pow10(1) == 10;
    assert Pow10(2) == 100;
    assert Pow10(3) == 1000;
    assert Pow10(4) == 10000;
    assert Pow10(5) == 100000;
    assert Pow10(6) == 1000000;
    assert Pow10(7) == 10000000;
    assert Pow10(8) == 100000000;
    assert Pow10(9) == 1000000000;
    assert Pow10(10) == 10000000000;
    assert Pow10(11) == 100000000000;
    assert Pow10(12) == 1000000000000;
    assert Pow10(13) == 10000000000000;
    assert Pow10(14) == 100000000000000;
    assert Pow10(15) == 1000000000000000;
    assert Pow10(16) == 10000000000000000;
    assert Pow10(17) == 100000000000000000;
    assert Pow10(18) == 1000000000000000000;
  }

  lemma {:induction false} Pow10Monotone(a: nat, b: nat)
    requires a <= b
    ensures Pow10(a) <= Pow10(b)
    decreases b
  {
    if a < b {
      Pow10Monotone(a, b - 1);
    }
  }

  /** The fast path of Atoi is an optimisation only: Atoi always returns
      `ParseInt`'s value and an error of the same cause, naming Atoi. */
  lemma AtoiAgreesWithParseInt(s: string)
    ensures Atoi(s).0 == ParseInt(s).0
    ensures Atoi(s).1 == None <==> ParseInt(s).1 == None
    ensures ParseInt(s).1.Some? ==> Atoi(s).1 == Some(NumError("Atoi", s, ParseInt(s).1.value.cause))
  {
    var len := GoStrings.Utf8Len(s);
    if 0 < len < 19 {
      var body := SignedBody(s);
      if body == "" {
        assert ParseUint(body) == (0, Some(NumError("ParseUint", body, Syntax)));
      } else {
        assert body[..0] == "";
        AtoiDigitsValue(body, 0);
        if AllDigits(body) {
          AtoiShortDigits(s);
        } else {
          AtoiShortGarbage(s);
        }
      }
    }
  }

  lemma AtoiShortDigits(s: string)
    requires 0 < GoStrings.Utf8Len(s) < 19
    requires SignedBody(s) != "" && AllDigits(SignedBody(s))
    ensures ParseInt(s) == (SignedValue(s), None)
  {
    ShortDecimalFits(SignedBody(s));
    assert -0x8000_0000_0000_0000 < SignedValue(s) < 0x8000_0000_0000_0000;
    ParseIntAccepts(s);
  }

  /** Eighteen digits or fewer stay below 10^18. */
  lemma ShortDecimalFits(body: string)
    requires |body| <= 18
    ensures DecimalValue(body) < 1_000_000_000_000_000_000
  {
    DecimalBound(body);
    Pow10Monotone(|body|, 18);
    Pow10Of18();
  }

  lemma AtoiShortGarbage(s: string)
    requires 0 < GoStrings.Utf8Len(s) < 19
    requires SignedBody(s) != "" && !AllDigits(SignedBody(s))
    ensures ParseInt(s) == (0, Some(NumError("ParseInt", s, Syntax)))
  {
    var body := SignedBody(s);
    var j := LeadingDigits(body);
    LeadingDigitsFull(body);
    DecimalBound(body[..j]);
    Pow10Monotone(j, 18);
    Pow10Of18();
    ParseUintMatchesReference(body);
    assert ParseUint(body) == (0, Some(NumError("ParseUint", body, Syntax)));
  }
}
