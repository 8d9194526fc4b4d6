/** `di.GetBool` and `di.GetString`: a type switch over the untyped value
    that returns a value/error pair. */
module Helper {
  import opened GoRuntime
  import opened MachineInts
  import opened Errors
  import opened Values
  import StrConv

  /** `GetBool`: nil is false, a bool is itself, a string goes through
      `strconv.ParseBool`, an integer is "not zero", anything else is
      `ErrUnexpectedType`. */
  function GetBool(v: Value): (r: (bool, Option<Error>))
    ensures r.1 != None ==> !r.0
    ensures r.1 != None ==> r.1 == Some(UnexpectedType) || (v.Str? && r.1 == Some(NumError("ParseBool", v.s, Syntax)))
  {
    match v
    case Nil => (false, None)
    case Bool(b) => (b, None)
    case Str(s) => StrConv.ParseBool(s)
    case Int(_, i) => (i != 0, None)
    case _ => (false, Some(UnexpectedType))
  }

  /** `GetString`: nil is "", a string is itself, integers are rendered in
      base 10, bools as "true"/"false", floats by their shortest rendering;
      sequences and maps are `ErrUnexpectedType`. */
  function GetString(v: Value): (r: (string, Option<Error>))
    ensures r.1 != None <==> v.List? || v.Dict?
    ensures r.1 != None ==> r == ("", Some(UnexpectedType))
  {
    match v
    case Nil => ("", None)
    case Str(s) => (s, None)
    case Float(_, text) => (text, None)
    case Int(t, i) => (if t.Signed() then StrConv.FormatInt(i) else StrConv.FormatUint(if i < 0 then 0 else i), None)
    case Bool(b) => (StrConv.FormatBool(b), None)
    case _ => ("", Some(UnexpectedType))
  }

  /** The kinds `GetBool` handles, and what it makes of each. */
  lemma GetBoolCases(v: Value)
    ensures v == Nil ==> GetBool(v) == (false, None)
    ensures v.Bool? ==> GetBool(v) == (v.b, None)
    ensures v.Int? ==> GetBool(v) == (v.i != 0, None)
    ensures v.Float? || v.List? || v.Dict? ==> GetBool(v) == (false, Some(UnexpectedType))
  {
  }

  /** On a string, `GetBool` accepts exactly the twelve spellings of
      `strconv.ParseBool`. */
  lemma GetBoolStrings(s: string)
    ensures GetBool(Str(s)).1 == None <==> s in {"1", "t", "T", "true", "TRUE", "True", "0", "f", "F", "false", "FALSE", "False"}
    ensures GetBool(Str(s)) == (true, None) <==> s in {"1", "t", "T", "true", "TRUE", "True"}
    ensures GetBool(Str(s)) == (false, None) <==> s in {"0", "f", "F", "false", "FALSE", "False"}
  {
  }

  /** `GetString` and `GetBool` are inverse on bools. */
  lemma GetBoolOfGetString(b: bool)
    ensures GetBool(Str(GetString(Bool(b)).0)) == (b, None)
  {
    StrConv.ParseFormatBool(b);
  }

  /** The rendering of a signed integer parses back to the same number. */
  lemma GetStringParsesBack(v: Value)
    requires v.Int? && WellFormed(v)
    ensures StrConv.ParseInt(GetString(v).0) == (v.i, None) || (!v.t.Signed() && !InSigned(v.i, W64))
    ensures !v.t.Signed() ==> StrConv.ParseUint(GetString(v).0) == (v.i, None)
  {
    var w := v.t.Width();
    var m := Modulus(w);
    assert m <= Modulus(W64);
    if v.t.Signed() {
      assert InSigned(v.i, W64);
      StrConv.ParseFormatInt(v.i);
    } else {
      StrConv.ParseFormatUint(v.i);
      if InSigned(v.i, W64) {
        StrConv.ParseFormatInt(v.i);
      }
    }
  }
}
