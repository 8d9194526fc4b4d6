/** The `error` values that flow through the core, and their `Error()`
    texts. `Multi` is the value of an `*aux.MultiError`. */
module Errors {
  import GoStrings

  /** `strconv.ErrSyntax` or `strconv.ErrRange`. */
  datatype NumCause = Syntax | Range

  datatype Error =
    | UnexpectedType                                   // di.ErrUnexpectedType
    | Unaddressable                                    // di.UnaddressableError
    | Unexported                                       // di.UnexportedError
    | NotAStruct                                       // errorNotAStruct in di
    | NumError(fn: string, num: string, cause: NumCause) // *strconv.NumError
    | Plain(message: string)                           // errors.New, fmt.Errorf
    | Multi(errors: seq<Error>)                        // *aux.MultiError

  const MultiplePrefix := "Multiple errors: "
  const MultiSeparator := ", "

  /** `strconv.Quote` for a string without characters that need an escape. */
  function Quote(s: string): (r: string)
    ensures |r| == |s| + 2 && r[0] == '"' && r[|r| - 1] == '"' && r[1..|r| - 1] == s
  {
    "\"" + s + "\""
  }

  function CauseText(c: NumCause): string {
    match c
    case Syntax => "invalid syntax"
    case Range => "value out of range"
  }

  /** The text `err.Error()` returns. For a multi-error: the element texts
      joined by ", ", with the prefix "Multiple errors: " when there are at
      least two of them. */
  function Message(e: Error): string
    decreases e
  {
    match e
    case UnexpectedType => "Non-numeric type could not be converted"
    case Unaddressable => "value is unaddressable"
    case Unexported => "value is unexported struct field"
    case NotAStruct => "passed value is not a pointer to struct"
    case NumError(fn, num, cause) =>
      "strconv." + fn + ": parsing " + Quote(num) + ": " + CauseText(cause)
    case Plain(m) => m
    case Multi(errs) =>
      (if |errs| > 1 then MultiplePrefix else "")
      + GoStrings.Join(Messages(errs), MultiSeparator)
  }

  /** The texts of a list of errors, in order. */
  function Messages(errs: seq<Error>): (r: seq<string>)
    ensures |r| == |errs|
    ensures forall i :: 0 <= i < |errs| ==> r[i] == Message(errs[i])
    decreases errs
  {
    if errs == [] then [] else [Message(errs[0])] + Messages(errs[1..])
  }

  /** A multi-error with one element reads exactly like that element, and
      an empty one reads as the empty string. */
  lemma MultiMessageSmall(errs: seq<Error>)
    ensures |errs| == 0 ==> Message(Multi(errs)) == ""
    ensures |errs| == 1 ==> Message(Multi(errs)) == Message(errs[0])
  {
  }

  /** With two or more errors the text starts with the prefix and then the
      first element's text. */
  lemma MultiMessageMany(errs: seq<Error>)
    requires |errs| >= 2
    ensures GoStrings.HasPrefix(Message(Multi(errs)), MultiplePrefix + Message(errs[0]) + MultiSeparator)
  {
    var msgs := Messages(errs);
    var p := MultiplePrefix + Message(errs[0]) + MultiSeparator;
    assert Message(Multi(errs)) == MultiplePrefix + (msgs[0] + MultiSeparator + GoStrings.Join(msgs[1..], MultiSeparator));
    assert Message(Multi(errs)) == p + GoStrings.Join(msgs[1..], MultiSeparator);
  }
}
