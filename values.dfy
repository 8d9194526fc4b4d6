/** The untyped values a configuration hands to the engine (what Go holds
    in an `interface{}`): nil, bool, string, integers of every width,
    float64, `[]interface{}` and `map[string]interface{}`. */
module Values {
  import opened MachineInts
  import opened GoRuntime

  datatype Value =
    | Nil
    | Bool(b: bool)
    | Str(s: string)
    | Int(t: IntType, i: int)
      /** A float64 with its shortest decimal rendering
          (`strconv.FormatFloat(x, 'f', -1, 64)`). */
    | Float(x: real, text: string)
    | List(items: seq<Value>)
      /** `order` is the order in which Go's map iteration visits the keys
          in this run; Go leaves it unspecified, every order is possible. */
    | Dict(entries: map<string, Value>, order: seq<string>)

  /** Containers rank above scalars: a map key (a string made from a
      container's key) is then smaller than the container it came from. */
  function Scalarity(v: Value): nat {
    if v.List? || v.Dict? then 1 else 0
  }

  /** Integers hold values of their type and the visiting order of a map
      lists each key once. */
  ghost predicate WellFormed(v: Value) {
    match v
    case Int(t, i) => InRange(i, t)
    case List(items) => forall k :: 0 <= k < |items| ==> WellFormed(items[k])
    case Dict(entries, order) =>
      Enumerates(order, entries.Keys) && forall key :: key in entries ==> WellFormed(entries[key])
    case _ => true
  }

  /** Go's float-to-integer conversion drops the fraction (rounds toward
      zero). */
  function TruncFloat(x: real): (r: int)
    ensures 0.0 <= x ==> r as real <= x < r as real + 1.0
    ensures x < 0.0 ==> r as real - 1.0 < x <= r as real
  {
    if x >= 0.0 then x.Floor else -((-x).Floor)
  }
}
