/** Small vocabulary shared by the whole model: Go's nil-able values and
    Go's panics. A `panic` (or `log.Panicf`) unwinds the goroutine; the model
    returns it as an explicit outcome so that callers can see which inputs
    reach it. */
module GoRuntime {

  /** A value that may be Go's `nil`. */
  datatype Option<+T> = None | Some(value: T)

  /** What a Go call that may panic produces: a normal return or a panic
      carrying its message. */
  datatype Outcome<+T> = Normal(value: T) | Panic(message: string)

  /** The panic of a nil pointer dereference. */
  const NilDereference := "runtime error: invalid memory address or nil pointer dereference"

  /** The keys of `keys` listed once each: one of the orders in which Go's
      `range` may visit a map. */
  ghost predicate Enumerates<K>(order: seq<K>, keys: set<K>)
  {
    && |order| == |keys|
    && (forall i :: 0 <= i < |order| ==> order[i] in keys)
    && (forall i, j :: 0 <= i < j < |order| ==> order[i] != order[j])
  }

  /** A `range` loop part-way through: `order` lists the keys of `all`
      visited so far, once each, and `rest` holds the others. */
  ghost predicate Visiting<K>(order: seq<K>, rest: set<K>, all: set<K>) {
    && rest <= all
    && |order| + |rest| == |all|
    && (forall i :: 0 <= i < |order| ==> order[i] in all && order[i] !in rest)
    && (forall i, j :: 0 <= i < j < |order| ==> order[i] != order[j])
  }

  /** Every key of an enumeration's set occurs in it. */
  lemma EnumerationCovers<K>(order: seq<K>, keys: set<K>)
    requires Enumerates(order, keys)
    ensures forall k :: k in keys ==> k in order
  {
    var listed := set i | 0 <= i < |order| :: order[i];
    assert listed <= keys;
    DistinctCardinality(order);
    assert |listed| == |order|;
    assert keys == listed + (keys - listed);
    assert |keys - listed| == 0;
  }

  lemma DistinctCardinality<K>(order: seq<K>)
    requires forall i, j :: 0 <= i < j < |order| ==> order[i] != order[j]
    ensures |set i | 0 <= i < |order| :: order[i]| == |order|
  {
    if order != [] {
      var rest := order[..|order| - 1];
      DistinctCardinality(rest);
      var last := order[|order| - 1];
      var s := set i | 0 <= i < |order| :: order[i];
      var t := set i | 0 <= i < |rest| :: rest[i];
      assert s == t + {last};
      assert last !in t;
    }
  }
}
