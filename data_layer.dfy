/** The data layer: request values gathered into a multi-value map by a
    list of providers. A provider maps request parameter names to value
    names; the mux-variables provider reads the route variables, the
    URL-parameter provider the query. The request is abstracted to those
    two maps. */
module DataLayer {
  import opened GoRuntime

  /** `MultiValueMap` / `map[string][]string`; a nil list is an absent key. */
  type MultiValues = map<string, seq<string>>

  /** What the providers read of an `*http.Request`: `mux.Vars(request)`
      and `request.URL.Query()`. */
  datatype Request = Request(vars: map<string, string>, query: map<string, seq<string>>)

  /** `MuxVarsProvider` and `URLParameterProvider` with their `Mapping`. */
  datatype Provider =
    | MuxVars(mapping: map<string, string>)
    | UrlParameters(mapping: map<string, string>)

  /** `MultiValueMap.Get`: the first value under `name`, if there is one. */
  function Get(m: MultiValues, name: string): (r: (string, bool))
    ensures r.1 <==> name in m && |m[name]| > 0
    ensures r.1 ==> r.0 == m[name][0]
    ensures !r.1 ==> r.0 == ""
  {
    var values := if name in m then m[name] else [];
    if |values| > 0 then (values[0], true) else ("", false)
  }

  /** `CapacityReco`: the number of mapping entries, for both providers. */
  function CapacityReco(p: Provider): nat {
    |p.mapping|
  }

  /** The list under `name`, empty when there is none. */
  function Current(m: MultiValues, name: string): seq<string> {
    if name in m then m[name] else []
  }

  /** What one mapping entry contributes: a non-empty route variable
      (a missing one reads as ""), or the query's whole list when the
      query has the key. */
  function Contribution(p: Provider, req: Request, key: string): Option<seq<string>> {
    match p
    case MuxVars(_) =>
      var parameter := if key in req.vars then req.vars[key] else "";
      if parameter != "" then Some([parameter]) else None
    case UrlParameters(_) =>
      if key in req.query then Some(req.query[key]) else None
  }

  /** One loop iteration of `Initialize` for `key`: the contribution is
      appended to the list under `Mapping[key]`, which is created when
      absent. */
  function Step(p: Provider, req: Request, m: MultiValues, key: string): MultiValues
    requires key in p.mapping
  {
    var c := Contribution(p, req, key);
    if c.Some? then m[p.mapping[key] := Current(m, p.mapping[key]) + c.value] else m
  }

  /** `Initialize` visiting the mapping keys in `order`. */
  function Fold(p: Provider, req: Request, m: MultiValues, order: seq<string>): MultiValues
    requires forall i :: 0 <= i < |order| ==> order[i] in p.mapping
    decreases |order|
  {
    if order == [] then m
    else Step(p, req, Fold(p, req, m, order[..|order| - 1]), order[|order| - 1])
  }

  /** The map that providers fill; Go passes it by reference. */
  class ValueMap {
    var entries: MultiValues

    constructor ()
      ensures entries == map[]
    {
      entries := map[];
    }
  }

  /** `MuxVarsProvider.Initialize` and `URLParameterProvider.Initialize`:
      range over the mapping in an order Go leaves open; `order` is the
      order this run took. */
  method Initialize(p: Provider, req: Request, m: ValueMap) returns (ghost order: seq<string>)
    modifies m
    ensures Enumerates(order, p.mapping.Keys)
    ensures m.entries == Fold(p, req, old(m.entries), order)
  {
    var rest := p.mapping.Keys;
    order := [];
    while rest != {}
      invariant Visiting(order, rest, p.mapping.Keys)
      invariant m.entries == Fold(p, req, old(m.entries), order)
      decreases |rest|
    {
      var key :| key in rest;
      m.entries := Step(p, req, m.entries, key);
      assert (order + [key])[..|order|] == order;
      order := order + [key];
      rest := rest - {key};
    }
  }

  /** Every order lists its provider's mapping keys once each. */
  ghost predicate Enumerations(ps: seq<Provider>, orders: seq<seq<string>>) {
    |orders| == |ps| && forall i :: 0 <= i < |ps| ==> Enumerates(orders[i], ps[i].mapping.Keys)
  }

  /** The providers applied one after another, each in its order. */
  function FoldAll(ps: seq<Provider>, req: Request, m: MultiValues, orders: seq<seq<string>>): MultiValues
    requires |orders| == |ps|
    requires forall i, k :: 0 <= i < |ps| && 0 <= k < |orders[i]| ==> orders[i][k] in ps[i].mapping
    decreases |ps|
  {
    if ps == [] then m
    else Fold(ps[|ps| - 1], req, FoldAll(ps[..|ps| - 1], req, m, orders[..|ps| - 1]), orders[|ps| - 1])
  }

  /** The index of the first nil provider in a configured list, or its
      length when there is none. A provider name the scope does not know,
      or one that does not implement `ValueProvider`, leaves a nil in the
      list. */
  function FirstNil(ps: seq<Option<Provider>>): (n: nat)
    ensures n <= |ps|
    ensures forall k :: 0 <= k < n ==> ps[k].Some?
    ensures n < |ps| ==> ps[n].None?
    decreases |ps|
  {
    if ps == [] then 0 else if ps[0].None? then 0 else 1 + FirstNil(ps[1..])
  }

  /** The providers of a list without nils. */
  function Unwrap(ps: seq<Option<Provider>>): (r: seq<Provider>)
    requires forall k :: 0 <= k < |ps| ==> ps[k].Some?
    ensures |r| == |ps| && forall k :: 0 <= k < |ps| ==> ps[k] == Some(r[k])
    decreases |ps|
  {
    if ps == [] then [] else Unwrap(ps[..|ps| - 1]) + [ps[|ps| - 1].value]
  }

  /** The providers a loop over the list reaches before the first nil. */
  function Reached(ps: seq<Option<Provider>>): seq<Provider> {
    Unwrap(ps[..FirstNil(ps)])
  }

  /** The sum of the providers' capacity recommendations. */
  function TotalCapacity(ps: seq<Provider>): nat
    decreases |ps|
  {
    if ps == [] then 0 else TotalCapacity(ps[..|ps| - 1]) + CapacityReco(ps[|ps| - 1])
  }

  class Layer {
    /** `Providers`; `None` is a nil `ValueProvider`. */
    var providers: seq<Option<Provider>>
    var capacity: int

    constructor (providers: seq<Option<Provider>>)
      ensures this.providers == providers && capacity == 0
    {
      this.providers := providers;
      capacity := 0;
    }

    /** `DataLayer.InitFunc`: the capacity is the sum of the providers'
        recommendations; a nil provider panics, leaving the sum of those
        before it. */
    method InitFunc() returns (r: Outcome<()>)
      modifies this
      ensures capacity == TotalCapacity(Reached(providers)) && providers == old(providers)
      ensures r == if FirstNil(providers) < |providers| then Panic(NilDereference) else Normal(())
    {
      var ps := providers;
      capacity := 0;
      for i := 0 to |ps|
        invariant providers == ps
        invariant forall k :: 0 <= k < i ==> ps[k].Some?
        invariant capacity == TotalCapacity(Unwrap(ps[..i]))
      {
        if ps[i].None? {
          FirstNilAt(ps, i);
          return Panic(NilDereference);
        }
        UnwrapSnoc(ps, i);
        capacity := capacity + CapacityReco(ps[i].value);
      }
      assert ps[..|ps|] == ps;
      FirstNilNone(ps);
      r := Normal(());
    }

    /** `DataLayer.Values`: a fresh map, filled by every provider in
        order (the capacity is only an allocation hint); a nil provider
        panics once the providers before it have run. */
    method Values(req: Request) returns (r: Outcome<ValueMap>, ghost orders: seq<seq<string>>)
      ensures r.Panic? <==> FirstNil(providers) < |providers|
      ensures r.Panic? ==> r.message == NilDereference
      ensures Enumerations(Reached(providers), orders)
      ensures r.Normal? ==> fresh(r.value) && r.value.entries == FoldAll(Reached(providers), req, map[], orders)
    {
      var result := new ValueMap();
      var ps := providers;
      orders := [];
      for i := 0 to |ps|
        invariant forall k :: 0 <= k < i ==> ps[k].Some?
        invariant Enumerations(Unwrap(ps[..i]), orders)
        invariant result.entries == FoldAll(Unwrap(ps[..i]), req, map[], orders)
      {
        if ps[i].None? {
          FirstNilAt(ps, i);
          return Panic(NilDereference), orders;
        }
        UnwrapSnoc(ps, i);
        ghost var done := Unwrap(ps[..i]);
        ghost var order := Initialize(ps[i].value, req, result);
        assert (orders + [order])[..i] == orders;
        assert (done + [ps[i].value])[..i] == done;
        orders := orders + [order];
      }
      assert ps[..|ps|] == ps;
      FirstNilNone(ps);
      r := Normal(result);
    }
  }

  // ------------------------------------------------------------ properties

  /** The first nil is at i when none precedes it. */
  lemma {:induction false} FirstNilAt(ps: seq<Option<Provider>>, i: nat)
    requires i < |ps| && ps[i].None? && forall k :: 0 <= k < i ==> ps[k].Some?
    ensures FirstNil(ps) == i
    decreases i
  {
    if i > 0 {
      FirstNilAt(ps[1..], i - 1);
    }
  }

  /** One more provider without a nil before it. */
  lemma UnwrapSnoc(ps: seq<Option<Provider>>, i: nat)
    requires i < |ps| && forall k :: 0 <= k <= i ==> ps[k].Some?
    ensures Unwrap(ps[..i + 1]) == Unwrap(ps[..i]) + [ps[i].value]
  {
    assert ps[..i + 1][..i] == ps[..i];
  }

  /** A list without nils is reached entirely. */
  lemma {:induction false} FirstNilNone(ps: seq<Option<Provider>>)
    requires forall k :: 0 <= k < |ps| ==> ps[k].Some?
    ensures FirstNil(ps) == |ps|
    decreases |ps|
  {
    if ps != [] {
      FirstNilNone(ps[1..]);
    }
  }

  /** A value name no mapping entry targets keeps its list. */
  lemma {:induction false} FoldUntouched(p: Provider, req: Request, m: MultiValues, order: seq<string>, name: string)
    requires forall i :: 0 <= i < |order| ==> order[i] in p.mapping
    requires forall k :: k in p.mapping ==> p.mapping[k] != name
    ensures (name in Fold(p, req, m, order) <==> name in m)
    ensures Current(Fold(p, req, m, order), name) == Current(m, name)
    decreases |order|
  {
    if order != [] {
      FoldUntouched(p, req, m, order[..|order| - 1], name);
    }
  }

  /** Lists only grow: every list of the result starts with the list it
      had before. */
  lemma {:induction false} FoldAppends(p: Provider, req: Request, m: MultiValues, order: seq<string>, name: string)
    requires forall i :: 0 <= i < |order| ==> order[i] in p.mapping
    ensures var after := Current(Fold(p, req, m, order), name);
            |Current(m, name)| <= |after| && after[..|Current(m, name)|] == Current(m, name)
    decreases |order|
  {
    if order != [] {
      FoldAppends(p, req, m, order[..|order| - 1], name);
    }
  }

  /** When no two parameters map to the same value name, the result does
      not depend on Go's iteration order: each target list is the old list
      followed by exactly its parameter's contribution. */
  lemma OrderIrrelevantWhenInjective(p: Provider, req: Request, m: MultiValues, order: seq<string>, key: string)
    requires Enumerates(order, p.mapping.Keys)
    requires forall a, b :: a in p.mapping && b in p.mapping && a != b ==> p.mapping[a] != p.mapping[b]
    requires key in p.mapping
    ensures var c := Contribution(p, req, key);
            var after := Current(Fold(p, req, m, order), p.mapping[key]);
            after == Current(m, p.mapping[key]) + (if c.Some? then c.value else [])
  {
    EnumerationCovers(order, p.mapping.Keys);
    var j :| 0 <= j < |order| && order[j] == key;
    forall i | 0 <= i < |order| && i != j
      ensures p.mapping[order[i]] != p.mapping[key]
    {
      assert order[i] != order[j];
    }
    FoldOthers(p, req, m, order, key, j, |order|);
    assert order[..|order|] == order;
  }

  /** Folding over an order in which only position j has `key`'s target. */
  lemma {:induction false} FoldOthers(p: Provider, req: Request, m: MultiValues, order: seq<string>, key: string, j: nat, n: nat)
    requires forall i :: 0 <= i < |order| ==> order[i] in p.mapping
    requires key in p.mapping && j < |order| && order[j] == key && n <= |order|
    requires forall i :: 0 <= i < |order| && i != j ==> p.mapping[order[i]] != p.mapping[key]
    ensures var c := Contribution(p, req, key);
            var after := Current(Fold(p, req, m, order[..n]), p.mapping[key]);
            after == Current(m, p.mapping[key]) + (if n > j && c.Some? then c.value else [])
    decreases n
  {
    if n > 0 {
      assert order[..n][..n - 1] == order[..n - 1];
      FoldOthers(p, req, m, order, key, j, n - 1);
    }
  }

  /** The total capacity adds up over a split provider list. */
  lemma {:induction false} TotalCapacityAppend(a: seq<Provider>, b: seq<Provider>)
    ensures TotalCapacity(a + b) == TotalCapacity(a) + TotalCapacity(b)
    decreases |b|
  {
    if b == [] {
      assert a + b == a;
    } else {
      assert (a + b)[..|a + b| - 1] == a + b[..|b| - 1];
      TotalCapacityAppend(a, b[..|b| - 1]);
    }
  }
}
