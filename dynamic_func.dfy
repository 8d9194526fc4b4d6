/** `di.DynamicFunc`: a Go function bound to parameter names. Each
    parameter gets a filler that takes its argument from a named-argument
    map through the coercion functions; `Call` fills the parameters in
    order and invokes the function through `reflect`. */
module DynamicFuncs {
  import opened GoRuntime
  import opened Errors
  import opened Values
  import opened Types
  import Helper
  import HelperSigned
  import StrConv

  /** The kind of a parameter type, as `NewDynamicFunc` switches on it. */
  datatype ParamKind = PBool | PString | PInt | PInterface(iface: Iface) | POther(name: string)

  /** A non-zero `reflect.Value` passed as an argument. */
  datatype Arg = ABool(b: bool) | AString(s: string) | AInt(i: int) | AObject(obj: Object)

  /** A Go function value: its parameter kinds, its number of results and
      what it returns (its first result, nil or an object) for given
      arguments. */
  datatype GoFunc = GoFunc(params: seq<ParamKind>, results: nat, impl: seq<Arg> -> Option<Object>)

  /** The filler closure built for one parameter; `NoFiller` is the nil
      slot left for a parameter kind the switch does not handle. */
  datatype Filler = FillBool(name: string) | FillString(name: string) | FillInt(name: string)
                  | FillObject(name: string) | NoFiller

  datatype DynamicFunc = DynamicFunc(fills: seq<Filler>, funk: GoFunc, index: nat)

  /** The filler the switch in `NewDynamicFunc` builds for a parameter. */
  function FillerFor(p: ParamKind, name: string): (f: Filler)
    ensures p.PBool? <==> f == FillBool(name)
    ensures p.PString? <==> f == FillString(name)
    ensures p.PInt? <==> f == FillInt(name)
    ensures p.PInterface? <==> f == FillObject(name)
    ensures p.POther? <==> f == NoFiller
  {
    match p
    case PBool => FillBool(name)
    case PString => FillString(name)
    case PInt => FillInt(name)
    case PInterface(_) => FillObject(name)
    case POther(_) => NoFiller
  }

  /** `NewDynamicFunc`: panics when the parameter count differs from the
      number of names; otherwise one filler per parameter, index 0. */
  method NewDynamicFunc(f: GoFunc, argNames: seq<string>) returns (r: Outcome<DynamicFunc>)
    ensures |f.params| != |argNames| <==> r.Panic?
    ensures r.Panic? ==> r.message == "Number of func arguments and passed names does not match. Expected "
                                      + StrConv.FormatInt(|f.params|) + ", received " + StrConv.FormatInt(|argNames|)
    ensures r.Normal? ==> r.value.funk == f && r.value.index == 0
    ensures r.Normal? ==> |r.value.fills| == |f.params|
    ensures r.Normal? ==> forall i :: 0 <= i < |f.params| ==> r.value.fills[i] == FillerFor(f.params[i], argNames[i])
  {
    var num := |f.params|;
    if num != |argNames| {
      return Panic("Number of func arguments and passed names does not match. Expected "
                   + StrConv.FormatInt(num) + ", received " + StrConv.FormatInt(|argNames|));
    }
    var fills := new Filler[num](_ => NoFiller);
    for i := 0 to num
      invariant forall k :: 0 <= k < i ==> fills[k] == FillerFor(f.params[k], argNames[k])
    {
      fills[i] := FillerFor(f.params[i], argNames[i]);
    }
    r := Normal(DynamicFunc(fills[..], f, 0));
  }

  /** What a filler yields: `None` is the zero `reflect.Value`. A missing
      key yields it without error; so does a non-string argument to an
      interface parameter, and a name the global scope does not know. */
  function Fill(f: Filler, args: map<string, Value>, global: seq<map<string, Option<Object>>>): (r: (Option<Arg>, Option<Error>))
    requires !f.NoFiller?
    ensures f.name !in args ==> r == (None, None)
    ensures r.1.Some? ==> r.0 == None
    ensures f.FillObject? ==> r.1 == None
  {
    if f.name !in args then (None, None)
    else
      var v := args[f.name];
      match f
      case FillBool(_) =>
        var (b, err) := Helper.GetBool(v);
        if err == None then (Some(ABool(b)), None) else (None, err)
      case FillString(_) =>
        var (s, err) := Helper.GetString(v);
        if err == None then (Some(AString(s)), None) else (None, err)
      case FillInt(_) =>
        var (i, err) := HelperSigned.GetInt(v);
        if err == None then (Some(AInt(i)), None) else (None, err)
      case FillObject(_) =>
        if v.Str? then
          var o := Lookup(global, v.s);
          (if o.Some? then Some(AObject(o.value)) else None, None)
        else (None, None)
  }

  /** The argument loop of `Call` over the first n fillers: a nil filler
      or a filler error panics at once. */
  function FillAll(fills: seq<Filler>, args: map<string, Value>, global: seq<map<string, Option<Object>>>, n: nat): (r: Outcome<seq<Option<Arg>>>)
    requires n <= |fills|
    ensures r.Normal? ==> |r.value| == n
  {
    if n == 0 then Normal([])
    else
      var prev := FillAll(fills, args, global, n - 1);
      if prev.Panic? then prev
      else if fills[n - 1].NoFiller? then Panic(NilDereference)
      else
        var (a, err) := Fill(fills[n - 1], args, global);
        if err.Some? then Panic("Could not set value: " + Message(err.value))
        else Normal(prev.value + [a])
  }

  /** Whether `reflect.Value.Call` accepts the argument for the parameter. */
  predicate Accepts(p: ParamKind, a: Arg) {
    match p
    case PBool => a.ABool?
    case PString => a.AString?
    case PInt => a.AInt?
    case PInterface(AnyIface) => a.AObject?
    case PInterface(Named(n)) => a.AObject? && n in a.obj.implements
    case POther(_) => false
  }

  /** The name `reflect` prints for an argument's type. */
  function ArgTypeName(a: Arg): string {
    match a
    case ABool(_) => "bool"
    case AString(_) => "string"
    case AInt(_) => "int"
    case AObject(o) => o.typeName
  }

  /** The name `reflect` prints for a parameter's type. */
  function ParamTypeName(p: ParamKind): string {
    match p
    case PBool => "bool"
    case PString => "string"
    case PInt => "int"
    case PInterface(AnyIface) => "interface {}"
    case PInterface(Named(n)) => n
    case POther(n) => n
  }

  /** The panic of `reflect.Value.Call` for the first argument its
      parameter does not accept. */
  function CallTypeError(ps: seq<ParamKind>, ins: seq<Option<Arg>>): string
    requires |ps| == |ins| && forall i :: 0 <= i < |ins| ==> ins[i].Some?
    decreases |ps|
  {
    if |ps| == 0 then ""
    else if !Accepts(ps[0], ins[0].value) then
      "reflect: Call using " + ArgTypeName(ins[0].value) + " as type " + ParamTypeName(ps[0])
    else CallTypeError(ps[1..], ins[1..])
  }

  /** `reflect.Value.Call`: panics on a zero argument or one the
      parameter does not accept; otherwise the first result, or nil when
      the function has none. */
  function Invoke(fn: GoFunc, ins: seq<Option<Arg>>): (r: Outcome<Option<Object>>)
    requires |ins| == |fn.params|
    ensures r.Normal? <==> forall i :: 0 <= i < |ins| ==> ins[i].Some? && Accepts(fn.params[i], ins[i].value)
    ensures r.Normal? && fn.results == 0 ==> r.value == None
  {
    if exists i :: 0 <= i < |ins| && ins[i].None? then Panic("reflect: Call using zero Value argument")
    else if exists i :: 0 <= i < |ins| && !Accepts(fn.params[i], ins[i].value) then Panic(CallTypeError(fn.params, ins))
    else if fn.results == 0 then Normal(None)
    else Normal(fn.impl(seq(|ins|, i requires 0 <= i < |ins| => ins[i].value)))
  }

  /** What `Call` does, as a function of the named arguments and the global
      scope's chain of objects. */
  function CallSpec(df: DynamicFunc, args: map<string, Value>, global: seq<map<string, Option<Object>>>): Outcome<Option<Object>>
    requires |df.fills| == |df.funk.params|
  {
    var ins := FillAll(df.fills, args, global, |df.fills|);
    if ins.Panic? then Panic(ins.message) else Invoke(df.funk, ins.value)
  }

  /** `Call`: fills the `in` slice parameter by parameter, then invokes. */
  method Call(df: DynamicFunc, args: map<string, Value>, global: seq<map<string, Option<Object>>>) returns (r: Outcome<Option<Object>>)
    requires |df.fills| == |df.funk.params|
    ensures r == CallSpec(df, args, global)
  {
    var ins := new Option<Arg>[|df.fills|](_ => None);
    var i := 0;
    while i < |df.fills|
      invariant 0 <= i <= |df.fills|
      invariant FillAll(df.fills, args, global, i) == Normal(ins[..i])
    {
      var f := df.fills[i];
      if f.NoFiller? {
        PanicPersists(df.fills, args, global, i + 1, |df.fills|);
        return Panic(NilDereference);
      }
      var (a, err) := Fill(f, args, global);
      ins[i] := a;
      if err.Some? {
        PanicPersists(df.fills, args, global, i + 1, |df.fills|);
        return Panic("Could not set value: " + Message(err.value));
      }
      assert ins[..i + 1] == ins[..i] + [a];
      i := i + 1;
    }
    assert ins[..] == ins[..i];
    r := Invoke(df.funk, ins[..]);
  }

  /** A panic in the first m fillers is the panic of the whole loop. */
  lemma {:induction false} PanicPersists(fills: seq<Filler>, args: map<string, Value>, global: seq<map<string, Option<Object>>>, m: nat, n: nat)
    requires m <= n <= |fills|
    requires FillAll(fills, args, global, m).Panic?
    ensures FillAll(fills, args, global, n) == FillAll(fills, args, global, m)
    decreases n
  {
    if n > m {
      PanicPersists(fills, args, global, m, n - 1);
    }
  }

  /** The function is invoked only when every filler ran without error: a
      coercion error of the value for parameter i panics, and in that
      case no earlier filler failed. */
  lemma {:induction false} FillerErrorPanics(fills: seq<Filler>, args: map<string, Value>, global: seq<map<string, Option<Object>>>, n: nat, i: nat)
    requires i < n <= |fills|
    requires forall k :: 0 <= k <= i ==> !fills[k].NoFiller?
    requires Fill(fills[i], args, global).1.Some?
    ensures FillAll(fills, args, global, n).Panic?
    decreases n
  {
    if n - 1 > i {
      FillerErrorPanics(fills, args, global, n - 1, i);
    }
  }

  /** When every filler yields a value without error, the arguments are
      exactly those values, in parameter order. */
  lemma {:induction false} FillAllValues(fills: seq<Filler>, args: map<string, Value>, global: seq<map<string, Option<Object>>>, n: nat)
    requires n <= |fills|
    requires forall k :: 0 <= k < n ==> !fills[k].NoFiller? && Fill(fills[k], args, global).1 == None
    ensures FillAll(fills, args, global, n).Normal?
    ensures forall k :: 0 <= k < n ==> FillAll(fills, args, global, n).value[k] == Fill(fills[k], args, global).0
    decreases n
  {
    if n > 0 {
      FillAllValues(fills, args, global, n - 1);
    }
  }

  /** A missing argument never reaches the function: its filler yields the
      zero value and the reflective call panics. */
  lemma MissingArgumentPanics(df: DynamicFunc, args: map<string, Value>, global: seq<map<string, Option<Object>>>, i: nat)
    requires |df.fills| == |df.funk.params| && i < |df.fills|
    requires !df.fills[i].NoFiller? && df.fills[i].name !in args
    ensures CallSpec(df, args, global).Panic?
  {
    var ins := FillAll(df.fills, args, global, |df.fills|);
    if ins.Normal? {
      if forall k :: 0 <= k < |df.fills| ==> !df.fills[k].NoFiller? && Fill(df.fills[k], args, global).1 == None {
        FillAllValues(df.fills, args, global, |df.fills|);
        assert ins.value[i] == None;
      } else {
        var k :| 0 <= k < |df.fills| && (df.fills[k].NoFiller? || Fill(df.fills[k], args, global).1 != None);
        FirstFailurePanics(df.fills, args, global, |df.fills|, k);
      }
    }
  }

  lemma {:induction false} FirstFailurePanics(fills: seq<Filler>, args: map<string, Value>, global: seq<map<string, Option<Object>>>, n: nat, k: nat)
    requires k < n <= |fills|
    requires fills[k].NoFiller? || Fill(fills[k], args, global).1 != None
    ensures FillAll(fills, args, global, n).Panic?
    decreases n
  {
    if n - 1 > k {
      FirstFailurePanics(fills, args, global, n - 1, k);
    }
  }

  /** An interface parameter takes the object the GLOBAL scope's chain
      holds under the string argument. */
  lemma ObjectFillerUsesGlobal(name: string, args: map<string, Value>, global: seq<map<string, Option<Object>>>)
    requires name in args && args[name].Str?
    ensures Fill(FillObject(name), args, global).0 ==
              if Lookup(global, args[name].s).Some? then Some(AObject(Lookup(global, args[name].s).value)) else None
  {
  }
}
