/** The configuration file's handler list and what `Process` does with it:
    every entry names either a struct type, whose object `GlobalScope.New`
    builds, or a function, which `GlobalScope.Call` invokes. */
module Configurations {
  import opened GoRuntime
  import opened Errors
  import opened Values
  import opened Types
  import opened Assignment
  import opened Scopes
  import DynamicFuncs

  /** A JSON object: `map[string]interface{}`. */
  type Args = v: Value | v.Dict? witness Dict(map[], [])

  /** `Object`: the entry `{"name", "struct", "func", "args"}`. */
  datatype HandlerConfig = HandlerConfig(name: string, structName: string, funcName: string, args: Args)

  /** `Configuration`; the `views` paths are not part of this model. */
  datatype Configuration = Configuration(handlers: seq<HandlerConfig>)

  // ------------------------------------------------------------ map2array

  /** The keys of `m` in `order`, each followed by its value. */
  function Interleaved(m: map<string, string>, order: seq<string>): (r: seq<string>)
    requires forall i :: 0 <= i < |order| ==> order[i] in m
    ensures |r| == 2 * |order|
    decreases |order|
  {
    if order == [] then []
    else Interleaved(m, order[..|order| - 1]) + [order[|order| - 1], m[order[|order| - 1]]]
  }

  /** Position 2j holds the j-th key and position 2j+1 its value. */
  lemma {:induction false} InterleavedPairs(m: map<string, string>, order: seq<string>)
    requires forall i :: 0 <= i < |order| ==> order[i] in m
    ensures forall j :: 0 <= j < |order| ==>
              Interleaved(m, order)[2 * j] == order[j] && Interleaved(m, order)[2 * j + 1] == m[order[j]]
    decreases |order|
  {
    if order != [] {
      var init := order[..|order| - 1];
      InterleavedPairs(m, init);
      forall j | 0 <= j < |init|
        ensures order[j] == init[j]
      {
      }
    }
  }

  /** `map2array`: an array of twice the map's size, written key, value,
      key, value with a running index while ranging over the map in an
      order Go leaves open; `order` is the order this run took. */
  method Map2Array(m: map<string, string>) returns (result: array<string>, ghost order: seq<string>)
    ensures Enumerates(order, m.Keys)
    ensures result[..] == Interleaved(m, order)
  {
    result := new string[|m| * 2](_ => "");
    var i := 0;
    var rest := m.Keys;
    order := [];
    while rest != {}
      invariant Visiting(order, rest, m.Keys)
      invariant i == 2 * |order| && result.Length == 2 * |m|
      invariant result[..i] == Interleaved(m, order)
      decreases |rest|
    {
      var k :| k in rest;
      ghost var written := result[..i];
      result[i] := k;
      i := i + 1;
      result[i] := m[k];
      i := i + 1;
      assert result[..i] == written + [k, m[k]] by {
        assert result[..i - 2] == written;
      }
      assert Interleaved(m, order + [k]) == Interleaved(m, order) + [k, m[k]] by {
        assert (order + [k])[..|order|] == order;
      }
      order := order + [k];
      rest := rest - {k};
    }
  }

  /** An even index of the interleaving holds a key, and its value
      follows. */
  lemma InterleavedAt(m: map<string, string>, order: seq<string>, i: nat)
    requires forall k :: 0 <= k < |order| ==> order[k] in m
    requires i < 2 * |order| && i % 2 == 0
    ensures i / 2 < |order| && i + 1 < 2 * |order|
    ensures Interleaved(m, order)[i] == order[i / 2] && Interleaved(m, order)[i + 1] == m[order[i / 2]]
  {
    Halves(i);
    InterleavedPairs(m, order);
  }

  lemma Halves(i: nat)
    ensures i % 2 == 0 ==> i == 2 * (i / 2)
    ensures (2 * i) % 2 == 0 && (2 * i) / 2 == i
  {
  }

  /** Every key sits at exactly one even index, with its value right after
      it, and every even index holds a key. */
  lemma Map2ArrayLayout(m: map<string, string>, order: seq<string>)
    requires Enumerates(order, m.Keys)
    ensures var r := Interleaved(m, order);
            && |r| == 2 * |m|
            && (forall i :: 0 <= i < |r| - 1 && i % 2 == 0 ==> r[i] in m && r[i + 1] == m[r[i]])
            && (forall key :: key in m ==> exists i :: 0 <= i < |r| - 1 && i % 2 == 0 && r[i] == key && r[i + 1] == m[key])
            && (forall i, j :: 0 <= i < j < |r| && i % 2 == 0 && j % 2 == 0 ==> r[i] != r[j])
  {
    var r := Interleaved(m, order);
    forall i | 0 <= i < |r| - 1 && i % 2 == 0
      ensures r[i] in m && r[i + 1] == m[r[i]]
    {
      InterleavedAt(m, order, i);
    }
    forall i, j | 0 <= i < j < |r| && i % 2 == 0 && j % 2 == 0
      ensures r[i] != r[j]
    {
      InterleavedAt(m, order, i);
      InterleavedAt(m, order, j);
      Halves(i);
      Halves(j);
    }
    EnumerationCovers(order, m.Keys);
    forall key | key in m
      ensures exists i :: 0 <= i < |r| - 1 && i % 2 == 0 && r[i] == key && r[i + 1] == m[key]
    {
      var k :| 0 <= k < |order| && order[k] == key;
      Halves(k);
      InterleavedAt(m, order, 2 * k);
    }
  }

  // -------------------------------------------------------------- Process

  /** Every registered `*DynamicFunc` has a filler per parameter. */
  ghost predicate FillsMatch(funcs: map<string, FuncEntry>) {
    forall name :: name in funcs && funcs[name].Dynamic? ==> |funcs[name].df.fills| == |funcs[name].df.funk.params|
  }

  function BothSetMessage(h: HandlerConfig): string {
    "Invalid configuration, please use either struct or func. Current values are struct '"
    + h.structName + "' and func '" + h.funcName + "'"
  }

  const NeitherSetMessage := "Invalid configuration, please set at least struct or func."

  /** One handler against the global scope, whose only registry that
      changes is `objects`: a struct entry goes to `New` (a failure is only
      logged), a func entry to `Call` (its error is ignored). */
  function HandlerStep(types: map<string, StructType>, funcs: map<string, FuncEntry>,
                       objects: map<string, Option<Object>>, h: HandlerConfig): Outcome<map<string, Option<Object>>>
    requires FillsMatch(funcs)
  {
    if h.structName != "" && h.funcName != "" then Panic(BothSetMessage(h))
    else if h.structName == "" && h.funcName == "" then Panic(NeitherSetMessage)
    else if h.structName != "" then
      var a := AllocateSpec(Env(types, [objects]), h.structName, h.args);
      if a.Panic? then Panic(a.message)
      else if a.value.err == None && h.name != "" then Normal(objects[h.name := a.value.obj])
      else Normal(objects)
    else if h.funcName !in funcs || funcs[h.funcName].RawFunc? then Normal(objects)
    else
      var c := DynamicFuncs.CallSpec(funcs[h.funcName].df, h.args.entries, [objects]);
      if c.Panic? then Panic(c.message)
      else if c.value.Some? then Normal(objects[h.name := c.value])
      else Normal(objects)
  }

  /** The handlers processed in list order, up to the first panic. */
  function Run(types: map<string, StructType>, funcs: map<string, FuncEntry>,
               objects: map<string, Option<Object>>, hs: seq<HandlerConfig>): Outcome<map<string, Option<Object>>>
    requires FillsMatch(funcs)
    decreases |hs|
  {
    if hs == [] then Normal(objects)
    else
      var s := HandlerStep(types, funcs, objects, hs[0]);
      if s.Panic? then Panic(s.message) else Run(types, funcs, s.value, hs[1..])
  }

  /** `Configuration.Process` on the global scope `g` (a root scope). */
  method Process(c: Configuration, g: Scope) returns (r: Outcome<()>)
    requires g.Valid() && g.chain == [g]
    modifies g
    ensures g.Valid() && g.chain == [g] && g.types == old(g.types) && g.funcs == old(g.funcs)
    ensures var s := Run(old(g.types), old(g.funcs), old(g.objects), c.handlers);
            && (r.Panic? <==> s.Panic?)
            && (s.Panic? ==> r == Panic(s.message))
            && (s.Normal? ==> g.objects == s.value)
  {
    ghost var spec := Run(g.types, g.funcs, g.objects, c.handlers);
    var hs := c.handlers;
    var i := 0;
    while i < |hs|
      invariant 0 <= i <= |hs|
      invariant g.Valid() && g.chain == [g] && g.types == old(g.types) && g.funcs == old(g.funcs)
      invariant spec == Run(g.types, g.funcs, g.objects, hs[i..])
    {
      var h := hs[i];
      assert hs[i..][1..] == hs[i + 1..];
      if h.structName != "" && h.funcName != "" {
        return Panic(BothSetMessage(h));
      }
      if h.structName == "" && h.funcName == "" {
        return Panic(NeitherSetMessage);
      }
      assert ObjectsOf(g.chain) == [g.objects];
      if h.structName != "" {
        var a := g.New(h.name, h.structName, h.args);
        if a.Panic? {
          return Panic(a.message);
        }
      } else {
        var env := g.Environment();
        var o := g.Call(h.name, h.funcName, h.args.entries, env.chain);
        if o.Panic? {
          return Panic(o.message);
        }
      }
      i := i + 1;
    }
    return Normal(());
  }

  // ----------------------------------------------------------- properties

  lemma SplitAt<T>(s: seq<T>, j: nat)
    requires j <= |s|
    ensures s == s[..j] + s[j..]
  {
  }

  /** Processing a list is processing its first part and then, unless
      that panicked, the rest. */
  lemma {:induction false} RunAppend(types: map<string, StructType>, funcs: map<string, FuncEntry>,
                                     objects: map<string, Option<Object>>, a: seq<HandlerConfig>, b: seq<HandlerConfig>)
    requires FillsMatch(funcs)
    ensures var first := Run(types, funcs, objects, a);
            Run(types, funcs, objects, a + b) == if first.Panic? then first else Run(types, funcs, first.value, b)
    decreases |a|
  {
    if a == [] {
      assert a + b == b;
    } else {
      assert (a + b)[1..] == a[1..] + b;
      var s := HandlerStep(types, funcs, objects, a[0]);
      if s.Normal? {
        RunAppend(types, funcs, s.value, a[1..], b);
      }
    }
  }

  /** An entry that sets both struct and func, or neither, stops the run
      with its panic once the entries before it went through. */
  lemma RunPanicsAtInvalid(types: map<string, StructType>, funcs: map<string, FuncEntry>,
                           objects: map<string, Option<Object>>, hs: seq<HandlerConfig>, j: nat)
    requires FillsMatch(funcs)
    requires j < |hs| && (hs[j].structName == "") == (hs[j].funcName == "")
    requires Run(types, funcs, objects, hs[..j]).Normal?
    ensures Run(types, funcs, objects, hs) ==
              Panic(if hs[j].structName != "" then BothSetMessage(hs[j]) else NeitherSetMessage)
  {
    SplitAt(hs, j);
    RunAppend(types, funcs, objects, hs[..j], hs[j..]);
    InvalidFirstPanics(types, funcs, Run(types, funcs, objects, hs[..j]).value, hs[j..]);
  }

  lemma InvalidFirstPanics(types: map<string, StructType>, funcs: map<string, FuncEntry>,
                           objects: map<string, Option<Object>>, hs: seq<HandlerConfig>)
    requires FillsMatch(funcs)
    requires |hs| > 0 && (hs[0].structName == "") == (hs[0].funcName == "")
    ensures Run(types, funcs, objects, hs) ==
              Panic(if hs[0].structName != "" then BothSetMessage(hs[0]) else NeitherSetMessage)
  {
  }

  /** A struct entry whose object could not be built is only logged: the
      run goes on with the next entry as if it were not there. */
  lemma FailedNewSkipped(types: map<string, StructType>, funcs: map<string, FuncEntry>,
                         objects: map<string, Option<Object>>, h: HandlerConfig, rest: seq<HandlerConfig>)
    requires FillsMatch(funcs)
    requires h.structName != "" && h.funcName == ""
    requires var a := AllocateSpec(Env(types, [objects]), h.structName, h.args);
             a.Normal? && a.value.err.Some?
    ensures Run(types, funcs, objects, [h] + rest) == Run(types, funcs, objects, rest)
  {
    assert ([h] + rest)[1..] == rest;
  }

  /** A struct entry naming a type the scope does not declare changes
      nothing and does not stop the run. */
  lemma UnknownStructSkipped(types: map<string, StructType>, funcs: map<string, FuncEntry>,
                             objects: map<string, Option<Object>>, h: HandlerConfig, rest: seq<HandlerConfig>)
    requires FillsMatch(funcs)
    requires h.structName != "" && h.funcName == "" && h.structName !in types
    ensures Run(types, funcs, objects, [h] + rest) == Run(types, funcs, objects, rest)
  {
    FailedNewSkipped(types, funcs, objects, h, rest);
  }

  /** A built object is registered under the entry's name; later entries
      see it. */
  lemma BuiltObjectRegistered(types: map<string, StructType>, funcs: map<string, FuncEntry>,
                              objects: map<string, Option<Object>>, h: HandlerConfig, rest: seq<HandlerConfig>)
    requires FillsMatch(funcs)
    requires h.structName != "" && h.funcName == "" && h.name != ""
    requires var a := AllocateSpec(Env(types, [objects]), h.structName, h.args);
             a.Normal? && a.value.err.None?
    ensures var a := AllocateSpec(Env(types, [objects]), h.structName, h.args);
            Run(types, funcs, objects, [h] + rest) == Run(types, funcs, objects[h.name := a.value.obj], rest)
            && a.value.obj.Some? && a.value.obj.value.typeName == types[h.structName].name
  {
    assert ([h] + rest)[1..] == rest;
  }
}
