/** `di.Scope`: a registry of struct types, named objects and functions,
    with a parent link that `Get` follows, and the reflection-driven
    assignment that builds objects from untyped configuration values. */
module Scopes {
  import opened GoRuntime
  import opened MachineInts
  import opened Errors
  import opened Values
  import opened Types
  import opened Assignment
  import opened Aux
  import GoStrings
  import Helper
  import HelperSigned
  import HelperUnsigned
  import DynamicFuncs
  import Engine

  /** A value of the `funcs` registry: a plain Go function, or a
      `*DynamicFunc` that `Call` can invoke with named arguments. */
  datatype FuncEntry = RawFunc(sig: string) | Dynamic(df: DynamicFuncs.DynamicFunc)

  /** The dynamic type of the value given to `Declare`: nil, a function
      with its signature text, or a value of some kind. */
  datatype Sample = NilSample | FuncSample(sig: string) | KindSample(k: Kind)

  /** The object maps of a chain of scopes, in order. */
  function ObjectsOf(cs: seq<Scope>): (r: seq<map<string, Option<Object>>>)
    reads cs
    ensures |r| == |cs|
    ensures forall i :: 0 <= i < |cs| ==> r[i] == cs[i].objects
  {
    if cs == [] then [] else [cs[0].objects] + ObjectsOf(cs[1..])
  }

  /** Extending a chain by one scope extends its object maps by one. */
  lemma {:induction false} ObjectsOfSnoc(cs: seq<Scope>, c: Scope)
    ensures ObjectsOf(cs + [c]) == ObjectsOf(cs) + [c.objects]
    decreases |cs|
  {
    if cs != [] {
      assert (cs + [c])[1..] == cs[1..] + [c];
      ObjectsOfSnoc(cs[1..], c);
    }
  }

  /** The type a chain of pointer types points to in the end. */
  function Deref(k: Kind): (r: Kind)
    ensures !r.PtrK?
    ensures k.PtrK? ==> r == Deref(k.elem)
  {
    if k.PtrK? then Deref(k.elem) else k
  }

  /** `reflect.Type.Name()`: the name of a defined or predeclared type,
      "" for the unnamed ones. */
  function TypeName(k: Kind): string {
    match k
    case BoolK => "bool"
    case StringK => "string"
    case IntK(t) => IntName(t)
    case StructK(st) => st.name
    case InterfaceK(Named(n)) => n
    case OtherK(n) => n
    case _ => ""
  }

  function IntName(t: IntType): string {
    match t
    case GoInt => "int"
    case GoInt8 => "int8"
    case GoInt16 => "int16"
    case GoInt32 => "int32"
    case GoInt64 => "int64"
    case GoUint => "uint"
    case GoUint8 => "uint8"
    case GoUint16 => "uint16"
    case GoUint32 => "uint32"
    case GoUint64 => "uint64"
  }

  /** `os.Stdout`, a `*os.File`. */
  const Stdout := Object("os.File", {"io.Writer"}, OtherV)

  /** `log.New(out io.Writer, prefix string, flag int) *log.Logger`. */
  const LogNew := DynamicFuncs.GoFunc([DynamicFuncs.PInterface(Named("io.Writer")), DynamicFuncs.PString, DynamicFuncs.PInt], 1,
                                      (args: seq<DynamicFuncs.Arg>) => Some(Object("log.Logger", {}, OtherV)))

  class Scope {
    var parent: Scope?
    var types: map<string, StructType>
    var objects: map<string, Option<Object>>
    var funcs: map<string, FuncEntry>
    /** The receiver followed by its ancestors, as `parent` links them. */
    ghost var chain: seq<Scope>

    /** `chain` lists the scopes `parent` links, ending at the root. */
    ghost predicate Linked()
      reads this, chain
    {
      |chain| > 0 && chain[0] == this && chain[|chain| - 1].parent == null
      && forall i :: 0 <= i < |chain| - 1 ==> chain[i].parent == chain[i + 1]
    }

    /** Linked, and every registered `*DynamicFunc` has a filler per
        parameter, as `NewDynamicFunc` builds it. */
    ghost predicate Valid()
      reads this, chain
    {
      Linked()
      && forall name :: name in funcs && funcs[name].Dynamic? ==>
           |funcs[name].df.fills| == |funcs[name].df.funk.params|
    }

    /** What assignment reads of this scope. */
    ghost function Snapshot(): Env
      reads this, chain
    {
      Env(types, ObjectsOf(chain))
    }

    /** `NewScope`: no parent and empty registries. */
    constructor NewScope()
      ensures Valid() && parent == null && chain == [this]
      ensures types == map[] && objects == map[] && funcs == map[]
    {
      parent := null;
      types := map[];
      objects := map[];
      funcs := map[];
      chain := [this];
    }

    // ------------------------------------------------------- the registry

    /** The types and the object maps of the chain, as assignment reads
        them. */
    method Environment() returns (env: Env)
      requires Linked()
      ensures env == Snapshot()
    {
      var maps: seq<map<string, Option<Object>>> := [];
      var current := this;
      var i := 0;
      while current != null
        invariant 0 <= i <= |chain|
        invariant i < |chain| ==> current == chain[i]
        invariant i == |chain| <==> current == null
        invariant maps == ObjectsOf(chain[..i])
        decreases |chain| - i
      {
        ObjectsOfSnoc(chain[..i], current);
        assert chain[..i + 1] == chain[..i] + [current];
        maps := maps + [current.objects];
        current := current.parent;
        i := i + 1;
      }
      assert chain[..i] == chain;
      env := Env(types, maps);
    }

    /** `Get`: walks up the parent chain until a non-nil object is found. */
    method Get(name: string) returns (result: Option<Object>)
      requires Linked()
      ensures result == Lookup(ObjectsOf(chain), name)
    {
      var current: Scope? := this;
      var i := 0;
      result := None;
      ghost var all := ObjectsOf(chain);
      while result == None && current != null
        invariant 0 <= i <= |chain|
        invariant current == (if i < |chain| then chain[i] else null)
        invariant Lookup(all, name) == if result.Some? then result else Lookup(all[i..], name)
        decreases |chain| - i
      {
        assert all[i..][1..] == all[i + 1..];
        result := if name in current.objects then current.objects[name] else None;
        current := current.parent;
        i := i + 1;
      }
      assert result == None ==> i == |chain| && all[i..] == [];
    }

    /** `Set`: registers an object (possibly nil) in this scope. */
    method Set(name: string, obj: Option<Object>)
      requires Valid()
      modifies this
      ensures Valid()
      ensures objects == old(objects)[name := obj]
      ensures types == old(types) && funcs == old(funcs) && parent == old(parent) && chain == old(chain)
    {
      objects := objects[name := obj];
    }

    /** `Declare`: a pointer registers the struct type it finally points
        to under its name and panics when that is not a struct; a function
        is registered under its signature; anything else is ignored; nil
        panics. The value is handed back. */
    method Declare(sample: Sample) returns (r: Outcome<Sample>)
      requires Valid()
      modifies this
      ensures Valid()
      ensures objects == old(objects) && parent == old(parent) && chain == old(chain)
      ensures sample.NilSample? ==> r.Panic?
      ensures sample.FuncSample? ==>
                r == Normal(sample) && funcs == old(funcs)[sample.sig := RawFunc(sample.sig)] && types == old(types)
      ensures sample.KindSample? && sample.k.PtrK? && Deref(sample.k).StructK? ==>
                r == Normal(sample) && types == old(types)[Deref(sample.k).st.name := Deref(sample.k).st]
                && funcs == old(funcs)
      ensures sample.KindSample? && sample.k.PtrK? && !Deref(sample.k).StructK? ==>
                r == Panic("Expected a struct but received " + TypeName(Deref(sample.k)))
      ensures sample.KindSample? && !sample.k.PtrK? ==>
                r == Normal(sample) && types == old(types) && funcs == old(funcs)
    {
      match sample {
        case NilSample =>
          return Panic(NilDereference);
        case FuncSample(sig) =>
          funcs := funcs[sig := RawFunc(sig)];
        case KindSample(k) =>
          if k.PtrK? {
            var t := k;
            while t.PtrK?
              invariant Deref(t) == Deref(k)
              decreases t
            {
              t := t.elem;
            }
            if !t.StructK? {
              return Panic("Expected a struct but received " + TypeName(t));
            }
            types := types[t.st.name := t.st];
          }
      }
      return Normal(sample);
    }

    /** `TypeOf`: the struct type declared under a name, if any. */
    function TypeOf(name: string): (r: Option<StructType>)
      reads this
      ensures r.Some? <==> name in types
      ensures r.Some? ==> r.value == types[name]
    {
      if name in types then Some(types[name]) else None
    }

    /** `Create`: a pointer to a new zero struct of a declared type, or an
        error naming the type. */
    method Create(typeName: string) returns (result: Option<Object>, err: Option<Error>)
      ensures result.Some? <==> typeName in types
      ensures err.None? <==> typeName in types
      ensures typeName !in types ==> err == Some(Plain("Could not find type " + typeName))
      ensures result.Some? ==>
                var st := types[typeName];
                result.value.typeName == st.name && result.value.implements == st.implements
                && HasKind(result.value.state, StructK(st)) && result.value.state == Zero(StructK(st))
    {
      if typeName in types {
        var st := types[typeName];
        ZeroHasKind(StructK(st));
        result, err := Some(Object(st.name, st.implements, Zero(StructK(st)))), None;
      } else {
        result, err := None, Some(Plain("Could not find type " + typeName));
      }
    }

    /** `Allocate`: a new struct of a declared type assigned from `m`; the
        object only when the assignment recorded no error. */
    method Allocate(typeName: string, m: Value) returns (r: Outcome<Allocation>)
      requires Linked() && m.Dict?
      ensures r == AllocateSpec(Snapshot(), typeName, m)
    {
      var env := Environment();
      r := Engine.Allocate(env, typeName, m);
    }

    /** `New`: `Allocate`, and on success registers the object under a
        non-empty name. */
    method New(name: string, typeName: string, m: Value) returns (r: Outcome<Allocation>)
      requires Valid() && m.Dict?
      modifies this
      ensures Valid()
      ensures r == old(AllocateSpec(Snapshot(), typeName, m))
      ensures types == old(types) && funcs == old(funcs) && parent == old(parent) && chain == old(chain)
      ensures objects == if r.Normal? && r.value.err == None && name != "" then old(objects)[name := r.value.obj]
                         else old(objects)
    {
      r := Allocate(typeName, m);
      if r.Normal? && r.value.err == None && name != "" {
        Set(name, r.value.obj);
      }
    }

    /** `Call`: invokes a registered `*DynamicFunc` with named arguments and
        registers a non-nil result under `objName`; a plain function is
        not called; an unknown name is an error. `global` is the chain of
        `GlobalScope`, where the fillers look up objects. */
    method Call(objName: string, funcName: string, args: map<string, Value>, global: seq<map<string, Option<Object>>>)
      returns (r: Outcome<(Option<Object>, Option<Error>)>)
      requires Valid()
      modifies this
      ensures Valid()
      ensures types == old(types) && funcs == old(funcs) && parent == old(parent) && chain == old(chain)
      ensures funcName !in funcs ==>
                r == Normal((None, Some(Plain("Could not find constructor " + funcName)))) && objects == old(objects)
      ensures funcName in funcs && funcs[funcName].RawFunc? ==> r == Normal((None, None)) && objects == old(objects)
      ensures funcName in funcs && funcs[funcName].Dynamic? ==>
                var c := DynamicFuncs.CallSpec(funcs[funcName].df, args, global);
                (c.Panic? ==> r == Panic(c.message))
                && (c.Normal? ==> r == Normal((c.value, None))
                                  && objects == if c.value.Some? then old(objects)[objName := c.value] else old(objects))
    {
      if funcName in funcs {
        match funcs[funcName]
        case RawFunc(_) =>
          return Normal((None, None));
        case Dynamic(df) =>
          var o := DynamicFuncs.Call(df, args, global);
          if o.Panic? {
            return Panic(o.message);
          }
          if o.value.Some? {
            objects := objects[objName := o.value];
          }
          return Normal((o.value, None));
      }
      return Normal((None, Some(Plain("Could not find constructor " + funcName))));
    }

    /** `RegisterDefaults`: registers `os.Stdout` and `log.New` (bound to the
        names out, prefix and flag). */
    method RegisterDefaults() returns (r: Scope)
      requires Valid()
      modifies this
      ensures Valid() && r == this
      ensures types == old(types) && parent == old(parent) && chain == old(chain)
      ensures objects == old(objects)["os.Stdout" := Some(Stdout)]
      ensures "log.New" in funcs && funcs["log.New"].Dynamic?
      ensures funcs == old(funcs)["log.New" := funcs["log.New"]]
      ensures funcs["log.New"].df.funk == LogNew
      ensures funcs["log.New"].df.fills == [DynamicFuncs.FillObject("out"), DynamicFuncs.FillString("prefix"), DynamicFuncs.FillInt("flag")]
    {
      objects := objects["os.Stdout" := Some(Stdout)];
      var df := DynamicFuncs.NewDynamicFunc(LogNew, ["out", "prefix", "flag"]);
      assert df.Normal?;
      funcs := funcs["log.New" := Dynamic(df.value)];
      return this;
    }

    // ----------------------------------------------------- assignment

    /** `Assign(v, m)`: assigns into the struct a non-nil pointer points
        to and hands back the updated pointer; a nil pointer to a struct
        is unaddressable; anything but a pointer to a struct is refused;
        a nil `v` panics. */
    method Assign(k: Option<Kind>, v: GoValue, m: Value) returns (r: Outcome<Assignment>)
      requires Linked() && m.Dict?
      requires k.Some? ==> HasKind(v, k.value)
      requires k.Some? && k.value.PtrK? && k.value.elem.StructK? && v.obj.Some? ==>
                 HasKind(v.obj.value.state, k.value.elem)
      ensures k.None? ==> r == Panic(NilDereference)
      ensures k.Some? && !(k.value.PtrK? && k.value.elem.StructK?) ==> r == Normal(Assignment(v, Some(NotAStruct)))
      ensures k.Some? && k.value.PtrK? && k.value.elem.StructK? && v.obj.None? ==>
                r == Normal(Assignment(v, Some(Unaddressable)))
      ensures k.Some? && k.value.PtrK? && k.value.elem.StructK? && v.obj.Some? ==>
                var a := AssignResult(Snapshot(), CanSet, k.value.elem, v.obj.value.state, m);
                r == if a.Panic? then Panic(a.message)
                     else Normal(Assignment(RefV(Some(v.obj.value.(state := a.value.value))), a.value.err))
    {
      if k.None? {
        return Panic(NilDereference);
      }
      var t := k.value;
      if !(t.PtrK? && t.elem.StructK?) {
        return Normal(Assignment(v, Some(NotAStruct)));
      }
      if v.obj.None? {
        // reflect.ValueOf(v).Elem() of a nil pointer can neither be set nor addressed
        return Normal(Assignment(v, Some(Unaddressable)));
      }
      var env := Environment();
      var a := Engine.AssignValue(env, CanSet, t.elem, v.obj.value.state, m);
      if a.Panic? {
        return Panic(a.message);
      }
      return Normal(Assignment(RefV(Some(v.obj.value.(state := a.value.value))), a.value.err));
    }
  }
}
