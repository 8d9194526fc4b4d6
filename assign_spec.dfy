/** The assignment engine of `di.Scope.assignValue` as a function: what a
    destination of a given kind holds after assigning an untyped source,
    and which errors the returned `*MultiError` carries. */
module Assignment {
  import opened GoRuntime
  import opened MachineInts
  import opened Errors
  import opened Values
  import opened Types
  import opened Aux
  import GoStrings
  import Helper
  import HelperSigned
  import HelperUnsigned

  /** What assignment reads of a scope: its declared struct types, and the
      chain of object maps `Get` searches (the receiver's first). */
  datatype Env = Env(types: map<string, StructType>, chain: seq<map<string, Option<Object>>>)

  /** The destination's new value and the errors recorded on the way;
      no error is a nil return. */
  datatype Assigned = Assigned(value: GoValue, errs: seq<Error>)

  /** The outcome of `Allocate`: the new object or an error. */
  datatype Allocation = Allocation(obj: Option<Object>, err: Option<Error>)

  // ------------------------------------------------------------ brot tags

  /** The parts of a `brot` tag value, split at commas. */
  function TagParts(f: Field): seq<string>
    requires f.tag.Some?
  {
    GoStrings.Split(f.tag.value, ',')
  }

  /** The key a field binds: the first part of its `brot` tag trimmed of
      spaces, or the field name when it has no such tag. */
  function BindingName(f: Field): string {
    if f.tag.Some? then GoStrings.Trim(TagParts(f)[0], ' ') else f.name
  }

  /** A field is mandatory iff a part after the first is exactly
      "mandatory". */
  predicate Mandatory(f: Field) {
    f.tag.Some? && exists i :: 1 <= i < |TagParts(f)| && TagParts(f)[i] == "mandatory"
  }

  // ---------------------------------------------------------------- hooks

  /** The number of `InitFunc` calls the retry loop makes: every failure
      answered by `Retry() == true` is followed by one more call. */
  function InitCalls(h: Hooks): nat {
    if h.init.Some? then h.init.value.failures + 1 else 0
  }

  function AllocatedCalls(h: Hooks): nat {
    if h.onAllocated then 1 else 0
  }

  // ------------------------------------------------------------ the engine

  /** The panic of `reflect.ValueOf(nil).Type()`. */
  const ZeroValueType := "reflect: call of reflect.Value.Type on zero Value"

  function FoldBound(k: Kind): nat {
    if k.StructK? then |k.st.fields| + 1 else 0
  }

  /** Whether `dest.CanSet()`, and if not, whether it is addressable. */
  datatype Access = CanSet | NotAddressable | NotExported

  /** The destination's new value and `assignValue`'s returned error. */
  datatype Assignment = Assignment(value: GoValue, err: Option<Error>)

  /** `assignValue(dest, src)`: a destination that cannot be set is not
      written and gets a plain error; otherwise the errors recorded while
      assigning come back as one multi-error, or nil when there are none. */
  function AssignResult(env: Env, access: Access, kind: Kind, cur: GoValue, src: Value): (r: Outcome<Assignment>)
    requires HasKind(cur, kind)
    ensures access == NotAddressable ==> r == Normal(Assignment(cur, Some(Unaddressable)))
    ensures access == NotExported ==> r == Normal(Assignment(cur, Some(Unexported)))
    ensures r.Normal? ==> HasKind(r.value.value, kind)
    ensures r.Normal? && r.value.err.Some? && access == CanSet ==>
              r.value.err.value.Multi? && r.value.err.value.errors != []
    decreases Scalarity(src), src, 0, kind, FoldBound(kind), 2
  {
    if access == NotAddressable then Normal(Assignment(cur, Some(Unaddressable)))
    else if access == NotExported then Normal(Assignment(cur, Some(Unexported)))
    else
      var r := AssignSpec(env, kind, cur, src);
      if r.Panic? then Panic(r.message)
      else Normal(Assignment(r.value.value, if r.value.errs == [] then None else Some(Multi(r.value.errs))))
  }

  /** The body of `assignValue` on a settable destination of kind `kind`
      currently holding `cur`: the new value and the recorded errors. The
      switch on the destination's kind. */
  function AssignSpec(env: Env, kind: Kind, cur: GoValue, src: Value): (r: Outcome<Assigned>)
    requires HasKind(cur, kind)
    ensures r.Normal? ==> HasKind(r.value.value, kind)
    decreases Scalarity(src), src, 0, kind, FoldBound(kind), 1
  {
    match kind
    case BoolK => ScalarSpec(kind, cur, src)
    case StringK => ScalarSpec(kind, cur, src)
    case IntK(_) => ScalarSpec(kind, cur, src)
    case SliceK(e) => SliceSpec(env, e, src)
    case MapK(kk, vk) => MapSpec(env, kk, vk, src)
    case StructK(st) => StructSpec(env, st, cur, src)
    case PtrK(e) => if e.StructK? then StructPtrSpec(env, e.st, cur, src) else BoxSpec(env, e, cur, src)
    case InterfaceK(AnyIface) =>
      if src.Nil? then Panic("reflect: call of reflect.Value.Set on zero Value")
      else Normal(Assigned(AnyV(src), []))
    case InterfaceK(Named(n)) => IfaceSpec(env, n, cur, src)
    case OtherK(_) => Normal(Assigned(cur, []))
  }

  /** The bool, string and integer cases: the coercion function's value,
      or the destination unchanged and the coercion's error. Integers are
      stored into the destination's width. */
  function ScalarSpec(kind: Kind, cur: GoValue, src: Value): (r: Outcome<Assigned>)
    requires kind.BoolK? || kind.StringK? || kind.IntK?
    requires HasKind(cur, kind)
    ensures r.Normal? && HasKind(r.value.value, kind)
    ensures |r.value.errs| <= 1 && (r.value.errs != [] ==> r.value.value == cur)
  {
    match kind
    case BoolK =>
      var (b, err) := Helper.GetBool(src);
      if err == None then Normal(Assigned(BoolV(b), [])) else Normal(Assigned(cur, [err.value]))
    case StringK =>
      var (s, err) := Helper.GetString(src);
      if err == None then Normal(Assigned(StringV(s), [])) else Normal(Assigned(cur, [err.value]))
    case IntK(t) =>
      var (i, err) := if t.Signed() then HelperSigned.GetInt64(src) else HelperUnsigned.GetUint64(src);
      if err == None then Normal(Assigned(IntV(t, Convert(i, t)), [])) else Normal(Assigned(cur, [err.value]))
  }

  /** The slice case: only a slice source is supported. */
  function SliceSpec(env: Env, e: Kind, src: Value): (r: Outcome<Assigned>)
    ensures r.Normal? ==> HasKind(r.value.value, SliceK(e))
    decreases Scalarity(src), src, 0, SliceK(e), 0, 0
  {
    if src.List? then
      var r := SliceFold(env, e, src, |src.items|);
      if r.Panic? then Panic(r.message) else Normal(Assigned(SliceV(r.value.0), r.value.1))
    else if src.Nil? then Panic(ZeroValueType)
    else Panic("Not yet implemented")
  }

  /** The map case: only a map source is supported. */
  function MapSpec(env: Env, kk: Kind, vk: Kind, src: Value): (r: Outcome<Assigned>)
    ensures r.Normal? ==> HasKind(r.value.value, MapK(kk, vk))
    decreases Scalarity(src), src, 0, MapK(kk, vk), 0, 0
  {
    if src.Dict? then
      var r := MapFold(env, kk, vk, src, |src.order|);
      if r.Panic? then Panic(r.message) else Normal(Assigned(MapV(r.value.0), r.value.1))
    else if src.Nil? then Panic(ZeroValueType)
    else Panic("Not yet implemented")
  }

  /** The struct case: the field loop, then the hooks. Any source other
      than a map leaves the struct as it is (the mismatch is only logged). */
  function StructSpec(env: Env, st: StructType, cur: GoValue, src: Value): (r: Outcome<Assigned>)
    requires HasKind(cur, StructK(st))
    ensures r.Normal? ==> HasKind(r.value.value, StructK(st))
    decreases Scalarity(src), src, 0, StructK(st), |st.fields| + 1, 0
  {
    if src.Dict? then
      var r := StructFold(env, st, cur.fields, src, |st.fields|);
      if r.Panic? then Panic(r.message)
      else Normal(Assigned(StructV(r.value.0, cur.allocatedCalls + AllocatedCalls(st.hooks),
                                   cur.initCalls + InitCalls(st.hooks)), r.value.1))
    else if src.Nil? then Panic(NilDereference)
    else Normal(Assigned(cur, []))
  }

  /** A pointer to a struct: built from a map (kept only when that
      assignment recorded no error), or else the registered object of
      that name when it has the pointer's type. */
  function StructPtrSpec(env: Env, st: StructType, cur: GoValue, src: Value): (r: Outcome<Assigned>)
    requires HasKind(cur, PtrK(StructK(st)))
    ensures r.Normal? ==> HasKind(r.value.value, PtrK(StructK(st)))
    decreases Scalarity(src), src, 0, PtrK(StructK(st)), 0, 0
  {
    if src.Nil? then Panic(NilDereference)
    else if src.Dict? then
      ZeroHasKind(StructK(st));
      var r := AssignResult(env, CanSet, StructK(st), Zero(StructK(st)), src);
      if r.Panic? then Panic(r.message)
      else if r.value.err == None then Normal(Assigned(RefV(Some(Object(st.name, st.implements, r.value.value))), []))
      else Normal(Assigned(cur, Merged(r.value.err)))
    else
      var (name, err) := Helper.GetString(src);
      if err.Some? then Normal(Assigned(cur, [err.value]))
      else
        var o := Lookup(env.chain, name);
        if o.Some? && o.value.typeName == st.name then Normal(Assigned(RefV(o), []))
        else Normal(Assigned(cur, []))
  }

  /** Any other pointer: a fresh element assigned from the source, kept
      only when that assignment recorded no error. */
  function BoxSpec(env: Env, e: Kind, cur: GoValue, src: Value): (r: Outcome<Assigned>)
    requires !e.StructK? && HasKind(cur, PtrK(e))
    ensures r.Normal? ==> HasKind(r.value.value, PtrK(e))
    decreases Scalarity(src), src, 0, PtrK(e), 0, 0
  {
    ZeroHasKind(e);
    var r := AssignResult(env, CanSet, e, Zero(e), src);
    if r.Panic? then Panic(r.message)
    else if r.value.err == None then Normal(Assigned(BoxV(Some(r.value.value)), []))
    else Normal(Assigned(cur, Merged(r.value.err)))
  }

  /** A named interface: an object built from a `{"struct", "args"}`
      definition, or else the registered object of that name, when it
      implements the interface. */
  function IfaceSpec(env: Env, n: string, cur: GoValue, src: Value): (r: Outcome<Assigned>)
    requires HasKind(cur, InterfaceK(Named(n)))
    ensures r.Normal? ==> HasKind(r.value.value, InterfaceK(Named(n)))
    decreases Scalarity(src), src, 0, InterfaceK(Named(n)), 0, 0
  {
    if src.Dict? then
      var m := src.entries;
      if "struct" !in m then Normal(Assigned(cur, [Plain("missing struct in object definition")]))
      else if !m["struct"].Str? then Normal(Assigned(cur, [Plain("args is not of type string")]))
      else if "args" !in m then Normal(Assigned(cur, [Plain("missing args in object definition")]))
      else if !m["args"].Dict? then Normal(Assigned(cur, [Plain("args is not of type map[string]interface{}")]))
      else
        var a := AllocateSpec(env, m["struct"].s, m["args"]);
        if a.Panic? then Panic(a.message)
        else if a.value.err.Some? then Normal(Assigned(cur, [a.value.err.value]))
        else if a.value.obj.Some? && n in a.value.obj.value.implements then Normal(Assigned(IfaceV(a.value.obj), []))
        else Normal(Assigned(cur, []))
    else
      var (name, err) := Helper.GetString(src);
      if err.Some? then Normal(Assigned(cur, [err.value]))
      else
        var o := Lookup(env.chain, name);
        if o.Some? && n in o.value.implements then Normal(Assigned(IfaceV(o), []))
        else Normal(Assigned(cur, []))
  }

  /** `Scope.Allocate(typeName, args)`: a new zero struct of a type the
      scope declares, assigned from `args`; the object only when no error
      was recorded. */
  function AllocateSpec(env: Env, typeName: string, args: Value): (r: Outcome<Allocation>)
    requires args.Dict?
    ensures r.Normal? ==> (r.value.obj.Some? <==> r.value.err.None?)
    ensures r.Normal? && r.value.obj.Some? ==>
              typeName in env.types && r.value.obj.value.typeName == env.types[typeName].name
              && HasKind(r.value.obj.value.state, StructK(env.types[typeName]))
    ensures r.Normal? && typeName !in env.types ==> r.value.err == Some(Plain("Could not find type " + typeName))
    decreases Scalarity(args), args, 1, BoolK, 0, 0
  {
    if typeName !in env.types then Normal(Allocation(None, Some(Plain("Could not find type " + typeName))))
    else
      var st := env.types[typeName];
      ZeroHasKind(StructK(st));
      var r := AssignResult(env, CanSet, StructK(st), Zero(StructK(st)), args);
      if r.Panic? then Panic(r.message)
      else if r.value.err == None then Normal(Allocation(Some(Object(st.name, st.implements, r.value.value)), None))
      else Normal(Allocation(None, r.value.err))
  }

  /** The slice loop over the first n source elements: the elements whose
      assignment succeeded, and the merged errors of the others. */
  function SliceFold(env: Env, e: Kind, src: Value, n: nat): (r: Outcome<(seq<GoValue>, seq<Error>)>)
    requires src.List? && n <= |src.items|
    ensures r.Normal? ==> forall i :: 0 <= i < |r.value.0| ==> HasKind(r.value.0[i], e)
    decreases Scalarity(src), src, 0, e, n, 0
  {
    if n == 0 then Normal(([], []))
    else
      var prev := SliceFold(env, e, src, n - 1);
      if prev.Panic? then prev
      else
        ZeroHasKind(e);
        var r := AssignResult(env, CanSet, e, Zero(e), src.items[n - 1]);
        if r.Panic? then Panic(r.message)
        else if r.value.err == None then Normal((prev.value.0 + [r.value.value], prev.value.1))
        else Normal((prev.value.0, prev.value.1 + Merged(r.value.err)))
  }

  /** The map loop over the first n keys in visiting order: an entry is
      stored only when both its key and its value converted. */
  function MapFold(env: Env, kk: Kind, vk: Kind, src: Value, n: nat): (r: Outcome<(map<GoValue, GoValue>, seq<Error>)>)
    requires src.Dict? && n <= |src.order|
    ensures r.Normal? ==> EntriesHaveKinds(r.value.0, kk, vk)
    decreases Scalarity(src), src, 0, vk, n, 2
  {
    if n == 0 then Normal((map[], []))
    else
      var prev := MapFold(env, kk, vk, src, n - 1);
      if prev.Panic? then prev else EntryStep(env, kk, vk, src, n - 1, prev.value)
  }

  /** The map loop's step for the i-th visited key: a key the map does not
      hold is passed over; the key string is converted to the key type. */
  function EntryStep(env: Env, kk: Kind, vk: Kind, src: Value, i: nat, prev: (map<GoValue, GoValue>, seq<Error>))
    : (r: Outcome<(map<GoValue, GoValue>, seq<Error>)>)
    requires src.Dict? && i < |src.order|
    requires EntriesHaveKinds(prev.0, kk, vk)
    ensures r.Normal? ==> EntriesHaveKinds(r.value.0, kk, vk)
    decreases Scalarity(src), src, 0, vk, i, 1
  {
    var key := src.order[i];
    if key !in src.entries then Normal(prev)
    else
      ZeroHasKind(kk);
      var rk := AssignResult(env, CanSet, kk, Zero(kk), Str(key));
      if rk.Panic? then Panic(rk.message)
      else if rk.value.err != None then Normal((prev.0, prev.1 + Merged(rk.value.err)))
      else ValueStep(env, kk, vk, src, i, rk.value.value, prev)
  }

  /** The rest of the step once the key converted to `nk`: the entry's
      value is converted to the value type and stored under `nk`. */
  function ValueStep(env: Env, kk: Kind, vk: Kind, src: Value, i: nat, nk: GoValue, prev: (map<GoValue, GoValue>, seq<Error>))
    : (r: Outcome<(map<GoValue, GoValue>, seq<Error>)>)
    requires src.Dict? && i < |src.order| && src.order[i] in src.entries
    requires HasKind(nk, kk)
    requires EntriesHaveKinds(prev.0, kk, vk)
    ensures r.Normal? ==> EntriesHaveKinds(r.value.0, kk, vk)
    decreases Scalarity(src), src, 0, vk, i, 0
  {
    ZeroHasKind(vk);
    var rv := AssignResult(env, CanSet, vk, Zero(vk), src.entries[src.order[i]]);
    if rv.Panic? then Panic(rv.message)
    else if rv.value.err != None then Normal((prev.0, prev.1 + Merged(rv.value.err)))
    else Normal((prev.0[nk := rv.value.value], prev.1))
  }

  /** The field loop over the first n fields: settable fields whose
      binding key is present are assigned in place (even when that
      assignment records errors); all other fields keep their values. */
  function StructFold(env: Env, st: StructType, fields: seq<GoValue>, src: Value, n: nat): (r: Outcome<(seq<GoValue>, seq<Error>)>)
    requires src.Dict? && n <= |st.fields| && |fields| == |st.fields|
    requires forall i :: 0 <= i < |st.fields| ==> HasKind(fields[i], st.fields[i].kind)
    ensures r.Normal? ==> |r.value.0| == |st.fields|
    ensures r.Normal? ==> forall i :: 0 <= i < |st.fields| ==> HasKind(r.value.0[i], st.fields[i].kind)
    ensures r.Normal? ==> forall i :: n <= i < |st.fields| ==> r.value.0[i] == fields[i]
    decreases Scalarity(src), src, 0, StructK(st), n, 0
  {
    if n == 0 then Normal((fields, []))
    else
      var prev := StructFold(env, st, fields, src, n - 1);
      var f := st.fields[n - 1];
      var name := BindingName(f);
      if prev.Panic? || !f.settable || name !in src.entries then prev
      else
        var vals := prev.value.0;
        var r := AssignResult(env, CanSet, f.kind, vals[n - 1], src.entries[name]);
        if r.Panic? then Panic(r.message)
        else Normal((vals[n - 1 := r.value.value], prev.value.1 + Merged(r.value.err)))
  }

  /** A panic in one step of a loop ends the loop: every longer prefix
      panics the same way. */
  lemma {:induction false} SliceFoldPanics(env: Env, e: Kind, src: Value, i: nat, n: nat)
    requires src.List? && i <= n <= |src.items| && SliceFold(env, e, src, i).Panic?
    ensures SliceFold(env, e, src, n) == SliceFold(env, e, src, i)
    decreases n
  {
    if n > i {
      SliceFoldPanics(env, e, src, i, n - 1);
    }
  }

  lemma {:induction false} MapFoldPanics(env: Env, kk: Kind, vk: Kind, src: Value, i: nat, n: nat)
    requires src.Dict? && i <= n <= |src.order| && MapFold(env, kk, vk, src, i).Panic?
    ensures MapFold(env, kk, vk, src, n) == MapFold(env, kk, vk, src, i)
    decreases n
  {
    if n > i {
      MapFoldPanics(env, kk, vk, src, i, n - 1);
    }
  }

  lemma {:induction false} StructFoldPanics(env: Env, st: StructType, fields: seq<GoValue>, src: Value, i: nat, n: nat)
    requires src.Dict? && i <= n <= |st.fields| && |fields| == |st.fields|
    requires forall k :: 0 <= k < |st.fields| ==> HasKind(fields[k], st.fields[k].kind)
    requires StructFold(env, st, fields, src, i).Panic?
    ensures StructFold(env, st, fields, src, n) == StructFold(env, st, fields, src, i)
    decreases n
  {
    if n > i {
      StructFoldPanics(env, st, fields, src, i, n - 1);
    }
  }
}
