/** The reflection-driven half of `di.Scope`: `assignValue` and the
    per-kind assignments it dispatches to, over the scope's types and
    object chain as an `Env` value (nothing changes the scope while an
    assignment runs), with each method proved equal to the assignment
    spec. */
module Engine {
  import opened GoRuntime
  import opened MachineInts
  import opened Errors
  import opened Values
  import opened Types
  import opened Assignment
  import opened Aux
  import GoStrings
  import Helper
  import HelperSigned
  import HelperUnsigned

  /** A loop step's outcome and the errors recorded so far, as the folds
      of the assignment spec pair them. */
  function Step<T>(r: Outcome<T>, errs: seq<Error>): Outcome<(T, seq<Error>)> {
    if r.Panic? then Panic(r.message) else Normal((r.value, errs))
  }

  /** A method's outcome and the errors its `*MultiError` recorded, as the
      assignment spec pairs them. */
  function Pack(r: Outcome<GoValue>, errs: seq<Error>): Outcome<Assigned> {
    if r.Panic? then Panic(r.message) else Normal(Assigned(r.value, errs))
  }

  /** The tag processing of one field: the binding key and whether the
      tag marks it mandatory. */
  method ParseTag(f: Field) returns (name: string, mandatory: bool)
    ensures name == BindingName(f)
    ensures mandatory <==> Mandatory(f)
  {
    name := f.name;
    mandatory := false;
    if f.tag.Some? {
      var tags := GoStrings.Split(f.tag.value, ',');
      if |tags| > 0 {
        name := GoStrings.Trim(tags[0], ' ');
      }
      for j := 1 to |tags|
        invariant mandatory <==> exists k :: 1 <= k < j && tags[k] == "mandatory"
      {
        if tags[j] == "mandatory" {
          mandatory := true;
        }
      }
    }
  }

  /** The `InitFunc` retry loop of a terminating run: `InitFunc` fails
      while failures remain and finally either succeeds or fails with
      `Retry` answering false. Returns the number of `InitFunc` calls. */
  method RunInit(script: InitScript) returns (calls: nat)
    ensures calls == script.failures + 1
  {
    calls := 0;
    var left: nat := script.failures;
    var retry := true;
    while retry
      invariant left <= script.failures
      invariant retry ==> calls == script.failures - left
      invariant !retry ==> calls == script.failures + 1
      decreases left + (if retry then 1 else 0)
    {
      calls := calls + 1;
      var failed := left > 0 || !script.recovers;
      if failed {
        // the error is only logged; Retry answers true while failures remain
        retry := left > 0;
        if retry {
          left := left - 1;
        }
      } else {
        break;
      }
    }
  }

  /** `Allocate`: a new struct of a declared type assigned from `m`; the
      object only when the assignment recorded no error. */
  method Allocate(env: Env, typeName: string, m: Value) returns (r: Outcome<Allocation>)
    requires m.Dict?
    ensures r == AllocateSpec(env, typeName, m)
    decreases Scalarity(m), m, 1, BoolK, 0, 0
  {
    if typeName in env.types {
      var st := env.types[typeName];
      ZeroHasKind(StructK(st));
      var a := AssignValue(env, CanSet, StructK(st), Zero(StructK(st)), m);
      if a.Panic? {
        return Panic(a.message);
      }
      if a.value.err == None {
        return Normal(Allocation(Some(Object(st.name, st.implements, a.value.value)), None));
      }
      return Normal(Allocation(None, a.value.err));
    }
    return Normal(Allocation(None, Some(Plain("Could not find type " + typeName))));
  }

  /** `assignValue(dest, src)`: the destination's new value and the
      returned error, as the assignment spec defines them. */
  method AssignValue(env: Env, access: Access, kind: Kind, cur: GoValue, src: Value) returns (r: Outcome<Assignment>)
    requires HasKind(cur, kind)
    ensures r == AssignResult(env, access, kind, cur, src)
    decreases Scalarity(src), src, 0, kind, FoldBound(kind), 4
  {
    if access != CanSet {
      if access == NotAddressable {
        return Normal(Assignment(cur, Some(Unaddressable)));
      }
      return Normal(Assignment(cur, Some(Unexported)));
    }
    var me := new MultiError();
    var v := AssignKind(env, kind, cur, src, me);
    if v.Panic? {
      return Panic(v.message);
    }
    return Normal(Assignment(v.value, me.ErrorOrNil()));
  }

  /** The switch on the destination's kind. */
  method AssignKind(env: Env, kind: Kind, cur: GoValue, src: Value, me: MultiError) returns (v: Outcome<GoValue>)
    requires HasKind(cur, kind) && me.errors == []
    modifies me
    ensures Pack(v, me.errors) == AssignSpec(env, kind, cur, src)
    decreases Scalarity(src), src, 0, kind, FoldBound(kind), 3
  {
    match kind {
      case BoolK =>
        v := AssignScalar(env, kind, cur, src, me);
      case StringK =>
        v := AssignScalar(env, kind, cur, src, me);
      case IntK(_) =>
        v := AssignScalar(env, kind, cur, src, me);
      case SliceK(e) =>
        v := AssignSlice(env, e, src, me);
      case MapK(kk, vk) =>
        v := AssignMap(env, kk, vk, src, me);
      case StructK(st) =>
        v := AssignStruct(env, st, cur, src, me);
      case PtrK(e) =>
        if e.StructK? {
          v := AssignStructPtr(env, e.st, cur, src, me);
        } else {
          v := AssignBox(env, e, cur, src, me);
        }
      case InterfaceK(AnyIface) =>
        if src.Nil? {
          v := Panic("reflect: call of reflect.Value.Set on zero Value");
        } else {
          v := Normal(AnyV(src));
        }
      case InterfaceK(Named(n)) =>
        v := AssignIface(env, n, cur, src, me);
      case OtherK(_) =>
        // unsupported kind: only logged
        v := Normal(cur);
    }
  }

  /** The bool, string and integer cases. */
  method AssignScalar(env: Env, kind: Kind, cur: GoValue, src: Value, me: MultiError) returns (r: Outcome<GoValue>)
    requires (kind.BoolK? || kind.StringK? || kind.IntK?) && HasKind(cur, kind) && me.errors == []
    modifies me
    ensures Pack(r, me.errors) == ScalarSpec(kind, cur, src)
  {
    match kind {
      case BoolK =>
        var (b, err) := Helper.GetBool(src);
        if err == None {
          return Normal(BoolV(b));
        }
        var _ := me.Append(err);
        assert me.errors == [err.value];
      case StringK =>
        var (str, err) := Helper.GetString(src);
        if err == None {
          return Normal(StringV(str));
        }
        var _ := me.Append(err);
        assert me.errors == [err.value];
      case IntK(t) =>
        var (i, err) := if t.Signed() then HelperSigned.GetInt64(src) else HelperUnsigned.GetUint64(src);
        if err == None {
          // SetInt / SetUint store the 64-bit value into the field's width
          return Normal(IntV(t, Convert(i, t)));
        }
        var _ := me.Append(err);
        assert me.errors == [err.value];
    }
    return Normal(cur);
  }

  /** The slice case: each source element goes into a fresh zero element;
      the ones that converted without error are kept in order. */
  method AssignSlice(env: Env, e: Kind, src: Value, me: MultiError) returns (r: Outcome<GoValue>)
    requires me.errors == []
    modifies me
    ensures Pack(r, me.errors) == SliceSpec(env, e, src)
    decreases Scalarity(src), src, 0, SliceK(e), 0, 0
  {
    if src.Nil? {
      return Panic(ZeroValueType);
    }
    if !src.List? {
      return Panic("Not yet implemented");
    }
    var slice: seq<GoValue> := [];
    ZeroHasKind(e);
    for i := 0 to |src.items|
      invariant SliceFold(env, e, src, i) == Normal((slice, me.errors))
    {
      var a := AssignValue(env, CanSet, e, Zero(e), src.items[i]);
      if a.Panic? {
        SliceFoldPanics(env, e, src, i + 1, |src.items|);
        return Panic(a.message);
      }
      if a.value.err == None {
        slice := slice + [a.value.value];
      } else {
        me.Merge(a.value.err);
      }
    }
    return Normal(SliceV(slice));
  }

  /** The map case: each key of the source, in visiting order, is
      converted to the key type and its value to the value type; the
      entry is stored when both converted without error. */
  method AssignMap(env: Env, kk: Kind, vk: Kind, src: Value, me: MultiError) returns (r: Outcome<GoValue>)
    requires me.errors == []
    modifies me
    ensures Pack(r, me.errors) == MapSpec(env, kk, vk, src)
    decreases Scalarity(src), src, 0, MapK(kk, vk), 0, 2
  {
    if src.Nil? {
      return Panic(ZeroValueType);
    }
    if !src.Dict? {
      return Panic("Not yet implemented");
    }
    var dict := MapLoop(env, kk, vk, src, me);
    if dict.Panic? {
      return Panic(dict.message);
    }
    return Normal(MapV(dict.value));
  }

  /** The loop of the map case over the keys in visiting order. */
  method MapLoop(env: Env, kk: Kind, vk: Kind, src: Value, me: MultiError) returns (r: Outcome<map<GoValue, GoValue>>)
    requires src.Dict? && me.errors == []
    modifies me
    ensures Step(r, me.errors) == MapFold(env, kk, vk, src, |src.order|)
    decreases Scalarity(src), src, 0, vk, |src.order| + 1, 0
  {
    var dict: map<GoValue, GoValue> := map[];
    for i := 0 to |src.order|
      invariant MapFold(env, kk, vk, src, i) == Normal((dict, me.errors))
    {
      var step := AssignEntry(env, kk, vk, src, i, dict, me);
      if step.Panic? {
        MapFoldPanics(env, kk, vk, src, i + 1, |src.order|);
        return Panic(step.message);
      }
      dict := step.value;
    }
    return Normal(dict);
  }

  /** One step of the map loop: the entry of the i-th visited key. */
  method AssignEntry(env: Env, kk: Kind, vk: Kind, src: Value, i: nat, dict: map<GoValue, GoValue>, me: MultiError)
    returns (r: Outcome<map<GoValue, GoValue>>)
    requires src.Dict? && i < |src.order|
    requires EntriesHaveKinds(dict, kk, vk)
    modifies me
    ensures Step(r, me.errors) == EntryStep(env, kk, vk, src, i, (dict, old(me.errors)))
    decreases Scalarity(src), src, 0, vk, i, 1
  {
    var key := src.order[i];
    // the visiting order of a well-formed map lists only its keys
    if key !in src.entries {
      return Normal(dict);
    }
    ZeroHasKind(kk);
    var k := AssignValue(env, CanSet, kk, Zero(kk), Str(key));
    if k.Panic? {
      return Panic(k.message);
    }
    if k.value.err != None {
      me.Merge(k.value.err);
      return Normal(dict);
    }
    r := AssignEntryValue(env, kk, vk, src, i, dict, me, k.value.value);
  }

  /** The value half of a map step, once the key converted to `nk`. */
  method AssignEntryValue(env: Env, kk: Kind, vk: Kind, src: Value, i: nat, dict: map<GoValue, GoValue>, me: MultiError, nk: GoValue)
    returns (r: Outcome<map<GoValue, GoValue>>)
    requires src.Dict? && i < |src.order| && src.order[i] in src.entries
    requires HasKind(nk, kk)
    requires EntriesHaveKinds(dict, kk, vk)
    modifies me
    ensures Step(r, me.errors) == ValueStep(env, kk, vk, src, i, nk, (dict, old(me.errors)))
    decreases Scalarity(src), src, 0, vk, i, 0
  {
    ZeroHasKind(vk);
    var w := AssignValue(env, CanSet, vk, Zero(vk), src.entries[src.order[i]]);
    if w.Panic? {
      return Panic(w.message);
    }
    if w.value.err != None {
      me.Merge(w.value.err);
      return Normal(dict);
    }
    return Normal(dict[nk := w.value.value]);
  }

  /** The struct case: every settable field whose binding key the source
      has is assigned in place; then `Allocated` runs once and `InitFunc`
      is retried for as long as it fails and `Retry` answers true. */
  method AssignStruct(env: Env, st: StructType, cur: GoValue, src: Value, me: MultiError) returns (r: Outcome<GoValue>)
    requires HasKind(cur, StructK(st)) && me.errors == []
    modifies me
    ensures Pack(r, me.errors) == StructSpec(env, st, cur, src)
    decreases Scalarity(src), src, 0, StructK(st), |st.fields| + 1, 1
  {
    if src.Nil? {
      return Panic(NilDereference);
    }
    if !src.Dict? {
      // only logged
      return Normal(cur);
    }
    var vals := cur.fields;
    for i := 0 to |st.fields|
      invariant StructFold(env, st, cur.fields, src, i) == Normal((vals, me.errors))
    {
      var step := AssignField(env, st, cur.fields, src, i, vals, me);
      if step.Panic? {
        StructFoldPanics(env, st, cur.fields, src, i + 1, |st.fields|);
        return Panic(step.message);
      }
      vals := step.value;
    }
    var allocatedCalls := cur.allocatedCalls;
    if st.hooks.onAllocated {
      allocatedCalls := allocatedCalls + 1;
    }
    var initCalls := cur.initCalls;
    if st.hooks.init.Some? {
      var calls := RunInit(st.hooks.init.value);
      initCalls := initCalls + calls;
    }
    return Normal(StructV(vals, allocatedCalls, initCalls));
  }

  /** One step of the field loop: the i-th field. */
  method AssignField(env: Env, st: StructType, fields: seq<GoValue>, src: Value, i: nat, vals: seq<GoValue>, me: MultiError)
    returns (r: Outcome<seq<GoValue>>)
    requires src.Dict? && i < |st.fields| && |fields| == |st.fields|
    requires forall k :: 0 <= k < |st.fields| ==> HasKind(fields[k], st.fields[k].kind)
    requires StructFold(env, st, fields, src, i) == Normal((vals, me.errors))
    modifies me
    ensures r.Panic? ==> StructFold(env, st, fields, src, i + 1) == Panic(r.message)
    ensures r.Normal? ==> StructFold(env, st, fields, src, i + 1) == Normal((r.value, me.errors))
    decreases Scalarity(src), src, 0, StructK(st), |st.fields| + 1, 0
  {
    var f := st.fields[i];
    if !f.settable {
      return Normal(vals);
    }
    var name, mandatory := ParseTag(f);
    if name !in src.entries {
      // a missing mandatory value is only logged
      return Normal(vals);
    }
    var a := AssignValue(env, CanSet, f.kind, vals[i], src.entries[name]);
    if a.Panic? {
      return Panic(a.message);
    }
    me.Merge(a.value.err);
    return Normal(vals[i := a.value.value]);
  }

  /** A pointer to a struct is built from a map, or else looked up by
      name and accepted only when the object has the pointer's type. */
  method AssignStructPtr(env: Env, st: StructType, cur: GoValue, src: Value, me: MultiError) returns (r: Outcome<GoValue>)
    requires HasKind(cur, PtrK(StructK(st))) && me.errors == []
    modifies me
    ensures Pack(r, me.errors) == StructPtrSpec(env, st, cur, src)
    decreases Scalarity(src), src, 0, PtrK(StructK(st)), 0, 0
  {
    if src.Nil? {
      return Panic(NilDereference);
    }
    if src.Dict? {
      ZeroHasKind(StructK(st));
      var a := AssignValue(env, CanSet, StructK(st), Zero(StructK(st)), src);
      if a.Panic? {
        return Panic(a.message);
      }
      if a.value.err == None {
        return Normal(RefV(Some(Object(st.name, st.implements, a.value.value))));
      }
      me.Merge(a.value.err);
      assert me.errors == Merged(a.value.err);
      return Normal(cur);
    }
    var (str, err) := Helper.GetString(src);
    if err == None {
      var val := Lookup(env.chain, str);
      if val.Some? && val.value.typeName == st.name {
        return Normal(RefV(val));
      }
      // a missing object or one of another type is only logged
    } else {
      var _ := me.Append(err);
      assert me.errors == [err.value];
    }
    return Normal(cur);
  }

  /** Any other pointer points to a fresh element assigned from the
      source, unless that assignment recorded errors. */
  method AssignBox(env: Env, e: Kind, cur: GoValue, src: Value, me: MultiError) returns (r: Outcome<GoValue>)
    requires !e.StructK? && HasKind(cur, PtrK(e)) && me.errors == []
    modifies me
    ensures Pack(r, me.errors) == BoxSpec(env, e, cur, src)
    decreases Scalarity(src), src, 0, PtrK(e), 0, 0
  {
    ZeroHasKind(e);
    var a := AssignValue(env, CanSet, e, Zero(e), src);
    if a.Panic? {
      return Panic(a.message);
    }
    if a.value.err == None {
      return Normal(BoxV(Some(a.value.value)));
    }
    me.Merge(a.value.err);
    assert me.errors == Merged(a.value.err);
    return Normal(cur);
  }

  /** A named interface takes an object built from a
      `{"struct": name, "args": map}` definition, or looked up by name,
      when that object implements it. */
  method AssignIface(env: Env, n: string, cur: GoValue, src: Value, me: MultiError) returns (r: Outcome<GoValue>)
    requires HasKind(cur, InterfaceK(Named(n))) && me.errors == []
    modifies me
    ensures Pack(r, me.errors) == IfaceSpec(env, n, cur, src)
    decreases Scalarity(src), src, 0, InterfaceK(Named(n)), 0, 0
  {
    if src.Dict? {
      var m := src.entries;
      if "struct" in m {
        if m["struct"].Str? {
          if "args" in m {
            if m["args"].Dict? {
              var a := Allocate(env, m["struct"].s, m["args"]);
              if a.Panic? {
                return Panic(a.message);
              }
              if a.value.err == None {
                if a.value.obj.Some? && n in a.value.obj.value.implements {
                  return Normal(IfaceV(a.value.obj));
                }
                // an object that does not implement the interface is only logged
              } else {
                var _ := me.Append(a.value.err);
                assert me.errors == [a.value.err.value];
              }
            } else {
              var _ := me.AppendString("args is not of type map[string]interface{}");
              assert me.errors == [Plain("args is not of type map[string]interface{}")];
            }
          } else {
            var _ := me.AppendString("missing args in object definition");
            assert me.errors == [Plain("missing args in object definition")];
          }
        } else {
          var _ := me.AppendString("args is not of type string");
          assert me.errors == [Plain("args is not of type string")];
        }
      } else {
        var _ := me.AppendString("missing struct in object definition");
        assert me.errors == [Plain("missing struct in object definition")];
      }
      return Normal(cur);
    }
    var (str, err) := Helper.GetString(src);
    if err == None {
      var val := Lookup(env.chain, str);
      if val.Some? && n in val.value.implements {
        return Normal(IfaceV(val));
      }
      // a missing object or one that does not implement the interface is only logged
    } else {
      var _ := me.Append(err);
      assert me.errors == [err.value];
    }
    return Normal(cur);
  }
}
