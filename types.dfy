/** What the engine sees of Go's types and typed values through `reflect`:
    a destination kind, struct field tables with their `brot` tags, the two
    hook interfaces a struct may implement, typed values, and the objects
    (pointers to structs) a scope registers. */
module Types {
  import opened GoRuntime
  import opened MachineInts
  import opened Values

  /** An interface type: `interface{}` or a named interface with methods. */
  datatype Iface = AnyIface | Named(name: string)

  datatype Kind =
    | BoolK
    | StringK
    | IntK(t: IntType)
    | SliceK(elem: Kind)
    | MapK(key: Kind, val: Kind)
    | StructK(st: StructType)
    | PtrK(elem: Kind)
    | InterfaceK(iface: Iface)
      /** Chan, func, array, complex and the other kinds `assignValue`
          does not handle. */
    | OtherK(name: string)

  /** One struct field: its Go name, the value of its `brot` tag key when
      the tag has one, whether reflection may set it (exported), its kind. */
  datatype Field = Field(name: string, tag: Option<string>, settable: bool, kind: Kind)

  /** A terminating run of the `InitFunc`/`Retry` protocol: `InitFunc`
      fails `failures` times with `Retry` answering true each time; the
      next call either succeeds (`recovers`) or fails with `Retry`
      answering false. */
  datatype InitScript = InitScript(failures: nat, recovers: bool)

  /** Whether the pointer type implements `di.Constructor` (`Allocated`)
      and `di.ProvidesInit` (`InitFunc`/`Retry`). */
  datatype Hooks = Hooks(onAllocated: bool, init: Option<InitScript>)

  /** A struct type: the name `reflect.Type.String()` gives it, its
      fields in declaration order, the interfaces its pointer type
      implements, and its hooks. */
  datatype StructType = StructType(name: string, fields: seq<Field>, implements: set<string>, hooks: Hooks)

  /** A non-nil pointer to a struct, as the registry holds it. */
  datatype Object = Object(typeName: string, implements: set<string>, state: GoValue)

  /** A typed Go value. `allocatedCalls` and `initCalls` count the calls of the
      hooks on a struct. */
  datatype GoValue =
    | BoolV(b: bool)
    | StringV(s: string)
    | IntV(t: IntType, i: int)
    | SliceV(items: seq<GoValue>)
    | MapV(entries: map<GoValue, GoValue>)
    | StructV(fields: seq<GoValue>, allocatedCalls: nat, initCalls: nat)
      /** `*T` for a struct type T. */
    | RefV(obj: Option<Object>)
      /** `*T` for any other T. */
    | BoxV(target: Option<GoValue>)
      /** `interface{}`; `AnyV(Nil)` is the nil interface. */
    | AnyV(held: Value)
      /** A non-empty interface holding an object, or nil. */
    | IfaceV(dynamic: Option<Object>)
    | OtherV

  /** The zero value of a kind (`reflect.New(t).Elem()`). A nil slice or
      map is modelled as the empty one. */
  function Zero(k: Kind): (v: GoValue)
    decreases k
  {
    match k
    case BoolK => BoolV(false)
    case StringK => StringV("")
    case IntK(t) => IntV(t, 0)
    case SliceK(_) => SliceV([])
    case MapK(_, _) => MapV(map[])
    case StructK(st) => StructV(seq(|st.fields|, i requires 0 <= i < |st.fields| => Zero(st.fields[i].kind)), 0, 0)
    case PtrK(e) => if e.StructK? then RefV(None) else BoxV(None)
    case InterfaceK(AnyIface) => AnyV(Nil)
    case InterfaceK(Named(_)) => IfaceV(None)
    case OtherK(_) => OtherV
  }

  /** v is a value of kind k. */
  ghost predicate HasKind(v: GoValue, k: Kind)
    decreases k, 1
  {
    match k
    case BoolK => v.BoolV?
    case StringK => v.StringV?
    case IntK(t) => v.IntV? && v.t == t && InRange(v.i, t)
    case SliceK(e) => v.SliceV? && forall i :: 0 <= i < |v.items| ==> HasKind(v.items[i], e)
    case MapK(kk, vk) =>
      v.MapV? && EntriesHaveKinds(v.entries, kk, vk)
    case StructK(st) =>
      v.StructV? && |v.fields| == |st.fields|
      && forall i :: 0 <= i < |st.fields| ==> HasKind(v.fields[i], st.fields[i].kind)
    case PtrK(e) =>
      if e.StructK? then v.RefV? && (v.obj.Some? ==> v.obj.value.typeName == e.st.name)
      else v.BoxV? && (v.target.Some? ==> HasKind(v.target.value, e))
    case InterfaceK(AnyIface) => v.AnyV?
    case InterfaceK(Named(n)) => v.IfaceV? && (v.dynamic.Some? ==> n in v.dynamic.value.implements)
    case OtherK(_) => v.OtherV?
  }

  /** Every key of `m` has kind `kk` and every value kind `vk`. */
  ghost predicate EntriesHaveKinds(m: map<GoValue, GoValue>, kk: Kind, vk: Kind)
    decreases MapK(kk, vk), 0
  {
    forall key :: key in m ==> HasKind(key, kk) && HasKind(m[key], vk)
  }

  lemma {:induction false} ZeroHasKind(k: Kind)
    ensures HasKind(Zero(k), k)
    decreases k
  {
    match k
    case SliceK(_) =>
    case StructK(st) =>
      var z := Zero(k);
      forall i | 0 <= i < |st.fields|
        ensures HasKind(z.fields[i], st.fields[i].kind)
      {
        ZeroHasKind(st.fields[i].kind);
      }
    case _ =>
  }

  /** `Scope.Get` over a chain of object maps (receiver first): the first
      non-nil object registered under the name. */
  function Lookup(chain: seq<map<string, Option<Object>>>, name: string): (r: Option<Object>)
    ensures r.Some? ==> exists i :: 0 <= i < |chain| && name in chain[i] && chain[i][name] == r
  {
    if |chain| == 0 then None
    else if name in chain[0] && chain[0][name].Some? then chain[0][name]
    else
      var r := Lookup(chain[1..], name);
      assert r.Some? ==> exists i :: 1 <= i < |chain| && name in chain[i] && chain[i][name] == r by {
        if r.Some? {
          var i :| 0 <= i < |chain[1..]| && name in chain[1..][i] && chain[1..][i][name] == r;
          assert chain[i + 1] == chain[1..][i];
        }
      }
      r
  }

  /** The object `Lookup` finds is registered at some level i and the levels
      before i have no non-nil object under that name; nil means no level
      has one. */
  lemma {:induction false} LookupNearest(chain: seq<map<string, Option<Object>>>, name: string)
    ensures Lookup(chain, name).None? <==> forall i :: 0 <= i < |chain| ==> name !in chain[i] || chain[i][name].None?
    ensures Lookup(chain, name).Some? ==>
              exists i :: 0 <= i < |chain| && name in chain[i] && chain[i][name] == Lookup(chain, name)
                && forall j :: 0 <= j < i ==> name !in chain[j] || chain[j][name].None?
  {
    if |chain| > 0 && !(name in chain[0] && chain[0][name].Some?) {
      var rest := chain[1..];
      LookupNearest(rest, name);
      assert forall i :: 1 <= i < |chain| ==> chain[i] == rest[i - 1];
      if Lookup(chain, name).Some? {
        var i :| 0 <= i < |rest| && name in rest[i] && rest[i][name] == Lookup(chain, name)
                 && forall j :: 0 <= j < i ==> name !in rest[j] || rest[j][name].None?;
        assert chain[i + 1] == rest[i];
      }
    }
  }
}
