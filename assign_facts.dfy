/** What `assignValue` promises, stated over the assignment spec: integer
    truncation on store, slices and maps rebuilt from their successes,
    `brot` tag parsing, untouched fields, the hooks, and named-object
    resolution. */
module AssignmentFacts {
  import opened GoRuntime
  import opened MachineInts
  import opened Errors
  import opened Values
  import opened Types
  import opened Assignment
  import opened Aux
  import Helper
  import HelperSigned
  import HelperUnsigned
  import StrConv

  // ------------------------------------------------------------ scalars

  /** An integer destination stores the 64-bit coercion of the source
      (signed or unsigned as the destination is) converted to its own
      width; a failed coercion leaves it unchanged and comes back as a
      multi-error holding exactly that error. */
  lemma IntegerStore(env: Env, t: IntType, cur: GoValue, src: Value)
    requires HasKind(cur, IntK(t))
    ensures var c := if t.Signed() then HelperSigned.GetInt64(src) else HelperUnsigned.GetUint64(src);
            var r := AssignResult(env, CanSet, IntK(t), cur, src);
            r.Normal?
            && (c.1 == None ==> r.value == Assignment(IntV(t, Convert(c.0, t)), None))
            && (c.1 != None ==> r.value == Assignment(cur, Some(Multi([c.1.value]))))
  {
  }

  /** An integer source that fits in 64 bits is stored into a signed
      destination converted to the destination's width. */
  lemma SignedStoreOfInt(env: Env, t: IntType, cur: GoValue, u: IntType, x: int)
    requires t.Signed() && HasKind(cur, IntK(t)) && InSigned(x, W64)
    ensures AssignResult(env, CanSet, IntK(t), cur, Int(u, x)) == Normal(Assignment(IntV(t, Convert(x, t)), None))
  {
    ConvertKeepsInRange(x, GoInt64);
    IntegerStore(env, t, cur, Int(u, x));
  }

  /** Rows of the repository's tests: an int8 destination wraps around. */
  lemma Int8Stores(env: Env)
    ensures AssignResult(env, CanSet, IntK(GoInt8), IntV(GoInt8, 0), Int(GoInt, 128)) == Normal(Assignment(IntV(GoInt8, -128), None))
    ensures AssignResult(env, CanSet, IntK(GoInt8), IntV(GoInt8, 0), Int(GoInt, 129)) == Normal(Assignment(IntV(GoInt8, -127), None))
    ensures AssignResult(env, CanSet, IntK(GoInt8), IntV(GoInt8, 0), Int(GoInt, 256)) == Normal(Assignment(IntV(GoInt8, 0), None))
    ensures AssignResult(env, CanSet, IntK(GoInt8), IntV(GoInt8, 0), Int(GoInt, -129)) == Normal(Assignment(IntV(GoInt8, 127), None))
  {
    SignedStoreOfInt(env, GoInt8, IntV(GoInt8, 0), GoInt, 128);
    SignedStoreOfInt(env, GoInt8, IntV(GoInt8, 0), GoInt, 129);
    SignedStoreOfInt(env, GoInt8, IntV(GoInt8, 0), GoInt, 256);
    SignedStoreOfInt(env, GoInt8, IntV(GoInt8, 0), GoInt, -129);
    NarrowExamples();
  }

  /** Rows of the repository's tests: a uint8 destination keeps the value
      modulo 256, so "257" stores 1 and -1 stores 255. */
  lemma Uint8Stores(env: Env)
    ensures AssignResult(env, CanSet, IntK(GoUint8), IntV(GoUint8, 0), Str("257")) == Normal(Assignment(IntV(GoUint8, 1), None))
    ensures AssignResult(env, CanSet, IntK(GoUint8), IntV(GoUint8, 0), Int(GoInt, -1)) == Normal(Assignment(IntV(GoUint8, 255), None))
  {
    HelperUnsigned.GetUint64OfString("257");
    HelperSigned.Decimal3("257", 257);
    IntegerStore(env, GoUint8, IntV(GoUint8, 0), Str("257"));
    IntegerStore(env, GoUint8, IntV(GoUint8, 0), Int(GoInt, -1));
    HelperUnsigned.GetUint64OfIntegers();
    NarrowExamples();
  }

  /** A failed scalar coercion leaves the destination as it was and
      reports a non-empty multi-error. */
  lemma ScalarFailureKeeps(env: Env, kind: Kind, cur: GoValue, src: Value)
    requires (kind.BoolK? || kind.StringK? || kind.IntK?) && HasKind(cur, kind)
    ensures var r := AssignResult(env, CanSet, kind, cur, src);
            r.Normal? && (r.value.err.Some? ==>
                            r.value.value == cur && r.value.err.value.Multi? && |r.value.err.value.errors| == 1)
  {
  }

  // ------------------------------------------------------------- slices

  /** Assigning `v` to a fresh zero element of kind `e`, as the slice
      and map loops do. */
  function Fresh(env: Env, e: Kind, v: Value): (r: Outcome<Assignment>)
    ensures r.Normal? ==> HasKind(r.value.value, e)
  {
    ZeroHasKind(e);
    AssignResult(env, CanSet, e, Zero(e), v)
  }

  /** Whether the element source `v` converts into a fresh element without
      panic or error, and to what. */
  predicate Converts(env: Env, e: Kind, v: Value, x: GoValue) {
    Fresh(env, e, v) == Normal(Assignment(x, None))
  }

  /** What one source element contributes to the slice: its converted
      value when the conversion recorded no error. */
  function KeptOne(env: Env, e: Kind, v: Value): seq<GoValue> {
    var a := Fresh(env, e, v);
    if a.Normal? && a.value.err == None then [a.value.value] else []
  }

  /** A reference for the slice loop, built from the front: the converted
      elements of `items`, in order, dropping those that recorded errors. */
  function Kept(env: Env, e: Kind, items: seq<Value>): seq<GoValue>
    decreases |items|
  {
    if items == [] then [] else KeptOne(env, e, items[0]) + Kept(env, e, items[1..])
  }

  lemma {:induction false} KeptSnoc(env: Env, e: Kind, items: seq<Value>, v: Value)
    ensures Kept(env, e, items + [v]) == Kept(env, e, items) + KeptOne(env, e, v)
    decreases |items|
  {
    if items != [] {
      assert (items + [v])[1..] == items[1..] + [v];
      KeptSnoc(env, e, items[1..], v);
    }
  }

  /** A slice destination becomes exactly the elements whose assignment
      succeeded, in source order; the other elements' errors are
      collected. */
  lemma {:induction false} SliceKeepsSuccesses(env: Env, e: Kind, src: Value, n: nat)
    requires src.List? && n <= |src.items|
    ensures SliceFold(env, e, src, n).Normal? ==> SliceFold(env, e, src, n).value.0 == Kept(env, e, src.items[..n])
  {
    if n > 0 {
      SliceKeepsSuccesses(env, e, src, n - 1);
      assert src.items[..n] == src.items[..n - 1] + [src.items[n - 1]];
      KeptSnoc(env, e, src.items[..n - 1], src.items[n - 1]);
    }
  }

  /** Whole slices: the new value is `Kept` of all source elements, and a
      source that is not a list panics. */
  lemma SliceDestination(env: Env, e: Kind, cur: GoValue, src: Value)
    requires HasKind(cur, SliceK(e))
    ensures var r := AssignResult(env, CanSet, SliceK(e), cur, src);
            (src.List? && r.Normal? ==> r.value.value == SliceV(Kept(env, e, src.items)))
            && (src.Nil? ==> r == Panic(ZeroValueType))
            && (!src.List? && !src.Nil? ==> r == Panic("Not yet implemented"))
  {
    assert AssignSpec(env, SliceK(e), cur, src) == SliceSpec(env, e, src);
    if src.List? {
      SliceKeepsSuccesses(env, e, src, |src.items|);
      assert src.items[..|src.items|] == src.items;
    }
  }

  // --------------------------------------------------------------- maps

  /** The i-th visited key of a map source converts to `k` and its value
      to `x`, both without error. */
  predicate EntryConverts(env: Env, kk: Kind, vk: Kind, src: Value, i: nat, k: GoValue, x: GoValue)
    requires src.Dict? && i < |src.order|
  {
    var key := src.order[i];
    key in src.entries && Converts(env, kk, Str(key), k) && Converts(env, vk, src.entries[key], x)
  }

  /** Every key of `m` carries the value of some visited key among the
      first n that converted to it. */
  ghost predicate FromConverted(env: Env, kk: Kind, vk: Kind, src: Value, n: nat, m: map<GoValue, GoValue>)
    requires src.Dict? && n <= |src.order|
  {
    forall k :: k in m ==> exists i :: 0 <= i < n && EntryConverts(env, kk, vk, src, i, k, m[k])
  }

  /** Every visited key among the first n whose key and value converted
      is a key of `m`. */
  ghost predicate HoldsConverted(env: Env, kk: Kind, vk: Kind, src: Value, n: nat, m: map<GoValue, GoValue>)
    requires src.Dict? && n <= |src.order|
  {
    forall i, k, x :: 0 <= i < n && EntryConverts(env, kk, vk, src, i, k, x) ==> k in m
  }

  /** Both directions at once: `m` is what the first n visited keys
      that converted make of it. */
  ghost predicate Faithful(env: Env, kk: Kind, vk: Kind, src: Value, n: nat, m: map<GoValue, GoValue>)
    requires src.Dict? && n <= |src.order|
  {
    FromConverted(env, kk, vk, src, n, m) && HoldsConverted(env, kk, vk, src, n, m)
  }

  /** A map the i-th key leaves alone keeps both directions when that
      key did not convert. */
  lemma Unchanged(env: Env, kk: Kind, vk: Kind, src: Value, i: nat, m: map<GoValue, GoValue>)
    requires src.Dict? && i < |src.order|
    requires Faithful(env, kk, vk, src, i, m)
    requires forall k, x :: !EntryConverts(env, kk, vk, src, i, k, x)
    ensures Faithful(env, kk, vk, src, i + 1, m)
  {
    forall k | k in m
      ensures exists j :: 0 <= j < i + 1 && EntryConverts(env, kk, vk, src, j, k, m[k])
    {
      var j :| 0 <= j < i && EntryConverts(env, kk, vk, src, j, k, m[k]);
    }
  }

  /** Storing the i-th entry, converted to `nk` and `x`, keeps both
      directions: conversion is a function, so `nk` is the only key the
      i-th entry can give. */
  lemma StoreKeeps(env: Env, kk: Kind, vk: Kind, src: Value, i: nat, nk: GoValue, x: GoValue, m: map<GoValue, GoValue>)
    requires src.Dict? && i < |src.order| && EntryConverts(env, kk, vk, src, i, nk, x)
    requires Faithful(env, kk, vk, src, i, m)
    ensures Faithful(env, kk, vk, src, i + 1, m[nk := x])
  {
    var m' := m[nk := x];
    forall k | k in m'
      ensures exists j :: 0 <= j < i + 1 && EntryConverts(env, kk, vk, src, j, k, m'[k])
    {
      if k != nk {
        var j :| 0 <= j < i && EntryConverts(env, kk, vk, src, j, k, m[k]);
      }
    }
  }

  /** The value half of a step, once the key converted to `nk`. */
  lemma ValueStepKeeps(env: Env, kk: Kind, vk: Kind, src: Value, i: nat, nk: GoValue, prev: (map<GoValue, GoValue>, seq<Error>))
    requires src.Dict? && i < |src.order| && src.order[i] in src.entries
    requires Fresh(env, kk, Str(src.order[i])) == Normal(Assignment(nk, None))
    requires EntriesHaveKinds(prev.0, kk, vk)
    requires Faithful(env, kk, vk, src, i, prev.0)
    ensures var r := ValueStep(env, kk, vk, src, i, nk, prev);
            r.Normal? ==> Faithful(env, kk, vk, src, i + 1, r.value.0)
  {
    var rv := Fresh(env, vk, src.entries[src.order[i]]);
    var r := ValueStep(env, kk, vk, src, i, nk, prev);
    if rv.Normal? && rv.value.err != None {
      assert r.value.0 == prev.0;
      assert forall k, x :: !EntryConverts(env, kk, vk, src, i, k, x) by {
        forall k, x
          ensures !EntryConverts(env, kk, vk, src, i, k, x)
        {
          assert !Converts(env, vk, src.entries[src.order[i]], x);
        }
      }
      Unchanged(env, kk, vk, src, i, prev.0);
    } else if rv.Normal? {
      assert r.value.0 == prev.0[nk := rv.value.value];
      assert EntryConverts(env, kk, vk, src, i, nk, rv.value.value);
      StoreKeeps(env, kk, vk, src, i, nk, rv.value.value, prev.0);
    }
  }

  /** A visited key the map lacks, or whose key string does not convert,
      leaves the map as it was. */
  lemma KeyRefusedKeeps(env: Env, kk: Kind, vk: Kind, src: Value, i: nat, prev: (map<GoValue, GoValue>, seq<Error>))
    requires src.Dict? && i < |src.order| && EntriesHaveKinds(prev.0, kk, vk)
    requires src.order[i] !in src.entries || (Fresh(env, kk, Str(src.order[i])).Normal? && Fresh(env, kk, Str(src.order[i])).value.err != None)
    requires Faithful(env, kk, vk, src, i, prev.0)
    ensures EntryStep(env, kk, vk, src, i, prev).Normal?
    ensures Faithful(env, kk, vk, src, i + 1, EntryStep(env, kk, vk, src, i, prev).value.0)
  {
    Unchanged(env, kk, vk, src, i, prev.0);
  }

  /** A key string that converts hands the step on to the value half. */
  lemma KeyConverted(env: Env, kk: Kind, vk: Kind, src: Value, i: nat, prev: (map<GoValue, GoValue>, seq<Error>))
    requires src.Dict? && i < |src.order| && EntriesHaveKinds(prev.0, kk, vk)
    requires src.order[i] in src.entries && Fresh(env, kk, Str(src.order[i])).Normal?
    requires Fresh(env, kk, Str(src.order[i])).value.err == None
    ensures EntryStep(env, kk, vk, src, i, prev) == ValueStep(env, kk, vk, src, i, Fresh(env, kk, Str(src.order[i])).value.value, prev)
  {
  }

  /** One step of the map loop keeps both directions. */
  lemma EntryStepKeeps(env: Env, kk: Kind, vk: Kind, src: Value, i: nat, prev: (map<GoValue, GoValue>, seq<Error>))
    requires src.Dict? && i < |src.order| && EntriesHaveKinds(prev.0, kk, vk)
    requires Faithful(env, kk, vk, src, i, prev.0)
    ensures var r := EntryStep(env, kk, vk, src, i, prev);
            r.Normal? ==> Faithful(env, kk, vk, src, i + 1, r.value.0)
  {
    var key := src.order[i];
    var rk := Fresh(env, kk, Str(key));
    if key !in src.entries || (rk.Normal? && rk.value.err != None) {
      KeyRefusedKeeps(env, kk, vk, src, i, prev);
    } else if rk.Normal? {
      KeyConverted(env, kk, vk, src, i, prev);
      ValueStepKeeps(env, kk, vk, src, i, rk.value.value, prev);
    } else {
      assert EntryStep(env, kk, vk, src, i, prev).Panic?;
    }
  }

  /** Every entry of the rebuilt map comes from a visited key whose key
      and value both converted, and every such key is in the map. */
  lemma {:induction false} MapKeepsConverted(env: Env, kk: Kind, vk: Kind, src: Value, n: nat)
    requires src.Dict? && n <= |src.order|
    ensures var r := MapFold(env, kk, vk, src, n);
            r.Normal? ==> Faithful(env, kk, vk, src, n, r.value.0)
  {
    if n > 0 {
      MapKeepsConverted(env, kk, vk, src, n - 1);
      var prev := MapFold(env, kk, vk, src, n - 1);
      if prev.Normal? {
        EntryStepKeeps(env, kk, vk, src, n - 1, prev.value);
      }
    }
  }

  /** Whole maps: every entry of the new map comes from a visited key
      whose key and value both converted, every such key is in it, and a
      source that is not a map panics. */
  lemma MapDestination(env: Env, kk: Kind, vk: Kind, cur: GoValue, src: Value)
    requires HasKind(cur, MapK(kk, vk))
    ensures var r := AssignResult(env, CanSet, MapK(kk, vk), cur, src);
            (src.Dict? && r.Normal? ==>
               FromConverted(env, kk, vk, src, |src.order|, r.value.value.entries)
               && HoldsConverted(env, kk, vk, src, |src.order|, r.value.value.entries))
            && (src.Nil? ==> r == Panic(ZeroValueType))
            && (!src.Dict? && !src.Nil? ==> r == Panic("Not yet implemented"))
  {
    assert AssignSpec(env, MapK(kk, vk), cur, src) == MapSpec(env, kk, vk, src);
    if src.Dict? {
      MapKeepsConverted(env, kk, vk, src, |src.order|);
    }
  }

  // ------------------------------------------------------------ structs

  /** A tag "<name>,mandatory" binds the trimmed name and makes the
      field mandatory. */
  lemma MandatoryTag(f: Field, name: string)
    requires f.tag == Some(name + ",mandatory") && forall k :: 0 <= k < |name| ==> name[k] != ','
    ensures BindingName(f) == GoStrings.Trim(name, ' ')
    ensures Mandatory(f)
  {
    assert name + ",mandatory" == name + [','] + "mandatory";
    GoStrings.SplitFree("mandatory", ',');
    GoStrings.SplitFirst(name, ',', "mandatory");
    var parts := TagParts(f);
    assert parts == [name, "mandatory"];
    assert 1 < |parts| && parts[1] == "mandatory";
  }

  /** A tag of one part binds the trimmed part and is not mandatory. */
  lemma SinglePartTag(f: Field)
    requires f.tag.Some? && forall k :: 0 <= k < |f.tag.value| ==> f.tag.value[k] != ','
    ensures BindingName(f) == GoStrings.Trim(f.tag.value, ' ')
    ensures !Mandatory(f)
  {
    GoStrings.SplitFree(f.tag.value, ',');
  }

  /** The comparison with "mandatory" is exact: in "<name>, <rest>" the
      second part starts with a space, so the field is not mandatory. */
  lemma SpacedPartNotMandatory(f: Field, name: string, rest: string)
    requires f.tag == Some(name + ", " + rest)
    requires forall k :: 0 <= k < |name| ==> name[k] != ','
    requires forall k :: 0 <= k < |rest| ==> rest[k] != ','
    ensures !Mandatory(f)
  {
    assert name + ", " + rest == name + [','] + (" " + rest);
    GoStrings.SplitFree(" " + rest, ',');
    GoStrings.SplitFirst(name, ',', " " + rest);
    assert TagParts(f) == [name, " " + rest];
  }

  /** A field without a `brot` tag binds its own Go name. */
  lemma UntaggedField(f: Field)
    requires f.tag == None
    ensures BindingName(f) == f.name && !Mandatory(f)
  {
  }

  /** A field that cannot be set, or whose binding key the source lacks,
      keeps its value (a missing mandatory field is only logged). */
  lemma {:induction false} UntouchedFields(env: Env, st: StructType, fields: seq<GoValue>, src: Value, n: nat, i: nat)
    requires src.Dict? && n <= |st.fields| && |fields| == |st.fields|
    requires forall k :: 0 <= k < |st.fields| ==> HasKind(fields[k], st.fields[k].kind)
    requires i < |st.fields| && (!st.fields[i].settable || BindingName(st.fields[i]) !in src.entries)
    ensures StructFold(env, st, fields, src, n).Normal? ==> StructFold(env, st, fields, src, n).value.0[i] == fields[i]
  {
    if n > 0 {
      UntouchedFields(env, st, fields, src, n - 1, i);
    }
  }

  /** After the fields, `Allocated` has run once and `InitFunc` once more
      than it failed; the hooks' errors are not among the returned ones.
      A source other than a map runs no hook and changes nothing. */
  lemma StructHooks(env: Env, st: StructType, cur: GoValue, src: Value)
    requires HasKind(cur, StructK(st))
    ensures var r := AssignResult(env, CanSet, StructK(st), cur, src);
            var f := if src.Dict? then StructFold(env, st, cur.fields, src, |st.fields|) else Normal((cur.fields, []));
            (src.Dict? && r.Normal? ==>
               f.Normal?
               && r.value.value.fields == f.value.0
               && r.value.value.allocatedCalls == cur.allocatedCalls + (if st.hooks.onAllocated then 1 else 0)
               && r.value.value.initCalls == cur.initCalls + (if st.hooks.init.Some? then st.hooks.init.value.failures + 1 else 0)
               && (r.value.err == None <==> f.value.1 == []))
            && (src.Nil? ==> r == Panic(NilDereference))
            && (!src.Dict? && !src.Nil? ==> r == Normal(Assignment(cur, None)))
  {
    assert AssignSpec(env, StructK(st), cur, src) == StructSpec(env, st, cur, src);
  }

  // ---------------------------------------------------- named objects

  /** A pointer to a struct given a name takes the registered object of
      that name only when it has exactly the pointer's type; otherwise
      the pointer is left as it is without error. */
  lemma PointerByName(env: Env, st: StructType, cur: GoValue, name: string)
    requires HasKind(cur, PtrK(StructK(st)))
    ensures var r := AssignResult(env, CanSet, PtrK(StructK(st)), cur, Str(name));
            var o := Lookup(env.chain, name);
            r.Normal? && r.value.err == None
            && r.value.value == if o.Some? && o.value.typeName == st.name then RefV(o) else cur
  {
    assert AssignSpec(env, PtrK(StructK(st)), cur, Str(name)) == StructPtrSpec(env, st, cur, Str(name));
  }

  /** A named interface given a name takes the registered object when it
      implements the interface; otherwise nothing changes. */
  lemma InterfaceByName(env: Env, n: string, cur: GoValue, name: string)
    requires HasKind(cur, InterfaceK(Named(n)))
    ensures var r := AssignResult(env, CanSet, InterfaceK(Named(n)), cur, Str(name));
            var o := Lookup(env.chain, name);
            r.Normal? && r.value.err == None
            && r.value.value == if o.Some? && n in o.value.implements then IfaceV(o) else cur
  {
    assert AssignSpec(env, InterfaceK(Named(n)), cur, Str(name)) == IfaceSpec(env, n, cur, Str(name));
  }

  /** An interface definition needs a string "struct" and a map "args";
      each missing or mistyped part is reported with its own message and
      leaves the destination unchanged. */
  lemma InterfaceDefinitionErrors(env: Env, n: string, cur: GoValue, m: map<string, Value>, order: seq<string>)
    requires HasKind(cur, InterfaceK(Named(n)))
    ensures var r := AssignResult(env, CanSet, InterfaceK(Named(n)), cur, Dict(m, order));
            ("struct" !in m ==> r == Normal(Assignment(cur, Some(Multi([Plain("missing struct in object definition")])))))
            && ("struct" in m && !m["struct"].Str? ==>
                  r == Normal(Assignment(cur, Some(Multi([Plain("args is not of type string")])))))
            && ("struct" in m && m["struct"].Str? && "args" !in m ==>
                  r == Normal(Assignment(cur, Some(Multi([Plain("missing args in object definition")])))))
            && ("struct" in m && m["struct"].Str? && "args" in m && !m["args"].Dict? ==>
                  r == Normal(Assignment(cur, Some(Multi([Plain("args is not of type map[string]interface{}")])))))
  {
    assert AssignSpec(env, InterfaceK(Named(n)), cur, Dict(m, order)) == IfaceSpec(env, n, cur, Dict(m, order));
  }

  /** The empty interface stores the source itself; nil panics. */
  lemma EmptyInterfaceStores(env: Env, cur: GoValue, src: Value)
    requires HasKind(cur, InterfaceK(AnyIface))
    ensures var r := AssignResult(env, CanSet, InterfaceK(AnyIface), cur, src);
            (src.Nil? ==> r.Panic?) && (!src.Nil? ==> r == Normal(Assignment(AnyV(src), None)))
  {
  }
}
