/** The schema layer of package `model`: elements declare a typed field
    by a type string, schemas group elements and check values against
    them, and the butter registers schemas, validates objects before
    handing them to the connection and loads objects by id. The
    connection (the Redis client) is an oracle that records what it was
    asked to do. */
module Schemas {
  import opened GoRuntime
  import opened MachineInts
  import opened Errors
  import opened GoStrings
  import opened StrConv
  import Aux
  import Contexts

  // -------------------------------------------------------------- Element

  /** The `reflect.Kind` an element records. */
  datatype Kind = InvalidKind | StructKind | StringKind | IntKind

  /** The `check func(string) error` an element holds: nil before a
      successful `initialize`, one accepting every value (strings and
      references), or `strconv.ParseInt(value, 10, 64)`'s error. */
  datatype Check = NoCheck | AcceptAll | ParsesInt

  /** Calling the check on a value; a nil func panics. */
  function RunCheck(c: Check, value: string): Outcome<Option<Error>> {
    match c
    case NoCheck => Panic(NilDereference)
    case AcceptAll => Normal(None)
    case ParsesInt => Normal(ParseInt(value).1)
  }

  /** A leading `prefix` of `t`, and what follows it. */
  function StripPrefix(t: string, prefix: string): (r: (bool, string))
    ensures r.0 <==> HasPrefix(t, prefix)
    ensures r.0 ==> t == prefix + r.1
    ensures !r.0 ==> r.1 == t
  {
    if HasPrefix(t, prefix) then
      assert t == t[..|prefix|] + t[|prefix|..];
      (true, t[|prefix|..])
    else (false, t)
  }

  /** A string that starts with `prefix` loses exactly it. */
  lemma StripPrefixOf(prefix: string, u: string)
    ensures StripPrefix(prefix + u, prefix) == (true, u)
  {
    assert (prefix + u)[..|prefix|] == prefix;
  }

  /** What `initialize` reads off a trimmed type string: a leading "[]"
      (a list), then a leading "*" (a reference to a schema), the base
      name left, and the kind and check, none when the declaration is
      refused. */
  datatype Declaration = Declaration(slice: bool, pointer: bool, base: string, kind: Option<(Kind, Check)>)

  function Declare(t: string, schemas: set<string>): Declaration {
    var slice := StripPrefix(t, "[]").0;
    var t1 := StripPrefix(t, "[]").1;
    var pointer := StripPrefix(t1, "*").0;
    var base := StripPrefix(t1, "*").1;
    var kind :=
      if pointer then (if base in schemas then Some((StructKind, AcceptAll)) else None)
      else if base == "string" then Some((StringKind, AcceptAll))
      else if base == "int" then Some((IntKind, ParsesInt))
      else None;
    Declaration(slice, pointer, base, kind)
  }

  /** The error of a refused declaration of element `name` with type `t`. */
  function DeclarationError(name: string, t: string, d: Declaration): Error {
    if d.pointer then Plain("Element " + name + " of type " + t + " references unknown schems " + d.base)
    else Plain("Invalid declaration: " + t)
  }

  class Element {
    /** `Name`, `Index` and `Sort` come from the configuration and are
        never changed by this package. */
    const name: string
    var typ: string
    const index: bool
    const sort: bool
    var slice: bool
    var pointer: bool
    var kind: Kind
    var check: Check

    /** An element as the configuration builds it. */
    constructor (name: string, typ: string, index: bool, sort: bool)
      ensures this.name == name && this.typ == typ && this.index == index && this.sort == sort
      ensures !slice && !pointer && kind == InvalidKind && check == NoCheck
    {
      this.name := name;
      this.typ := typ;
      this.index := index;
      this.sort := sort;
      slice := false;
      pointer := false;
      kind := InvalidKind;
      check := NoCheck;
    }

    /** The state a successful `initialize` leaves: the type is trimmed
        and every derived field agrees with its declaration. */
    ghost predicate Settled(schemas: set<string>)
      reads this
    {
      var d := Declare(typ, schemas);
      && Trimmed(typ)
      && d.kind.Some?
      && slice == d.slice && pointer == d.pointer
      && kind == d.kind.value.0 && check == d.kind.value.1
    }

    /** `initialize(schemas)`: trims and stores the type, records whether
        it is a list and a reference, and on an accepted declaration sets
        the kind and the check; a refused one leaves those two as they
        were and returns the error. */
    method Initialize(schemas: map<string, Schema>) returns (err: Option<Error>)
      modifies this
      ensures typ == TrimSpace(old(typ))
      ensures Trimmed(typ) && (old(Trimmed(typ)) ==> typ == old(typ))
      ensures var d := Declare(typ, schemas.Keys);
              && slice == d.slice && pointer == d.pointer
              && (d.kind.Some? ==> kind == d.kind.value.0 && check == d.kind.value.1 && err == None)
              && (d.kind.None? ==> kind == old(kind) && check == old(check) && err == Some(DeclarationError(name, typ, d)))
      ensures err == None <==> Settled(schemas.Keys)
    {
      var t := TrimSpace(typ);
      TrimmedMeaning(typ);
      typ := t;
      ghost var keys := schemas.Keys;
      ghost var d := Declare(t, keys);
      var s, rest := StripPrefix(t, "[]").0, StripPrefix(t, "[]").1;
      slice := s;
      t := rest;
      var p, base := StripPrefix(t, "*").0, StripPrefix(t, "*").1;
      pointer := p;
      t := base;
      assert d.slice == s && d.pointer == p && d.base == base;
      if p {
        if t !in schemas {
          assert d.kind == None;
          return Some(Plain("Element " + name + " of type " + typ + " references unknown schems " + t));
        }
        assert d.kind == Some((StructKind, AcceptAll));
        kind := StructKind;
        check := AcceptAll;
        return None;
      }
      if t == "string" {
        assert d.kind == Some((StringKind, AcceptAll));
        kind := StringKind;
        check := AcceptAll;
      } else if t == "int" {
        assert d.kind == Some((IntKind, ParsesInt));
        kind := IntKind;
        check := ParsesInt;
      } else {
        assert d.kind == None;
        return Some(Plain("Invalid declaration: " + typ));
      }
      return None;
    }
  }

  /** The declarations `initialize` accepts: "string", "int", a reference
      "*S" to a registered schema S, and each of these behind "[]". */
  lemma DeclarationGrammar(t: string, schemas: set<string>)
    ensures Declare(t, schemas).kind.Some? <==>
              || t == "string" || t == "int" || t == "[]string" || t == "[]int"
              || (exists s :: s in schemas && (t == "*" + s || t == "[]*" + s))
  {
    if Declare(t, schemas).kind.Some? {
      AcceptedIsGrammatical(t, schemas);
    }
    if exists s :: s in schemas && (t == "*" + s || t == "[]*" + s) {
      var s :| s in schemas && (t == "*" + s || t == "[]*" + s);
      if t == "*" + s {
        ReferenceAccepted(s, schemas);
      } else {
        ReferenceAccepted(s, schemas);
        ListAccepted("*" + s, schemas);
        assert t == "[]" + ("*" + s);
      }
    }
    if t == "string" || t == "int" {
      FirstCharDiffers(t, "[]");
      FirstCharDiffers(t, "*");
    }
    if t == "[]string" || t == "[]int" {
      var u := t[2..];
      assert u == "string" || u == "int";
      FirstCharDiffers(u, "[]");
      FirstCharDiffers(u, "*");
      ListAccepted(u, schemas);
      assert t == "[]" + u;
    }
  }

  /** A string whose first character is not the prefix's lacks the prefix. */
  lemma FirstCharDiffers(t: string, prefix: string)
    requires |t| > 0 && |prefix| > 0 && t[0] != prefix[0]
    ensures !HasPrefix(t, prefix)
  {
    if |prefix| <= |t| {
      assert t[..|prefix|][0] == t[0];
    }
  }

  /** An accepted declaration is one of the listed forms. */
  lemma AcceptedIsGrammatical(t: string, schemas: set<string>)
    requires Declare(t, schemas).kind.Some?
    ensures || t == "string" || t == "int" || t == "[]string" || t == "[]int"
            || (exists s :: s in schemas && (t == "*" + s || t == "[]*" + s))
  {
    var d := Declare(t, schemas);
    var t1 := StripPrefix(t, "[]").1;
    if d.pointer {
      assert t1 == "*" + d.base;
      if d.slice {
        assert t == "[]*" + d.base;
      }
      assert t == "*" + d.base || t == "[]*" + d.base;
    }
  }

  /** "*S" declares a reference exactly when S is registered. */
  lemma ReferenceAccepted(s: string, schemas: set<string>)
    ensures Declare("*" + s, schemas) == Declaration(false, true, s, if s in schemas then Some((StructKind, AcceptAll)) else None)
  {
    assert ("*" + s)[0] == '*';
    assert !HasPrefix("*" + s, "[]");
    StripPrefixOf("*", s);
  }

  /** "[]" in front of a declaration that has no "[]" of its own only
      makes it a list. */
  lemma ListAccepted(u: string, schemas: set<string>)
    requires !HasPrefix(u, "[]")
    ensures Declare("[]" + u, schemas) == Declare(u, schemas).(slice := true)
  {
    StripPrefixOf("[]", u);
  }

  /** An "int" element accepts exactly the optionally signed decimals that
      fit in 64 bits; "string" and reference elements accept everything. */
  lemma ChecksAccept(c: Check, value: string)
    ensures c == ParsesInt ==>
              (RunCheck(c, value) == Normal(None) <==>
                 SignedBody(value) != "" && AllDigits(SignedBody(value)) && InSigned(SignedValue(value), W64))
    ensures c == AcceptAll ==> RunCheck(c, value) == Normal(None)
  {
    ParseIntAccepts(value);
  }

  // --------------------------------------------------------------- Schema

  /** The first j elements are settled. */
  ghost predicate SettledPrefix(es: seq<Element>, j: nat, schemas: set<string>)
    requires j <= |es|
    reads es
  {
    forall k :: 0 <= k < j ==> es[k].Settled(schemas)
  }

  /** The configured type of each element. */
  ghost function Types(es: seq<Element>): (r: seq<string>)
    reads es
    ensures |r| == |es| && forall k :: 0 <= k < |es| ==> r[k] == es[k].typ
  {
    seq(|es|, k requires 0 <= k < |es| reads es => es[k].typ)
  }

  /** Each of the first n elements now has the trimmed form of the type
      it was configured with. */
  ghost predicate TrimmedFrom(es: seq<Element>, n: nat, types0: seq<string>)
    requires n <= |es| == |types0|
    reads es
  {
    forall k :: 0 <= k < n ==> es[k].typ == TrimSpace(types0[k])
  }

  /** What the element loop leaves, given the configured types: on
      success every element is settled from the trimmed form of its
      configured type and registered by name; on an error it stopped at
      some element j, after those before it settled, each of the first
      j + 1 elements holding its trimmed configured type. */
  ghost predicate ElementsInitialized(es: seq<Element>, keys: set<string>, types0: seq<string>, err: Option<Error>,
                                      byName: map<string, Element>)
    requires |types0| == |es|
    reads es
  {
    && (err == None ==>
          && SettledPrefix(es, |es|, keys) && TrimmedFrom(es, |es|, types0)
          && byName == ByName(es))
    && (err.Some? ==>
          exists j :: 0 <= j < |es| && FailedAt(es, j, keys, err, byName) && TrimmedFrom(es, j + 1, types0))
  }

  /** The element loop stopped at position j: the ones before it are
      settled, the one at j is refused with its declaration error, and only
      those before it are registered. */
  ghost predicate FailedAt(es: seq<Element>, j: nat, schemas: set<string>, err: Option<Error>, elements: map<string, Element>)
    requires j < |es|
    reads es
  {
    && SettledPrefix(es, j, schemas)
    && !es[j].Settled(schemas)
    && err == Some(DeclarationError(es[j].name, es[j].typ, Declare(es[j].typ, schemas)))
    && elements == ByName(es[..j])
  }

  /** Checking the parts in order: the first that panics or is refused
      decides, and all parts passing is no error. */
  function FirstFailure(c: Check, parts: seq<string>): Outcome<Option<Error>>
    decreases |parts|
  {
    if parts == [] then Normal(None)
    else if RunCheck(c, parts[0]) != Normal(None) then RunCheck(c, parts[0])
    else FirstFailure(c, parts[1..])
  }

  /** A list passes exactly when each of its parts does, and otherwise the
      verdict is that of the first part that does not. */
  lemma {:induction false} FirstFailureMeaning(c: Check, parts: seq<string>)
    ensures FirstFailure(c, parts) == Normal(None) <==>
              forall i :: 0 <= i < |parts| ==> RunCheck(c, parts[i]) == Normal(None)
    ensures FirstFailure(c, parts) != Normal(None) ==>
              exists j :: 0 <= j < |parts| && FirstFailure(c, parts) == RunCheck(c, parts[j])
                && forall i :: 0 <= i < j ==> RunCheck(c, parts[i]) == Normal(None)
    decreases |parts|
  {
    if parts != [] {
      var head := RunCheck(c, parts[0]);
      if head != Normal(None) {
        assert FirstFailure(c, parts) == head;
        assert 0 <= 0 < |parts| && FirstFailure(c, parts) == RunCheck(c, parts[0]);
      } else {
        var tail := parts[1..];
        assert FirstFailure(c, parts) == FirstFailure(c, tail);
        FirstFailureMeaning(c, tail);
        assert forall i :: 0 < i < |parts| ==> parts[i] == tail[i - 1];
        if FirstFailure(c, tail) != Normal(None) {
          var j :| 0 <= j < |tail| && FirstFailure(c, tail) == RunCheck(c, tail[j])
                     && forall i :: 0 <= i < j ==> RunCheck(c, tail[i]) == Normal(None);
          assert FirstFailure(c, parts) == RunCheck(c, parts[j + 1]);
          assert forall i :: 0 <= i < j + 1 ==> RunCheck(c, parts[i]) == Normal(None);
        }
      }
    }
  }

  /** An "[]int" element accepts exactly the comma-separated lists of
      64-bit decimals, and a "[]string" or reference list accepts
      everything. */
  lemma ListCheckAccepts(c: Check, value: string)
    requires c == ParsesInt || c == AcceptAll
    ensures FirstFailure(c, Split(value, ',')) == Normal(None) <==>
              forall i :: 0 <= i < |Split(value, ',')| ==> RunCheck(c, Split(value, ',')[i]) == Normal(None)
    ensures c == AcceptAll ==> FirstFailure(c, Split(value, ',')) == Normal(None)
  {
    FirstFailureMeaning(c, Split(value, ','));
  }

  /** The lower-case plural: the name's plus "s" when none is configured. */
  function PluralOf(name: string, plural: string): string {
    if plural == "" then ToLower(name) + "s" else ToLower(plural)
  }

  /** Elements by name; a later element of the same name wins. */
  function ByName(es: seq<Element>): map<string, Element>
    decreases |es|
  {
    if es == [] then map[] else ByName(es[..|es| - 1])[es[|es| - 1].name := es[|es| - 1]]
  }

  /** Every element's name is registered, to the last element of that
      name. */
  lemma {:induction false} ByNameMeaning(es: seq<Element>)
    ensures forall k :: 0 <= k < |es| ==> es[k].name in ByName(es)
    ensures forall n :: n in ByName(es) ==>
              exists k :: 0 <= k < |es| && es[k] == ByName(es)[n] && es[k].name == n
                && forall l :: k < l < |es| ==> es[l].name != n
    decreases |es|
  {
    if es != [] {
      var init := es[..|es| - 1];
      ByNameMeaning(init);
      var last := es[|es| - 1];
      forall n | n in ByName(es)
        ensures exists k :: 0 <= k < |es| && es[k] == ByName(es)[n] && es[k].name == n
                  && forall l :: k < l < |es| ==> es[l].name != n
      {
        if n == last.name {
          assert es[|es| - 1] == ByName(es)[n];
        } else {
          assert n in ByName(init);
          var k :| 0 <= k < |init| && init[k] == ByName(init)[n] && init[k].name == n
                     && forall l :: k < l < |init| ==> init[l].name != n;
          assert es[k] == ByName(es)[n];
        }
      }
      forall k | 0 <= k < |es|
        ensures es[k].name in ByName(es)
      {
        if k < |init| {
          assert init[k] == es[k];
        }
      }
    }
  }

  /** Registering one more element of the list. */
  lemma PrefixSnoc(es: seq<Element>, i: nat)
    requires i < |es|
    ensures ByName(es[..i + 1]) == ByName(es[..i])[es[i].name := es[i]]
    ensures IndexedNames(es[..i + 1]) == IndexedNames(es[..i]) + (if es[i].index then [es[i].name] else [])
  {
    assert es[..i + 1][..i] == es[..i];
  }

  /** The names of the elements marked `Index`, in order. */
  function IndexedNames(es: seq<Element>): (r: seq<string>)
    ensures |r| <= |es|
    decreases |es|
  {
    if es == [] then []
    else IndexedNames(es[..|es| - 1]) + (if es[|es| - 1].index then [es[|es| - 1].name] else [])
  }

  class Schema {
    const name: string
    var plural: string
    /** `Elements`, as configured. */
    const elementList: seq<Element>
    var elements: map<string, Element>
    var butter: Butter?
    var indexed: seq<string>

    constructor (name: string, plural: string, elementList: seq<Element>)
      ensures this.name == name && this.plural == plural && this.elementList == elementList
      ensures elements == map[] && butter == null && indexed == []
    {
      this.name := name;
      this.plural := plural;
      this.elementList := elementList;
      elements := map[];
      butter := null;
      indexed := [];
    }

    /** What `initialize` leaves behind, given the schema names and the
        indexed names and element types before: on success every element
        holds the trimmed form of its configured type, is settled from it
        and registered by name, and its indexed names are collected; on an
        error some element failed after all those before it settled, each
        of those and the failing one holds its trimmed configured type,
        only those before it are registered and `Indexed` is unchanged. */
    ghost predicate Initialized(keys: set<string>, indexed0: seq<string>, types0: seq<string>, err: Option<Error>)
      requires |types0| == |elementList|
      reads this, elementList
    {
      && ElementsInitialized(elementList, keys, types0, err, elements)
      && (err == None ==> indexed == IndexedNames(elementList))
      && (err.Some? ==> indexed == indexed0)
    }

    /** `initialize(butter)`: records the butter, lower-cases the plural
        (deriving it from the name when empty), and initializes the
        elements in order, registering each by name and collecting the
        indexed names; the first element error stops the loop and is
        returned, leaving the elements registered so far and `Indexed`
        as it was. */
    method Initialize(b: Butter) returns (err: Option<Error>)
      modifies this, elementList
      ensures butter == b && plural == PluralOf(name, old(plural))
      ensures Initialized(b.schemas.Keys, old(indexed), old(Types(elementList)), err)
    {
      butter := b;
      plural := PluralOf(name, plural);
      err := RegisterElements(b.schemas);
    }

    /** The element part of `initialize`: the elements are initialized in
        order and registered; `Indexed` is set only when all succeed. */
    method RegisterElements(schemas: map<string, Schema>) returns (err: Option<Error>)
      modifies this, elementList
      ensures butter == old(butter) && plural == old(plural)
      ensures Initialized(schemas.Keys, old(indexed), old(Types(elementList)), err)
    {
      var byName, names;
      err, byName, names := InitializeElements(elementList, schemas);
      elements := byName;
      if err == None {
        indexed := names;
      }
    }

    /** What `CheckValue(name, value)` returns. A name that is no element
        may be `_schema`, whose value must name a registered schema (the
        butter is dereferenced, so a schema never initialized panics),
        or `_label` and `_id`, whose values are at most 256 bytes of UTF-8;
        any other such name is refused. A list element checks each
        comma-separated part and reports the first failure; any other
        element checks the whole value. */
    function Verdict(name: string, value: string): (r: Outcome<Option<Error>>)
      reads this, butter, elements.Values
      ensures name !in elements && name != "_schema" && name != "_label" && name != "_id" ==>
                r == Normal(Some(Plain("schema " + this.name + " does not contain element with name " + name)))
      ensures name !in elements && (name == "_label" || name == "_id") ==>
                (r == Normal(None) <==> Utf8Len(value) <= 256)
      ensures name !in elements && name == "_schema" ==>
                (r.Panic? <==> butter == null) && (butter != null ==> (r == Normal(None) <==> value in butter.schemas))
      ensures name in elements && elements[name].slice ==> r == FirstFailure(elements[name].check, Split(value, ','))
      ensures name in elements && !elements[name].slice ==> r == RunCheck(elements[name].check, value)
    {
      if name !in elements then
        if name == "_schema" then
          if butter == null then Panic(NilDereference)
          else if value !in butter.schemas then Normal(Some(Plain("schema value " + value + " is not registered")))
          else Normal(None)
        else if name == "_label" || name == "_id" then
          if Utf8Len(value) > 256 then Normal(Some(Plain(name + " has more than 256 bytes"))) else Normal(None)
        else Normal(Some(Plain("schema " + this.name + " does not contain element with name " + name)))
      else
        var e := elements[name];
        if e.slice then FirstFailure(e.check, Split(value, ',')) else RunCheck(e.check, value)
    }

    /** `CheckValue(name, value)`; a list value is split at commas and its
        parts checked in order until one fails. */
    method CheckValue(name: string, value: string) returns (r: Outcome<Option<Error>>)
      ensures r == Verdict(name, value)
    {
      if name !in elements {
        if name == "_schema" {
          if butter == null {
            return Panic(NilDereference);
          }
          if value !in butter.schemas {
            return Normal(Some(Plain("schema value " + value + " is not registered")));
          }
        } else if name == "_label" || name == "_id" {
          if Utf8Len(value) > 256 {
            return Normal(Some(Plain(name + " has more than 256 bytes")));
          }
        } else {
          return Normal(Some(Plain("schema " + this.name + " does not contain element with name " + name)));
        }
        return Normal(None);
      }
      var e := elements[name];
      if e.slice {
        var values := Split(value, ',');
        for i := 0 to |values|
          invariant FirstFailure(e.check, values) == FirstFailure(e.check, values[i..])
        {
          var current := RunCheck(e.check, values[i]);
          if current != Normal(None) {
            return current;
          }
        }
        return Normal(None);
      }
      return RunCheck(e.check, value);
    }
  }

  /** The element loop of `Schema.initialize`: each element is initialized
      in order, registered by name and, when marked `Index`, its name
      collected; the first error stops the loop with what was registered
      so far. */
  method InitializeElements(es: seq<Element>, schemas: map<string, Schema>)
    returns (err: Option<Error>, byName: map<string, Element>, names: seq<string>)
    modifies es
    ensures ElementsInitialized(es, schemas.Keys, old(Types(es)), err, byName)
    ensures err == None ==> names == IndexedNames(es)
  {
    ghost var types0 := Types(es);
    byName := map[];
    names := [];
    for i := 0 to |es|
      invariant LoopState(es, i, schemas.Keys, types0, byName, names)
    {
      var failure;
      failure, byName, names := InitializeStep(es, i, schemas, types0, byName, names);
      if failure.Some? {
        return failure, byName, names;
      }
    }
    assert es[..|es|] == es;
    return None, byName, names;
  }

  /** What the element loop keeps after i elements: those are settled
      from their trimmed configured types and registered, and every
      element has its configured type or the trimmed form of it (an
      element listed twice is trimmed once). */
  ghost predicate LoopState(es: seq<Element>, i: nat, keys: set<string>, types0: seq<string>,
                            byName: map<string, Element>, names: seq<string>)
    requires i <= |es| == |types0|
    reads es
  {
    && SettledPrefix(es, i, keys)
    && byName == ByName(es[..i]) && names == IndexedNames(es[..i])
    && TrimmedFrom(es, i, types0)
    && (forall k :: 0 <= k < |es| ==> es[k].typ == types0[k] || es[k].typ == TrimSpace(types0[k]))
    && forall k, l :: 0 <= k < |es| && 0 <= l < |es| && es[k] == es[l] ==> types0[k] == types0[l]
  }

  /** One iteration of the element loop: element i is initialized; on an
      error the loop stops there, otherwise it is registered. */
  method InitializeStep(es: seq<Element>, i: nat, schemas: map<string, Schema>, ghost types0: seq<string>,
                        byName: map<string, Element>, names: seq<string>)
    returns (failure: Option<Error>, byName': map<string, Element>, names': seq<string>)
    requires i < |es| == |types0|
    requires LoopState(es, i, schemas.Keys, types0, byName, names)
    modifies es[i]
    ensures failure.Some? ==>
              FailedAt(es, i, schemas.Keys, failure, byName') && TrimmedFrom(es, i + 1, types0)
    ensures failure == None ==> LoopState(es, i + 1, schemas.Keys, types0, byName', names')
  {
    var e := es[i];
    PrefixSnoc(es, i);
    ghost var wasSettled := e.Settled(schemas.Keys);
    ghost var before := Types(es);
    failure := e.Initialize(schemas);
    TrimSpaceIdempotent(types0[i]);
    assert e.typ == TrimSpace(types0[i]);
    forall k | 0 <= k < |es|
      ensures es[k].typ == types0[k] || es[k].typ == TrimSpace(types0[k])
      ensures k < i ==> es[k].typ == TrimSpace(types0[k])
    {
      if es[k] != e {
        assert es[k].typ == before[k];
      }
    }
    assert SettledPrefix(es, i, schemas.Keys) by {
      if wasSettled {
        // an element listed twice settles again, to the same state
        assert e.Settled(schemas.Keys);
      }
      forall k | 0 <= k < i
        ensures es[k].Settled(schemas.Keys)
      {
        if es[k] == e {
          assert wasSettled;
        }
      }
    }
    byName', names' := byName, names;
    if failure.Some? {
      assert FailedAt(es, i, schemas.Keys, failure, byName') by {
        assert Declare(e.typ, schemas.Keys).kind.None?;
      }
      assert TrimmedFrom(es, i + 1, types0);
      return;
    }
    assert SettledPrefix(es, i + 1, schemas.Keys) by {
      assert e.Settled(schemas.Keys);
    }
    byName' := byName[e.name := e];
    if e.index {
      names' := names + [e.name];
    }
  }

  // --------------------------------------------------------------- Butter

  /** The connection the butter talks to, as an oracle: it records the
      schemas it was asked to index and the payloads it was asked to save,
      answers every save with `saveReply`, and loads by id through `load`. */
  class Connection {
    var indexed: seq<Schema>
    var saved: seq<map<string, string>>
    const saveReply: Option<Error>
    const load: string -> (map<string, string>, Option<Error>)

    constructor (saveReply: Option<Error>, load: string -> (map<string, string>, Option<Error>))
      ensures indexed == [] && saved == [] && this.saveReply == saveReply && this.load == load
    {
      indexed := [];
      saved := [];
      this.saveReply := saveReply;
      this.load := load;
    }

    method BuildIndex(s: Schema)
      modifies this
      ensures indexed == old(indexed) + [s] && saved == old(saved)
    {
      indexed := indexed + [s];
    }

    method Save(ctx: Contexts.Context, data: map<string, string>, s: Schema) returns (err: Option<Error>)
      modifies this
      ensures saved == old(saved) + [data] && indexed == old(indexed) && err == saveReply
    {
      saved := saved + [data];
      err := saveReply;
    }
  }

  /** Schemas by name; a later schema of the same name wins. */
  function SchemaMap(ss: seq<Schema>): map<string, Schema>
    decreases |ss|
  {
    if ss == [] then map[] else SchemaMap(ss[..|ss| - 1])[ss[|ss| - 1].name := ss[|ss| - 1]]
  }

  /** Every configured schema's name is registered, to the last schema of
      that name, and nothing else is. */
  lemma {:induction false} SchemaMapMeaning(ss: seq<Schema>)
    ensures forall k :: 0 <= k < |ss| ==> ss[k].name in SchemaMap(ss)
    ensures forall n :: n in SchemaMap(ss) ==>
              exists k :: 0 <= k < |ss| && ss[k] == SchemaMap(ss)[n] && ss[k].name == n
                && forall l :: k < l < |ss| ==> ss[l].name != n
    decreases |ss|
  {
    if ss != [] {
      var init := ss[..|ss| - 1];
      SchemaMapMeaning(init);
      var last := ss[|ss| - 1];
      forall n | n in SchemaMap(ss)
        ensures exists k :: 0 <= k < |ss| && ss[k] == SchemaMap(ss)[n] && ss[k].name == n
                  && forall l :: k < l < |ss| ==> ss[l].name != n
      {
        if n == last.name {
          assert ss[|ss| - 1] == SchemaMap(ss)[n];
        } else {
          assert n in SchemaMap(init);
          var k :| 0 <= k < |init| && init[k] == SchemaMap(init)[n] && init[k].name == n
                     && forall l :: k < l < |init| ==> init[l].name != n;
          assert ss[k] == SchemaMap(ss)[n];
        }
      }
      forall k | 0 <= k < |ss|
        ensures ss[k].name in SchemaMap(ss)
      {
        if k < |init| {
          assert init[k] == ss[k];
        }
      }
    }
  }

  /** The elements of the configured schemas; `InitFunc` may change them. */
  ghost function ElementsOf(ss: seq<Schema?>): set<Element> {
    set s, e | s in ss && s != null && e in s.elementList :: e
  }

  /** The index of the first nil schema, or the length when there is none. */
  function FirstNilSchema(ss: seq<Schema?>): (n: nat)
    ensures n <= |ss|
    ensures forall k :: 0 <= k < n ==> ss[k] != null
    ensures n < |ss| ==> ss[n] == null
    decreases |ss|
  {
    if ss == [] then 0 else if ss[0] == null then 0 else 1 + FirstNilSchema(ss[1..])
  }

  /** The schemas of a list without nils. */
  function NonNil(ss: seq<Schema?>): (r: seq<Schema>)
    requires forall k :: 0 <= k < |ss| ==> ss[k] != null
    ensures |r| == |ss| && forall k :: 0 <= k < |ss| ==> r[k] == ss[k]
  {
    seq(|ss|, k requires 0 <= k < |ss| && ss[k] != null => ss[k])
  }

  /** The first nil is at i when none precedes it. */
  lemma {:induction false} FirstNilSchemaAt(ss: seq<Schema?>, i: nat)
    requires i < |ss| && ss[i] == null && forall k :: 0 <= k < i ==> ss[k] != null
    ensures FirstNilSchema(ss) == i
    decreases i
  {
    if i > 0 {
      FirstNilSchemaAt(ss[1..], i - 1);
    }
  }

  /** A list without nils is reached entirely. */
  lemma {:induction false} FirstNilSchemaNone(ss: seq<Schema?>)
    requires forall k :: 0 <= k < |ss| ==> ss[k] != null
    ensures FirstNilSchema(ss) == |ss|
    decreases |ss|
  {
    if ss != [] {
      FirstNilSchemaNone(ss[1..]);
    }
  }

  /** The successful loads, in the order of their ids. */
  function Loaded(load: string -> (map<string, string>, Option<Error>), ids: seq<string>): (r: seq<map<string, string>>)
    ensures |r| <= |ids|
    decreases |ids|
  {
    if ids == [] then []
    else Loaded(load, ids[..|ids| - 1]) + (if load(ids[|ids| - 1]).1 == None then [load(ids[|ids| - 1]).0] else [])
  }

  /** The load errors, in the order of their ids. */
  function LoadErrors(load: string -> (map<string, string>, Option<Error>), ids: seq<string>): seq<Option<Error>> {
    seq(|ids|, i requires 0 <= i < |ids| => load(ids[i]).1)
  }

  /** Every id is either loaded or reported: the objects and the errors
      together are as many as the ids, and there is no error exactly when
      every load succeeded. */
  lemma {:induction false} LoadSliceAccounts(load: string -> (map<string, string>, Option<Error>), ids: seq<string>)
    ensures |Loaded(load, ids)| + |Aux.Collect(LoadErrors(load, ids))| == |ids|
    ensures Aux.Collect(LoadErrors(load, ids)) == [] <==> forall i :: 0 <= i < |ids| ==> load(ids[i]).1 == None
    ensures Aux.Collect(LoadErrors(load, ids)) == [] ==> |Loaded(load, ids)| == |ids|
    decreases |ids|
  {
    if ids != [] {
      var init := ids[..|ids| - 1];
      LoadSliceAccounts(load, init);
      assert LoadErrors(load, ids) == LoadErrors(load, init) + [load(ids[|ids| - 1]).1];
      Aux.CollectSnoc(LoadErrors(load, init), load(ids[|ids| - 1]).1);
    }
  }

  /** The schema a payload names: its `_schema` value, "" when missing. */
  function SchemaName(data: map<string, string>): string {
    if "_schema" in data then data["_schema"] else ""
  }

  /** The verdicts on the payload's pairs, in `order`, until the first
      that is not a pass. */
  function Checked(s: Schema, data: map<string, string>, order: seq<string>): Outcome<Option<Error>>
    requires forall i :: 0 <= i < |order| ==> order[i] in data
    reads s, s.butter, s.elements.Values
    decreases |order|
  {
    if order == [] then Normal(None)
    else if s.Verdict(order[0], data[order[0]]) != Normal(None) then s.Verdict(order[0], data[order[0]])
    else Checked(s, data, order[1..])
  }

  class Butter {
    /** `Conn`; null when no connection is configured. */
    const conn: Connection?
    /** `ConfiguredSchemas`; an unknown schema name leaves a nil. */
    const configured: seq<Schema?>
    var schemas: map<string, Schema>

    constructor (conn: Connection?, configured: seq<Schema?>)
      ensures this.conn == conn && this.configured == configured && schemas == map[]
    {
      this.conn := conn;
      this.configured := configured;
      schemas := map[];
    }

    /** `InitFunc`: registers the configured schemas by name, then
        initializes each with this butter (its error is dropped) and has
        the connection index it. A nil schema panics in the first loop,
        leaving the schemas before it registered; a nil connection panics
        at the first schema, once it is initialized. */
    method InitFunc() returns (r: Outcome<()>)
      modifies this, conn, configured, ElementsOf(configured)
      ensures var n := FirstNilSchema(configured);
              n < |configured| ==>
                && r == Panic(NilDereference) && schemas == SchemaMap(NonNil(configured[..n]))
                && (conn != null ==> conn.indexed == old(conn.indexed) && conn.saved == old(conn.saved))
      ensures FirstNilSchema(configured) == |configured| ==>
                && schemas == SchemaMap(NonNil(configured))
                && (r.Panic? <==> conn == null && |configured| > 0)
                && (r.Panic? ==> r.message == NilDereference && configured[0].butter == this)
                && (conn != null ==> conn.indexed == old(conn.indexed) + NonNil(configured) && conn.saved == old(conn.saved))
                && (r.Normal? ==> forall k :: 0 <= k < |configured| ==> configured[k].butter == this)
    {
      var cs := configured;
      var m, n := RegisterByName(cs);
      schemas := m;
      if n < |cs| {
        return Panic(NilDereference);
      }
      assert cs[..n] == cs;
      ghost var all := NonNil(cs);
      for i := 0 to |cs|
        invariant schemas == SchemaMap(all)
        invariant conn != null ==> conn.indexed == old(conn.indexed) + all[..i] && conn.saved == old(conn.saved)
        invariant forall k :: 0 <= k < i ==> cs[k].butter == this
        invariant i > 0 ==> conn != null
      {
        var schema: Schema := cs[i];
        assert all[..i + 1] == all[..i] + [schema];
        assert forall e :: e in schema.elementList ==> e in ElementsOf(configured);
        InitializeSchema(schema);
        if conn == null {
          return Panic(NilDereference);
        }
        conn.BuildIndex(schema);
      }
      assert all[..|cs|] == all;
      r := Normal(());
    }

    /** The first loop of `InitFunc`: the schemas by name, up to the
        first nil one, whose position is returned (`|cs|` when there is
        none). */
    static method RegisterByName(cs: seq<Schema?>) returns (m: map<string, Schema>, n: nat)
      ensures n == FirstNilSchema(cs)
      ensures m == SchemaMap(NonNil(cs[..n]))
    {
      m := map[];
      for i := 0 to |cs|
        invariant forall k :: 0 <= k < i ==> cs[k] != null
        invariant m == SchemaMap(NonNil(cs[..i]))
      {
        assert cs[..i + 1][..i] == cs[..i];
        if cs[i] == null {
          FirstNilSchemaAt(cs, i);
          return m, i;
        }
        assert NonNil(cs[..i + 1]) == NonNil(cs[..i]) + [cs[i]];
        m := m[cs[i].name := cs[i]];
      }
      FirstNilSchemaNone(cs);
      n := |cs|;
    }

    /** One round of the second loop of `InitFunc`: the schema is
        initialized with this butter and its error dropped. */
    method InitializeSchema(schema: Schema)
      modifies schema, schema.elementList
      ensures schema.butter == this
    {
      var _ := schema.Initialize(this);
    }

    /** `Schema(name)`: the registered schema of that name, nil when there
        is none. */
    function Lookup(name: string): (r: Schema?)
      reads this
      ensures r != null <==> name in schemas
      ensures r != null ==> r == schemas[name]
    {
      if name in schemas then schemas[name] else null
    }

    /** `Save(ctx, data)`: the payload names its schema under `_schema`
        (a missing key reads as ""); an unknown one is refused. Otherwise
        every pair is checked, in an order Go leaves open, and the first
        failure is returned without saving; a payload whose pairs all pass
        goes to the connection, whose answer is returned. */
    method Save(ctx: Contexts.Context, data: map<string, string>) returns (r: Outcome<Option<Error>>, ghost order: seq<string>)
      modifies conn
      ensures conn != null ==> conn.indexed == old(conn.indexed)
      ensures SchemaName(data) !in schemas ==>
                && r == Normal(Some(Plain("Schema " + SchemaName(data) + " is unknown"))) && order == []
                && (conn != null ==> conn.saved == old(conn.saved))
      ensures SchemaName(data) in schemas ==>
                && (forall i :: 0 <= i < |order| ==> order[i] in data)
                && (forall i, j :: 0 <= i < j < |order| ==> order[i] != order[j])
      ensures SchemaName(data) in schemas && Checked(schemas[SchemaName(data)], data, order) == Normal(None) ==>
                && Enumerates(order, data.Keys)
                && (conn != null ==> conn.saved == old(conn.saved) + [data] && r == Normal(conn.saveReply))
                && (conn == null ==> r == Panic(NilDereference))
      ensures SchemaName(data) in schemas && Checked(schemas[SchemaName(data)], data, order) != Normal(None) ==>
                (conn != null ==> conn.saved == old(conn.saved)) && r == Checked(schemas[SchemaName(data)], data, order)
      ensures conn != null && conn.saved != old(conn.saved) ==>
                SchemaName(data) in schemas &&
                forall key :: key in data ==> schemas[SchemaName(data)].Verdict(key, data[key]) == Normal(None)
    {
      var schemaName := SchemaName(data);
      if schemaName !in schemas {
        return Normal(Some(Plain("Schema " + schemaName + " is unknown"))), [];
      }
      var schema := schemas[schemaName];
      var verdict;
      verdict, order := CheckAll(schema, data);
      if verdict != Normal(None) {
        return verdict, order;
      }
      EnumerationCovers(order, data.Keys);
      if conn == null {
        return Panic(NilDereference), order;
      }
      var err := conn.Save(ctx, data, schema);
      r := Normal(err);
      CheckedPasses(schema, data, order);
    }

    /** The loop of `Save`: checks the pairs of `data` against `schema` in
        an order Go leaves open, stopping at the first failure. `order` is
        the keys visited, the failing one last; when no pair fails it lists
        every key. */
    method CheckAll(schema: Schema, data: map<string, string>) returns (verdict: Outcome<Option<Error>>, ghost order: seq<string>)
      ensures forall i :: 0 <= i < |order| ==> order[i] in data
      ensures forall i, j :: 0 <= i < j < |order| ==> order[i] != order[j]
      ensures verdict == Checked(schema, data, order)
      ensures verdict == Normal(None) ==> Enumerates(order, data.Keys)
    {
      var rest := data.Keys;
      order := [];
      while rest != {}
        invariant Visiting(order, rest, data.Keys)
        invariant Checked(schema, data, order) == Normal(None)
        decreases |rest|
      {
        var key :| key in rest;
        verdict := schema.CheckValue(key, data[key]);
        CheckedSnoc(schema, data, order, key);
        order := order + [key];
        rest := rest - {key};
        if verdict != Normal(None) {
          return;
        }
      }
      verdict := Normal(None);
    }

    /** `LoadSlice(ctx, ids...)`: loads each id, collecting the objects
        that loaded and the errors of those that did not; the errors come
        back as one multi-error, nil when there are none. Without a
        connection the first load panics. */
    method LoadSlice(ctx: Contexts.Context, ids: seq<string>) returns (r: Outcome<(seq<map<string, string>>, Option<Error>)>)
      ensures conn == null ==> r == if ids == [] then Normal(([], None)) else Panic(NilDereference)
      ensures conn != null ==> r.Normal? && r.value.0 == Loaded(conn.load, ids)
      ensures conn != null ==> (r.value.1 == None <==> Aux.Collect(LoadErrors(conn.load, ids)) == [])
      ensures conn != null && r.value.1.Some? ==> r.value.1.value == Multi(Aux.Collect(LoadErrors(conn.load, ids)))
    {
      if conn == null {
        if ids == [] {
          return Normal(([], None));
        }
        return Panic(NilDereference);
      }
      var me := new Aux.MultiError();
      var result := [];
      for i := 0 to |ids|
        invariant result == Loaded(conn.load, ids[..i])
        invariant me.errors == Aux.Collect(LoadErrors(conn.load, ids[..i]))
      {
        var (current, e) := conn.load(ids[i]);
        assert ids[..i + 1][..i] == ids[..i];
        assert LoadErrors(conn.load, ids[..i + 1]) == LoadErrors(conn.load, ids[..i]) + [e];
        Aux.CollectSnoc(LoadErrors(conn.load, ids[..i]), e);
        if e != None {
          var _ := me.Append(e);
          continue;
        }
        result := result + [current];
      }
      assert ids[..|ids|] == ids;
      var err := me.ErrorOrNil();
      r := Normal((result, err));
    }
  }

  /** Checking one more pair after a run of passes. */
  lemma {:induction false} CheckedSnoc(s: Schema, data: map<string, string>, order: seq<string>, key: string)
    requires forall i :: 0 <= i < |order| ==> order[i] in data
    requires key in data
    requires Checked(s, data, order) == Normal(None)
    ensures Checked(s, data, order + [key]) == s.Verdict(key, data[key])
    decreases |order|
  {
    if order == [] {
      assert [key][1..] == [];
    } else {
      assert (order + [key])[1..] == order[1..] + [key];
      CheckedSnoc(s, data, order[1..], key);
    }
  }

  /** A run of checks that all passed passed on every pair it visited. */
  lemma {:induction false} CheckedPasses(s: Schema, data: map<string, string>, order: seq<string>)
    requires forall i :: 0 <= i < |order| ==> order[i] in data
    requires Checked(s, data, order) == Normal(None)
    ensures forall i :: 0 <= i < |order| ==> s.Verdict(order[i], data[order[i]]) == Normal(None)
    decreases |order|
  {
    if order != [] {
      CheckedPasses(s, data, order[1..]);
      forall i | 0 < i < |order|
        ensures s.Verdict(order[i], data[order[i]]) == Normal(None)
      {
        assert order[i] == order[1..][i - 1];
      }
    }
  }
}
