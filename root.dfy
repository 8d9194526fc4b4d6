/** `Vanilla`, the plain stored object of package `model`: its fields by
    name, read as strings or integers and rendered as a flat JSON-like
    object. Keys and values are written as they are, without escaping. */
module Vanillas {
  import opened GoRuntime
  import opened MachineInts
  import opened GoStrings
  import opened StrConv

  /** `Vanilla{Schema, Data}`; the schema pointer plays no part in these
      operations. */
  datatype Vanilla = Vanilla(data: map<string, string>)

  /** `v.Data[name]`: the field, or "" when there is none. */
  function Field(v: Vanilla, name: string): (r: string)
    ensures name in v.data ==> r == v.data[name]
    ensures name !in v.data ==> r == ""
  {
    if name in v.data then v.data[name] else ""
  }

  /** `Label`: the `_label` field. */
  function Label(v: Vanilla): (r: string)
    ensures "_label" in v.data ==> r == v.data["_label"]
    ensures "_label" !in v.data ==> r == ""
  {
    Field(v, "_label")
  }

  /** `ID`: the `_id` field. */
  function ID(v: Vanilla): (r: string)
    ensures "_id" in v.data ==> r == v.data["_id"]
    ensures "_id" !in v.data ==> r == ""
  {
    Field(v, "_id")
  }

  /** `String(name)`: the field as it is stored. */
  function String(v: Vanilla, name: string): (r: string)
    ensures name in v.data ==> r == v.data[name]
    ensures name !in v.data ==> r == ""
  {
    Field(v, name)
  }

  /** `Int(name)`: `strconv.Atoi` of the field, its error dropped. The
      value is what `ParseInt` gives: the number for a decimal that fits,
      the bound on its side for one that does not, 0 for an empty body. */
  function Int(v: Vanilla, name: string): (r: int)
    ensures r == ParseInt(Field(v, name)).0
    ensures var s := Field(v, name);
            SignedBody(s) != "" && AllDigits(SignedBody(s)) ==>
              r == if InSigned(SignedValue(s), W64) then SignedValue(s)
                   else if Negative(s) then MinInt64 else MaxInt64
    ensures SignedBody(Field(v, name)) == "" ==> r == 0
  {
    var s := Field(v, name);
    AtoiAgreesWithParseInt(s);
    ParseIntAccepts(s);
    if SignedBody(s) != "" && AllDigits(SignedBody(s)) && !InSigned(SignedValue(s), W64) then
      ParseIntSaturates(s);
      Atoi(s).0
    else
      Atoi(s).0
  }

  /** What the loop writes for an entry before the closing quote:
      `"key":"value`. */
  function Opening(key: string, value: string): string {
    "\"" + key + "\":\"" + value
  }

  /** One written member: `"key":"value"`. */
  function Member(key: string, value: string): string {
    Opening(key, value) + "\""
  }

  /** The members for `fields`, in that order. */
  function Members(v: Vanilla, fields: seq<string>): (r: seq<string>)
    ensures |r| == |fields|
    ensures forall i :: 0 <= i < |fields| ==> r[i] == Member(fields[i], Field(v, fields[i]))
  {
    seq(|fields|, i requires 0 <= i < |fields| => Member(fields[i], Field(v, fields[i])))
  }

  lemma MembersSnoc(v: Vanilla, fields: seq<string>, f: string)
    ensures Members(v, fields + [f]) == Members(v, fields) + [Member(f, Field(v, f))]
  {
  }

  /** The object text: the members between braces, separated by commas. */
  function Object(members: seq<string>): string {
    "{" + Join(members, ",") + "}"
  }

  /** The buffer after some members, each closed by `",` when another is
      to follow and by `"` after the last. */
  function Pending(members: seq<string>, more: bool): string {
    "{" + Join(members, ",") + (if |members| > 0 && more then "," else "")
  }

  /** One iteration of the loop: the opening of a member and its closing. */
  lemma PendingStep(members: seq<string>, key: string, value: string, more: bool)
    ensures Pending(members + [Member(key, value)], more)
            == Pending(members, true) + Opening(key, value) + (if more then "\"," else "\"")
  {
    PendingClose(members, Opening(key, value), Member(key, value), more);
  }

  /** `PendingStep` for any opening `o` closed into the member `m`. */
  lemma PendingClose(members: seq<string>, o: string, m: string, more: bool)
    requires m == o + "\""
    ensures Pending(members + [m], more) == Pending(members, true) + o + (if more then "\"," else "\"")
  {
    var tail := if more then "," else "";
    JoinSnoc(members, m, ",");
    assert (if more then "\"," else "\"") == "\"" + tail;
    if |members| == 0 {
      calc {
        Pending(members + [m], more);
        "{" + m + tail;
        "{" + (o + "\"") + tail;
        { ConcatAssoc("{", o + "\"", tail); ConcatAssoc(o, "\"", tail); ConcatAssoc("{", o, "\"" + tail); }
        "{" + o + ("\"" + tail);
      }
      assert Pending(members, true) == "{";
    } else {
      var j := Join(members, ",");
      calc {
        Pending(members + [m], more);
        "{" + (j + "," + m) + tail;
        { ConcatAssoc("{", j + ",", m); }
        "{" + (j + ",") + (o + "\"") + tail;
        { ConcatAssoc("{" + (j + ","), o, "\""); }
        "{" + (j + ",") + o + "\"" + tail;
        { ConcatAssoc("{" + (j + ",") + o, "\"", tail); ConcatAssoc("{", j, ","); }
        "{" + j + "," + o + ("\"" + tail);
      }
      assert Pending(members, true) == "{" + j + ",";
    }
  }

  lemma ConcatAssoc(a: string, b: string, c: string)
    ensures (a + b) + c == a + (b + c)
  {
  }

  /** `JsonPartial(fields...)`: writes the members into a buffer, closing
      each value with `",` while the countdown `i` is positive and with `"`
      after the last. */
  method JsonPartial(v: Vanilla, fields: seq<string>) returns (b: string)
    ensures b == Object(Members(v, fields))
  {
    b := "{";
    var i := |fields|;
    for k := 0 to |fields|
      invariant i == |fields| - k
      invariant b == Pending(Members(v, fields[..k]), i > 0)
    {
      var value := Field(v, fields[k]);
      PendingStep(Members(v, fields[..k]), fields[k], value, i - 1 > 0);
      MembersSnoc(v, fields[..k], fields[k]);
      assert fields[..k + 1] == fields[..k] + [fields[k]];
      b := b + Opening(fields[k], value);
      i := i - 1;
      if i > 0 {
        b := b + "\",";
      } else {
        b := b + "\"";
      }
    }
    assert fields[..|fields|] == fields;
    b := b + "}";
  }

  /** `Json()`: the same writing loop over every entry of `Data`, in the
      order Go's `range` takes; `order` is the order this run took. */
  method Json(v: Vanilla) returns (b: string, ghost order: seq<string>)
    ensures Enumerates(order, v.data.Keys)
    ensures b == Object(Members(v, order))
  {
    b := "{";
    var i := |v.data|;
    var rest := v.data.Keys;
    order := [];
    while rest != {}
      invariant Visiting(order, rest, v.data.Keys)
      invariant i == |v.data| - |order|
      invariant b == Pending(Members(v, order), i > 0)
      decreases |rest|
    {
      var key :| key in rest;
      var value := v.data[key];
      PendingStep(Members(v, order), key, value, i - 1 > 0);
      MembersSnoc(v, order, key);
      b := b + Opening(key, value);
      i := i - 1;
      if i > 0 {
        b := b + "\",";
      } else {
        b := b + "\"";
      }
      order := order + [key];
      rest := rest - {key};
    }
    b := b + "}";
  }

  // ----------------------------------------------------------- properties

  /** With no fields, and for an object without data, the text is `{}`. */
  lemma EmptyObjects(v: Vanilla)
    ensures Object(Members(v, [])) == "{}"
    ensures v.data == map[] ==> forall order :: Enumerates(order, v.data.Keys) ==> Object(Members(v, order)) == "{}"
  {
    forall order | v.data == map[] && Enumerates(order, v.data.Keys)
      ensures Object(Members(v, order)) == "{}"
    {
      assert order == [];
    }
  }

  /** One more field adds a comma (unless it is the first) and its member
      before the closing brace; a missing field has an empty value. */
  lemma JsonPartialSnoc(v: Vanilla, fields: seq<string>, f: string)
    ensures Object(Members(v, fields + [f]))
            == "{" + Join(Members(v, fields), ",") + (if fields == [] then "" else ",") + Member(f, Field(v, f)) + "}"
  {
    MembersSnoc(v, fields, f);
    JoinSnoc(Members(v, fields), Member(f, Field(v, f)), ",");
  }

  /** `Json` writes every entry once: its text is `JsonPartial` of the
      keys in the order visited, and the i-th member holds the i-th key
      with its value. */
  lemma JsonIsPartialOfAllKeys(v: Vanilla, order: seq<string>)
    requires Enumerates(order, v.data.Keys)
    ensures |Members(v, order)| == |v.data|
    ensures forall key :: key in v.data ==>
              exists i :: 0 <= i < |order| && order[i] == key && Members(v, order)[i] == Member(key, v.data[key])
  {
    EnumerationCovers(order, v.data.Keys);
  }
}
