/** `aux.MultiError`: an append-only list of errors that is itself an
    error. Only another `*MultiError` can be merged into it; a nil result
    stands for "no error recorded". */
module Aux {
  import opened GoRuntime
  import opened Errors
  import GoStrings

  /** The errors `Merge(err)` splices in: those of a multi-error, none for
      nil or any other error. */
  function Merged(err: Option<Error>): (r: seq<Error>)
    ensures err.Some? && err.value.Multi? ==> r == err.value.errors
    ensures !(err.Some? && err.value.Multi?) ==> r == []
  {
    if err.Some? && err.value.Multi? then err.value.errors else []
  }

  class MultiError {
    var errors: seq<Error>

    /** The zero value `var me aux.MultiError`. */
    constructor ()
      ensures errors == []
    {
      errors := [];
    }

    /** `Append`: a nil error is dropped, any other error goes to the end;
        the receiver is returned. */
    method Append(err: Option<Error>) returns (r: MultiError)
      modifies this
      ensures r == this
      ensures err == None ==> errors == old(errors)
      ensures err.Some? ==> errors == old(errors) + [err.value]
    {
      if err.Some? {
        errors := errors + [err.value];
      }
      r := this;
    }

    /** `AppendString`: one new error whose text is `message`. */
    method AppendString(message: string) returns (r: MultiError)
      modifies this
      ensures r == this
      ensures errors == old(errors) + [Plain(message)]
      ensures Message(errors[|errors| - 1]) == message
    {
      r := Append(Some(Plain(message)));
    }

    /** `Merge`: splices in the errors of a multi-error, in order; a nil
        error and every other kind of error change nothing. */
    method Merge(err: Option<Error>)
      modifies this
      ensures errors == old(errors) + Merged(err)
    {
      if err.Some? && err.value.Multi? {
        errors := errors + err.value.errors;
      }
    }

    /** `ErrorOrNil`: nil exactly when nothing was recorded, otherwise the
        receiver itself. */
    function ErrorOrNil(): (r: Option<Error>)
      reads this
      ensures r == None <==> errors == []
      ensures r.Some? ==> r.value == Multi(errors)
    {
      if errors == [] then None else Some(Multi(errors))
    }

    /** `Error()`: builds the text in a buffer, writing the prefix when
        there are at least two errors and ", " after all but the last. */
    method Error() returns (text: string)
      ensures text == Message(Multi(errors))
    {
      var l := |errors| - 1;
      var buffer := "";
      if l > 0 {
        buffer := MultiplePrefix;
      }
      ghost var prefix := buffer;
      ghost var msgs := Messages(errors);
      for i := 0 to |errors|
        invariant buffer == Written(prefix, msgs, i, MultiSeparator)
      {
        buffer := buffer + Message(errors[i]);
        if i < l {
          buffer := buffer + MultiSeparator;
        }
      }
      WrittenJoin(prefix, msgs, MultiSeparator);
      text := buffer;
    }
  }

  /** What the loop of `Error()` has written after n elements, starting
      from `head`: each part followed by the separator unless it is the
      last one. */
  function Written(head: string, parts: seq<string>, n: nat, sep: string): (r: string)
    requires n <= |parts|
  {
    if n == 0 then head else Written(head, parts, n - 1, sep) + parts[n - 1] + (if n < |parts| then sep else "")
  }

  /** After every element the loop has written the head and then exactly
      the joined parts. */
  lemma WrittenJoin(head: string, parts: seq<string>, sep: string)
    ensures Written(head, parts, |parts|, sep) == head + GoStrings.Join(parts, sep)
  {
    if |parts| > 0 {
      WrittenPrefix(head, parts, |parts|, sep);
      assert parts[..|parts|] == parts;
    }
  }

  lemma {:induction false} WrittenPrefix(head: string, parts: seq<string>, n: nat, sep: string)
    requires 1 <= n <= |parts|
    ensures Written(head, parts, n, sep) == head + GoStrings.Join(parts[..n], sep) + (if n < |parts| then sep else "")
  {
    if n > 1 {
      WrittenPrefix(head, parts, n - 1, sep);
      assert parts[..n] == parts[..n - 1] + [parts[n - 1]];
      GoStrings.JoinSnoc(parts[..n - 1], parts[n - 1], sep);
    } else {
      assert parts[..1] == [parts[0]];
    }
  }

  /** Recording errors one by one and then asking for the error: nil iff
      every appended error was nil, otherwise exactly the non-nil ones in
      order. */
  function Collect(errs: seq<Option<Error>>): (r: seq<Error>)
    ensures |r| <= |errs|
    ensures r == [] <==> forall i :: 0 <= i < |errs| ==> errs[i] == None
  {
    if |errs| == 0 then []
    else (if errs[0].Some? then [errs[0].value] else []) + Collect(errs[1..])
  }

  method AppendAll(me: MultiError, errs: seq<Option<Error>>)
    modifies me
    ensures me.errors == old(me.errors) + Collect(errs)
  {
    var i := 0;
    while i < |errs|
      invariant 0 <= i <= |errs|
      invariant me.errors == old(me.errors) + Collect(errs[..i])
    {
      CollectSnoc(errs[..i], errs[i]);
      assert errs[..i + 1] == errs[..i] + [errs[i]];
      var _ := me.Append(errs[i]);
      i := i + 1;
    }
    assert errs[..i] == errs;
  }

  lemma {:induction false} CollectSnoc(errs: seq<Option<Error>>, e: Option<Error>)
    ensures Collect(errs + [e]) == Collect(errs) + (if e.Some? then [e.value] else [])
  {
    if |errs| > 0 {
      assert (errs + [e])[1..] == errs[1..] + [e];
      CollectSnoc(errs[1..], e);
    }
  }
}
