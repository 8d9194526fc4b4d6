/** `WrapperHandler`: a configured handler that puts a list of middleware
    in front of another handler. Its `InitFunc` hook builds the chain;
    `Retry` refuses every retry. */
module UseHandler {
  import opened GoRuntime
  import opened Errors
  import opened Middleware

  class WrapperHandler {
    /** `Wrapper []wrapper.Handler` (tag `wrapper,mandatory`). */
    var wrappers: seq<Handler>
    /** What `Handler.HandlerFunc()` returns for the configured
        `ProvidesHandler` (tag `handler,mandatory`); `None` when the field
        is nil, as it stays when the configuration names no handler
        (`mandatory` is only logged). */
    var handler: Option<HttpHandler>
    /** The built chain `w`; `None` before `InitFunc` (a nil pointer). */
    var w: Option<Wrapper>

    constructor (wrappers: seq<Handler>, handler: Option<HttpHandler>)
      ensures this.wrappers == wrappers && this.handler == handler && w == None
    {
      this.wrappers := wrappers;
      this.handler := handler;
      w := None;
    }

    /** `InitFunc`: copy the middleware into a slice one longer, put the
        wrapped handler last and build the chain from it; the error is
        always nil. A nil `Handler` field is dereferenced after the copy,
        so `InitFunc` then panics and `w` is not set. */
    method InitFunc() returns (r: Outcome<Option<Error>>)
      modifies this
      ensures handler.None? ==> r == Panic(NilDereference) && w == old(w)
      ensures handler.Some? ==> r == Normal(None) && w == Some(Build(wrappers + [Wrapped(handler.value)]))
      ensures wrappers == old(wrappers) && handler == old(handler)
    {
      var ws := wrappers;
      var n := |ws|;
      var args := new Handler[n + 1];
      for i := 0 to n
        invariant args[..i] == ws[..i]
        invariant unchanged(this)
      {
        args[i] := ws[i];
      }
      if handler.None? {
        return Panic(NilDereference);
      }
      args[n] := Wrapped(handler.value);
      assert args[..] == ws + [Wrapped(handler.value)];
      w := Some(Build(args[..]));
      r := Normal(None);
    }

    /** `Retry` is always false: a failed `InitFunc` is never re-run. */
    method Retry() returns (again: bool)
      ensures !again
    {
      again := false;
    }

    /** `HandlerFunc`: the chain as an `http.Handler`; before `InitFunc`
        it is the nil `*Wrapper`. */
    function HandlerFunc(): (h: HttpHandler)
      reads this
      ensures w.None? <==> h == NilChain
    {
      if w.Some? then Chain(w.value) else NilChain
    }
  }

  /** After `InitFunc`, serving the handler runs the middleware in order
      and the wrapped handler last, when all of them pass the request on. */
  lemma ServesThroughChain(wrappers: seq<Handler>, handler: HttpHandler)
    requires forall i :: 0 <= i < |wrappers| ==> Passes(wrappers[i])
    requires ServeHttp(handler).Normal?
    ensures ServeHttp(Chain(Build(wrappers + [Wrapped(handler)])))
            == Normal(Traces(wrappers) + ServeHttp(handler).value)
  {
    var hs := wrappers + [Wrapped(handler)];
    assert forall i :: 0 <= i < |hs| ==> Passes(hs[i]);
    ServeRunsAllInOrder(hs);
    TracesSnoc(wrappers, Wrapped(handler));
  }

  /** A nil middleware in the configured list makes every request through
      the built handler panic once it reaches it. */
  lemma NilMiddlewarePanics(wrappers: seq<Handler>, handler: HttpHandler, j: nat)
    requires j < |wrappers| && wrappers[j].NilHandler?
    requires forall i :: 0 <= i < j ==> Passes(wrappers[i])
    ensures ServeHttp(Chain(Build(wrappers + [Wrapped(handler)]))) == Panic(NilDereference)
  {
    ServePanicsAtNil(wrappers + [Wrapped(handler)], j);
  }

  lemma {:induction false} TracesSnoc(hs: seq<Handler>, h: Handler)
    requires forall i :: 0 <= i < |hs| ==> Passes(hs[i])
    requires Passes(h)
    ensures Traces(hs + [h]) == Traces(hs) + OwnTrace(h)
    decreases |hs|
  {
    if |hs| > 0 {
      assert (hs + [h])[1..] == hs[1..] + [h];
      TracesSnoc(hs[1..], h);
    }
  }
}
