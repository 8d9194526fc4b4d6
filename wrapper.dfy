/** The middleware chain of package `wrapper`: a linked list of nodes,
    each holding a chain handler and the next node. Serving a request
    runs the first node's handler with `next` bound to the rest of the
    chain. The request and response are abstracted away; what serving
    produces is the trace of handlers that ran, in order. */
module Middleware {
  import opened GoRuntime

  /** What a handler records when it runs. */
  datatype Event = Entered(name: string) | Served(name: string)

  /** A `wrapper.Handler`: the no-op func `build` puts at the end, a
      plain `http.Handler` made into a chain handler by `Wrap`, any other
      middleware, abstracted as one that records its name and then calls
      `next` or not, or the nil interface (what a configured middleware
      name the scope does not know leaves in the slice). */
  datatype Handler =
    | NoOp
    | Wrapped(inner: HttpHandler)
    | Custom(name: string, passes: bool)
    | NilHandler

  /** An `http.Handler`: an endpoint, a `*Wrapper` (which serves HTTP
      itself), or a nil `*Wrapper`. */
  datatype HttpHandler =
    | Endpoint(name: string)
    | Chain(chain: Wrapper)
    | NilChain

  /** A `*Wrapper` node; `Blank` is the zero `&Wrapper{}` whose handler is
      nil. */
  datatype Wrapper = Node(handler: Handler, next: Wrapper) | Blank

  /** Sequencing of two calls: the second runs only when the first
      returned normally. */
  function Then(a: Outcome<seq<Event>>, b: Outcome<seq<Event>>): (r: Outcome<seq<Event>>)
    ensures a.Panic? ==> r == a
    ensures a.Normal? && b.Normal? ==> r == Normal(a.value + b.value)
  {
    if a.Panic? then a else if b.Panic? then b else Normal(a.value + b.value)
  }

  /** `(*Wrapper).ServeHTTP`: run the node's handler with `next` bound to
      the next node's `ServeHTTP`; calling `ServeChain` on a nil handler
      dereferences nil. */
  function Serve(w: Wrapper): Outcome<seq<Event>>
    decreases w
  {
    match w
    case Blank => Panic(NilDereference)
    case Node(NilHandler, _) => Panic(NilDereference)
    case Node(NoOp, _) => Normal([])
    case Node(Wrapped(inner), next) => Then(ServeHttp(inner), Serve(next))
    case Node(Custom(name, passes), next) =>
      if passes then Then(Normal([Entered(name)]), Serve(next)) else Normal([Entered(name)])
  }

  /** `http.Handler.ServeHTTP`. */
  function ServeHttp(h: HttpHandler): Outcome<seq<Event>>
    decreases h
  {
    match h
    case Endpoint(name) => Normal([Served(name)])
    case Chain(w) => Serve(w)
    case NilChain => Panic(NilDereference)
  }

  /** `build`: one node per handler, in order, ending in a node with the
      no-op handler whose `next` is a blank wrapper. `New(handlers...)`
      is `build(handlers)`. */
  function Build(handlers: seq<Handler>): Wrapper
    decreases |handlers|
  {
    if |handlers| == 0 then Node(NoOp, Blank) else Node(handlers[0], Build(handlers[1..]))
  }

  /** The handlers of the nodes up to the blank end, in order. */
  function Handlers(w: Wrapper): (hs: seq<Handler>)
    ensures w.Node? ==> |hs| >= 1 && hs[0] == w.handler
    decreases w
  {
    if w.Blank? then [] else [w.handler] + Handlers(w.next)
  }

  /** The built chain has one node per handler plus the no-op end. */
  lemma {:induction false} BuildShape(handlers: seq<Handler>)
    ensures Handlers(Build(handlers)) == handlers + [NoOp]
    ensures |Handlers(Build(handlers))| == |handlers| + 1
    decreases |handlers|
  {
    if |handlers| > 0 {
      BuildShape(handlers[1..]);
      assert handlers == [handlers[0]] + handlers[1..];
    }
  }

  /** A handler that neither panics nor stops the chain. */
  ghost predicate Passes(h: Handler) {
    (h.Custom? && h.passes) || (h.Wrapped? && ServeHttp(h.inner).Normal?)
  }

  /** What a passing handler records. */
  function OwnTrace(h: Handler): seq<Event>
    requires Passes(h)
  {
    if h.Custom? then [Entered(h.name)] else ServeHttp(h.inner).value
  }

  /** The traces of handlers run one after another. */
  function Traces(handlers: seq<Handler>): seq<Event>
    requires forall i :: 0 <= i < |handlers| ==> Passes(handlers[i])
    decreases |handlers|
  {
    if |handlers| == 0 then [] else OwnTrace(handlers[0]) + Traces(handlers[1..])
  }

  /** When every handler passes the request on, serving the built chain
      runs all of them in order and ends at the no-op: the blank end is
      never reached. */
  lemma {:induction false} ServeRunsAllInOrder(handlers: seq<Handler>)
    requires forall i :: 0 <= i < |handlers| ==> Passes(handlers[i])
    ensures Serve(Build(handlers)) == Normal(Traces(handlers))
    decreases |handlers|
  {
    if |handlers| > 0 {
      ServeRunsAllInOrder(handlers[1..]);
    }
  }

  /** A middleware that does not call `next` ends the chain there: the
      handlers before it run, it records its entry, and none after it runs. */
  lemma {:induction false} ServeStopsAt(handlers: seq<Handler>, j: nat)
    requires j < |handlers| && handlers[j].Custom? && !handlers[j].passes
    requires forall i :: 0 <= i < j ==> Passes(handlers[i])
    ensures Serve(Build(handlers)) == Normal(Traces(handlers[..j]) + [Entered(handlers[j].name)])
    decreases j
  {
    if j > 0 {
      ServeStopsAt(handlers[1..], j - 1);
      var rest := Traces(handlers[1..][..j - 1]) + [Entered(handlers[j].name)];
      assert Serve(Build(handlers)) == Normal(OwnTrace(handlers[0]) + rest);
      assert handlers[1..][..j - 1] == handlers[..j][1..];
      assert Traces(handlers[..j]) == OwnTrace(handlers[0]) + Traces(handlers[1..][..j - 1]);
      assert Traces(handlers[..j]) + [Entered(handlers[j].name)] == OwnTrace(handlers[0]) + rest;
    } else {
      assert handlers[..j] == [];
      assert Build(handlers) == Node(handlers[0], Build(handlers[1..]));
      assert Traces(handlers[..j]) == [];
      assert Serve(Build(handlers)) == Normal([Entered(handlers[0].name)]);
      assert Traces(handlers[..j]) + [Entered(handlers[j].name)] == [Entered(handlers[0].name)];
    }
  }

  /** A nil middleware panics when the request reaches it: the handlers
      before it run, and then serving the chain dereferences nil. */
  lemma {:induction false} ServePanicsAtNil(handlers: seq<Handler>, j: nat)
    requires j < |handlers| && handlers[j].NilHandler?
    requires forall i :: 0 <= i < j ==> Passes(handlers[i])
    ensures Serve(Build(handlers)) == Panic(NilDereference)
    decreases j
  {
    if j > 0 {
      ServePanicsAtNil(handlers[1..], j - 1);
    }
  }

  /** `Wrap(h)` serves `h` and then always calls `next`. */
  lemma WrapCallsNext(h: HttpHandler, next: Wrapper)
    requires ServeHttp(h).Normal? && Serve(next).Normal?
    ensures Serve(Node(Wrapped(h), next)) == Normal(ServeHttp(h).value + Serve(next).value)
  {
  }
}
