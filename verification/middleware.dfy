/** The middleware chains `middlewaresInc` / `middlewaresOut` and the loop that runs them. */
module Middleware {
  import opened JsValues

  /** A middleware `mwFn(packet, socket, isCmd)`: it receives the current packet and
      the direction flag (true on the command path, false on the return path) and
      resolves to the packet the next middleware receives. `null` is a value like any
      other: the chain goes on and hands it to the next middleware. */
  type Middleware = (Value, bool) -> Value

  /** The packet the chain ends with: each middleware, in registration order,
      receives the previous one's result (a left fold). */
  function RunChain(fns: seq<Middleware>, packet: Value, isCmd: bool): Value
    decreases |fns|
  {
    if fns == [] then packet
    else fns[|fns| - 1](RunChain(fns[..|fns| - 1], packet, isCmd), isCmd)
  }

  /** Running two chains one after the other is running their concatenation; in
      particular a registered middleware sees the result of all earlier ones, and
      once the chain reaches `null` the rest of it runs on `null`. */
  lemma {:induction false} RunChainAppend(a: seq<Middleware>, b: seq<Middleware>, packet: Value, isCmd: bool)
    ensures RunChain(a + b, packet, isCmd) == RunChain(b, RunChain(a, packet, isCmd), isCmd)
    decreases |b|
  {
    if b == [] {
      assert a + b == a;
    } else {
      var last := |b| - 1;
      assert (a + b)[..|a + b| - 1] == a + b[..last];
      assert (a + b)[|a + b| - 1] == b[last];
      RunChainAppend(a, b[..last], packet, isCmd);
    }
  }

  /** The first middleware registered is the first to see the packet. */
  lemma RunChainFirst(f: Middleware, rest: seq<Middleware>, packet: Value, isCmd: bool)
    ensures RunChain([f] + rest, packet, isCmd) == RunChain(rest, f(packet, isCmd), isCmd)
  {
    RunChainAppend([f], rest, packet, isCmd);
    assert [f][..0] == [];
  }

  /** `await tools.iterate(fns, async (mwFn) => packet = await mwFn(packet, socket, isCmd))` */
  method Iterate(fns: seq<Middleware>, packet: Value, isCmd: bool) returns (r: Value)
    ensures r == RunChain(fns, packet, isCmd)
  {
    r := packet;
    for i := 0 to |fns|
      invariant r == RunChain(fns[..i], packet, isCmd)
    {
      assert fns[..i + 1][..i] == fns[..i];
      r := fns[i](r, isCmd);
    }
    assert fns[..|fns|] == fns;
  }

  /** A middleware array that `registerMiddlewareInc/Out` push onto in place. It is an
      object so that a server and the endpoints it creates can share one. */
  class MiddlewareList {
    var fns: seq<Middleware>

    constructor ()
      ensures fns == []
    {
      fns := [];
    }

    /** `this.middlewares.push(fn)`: the new middleware runs after all earlier ones. */
    method Push(fn: Middleware)
      modifies this
      ensures fns == old(fns) + [fn]
      ensures forall p, isCmd :: RunChain(fns, p, isCmd) == fn(RunChain(old(fns), p, isCmd), isCmd)
    {
      fns := fns + [fn];
      assert fns[..|fns| - 1] == old(fns);
    }
  }
}
