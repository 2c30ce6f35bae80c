/** `WebApiServer`: one `WebApi` endpoint per connected socket, and the broadcast that
    calls all of them and collects their results. */
module Server {
  import opened JsValues
  import opened Middleware
  import opened Protocol

  /** How one handler's race in `emitHandler` settled: its own call returned first, or
      the `emitTimeout` timer fired first. `TimedOut` also covers a handler whose call
      was rejected, where the unhandled rejection of the promise executor does not end
      the process: the timer then settles that handler's slot. */
  datatype Settled = Returned(ret: Value) | TimedOut

  /** An element of the `promises` array once settled: `{ ret, timeout, hid }`. */
  datatype Row = Row(hid: string, timeout: bool, ret: Value)

  function RowFor(hid: string, s: Settled): Row {
    match s
    case Returned(v) => Row(hid, false, v)
    case TimedOut => Row(hid, true, Undefined)
  }

  /** The value a handler contributes to the broadcast result: `null` on a timeout. */
  function SlotValue(s: Settled): Value {
    match s
    case Returned(v) => v
    case TimedOut => Null
  }

  /** The handler ids that occur in a list of rows. */
  function Hids(rows: seq<Row>): set<string> {
    set j | 0 <= j < |rows| :: rows[j].hid
  }

  lemma HidsSnoc(rows: seq<Row>, row: Row)
    ensures Hids(rows + [row]) == Hids(rows) + {row.hid}
  {
    var longer := rows + [row];
    assert longer[|rows|].hid == row.hid;
    forall h | h in Hids(rows)
      ensures h in Hids(longer)
    {
      var j :| 0 <= j < |rows| && rows[j].hid == h;
      assert longer[j] == rows[j];
    }
  }

  class WebApiServer {
    /** The `prefix` option the server hands to every endpoint it creates. */
    const prefix: Option<string>
    /** `tools.isGUID` */
    const isGuid: Value -> bool
    /** `this.handlers`, keyed by `socket.id` */
    var handlers: map<string, WebApi>
    var middlewaresInc: MiddlewareList
    var middlewaresOut: MiddlewareList

    constructor (prefix: Option<string>, isGuid: Value -> bool)
      ensures this.prefix == prefix && this.isGuid == isGuid
      ensures handlers == map[]
      ensures fresh(middlewaresInc) && fresh(middlewaresOut) && middlewaresInc != middlewaresOut
      ensures middlewaresInc.fns == [] && middlewaresOut.fns == []
    {
      this.prefix := prefix;
      this.isGuid := isGuid;
      handlers := map[];
      middlewaresInc := new MiddlewareList();
      middlewaresOut := new MiddlewareList();
    }

    method RegisterMiddlewareInc(fn: Middleware)
      modifies middlewaresInc
      ensures middlewaresInc.fns == old(middlewaresInc.fns) + [fn]
    {
      middlewaresInc.Push(fn);
    }

    method RegisterMiddlewareOut(fn: Middleware)
      modifies middlewaresOut
      ensures middlewaresOut.fns == old(middlewaresOut.fns) + [fn]
    {
      middlewaresOut.Push(fn);
    }

    /** `registerHandler(socket)` on a new connection: a fresh server-role endpoint that
        shares the server's two middleware lists is recorded under the socket's id; every
        other entry stays as it was. */
    method RegisterHandler(socketId: string)
      modifies this`handlers
      ensures handlers.Keys == old(handlers).Keys + {socketId}
      ensures forall hid :: hid in old(handlers) && hid != socketId ==> handlers[hid] == old(handlers)[hid]
      ensures fresh(handlers[socketId])
      ensures handlers[socketId].isServer
      ensures handlers[socketId].names == EventNames.NamesFor(EventNames.PrefixOf(prefix), true)
      ensures handlers[socketId].isGuid == isGuid
      ensures handlers[socketId].middlewaresInc == middlewaresInc
      ensures handlers[socketId].middlewaresOut == middlewaresOut
      ensures handlers[socketId].trace == []
    {
      var inst := new WebApi(true, prefix, isGuid);
      inst.middlewaresInc := middlewaresInc;
      inst.middlewaresOut := middlewaresOut;
      handlers := handlers[socketId := inst];
    }

    /** `unRegisterHandelr(socket)` on disconnect: removes exactly that socket's entry,
        and changes nothing when it is absent. */
    method UnregisterHandler(socketId: string)
      modifies this`handlers
      ensures handlers == old(handlers) - {socketId}
      ensures socketId !in old(handlers) ==> handlers == old(handlers)
    {
      handlers := handlers - {socketId};
    }

    /** `emitHandler(name, options, ...args)`: nothing when the event came over from an
        endpoint (`options.fromMapper`); otherwise one entry per registered handler,
        the value its call returned, or `null` when the timeout won that handler's race.
        `settle(hid, name, args)` says how the race of handler `hid` settled. */
    method EmitHandler(name: string, fromMapper: bool, args: seq<Value>,
                       settle: (string, string, seq<Value>) -> Settled)
      returns (r: Option<map<string, Value>>)
      ensures r.Some? <==> !fromMapper
      ensures r.Some? ==> r.value.Keys == handlers.Keys
      ensures r.Some? ==> forall hid :: hid in r.value ==> r.value[hid] == SlotValue(settle(hid, name, args))
    {
      if fromMapper {
        return None;
      }
      var promises: seq<Row> := [];
      var pending := handlers.Keys;
      ghost var seen: set<string> := {};
      while pending != {}
        invariant pending !! seen && pending + seen == handlers.Keys
        invariant Hids(promises) == seen
        invariant forall j :: 0 <= j < |promises| ==>
          promises[j] == RowFor(promises[j].hid, settle(promises[j].hid, name, args))
        decreases pending
      {
        var hid :| hid in pending;
        HidsSnoc(promises, RowFor(hid, settle(hid, name, args)));
        promises := promises + [RowFor(hid, settle(hid, name, args))];
        pending := pending - {hid};
        seen := seen + {hid};
      }
      var ret: map<string, Value> := map[];
      for i := 0 to |promises|
        invariant ret.Keys == Hids(promises[..i])
        invariant forall hid :: hid in ret ==> ret[hid] == SlotValue(settle(hid, name, args))
      {
        var row := promises[i];
        assert promises[..i + 1] == promises[..i] + [row];
        HidsSnoc(promises[..i], row);
        ret := ret[row.hid := if row.timeout then Null else row.ret];
      }
      assert promises[..|promises|] == promises;
      r := Some(ret);
    }
  }
}
