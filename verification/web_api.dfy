/** The per-connection protocol engine `WebApi`: outgoing commands, incoming commands,
    returns of outgoing commands, and replies to incoming commands. */
module Protocol {
  import opened JsValues
  import opened Packets
  import opened EventNames
  import opened Middleware

  /** Something an endpoint does that another party can observe. */
  datatype Effect =
    /** `socket.emit(event, packet)` */
    | Emit(event: string, packet: Value)
    /** `this.emitEx(name, true, { skipWebApiHandler: true, webApiPacketId }, ...args)`:
        the packet handed to the locally registered handlers */
    | Dispatch(name: Value, packetId: Value, args: seq<Value>)
    /** `socketEvents.emit(id, args)`: a return handed to whoever awaits `id` */
    | Deliver(id: Value, returned: Value)

  /** The packet `cmdHandler` builds before its outbound middleware runs. */
  function Request(guid: string, name: string, args: seq<Value>): Value {
    MakePacket(Str(guid), Str(name), Arr(args), Num(Version))
  }

  /** The reply `incomingCmdHandler` sends when the inbound chain ends in `null`. */
  function NullReply(id: Value, name: Value): Value {
    MakePacket(id, name, Null, Num(Version))
  }

  /** The `args` of a reply built from the handlers' result object: the sole value when
      the object has exactly one key, otherwise its values as an array in key order. */
  function ShapeArgs(ret: seq<(string, Value)>): Value {
    if |ret| == 1 then Get(Obj(ret), ret[0].0) else Arr(ObjectValues(ret))
  }

  lemma ShapeArgsMeaning(ret: seq<(string, Value)>)
    requires DistinctKeys(ret)
    ensures |ret| == 1 ==> ShapeArgs(ret) == ret[0].1
    ensures |ret| != 1 ==> && IsArray(ShapeArgs(ret))
                           && |ShapeArgs(ret).items| == |ret|
                           && forall i :: 0 <= i < |ret| ==> ShapeArgs(ret).items[i] == Get(Obj(ret), ret[i].0)
  {
    if |ret| == 1 {
      LookupListed(ret, 0);
    } else {
      forall i | 0 <= i < |ret|
        ensures ShapeArgs(ret).items[i] == Get(Obj(ret), ret[i].0)
      {
        LookupListed(ret, i);
      }
    }
  }

  /** What `cmdHandler(name, options, ...args)` does: nothing when the call is the
      dispatch of an incoming command (`skipWebApiHandler`), otherwise it sends the
      request, after the outbound chain, on `cmdToTarget`. */
  function CmdOutcome(names: Names, outFns: seq<Middleware>, skipWebApiHandler: bool,
                      name: string, args: seq<Value>, guid: string): (r: seq<Effect>)
    ensures skipWebApiHandler <==> r == []
    ensures !skipWebApiHandler ==> |r| == 1 && r[0].Emit? && r[0].event == names.cmdToTarget
    // the outbound chain receives the request first: without middleware it goes out as built
    ensures !skipWebApiHandler ==> r[0].packet == RunChain(outFns, Request(guid, name, args), true)
    ensures !skipWebApiHandler && outFns == [] ==>
      && Get(r[0].packet, "id") == Str(guid)
      && Get(r[0].packet, "name") == Str(name)
      && Get(r[0].packet, "args") == Arr(args)
      && Get(r[0].packet, "version") == Num(Version)
  {
    if skipWebApiHandler then []
    else [Emit(names.cmdToTarget, RunChain(outFns, Request(guid, name, args), true))]
  }

  /** What `incomingCmdHandler(packet)` does with a packet that arrived on `cmdFromTarget`. */
  function IncomingCmdOutcome(names: Names, isGuid: Value -> bool, incFns: seq<Middleware>,
                              packet: Value): (r: seq<Effect>)
    ensures |r| <= 1 && forall e :: e in r ==> !e.Deliver?
    // the gate runs before any middleware: an ill-formed packet is discarded silently
    ensures !WellFormed(isGuid, packet) ==> r == []
    // a chain that ends in null is answered with exactly one null reply
    ensures (r != [] && r[0].Emit?) <==>
      WellFormed(isGuid, packet) && RunChain(incFns, packet, true) == Null
    ensures r != [] && r[0].Emit? ==>
      && r[0].event == names.cmdFromTargetRet
      && Get(r[0].packet, "id") == Get(packet, "id")
      && Get(r[0].packet, "name") == Get(packet, "name")
      && Get(r[0].packet, "args") == Null
      && Get(r[0].packet, "version") == Num(Version)
    // dispatch happens exactly when the packet passes the gate before and after the chain
    ensures (r != [] && r[0].Dispatch?) <==>
      WellFormed(isGuid, packet) && WellFormed(isGuid, RunChain(incFns, packet, true))
    ensures r != [] && r[0].Dispatch? ==>
      var q := RunChain(incFns, packet, true);
      && r[0].name == Get(q, "name")
      && r[0].packetId == Get(q, "id")
      && r[0].args == SpreadArgs(Get(q, "args"))
  {
    if !WellFormed(isGuid, packet) then []
    else
      var q := RunChain(incFns, packet, true);
      if q == Null then [Emit(names.cmdFromTargetRet, NullReply(Get(packet, "id"), Get(packet, "name")))]
      else if !WellFormed(isGuid, q) then []
      else [Dispatch(Get(q, "name"), Get(q, "id"), SpreadArgs(Get(q, "args")))]
  }

  /** What `cmdReturnHandler(packet)` does with a packet that arrived on `cmdToTargetRet`.
      The guard is a conjunction: the packet is rejected only when its id is not a GUID
      and its version differs too. */
  function CmdReturnOutcome(isGuid: Value -> bool, incFns: seq<Middleware>, packet: Value): (r: seq<Effect>)
    ensures |r| <= 1 && forall e :: e in r ==> e.Deliver?
    ensures var q := RunChain(incFns, packet, false);
      r == [] <==> !IsObject(q) || (!isGuid(Get(q, "id")) && Get(q, "version") != Num(Version))
    ensures var q := RunChain(incFns, packet, false);
      r != [] ==> r[0].id == Get(q, "id") && r[0].returned == Get(q, "args")
  {
    var q := RunChain(incFns, packet, false);
    if !IsObject(q) then []
    else if !isGuid(Get(q, "id")) && Get(q, "version") != Num(Version) then []
    else [Deliver(Get(q, "id"), Get(q, "args"))]
  }

  /** What `incomingCmdReturnHandler(name, mwConfig, ret)` does after the local handlers
      of `name` returned `ret` for the command with id `packetId`. `name` is the value the
      command was dispatched under, any truthy `packet.name`, and is copied into the reply. */
  function IncomingCmdReturnOutcome(names: Names, outFns: seq<Middleware>, name: Value,
                                    packetId: Value, ret: Value): (r: seq<Effect>)
    ensures r == [] <==> !IsObject(ret) || !Truthy(packetId)
    ensures r != [] ==>
      && |r| == 1 && r[0].Emit? && r[0].event == names.cmdFromTargetRet
      && r[0].packet == RunChain(outFns, MakePacket(packetId, name, ShapeArgs(ret.entries), Num(Version)), false)
  {
    if !IsObject(ret) || !Truthy(packetId) then []
    else [Emit(names.cmdFromTargetRet,
               RunChain(outFns, MakePacket(packetId, name, ShapeArgs(ret.entries), Num(Version)), false))]
  }

  /** Without outbound middleware, the reply carries the command's id, the handler's
      name, the current version, and the result shaped by the one-key rule. */
  lemma ReplyShape(names: Names, name: Value, packetId: Value, ret: Value)
    requires IsObject(ret) && Truthy(packetId) && DistinctKeys(ret.entries)
    ensures var r := IncomingCmdReturnOutcome(names, [], name, packetId, ret);
      && |r| == 1
      && Get(r[0].packet, "id") == packetId
      && Get(r[0].packet, "name") == name
      && Get(r[0].packet, "version") == Num(Version)
      && (|ret.entries| == 1 ==> Get(r[0].packet, "args") == ret.entries[0].1)
      && (|ret.entries| != 1 ==> Get(r[0].packet, "args") == Arr(ObjectValues(ret.entries)))
  {
  }

  /** A return packet whose id is not a GUID is still delivered when its version is
      current, and one with a foreign version is delivered when its id is a GUID. */
  lemma ReturnGateIsConjunction(isGuid: Value -> bool, id: Value, args: Value, version: Value)
    requires !isGuid(id) <==> version == Num(Version)
    ensures CmdReturnOutcome(isGuid, [], MakePacket(id, Null, args, version)) == [Deliver(id, args)]
  {
  }

  /** A complete call between a client and a server that share a prefix and have no
      middleware: the request the client sends arrives where the server listens and is
      dispatched with the client's id, name and arguments; the server's reply to the
      handlers' result object arrives where the client listens and delivers, under the id
      the client awaits, the sole value of a one-key result and otherwise the array of
      the result's values in key order. */
  lemma CallRoundTrip(prefix: string, isGuid: Value -> bool, name: string,
                      args: seq<Value>, guid: string, ret: seq<(string, Value)>)
    requires isGuid(Str(guid)) && guid != "" && name != ""
    requires DistinctKeys(ret)
    ensures var client, server := NamesFor(prefix, false), NamesFor(prefix, true);
      var call := CmdOutcome(client, [], false, name, args, guid);
      && call == [Emit(server.cmdFromTarget, call[0].packet)]
      && IncomingCmdOutcome(server, isGuid, [], call[0].packet) == [Dispatch(Str(name), Str(guid), args)]
      && var reply := IncomingCmdReturnOutcome(server, [], Str(name), Str(guid), Obj(ret));
         && |reply| == 1
         && reply == [Emit(client.cmdToTargetRet, reply[0].packet)]
         && CmdReturnOutcome(isGuid, [], reply[0].packet) == [Deliver(Str(guid), ShapeArgs(ret))]
         && (|ret| == 1 ==> CmdReturnOutcome(isGuid, [], reply[0].packet) == [Deliver(Str(guid), ret[0].1)])
         && (|ret| != 1 ==> CmdReturnOutcome(isGuid, [], reply[0].packet) == [Deliver(Str(guid), Arr(ObjectValues(ret)))])
  {
    ShapeArgsMeaning(ret);
  }

  /** The arguments of a request reach the peer's handlers as they were given. */
  lemma RequestArgsReachHandlers(guid: string, name: string, args: seq<Value>)
    ensures SpreadArgs(Get(Request(guid, name, args), "args")) == args
  {
  }

  /** One connection's protocol endpoint. */
  class WebApi {
    const isServer: bool
    const names: Names
    /** `tools.isGUID` */
    const isGuid: Value -> bool
    var middlewaresInc: MiddlewareList
    var middlewaresOut: MiddlewareList
    /** Everything the endpoint has done that others observe, oldest first. */
    var trace: seq<Effect>

    /** `new WebApi(socket, isServer, options)` with `_init`. */
    constructor (isServer: bool, prefix: Option<string>, isGuid: Value -> bool)
      ensures this.isServer == isServer && this.isGuid == isGuid
      ensures names == NamesFor(PrefixOf(prefix), isServer)
      ensures fresh(middlewaresInc) && fresh(middlewaresOut) && middlewaresInc != middlewaresOut
      ensures middlewaresInc.fns == [] && middlewaresOut.fns == []
      ensures trace == []
    {
      this.isServer := isServer;
      this.isGuid := isGuid;
      names := NamesFor(PrefixOf(prefix), isServer);
      middlewaresInc := new MiddlewareList();
      middlewaresOut := new MiddlewareList();
      trace := [];
    }

    method RegisterMiddlewareInc(fn: Middleware)
      modifies middlewaresInc
      ensures middlewaresInc.fns == old(middlewaresInc.fns) + [fn]
    {
      middlewaresInc.Push(fn);
    }

    method RegisterMiddlewareOut(fn: Middleware)
      modifies middlewaresOut
      ensures middlewaresOut.fns == old(middlewaresOut.fns) + [fn]
    {
      middlewaresOut.Push(fn);
    }

    /** `cmdHandler`: `guid` is the fresh id `tools.GUID()` returns; the result is the
        id whose return the caller now awaits, if any. */
    method CmdHandler(name: string, skipWebApiHandler: bool, args: seq<Value>, guid: string)
      returns (awaiting: Option<string>)
      modifies this`trace
      ensures awaiting == if skipWebApiHandler then None else Some(guid)
      ensures trace == old(trace) + CmdOutcome(names, middlewaresOut.fns, skipWebApiHandler, name, args, guid)
    {
      if skipWebApiHandler {
        return None;
      }
      var packet := Request(guid, name, args);
      packet := Iterate(middlewaresOut.fns, packet, true);
      trace := trace + [Emit(names.cmdToTarget, packet)];
      awaiting := Some(guid);
    }

    /** `incomingCmdHandler` */
    method IncomingCmdHandler(packet: Value)
      modifies this`trace
      ensures trace == old(trace) + IncomingCmdOutcome(names, isGuid, middlewaresInc.fns, packet)
    {
      if !IsObject(packet) {
        return;
      }
      if !Truthy(Get(packet, "name")) || !isGuid(Get(packet, "id")) || Get(packet, "version") != Num(Version) {
        return;
      }
      var origName := Get(packet, "name");
      var origId := Get(packet, "id");
      var q := Iterate(middlewaresInc.fns, packet, true);
      if q == Null {
        trace := trace + [Emit(names.cmdFromTargetRet, NullReply(origId, origName))];
        return;
      }
      if !IsObject(q) {
        return;
      }
      if !Truthy(Get(q, "name")) || !isGuid(Get(q, "id")) || Get(q, "version") != Num(Version) {
        return;
      }
      trace := trace + [Dispatch(Get(q, "name"), Get(q, "id"), SpreadArgs(Get(q, "args")))];
    }

    /** `cmdReturnHandler` */
    method CmdReturnHandler(packet: Value)
      modifies this`trace
      ensures trace == old(trace) + CmdReturnOutcome(isGuid, middlewaresInc.fns, packet)
    {
      var q := Iterate(middlewaresInc.fns, packet, false);
      if !IsObject(q) {
        return;
      }
      if !isGuid(Get(q, "id")) && Get(q, "version") != Num(Version) {
        return;
      }
      trace := trace + [Deliver(Get(q, "id"), Get(q, "args"))];
    }

    /** `incomingCmdReturnHandler`: `packetId` is `mwConfig.webApiPacketId`. */
    method IncomingCmdReturnHandler(name: Value, packetId: Value, ret: Value)
      modifies this`trace
      ensures trace == old(trace) + IncomingCmdReturnOutcome(names, middlewaresOut.fns, name, packetId, ret)
    {
      if !IsObject(ret) || !Truthy(packetId) {
        return;
      }
      var args := if |ret.entries| == 1 then Get(ret, ret.entries[0].0) else Arr(ObjectValues(ret.entries));
      var packet := MakePacket(packetId, name, args, Num(Version));
      packet := Iterate(middlewaresOut.fns, packet, false);
      trace := trace + [Emit(names.cmdFromTargetRet, packet)];
    }
  }

  /** `new WebApiClient(socket, options)`: an endpoint whose role is `!!options.isServer`. */
  method NewClient(isServer: Value, prefix: Option<string>, isGuid: Value -> bool)
    returns (client: WebApi)
    ensures fresh(client)
    ensures client.isServer == Truthy(isServer)
    ensures client.names == NamesFor(PrefixOf(prefix), Truthy(isServer))
    ensures client.isGuid == isGuid
    ensures fresh(client.middlewaresInc) && fresh(client.middlewaresOut)
    ensures client.middlewaresInc != client.middlewaresOut
    ensures client.middlewaresInc.fns == [] && client.middlewaresOut.fns == []
    ensures client.trace == []
  {
    client := new WebApi(Truthy(isServer), prefix, isGuid);
  }
}
