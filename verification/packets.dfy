/** The wire packet `{ id, name, args, version }` and the validation gate applied to it. */
module Packets {
  import opened JsValues

  /** The protocol version `_init` stores in `options.version`. */
  const Version: int := 2

  /** The object literal `{ id, name, args, version }`, in that key order. */
  function MakePacket(id: Value, name: Value, args: Value, version: Value): (p: Value)
    ensures IsObject(p) && DistinctKeys(p.entries)
    ensures Get(p, "id") == id && Get(p, "name") == name
    ensures Get(p, "args") == args && Get(p, "version") == version
  {
    var entries := [("id", id), ("name", name), ("args", args), ("version", version)];
    assert entries[0].0[0] == 'i' && entries[1].0[0] == 'n' && entries[2].0[0] == 'a' && entries[3].0[0] == 'v';
    LookupListed(entries, 0);
    LookupListed(entries, 1);
    LookupListed(entries, 2);
    LookupListed(entries, 3);
    Obj(entries)
  }

  /** The gate `isObject(packet) && packet.name && isGUID(packet.id) &&
      packet.version === version`; `isGuid` stands for `tools.isGUID`. */
  predicate WellFormed(isGuid: Value -> bool, p: Value) {
    && IsObject(p)
    && Truthy(Get(p, "name"))
    && isGuid(Get(p, "id"))
    && Get(p, "version") == Num(Version)
  }

  /** A packet built with a GUID id, a non-empty name and the current version passes
      the gate, whatever its arguments; with any other version it fails it. */
  lemma MadePacketGate(isGuid: Value -> bool, id: Value, name: string, args: Value, version: Value)
    requires isGuid(id) && name != ""
    ensures WellFormed(isGuid, MakePacket(id, Str(name), args, version)) <==> version == Num(Version)
  {
  }

  /** The argument list handed to the local handlers: the packet's `args` when it is
      an array, otherwise `[args]`. */
  function SpreadArgs(args: Value): seq<Value> {
    if args.Arr? then args.items else [args]
  }
}
