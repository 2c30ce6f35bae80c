# osmium-webapi protocol engine, modelled in Dafny

This project models the protocol engine of `osmium-webapi` (`index.js`): a
bidirectional remote-call protocol over a socket. A `WebApi` endpoint turns a
local call into a request packet `{ id, name, args, version }` sent on one
socket event, dispatches requests arriving on another event to its local
handlers, sends their result back, and hands returns of its own requests to
whoever awaits their id. Every packet passes through an ordered chain of
middleware. A `WebApiServer` keeps one server-role endpoint per connected socket
and broadcasts a call to all of them, collecting one result per connection.

Modules, one per concern of `index.js`:

- `JsValues` (`js_values.dfy`): the JavaScript values the engine inspects,
  truthiness, `tools.isObject`, property access and `tools.objectToArray`.
- `Packets` (`packets.dfy`): the packet object literal and the validation gate
  (object, truthy `name`, GUID `id`, `version === 2`).
- `EventNames` (`event_names.dfy`): `_init`'s four event names and their
  distinctness and mirroring between the two roles.
- `Middleware` (`middleware.dfy`): middleware as functions of the packet and the
  direction flag, the chain as a left fold (`RunChain`), the
  `packet = await mwFn(packet, ...)` loop (`Iterate`) proved equal to it, and
  the middleware array as an object that `push` extends in place.
- `Protocol` (`web_api.dfy`): the class `WebApi` with its four handlers. Each
  handler appends what it does (a socket emission, a dispatch to the local
  handlers, or a delivery to the awaiting caller) to the log `trace`. Each is
  proved equal to a specification function (`CmdOutcome`, `IncomingCmdOutcome`,
  `CmdReturnOutcome`, `IncomingCmdReturnOutcome`) whose contract states the
  protocol's rules. `CallRoundTrip` connects the four into one client/server
  call.
- `Server` (`web_api_server.dfy`): the class `WebApiServer` with its handler
  table and the broadcast result aggregation.

Collaborators are parameters: `tools.isGUID` is a predicate `isGuid` given to
each endpoint, `tools.GUID()` is the `guid` argument of `CmdHandler`, and the
outcome of each handler's race in `emitHandler` is the oracle `settle`.

This version of `index.js` has no priority-bucketed middleware, no
break/drop/skip mutators, no sweep of unanswered calls, and no `to()` or
`local()`; the model has none of them either. A null result from the inbound
middleware is answered with a null reply rather than dropped. The return gate
of `cmdReturnHandler` is a conjunction: a return packet is rejected only when
its id is not a GUID and its version also differs.

## Model

| member | source | states |
|---|---|---|
| `JsValues.ObjectValues` | index.js:113 | the array holds one value per key, the i-th key's value at position i |
| `JsValues.LookupListed` | index.js:111-112 | in an object with distinct keys, reading a listed key gives the value listed with it |
| `Packets.MakePacket` | index.js:64-69 | the packet object literal is an object with distinct keys whose `id`, `name`, `args` and `version` read back as given |
| `Packets.MadePacketGate` | index.js:79 | a packet with a GUID id and a non-empty name passes the gate exactly when its version is the current one, whatever its args |
| `EventNames.EventName` | index.js:31-32 | a name is the prefix followed by exactly four characters: a vertical bar, the role tag (`s` or `c`), a vertical bar, and the kind tag (`c` for command, `r` for return) |
| `EventNames.EventNameInjective` | index.js:31-32 | two names under one prefix are equal only when role and kind both agree |
| `EventNames.NamesDistinct` | index.js:34-40 | the four names of one endpoint are pairwise distinct |
| `EventNames.NamesMirror` | index.js:36-39 | one role's outbound command and return names are the other role's inbound names, in both directions |
| `EventNames.RolesNeverCollide` | index.js:36-39 | client and server never send commands, listen for commands, or listen for returns under the same name |
| `Middleware.RunChainAppend` | index.js:71 | running chain a and then chain b equals running a + b; once the chain yields null, later middleware receive null |
| `Middleware.RunChainFirst` | index.js:82 | the first registered middleware sees the original packet and the rest see its output |
| `Middleware.Iterate` | index.js:102 | the reassigning loop ends with the left fold of the middleware over the packet, in registration order |
| `Middleware.MiddlewareList.constructor` | index.js:42-43 | a fresh middleware array is empty |
| `Middleware.MiddlewareList.Push` | index.js:46-52 | push appends; the new chain is the new middleware applied after the old chain's result |
| `Protocol.ShapeArgsMeaning` | index.js:111-113 | a one-key result is unwrapped to its value; any other result becomes the array of its values in key order |
| `Protocol.CmdOutcome` | index.js:54-75 | a dispatch-bypass call sends nothing; any other call sends exactly one packet on cmdToTarget, the outbound chain's result on a request with the fresh id, name, args and current version |
| `Protocol.IncomingCmdOutcome` | index.js:77-99 | an ill-formed packet is discarded before the chain; a null chain result gives exactly one reply on cmdFromTargetRet with the original id and name, null args and the current version; dispatch happens iff the packet is well-formed before and after the chain, with the chain's name, id and spread args |
| `Protocol.CmdReturnOutcome` | index.js:101-107 | at most one delivery; nothing iff the chain's result is not an object or has both a non-GUID id and a foreign version; otherwise its args are delivered under its id |
| `Protocol.ReturnGateIsConjunction` | index.js:104 | a return packet failing only the GUID check, or only the version check, is still delivered |
| `Protocol.IncomingCmdReturnOutcome` | index.js:109-123 | nothing iff the result is not an object or there is no packet id; otherwise exactly one emission on cmdFromTargetRet of the outbound chain's result on the reply |
| `Protocol.ReplyShape` | index.js:110-122 | without middleware the reply carries the command's id, the name, the current version and the result shaped by the one-key rule |
| `Protocol.CallRoundTrip` | index.js:54-123 | a client's request arrives on the server's listening name and is dispatched with the client's id, name and args; the server's reply to any result object arrives on the client's listening name and delivers, under the client's id, the sole value of a one-key result and otherwise the array of its values in key order |
| `Protocol.RequestArgsReachHandlers` | index.js:98 | the arguments a request carries are handed to the peer's handlers exactly as given |
| `Protocol.WebApi.constructor` | index.js:5-44 | the endpoint's names are derived from its prefix (default `webApi`) and role; both middleware arrays start empty and separate; nothing has been emitted |
| `Protocol.WebApi.RegisterMiddlewareInc` | index.js:46-48 | the inbound array gains the middleware at its end |
| `Protocol.WebApi.RegisterMiddlewareOut` | index.js:50-52 | the outbound array gains the middleware at its end |
| `Protocol.WebApi.CmdHandler` | index.js:54-75 | the trace grows by exactly `CmdOutcome`; the caller awaits the fresh id unless the call was a dispatch bypass |
| `Protocol.WebApi.IncomingCmdHandler` | index.js:77-99 | the trace grows by exactly `IncomingCmdOutcome` |
| `Protocol.WebApi.CmdReturnHandler` | index.js:101-107 | the trace grows by exactly `CmdReturnOutcome` |
| `Protocol.WebApi.IncomingCmdReturnHandler` | index.js:109-123 | the trace grows by exactly `IncomingCmdReturnOutcome` |
| `Protocol.NewClient` | index.js:185-188 | a client endpoint takes its role from the truthiness of the isServer option; like any endpoint it starts with its names from the prefix, the given GUID test, two fresh, empty, separate middleware arrays and nothing emitted |
| `Server.WebApiServer.constructor` | index.js:127-141 | the handler table starts empty and the server's middleware arrays start empty and separate |
| `Server.WebApiServer.RegisterMiddlewareInc` | index.js:143-145 | the server's inbound array gains the middleware at its end |
| `Server.WebApiServer.RegisterMiddlewareOut` | index.js:147-149 | the server's outbound array gains the middleware at its end |
| `Server.WebApiServer.RegisterHandler` | index.js:167-178 | the socket's id becomes present, mapped to a fresh server-role endpoint sharing the server's middleware arrays; other entries are unchanged |
| `Server.WebApiServer.UnregisterHandler` | index.js:180-182 | exactly the socket's id is removed; removing an absent id changes nothing |
| `Server.WebApiServer.EmitHandler` | index.js:151-165 | no result when the event came from an endpoint; otherwise a map with exactly the registered handler ids as keys, each valued by its handler's result, or null where the timeout won |

## Left out

- The socket transport: `socket.on` registration and delivery, `'connection'`, `'disconnect'` and `WebApiClient.ready`. Each handler is a method called when its event arrives, and emissions are appended to `trace`.
- The socket argument of middleware: middleware see the packet and the direction flag only.
- The `osmium-events` library: the `use`/`useAfter` hooks that route calls into `cmdHandler` and `incomingCmdReturnHandler`, `emitEx`, `mapEvents`, and the `socketEvents.once` waiter. A dispatch and a delivery are recorded as effects; which waiter receives a delivery is not modelled.
- The unanswered-call garbage collector, which the source only mentions as a to-do.
- The `Promise`/`setTimeout` race in `emitHandler` and the `emitTimeout` value: only each handler's settled outcome is modelled, through `settle`.
- The `clientProcessor` option of `registerHandler`, which calls user code: only the default branch, which creates a `WebApi`, is modelled.
- `osmium-tools` internals: `isGUID` is a parameter, `GUID()` an argument. `objectToArray` is taken to list values in key order, `isObject` to hold for plain objects only, and `iterate` to await each middleware in turn.
- Middleware that throw or reject: a middleware here always yields a value. In the source, a rejected `await mwFn(...)` aborts the handler, so `cmdHandler` emits nothing while its `once` waiter stays registered, `incomingCmdHandler` sends neither the null reply nor the dispatch, `cmdReturnHandler` delivers nothing, and `incomingCmdReturnHandler` sends no reply. None of these aborted runs is modelled. In `emitHandler`, a rejected `handler.emit` leaves an unhandled rejection in the promise executor, which ends the process under Node's default setting; where it does not, the rejected call appears as `TimedOut`, because the timer then settles that handler's slot to null.
- Interleaving: the source awaits each middleware, so other events may run in between. Each handler here runs to completion as one step.
- Numbers are integers: floating point, `NaN` and `-0` are not modelled.
