# websocket-as-promised: the pending-request table and its socket wrapper

This project models two classes of websocket-as-promised in Dafny and proves what they promise.

- **`Requests`** (src/requests.js) is a table from request id to an in-flight promise that is settled from outside.
  - Creating a request under an id that is still pending first rejects the old request as "replaced".
  - `resolve` acts only on a truthy id that is in the table.
  - `rejectAll` rejects whatever is still pending.
  - When a request settles, its `finally` callback removes it from the table, but only while the table still holds that same request.
- **`WebSocketAsPromised`** (src/index.js) routes socket events into such a table:
  - the key `'open'` holds the opening promise;
  - the key `'close'` holds the closing promise;
  - each request sits under the id found in `data[idProp]`, or under a generated id.

Files and modules:

- `js_values.dfy`, module `JsValues`: the JavaScript values the code handles.
  - These are ids, payloads, events and option bags.
  - It also defines truthiness, property reads and writes, and `String(v)`.
  - It has a decimal reader, used to show that the timeout message can be read back.
- `promises.dfy`, module `Promises`: a promise reduced to its status.
  - The status is pending, fulfilled with a value, or rejected with a reason.
  - The first settlement wins.
- `request_table.dfy`, module `RequestTable`: the table as a value `Table`.
  - There is one function per step the class takes.
  - The invariant `Consistent` holds after every step, and each step has a lemma proving it.
  - Every promise controller the table creates stays in `requests`. Its index there is its object identity, so "the map still holds that same request object" reads `items[id] == k`.
  - `hooks` holds the settled requests whose `finally` callback has not run yet.
- `requests.dfy`, module `PendingRequests`: the class `Requests`.
  - Its methods update the fields `items`, `requests` and `hooks` in place.
  - Each method is proved to reach the state its `RequestTable` function describes.
  - `rejectAll`'s `forEach` is a loop with an invariant.
- `request_table_properties.dfy`, module `RequestTableProperties`: what src/requests.js promises, proved of the table functions.
- `wsp.dfy`, module `Wsp`: the class `WebSocketAsPromised`, plus one step function per public operation and event handler.
  - The socket is an abstract handle.
  - What the class asks of the socket is logged in `transport`.
  - What the message channel dispatches is logged in `dispatched`.
- `wsp_properties.dfy`, module `WspProperties`: index.js's own decisions, proved of the step functions.

Events that arrive from outside are methods the environment calls:

- socket events: `HandleOpen`, `HandleMessage`, `HandleError`, `HandleClose`;
- a timer firing: `Requests.FireTimeout(k)`;
- a queued `finally` callback running: `Requests.OnSettled(k)`.

**Assumption.** src/index.js keeps its promises in the `pendings` library, whose source is not part of this model. It is assumed to behave like the `Requests` table:
- `set(id, fn, options)` is `create`;
- `set` and `add` call `fn` with the entry's id, which `request` writes into `data[idProp]` (src/index.js:87-88);
- `add(fn, options)` is `create` under the id the library generates (a parameter of `Request`);
- `resolve` and `rejectAll` are the table's own;
- `reject(id, reason)` rejects the entry under `id` when there is one (`Requests.Reject`);
- `options.timeout`, when given, overrides the default timeout.

Because requests share this table with opening and closing, a request whose id is `'open'` replaces a pending open (`WspProperties.RequestUnderOpenKeyReplacesOpening`). This follows from the assumption that `set` behaves as `create`.

**Where the code differs from the documented design, the model follows the code:**
- `close()` before any `open()` does not resolve with `undefined`. `this._ws.close()` throws on `null`, so the promise is rejected with a TypeError (`WspProperties.CloseGoesThroughCloseKey`). The same holds for `request` without a socket (`WspProperties.RequestWithoutSocketRejects`).
- An error event does settle the opening and closing promises: it rejects them with the event (src/index.js:121-124).
- A settled request stays in the table until its `finally` callback runs. Only then does it leave (`RequestTableProperties.QuiescentTableHoldsOnlyPending`).
- A test expects `idProp: undefined` to keep the default `'id'` (test/specs/ip-prop.test.js:14-21). The constructor's `Object.assign` (src/index.js:32) copies `undefined` over the default, so `Wsp.Configure` gives the property name `"undefined"`.

## Model

| member | source | states |
|---|---|---|
| `JsValues.Put` | src/index.js:88 | writing `data[idProp]` makes that property read back as the written id; every other property reads as before |
| `Promises.FirstSettlementWins` | src/requests.js:50 | a pending promise takes the first outcome it is given; a later resolve or reject leaves that outcome as it is |
| `RequestTable.TimeoutReasonRoundTrip` | src/requests.js:45-48 | the timeout message embeds both the timeout and the request id: reading it back gives exactly that timeout and `String(id)` |
| `RequestTable.EmptyConsistent` | src/requests.js:10-12 | a new, empty table satisfies the table invariant |
| `RequestTable.SettleAtConsistent` | src/requests.js:50 | settling a request keeps the invariant: a pending request that settles gets its `finally` callback queued |
| `RequestTable.RejectExistingConsistent` | src/requests.js:37-42 | rejecting the existing request keeps the invariant, changes no map entry, and leaves the entry under the id settled |
| `RequestTable.CreateNewConsistent` | src/requests.js:44-49 | installing a fresh pending request keeps the invariant, provided the entry it overwrites has settled |
| `RequestTable.CallConsistent` | src/requests.js:50 | a callback that throws rejects the new request, and the invariant still holds |
| `RequestTable.CreateConsistent` | src/requests.js:22-25 | `create` keeps the invariant, so no pending request is ever lost from the map |
| `RequestTable.ResolveConsistent` | src/requests.js:27-31 | `resolve` keeps the invariant |
| `RequestTable.RejectConsistent` | src/index.js:122-123 | `reject` on the open or close key keeps the invariant |
| `RequestTable.RejectAllConsistent` | src/requests.js:33-35 | `rejectAll` keeps the invariant |
| `RequestTable.SettledConsistent` | src/requests.js:53-58 | running a request's `finally` callback keeps the invariant |
| `RequestTable.TimeoutConsistent` | src/requests.js:45-48 | a timer firing keeps the invariant |
| `PendingRequests.Requests.constructor` | src/requests.js:10-12 | the table starts empty and consistent |
| `PendingRequests.Requests.Create` | src/requests.js:22-25 | rejects the pending request under the id, then installs a new request; returns the new request, which is now the map's entry for the id |
| `PendingRequests.Requests.Resolve` | src/requests.js:27-31 | the state afterwards is `AfterResolve` of the state before, and the invariant holds |
| `PendingRequests.Requests.Reject` | src/index.js:122-123 | the `pendings` library's `reject`: settles the entry under the id, if any, with the reason |
| `PendingRequests.Requests.RejectAll` | src/requests.js:33-35 | the loop over the map rejects exactly the map's pending entries and leaves the map as it was |
| `PendingRequests.Requests.RejectExistingRequest` | src/requests.js:37-42 | rejects the entry under the id with the "replaced" error if it is pending, and otherwise changes nothing |
| `PendingRequests.Requests.CreateNewRequest` | src/requests.js:44-51 | appends a fresh pending request, stores it under the id, then applies the callback's outcome |
| `PendingRequests.Requests.DeleteRequest` | src/requests.js:53-58 | removes the id only while it still maps to this request |
| `PendingRequests.Requests.OnSettled` | src/requests.js:50 | the queued `finally` callback runs `_deleteRequest` for its own id and request, and leaves the queue |
| `PendingRequests.Requests.FireTimeout` | src/requests.js:45-48 | a timer firing on a pending request with a truthy timeout rejects that request with the timeout message |
| `RequestTableProperties.CreateRejectsPendingPredecessor` | src/requests.js:22-24 | `create` on an id whose request is pending rejects that request with "WebSocket request is replaced, id: <id>" |
| `RequestTableProperties.CreateKeepsSettledPredecessor` | src/requests.js:38-40 | `create` leaves an already settled request under the id untouched; only the map slot is overwritten |
| `RequestTableProperties.CreateInstallsFreshRequest` | src/requests.js:44-50 | after `create(id, …)` the map is the old map with `id` pointing at the new request. That request is pending unless the callback threw. No other request changes except the one replaced |
| `RequestTableProperties.ResolveIgnoresFalsyOrUnknownId` | src/requests.js:27-31 | `resolve` with a falsy id (0, "", false, null, undefined) or an absent id changes nothing |
| `RequestTableProperties.ResolveSettlesOnlyThatEntry` | src/requests.js:27-31 | otherwise `resolve` fulfils exactly the entry under the id, if it is pending, and nothing else changes |
| `RequestTableProperties.RejectAllRejectsEveryPending` | src/requests.js:33-35 | on a consistent table, `rejectAll` rejects every pending request, leaves settled ones as they were, and removes nothing from the map |
| `RequestTableProperties.SettledHookDeletesOnlyItsOwnEntry` | src/requests.js:53-58 | a request's `finally` callback removes the entry under its id exactly when the map still holds that request |
| `RequestTableProperties.ReplacedRequestSparesSuccessor` | src/requests.js:50-57 | a replaced request settles and its callback runs; the id still maps to the pending successor |
| `RequestTableProperties.SettledRequestLeavesTable` | src/requests.js:55-57 | once a request that was not replaced settles and its callback has run, its id is gone from the map |
| `RequestTableProperties.Drain` | src/requests.js:50-58 | running every queued `finally` callback keeps the invariant and empties the queue. It changes no request, and it only removes map entries |
| `RequestTableProperties.QuiescentTableHoldsOnlyPending` | src/requests.js:50-58 | when no callback is waiting, the map holds no settled request, and every pending request is still in it under its own id |
| `RequestTableProperties.TimeoutRejectsWithReason` | src/requests.js:45-48 | a timeout rejects the pending request with the message built from its timeout and id, and changes nothing else |
| `Wsp.Configure` | src/index.js:13-37 | `idProp` defaults to `'id'` and `timeout` to 0; each key the caller gives overrides its default |
| `Wsp.WebSocketAsPromised.constructor` | src/index.js:31-38 | keeps the merged options, starts with an empty pending table, no socket, and nothing sent or dispatched |
| `Wsp.WebSocketAsPromised.Open` | src/index.js:65-73 | `set('open', fn)`: the callback creates the socket, or the factory's error rejects the opening promise |
| `Wsp.WebSocketAsPromised.Request` | src/index.js:83-95 | validates `data`, chooses the key, writes the id into the caller's object, sends the serialised payload, and registers the request |
| `Wsp.WebSocketAsPromised.Close` | src/index.js:102-104 | `set('close', fn)`: the callback asks the socket to close, or throws a TypeError when there is no socket |
| `Wsp.WebSocketAsPromised.HandleOpen` | src/index.js:106-108 | resolves the `'open'` entry with the event |
| `Wsp.WebSocketAsPromised.HandleMessage` | src/index.js:110-119 | parses a non-empty frame, resolves by a truthy id, then dispatches the data |
| `Wsp.WebSocketAsPromised.HandleError` | src/index.js:121-124 | rejects the `'open'` and `'close'` entries with the event |
| `Wsp.WebSocketAsPromised.HandleClose` | src/index.js:126-130 | drops the socket, resolves `'close'` with the event, then rejects everything else with "Connection closed." |
| `WspProperties.RequestRefusesNonObject` | src/index.js:83-86 | falsy or non-object `data` is refused with "WebSocket data should be a plain object, got <data>"; the table and the socket are untouched |
| `WspProperties.RequestRegistersUnderItsKey` | src/index.js:92-94 | the request is registered under `data[idProp]` when that is defined, and under the generated id when it is undefined; the new request is the map's entry for that key, with the request's timeout |
| `WspProperties.RequestPayloadCarriesId` | src/index.js:87-91 | the id is written into `data[idProp]` before serialising. The one frame sent is the serialised payload, whose extracted id is the key, and its other properties are unchanged |
| `WspProperties.RequestWithoutSocketRejects` | src/index.js:87-91 | with no socket nothing is sent and the new request is rejected with the TypeError, yet the id was already written into the data |
| `WspProperties.EchoResolvesRequest` | src/index.js:87-94 | when the server echoes the request's own frame, the message handler fulfils the request with the payload and dispatches it. This holds when the key is a truthy string, number or boolean and JSON.parse undoes JSON.stringify |
| `WspProperties.HandleMessageRule` | src/index.js:110-119 | an empty frame or an unparsable one changes nothing. Otherwise the data is always dispatched. When the extracted id is truthy and its entry is pending, that entry is fulfilled with the data, and no other request changes |
| `WspProperties.FalsyIdRequestIgnoredByMessages` | src/index.js:113-116 | a request registered under a falsy id is never settled by any incoming message |
| `WspProperties.HandleErrorTouchesOnlyOpenAndClose` | src/index.js:121-124 | an error event rejects the pending `'open'` and `'close'` entries with the event. Every other request, including a settled `'open'` or `'close'` promise, stays as it was |
| `WspProperties.HandleCloseSettlesEverything` | src/index.js:126-130 | a close event drops the socket and fulfils a pending `'close'` entry with the event, so that entry is not rejected. It rejects every other pending request with "Connection closed.", leaves nothing pending, and leaves settled requests alone |
| `WspProperties.HandleCloseEmptiesTable` | src/index.js:126-130 | after a close event, once every queued `finally` callback has run, the pending table is empty |
| `WspProperties.OpenGoesThroughOpenKey` | src/index.js:65-73 | `open` registers under `'open'` and creates the socket, and the open event fulfils that promise with the event. A throwing factory rejects it and creates nothing |
| `WspProperties.CloseGoesThroughCloseKey` | src/index.js:102-104 | `close` registers under `'close'`. With a socket it asks the socket to close, and the close event fulfils the promise with the event. Without a socket the promise is rejected with a TypeError |
| `WspProperties.RequestUnderOpenKeyReplacesOpening` | src/index.js:92-94 | a request whose id is `'open'` rejects a pending open as replaced and takes over the `'open'` entry |

## Left out

- The `pendings`, `promise-controller`, `promise.prototype.finally` and `chnl` libraries are not part of this model.
  - They are modelled by the table above and by the `dispatched` log.
  - `pendings.set` might return the existing pending promise instead of replacing it. Then repeated `open()` / `close()` calls would return the same promise. A `request` whose key is already pending would also get the existing promise back and send nothing. This model does not capture either case.
- Promise-controller details are not modelled: a callback passed to `call` that returns a promise, and the clearing of timers.
  - A timer fires only while its request is pending and has a truthy timeout.
  - The moment a timer fires is not modelled. There is no clock.
- The `finally` callbacks of settled requests may run in any order. The JavaScript microtask queue runs them first-in first-out.
- The WebSocket transport is an abstract handle.
  - Its ready states are not modelled. Whether `send` throws is a parameter of `Request`.
  - The factory's failure is a parameter of `Open`.
  - Events are not tied to a particular socket. Events from an earlier socket, after a second `open`, reach the handlers in the same way.
  - Close codes are opaque values inside the event.
- JSON.stringify and JSON.parse are functions the object is given. When `JSON.parse` throws, the exception escapes the message listener uncaught (src/index.js:112). Nothing has changed by then, and the model drops the exception: a parse failure is `None` and changes nothing.
  - The model assumes stringify never throws. Values here have no cycles and no BigInt.
  - The echo lemma assumes that parse undoes stringify on the payload.
- `WspProperties.EchoResolvesRequest` covers only string, number and boolean keys. An object key is never resolved by an echo, because the parsed id is a new object and the Map compares by reference.
- `_handleMessage` resolves the request before it dispatches the data (src/index.js:114-117). The model keeps the table and the dispatch log apart, so it does not capture that order.
- Only text frames are modelled. Binary frame data (Blob, ArrayBuffer) is left out.
- Values are integers, `undefined`, `null`, booleans, strings and plain objects.
  - There are no fractions, no NaN, and no arrays, functions or symbols.
  - A property read on a primitive gives `undefined`, so `"abc".length` is not modelled.
  - Object ids are compared by value, whereas a JavaScript `Map` compares objects by reference.
  - Numbers are safe integers (|n| ≤ 2^53−1), for which `String(n)` is the decimal numeral. Beyond that range JavaScript prints exponent form (`String(1e21)` is `"1e+21"`) and merges distinct integers into one Map key; the model does neither.
- TypeError messages follow V8's wording, which differs between engines.
- The `ws` and `onMessage` getters only return fields and are not separate members.
- src/options.js and src/utils.js are not part of this model.
- `Wsp.WebSocketAsPromised.Request` does not state the value of an object literal argument (`Plain`) after the call. The id is written into an object that only the call can see.
- `RequestTable.TimeoutReasonRoundTrip` reads back only numeric timeouts. Other timeout values appear in the message as `String(timeout)`.
- `PendingRequests.Requests.Reject` does not check that the id is truthy. This is assumed of the `pendings` library. The keys it is used with, `'open'` and `'close'`, are truthy.
