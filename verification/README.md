# OpenBazaar connector: command adapter model

A Dafny model of `OpenBazaarAdapter`, the client-side command adapter of the
OpenBazaar websocket connector (`index.js`). The adapter sends commands to the
OpenBazaar server as JSON requests `{id, command, params}`. While no stream is
attached, it queues them and replays them in order when the reconnector hands
it a fresh stream. It correlates each reply with the callbacks waiting for it
by the reply's `result.type`:

- one-shot callbacks wait in a FIFO per key and are consumed one per reply;
- a subscription is a single callback per key that fires on every reply.

The key a command registers under is its name with one leading `check_`
removed (`stripType`). The reply type is used as received.

Files:

- `protocol.dfy` (module `Protocol`): arguments, requests, inbound frames and
  observable effects as datatypes; `StripType`; the `(cmd, cb)` arity rule;
  the request a send writes.
- `tables.dfy` (module `Tables`): the one-shot and subscription tables as
  maps, and the pure transitions that specify the adapter. These cover
  registering a callback, draining the queue, popping the oldest one-shot and
  dispatching a frame. The module also holds the lemmas about them: drain
  order, per-key FIFO, both handlers firing, and malformed frames being
  harmless.
- `adapter.dfy` (module `Adapter`): the class `OpenBazaarAdapter`. Its fields
  are `stream`, `sendQueue`, `cbs` and `staticCbs`, plus the set of streams
  carrying its data handler and a ghost `trace` of every write, event and callback
  call in order. Its methods update these in place. Each method's `ensures`
  ties the new state to the pure transitions above. `Valid()` says the queue
  is non-empty only while no stream is attached, and every method keeps it.

Callbacks are opaque ids. Inbound JSON is a `Frame`: `Malformed`, `NoResult`
(parsed but without `result`) or `Payload(type, body)`. The clock read by
`Date.now()` is a parameter `nowMs`. The request id is `nowMs / 1000`, which
for a positive divisor is the floor, as `Math.floor` computes it.

Where the code and its description differ, the model follows the code:

- When `sendCommand` queues, it returns the new queue length (the value of
  `push`), not the adapter.
- `subscribe(cmd, f)` with two arguments stores `undefined` as the
  subscription. The function then sits in the params slot and becomes a
  one-shot callback through the arity rule.
- A parsed reply without `result` faults after the `data` event. It is
  modelled as the outcome `Fault`, with both tables unchanged.

## Model

| member | source | states |
|---|---|---|
| Protocol.StripType | index.js:166-169 | with a leading `check_` the key is what follows it; otherwise the name unchanged |
| Protocol.StripTypeOfPrefixed | index.js:166-169 | stripping undoes exactly one prepended `check_` |
| Protocol.StripTypeNotIdempotent | index.js:166-169 | `check_check_x` strips to `check_x`, and stripping again gives `x`, so the function is not idempotent |
| Protocol.ArityForms | index.js:110-113 | a function in the params slot resolves as `({}, f)`, dropping any third argument; absent params resolve as `{}` |
| Protocol.MakeRequest | index.js:115-121 | the written request carries the unstripped command; its id is the floor of the clock in seconds; its params are the given object, or `{}` when absent or a function |
| Tables.Enqueue | index.js:129-134 | appends the callback to the end of the key's FIFO, creating the key if absent; every other key is unchanged |
| Tables.RegisterOneShotEffect | index.js:123-137 | a connected send with a callback queues it last under `StripType(cmd)` and leaves other keys alone; without one, `cbs` is unchanged; `(cmd, f)` registers like `(cmd, {}, f)` |
| Tables.DrainTraceWritesInOrder | index.js:67-71 | draining writes exactly one request per queued tuple, the i-th write for the i-th tuple |
| Tables.DrainCbsPerKey | index.js:67-71 | after draining, each key's FIFO is its old FIFO followed by the queued tuples' callbacks for that key, in queue order |
| Tables.QueuedPeersScenario | index.js:108-119 | `sendCommand('peers', fn)` queued while disconnected is written with `{}` params at drain time, and `fn` then waits under `peers` |
| Tables.PopOneShot | index.js:89-93 | a non-empty FIFO under the raw type loses exactly its head, which is returned; an empty or missing one is unchanged; other keys are untouched |
| Tables.Dispatch | index.js:74-98 | malformed: one stream error and nothing else; no `result`: `data` then a fault, tables unchanged; a payload: exactly `data`, then the oldest one-shot of its type if one waits (removed from its FIFO, other keys untouched), then the stored subscription if any |
| Tables.DispatchBothFire | index.js:89-97 | with a waiting one-shot and a subscription, the effects are `data`, then the one-shot, then the subscription |
| Tables.DispatchSubscriptionIndependent | index.js:94-97 | a stored subscription is invoked on every matching payload, last, whatever the one-shot table holds |
| Tables.DispatchMalformedHarmless | index.js:75-79 | bad JSON gives exactly one stream error, no `data` event and no change to the tables |
| Tables.DispatchOneShotOnly | index.js:89-93 | without a subscription, a payload gives `data` then the oldest one-shot when one waits, and only `data` with `cbs` unchanged when none waits |
| Tables.SubscribeCheckPrefixedScenario | index.js:155-160 | `subscribe('check_order_count', params, h)` stores `h` under `order_count`, and two successive `order_count` payloads both call it |
| Tables.SubscribeWithoutParamsFiresOnce | index.js:155-160 | `subscribe('check_order_count', h)` with two arguments stores no subscription and makes `h` a one-shot: the first `order_count` payload calls it, the second does not |
| Tables.ReplayFifo | index.js:126-134 | over any interleaving of registrations and replies for a key, the callbacks fired followed by those still waiting equal those waiting before followed by those registered, in order |
| Tables.OneShotsFireInRegistrationOrder | index.js:89-93 | A registered before B: two replies fire A then B, whether or not a reply comes between the registrations |
| Tables.DispatchAsWritten | index.js:94-97 | the handler as written: for a payload, `data` then the oldest one-shot as in `Dispatch`, and then a fault instead of the call whenever a subscription is stored |
| Tables.SubscriptionFaultsAsWritten | index.js:155-160 | after `subscribe(cmd, params, f)`, a payload of the stripped type faults as written and never calls `f` when no one-shot waits; `Dispatch` calls `f` |
| Adapter.OpenBazaarAdapter.constructor | index.js:51-56 | a new adapter has no stream, an empty queue and empty tables |
| Adapter.OpenBazaarAdapter.SendCommand | index.js:107-138 | disconnected: appends the raw tuple, writes nothing, leaves `cbs` alone and returns the new queue length; connected: writes one request and registers the resolved callback; keeps `Valid()` |
| Adapter.OpenBazaarAdapter.Connected | index.js:63-99 | attaches the stream first, re-sends every queued tuple once in order without re-queuing, empties the queue and installs the handler |
| Adapter.OpenBazaarAdapter.Disconnect | index.js:33-38 | drops the stream and its listeners, so later sends queue; queue and tables are unchanged |
| Adapter.OpenBazaarAdapter.OnData | index.js:74-98 | on a stream with the handler, the state and trace change exactly as `Dispatch` says; on any other stream nothing happens; subscriptions and queue are unchanged |
| Adapter.OpenBazaarAdapter.Subscribe | index.js:155-164 | overwrites the subscription for the stripped name, leaves other keys alone, then sends `(cmd, params)` with no callback; returns the adapter |
| Adapter.OpenBazaarAdapter.Shortcut | index.js:142-146 | a bound shortcut behaves as `sendCommand(name, params)` with no callback |

## Findings

| source | as written | input that shows it | evidently intended | confidence | as-written member | corrected member |
|---|---|---|---|---|---|---|
| index.js:96 | `staticCbs[type].forEach(...)` runs on the single function that `subscribe` stores at index.js:159; a function has no `forEach`, so dispatch throws | `subscribe('peers', {}, f)`, then a reply whose `result.type` is `peers` | call the stored subscription once per matching reply (doc comment at index.js:149-153) | high, not executed | Tables.SubscriptionFaultsAsWritten | Tables.DispatchSubscriptionIndependent |

The adapter's `OnData` uses the corrected `Tables.Dispatch`.
`Tables.DispatchAsWritten` models the handler as written.

## Left out

- The reconnecting wrapper (index.js:13-45) is left out: the websocket, `reconnect-core` and `forward-emitter` are I/O and foreign libraries. Only its effect on the adapter is kept: `Connected` on each connection and `Disconnect` on loss. Lifecycle events forwarded to the adapter are not modelled.
- Adapter.OpenBazaarAdapter.Disconnect: is total. With no stream attached, JavaScript's `adapter.stream.removeAllListeners()` (index.js:35) would throw; the model only clears the stream and does not model that fault.
- `JSON.parse` and `JSON.stringify` are not modelled. Frames and requests are datatypes, and params values stand for their JSON text.
- `Date.now()` is the parameter `nowMs`. `Connected` takes a single reading for the whole drain, so the clock does not advance between the replayed writes.
- The `./functions` command list is not part of this model. The dynamically bound shortcuts are one generic `Shortcut(name, params)`.
- `debug`/`debugData` logging is not modelled. Of the EventEmitter machinery, only the `data` event and the stream `error` event are kept, as `trace` entries.
- Callbacks are opaque ids. What a callback does when it is invoked is not modelled, including a call back into the adapter.
- The model tracks which streams carry the data handler as a set, so it does not cover one stream object being attached twice and getting two handlers.
- JavaScript truthiness is reduced to three cases for `params`: absent (any falsy value), an object, or a function. `cb` is either absent or a function. Other truthy values are not modelled.
- Keys that an object literal inherits from its prototype (such as `constructor`) are not modelled. In `cbs` and `staticCbs` these would make a lookup look non-empty and would throw on `push`/`shift`.
- A `result` without `type` is not modelled: JavaScript would correlate it under the key `"undefined"`.
- What a thrown fault does outside the data handler is not modelled. `Fault` records only that the handler stopped after the `data` event.
- The `instanceof` guard (index.js:24) and `sample_usage.js` (a command-line demo) are not modelled.
