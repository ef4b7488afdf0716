# Shared-world websocket server, modelled in Dafny

`sockets.py` keeps a shared "world": a map from entity names to JSON values. Browsers
change it over a websocket or over HTTP, and every change is broadcast to every
connected websocket. This project models that server's core and proves what it
guarantees:

- `World` (`store.dfy`) is the store. `set` replaces an entity's value, and
  `update` assigns one member of an entity's object. `get` answers an empty object
  for an entity that was never written. `clear` empties the store, and `world`
  returns the whole map. After every `set` and `update`, each registered listener is
  called once, in registration order, with the entity's new value. A ghost log
  records those calls.
- The broadcast side (`broadcast.dfy`) has three parts. `Client` is a FIFO queue
  per websocket. `Registry` is the module-level `clients` list, which sockets join
  and leave. `set_listener` appends `{entity: data}` to the tail of every
  registered client's queue.
- The reader (`sockets.dfy`) is the loop of `read_ws`. It applies what a websocket
  sends: it stops on `None`, ignores a handshake, and otherwise makes one `set`
  per pair of the packet. The writer drains a client's queue. The POST/PUT branch
  of `/entity/<entity>` is also here.
- `scenarios.dfy` states concrete sessions whose outcomes Dafny proves from the
  model's contracts. Examples: a move echoed to every subscriber, the sender
  included; a handshake that changes nothing; a PUT that adds a member; a removed
  subscriber that hears nothing more.

Two layers are proved. The value layer states each operation as a function: `SetEntity` and
`UpdateEntity`, `Run` for a whole history of store calls with the notices they
cause, and `Read` for a reader session. Lemmas about these functions cover merge
semantics, the last `set` winning, handshake handling and exactly-once delivery.
The object layer has the classes the server mutates, `World`, `Registry` and
`Client`. Their methods and loops are proved against those functions.

JSON objects keep their members in insertion order, as Python dicts do. `Assign` is
`d[k] = v`: an existing name keeps its position, and a new name goes last. `AsMap`
is the view that ignores order. A value `json.loads` produces has distinct member
names in every object, at every depth (`WellFormed`). Frames and request bodies
are required to be such values, and every stored value stays so
(`WellFormedSpace`, part of `World.Valid`).

Some behaviours of the code, which the model follows as written:

- The store holds any JSON value, not only attribute objects. `set` stores
  whatever body it gets. `update` on a stored value that is not an object raises
  (`TypeError`), so `UpdateEntity` answers `None` and PUT answers a server error.
- The handshake test looks only at the value of the last pair of a packet. A
  `"HELLO"` in any other position is stored like any other value, and a last
  `"HELLO"` discards the whole packet (`OnlyLastPairChecked`).
- `v1` survives from one packet to the next. An empty packet `{}` raises
  `UnboundLocalError` only when no earlier packet bound `v1`. Otherwise it is a
  no-op (`EmptyPacket`).
- `json.loads` failing and `packet.items()` on a non-object both end the reader
  with an exception (`Raised`).

## Model

| member | source | states |
|---|---|---|
| Json.Assign | sockets.py:39-41 | `entry[key] = value`: an existing name keeps its position and a new name is added last; with distinct names, the result maps `key` to `value` and keeps every other member |
| Json.AssignWellFormed | sockets.py:39-41 | assigning a well-formed value into a well-formed object keeps the names distinct at every depth |
| Json.Merge | sockets.py:250-251 | definition of the PUT loop on one object's members: the result's names are exactly the old names and the body's |
| Json.MergeOverrides | sockets.py:250-251 | assigning a body's members one by one gives the old object overridden by the body, and names stay distinct |
| Json.MergeKeepsOrder | sockets.py:250-251 | the members already present keep their order and positions; new names come after them |
| Store.Lookup | sockets.py:56-57 | `get` never fails: a stored entity gives its value, an unseen one gives the empty object |
| Store.SetEntity | sockets.py:44-45 | after `set(e, d)`, `get(e) == d` and every other entity reads as before |
| Store.Step | sockets.py:38-54 | definition of one store call on the map: it fails exactly when it is an `update` of an entity whose value is not an object |
| Store.UpdateEntity | sockets.py:38-41 | `update` succeeds exactly when the entity's value is an object (an unseen entity counts as `{}`); it then assigns one member, keeps the other members and leaves every other entity alone |
| Store.UpdateUnseen | sockets.py:39-41 | `update` of an unseen entity creates it as `{k: v}` |
| Store.RunAppend | sockets.py:38-46 | running two histories of calls one after the other is running their concatenation; a failure stops the run |
| Store.RunExtend | sockets.py:38-46 | one more call continues a run from the space it left; its notices come after the earlier ones |
| Store.UpdatesAccumulate | sockets.py:38-41 | with no `set` of `e` and no `clear` in between, `get(e)` is the earlier value with every update to `e` merged in order |
| Store.GetAfterLastReset | sockets.py:38-57 | after any successful history, `get(e)` is the last value `set` for `e` (or `{}` after `clear`), with later updates merged key by key |
| Store.World.constructor | sockets.py:30-33 | a new world is empty, has no listeners and has made no calls |
| Store.World.AddSetListener | sockets.py:35-36 | the listener is appended at the end and nothing else changes |
| Store.World.Update | sockets.py:38-42 | the store becomes `UpdateEntity`'s result; on success each listener is called once, in order, with the entity's new value, and each client gets that many messages; as a map, the entity's members are then the old ones with `k` bound to `v`; on failure nothing changes |
| Store.World.Set | sockets.py:44-46 | the store becomes `SetEntity`'s result; each listener is called once, in order, with `d`, and every client queue gets `{e: d}` once per listener |
| Store.World.UpdateListeners | sockets.py:48-51 | each registered listener is called exactly once, in registration order, with `get(e)` |
| Store.World.Clear | sockets.py:53-54 | the store becomes empty; no listener is called and the listener list is unchanged |
| Store.World.Get | sockets.py:56-57 | definition of `get` on the live store: it answers `Lookup`, and in a valid world that value has distinct names at every depth |
| Store.World.Snapshot | sockets.py:59-60 | `world` holds exactly the entities that are stored, each with the value `get` returns |
| Broadcast.Client.constructor | sockets.py:89-90 | a new client's queue is empty |
| Broadcast.Client.Put | sockets.py:92-93 | `put` always succeeds and appends the message at the tail |
| Broadcast.Client.Get | sockets.py:95-96 | `get` returns the oldest message and leaves the rest in order (FIFO) |
| Broadcast.Registry.constructor | sockets.py:98 | the client list starts empty |
| Broadcast.Registry.Subscribe | sockets.py:195-196 | a new, empty client joins the end of the list, and no client is listed twice |
| Broadcast.Registry.Unsubscribe | sockets.py:213 | the client is no longer listed; `found` tells whether it was (Python raises `ValueError` otherwise); the rest keep their order |
| Broadcast.Without | sockets.py:213 | `list.remove` drops the first occurrence: the result is the list before the client's first position followed by the list after it, or the list itself when the client is absent; a list without duplicates no longer contains the client |
| Broadcast.WithoutLast | sockets.py:195-213 | removing the client a socket added gives back the list from before it connected |
| Broadcast.Registry.SetListener | sockets.py:118-124 | every registered client gets exactly one `{entity: data}` at the tail of its queue; a client not in the list gets nothing |
| Broadcast.FanoutAppend | sockets.py:48-51 | what clients receive for two runs of changes is what they receive for the first, then the second |
| Broadcast.FanoutSingleListener | sockets.py:131-132 | with the one listener the server registers, a client receives each change once, in order |
| Sockets.Start | sockets.py:131-132 | start-up gives an empty world whose only listener is `set_listener`, and an empty client list |
| Sockets.Handle | sockets.py:152-166 | definition of one pass of the loop: a stop never leaves the reader waiting; going on binds `v1` and makes only `set` calls, and none when `v1` is `"HELLO"` |
| Sockets.Read | sockets.py:150-168 | definition of a whole session: how the reader ends and its store calls in order, all of them `set` calls |
| Sockets.ReadWs | sockets.py:150-168 | the reader stops as `Read` says; the store ends as the run of the session's `set` calls leaves it; each client gets those calls' notices, in order, once per listener |
| Sockets.Receive | sockets.py:152-166 | one pass of the loop does what `Handle` says: the store and the queues of the registered clients end as the run of its `set` calls says, and a frame that stops the reader changes nothing |
| Sockets.LastValue | sockets.py:157-158 | after `for k1, v1 in packet.items()`, `v1` holds the last value, or its earlier value for an empty packet |
| Sockets.ApplyPacket | sockets.py:164-166 | the packet's pairs are `set` in order; the store and the queues end as that run says |
| Sockets.ReadStopsAtClose | sockets.py:167-168 | frames after the first `None` have no effect, and a session with a `None` does not end waiting |
| Sockets.HandshakeIgnored | sockets.py:159-160 | a packet whose last value is `"HELLO"` makes no `set` at all |
| Sockets.PacketApplied | sockets.py:161-166 | any other packet makes one `set` per pair, in the packet's order, before what follows |
| Sockets.OnlyLastPairChecked | sockets.py:157-166 | only the last pair is tested: a `"HELLO"` before the last pair is stored, while a last `"HELLO"` discards the pairs before it |
| Sockets.EmptyPacket | sockets.py:157-159 | an empty packet raises when `v1` was never bound, and otherwise changes nothing |
| Sockets.SetsNotifyBodies | sockets.py:164-166 | `set` never fails, and each call notifies `{entityid: body}` with the body just stored |
| Sockets.SubscribersReceiveEachSet | sockets.py:164-166 | in the running server, every subscriber receives `{entityid: body}` exactly once for each `set` the reader makes, in order |
| Sockets.WriteWs | sockets.py:204-208 | the writer sends the queued messages oldest first and leaves the queue empty |
| Sockets.SubscribeSocket | sockets.py:195-213 | a socket that connects, sends its frames and leaves is sent the notices of its own changes, in order; the client list ends as it started |
| Sockets.PostEntity | sockets.py:244-248 | POST stores the body with `set`, answers it, and queues `{entity: body}` on every client |
| Sockets.PutEntity | sockets.py:250-254 | PUT with a non-object body fails with nothing changed; otherwise it succeeds exactly when the run of its updates succeeds, answers `get(entity)`, and the store and queues end as that run says; on an object entity the answer, as a map, is the old members overridden by the body's |
| Sockets.ApplyUpdates | sockets.py:250-251 | the `update` loop: if it fails, it fails on the first call and nothing changes; otherwise the store and queues end as the run of updates says |
| Sockets.ClearRoute | sockets.py:269-273 | `/clear` answers an empty world, and every entity then reads as `{}` |
| Sockets.PutOutcome | sockets.py:250-252 | PUT fails exactly when the body has members and the entity's value is not an object; otherwise the entity becomes its old members with the body's assigned in order, other entities are untouched, and one notice is made per member |
| Sockets.PutMergesBody | sockets.py:250-252 | PUT on an object entity leaves it as the old object overridden by the body (`{**old, **body}`) |

## Left out

- Flask routing, `flask_post_json`, the `/` redirect, `app.run` and `print`: the
  framework and diagnostics. Request bodies arrive already parsed. The GET
  routes `/entity/<entity>` and `/world` are thin wrappers of `World.Get` and
  `World.Snapshot`.
- `json.loads` and `json.dumps`: a frame is its parsed value, or `Unparsable`, and a
  queued message is the pair `(entity, value)`, not its JSON text. JSON numbers
  are integers only; floating point is not modelled. JSON text with a repeated
  member name (where `json.loads` keeps the last one) is not modelled: frames and
  bodies are required to be `WellFormed`.
- Sockets.Read: as a function it also accepts objects with repeated names; the
  reader applies it only to `Parsed` frames.
- Websocket `receive` and `send`: the frames a socket delivers are a parameter, and
  `WriteWs` returns what it would send.
- gevent: `spawn`, `kill`, the blocking `queue.get` and the interleaving of
  readers and writers. `SubscribeSocket` fixes one interleaving: read everything,
  then write everything, then leave. `WriteWs` stops where the real writer would
  block on an empty queue.
- Broadcast.Client.Get: requires a non-empty queue, because the real call blocks
  until a message arrives.
- Sockets.SubscribeSocket: in the server the writer loops until `ws.send` raises,
  and only then does the `finally` clause remove the client and kill the reader.
  The model has no socket errors; it removes the client once the reader has
  finished and the queue is drained, so it does not model a client that stays
  registered while its socket is open, nor the exception handling itself.
- Python aliasing: values are immutable. `world()` does not return the live dict,
  and a dict stored by `set` is not shared with later updates. Queued messages are
  serialised when queued in the source, so they are unaffected either way.
- How Flask turns a returned value into an HTTP response: `Response` keeps the
  JSON value.
- Listeners other than `set_listener`: the program registers no other listener, so
  `Listener` has just that one case.
