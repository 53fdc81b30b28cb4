# ar-peggiator presence hub, modelled in Dafny

This project models the multi-user presence logic of ar-peggiator, a
shared augmented-reality instrument built on socket.io. It has two halves
and a composition of them:

- **Server** (`index.js`). The server keeps an object `clients` that maps
  each socket id to that player's pose `{position, quaternion}`. Three
  handlers update it:
  - `connection` registers a default pose, sends the newcomer an
    `introduction`, then broadcasts `newUserConnected`;
  - `move` overwrites the sender's pose if it still has one, then echoes
    the whole object back to the sender;
  - `disconnect` deletes the entry and broadcasts `userDisconnected`.
- **Browser** (`public/js/main.js`). Each browser keeps two globals: its
  own socket `id` and a `clients` object with one avatar per peer. Its
  socket handlers follow the server's events. `getPlayerMove` builds the
  `[position, quaternion]` pair a browser sends with `move`.
- **Composition.** Any number of browsers and the server run together.
  Each connection delivers the server's events in emission order, and each
  page uses one socket for its whole life (no reconnection; see
  "## Left out"). The result: a browser never lists itself, and once it has
  handled every event sent to it, it lists exactly the server's keys minus
  its own id.

Files:

- `wrappers.dfy`: `Option`, for the browser's `id`, which is `undefined`
  until the introduction.
- `objects.dfy`: a JavaScript plain object used as a dictionary. It keeps
  its key/value map and the order in which `Object.keys` lists the keys,
  which is insertion order for socket ids. Assigning to an existing key
  keeps its place; `delete` removes the key from the order.
- `protocol.dfy`: poses, the four server-to-browser events, and
  `Recipients`. `Only(id)` is `client.emit` and `Everyone` is
  `io.sockets.emit`.
- `server.dfy`: each handler as a function on values (`Connected`, `Moved`,
  `Disconnected`). Class `Hub` holds `clients` and an `outbox` of emitted
  envelopes, and its methods make the same changes in place.
- `client.dfy`: each browser handler as a function on values. Class
  `Mirror` holds `id` and `clients`, and its methods run the source's
  loops:
  - the `_ids` loop of `introduction`;
  - the `Object.keys` scan of `newUserConnected` (`HasKey`);
  - the `for ... in` loop of `updateClientMoves` (`EaseAll`).
- `scenario.dfy`: the composed system as a transition system over
  connect, move, disconnect and deliver events, with the agreement
  invariant and the theorem `MirrorsAgree`.

## Model

| member | source | states |
|---|---|---|
| Objects.Empty | index.js:71 | `{}` is a well-formed object with no keys |
| Objects.Obj.Put | index.js:78 | assigning `o[k] = v` makes `k` a key holding `v`, leaves every other entry unchanged, appends `k` to the key order only if it was absent, and keeps the keys duplicate-free |
| Objects.Obj.Delete | index.js:101 | `delete o[k]` removes exactly `k`, keeps every other value, is a no-op when `k` is absent, and shortens the key order by one when `k` is present |
| Objects.Without | index.js:101 | taking `x` out of the key order keeps exactly the other keys, keeps them duplicate-free, and changes nothing when `x` is absent |
| Objects.WithoutAppend | index.js:101 | taking a key out of the order keeps the relative order of the remaining keys: out of `a + b` it leaves what it leaves of `a`, followed by what it leaves of `b` |
| Objects.WithoutOne | index.js:101 | a single key survives exactly when it is not the deleted one |
| Server.Connected | index.js:74-89 | the new id gets exactly position `[0,0,0]` and quaternion `[0,0,0,0]`; every other entry is unchanged; a new id goes last in the key order. Two events are sent, in order: first the introduction, to the newcomer only, carrying the registry including the newcomer, its id, and a key list whose elements are exactly the registry's keys; then `newUserConnected`, to everyone, carrying the newcomer's entry, the count and its id |
| Server.Moved | index.js:91-97 | when the sender has an entry, its pose becomes the payload's position and quaternion and no other entry changes; when it has none the registry is unchanged (no entry is created); either way the key order is kept and exactly one event, `userMoves` with the whole registry, goes to the sender only |
| Server.Disconnected | index.js:100-103 | exactly the sender's key is removed and every remaining value is kept; removing an absent key changes nothing; exactly one event, `userDisconnected` with that id, goes to everyone |
| Server.MovePreservesShape | index.js:91-95 | when every stored pose and the payload have the three.js shape, every stored pose still has it after the move |
| Server.Hub.constructor | index.js:71 | the registry starts empty with nothing emitted |
| Server.Hub.Connection | index.js:74-89 | the in-place handler leaves `clients` as `Connected` gives it, appends exactly its two envelopes to the outbox in order, and keeps the object well-formed |
| Server.Hub.Move | index.js:91-97 | the field-by-field update in place yields the registry `Moved` gives, and the echo is appended to the outbox |
| Server.Hub.Disconnect | index.js:100-103 | the in-place `delete` yields the registry `Disconnected` gives, and the broadcast is appended to the outbox |
| Client.Start | public/js/main.js:10-13 | before any event the own id is undefined and `clients` is empty |
| Client.Added | public/js/main.js:187-191 | `addClient` makes the id a key with a fresh avatar and leaves every other entry unchanged |
| Client.Removed | public/js/main.js:194-198 | `removeClient` deletes exactly the given key and leaves every other entry unchanged |
| Client.AddedExcept | public/js/main.js:212-216 | the `_ids` loop adds every listed id except the own one, with a fresh avatar; keys not listed keep their entries, and no key is lost |
| Client.Introduced | public/js/main.js:206-217 | `introduction` records the own id and adds exactly the listed ids other than it, each as a fresh avatar, on top of the existing keys; every existing entry whose id is not added keeps its value |
| Client.ReintroductionKeepsStalePeer | public/js/main.js:206-217 | an introduction only adds: a page that already lists a peer which is no longer in the registry still lists it after an introduction under a new id |
| Client.Joined | public/js/main.js:220-233 | `newUserConnected` adds the id with a fresh avatar exactly when it is neither the own id nor already a key; otherwise the state is unchanged; existing entries are never altered |
| Client.HasKey | public/js/main.js:222-228 | the scan over `Object.keys(clients)` sets `alreadyHasUser` exactly when the id is a key |
| Client.Left | public/js/main.js:235-239 | `userDisconnected` with the own id changes nothing; with any other id it removes exactly that key; remaining entries keep their values |
| Client.MovesApplied | public/js/main.js:116-126 | `updateClientMoves` never adds or removes a key and keeps the key order; it leaves unchanged the own entry and entries whose id the update does not mention; every other present entry is eased towards the pose the update gives for it |
| Client.EaseAll | public/js/main.js:117-125 | the `for ... in` loop over the update's keys, taken in any order, produces exactly the entries `MovesApplied` describes |
| Client.Receive | public/js/main.js:205-244 | dispatching an event keeps the object well-formed; only `introduction` sets the own id, to the id it carries |
| Client.ReceiveKeepsSelfOut | public/js/main.js:206-239 | once the own id is known, no handler adds it to `clients`; the same holds for an introduction whose id has no entry yet |
| Client.AnnouncementFirstMirrorsSelf | index.js:86-89 | if a fresh browser handled its own `newUserConnected` before its introduction, it would list itself; this is why the server introduces first |
| Client.PlayerMove | public/js/main.js:129-134 | `getPlayerMove` yields a 3-element position and a 4-element quaternion holding the player's coordinates in order, which the server stores as `data[0]` and `data[1]` |
| Client.Mirror.constructor | public/js/main.js:10-13 | the globals start as `Start` describes |
| Client.Mirror.AddClient | public/js/main.js:187-191 | in place, `clients` becomes `Added` of its old value and the own id is untouched |
| Client.Mirror.RemoveClient | public/js/main.js:194-198 | in place, `clients` becomes `Removed` of its old value and the own id is untouched |
| Client.Mirror.Introduction | public/js/main.js:206-217 | the handler's loop leaves the globals as `Introduced` gives them |
| Client.Mirror.NewUserConnected | public/js/main.js:220-233 | the handler, with its key scan, leaves the globals as `Joined` gives them |
| Client.Mirror.UserDisconnected | public/js/main.js:235-239 | the handler leaves the globals as `Left` gives them |
| Client.Mirror.UpdateClientMoves | public/js/main.js:116-126 | the handler leaves the globals as `MovesApplied` gives them |
| Client.Mirror.Handle | public/js/main.js:205-244 | handling an event in place leaves the globals as `Receive` gives them |
| Scenario.Init | index.js:71 | before any connection the registry is empty and no browser exists |
| Scenario.SentTo | index.js:83-89 | no event reaches a socket when none is addressed to it or to everyone; every message reaches it, in order, when all are |
| Scenario.SentToOne | index.js:83 | one event reaches a socket exactly when it is sent to everyone or to that socket |
| Scenario.SentToAppend | index.js:83-89 | the events reaching a socket from two batches are those from the first followed by those from the second, so with `SentToOne` the socket receives exactly the events addressed to it or to everyone, in emission order |
| Scenario.ConnectedReaches | index.js:86-89 | on `connection` the newcomer receives its introduction and then its own `newUserConnected`; every other socket receives only the `newUserConnected` |
| Scenario.MovedReaches | index.js:96 | the `userMoves` echo reaches the mover and no other socket |
| Scenario.DisconnectedReaches | index.js:102 | `userDisconnected` reaches every connected socket |
| Scenario.SettleAppend | public/js/main.js:205-244 | a browser that handles a queue and then one more event ends in the state that handling the longer queue gives |
| Scenario.Enqueue | public/js/main.js:205-244 | queuing an event that is not an introduction keeps a browser self-safe: either it is introduced and lists no entry for itself, or it is fresh and its first queued event is its own introduction |
| Scenario.HearsJoin | public/js/main.js:220-233 | a healthy browser that is sent `newUserConnected` for another id converges to the registry that now includes that id |
| Scenario.HearsLeave | public/js/main.js:235-239 | a healthy browser that is sent `userDisconnected` for another id converges to the registry without it |
| Scenario.HearsMoves | public/js/main.js:242-244 | a `userMoves` queued for a healthy browser changes neither its convergence nor its self-safety |
| Scenario.HearsNothing | index.js:91-97 | a browser that is sent nothing stays healthy while the registry keeps its keys |
| Scenario.NewcomerHealthy | index.js:86-89 | a fresh browser that is sent its introduction and then its own arrival converges to the registry minus itself and never lists itself |
| Scenario.HandlesOldest | public/js/main.js:205-244 | handling the oldest queued event keeps a healthy browser healthy |
| Scenario.ConnectKeepsBrowser | index.js:74-89 | after a connection, the newcomer and every browser that was healthy are healthy against the new registry |
| Scenario.ConnectKeepsAgreement | index.js:74-89 | a connection of a fresh id keeps the system invariant: the registry is well-formed, its keys are exactly the connected sockets, and every browser is healthy |
| Scenario.MoveKeepsBrowser | index.js:91-97 | after a move, every browser that was healthy is still healthy |
| Scenario.MoveKeepsAgreement | index.js:91-97 | a move from any id, even one that already disconnected, keeps the system invariant |
| Scenario.DisconnectKeepsBrowser | index.js:100-103 | after a disconnect, every remaining browser that was healthy is still healthy |
| Scenario.DisconnectKeepsAgreement | index.js:100-103 | a disconnect of a connected socket keeps the system invariant |
| Scenario.DeliverKeepsAgreement | public/js/main.js:205-244 | a browser handling its oldest waiting event keeps the system invariant |
| Scenario.StepKeepsAgreement | index.js:74-104 | every event the transport may produce keeps the system invariant |
| Scenario.InitAgrees | index.js:71 | the invariant holds before any connection |
| Scenario.RunKeepsAgreement | index.js:74-104 | the invariant holds after any feasible sequence of events |
| Scenario.MirrorsAgree | index.js:71-105 | after any feasible run, every connected socket is a registry key. A browser that knows its id never lists itself. A browser with nothing left to handle knows its id and lists exactly the registry's keys other than its own |

## Left out

- Rendering is left out: the three.js scene, meshes, camera, and the `lerp`/`slerp` easing in `updateClientMoves` (floating point, external library). An avatar is modelled as the sequence of poses it was eased towards, so the model records which entries a `userMoves` touches and with which pose, not where the mesh ends up.
- `glScene.addClient` and `glScene.removeClient` are left out: they create and remove meshes. A repeated `addClient` for the same id, which adds a second mesh in the source, is a reset of the entry here.
- Transport and process I/O are left out: express, the HTTPS certificate reads, `server.listen`, and the socket.io transport itself. Delivery is modelled as one first-in-first-out inbox per connection. A connection is modelled as attached to its browser from the moment the server registers it.
- `io.engine.clientsCount` is an opaque number passed into `connection`. It is not derived from the registry.
- `console.log` output is left out.
- `Server.Moved`: the payload is taken to be the pair `[position, quaternion]`. A malformed `data`, such as a non-array or one with missing elements, is not modelled.
- `Client.EaseAll`: the order in which `for ... in` visits the update's keys is left open. The loop's result is proved independent of that order.
- JavaScript lists integer-like keys before other keys in `Object.keys`. That rule is not modelled, because socket.io ids are not integer-like.
- `public/js/arbutton.js` (DOM and WebXR session buttons) and `public/emscripten/hello.cpp` (a Pure Data external whose methods only call the host's C API) have no logic to model.
- `newUserConnected` is emitted to every socket, including the newcomer itself (index.js:89). The introduction carries the whole registry and a key list that includes the newcomer (index.js:86). The model keeps both, and the browser's own-id checks (public/js/main.js:213, public/js/main.js:229) keep the newcomer out of its own `clients`.
- Reconnection is not modelled: each page has exactly one socket for its whole life, and every `Connect` starts a browser with fresh globals. socket.io-client reconnects by default, and the page keeps its `id` and `clients` (public/js/main.js:10-13) with the same handlers attached. The new introduction only adds entries (public/js/main.js:212-216), so a peer that left while the page was disconnected stays listed for good (`Client.ReintroductionKeepsStalePeer`). The agreement theorem `Scenario.MirrorsAgree` therefore holds only for pages that never reconnect.
