# Channel-presence registry of the socket.io signalling server

The server keeps one process-wide object `channels` that maps a channel
name to itself, and each socket keeps an `initiatorChannel` string that
starts out as `""`. Three socket handlers drive them:

- `new-channel` registers a channel. If the channel was not present, the
  socket becomes its initiator and namespace setup (`onNewNamespace`) runs.
- `presence` answers whether a channel is present.
- `disconnect` deletes the socket's initiator channel, if it has one.

"Present" is JavaScript truthiness of the stored value.

This project models that registry as a sequential state machine. Node's
event loop runs one handler at a time, so each handler is one atomic,
pure transition on an immutable `State`:

- `channels` is the registry;
- `init` maps each live connection to its initiator channel;
- `setups` is the trace of namespace setups triggered so far.

Files:

- `registry.dfy` (module `Registry`): the state, the four transitions
  (`Connect`, `NewChannel`, `Presence`, `Disconnect`) and the invariant `Inv`.
- `registry_lemmas.dfy` (module `RegistryLemmas`): the invariant kept by
  each transition, and the behaviour on present, absent and empty channel
  names.
- `event_loop.dfy` (module `EventLoop`): socket events, one handler step
  per event, runs of events with the replies they emit, and properties of
  whole runs.

Modelling choices:

- A connection is an opaque `nat` handle.
- When a socket disconnects, its `init` entry is removed. Its handler
  closures die with the socket, so it can send no further events.
- `new-channel` and `disconnect` are only defined for a live connection.
  `Connect` needs a fresh handle. `EventLoop.Step` treats an event that
  cannot be delivered as a no-op.
- The invariant `Inv` has three parts:
  - every entry maps a channel to itself;
  - every live connection's non-empty initiator is registered;
  - no two live connections share a non-empty initiator.

Edge cases the model makes explicit:

- The empty channel name is stored but never reported present.
- A connection that initiates a second absent channel forgets the first.
  The first channel then stays present with no initiator.
- Re-creating a channel after its initiator left triggers namespace
  setup again.

## Model

| member | source | states |
|---|---|---|
| Registry.Presence | server.js:86-89 | The answer is true only for a registered channel. Under the invariant it is false for the empty name. For a channel stored under its own name, it is true exactly when the name is non-empty. |
| Registry.Connect | server.js:69-70 | A new socket starts with initiator `""`. The registry, the setup trace and every other socket's initiator are unchanged. |
| Registry.NewChannel | server.js:75-84 | Afterwards `ch` is stored as itself and is present iff it is non-empty. No other registry entry changes, and no other socket's initiator changes. If `ch` was present, initiators and trace are unchanged. If it was absent, the caller's initiator becomes `ch` and exactly one `Setup(ch, sender)` is appended. |
| Registry.Disconnect | server.js:91-95 | The socket's record ends. A truthy initiator removes exactly that key and nothing else. An empty initiator leaves the registry unchanged. The trace is unchanged. |
| RegistryLemmas.StartInv | server.js:67-70 | The empty registry with no connections satisfies the invariant. |
| RegistryLemmas.PresenceMeansRegistered | server.js:82-87 | Under the invariant, a channel is present iff it is registered and its name is non-empty. |
| RegistryLemmas.ConnectPreservesInv | server.js:69-70 | A new connection keeps the invariant. |
| RegistryLemmas.NewChannelPreservesInv | server.js:75-84 | `new-channel` keeps the invariant. In particular, claiming an absent channel cannot make two sockets share an initiator. |
| RegistryLemmas.DisconnectPreservesInv | server.js:91-95 | `disconnect` keeps the invariant. |
| RegistryLemmas.NewChannelOnPresentIsNoop | server.js:76-82 | `new-channel` on a present channel leaves the whole state unchanged: registry, every initiator and the trace. |
| RegistryLemmas.NewChannelIdempotent | server.js:76-82 | For a non-empty name, a second `new-channel`, from any live socket, changes nothing. |
| RegistryLemmas.EmptyChannelStoredButAbsent | server.js:75-95 | `new-channel` with `""` stores the key, but `""` stays absent. Setup is triggered again every time, the caller's initiator becomes `""`, and the caller's disconnect leaves the registry unchanged. |
| RegistryLemmas.DisconnectSparesOthers | server.js:91-95 | Under the invariant, one socket's disconnect never removes a channel that another live socket initiated. |
| RegistryLemmas.SecondInitiationLeaksFirst | server.js:75-95 | After a socket initiates channel `a` and then channel `b`, its disconnect removes `b` only. `a` stays present, and no live socket is its initiator. |
| RegistryLemmas.RecreateAfterInitiatorLeaves | server.js:75-95 | Once the initiator of `ch` disconnects, a `new-channel` for `ch` from another socket triggers setup a second time. That socket becomes the initiator, and `ch` is present again. |
| EventLoop.Step | server.js:69-95 | An undeliverable event changes nothing. A presence query leaves the state unchanged and emits exactly one reply to the asking socket, carrying the presence answer. Other events emit no reply. |
| EventLoop.StepPreservesInv | server.js:69-95 | Every handler step keeps the invariant. |
| EventLoop.Run | server.js:86-89 | A run of events emits at most one reply per presence query. `EventLoop.RunAnswersQuery` states which reply each query from a live socket gets. |
| EventLoop.RunAnswersQuery | server.js:86-89 | A presence query from a live socket, appended to any run, leaves the state of that run unchanged. It adds exactly one reply, to the asking socket, carrying the channel's presence in that state. |
| EventLoop.RunPreservesInv | server.js:69-95 | A run of handler steps keeps the invariant (by induction on the events). |
| EventLoop.ReachableInv | server.js:67-95 | Every state reachable from process start satisfies the invariant. |
| EventLoop.QueriesDoNotChangeState | server.js:86-89 | Dropping every presence query from a run leaves the final state unchanged: registry, initiators and setup trace. |
| EventLoop.AlphaSession | server.js:67-95 | In a concrete session, connection 2 sees "alpha" present while its initiator is connected and absent after it leaves. Setup runs once. |

## Left out

- The body of `onNewNamespace` (server.js:108-143): it installs socket.io namespace listeners and relays messages through the library. The model records only that it was called, and with which arguments, as a `Setup` entry.
- `io.isConnected` (server.js:71-73, 121-123): no behaviour of the registry depends on it.
- Non-string channel values and inherited object keys: the model takes channel names as strings. In JavaScript, `undefined`, numbers or a prototype key such as `"constructor"` read through `channels[...]` can behave differently.
- room.js: room membership and fan-out are done by socket.io itself (`join`, `leave`, room emits), whose semantics are outside this model. Its parameter check only logs.
- Express/CORS middleware, static routes, the HTTP and HTTPS listeners, TLS options, `console.log`, and the `unhandledRejection` exit: these are I/O and process plumbing.
- Concurrency: the event loop serialises handlers, so events are a sequence of atomic steps. Transport timing is not modelled.
- Room membership: server.js does not track which sockets are in a channel. An entry in `channels` is deleted only when the socket recorded as its initiator disconnects (server.js:91-95), never when the last member leaves.
- A `new-channel` event without a payload object throws in the handler at `data.channel` (server.js:76) before any state changes, and server.js does not catch it. The model assumes `data` is an object with a string `channel`, so this error path is not modelled.
