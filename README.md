# Signaling relay of Mujjus-voicecall, modelled in Dafny

The voice-call application's Socket.IO server (`Webrtc-server/server.js`)
relays WebRTC call signaling between browsers. It keeps two in-memory maps:
`users`, from a user's email to the id of the socket that last registered
it, and `socketToEmail`, from a socket id to the email that socket last
registered. It handles five events:

- `register-user` sets both maps;
- `call-user` looks up `userToCall` and emits `call-made` with `{ offer, from }`
  to that socket;
- `answer-call` looks up `to` and emits `call-answered` with `{ answer }`;
- `cancel-call` looks up `to` and emits `call-cancelled` with no payload;
- `disconnect` deletes the socket's entry and its email's entry.

The model keeps the code's own behaviour, quirks included:

- registering overwrites the previous socket of an email;
- `offer`, `answer` and `from` are copied as sent, possibly undefined, and
  `from` is never checked against the sender's registration;
- `disconnect` deletes the email's entry even when a newer socket has
  registered that email since;
- a socket that registers twice keeps only its last email in `socketToEmail`;
- `if (email)` is JavaScript truthiness, so a socket registered under the
  empty string or with no argument is never cleaned up;
- destructuring a missing or `null` payload throws a TypeError before the
  handler does anything;
- the log lines use template literals, which convert payload values to
  strings. A decoded object with its own `toString` key cannot be converted,
  nor can an array holding one, so the log line throws a TypeError at its
  own point in the handler. The throw comes after the map updates in
  `register-user`, before the emit in `call-user`, after the emit in
  `cancel-call`, and before the deletions in `disconnect`.

Layout:

- `js_value.dfy`: module `Wrappers` (an `Option` type) and module `JsValue`.
  `JsValue` holds the decoded JavaScript values the handlers receive, and
  their truthiness, property reads, and when converting one to a string throws.
- `relay.dfy`: module `Relay`.
  - The registry as a value, and one function per handler.
  - `Handle`, which dispatches an event by name.
  - `Apply` and `Run`, which handle one event and a sequence of events.
  - A run stops at the first thrown TypeError. Socket.IO calls listeners from
    `process.nextTick`, so that exception is uncaught and ends the Node
    process.
- `relay_server.dfy`: module `RelayServer`.
  - Class `SignalingServer` has the two maps and an outbox of emitted
    deliveries as fields.
  - Each handler is a method that changes them in place.
  - Each method's postcondition ties the new state to the matching
    function of `Relay`.
- `relay_properties.dfy`: module `RelayProperties`, with lemmas relating
  several calls, invariants of whole runs, and the two-user scenario.

The general design this server belongs to describes a registry from each
identity to a set of connections, with fan-out to all of them, and an
`unregister(identity, handle)` that removes only that handle. The code
instead keeps one socket per email and deletes by email. The model follows
the code. `DisconnectOfOlderSocketDropsNewer` and `DisconnectLeavesEarlierEmail`
show where the two part ways.

## Model

| member | source | states |
|---|---|---|
| `Relay.RegisterUser` | Webrtc-server/server.js:35-39 | afterwards `users[email] == socket` and `socketToEmail[socket] == email`; both key sets grow by exactly those keys; every other key keeps its value; nothing is sent; the log line throws, after the update, exactly when the email cannot be converted to a string |
| `Relay.CallUser` | Webrtc-server/server.js:42-52 | the registry never changes. A nullish payload throws with nothing sent. Otherwise one delivery is sent exactly when `userToCall` is registered and `from` can be converted to a string; it goes to `users[userToCall]` as `call-made` with one object whose keys are exactly `offer` and `from`, both copied from the payload. It throws exactly when the log line of the branch taken cannot convert `from` (target found) or `userToCall` (target missing) |
| `Relay.AnswerCall` | Webrtc-server/server.js:55-65 | the registry never changes. A nullish payload throws with nothing sent. Otherwise one delivery is sent exactly when `to` is registered; it goes to `users[to]` as `call-answered` with one object whose only key is `answer`, copied from the payload. It throws exactly when `to` is missing and cannot be converted to a string |
| `Relay.CancelCall` | Webrtc-server/server.js:67-74 | the registry never changes. A nullish payload throws with nothing sent. Otherwise one `call-cancelled` without arguments goes to `users[to]` exactly when `to` is registered, and the handler throws after it exactly when `data.from` cannot be converted to a string |
| `Relay.Disconnect` | Webrtc-server/server.js:78-85 | nothing is sent. No change when the socket has no email or a falsy one. For a truthy email that cannot be converted to a string, it throws before removing anything. Otherwise exactly the socket's key and its email's key are removed, whatever socket the email maps to, and every other entry keeps its value |
| `Relay.Handle` | Webrtc-server/server.js:31-86 | each of the five events is handled exactly as its handler function says; a name without a handler changes nothing, sends nothing and does not throw; only `register-user` and `disconnect` change the registry; every event sends at most one delivery |
| `RelayServer.SignalingServer.constructor` | Webrtc-server/server.js:18-19 | both maps start empty and nothing has been emitted |
| `RelayServer.SignalingServer.RegisterUser` | Webrtc-server/server.js:35-39 | both maps updated in place as `Relay.RegisterUser` says, nothing emitted, and the throw reported as it says |
| `RelayServer.SignalingServer.CallUser` | Webrtc-server/server.js:42-52 | maps unchanged; the outbox grows by exactly the deliveries of `Relay.CallUser` and the throw is reported as it says; the sender is not consulted |
| `RelayServer.SignalingServer.AnswerCall` | Webrtc-server/server.js:55-65 | maps unchanged; the outbox grows by exactly the deliveries of `Relay.AnswerCall` and the throw is reported as it says |
| `RelayServer.SignalingServer.CancelCall` | Webrtc-server/server.js:67-74 | maps unchanged; the outbox grows by exactly the deliveries of `Relay.CancelCall` and the throw is reported as it says |
| `RelayServer.SignalingServer.Disconnect` | Webrtc-server/server.js:78-85 | maps updated in place as `Relay.Disconnect` says, nothing emitted, and the throw reported as it says |
| `RelayServer.SignalingServer.Receive` | Webrtc-server/server.js:31-86 | dispatching an event by name changes the maps, the outbox and the throw flag exactly as `Relay.Handle` says, which covers every destructuring and log-line throw of the five handlers |
| `RelayProperties.RegisteredEmailIsReachable` | Webrtc-server/server.js:36-46 | after `register-user` with a primitive email, looking that email up finds the registering socket |
| `RelayProperties.RegisterThenDisconnect` | Webrtc-server/server.js:35-84 | for a truthy email that can be converted to a string, a disconnect right after `register-user` leaves both maps as they were, minus the two keys the registration touched. For an email that cannot be converted, the disconnect throws and removes nothing |
| `RelayProperties.ReRegisterOverwrites` | Webrtc-server/server.js:36-37 | after a second socket registers the same email, lookups and routing reach only the second socket; the first socket's `socketToEmail` entry stays |
| `RelayProperties.RegisterTwiceKeepsLastEmail` | Webrtc-server/server.js:36-37 | a socket registering two emails keeps only the last in `socketToEmail`, while `users` maps both emails to it |
| `RelayProperties.DisconnectIdempotent` | Webrtc-server/server.js:79-84 | a second disconnect of the same socket has the same outcome as the first and changes the registry no further |
| `RelayProperties.DisconnectOfOlderSocketDropsNewer` | Webrtc-server/server.js:82-83 | for a truthy primitive email, disconnecting its older socket removes the email although a newer socket registered it, so the email becomes unreachable |
| `RelayProperties.DisconnectLeavesEarlierEmail` | Webrtc-server/server.js:79-83 | a socket that registered two emails and disconnects is still reached through the first email |
| `RelayProperties.FalsyEmailIsNeverReleased` | Webrtc-server/server.js:80 | a registration under a falsy email survives the socket's disconnect |
| `RelayProperties.MissingTargetReachesUndefinedRegistrant` | Webrtc-server/server.js:35-48 | `register-user` with no argument registers the key undefined. A `call-user` without `userToCall` is then delivered to that socket, unless `from` cannot be converted to a string; in that case nothing is sent and the handler throws |
| `RelayProperties.RoutingIgnoresSender` | Webrtc-server/server.js:42-74 | every event other than `register-user` (and `disconnect`) has the same outcome whichever socket sent it, so `from` is the sender-supplied value |
| `RelayProperties.ClientSignalDataIsDropped` | client/src/Components/Welcome.tsx:98-102 | the caller's `{ userToCall, signalData, from }` reaches the callee as `call-made` with `offer` undefined, so the signal is not forwarded. When `from` cannot be converted to a string, nothing is sent and the handler throws |
| `RelayProperties.UnprintableFromEndsServer` | Webrtc-server/server.js:46-48 | a `call-user` to a registered email whose `from` is an object with its own `toString` key sends nothing and ends the server |
| `RelayProperties.AliceCallsBob` | Webrtc-server/server.js:35-85 | two users register and one calls the other: the callee gets exactly the offer and the caller's email, and the caller gets nothing. After the callee disconnects, the same call delivers nothing and the server keeps running |
| `RelayProperties.RunExtendsOutbox` | Webrtc-server/server.js:48-71 | a run never rewrites earlier deliveries and adds at most one per event |
| `RelayProperties.RoutingRunKeepsRegistry` | Webrtc-server/server.js:42-74 | any run of routing events (or events without a handler) leaves both maps unchanged |
| `RelayProperties.CrashIsFinal` | Webrtc-server/server.js:43 | once a handler has thrown, no later event has any effect |
| `RelayProperties.NullishCallEndsServer` | Webrtc-server/server.js:43 | a `call-user` with no payload ends the server with the registry and outbox as they were before it |
| `RelayProperties.PrintableRunNeverCrashes` | Webrtc-server/server.js:35-85 | a run of events whose logged values all convert to strings, and whose routing payloads are not nullish, never throws, and keeps every recorded email convertible |
| `RelayProperties.PrintableTrafficNeverCrashes` | Webrtc-server/server.js:35-85 | starting from an empty server, such a run never ends the server |
| `RelayProperties.RunKeepsSocketsWithin` | Webrtc-server/server.js:36-71 | every socket the maps mention or anything was sent to was either already known or sent `register-user` during the run |
| `RelayProperties.OnlyRegistrantsReceive` | Webrtc-server/server.js:36-71 | starting from an empty server, only sockets that sent `register-user` ever receive a delivery |

## Left out

- The `express`, `http` and `cors` setup and `server.listen` (`Webrtc-server/server.js:1-14, 22-28, 90-93`): transport plumbing.
- `console.log` and `console.error`: what they print is not modelled. Evaluating their template-literal arguments is modelled,
  because converting a payload value to a string can throw.
- Socket.IO delivery. An emit is only appended to the outbox. Not modelled: delivery to a socket that has gone, order and timing, and the
  JSON serialization that drops undefined properties (so the callee sees `{ from }` where the model records `offer: undefined`).
- Relay.RegisterUser, Relay.Lookup, Relay.Disconnect: the maps compare object and array keys by content, where a JavaScript `Map` compares them by
  reference. Lookups treat such keys as never found, as they never are in JavaScript. But two sockets registering equal objects
  share one entry in the model and hold two in JavaScript.
- Strings are sequences of Unicode scalar values. A JSON string such as `"\ud800"` decodes to a JavaScript string holding a lone
  surrogate, and such an email or key cannot be represented in the model.
- Numbers are integers: floating point, `NaN` and `-0` are not modelled. Binary attachments and acknowledgement callbacks are left
  out as well.
- `Run` accepts any sequence of events. That includes sequences Socket.IO never produces, such as a message from a socket after
  its disconnect, or a client packet naming a reserved event. Each lemma about `Run` therefore also covers the sequences that can
  occur.
- What happens after the process ends on an uncaught TypeError (a restart by a supervisor, say) is outside the code.
- The set-of-connections registry, fan-out and per-handle unregistration of the general design: the code does not implement them.
- `server/authapp/consumers.py`: calls into the Django Channels layer, which is not part of this model.
- `server/authapp/views.py`, `models.py` and `urls.py`: ORM queries and password hashing.
- The client code (`client/src/...`): React state, `fetch`, `localStorage`, browser WebRTC APIs, timers. The client's
  `accept-call` has no server handler; `Handle` treats it as any unknown event name.
