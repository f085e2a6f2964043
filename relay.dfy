/** The signaling relay of Webrtc-server/server.js as functions on values: the
    two registry maps, one function per `socket.on` handler, the dispatch of an
    incoming event to its handler, and runs of many events. */
module Relay {
  import opened Wrappers
  import opened JsValue

  /** A Socket.IO socket id. Socket.IO never hands out the empty string, so a
      socket id is always truthy. */
  type SocketId = s: string | s != "" witness "0"

  // Names of the events the clients emit and the server handles.
  const RegisterUserEvent := "register-user"
  const CallUserEvent := "call-user"
  const AnswerCallEvent := "answer-call"
  const CancelCallEvent := "cancel-call"

  // Names of the events the server emits.
  const CallMade := "call-made"
  const CallAnswered := "call-answered"
  const CallCancelled := "call-cancelled"

  /** One `io.to(to).emit(event, ...args)`. */
  datatype Delivery = Delivery(to: SocketId, event: string, args: seq<Value>)

  /** The two module-level maps: `users` (email to socket id) and
      `socketToEmail` (socket id to email). An "email" is whatever value the
      client sent with `register-user`. */
  datatype Registry = Registry(users: map<Value, SocketId>, socketToEmail: map<SocketId, Value>)

  /** What handling one event did: the registry afterwards, the deliveries
      it emitted, and whether it threw a TypeError. A handler throws while
      destructuring a nullish argument, or while converting a value to a
      string for a log line; whatever it did before the throw stays done. */
  datatype Outcome = Outcome(reg: Registry, sent: seq<Delivery>, threw: bool)

  /** `users.get(key)` followed by the truthiness test on the socket id it
      yields. A key that is an object or an array was decoded from the
      current packet, so it is a fresh object that no stored key is
      identical to: the lookup misses. */
  function Lookup(users: map<Value, SocketId>, key: Value): (r: Option<SocketId>)
    ensures r.Some? <==> IsPrimitive(key) && key in users
    ensures r.Some? ==> r.value == users[key]
  {
    if IsPrimitive(key) && key in users then Some(users[key]) else None
  }

  /** Send one event to the socket registered for `target`, if there is one. */
  function Route(users: map<Value, SocketId>, target: Value, event: string, args: seq<Value>): (r: seq<Delivery>)
    ensures |r| <= 1
    ensures r == [] <==> Lookup(users, target).None?
    ensures forall d :: d in r ==> Lookup(users, target) == Some(d.to) && d.event == event && d.args == args
  {
    match Lookup(users, target)
    case None => []
    case Some(id) => [Delivery(id, event, args)]
  }

  /** The object literal `{ offer, from }` emitted with `call-made`. */
  function CallMadePayload(offer: Value, from: Value): Value
  {
    Obj(map["offer" := offer, "from" := from])
  }

  /** The object literal `{ answer }` emitted with `call-answered`. */
  function CallAnsweredPayload(answer: Value): Value
  {
    Obj(map["answer" := answer])
  }

  /** `register-user`: the email now maps to this socket (overwriting any
      earlier socket) and this socket to the email (overwriting any earlier
      email); every other key of both maps keeps its value. Nothing is sent.
      The log line then throws when the email cannot be converted to a
      string, after both maps have been updated. */
  function RegisterUser(reg: Registry, socket: SocketId, email: Value): (o: Outcome)
    ensures email in o.reg.users && o.reg.users[email] == socket
    ensures socket in o.reg.socketToEmail && o.reg.socketToEmail[socket] == email
    ensures o.reg.users.Keys == reg.users.Keys + {email}
    ensures o.reg.socketToEmail.Keys == reg.socketToEmail.Keys + {socket}
    ensures forall e :: e in reg.users && e != email ==> o.reg.users[e] == reg.users[e]
    ensures forall s :: s in reg.socketToEmail && s != socket ==> o.reg.socketToEmail[s] == reg.socketToEmail[s]
    ensures o.sent == []
    ensures o.threw <==> ToStringThrows(email)
  {
    var reg' := Registry(reg.users[email := socket], reg.socketToEmail[socket := email]);
    Outcome(reg', [], ToStringThrows(email))
  }

  /** `call-user`: when `data.userToCall` is registered, one `call-made` goes
      to its socket, carrying an object with exactly the keys `offer` and
      `from`, copied from `data` as sent (possibly undefined). That happens
      unless the log line before the emit throws on `from`. When the target
      is not registered, nothing is sent and the error log throws on a
      `userToCall` that cannot be converted to a string. Nothing else of
      `data` is forwarded, the sender's own registration is not consulted,
      and the registry never changes. */
  function CallUser(reg: Registry, data: Value): (o: Outcome)
    ensures o.reg == reg
    ensures |o.sent| <= 1
    ensures IsNullish(data) ==> o.threw && o.sent == []
    ensures !IsNullish(data) ==>
      var found := Lookup(reg.users, Prop(data, "userToCall")).Some?;
      && (o.sent != [] <==> found && !ToStringThrows(Prop(data, "from")))
      && (o.threw <==> if found then ToStringThrows(Prop(data, "from")) else ToStringThrows(Prop(data, "userToCall")))
    ensures forall d :: d in o.sent ==>
      && !IsNullish(data)
      && Prop(data, "userToCall") in reg.users
      && d.to == reg.users[Prop(data, "userToCall")]
      && d.event == CallMade
      && |d.args| == 1 && d.args[0].Obj?
      && d.args[0].props.Keys == {"offer", "from"}
      && d.args[0].props["offer"] == Prop(data, "offer")
      && d.args[0].props["from"] == Prop(data, "from")
  {
    if IsNullish(data) then Outcome(reg, [], true)
    else
      var userToCall, offer, from := Prop(data, "userToCall"), Prop(data, "offer"), Prop(data, "from");
      match Lookup(reg.users, userToCall)
      case Some(_) =>
        if ToStringThrows(userToCall) || ToStringThrows(from) then Outcome(reg, [], true)
        else Outcome(reg, Route(reg.users, userToCall, CallMade, [CallMadePayload(offer, from)]), false)
      case None => Outcome(reg, [], ToStringThrows(userToCall))
  }

  /** `answer-call`: when `data.to` is registered, one `call-answered` goes to
      its socket, carrying an object whose only key is `answer`, copied from
      `data`. Otherwise nothing is sent, and the error log throws on a `to`
      that cannot be converted to a string. The registry never changes. */
  function AnswerCall(reg: Registry, data: Value): (o: Outcome)
    ensures o.reg == reg
    ensures |o.sent| <= 1
    ensures IsNullish(data) ==> o.threw && o.sent == []
    ensures !IsNullish(data) ==>
      var found := Lookup(reg.users, Prop(data, "to")).Some?;
      && (o.sent != [] <==> found)
      && (o.threw <==> !found && ToStringThrows(Prop(data, "to")))
    ensures forall d :: d in o.sent ==>
      && !IsNullish(data)
      && Prop(data, "to") in reg.users
      && d.to == reg.users[Prop(data, "to")]
      && d.event == CallAnswered
      && |d.args| == 1 && d.args[0].Obj?
      && d.args[0].props.Keys == {"answer"}
      && d.args[0].props["answer"] == Prop(data, "answer")
  {
    if IsNullish(data) then Outcome(reg, [], true)
    else
      var to, answer := Prop(data, "to"), Prop(data, "answer");
      match Lookup(reg.users, to)
      case Some(_) =>
        if ToStringThrows(to) then Outcome(reg, [], true)
        else Outcome(reg, Route(reg.users, to, CallAnswered, [CallAnsweredPayload(answer)]), false)
      case None => Outcome(reg, [], ToStringThrows(to))
  }

  /** `cancel-call`: when `data.to` is registered, one `call-cancelled`
      without arguments goes to its socket, and the log line after the emit
      throws when `data.from` cannot be converted to a string. Otherwise
      nothing is sent and nothing is logged. The registry never changes. */
  function CancelCall(reg: Registry, data: Value): (o: Outcome)
    ensures o.reg == reg
    ensures |o.sent| <= 1
    ensures IsNullish(data) ==> o.threw && o.sent == []
    ensures !IsNullish(data) ==>
      var found := Lookup(reg.users, Prop(data, "to")).Some?;
      && (o.sent != [] <==> found)
      && (o.threw <==> found && ToStringThrows(Prop(data, "from")))
    ensures forall d :: d in o.sent ==>
      && !IsNullish(data)
      && Prop(data, "to") in reg.users
      && d.to == reg.users[Prop(data, "to")]
      && d.event == CallCancelled
      && d.args == []
  {
    if IsNullish(data) then Outcome(reg, [], true)
    else
      var to := Prop(data, "to");
      var sent := Route(reg.users, to, CallCancelled, []);
      Outcome(reg, sent, sent != [] && ToStringThrows(Prop(data, "from")))
  }

  /** `disconnect`: when the socket's recorded email is truthy, the log line
      converts it to a string and then the socket's entry and the email's
      entry are removed, whichever socket the email maps to by now. When
      that conversion throws, nothing is removed. When no email is recorded,
      or a falsy one, nothing changes. Nothing is ever sent. */
  function Disconnect(reg: Registry, socket: SocketId): (o: Outcome)
    ensures o.sent == []
    ensures socket !in reg.socketToEmail ==> o == Outcome(reg, [], false)
    ensures socket in reg.socketToEmail && !Truthy(reg.socketToEmail[socket]) ==> o == Outcome(reg, [], false)
    ensures socket in reg.socketToEmail && Truthy(reg.socketToEmail[socket]) && ToStringThrows(reg.socketToEmail[socket]) ==>
      o == Outcome(reg, [], true)
    ensures socket in reg.socketToEmail && Truthy(reg.socketToEmail[socket]) && !ToStringThrows(reg.socketToEmail[socket]) ==>
      && !o.threw
      && o.reg.socketToEmail.Keys == reg.socketToEmail.Keys - {socket}
      && o.reg.users.Keys == reg.users.Keys - {reg.socketToEmail[socket]}
      && (forall s :: s in o.reg.socketToEmail ==> o.reg.socketToEmail[s] == reg.socketToEmail[s])
      && (forall e :: e in o.reg.users ==> o.reg.users[e] == reg.users[e])
  {
    if socket in reg.socketToEmail && Truthy(reg.socketToEmail[socket]) then
      var email := reg.socketToEmail[socket];
      if ToStringThrows(email) then Outcome(reg, [], true)
      else Outcome(Registry(reg.users - {email}, reg.socketToEmail - {socket}), [], false)
    else
      Outcome(reg, [], false)
  }

  /** An event reaching the server: a message a client emitted on its socket,
      or Socket.IO's own `disconnect` of that socket. */
  datatype Event =
    | Message(sender: SocketId, name: string, args: seq<Value>)
    | Disconnected(sender: SocketId)

  /** The first argument of a message, which is what the handlers receive. */
  function FirstArg(args: seq<Value>): Value
  {
    if |args| > 0 then args[0] else Undefined
  }

  /** Dispatch one event to the handler registered for its name. A message
      whose name has no handler (the client's `accept-call`, say) does
      nothing. Only `register-user` and `disconnect` change the registry,
      and every event sends at most one delivery. */
  function Handle(reg: Registry, ev: Event): (o: Outcome)
    ensures |o.sent| <= 1
    ensures ev.Message? && ev.name != RegisterUserEvent ==> o.reg == reg
    ensures ev.Disconnected? ==> o == Disconnect(reg, ev.sender)
    ensures ev.Message? && ev.name == RegisterUserEvent ==> o == RegisterUser(reg, ev.sender, FirstArg(ev.args))
    ensures ev.Message? && ev.name == CallUserEvent ==> o == CallUser(reg, FirstArg(ev.args))
    ensures ev.Message? && ev.name == AnswerCallEvent ==> o == AnswerCall(reg, FirstArg(ev.args))
    ensures ev.Message? && ev.name == CancelCallEvent ==> o == CancelCall(reg, FirstArg(ev.args))
    ensures ev.Message? && ev.name !in {RegisterUserEvent, CallUserEvent, AnswerCallEvent, CancelCallEvent} ==>
      o == Outcome(reg, [], false)
  {
    match ev
    case Disconnected(socket) => Disconnect(reg, socket)
    case Message(socket, name, args) =>
      var arg := FirstArg(args);
      if name == RegisterUserEvent then RegisterUser(reg, socket, arg)
      else if name == CallUserEvent then CallUser(reg, arg)
      else if name == AnswerCallEvent then AnswerCall(reg, arg)
      else if name == CancelCallEvent then CancelCall(reg, arg)
      else Outcome(reg, [], false)
  }

  /** The server process: the registry, every delivery emitted so far, and
      whether a handler has thrown. Socket.IO runs listeners from
      `process.nextTick`, so a thrown TypeError is uncaught and ends the
      Node process: no later event is handled. */
  datatype State = State(reg: Registry, outbox: seq<Delivery>, crashed: bool)

  const Initial := State(Registry(map[], map[]), [], false)

  function Apply(st: State, ev: Event): State
  {
    if st.crashed then st
    else
      var o := Handle(st.reg, ev);
      State(o.reg, st.outbox + o.sent, o.threw)
  }

  /** Handle the events one after the other, in order. */
  function Run(st: State, evs: seq<Event>): State
  {
    if evs == [] then st else Apply(Run(st, evs[..|evs| - 1]), evs[|evs| - 1])
  }
}
