/** Properties of the relay that relate several handler calls: re-registration,
    disconnect and its quirks, what routing does and does not look at, and
    invariants of whole runs. */
module RelayProperties {
  import opened Wrappers
  import opened JsValue
  import opened Relay

  // ---------------------------------------------------------------------
  // Registration and disconnect

  /** A registered primitive email is found again by a lookup. */
  lemma RegisteredEmailIsReachable(reg: Registry, socket: SocketId, email: Value)
    requires IsPrimitive(email)
    ensures Lookup(RegisterUser(reg, socket, email).reg.users, email) == Some(socket)
  {
  }

  /** A disconnect right after a registration with a truthy email undoes that
      registration on both keys it touched: the email is gone from `users`,
      the socket from `socketToEmail`, and nothing else changed. An email
      that cannot be converted to a string makes the disconnect throw
      instead, with nothing removed. */
  lemma RegisterThenDisconnect(reg: Registry, socket: SocketId, email: Value)
    requires Truthy(email)
    ensures var r := RegisterUser(reg, socket, email).reg;
      && (!ToStringThrows(email) ==>
            Disconnect(r, socket) == Outcome(Registry(reg.users - {email}, reg.socketToEmail - {socket}), [], false))
      && (ToStringThrows(email) ==> Disconnect(r, socket) == Outcome(r, [], true))
  {
  }

  /** Registering the same email from a second socket routes it to the second
      socket only, while the first socket's own entry still names the email. */
  lemma ReRegisterOverwrites(reg: Registry, s1: SocketId, s2: SocketId, email: Value)
    requires IsPrimitive(email)
    ensures var r := RegisterUser(RegisterUser(reg, s1, email).reg, s2, email).reg;
      && Lookup(r.users, email) == Some(s2)
      && (s1 != s2 ==> s1 in r.socketToEmail && r.socketToEmail[s1] == email)
      && (forall d :: d in Route(r.users, email, CallMade, [Undefined]) ==> d.to == s2)
  {
  }

  /** A socket that registers twice keeps only its last email in
      `socketToEmail`, while `users` keeps pointing both emails at it. */
  lemma RegisterTwiceKeepsLastEmail(reg: Registry, socket: SocketId, e1: Value, e2: Value)
    ensures var r := RegisterUser(RegisterUser(reg, socket, e1).reg, socket, e2).reg;
      && r.socketToEmail[socket] == e2
      && r.users[e1] == socket && r.users[e2] == socket
  {
  }

  /** A second disconnect of the same socket does what the first did to the
      registry: nothing more. */
  lemma DisconnectIdempotent(reg: Registry, socket: SocketId)
    ensures Disconnect(Disconnect(reg, socket).reg, socket) == Disconnect(reg, socket)
  {
  }

  /** Disconnecting an older socket of an email unregisters the email even
      though a newer socket has registered it since: the email becomes
      unreachable although its newer socket is still connected. The email is
      a primitive: two object emails are two keys of a JavaScript `Map`. */
  lemma DisconnectOfOlderSocketDropsNewer(reg: Registry, s1: SocketId, s2: SocketId, email: Value)
    requires s1 != s2 && Truthy(email) && IsPrimitive(email)
    ensures var o := Disconnect(RegisterUser(RegisterUser(reg, s1, email).reg, s2, email).reg, s1);
      && !o.threw
      && email !in o.reg.users
      && s2 in o.reg.socketToEmail && o.reg.socketToEmail[s2] == email
      && Lookup(o.reg.users, email).None?
  {
  }

  /** A socket that registered two emails and disconnects stays registered
      under the first one: later calls to that email are routed to the socket
      that has gone. */
  lemma DisconnectLeavesEarlierEmail(reg: Registry, socket: SocketId, e1: Value, e2: Value)
    requires e1 != e2 && Truthy(e2) && !ToStringThrows(e2) && IsPrimitive(e1)
    ensures var o := Disconnect(RegisterUser(RegisterUser(reg, socket, e1).reg, socket, e2).reg, socket);
      && !o.threw
      && socket !in o.reg.socketToEmail
      && Lookup(o.reg.users, e1) == Some(socket)
  {
  }

  /** A registration under a falsy email (the empty string, a missing
      argument, `0`, `false`, `null`) is never released by a disconnect. */
  lemma FalsyEmailIsNeverReleased(reg: Registry, socket: SocketId, email: Value)
    requires !Truthy(email)
    ensures var o := RegisterUser(reg, socket, email);
      !o.threw && Disconnect(o.reg, socket) == Outcome(o.reg, [], false) && o.reg.users[email] == socket
  {
  }

  /** `register-user` without an argument registers the key `undefined`; a
      `call-user` whose data has no `userToCall` is then routed to that
      socket, unless the log line before the emit throws on `from`. */
  lemma MissingTargetReachesUndefinedRegistrant(reg: Registry, socket: SocketId, offer: Value, from: Value)
    ensures var r := Handle(reg, Message(socket, RegisterUserEvent, [])).reg;
      && (!ToStringThrows(from) ==>
            CallUser(r, Obj(map["offer" := offer, "from" := from]))
              == Outcome(r, [Delivery(socket, CallMade, [CallMadePayload(offer, from)])], false))
      && (ToStringThrows(from) ==> CallUser(r, Obj(map["offer" := offer, "from" := from])) == Outcome(r, [], true))
  {
  }

  // ---------------------------------------------------------------------
  // Routing

  /** The outcome of every event other than `register-user` and `disconnect`
      is the same whichever socket sent it: in particular `from` is forwarded
      as sent, whatever email the sender registered. */
  lemma RoutingIgnoresSender(reg: Registry, s1: SocketId, s2: SocketId, name: string, args: seq<Value>)
    requires name != RegisterUserEvent
    ensures Handle(reg, Message(s1, name, args)) == Handle(reg, Message(s2, name, args))
  {
  }

  /** The client sends its offer as `signalData`; `call-user` copies only
      `offer`, so the callee receives `offer` as undefined and no signal
      (or nothing at all, when the log line throws on `from`). */
  lemma ClientSignalDataIsDropped(reg: Registry, callee: string, signal: Value, from: Value)
    requires Str(callee) in reg.users
    ensures var o := CallUser(reg, Obj(map["userToCall" := Str(callee), "signalData" := signal, "from" := from]));
      && (!ToStringThrows(from) ==>
            o == Outcome(reg, [Delivery(reg.users[Str(callee)], CallMade, [CallMadePayload(Undefined, from)])], false))
      && (ToStringThrows(from) ==> o == Outcome(reg, [], true))
  {
  }

  /** A caller's `from` that is an object with its own `toString` key makes
      the log line before the emit throw: the callee gets nothing, and the
      server ends. */
  lemma UnprintableFromEndsServer(st: State, sender: SocketId, callee: string)
    requires !st.crashed && Str(callee) in st.reg.users
    ensures var after := Apply(st, Message(sender, CallUserEvent,
        [Obj(map["userToCall" := Str(callee), "from" := Obj(map["toString" := Num(1)])])]));
      after.crashed && after.outbox == st.outbox && after.reg == st.reg
  {
  }

  // The scenario of two users, Alice on socket A and Bob on socket B.

  function Alice(): Value { Str("alice@x.com") }
  function Bob(): Value { Str("bob@x.com") }

  /** Alice's call to Bob. */
  function OfferFrame(): Value
  {
    Obj(map["userToCall" := Bob(), "offer" := Str("sdp"), "from" := Alice()])
  }

  /** What Bob receives when Alice calls. */
  function OfferDelivery(): Delivery
  {
    Delivery("B", CallMade, [CallMadePayload(Str("sdp"), Alice())])
  }

  function BothRegistered(): Registry
  {
    Registry(map[Alice() := "A", Bob() := "B"], map["A" := Alice(), "B" := Bob()])
  }

  function AliceRegistered(): Registry
  {
    Registry(map[Alice() := "A"], map["A" := Alice()])
  }

  lemma RegisterBothStep()
    ensures Run(Initial, [Message("A", RegisterUserEvent, [Alice()]), Message("B", RegisterUserEvent, [Bob()])])
         == State(BothRegistered(), [], false)
  {
    var e1, e2 := Message("A", RegisterUserEvent, [Alice()]), Message("B", RegisterUserEvent, [Bob()]);
    assert [e1, e2][..1] == [e1];
    assert [e1][..0] == [];
    assert Run(Initial, [e1]) == State(AliceRegistered(), [], false);
  }

  lemma CallBobStep(outbox: seq<Delivery>)
    ensures Apply(State(BothRegistered(), outbox, false), Message("A", CallUserEvent, [OfferFrame()]))
         == State(BothRegistered(), outbox + [OfferDelivery()], false)
  {
  }

  lemma BobLeavesStep(outbox: seq<Delivery>)
    ensures Apply(State(BothRegistered(), outbox, false), Disconnected("B"))
         == State(AliceRegistered(), outbox, false)
  {
  }

  lemma CallAbsentBobStep(outbox: seq<Delivery>)
    ensures Apply(State(AliceRegistered(), outbox, false), Message("A", CallUserEvent, [OfferFrame()]))
         == State(AliceRegistered(), outbox, false)
  {
  }

  /** Alice's socket A and Bob's socket B register; A calls Bob; B
      disconnects; A calls Bob again. Bob receives exactly one `call-made`
      with Alice's offer and email, A receives nothing, and the second call
      is dropped without ending the server. */
  lemma AliceCallsBob()
    ensures var st := Run(Initial, [
        Message("A", RegisterUserEvent, [Alice()]),
        Message("B", RegisterUserEvent, [Bob()]),
        Message("A", CallUserEvent, [OfferFrame()]),
        Disconnected("B"),
        Message("A", CallUserEvent, [OfferFrame()])]);
      st == State(AliceRegistered(), [OfferDelivery()], false)
  {
    var e1 := Message("A", RegisterUserEvent, [Alice()]);
    var e2 := Message("B", RegisterUserEvent, [Bob()]);
    var e3 := Message("A", CallUserEvent, [OfferFrame()]);
    var e4 := Disconnected("B");
    var evs := [e1, e2, e3, e4, e3];
    RegisterBothStep();
    var st2 := State(BothRegistered(), [], false);
    assert [e1, e2, e3][..2] == [e1, e2];
    assert Run(Initial, [e1, e2, e3]) == Apply(st2, e3);
    CallBobStep([]);
    var st3 := State(BothRegistered(), [OfferDelivery()], false);
    assert [e1, e2, e3, e4][..3] == [e1, e2, e3];
    assert Run(Initial, [e1, e2, e3, e4]) == Apply(st3, e4);
    BobLeavesStep([OfferDelivery()]);
    var st4 := State(AliceRegistered(), [OfferDelivery()], false);
    assert evs[..4] == [e1, e2, e3, e4];
    assert Run(Initial, evs) == Apply(st4, e3);
    CallAbsentBobStep([OfferDelivery()]);
  }

  // ---------------------------------------------------------------------
  // Runs

  /** Every event appends at most one delivery and never rewrites earlier
      ones: a run extends the outbox it started with. */
  lemma {:induction false} RunExtendsOutbox(st: State, evs: seq<Event>)
    ensures |st.outbox| <= |Run(st, evs).outbox| <= |st.outbox| + |evs|
    ensures Run(st, evs).outbox[..|st.outbox|] == st.outbox
  {
    if evs != [] {
      var prefix := evs[..|evs| - 1];
      RunExtendsOutbox(st, prefix);
      var mid := Run(st, prefix);
      var next := Apply(mid, evs[|evs| - 1]);
      assert next.outbox[..|mid.outbox|] == mid.outbox;
      assert next.outbox[..|st.outbox|] == mid.outbox[..|st.outbox|];
    }
  }

  /** Routing events (and events without a handler) never change the registry. */
  predicate LeavesRegistry(ev: Event)
  {
    ev.Message? && ev.name != RegisterUserEvent
  }

  lemma {:induction false} RoutingRunKeepsRegistry(st: State, evs: seq<Event>)
    requires forall i :: 0 <= i < |evs| ==> LeavesRegistry(evs[i])
    ensures Run(st, evs).reg == st.reg
  {
    if evs != [] {
      RoutingRunKeepsRegistry(st, evs[..|evs| - 1]);
    }
  }

  /** Once a handler has thrown, the server handles nothing more. */
  lemma {:induction false} CrashIsFinal(st: State, evs: seq<Event>)
    requires st.crashed
    ensures Run(st, evs) == st
  {
    if evs != [] {
      CrashIsFinal(st, evs[..|evs| - 1]);
    }
  }

  /** A `call-user` with no data (or `null`) throws while destructuring and
      ends the server: whatever follows, the registry and the outbox stay as
      they were before that message. */
  lemma NullishCallEndsServer(st: State, sender: SocketId, later: seq<Event>)
    requires !st.crashed
    ensures var after := Run(Apply(st, Message(sender, CallUserEvent, [])), later);
      after.crashed && after.reg == st.reg && after.outbox == st.outbox
  {
    var crashed := Apply(st, Message(sender, CallUserEvent, []));
    CrashIsFinal(crashed, later);
  }

  /** An event none of whose logged values fails to convert to a string,
      and whose routing payload is not nullish. This is what the web client
      sends: string emails, and `call-user` objects whose `userToCall` and
      `from` are strings or missing. */
  predicate Printable(ev: Event)
  {
    match ev
    case Disconnected(_) => true
    case Message(_, name, args) =>
      var arg := FirstArg(args);
      && (name == RegisterUserEvent ==> !ToStringThrows(arg))
      && (name in {CallUserEvent, AnswerCallEvent, CancelCallEvent} ==>
            && !IsNullish(arg)
            && !ToStringThrows(Prop(arg, "userToCall"))
            && !ToStringThrows(Prop(arg, "to"))
            && !ToStringThrows(Prop(arg, "from")))
  }

  /** Every email recorded for a socket converts to a string. */
  predicate PrintableEmails(reg: Registry)
  {
    forall s :: s in reg.socketToEmail ==> !ToStringThrows(reg.socketToEmail[s])
  }

  lemma {:induction false} PrintableRunNeverCrashes(st: State, evs: seq<Event>)
    requires !st.crashed && PrintableEmails(st.reg)
    requires forall i :: 0 <= i < |evs| ==> Printable(evs[i])
    ensures !Run(st, evs).crashed && PrintableEmails(Run(st, evs).reg)
  {
    if evs != [] {
      var prefix := evs[..|evs| - 1];
      assert forall i :: 0 <= i < |prefix| ==> prefix[i] == evs[i];
      PrintableRunNeverCrashes(st, prefix);
      var ev := evs[|evs| - 1];
      assert Printable(ev);
    }
  }

  /** A server that only ever hears from well-behaved clients never ends. */
  lemma PrintableTrafficNeverCrashes(evs: seq<Event>)
    requires forall i :: 0 <= i < |evs| ==> Printable(evs[i])
    ensures !Run(Initial, evs).crashed
  {
    PrintableRunNeverCrashes(Initial, evs);
  }

  /** The sockets that sent `register-user` during a run. */
  function Registrants(evs: seq<Event>): set<SocketId>
  {
    if evs == [] then {}
    else
      var last := evs[|evs| - 1];
      Registrants(evs[..|evs| - 1])
        + (if last.Message? && last.name == RegisterUserEvent then {last.sender} else {})
  }

  /** Every socket the registry mentions, and every socket anything was sent
      to, is in R. */
  predicate SocketsWithin(st: State, R: set<SocketId>)
  {
    && (forall e :: e in st.reg.users ==> st.reg.users[e] in R)
    && (forall s :: s in st.reg.socketToEmail ==> s in R)
    && (forall i :: 0 <= i < |st.outbox| ==> st.outbox[i].to in R)
  }

  lemma {:induction false} RunKeepsSocketsWithin(st: State, evs: seq<Event>, R: set<SocketId>)
    requires SocketsWithin(st, R)
    ensures SocketsWithin(Run(st, evs), R + Registrants(evs))
  {
    if evs != [] {
      var prefix := evs[..|evs| - 1];
      RunKeepsSocketsWithin(st, prefix, R);
      var mid := Run(st, prefix);
      var ev := evs[|evs| - 1];
      var o := Handle(mid.reg, ev);
      assert forall d :: d in o.sent ==> d.to in mid.reg.users.Values;
      assert forall i :: 0 <= i < |o.sent| ==> o.sent[i] in o.sent;
    }
  }

  /** Starting from an empty server, the relay only ever sends to sockets that
      registered at some point in the run: a socket that never called
      `register-user` receives nothing. */
  lemma OnlyRegistrantsReceive(evs: seq<Event>)
    ensures forall i :: 0 <= i < |Run(Initial, evs).outbox| ==> Run(Initial, evs).outbox[i].to in Registrants(evs)
  {
    RunKeepsSocketsWithin(Initial, evs, {});
  }
}
