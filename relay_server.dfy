/** The relay as the server runs it: the two maps are mutated in place by the
    handlers, and every `io.to(id).emit(...)` is appended to an outbox. Each
    method is one handler run to completion, as Node runs it. */
module RelayServer {
  import opened JsValue
  import opened Relay

  class SignalingServer {
    var users: map<Value, SocketId>
    var socketToEmail: map<SocketId, Value>
    var outbox: seq<Delivery>

    /** The two maps as a value. */
    function Registry(): Relay.Registry
      reads this
    {
      Relay.Registry(users, socketToEmail)
    }

    /** A freshly started server: both maps empty, nothing emitted. */
    constructor ()
      ensures users == map[] && socketToEmail == map[] && outbox == []
    {
      users := map[];
      socketToEmail := map[];
      outbox := [];
    }

    /** `register-user` from `socket`; `threw` when the log line cannot
        convert the email to a string, after both maps are set. */
    method RegisterUser(socket: SocketId, email: Value) returns (threw: bool)
      modifies this
      ensures users == old(users)[email := socket]
      ensures socketToEmail == old(socketToEmail)[socket := email]
      ensures outbox == old(outbox)
      ensures threw == ToStringThrows(email)
      ensures Outcome(Registry(), [], threw) == Relay.RegisterUser(old(Registry()), socket, email)
    {
      users := users[email := socket];
      socketToEmail := socketToEmail[socket := email];
      threw := ToStringThrows(email);
    }

    /** `call-user` from `sender`; `threw` when destructuring `data` or a
        log line throws. The sender is not used: `from` is forwarded as the
        client sent it. */
    method CallUser(sender: SocketId, data: Value) returns (threw: bool)
      modifies this
      ensures users == old(users) && socketToEmail == old(socketToEmail)
      ensures var o := Relay.CallUser(old(Registry()), data);
        outbox == old(outbox) + o.sent && threw == o.threw
    {
      if IsNullish(data) {
        threw := true;
        return;
      }
      var userToCall, offer, from := Prop(data, "userToCall"), Prop(data, "offer"), Prop(data, "from");
      var toSocketId := Lookup(users, userToCall);
      if toSocketId.Some? {
        threw := ToStringThrows(userToCall) || ToStringThrows(from);
        if !threw {
          outbox := outbox + [Delivery(toSocketId.value, CallMade, [CallMadePayload(offer, from)])];
        }
      } else {
        threw := ToStringThrows(userToCall);
      }
    }

    /** `answer-call` from `sender`; `threw` when destructuring `data` or a
        log line throws. */
    method AnswerCall(sender: SocketId, data: Value) returns (threw: bool)
      modifies this
      ensures users == old(users) && socketToEmail == old(socketToEmail)
      ensures var o := Relay.AnswerCall(old(Registry()), data);
        outbox == old(outbox) + o.sent && threw == o.threw
    {
      if IsNullish(data) {
        threw := true;
        return;
      }
      var to, answer := Prop(data, "to"), Prop(data, "answer");
      var toSocketId := Lookup(users, to);
      // Both branches log `to` before anything else.
      threw := ToStringThrows(to);
      if toSocketId.Some? && !threw {
        outbox := outbox + [Delivery(toSocketId.value, CallAnswered, [CallAnsweredPayload(answer)])];
      }
    }

    /** `cancel-call` from `sender`; `threw` when destructuring `data`
        throws, or when the log line after the emit cannot convert
        `data.from` to a string. */
    method CancelCall(sender: SocketId, data: Value) returns (threw: bool)
      modifies this
      ensures users == old(users) && socketToEmail == old(socketToEmail)
      ensures var o := Relay.CancelCall(old(Registry()), data);
        outbox == old(outbox) + o.sent && threw == o.threw
    {
      if IsNullish(data) {
        threw := true;
        return;
      }
      var to := Prop(data, "to");
      var toSocketId := Lookup(users, to);
      threw := false;
      if toSocketId.Some? {
        outbox := outbox + [Delivery(toSocketId.value, CallCancelled, [])];
        threw := ToStringThrows(Prop(data, "from"));
      }
    }

    /** `disconnect` of `socket`; `threw` when the log line cannot convert
        the recorded email to a string, before anything is removed. */
    method Disconnect(socket: SocketId) returns (threw: bool)
      modifies this
      ensures outbox == old(outbox)
      ensures var o := Relay.Disconnect(old(Registry()), socket);
        Registry() == o.reg && threw == o.threw
    {
      threw := false;
      if socket in socketToEmail {
        var email := socketToEmail[socket];
        if Truthy(email) {
          threw := ToStringThrows(email);
          if !threw {
            socketToEmail := socketToEmail - {socket};
            users := users - {email};
          }
        }
      }
    }

    /** Hand one event to the handler registered for its name; a name without
        a handler is ignored. */
    method Receive(ev: Event) returns (threw: bool)
      modifies this
      ensures Registry() == Handle(old(Registry()), ev).reg
      ensures outbox == old(outbox) + Handle(old(Registry()), ev).sent
      ensures threw == Handle(old(Registry()), ev).threw
    {
      threw := false;
      match ev
      case Disconnected(socket) =>
        threw := Disconnect(socket);
      case Message(socket, name, args) =>
        var arg := FirstArg(args);
        if name == RegisterUserEvent {
          threw := RegisterUser(socket, arg);
        } else if name == CallUserEvent {
          threw := CallUser(socket, arg);
        } else if name == AnswerCallEvent {
          threw := AnswerCall(socket, arg);
        } else if name == CancelCallEvent {
          threw := CancelCall(socket, arg);
        }
    }
  }
}
