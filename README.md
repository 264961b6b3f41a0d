# DroneAuthApp inbound dispatcher, in Dafny

This project models the inbound-event dispatcher of the drone's authentication
application, `DroneAuthApp`. The dispatcher has two layers:

- `handleMessageWhenUp` classifies an inbound event. A self-message (a timer) goes to the
  timer handler. A packet that is not a self-message goes to `handleIncomingMessage`.
  Anything else (a socket indication) gets a warning and is deleted.
- `handleIncomingMessage` copies the packet's bytes. An empty payload is dropped. Otherwise
  the first byte chooses a handler: 0x02 challenge, 0x04 auth-success, 0x05 auth-failure.
  Any other byte produces an "unknown message type" warning. The packet is deleted on every
  path.

Files:

- `wrappers.dfy`: the `Option` datatype.
- `routing.dfy` (module `Routing`): the pure routing decision. It holds the tag byte of each
  handler (`Tag`), the switch as its inverse (`HandlerFor`), and the route a payload takes
  (`RoutePacket`).
- `drone_auth_app.dfy` (module `DroneAuth`): the event record and its classification. Each
  path's effects are a trace of actions: handler invoked, warning emitted, message released.
  `Effects` specifies one event and `DispatchAll` a stream of events. There are lemmas about
  both. The class `DroneAuthApp` has one method per member function of the source. Each
  method appends to a `trace` field and is proved equal to the specification functions.

The source uses runtime type inspection to tell packets from other events. Here an event is
a record `Message(name, isSelf, chunk)`, where `chunk` holds the packet bytes when the event
is a packet. So a self-message that is also a packet can be expressed, and the model shows
it is still handed to the timer handler. `delete` becomes a `Released` action in the trace.
The payload is a sequence of `uint8` (0..255).

## Model

| member | source | states |
|---|---|---|
| Routing.HandlerFor | fix_message_handling.cpp:29-44 | the switch selects handler h exactly when the byte equals h's tag (0x02, 0x04, 0x05), and no handler for every other byte |
| Routing.RoutePacket | fix_message_handling.cpp:18-44 | an empty payload is dropped, and only that one is. A non-empty payload is dispatched iff its first byte is a known tag. It then goes to that tag's handler with the entire payload, tag byte included. Otherwise it is unrecognised, carrying the first byte |
| Routing.RouteIgnoresTail | fix_message_handling.cpp:27-44 | two non-empty payloads with the same first byte take the same path to the same handler; bytes after index 0 never change the path |
| DroneAuth.Classify | fix_message_handling.cpp:3-12 | classification is exclusive and ordered: timer iff self-message, incoming packet iff a non-self packet, indication iff neither |
| DroneAuth.ReleasedExactlyOnce | fix_message_handling.cpp:3-47 | a non-self event is released exactly once, and its release is the last action. That holds for the early return, the delete after the switch and the indication path. A self-message is never released by the dispatcher |
| DroneAuth.AtMostOneHandler | fix_message_handling.cpp:3-44 | at most one handler (timer or protocol) is invoked per event; the timer handler is invoked iff the event is a self-message |
| DroneAuth.SelfMessageGoesToSelfHandler | fix_message_handling.cpp:4-5 | a self-message, even one that is also a packet, reaches only the timer handler: no protocol handler, no warning, no release |
| DroneAuth.IndicationWarnedAndReleased | fix_message_handling.cpp:8-12 | a non-self non-packet event reaches no handler. It is warned about by name and released once |
| DroneAuth.EmptyPayloadOnlyReleased | fix_message_handling.cpp:22-25 | a zero-length payload calls no handler and emits no warning; the packet is released once |
| DroneAuth.KnownTagInvokesHandlerOnce | fix_message_handling.cpp:29-40 | tag 0x02/0x04/0x05 invokes its own handler exactly once with the whole payload, emits no warning, and releases the packet once |
| DroneAuth.UnknownTagOnlyWarns | fix_message_handling.cpp:42-46 | any other first byte calls no handler and emits exactly one "unknown message type" warning carrying that byte; the packet is released once |
| DroneAuth.HandlersReceiveChunk | fix_message_handling.cpp:18-40 | every handler invocation receives the packet's bytes, element for element and in order |
| DroneAuth.DispatchAllSnoc | fix_message_handling.cpp:3-13 | handling one more event extends the trace of a stream by exactly that event's actions |
| DroneAuth.StreamReleasesNonSelfInOrder | fix_message_handling.cpp:3-47 | over any stream of events, the messages released are exactly the non-self events, each once, in arrival order |
| DroneAuth.StreamAtMostOneHandlerPerEvent | fix_message_handling.cpp:3-44 | over any stream of events, no more handlers are invoked than there are events |
| DroneAuth.DroneAuthApp.HandleMessageWhenUp | fix_message_handling.cpp:3-13 | the self test comes first, then the packet test, else warn and delete. It appends exactly `Effects(msg)` to the trace. It keeps the trace equal to the dispatch of all delivered events, so released messages stay the non-self events in order |
| DroneAuth.DroneAuthApp.HandleIncomingMessage | fix_message_handling.cpp:15-47 | empty check, switch on the first byte, then delete. It appends exactly the route's action followed by one release |

## Left out

- The bodies of `handleSelfMessage`, `handleChallengeMessage`, `handleAuthSuccessMessage` and `handleAuthFailureMessage` are not part of this model. Each is an opaque action that records its call and its argument in the trace.
- The challenge/response codec, nonce handling, signatures, the session registry and the authentication state machine appear nowhere in the modelled code. They are not modelled. Tags 0x01 and 0x03 are treated as unknown, as the switch does.
- DroneAuth.DroneAuthApp.HandleIncomingMessage: `check_and_cast` throws if the message is not a packet. The model states this as the precondition that the event carries a chunk. Its only caller establishes it, and the exception path is not modelled.
- OMNeT++/INET objects (`cMessage`, `Packet`, the byte chunk), `dynamic_cast` and `delete` become the `Message` record and a `Released` trace entry. Allocation and object identity are not modelled.
- `EV_WARN` output is I/O. It is recorded as a `Warned` action carrying the message name or the tag value; the text is not modelled.
- Copying the chunk into a `std::vector` is a value copy. In the model the bytes handed to handlers are the chunk's own sequence.
- Timers, sockets, the simulation scheduler and cryptography are outside the modelled code.
