/**
 * The pure routing decision of DroneAuthApp::handleIncomingMessage: the bytes of an
 * inbound packet are inspected, an empty payload is dropped, and otherwise the first
 * byte alone chooses one of the three protocol handlers or an "unknown type" warning.
 */
module Routing {
  import opened Wrappers

  /** An unsigned 8-bit value, the element type of the payload vector (uint8_t). */
  newtype uint8 = x: int | 0 <= x < 0x100

  /** The three message handlers the switch can reach. */
  datatype Handler = ChallengeHandler | AuthSuccessHandler | AuthFailureHandler

  /** The message-type byte each handler answers to: 0x02, 0x04 and 0x05. */
  function Tag(h: Handler): uint8
  {
    match h
    case ChallengeHandler => 0x02
    case AuthSuccessHandler => 0x04
    case AuthFailureHandler => 0x05
  }

  /**
   * The switch on the message-type byte: the handler whose tag it is, if any.
   * Every other byte (0x00, 0x01, 0x03, 0x06 .. 0xFF) falls to the default case.
   */
  function HandlerFor(msgType: uint8): (r: Option<Handler>)
    ensures forall h :: r == Some(h) <==> msgType == Tag(h)
    ensures r == None <==> msgType != 0x02 && msgType != 0x04 && msgType != 0x05
  {
    match msgType
    case 0x02 => Some(ChallengeHandler)
    case 0x04 => Some(AuthSuccessHandler)
    case 0x05 => Some(AuthFailureHandler)
    case _ => None
  }

  /** Which path a packet takes through handleIncomingMessage. */
  datatype Route =
    | Dropped                                        // empty payload: no handler, no warning
    | Dispatched(handler: Handler, data: seq<uint8>) // a handler receives the whole payload
    | Unrecognized(msgType: uint8)                   // default case: a warning with the tag

  /**
   * The routing decision for a payload. An empty payload is dropped; otherwise the
   * first byte decides, and a handler is given the complete payload, tag byte included.
   */
  function RoutePacket(data: seq<uint8>): (r: Route)
    ensures r == Dropped <==> |data| == 0
    ensures |data| > 0 ==> (r.Dispatched? <==> HandlerFor(data[0]).Some?)
    ensures r.Dispatched? ==> r.data == data && Tag(r.handler) == data[0]
    ensures r.Unrecognized? ==> r.msgType == data[0] && HandlerFor(data[0]) == None
  {
    if |data| < 1 then
      Dropped
    else
      match HandlerFor(data[0])
      case Some(h) => Dispatched(h, data)
      case None => Unrecognized(data[0])
  }

  /**
   * Only the first byte matters: two non-empty payloads with the same first byte take
   * the same path, whatever bytes follow it.
   */
  lemma RouteIgnoresTail(a: seq<uint8>, b: seq<uint8>)
    requires |a| > 0 && |b| > 0 && a[0] == b[0]
    ensures RoutePacket(a).Dispatched? <==> RoutePacket(b).Dispatched?
    ensures RoutePacket(a).Dispatched? ==> RoutePacket(a).handler == RoutePacket(b).handler
    ensures RoutePacket(a).Unrecognized? ==> RoutePacket(a) == RoutePacket(b)
  {
  }
}
