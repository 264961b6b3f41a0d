/**
 * The inbound-event dispatcher of DroneAuthApp. An event is a self-timer, a packet or
 * some other indication; each goes down exactly one path. What the dispatcher does is
 * recorded as a trace of actions (a handler invoked, a warning emitted, a message
 * released), so that "exactly one handler" and "released exactly once" are statements
 * about that trace.
 */
module DroneAuth {
  import opened Wrappers
  import opened Routing

  /**
   * An inbound event as the dispatcher sees it: its name, whether it is one of the
   * node's own timers, and, when it is a Packet, the bytes of its data chunk.
   */
  datatype Message = Message(name: string, isSelf: bool, chunk: Option<seq<uint8>>)

  /** The three paths of handleMessageWhenUp. */
  datatype EventKind = SelfTimer | IncomingPacket | Indication

  /**
   * Classification is ordered: the self-message test comes first, so a self-message
   * is a timer even when it is also a packet; only a non-self packet is incoming.
   */
  function Classify(m: Message): (k: EventKind)
    ensures k == SelfTimer <==> m.isSelf
    ensures k == IncomingPacket <==> !m.isSelf && m.chunk.Some?
    ensures k == Indication <==> !m.isSelf && m.chunk == None
  {
    if m.isSelf then SelfTimer
    else if m.chunk.Some? then IncomingPacket
    else Indication
  }

  /** The warnings the dispatcher can emit; the log text itself is not modelled. */
  datatype Warning =
    | NonPacketMessage(name: string)
    | UnknownMessageType(msgType: int)

  /** One observable step of the dispatcher. */
  datatype Action =
    | SelfMessageHandled(msg: Message)
    | MessageHandled(handler: Handler, data: seq<uint8>)
    | Warned(warning: Warning)
    | Released(msg: Message)

  datatype ActionKind = SelfHandlerCall | HandlerCall | Warning | Release

  function KindOf(a: Action): ActionKind
  {
    match a
    case SelfMessageHandled(_) => SelfHandlerCall
    case MessageHandled(_, _) => HandlerCall
    case Warned(_) => Warning
    case Released(_) => Release
  }

  /** How many actions of kind k the trace t holds. */
  function Count(t: seq<Action>, k: ActionKind): (n: nat)
    ensures n <= |t|
    ensures n == 0 <==> forall i :: 0 <= i < |t| ==> KindOf(t[i]) != k
  {
    if |t| == 0 then 0
    else (if KindOf(t[0]) == k then 1 else 0) + Count(t[1..], k)
  }

  /** The messages the trace t releases, in the order it releases them. */
  function ReleasedIn(t: seq<Action>): seq<Message>
  {
    if |t| == 0 then []
    else (if t[0].Released? then [t[0].msg] else []) + ReleasedIn(t[1..])
  }

  lemma {:induction false} CountAppend(s: seq<Action>, t: seq<Action>, k: ActionKind)
    ensures Count(s + t, k) == Count(s, k) + Count(t, k)
  {
    if |s| == 0 {
      assert s + t == t;
    } else {
      assert (s + t)[1..] == s[1..] + t;
      CountAppend(s[1..], t, k);
    }
  }

  lemma {:induction false} ReleasedInAppend(s: seq<Action>, t: seq<Action>)
    ensures ReleasedIn(s + t) == ReleasedIn(s) + ReleasedIn(t)
  {
    if |s| == 0 {
      assert s + t == t;
    } else {
      assert (s + t)[1..] == s[1..] + t;
      ReleasedInAppend(s[1..], t);
    }
  }

  /** A single action followed by a release releases exactly that message. */
  lemma ReleasedAfter(a: Action, m: Message)
    requires !a.Released?
    ensures ReleasedIn([a, Released(m)]) == [m]
  {
    ReleasedInAppend([a], [Released(m)]);
    assert [a] + [Released(m)] == [a, Released(m)];
    assert ReleasedIn([a]) == [] by { assert [a][1..] == []; }
    assert ReleasedIn([Released(m)]) == [m] by { assert [Released(m)][1..] == []; }
  }

  /** What the switch of handleIncomingMessage does for each route, before the release. */
  function RouteActions(r: Route): seq<Action>
  {
    match r
    case Dropped => []
    case Dispatched(h, data) => [MessageHandled(h, data)]
    case Unrecognized(msgType) => [Warned(UnknownMessageType(msgType as int))]
  }

  /**
   * The actions of handleIncomingMessage on a packet: the route's actions, then the
   * single release of the packet (the early return for an empty payload or the delete
   * after the switch).
   */
  function IncomingEffects(m: Message): seq<Action>
    requires m.chunk.Some?
  {
    RouteActions(RoutePacket(m.chunk.value)) + [Released(m)]
  }

  /** The actions of handleMessageWhenUp on one event. */
  function Effects(m: Message): seq<Action>
  {
    match Classify(m)
    case SelfTimer => [SelfMessageHandled(m)]
    case IncomingPacket => IncomingEffects(m)
    case Indication => [Warned(NonPacketMessage(m.name)), Released(m)]
  }

  // ---------------------------------------------------------------------------
  // Properties of one event

  /** On every path a non-self event is released exactly once, as the last action;
      a self-message is handed over to handleSelfMessage and never released here. */
  lemma {:induction false} ReleasedExactlyOnce(m: Message)
    ensures ReleasedIn(Effects(m)) == if m.isSelf then [] else [m]
    ensures Count(Effects(m), Release) == if m.isSelf then 0 else 1
    ensures !m.isSelf ==> |Effects(m)| > 0 && Effects(m)[|Effects(m)| - 1] == Released(m)
  {
    var t := Effects(m);
    if !m.isSelf && m.chunk.Some? {
      var pre := RouteActions(RoutePacket(m.chunk.value));
      assert t == pre + [Released(m)];
      ReleasedInAppend(pre, [Released(m)]);
      CountAppend(pre, [Released(m)], Release);
      assert ReleasedIn(pre) == [] && Count(pre, Release) == 0;
    } else if !m.isSelf {
      assert t[1..] == [Released(m)];
      ReleasedAfter(Warned(NonPacketMessage(m.name)), m);
    }
  }

  /** At most one handler is invoked per event, whatever its kind. */
  lemma AtMostOneHandler(m: Message)
    ensures Count(Effects(m), SelfHandlerCall) + Count(Effects(m), HandlerCall) <= 1
    ensures Count(Effects(m), SelfHandlerCall) == 1 <==> m.isSelf
  {
  }

  /** A self-message goes only to handleSelfMessage, even when it is also a packet. */
  lemma SelfMessageGoesToSelfHandler(m: Message)
    requires m.isSelf
    ensures Count(Effects(m), SelfHandlerCall) == 1
    ensures Count(Effects(m), HandlerCall) == 0
    ensures Count(Effects(m), Warning) == 0
    ensures Count(Effects(m), Release) == 0
  {
  }

  /** An event that is neither a self-message nor a packet reaches no handler: it is
      warned about by name and released. */
  lemma {:induction false} IndicationWarnedAndReleased(m: Message)
    requires !m.isSelf && m.chunk == None
    ensures Count(Effects(m), SelfHandlerCall) == 0
    ensures Count(Effects(m), HandlerCall) == 0
    ensures Warned(NonPacketMessage(m.name)) in Effects(m)
    ensures ReleasedIn(Effects(m)) == [m]
  {
    assert Effects(m)[1..] == [Released(m)];
    ReleasedAfter(Warned(NonPacketMessage(m.name)), m);
  }

  /** A zero-length payload releases the packet and does nothing else. */
  lemma EmptyPayloadOnlyReleased(m: Message)
    requires !m.isSelf && m.chunk == Some([])
    ensures Count(Effects(m), SelfHandlerCall) == 0
    ensures Count(Effects(m), HandlerCall) == 0
    ensures Count(Effects(m), Warning) == 0
    ensures ReleasedIn(Effects(m)) == [m]
  {
  }

  /** A recognised tag (0x02, 0x04 or 0x05) invokes its handler exactly once, with the
      whole payload, emits no warning, and releases the packet. */
  lemma {:induction false} KnownTagInvokesHandlerOnce(m: Message, h: Handler)
    requires !m.isSelf && m.chunk.Some? && |m.chunk.value| > 0
    requires m.chunk.value[0] == Tag(h)
    ensures Count(Effects(m), HandlerCall) == 1
    ensures MessageHandled(h, m.chunk.value) in Effects(m)
    ensures Count(Effects(m), SelfHandlerCall) == 0
    ensures Count(Effects(m), Warning) == 0
    ensures ReleasedIn(Effects(m)) == [m]
  {
    var t := Effects(m);
    assert t == [MessageHandled(h, m.chunk.value), Released(m)];
    assert t[1..] == [Released(m)];
    ReleasedAfter(MessageHandled(h, m.chunk.value), m);
  }

  /** Every other first byte calls no handler and emits one "unknown message type"
      warning carrying that byte; the packet is still released. */
  lemma {:induction false} UnknownTagOnlyWarns(m: Message)
    requires !m.isSelf && m.chunk.Some? && |m.chunk.value| > 0
    requires HandlerFor(m.chunk.value[0]) == None
    ensures Count(Effects(m), HandlerCall) == 0
    ensures Count(Effects(m), SelfHandlerCall) == 0
    ensures Count(Effects(m), Warning) == 1
    ensures Warned(UnknownMessageType(m.chunk.value[0] as int)) in Effects(m)
    ensures ReleasedIn(Effects(m)) == [m]
  {
    var t := Effects(m);
    assert t == [Warned(UnknownMessageType(m.chunk.value[0] as int)), Released(m)];
    assert t[1..] == [Released(m)];
    ReleasedAfter(Warned(UnknownMessageType(m.chunk.value[0] as int)), m);
  }

  /** Any handler invoked for a packet receives the packet's bytes, element for element. */
  lemma HandlersReceiveChunk(m: Message)
    ensures forall i :: 0 <= i < |Effects(m)| && Effects(m)[i].MessageHandled? ==>
      m.chunk.Some? && Effects(m)[i].data == m.chunk.value
  {
  }

  // ---------------------------------------------------------------------------
  // Properties of a stream of events, one handleMessageWhenUp call per event

  /** The actions of handling the events ms one after another. */
  function DispatchAll(ms: seq<Message>): seq<Action>
  {
    if |ms| == 0 then [] else Effects(ms[0]) + DispatchAll(ms[1..])
  }

  /** The events ms that are not self-messages, in arrival order. */
  function NonSelf(ms: seq<Message>): seq<Message>
  {
    if |ms| == 0 then [] else (if ms[0].isSelf then [] else [ms[0]]) + NonSelf(ms[1..])
  }

  /** Handling one more event extends the trace by that event's actions. */
  lemma {:induction false} DispatchAllSnoc(ms: seq<Message>, m: Message)
    ensures DispatchAll(ms + [m]) == DispatchAll(ms) + Effects(m)
  {
    if |ms| == 0 {
      assert ms + [m] == [m];
    } else {
      assert (ms + [m])[1..] == ms[1..] + [m];
      DispatchAllSnoc(ms[1..], m);
    }
  }

  /** Over any stream, the dispatcher releases exactly the non-self events, each once
      and in arrival order. */
  lemma {:induction false} StreamReleasesNonSelfInOrder(ms: seq<Message>)
    ensures ReleasedIn(DispatchAll(ms)) == NonSelf(ms)
  {
    if |ms| > 0 {
      ReleasedInAppend(Effects(ms[0]), DispatchAll(ms[1..]));
      ReleasedExactlyOnce(ms[0]);
      StreamReleasesNonSelfInOrder(ms[1..]);
    }
  }

  /** Over any stream, no more handlers are invoked than there are events. */
  lemma {:induction false} StreamAtMostOneHandlerPerEvent(ms: seq<Message>)
    ensures Count(DispatchAll(ms), SelfHandlerCall) + Count(DispatchAll(ms), HandlerCall) <= |ms|
  {
    if |ms| > 0 {
      CountAppend(Effects(ms[0]), DispatchAll(ms[1..]), SelfHandlerCall);
      CountAppend(Effects(ms[0]), DispatchAll(ms[1..]), HandlerCall);
      AtMostOneHandler(ms[0]);
      StreamAtMostOneHandlerPerEvent(ms[1..]);
    }
  }

  // ---------------------------------------------------------------------------
  // The application object

  /**
   * The part of DroneAuthApp that the dispatcher touches. The handlers' own state
   * lies outside this model; `trace` records every action in the order taken.
   */
  class DroneAuthApp {
    var trace: seq<Action>
    ghost var handled: seq<Message>  // the events delivered so far, in order

    /** The trace is exactly what handling the delivered events one by one produces. */
    ghost predicate Valid()
      reads this
    {
      trace == DispatchAll(handled)
    }

    constructor ()
      ensures Valid() && handled == [] && trace == []
    {
      trace := [];
      handled := [];
    }

    /** handleMessageWhenUp: the self test first, then the packet test, else warn and delete. */
    method HandleMessageWhenUp(msg: Message)
      requires Valid()
      modifies this
      ensures Valid() && handled == old(handled) + [msg]
      ensures trace == old(trace) + Effects(msg)
      ensures ReleasedIn(trace) == NonSelf(handled)
    {
      if msg.isSelf {
        HandleSelfMessage(msg);
      } else if msg.chunk.Some? {
        HandleIncomingMessage(msg);
      } else {
        Warn(NonPacketMessage(msg.name));
        Delete(msg);
      }
      DispatchAllSnoc(handled, msg);
      handled := handled + [msg];
      StreamReleasesNonSelfInOrder(handled);
    }

    /** handleIncomingMessage: copy the chunk, drop an empty payload, switch on the first
        byte, and delete the packet. */
    method HandleIncomingMessage(msg: Message)
      requires msg.chunk.Some?
      modifies this`trace
      ensures trace == old(trace) + IncomingEffects(msg)
    {
      var data := msg.chunk.value;
      if |data| < 1 {
        Delete(msg);
        return;
      }
      var msgType := data[0];
      match msgType {
        case 0x02 => HandleChallengeMessage(data);
        case 0x04 => HandleAuthSuccessMessage(data);
        case 0x05 => HandleAuthFailureMessage(data);
        case _ => Warn(UnknownMessageType(msgType as int));
      }
      Delete(msg);
    }

    /** The timer handler; its body is not part of this model. */
    method HandleSelfMessage(msg: Message)
      modifies this`trace
      ensures trace == old(trace) + [SelfMessageHandled(msg)]
    {
      trace := trace + [SelfMessageHandled(msg)];
    }

    /** The challenge handler; its body is not part of this model. */
    method HandleChallengeMessage(data: seq<uint8>)
      modifies this`trace
      ensures trace == old(trace) + [MessageHandled(ChallengeHandler, data)]
    {
      trace := trace + [MessageHandled(ChallengeHandler, data)];
    }

    /** The auth-success handler; its body is not part of this model. */
    method HandleAuthSuccessMessage(data: seq<uint8>)
      modifies this`trace
      ensures trace == old(trace) + [MessageHandled(AuthSuccessHandler, data)]
    {
      trace := trace + [MessageHandled(AuthSuccessHandler, data)];
    }

    /** The auth-failure handler; its body is not part of this model. */
    method HandleAuthFailureMessage(data: seq<uint8>)
      modifies this`trace
      ensures trace == old(trace) + [MessageHandled(AuthFailureHandler, data)]
    {
      trace := trace + [MessageHandled(AuthFailureHandler, data)];
    }

    /** EV_WARN: records the warning, not its text. */
    method Warn(w: Warning)
      modifies this`trace
      ensures trace == old(trace) + [Warned(w)]
    {
      trace := trace + [Warned(w)];
    }

    /** delete: the message is released. */
    method Delete(msg: Message)
      modifies this`trace
      ensures trace == old(trace) + [Released(msg)]
    {
      trace := trace + [Released(msg)];
    }
  }
}
