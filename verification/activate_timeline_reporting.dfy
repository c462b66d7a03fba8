/** The profiling command handler that switches timeline reporting on. It
    reads the profiling service's state, checks the packet, and on the first
    valid activation sends the timeline directory and well-known labels,
    reports the structure and notifies the backends. Those outgoing calls are
    recorded as an event trace. */
module ActivateTimelineReporting {
  import opened Wrappers
  import Decimal

  /** A raw value outside the enumerators 0..3 of `ProfilingState`. */
  type UnknownStateValue = i: int | i < 0 || 3 < i witness 4

  /** `ProfilingState`, including values no enumerator names. */
  datatype ProfilingState =
    | Uninitialised | NotConnected | WaitingForAck | Active
    | Unknown(value: UnknownStateValue)

  /** `GetProfilingStateName`. */
  function ProfilingStateName(state: ProfilingState): string {
    match state
    case Uninitialised => "Uninitialised"
    case NotConnected => "NotConnected"
    case WaitingForAck => "WaitingForAck"
    case Active => "Active"
    case Unknown(_) => "Unknown"
  }

  /** The packet's family and id header fields (32-bit unsigned). */
  datatype Packet = Packet(family: nat, id: nat)

  /** Family 0, id 6: "activate timeline reporting". */
  predicate IsActivateTimelineReportingPacket(packet: Packet) {
    packet.family == 0 && packet.id == 6
  }

  /** The handler's outgoing calls, in the order they can happen. */
  datatype TimelineEvent =
    | SentTimelineMessageDirectoryPackage
    | SentWellKnownLabelsAndEventClasses
    | ReportedStructure
    | NotifiedBackendsForTimelineReporting

  /** Everything one activation sends, in order. */
  const ActivationEvents: seq<TimelineEvent> := [
    SentTimelineMessageDirectoryPackage,
    SentWellKnownLabelsAndEventClasses,
    ReportedStructure,
    NotifiedBackendsForTimelineReporting]

  /** `armnn::Exception` or its subclass `armnn::RuntimeException`. */
  datatype ExceptionKind = Exception | RuntimeException

  datatype HandlerError =
    | MissingReportStructure
    | WrongState(state: ProfilingState)
    | UnexpectedPacket(family: nat, id: nat)
    | UnknownState(value: int)

  /** The class of the exception thrown for `e`. */
  function Kind(e: HandlerError): ExceptionKind {
    match e
    case MissingReportStructure => Exception
    case WrongState(_) => RuntimeException
    case UnexpectedPacket(_, _) => Exception
    case UnknownState(_) => RuntimeException
  }

  const MissingReportStructureMessage: string :=
    "Profiling Service constructor must be initialised with an IReportStructure argument in order to run timeline reporting"
  const WrongStatePrefix: string := "Activate Timeline Reporting Command Handler invoked while in a wrong state: "
  const UnexpectedPacketPrefix: string := "Expected Packet family = 0, id = 6 but received family ="
  const PacketIdInfix: string := " id = "
  const UnknownStatePrefix: string := "Unknown profiling service state: "

  /** The exception's message. */
  function Message(e: HandlerError): (r: string)
    ensures e.MissingReportStructure? ==> r == MissingReportStructureMessage
    ensures e.WrongState? ==> r == WrongStatePrefix + ProfilingStateName(e.state)
    ensures e.UnexpectedPacket? ==> UnexpectedPacketPrefix <= r && |r| > |UnexpectedPacketPrefix|
    ensures e.UnknownState? ==> UnknownStatePrefix <= r && |r| > |UnknownStatePrefix|
  {
    match e
    case MissingReportStructure => MissingReportStructureMessage
    case WrongState(state) => WrongStatePrefix + ProfilingStateName(state)
    case UnexpectedPacket(family, id) =>
      UnexpectedPacketPrefix + Decimal.NatToString(family) + PacketIdInfix + Decimal.NatToString(id)
    case UnknownState(value) => UnknownStatePrefix + Decimal.IntToString(value)
  }

  /** The state the handler reads and writes: whether it holds a report
      structure, the `m_TimelineReporting` flag (a reference to the profiling
      service's flag, which other handlers may also write), and the calls it
      has made so far. */
  datatype CommandHandler = CommandHandler(
    hasReportStructure: bool,
    timelineReporting: bool,
    trace: seq<TimelineEvent>)

  /** The handler after one invocation, and the exception if one was thrown. */
  datatype HandlerStep = HandlerStep(handler: CommandHandler, error: Option<HandlerError>)

  /** `operator()(packet)` with the profiling state machine in `state`. The
      state is only read. */
  function Handle(h: CommandHandler, state: ProfilingState, packet: Packet): (r: HandlerStep)
    ensures !h.hasReportStructure ==> r.error == Some(MissingReportStructure)
    ensures h.hasReportStructure && state in {Uninitialised, NotConnected, WaitingForAck} ==>
      r.error == Some(WrongState(state))
    ensures h.hasReportStructure && state.Unknown? ==> r.error == Some(UnknownState(state.value))
    ensures h.hasReportStructure && state == Active && !IsActivateTimelineReportingPacket(packet) ==>
      r.error == Some(UnexpectedPacket(packet.family, packet.id))
    ensures r.error.None? <==> h.hasReportStructure && state == Active && IsActivateTimelineReportingPacket(packet)
    ensures r.error.Some? ==> r.handler == h
    ensures r.error.None? && !h.timelineReporting ==>
      r.handler == h.(timelineReporting := true, trace := h.trace + ActivationEvents)
    ensures h.timelineReporting ==> r.handler == h
  {
    if !h.hasReportStructure then HandlerStep(h, Some(MissingReportStructure))
    else
      match state
      case Uninitialised => HandlerStep(h, Some(WrongState(state)))
      case NotConnected => HandlerStep(h, Some(WrongState(state)))
      case WaitingForAck => HandlerStep(h, Some(WrongState(state)))
      case Active =>
        if !(packet.family == 0 && packet.id == 6) then
          HandlerStep(h, Some(UnexpectedPacket(packet.family, packet.id)))
        else if !h.timelineReporting then
          var sent := h.trace + [SentTimelineMessageDirectoryPackage]
                              + [SentWellKnownLabelsAndEventClasses];
          var activated := h.(timelineReporting := true);
          HandlerStep(activated.(trace := sent + [ReportedStructure] + [NotifiedBackendsForTimelineReporting]), None)
        else
          HandlerStep(h, None)
      case Unknown(value) => HandlerStep(h, Some(UnknownState(value)))
  }

  /** A second identical command changes nothing: the handler is idempotent. */
  lemma HandleIdempotent(h: CommandHandler, state: ProfilingState, packet: Packet)
    ensures Handle(Handle(h, state, packet).handler, state, packet).handler == Handle(h, state, packet).handler
  {
  }

  /** Runs the handler over a sequence of (state, packet) commands, keeping
      the handler state of each invocation, whether it threw or not. */
  function Run(h: CommandHandler, commands: seq<(ProfilingState, Packet)>): CommandHandler
    decreases |commands|
  {
    if |commands| == 0 then h
    else Run(Handle(h, commands[0].0, commands[0].1).handler, commands[1..])
  }

  /** Over any run of commands, the activation is sent at most once: the
      trace grows by exactly one copy of the activation events if the flag
      went from off to on, and not at all otherwise; the flag never turns
      off again and the report structure is never acquired or lost. */
  lemma {:induction false} ActivationSentAtMostOnce(h: CommandHandler, commands: seq<(ProfilingState, Packet)>)
    ensures Run(h, commands).hasReportStructure == h.hasReportStructure
    ensures h.timelineReporting ==> Run(h, commands).timelineReporting
    ensures Run(h, commands).trace ==
      h.trace + (if !h.timelineReporting && Run(h, commands).timelineReporting then ActivationEvents else [])
    decreases |commands|
  {
    if |commands| > 0 {
      var next := Handle(h, commands[0].0, commands[0].1).handler;
      ActivationSentAtMostOnce(next, commands[1..]);
    }
  }

  /** The unexpected-packet message reports the family received, which reads
      back from it exactly. */
  lemma UnexpectedPacketMessage(family: nat, id: nat)
    ensures var m := Message(UnexpectedPacket(family, id));
      && UnexpectedPacketPrefix <= m
      && Decimal.ParseInt(m[|UnexpectedPacketPrefix|..|UnexpectedPacketPrefix| + |Decimal.NatToString(family)|]) == Some(family)
  {
    var m := Message(UnexpectedPacket(family, id));
    var digits := Decimal.NatToString(family);
    var rest := PacketIdInfix + Decimal.NatToString(id);
    assert m == UnexpectedPacketPrefix + digits + rest;
    MiddleSlice(UnexpectedPacketPrefix, digits, rest);
    assert m[|UnexpectedPacketPrefix|..|UnexpectedPacketPrefix| + |digits|] == digits;
    Decimal.NatToStringParsesBack(family);
  }

  /** The middle part of a three-way concatenation. */
  lemma MiddleSlice<T>(a: seq<T>, b: seq<T>, c: seq<T>)
    ensures a <= a + b + c
    ensures (a + b + c)[|a|..|a| + |b|] == b
  {
    assert (a + b + c)[..|a|] == a;
  }

  /** It also reports the id received, after the ` id = ` text; the id reads
      back from the rest of the message exactly. */
  lemma UnexpectedPacketIdMessage(family: nat, id: nat)
    ensures var m := Message(UnexpectedPacket(family, id));
      var f := |UnexpectedPacketPrefix| + |Decimal.NatToString(family)| + |PacketIdInfix|;
      f <= |m| && m[f - |PacketIdInfix|..f] == PacketIdInfix && Decimal.ParseInt(m[f..]) == Some(id)
  {
    var m := Message(UnexpectedPacket(family, id));
    var f := |UnexpectedPacketPrefix| + |Decimal.NatToString(family)| + |PacketIdInfix|;
    assert m[f..] == Decimal.NatToString(id);
    Decimal.IntToStringRoundTrip(id);
  }

  /** The unknown-state message reports the raw state value, which reads back
      from it exactly. */
  lemma UnknownStateMessage(value: int)
    ensures var m := Message(UnknownState(value));
      Decimal.ParseInt(m[|UnknownStatePrefix|..]) == Some(value)
  {
    var m := Message(UnknownState(value));
    assert m[|UnknownStatePrefix|..] == Decimal.IntToString(value);
    Decimal.IntToStringRoundTrip(value);
  }

  /** The exception class follows the check that failed: a wrong or unknown
      state throws `RuntimeException`; a missing report structure or an
      unexpected packet throws `Exception`. */
  lemma HandlerExceptionClasses(h: CommandHandler, state: ProfilingState, packet: Packet)
    ensures var r := Handle(h, state, packet);
      r.error.Some? ==> (Kind(r.error.value) == RuntimeException <==> h.hasReportStructure && state != Active)
  {
  }
}
