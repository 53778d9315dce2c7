/**
 One outbound publish from the AGV handle to the MQTT client library (agv.go,
 mqtt_adapter.go, internal/mqtt/transport.go, internal/mqtt/wait.go). The wire
 records every packet handed to the library together with how it ended as far
 as this side can know.
 */
module PublishPath {
  import opened Segments
  import opened Topics
  import opened Subscriptions
  import opened Outcomes
  import opened Outbound

  // ---- Waiting for a token -----------------------------------------------------------

  /** How a context ends. */
  datatype Ended = Canceled | DeadlinePassed

  function ContextError(e: Ended): Error {
    Root(if e.Canceled? then ContextCanceled else DeadlineExceeded, "")
  }

  /** What wins the select: the token's goroutine, whose token completes at a given time if at all, or the context. */
  datatype Race = TokenFirst(at: Option<nat>) | ContextFirst(cause: Ended)

  /** What a wait meets: the context's state and time left on entry, then the race; failed is the token's own error. */
  datatype Waiting = Waiting(ended: Option<Ended>, left: Option<int>, race: Race, failed: bool)

  /** Nanoseconds. */
  const DEFAULT_TOKEN_WAIT: nat := 30_000_000_000

  /** The token completed in time: before the default wait is over and before the deadline. */
  ghost predicate CompletedInTime(w: Waiting) {
    && w.ended.None? && w.race.TokenFirst? && w.race.at.Some?
    && w.race.at.value <= DEFAULT_TOKEN_WAIT && (w.left.Some? ==> w.left.value > 0 && w.race.at.value <= w.left.value)
  }

  /** Errors a wait may end with; none of them says whether the packet was delivered. */
  ghost predicate WaitError(e: Error) {
    e.Root? && (e.code.TimeoutError? || ContextEnded(e.code))
  }

  method WaitToken(w: Waiting) returns (err: Option<Error>)
    ensures err.None? <==> CompletedInTime(w)
    ensures err.None? <==> w.ended.None? && w.race.TokenFirst? && w.race.at.Some? && w.race.at.value <= 30_000_000_000
                           && (w.left.Some? ==> 0 < w.left.value && w.race.at.value <= w.left.value)
    ensures err.Some? ==> WaitError(err.value)
    ensures err == Some(Root(ContextCanceled, "")) <==>
            w.ended == Some(Canceled)
            || (w.ended.None? && (w.left.Some? ==> w.left.value > 0) && w.race == ContextFirst(Canceled))
    ensures err == Some(Root(TimeoutError, "")) <==>
            w.ended.None? && (w.left.Some? ==> w.left.value > 0) && w.race.TokenFirst? && !CompletedInTime(w)
  {
    if w.ended.Some? {
      return Some(ContextError(w.ended.value));
    }
    var timeout: int := DEFAULT_TOKEN_WAIT;
    if w.left.Some? {
      if w.left.value <= 0 {
        return Some(ContextError(DeadlinePassed));
      }
      if w.left.value < timeout {
        timeout := w.left.value;
      }
    }
    match w.race {
      case TokenFirst(at) =>
        if at.None? || at.value > timeout {
          return Some(Root(TimeoutError, ""));
        }
        return None;
      case ContextFirst(cause) =>
        return Some(ContextError(cause));
    }
  }

  // ---- The transport ----------------------------------------------------------------------

  /** The library reported success, reported an error, or nobody waited for it to report. */
  datatype Fate = Completed | Rejected | Unresolved

  datatype Payload =
    | OrderPayload(header: Header, orderId: string, orderUpdateId: uint32)
    | ActionsPayload(header: Header, actionIds: seq<string>)

  datatype Packet = Packet(topic: string, payload: Payload, fate: Fate)

  /** What one publish meets: whether the payload encodes, the context before the send, the wait, the clock. */
  datatype World = World(encodes: bool, cancelled: Option<Ended>, waiting: Waiting, now: string)

  /** What ClassifyPublish must answer for the packets that left in one publish (none or one). */
  ghost predicate OutcomeFits(outcome: Outcome, sent: seq<Packet>) {
    |sent| <= 1
    && (sent == [] ==> !outcome.Accepted?)
    && (sent != [] ==>
          outcome == match sent[0].fate
                     case Completed => Accepted
                     case Rejected => NotStarted
                     case Unresolved => Uncertain)
  }

  /** Everything it takes for a packet to be accepted. */
  ghost predicate Accepting(running: bool, w: World) {
    running && w.cancelled.None? && CompletedInTime(w.waiting) && !w.waiting.failed
  }

  /** The publishing half of the transport; Transports.Transport is the receiving half. */
  class Sender {
    var running: bool
    var wire: seq<Packet>

    constructor ()
      ensures !running && wire == []
    {
      running, wire := false, [];
    }

    /** Publish with the adapter's mark: the outcome says exactly what became of the packet. */
    method Publish(topic: string, payload: Payload, w: World) returns (err: Option<Error>, ghost sent: seq<Packet>)
      modifies this`wire
      ensures wire == old(wire) + sent && OutcomeFits(ClassifyPublish(err), sent)
      ensures sent != [] ==> sent[0].topic == topic && sent[0].payload == payload
      ensures sent == [] <==> !running || w.cancelled.Some?
      ensures sent == [] ==> ClassifyPublish(err) == NotStarted
      ensures err.None? <==> Accepting(running, w)
    {
      var inner;
      inner, sent := PublishRaw(topic, payload, w);
      err := Adapt(inner);
      if inner.Some? {
        AdaptMeans(inner.value);
        ClassifyMeans(err.value);
      }
    }

    /** internal/mqtt: whatever goes wrong after the packet was handed over, except the library's own verdict, is
      * marked. */
    method PublishRaw(topic: string, payload: Payload, w: World) returns (err: Option<Error>, ghost sent: seq<Packet>)
      modifies this`wire
      ensures wire == old(wire) + sent && |sent| <= 1
      ensures sent != [] ==> sent[0].topic == topic && sent[0].payload == payload
      ensures sent == [] <==> !running || w.cancelled.Some?
      ensures sent == [] ==>
                err == Some(if !running then Root(TransportNotRunning, "") else ContextError(w.cancelled.value))
      ensures sent != [] ==>
                if !CompletedInTime(w.waiting) then
                  sent[0].fate.Unresolved? && err.Some? && err.value.MqttAttempted? && WaitError(err.value.err)
                else if w.waiting.failed then sent[0].fate.Rejected? && err == Some(Root(PublishFailed, ""))
                else sent[0].fate.Completed? && err.None?
    {
      sent := [];
      if !running {
        return Some(Root(TransportNotRunning, "")), [];
      }
      if w.cancelled.Some? {
        return Some(ContextError(w.cancelled.value)), [];
      }
      err := WaitToken(w.waiting);
      var fate := if err.Some? then Unresolved else if w.waiting.failed then Rejected else Completed;
      wire := wire + [Packet(topic, payload, fate)];
      sent := [Packet(topic, payload, fate)];
      if err.Some? {
        return Some(MqttAttempted(err.value)), sent;
      }
      if w.waiting.failed {
        return Some(Root(PublishFailed, "")), sent;
      }
    }
  }

  // ---- The AGV handle ------------------------------------------------------------------------

  class OrderMessage {
    var header: Header
    var orderId: string
    var orderUpdateId: uint32

    constructor (header: Header, orderId: string, orderUpdateId: uint32)
      ensures this.header == header && this.orderId == orderId && this.orderUpdateId == orderUpdateId
    {
      this.header, this.orderId, this.orderUpdateId := header, orderId, orderUpdateId;
    }
  }

  class InstantActionsMessage {
    var header: Header
    var actionIds: seq<string>

    constructor (header: Header, actionIds: seq<string>)
      ensures this.header == header && this.actionIds == actionIds
    {
      this.header, this.actionIds := header, actionIds;
    }
  }

  datatype PublishResult = PublishResult(topic: string, channel: Channel, manufacturer: string, serialNumber: string,
                                         qos: nat, payload: Option<Payload>, headerId: uint32,
                                         orderId: string, orderUpdateId: uint32, actionIds: seq<string>)

  const NO_RESULT := PublishResult("", "", "", "", 0, None, 0, "", 0, [])

  /** The checks of a publish that come before the transport, in order; the first that fails decides. */
  ghost function Refusal(started: bool, present: bool, validation: Option<Error>, encodes: bool,
                         qos: nat): Option<Error> {
    if !started then Some(Root(ClientNotStarted, ""))
    else if !present then Some(Root(InvalidConfig, ""))
    else if validation.Some? then validation
    else if !encodes then Some(Root(Unrelated("json"), ""))
    else if qos > 2 then Some(Root(QosNotSupported, ""))
    else None
  }

  /** A refused publish is reusable, except when encoding failed: then nothing was sent and yet it counts as
    * uncertain. */
  lemma RefusalMeans(started: bool, present: bool, validation: Option<Error>, encodes: bool, qos: nat)
    requires validation.Some? ==> Cause(validation.value) == OutboundValidationFailed
    ensures var r := Refusal(started, present, validation, encodes, qos);
            r.Some? ==> (ClassifyPublish(r) == Uncertain <==> started && present && validation.None? && !encodes)
                        && ClassifyPublish(r) != Accepted
  {
    var r := Refusal(started, present, validation, encodes, qos);
    if r.Some? {
      ClassifyMeans(r.value);
    }
  }

  /**
   The checks in their order: a publish is refused exactly when one of them fails, and with the error of the first.
   QoS 0, 1 and 2 are fit for it, and nothing above.
   */
  lemma RefusalOrder(started: bool, present: bool, validation: Option<Error>, encodes: bool, qos: nat)
    ensures var r := Refusal(started, present, validation, encodes, qos);
            && (r.None? <==> started && present && validation.None? && encodes && (qos == 0 || qos == 1 || qos == 2))
            && (!started ==> r == Some(Root(ClientNotStarted, "")))
            && (started && !present ==> r == Some(Root(InvalidConfig, "")))
            && (started && present && validation.Some? ==> r == validation)
            && (started && present && validation.None? && !encodes ==> r.Some? && Cause(r.value).Unrelated?)
            && (started && present && validation.None? && encodes && qos > 2 ==> r == Some(Root(QosNotSupported, "")))
  {
  }

  /** What is reported for a refused publish says nothing. */
  lemma NothingReported()
    ensures NO_RESULT == PublishResult("", "", "", "", 0, None, 0, "", 0, [])
  {
  }

  /** The receiving side's strict identity check (inbound.go): blank headers pass. */
  predicate CheckIdentity(strict: bool, h: Header, manufacturer: string, serialNumber: string) {
    !strict || (h.manufacturer == "" && h.serialNumber == "")
    || (h.manufacturer == manufacturer && h.serialNumber == serialNumber)
  }

  /** A strict check turns away exactly the headers that name somebody else, in either part, and are not blank. */
  lemma IdentityChecked(h: Header, manufacturer: string, serialNumber: string)
    ensures CheckIdentity(false, h, manufacturer, serialNumber)
    ensures !CheckIdentity(true, h, manufacturer, serialNumber)
            <==> (h.manufacturer != "" || h.serialNumber != "")
                 && (h.manufacturer != manufacturer || h.serialNumber != serialNumber)
  {
  }

  /**
   A validated order is self-consistent on the wire: its topic parses back to the handle's identity and
   the header it carries passes the strict identity check there.
   */
  lemma PublishedOrderChecksOut(r: Resolver, h: Header, orderId: string, orderUpdateId: uint32, mfr: string,
                                serial: string, opts: Validation, version: string, now: string)
    requires ValidateOrder(h, orderId, orderUpdateId, mfr, serial, opts).None?
    requires !opts.disabled && !opts.skipIdentityCheck
    requires SlashFree(r.iface) && SlashFree(r.version) && SlashFree(mfr) && SlashFree(serial)
    ensures var parsed := r.Parse(r.Build(mfr, serial, ORDER));
            parsed.Parsed? && parsed.topic.channel == ORDER
            && CheckIdentity(true, Prepared(h, mfr, serial, version, now), parsed.topic.manufacturer,
                             parsed.topic.serialNumber)
  {
    ParseBuild(r, mfr, serial, ORDER);
    WireIdentity(h, orderId, orderUpdateId, mfr, serial, opts, version, now);
  }

  class AGVHandle {
    const topics: Resolver
    const version: string
    const validation: Validation
    const qos: nat
    const transport: Sender
    const manufacturer: string
    const serial: string
    /** The client behind the handle has been started. */
    var started: bool

    constructor (topics: Resolver, version: string, validation: Validation, qos: nat, transport: Sender,
                 manufacturer: string, serial: string, started: bool)
      ensures this.topics == topics && this.version == version && this.validation == validation && this.qos == qos
      ensures this.transport == transport && this.manufacturer == manufacturer && this.serial == serial
      ensures this.started == started
    {
      this.topics, this.version, this.validation, this.qos := topics, version, validation, qos;
      this.transport, this.manufacturer, this.serial, this.started := transport, manufacturer, serial, started;
    }

    ghost function OrderRefusal(o: OrderMessage?, w: World): Option<Error>
      reads this, o
    {
      Refusal(started, o != null,
              if o == null then None
              else ValidateOrder(o.header, o.orderId, o.orderUpdateId, manufacturer, serial, validation),
              w.encodes, qos)
    }

    /** Validation has passed, so the caller's message has been filled in. */
    ghost predicate OrderPrepared(o: OrderMessage?)
      reads this, o
    {
      started && o != null
      && ValidateOrder(o.header, o.orderId, o.orderUpdateId, manufacturer, serial, validation).None?
    }

    /**
     * PublishOrder. A refused publish sends nothing and reports the first failed check; otherwise the
     * packet carries the caller's ids under the built topic and the outcome says what became of it.
     */
    method PublishOrder(o: OrderMessage?, w: World)
      returns (res: PublishResult, err: Option<Error>, ghost sent: seq<Packet>)
      modifies o, transport`wire
      ensures transport.wire == old(transport.wire) + sent && OutcomeFits(ClassifyPublish(err), sent)
      ensures old(OrderRefusal(o, w)).Some? ==> err == old(OrderRefusal(o, w)) && sent == [] && res == NO_RESULT
      ensures old(OrderRefusal(o, w)).None? ==>
                && (sent == [] <==> !transport.running || w.cancelled.Some?)
                && (sent == [] ==> ClassifyPublish(err) == NotStarted)
                && (err.None? <==> Accepting(transport.running, w))
                && res == PublishResult(topics.Build(manufacturer, serial, ORDER), ORDER, manufacturer, serial, qos,
                                        Some(OrderPayload(o.header, o.orderId, o.orderUpdateId)),
                                        old(o.header.headerId), old(o.orderId), old(o.orderUpdateId), [])
      ensures sent != [] ==> sent[0].topic == res.topic && Some(sent[0].payload) == res.payload
      ensures sent != [] ==>
                && sent[0].topic == topics.Build(manufacturer, serial, "order") && sent[0].payload.OrderPayload?
                && sent[0].payload.orderId == old(o.orderId) && sent[0].payload.orderUpdateId == old(o.orderUpdateId)
                && var sentHeader := sent[0].payload.header;
                   && sentHeader.headerId == old(o.header.headerId)
                   && sentHeader.version == version && sentHeader.timestamp == w.now
                   && sentHeader.manufacturer == (if old(o.header.manufacturer) != "" then old(o.header.manufacturer)
                                                  else manufacturer)
                   && sentHeader.serialNumber == (if old(o.header.serialNumber) != "" then old(o.header.serialNumber)
                                                  else serial)
      ensures o != null ==> o.orderId == old(o.orderId) && o.orderUpdateId == old(o.orderUpdateId)
                            && o.header == if old(OrderPrepared(o))
                                           then Prepared(old(o.header), manufacturer, serial, version, w.now)
                                           else old(o.header)
    {
      sent := [];
      res := NO_RESULT;
      ghost var valid := if o == null then None
                         else ValidateOrder(o.header, o.orderId, o.orderUpdateId, manufacturer, serial, validation);
      if o != null {
        OrderPasses(o.header, o.orderId, o.orderUpdateId, manufacturer, serial, validation);
      }
      RefusalMeans(started, o != null, valid, w.encodes, qos);
      if !started {
        return res, Some(Root(ClientNotStarted, "")), [];
      }
      if o == null {
        return res, Some(Root(InvalidConfig, "")), [];
      }
      err := ValidateOrder(o.header, o.orderId, o.orderUpdateId, manufacturer, serial, validation);
      if err.Some? {
        return;
      }
      o.header := Prepared(o.header, manufacturer, serial, version, w.now);
      if !w.encodes {
        return res, Some(Root(Unrelated("json"), "")), [];
      }
      var payload := OrderPayload(o.header, o.orderId, o.orderUpdateId);
      if qos > 2 {
        return res, Some(Root(QosNotSupported, "")), [];
      }
      var topic := topics.Build(manufacturer, serial, ORDER);
      res := PublishResult(topic, ORDER, manufacturer, serial, qos, Some(payload), o.header.headerId, o.orderId,
                           o.orderUpdateId, []);
      err, sent := transport.Publish(topic, payload, w);
    }

    ghost function ActionsRefusal(ia: InstantActionsMessage?, w: World): Option<Error>
      reads this, ia
    {
      Refusal(started, ia != null,
              if ia == null then None else ActionsVerdict(ia.header, ia.actionIds, manufacturer, serial, validation),
              w.encodes, qos)
    }

    ghost predicate ActionsPrepared(ia: InstantActionsMessage?)
      reads this, ia
    {
      started && ia != null && ActionsVerdict(ia.header, ia.actionIds, manufacturer, serial, validation).None?
    }

    /** PublishInstantActions: as PublishOrder, with the action ids, in order, in place of the order's. */
    method PublishInstantActions(ia: InstantActionsMessage?, w: World)
      returns (res: PublishResult, err: Option<Error>, ghost sent: seq<Packet>)
      modifies ia, transport`wire
      ensures transport.wire == old(transport.wire) + sent && OutcomeFits(ClassifyPublish(err), sent)
      ensures old(ActionsRefusal(ia, w)).Some? ==> err == old(ActionsRefusal(ia, w)) && sent == [] && res == NO_RESULT
      ensures old(ActionsRefusal(ia, w)).None? ==>
                && (sent == [] <==> !transport.running || w.cancelled.Some?)
                && (sent == [] ==> ClassifyPublish(err) == NotStarted)
                && (err.None? <==> Accepting(transport.running, w))
                && res == PublishResult(topics.Build(manufacturer, serial, INSTANT_ACTIONS), INSTANT_ACTIONS,
                                        manufacturer, serial, qos, Some(ActionsPayload(ia.header, ia.actionIds)),
                                        old(ia.header.headerId), "", 0, old(ia.actionIds))
      ensures sent != [] ==> sent[0].topic == res.topic && Some(sent[0].payload) == res.payload
      ensures sent != [] ==>
                && sent[0].topic == topics.Build(manufacturer, serial, "instantActions")
                && sent[0].payload.ActionsPayload? && sent[0].payload.actionIds == old(ia.actionIds)
                && var sentHeader := sent[0].payload.header;
                   && sentHeader.headerId == old(ia.header.headerId)
                   && sentHeader.version == version && sentHeader.timestamp == w.now
                   && sentHeader.manufacturer == (if old(ia.header.manufacturer) != "" then old(ia.header.manufacturer)
                                                  else manufacturer)
                   && sentHeader.serialNumber == (if old(ia.header.serialNumber) != "" then old(ia.header.serialNumber)
                                                  else serial)
      ensures ia != null ==> ia.actionIds == old(ia.actionIds)
                             && ia.header == if old(ActionsPrepared(ia))
                                             then Prepared(old(ia.header), manufacturer, serial, version, w.now)
                                             else old(ia.header)
    {
      sent := [];
      res := NO_RESULT;
      ghost var valid := if ia == null then None
                         else ActionsVerdict(ia.header, ia.actionIds, manufacturer, serial, validation);
      RefusalMeans(started, ia != null, valid, w.encodes, qos);
      if !started {
        return res, Some(Root(ClientNotStarted, "")), [];
      }
      if ia == null {
        return res, Some(Root(InvalidConfig, "")), [];
      }
      var index;
      err, index := ValidateInstantActions(ia.header, ia.actionIds, manufacturer, serial, validation);
      if err.Some? {
        return;
      }
      ia.header := Prepared(ia.header, manufacturer, serial, version, w.now);
      if !w.encodes {
        return res, Some(Root(Unrelated("json"), "")), [];
      }
      if qos > 2 {
        return res, Some(Root(QosNotSupported, "")), [];
      }
      var topic := topics.Build(manufacturer, serial, INSTANT_ACTIONS);
      var ids := [];
      for i := 0 to |ia.actionIds|
        invariant ids == ia.actionIds[..i]
      {
        ids := ids + [ia.actionIds[i]];
      }
      var payload := ActionsPayload(ia.header, ia.actionIds);
      res := PublishResult(topic, INSTANT_ACTIONS, manufacturer, serial, qos, Some(payload), ia.header.headerId, "",
                           0, ids);
      err, sent := transport.Publish(topic, payload, w);
    }
  }
}
