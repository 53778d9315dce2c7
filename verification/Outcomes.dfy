/**
 Publish errors and the three-way outcome (publish.go, internal/mqtt/attempted.go,
 mqtt_adapter.go). An error is a chain of wrappers around one root cause, and
 every question asked of it (errors.Is, errors.As) walks that chain.
 */
module Outcomes {
  import opened Subscriptions

  datatype Code =
    | InvalidConfig | ClientNotStarted | TransportNotRunning | QosNotSupported | PublishFailed
    | OutboundValidationFailed | TimeoutError | ContextCanceled | DeadlineExceeded
    | Unrelated(text: string)

  datatype Error =
    | Root(code: Code, reason: string)
    /** A wrapper with no meaning to navlink, as from a %w format. */
    | Wrapped(err: Error)
    /** internal/mqtt: MQTT Publish had been invoked. */
    | MqttAttempted(err: Error)
    /** navlink: the same mark, on the public side of the adapter. */
    | PublishAttempted(err: Error)

  datatype Outcome = Accepted | NotStarted | Uncertain

  /** errors.Is, against a coded error. */
  predicate Is(e: Error, code: Code) {
    match e
    case Root(c, _) => c == code
    case Wrapped(inner) => Is(inner, code)
    case MqttAttempted(inner) => Is(inner, code)
    case PublishAttempted(inner) => Is(inner, code)
  }

  /** errors.As, for the public mark. */
  predicate WasAttempted(e: Error) {
    match e
    case Root(_, _) => false
    case Wrapped(inner) => WasAttempted(inner)
    case MqttAttempted(inner) => WasAttempted(inner)
    case PublishAttempted(_) => true
  }

  /** errors.As, for the transport's mark: the error under the outermost one. */
  function UnderMqttMark(e: Error): Option<Error> {
    match e
    case Root(_, _) => None
    case Wrapped(inner) => UnderMqttMark(inner)
    case MqttAttempted(inner) => Some(inner)
    case PublishAttempted(inner) => UnderMqttMark(inner)
  }

  function ClassifyPublish(err: Option<Error>): Outcome {
    if err.None? then Accepted
    else
      var e := err.value;
      if Is(e, OutboundValidationFailed) || (Is(e, ClientNotStarted) || Is(e, TransportNotRunning))
         || Is(e, QosNotSupported) || Is(e, PublishFailed) then NotStarted
      else if Is(e, InvalidConfig) then NotStarted
      else if Is(e, TimeoutError) then Uncertain
      else if WasAttempted(e) then Uncertain
      else if Is(e, ContextCanceled) || Is(e, DeadlineExceeded) then NotStarted
      else Uncertain
  }

  function MarkPublishAttempted(err: Option<Error>): Option<Error> {
    if err.None? || WasAttempted(err.value) then err else Some(PublishAttempted(err.value))
  }

  /** mqttTransport.Publish: the transport's mark becomes the public one. */
  function Adapt(err: Option<Error>): Option<Error> {
    if err.Some? && UnderMqttMark(err.value).Some? then MarkPublishAttempted(UnderMqttMark(err.value)) else err
  }

  // ---- What the classification means ------------------------------------------------

  /** The root cause of a chain. */
  ghost function Cause(e: Error): Code {
    match e
    case Root(c, _) => c
    case Wrapped(inner) => Cause(inner)
    case MqttAttempted(inner) => Cause(inner)
    case PublishAttempted(inner) => Cause(inner)
  }

  /** Causes that rule out a deliverable packet whatever else is known. */
  ghost predicate Definite(c: Code) {
    c.InvalidConfig? || c.ClientNotStarted? || c.TransportNotRunning? || c.QosNotSupported? || c.PublishFailed?
    || c.OutboundValidationFailed?
  }

  ghost predicate ContextEnded(c: Code) {
    c.ContextCanceled? || c.DeadlineExceeded?
  }

  lemma {:induction false} IsCause(e: Error, code: Code)
    ensures Is(e, code) <==> Cause(e) == code
  {
    if !e.Root? {
      IsCause(e.err, code);
    }
  }

  /** Ids are returned to the pool for definite causes, and for an ended context only if nothing was attempted. */
  lemma ClassifyMeans(e: Error)
    ensures ClassifyPublish(Some(e)) == NotStarted
            <==> Definite(Cause(e)) || (ContextEnded(Cause(e)) && !WasAttempted(e))
    ensures ClassifyPublish(Some(e)) != Accepted
  {
    IsCause(e, OutboundValidationFailed);
    IsCause(e, ClientNotStarted);
    IsCause(e, TransportNotRunning);
    IsCause(e, QosNotSupported);
    IsCause(e, PublishFailed);
    IsCause(e, InvalidConfig);
    IsCause(e, TimeoutError);
    IsCause(e, ContextCanceled);
    IsCause(e, DeadlineExceeded);
  }

  /** The outcome of every kind of error, by its cause and whether the publish had been attempted. */
  lemma OutcomeByCause(e: Error)
    ensures ClassifyPublish(None) == Accepted
    ensures ClassifyPublish(Some(e))
            == match Cause(e)
               case InvalidConfig => NotStarted
               case ClientNotStarted => NotStarted
               case TransportNotRunning => NotStarted
               case QosNotSupported => NotStarted
               case PublishFailed => NotStarted
               case OutboundValidationFailed => NotStarted
               case TimeoutError => Uncertain
               case ContextCanceled => if WasAttempted(e) then Uncertain else NotStarted
               case DeadlineExceeded => if WasAttempted(e) then Uncertain else NotStarted
               case Unrelated(_) => Uncertain
  {
    ClassifyMeans(e);
  }

  /** Marking is idempotent, keeps the cause, and turns exactly the indefinite causes into Uncertain. */
  lemma MarkMeans(e: Error)
    ensures var m := MarkPublishAttempted(Some(e));
            && m.Some? && MarkPublishAttempted(m) == m && Cause(m.value) == Cause(e) && WasAttempted(m.value)
            && (ClassifyPublish(m) == Uncertain <==> !Definite(Cause(e)))
  {
    ClassifyMeans(MarkPublishAttempted(Some(e)).value);
  }

  /** The only outcome a mark changes is that of an ended context, from reusable to uncertain. */
  lemma MarkChanges(e: Error)
    ensures ClassifyPublish(MarkPublishAttempted(Some(e))) != ClassifyPublish(Some(e))
            <==> ContextEnded(Cause(e)) && !WasAttempted(e)
  {
    ClassifyMeans(e);
    MarkMeans(e);
  }

  lemma {:induction false} UnderMarkKeepsCause(e: Error)
    ensures UnderMqttMark(e).Some? ==> Cause(UnderMqttMark(e).value) == Cause(e)
  {
    if !e.Root? && !e.MqttAttempted? {
      UnderMarkKeepsCause(e.err);
    }
  }

  /** Crossing the adapter keeps the cause, and an attempt marked on either side stays marked. */
  lemma AdaptMeans(e: Error)
    ensures var a := Adapt(Some(e));
            a.Some? && Cause(a.value) == Cause(e)
            && (WasAttempted(a.value) <==> UnderMqttMark(e).Some? || WasAttempted(e))
  {
    UnderMarkKeepsCause(e);
  }
}
