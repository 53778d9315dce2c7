/**
 The inbound dispatcher (internal/mqtt/dispatch.go with the lifecycle part of
 transport.go) as a transition system. One MQTT callback produces; every lane
 has its own worker. Each critical section and each channel operation of the
 source is one atomic step, so a run is an arbitrary interleaving.

 The last four components of a state are histories: they record what happened
 and are never consulted by a step's choice.
 */
module Dispatcher {
  import opened Streams
  import opened Topics

  /** One queued message. receivedAt is the arrival stamp; it identifies the arrival. */
  datatype Inbound = Inbound(topic: string, payload: int, handler: int, receivedAt: nat)

  datatype WorkerPc = Waiting | Running(msg: Inbound) | Exited

  /**
   A bounded channel together with the worker that runQueue started on it.
   sent and delivered are histories.
   */
  datatype Lane = Lane(
    epoch: nat,
    route: Route,
    buf: seq<Inbound>,
    pc: WorkerPc,
    sent: seq<Inbound>,
    delivered: seq<Inbound>)

  datatype ConnPc = Selecting | Draining | Handling(msg: Inbound) | Gone

  /** The one-slot wake channel of an epoch and its coalescing worker. The sequences are histories. */
  datatype ConnLane = ConnLane(
    wake: bool,
    pc: ConnPc,
    posted: seq<Inbound>,
    delivered: seq<Inbound>,
    overwritten: seq<Inbound>)

  /** The done channel a producer sampled: that of an epoch's context, or the closed one for "no context". */
  datatype Done = DoneOf(epoch: nat) | AlreadyClosed

  datatype Producer =
    | Idle
    | Routed(msg: Inbound)                                        // lane known, nothing read yet
    | Sampled(msg: Inbound, done: Done)                           // hook and done read under the lock
    | Offering(msg: Inbound, done: Done, lane: nat)               // has the queue
    | Refused(msg: Inbound, done: Done, lane: nat, depth: nat)    // queue was full at the first select
    | Blocked(msg: Inbound, done: Done, lane: nat)                // hook called, waiting in the second select
    | Posting(msg: Inbound)                                       // connection lane, nothing read yet
    | Waking(epoch: nat)                                          // message is in the map, wake not sent

  datatype Mode = Down | Connecting | Up | Clearing | Cancelled

  datatype Fate = Sent(lane: nat) | Posted(epoch: nat) | Discarded(depth: nat) | Lost

  datatype DropReason = DropDiscarded | DropBackpressured
  datatype Report = Report(msg: Inbound, reason: DropReason, depth: nat)

  /** An epoch's context has been cancelled. */
  predicate ContextOver(epoch: nat, epochs: nat, mode: Mode) {
    epoch + 1 < epochs || mode.Cancelled? || mode.Down?
  }

  datatype State = State(
    qsize: nat,
    mode: Mode,
    topicQ: nat,
    shards: map<string, nat>,
    connLatest: map<string, Inbound>,
    lanes: seq<Lane>,
    conns: seq<ConnLane>,
    producer: Producer,
    arrived: seq<Inbound>,
    fate: map<nat, Fate>,
    reports: seq<Report>,
    start: nat)
  {
    /** The dispatch fields are non-nil. They are set together and cleared together. */
    predicate Open() {
      (mode.Connecting? || mode.Up?) && |conns| > 0
    }

    predicate CtxDone(epoch: nat) {
      ContextOver(epoch, |conns|, mode)
    }

    predicate DoneClosed(done: Done) {
      done.AlreadyClosed? || CtxDone(done.epoch)
    }
  }

  const DEFAULT_INBOUND_QUEUE: nat := 256

  function QueueSize(configured: int): nat {
    if configured <= 0 then DEFAULT_INBOUND_QUEUE else configured
  }

  function Init(configured: int): State {
    State(QueueSize(configured), Down, 0, map[], map[], [], [], Idle, [], map[], [], 0)
  }

  datatype Step =
    | Arrive(topic: string, payload: int, handler: int)
    | Sample | FindQueue | Offer | Hook | Unblock | Abandon | Post | Wake
    | Receive(lane: nat) | Finish(lane: nat) | Quit(lane: nat)
    | WakeUp(epoch: nat) | Take(epoch: nat, key: string) | DrainEnd(epoch: nat)
    | Handled(epoch: nat) | ConnQuit(epoch: nat)
    | StartDispatch | Connected | ClearDispatch | CancelDispatch | StopReturns

  function RouteOf(m: Inbound): Route {
    Classify(m.topic)
  }

  /** The key a connection message is coalesced under; enqueueConnection falls back to the topic. */
  function ConnKey(m: Inbound): string {
    match RouteOf(m)
    case ToConnection(key) => if key == "" then m.topic else key
    case _ => m.topic
  }

  ghost predicate AllExited(s: State) {
    && (forall i | 0 <= i < |s.lanes| :: s.lanes[i].pc.Exited?)
    && (forall e | 0 <= e < |s.conns| :: s.conns[e].pc.Gone?)
  }

  ghost predicate Enabled(s: State, st: Step) {
    match st
    case Arrive(_, _, _) => s.producer.Idle?
    case Sample => s.producer.Routed?
    case FindQueue => s.producer.Sampled?
    case Offer => s.producer.Offering? && s.producer.lane < |s.lanes|
    case Hook => s.producer.Refused?
    case Unblock => s.producer.Blocked? && s.producer.lane < |s.lanes| && |s.lanes[s.producer.lane].buf| < s.qsize
    case Abandon => s.producer.Blocked? && s.DoneClosed(s.producer.done)
    case Post => s.producer.Posting?
    case Wake => s.producer.Waking? && s.producer.epoch < |s.conns|
    case Receive(i) => i < |s.lanes| && s.lanes[i].pc.Waiting? && s.lanes[i].buf != []
    case Finish(i) => i < |s.lanes| && s.lanes[i].pc.Running?
    case Quit(i) => i < |s.lanes| && s.lanes[i].pc.Waiting? && s.CtxDone(s.lanes[i].epoch)
    case WakeUp(e) => e < |s.conns| && s.conns[e].pc.Selecting? && s.conns[e].wake
    case Take(e, k) => e < |s.conns| && s.conns[e].pc.Draining? && k in s.connLatest
    case DrainEnd(e) => e < |s.conns| && s.conns[e].pc.Draining? && s.connLatest == map[]
    case Handled(e) => e < |s.conns| && s.conns[e].pc.Handling?
    case ConnQuit(e) => e < |s.conns| && s.conns[e].pc.Selecting? && s.CtxDone(e)
    case StartDispatch => s.mode.Down?
    case Connected => s.mode.Connecting?
    case ClearDispatch => s.Open()
    case CancelDispatch => s.mode.Clearing?
    case StopReturns => s.mode.Cancelled? && AllExited(s)
  }

  function NewLane(epoch: nat, route: Route): Lane {
    Lane(epoch, route, [], Waiting, [], [])
  }

  function SetLane(s: State, i: nat, l: Lane): State
    requires i < |s.lanes|
  {
    s.(lanes := s.lanes[i := l])
  }

  function SetConn(s: State, e: nat, c: ConnLane): State
    requires e < |s.conns|
  {
    s.(conns := s.conns[e := c])
  }

  /** The producer returns; its message gets its final fate. */
  function Settle(s: State, m: Inbound, f: Fate): State {
    s.(producer := Idle, fate := s.fate[m.receivedAt := f])
  }

  /** A channel send, by the first or the second select of enqueue. */
  function Send(s: State, m: Inbound, i: nat): State
    requires i < |s.lanes|
  {
    var l := s.lanes[i];
    Settle(SetLane(s, i, l.(buf := l.buf + [m], sent := l.sent + [m])), m, Sent(i))
  }

  /** queueFor and agvQueue: the lane of the message, started on first use, or nil once cleared. */
  function QueueFor(s: State, m: Inbound, done: Done): State
  {
    if !s.Open() then Settle(s, m, Lost)
    else
      match RouteOf(m)
      case ToAgv(key) =>
        if key in s.shards then s.(producer := Offering(m, done, s.shards[key]))
        else s.(lanes := s.lanes + [NewLane(|s.conns| - 1, ToAgv(key))],
                shards := s.shards[key := |s.lanes|],
                producer := Offering(m, done, |s.lanes|))
      case _ => s.(producer := Offering(m, done, s.topicQ))
  }

  /** The locked section of enqueueConnection: latest wins. */
  function PostConnection(s: State, m: Inbound): State
  {
    if !s.Open() then Settle(s, m, Lost)
    else
      var key := ConnKey(m);
      var e := |s.conns| - 1;
      var c := s.conns[e];
      var over := if key in s.connLatest then [s.connLatest[key]] else [];
      Settle(SetConn(s, e, c.(posted := c.posted + [m], overwritten := c.overwritten + over)), m, Posted(e))
      .(connLatest := s.connLatest[key := m], producer := Waking(e))
  }

  /** startDispatchLocked: a new epoch, with its coalescing worker and its topic lane. */
  function Started(s: State): State {
    s.(mode := Connecting, shards := map[], connLatest := map[],
       topicQ := |s.lanes|, lanes := s.lanes + [NewLane(|s.conns|, ToTopic)],
       conns := s.conns + [ConnLane(false, Selecting, [], [], [])],
       start := |s.arrived|)
  }

  function Apply(s: State, st: Step): State
    requires Enabled(s, st)
  {
    match st
    case Arrive(topic, payload, handler) =>
      var m := Inbound(topic, payload, handler, |s.arrived|);
      s.(arrived := s.arrived + [m], producer := if Classify(topic).ToConnection? then Posting(m) else Routed(m))
    case Sample =>
      s.(producer := Sampled(s.producer.msg, if s.Open() then DoneOf(|s.conns| - 1) else AlreadyClosed))
    case FindQueue => QueueFor(s, s.producer.msg, s.producer.done)
    case Offer =>
      var p := s.producer;
      if |s.lanes[p.lane].buf| < s.qsize then Send(s, p.msg, p.lane)
      else s.(producer := Refused(p.msg, p.done, p.lane, |s.lanes[p.lane].buf|))
    case Hook =>
      var p := s.producer;
      if Droppable(p.msg.topic) then
        Settle(s, p.msg, Discarded(p.depth)).(reports := s.reports + [Report(p.msg, DropDiscarded, p.depth)])
      else
        s.(producer := Blocked(p.msg, p.done, p.lane),
           reports := s.reports + [Report(p.msg, DropBackpressured, p.depth)])
    case Unblock => Send(s, s.producer.msg, s.producer.lane)
    case Abandon => Settle(s, s.producer.msg, Lost)
    case Post => PostConnection(s, s.producer.msg)
    case Wake =>
      var e := s.producer.epoch;
      SetConn(s, e, s.conns[e].(wake := true)).(producer := Idle)
    case Receive(i) =>
      var l := s.lanes[i];
      SetLane(s, i, l.(buf := l.buf[1..], pc := Running(l.buf[0])))
    case Finish(i) =>
      var l := s.lanes[i];
      SetLane(s, i, l.(pc := Waiting, delivered := l.delivered + [l.pc.msg]))
    case Quit(i) => SetLane(s, i, s.lanes[i].(pc := Exited))
    case WakeUp(e) => SetConn(s, e, s.conns[e].(wake := false, pc := Draining))
    case Take(e, k) =>
      SetConn(s, e, s.conns[e].(pc := Handling(s.connLatest[k]))).(connLatest := s.connLatest - {k})
    case DrainEnd(e) => SetConn(s, e, s.conns[e].(pc := Selecting))
    case Handled(e) =>
      var c := s.conns[e];
      SetConn(s, e, c.(pc := Draining, delivered := c.delivered + [c.pc.msg]))
    case ConnQuit(e) => SetConn(s, e, s.conns[e].(pc := Gone))
    case StartDispatch => Started(s)
    case Connected => s.(mode := Up)
    case ClearDispatch => s.(mode := Clearing, shards := map[], connLatest := map[])
    case CancelDispatch => s.(mode := Cancelled)
    case StopReturns => s.(mode := Down)
  }

  /** The given steps lead from s to s', each of them enabled where it is taken. */
  ghost predicate Runs(s: State, steps: seq<Step>, s': State)
    decreases |steps|
  {
    if steps == [] then s == s'
    else Enabled(s, steps[0]) && Runs(Apply(s, steps[0]), steps[1..], s')
  }

  lemma {:induction false} RunsSnoc(s: State, steps: seq<Step>, mid: State, st: Step)
    requires Runs(s, steps, mid) && Enabled(mid, st)
    ensures Runs(s, steps + [st], Apply(mid, st))
    decreases |steps|
  {
    hide Apply, Enabled;
    if steps == [] {
      assert ([] + [st])[1..] == [];
      assert Runs(Apply(mid, st), [], Apply(mid, st));
    } else {
      RunsSnoc(Apply(s, steps[0]), steps[1..], mid, st);
      assert (steps + [st])[1..] == steps[1..] + [st];
    }
  }

  ghost predicate Reachable(s: State) {
    exists configured: int, steps: seq<Step> :: Runs(Init(configured), steps, s)
  }
}
