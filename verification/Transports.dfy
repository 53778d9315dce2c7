/**
 The transport object whose fields the dispatcher updates
 (internal/mqtt/transport.go, internal/mqtt/dispatch.go). A method is one
 critical section or one channel operation, or a loop over such methods; each
 is proved to take exactly the corresponding steps of the transition system, so
 that every state an object can get into is a reachable one and the dispatcher's
 theorems hold of it.
 */
module Transports {
  import opened Topics
  import opened Dispatcher
  import opened DispatcherInvariant
  import opened DispatcherSteps

  lemma ApplyStart(s: State)
    requires s.mode.Down?
    ensures Enabled(s, StartDispatch) && Apply(s, StartDispatch) == Started(s)
  {
  }

  lemma ApplyPost(s: State)
    requires s.producer.Posting?
    ensures Enabled(s, Post) && Apply(s, Post) == PostConnection(s, s.producer.msg)
  {
    hide PostConnection;
  }

  lemma ApplyFindQueue(s: State)
    requires s.producer.Sampled?
    ensures Enabled(s, FindQueue) && Apply(s, FindQueue) == QueueFor(s, s.producer.msg, s.producer.done)
  {
    hide QueueFor;
  }

  /** What queueFor finds: nothing once closed, and otherwise the one lane of the message's route. */
  lemma QueueFound(s: State)
    requires Inv(s) && s.producer.Sampled?
    ensures var m := s.producer.msg;
            var q := QueueFor(s, m, s.producer.done);
            if !s.Open() then q == Settle(s, m, Lost)
            else
              && q.producer.Offering? && q.producer.msg == m && q.producer.lane < |q.lanes|
              && q.lanes[q.producer.lane].route == RouteOf(m)
              && q == s.(producer := q.producer, lanes := q.lanes, shards := q.shards)
              && q.lanes[q.producer.lane] == (if q.producer.lane < |s.lanes| then s.lanes[q.producer.lane]
                                              else NewLane(|s.conns| - 1, RouteOf(m)))
  {
    hide StampInv, FifoInv, WorkerInv, FateInv, ReportInv, PostInv, PendingInv, CurrentInv, RouteOf, Droppable;
  }

  /** What shutdown leaves of a lane: the message in hand and some first queued ones were still delivered. */
  ghost predicate WoundDown(l: Lane, l': Lane) {
    && l.delivered + InHand(l.pc) <= l'.delivered
    && l'.delivered <= l.delivered + InHand(l.pc) + l.buf
    && l'.sent == l.sent && l'.route == l.route
  }

  class Transport {
    const configured: int
    const qsize: nat
    var mode: Mode
    var topicQ: nat
    var shards: map<string, nat>
    var connLatest: map<string, Inbound>
    var lanes: seq<Lane>
    var conns: seq<ConnLane>
    var producer: Producer
    ghost var arrived: seq<Inbound>
    ghost var fate: map<nat, Fate>
    ghost var reports: seq<Report>
    ghost var start: nat
    ghost var trace: seq<Step>
    var stamp: nat

    ghost function Abs(): State
      reads this
    {
      State(qsize, mode, topicQ, shards, connLatest, lanes, conns, producer, arrived, fate, reports, start)
    }

    ghost predicate Valid()
      reads this
    {
      Runs(Init(configured), trace, Abs()) && stamp == |arrived|
    }

    predicate Open()
      reads this
    {
      (mode.Connecting? || mode.Up?) && |conns| > 0
    }

    lemma IsReachable()
      requires Valid()
      ensures Reachable(Abs()) && Inv(Abs())
      ensures configured > 0 ==> qsize == configured
      ensures configured <= 0 ==> qsize == 256
    {
      assert Reachable(Abs());
      hide Reachable, Inv;
      ReachableInv(Abs());
      RunsKeepSize(Init(configured), trace, Abs());
    }

    /** Records that the object has just taken the step. */
    ghost method Record(before: State, st: Step)
      requires Runs(Init(configured), trace, before) && Enabled(before, st) && Abs() == Apply(before, st)
      requires stamp == |arrived|
      modifies this`trace
      ensures Valid() && trace == old(trace) + [st]
    {
      hide Apply, Enabled;
      RunsSnoc(Init(configured), trace, before, st);
      trace := trace + [st];
    }

    constructor (configured: int)
      ensures Valid() && Abs() == Init(configured) && this.configured == configured
      ensures configured > 0 ==> qsize == configured
      ensures configured <= 0 ==> qsize == 256
    {
      this.configured := configured;
      qsize := if configured <= 0 then DEFAULT_INBOUND_QUEUE else configured;
      mode, topicQ, shards, connLatest, lanes, conns, producer := Down, 0, map[], map[], [], [], Idle;
      arrived, fate, reports, start, trace, stamp := [], map[], [], 0, [], 0;
    }

    // ---- Life cycle ---------------------------------------------------------------

    /** startDispatchLocked: fresh fields, the coalescing worker and the topic worker. */
    method StartDispatchLocked()
      requires Valid() && mode.Down?
      modifies this
      ensures Valid() && Abs() == Apply(old(Abs()), StartDispatch)
      ensures mode.Connecting? && shards == map[] && connLatest == map[] && producer == old(producer)
      ensures topicQ == |old(lanes)| && lanes == old(lanes) + [NewLane(|old(conns)|, ToTopic)]
      ensures conns == old(conns) + [ConnLane(false, Selecting, [], [], [])]
    {
      hide Runs, Apply, Enabled;
      ApplyStart(Abs());
      ghost var before := Abs();
      mode := Connecting;
      shards, connLatest := map[], map[];
      topicQ := |lanes|;
      lanes := lanes + [NewLane(|conns|, ToTopic)];
      conns := conns + [ConnLane(false, Selecting, [], [], [])];
      start := |arrived|;
      Record(before, StartDispatch);
    }

    /** The connect token completed: the transport is running. */
    method MarkRunning()
      requires Valid() && mode.Connecting?
      modifies this
      ensures Valid() && Abs() == Apply(old(Abs()), Connected)
      ensures mode.Up? && shards == old(shards) && connLatest == old(connLatest) && topicQ == old(topicQ)
      ensures lanes == old(lanes) && conns == old(conns) && producer == old(producer)
    {
      hide Runs, Dispatcher.QueueFor, PostConnection, Dispatcher.Send, Settle, SetLane, SetConn, RouteOf, ConnKey;
      hide Classify, Droppable;
      ghost var before := Abs();
      mode := Up;
      Record(before, Connected);
    }

    /** The locked section of Stop and of shutdownDispatch. */
    method ClearFields()
      requires Valid() && Open()
      modifies this
      ensures Valid() && Abs() == Apply(old(Abs()), ClearDispatch)
      ensures shards == map[] && connLatest == map[] && mode.Clearing?
      ensures trace == old(trace) + [ClearDispatch]
      ensures lanes == old(lanes) && conns == old(conns) && producer == old(producer)
    {
      hide Runs, Dispatcher.QueueFor, PostConnection, Dispatcher.Send, Settle, SetLane, SetConn, RouteOf, ConnKey;
      hide Classify, Droppable;
      ghost var before := Abs();
      mode := Clearing;
      shards, connLatest := map[], map[];
      Record(before, ClearDispatch);
    }

    method CancelContext()
      requires Valid() && mode.Clearing?
      modifies this
      ensures Valid() && Abs() == Apply(old(Abs()), CancelDispatch)
      ensures trace == old(trace) + [CancelDispatch]
      ensures mode.Cancelled? && shards == old(shards) && connLatest == old(connLatest)
      ensures lanes == old(lanes) && conns == old(conns) && producer == old(producer)
    {
      hide Runs, Dispatcher.QueueFor, PostConnection, Dispatcher.Send, Settle, SetLane, SetConn, RouteOf, ConnKey;
      hide Classify, Droppable;
      ghost var before := Abs();
      mode := Cancelled;
      Record(before, CancelDispatch);
    }

    /** Stop and shutdownDispatch up to the wait: fields first, then cancel. */
    method ShutdownDispatch()
      requires Valid() && Open()
      modifies this
      ensures Valid() && trace == old(trace) + [ClearDispatch, CancelDispatch]
      ensures !Open() && shards == map[] && connLatest == map[] && mode.Cancelled?
      ensures lanes == old(lanes) && conns == old(conns) && producer == old(producer)
    {
      hide Runs, Apply, Enabled;
      ClearFields();
      CancelContext();
    }

    /**
     * The wait for the workers once the context is cancelled. A running handler finishes; a select that finds
     * both the context done and a message may take either, so some queued messages may still be delivered, in
     * order; the connection worker finds its map gone.
     */
    method AwaitWorkers()
      requires Valid() && mode.Cancelled?
      modifies this
      ensures Valid() && mode.Down? && AllExited(Abs())
      ensures |lanes| == |old(lanes)| && |conns| == |old(conns)| && producer == old(producer)
      ensures forall i | 0 <= i < |lanes| :: WoundDown(old(lanes)[i], lanes[i])
      ensures forall e | 0 <= e < |conns| :: conns[e].delivered == Taken(old(conns)[e])
    {
      hide Runs, Apply, Enabled, WoundDown;
      NothingPending();
      var i := 0;
      while i < |lanes|
        invariant Valid() && mode.Cancelled? && conns == old(conns) && connLatest == map[] && producer == old(producer)
        invariant |lanes| == |old(lanes)| && i <= |lanes|
        invariant forall j | 0 <= j < i :: lanes[j].pc.Exited? && WoundDown(old(lanes)[j], lanes[j])
        invariant forall j | i <= j < |lanes| :: lanes[j] == old(lanes)[j]
      {
        WindDownQueue(i);
        i := i + 1;
      }
      ghost var wound := lanes;
      var e := 0;
      while e < |conns|
        invariant Valid() && mode.Cancelled? && lanes == wound && connLatest == map[] && producer == old(producer)
        invariant |conns| == |old(conns)| && e <= |conns|
        invariant forall j | 0 <= j < e :: conns[j].pc.Gone? && conns[j].delivered == Taken(old(conns)[j])
        invariant forall j | e <= j < |conns| :: conns[j] == old(conns)[j]
      {
        WindDownConnections(e);
        e := e + 1;
      }
      WaitReturns();
    }

    lemma NothingPending()
      requires Valid() && mode.Cancelled?
      ensures connLatest == map[]
    {
      IsReachable();
      hide StampInv, FifoInv, RegistryInv, WorkerInv, ProducerInv, FateInv, ReportInv, PostInv, CurrentInv;
    }

    /** runQueue of one lane after the cancellation, to its end. */
    method WindDownQueue(i: nat)
      requires Valid() && mode.Cancelled? && i < |lanes|
      modifies this
      ensures Valid() && mode.Cancelled? && conns == old(conns) && connLatest == old(connLatest)
              && producer == old(producer)
      ensures |lanes| == |old(lanes)| && forall j | 0 <= j < |lanes| && j != i :: lanes[j] == old(lanes)[j]
      ensures lanes[i].pc.Exited? && WoundDown(old(lanes)[i], lanes[i])
    {
      hide Runs, Apply, Enabled;
      if lanes[i].pc.Running? {
        HandlerReturned(i);
      }
      ghost var rest := lanes[i].buf;
      if lanes[i].pc.Waiting? {
        ghost var was := lanes[i].delivered;
        while true
          invariant Valid() && mode.Cancelled? && conns == old(conns) && connLatest == old(connLatest)
          invariant producer == old(producer) && |lanes| == |old(lanes)| && lanes[i].pc.Waiting?
          invariant forall j | 0 <= j < |lanes| && j != i :: lanes[j] == old(lanes)[j]
          invariant was <= lanes[i].delivered && lanes[i].delivered + lanes[i].buf == was + rest
          invariant SameLane(old(lanes)[i], lanes[i])
          decreases |lanes[i].buf|
        {
          if lanes[i].buf == [] {
            break;
          }
          if * {
            break;
          }
          ReceiveOne(i);
          HandlerReturned(i);
        }
        assert lanes[i].delivered <= was + rest;
        QuitQueue(i);
      }
      assert InHand(old(lanes)[i].pc) + old(lanes)[i].buf == InHand(old(lanes)[i].pc) + rest;
    }

    /** runConnectionCoalesce after the cancellation, to its end. */
    method WindDownConnections(e: nat)
      requires Valid() && mode.Cancelled? && e < |conns| && connLatest == map[]
      modifies this
      ensures Valid() && mode.Cancelled? && lanes == old(lanes) && connLatest == map[] && producer == old(producer)
      ensures |conns| == |old(conns)| && forall j | 0 <= j < |conns| && j != e :: conns[j] == old(conns)[j]
      ensures conns[e].pc.Gone? && conns[e].delivered == Taken(old(conns)[e])
    {
      hide Runs, Apply, Enabled;
      if conns[e].pc.Handling? {
        ConnectionHandlerReturned(e);
      }
      var ok;
      ghost var key;
      if conns[e].pc.Draining? {
        ok, key := TakeConn(e);
      }
      if conns[e].pc.Selecting? {
        if conns[e].wake {
          if * {
            ReceiveWake(e);
            ok, key := TakeConn(e);
          }
        }
        QuitConnections(e);
      }
    }

    /** Start: running with fresh fields, or, when the connection fails, down again with every worker gone. */
    method Start(connects: bool) returns (ok: bool)
      requires Valid() && (mode.Down? || mode.Up?)
      modifies this
      ensures Valid() && (ok <==> old(mode).Down? && connects) && producer == old(producer)
      ensures old(mode).Up? ==> mode.Up? && lanes == old(lanes) && conns == old(conns)
      ensures ok ==> mode.Up? && shards == map[] && connLatest == map[] && topicQ == |old(lanes)|
                     && lanes == old(lanes) + [NewLane(|old(conns)|, ToTopic)]
                     && conns == old(conns) + [ConnLane(false, Selecting, [], [], [])]
      ensures old(mode).Down? && !ok ==> mode.Down? && AllExited(Abs())
    {
      hide Runs, Apply, Enabled;
      if mode.Up? {
        return false;
      }
      StartDispatchLocked();
      if !connects {
        ShutdownDispatch();
        AwaitWorkers();
        return false;
      }
      MarkRunning();
      ok := true;
    }

    /** Stop: when it returns, every worker is gone and what was delivered on each lane is final. */
    method Stop()
      requires Valid() && (mode.Down? || mode.Up?)
      modifies this
      ensures Valid() && mode.Down? && producer == old(producer)
      ensures old(mode).Down? ==> lanes == old(lanes) && conns == old(conns)
      ensures old(mode).Up? ==> AllExited(Abs()) && |lanes| == |old(lanes)| && |conns| == |old(conns)|
      ensures old(mode).Up? ==> forall i | 0 <= i < |lanes| :: WoundDown(old(lanes)[i], lanes[i])
      ensures old(mode).Up? ==> forall e | 0 <= e < |conns| :: conns[e].delivered == Taken(old(conns)[e])
    {
      hide Runs, Apply, Enabled, WoundDown;
      if mode.Down? {
        return;
      }
      UpIsOpen();
      ShutdownDispatch();
      AwaitWorkers();
    }

    lemma UpIsOpen()
      requires Valid() && mode.Up?
      ensures Open()
    {
      IsReachable();
      hide StampInv, FifoInv, RegistryInv, ProducerInv, FateInv, ReportInv, PostInv, CurrentInv, PendingInv;
    }

    method WaitReturns()
      requires Valid() && mode.Cancelled? && AllExited(Abs())
      modifies this
      ensures Valid() && Abs() == Apply(old(Abs()), StopReturns)
      ensures mode.Down? && lanes == old(lanes) && conns == old(conns)
      ensures shards == old(shards) && connLatest == old(connLatest) && producer == old(producer)
    {
      hide Runs, Dispatcher.QueueFor, PostConnection, Dispatcher.Send, Settle, SetLane, SetConn, RouteOf, ConnKey;
      hide Classify, Droppable;
      ghost var before := Abs();
      mode := Down;
      Record(before, StopReturns);
    }

    // ---- The producer ---------------------------------------------------------------

    method Accept(topic: string, payload: int, handler: int)
      requires Valid() && producer.Idle?
      modifies this
      ensures Valid() && Abs() == Apply(old(Abs()), Arrive(topic, payload, handler))
    {
      hide Runs, Dispatcher.QueueFor, PostConnection, Dispatcher.Send, Settle, SetLane, SetConn, RouteOf, ConnKey;
      hide Classify, Droppable;
      ghost var before := Abs();
      var msg := Inbound(topic, payload, handler, stamp);
      arrived := arrived + [msg];
      stamp := stamp + 1;
      producer := if Classify(topic).ToConnection? then Posting(msg) else Routed(msg);
      Record(before, Arrive(topic, payload, handler));
    }

    /** enqueueConnection, up to and including the unlock. */
    method EnqueueConnection()
      requires Valid() && producer.Posting?
      modifies this
      ensures Valid() && Abs() == Apply(old(Abs()), Post)
    {
      hide Runs, Apply, Enabled, RouteOf, ConnKey;
      ApplyPost(Abs());
      ghost var before := Abs();
      var msg := producer.msg;
      if !Open() {
        fate := fate[msg.receivedAt := Lost];
        producer := Idle;
      } else {
        var key := ConnKey(msg);
        var e := |conns| - 1;
        conns := conns[e := conns[e].(posted := conns[e].posted + [msg],
                                      overwritten := conns[e].overwritten
                                                     + if key in connLatest then [connLatest[key]] else [])];
        connLatest := connLatest[key := msg];
        fate := fate[msg.receivedAt := Posted(e)];
        producer := Waking(e);
      }
      Record(before, Post);
    }

    /** The non-blocking send on the wake channel. */
    method SendWake()
      requires Valid() && producer.Waking? && producer.epoch < |conns|
      modifies this
      ensures Valid() && Abs() == Apply(old(Abs()), Wake)
    {
      hide Runs, Dispatcher.QueueFor, PostConnection, Dispatcher.Send, Settle, SetLane, RouteOf, ConnKey, Classify;
      hide Droppable;
      ghost var before := Abs();
      var e := producer.epoch;
      conns := conns[e := conns[e].(wake := true)];
      producer := Idle;
      Record(before, Wake);
    }

    method SampleHook()
      requires Valid() && producer.Routed?
      modifies this
      ensures Valid() && Abs() == Apply(old(Abs()), Sample)
    {
      hide Runs, Dispatcher.QueueFor, PostConnection, Dispatcher.Send, Settle, SetLane, SetConn, RouteOf, ConnKey;
      hide Classify, Droppable;
      ghost var before := Abs();
      producer := Sampled(producer.msg, if Open() then DoneOf(|conns| - 1) else AlreadyClosed);
      Record(before, Sample);
    }

    /** queueFor with agvQueue: the lane's channel, made together with its worker on first use. */
    method QueueFor()
      requires Valid() && producer.Sampled?
      modifies this
      ensures Valid() && Abs() == Apply(old(Abs()), FindQueue)
    {
      hide Runs, Apply, Enabled, RouteOf;
      ApplyFindQueue(Abs());
      ghost var before := Abs();
      var msg, done := producer.msg, producer.done;
      if !Open() {
        fate := fate[msg.receivedAt := Lost];
        producer := Idle;
      } else {
        match RouteOf(msg) {
          case ToAgv(key) =>
            if key !in shards {
              shards := shards[key := |lanes|];
              lanes := lanes + [NewLane(|conns| - 1, ToAgv(key))];
            }
            producer := Offering(msg, done, shards[key]);
          case _ =>
            producer := Offering(msg, done, topicQ);
        }
      }
      Record(before, FindQueue);
    }

    method Send(msg: Inbound, i: nat)
      requires i < |lanes|
      modifies this`lanes, this`fate, this`producer
      ensures Abs() == Dispatcher.Send(old(Abs()), msg, i)
    {
      lanes := lanes[i := lanes[i].(buf := lanes[i].buf + [msg], sent := lanes[i].sent + [msg])];
      fate := fate[msg.receivedAt := Sent(i)];
      producer := Idle;
    }

    /** The first select of enqueue: send, or fall through on a full channel. */
    method TrySend()
      requires Valid() && producer.Offering? && producer.lane < |lanes|
      modifies this
      ensures Valid() && Abs() == Apply(old(Abs()), Offer)
    {
      hide Runs, Dispatcher.QueueFor, PostConnection, Dispatcher.Send, Settle, SetLane, SetConn, RouteOf, ConnKey;
      hide Classify, Droppable;
      ghost var before := Abs();
      var p := producer;
      if |lanes[p.lane].buf| < qsize {
        Send(p.msg, p.lane);
      } else {
        producer := Refused(p.msg, p.done, p.lane, |lanes[p.lane].buf|);
      }
      Record(before, Offer);
    }

    /** Discard or backpressure, told to the hook; only the latter goes on to block. */
    method ReportFull() returns (reason: DropReason)
      requires Valid() && producer.Refused?
      modifies this
      ensures Valid() && Abs() == Apply(old(Abs()), Hook)
      ensures reason.DropDiscarded? <==> Droppable(old(producer).msg.topic)
    {
      hide Runs, Dispatcher.QueueFor, PostConnection, Dispatcher.Send, SetLane, SetConn, RouteOf, ConnKey, Classify;
      hide Droppable;
      ghost var before := Abs();
      var p := producer;
      reason := DropBackpressured;
      if Droppable(p.msg.topic) {
        reason := DropDiscarded;
      }
      reports := reports + [Report(p.msg, reason, p.depth)];
      if reason.DropDiscarded? {
        fate := fate[p.msg.receivedAt := Discarded(p.depth)];
        producer := Idle;
      } else {
        producer := Blocked(p.msg, p.done, p.lane);
      }
      Record(before, Hook);
    }

    /** The second select of enqueue, on the side of the channel. */
    method SendBlocked()
      requires Valid() && producer.Blocked? && producer.lane < |lanes| && |lanes[producer.lane].buf| < qsize
      modifies this
      ensures Valid() && Abs() == Apply(old(Abs()), Unblock)
      ensures var m, i := old(producer).msg, old(producer).lane;
              && producer.Idle? && fate == old(fate)[m.receivedAt := Sent(i)]
              && lanes == old(lanes)[i := old(lanes)[i].(buf := old(lanes)[i].buf + [m],
                                                         sent := old(lanes)[i].sent + [m])]
      ensures conns == old(conns) && connLatest == old(connLatest) && mode == old(mode) && reports == old(reports)
    {
      hide Runs, Dispatcher.QueueFor, PostConnection, RouteOf, ConnKey, Classify, Droppable;
      ghost var before := Abs();
      Send(producer.msg, producer.lane);
      Record(before, Unblock);
    }

    /** The second select of enqueue, on the side of the done channel. */
    method GiveUp()
      requires Valid() && producer.Blocked? && Abs().DoneClosed(producer.done)
      modifies this
      ensures Valid() && Abs() == Apply(old(Abs()), Abandon)
      ensures producer.Idle? && fate == old(fate)[old(producer).msg.receivedAt := Lost] && lanes == old(lanes)
      ensures conns == old(conns) && connLatest == old(connLatest) && mode == old(mode) && reports == old(reports)
    {
      hide Runs, Dispatcher.QueueFor, PostConnection, Dispatcher.Send, SetLane, SetConn, RouteOf, ConnKey, Classify;
      hide Droppable;
      ghost var before := Abs();
      fate := fate[producer.msg.receivedAt := Lost];
      producer := Idle;
      Record(before, Abandon);
    }

    // ---- enqueue as a whole -------------------------------------------------------------

    /**
     The callback for a connection message, when nothing interferes: the message is the pending one of its
     key and a wake token is there, or the dispatcher is closed and the message is lost.
     */
    method EnqueueOnConnectionLane(topic: string, payload: int, handler: int)
      requires Valid() && producer.Idle? && Classify(topic).ToConnection?
      modifies this
      ensures Valid() && producer.Idle? && lanes == old(lanes) && shards == old(shards) && mode == old(mode)
      ensures var m := Inbound(topic, payload, handler, old(stamp));
              if old(Open()) then
                && connLatest == old(connLatest)[ConnKey(m) := m] && |conns| > 0 && conns[|conns| - 1].wake
                && fate == old(fate)[m.receivedAt := Posted(|conns| - 1)]
              else connLatest == old(connLatest) && conns == old(conns) && fate == old(fate)[m.receivedAt := Lost]
    {
      hide Runs, Dispatcher.QueueFor, Dispatcher.Send, RouteOf, ConnKey, Classify, Droppable, Reachable, Inv;
      Accept(topic, payload, handler);
      EnqueueConnection();
      if producer.Waking? {
        SendWake();
      }
    }

    /**
     The callback for any other message, when nothing interferes. Closed: lost. Room in its lane, which is
     made on first use: sent. Full: reported to the hook, and then discarded if droppable and blocked if not.
     */
    method EnqueueOnLane(topic: string, payload: int, handler: int)
      requires Valid() && producer.Idle? && !Classify(topic).ToConnection?
      modifies this
      ensures Valid() && conns == old(conns) && connLatest == old(connLatest) && mode == old(mode)
      ensures var m := Inbound(topic, payload, handler, old(stamp));
              !old(Open()) ==>
                lanes == old(lanes) && reports == old(reports) && producer.Idle?
                  && fate == old(fate)[m.receivedAt := Lost]
      ensures var m := Inbound(topic, payload, handler, old(stamp));
              old(Open()) ==>
                && |conns| > 0
                && exists i | 0 <= i < |lanes| :: lanes[i].route == RouteOf(m)
                                                  && Delivered(m, i, old(lanes), old(fate), old(reports))
      ensures configured > 0 ==> qsize == configured
      ensures configured <= 0 ==> qsize == 256
    {
      hide Runs, Dispatcher.QueueFor, RouteOf, ConnKey, Classify, Droppable, Reachable, Inv, PostConnection;
      Accept(topic, payload, handler);
      SampleHook();
      IsReachable();
      QueueFound(Abs());
      QueueFor();
      if producer.Idle? {
        return;
      }
      ghost var i := producer.lane;
      TrySend();
      if producer.Idle? {
        assert lanes[i].route == RouteOf(Inbound(topic, payload, handler, old(stamp)));
        return;
      }
      var reason := ReportFull();
      assert lanes[i].route == RouteOf(Inbound(topic, payload, handler, old(stamp)));
    }

    /** What became of m on lane i, compared with the lanes, fates and reports before. */
    ghost predicate Delivered(m: Inbound, i: nat, before: seq<Lane>, fated: map<nat, Fate>, reported: seq<Report>)
      requires i < |lanes| && |conns| > 0
      reads this
    {
      var l := if i < |before| then before[i] else NewLane(|conns| - 1, RouteOf(m));
      if |l.buf| < qsize then
        && producer.Idle? && reports == reported && fate == fated[m.receivedAt := Sent(i)]
        && lanes[i] == l.(buf := l.buf + [m], sent := l.sent + [m])
      else
        && lanes[i] == l
        && reports == reported + [Report(m, if Droppable(m.topic) then DropDiscarded else DropBackpressured, |l.buf|)]
        && if Droppable(m.topic) then producer.Idle? && fate == fated[m.receivedAt := Discarded(|l.buf|)]
           else producer.Blocked? && producer.msg == m && producer.lane == i && fate == fated
    }

    // ---- The workers ------------------------------------------------------------------

    /** runQueue left alone with a lane: everything queued is delivered, in order. */
    method RunQueue(i: nat)
      requires Valid() && i < |lanes| && !lanes[i].pc.Exited?
      modifies this
      ensures Valid() && conns == old(conns) && connLatest == old(connLatest) && producer == old(producer)
              && mode == old(mode)
      ensures |lanes| == |old(lanes)| && forall j | 0 <= j < |lanes| && j != i :: lanes[j] == old(lanes)[j]
      ensures var l := old(lanes)[i];
              lanes[i] == l.(buf := [], pc := Waiting, delivered := l.delivered + InHand(l.pc) + l.buf)
    {
      hide Runs, Apply, Enabled;
      if lanes[i].pc.Running? {
        HandlerReturned(i);
      }
      ghost var start := lanes[i];
      while lanes[i].buf != []
        invariant Valid() && conns == old(conns) && connLatest == old(connLatest) && producer == old(producer)
        invariant mode == old(mode) && |lanes| == |old(lanes)| && lanes[i].pc.Waiting?
        invariant forall j | 0 <= j < |lanes| && j != i :: lanes[j] == old(lanes)[j]
        invariant lanes[i] == start.(buf := lanes[i].buf, delivered := lanes[i].delivered)
        invariant lanes[i].delivered + lanes[i].buf == start.delivered + start.buf
        decreases |lanes[i].buf|
      {
        ReceiveOne(i);
        HandlerReturned(i);
      }
      assert lanes[i].delivered + [] == lanes[i].delivered;
    }

    /** The second select of enqueue: whichever side is ready, the channel having a say only if it has room. */
    method ResumeBlocked(preferChannel: bool) returns (resumed: bool)
      requires Valid() && producer.Blocked? && producer.lane < |lanes|
      modifies this
      ensures Valid() && conns == old(conns) && connLatest == old(connLatest) && reports == old(reports)
      ensures resumed <==> |old(lanes)[old(producer).lane].buf| < qsize || old(Abs()).DoneClosed(old(producer).done)
      ensures var m, i := old(producer).msg, old(producer).lane;
              if !resumed then producer == old(producer) && lanes == old(lanes) && fate == old(fate)
              else if |old(lanes)[i].buf| < qsize && (preferChannel || !old(Abs()).DoneClosed(old(producer).done)) then
                && producer.Idle? && fate == old(fate)[m.receivedAt := Sent(i)]
                && lanes == old(lanes)[i := old(lanes)[i].(buf := old(lanes)[i].buf + [m],
                                                           sent := old(lanes)[i].sent + [m])]
              else producer.Idle? && lanes == old(lanes) && fate == old(fate)[m.receivedAt := Lost]
    {
      hide Runs, Apply, Enabled;
      var done := DoneClosed(producer.done);
      var room := |lanes[producer.lane].buf| < qsize;
      if room && (preferChannel || !done) {
        SendBlocked();
        return true;
      }
      if done {
        GiveUp();
        return true;
      }
      resumed := false;
    }

    predicate DoneClosed(done: Done)
      reads this
    {
      done.AlreadyClosed? || ContextOver(done.epoch, |conns|, mode)
    }

    /** One turn of runConnectionCoalesce left alone: the token is consumed and every pending message delivered. */
    method CoalesceOnce(e: nat)
      requires Valid() && e < |conns| && conns[e].pc.Selecting? && conns[e].wake
      modifies this
      ensures Valid() && connLatest == map[] && |conns| == |old(conns)| && lanes == old(lanes)
              && producer == old(producer)
      ensures conns[e].pc.Selecting? && !conns[e].wake && conns[e].posted == old(conns)[e].posted
      ensures |conns[e].delivered| == |old(conns)[e].delivered| + |old(connLatest)|
      ensures old(conns)[e].delivered <= conns[e].delivered
      ensures forall key | key in old(connLatest) ::
                old(connLatest)[key] in conns[e].delivered[|old(conns)[e].delivered|..]
    {
      hide Runs, Apply, Enabled;
      ReceiveWake(e);
      DrainConnections(e);
    }

    method ReceiveOne(i: nat)
      requires Valid() && i < |lanes| && lanes[i].pc.Waiting? && lanes[i].buf != []
      modifies this
      ensures Valid() && Abs() == Apply(old(Abs()), Receive(i))
      ensures lanes == old(lanes)[i := old(lanes)[i].(buf := old(lanes)[i].buf[1..],
                                                      pc := Running(old(lanes)[i].buf[0]))]
      ensures conns == old(conns) && connLatest == old(connLatest) && producer == old(producer) && mode == old(mode)
    {
      hide Runs, Dispatcher.QueueFor, PostConnection, Dispatcher.Send, Settle, SetConn, RouteOf, ConnKey, Classify;
      hide Droppable;
      ghost var before := Abs();
      lanes := lanes[i := lanes[i].(buf := lanes[i].buf[1..], pc := Running(lanes[i].buf[0]))];
      Record(before, Receive(i));
    }

    method HandlerReturned(i: nat)
      requires Valid() && i < |lanes| && lanes[i].pc.Running?
      modifies this
      ensures Valid() && Abs() == Apply(old(Abs()), Finish(i))
      ensures lanes == old(lanes)[i := old(lanes)[i].(pc := Waiting,
                                                      delivered := old(lanes)[i].delivered + [old(lanes)[i].pc.msg])]
      ensures conns == old(conns) && connLatest == old(connLatest) && producer == old(producer) && mode == old(mode)
    {
      hide Runs, Dispatcher.QueueFor, PostConnection, Dispatcher.Send, Settle, SetConn, RouteOf, ConnKey, Classify;
      hide Droppable;
      ghost var before := Abs();
      lanes := lanes[i := lanes[i].(pc := Waiting, delivered := lanes[i].delivered + [lanes[i].pc.msg])];
      Record(before, Finish(i));
    }

    method QuitQueue(i: nat)
      requires Valid() && i < |lanes| && lanes[i].pc.Waiting? && Abs().CtxDone(lanes[i].epoch)
      modifies this
      ensures Valid() && Abs() == Apply(old(Abs()), Quit(i))
      ensures lanes == old(lanes)[i := old(lanes)[i].(pc := Exited)] && conns == old(conns) && mode == old(mode)
      ensures connLatest == old(connLatest) && producer == old(producer)
    {
      hide Runs, Dispatcher.QueueFor, PostConnection, Dispatcher.Send, Settle, SetConn, RouteOf, ConnKey, Classify;
      hide Droppable;
      ghost var before := Abs();
      lanes := lanes[i := lanes[i].(pc := Exited)];
      Record(before, Quit(i));
    }

    method QuitConnections(e: nat)
      requires Valid() && e < |conns| && conns[e].pc.Selecting? && Abs().CtxDone(e)
      modifies this
      ensures Valid() && Abs() == Apply(old(Abs()), ConnQuit(e))
      ensures conns == old(conns)[e := old(conns)[e].(pc := Gone)] && lanes == old(lanes) && mode == old(mode)
      ensures connLatest == old(connLatest) && producer == old(producer)
    {
      hide Runs, Dispatcher.QueueFor, PostConnection, Dispatcher.Send, Settle, SetLane, RouteOf, ConnKey, Classify;
      hide Droppable;
      ghost var before := Abs();
      conns := conns[e := conns[e].(pc := Gone)];
      Record(before, ConnQuit(e));
    }

    method ReceiveWake(e: nat)
      requires Valid() && e < |conns| && conns[e].pc.Selecting? && conns[e].wake
      modifies this
      ensures Valid() && Abs() == Apply(old(Abs()), WakeUp(e))
      ensures conns == old(conns)[e := old(conns)[e].(wake := false, pc := Draining)]
      ensures lanes == old(lanes) && connLatest == old(connLatest) && producer == old(producer) && mode == old(mode)
    {
      hide Runs, Dispatcher.QueueFor, PostConnection, Dispatcher.Send, Settle, SetLane, RouteOf, ConnKey, Classify;
      hide Droppable;
      ghost var before := Abs();
      conns := conns[e := conns[e].(wake := false, pc := Draining)];
      Record(before, WakeUp(e));
    }

    /** takeConn: any pending message, removed from the map, or none. */
    method TakeConn(e: nat) returns (ok: bool, ghost key: string)
      requires Valid() && e < |conns| && conns[e].pc.Draining?
      modifies this
      ensures Valid()
      ensures ok <==> old(connLatest) != map[]
      ensures ok ==> key in old(connLatest) && Abs() == Apply(old(Abs()), Take(e, key))
      ensures ok ==> connLatest == old(connLatest) - {key}
                     && conns == old(conns)[e := old(conns)[e].(pc := Handling(old(connLatest)[key]))]
      ensures !ok ==> Abs() == Apply(old(Abs()), DrainEnd(e))
      ensures !ok ==> connLatest == map[] && conns == old(conns)[e := old(conns)[e].(pc := Selecting)]
      ensures lanes == old(lanes) && producer == old(producer) && mode == old(mode)
    {
      hide Runs, Dispatcher.QueueFor, PostConnection, Dispatcher.Send, Settle, SetLane, RouteOf, ConnKey, Classify;
      hide Droppable;
      ghost var before := Abs();
      if connLatest.Keys == {} {
        conns := conns[e := conns[e].(pc := Selecting)];
        Record(before, DrainEnd(e));
        ok, key := false, "";
      } else {
        var k :| k in connLatest;
        conns := conns[e := conns[e].(pc := Handling(connLatest[k]))];
        connLatest := connLatest - {k};
        Record(before, Take(e, k));
        ok, key := true, k;
      }
    }

    method ConnectionHandlerReturned(e: nat)
      requires Valid() && e < |conns| && conns[e].pc.Handling?
      modifies this
      ensures Valid() && Abs() == Apply(old(Abs()), Handled(e))
      ensures conns == old(conns)[e := old(conns)[e].(pc := Draining,
                                                      delivered := old(conns)[e].delivered + [old(conns)[e].pc.msg])]
      ensures connLatest == old(connLatest) && lanes == old(lanes) && producer == old(producer) && mode == old(mode)
    {
      hide Runs, Dispatcher.QueueFor, PostConnection, Dispatcher.Send, Settle, SetLane, RouteOf, ConnKey, Classify;
      hide Droppable;
      ghost var before := Abs();
      conns := conns[e := conns[e].(pc := Draining, delivered := conns[e].delivered + [conns[e].pc.msg])];
      Record(before, Handled(e));
    }

    /**
     The inner loop of runConnectionCoalesce, when no callback interferes: it
     delivers each pending message once, empties the map, and goes back to wait.
     */
    method DrainConnections(e: nat)
      requires Valid() && e < |conns| && conns[e].pc.Draining?
      modifies this
      ensures Valid() && connLatest == map[] && |conns| == |old(conns)|
      ensures conns[e].pc.Selecting? && conns[e].wake == old(conns)[e].wake
      ensures conns[e].posted == old(conns)[e].posted && conns[e].overwritten == old(conns)[e].overwritten
      ensures |conns[e].delivered| == |old(conns)[e].delivered| + |old(connLatest)|
      ensures old(conns)[e].delivered <= conns[e].delivered
      ensures forall key | key in old(connLatest) ::
                old(connLatest)[key] in conns[e].delivered[|old(conns)[e].delivered|..]
      ensures lanes == old(lanes) && producer == old(producer) && mode == old(mode)
    {
      hide Runs, Enabled, Apply;
      ghost var was := old(conns)[e].delivered;
      while true
        invariant Valid() && e < |conns| && |conns| == |old(conns)| && conns[e].pc.Draining?
        invariant conns[e].wake == old(conns)[e].wake && conns[e].posted == old(conns)[e].posted
        invariant conns[e].overwritten == old(conns)[e].overwritten
        invariant was <= conns[e].delivered && |conns[e].delivered| + |connLatest| == |was| + |old(connLatest)|
        invariant connLatest.Keys <= old(connLatest).Keys
        invariant forall key | key in old(connLatest) ::
                    if key in connLatest then connLatest[key] == old(connLatest)[key]
                    else old(connLatest)[key] in conns[e].delivered[|was|..]
        invariant lanes == old(lanes) && producer == old(producer) && mode == old(mode)
        decreases |connLatest|
      {
        ghost var pending, delivered := connLatest, conns[e].delivered;
        ghost var key;
        var ok;
        ok, key := TakeConn(e);
        if !ok {
          break;
        }
        assert connLatest.Keys == pending.Keys - {key};
        ConnectionHandlerReturned(e);
        assert conns[e].delivered[|was|..] == delivered[|was|..] + [pending[key]];
      }
    }
  }
}
