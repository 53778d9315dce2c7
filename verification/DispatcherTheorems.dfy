/**
 What the dispatcher promises, for every interleaving: nothing but
 visualization is discarded and the rest keeps its order, no wakeup is lost,
 coalescing keeps the latest connection message of every AGV, the producer is
 always released, and no handler outlives Stop.
 */
module DispatcherTheorems {
  import opened Streams
  import opened Segments
  import opened Topics
  import opened Dispatcher
  import opened DispatcherInvariant
  import opened DispatcherSteps

  // ---- Conservation on the AGV and topic lanes ------------------------------------

  ghost predicate IsDiscarded(fate: map<nat, Fate>, m: Inbound) {
    m.receivedAt in fate && fate[m.receivedAt].Discarded?
  }

  ghost function KeptOf(a: seq<Inbound>, fate: map<nat, Fate>, route: Route): seq<Inbound> {
    Filter(a, (m: Inbound) => RouteOf(m) == route && !IsDiscarded(fate, m))
  }

  /** What arrived for a route since the epoch began, without the discarded messages. */
  ghost function Kept(s: State, route: Route): seq<Inbound>
    requires s.start <= |s.arrived|
  {
    KeptOf(s.arrived[s.start..], s.fate, route)
  }

  /** A message that arrived before the epoch began, while the producer was still busy with it. */
  ghost function Carried(s: State, i: nat): seq<Inbound>
    requires s.start <= |s.arrived|
  {
    SentTo(s.arrived[..s.start], s.fate, i)
  }

  /** The message the producer holds for a route: being routed, offered, or blocked on a full queue. */
  ghost function Held(s: State, route: Route): seq<Inbound> {
    if Holding(s.producer) && s.producer.msg.receivedAt >= s.start && RouteOf(s.producer.msg) == route
    then [s.producer.msg] else []
  }

  ghost predicate Current(s: State, i: nat) {
    s.Open() && i < |s.lanes| && s.lanes[i].epoch + 1 == |s.conns|
  }

  /** On the settled arrivals of the epoch, "sent to lane i" is "for its route and not discarded". */
  lemma SentIsKept(s: State, i: nat, m: Inbound)
    requires Inv(s) && Current(s, i)
    requires m.receivedAt in s.fate && m.receivedAt < |s.arrived| && s.arrived[m.receivedAt] == m
    requires m.receivedAt >= s.start
    ensures s.fate[m.receivedAt] == Sent(i) <==> RouteOf(m) == s.lanes[i].route && !IsDiscarded(s.fate, m)
  {
    hide StampInv, FifoInv, WorkerInv, ProducerInv, ReportInv, PostInv, PendingInv, CurrentInv, RouteOf, Droppable;
    assert FateOk(m, s.fate[m.receivedAt], s.lanes, |s.conns|, s.Open(), s.start, s.qsize);
  }

  lemma SentIsKeptOn(s: State, i: nat, a: seq<Inbound>)
    requires Inv(s) && Current(s, i)
    requires forall m | m in a :: m.receivedAt in s.fate && m.receivedAt < |s.arrived|
                                  && s.arrived[m.receivedAt] == m && m.receivedAt >= s.start
    ensures SentTo(a, s.fate, i) == KeptOf(a, s.fate, s.lanes[i].route)
  {
    hide Inv, IsDiscarded, RouteOf;
    forall m | m in a
      ensures (m.receivedAt in s.fate && s.fate[m.receivedAt] == Sent(i))
              == (RouteOf(m) == s.lanes[i].route && !IsDiscarded(s.fate, m))
    {
      SentIsKept(s, i, m);
    }
    FilterCongruent(a, (m: Inbound) => m.receivedAt in s.fate && s.fate[m.receivedAt] == Sent(i),
                    (m: Inbound) => RouteOf(m) == s.lanes[i].route && !IsDiscarded(s.fate, m));
  }

  lemma TailStamps(s: State)
    requires StampInv(s.arrived, s.fate, s.producer, s.start, s.qsize)
    ensures forall m | m in s.arrived[s.start..] ::
              m.receivedAt < |s.arrived| && s.arrived[m.receivedAt] == m && m.receivedAt >= s.start
              && (m.receivedAt in s.fate <==> !(Holding(s.producer) && m == s.producer.msg))
    ensures Holding(s.producer) && s.producer.msg.receivedAt >= s.start ==>
              |s.arrived[s.start..]| > 0 && s.arrived[s.start..][|s.arrived[s.start..]| - 1] == s.producer.msg
              && s.producer.msg !in s.arrived[s.start..][..|s.arrived[s.start..]| - 1]
              && s.producer.msg.receivedAt !in s.fate
    ensures Holding(s.producer) && s.producer.msg.receivedAt < s.start ==> s.arrived[s.start..] == []
  {
  }

  lemma HeldSnoc(init: seq<Inbound>, m: Inbound, fate: map<nat, Fate>, route: Route, i: nat)
    requires m.receivedAt !in fate
    ensures SentTo(init + [m], fate, i) == SentTo(init, fate, i)
    ensures KeptOf(init + [m], fate, route) == KeptOf(init, fate, route) + if RouteOf(m) == route then [m] else []
  {
    hide RouteOf;
    assert (init + [m])[..|init|] == init;
  }

  /** The message the producer holds arrived last, and all before it are settled. */
  lemma HeldIsLast(s: State)
    requires Inv(s) && s.start <= |s.arrived| && Holding(s.producer) && s.producer.msg.receivedAt >= s.start
    ensures |s.arrived[s.start..]| > 0 && s.producer.msg.receivedAt !in s.fate
    ensures var tail := s.arrived[s.start..];
            var init := tail[..|tail| - 1];
            tail == init + [s.producer.msg]
            && forall m | m in init :: m.receivedAt in s.fate && m.receivedAt < |s.arrived|
                                       && s.arrived[m.receivedAt] == m && m.receivedAt >= s.start
  {
    TailStamps(s);
    hide Inv, StampInv;
  }

  /** Sent to the lane since the epoch began, plus what the producer holds, is what was kept. */
  lemma KeptIsSentPlusHeld(s: State, i: nat)
    requires Inv(s) && Current(s, i)
    ensures Kept(s, s.lanes[i].route) == SentTo(s.arrived[s.start..], s.fate, i) + Held(s, s.lanes[i].route)
  {
    if Holding(s.producer) && s.producer.msg.receivedAt >= s.start {
      KeptWithHeld(s, i);
    } else {
      TailStamps(s);
      hide Inv, RouteOf, StampInv, SentTo, KeptOf;
      SentIsKeptOn(s, i, s.arrived[s.start..]);
    }
  }

  lemma KeptWithHeld(s: State, i: nat)
    requires Inv(s) && Current(s, i) && s.start <= |s.arrived|
    requires Holding(s.producer) && s.producer.msg.receivedAt >= s.start
    ensures Kept(s, s.lanes[i].route) == SentTo(s.arrived[s.start..], s.fate, i) + Held(s, s.lanes[i].route)
  {
    var tail := s.arrived[s.start..];
    var init := tail[..|tail| - 1];
    HeldIsLast(s);
    hide Inv, RouteOf, StampInv, SentTo, KeptOf;
    SentIsKeptOn(s, i, init);
    HeldSnoc(init, s.producer.msg, s.fate, s.lanes[i].route, i);
  }

  /**
   The conservation law of a lane, in every reachable state before shutdown:
   delivered, running, queued and held by the producer, in this order, are the
   arrivals of the lane's route with exactly the discarded ones removed.
   */
  lemma LaneConservation(s: State, i: nat)
    requires Reachable(s) && Current(s, i)
    ensures s.start <= |s.arrived|
    ensures var l := s.lanes[i];
            l.delivered + InHand(l.pc) + l.buf + Held(s, l.route) == Carried(s, i) + Kept(s, l.route)
    ensures |s.lanes[i].buf| <= s.qsize
  {
    hide Reachable, Inv, Held, SentTo, KeptOf, InHand;
    ReachableInv(s);
    LaneFacts(s, i);
    KeptIsSentPlusHeld(s, i);
    SplitAtStart(s.arrived, s.start, s.fate, i);
  }

  /** A key without a lane: nothing for it has arrived in this epoch but what the producer holds and what was
    * discarded. */
  lemma NoLaneConservation(s: State, key: string)
    requires Inv(s) && s.Open() && key !in s.shards && s.start <= |s.arrived|
    ensures Kept(s, ToAgv(key)) == Held(s, ToAgv(key))
  {
    var route := ToAgv(key);
    if Holding(s.producer) && s.producer.msg.receivedAt >= s.start {
      HeldIsLast(s);
      var tail := s.arrived[s.start..];
      NoneKept(s, key, tail[..|tail| - 1]);
      hide Inv, RouteOf, IsDiscarded;
      FilterSnoc(tail[..|tail| - 1], s.producer.msg, (m: Inbound) => RouteOf(m) == route && !IsDiscarded(s.fate, m));
      assert !IsDiscarded(s.fate, s.producer.msg) by { HeldUnsettled(s.fate, s.producer.msg); }
    } else {
      TailStamps(s);
      NoneKept(s, key, s.arrived[s.start..]);
    }
  }

  lemma HeldUnsettled(fate: map<nat, Fate>, m: Inbound)
    requires m.receivedAt !in fate
    ensures !IsDiscarded(fate, m)
  {
  }

  lemma NoneKept(s: State, key: string, a: seq<Inbound>)
    requires Inv(s) && s.Open() && key !in s.shards
    requires forall m | m in a :: m.receivedAt in s.fate && m.receivedAt < |s.arrived|
                                  && s.arrived[m.receivedAt] == m && m.receivedAt >= s.start
    ensures KeptOf(a, s.fate, ToAgv(key)) == []
  {
    forall m | m in a
      ensures !(RouteOf(m) == ToAgv(key) && !IsDiscarded(s.fate, m))
    {
      UnservedIsDiscarded(s, key, m);
    }
    hide Inv, RouteOf, IsDiscarded;
    FilterNone(a, (m: Inbound) => RouteOf(m) == ToAgv(key) && !IsDiscarded(s.fate, m));
  }

  lemma UnservedIsDiscarded(s: State, key: string, m: Inbound)
    requires Inv(s) && s.Open() && key !in s.shards
    requires m.receivedAt in s.fate && m.receivedAt < |s.arrived| && s.arrived[m.receivedAt] == m
    requires m.receivedAt >= s.start
    ensures RouteOf(m) == ToAgv(key) ==> IsDiscarded(s.fate, m)
  {
    hide StampInv, FifoInv, WorkerInv, ProducerInv, ReportInv, PostInv, PendingInv, CurrentInv, RouteOf, Droppable;
    assert FateOk(m, s.fate[m.receivedAt], s.lanes, |s.conns|, s.Open(), s.start, s.qsize);
  }

  /**
   The conservation law for every AGV key, in every reachable state before shutdown: through its lane if it
   has one, and otherwise nothing has been kept for it but what the producer is holding.
   */
  lemma KeyConservation(s: State, key: string)
    requires Reachable(s) && s.Open()
    ensures s.start <= |s.arrived|
    ensures if key in s.shards then
              var i := s.shards[key];
              && Current(s, i) && s.lanes[i].route == ToAgv(key)
              && s.lanes[i].delivered + InHand(s.lanes[i].pc) + s.lanes[i].buf + Held(s, ToAgv(key))
                 == Carried(s, i) + Kept(s, ToAgv(key))
            else Kept(s, ToAgv(key)) == Held(s, ToAgv(key))
  {
    hide Reachable, Held, KeptOf, InHand, SentTo;
    ReachableInv(s);
    if key in s.shards {
      LaneConservation(s, s.shards[key]);
    } else {
      NoLaneConservation(s, key);
    }
  }

  lemma LaneFacts(s: State, i: nat)
    requires Inv(s) && i < |s.lanes|
    ensures s.start <= |s.arrived| && Fifo(s.lanes[i], s.qsize)
    ensures s.lanes[i].sent == SentTo(s.arrived, s.fate, i)
  {
    hide RegistryInv, WorkerInv, ProducerInv, FateInv, ReportInv, PostInv, PendingInv, CurrentInv, SentTo, Fifo;
  }

  lemma SplitAtStart(arrived: seq<Inbound>, start: nat, fate: map<nat, Fate>, i: nat)
    requires start <= |arrived|
    ensures SentTo(arrived, fate, i) == SentTo(arrived[..start], fate, i) + SentTo(arrived[start..], fate, i)
  {
    assert arrived == arrived[..start] + arrived[start..];
    FilterConcat(arrived[..start], arrived[start..],
                 (m: Inbound) => m.receivedAt in fate && fate[m.receivedAt] == Sent(i));
  }

  /** At most one message is carried into an epoch: the one the producer was busy with when it began. */
  lemma CarriedAtMostOne(s: State, i: nat)
    requires Reachable(s) && Current(s, i)
    ensures s.start <= |s.arrived|
    ensures Carried(s, i) == [] || (s.start > 0 && Carried(s, i) == [s.arrived[s.start - 1]])
  {
    hide Reachable;
    ReachableInv(s);
    LaneFacts(s, i);
    var early := s.arrived[..s.start];
    if early != [] {
      var init := early[..|early| - 1];
      forall m | m in init
        ensures !(m.receivedAt in s.fate && s.fate[m.receivedAt] == Sent(i))
      {
        EarlyNotSent(s, i, m);
      }
      FilterNone(init, (m: Inbound) => m.receivedAt in s.fate && s.fate[m.receivedAt] == Sent(i));
    }
  }

  lemma EarlyNotSent(s: State, i: nat, m: Inbound)
    requires Inv(s) && Current(s, i) && s.start <= |s.arrived|
    requires s.start > 0 && m in s.arrived[..s.start][..s.start - 1]
    ensures !(m.receivedAt in s.fate && s.fate[m.receivedAt] == Sent(i))
  {
    hide FifoInv, RegistryInv, WorkerInv, ProducerInv, ReportInv, PostInv, PendingInv, CurrentInv, RouteOf, Droppable;
    var n :| 0 <= n < s.start - 1 && s.arrived[n] == m;
    if n in s.fate {
      assert FateOk(s.arrived[n], s.fate[n], s.lanes, |s.conns|, s.Open(), s.start, s.qsize);
    }
  }

  /** Nothing but visualization is ever discarded, each time reported, and only on a full queue. */
  lemma OnlyVisualizationDiscarded(s: State, n: nat)
    requires Reachable(s) && n < |s.arrived|
    ensures IsDiscarded(s.fate, s.arrived[n])
            <==> exists r :: r in s.reports && r.msg == s.arrived[n] && r.reason.DropDiscarded?
    ensures IsDiscarded(s.fate, s.arrived[n]) ==>
              && Classify(s.arrived[n].topic).ToAgv? && Droppable(s.arrived[n].topic)
              && n in s.fate && s.fate[n] == Discarded(s.qsize)
    ensures forall r | r in s.reports :: r.depth == s.qsize
  {
    hide Reachable;
    ReachableInv(s);
    hide FifoInv, RegistryInv, WorkerInv, ProducerInv, PostInv, PendingInv, CurrentInv, RouteOf, Droppable;
    var m := s.arrived[n];
    DroppableRoute(m.topic);
    if n in s.fate {
      assert FateOk(m, s.fate[n], s.lanes, |s.conns|, s.Open(), s.start, s.qsize);
      if s.fate[n].Discarded? {
        assert Report(m, DropDiscarded, s.fate[n].depth) in s.reports;
      }
    }
  }

  /**
   The bound of every queue is the configured number, or 256 if none is configured. No queue exceeds it; every
   message that was discarded, and every one that was reported and then blocked the callback, found its lane with
   exactly that many; and a message offered to a lane that holds fewer is queued at its end.
   */
  lemma BoundIsConfigured(configured: int, steps: seq<Step>, s: State, bound: nat)
    requires Runs(Init(configured), steps, s)
    requires bound == if configured > 0 then configured else 256
    ensures forall i | 0 <= i < |s.lanes| :: |s.lanes[i].buf| <= bound
    ensures forall n: nat | n < |s.arrived| && n in s.fate && s.fate[n].Discarded? :: s.fate[n].depth == bound
    ensures forall r | r in s.reports :: r.depth == bound
    ensures s.producer.Blocked? ==> Report(s.producer.msg, DropBackpressured, bound) in s.reports
    ensures Enabled(s, Offer) ==>
              var i, m, s' := s.producer.lane, s.producer.msg, Apply(s, Offer);
              if |s.lanes[i].buf| < bound then
                && |s'.lanes| == |s.lanes| && s'.lanes[i].buf == s.lanes[i].buf + [m] && s'.producer.Idle?
              else |s.lanes[i].buf| == bound && s'.lanes == s.lanes && s'.producer.Refused?
  {
    RunsKeepSize(Init(configured), steps, s);
    BlockedIsReported(configured, steps, s);
    assert Reachable(s);
    hide Reachable, Runs;
    ReachableInv(s);
    hide RegistryInv, WorkerInv, PostInv, PendingInv, CurrentInv, RouteOf, Classify, Droppable;
    forall n: nat | n < |s.arrived| && n in s.fate && s.fate[n].Discarded?
      ensures s.fate[n].depth == bound
    {
      assert FateOk(s.arrived[n], s.fate[n], s.lanes, |s.conns|, s.Open(), s.start, s.qsize);
    }
  }

  /** A blocked callback has told the hook so. */
  ghost predicate BlockReported(s: State) {
    s.producer.Blocked? ==> Report(s.producer.msg, DropBackpressured, s.qsize) in s.reports
  }

  lemma BlockedIsReported(configured: int, steps: seq<Step>, s: State)
    requires Runs(Init(configured), steps, s)
    ensures BlockReported(s)
  {
    assert BlockReported(Init(configured));
    hide Inv, Runs, BlockReported;
    InitInv(configured);
    RunReported(Init(configured), steps, s);
  }

  lemma {:induction false} RunReported(s: State, steps: seq<Step>, s': State)
    requires Inv(s) && BlockReported(s) && Runs(s, steps, s')
    ensures BlockReported(s')
    decreases |steps|
  {
    hide Inv, Apply, Enabled, BlockReported;
    if steps != [] {
      StepKeepsInv(s, steps[0]);
      StepReported(s, steps[0]);
      RunReported(Apply(s, steps[0]), steps[1..], s');
    }
  }

  lemma StepReported(s: State, st: Step)
    requires Inv(s) && BlockReported(s) && Enabled(s, st)
    ensures BlockReported(Apply(s, st))
  {
    hide StampInv, FifoInv, RegistryInv, WorkerInv, FateInv, ReportInv, PostInv, PendingInv, CurrentInv;
    hide RouteOf, ConnKey, Classify, Droppable;
    assert s.producer.Refused? ==> s.producer.depth == s.qsize;
    hide Inv;
  }

  ghost predicate Keep(m: Inbound) {
    !Droppable(m.topic)
  }

  ghost function OnRoute(a: seq<Inbound>, route: Route): seq<Inbound> {
    Filter(a, (m: Inbound) => RouteOf(m) == route)
  }

  ghost function Lasting(a: seq<Inbound>): seq<Inbound> {
    Filter(a, (m: Inbound) => Keep(m))
  }

  lemma DiscardedIsDroppable(s: State, m: Inbound)
    requires Inv(s) && m in s.arrived[s.start..] && IsDiscarded(s.fate, m)
    ensures !Keep(m)
  {
    hide FifoInv, RegistryInv, WorkerInv, ProducerInv, PostInv, PendingInv, CurrentInv, RouteOf, Droppable, ReportInv;
    assert FateOk(m, s.fate[m.receivedAt], s.lanes, |s.conns|, s.Open(), s.start, s.qsize);
  }

  lemma {:induction false} LastingKeptOf(a: seq<Inbound>, fate: map<nat, Fate>, route: Route)
    requires forall m | m in a && IsDiscarded(fate, m) :: !Keep(m)
    ensures Lasting(KeptOf(a, fate, route)) == Lasting(OnRoute(a, route))
  {
    hide Keep, RouteOf, IsDiscarded;
    if a != [] {
      var init, x := a[..|a| - 1], a[|a| - 1];
      LastingKeptOf(init, fate, route);
      FilterSnoc(KeptOf(init, fate, route), x, (m: Inbound) => Keep(m));
      FilterSnoc(OnRoute(init, route), x, (m: Inbound) => Keep(m));
    }
  }

  lemma LastingKept(s: State, route: Route)
    requires Inv(s) && s.start <= |s.arrived|
    ensures Lasting(Kept(s, route)) == Lasting(OnRoute(s.arrived[s.start..], route))
  {
    hide Inv, Keep, Lasting, KeptOf, OnRoute, IsDiscarded;
    forall m | m in s.arrived[s.start..] && IsDiscarded(s.fate, m)
      ensures !Keep(m)
    {
      DiscardedIsDroppable(s, m);
    }
    LastingKeptOf(s.arrived[s.start..], s.fate, route);
  }

  lemma LastingConcat(a: seq<Inbound>, b: seq<Inbound>)
    ensures Lasting(a + b) == Lasting(a) + Lasting(b)
  {
    FilterConcat(a, b, (m: Inbound) => Keep(m));
  }

  /**
   What was delivered of state and factsheet messages (and of every message of
   the topic lane) is at any moment a prefix of what arrived: none is lost,
   none is reordered.
   */
  lemma DeliveredIsPrefix(s: State, i: nat)
    requires Reachable(s) && Current(s, i)
    ensures s.start <= |s.arrived|
    ensures Lasting(s.lanes[i].delivered) <= Lasting(Carried(s, i) + OnRoute(s.arrived[s.start..], s.lanes[i].route))
  {
    hide Reachable, Inv, Lasting, Carried, Kept, InHand, Held, OnRoute;
    ReachableInv(s);
    LaneConservation(s, i);
    var l := s.lanes[i];
    var rest := InHand(l.pc) + l.buf + Held(s, l.route);
    assert l.delivered + rest == l.delivered + InHand(l.pc) + l.buf + Held(s, l.route);
    LastingConcat(l.delivered, rest);
    LastingConcat(Carried(s, i), Kept(s, l.route));
    LastingConcat(Carried(s, i), OnRoute(s.arrived[s.start..], l.route));
    LastingKept(s, l.route);
  }

  /** Nothing of the topic lane is discarded, so there the prefix is of everything that arrived. */
  lemma TopicLaneKeepsAll(s: State)
    requires Reachable(s) && s.Open()
    ensures s.start <= |s.arrived| && Current(s, s.topicQ) && s.lanes[s.topicQ].route == ToTopic
    ensures Kept(s, ToTopic) == OnRoute(s.arrived[s.start..], ToTopic)
  {
    hide Reachable;
    ReachableInv(s);
    TopicLaneRegistered(s);
    hide Inv, Keep, RouteOf, IsDiscarded;
    var tail := s.arrived[s.start..];
    forall m | m in tail
      ensures (RouteOf(m) == ToTopic && !IsDiscarded(s.fate, m)) == (RouteOf(m) == ToTopic)
    {
      if IsDiscarded(s.fate, m) {
        DiscardedIsDroppable(s, m);
        TopicRouteKept(m);
      }
    }
    FilterCongruent(tail, (m: Inbound) => RouteOf(m) == ToTopic && !IsDiscarded(s.fate, m),
                    (m: Inbound) => RouteOf(m) == ToTopic);
  }

  lemma TopicRouteKept(m: Inbound)
    requires !Keep(m)
    ensures RouteOf(m) != ToTopic
  {
    DroppableRoute(m.topic);
  }

  lemma TopicLaneRegistered(s: State)
    requires Inv(s) && s.Open()
    ensures s.start <= |s.arrived| && Current(s, s.topicQ) && s.lanes[s.topicQ].route == ToTopic
  {
    hide FifoInv, WorkerInv, ProducerInv, PostInv, PendingInv, CurrentInv, RouteOf, Droppable, ReportInv, FateInv;
  }

  // ---- The connection lane -------------------------------------------------------------

  ghost function ConnOnly(a: seq<Inbound>): seq<Inbound> {
    Filter(a, (m: Inbound) => RouteOf(m).ToConnection?)
  }

  ghost function CarriedConnection(s: State): seq<Inbound>
    requires s.start <= |s.arrived| && |s.conns| > 0
  {
    PostedIn(s.arrived[..s.start], s.fate, |s.conns| - 1)
  }

  /** The connection message that has arrived but is not in the map yet. */
  ghost function HeldConnection(s: State): seq<Inbound> {
    if s.producer.Posting? && s.producer.msg.receivedAt >= s.start then [s.producer.msg] else []
  }

  lemma PostedIsConnection(s: State, m: Inbound)
    requires Inv(s) && s.Open()
    requires m.receivedAt in s.fate && m.receivedAt < |s.arrived| && s.arrived[m.receivedAt] == m
    requires m.receivedAt >= s.start
    ensures s.fate[m.receivedAt] == Posted(|s.conns| - 1) <==> RouteOf(m).ToConnection?
  {
    hide StampInv, FifoInv, WorkerInv, ProducerInv, ReportInv, PostInv, PendingInv, CurrentInv, RouteOf, Droppable;
    assert FateOk(m, s.fate[m.receivedAt], s.lanes, |s.conns|, s.Open(), s.start, s.qsize);
    if s.fate[m.receivedAt].Discarded? {
      DroppableRoute(m.topic);
      DroppableIsAgv(m);
    }
  }

  lemma DroppableIsAgv(m: Inbound)
    requires Droppable(m.topic)
    ensures RouteOf(m).ToAgv?
  {
  }

  lemma PostedIsConnectionOn(s: State, a: seq<Inbound>)
    requires Inv(s) && s.Open()
    requires forall m | m in a :: m.receivedAt in s.fate && m.receivedAt < |s.arrived|
                                  && s.arrived[m.receivedAt] == m && m.receivedAt >= s.start
    ensures PostedIn(a, s.fate, |s.conns| - 1) == ConnOnly(a)
  {
    hide Inv, RouteOf;
    var e := |s.conns| - 1;
    forall m | m in a
      ensures (m.receivedAt in s.fate && s.fate[m.receivedAt] == Posted(e)) == RouteOf(m).ToConnection?
    {
      PostedIsConnection(s, m);
    }
    FilterCongruent(a, (m: Inbound) => m.receivedAt in s.fate && s.fate[m.receivedAt] == Posted(e),
                    (m: Inbound) => RouteOf(m).ToConnection?);
  }

  lemma HeldConnSnoc(init: seq<Inbound>, m: Inbound, fate: map<nat, Fate>, e: nat)
    requires m.receivedAt !in fate
    ensures PostedIn(init + [m], fate, e) == PostedIn(init, fate, e)
    ensures ConnOnly(init + [m]) == ConnOnly(init) + if RouteOf(m).ToConnection? then [m] else []
  {
    hide RouteOf;
    assert (init + [m])[..|init|] == init;
  }

  lemma ProducerRoute(s: State)
    requires Inv(s) && Holding(s.producer)
    ensures s.producer.Posting? <==> RouteOf(s.producer.msg).ToConnection?
  {
    hide StampInv, FifoInv, WorkerInv, ReportInv, PostInv, PendingInv, CurrentInv, RouteOf, Droppable, FateInv;
  }

  lemma ConnArrivals(s: State)
    requires Inv(s) && s.Open() && s.start <= |s.arrived|
    ensures PostedIn(s.arrived[s.start..], s.fate, |s.conns| - 1) + HeldConnection(s) == ConnOnly(s.arrived[s.start..])
  {
    if Holding(s.producer) && s.producer.msg.receivedAt >= s.start {
      ConnArrivalsHeld(s);
    } else {
      TailStamps(s);
      hide Inv, RouteOf, StampInv, PostedIn, ConnOnly;
      PostedIsConnectionOn(s, s.arrived[s.start..]);
    }
  }

  lemma ConnArrivalsHeld(s: State)
    requires Inv(s) && s.Open() && s.start <= |s.arrived|
    requires Holding(s.producer) && s.producer.msg.receivedAt >= s.start
    ensures PostedIn(s.arrived[s.start..], s.fate, |s.conns| - 1) + HeldConnection(s) == ConnOnly(s.arrived[s.start..])
  {
    var tail, m := s.arrived[s.start..], s.producer.msg;
    var init := tail[..|tail| - 1];
    HeldIsLast(s);
    ProducerRoute(s);
    hide Inv, RouteOf, StampInv, PostedIn, ConnOnly;
    PostedIsConnectionOn(s, init);
    HeldConnSnoc(init, m, s.fate, |s.conns| - 1);
  }

  lemma ConnFacts(s: State)
    requires Inv(s) && s.Open()
    ensures s.start <= |s.arrived|
    ensures var e := |s.conns| - 1;
            && s.conns[e].posted == PostedIn(s.arrived, s.fate, e)
            && CoalesceInv(s.conns[e], s.connLatest) && CountInv(s.conns[e], s.connLatest)
            && WakeInv(s.conns[e], s.connLatest, s.producer, e)
  {
    hide FifoInv, RegistryInv, WorkerInv, ProducerInv, FateInv, ReportInv, PendingInv;
    hide CoalesceInv, CountInv, WakeInv, PostedIn;
  }

  /** Every connection message of the epoch is put into the map, in arrival order. */
  lemma ConnectionsArePosted(s: State)
    requires Reachable(s) && s.Open()
    ensures s.start <= |s.arrived|
    ensures s.conns[|s.conns| - 1].posted + HeldConnection(s)
            == CarriedConnection(s) + ConnOnly(s.arrived[s.start..])
  {
    hide Reachable, PostedIn, ConnOnly, HeldConnection;
    ReachableInv(s);
    ConnFacts(s);
    ConnArrivals(s);
    hide Inv;
    SplitPostedAtStart(s.arrived, s.start, s.fate, |s.conns| - 1);
  }

  lemma SplitPostedAtStart(arrived: seq<Inbound>, start: nat, fate: map<nat, Fate>, e: nat)
    requires start <= |arrived|
    ensures PostedIn(arrived, fate, e) == PostedIn(arrived[..start], fate, e) + PostedIn(arrived[start..], fate, e)
  {
    assert arrived == arrived[..start] + arrived[start..];
    FilterConcat(arrived[..start], arrived[start..],
                 (m: Inbound) => m.receivedAt in fate && fate[m.receivedAt] == Posted(e));
  }

  /** Non-empty map: a token, a draining worker, or a producer that is about to send the token. */
  lemma NoLostWakeup(s: State)
    requires Reachable(s) && s.Open() && s.connLatest != map[]
    ensures var c := s.conns[|s.conns| - 1];
            c.wake || c.pc.Draining? || c.pc.Handling? || s.producer == Waking(|s.conns| - 1)
  {
    hide Reachable;
    ReachableInv(s);
    hide Inv;
    ConnFacts(s);
  }

  /** A connection message is delivered, in hand, overwritten by a newer one of its AGV, or pending. */
  lemma ConnectionConservation(s: State)
    requires Reachable(s) && s.Open()
    ensures var c := s.conns[|s.conns| - 1];
            multiset(c.posted) == multiset(Taken(c)) + multiset(c.overwritten) + multiset(s.connLatest.Values)
    ensures var c := s.conns[|s.conns| - 1]; forall m :: multiset(c.posted)[m] <= 1
    ensures forall key | key in s.connLatest :: ConnKey(s.connLatest[key]) == key
  {
    hide Reachable;
    ReachableInv(s);
    PostedOnce(s);
    hide CoalesceInv, WakeInv, ConnKey, FifoInv, RegistryInv, WorkerInv, ProducerInv, FateInv, ReportInv, PostInv;
    hide StampInv;
  }

  lemma PostedOnce(s: State)
    requires Inv(s) && s.Open()
    ensures var c := s.conns[|s.conns| - 1]; forall m :: multiset(c.posted)[m] <= 1
  {
    ConnFacts(s);
    var e := |s.conns| - 1;
    var posted := s.conns[e].posted;
    ArrivedDistinct(s);
    hide Inv;
    FilterDistinct(s.arrived, (m: Inbound) => m.receivedAt in s.fate && s.fate[m.receivedAt] == Posted(e));
    forall m
      ensures multiset(posted)[m] <= 1
    {
      DistinctCount(posted, m);
    }
  }

  lemma ArrivedDistinct(s: State)
    requires StampInv(s.arrived, s.fate, s.producer, s.start, s.qsize)
    ensures Distinct(s.arrived)
  {
  }

  /** What has been overwritten is never delivered, and not pending either. */
  lemma OverwrittenIsGone(s: State, m: Inbound)
    requires Inv(s) && s.Open() && m in s.conns[|s.conns| - 1].overwritten
    ensures m !in Taken(s.conns[|s.conns| - 1]) && m !in s.connLatest.Values
  {
    PostedOnce(s);
    ConnFacts(s);
    hide Inv, CoalesceInv, WakeInv, Taken;
    var c := s.conns[|s.conns| - 1];
    var taken, pending := multiset(Taken(c)), multiset(s.connLatest.Values);
    assert multiset(c.posted)[m] == taken[m] + multiset(c.overwritten)[m] + pending[m];
    assert taken[m] == 0 && pending[m] == 0;
  }

  /** What was delivered under a key is, in order, a part of what arrived under it. */
  lemma DeliveredIsSubsequence(s: State, key: string)
    requires Reachable(s) && s.Open()
    ensures var c := s.conns[|s.conns| - 1]; Subsequence(OnKey(c.delivered, key), OnKey(c.posted, key))
  {
    hide Reachable;
    ReachableInv(s);
    ConnFacts(s);
    hide Inv, Subsequence, Coalesced, OnKey, CountInv, WakeInv;
    var c := s.conns[|s.conns| - 1];
    var posted, taken := c.posted, Taken(c);
    assert KeyCoalesced(posted, taken, s.connLatest, key);
    TakenIsSubsequence(posted, taken, s.connLatest, key);
    if c.pc.Handling? {
      OnKeySnoc(c.delivered, c.pc.msg, key);
      if ConnKey(c.pc.msg) == key {
        SubsequenceInit(OnKey(c.delivered, key), c.pc.msg, OnKey(posted, key));
      } else {
        assert OnKey(taken, key) == OnKey(c.delivered, key);
      }
    } else {
      assert taken == c.delivered;
    }
  }

  lemma TakenIsSubsequence(posted: seq<Inbound>, taken: seq<Inbound>, latest: map<string, Inbound>, key: string)
    requires KeyCoalesced(posted, taken, latest, key)
    ensures Subsequence(OnKey(taken, key), OnKey(posted, key))
  {
    hide Subsequence, OnKey, ConnKey;
    var all, got := OnKey(posted, key), OnKey(taken, key);
    if key in latest {
      SubsequenceSkip(got, all[..|all| - 1], all[|all| - 1]);
      assert all[..|all| - 1] + [all[|all| - 1]] == all;
    }
  }

  // ---- Quiescence ------------------------------------------------------------------------

  /** Before shutdown, nothing is left to do: no step but an arrival or the life cycle is possible. */
  ghost predicate Quiescent(s: State) {
    && s.Open() && s.producer.Idle?
    && (forall i | 0 <= i < |s.lanes| :: !s.lanes[i].pc.Running? && (s.lanes[i].pc.Waiting? ==> s.lanes[i].buf == []))
    && s.conns[|s.conns| - 1].pc.Selecting? && !s.conns[|s.conns| - 1].wake
  }

  lemma CurrentLaneRuns(s: State, i: nat)
    requires Inv(s) && Current(s, i)
    ensures !s.lanes[i].pc.Exited?
  {
    hide FifoInv, RegistryInv, StampInv, ProducerInv, FateInv, ReportInv, PendingInv, CurrentInv, PostInv;
  }

  /**
   At quiescence every lane has delivered everything kept, the map is empty,
   and under every key the connection messages delivered are a coalescing of
   those that arrived: in particular the last one is the last arrival.
   */
  lemma QuiescentDelivery(s: State)
    requires Reachable(s) && Quiescent(s)
    ensures s.start <= |s.arrived| && s.connLatest == map[]
    ensures forall i: nat | Current(s, i) :: s.lanes[i].delivered == Carried(s, i) + Kept(s, s.lanes[i].route)
    ensures s.conns[|s.conns| - 1].posted == CarriedConnection(s) + ConnOnly(s.arrived[s.start..])
    ensures var c := s.conns[|s.conns| - 1];
            var posted, delivered := c.posted, c.delivered;
            forall key :: Coalesced(OnKey(posted, key), OnKey(delivered, key))
  {
    hide Reachable, Inv;
    ReachableInv(s);
    ConnFacts(s);
    ConnectionsArePosted(s);
    forall i: nat | Current(s, i)
      ensures s.lanes[i].delivered == Carried(s, i) + Kept(s, s.lanes[i].route)
    {
      hide Carried, Kept;
      CurrentLaneRuns(s, i);
      LaneConservation(s, i);
    }
    var c := s.conns[|s.conns| - 1];
    var posted, delivered, taken, latest := c.posted, c.delivered, Taken(c), s.connLatest;
    assert taken == delivered;
    hide OnKey, Coalesced, CountInv, CarriedConnection, ConnOnly, Taken;
    forall key
      ensures Coalesced(OnKey(posted, key), OnKey(delivered, key))
    {
      assert KeyCoalesced(posted, taken, latest, key);
    }
  }

  // ---- Handlers under coalescing -----------------------------------------------------------

  ghost function ByHandler(a: seq<Inbound>, handler: int): seq<Inbound> {
    Filter(a, (m: Inbound) => m.handler == handler)
  }

  /** Every handler with a message in full gets its last one. */
  ghost predicate LastOfEachHandler(full: seq<Inbound>, got: seq<Inbound>) {
    forall h | ByHandler(full, h) != [] ::
      ByHandler(got, h) != [] && ByHandler(got, h)[|ByHandler(got, h)| - 1]
        == ByHandler(full, h)[|ByHandler(full, h)| - 1]
  }

  ghost predicate OneHandler(a: seq<Inbound>) {
    forall i, j | 0 <= i < |a| && 0 <= j < |a| :: a[i].handler == a[j].handler
  }

  lemma LastByHandler(a: seq<Inbound>)
    requires a != []
    ensures var m := a[|a| - 1];
            var mine := ByHandler(a, m.handler); mine != [] && mine[|mine| - 1] == m
  {
    var m := a[|a| - 1];
    FilterSnoc(a[..|a| - 1], m, (x: Inbound) => x.handler == m.handler);
    assert a == a[..|a| - 1] + [m];
  }

  /** The key under which connection messages are coalesced is the AGV's, as its topic names it. */
  lemma CoalescedByAgv(msg: Inbound, before: string, m: string, s: string)
    requires SlashFree(m) && SlashFree(s) && !SlashFree(before)
    requires msg.topic == before + "/" + m + "/" + s + "/" + "connection"
    ensures RouteOf(msg).ToConnection? && ConnKey(msg) == AGV(m, s).Key()
  {
    assert SlashFree("connection");
    RouteByLastLevels(before, m, s, "connection");
    hide Classify, Droppable;
    assert (m + "/" + s)[|m|] == '/';
  }

  /** Exactly when coalescing one key's messages can cost no handler its last message: when there is one handler. */
  lemma HandlersExact(full: seq<Inbound>)
    ensures (forall got | Coalesced(full, got) :: LastOfEachHandler(full, got)) <==> OneHandler(full)
  {
    if OneHandler(full) {
      forall got | Coalesced(full, got)
        ensures LastOfEachHandler(full, got)
      {
        OneHandlerServed(full, got);
      }
    } else {
      var last := full[|full| - 1];
      var i :| 0 <= i < |full| && full[i].handler != last.handler;
      LastAlone(full);
      assert full[i] in ByHandler(full, full[i].handler);
      NoneByHandler([last], full[i].handler);
      assert !LastOfEachHandler(full, [last]);
    }
  }

  lemma NoneByHandler(a: seq<Inbound>, h: int)
    requires forall m | m in a :: m.handler != h
    ensures ByHandler(a, h) == []
  {
    FilterNone(a, (m: Inbound) => m.handler == h);
  }

  lemma OneHandlerServed(full: seq<Inbound>, got: seq<Inbound>)
    requires OneHandler(full) && Coalesced(full, got)
    ensures LastOfEachHandler(full, got)
  {
    forall h | ByHandler(full, h) != []
      ensures ByHandler(got, h) != []
              && ByHandler(got, h)[|ByHandler(got, h)| - 1] == ByHandler(full, h)[|ByHandler(full, h)| - 1]
    {
      assert ByHandler(full, h)[0] in full;
      LastByHandler(full);
      LastByHandler(got);
    }
  }

  /** At quiescence, a key whose messages all came for one handler has shown it the last of them. */
  lemma OneHandlerSeesLast(s: State, key: string)
    requires Reachable(s) && Quiescent(s) && OneHandler(OnKey(s.conns[|s.conns| - 1].posted, key))
    ensures var c := s.conns[|s.conns| - 1]; LastOfEachHandler(OnKey(c.posted, key), OnKey(c.delivered, key))
  {
    hide Reachable, Coalesced, OnKey, OneHandler, LastOfEachHandler;
    QuiescentDelivery(s);
    var c := s.conns[|s.conns| - 1];
    var posted, delivered := c.posted, c.delivered;
    assert Coalesced(OnKey(posted, key), OnKey(delivered, key));
    OneHandlerServed(OnKey(posted, key), OnKey(delivered, key));
  }

  /**
   Coalescing looks at the key alone: when two subscriptions match one
   connection topic, the second callback overwrites what the first one queued,
   and the first handler is never called for it.
   */
  lemma BackToBackOverwrites(s: State, topic: string, p: int, h1: int, h2: int) returns (s': State)
    requires Reachable(s) && s.Open() && s.producer.Idle? && Classify(topic).ToConnection?
    ensures Runs(s, [Arrive(topic, p, h1), Post, Wake, Arrive(topic, p, h2), Post], s') && s'.Open()
    ensures var c := s'.conns[|s'.conns| - 1];
            var first := Inbound(topic, p, h1, |s.arrived|);
            first in c.overwritten && first !in Taken(c) && first !in s'.connLatest.Values
  {
    hide Inv, Classify, Runs, Reachable;
    ReachableInv(s);
    var s1 := Apply(s, Arrive(topic, p, h1));
    var s2 := Apply(s1, Post);
    var s3 := Apply(s2, Wake);
    var s4 := Apply(s3, Arrive(topic, p, h2));
    s' := Apply(s4, Post);
    RunOfFive(s, Arrive(topic, p, h1), s1, Post, s2, Wake, s3, Arrive(topic, p, h2), s4, Post, s');
    RunKeepsInv(s, [Arrive(topic, p, h1), Post, Wake, Arrive(topic, p, h2), Post], s');
    OverwrittenIsGone(s', Inbound(topic, p, h1, |s.arrived|));
  }

  lemma RunOfFive(s: State, a: Step, s1: State, b: Step, s2: State, c: Step, s3: State, d: Step, s4: State,
                  e: Step, s5: State)
    requires Enabled(s, a) && s1 == Apply(s, a) && Enabled(s1, b) && s2 == Apply(s1, b)
    requires Enabled(s2, c) && s3 == Apply(s2, c) && Enabled(s3, d) && s4 == Apply(s3, d)
    requires Enabled(s4, e) && s5 == Apply(s4, e)
    ensures Runs(s, [a, b, c, d, e], s5)
  {
    hide Enabled, Apply;
    assert Runs(s4, [e], s5) by { assert [e][1..] == []; }
    assert Runs(s3, [d, e], s5) by { assert [d, e][1..] == [e]; }
    assert Runs(s2, [c, d, e], s5) by { assert [c, d, e][1..] == [d, e]; }
    assert Runs(s1, [b, c, d, e], s5) by { assert [b, c, d, e][1..] == [c, d, e]; }
    assert [a, b, c, d, e][1..] == [b, c, d, e];
  }
}
