/**
 Head-of-line blocking: one full queue, of an AGV or of the custom topics, stops
 every other message. The single callback waits inside enqueue, and until that
 queue's worker takes a message or the context ends, nothing more is accepted on
 any lane. Connection and visualization messages never block.
 */
module DispatcherBlocking {
  import opened Topics
  import opened Dispatcher
  import opened DispatcherInvariant
  import opened DispatcherSteps

  /** The callback waits for room on lane i, and its done channel is open. */
  ghost predicate BlockedOn(s: State, i: nat) {
    && s.producer.Blocked? && s.producer.lane == i && i < |s.lanes| && |s.lanes[i].buf| >= s.qsize
    && !s.DoneClosed(s.producer.done)
  }

  lemma BlockedStep(s: State, st: Step, i: nat)
    requires BlockedOn(s, i) && Enabled(s, st) && st != Receive(i) && !st.CancelDispatch?
    ensures BlockedOn(Apply(s, st), i)
    ensures Apply(s, st).producer == s.producer && Apply(s, st).arrived == s.arrived
  {
    hide RouteOf, ConnKey, Classify, Droppable, QueueFor, PostConnection, Started;
  }

  /** Whatever else the other workers and the life cycle do, no message of any lane is accepted meanwhile. */
  lemma {:induction false} BlockedUntilReceived(s: State, steps: seq<Step>, s': State, i: nat)
    requires BlockedOn(s, i) && Runs(s, steps, s')
    requires forall st | st in steps :: st != Receive(i) && !st.CancelDispatch?
    ensures BlockedOn(s', i) && s'.producer == s.producer && s'.arrived == s.arrived
    ensures forall topic, payload, handler :: !Enabled(s', Arrive(topic, payload, handler))
    decreases |steps|
  {
    hide Apply;
    if steps != [] {
      assert steps[0] in steps;
      BlockedStep(s, steps[0], i);
      assert forall st | st in steps[1..] :: st in steps;
      hide BlockedOn;
      BlockedUntilReceived(Apply(s, steps[0]), steps[1..], s', i);
    }
  }

  // ---- Such a state is reachable ----------------------------------------------------------

  /** The first lane a route gets: the topic lane is there from the start. */
  function FirstLane(route: Route): nat {
    if route.ToAgv? then 1 else 0
  }

  /** One lane holds n messages, its worker has taken none, and every other queue is empty. */
  ghost predicate Stuffed(s: State, route: Route, n: nat) {
    && s.mode.Connecting? && |s.conns| == 1 && s.connLatest == map[] && s.qsize > 0 && s.topicQ == 0
    && |s.lanes| == FirstLane(route) + 1 && |s.lanes[FirstLane(route)].buf| == n
    && (route.ToAgv? ==> s.lanes[0].buf == [])
    && s.shards == if route.ToAgv? then map[route.key := 1] else map[]
  }

  /** As it is between two messages; an AGV's lane comes with its first one. */
  ghost predicate Filled(s: State, route: Route, n: nat) {
    && s.producer.Idle?
    && if route.ToAgv? && n == 0 then Stuffed(s, ToTopic, 0) else Stuffed(s, route, n)
  }

  ghost predicate Offered(s: State, n: nat, topic: string) {
    && Stuffed(s, Classify(topic), n)
    && s.producer.Offering? && s.producer.lane == FirstLane(Classify(topic)) && s.producer.done == DoneOf(0)
    && s.producer.msg.topic == topic
  }

  lemma OfferOne(s: State, topic: string, n: nat) returns (steps: seq<Step>, s': State)
    requires !Classify(topic).ToConnection? && Filled(s, Classify(topic), n)
    ensures |steps| == 3 && Runs(s, steps, s') && Offered(s', n, topic) && s'.qsize == s.qsize
  {
    hide Classify, Droppable, Runs, PostConnection, Started;
    var a := Arrive(topic, 0, 0);
    var s1 := Apply(s, a);
    assert s1.producer.Routed?;
    var s2 := Apply(s1, Sample);
    s' := Apply(s2, FindQueue);
    steps := [a, Sample, FindQueue];
    RunOfThree(s, a, s1, Sample, s2, FindQueue, s');
  }

  lemma RunOfThree(s: State, a: Step, s1: State, b: Step, s2: State, c: Step, s3: State)
    requires Enabled(s, a) && s1 == Apply(s, a) && Enabled(s1, b) && s2 == Apply(s1, b)
    requires Enabled(s2, c) && s3 == Apply(s2, c)
    ensures Runs(s, [a, b, c], s3)
  {
    hide Enabled, Apply;
    assert Runs(s2, [c], s3) by { assert [c][1..] == []; }
    assert Runs(s1, [b, c], s3) by { assert [b, c][1..] == [c]; }
    assert [a, b, c][1..] == [b, c];
  }

  lemma {:induction false} RunsConcat(s: State, a: seq<Step>, mid: State, b: seq<Step>, s': State)
    requires Runs(s, a, mid) && Runs(mid, b, s')
    ensures Runs(s, a + b, s')
    decreases |a|
  {
    hide Apply, Enabled;
    if a == [] {
      assert a + b == b;
    } else {
      RunsConcat(Apply(s, a[0]), a[1..], mid, b, s');
      assert (a + b)[1..] == a[1..] + b;
    }
  }

  lemma {:induction false} FillLane(configured: int, topic: string, n: nat) returns (steps: seq<Step>, s: State)
    requires !Classify(topic).ToConnection? && n <= QueueSize(configured)
    ensures Runs(Init(configured), steps, s) && Filled(s, Classify(topic), n) && s.qsize == QueueSize(configured)
  {
    hide Classify;
    if n == 0 {
      s := Apply(Init(configured), StartDispatch);
      steps := [StartDispatch];
      assert [StartDispatch][1..] == [];
      assert Runs(s, [], s);
    } else {
      hide Runs, Filled, Offered, Init;
      var before, mid, three;
      steps, before := FillLane(configured, topic, n - 1);
      three, mid := OfferOne(before, topic, n - 1);
      RunsConcat(Init(configured), steps, before, three, mid);
      SendOne(mid, topic, n - 1);
      RunsSnoc(Init(configured), steps + three, mid, Offer);
      steps, s := steps + three + [Offer], Apply(mid, Offer);
    }
  }

  lemma SendOne(s: State, topic: string, n: nat)
    requires !Classify(topic).ToConnection? && Offered(s, n, topic) && n < s.qsize
    ensures Enabled(s, Offer) && Filled(Apply(s, Offer), Classify(topic), n + 1) && Apply(s, Offer).qsize == s.qsize
  {
    hide Classify, Droppable;
  }

  lemma RefuseOne(s: State, topic: string)
    requires !Classify(topic).ToConnection? && Offered(s, s.qsize, topic) && !Droppable(topic)
    ensures Enabled(s, Offer) && Enabled(Apply(s, Offer), Hook)
    ensures var b := Apply(Apply(s, Offer), Hook);
            BlockedOn(b, FirstLane(Classify(topic))) && b.producer.msg.topic == topic && OthersEmpty(b)
  {
    hide Classify, Droppable;
  }

  /** Nothing is queued but on the lane the callback waits for. */
  ghost predicate OthersEmpty(s: State)
    requires s.producer.Blocked?
  {
    s.connLatest == map[] && forall i | 0 <= i < |s.lanes| && i != s.producer.lane :: s.lanes[i].buf == []
  }

  /**
   With any queue size, enough messages of one AGV, or of custom topics, block the callback while every other
   queue is empty: from then on BlockedUntilReceived applies.
   */
  lemma OneLaneCanBlockAll(configured: int, topic: string) returns (steps: seq<Step>, s: State)
    requires !Classify(topic).ToConnection? && !Droppable(topic)
    ensures Runs(Init(configured), steps, s) && BlockedOn(s, FirstLane(Classify(topic)))
    ensures s.producer.msg.topic == topic && OthersEmpty(s)
    ensures forall t, payload, handler :: !Enabled(s, Arrive(t, payload, handler))
  {
    var full, three, mid;
    steps, full := FillLane(configured, topic, QueueSize(configured));
    hide Runs, Filled, Offered, Init, Classify, Droppable;
    three, mid := OfferOne(full, topic, QueueSize(configured));
    RunsConcat(Init(configured), steps, full, three, mid);
    RefuseOne(mid, topic);
    hide Apply, OthersEmpty;
    RunsSnoc(Init(configured), steps + three, mid, Offer);
    RunsSnoc(Init(configured), steps + three + [Offer], Apply(mid, Offer), Hook);
    steps, s := steps + three + [Offer] + [Hook], Apply(Apply(mid, Offer), Hook);
  }

  /** What a blocked callback holds: never a connection message, never visualization. */
  lemma BlockedOnLasting(s: State)
    requires Reachable(s) && s.producer.Blocked?
    ensures !Classify(s.producer.msg.topic).ToConnection? && !Droppable(s.producer.msg.topic)
  {
    ReachableInv(s);
    hide StampInv, FifoInv, WorkerInv, FateInv, ReportInv, PostInv, CurrentInv, PendingInv, Classify, Droppable;
  }

  /**
   Exactly which topics can block the callback, for every queue size: those of the custom topic lane and of the AGV
   lanes other than visualization. So the connection lane starves nobody, and the topic lane can starve all.
   */
  lemma BlocksExactly(configured: int, topic: string)
    ensures (exists steps, s, i :: Runs(Init(configured), steps, s) && BlockedOn(s, i) && s.producer.msg.topic == topic)
            <==> !Classify(topic).ToConnection? && !Droppable(topic)
  {
    hide Runs, Init, Classify, Droppable;
    if steps, s, i :| Runs(Init(configured), steps, s) && BlockedOn(s, i) && s.producer.msg.topic == topic {
      assert Reachable(s);
      BlockedOnLasting(s);
    }
    if !Classify(topic).ToConnection? && !Droppable(topic) {
      var steps, s := OneLaneCanBlockAll(configured, topic);
      assert Runs(Init(configured), steps, s) && BlockedOn(s, FirstLane(Classify(topic)));
    }
  }
}
