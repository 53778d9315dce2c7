/**
 Progress and epoch safety of the dispatcher: without new arrivals every run
 before shutdown is finite and can only stop where nothing is left to do, and
 no worker is started for, or survives, a dispatch epoch that is over.
 */
module DispatcherProgress {
  import opened Streams
  import opened Topics
  import opened Dispatcher
  import opened DispatcherInvariant
  import opened DispatcherSteps
  import opened DispatcherTheorems

  /** Everything but arrivals and the life cycle. */
  predicate Internal(st: Step) {
    match st
    case Arrive(_, _, _) => false
    case StartDispatch => false
    case Connected => false
    case ClearDispatch => false
    case CancelDispatch => false
    case StopReturns => false
    case _ => true
  }

  // ---- The measure -------------------------------------------------------------------

  ghost function ProducerWork(p: Producer): nat {
    match p
    case Idle => 0
    case Routed(_) => 7
    case Sampled(_, _) => 6
    case Offering(_, _, _) => 5
    case Refused(_, _, _, _) => 4
    case Blocked(_, _, _) => 3
    case Posting(_) => 7
    case Waking(_) => 3
  }

  ghost function LaneWork(l: Lane): nat {
    match l.pc
    case Exited => 0
    case Waiting => 2 * |l.buf|
    case Running(_) => 2 * |l.buf| + 1
  }

  ghost function LanesWork(lanes: seq<Lane>): nat {
    if lanes == [] then 0 else LanesWork(lanes[..|lanes| - 1]) + LaneWork(lanes[|lanes| - 1])
  }

  ghost function ConnWork(c: ConnLane): nat {
    (if c.wake then 2 else 0)
    + match c.pc
      case Selecting => 0
      case Draining => 1
      case Handling(_) => 2
      case Gone => 0
  }

  ghost function Work(s: State): nat
    requires s.Open()
  {
    ProducerWork(s.producer) + LanesWork(s.lanes) + ConnWork(s.conns[|s.conns| - 1]) + 2 * |s.connLatest|
  }

  lemma {:induction false} LanesWorkUpdate(lanes: seq<Lane>, i: nat, l: Lane)
    requires i < |lanes|
    ensures LanesWork(lanes[i := l]) == LanesWork(lanes) - LaneWork(lanes[i]) + LaneWork(l)
  {
    var n := |lanes| - 1;
    if i == n {
      assert lanes[i := l][..n] == lanes[..n];
    } else {
      LanesWorkUpdate(lanes[..n], i, l);
      assert lanes[i := l][..n] == lanes[..n][i := l];
    }
  }

  lemma LanesWorkSnoc(lanes: seq<Lane>, l: Lane)
    ensures LanesWork(lanes + [l]) == LanesWork(lanes) + LaneWork(l)
  {
    assert (lanes + [l])[..|lanes|] == lanes;
  }

  // ---- Every internal step does some of the work -----------------------------------------

  lemma FindQueueStepWorks(s: State)
    requires s.Open() && s.producer.Sampled?
    ensures Apply(s, FindQueue).Open() && Work(Apply(s, FindQueue)) < Work(s)
  {
    hide RouteOf, LanesWork;
    var s' := Apply(s, FindQueue);
    if |s'.lanes| > |s.lanes| {
      LanesWorkSnoc(s.lanes, s'.lanes[|s.lanes|]);
    }
  }

  lemma SendWorks(s: State, i: nat)
    requires s.Open() && Holding(s.producer) && i < |s.lanes| && ProducerWork(s.producer) > 2
    ensures Send(s, s.producer.msg, i).Open() && Work(Send(s, s.producer.msg, i)) < Work(s)
  {
    hide LanesWork;
    LanesWorkUpdate(s.lanes, i, Send(s, s.producer.msg, i).lanes[i]);
  }

  lemma ProducerStepWorks(s: State, st: Step)
    requires s.Open() && Enabled(s, st)
    requires st.Sample? || st.Offer? || st.Hook? || st.Unblock? || st.Abandon?
    ensures Apply(s, st).Open() && Work(Apply(s, st)) < Work(s)
  {
    hide RouteOf, Droppable, LanesWork, ConnWork, Send;
    if st.Unblock? || (st.Offer? && |s.lanes[s.producer.lane].buf| < s.qsize) {
      SendWorks(s, s.producer.lane);
    }
  }

  lemma PostStepWorks(s: State)
    requires s.Open() && s.producer.Posting?
    ensures Apply(s, Post).Open() && Work(Apply(s, Post)) < Work(s)
  {
    hide RouteOf, ConnKey, LanesWork, LaneWork;
    PendingGrows(s.connLatest, ConnKey(s.producer.msg), s.producer.msg);
  }

  lemma PendingGrows(latest: map<string, Inbound>, key: string, m: Inbound)
    ensures |latest[key := m]| <= |latest| + 1
  {
    assert latest[key := m].Keys == latest.Keys + {key};
    assert |latest[key := m]| == |latest[key := m].Keys| && |latest| == |latest.Keys|;
  }

  lemma WakeStepWorks(s: State)
    requires s.Open() && Enabled(s, Wake)
    ensures Apply(s, Wake).Open() && Work(Apply(s, Wake)) < Work(s)
  {
    hide LanesWork;
  }

  lemma LaneStepWorks(s: State, st: Step)
    requires s.Open() && Enabled(s, st) && (st.Receive? || st.Finish?)
    ensures Apply(s, st).Open() && Work(Apply(s, st)) < Work(s)
  {
    hide LanesWork;
    LanesWorkUpdate(s.lanes, st.lane, Apply(s, st).lanes[st.lane]);
  }

  lemma ConnStepWorks(s: State, st: Step)
    requires s.Open() && Enabled(s, st) && (st.WakeUp? || st.Take? || st.DrainEnd? || st.Handled?)
    requires st.epoch + 1 == |s.conns|
    ensures Apply(s, st).Open() && Work(Apply(s, st)) < Work(s)
  {
    hide LanesWork;
    if st.Take? {
      assert (s.connLatest - {st.key}).Keys == s.connLatest.Keys - {st.key};
      assert |s.connLatest - {st.key}| == |s.connLatest| - 1;
    }
  }

  lemma OldEpochsAreGone(s: State)
    requires Inv(s)
    ensures forall e | 0 <= e < |s.conns| && !s.conns[e].pc.Gone? :: e + 1 == |s.conns|
    ensures forall i | 0 <= i < |s.lanes| && !s.lanes[i].pc.Exited? :: s.lanes[i].epoch + 1 == |s.conns|
  {
    hide FifoInv, StampInv, ProducerInv, FateInv, ReportInv, PendingInv, CurrentInv, PostInv;
  }

  lemma InternalStepWorks(s: State, st: Step)
    requires Inv(s) && s.Open() && Enabled(s, st) && Internal(st)
    ensures Apply(s, st).Open() && Work(Apply(s, st)) < Work(s)
  {
    OldEpochsAreGone(s);
    hide Inv, Work, Apply;
    match st
    case Sample => ProducerStepWorks(s, st);
    case FindQueue => FindQueueStepWorks(s);
    case Offer => ProducerStepWorks(s, st);
    case Hook => ProducerStepWorks(s, st);
    case Unblock => ProducerStepWorks(s, st);
    case Abandon => ProducerStepWorks(s, st);
    case Post => PostStepWorks(s);
    case Wake => WakeStepWorks(s);
    case Receive(_) => LaneStepWorks(s, st);
    case Finish(_) => LaneStepWorks(s, st);
    case WakeUp(_) => ConnStepWorks(s, st);
    case Take(_, _) => ConnStepWorks(s, st);
    case DrainEnd(_) => ConnStepWorks(s, st);
    case Handled(_) => ConnStepWorks(s, st);
    case Quit(_) =>
    case ConnQuit(_) =>
  }

  /** Every run without arrivals before shutdown is at most as long as the work there was. */
  lemma {:induction false} InternalRunsAreFinite(s: State, steps: seq<Step>, s': State)
    requires Inv(s) && s.Open() && Runs(s, steps, s') && forall st | st in steps :: Internal(st)
    ensures s'.Open() && Inv(s') && |steps| + Work(s') <= Work(s)
    decreases |steps|
  {
    hide Inv, Work, Apply, Enabled;
    if steps != [] {
      InternalStepWorks(s, steps[0]);
      StepKeepsInv(s, steps[0]);
      InternalRunsAreFinite(Apply(s, steps[0]), steps[1..], s');
    }
  }

  // ---- There is always a step while something is left to do -----------------------------------

  lemma ProducerCanStep(s: State) returns (st: Step)
    requires Inv(s) && s.Open() && !s.producer.Idle?
    requires forall i | 0 <= i < |s.lanes| :: !s.lanes[i].pc.Running? && (s.lanes[i].pc.Waiting? ==>
              s.lanes[i].buf == [])
    ensures Internal(st) && Enabled(s, st)
  {
    hide FifoInv, FateInv, ReportInv, PendingInv, CurrentInv, PostInv, RouteOf, Droppable;
    match s.producer
    case Routed(_) => st := Sample;
    case Sampled(_, _) => st := FindQueue;
    case Offering(_, _, i) => st := Offer;
    case Refused(_, _, _, _) => st := Hook;
    case Posting(_) => st := Post;
    case Waking(_) => st := Wake;
    case Blocked(m, done, i) =>
      // The queue of a live lane was just seen to be empty; any other lane belongs to an epoch that is over.
      if s.lanes[i].pc.Waiting? {
        st := Unblock;
      } else {
        assert s.CtxDone(s.lanes[i].epoch);
        st := Abandon;
      }
  }

  /** A state in which something is left to do has an enabled step. */
  lemma Progress(s: State) returns (st: Step)
    requires Inv(s) && s.Open() && !Quiescent(s)
    ensures Internal(st) && Enabled(s, st)
  {
    if i :| 0 <= i < |s.lanes| && s.lanes[i].pc.Running? {
      st := Finish(i);
    } else if i :| 0 <= i < |s.lanes| && s.lanes[i].pc.Waiting? && s.lanes[i].buf != [] {
      st := Receive(i);
    } else if !s.producer.Idle? {
      st := ProducerCanStep(s);
    } else {
      st := ConnCanStep(s);
    }
  }

  lemma ConnCanStep(s: State) returns (st: Step)
    requires Inv(s) && s.Open()
    requires !(s.conns[|s.conns| - 1].pc.Selecting? && !s.conns[|s.conns| - 1].wake)
    ensures Internal(st) && Enabled(s, st)
  {
    hide FifoInv, StampInv, ProducerInv, FateInv, ReportInv, PendingInv, CurrentInv, PostInv, RegistryInv;
    var e := |s.conns| - 1;
    match s.conns[e].pc
    case Selecting => st := WakeUp(e);
    case Handling(_) => st := Handled(e);
    case Gone => assert false;
    case Draining =>
      if k :| k in s.connLatest {
        st := Take(e, k);
      } else {
        assert s.connLatest == map[];
        st := DrainEnd(e);
      }
  }

  /**
   A run without arrivals that cannot be continued has ended at quiescence;
   there the producer is idle, so backpressure has been released.
   */
  lemma MaximalRunsEndQuiescent(s: State, steps: seq<Step>, s': State)
    requires Reachable(s) && s.Open() && Runs(s, steps, s') && forall st | st in steps :: Internal(st)
    requires forall st | Internal(st) :: !Enabled(s', st)
    ensures |steps| <= Work(s) && Quiescent(s') && s'.producer.Idle?
  {
    hide Reachable;
    ReachableInv(s);
    InternalRunsAreFinite(s, steps, s');
    hide Inv, Work, Enabled;
    if !Quiescent(s') {
      var st := Progress(s');
    }
  }

  // ---- Epoch safety ------------------------------------------------------------------------

  /** No two live workers serve one route, so handlers on one AGV's lane never overlap. */
  lemma OneWorkerPerRoute(s: State, i: nat, j: nat)
    requires Reachable(s) && i < |s.lanes| && j < |s.lanes|
    requires !s.lanes[i].pc.Exited? && !s.lanes[j].pc.Exited? && s.lanes[i].route == s.lanes[j].route
    ensures i == j
  {
    hide Reachable;
    ReachableInv(s);
    OldEpochsAreGone(s);
    hide FifoInv, StampInv, ProducerInv, FateInv, ReportInv, PendingInv, CurrentInv, PostInv, WorkerInv;
  }

  /** Once the dispatch fields are cleared, only the next start creates a worker. */
  lemma NoWorkerOnceCleared(s: State, st: Step)
    requires !s.Open() && Enabled(s, st) && !st.StartDispatch?
    ensures |Apply(s, st).lanes| == |s.lanes| && |Apply(s, st).conns| == |s.conns|
  {
    hide RouteOf, Droppable, Classify, ConnKey;
  }

  ghost predicate Frozen(l: Lane, l': Lane) {
    l.pc.Exited? ==> l'.pc.Exited? && l'.delivered == l.delivered
  }

  ghost predicate ConnFrozen(c: ConnLane, c': ConnLane) {
    c.pc.Gone? ==> c'.pc.Gone? && c'.delivered == c.delivered
  }

  ghost predicate LanesFrozen(lanes: seq<Lane>, lanes': seq<Lane>) {
    |lanes| <= |lanes'| && forall i | 0 <= i < |lanes| :: Frozen(lanes[i], lanes'[i])
  }

  ghost predicate ConnsFrozen(conns: seq<ConnLane>, conns': seq<ConnLane>) {
    |conns| <= |conns'| && forall e | 0 <= e < |conns| :: ConnFrozen(conns[e], conns'[e])
  }

  lemma FrozenUpdate(lanes: seq<Lane>, i: nat, l: Lane)
    requires i < |lanes| && Frozen(lanes[i], l)
    ensures LanesFrozen(lanes, lanes[i := l])
  {
  }

  lemma FrozenSnoc(lanes: seq<Lane>, l: Lane)
    ensures LanesFrozen(lanes, lanes + [l]) && LanesFrozen(lanes, lanes)
  {
  }

  lemma ExitedStepFixed(s: State, st: Step)
    requires Enabled(s, st)
    ensures LanesFrozen(s.lanes, Apply(s, st).lanes)
  {
    hide RouteOf, Droppable, Classify, ConnKey, LanesFrozen, PostConnection, QueueFor, Send;
    match st
    case Receive(i) => FrozenUpdate(s.lanes, i, Apply(s, st).lanes[i]);
    case Finish(i) => FrozenUpdate(s.lanes, i, Apply(s, st).lanes[i]);
    case Quit(i) => FrozenUpdate(s.lanes, i, Apply(s, st).lanes[i]);
    case Offer => SendFrozen(s, s.producer.msg, s.producer.lane);
    case Unblock => SendFrozen(s, s.producer.msg, s.producer.lane);
    case FindQueue => FoundFrozen(s, s.producer.msg, s.producer.done);
    case Post => PostKeepsLanes(s);
    case _ => FrozenSnoc(s.lanes, NewLane(|s.conns|, ToTopic));
  }

  lemma FoundFrozen(s: State, m: Inbound, done: Done)
    ensures LanesFrozen(s.lanes, QueueFor(s, m, done).lanes)
  {
    hide RouteOf;
  }

  lemma SendFrozen(s: State, m: Inbound, i: nat)
    requires i < |s.lanes|
    ensures LanesFrozen(s.lanes, Send(s, m, i).lanes) && LanesFrozen(s.lanes, s.lanes)
  {
  }

  lemma PostKeepsLanes(s: State)
    requires s.producer.Posting?
    ensures LanesFrozen(s.lanes, PostConnection(s, s.producer.msg).lanes)
    ensures ConnsFrozen(s.conns, PostConnection(s, s.producer.msg).conns)
  {
    hide ConnKey;
  }

  lemma GoneStepFixed(s: State, st: Step)
    requires Enabled(s, st)
    ensures ConnsFrozen(s.conns, Apply(s, st).conns)
  {
    hide RouteOf, Droppable, Classify, ConnKey, PostConnection;
    if st.Post? {
      PostKeepsLanes(s);
    } else {
      hide Send, QueueFor;
      SendKeepsConns(s);
    }
  }

  lemma SendKeepsConns(s: State)
    ensures s.producer.Sampled? ==> QueueFor(s, s.producer.msg, s.producer.done).conns == s.conns
    ensures (s.producer.Offering? || s.producer.Blocked?) && s.producer.lane < |s.lanes| ==>
              Send(s, s.producer.msg, s.producer.lane).conns == s.conns
  {
    hide RouteOf;
  }

  lemma {:induction false} ExitedStaysFixed(s: State, steps: seq<Step>, s': State)
    requires Runs(s, steps, s')
    ensures LanesFrozen(s.lanes, s'.lanes) && ConnsFrozen(s.conns, s'.conns)
    decreases |steps|
  {
    hide Apply, Enabled;
    if steps != [] {
      ExitedStepFixed(s, steps[0]);
      GoneStepFixed(s, steps[0]);
      ExitedStaysFixed(Apply(s, steps[0]), steps[1..], s');
    }
  }

  /** After Stop has returned no handler of any epoch so far runs, nor will one ever run again. */
  lemma StopIsFinal(s: State, steps: seq<Step>, s': State)
    requires Reachable(s) && s.mode.Down? && Runs(s, steps, s')
    ensures AllExited(s) && |s.lanes| <= |s'.lanes| && |s.conns| <= |s'.conns|
    ensures forall i | 0 <= i < |s.lanes| ::
              s'.lanes[i].pc.Exited? && s'.lanes[i].delivered == s.lanes[i].delivered
    ensures forall e | 0 <= e < |s.conns| ::
              s'.conns[e].pc.Gone? && s'.conns[e].delivered == s.conns[e].delivered
  {
    hide Reachable, Runs;
    ReachableInv(s);
    hide FifoInv, StampInv, ProducerInv, FateInv, ReportInv, PendingInv, CurrentInv, PostInv, RegistryInv;
    ExitedStaysFixed(s, steps, s');
  }
}
