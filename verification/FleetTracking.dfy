/**
 Auto-tracking as the client runs it (fleet_autotrack.go): connection messages
 become jobs in a bounded queue, and one worker hands them to the fleet
 session. From the dispatcher's delivery to the broker's filters, what is
 tracked in the end is what the arrivals say.
 */
module FleetTracking {
  import opened Streams
  import opened Topics
  import opened Subscriptions
  import opened Dispatcher
  import opened DispatcherInvariant
  import opened DispatcherSteps
  import opened DispatcherTheorems
  import opened AutoTrack
  import opened EndToEnd
  import opened Hooks
  import opened FleetSessions

  const FLEET_QUEUE_SIZE: nat := 64

  datatype FleetJob = FleetJob(agv: AGV, state: ConnState)

  /** The jobs, read on keys. */
  ghost function OnKeys(jobs: seq<FleetJob>): seq<Job> {
    seq(|jobs|, i requires 0 <= i < |jobs| => Job(jobs[i].agv.Key(), jobs[i].state))
  }

  lemma OnKeysSnoc(jobs: seq<FleetJob>, job: FleetJob)
    ensures OnKeys(jobs + [job]) == OnKeys(jobs) + [Job(job.agv.Key(), job.state)]
  {
  }

  lemma HandleAllSnoc(tracked: set<string>, jobs: seq<Job>, job: Job)
    ensures HandleAll(tracked, jobs + [job]) == Handle(HandleAll(tracked, jobs), job)
  {
    assert (jobs + [job])[..|jobs|] == jobs;
  }

  class AutoTracker {
    const fleet: FleetSession
    /** The job queue exists. */
    var started: bool
    /** Its context has been cancelled. */
    var done: bool
    var jobs: seq<FleetJob>
    ghost const initially: set<string>
    ghost var offered: seq<FleetJob>
    ghost var handled: seq<FleetJob>
    /** Jobs that never reached the fleet, and jobs whose subscribing failed. */
    ghost var refused: nat
    ghost var failed: nat

    /** With no job refused, none is lost or reordered; with none failed, the fleet is the fold of those handled. */
    ghost predicate Valid()
      reads this, fleet, fleet.broker
    {
      && fleet.Valid()
      && |jobs| <= FLEET_QUEUE_SIZE
      && (refused == 0 ==> offered == handled + jobs)
      && (failed == 0 && fleet.autoTrack ==> fleet.tracked.Keys == HandleAll(initially, OnKeys(handled)))
      && (!started ==> jobs == [])
      && (started ==> fleet.autoTrack)
    }

    constructor (fleet: FleetSession)
      requires fleet.Valid()
      ensures Valid() && this.fleet == fleet && initially == fleet.tracked.Keys && !started && !done
      ensures offered == [] && handled == [] && refused == 0 && failed == 0
    {
      this.fleet, initially := fleet, fleet.tracked.Keys;
      started, done, jobs := false, false, [];
      offered, handled, refused, failed := [], [], 0, 0;
    }

    /** startFleetAutoTrack: a no-op unless the fleet tracks automatically. */
    method Start()
      requires Valid() && !started
      modifies this`started, this`done
      ensures Valid() && started == fleet.autoTrack && (started ==> !done)
    {
      if !fleet.autoTrack {
        return;
      }
      started, done := true, false;
    }

    /**
     * scheduleAutoTrack: never blocks. Between the cancellation and the end of the queue the select may take
     * either side; takeDone is that choice. A full queue is reported, unless the context is done.
     */
    method Schedule(job: FleetJob, takeDone: bool) returns (reported: bool)
      requires Valid()
      modifies this`jobs, this`offered, this`refused
      ensures Valid() && offered == old(offered) + [job]
      ensures reported <==> started && |old(jobs)| == 64 && !done
      ensures jobs == if started && |old(jobs)| < 64 && !(done && takeDone) then old(jobs) + [job]
                      else old(jobs)
      ensures refused == old(refused) + if jobs == old(jobs) then 1 else 0
    {
      hide HandleAll, OnKeys;
      reported := false;
      offered := offered + [job];
      if !started {
        refused := refused + 1;
        return;
      }
      if |jobs| < FLEET_QUEUE_SIZE && !(done && takeDone) {
        jobs := jobs + [job];
        assert refused == 0 ==> offered == handled + jobs;
      } else {
        refused := refused + 1;
        reported := !done;
      }
    }

    /** One turn of runFleetAutoTrack: the oldest job goes to the session; an error of it is reported. */
    method RunOne() returns (reported: bool)
      requires Valid() && jobs != []
      modifies this`jobs, this`handled, this`failed, fleet`tracked, fleet`events, fleet.broker
      ensures Valid() && handled == old(handled) + [old(jobs)[0]] && jobs == old(jobs)[1..]
      ensures failed == old(failed) + if reported then 1 else 0
      ensures reported ==> old(jobs)[0].state.Online? && fleet.tracked == old(fleet.tracked)
    {
      hide FleetSession.Common, FleetSession.Balanced, Established, HandleAll, OnKeys, Handle;
      var job := jobs[0];
      var ok := fleet.HandleConnection(job.agv, job.state);
      OnKeysSnoc(handled, job);
      HandleAllSnoc(initially, OnKeys(handled), Job(job.agv.Key(), job.state));
      jobs := jobs[1..];
      handled := handled + [job];
      reported := !ok;
      if reported {
        failed := failed + 1;
      }
    }

    /** The worker left alone empties the queue. */
    method RunAll()
      requires Valid()
      modifies this`jobs, this`handled, this`failed, fleet`tracked, fleet`events, fleet.broker
      ensures Valid() && jobs == [] && handled == old(handled) + old(jobs) && failed >= old(failed)
    {
      hide FleetSession.Valid, HandleAll, OnKeys;
      ghost var all := handled + jobs;
      while jobs != []
        invariant Valid() && handled + jobs == all && failed >= old(failed)
        decreases |jobs|
      {
        var reported := RunOne();
      }
      assert handled + jobs == handled;
    }

    /** stopFleetAutoTrack, first half: from here on the worker may stop at any turn. */
    method Cancel()
      requires Valid()
      modifies this`done
      ensures Valid() && (done <==> started || old(done))
    {
      if started {
        done := true;
      }
    }

    /**
     * Second half: the worker's last turns, as many as its select happens to take, and then the queue is gone
     * with what was left in it.
     */
    method AwaitWorker()
      requires Valid() && (started ==> done)
      modifies this`jobs, this`handled, this`failed, this`started, this`done, this`refused
      modifies fleet`tracked, fleet`events, fleet.broker
      ensures Valid() && !started && !done && jobs == []
      ensures old(handled) <= handled <= old(handled) + old(jobs)
      ensures refused == old(refused) + |old(handled) + old(jobs)| - |handled|
    {
      hide FleetSession.Valid, HandleAll, OnKeys;
      ghost var all := handled + jobs;
      while jobs != []
        invariant Valid() && started == old(started) && handled + jobs == all && refused == old(refused)
        invariant old(handled) <= handled
        decreases |jobs|
      {
        if * {
          break;
        }
        var reported := RunOne();
      }
      assert handled <= all;
      refused := refused + |jobs|;
      if jobs == [] {
        assert handled + jobs == handled;
      }
      started, done, jobs := false, false, [];
    }
  }

  // ---- From the dispatcher's messages to jobs -----------------------------------------------

  /** What the client makes of payloads: the state in one that decodes. */
  datatype Decoder = Decoder(topics: Resolver, handler: int, stateOf: Inbound -> Option<ConnState>)

  /** The message reaches the client's own handler, its topic parses and its payload decodes. */
  ghost predicate Understood(d: Decoder, m: Inbound) {
    && m.handler == d.handler && d.stateOf(m).Some?
    && d.topics.Parse(m.topic).Parsed? && d.topics.Parse(m.topic).topic.channel == CONNECTION
  }

  /** onRawMessage and invokeConnection: a connection message that is understood is scheduled as a job. */
  ghost function FleetJobs(d: Decoder, a: seq<Inbound>): seq<FleetJob> {
    if a == [] then []
    else
      var m := a[|a| - 1];
      FleetJobs(d, a[..|a| - 1])
      + if Understood(d, m) then
          var p := d.topics.Parse(m.topic).topic;
          [FleetJob(AGV(p.manufacturer, p.serialNumber), d.stateOf(m).value)]
        else []
  }

  /** A message that is not understood drives nothing. */
  ghost function Effect(d: Decoder): Inbound -> ConnState {
    m => if Understood(d, m) then d.stateOf(m).value else Other
  }

  lemma UnderstoodKey(d: Decoder, m: Inbound)
    requires Understood(d, m)
    ensures var p := d.topics.Parse(m.topic).topic;
            ConnKey(m) == AGV(p.manufacturer, p.serialNumber).Key()
  {
    RouteOfParsed(d.topics, m.topic);
    RouteKeyNonEmpty(m.topic);
  }

  lemma HandleOther(tracked: set<string>, key: string)
    ensures Handle(tracked, Job(key, Other)) == tracked
  {
  }

  /** The jobs scheduled have the effect of all the messages, each under its coalescing key. */
  lemma {:induction false} JobsHaveTheEffect(tracked: set<string>, d: Decoder, a: seq<Inbound>)
    ensures HandleAll(tracked, OnKeys(FleetJobs(d, a))) == HandleAll(tracked, JobsOf(a, Effect(d)))
  {
    if a != [] {
      var init, m := a[..|a| - 1], a[|a| - 1];
      JobsHaveTheEffect(tracked, d, init);
      var jobs := JobsOf(init, Effect(d));
      HandleAllSnoc(tracked, jobs, Job(ConnKey(m), Effect(d)(m)));
      if Understood(d, m) {
        var p := d.topics.Parse(m.topic).topic;
        UnderstoodKey(d, m);
        var job := FleetJob(AGV(p.manufacturer, p.serialNumber), d.stateOf(m).value);
        OnKeysSnoc(FleetJobs(d, init), job);
        hide ConnKey, Understood, AGV.Key;
        HandleAllSnoc(tracked, OnKeys(FleetJobs(d, init)), Job(job.agv.Key(), job.state));
      } else {
        HandleOther(HandleAll(tracked, jobs), ConnKey(m));
        assert FleetJobs(d, a) == FleetJobs(d, init);
      }
    }
  }

  // ---- All the way ------------------------------------------------------------------------------

  /** The states an AGV has reported, in order of arrival. */
  ghost function Reported(d: Decoder, s: State, key: string): seq<ConnState>
    requires s.Open() && s.start <= |s.arrived|
  {
    StatesOf(JobsOf(ConnectionStream(s), Effect(d)), key)
  }

  /**
   End to end. The dispatcher has caught up and the jobs made of what it delivered have all been handled, none
   refused and none failed. Then the fleet tracks what handling every arrived connection message one by one
   would have left it with, for every stream whose AGVs are robust.
   */
  lemma TrackedIsWhatArrived(t: AutoTracker, s: State, d: Decoder)
    requires t.Valid() && t.fleet.autoTrack && t.jobs == [] && t.refused == 0 && t.failed == 0
    requires Reachable(s) && Quiescent(s) && s.start <= |s.arrived|
    requires t.offered == FleetJobs(d, s.conns[|s.conns| - 1].delivered)
    requires forall key :: Robust(key in t.initially, Reported(d, s, key))
    ensures t.fleet.tracked.Keys == HandleAll(t.initially, JobsOf(ConnectionStream(s), Effect(d)))
  {
    var delivered := s.conns[|s.conns| - 1].delivered;
    hide Reachable, Quiescent, HandleAll, JobsOf, OnKeys, FleetSession.Valid, Robust, StatesOf;
    assert t.handled + t.jobs == t.handled;
    JobsHaveTheEffect(t.initially, d, delivered);
    CoalescedDeliveryKeepsMeaning(s, t.initially, Effect(d));
  }

  lemma {:induction false} JobStates(a: seq<Inbound>, effect: Inbound -> ConnState)
    requires forall m | m in a :: Driving(effect(m))
    ensures forall j | j in JobsOf(a, effect) :: Driving(j.state)
  {
    if a != [] {
      JobStates(a[..|a| - 1], effect);
    }
  }

  /**
   With the protocol's states: every connection message that arrived is understood and is ONLINE, OFFLINE or
   CONNECTIONBROKEN. Then exactly the AGVs whose last one was ONLINE are tracked (those that sent none as
   before), and the broker has the subscriptions specified for them.
   */
  lemma OnlineAgvsAreSubscribed(t: AutoTracker, s: State, d: Decoder)
    requires t.Valid() && t.fleet.autoTrack && t.jobs == [] && t.refused == 0 && t.failed == 0
    requires Reachable(s) && Quiescent(s) && s.start <= |s.arrived|
    requires t.offered == FleetJobs(d, s.conns[|s.conns| - 1].delivered)
    requires forall m | m in ConnectionStream(s) :: Understood(d, m) && Driving(d.stateOf(m).value)
    ensures forall key :: key in t.fleet.tracked.Keys <==>
              (var states := Reported(d, s, key);
               if states == [] then key in t.initially else states[|states| - 1] == Online)
    ensures forall f: string :: |IdsOn(t.fleet.broker.subs, f)|
              == SpecCount(t.fleet.topics, t.fleet.channels, t.fleet.started, t.fleet.tracked.Keys, f)
                 + |IdsOn(t.fleet.foreign, f)|
  {
    var stream := ConnectionStream(s);
    JobStates(stream, Effect(d));
    var full := JobsOf(stream, Effect(d));
    hide Reachable, Quiescent, HandleAll, JobsOf, OnKeys, Robust, StatesOf, ConnectionStream, Understood;
    forall key
      ensures Robust(key in t.initially, StatesOf(full, key))
      ensures key in HandleAll(t.initially, full) <==>
                (var states := StatesOf(full, key);
                 if states == [] then key in t.initially else states[|states| - 1] == Online)
    {
      DrivingIsRobust(t.initially, full, key);
    }
    TrackedIsWhatArrived(t, s, d);
    FleetFilters(t.fleet);
  }

  lemma FleetFilters(fleet: FleetSession)
    requires fleet.Valid()
    ensures forall f: string :: |IdsOn(fleet.broker.subs, f)|
              == SpecCount(fleet.topics, fleet.channels, fleet.started, fleet.tracked.Keys, f)
                 + |IdsOn(fleet.foreign, f)|
  {
    hide Established, IdsOn, SpecCount, GoodChannels, NoClash, BalancedFor;
    forall f: string
      ensures |IdsOn(fleet.broker.subs, f)|
              == SpecCount(fleet.topics, fleet.channels, fleet.started, fleet.tracked.Keys, f)
                 + |IdsOn(fleet.foreign, f)|
    {
      EstablishedCount(fleet.topics, fleet.channels, fleet.broker.subs, fleet.conn, fleet.tracked, fleet.foreign, f);
    }
  }
}
