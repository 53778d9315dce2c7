/**
 Connection states driving Track and Untrack (internal/session/fleet.go,
 HandleConnection; fleet_autotrack.go), and what coalescing may do to a stream
 of them. Coalescing keeps the meaning of a stream exactly under the condition
 of CoalescingExact, which the three states of VDA 5050 always meet.
 */
module AutoTrack {
  import opened Streams

  /** Other stands for any state the fleet ignores. */
  datatype ConnState = Online | Offline | ConnectionBroken | Other

  predicate Driving(st: ConnState) {
    !st.Other?
  }

  datatype Job = Job(key: string, state: ConnState)

  /** Whether one AGV is tracked after a state, given whether it was before; Track and Untrack are idempotent. */
  function Drive(tracked: bool, st: ConnState): bool {
    match st
    case Online => true
    case Offline => false
    case ConnectionBroken => false
    case Other => tracked
  }

  function DriveAll(tracked: bool, states: seq<ConnState>): bool {
    if states == [] then tracked else Drive(DriveAll(tracked, states[..|states| - 1]), states[|states| - 1])
  }

  /** HandleConnection on the tracked set, when no subscription fails. */
  function Handle(tracked: set<string>, job: Job): set<string> {
    match job.state
    case Online => tracked + {job.key}
    case Offline => tracked - {job.key}
    case ConnectionBroken => tracked - {job.key}
    case Other => tracked
  }

  function HandleAll(tracked: set<string>, jobs: seq<Job>): set<string> {
    if jobs == [] then tracked else Handle(HandleAll(tracked, jobs[..|jobs| - 1]), jobs[|jobs| - 1])
  }

  ghost function StatesOf(jobs: seq<Job>, key: string): seq<ConnState> {
    if jobs == [] then []
    else
      var r := StatesOf(jobs[..|jobs| - 1], key);
      if jobs[|jobs| - 1].key == key then r + [jobs[|jobs| - 1].state] else r
  }

  /** Whether an AGV ends up tracked depends on its own messages only. */
  lemma {:induction false} HandleAllIsLocal(tracked: set<string>, jobs: seq<Job>, key: string)
    ensures key in HandleAll(tracked, jobs) <==> DriveAll(key in tracked, StatesOf(jobs, key))
  {
    if jobs != [] {
      var init, last := jobs[..|jobs| - 1], jobs[|jobs| - 1];
      HandleAllIsLocal(tracked, init, key);
      if last.key == key {
        assert StatesOf(jobs, key)[..|StatesOf(init, key)|] == StatesOf(init, key);
      }
    }
  }

  // ---- One AGV ----------------------------------------------------------------------

  /** Coalescing cannot change the outcome: the last message decides, or no message says anything new. */
  ghost predicate Robust(tracked: bool, states: seq<ConnState>) {
    || states == []
    || Driving(states[|states| - 1])
    || forall st | st in states :: Drive(tracked, st) == tracked
  }

  lemma {:induction false} AgreeingStatesChangeNothing(tracked: bool, states: seq<ConnState>)
    requires forall st | st in states :: Drive(tracked, st) == tracked
    ensures DriveAll(tracked, states) == tracked
  {
    if states != [] {
      AgreeingStatesChangeNothing(tracked, states[..|states| - 1]);
    }
  }

  lemma RobustIsPreserved(tracked: bool, full: seq<ConnState>, got: seq<ConnState>)
    requires Robust(tracked, full) && Coalesced(full, got)
    ensures DriveAll(tracked, got) == DriveAll(tracked, full)
  {
    if full == [] {
      assert got == [];
    } else if Driving(full[|full| - 1]) {
    } else {
      forall st | st in got
        ensures st in full
      {
        SubsequenceElements(got, full, st);
      }
      AgreeingStatesChangeNothing(tracked, full);
      AgreeingStatesChangeNothing(tracked, got);
    }
  }

  /** A stream that is not robust has a coalescing that changes the outcome. */
  lemma FragileIsBroken(tracked: bool, full: seq<ConnState>) returns (got: seq<ConnState>)
    requires !Robust(tracked, full)
    ensures Coalesced(full, got) && DriveAll(tracked, got) != DriveAll(tracked, full)
  {
    var last := full[|full| - 1];
    if DriveAll(tracked, full) != tracked {
      got := [last];
      LastAlone(full);
      assert DriveAll(tracked, [last]) == Drive(DriveAll(tracked, []), last);
    } else {
      var st :| st in full && Drive(tracked, st) != tracked;
      var i :| 0 <= i < |full| && full[i] == st;
      got := [st, last];
      PickAndLast(full, i);
      assert [st, last][..1] == [st] && [st][..0] == [];
    }
  }

  /** Exactly when every coalescing of one AGV's states leads to the outcome of the full stream. */
  lemma CoalescingExact(tracked: bool, full: seq<ConnState>)
    ensures (forall got | Coalesced(full, got) :: DriveAll(tracked, got) == DriveAll(tracked, full))
            <==> Robust(tracked, full)
  {
    if Robust(tracked, full) {
      forall got | Coalesced(full, got)
        ensures DriveAll(tracked, got) == DriveAll(tracked, full)
      {
        RobustIsPreserved(tracked, full, got);
      }
    } else {
      var got := FragileIsBroken(tracked, full);
    }
  }

  // ---- All AGVs ----------------------------------------------------------------------

  /** The coalesced stream may also reorder messages of different AGVs. */
  ghost predicate CoalescedPerKey(full: seq<Job>, got: seq<Job>) {
    forall key :: Coalesced(StatesOf(full, key), StatesOf(got, key))
  }

  lemma CoalescingPreservesMeaning(tracked: set<string>, full: seq<Job>, got: seq<Job>)
    requires CoalescedPerKey(full, got)
    requires forall key :: Robust(key in tracked, StatesOf(full, key))
    ensures HandleAll(tracked, got) == HandleAll(tracked, full)
  {
    hide Coalesced, Robust;
    forall key
      ensures key in HandleAll(tracked, got) <==> key in HandleAll(tracked, full)
    {
      HandleAllIsLocal(tracked, got, key);
      HandleAllIsLocal(tracked, full, key);
      assert Coalesced(StatesOf(full, key), StatesOf(got, key));
      assert Robust(key in tracked, StatesOf(full, key));
      RobustIsPreserved(key in tracked, StatesOf(full, key), StatesOf(got, key));
    }
  }

  lemma {:induction false} StatesAreDriving(jobs: seq<Job>, key: string)
    requires forall j | j in jobs :: Driving(j.state)
    ensures forall st | st in StatesOf(jobs, key) :: Driving(st)
  {
    if jobs != [] {
      StatesAreDriving(jobs[..|jobs| - 1], key);
    }
  }

  lemma DrivingIsRobust(tracked: set<string>, jobs: seq<Job>, key: string)
    requires forall j | j in jobs :: Driving(j.state)
    ensures var states := StatesOf(jobs, key);
            && Robust(key in tracked, states)
            && (key in HandleAll(tracked, jobs) <==>
                  if states == [] then key in tracked else states[|states| - 1] == Online)
  {
    StatesAreDriving(jobs, key);
    HandleAllIsLocal(tracked, jobs, key);
  }

  /**
   For the states of the protocol the tracked AGVs are, after the full stream and
   after any coalescing of it, exactly those whose last message was ONLINE, and
   the untouched ones that were tracked before.
   */
  lemma ProtocolStatesKeepMeaning(tracked: set<string>, full: seq<Job>, got: seq<Job>)
    requires CoalescedPerKey(full, got) && forall j | j in full :: Driving(j.state)
    ensures HandleAll(tracked, got) == HandleAll(tracked, full)
    ensures forall key :: key in HandleAll(tracked, got) <==>
              (var states := StatesOf(full, key);
               if states == [] then key in tracked else states[|states| - 1] == Online)
  {
    hide CoalescedPerKey, Robust, HandleAll;
    forall key
      ensures Robust(key in tracked, StatesOf(full, key))
      ensures key in HandleAll(tracked, full) <==>
                (var states := StatesOf(full, key);
                 if states == [] then key in tracked else states[|states| - 1] == Online)
    {
      DrivingIsRobust(tracked, full, key);
    }
    CoalescingPreservesMeaning(tracked, full, got);
  }
}
