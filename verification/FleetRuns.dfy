/**
 Two runs of the concurrent fleet session, step by step: two Tracks of one AGV
 that leave it tracked without its filter on a broker that unsubscribes by
 filter, and a Restore that wins over an Untrack that has returned.
 */
module FleetRuns {
  import opened Topics
  import opened Subscriptions
  import opened FleetProtocol
  import opened FleetTheorems
  import opened FleetByFilter

  /** A fleet with the state channel only, and nothing lost. */
  ghost function At(topics: Resolver, conn: Option<nat>, tracked: map<string, Entry>, lock: Option<nat>,
                    threads: seq<Thread>, nextID: nat, filterOf: map<nat, string>, live: set<nat>,
                    owner: map<nat, Owner>): Fleet {
    Fleet(topics, [STATE], conn, conn.Some?, tracked, lock, threads, nextID, filterOf, live, owner, {})
  }

  /** st leads from f to f' and the by-filter broker from filters to filters'. */
  ghost predicate OneStep(f: Fleet, filters: set<string>, st: Step, f': Fleet, filters': set<string>) {
    Enabled(f, st) && Apply(f, st) == f' && Follow(f, filters, st) == filters'
  }

  lemma Then(f: Fleet, filters: set<string>, steps: seq<Step>, mid: Fleet, had: set<string>, st: Step,
             f': Fleet, filters': set<string>)
    requires RunsBoth(f, filters, steps, mid, had) && OneStep(mid, had, st, f', filters')
    ensures RunsBoth(f, filters, steps + [st], f', filters')
  {
    hide RunsBoth;
    BothSnoc(f, filters, steps, mid, had, st);
  }

  lemma Started(topics: Resolver)
    ensures Init(topics, true, false) == At(topics, None, map[], None, [], 1, map[], {}, map[])
    ensures RunsBoth(Init(topics, true, false), {}, [], Init(topics, true, false), {})
  {
    assert Channels(true, false) == [STATE];
  }

  lemma SpawnOne(topics: Resolver, conn: Option<nat>, tracked: map<string, Entry>, threads: seq<Thread>, nextID: nat,
                 filterOf: map<nat, string>, live: set<nat>, owner: map<nat, Owner>, filters: set<string>, call: Call)
    ensures OneStep(At(topics, conn, tracked, None, threads, nextID, filterOf, live, owner), filters, Spawn(call),
                    At(topics, conn, tracked, None, threads + [Thread(Ready, [call])], nextID, filterOf, live, owner),
                    filters)
  {
    var f := At(topics, conn, tracked, None, threads, nextID, filterOf, live, owner);
    assert FiltersOf(f, {}) == {};
  }

  /** Track of an AGV that is not tracked, in thread t. */
  lemma BeginTrack(f: Fleet, filters: set<string>, t: nat, order: seq<string>)
    requires Enabled(f, Begin(t, true, order)) && f.threads[t].todo[0].TrackCall?
    requires f.threads[t].todo[0].agv.Key() !in f.tracked
    ensures var c := f.threads[t].todo[0];
            OneStep(f, filters, Begin(t, true, order),
                    SetThread(f, t, Thread(Subscribing(c.agv, c.notify, []), f.threads[t].todo[1..])), filters)
  {
    hide AGV.Key;
    assert FiltersOf(f, {}) == {};
  }

  lemma SubscribeState(f: Fleet, filters: set<string>, t: nat)
    requires t < |f.threads| && f.threads[t].frame.Subscribing? && f.threads[t].frame.ids == [] && f.channels == [STATE]
    ensures var frame := f.threads[t].frame;
            var filter := f.topics.Build(frame.agv.manufacturer, frame.agv.serialNumber, STATE);
            var next := Thread(Subscribing(frame.agv, frame.notify, [f.nextID]), f.threads[t].todo);
            OneStep(f, filters, Subscribe(t, true), NewSubscription(SetThread(f, t, next), filter, ByThread(t)),
                    filters + {filter})
  {
    assert [] + [f.nextID] == [f.nextID];
    assert FiltersOf(f, {}) == {};
    hide Resolver.Build;
  }

  /**
   Two Tracks of one AGV overlap: both see it untracked, both subscribe its state filter, the second to commit
   rolls its own subscription back, and with it, by filter, the other's. The AGV is tracked and every call has
   returned, but the broker has no filter left.
   */
  lemma TwoTracksLoseFilter(topics: Resolver, agv: AGV) returns (steps: seq<Step>, f: Fleet)
    ensures RunsBoth(Init(topics, true, false), {}, steps, f, {})
    ensures Quiescent(f) && f.dropped == {} && f.tracked.Keys == {agv.Key()}
    ensures SpecCount(topics, f.channels, f.started, f.tracked.Keys,
                      topics.Build(agv.manufacturer, agv.serialNumber, STATE)) == 1
  {
    var filter, k, c := topics.Build(agv.manufacturer, agv.serialNumber, STATE), agv.Key(), TrackCall(agv, true);
    hide RunsBoth, OneStep, Resolver.Build, AGV.Key, SpecCount;
    var mid;
    steps, mid := TwoHaveSubscribed(topics, agv);
    var init := Init(topics, true, false);
    var e := Entry(agv, [1]);
    var f1 := At(topics, None, map[k := e], None, [Thread(Ready, []), Thread(Subscribing(agv, true, [2]), [])], 3,
                 map[1 := filter, 2 := filter], {1, 2}, map[1 := ByEntry(k), 2 := ByThread(1)]);
    var f2 := At(topics, None, map[k := e], None, [Thread(Ready, []), Thread(Removing([2]), [])], 3,
                 map[1 := filter, 2 := filter], {1, 2}, map[1 := ByEntry(k), 2 := ByThread(1)]);
    var f3 := At(topics, None, map[k := e], None, [Thread(Ready, []), Thread(Removing([]), [])], 3,
                 map[1 := filter, 2 := filter], {1}, map[1 := ByEntry(k)]);
    f := At(topics, None, map[k := e], None, [Thread(Ready, []), Thread(Ready, [])], 3,
            map[1 := filter, 2 := filter], {1}, map[1 := ByEntry(k)]);
    CommitFirst(mid, f1, agv, filter);
    CommitSecond(f1, f2, filter);
    RollBackSecond(f2, f3, filter);
    ReturnSecond(f3, f);
    SpecOne(topics, agv);
    Then(init, {}, steps, mid, {filter}, Commit(0), f1, {filter});
    Then(init, {}, steps + [Commit(0)], f1, {filter}, Commit(1), f2, {filter});
    Then(init, {}, steps + [Commit(0)] + [Commit(1)], f2, {filter}, Unsubscribe(1), f3, {});
    Then(init, {}, steps + [Commit(0)] + [Commit(1)] + [Unsubscribe(1)], f3, {}, Return(1), f, {});
    steps := steps + [Commit(0)] + [Commit(1)] + [Unsubscribe(1)] + [Return(1)];
  }

  lemma SpecOne(topics: Resolver, agv: AGV)
    ensures SpecCount(topics, [STATE], false, {agv.Key()}, topics.Build(agv.manufacturer, agv.serialNumber, STATE)) == 1
  {
    BuildByKey(topics, agv, STATE);
    assert STATE in [STATE];
  }

  lemma CommitFirst(f: Fleet, f': Fleet, agv: AGV, filter: string)
    requires f == At(f.topics, None, map[], None,
                     [Thread(Subscribing(agv, true, [1]), []), Thread(Subscribing(agv, true, [2]), [])], 3,
                     map[1 := filter, 2 := filter], {1, 2}, map[1 := ByThread(0), 2 := ByThread(1)])
    requires f' == At(f.topics, None, map[agv.Key() := Entry(agv, [1])], None,
                      [Thread(Ready, []), Thread(Subscribing(agv, true, [2]), [])], 3,
                      map[1 := filter, 2 := filter], {1, 2}, map[1 := ByEntry(agv.Key()), 2 := ByThread(1)])
    ensures OneStep(f, {filter}, Commit(0), f', {filter})
  {
    hide AGV.Key;
    assert FiltersOf(f, {}) == {};
    assert Hand(f.owner, [1], ByEntry(agv.Key())) == f'.owner;
  }

  lemma CommitSecond(f: Fleet, f': Fleet, filter: string)
    requires |f.threads| == 2 && f.threads[1].frame.Subscribing? && f.threads[1].frame.ids == [2]
             && f.threads[1].todo == []
    requires f.threads[1].frame.agv.Key() in f.tracked && f.channels == [STATE] && f.lock.None?
    requires f' == f.(threads := [f.threads[0], Thread(Removing([2]), [])])
    ensures OneStep(f, {filter}, Commit(1), f', {filter})
  {
    hide AGV.Key;
    assert FiltersOf(f, {}) == {};
    assert f.threads[1 := Thread(Removing([2]), [])] == f'.threads;
  }

  lemma RollBackSecond(f: Fleet, f': Fleet, filter: string)
    requires |f.threads| == 2 && f.threads[1] == Thread(Removing([2]), []) && 2 in f.filterOf && f.filterOf[2] == filter
    requires f.dropped == {}
    requires f' == f.(threads := [f.threads[0], Thread(Removing([]), [])], live := f.live - {2}, owner := f.owner - {2})
    ensures OneStep(f, {filter}, Unsubscribe(1), f', {})
  {
    assert FiltersOf(f, {2}) == {filter};
    assert [2][..0] == [] && f.threads[1 := Thread(Removing([]), [])] == f'.threads;
    assert f.dropped - {2} == {};
  }

  lemma ReturnSecond(f: Fleet, f': Fleet)
    requires |f.threads| == 2 && f.threads[1] == Thread(Removing([]), [])
    requires f' == f.(threads := [f.threads[0], Thread(Ready, [])])
    ensures OneStep(f, {}, Return(1), f', {})
  {
    assert FiltersOf(f, {}) == {};
    assert f.threads[1 := Thread(Ready, [])] == f'.threads;
  }

  /** Both Tracks have begun and subscribed. */
  lemma TwoHaveSubscribed(topics: Resolver, agv: AGV) returns (steps: seq<Step>, f: Fleet)
    ensures var filter := topics.Build(agv.manufacturer, agv.serialNumber, STATE);
            && RunsBoth(Init(topics, true, false), {}, steps, f, {filter})
            && f == At(topics, None, map[], None,
                       [Thread(Subscribing(agv, true, [1]), []), Thread(Subscribing(agv, true, [2]), [])], 3,
                       map[1 := filter, 2 := filter], {1, 2}, map[1 := ByThread(0), 2 := ByThread(1)])
  {
    var filter, c := topics.Build(agv.manufacturer, agv.serialNumber, STATE), TrackCall(agv, true);
    var init := Init(topics, true, false);
    Started(topics);
    hide RunsBoth, Resolver.Build, AGV.Key;
    var todo, busy := Thread(Ready, [c]), Thread(Subscribing(agv, true, []), []);
    var f1 := At(topics, None, map[], None, [todo], 1, map[], {}, map[]);
    var f2 := At(topics, None, map[], None, [todo, todo], 1, map[], {}, map[]);
    var f3 := At(topics, None, map[], None, [busy, todo], 1, map[], {}, map[]);
    var f4 := At(topics, None, map[], None, [busy, busy], 1, map[], {}, map[]);
    var one, two := Thread(Subscribing(agv, true, [1]), []), Thread(Subscribing(agv, true, [2]), []);
    var f5 := At(topics, None, map[], None, [one, busy], 2, map[1 := filter], {1}, map[1 := ByThread(0)]);
    f := At(topics, None, map[], None, [one, two], 3, map[1 := filter, 2 := filter], {1, 2},
            map[1 := ByThread(0), 2 := ByThread(1)]);
    SpawnOne(topics, None, map[], [], 1, map[], {}, map[], {}, c);
    SpawnOne(topics, None, map[], [todo], 1, map[], {}, map[], {}, c);
    BeginTrack(f2, {}, 0, []);
    BeginTrack(f3, {}, 1, []);
    SubscribeState(f4, {}, 0);
    SubscribeState(f5, {filter}, 1);
    hide OneStep;
    assert [] + [todo] == [todo] && [todo] + [todo] == [todo, todo];
    Then(init, {}, [], init, {}, Spawn(c), f1, {});
    Then(init, {}, [] + [Spawn(c)], f1, {}, Spawn(c), f2, {});
    steps := [] + [Spawn(c)] + [Spawn(c)];
    assert [c][1..] == [];
    assert [todo, todo][0 := busy] == [busy, todo] && [busy, todo][1 := busy] == [busy, busy];
    Then(init, {}, steps, f2, {}, Begin(0, true, []), f3, {});
    Then(init, {}, steps + [Begin(0, true, [])], f3, {}, Begin(1, true, []), f4, {});
    steps := steps + [Begin(0, true, [])] + [Begin(1, true, [])];
    assert [busy, busy][0 := one] == [one, busy] && [one, busy][1 := two] == [one, two];
    assert {} + {filter} == {filter} && {filter} + {filter} == {filter};
    Then(init, {}, steps, f4, {}, Subscribe(0, true), f5, {filter});
    Then(init, {}, steps + [Subscribe(0, true)], f5, {filter}, Subscribe(1, true), f, {filter});
    steps := steps + [Subscribe(0, true)] + [Subscribe(1, true)];
  }

  // ---- Restore against Untrack --------------------------------------------------------------

  /** The AGV is tracked by one call, and a Restore has cleared everything and let go of the lock. */
  lemma RestoreHasCleared(topics: Resolver, agv: AGV) returns (steps: seq<Step>, f: Fleet)
    ensures var filter := topics.Build(agv.manufacturer, agv.serialNumber, STATE);
            && RunsBoth(Init(topics, true, false), {}, steps, f, {})
            && f == At(topics, None, map[], None,
                       [Thread(Ready, []), Thread(Ready, [StartCall, TrackCall(agv, false)])], 2, map[1 := filter],
                       {}, map[])
  {
    var filter, k, c := topics.Build(agv.manufacturer, agv.serialNumber, STATE), agv.Key(), TrackCall(agv, true);
    var init := Init(topics, true, false);
    Started(topics);
    hide RunsBoth, Resolver.Build, AGV.Key;
    var todo, busy, one, idle := Thread(Ready, [c]), Thread(Subscribing(agv, true, []), []),
                                 Thread(Subscribing(agv, true, [1]), []), Thread(Ready, []);
    var f1 := At(topics, None, map[], None, [todo], 1, map[], {}, map[]);
    var f2 := At(topics, None, map[], None, [busy], 1, map[], {}, map[]);
    var f3 := At(topics, None, map[], None, [one], 2, map[1 := filter], {1}, map[1 := ByThread(0)]);
    SpawnOne(topics, None, map[], [], 1, map[], {}, map[], {}, c);
    BeginTrack(f1, {}, 0, []);
    SubscribeState(f2, {}, 0);
    var more;
    more, f := ClearedFrom(topics, agv, f3);
    hide OneStep;
    assert [] + [todo] == [todo] && [c][1..] == [] && [todo][0 := busy] == [busy] && [busy][0 := one] == [one];
    assert {} + {filter} == {filter};
    Then(init, {}, [], init, {}, Spawn(c), f1, {});
    Then(init, {}, [] + [Spawn(c)], f1, {}, Begin(0, true, []), f2, {});
    Then(init, {}, [] + [Spawn(c)] + [Begin(0, true, [])], f2, {}, Subscribe(0, true), f3, {filter});
    steps := [] + [Spawn(c)] + [Begin(0, true, [])] + [Subscribe(0, true)];
    BothConcat(init, {}, steps, f3, {filter}, more, f, {});
    steps := steps + more;
  }

  lemma ClearedFrom(topics: Resolver, agv: AGV, f: Fleet) returns (steps: seq<Step>, f': Fleet)
    requires f == At(topics, None, map[], None, [Thread(Subscribing(agv, true, [1]), [])], 2,
                     map[1 := topics.Build(agv.manufacturer, agv.serialNumber, STATE)], {1}, map[1 := ByThread(0)])
    ensures var filter := topics.Build(agv.manufacturer, agv.serialNumber, STATE);
            && RunsBoth(f, {filter}, steps, f', {})
            && f' == At(topics, None, map[], None,
                        [Thread(Ready, []), Thread(Ready, [StartCall, TrackCall(agv, false)])], 2, map[1 := filter],
                        {}, map[])
  {
    var filter, k := topics.Build(agv.manufacturer, agv.serialNumber, STATE), agv.Key();
    hide Resolver.Build, AGV.Key;
    var idle, wait, e := Thread(Ready, []), Thread(Ready, [RestoreCall]), Entry(agv, [1]);
    var g1 := At(topics, None, map[k := e], None, [idle], 2, map[1 := filter], {1}, map[1 := ByEntry(k)]);
    var g2 := At(topics, None, map[k := e], None, [idle, wait], 2, map[1 := filter], {1}, map[1 := ByEntry(k)]);
    var g3 := At(topics, None, map[], Some(1), [idle, Thread(Clearing([agv], [1]), [])], 2, map[1 := filter], {1},
                 map[1 := ByThread(1)]);
    var g4 := At(topics, None, map[], Some(1), [idle, Thread(Clearing([agv], []), [])], 2, map[1 := filter], {}, map[]);
    f' := At(topics, None, map[], None, [idle, Thread(Ready, [StartCall, TrackCall(agv, false)])], 2,
             map[1 := filter], {}, map[]);
    CommitAlone(f, g1, agv, filter);
    SpawnOne(topics, None, map[k := e], [idle], 2, map[1 := filter], {1}, map[1 := ByEntry(k)], {filter}, RestoreCall);
    BeginRestoring(g2, g3, agv, filter);
    ClearOnly(g3, g4, filter);
    ClearingEnds(g4, f', agv);
    hide OneStep, RunsBoth;
    assert [idle] + [wait] == [idle, wait];
    NoSteps(f, {filter});
    Then(f, {filter}, [], f, {filter}, Commit(0), g1, {filter});
    Then(f, {filter}, [] + [Commit(0)], g1, {filter}, Spawn(RestoreCall), g2, {filter});
    steps := [] + [Commit(0)] + [Spawn(RestoreCall)];
    Then(f, {filter}, steps, g2, {filter}, Begin(1, true, [k]), g3, {filter});
    Then(f, {filter}, steps + [Begin(1, true, [k])], g3, {filter}, ClearOne(1), g4, {});
    steps := steps + [Begin(1, true, [k])] + [ClearOne(1)];
    Then(f, {filter}, steps, g4, {}, ClearEnd(1), f', {});
    steps := steps + [ClearEnd(1)];
  }

  lemma NoSteps(f: Fleet, filters: set<string>)
    ensures RunsBoth(f, filters, [], f, filters)
  {
  }

  lemma CommitAlone(f: Fleet, f': Fleet, agv: AGV, filter: string)
    requires f == At(f.topics, None, map[], None, [Thread(Subscribing(agv, true, [1]), [])], 2, map[1 := filter], {1},
                     map[1 := ByThread(0)])
    requires f' == At(f.topics, None, map[agv.Key() := Entry(agv, [1])], None, [Thread(Ready, [])], 2,
                      map[1 := filter], {1}, map[1 := ByEntry(agv.Key())])
    ensures OneStep(f, {filter}, Commit(0), f', {filter})
  {
    hide AGV.Key;
    assert FiltersOf(f, {}) == {};
    assert Hand(f.owner, [1], ByEntry(agv.Key())) == f'.owner;
  }

  lemma BeginRestoring(f: Fleet, f': Fleet, agv: AGV, filter: string)
    requires f == At(f.topics, None, map[agv.Key() := Entry(agv, [1])], None,
                     [Thread(Ready, []), Thread(Ready, [RestoreCall])], 2,
                     map[1 := filter], {1}, map[1 := ByEntry(agv.Key())])
    requires f' == At(f.topics, None, map[], Some(1), [Thread(Ready, []), Thread(Clearing([agv], [1]), [])], 2,
                      map[1 := filter], {1}, map[1 := ByThread(1)])
    ensures OneStep(f, {filter}, Begin(1, true, [agv.Key()]), f', {filter})
  {
    var k := agv.Key();
    hide AGV.Key;
    assert FiltersOf(f, {}) == {};
    assert AgvsOf(f.tracked, [k]) == [agv];
    assert [k][..0] == [];
    assert IdsOf(f.tracked, []) == [];
    assert IdsOf(f.tracked, [k]) == [1];
    assert [1] + ConnSeq(f.conn) == [1];
    assert Hand(f.owner, [1], ByThread(1)) == f'.owner;
    assert [RestoreCall][1..] == [];
    assert Enumerates([k], f.tracked.Keys);
  }

  lemma ClearOnly(f: Fleet, f': Fleet, filter: string)
    requires |f.threads| == 2 && f.threads[1].frame.Clearing? && f.threads[1].frame.ids == [1]
             && f.threads[1].todo == []
    requires 1 in f.filterOf && f.filterOf[1] == filter && f.dropped == {} && f.live == {1} && f.owner.Keys == {1}
    requires f' == f.(threads := [f.threads[0], Thread(Clearing(f.threads[1].frame.agvs, []), [])], live := {},
                      owner := map[])
    ensures OneStep(f, {filter}, ClearOne(1), f', {})
  {
    assert FiltersOf(f, {1}) == {filter};
    assert [1][1..] == [] && f.threads[1 := Thread(Clearing(f.threads[1].frame.agvs, []), [])] == f'.threads;
    assert f.owner - {1} == map[] && f.dropped - {1} == {};
  }

  lemma ClearingEnds(f: Fleet, f': Fleet, agv: AGV)
    requires |f.threads| == 2 && f.threads[1] == Thread(Clearing([agv], []), []) && f.lock == Some(1)
    requires f' == f.(threads := [f.threads[0], Thread(Ready, [StartCall, TrackCall(agv, false)])], lock := None)
    ensures OneStep(f, {}, ClearEnd(1), f', {})
  {
    assert FiltersOf(f, {}) == {};
    assert TrackCalls([agv]) == [TrackCall(agv, false)];
    assert [StartCall] + TrackCalls([agv]) + [] == [StartCall, TrackCall(agv, false)];
    assert f.threads[1 := Thread(Ready, [StartCall, TrackCall(agv, false)])] == f'.threads;
  }

  /**
   An Untrack that begins after a Restore has cleared the map finds nothing to do and returns, and the Restore
   tracks the AGV again from its snapshot: when all calls have returned it is tracked and subscribed.
   */
  lemma RestoreBeatsUntrack(topics: Resolver, agv: AGV) returns (steps: seq<Step>, f: Fleet, filters: set<string>)
    ensures RunsBoth(Init(topics, true, false), {}, steps, f, filters)
    ensures Quiescent(f) && |f.threads| == 3 && Spawn(UntrackCall(agv)) in steps
    ensures agv.Key() in f.tracked && topics.Build(agv.manufacturer, agv.serialNumber, STATE) in filters
  {
    var more, mid;
    steps, mid := RestoreHasCleared(topics, agv);
    more, f, filters := UntrackInVain(topics, agv, mid);
    hide RunsBoth, Resolver.Build, AGV.Key;
    BothConcat(Init(topics, true, false), {}, steps, mid, {}, more, f, filters);
    steps := steps + more;
  }

  lemma UntrackInVain(topics: Resolver, agv: AGV, f: Fleet) returns (steps: seq<Step>, f': Fleet, filters': set<string>)
    requires f == At(topics, None, map[], None,
                     [Thread(Ready, []), Thread(Ready, [StartCall, TrackCall(agv, false)])], 2,
                     map[1 := topics.Build(agv.manufacturer, agv.serialNumber, STATE)], {}, map[])
    ensures RunsBoth(f, {}, steps, f', filters') && Quiescent(f') && |f'.threads| == 3
            && Spawn(UntrackCall(agv)) in steps
    ensures agv.Key() in f'.tracked && topics.Build(agv.manufacturer, agv.serialNumber, STATE) in filters'
  {
    var filter, wildcard := topics.Build(agv.manufacturer, agv.serialNumber, STATE), topics.Wildcard(CONNECTION);
    hide Resolver.Build, AGV.Key, Resolver.Wildcard, RunsBoth, Quiescent;
    var idle, u, c := Thread(Ready, []), UntrackCall(agv), TrackCall(agv, false);
    var r := Thread(Ready, [StartCall, c]);
    var filterOf := map[1 := filter];
    var g1 := At(topics, None, map[], None, [idle, r, Thread(Ready, [u])], 2, filterOf, {}, map[]);
    var g2 := At(topics, None, map[], None, [idle, r, idle], 2, filterOf, {}, map[]);
    var g3 := At(topics, Some(2), map[], None, [idle, Thread(Ready, [c]), idle], 3, filterOf[2 := wildcard], {2},
                 map[2 := ByConnection]);
    SpawnOne(topics, None, map[], [idle, r], 2, filterOf, {}, map[], {}, u);
    UntrackNothing(g1, g2, agv);
    StartsAgain(g2, g3, c, wildcard);
    var more;
    more, f', filters' := TracksAgain(topics, agv, g3, filter, wildcard);
    hide OneStep;
    assert [idle, r] + [Thread(Ready, [u])] == [idle, r, Thread(Ready, [u])];
    NoSteps(f, {});
    Then(f, {}, [], f, {}, Spawn(u), g1, {});
    Then(f, {}, [] + [Spawn(u)], g1, {}, Begin(2, true, []), g2, {});
    steps := [] + [Spawn(u)] + [Begin(2, true, [])];
    Then(f, {}, steps, g2, {}, Begin(1, true, []), g3, {wildcard});
    steps := steps + [Begin(1, true, [])];
    BothConcat(f, {}, steps, g3, {wildcard}, more, f', filters');
    steps := steps + more;
  }

  lemma TracksAgain(topics: Resolver, agv: AGV, f: Fleet, filter: string, wildcard: string)
    returns (steps: seq<Step>, f': Fleet, filters': set<string>)
    requires filter == topics.Build(agv.manufacturer, agv.serialNumber, STATE)
    requires f == At(topics, Some(2), map[], None,
                     [Thread(Ready, []), Thread(Ready, [TrackCall(agv, false)]), Thread(Ready, [])], 3,
                     map[1 := filter, 2 := wildcard], {2}, map[2 := ByConnection])
    ensures RunsBoth(f, {wildcard}, steps, f', filters') && Quiescent(f') && |f'.threads| == 3
    ensures agv.Key() in f'.tracked && filter in filters'
  {
    hide Resolver.Build, AGV.Key;
    var idle, c := Thread(Ready, []), TrackCall(agv, false);
    var filterOf := map[1 := filter, 2 := wildcard];
    var g1 := At(topics, Some(2), map[], None, [idle, Thread(Subscribing(agv, false, []), []), idle], 3, filterOf, {2},
                 map[2 := ByConnection]);
    var g2 := At(topics, Some(2), map[], None, [idle, Thread(Subscribing(agv, false, [3]), []), idle], 4,
                 filterOf[3 := filter], {2, 3}, map[2 := ByConnection, 3 := ByThread(1)]);
    f' := At(topics, Some(2), map[agv.Key() := Entry(agv, [3])], None, [idle, idle, idle], 4, filterOf[3 := filter],
             {2, 3}, map[2 := ByConnection, 3 := ByEntry(agv.Key())]);
    filters' := {wildcard} + {filter};
    EmptyOrder(f);
    BeginTrack(f, {wildcard}, 1, []);
    SubscribeState(g1, {wildcard}, 1);
    CommitRestored(g2, f', agv, filters');
    hide OneStep, RunsBoth;
    assert [c][1..] == [];
    NoSteps(f, {wildcard});
    assert f.threads[1 := Thread(Subscribing(agv, false, []), [])] == g1.threads;
    Then(f, {wildcard}, [], f, {wildcard}, Begin(1, true, []), g1, {wildcard});
    assert g1.threads[1 := Thread(Subscribing(agv, false, [3]), [])] == g2.threads;
    assert {2} + {3} == {2, 3};
    steps := [] + [Begin(1, true, [])];
    Then(f, {wildcard}, steps, g1, {wildcard}, Subscribe(1, true), g2, filters');
    Then(f, {wildcard}, steps + [Subscribe(1, true)], g2, filters', Commit(1), f', filters');
    steps := steps + [Subscribe(1, true)] + [Commit(1)];
  }

  lemma EmptyOrder(f: Fleet)
    requires f.tracked == map[]
    ensures Enumerates([], f.tracked.Keys)
  {
  }

  lemma UntrackNothing(f: Fleet, f': Fleet, agv: AGV)
    requires |f.threads| == 3 && f.threads[2] == Thread(Ready, [UntrackCall(agv)]) && f.tracked == map[] && f.lock.None?
    requires f' == f.(threads := [f.threads[0], f.threads[1], Thread(Ready, [])])
    ensures OneStep(f, {}, Begin(2, true, []), f', {})
  {
    hide AGV.Key;
    assert FiltersOf(f, {}) == {};
    assert [UntrackCall(agv)][1..] == [] && f.threads[2 := Thread(Ready, [])] == f'.threads;
    assert Enumerates([], f.tracked.Keys);
  }

  lemma StartsAgain(f: Fleet, f': Fleet, c: Call, wildcard: string)
    requires |f.threads| == 3 && f.threads[1] == Thread(Ready, [StartCall, c]) && f.tracked == map[] && f.lock.None?
    requires !f.started && f.topics.Wildcard(CONNECTION) == wildcard && f.nextID == 2 && f.live == {}
             && f.owner == map[]
    requires f' == f.(threads := [f.threads[0], Thread(Ready, [c]), f.threads[2]], conn := Some(2), started := true,
                      nextID := 3, filterOf := f.filterOf[2 := wildcard], live := {2}, owner := map[2 := ByConnection])
    ensures OneStep(f, {}, Begin(1, true, []), f', {wildcard})
  {
    hide Resolver.Wildcard;
    assert FiltersOf(f, {}) == {};
    assert [StartCall, c][1..] == [c] && f.threads[1 := Thread(Ready, [c])] == f'.threads;
    assert Enumerates([], f.tracked.Keys);
  }

  lemma CommitRestored(f: Fleet, f': Fleet, agv: AGV, filters: set<string>)
    requires |f.threads| == 3 && f.threads[1] == Thread(Subscribing(agv, false, [3]), []) && f.channels == [STATE]
    requires f.tracked == map[] && f.lock.None? && f.owner == map[2 := ByConnection, 3 := ByThread(1)]
    requires f' == f.(threads := [f.threads[0], Thread(Ready, []), f.threads[2]],
                      tracked := map[agv.Key() := Entry(agv, [3])],
                      owner := map[2 := ByConnection, 3 := ByEntry(agv.Key())])
    ensures OneStep(f, filters, Commit(1), f', filters)
  {
    hide AGV.Key;
    assert FiltersOf(f, {}) == {};
    assert f.threads[1 := Thread(Ready, [])] == f'.threads;
    assert Hand(f.owner, [3], ByEntry(agv.Key())) == f'.owner;
  }
}
