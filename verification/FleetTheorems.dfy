/**
 What the fleet session promises under concurrency: every subscription has
 exactly one owner at any moment, none is leaked, the connection wildcard is
 never subscribed twice, and once all calls have returned the live filters are
 exactly the specified ones.
 */
module FleetTheorems {
  import opened Streams
  import opened Topics
  import opened Subscriptions
  import opened Reception
  import opened FleetProtocol
  import opened FleetSteps

  /** Who holds an id, read off the session itself. */
  ghost predicate HeldBy(f: Fleet, id: nat, o: Owner) {
    match o
    case ByConnection => f.conn == Some(id)
    case ByEntry(k) => k in f.tracked && id in f.tracked[k].ids
    case ByThread(t) => t < |f.threads| && id in Held(f.threads[t])
  }

  lemma OwnerHolds(f: Fleet, id: nat, o: Owner)
    requires Inv(f)
    ensures HeldBy(f, id, o) <==> id in f.owner && f.owner[id] == o
  {
    hide BrokerInv, LockInv, GoodChannels, EntryOk;
    match o
    case ByConnection => OwnedOnly(f.owner, o, ConnSeq(f.conn));
    case ByEntry(k) =>
      if k in f.tracked {
        OwnedOnly(f.owner, o, f.tracked[k].ids);
      }
    case ByThread(t) =>
      if t < |f.threads| {
        assert ThreadOk(f.topics, f.channels, f.filterOf, f.owner, t, f.threads[t]);
        OwnedOnly(f.owner, o, Held(f.threads[t]));
      }
  }

  lemma LiveIsOwned(f: Fleet, id: nat)
    requires Inv(f)
    ensures id in f.live <==> id in f.owner && id !in f.dropped
  {
  }

  /**
   Linear ownership, in every reachable state: a live subscription is held by
   the session's connection slot, by one tracked entry or by one call in
   flight, by only one of them, and nothing that is held has been lost but by
   the broker itself.
   */
  lemma LinearOwnership(f: Fleet, id: nat)
    requires Reachable(f)
    ensures id in f.live ==> exists o :: HeldBy(f, id, o)
    ensures forall o, p | HeldBy(f, id, o) && HeldBy(f, id, p) :: o == p
    ensures forall o | HeldBy(f, id, o) :: id in f.live || id in f.dropped
  {
    hide Reachable, Inv, HeldBy;
    ReachableInv(f);
    LiveIsOwned(f, id);
    if id in f.owner {
      OwnerHolds(f, id, f.owner[id]);
    }
    forall o, p | HeldBy(f, id, o) && HeldBy(f, id, p)
      ensures o == p
    {
      OwnerHolds(f, id, o);
      OwnerHolds(f, id, p);
    }
    forall o | HeldBy(f, id, o)
      ensures id in f.live || id in f.dropped
    {
      OwnerHolds(f, id, o);
    }
  }

  // ---- Quiescence ---------------------------------------------------------------------

  /** Every call has returned. */
  ghost predicate Quiescent(f: Fleet) {
    forall t | 0 <= t < |f.threads| :: f.threads[t] == Thread(Ready, [])
  }

  ghost function Subs(f: Fleet): map<nat, string>
    requires forall id | id in f.live :: id in f.filterOf
  {
    map id | id in f.live :: f.filterOf[id]
  }

  lemma LiveHasFilter(f: Fleet)
    requires Inv(f)
    ensures forall id | id in f.live :: id in f.filterOf
  {
  }

  /** Every subscription that somebody answers for, whether or not the broker still has it. */
  ghost function Claimed(f: Fleet): map<nat, string>
    requires forall id | id in f.owner :: id in f.filterOf
  {
    map id | id in f.owner :: f.filterOf[id]
  }

  lemma QuiescentEstablished(f: Fleet)
    requires Inv(f) && Quiescent(f)
    ensures forall id | id in f.owner :: id in f.filterOf
    ensures Established(f.topics, f.channels, Claimed(f), f.conn, f.tracked, map[])
  {
    assert forall id | id in f.owner :: id in f.filterOf by { hide EntryInv, ThreadInv, LockInv; }
    var subs := Claimed(f);
    hide Inv, HeldBy, EntryOk, EntryInv, ConnInv;
    forall k | k in f.tracked
      ensures EntryOk(f.topics, f.channels, subs, k, f.tracked[k])
    {
      EntryIsClaimed(f, k);
    }
    ConnIsClaimed(f);
    forall id | id in subs
      ensures f.conn == Some(id) || exists k :: k in f.tracked && id in f.tracked[k].ids
    {
      QuiescentOwner(f, id);
    }
    forall k, l | k in f.tracked && l in f.tracked && k != l
      ensures forall id | id in f.tracked[k].ids :: id !in f.tracked[l].ids
    {
      EntriesApart(f, k, l);
    }
  }

  lemma EntryIsClaimed(f: Fleet, k: string)
    requires Inv(f) && k in f.tracked
    requires forall id | id in f.owner :: id in f.filterOf
    ensures EntryOk(f.topics, f.channels, Claimed(f), k, f.tracked[k])
    ensures forall id | id in f.tracked[k].ids :: f.conn != Some(id)
  {
    hide LockInv, ThreadInv, GoodChannels, BrokerInv;
    OwnedOnly(f.owner, ByEntry(k), f.tracked[k].ids);
    OwnedOnly(f.owner, ByConnection, ConnSeq(f.conn));
    hide Owns;
    forall j | 0 <= j < |f.tracked[k].ids|
      ensures f.tracked[k].ids[j] in f.owner
    {
      assert f.tracked[k].ids[j] in f.tracked[k].ids;
    }
  }

  lemma ConnIsClaimed(f: Fleet)
    requires Inv(f)
    ensures f.conn.Some? ==>
              f.conn.value in f.owner && f.conn.value in f.filterOf
              && f.filterOf[f.conn.value] == f.topics.Wildcard(CONNECTION)
  {
    hide LockInv, ThreadInv, GoodChannels, EntryInv, BrokerInv;
    OwnedOnly(f.owner, ByConnection, ConnSeq(f.conn));
    if f.conn.Some? {
      assert f.conn.value in ConnSeq(f.conn);
    }
  }

  lemma QuiescentOwner(f: Fleet, id: nat)
    requires Inv(f) && Quiescent(f) && id in f.owner
    ensures f.conn == Some(id) || exists k :: k in f.tracked && id in f.tracked[k].ids
  {
    OwnerHolds(f, id, f.owner[id]);
  }

  lemma EntriesApart(f: Fleet, k: string, l: string)
    requires Inv(f) && k in f.tracked && l in f.tracked && k != l
    ensures forall id | id in f.tracked[k].ids :: id !in f.tracked[l].ids
  {
    hide LockInv, ThreadInv, GoodChannels, BrokerInv, ConnInv, EntryOk;
    OwnedOnly(f.owner, ByEntry(k), f.tracked[k].ids);
    OwnedOnly(f.owner, ByEntry(l), f.tracked[l].ids);
  }

  /** The subscriptions on a filter that the broker has lost while somebody still answers for them. */
  ghost function LostOn(f: Fleet, filter: string): set<nat> {
    set id | id in f.dropped && id in f.filterOf && f.filterOf[id] == filter
  }

  lemma DroppedIsClaimed(f: Fleet)
    requires Inv(f)
    ensures f.live == f.owner.Keys - f.dropped && f.dropped <= f.owner.Keys
    ensures forall id | id in f.owner :: id in f.filterOf
  {
    hide EntryInv, ThreadInv, LockInv, ConnInv;
  }

  lemma ClaimedSplits(f: Fleet, filter: string)
    requires f.live == f.owner.Keys - f.dropped && f.dropped <= f.owner.Keys
    requires forall id | id in f.owner :: id in f.filterOf
    ensures |IdsOn(Claimed(f), filter)| == |IdsOn(Subs(f), filter)| + |LostOn(f, filter)|
  {
    assert IdsOn(Claimed(f), filter) == IdsOn(Subs(f), filter) + LostOn(f, filter);
    assert IdsOn(Subs(f), filter) !! LostOn(f, filter);
  }

  /**
   Once every call has returned, however often sessions were lost: each filter is live as often as specified, the
   connection wildcard once if started, each enabled channel of each tracked AGV once and nothing else, short of
   exactly the subscriptions the broker lost that the session still counts on.
   */
  lemma QuiescentFilters(f: Fleet, filter: string)
    requires Reachable(f) && Quiescent(f)
    ensures forall id | id in f.live :: id in f.filterOf
    ensures |IdsOn(Subs(f), filter)| + |LostOn(f, filter)|
            == SpecCount(f.topics, f.channels, f.started, f.tracked.Keys, filter)
  {
    hide Reachable;
    ReachableInv(f);
    QuiescentEstablished(f);
    DroppedIsClaimed(f);
    assert f.started == f.conn.Some? && GoodChannels(f.channels);
    hide Inv, Established, Quiescent;
    ClaimedSplits(f, filter);
    EstablishedCount(f.topics, f.channels, Claimed(f), f.conn, f.tracked, map[], filter);
    assert IdsOn(map[], filter) == {};
  }

  /** All filters are live exactly as often as specified. */
  ghost predicate AsSpecified(f: Fleet) {
    && (forall id | id in f.live :: id in f.filterOf)
    && forall filter: string ::
         |IdsOn(Subs(f), filter)| == SpecCount(f.topics, f.channels, f.started, f.tracked.Keys, filter)
  }

  /** So the filters are right exactly when nothing the session counts on is lost. */
  lemma RightExactly(f: Fleet)
    requires Reachable(f) && Quiescent(f)
    ensures AsSpecified(f) <==> f.dropped == {}
  {
    ReachableInv(f);
    DroppedIsClaimed(f);
    hide Reachable, Quiescent, Inv, SpecCount, IdsOn;
    if f.dropped == {} {
      forall filter: string
        ensures |IdsOn(Subs(f), filter)| == SpecCount(f.topics, f.channels, f.started, f.tracked.Keys, filter)
      {
        QuiescentFilters(f, filter);
        assert LostOn(f, filter) == {};
      }
    } else {
      var id :| id in f.dropped;
      QuiescentFilters(f, f.filterOf[id]);
      assert id in LostOn(f, f.filterOf[id]);
    }
  }

  lemma {:induction false} OptionsKept(f: Fleet, steps: seq<Step>, f': Fleet)
    requires Runs(f, steps, f')
    ensures f'.topics == f.topics && f'.channels == f.channels
    decreases |steps|
  {
    if steps != [] {
      StepKeepsOptions(f, steps[0]);
      hide Enabled, Apply;
      OptionsKept(Apply(f, steps[0]), steps[1..], f');
    }
  }

  lemma StepKeepsOptions(f: Fleet, st: Step)
    requires Enabled(f, st)
    ensures Apply(f, st).topics == f.topics && Apply(f, st).channels == f.channels
  {
    hide IdsOf, AgvsOf, Hand, BeginCall, TrackCalls, Resolver.Build, AGV.Key;
    if st.Begin? {
      BeginKeepsOptions(f, st.thread, st.ok, st.order);
    }
  }

  lemma BeginKeepsOptions(f: Fleet, t: nat, ok: bool, order: seq<string>)
    requires Enabled(f, Begin(t, ok, order))
    ensures BeginCall(f, t, ok, order).topics == f.topics && BeginCall(f, t, ok, order).channels == f.channels
  {
    match f.threads[t].todo[0]
    case StopCall => hide AgvsOf, UntrackCalls;
    case RestoreCall => hide Hand, IdsOf, AgvsOf;
    case StartCall => hide Resolver.Wildcard;
    case UntrackCall(agv) => hide Hand, AGV.Key;
    case TrackCall(agv, notify) => hide AGV.Key;
    case DropConnectionCall =>
  }

  /**
   So what the broker sends, once every call has returned and nothing counted on is lost: the connection topic of
   every AGV if started, and the state and visualization topics of the tracked ones exactly as the options say.
   */
  lemma RestingFleetHears(topics: Resolver, state: bool, visualization: bool, steps: seq<Step>, f: Fleet, m: string,
                          s: string, ch: string)
    requires Runs(Init(topics, state, visualization), steps, f) && Quiescent(f) && f.dropped == {}
    requires Plain(topics, m, s, ch)
    ensures forall id | id in f.live :: id in f.filterOf
    ensures Heard(Subs(f), topics.Build(m, s, ch))
            <==> (ch == "connection" && f.started)
                 || (((ch == "state" && state) || (ch == "visualization" && visualization))
                     && CoveredBy(f.tracked, m, s))
  {
    OptionsKept(Init(topics, state, visualization), steps, f);
    assert Reachable(f);
    hide Runs, Reachable;
    ReachableInv(f);
    QuiescentEstablished(f);
    DroppedIsClaimed(f);
    assert f.started == f.conn.Some? && GoodChannels(f.channels) && Claimed(f) == Subs(f);
    hide Inv, Established, Quiescent, Plain, Heard, CoveredBy;
    EstablishedHears(topics, f.channels, Claimed(f), f.conn, f.tracked, map[], m, s, ch);
    ChannelsEnabled(state, visualization, ch);
    NothingHeard(topics.Build(m, s, ch));
  }

  lemma NothingHeard(topic: string)
    ensures !Heard(map[], topic)
  {
  }

  lemma {:induction false} NothingDropped(f: Fleet, steps: seq<Step>, f': Fleet)
    requires Runs(f, steps, f') && f.dropped == {} && forall st | st in steps :: !st.SessionLoss?
    ensures f'.dropped == {}
    decreases |steps|
  {
    if steps != [] {
      StepDropsNothing(f, steps[0]);
      hide Enabled, Apply;
      NothingDropped(Apply(f, steps[0]), steps[1..], f');
    }
  }

  lemma StepDropsNothing(f: Fleet, st: Step)
    requires Enabled(f, st) && f.dropped == {} && !st.SessionLoss?
    ensures Apply(f, st).dropped == {}
  {
    hide IdsOf, AgvsOf, Hand, BeginCall;
    if st.Begin? {
      BeginDropsNothing(f, st.thread, st.ok, st.order);
    }
  }

  lemma BeginDropsNothing(f: Fleet, t: nat, ok: bool, order: seq<string>)
    requires Enabled(f, Begin(t, ok, order)) && f.dropped == {}
    ensures BeginCall(f, t, ok, order).dropped == {}
  {
    hide IdsOf, AgvsOf, Hand, TrackCalls, UntrackCalls, AGV.Key, Resolver.Wildcard;
    match f.threads[t].todo[0]
    case DropConnectionCall =>
    case _ => hide EndSubscription;
  }

  // ---- The connection wildcard ------------------------------------------------------------

  ghost predicate IsWildcard(f: Fleet, id: nat) {
    id in f.filterOf && f.filterOf[id] == f.topics.Wildcard(CONNECTION)
  }

  /** A connection subscription belongs to the session, or to the Restore that is clearing it away. */
  ghost predicate WildcardOwner(o: Owner, threads: seq<Thread>) {
    o.ByConnection? || (o.ByThread? && o.thread < |threads| && threads[o.thread].frame.Clearing?)
  }

  ghost predicate WildcardInv(f: Fleet) {
    && (forall id | id in f.owner && IsWildcard(f, id) :: WildcardOwner(f.owner[id], f.threads))
    && (forall a, b | a in f.owner && b in f.owner && IsWildcard(f, a) && IsWildcard(f, b) :: a == b)
  }

  lemma TrackedAreNoWildcards(f: Fleet, id: nat)
    requires Inv(f) && id in f.owner && f.owner[id].ByEntry?
    ensures !IsWildcard(f, id)
  {
    hide LockInv, ThreadInv, BrokerInv, ConnInv;
    var k := f.owner[id].key;
    var e := f.tracked[k];
    OwnedOnly(f.owner, ByEntry(k), e.ids);
    var j :| 0 <= j < |e.ids| && e.ids[j] == id;
    assert EntryOk(f.topics, f.channels, f.filterOf, k, e);
    WildcardIsNotTracked(f.topics, e.agv, f.channels[j]);
  }

  /** A step that makes no wildcard and leaves those there are with a proper owner. */
  lemma WildcardKept(f: Fleet, f': Fleet)
    requires WildcardInv(f)
    requires forall id | id in f'.owner && IsWildcard(f', id) ::
               id in f.owner && IsWildcard(f, id) && WildcardOwner(f'.owner[id], f'.threads)
    ensures WildcardInv(f')
  {
  }

  lemma WildcardStart(f: Fleet, t: nat, rest: seq<Call>)
    requires Inv(f) && WildcardInv(f) && t < |f.threads| && f.lock.None? && !f.started
    ensures WildcardInv(NewSubscription(SetThread(f, t, Thread(Ready, rest)), f.topics.Wildcard(CONNECTION),
                                        ByConnection)
                        .(conn := Some(f.nextID), started := true))
  {
    NoWildcardYet(f);
    hide Inv;
  }

  lemma WildcardRestore(f: Fleet, t: nat, agvs: seq<AGV>, order: seq<string>, rest: seq<Call>)
    requires Inv(f) && WildcardInv(f) && t < |f.threads| && f.lock.None? && f.threads[t].frame.Ready?
    requires Enumerates(order, f.tracked.Keys)
    ensures var ids := IdsOf(f.tracked, order) + ConnSeq(f.conn);
            WildcardInv(SetThread(f, t, Thread(Clearing(agvs, ids), rest))
                .(tracked := map[], conn := None, started := false, lock := Some(t),
                  owner := Hand(f.owner, ids, ByThread(t))))
  {
    var ids := IdsOf(f.tracked, order) + ConnSeq(f.conn);
    RestoreIds(f, order);
    hide Inv, IdsOf;
    WildcardKept(f, SetThread(f, t, Thread(Clearing(agvs, ids), rest))
                .(tracked := map[], conn := None, started := false, lock := Some(t),
                  owner := Hand(f.owner, ids, ByThread(t))));
  }

  lemma WildcardUntrack(f: Fleet, t: nat, k: string, rest: seq<Call>)
    requires Inv(f) && WildcardInv(f) && t < |f.threads| && k in f.tracked && f.threads[t].frame.Ready?
    ensures var ids := f.tracked[k].ids;
            WildcardInv(SetThread(f, t, Thread(Removing(ids), rest))
                .(tracked := f.tracked - {k}, owner := Hand(f.owner, ids, ByThread(t))))
  {
    var ids := f.tracked[k].ids;
    EntryOwns(f, k);
    forall id | id in ids
      ensures !IsWildcard(f, id)
    {
      TrackedAreNoWildcards(f, id);
    }
    hide Inv;
    WildcardKept(f, SetThread(f, t, Thread(Removing(ids), rest))
                .(tracked := f.tracked - {k}, owner := Hand(f.owner, ids, ByThread(t))));
  }

  lemma WildcardThread(f: Fleet, t: nat, th: Thread)
    requires WildcardInv(f) && t < |f.threads| && f.threads[t].frame.Ready?
    ensures WildcardInv(SetThread(f, t, th))
    ensures WildcardInv(SetThread(f, t, th).(conn := None, started := false))
    ensures forall id :: WildcardInv(EndSubscription(SetThread(f, t, th).(conn := None, started := false), id))
  {
  }

  lemma WildcardBegin(f: Fleet, t: nat, ok: bool, order: seq<string>)
    requires Inv(f) && WildcardInv(f) && Enabled(f, Begin(t, ok, order))
    ensures WildcardInv(Apply(f, Begin(t, ok, order)))
  {
    hide Inv, WildcardInv, IdsOf, Hand, NewSubscription, EndSubscription;
    var rest := f.threads[t].todo[1..];
    match f.threads[t].todo[0]
    case TrackCall(agv, notify) =>
      WildcardThread(f, t, if agv.Key() in f.tracked then Thread(Ready, rest)
                           else Thread(Subscribing(agv, notify, []), rest));
    case UntrackCall(agv) =>
      if agv.Key() in f.tracked {
        WildcardUntrack(f, t, agv.Key(), rest);
      } else {
        WildcardThread(f, t, Thread(Ready, rest));
      }
    case StartCall =>
      if !f.started && ok {
        WildcardStart(f, t, rest);
      } else {
        WildcardThread(f, t, Thread(Ready, if f.started then rest else []));
      }
    case DropConnectionCall => WildcardThread(f, t, Thread(Ready, rest));
    case StopCall =>
      WildcardThread(f, t, Thread(Ready, UntrackCalls(AgvsOf(f.tracked, order)) + [DropConnectionCall] + rest));
    case RestoreCall =>
      if !f.started && |f.tracked| == 0 {
        WildcardThread(f, t, Thread(Ready, rest));
      } else {
        WildcardRestore(f, t, AgvsOf(f.tracked, order), order, rest);
      }
  }

  lemma EntryOwns(f: Fleet, k: string)
    requires Inv(f) && k in f.tracked
    ensures forall id | id in f.tracked[k].ids :: id in f.owner && f.owner[id] == ByEntry(k)
  {
    hide LockInv, ThreadInv, BrokerInv, ConnInv, EntryOk;
    OwnedOnly(f.owner, ByEntry(k), f.tracked[k].ids);
  }

  lemma NoWildcardYet(f: Fleet)
    requires Inv(f) && WildcardInv(f) && !f.started && f.lock.None?
    ensures forall id | id in f.owner :: !IsWildcard(f, id)
    ensures f.nextID !in f.owner && f.nextID !in f.filterOf
  {
    hide ThreadInv, EntryInv;
    OwnedOnly(f.owner, ByConnection, ConnSeq(f.conn));
  }

  lemma WildcardSubscribe(f: Fleet, t: nat)
    requires Inv(f) && WildcardInv(f) && Enabled(f, Subscribe(t, true))
    ensures WildcardInv(Apply(f, Subscribe(t, true)))
  {
    var frame := f.threads[t].frame;
    WildcardIsNotTracked(f.topics, frame.agv, f.channels[|frame.ids|]);
    NewBroker(f, "", ByConnection);
    hide Inv;
    WildcardKept(f, Apply(f, Subscribe(t, true)));
  }

  lemma ThreadOwns(f: Fleet, t: nat)
    requires Inv(f) && t < |f.threads|
    ensures forall id: nat :: id in Held(f.threads[t]) <==> id in f.owner && f.owner[id] == ByThread(t)
  {
    hide LockInv, EntryInv, BrokerInv, ConnInv;
    assert ThreadOk(f.topics, f.channels, f.filterOf, f.owner, t, f.threads[t]);
    OwnedOnly(f.owner, ByThread(t), Held(f.threads[t]));
  }

  lemma WildcardStep(f: Fleet, st: Step)
    requires Inv(f) && WildcardInv(f) && Enabled(f, st)
    ensures WildcardInv(Apply(f, st))
  {
    if st.Begin? {
      WildcardBegin(f, st.thread, st.ok, st.order);
    } else if st.Subscribe? && st.ok {
      WildcardSubscribe(f, st.thread);
    } else {
      WildcardOther(f, st);
    }
  }

  lemma WildcardOther(f: Fleet, st: Step)
    requires Inv(f) && WildcardInv(f) && Enabled(f, st) && !st.Begin? && (st.Subscribe? ==> !st.ok)
    ensures WildcardInv(Apply(f, st))
  {
    if !st.Spawn? && !st.SessionLoss? {
      ThreadOwns(f, st.thread);
    }
    hide Inv;
    WildcardKept(f, Apply(f, st));
  }

  lemma {:induction false} RunKeepsWildcards(f: Fleet, steps: seq<Step>, f': Fleet)
    requires Inv(f) && WildcardInv(f) && Runs(f, steps, f')
    ensures WildcardInv(f')
    decreases |steps|
  {
    hide Inv, Apply, Enabled, WildcardInv;
    if steps != [] {
      StepKeepsInv(f, steps[0]);
      WildcardStep(f, steps[0]);
      RunKeepsWildcards(Apply(f, steps[0]), steps[1..], f');
    }
  }

  /** At no moment, however Start, Stop and Restore interleave, are there two connection subscriptions. */
  lemma OneConnectionWildcard(f: Fleet, a: nat, b: nat)
    requires Reachable(f) && a in f.live && b in f.live && IsWildcard(f, a) && IsWildcard(f, b)
    ensures a == b
  {
    hide Inv, Runs, WildcardInv;
    var topics, state, visualization, steps :| Runs(Init(topics, state, visualization), steps, f);
    InitInv(topics, state, visualization);
    assert WildcardInv(Init(topics, state, visualization)) by {
      InitWildcards(topics, state, visualization);
    }
    RunKeepsInv(Init(topics, state, visualization), steps, f);
    RunKeepsWildcards(Init(topics, state, visualization), steps, f);
    LiveIsOwned(f, a);
    LiveIsOwned(f, b);
    WildcardsUnique(f, a, b);
  }

  lemma InitWildcards(topics: Resolver, state: bool, visualization: bool)
    ensures WildcardInv(Init(topics, state, visualization))
  {
  }

  lemma WildcardsUnique(f: Fleet, a: nat, b: nat)
    requires WildcardInv(f) && a in f.owner && b in f.owner && IsWildcard(f, a) && IsWildcard(f, b)
    ensures a == b
  {
  }
}
