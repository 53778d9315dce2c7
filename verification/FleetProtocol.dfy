/**
 The fleet session (internal/session/fleet.go) under concurrent calls, against a
 broker that identifies subscriptions by id (testkit/fake_broker.go). Every
 critical section and every call to the broker is one atomic step; any number
 of Track, Untrack, Start, Stop and Restore calls interleave.
 */
module FleetProtocol {
  import opened Streams
  import opened Topics
  import opened Subscriptions

  /** A call of the session; Stop and Restore are sequences of such calls. */
  datatype Call =
    | TrackCall(agv: AGV, notify: bool)
    | UntrackCall(agv: AGV)
    | StartCall
    | DropConnectionCall
    | StopCall
    | RestoreCall

  /** Where a thread is inside its current call, and the ids it holds there. */
  datatype Frame =
    | Ready
    | Subscribing(agv: AGV, notify: bool, ids: seq<nat>)
    | Removing(ids: seq<nat>)                        // a rollback or the end of an untrack, last id first
    | Clearing(agvs: seq<AGV>, ids: seq<nat>)        // the first section of Restore, holding the lock

  datatype Thread = Thread(frame: Frame, todo: seq<Call>)

  /** Who answers for a subscription id. A history: no step consults it. */
  datatype Owner = ByConnection | ByEntry(key: string) | ByThread(thread: nat)

  datatype Fleet = Fleet(
    topics: Resolver,
    channels: seq<Channel>,
    conn: Option<nat>,
    started: bool,
    tracked: map<string, Entry>,
    lock: Option<nat>,
    threads: seq<Thread>,
    nextID: nat,
    filterOf: map<nat, string>,
    live: set<nat>,
    owner: map<nat, Owner>,
    dropped: set<nat>)

  function Init(topics: Resolver, state: bool, visualization: bool): Fleet {
    Fleet(topics, Channels(state, visualization), None, false, map[], None, [], 1, map[], {}, map[], {})
  }

  datatype Step =
    | Spawn(call: Call)
    | Begin(thread: nat, ok: bool, order: seq<string>)   // first section of the next call
    | Subscribe(thread: nat, ok: bool)
    | Commit(thread: nat)
    | Unsubscribe(thread: nat)
    | Return(thread: nat)
    | ClearOne(thread: nat)
    | ClearEnd(thread: nat)
    | SessionLoss(lost: set<nat>)

  ghost predicate Enumerates(order: seq<string>, keys: set<string>) {
    Distinct(order) && forall k :: k in order <==> k in keys
  }

  ghost predicate Enabled(f: Fleet, st: Step) {
    match st
    case Spawn(_) => true
    case Begin(t, _, order) =>
      && t < |f.threads| && f.threads[t].frame.Ready? && f.threads[t].todo != [] && f.lock.None?
      && Enumerates(order, f.tracked.Keys)
    case Subscribe(t, _) =>
      t < |f.threads| && f.threads[t].frame.Subscribing? && |f.threads[t].frame.ids| < |f.channels|
    case Commit(t) =>
      t < |f.threads| && f.threads[t].frame.Subscribing? && |f.threads[t].frame.ids| == |f.channels| && f.lock.None?
    case Unsubscribe(t) => t < |f.threads| && f.threads[t].frame.Removing? && f.threads[t].frame.ids != []
    case Return(t) => t < |f.threads| && f.threads[t].frame == Removing([])
    case ClearOne(t) => t < |f.threads| && f.threads[t].frame.Clearing? && f.threads[t].frame.ids != []
    case ClearEnd(t) => t < |f.threads| && f.threads[t].frame.Clearing? && f.threads[t].frame.ids == []
    case SessionLoss(lost) => lost <= f.live
  }

  function SetThread(f: Fleet, t: nat, th: Thread): Fleet
    requires t < |f.threads|
  {
    f.(threads := f.threads[t := th])
  }

  /** The broker registers a filter under a fresh id. */
  function NewSubscription(f: Fleet, filter: string, o: Owner): Fleet {
    f.(nextID := f.nextID + 1, filterOf := f.filterOf[f.nextID := filter],
       live := f.live + {f.nextID}, owner := f.owner[f.nextID := o])
  }

  /** The broker deletes an id; deleting one that a session loss has already taken is a no-op. */
  function EndSubscription(f: Fleet, id: nat): Fleet {
    f.(live := f.live - {id}, owner := f.owner - {id}, dropped := f.dropped - {id})
  }

  function Hand(owner: map<nat, Owner>, ids: seq<nat>, o: Owner): map<nat, Owner> {
    map id | id in owner :: if id in ids then o else owner[id]
  }

  function TrackCalls(agvs: seq<AGV>): seq<Call> {
    seq(|agvs|, i requires 0 <= i < |agvs| => TrackCall(agvs[i], false))
  }

  function UntrackCalls(agvs: seq<AGV>): seq<Call> {
    seq(|agvs|, i requires 0 <= i < |agvs| => UntrackCall(agvs[i]))
  }

  function AgvsOf(tracked: map<string, Entry>, order: seq<string>): seq<AGV>
    requires forall k | k in order :: k in tracked
  {
    seq(|order|, i requires 0 <= i < |order| => tracked[order[i]].agv)
  }

  function IdsOf(tracked: map<string, Entry>, order: seq<string>): seq<nat>
    requires forall k | k in order :: k in tracked
  {
    if order == [] then [] else IdsOf(tracked, order[..|order| - 1]) + tracked[order[|order| - 1]].ids
  }

  function ConnSeq(conn: Option<nat>): seq<nat> {
    if conn.Some? then [conn.value] else []
  }

  /** The first critical section of a call. */
  function BeginCall(f: Fleet, t: nat, ok: bool, order: seq<string>): Fleet
    requires t < |f.threads| && f.threads[t].todo != []
    requires forall k | k in order :: k in f.tracked
  {
    var rest := f.threads[t].todo[1..];
    match f.threads[t].todo[0]
    case TrackCall(agv, notify) =>
      if agv.Key() in f.tracked then SetThread(f, t, Thread(Ready, rest))
      else SetThread(f, t, Thread(Subscribing(agv, notify, []), rest))
    case UntrackCall(agv) =>
      if agv.Key() !in f.tracked then SetThread(f, t, Thread(Ready, rest))
      else
        var ids := f.tracked[agv.Key()].ids;
        SetThread(f, t, Thread(Removing(ids), rest))
        .(tracked := f.tracked - {agv.Key()}, owner := Hand(f.owner, ids, ByThread(t)))
    case StartCall =>
      if f.started then SetThread(f, t, Thread(Ready, rest))
      else if !ok then SetThread(f, t, Thread(Ready, []))
      else
        NewSubscription(SetThread(f, t, Thread(Ready, rest)), f.topics.Wildcard(CONNECTION), ByConnection)
        .(conn := Some(f.nextID), started := true)
    case DropConnectionCall =>
      var g := SetThread(f, t, Thread(Ready, rest)).(conn := None, started := false);
      if f.conn.Some? then EndSubscription(g, f.conn.value) else g
    case StopCall =>
      SetThread(f, t, Thread(Ready, UntrackCalls(AgvsOf(f.tracked, order)) + [DropConnectionCall] + rest))
    case RestoreCall =>
      if !f.started && |f.tracked| == 0 then SetThread(f, t, Thread(Ready, rest))
      else
        var ids := IdsOf(f.tracked, order) + ConnSeq(f.conn);
        SetThread(f, t, Thread(Clearing(AgvsOf(f.tracked, order), ids), rest))
        .(tracked := map[], conn := None, started := false, lock := Some(t), owner := Hand(f.owner, ids, ByThread(t)))
  }

  function Apply(f: Fleet, st: Step): Fleet
    requires Enabled(f, st)
  {
    match st
    case Spawn(call) => f.(threads := f.threads + [Thread(Ready, [call])])
    case Begin(t, ok, order) => BeginCall(f, t, ok, order)
    case Subscribe(t, ok) =>
      var th := f.threads[t];
      var agv, ids := th.frame.agv, th.frame.ids;
      if ok then
        NewSubscription(SetThread(f, t, th.(frame := Subscribing(agv, th.frame.notify, ids + [f.nextID]))),
                        f.topics.Build(agv.manufacturer, agv.serialNumber, f.channels[|ids|]), ByThread(t))
      else SetThread(f, t, Thread(Removing(ids), []))
    case Commit(t) =>
      var th := f.threads[t];
      var agv, ids := th.frame.agv, th.frame.ids;
      if agv.Key() in f.tracked then SetThread(f, t, th.(frame := Removing(ids)))
      else
        SetThread(f, t, th.(frame := Ready))
        .(tracked := f.tracked[agv.Key() := Entry(agv, ids)], owner := Hand(f.owner, ids, ByEntry(agv.Key())))
    case Unsubscribe(t) =>
      var th := f.threads[t];
      var n := |th.frame.ids| - 1;
      EndSubscription(SetThread(f, t, th.(frame := Removing(th.frame.ids[..n]))), th.frame.ids[n])
    case Return(t) => SetThread(f, t, f.threads[t].(frame := Ready))
    case ClearOne(t) =>
      var th := f.threads[t];
      EndSubscription(SetThread(f, t, th.(frame := Clearing(th.frame.agvs, th.frame.ids[1..]))), th.frame.ids[0])
    case ClearEnd(t) =>
      var th := f.threads[t];
      SetThread(f, t, Thread(Ready, [StartCall] + TrackCalls(th.frame.agvs) + th.todo)).(lock := None)
    case SessionLoss(lost) => f.(live := f.live - lost, dropped := f.dropped + lost)
  }

  ghost predicate Runs(f: Fleet, steps: seq<Step>, f': Fleet)
    decreases |steps|
  {
    if steps == [] then f == f'
    else Enabled(f, steps[0]) && Runs(Apply(f, steps[0]), steps[1..], f')
  }

  ghost predicate Reachable(f: Fleet) {
    exists topics, state, visualization, steps :: Runs(Init(topics, state, visualization), steps, f)
  }

  // ---- The invariant -------------------------------------------------------------------

  function Held(th: Thread): seq<nat> {
    match th.frame
    case Ready => []
    case Subscribing(_, _, ids) => ids
    case Removing(ids) => ids
    case Clearing(_, ids) => ids
  }

  /** ids is, without repetition, everything that o answers for. */
  ghost predicate Owns(owner: map<nat, Owner>, o: Owner, ids: seq<nat>) {
    Distinct(ids) && forall id: nat :: id in ids <==> id in owner && owner[id] == o
  }

  ghost predicate BrokerInv(nextID: nat, filterOf: map<nat, string>, live: set<nat>, owner: map<nat, Owner>,
                            dropped: set<nat>) {
    && (forall id | id in filterOf :: id < nextID)
    && (forall id | id in owner :: id in filterOf)
    && live == owner.Keys - dropped
    && dropped <= owner.Keys
  }

  ghost predicate ConnInv(r: Resolver, conn: Option<nat>, started: bool, filterOf: map<nat, string>,
                          owner: map<nat, Owner>) {
    && Owns(owner, ByConnection, ConnSeq(conn))
    && started == conn.Some?
    && (conn.Some? ==> conn.value in filterOf && filterOf[conn.value] == r.Wildcard(CONNECTION))
  }

  ghost predicate EntryInv(r: Resolver, channels: seq<Channel>, tracked: map<string, Entry>,
                           filterOf: map<nat, string>, owner: map<nat, Owner>) {
    && (forall k | k in tracked :: EntryOk(r, channels, filterOf, k, tracked[k])
            && Owns(owner, ByEntry(k), tracked[k].ids))
    && (forall id | id in owner && owner[id].ByEntry? :: owner[id].key in tracked)
  }

  ghost predicate ThreadOk(r: Resolver, channels: seq<Channel>, filterOf: map<nat, string>, owner: map<nat, Owner>,
                           t: nat, th: Thread) {
    && Owns(owner, ByThread(t), Held(th))
    && (th.frame.Subscribing? ==>
          && |th.frame.ids| <= |channels|
          && forall j | 0 <= j < |th.frame.ids| ::
               th.frame.ids[j] in filterOf
               && filterOf[th.frame.ids[j]] == r.Build(th.frame.agv.manufacturer, th.frame.agv.serialNumber,
                                                       channels[j]))
  }

  ghost predicate ThreadInv(r: Resolver, channels: seq<Channel>, threads: seq<Thread>, filterOf: map<nat, string>,
                            owner: map<nat, Owner>) {
    && (forall t | 0 <= t < |threads| :: ThreadOk(r, channels, filterOf, owner, t, threads[t]))
    && (forall id | id in owner && owner[id].ByThread? :: owner[id].thread < |threads|)
  }

  ghost predicate LockInv(lock: Option<nat>, threads: seq<Thread>) {
    && (lock.Some? ==> lock.value < |threads|)
    && forall t | 0 <= t < |threads| :: threads[t].frame.Clearing? <==> lock == Some(t)
  }

  ghost predicate Inv(f: Fleet) {
    && GoodChannels(f.channels)
    && BrokerInv(f.nextID, f.filterOf, f.live, f.owner, f.dropped)
    && ConnInv(f.topics, f.conn, f.started, f.filterOf, f.owner)
    && EntryInv(f.topics, f.channels, f.tracked, f.filterOf, f.owner)
    && ThreadInv(f.topics, f.channels, f.threads, f.filterOf, f.owner)
    && LockInv(f.lock, f.threads)
  }
}
