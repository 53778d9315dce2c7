/**
 Driving one call of the concurrent fleet session to its end while every other
 call rests where it is: the runs from which the exact conditions in
 FleetRecovery and FleetFinality take their counterexamples.
 */
module FleetDrive {
  import opened Streams
  import opened Topics
  import opened Subscriptions
  import opened FleetProtocol
  import opened FleetSteps
  import opened FleetTheorems

  /** No new call and no lost session. */
  ghost predicate Quiet(steps: seq<Step>) {
    forall st | st in steps :: !st.Spawn? && !st.SessionLoss?
  }

  lemma RunsCons(f: Fleet, st: Step, steps: seq<Step>, f': Fleet)
    requires Enabled(f, st) && Runs(Apply(f, st), steps, f')
    ensures Runs(f, [st] + steps, f')
  {
    assert ([st] + steps)[1..] == steps;
  }

  lemma RunsNone(f: Fleet)
    ensures Runs(f, [], f)
  {
  }

  lemma {:induction false} RunsConcat(f: Fleet, a: seq<Step>, mid: Fleet, b: seq<Step>, f': Fleet)
    requires Runs(f, a, mid) && Runs(mid, b, f')
    ensures Runs(f, a + b, f')
    decreases |a|
  {
    hide Apply, Enabled;
    if a == [] {
      assert a + b == b;
    } else {
      RunsConcat(Apply(f, a[0]), a[1..], mid, b, f');
      assert (a + b)[1..] == a[1..] + b;
    }
  }

  lemma ReachableOn(f: Fleet, steps: seq<Step>, f': Fleet)
    requires Reachable(f) && Runs(f, steps, f')
    ensures Reachable(f')
  {
    hide Runs;
    var topics, state, visualization, before :| Runs(Init(topics, state, visualization), before, f);
    RunsConcat(Init(topics, state, visualization), before, f, steps, f');
  }

  // ---- What moving one thread leaves alone ----------------------------------------------------

  /** The broker has lost id, and thread t does not hold it. */
  ghost predicate Misses(f: Fleet, t: nat, id: nat) {
    t < |f.threads| && id in f.dropped && id !in Held(f.threads[t])
  }

  /** From f to f' only thread t has moved. What is tracked stays, and so does the loss of what others hold. */
  ghost predicate Moved(f: Fleet, f': Fleet, t: nat) {
    && f'.topics == f.topics && f'.channels == f.channels
    && t < |f.threads| == |f'.threads| && (forall u | 0 <= u < |f.threads| && u != t :: f'.threads[u] == f.threads[u])
    && (forall k | k in f.tracked :: k in f'.tracked && f'.tracked[k] == f.tracked[k])
    && (forall id: nat :: Misses(f, t, id) ==> Misses(f', t, id))
  }

  /** Nor has it touched what the session itself keeps. */
  ghost predicate SameSession(f: Fleet, f': Fleet) {
    f'.tracked == f.tracked && f'.conn == f.conn && f'.started == f.started
  }

  lemma MovedOn(f: Fleet, mid: Fleet, f': Fleet, t: nat)
    requires Moved(f, mid, t) && Moved(mid, f', t)
    ensures Moved(f, f', t)
  {
    hide Misses;
  }

  lemma MovedNot(f: Fleet, t: nat)
    requires t < |f.threads|
    ensures Moved(f, f, t)
  {
  }

  // ---- Removing and clearing --------------------------------------------------------------------

  lemma UnsubscribeMoves(f: Fleet, t: nat)
    requires Inv(f) && Enabled(f, Unsubscribe(t))
    ensures var f1, th := Apply(f, Unsubscribe(t)), f.threads[t];
            Moved(f, f1, t) && SameSession(f, f1) && f1.lock == f.lock
            && f1.threads[t] == th.(frame := Removing(th.frame.ids[..|th.frame.ids| - 1]))
    ensures Inv(Apply(f, Unsubscribe(t)))
  {
    StepKeepsInv(f, Unsubscribe(t));
    hide Inv;
  }

  lemma ReturnMoves(f: Fleet, t: nat)
    requires Inv(f) && Enabled(f, Return(t))
    ensures var f1 := Apply(f, Return(t));
            Moved(f, f1, t) && SameSession(f, f1) && f1.lock == f.lock
            && f1.threads[t] == Thread(Ready, f.threads[t].todo)
    ensures Inv(Apply(f, Return(t)))
  {
    StepKeepsInv(f, Return(t));
    hide Inv;
  }

  /** A rollback, or the end of an untrack, gets through. */
  lemma {:induction false} RemoveAll(f: Fleet, t: nat) returns (steps: seq<Step>, f': Fleet)
    requires Inv(f) && t < |f.threads| && f.threads[t].frame.Removing?
    ensures Runs(f, steps, f') && Quiet(steps) && Inv(f')
    ensures Moved(f, f', t) && SameSession(f, f') && f'.lock == f.lock
    ensures f'.threads[t] == Thread(Ready, f.threads[t].todo)
    decreases |f.threads[t].frame.ids|
  {
    hide Inv, Apply, Runs, Misses;
    if f.threads[t].frame.ids == [] {
      ReturnMoves(f, t);
      f' := Apply(f, Return(t));
      RunsNone(f');
      RunsCons(f, Return(t), [], f');
      steps := [Return(t)] + [];
    } else {
      UnsubscribeMoves(f, t);
      var rest;
      rest, f' := RemoveAll(Apply(f, Unsubscribe(t)), t);
      MovedOn(f, Apply(f, Unsubscribe(t)), f', t);
      RunsCons(f, Unsubscribe(t), rest, f');
      steps := [Unsubscribe(t)] + rest;
    }
  }

  lemma ClearMoves(f: Fleet, t: nat)
    requires Inv(f) && Enabled(f, ClearOne(t))
    ensures var f1, th := Apply(f, ClearOne(t)), f.threads[t];
            Moved(f, f1, t) && SameSession(f, f1) && f1.lock == f.lock
            && f1.threads[t] == th.(frame := Clearing(th.frame.agvs, th.frame.ids[1..]))
    ensures Inv(Apply(f, ClearOne(t)))
  {
    StepKeepsInv(f, ClearOne(t));
    hide Inv;
  }

  lemma ClearEndMoves(f: Fleet, t: nat)
    requires Inv(f) && Enabled(f, ClearEnd(t))
    ensures var f1, th := Apply(f, ClearEnd(t)), f.threads[t];
            Moved(f, f1, t) && SameSession(f, f1) && f1.lock.None?
            && f1.threads[t] == Thread(Ready, [StartCall] + TrackCalls(th.frame.agvs) + th.todo)
    ensures Inv(Apply(f, ClearEnd(t)))
  {
    StepKeepsInv(f, ClearEnd(t));
    hide Inv, TrackCalls;
  }

  /** The locked section of a Restore gets through. */
  lemma {:induction false} ClearAll(f: Fleet, t: nat) returns (steps: seq<Step>, f': Fleet)
    requires Inv(f) && t < |f.threads| && f.threads[t].frame.Clearing?
    ensures Runs(f, steps, f') && Quiet(steps) && Inv(f')
    ensures Moved(f, f', t) && SameSession(f, f') && f'.lock.None?
    ensures f'.threads[t]
            == Thread(Ready, [StartCall] + TrackCalls(f.threads[t].frame.agvs) + f.threads[t].todo)
    decreases |f.threads[t].frame.ids|
  {
    hide Inv, Apply, Runs, Misses, TrackCalls;
    if f.threads[t].frame.ids == [] {
      ClearEndMoves(f, t);
      f' := Apply(f, ClearEnd(t));
      RunsNone(f');
      RunsCons(f, ClearEnd(t), [], f');
      steps := [ClearEnd(t)] + [];
    } else {
      ClearMoves(f, t);
      var rest;
      rest, f' := ClearAll(Apply(f, ClearOne(t)), t);
      MovedOn(f, Apply(f, ClearOne(t)), f', t);
      RunsCons(f, ClearOne(t), rest, f');
      steps := [ClearOne(t)] + rest;
    }
  }

  // ---- Subscribing ---------------------------------------------------------------------------------

  lemma SubscribeMoves(f: Fleet, t: nat)
    requires Inv(f) && Enabled(f, Subscribe(t, true))
    ensures var f1, th := Apply(f, Subscribe(t, true)), f.threads[t];
            Moved(f, f1, t) && SameSession(f, f1) && f1.lock == f.lock && f1.dropped == f.dropped
            && f1.threads[t] == th.(frame := Subscribing(th.frame.agv, th.frame.notify, th.frame.ids + [f.nextID]))
    ensures Inv(Apply(f, Subscribe(t, true)))
  {
    StepKeepsInv(f, Subscribe(t, true));
    assert f.nextID !in f.dropped by { hide EntryInv, ThreadInv, LockInv, ConnInv; }
    hide Inv, Resolver.Build;
    StillMisses(f, Apply(f, Subscribe(t, true)), t, f.nextID);
    hide Misses;
  }

  lemma StillMisses(f: Fleet, f': Fleet, t: nat, n: nat)
    requires t < |f.threads| && t < |f'.threads| && f'.dropped == f.dropped && n !in f.dropped
    requires Held(f'.threads[t]) == Held(f.threads[t]) + [n]
    ensures forall id: nat :: Misses(f, t, id) ==> Misses(f', t, id)
  {
  }

  /** A Track subscribes all that is left. */
  lemma {:induction false} Fill(f: Fleet, t: nat) returns (steps: seq<Step>, f': Fleet)
    requires Inv(f) && t < |f.threads| && f.threads[t].frame.Subscribing?
    requires |f.threads[t].frame.ids| <= |f.channels|
    ensures Runs(f, steps, f') && Quiet(steps) && Inv(f')
    ensures Moved(f, f', t) && SameSession(f, f') && f'.lock == f.lock && f'.dropped == f.dropped
    ensures var th, th' := f.threads[t], f'.threads[t];
            && th'.frame.Subscribing? && th'.frame.agv == th.frame.agv && th'.todo == th.todo
            && th.frame.ids <= th'.frame.ids && |th'.frame.ids| == |f.channels|
    decreases |f.channels| - |f.threads[t].frame.ids|
  {
    hide Inv, Apply, Runs, Misses;
    if |f.threads[t].frame.ids| == |f.channels| {
      RunsNone(f);
      MovedNot(f, t);
      steps, f' := [], f;
    } else {
      SubscribeMoves(f, t);
      var rest;
      rest, f' := Fill(Apply(f, Subscribe(t, true)), t);
      MovedOn(f, Apply(f, Subscribe(t, true)), f', t);
      RunsCons(f, Subscribe(t, true), rest, f');
      steps := [Subscribe(t, true)] + rest;
    }
  }

  lemma SubscribingBound(f: Fleet, t: nat)
    requires Inv(f) && t < |f.threads| && f.threads[t].frame.Subscribing?
    ensures |f.threads[t].frame.ids| <= |f.channels|
  {
    hide EntryInv, LockInv, ConnInv, BrokerInv, GoodChannels;
    assert ThreadOk(f.topics, f.channels, f.filterOf, f.owner, t, f.threads[t]);
  }

  lemma FailMoves(f: Fleet, t: nat)
    requires Inv(f) && Enabled(f, Subscribe(t, false))
    ensures var f1 := Apply(f, Subscribe(t, false));
            Moved(f, f1, t) && SameSession(f, f1) && f1.lock == f.lock
            && f1.threads[t] == Thread(Removing(f.threads[t].frame.ids), [])
    ensures Inv(Apply(f, Subscribe(t, false)))
  {
    StepKeepsInv(f, Subscribe(t, false));
    hide Inv;
  }

  /** A Track whose next subscribe fails rolls back, and the call list it belongs to ends there. */
  lemma Fail(f: Fleet, t: nat) returns (steps: seq<Step>, f': Fleet)
    requires Inv(f) && t < |f.threads| && f.threads[t].frame.Subscribing?
    requires |f.threads[t].frame.ids| < |f.channels|
    ensures Runs(f, steps, f') && Quiet(steps) && Inv(f')
    ensures Moved(f, f', t) && SameSession(f, f') && f'.lock == f.lock && f'.threads[t] == Thread(Ready, [])
  {
    hide Inv, Apply, Runs, Misses;
    FailMoves(f, t);
    var f1 := Apply(f, Subscribe(t, false));
    var rest;
    rest, f' := RemoveAll(f1, t);
    MovedOn(f, f1, f', t);
    RunsCons(f, Subscribe(t, false), rest, f');
    steps := [Subscribe(t, false)] + rest;
  }

  lemma CommitMoves(f: Fleet, t: nat)
    requires Inv(f) && Enabled(f, Commit(t))
    ensures var f1, th := Apply(f, Commit(t)), f.threads[t];
            && Moved(f, f1, t) && f1.lock.None? && f1.dropped == f.dropped
            && f1.threads[t].todo == th.todo
            && (if th.frame.agv.Key() in f.tracked then f1.threads[t].frame == Removing(th.frame.ids)
                else f1.threads[t].frame.Ready?
                     && f1.tracked == f.tracked[th.frame.agv.Key() := Entry(th.frame.agv, th.frame.ids)])
    ensures Inv(Apply(f, Commit(t)))
  {
    StepKeepsInv(f, Commit(t));
    hide Inv, Hand, AGV.Key;
  }

  // ---- Beginning a call -----------------------------------------------------------------------------

  /** A first section moves its own thread only. */
  lemma BeginMovesOne(f: Fleet, t: nat, ok: bool, order: seq<string>)
    requires Enabled(f, Begin(t, ok, order))
    ensures var f' := BeginCall(f, t, ok, order);
            t < |f'.threads| == |f.threads| && f'.threads == f.threads[t := f'.threads[t]]
  {
    match f.threads[t].todo[0]
    case StopCall => hide AgvsOf, UntrackCalls;
    case RestoreCall => hide Hand, IdsOf, AgvsOf;
    case StartCall => hide Resolver.Wildcard;
    case UntrackCall(agv) => hide Hand, AGV.Key;
    case TrackCall(agv, notify) => hide AGV.Key;
    case DropConnectionCall =>
  }

  /** Every finite set of keys can be listed. */
  lemma {:induction false} Listed(keys: set<string>) returns (order: seq<string>)
    ensures Enumerates(order, keys)
    decreases |keys|
  {
    if keys == {} {
      order := [];
    } else {
      var k :| k in keys;
      var rest := Listed(keys - {k});
      order := rest + [k];
    }
  }

  lemma TrackMoves(f: Fleet, t: nat, ok: bool, order: seq<string>)
    requires Inv(f) && Enabled(f, Begin(t, ok, order)) && f.threads[t].todo[0].TrackCall?
    ensures var f1, c, rest := Apply(f, Begin(t, ok, order)), f.threads[t].todo[0], f.threads[t].todo[1..];
            && Moved(f, f1, t) && SameSession(f, f1) && f1.lock.None?
            && f1.threads[t] == if c.agv.Key() in f.tracked then Thread(Ready, rest)
                                else Thread(Subscribing(c.agv, c.notify, []), rest)
    ensures Inv(Apply(f, Begin(t, ok, order)))
  {
    StepKeepsInv(f, Begin(t, ok, order));
    hide Inv, AGV.Key;
  }

  lemma NotClearing(f: Fleet, t: nat)
    requires Inv(f) && f.lock.None? && t < |f.threads|
    ensures !f.threads[t].frame.Clearing?
  {
    hide EntryInv, ThreadInv, ConnInv, BrokerInv, GoodChannels;
  }

  /** How far a thread is from being ready for its next call. */
  function Rank(frame: Frame): nat {
    match frame
    case Ready => 0
    case Removing(_) => 1
    case Clearing(_, _) => 1
    case Subscribing(_, _, _) => 2
  }

  lemma StartMoves(f: Fleet, t: nat, order: seq<string>)
    requires Inv(f) && Enabled(f, Begin(t, true, order)) && f.threads[t].todo[0].StartCall?
    ensures var f1 := Apply(f, Begin(t, true, order));
            Moved(f, f1, t) && f1.lock.None? && f1.threads[t] == Thread(Ready, f.threads[t].todo[1..])
    ensures Inv(Apply(f, Begin(t, true, order)))
  {
    StepKeepsInv(f, Begin(t, true, order));
    hide Inv, Resolver.Wildcard;
  }

  // ---- The shape of a call list --------------------------------------------------------------------------

  ghost predicate Tracks(todo: seq<Call>) {
    forall c | c in todo :: c.TrackCall?
  }

  /**
   What is left of the calls a Stop or a Restore has turned into. Whoever is subscribing has only more Tracks to
   come; before a Track there is at most the Start of the same Restore.
   */
  ghost predicate Shaped(th: Thread) {
    || Tracks(th.todo)
    || (!th.frame.Subscribing? && !th.frame.Clearing?
        && (|th.todo| == 1 || (th.todo[0].StartCall? && Tracks(th.todo[1..]))
            || forall c | c in th.todo :: c.UntrackCall? || c.DropConnectionCall?))
  }

  ghost predicate AllShaped(f: Fleet) {
    forall t | 0 <= t < |f.threads| :: Shaped(f.threads[t])
  }

  lemma SetShaped(f: Fleet, f': Fleet, t: nat)
    requires AllShaped(f) && t < |f.threads| == |f'.threads| && Shaped(f'.threads[t])
    requires forall u | 0 <= u < |f.threads| && u != t :: f'.threads[u] == f.threads[u]
    ensures AllShaped(f')
  {
    hide Shaped;
  }

  /** The thread a first section leaves: one of a few shapes, nobody else's. */
  lemma BeginsThread(f: Fleet, t: nat, ok: bool, order: seq<string>)
    requires Enabled(f, Begin(t, ok, order)) && Shaped(f.threads[t])
    ensures var f' := BeginCall(f, t, ok, order);
            t < |f'.threads| && f'.threads == f.threads[t := f'.threads[t]] && Shaped(f'.threads[t])
  {
    var todo := f.threads[t].todo;
    RestShaped(todo, f.threads[t].frame);
    hide Shaped;
    match todo[0]
    case StopCall => StopsThread(f, t, ok, order);
    case RestoreCall => RestoresThread(f, t, ok, order);
    case StartCall => hide Resolver.Wildcard;
    case UntrackCall(agv) => hide Hand, AGV.Key;
    case TrackCall(agv, notify) => hide AGV.Key;
    case DropConnectionCall =>
  }

  lemma StopsThread(f: Fleet, t: nat, ok: bool, order: seq<string>)
    requires Enabled(f, Begin(t, ok, order)) && f.threads[t].todo[0].StopCall? && f.threads[t].todo[1..] == []
    ensures var f' := BeginCall(f, t, ok, order);
            t < |f'.threads| && f'.threads == f.threads[t := f'.threads[t]] && Shaped(f'.threads[t])
  {
    hide AgvsOf, UntrackCalls, Shaped;
    var calls := UntrackCalls(AgvsOf(f.tracked, order));
    StopShaped(AgvsOf(f.tracked, order));
    assert calls + [DropConnectionCall] + [] == calls + [DropConnectionCall];
  }

  lemma RestoresThread(f: Fleet, t: nat, ok: bool, order: seq<string>)
    requires Enabled(f, Begin(t, ok, order)) && f.threads[t].todo[0].RestoreCall?
    requires forall g :: Shaped(Thread(g, f.threads[t].todo[1..]))
    ensures var f' := BeginCall(f, t, ok, order);
            t < |f'.threads| && f'.threads == f.threads[t := f'.threads[t]] && Shaped(f'.threads[t])
  {
    hide Hand, IdsOf, AgvsOf, Shaped;
  }

  lemma RestShaped(todo: seq<Call>, frame: Frame)
    requires Shaped(Thread(frame, todo)) && todo != [] && frame.Ready?
    ensures Shaped(Thread(Ready, todo[1..])) && Shaped(Thread(Ready, []))
    ensures forall ids :: Shaped(Thread(Removing(ids), todo[1..]))
    ensures todo[0].TrackCall? || todo[0].RestoreCall? ==> Tracks(todo[1..])
    ensures todo[0].TrackCall? || todo[0].RestoreCall? ==>
              forall g :: Shaped(Thread(g, todo[1..]))
    ensures todo[0].StopCall? ==> todo[1..] == []
  {
    assert todo[0] in todo && forall c | c in todo[1..] :: c in todo;
  }

  lemma StopShaped(agvs: seq<AGV>)
    ensures Shaped(Thread(Ready, UntrackCalls(agvs) + [DropConnectionCall]))
  {
    var todo := UntrackCalls(agvs) + [DropConnectionCall];
    forall c | c in todo
      ensures c.UntrackCall? || c.DropConnectionCall?
    {
    }
  }

  lemma RestoreShaped(agvs: seq<AGV>, todo: seq<Call>)
    requires Tracks(todo)
    ensures Shaped(Thread(Ready, [StartCall] + TrackCalls(agvs) + todo))
  {
    var all := [StartCall] + TrackCalls(agvs) + todo;
    assert all[1..] == TrackCalls(agvs) + todo;
  }

  lemma StepShaped(f: Fleet, st: Step)
    requires AllShaped(f) && Enabled(f, st)
    ensures AllShaped(Apply(f, st))
  {
    if st.Spawn? {
      assert Shaped(Thread(Ready, [st.call]));
    } else if st.SessionLoss? {
    } else {
      var t := st.thread;
      assert Shaped(f.threads[t]);
      if st.Begin? {
        hide Shaped, BeginCall;
        BeginsThread(f, t, st.ok, st.order);
      } else {
        if st.ClearEnd? {
          RestoreShaped(f.threads[t].frame.agvs, f.threads[t].todo);
        }
        hide Hand, TrackCalls, AGV.Key, Resolver.Build;
      }
      SetShaped(f, Apply(f, st), t);
    }
  }

  lemma {:induction false} RunShaped(f: Fleet, steps: seq<Step>, f': Fleet)
    requires AllShaped(f) && Runs(f, steps, f')
    ensures AllShaped(f')
    decreases |steps|
  {
    hide Apply, Enabled, AllShaped;
    if steps != [] {
      StepShaped(f, steps[0]);
      RunShaped(Apply(f, steps[0]), steps[1..], f');
    }
  }

  lemma ReachableShaped(f: Fleet)
    requires Reachable(f)
    ensures AllShaped(f)
  {
    var topics, state, visualization, steps :| Runs(Init(topics, state, visualization), steps, f);
    assert AllShaped(Init(topics, state, visualization));
    hide Runs, AllShaped;
    RunShaped(Init(topics, state, visualization), steps, f);
  }

  // ---- A Stop left alone -------------------------------------------------------------------------------------

  lemma UntrackMoves(f: Fleet, t: nat, order: seq<string>)
    requires Inv(f) && Enabled(f, Begin(t, true, order)) && f.threads[t].todo[0].UntrackCall?
    ensures var f1, k, rest := Apply(f, Begin(t, true, order)), f.threads[t].todo[0].agv.Key(), f.threads[t].todo[1..];
            && |f1.threads| == |f.threads| && f1.lock.None? && f1.tracked == f.tracked - {k}
            && f1.threads[t].todo == rest && (f1.threads[t].frame.Ready? || f1.threads[t].frame.Removing?)
            && f1.conn == f.conn && f1.started == f.started
    ensures Inv(Apply(f, Begin(t, true, order)))
  {
    StepKeepsInv(f, Begin(t, true, order));
    hide Inv, AGV.Key, Hand;
    if f.threads[t].todo[0].agv.Key() !in f.tracked {
      assert f.tracked - {f.threads[t].todo[0].agv.Key()} == f.tracked;
    }
  }

  lemma DropMoves(f: Fleet, t: nat, order: seq<string>)
    requires Inv(f) && Enabled(f, Begin(t, true, order)) && f.threads[t].todo == [DropConnectionCall]
    ensures var f1 := Apply(f, Begin(t, true, order));
            |f1.threads| == |f.threads| && f1.tracked == f.tracked && f1.conn.None? && !f1.started
            && f1.threads[t] == Thread(Ready, [])
  {
    hide Inv;
  }

  /** Untracking one AGV after the other and then dropping the connection leaves nothing. */
  lemma {:induction false} UntrackAll(f: Fleet, t: nat, agvs: seq<AGV>) returns (steps: seq<Step>, f': Fleet)
    requires Inv(f) && f.lock.None? && t < |f.threads|
    requires f.threads[t] == Thread(Ready, UntrackCalls(agvs) + [DropConnectionCall])
    requires forall k | k in f.tracked :: exists a :: a in agvs && a.Key() == k
    ensures Runs(f, steps, f') && Quiet(steps) && t < |f'.threads| && f'.threads[t] == Thread(Ready, [])
    ensures f'.tracked == map[] && f'.conn.None? && !f'.started
    decreases |agvs|
  {
    hide Inv, Apply, Runs, Misses, AGV.Key;
    var order := Listed(f.tracked.Keys);
    var st := Begin(t, true, order);
    var first := Apply(f, st);
    if agvs == [] {
      assert UntrackCalls(agvs) + [DropConnectionCall] == [DropConnectionCall];
      DropMoves(f, t, order);
      RunsNone(first);
      RunsCons(f, st, [], first);
      return [st] + [], first;
    }
    var todo := UntrackCalls(agvs) + [DropConnectionCall];
    assert todo[0] == UntrackCall(agvs[0]) && todo[1..] == UntrackCalls(agvs[1..]) + [DropConnectionCall];
    UntrackMoves(f, t, order);
    var mid, more, rest;
    if first.threads[t].frame.Removing? {
      more, mid := RemoveAll(first, t);
    } else {
      more, mid := [], first;
      RunsNone(first);
    }
    forall k | k in mid.tracked
      ensures exists a :: a in agvs[1..] && a.Key() == k
    {
      var a :| a in agvs && a.Key() == k;
      assert agvs == [agvs[0]] + agvs[1..];
    }
    rest, f' := UntrackAll(mid, t, agvs[1..]);
    RunsCons(f, st, more, mid);
    RunsConcat(f, [st] + more, mid, rest, f');
    steps := [st] + more + rest;
  }

  /** A Stop that nobody interferes with gets through and leaves no AGV tracked and no connection subscription. */
  lemma StopAlone(f: Fleet, t: nat) returns (steps: seq<Step>, f': Fleet)
    requires Inv(f) && f.lock.None? && t < |f.threads| && f.threads[t] == Thread(Ready, [StopCall])
    ensures Runs(f, steps, f') && Quiet(steps) && t < |f'.threads| && f'.threads[t] == Thread(Ready, [])
    ensures f'.tracked == map[] && f'.conn.None? && !f'.started
  {
    hide Inv, Runs, Misses, AGV.Key;
    var order := Listed(f.tracked.Keys);
    var st, agvs := Begin(t, true, order), AgvsOf(f.tracked, order);
    var f1 := Apply(f, st);
    StepKeepsInv(f, st);
    SnapshotHasAll(f, order);
    assert UntrackCalls(agvs) + [DropConnectionCall] + [] == UntrackCalls(agvs) + [DropConnectionCall];
    hide AgvsOf, UntrackCalls;
    assert f1.threads[t] == Thread(Ready, UntrackCalls(agvs) + [DropConnectionCall]) && f1.tracked == f.tracked;
    var rest;
    rest, f' := UntrackAll(f1, t, agvs);
    RunsCons(f, st, rest, f');
    steps := [st] + rest;
  }

  lemma SnapshotHasAll(f: Fleet, order: seq<string>)
    requires Inv(f) && Enumerates(order, f.tracked.Keys)
    ensures forall k | k in f.tracked :: exists a :: a in AgvsOf(f.tracked, order) && a.Key() == k
  {
    hide BrokerInv, LockInv, ThreadInv, ConnInv, GoodChannels;
    forall k | k in f.tracked
      ensures exists a :: a in AgvsOf(f.tracked, order) && a.Key() == k
    {
      assert k in order;
      var i :| 0 <= i < |order| && order[i] == k;
      assert AgvsOf(f.tracked, order)[i] == f.tracked[k].agv;
      assert EntryOk(f.topics, f.channels, f.filterOf, k, f.tracked[k]);
    }
  }
}
