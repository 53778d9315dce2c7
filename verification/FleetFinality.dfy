/**
 When an Untrack is final. An AGV that is not tracked can come back without
 anybody asking for it: a Restore tracks its snapshot again, and a Track that
 began earlier may commit late. The exact condition is that no call in flight
 has such a Track still to come.
 */
module FleetFinality {
  import opened Streams
  import opened Topics
  import opened Subscriptions
  import opened FleetProtocol
  import opened FleetSteps
  import opened FleetTheorems
  import opened FleetByFilter
  import opened FleetDrive

  ghost predicate Tracking(c: Call, k: string) {
    c.TrackCall? && c.agv.Key() == k
  }

  /** The thread may still track k: it is at it, or has it on its list, or in the snapshot of its Restore. */
  ghost predicate MayTrack(th: Thread, k: string) {
    || (th.frame.Subscribing? && th.frame.agv.Key() == k)
    || (th.frame.Clearing? && exists a :: a in th.frame.agvs && a.Key() == k)
    || exists c :: c in th.todo && Tracking(c, k)
  }

  ghost predicate NobodyMayTrack(f: Fleet, k: string) {
    forall u | 0 <= u < |f.threads| :: !MayTrack(f.threads[u], k)
  }

  /** Nobody asks for k to be tracked; any other call may be made, and sessions may be lost. */
  ghost predicate Unasked(steps: seq<Step>, k: string) {
    forall st | st in steps && st.Spawn? :: !Tracking(st.call, k)
  }

  /** However it goes on from f, as long as nobody asks for it, k is not tracked. */
  ghost predicate StaysUntracked(f: Fleet, k: string) {
    forall steps, f' | Runs(f, steps, f') && Unasked(steps, k) :: k !in f'.tracked
  }

  // ---- Enough ------------------------------------------------------------------------------

  ghost predicate Gone(f: Fleet, k: string) {
    k !in f.tracked && NobodyMayTrack(f, k)
  }

  lemma SetGone(f: Fleet, f': Fleet, t: nat, k: string)
    requires Gone(f, k) && t < |f.threads| == |f'.threads| && f'.threads == f.threads[t := f'.threads[t]]
    requires k !in f'.tracked && !MayTrack(f'.threads[t], k)
    ensures Gone(f', k)
  {
    hide MayTrack;
  }

  /** A snapshot of the tracked AGVs does not bring in another key. */
  lemma SnapshotWithout(f: Fleet, order: seq<string>, k: string)
    requires Inv(f) && Enumerates(order, f.tracked.Keys) && k !in f.tracked
    ensures forall a | a in AgvsOf(f.tracked, order) :: a.Key() != k
  {
    hide BrokerInv, LockInv, ThreadInv, ConnInv, GoodChannels;
    forall i | 0 <= i < |order|
      ensures f.tracked[order[i]].agv.Key() == order[i] && order[i] != k
    {
      assert order[i] in order;
      assert EntryOk(f.topics, f.channels, f.filterOf, order[i], f.tracked[order[i]]);
    }
    hide Inv, AGV.Key;
  }

  lemma RestOfGone(th: Thread, k: string)
    requires !MayTrack(th, k) && th.todo != []
    ensures !Tracking(th.todo[0], k)
    ensures forall c | c in th.todo[1..] :: !Tracking(c, k)
  {
    hide Tracking;
    assert th.todo[0] in th.todo && forall c | c in th.todo[1..] :: c in th.todo;
  }

  lemma BeginGone(f: Fleet, t: nat, ok: bool, order: seq<string>, k: string)
    requires Inv(f) && Gone(f, k) && Enabled(f, Begin(t, ok, order))
    ensures Gone(BeginCall(f, t, ok, order), k)
  {
    hide Inv, AGV.Key, Resolver.Wildcard, Hand, IdsOf, AgvsOf, MayTrack;
    var f' := BeginCall(f, t, ok, order);
    assert !MayTrack(f.threads[t], k);
    RestOfGone(f.threads[t], k);
    SnapshotWithout(f, order, k);
    BeginMovesOne(f, t, ok, order);
    BegunUntracked(f, t, ok, order, k);
    BegunGone(f, t, ok, order, k);
    hide Gone, Enabled, BeginCall;
    SetGone(f, f', t, k);
  }

  lemma BegunUntracked(f: Fleet, t: nat, ok: bool, order: seq<string>, k: string)
    requires Enabled(f, Begin(t, ok, order)) && k !in f.tracked
    ensures k !in BeginCall(f, t, ok, order).tracked
  {
    hide AgvsOf, IdsOf, Hand, AGV.Key, UntrackCalls, Resolver.Wildcard;
    match f.threads[t].todo[0]
    case UntrackCall(agv) =>
    case RestoreCall =>
    case _ => hide Enabled;
  }

  lemma BegunGone(f: Fleet, t: nat, ok: bool, order: seq<string>, k: string)
    requires Enabled(f, Begin(t, ok, order)) && !Tracking(f.threads[t].todo[0], k)
    requires forall c | c in f.threads[t].todo[1..] :: !Tracking(c, k)
    requires forall a | a in AgvsOf(f.tracked, order) :: a.Key() != k
    ensures var f' := BeginCall(f, t, ok, order); t < |f'.threads| && !MayTrack(f'.threads[t], k)
  {
    hide IdsOf, Hand, AGV.Key, Resolver.Wildcard, Tracking, AgvsOf, UntrackCalls;
    match f.threads[t].todo[0]
    case StopCall =>
      StopTracksNothing(AgvsOf(f.tracked, order), f.threads[t].todo[1..], k);
      hide MayTrack;
    case TrackCall(agv, notify) => NotFor(f.threads[t].todo[0], k);
    case _ =>
  }

  lemma NotFor(c: Call, k: string)
    requires c.TrackCall? && !Tracking(c, k)
    ensures c.agv.Key() != k
  {
  }

  lemma StopTracksNothing(agvs: seq<AGV>, rest: seq<Call>, k: string)
    requires forall c | c in rest :: !Tracking(c, k)
    ensures !MayTrack(Thread(Ready, UntrackCalls(agvs) + [DropConnectionCall] + rest), k)
  {
    hide AGV.Key;
  }

  lemma LaterGone(f: Fleet, st: Step, k: string)
    requires Gone(f, k) && Enabled(f, st) && !st.Begin? && !st.Spawn? && !st.SessionLoss?
    ensures Gone(Apply(f, st), k)
  {
    hide AGV.Key, Hand, Resolver.Build;
    assert !MayTrack(f.threads[st.thread], k);
    SetGone(f, Apply(f, st), st.thread, k);
  }

  lemma StepGone(f: Fleet, st: Step, k: string)
    requires Inv(f) && Gone(f, k) && Enabled(f, st) && (st.Spawn? ==> !Tracking(st.call, k))
    ensures Gone(Apply(f, st), k)
  {
    hide Inv;
    if st.Begin? {
      hide Gone, BeginCall;
      BeginGone(f, st.thread, st.ok, st.order, k);
    } else if st.Spawn? {
      assert !MayTrack(Thread(Ready, [st.call]), k);
      hide MayTrack;
    } else if !st.SessionLoss? {
      hide Gone;
      LaterGone(f, st, k);
    }
  }

  lemma {:induction false} RunGone(f: Fleet, steps: seq<Step>, f': Fleet, k: string)
    requires Inv(f) && Gone(f, k) && Runs(f, steps, f') && Unasked(steps, k)
    ensures Gone(f', k)
    decreases |steps|
  {
    hide Inv, Gone, Apply, Enabled, Tracking;
    if steps != [] {
      assert steps[0] in steps && forall st | st in steps[1..] :: st in steps;
      StepKeepsInv(f, steps[0]);
      StepGone(f, steps[0], k);
      RunGone(Apply(f, steps[0]), steps[1..], f', k);
    }
  }

  // ---- Not enough --------------------------------------------------------------------------

  /** A thread that has k among its next calls drops only calls that are not for k on its way there. */
  lemma NextUp(th: Thread, k: string)
    requires Shaped(th) && th.frame.Ready? && MayTrack(th, k)
    ensures th.todo != [] && (th.todo[0].TrackCall? || th.todo[0].StartCall?)
    ensures !Tracking(th.todo[0], k) ==> forall g :: MayTrack(Thread(g, th.todo[1..]), k)
  {
    hide AGV.Key;
    var c :| c in th.todo && Tracking(c, k);
    assert th.todo == [th.todo[0]] + th.todo[1..];
  }

  /** The thread that may track k is let run, every subscribe call succeeding, until k is tracked. */
  lemma {:induction false} DriveToTrack(f: Fleet, u: nat, k: string) returns (steps: seq<Step>, f': Fleet)
    requires Inv(f) && AllShaped(f) && f.lock.None? && u < |f.threads| && MayTrack(f.threads[u], k)
    ensures Runs(f, steps, f') && Quiet(steps) && k in f'.tracked
    decreases |f.threads[u].todo|, Rank(f.threads[u].frame)
  {
    hide Inv, AllShaped, Apply, Runs, Misses, AGV.Key;
    if k in f.tracked {
      RunsNone(f);
      return [], f;
    }
    var first, mid := DriveOne(f, u, k);
    if k in mid.tracked {
      return first, mid;
    }
    RunShaped(f, first, mid);
    var rest;
    rest, f' := DriveToTrack(mid, u, k);
    RunsConcat(f, first, mid, rest, f');
    steps := first + rest;
  }

  lemma DriveOne(f: Fleet, u: nat, k: string) returns (steps: seq<Step>, f': Fleet)
    requires Inv(f) && AllShaped(f) && f.lock.None? && u < |f.threads| && MayTrack(f.threads[u], k) && k !in f.tracked
    ensures Runs(f, steps, f') && Quiet(steps) && Inv(f') && f'.lock.None? && |f'.threads| == |f.threads|
    ensures k in f'.tracked || MayTrack(f'.threads[u], k)
    ensures var th, th' := f.threads[u], f'.threads[u];
            |th'.todo| < |th.todo| || (th'.todo == th.todo && Rank(th'.frame) < Rank(th.frame))
  {
    hide Inv, Apply, Runs, Misses, AGV.Key, Shaped;
    var th := f.threads[u];
    NotClearing(f, u);
    if th.frame.Removing? {
      steps, f' := RemoveAll(f, u);
    } else if th.frame.Subscribing? {
      SubscribingBound(f, u);
      var mid;
      steps, mid := Fill(f, u);
      CommitMoves(mid, u);
      f' := Apply(mid, Commit(u));
      RunsNone(f');
      RunsCons(mid, Commit(u), [], f');
      RunsConcat(f, steps, mid, [Commit(u)] + [], f');
      steps := steps + ([Commit(u)] + []);
    } else {
      NextUp(th, k);
      var order := Listed(f.tracked.Keys);
      var st := Begin(u, true, order);
      if th.todo[0].TrackCall? {
        TrackMoves(f, u, true, order);
      } else {
        StartMoves(f, u, order);
      }
      f' := Apply(f, st);
      RunsNone(f');
      RunsCons(f, st, [], f');
      steps := [st] + [];
    }
  }

  /** A Restore in its locked section gets through it first. */
  lemma Unlock(f: Fleet, u: nat, k: string) returns (steps: seq<Step>, f': Fleet)
    requires Inv(f) && u < |f.threads| && MayTrack(f.threads[u], k)
    ensures Runs(f, steps, f') && Quiet(steps) && Inv(f') && f'.lock.None? && |f'.threads| == |f.threads|
    ensures MayTrack(f'.threads[u], k)
  {
    if f.lock.None? {
      RunsNone(f);
      return [], f;
    }
    Locked(f);
    var t := f.lock.value;
    hide Inv, Apply, Runs, Misses, AGV.Key;
    steps, f' := ClearAll(f, t);
    if t == u {
      SnapshotIsTodo(f.threads[u], f'.threads[u], k);
    }
  }

  lemma Locked(f: Fleet)
    requires Inv(f) && f.lock.Some?
    ensures f.lock.value < |f.threads| && f.threads[f.lock.value].frame.Clearing?
  {
    hide EntryInv, ThreadInv, ConnInv, BrokerInv, GoodChannels;
  }

  lemma SnapshotIsTodo(th: Thread, th': Thread, k: string)
    requires th.frame.Clearing? && MayTrack(th, k)
    requires th' == Thread(Ready, [StartCall] + TrackCalls(th.frame.agvs) + th.todo)
    ensures MayTrack(th', k)
  {
    if a :| a in th.frame.agvs && a.Key() == k {
      var i :| 0 <= i < |th.frame.agvs| && th.frame.agvs[i] == a;
      assert TrackCalls(th.frame.agvs)[i] == TrackCall(a, false);
      assert TrackCall(a, false) in TrackCalls(th.frame.agvs);
      assert TrackCall(a, false) in th'.todo && Tracking(TrackCall(a, false), k);
    } else {
      var c :| c in th.todo && Tracking(c, k);
      assert c in th'.todo;
    }
  }

  // ---- The exact condition ---------------------------------------------------------------------

  /**
   Exactly when an AGV that is not tracked stays so until somebody asks for it: when no call in flight may still
   track it.
   */
  lemma StaysUntrackedExactly(f: Fleet, k: string)
    requires Reachable(f) && k !in f.tracked
    ensures StaysUntracked(f, k) <==> NobodyMayTrack(f, k)
  {
    hide Inv, Runs, Reachable, AllShaped, MayTrack, Tracking;
    ReachableInv(f);
    ReachableShaped(f);
    if NobodyMayTrack(f, k) {
      forall steps, f' | Runs(f, steps, f') && Unasked(steps, k)
        ensures k !in f'.tracked
      {
        RunGone(f, steps, f', k);
      }
    } else {
      var u :| 0 <= u < |f.threads| && MayTrack(f.threads[u], k);
      var steps, mid := Unlock(f, u, k);
      RunShaped(f, steps, mid);
      var more, f' := DriveToTrack(mid, u, k);
      RunsConcat(f, steps, mid, more, f');
      assert Unasked(steps + more, k);
    }
  }

  /** So an Untrack is final, as soon as it has begun, exactly when no other call in flight may track its AGV. */
  lemma UntrackIsFinalExactly(f: Fleet, st: Step)
    requires Reachable(f) && Begins(f, st) && Enabled(f, st) && CallOf(f, st).UntrackCall?
    ensures var f', k := Apply(f, st), CallOf(f, st).agv.Key();
            k !in f'.tracked && (StaysUntracked(f', k) <==> NobodyMayTrack(f', k))
  {
    hide Reachable, Runs, StaysUntracked, NobodyMayTrack, AGV.Key;
    var f', k := Apply(f, st), CallOf(f, st).agv.Key();
    assert k !in f'.tracked;
    hide Apply, Enabled;
    RunsNone(f');
    RunsCons(f, st, [], f');
    ReachableOn(f, [st] + [], f');
    StaysUntrackedExactly(f', k);
  }
}
