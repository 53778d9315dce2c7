/**
 Lost sessions, and what a Restore makes good while other calls are under way:
 everything, exactly when no Track that is still subscribing had already lost
 one of its subscriptions when the Restore began.
 */
module FleetRecovery {
  import opened Streams
  import opened Topics
  import opened Subscriptions
  import opened FleetProtocol
  import opened FleetSteps
  import opened FleetTheorems
  import opened FleetByFilter
  import opened FleetDrive

  ghost predicate NoLoss(steps: seq<Step>) {
    forall st | st in steps :: !st.SessionLoss?
  }

  /** The step is the first section of a Restore. */
  ghost predicate BeginsRestore(f: Fleet, st: Step) {
    Begins(f, st) && Enabled(f, st) && CallOf(f, st).RestoreCall?
  }

  /** Thread u is tracking an AGV and the broker has lost the subscription id it already holds for it. */
  ghost predicate LostInTrack(f: Fleet, u: nat, id: nat) {
    u < |f.threads| && f.threads[u].frame.Subscribing? && id in f.threads[u].frame.ids && id in f.dropped
  }

  ghost predicate NoTrackHit(f: Fleet) {
    forall u: nat, id: nat :: !LostInTrack(f, u, id)
  }

  // ---- Enough ---------------------------------------------------------------------------------

  /** Whatever is lost is about to be ended by the call that answers for it. */
  ghost predicate OnItsWayOut(f: Fleet, id: nat) {
    id in f.owner && f.owner[id].ByThread? && f.owner[id].thread < |f.threads|
    && (f.threads[f.owner[id].thread].frame.Removing? || f.threads[f.owner[id].thread].frame.Clearing?)
  }

  ghost predicate Healing(f: Fleet) {
    forall id | id in f.dropped :: OnItsWayOut(f, id)
  }

  lemma RestoreHeals(f: Fleet, st: Step)
    requires Inv(f) && BeginsRestore(f, st) && NoTrackHit(f)
    ensures Healing(Apply(f, st))
  {
    var t, f' := st.thread, Apply(f, st);
    RestoreIds(f, st.order);
    DroppedIsClaimed(f);
    RestoreBegins(f, st);
    forall id | id in f'.dropped
      ensures OnItsWayOut(f', id)
    {
      OwnerHolds(f, id, f.owner[id]);
      if f.owner[id].ByThread? {
        var u := f.owner[id].thread;
        assert !LostInTrack(f, u, id);
      }
      hide Inv, IdsOf, AgvsOf, Hand;
    }
  }

  /** Either there was nothing to restore, or the thread holds all that the session had. */
  lemma RestoreBegins(f: Fleet, st: Step)
    requires Inv(f) && BeginsRestore(f, st)
    ensures var t, f' := st.thread, Apply(f, st);
            && f'.topics == f.topics && f'.channels == f.channels && f'.dropped == f.dropped
            && |f'.threads| == |f.threads|
            && (forall u | 0 <= u < |f.threads| && u != t :: f'.threads[u] == f.threads[u])
            && f'.tracked == map[] && f'.conn == None && !f'.started && !f'.threads[t].frame.Subscribing?
            && (f'.lock.None? || (f'.lock == Some(t) && f'.threads[t].frame.Clearing?))
            && (forall id | id in f.owner && f.owner[id].ByThread? && f.owner[id].thread != t ::
                  id in f'.owner && f'.owner[id] == f.owner[id])
            && (forall id | id in f.owner && !f.owner[id].ByThread? ::
                  id in f'.owner && f'.owner[id] == ByThread(t) && f'.threads[t].frame.Clearing?)
  {
    RestoreIds(f, st.order);
    hide Inv, IdsOf, AgvsOf, Hand;
  }

  /** id keeps its owner, and its owner's thread goes on with what it is doing. */
  lemma StillOnItsWayOut(f: Fleet, f': Fleet, id: nat)
    requires OnItsWayOut(f, id) && id in f'.owner && f'.owner[id] == f.owner[id] && |f.threads| <= |f'.threads|
    requires var u := f.owner[id].thread; f'.threads[u] == f.threads[u]
    ensures OnItsWayOut(f', id)
  {
  }

  /** What the first section of a call hands to its thread, or ends, was not on its way out. */
  lemma BeginKeepsOwner(f: Fleet, t: nat, ok: bool, order: seq<string>, id: nat)
    requires Inv(f) && Enabled(f, Begin(t, ok, order)) && id in f.owner && f.owner[id].ByThread?
    ensures var f' := BeginCall(f, t, ok, order); id in f'.owner && f'.owner[id] == f.owner[id]
  {
    match f.threads[t].todo[0]
    case RestoreCall =>
      RestoreIds(f, order);
      hide Inv, IdsOf, AgvsOf;
    case UntrackCall(agv) =>
      if agv.Key() in f.tracked {
        EntryOwns(f, agv.Key());
      }
      hide Inv, AGV.Key;
    case DropConnectionCall =>
      if f.conn.Some? {
        OwnerHolds(f, f.conn.value, ByConnection);
      }
      hide Inv;
    case StartCall =>
      NewBroker(f, "", ByConnection);
      hide Inv, Resolver.Wildcard;
    case TrackCall(agv, notify) => hide Inv, AGV.Key;
    case StopCall => hide Inv, AgvsOf, UntrackCalls;
  }

  lemma BeginLosesNothing(f: Fleet, t: nat, ok: bool, order: seq<string>)
    requires Enabled(f, Begin(t, ok, order))
    ensures BeginCall(f, t, ok, order).dropped <= f.dropped
  {
    hide IdsOf, AgvsOf, Hand, TrackCalls, UntrackCalls, AGV.Key, Resolver.Wildcard;
    match f.threads[t].todo[0]
    case DropConnectionCall =>
    case _ => hide EndSubscription;
  }

  lemma BeginHeals(f: Fleet, t: nat, ok: bool, order: seq<string>)
    requires Inv(f) && Healing(f) && Enabled(f, Begin(t, ok, order))
    ensures Healing(BeginCall(f, t, ok, order))
  {
    var f' := BeginCall(f, t, ok, order);
    BeginLosesNothing(f, t, ok, order);
    BeginMovesOne(f, t, ok, order);
    forall id | id in f'.dropped
      ensures OnItsWayOut(f', id)
    {
      BeginKeepsOwner(f, t, ok, order, id);
      hide Inv, BeginCall;
      StillOnItsWayOut(f, f', id);
    }
  }

  /** What the other steps leave of an id that is on its way out. */
  lemma LaterOwner(f: Fleet, st: Step, id: nat)
    requires Inv(f) && Enabled(f, st) && !st.Begin? && !st.Spawn? && !st.SessionLoss?
    requires id in Apply(f, st).dropped && OnItsWayOut(f, id)
    ensures OnItsWayOut(Apply(f, st), id)
  {
    ThreadOwns(f, st.thread);
    NewBroker(f, "", ByConnection);
    hide Inv, AGV.Key, Resolver.Build, TrackCalls;
  }

  lemma LaterLosesNothing(f: Fleet, st: Step)
    requires Enabled(f, st) && !st.Begin? && !st.SessionLoss?
    ensures Apply(f, st).dropped <= f.dropped
  {
    hide AGV.Key, Resolver.Build, TrackCalls, Hand;
  }

  lemma SpawnedLater(f: Fleet, call: Call, id: nat)
    requires OnItsWayOut(f, id)
    ensures OnItsWayOut(Apply(f, Spawn(call)), id)
  {
  }

  lemma StepHeals(f: Fleet, st: Step)
    requires Inv(f) && Healing(f) && Enabled(f, st) && !st.SessionLoss?
    ensures Healing(Apply(f, st))
  {
    hide Inv, OnItsWayOut;
    if st.Begin? {
      hide Healing;
      BeginHeals(f, st.thread, st.ok, st.order);
    } else {
      LaterLosesNothing(f, st);
      forall id | id in Apply(f, st).dropped
        ensures OnItsWayOut(Apply(f, st), id)
      {
        if st.Spawn? {
          SpawnedLater(f, st.call, id);
        } else {
          LaterOwner(f, st, id);
        }
      }
    }
  }

  lemma {:induction false} RunHeals(f: Fleet, steps: seq<Step>, f': Fleet)
    requires Inv(f) && Healing(f) && Runs(f, steps, f') && NoLoss(steps)
    ensures Healing(f') && Inv(f')
    decreases |steps|
  {
    hide Inv, Healing, Apply, Enabled;
    if steps != [] {
      assert steps[0] in steps && forall st | st in steps[1..] :: st in steps;
      StepKeepsInv(f, steps[0]);
      StepHeals(f, steps[0]);
      RunHeals(Apply(f, steps[0]), steps[1..], f');
    }
  }

  lemma HealedAtRest(f: Fleet)
    requires Healing(f) && Quiescent(f)
    ensures f.dropped == {}
  {
    forall id
      ensures id !in f.dropped
    {
      NoneOnItsWayOut(f, id);
    }
  }

  lemma NoneOnItsWayOut(f: Fleet, id: nat)
    requires Quiescent(f)
    ensures !OnItsWayOut(f, id)
  {
  }

  // ---- Not enough -----------------------------------------------------------------------------

  /** The session has nothing, and nobody has locked it. */
  ghost predicate Blank(f: Fleet) {
    f.tracked == map[] && f.conn.None? && !f.started && f.lock.None?
  }

  /** What a first section leaves to do when nothing is tracked and no subscribe call succeeds. */
  function LeftToDo(todo: seq<Call>): Thread
    requires todo != []
  {
    match todo[0]
    case TrackCall(agv, notify) => Thread(Subscribing(agv, notify, []), todo[1..])
    case StartCall => Thread(Ready, [])
    case StopCall => Thread(Ready, [DropConnectionCall] + todo[1..])
    case _ => Thread(Ready, todo[1..])
  }

  lemma BlankBegin(f: Fleet, t: nat)
    requires Inv(f) && Blank(f) && t < |f.threads| && f.threads[t].frame.Ready? && f.threads[t].todo != []
    ensures Enabled(f, Begin(t, false, []))
    ensures var f1 := Apply(f, Begin(t, false, []));
            Moved(f, f1, t) && Blank(f1) && f1.threads[t] == LeftToDo(f.threads[t].todo) && Inv(f1)
  {
    BlankApply(f, t);
    StepKeepsInv(f, Begin(t, false, []));
    hide Inv, AGV.Key, Apply;
  }

  lemma BlankApply(f: Fleet, t: nat)
    requires Blank(f) && t < |f.threads| && f.threads[t].frame.Ready? && f.threads[t].todo != []
    ensures Enabled(f, Begin(t, false, []))
    ensures Apply(f, Begin(t, false, [])) == SetThread(f, t, LeftToDo(f.threads[t].todo))
  {
    assert Enumerates([], f.tracked.Keys);
    match f.threads[t].todo[0]
    case StopCall =>
      assert UntrackCalls(AgvsOf(f.tracked, [])) == [];
      assert [] + [DropConnectionCall] == [DropConnectionCall];
    case _ => hide UntrackCalls, AgvsOf, AGV.Key;
  }

  ghost function Weight(todo: seq<Call>): nat {
    if todo == [] then 0 else (if todo[0].StopCall? then 2 else 1) + Weight(todo[1..])
  }

  lemma DropWeighs(rest: seq<Call>)
    ensures Weight([DropConnectionCall] + rest) == 1 + Weight(rest)
  {
    assert ([DropConnectionCall] + rest)[1..] == rest;
  }

  /** A thread that is not subscribing does all it has left to do and leaves the session as it is. */
  lemma {:induction false} WindUp(f: Fleet, t: nat) returns (steps: seq<Step>, f': Fleet)
    requires Inv(f) && Blank(f) && f.channels != [] && t < |f.threads|
    requires f.threads[t].frame.Ready? || f.threads[t].frame.Removing?
    ensures Runs(f, steps, f') && Quiet(steps) && Inv(f') && Blank(f') && Moved(f, f', t)
    ensures f'.threads[t] == Thread(Ready, [])
    decreases Weight(f.threads[t].todo), if f.threads[t].frame.Removing? then 1 else 0
  {
    hide Inv, Apply, Enabled, Runs, Misses;
    var first, mid, rest;
    if f.threads[t].frame.Removing? {
      first, mid := RemoveAll(f, t);
    } else if f.threads[t].todo == [] {
      RunsNone(f);
      MovedNot(f, t);
      return [], f;
    } else {
      BlankBegin(f, t);
      var st := Begin(t, false, []);
      mid := Apply(f, st);
      RunsNone(mid);
      RunsCons(f, st, [], mid);
      first := [st] + [];
      DropWeighs(f.threads[t].todo[1..]);
      if mid.threads[t].frame.Subscribing? {
        var back, failed;
        back, failed := Fail(mid, t);
        RunsConcat(f, first, mid, back, failed);
        MovedOn(f, mid, failed, t);
        return first + back, failed;
      }
    }
    rest, f' := WindUp(mid, t);
    RunsConcat(f, first, mid, rest, f');
    MovedOn(f, mid, f', t);
    steps := first + rest;
  }

  lemma HeldApart(f: Fleet, t: nat, u: nat, id: nat)
    requires Inv(f) && t < |f.threads| && u < |f.threads| && t != u && id in Held(f.threads[u])
    ensures id !in Held(f.threads[t])
  {
    ThreadOwns(f, t);
    ThreadOwns(f, u);
  }

  /** Of the first n threads, those that are not subscribing have nothing left to do. */
  ghost predicate WoundUp(f: Fleet, n: nat) {
    forall t: nat | t < n && t < |f.threads| && !f.threads[t].frame.Subscribing? :: f.threads[t] == Thread(Ready, [])
  }

  /** All threads that are not subscribing wind up; the one that has lost a subscription rests. */
  lemma {:induction false} WindAllUp(f: Fleet, u: nat, id: nat, n: nat) returns (steps: seq<Step>, f': Fleet)
    requires Inv(f) && Blank(f) && f.channels != [] && LostInTrack(f, u, id) && n <= |f.threads|
    ensures Runs(f, steps, f') && Quiet(steps) && Inv(f') && Blank(f') && LostInTrack(f', u, id)
    ensures f'.topics == f.topics && f'.channels == f.channels && |f'.threads| == |f.threads| && WoundUp(f', n)
    ensures forall t: nat | t < |f.threads| && (f'.threads[t].frame.Subscribing? || t >= n) ::
              f'.threads[t] == f.threads[t]
    decreases n
  {
    hide Inv, Runs, Misses;
    if n == 0 {
      RunsNone(f);
      return [], f;
    }
    var mid, more;
    steps, mid := WindAllUp(f, u, id, n - 1);
    var t := n - 1;
    if mid.threads[t].frame.Subscribing? {
      return steps, mid;
    }
    NotClearing(mid, t);
    more, f' := WindUp(mid, t);
    RunsConcat(f, steps, mid, more, f');
    steps := steps + more;
    StillLost(mid, f', t, u, id);
  }

  lemma StillLost(f: Fleet, f': Fleet, t: nat, u: nat, id: nat)
    requires Inv(f) && Moved(f, f', t) && t != u && LostInTrack(f, u, id)
    ensures LostInTrack(f', u, id)
  {
    HeldApart(f, t, u, id);
    hide Inv;
    assert Misses(f, t, id);
  }

  // ---- The Track that lost a subscription commits ----------------------------------------------

  /** An AGV is tracked, and the broker has lost the subscription id its entry counts on. */
  ghost predicate LostInEntry(f: Fleet, k: string, id: nat) {
    k in f.tracked && id in f.tracked[k].ids && id in f.dropped
  }

  lemma CommitLost(f: Fleet, u: nat, id: nat) returns (steps: seq<Step>, f': Fleet)
    requires Inv(f) && Blank(f) && LostInTrack(f, u, id)
    ensures Runs(f, steps, f') && Quiet(steps) && Inv(f') && f'.lock.None? && f'.channels == f.channels
    ensures LostInEntry(f', f.threads[u].frame.agv.Key(), id)
    ensures |f'.threads| == |f.threads| && f'.threads[u] == Thread(Ready, f.threads[u].todo)
    ensures forall t: nat | t < |f.threads| && t != u :: f'.threads[t] == f.threads[t]
  {
    hide Inv, Apply, Runs, Misses, AGV.Key;
    SubscribingBound(f, u);
    var mid;
    steps, mid := Fill(f, u);
    assert LostInTrack(mid, u, id) && Enabled(mid, Commit(u)) && Blank(mid);
    CommitOnBlank(mid, u, id);
    f' := Apply(mid, Commit(u));
    hide Enabled, LostInTrack, LostInEntry, Blank;
    RunsNone(f');
    RunsCons(mid, Commit(u), [], f');
    RunsConcat(f, steps, mid, [Commit(u)] + [], f');
    steps := steps + ([Commit(u)] + []);
  }

  lemma CommitOnBlank(f: Fleet, u: nat, id: nat)
    requires Inv(f) && Blank(f) && LostInTrack(f, u, id) && Enabled(f, Commit(u))
    ensures var f' := Apply(f, Commit(u));
            && f'.lock.None? && f'.channels == f.channels && LostInEntry(f', f.threads[u].frame.agv.Key(), id)
            && |f'.threads| == |f.threads| && f'.threads[u] == Thread(Ready, f.threads[u].todo)
            && forall t: nat | t < |f.threads| && t != u :: f'.threads[t] == f.threads[t]
    ensures Inv(Apply(f, Commit(u)))
  {
    CommitMoves(f, u);
    hide Inv, Apply, Misses, AGV.Key;
  }

  // ---- The rest settles --------------------------------------------------------------------------

  ghost predicate OnlyTracks(th: Thread) {
    !th.frame.Clearing? && Tracks(th.todo)
  }

  /** A thread with nothing but Tracks left to do gets through them and untracks nothing. */
  lemma {:induction false} Settle(f: Fleet, t: nat) returns (steps: seq<Step>, f': Fleet)
    requires Inv(f) && f.lock.None? && t < |f.threads| && OnlyTracks(f.threads[t])
    ensures Runs(f, steps, f') && Quiet(steps) && Inv(f') && f'.lock.None? && Moved(f, f', t)
    ensures f'.threads[t] == Thread(Ready, [])
    decreases |f.threads[t].todo|, Rank(f.threads[t].frame)
  {
    hide Inv, Apply, Runs, Misses, AGV.Key;
    if f.threads[t] == Thread(Ready, []) {
      RunsNone(f);
      MovedNot(f, t);
      return [], f;
    }
    var first, mid := SettleOne(f, t);
    var rest;
    rest, f' := Settle(mid, t);
    RunsConcat(f, first, mid, rest, f');
    MovedOn(f, mid, f', t);
    steps := first + rest;
  }

  lemma SettleOne(f: Fleet, t: nat) returns (steps: seq<Step>, f': Fleet)
    requires Inv(f) && f.lock.None? && t < |f.threads| && OnlyTracks(f.threads[t]) && f.threads[t] != Thread(Ready, [])
    ensures Runs(f, steps, f') && Quiet(steps) && Inv(f') && f'.lock.None? && Moved(f, f', t)
    ensures OnlyTracks(f'.threads[t])
    ensures var th, th' := f.threads[t], f'.threads[t];
            |th'.todo| < |th.todo| || (th'.todo == th.todo && Rank(th'.frame) < Rank(th.frame))
  {
    hide Inv, Apply, Runs, Misses, AGV.Key;
    var th := f.threads[t];
    if th.frame.Removing? {
      steps, f' := RemoveAll(f, t);
    } else if th.frame.Ready? {
      assert th.todo[0] in th.todo && forall c | c in th.todo[1..] :: c in th.todo;
      var order := Listed(f.tracked.Keys);
      TrackMoves(f, t, true, order);
      f' := Apply(f, Begin(t, true, order));
      RunsNone(f');
      RunsCons(f, Begin(t, true, order), [], f');
      steps := [Begin(t, true, order)] + [];
    } else {
      SubscribingBound(f, t);
      var mid;
      steps, mid := Fill(f, t);
      CommitMoves(mid, t);
      f' := Apply(mid, Commit(t));
      RunsNone(f');
      RunsCons(mid, Commit(t), [], f');
      RunsConcat(f, steps, mid, [Commit(t)] + [], f');
      MovedOn(f, mid, f', t);
      steps := steps + ([Commit(t)] + []);
    }
  }

  lemma EntryApart(f: Fleet, t: nat, k: string, id: nat)
    requires Inv(f) && t < |f.threads| && LostInEntry(f, k, id)
    ensures Misses(f, t, id)
  {
    ThreadOwns(f, t);
    EntryOwns(f, k);
  }

  lemma {:induction false} SettleAll(f: Fleet, k: string, id: nat, n: nat) returns (steps: seq<Step>, f': Fleet)
    requires Inv(f) && f.lock.None? && LostInEntry(f, k, id) && n <= |f.threads|
    requires forall t | 0 <= t < |f.threads| :: OnlyTracks(f.threads[t])
    ensures Runs(f, steps, f') && Quiet(steps) && Inv(f') && f'.lock.None? && LostInEntry(f', k, id)
    ensures |f'.threads| == |f.threads| && forall t | 0 <= t < |f.threads| :: OnlyTracks(f'.threads[t])
    ensures forall t | 0 <= t < n :: f'.threads[t] == Thread(Ready, [])
    decreases n
  {
    hide Inv, Runs;
    if n == 0 {
      RunsNone(f);
      return [], f;
    }
    var mid, more;
    steps, mid := SettleAll(f, k, id, n - 1);
    more, f' := Settle(mid, n - 1);
    EntryApart(mid, n - 1, k, id);
    hide Misses;
    RunsConcat(f, steps, mid, more, f');
    steps := steps + more;
  }

  // ---- The exact condition -----------------------------------------------------------------------

  lemma AfterRestore(f: Fleet, st: Step, u: nat, id: nat) returns (steps: seq<Step>, f': Fleet)
    requires Inv(f) && BeginsRestore(f, st) && LostInTrack(f, u, id)
    ensures Runs(Apply(f, st), steps, f') && Quiet(steps) && Inv(f') && Blank(f') && LostInTrack(f', u, id)
    ensures f'.threads[u] == f.threads[u]
  {
    var f1 := Apply(f, st);
    StepKeepsInv(f, st);
    RestoreBegins(f, st);
    assert LostInTrack(f1, u, id);
    hide Inv, Apply, Runs, Misses, BeginsRestore;
    if f1.lock.None? {
      RunsNone(f1);
      return [], f1;
    }
    steps, f' := ClearAll(f1, st.thread);
    StillLost(f1, f', st.thread, u, id);
  }

  /** The other calls wind up, and then the Track that has lost a subscription commits. */
  lemma CommitsLast(f: Fleet, u: nat, id: nat) returns (steps: seq<Step>, f': Fleet)
    requires Inv(f) && AllShaped(f) && Blank(f) && LostInTrack(f, u, id)
    ensures Runs(f, steps, f') && Quiet(steps) && Inv(f') && f'.lock.None?
    ensures LostInEntry(f', f.threads[u].frame.agv.Key(), id)
    ensures forall t | 0 <= t < |f'.threads| :: OnlyTracks(f'.threads[t])
  {
    hide Inv, Apply, Runs, Misses, Shaped, Blank, AGV.Key, LostInEntry, OnlyTracks, AllShaped, WoundUp, Enabled;
    SubscribingBound(f, u);
    var mid, more;
    steps, mid := WindAllUp(f, u, id, |f.threads|);
    more, f' := CommitLost(mid, u, id);
    RunsConcat(f, steps, mid, more, f');
    steps := steps + more;
    forall t | 0 <= t < |f'.threads|
      ensures OnlyTracks(f'.threads[t])
    {
      assert mid.threads[t].frame.Subscribing? ==> mid.threads[t] == f.threads[t];
      TracksLeft(f, mid, f', t, u);
    }
  }

  /** A Track that has lost a subscription can outlast the Restore and stay without it. */
  lemma CanStayLost(f: Fleet, st: Step, u: nat, id: nat) returns (steps: seq<Step>, f': Fleet)
    requires Inv(f) && AllShaped(f) && BeginsRestore(f, st) && LostInTrack(f, u, id)
    ensures Runs(Apply(f, st), steps, f') && Quiet(steps) && Quiescent(f')
    ensures LostInEntry(f', f.threads[u].frame.agv.Key(), id)
  {
    hide Inv, Apply, Runs, AllShaped, OnlyTracks, Blank, AGV.Key, Begins, LostInEntry;
    StepShaped(f, st);
    hide BeginsRestore, Enabled;
    var f1 := Apply(f, st);
    var f2, f3, more;
    steps, f2 := AfterRestore(f, st, u, id);
    RunShaped(f1, steps, f2);
    more, f3 := CommitsLast(f2, u, id);
    RunsConcat(f1, steps, f2, more, f3);
    steps := steps + more;
    more, f' := SettleAll(f3, f2.threads[u].frame.agv.Key(), id, |f3.threads|);
    RunsConcat(f1, steps, f3, more, f');
    steps := steps + more;
  }

  lemma TracksLeft(f: Fleet, f3: Fleet, f4: Fleet, t: nat, u: nat)
    requires AllShaped(f) && |f.threads| == |f3.threads| == |f4.threads| && t < |f.threads| && u < |f.threads|
    requires f3.threads[t].frame.Subscribing? ==> f3.threads[t] == f.threads[t]
    requires f3.threads[u].frame.Subscribing? && WoundUp(f3, |f3.threads|)
    requires if t == u then f4.threads[t] == Thread(Ready, f3.threads[u].todo) else f4.threads[t] == f3.threads[t]
    ensures OnlyTracks(f4.threads[t])
  {
    assert Shaped(f.threads[t]);
  }

  /** However the calls go on from f without a further loss, once they have all returned the filters are right. */
  ghost predicate Recovers(f: Fleet) {
    forall steps, f' | Runs(f, steps, f') && NoLoss(steps) && Quiescent(f') :: AsSpecified(f')
  }

  /**
   Exactly when a Restore makes good every loss there has been, whatever calls run beside it and after it, as long
   as no further session is lost: when, as it begins, no Track in flight has lost a subscription it already holds.
   */
  lemma RestoreRecoversExactly(f: Fleet, st: Step)
    requires Reachable(f) && BeginsRestore(f, st)
    ensures Recovers(Apply(f, st)) <==> NoTrackHit(f)
  {
    hide Inv, Apply, Runs, Begins, Reachable, AllShaped, Quiescent, LostInTrack, AsSpecified, LostInEntry;
    ReachableInv(f);
    ReachableShaped(f);
    StepKeepsInv(f, st);
    var f1 := Apply(f, st);
    ReachableNext(f, st);
    if NoTrackHit(f) {
      RestoreHeals(f, st);
      forall steps, f' | Runs(f1, steps, f') && NoLoss(steps) && Quiescent(f')
        ensures AsSpecified(f')
      {
        RestoredFilters(f1, steps, f');
      }
    } else {
      var u: nat, id: nat :| LostInTrack(f, u, id);
      TrackingThread(f, u, id);
      var steps, f' := CanStayLost(f, st, u, id);
      assert NoLoss(steps);
      ReachableOn(f1, steps, f');
      EntryIsDropped(f', f.threads[u].frame.agv.Key(), id);
      RightExactly(f');
    }
  }

  lemma TrackingThread(f: Fleet, u: nat, id: nat)
    requires LostInTrack(f, u, id)
    ensures u < |f.threads| && f.threads[u].frame.Subscribing?
  {
  }

  lemma EntryIsDropped(f: Fleet, k: string, id: nat)
    requires LostInEntry(f, k, id)
    ensures f.dropped != {}
  {
  }

  lemma ReachableNext(f: Fleet, st: Step)
    requires Reachable(f) && Enabled(f, st)
    ensures Reachable(Apply(f, st))
  {
    hide Enabled, Apply, Reachable;
    RunsNone(Apply(f, st));
    RunsCons(f, st, [], Apply(f, st));
    ReachableOn(f, [st] + [], Apply(f, st));
  }

  lemma RestoredFilters(f: Fleet, steps: seq<Step>, f': Fleet)
    requires Reachable(f) && Healing(f) && Runs(f, steps, f') && NoLoss(steps) && Quiescent(f')
    ensures f'.dropped == {} && AsSpecified(f') && Reachable(f')
  {
    hide Inv, Runs, Reachable, Healing, Quiescent, AsSpecified;
    ReachableInv(f);
    RunHeals(f, steps, f');
    HealedAtRest(f');
    ReachableOn(f, steps, f');
    RightExactly(f');
  }

  /**
   On MQTT too, when no Track of an untracked AGV begins beside an unfinished call concerning it: after a Restore
   that begins with no Track hit, and no further loss, the filters at the broker are in the end the specified ones.
   */
  lemma RestoredByFilter(topics: Resolver, state: bool, visualization: bool, before: seq<Step>, f: Fleet,
                         filters: set<string>, st: Step, after: seq<Step>, f': Fleet, filters': set<string>)
    requires RunsBoth(Init(topics, state, visualization), {}, before, f, filters)
    requires OrderlyRun(Init(topics, state, visualization), before)
    requires BeginsRestore(f, st) && NoTrackHit(f)
    requires RunsBoth(Apply(f, st), Follow(f, filters, st), after, f', filters') && OrderlyRun(Apply(f, st), after)
    requires NoLoss(after) && Quiescent(f')
    ensures forall x: string :: x in filters' <==> SpecCount(f'.topics, f'.channels, f'.started, f'.tracked.Keys, x) > 0
  {
    var init := Init(topics, state, visualization);
    assert Enabled(f, st) && Orderly(f, st);
    hide Runs, RunsBoth, OrderlyRun, Apply, Enabled, Follow, Agree, Inv, Init, Quiescent, NoTrackHit;
    InitTidy(topics, state, visualization);
    OrderlyRunAgrees(init, {}, before, f, filters);
    BothIsRun(init, {}, before, f, filters);
    assert Reachable(f);
    assert Inv(f) && OneEach(f);
    TidyHasNoRivals(f, st);
    StepAgrees(f, filters, st);
    StepTidy(f, st);
    hide Tidy, Orderly, OneEach;
    var f1, had := Apply(f, st), Follow(f, filters, st);
    OrderlyRunAgrees(f1, had, after, f', filters');
    BothIsRun(f1, had, after, f', filters');
    hide Reachable, BeginsRestore;
    RestoreHeals(f, st);
    ReachableNext(f, st);
    RestoredFilters(f1, after, f');
    forall x: string
      ensures x in filters' <==> SpecCount(f'.topics, f'.channels, f'.started, f'.tracked.Keys, x) > 0
    {
      CountPositive(f', x);
      assert filters' == FiltersOf(f', f'.live) by { AgreeMeans(f', filters'); }
    }
  }

  lemma AgreeMeans(f: Fleet, filters: set<string>)
    requires Agree(f, filters)
    ensures filters == FiltersOf(f, f.live)
  {
  }

  // ---- A Restore that misses one ------------------------------------------------------------------

  /** The session is started and a Track of the AGV is under way, holding subscription id. */
  ghost predicate Midway(f: Fleet, agv: AGV, id: nat) {
    && f.started && f.lock.None? && |f.threads| == 2 && f.channels == [STATE] && id in f.live
    && f.threads[1].frame.Subscribing? && f.threads[1].frame.agv == agv && id in f.threads[1].frame.ids
  }

  lemma StartedOne(topics: Resolver) returns (f: Fleet)
    ensures Reachable(f) && f.started && f.lock.None? && |f.threads| == 1 && f.channels == [STATE] && f.tracked == map[]
  {
    var init := Init(topics, true, false);
    assert Channels(true, false) == [STATE];
    assert Runs(init, [], init);
    var f1 := Apply(init, Spawn(StartCall));
    assert Enumerates([], f1.tracked.Keys);
    f := Apply(f1, Begin(0, true, []));
    assert Reachable(init);
    hide Reachable, Apply, Runs;
    ReachableNext(init, Spawn(StartCall));
    ReachableNext(f1, Begin(0, true, []));
  }

  lemma TrackMidway(topics: Resolver, agv: AGV) returns (f: Fleet, id: nat)
    ensures Reachable(f) && Midway(f, agv, id)
  {
    hide Inv, Runs, Reachable, AGV.Key, Resolver.Build;
    var f0 := StartedOne(topics);
    var c := TrackCall(agv, true);
    var f1 := Apply(f0, Spawn(c));
    ReachableNext(f0, Spawn(c));
    ReachableInv(f1);
    assert Enumerates([], f1.tracked.Keys) && Enabled(f1, Begin(1, true, []));
    TrackMoves(f1, 1, true, []);
    ReachableNext(f1, Begin(1, true, []));
    var f2 := Apply(f1, Begin(1, true, []));
    assert f2.started && f2.lock.None? && f2.channels == [STATE];
    assert f2.threads[1] == Thread(Subscribing(agv, true, []), []);
    hide Moved, SameSession;
    id := f2.nextID;
    f := Apply(f2, Subscribe(1, true));
    ReachableNext(f2, Subscribe(1, true));
  }

  /**
   The session loses its subscriptions in the middle of a Track, and a Restore runs to its end while the Track
   waits. The Track then commits: all calls have returned, no session was lost since the Restore began, and the
   AGV is tracked without its subscription.
   */
  lemma RestoreMissesTrack(topics: Resolver, agv: AGV)
    returns (f: Fleet, st: Step, steps: seq<Step>, f': Fleet, id: nat)
    ensures Reachable(f) && BeginsRestore(f, st) && f.started
    ensures Runs(Apply(f, st), steps, f') && NoLoss(steps) && Quiescent(f') && LostInEntry(f', agv.Key(), id)
  {
    hide Inv, Runs, Reachable, AGV.Key, AllShaped;
    var f0;
    f0, id := TrackMidway(topics, agv);
    var f1 := Apply(f0, SessionLoss(f0.live));
    ReachableNext(f0, SessionLoss(f0.live));
    f := Apply(f1, Spawn(RestoreCall));
    ReachableNext(f1, Spawn(RestoreCall));
    var order := Listed(f.tracked.Keys);
    st := Begin(2, true, order);
    assert LostInTrack(f, 1, id);
    assert BeginsRestore(f, st);
    ReachableInv(f);
    ReachableShaped(f);
    hide Apply, BeginsRestore, LostInTrack, LostInEntry, Quiescent;
    steps, f' := CanStayLost(f, st, 1, id);
  }
}
