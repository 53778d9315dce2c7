/**
 The other half of FleetByFilter: when a Track begins while another call is
 still busy with the same AGV, a broker that unsubscribes by filter can end up
 without a filter the session counts on. Together the two give the exact
 condition.
 */
module FleetRivals {
  import opened Streams
  import opened Topics
  import opened Subscriptions
  import opened FleetProtocol
  import opened FleetSteps
  import opened FleetTheorems
  import opened FleetByFilter
  import opened FleetDrive

  /** The steps belong to calls that had begun already. */
  ghost predicate InFlightOnly(steps: seq<Step>) {
    forall st | st in steps :: !st.Begin? && !st.Spawn? && !st.SessionLoss?
  }

  lemma BothCons(f: Fleet, filters: set<string>, st: Step, steps: seq<Step>, f': Fleet, filters': set<string>)
    requires Enabled(f, st) && RunsBoth(Apply(f, st), Follow(f, filters, st), steps, f', filters')
    ensures RunsBoth(f, filters, [st] + steps, f', filters')
  {
    assert ([st] + steps)[1..] == steps;
  }

  lemma BothNone(f: Fleet, filters: set<string>)
    ensures RunsBoth(f, filters, [], f, filters)
  {
  }

  // ---- A thread finishes subscribing ------------------------------------------------------

  /** From f to f' thread t has gone on subscribing, to the end, and nothing else has moved. */
  ghost predicate Completed(f: Fleet, f': Fleet, t: nat)
    requires t < |f.threads| && f.threads[t].frame.Subscribing?
  {
    && f'.topics == f.topics && f'.channels == f.channels && f'.tracked == f.tracked && f'.lock == f.lock
    && |f'.threads| == |f.threads| && (forall u | 0 <= u < |f.threads| && u != t :: f'.threads[u] == f.threads[u])
    && f'.threads[t].frame.Subscribing? && f'.threads[t].frame.agv == f.threads[t].frame.agv
    && |f'.threads[t].frame.ids| == |f.channels| && f.live <= f'.live
    && (forall id | id in f.filterOf :: id in f'.filterOf && f'.filterOf[id] == f.filterOf[id])
    && ((forall id | id in f.threads[t].frame.ids :: id in f.live)
       ==> forall id | id in f'.threads[t].frame.ids :: id in f'.live)
  }

  lemma SubscribeShape(f: Fleet, t: nat)
    requires Inv(f) && Enabled(f, Subscribe(t, true))
    ensures var f1 := Apply(f, Subscribe(t, true));
            && f1.topics == f.topics && f1.channels == f.channels && f1.tracked == f.tracked && f1.lock == f.lock
            && |f1.threads| == |f.threads|
            && (forall u | 0 <= u < |f.threads| && u != t :: f1.threads[u] == f.threads[u])
            && f1.threads[t].frame == Subscribing(f.threads[t].frame.agv, f.threads[t].frame.notify,
                                                  f.threads[t].frame.ids + [f.nextID])
            && f1.live == f.live + {f.nextID}
            && (forall id | id in f.filterOf :: id in f1.filterOf && f1.filterOf[id] == f.filterOf[id])
    ensures Inv(Apply(f, Subscribe(t, true))) && NoRival(f, Subscribe(t, true))
  {
    StepKeepsInv(f, Subscribe(t, true));
    assert f.nextID !in f.filterOf by { hide EntryInv, ThreadInv, LockInv; }
    hide Inv, Resolver.Build;
  }

  lemma CompletedAlready(f: Fleet, t: nat)
    requires t < |f.threads| && f.threads[t].frame.Subscribing? && |f.threads[t].frame.ids| == |f.channels|
    ensures Completed(f, f, t)
  {
  }

  /** One more subscription, and then the rest. */
  lemma CompletedStep(f: Fleet, f1: Fleet, f': Fleet, t: nat, id: nat)
    requires t < |f.threads| == |f1.threads| && f.threads[t].frame.Subscribing? && f1.threads[t].frame.Subscribing?
    requires f1.topics == f.topics && f1.channels == f.channels && f1.tracked == f.tracked && f1.lock == f.lock
    requires forall u | 0 <= u < |f.threads| && u != t :: f1.threads[u] == f.threads[u]
    requires f1.threads[t].frame.agv == f.threads[t].frame.agv
    requires f1.threads[t].frame.ids == f.threads[t].frame.ids + [id] && f1.live == f.live + {id}
    requires forall id | id in f.filterOf :: id in f1.filterOf && f1.filterOf[id] == f.filterOf[id]
    requires Completed(f1, f', t)
    ensures Completed(f, f', t)
  {
  }

  lemma {:induction false} SubscribeRest(f: Fleet, filters: set<string>, t: nat)
    returns (steps: seq<Step>, f': Fleet, filters': set<string>)
    requires Inv(f) && Agree(f, filters) && t < |f.threads| && f.threads[t].frame.Subscribing?
    requires |f.threads[t].frame.ids| <= |f.channels|
    ensures RunsBoth(f, filters, steps, f', filters') && InFlightOnly(steps)
    ensures Inv(f') && Agree(f', filters') && Completed(f, f', t)
    decreases |f.channels| - |f.threads[t].frame.ids|
  {
    if |f.threads[t].frame.ids| == |f.channels| {
      CompletedAlready(f, t);
      hide Inv, Agree, Completed;
      steps, f', filters' := [], f, filters;
    } else {
      var st := Subscribe(t, true);
      SubscribeShape(f, t);
      hide Inv, Agree, Completed, Apply;
      StepAgrees(f, filters, st);
      var f1, had := Apply(f, st), Follow(f, filters, st);
      hide Follow, NoRival, RunsBoth;
      var rest;
      rest, f', filters' := SubscribeRest(f1, had, t);
      steps := [st] + rest;
      BothCons(f, filters, st, rest, f', filters');
      CompletedStep(f, f1, f', t, f.nextID);
    }
  }

  // ---- A removal meets a rival ----------------------------------------------------------------

  lemma UnsubscribeShape(f: Fleet, u: nat)
    requires Inv(f) && Enabled(f, Unsubscribe(u))
    ensures var ids, f1 := f.threads[u].frame.ids, Apply(f, Unsubscribe(u));
            && |f1.threads| == |f.threads| && f1.threads[u].frame == Removing(ids[..|ids| - 1])
            && f1.live == f.live - {ids[|ids| - 1]} && f1.filterOf == f.filterOf
            && Ended(f, Unsubscribe(u)) == {ids[|ids| - 1]}
    ensures Inv(Apply(f, Unsubscribe(u)))
  {
    StepKeepsInv(f, Unsubscribe(u));
    hide Inv;
  }

  /** b is live, is not among ids, and is on the filter of ids[j]. */
  ghost predicate RivalOf(f: Fleet, ids: seq<nat>, j: nat, b: nat) {
    && j < |ids| && b in f.live && b !in ids && ids[j] in f.filterOf && b in f.filterOf
    && f.filterOf[b] == f.filterOf[ids[j]]
  }

  /** Unsubscribing ids one by one parts the brokers, at the latest when the shared filter's turn comes. */
  lemma {:induction false} UnsubscribeDown(f: Fleet, filters: set<string>, u: nat, j: nat, b: nat)
    returns (steps: seq<Step>, f': Fleet, filters': set<string>)
    requires Inv(f) && Agree(f, filters) && u < |f.threads| && f.threads[u].frame.Removing?
    requires RivalOf(f, f.threads[u].frame.ids, j, b)
    ensures RunsBoth(f, filters, steps, f', filters') && InFlightOnly(steps) && !Agree(f', filters')
    decreases |f.threads[u].frame.ids|
  {
    var st, ids := Unsubscribe(u), f.threads[u].frame.ids;
    UnsubscribeShape(f, u);
    StepAgrees(f, filters, st);
    var f1, had := Apply(f, st), Follow(f, filters, st);
    if j == |ids| - 1 {
      assert ids[j] in Ended(f, st) && b !in Ended(f, st);
    }
    assert j == |ids| - 1 ==> !NoRival(f, st);
    BothNone(f1, had);
    hide Inv, Agree, Apply, Follow, NoRival, Ended;
    if Agree(f1, had) {
      assert ids[..|ids| - 1][j] == ids[j];
      var rest;
      rest, f', filters' := UnsubscribeDown(f1, had, u, j, b);
      steps := [st] + rest;
      BothCons(f, filters, st, rest, f', filters');
    } else {
      steps, f', filters' := [st], f1, had;
      BothCons(f, filters, st, [], f', filters');
      assert [st] + [] == [st];
    }
  }

  // ---- Every rival can do it ---------------------------------------------------------------------

  /** A Track has just begun, and nothing of its AGV is tracked. */
  ghost predicate JustBegun(f: Fleet, t: nat, agv: AGV) {
    && t < |f.threads| && f.threads[t].frame.Subscribing? && f.threads[t].frame.agv == agv
       && f.threads[t].frame.ids == []
    && agv.Key() !in f.tracked && f.lock.None?
  }

  lemma ChannelId(f: Fleet, t: nat, ch: Channel) returns (b: nat)
    requires Inv(f) && t < |f.threads| && f.threads[t].frame.Subscribing?
    requires |f.threads[t].frame.ids| == |f.channels| && ch in f.channels
    ensures b in f.threads[t].frame.ids && b in f.filterOf && b in f.owner && f.owner[b] == ByThread(t)
    ensures var a := f.threads[t].frame.agv; f.filterOf[b] == f.topics.Build(a.manufacturer, a.serialNumber, ch)
  {
    var i: nat :| i < |f.channels| && f.channels[i] == ch;
    b := f.threads[t].frame.ids[i];
    ThreadOwns(f, t);
    assert b in Held(f.threads[t]);
    hide EntryInv, LockInv, ConnInv, BrokerInv, GoodChannels;
    assert ThreadOk(f.topics, f.channels, f.filterOf, f.owner, t, f.threads[t]);
  }

  lemma RemovingBreaks(f: Fleet, filters: set<string>, t: nat, u: nat, agv: AGV)
    returns (steps: seq<Step>, f': Fleet, filters': set<string>)
    requires Inv(f) && Agree(f, filters) && JustBegun(f, t, agv) && u < |f.threads| && u != t
    requires f.threads[u].frame.Removing? && HoldsFilterOf(f, f.threads[u].frame.ids, agv)
    ensures RunsBoth(f, filters, steps, f', filters') && InFlightOnly(steps) && !Agree(f', filters')
  {
    var ids := f.threads[u].frame.ids;
    var id, ch :| id in ids && ch in f.channels && id in f.filterOf
                  && f.filterOf[id] == f.topics.Build(agv.manufacturer, agv.serialNumber, ch);
    var j: nat :| j < |ids| && ids[j] == id;
    hide Inv, Agree, RunsBoth, Completed, Apply, Enabled, Resolver.Build, AGV.Key;
    var mid, had, more;
    steps, mid, had := SubscribeRest(f, filters, t);
    var b := RemovalRival(f, mid, t, u, agv, j, ch);
    hide JustBegun, HoldsFilterOf, RivalOf;
    more, f', filters' := UnsubscribeDown(mid, had, u, j, b);
    BothConcat(f, filters, steps, mid, had, more, f', filters');
    steps := steps + more;
  }

  lemma RemovalRival(f: Fleet, f': Fleet, t: nat, u: nat, agv: AGV, j: nat, ch: Channel) returns (b: nat)
    requires JustBegun(f, t, agv) && u < |f.threads| && u != t && f.threads[u].frame.Removing?
    requires Completed(f, f', t) && Inv(f') && ch in f.channels && j < |f.threads[u].frame.ids|
    requires f.threads[u].frame.ids[j] in f.filterOf
    requires f.filterOf[f.threads[u].frame.ids[j]] == f.topics.Build(agv.manufacturer, agv.serialNumber, ch)
    ensures u < |f'.threads| && f'.threads[u] == f.threads[u] && RivalOf(f', f.threads[u].frame.ids, j, b)
  {
    b := ChannelId(f', t, ch);
    ThreadOwns(f', u);
    assert b !in Held(f'.threads[u]);
    hide Inv, Resolver.Build, AGV.Key;
  }

  lemma CommitShape(f: Fleet, t: nat)
    requires Inv(f) && Enabled(f, Commit(t))
    ensures var f1, ids, agv := Apply(f, Commit(t)), f.threads[t].frame.ids, f.threads[t].frame.agv;
            && f1.topics == f.topics && f1.channels == f.channels && f1.lock == f.lock && f1.live == f.live
            && f1.filterOf == f.filterOf && |f1.threads| == |f.threads|
            && (forall u | 0 <= u < |f.threads| && u != t :: f1.threads[u] == f.threads[u])
            && (if agv.Key() in f.tracked then f1.threads[t].frame == Removing(ids) && f1.tracked == f.tracked
                else f1.tracked == f.tracked[agv.Key() := Entry(agv, ids)])
    ensures Inv(Apply(f, Commit(t))) && NoRival(f, Commit(t))
  {
    StepKeepsInv(f, Commit(t));
    hide Inv, Hand, AGV.Key;
  }

  /** What the loser of the race holds on the last channel, the winner's entry holds too, under another id. */
  lemma LastIsRival(f: Fleet, u: nat, agv: AGV, b: nat)
    requires Inv(f) && u < |f.threads| && f.threads[u].frame.Subscribing? && f.channels != []
    requires |f.threads[u].frame.ids| == |f.channels| && f.threads[u].frame.agv.Key() == agv.Key()
    requires agv.Key() in f.tracked && b in f.tracked[agv.Key()].ids && b in f.live && b in f.filterOf
    requires f.filterOf[b] == f.topics.Build(agv.manufacturer, agv.serialNumber, f.channels[|f.channels| - 1])
    ensures RivalOf(f, f.threads[u].frame.ids, |f.channels| - 1, b)
  {
    var ids, j := f.threads[u].frame.ids, |f.channels| - 1;
    OwnerHolds(f, b, ByEntry(agv.Key()));
    OwnerHolds(f, b, ByThread(u));
    assert ids[j] in ids;
    var i := HeldFilter(f, u, ids[j]);
    hide EntryInv, LockInv, ConnInv, BrokerInv;
    assert ThreadOk(f.topics, f.channels, f.filterOf, f.owner, u, f.threads[u]);
    BuildFaithful(f.topics, f.threads[u].frame.agv, agv, f.channels[j], f.channels[j]);
  }

  /** The AGV is tracked with a live subscription b on its last channel. */
  ghost predicate Won(f: Fleet, agv: AGV, b: nat)
    requires f.channels != []
  {
    && f.lock.None? && agv.Key() in f.tracked && b in f.tracked[agv.Key()].ids && b in f.live && b in f.filterOf
    && f.filterOf[b] == f.topics.Build(agv.manufacturer, agv.serialNumber, f.channels[|f.channels| - 1])
  }

  lemma FirstShape(f: Fleet, f1: Fleet, t: nat, u: nat, agv: AGV) returns (b: nat)
    requires JustBegun(f, t, agv) && Completed(f, f1, t) && Inv(f1) && u < |f.threads| && u != t && f.channels != []
    ensures Enabled(f1, Commit(t))
    ensures var f2 := Apply(f1, Commit(t));
            && f2.topics == f.topics && f2.channels == f.channels && u < |f2.threads| && f2.threads[u] == f.threads[u]
            && Won(f2, agv, b)
    ensures Inv(Apply(f1, Commit(t))) && NoRival(f1, Commit(t))
  {
    hide Inv, NoRival, Apply, AGV.Key, Resolver.Build;
    FirstCompleted(f, f1, t, u, agv);
    hide Completed, JustBegun;
    b := ChannelId(f1, t, f1.channels[|f1.channels| - 1]);
    CommitShape(f1, t);
  }

  lemma FirstCompleted(f: Fleet, f1: Fleet, t: nat, u: nat, agv: AGV)
    requires JustBegun(f, t, agv) && Completed(f, f1, t) && u < |f.threads| && u != t && f.channels != []
    ensures t < |f1.threads| && u < |f1.threads| && f1.threads[u] == f.threads[u] && f1.lock.None?
    ensures f1.topics == f.topics && f1.channels == f.channels && agv.Key() !in f1.tracked
    ensures f1.threads[t].frame.Subscribing? && f1.threads[t].frame.agv == agv
    ensures |f1.threads[t].frame.ids| == |f.channels| && forall id | id in f1.threads[t].frame.ids :: id in f1.live
  {
    hide AGV.Key;
  }

  /** The call that has just begun subscribes everything and commits first. */
  lemma FirstCommits(f: Fleet, filters: set<string>, t: nat, u: nat, agv: AGV)
    returns (steps: seq<Step>, f': Fleet, filters': set<string>, b: nat)
    requires Inv(f) && Agree(f, filters) && JustBegun(f, t, agv) && u < |f.threads| && u != t && f.channels != []
    ensures RunsBoth(f, filters, steps, f', filters') && InFlightOnly(steps) && Inv(f') && Agree(f', filters')
    ensures f'.topics == f.topics && f'.channels == f.channels
    ensures u < |f'.threads| && f'.threads[u] == f.threads[u] && Won(f', agv, b)
  {
    hide Inv, Agree, Apply, RunsBoth, Completed, Enabled, NoRival, Follow, Won;
    var f1, had1;
    steps, f1, had1 := SubscribeRest(f, filters, t);
    b := FirstShape(f, f1, t, u, agv);
    hide JustBegun;
    StepAgrees(f1, had1, Commit(t));
    f', filters' := Apply(f1, Commit(t)), Follow(f1, had1, Commit(t));
    OneMore(f, filters, steps, f1, had1, Commit(t));
    steps := steps + [Commit(t)];
  }

  lemma OneMore(f: Fleet, filters: set<string>, steps: seq<Step>, mid: Fleet, had: set<string>, st: Step)
    requires RunsBoth(f, filters, steps, mid, had) && Enabled(mid, st)
    requires InFlightOnly(steps) && !st.Begin? && !st.Spawn? && !st.SessionLoss?
    ensures RunsBoth(f, filters, steps + [st], Apply(mid, st), Follow(mid, had, st)) && InFlightOnly(steps + [st])
  {
    hide RunsBoth, Enabled, Apply, Follow;
    BothSnoc(f, filters, steps, mid, had, st);
  }

  lemma SecondShape(f: Fleet, f1: Fleet, u: nat, agv: AGV, b: nat)
    requires u < |f.threads| && f.threads[u].frame.Subscribing? && f.threads[u].frame.agv.Key() == agv.Key()
    requires Completed(f, f1, u) && Inv(f1) && f.channels != [] && Won(f, agv, b)
    ensures Enabled(f1, Commit(u))
    ensures var f2 := Apply(f1, Commit(u));
            u < |f2.threads| && f2.threads[u].frame.Removing?
              && RivalOf(f2, f2.threads[u].frame.ids, |f.channels| - 1, b)
    ensures Inv(Apply(f1, Commit(u))) && NoRival(f1, Commit(u))
  {
    hide Inv, NoRival, AGV.Key, Resolver.Build, RivalOf;
    LastIsRival(f1, u, agv, b);
    assert Enabled(f1, Commit(u));
    hide Apply, Enabled;
    CommitShape(f1, u);
    KeepsRival(f1, Apply(f1, Commit(u)), f1.threads[u].frame.ids, |f.channels| - 1, b);
  }

  lemma KeepsRival(f: Fleet, f': Fleet, ids: seq<nat>, j: nat, b: nat)
    requires RivalOf(f, ids, j, b) && f'.live == f.live && f'.filterOf == f.filterOf
    ensures RivalOf(f', ids, j, b)
  {
  }

  /** The other one subscribes the rest, finds the AGV tracked, and rolls back. */
  lemma SecondLoses(f: Fleet, filters: set<string>, u: nat, agv: AGV, b: nat)
    returns (steps: seq<Step>, f': Fleet, filters': set<string>)
    requires Inv(f) && Agree(f, filters) && u < |f.threads| && f.channels != [] && Won(f, agv, b)
    requires f.threads[u].frame.Subscribing? && f.threads[u].frame.agv.Key() == agv.Key()
    requires |f.threads[u].frame.ids| <= |f.channels|
    ensures RunsBoth(f, filters, steps, f', filters') && InFlightOnly(steps) && !Agree(f', filters')
  {
    hide Inv, Agree, Apply, RunsBoth, Completed, Enabled, NoRival, Follow, Won, RivalOf;
    var f1, had1;
    steps, f1, had1 := SubscribeRest(f, filters, u);
    SecondShape(f, f1, u, agv, b);
    StepAgrees(f1, had1, Commit(u));
    var f2, had2 := Apply(f1, Commit(u)), Follow(f1, had1, Commit(u));
    OneMore(f, filters, steps, f1, had1, Commit(u));
    var down;
    down, f', filters' := UnsubscribeDown(f2, had2, u, |f.channels| - 1, b);
    BothConcat(f, filters, steps + [Commit(u)], f2, had2, down, f', filters');
    steps := steps + [Commit(u)] + down;
  }

  /** Two Tracks of one AGV: the one that commits second rolls back the filter of the first. */
  lemma SubscribingBreaks(f: Fleet, filters: set<string>, t: nat, u: nat, agv: AGV)
    returns (steps: seq<Step>, f': Fleet, filters': set<string>)
    requires Inv(f) && Agree(f, filters) && JustBegun(f, t, agv) && u < |f.threads| && u != t && f.channels != []
    requires f.threads[u].frame.Subscribing? && f.threads[u].frame.agv.Key() == agv.Key()
    requires |f.threads[u].frame.ids| <= |f.channels|
    ensures RunsBoth(f, filters, steps, f', filters') && InFlightOnly(steps) && !Agree(f', filters')
  {
    hide Inv, Agree, RunsBoth;
    var mid, had, b, more;
    steps, mid, had, b := FirstCommits(f, filters, t, u, agv);
    hide JustBegun;
    more, f', filters' := SecondLoses(mid, had, u, agv, b);
    BothConcat(f, filters, steps, mid, had, more, f', filters');
    steps := steps + more;
  }

  lemma RivalBreaks(f: Fleet, filters: set<string>, t: nat, u: nat, agv: AGV)
    returns (steps: seq<Step>, f': Fleet, filters': set<string>)
    requires Inv(f) && Agree(f, filters) && JustBegun(f, t, agv) && u < |f.threads| && u != t && f.channels != []
    requires Concerns(f, u, agv)
    ensures RunsBoth(f, filters, steps, f', filters') && InFlightOnly(steps) && !Agree(f', filters')
  {
    assert !f.threads[u].frame.Clearing? by { hide EntryInv, ThreadInv, ConnInv, BrokerInv, GoodChannels; }
    if f.threads[u].frame.Subscribing? {
      SubscribingBound(f, u);
      steps, f', filters' := SubscribingBreaks(f, filters, t, u, agv);
    } else {
      steps, f', filters' := RemovingBreaks(f, filters, t, u, agv);
    }
  }

  // ---- The exact condition --------------------------------------------------------------------------

  ghost predicate NobodyElse(f: Fleet, t: nat, agv: AGV) {
    forall u: nat | u < |f.threads| && u != t :: !Concerns(f, u, agv)
  }

  /** Whatever order the calls in flight are finished in, the two brokers keep agreeing. */
  ghost predicate SafeToFinish(f: Fleet, filters: set<string>) {
    forall steps, f', filters' | RunsBoth(f, filters, steps, f', filters') && InFlightOnly(steps) :: Agree(f', filters')
  }

  lemma {:induction false} InFlightIsOrderly(f: Fleet, filters: set<string>, steps: seq<Step>, f': Fleet,
                                             filters': set<string>)
    requires RunsBoth(f, filters, steps, f', filters') && InFlightOnly(steps)
    ensures OrderlyRun(f, steps)
    decreases |steps|
  {
    hide Apply, Enabled, Follow;
    if steps != [] {
      assert steps[0] in steps && forall st | st in steps[1..] :: st in steps;
      InFlightIsOrderly(Apply(f, steps[0]), Follow(f, filters, steps[0]), steps[1..], f', filters');
    }
  }

  lemma BeginTrackShape(f: Fleet, t: nat, ok: bool, order: seq<string>)
    requires Enabled(f, Begin(t, ok, order)) && f.threads[t].todo[0].TrackCall?
    requires f.threads[t].todo[0].agv.Key() !in f.tracked
    ensures var f1 := Apply(f, Begin(t, ok, order));
            && JustBegun(f1, t, f.threads[t].todo[0].agv) && |f1.threads| == |f.threads|
            && f1.topics == f.topics && f1.channels == f.channels && f1.filterOf == f.filterOf
            && (forall u | 0 <= u < |f.threads| && u != t :: f1.threads[u] == f.threads[u])
    ensures NoRival(f, Begin(t, ok, order)) && Follow(f, {}, Begin(t, ok, order)) == {}
    ensures forall filters :: Follow(f, filters, Begin(t, ok, order)) == filters
  {
    hide AGV.Key;
    assert FiltersOf(f, {}) == {};
  }

  /**
   Exactly when a Track of an untracked AGV is safe with a broker that unsubscribes by filter: when no other call
   in flight concerns that AGV. With any such call, the calls can finish so that a filter somebody holds is dead.
   */
  lemma TrackIsSafeExactly(f: Fleet, filters: set<string>, t: nat, ok: bool, order: seq<string>)
    requires Tidy(f) && Agree(f, filters) && f.channels != []
    requires Enabled(f, Begin(t, ok, order)) && f.threads[t].todo[0].TrackCall?
    requires f.threads[t].todo[0].agv.Key() !in f.tracked
    ensures SafeToFinish(Apply(f, Begin(t, ok, order)), filters) <==> NobodyElse(f, t, f.threads[t].todo[0].agv)
  {
    var st, agv := Begin(t, ok, order), f.threads[t].todo[0].agv;
    var f1 := Apply(f, st);
    BeginTrackShape(f, t, ok, order);
    StepKeepsInv(f, st);
    StepAgrees(f, filters, st);
    if NobodyElse(f, t, agv) {
      StepTidy(f, st);
      hide Tidy, Agree, Apply, Enabled, JustBegun, NobodyElse, Inv;
      forall steps, f', filters' | RunsBoth(f1, filters, steps, f', filters') && InFlightOnly(steps)
        ensures Agree(f', filters')
      {
        InFlightIsOrderly(f1, filters, steps, f', filters');
        OrderlyRunAgrees(f1, filters, steps, f', filters');
      }
    } else {
      var u: nat :| u < |f.threads| && u != t && Concerns(f, u, agv);
      SameConcern(f, f1, u, agv);
      hide Tidy, Agree, Apply, Enabled, JustBegun, NobodyElse, Inv, Concerns;
      var steps, f', filters' := RivalBreaks(f1, filters, t, u, agv);
    }
  }

  lemma SameConcern(f: Fleet, f': Fleet, u: nat, agv: AGV)
    requires u < |f.threads| && u < |f'.threads| && f'.threads[u] == f.threads[u]
    requires f'.topics == f.topics && f'.channels == f.channels && f'.filterOf == f.filterOf
    ensures Concerns(f', u, agv) == Concerns(f, u, agv)
  {
  }
}
