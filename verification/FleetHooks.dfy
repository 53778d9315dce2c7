/**
 The online and offline hooks of concurrent calls. A Restore untracks and
 tracks again without hooks, so while it is under way an AGV counts as online
 that is not tracked. The balance of hooks is kept by every step but two kinds,
 and those are exactly the ones that break it.
 */
module FleetHooks {
  import opened Streams
  import opened Topics
  import opened Subscriptions
  import opened Hooks
  import opened FleetProtocol
  import opened FleetSteps
  import opened FleetTheorems
  import opened FleetDrive

  /** The hook a step commits to: the code calls it once the lock is released. */
  ghost function HooksOf(f: Fleet, st: Step): seq<HookEvent>
    requires Enabled(f, st)
  {
    match st
    case Commit(t) =>
      var frame := f.threads[t].frame;
      if frame.notify && frame.agv.Key() !in f.tracked then [WentOnline(frame.agv.Key())] else []
    case Begin(t, _, _) =>
      var call := f.threads[t].todo[0];
      if call.UntrackCall? && call.agv.Key() in f.tracked then [WentOffline(call.agv.Key())] else []
    case _ => []
  }

  // ---- What Restores have still to track again ---------------------------------------------

  function SilentKey(c: Call): seq<string> {
    if c.TrackCall? && !c.notify then [c.agv.Key()] else []
  }

  function SilentKeys(todo: seq<Call>): seq<string> {
    if todo == [] then [] else SilentKey(todo[0]) + SilentKeys(todo[1..])
  }

  function KeySeq(agvs: seq<AGV>): seq<string> {
    seq(|agvs|, i requires 0 <= i < |agvs| => agvs[i].Key())
  }

  /** The AGVs a thread has taken off the map without an offline hook and has yet to put back. */
  function Awaits(th: Thread): seq<string> {
    (match th.frame
     case Subscribing(agv, notify, _) => if notify then [] else [agv.Key()]
     case Clearing(agvs, _) => KeySeq(agvs)
     case _ => [])
    + SilentKeys(th.todo)
  }

  ghost predicate Awaited(f: Fleet, k: string) {
    exists t :: 0 <= t < |f.threads| && k in Awaits(f.threads[t])
  }

  /** As far as the hooks have told, the AGV is online. */
  ghost predicate CountsAsOnline(f: Fleet, k: string) {
    k in f.tracked || Awaited(f, k)
  }

  ghost predicate Balanced(f: Fleet, events: seq<HookEvent>) {
    forall k :: Balance(events, k) == if CountsAsOnline(f, k) then 1 else 0
  }

  /** An AGV is tracked, or awaited once by one thread, or neither. */
  ghost predicate Apart(f: Fleet) {
    && (forall t | 0 <= t < |f.threads| :: Distinct(Awaits(f.threads[t])))
    && (forall t, k | 0 <= t < |f.threads| && k in Awaits(f.threads[t]) :: k !in f.tracked)
    && (forall t, u, k | 0 <= t < |f.threads| && 0 <= u < |f.threads| && t != u && k in Awaits(f.threads[t]) ::
          k !in Awaits(f.threads[u]))
  }

  // ---- The two kinds of steps that break the balance ----------------------------------------

  /** A Track commits with an online hook although a Restore is about to put the AGV back. */
  ghost predicate TracksAwaited(f: Fleet, st: Step)
    requires Enabled(f, st)
  {
    st.Commit? && f.threads[st.thread].frame.notify && f.threads[st.thread].frame.agv.Key() !in f.tracked
    && Awaited(f, f.threads[st.thread].frame.agv.Key())
  }

  /** A subscribe call fails, and with it the rest of a Restore that had AGVs to put back. */
  ghost predicate FailsRestore(f: Fleet, st: Step)
    requires Enabled(f, st)
  {
    && ((st.Subscribe? && !st.ok) || (st.Begin? && !st.ok && f.threads[st.thread].todo[0].StartCall? && !f.started))
    && Awaits(f.threads[st.thread]) != []
  }

  ghost predicate Smooth(f: Fleet, st: Step)
    requires Enabled(f, st)
  {
    !TracksAwaited(f, st) && !FailsRestore(f, st)
  }

  /** Only Restore tracks without hooks: nobody else can ask for that. */
  ghost predicate Public(st: Step) {
    st.Spawn? && st.call.TrackCall? ==> st.call.notify
  }

  // ---- Call lists -----------------------------------------------------------------------------

  lemma {:induction false} SilentConcat(a: seq<Call>, b: seq<Call>)
    ensures SilentKeys(a + b) == SilentKeys(a) + SilentKeys(b)
  {
    hide SilentKey;
    if a == [] {
      assert a + b == b;
    } else {
      SilentConcat(a[1..], b);
      assert (a + b)[1..] == a[1..] + b;
    }
  }

  lemma {:induction false} SilentTracks(agvs: seq<AGV>)
    ensures SilentKeys(TrackCalls(agvs)) == KeySeq(agvs)
  {
    if agvs != [] {
      SilentTracks(agvs[1..]);
      assert TrackCalls(agvs)[1..] == TrackCalls(agvs[1..]);
      assert KeySeq(agvs) == [agvs[0].Key()] + KeySeq(agvs[1..]);
    }
  }

  lemma {:induction false} SilentUntracks(agvs: seq<AGV>)
    ensures SilentKeys(UntrackCalls(agvs)) == []
  {
    if agvs != [] {
      SilentUntracks(agvs[1..]);
      assert UntrackCalls(agvs)[1..] == UntrackCalls(agvs[1..]);
    }
  }

  lemma SilentRestore(agvs: seq<AGV>, todo: seq<Call>)
    ensures SilentKeys([StartCall] + TrackCalls(agvs) + todo) == KeySeq(agvs) + SilentKeys(todo)
  {
    assert SilentKeys([StartCall]) == [];
    hide SilentKeys, TrackCalls, KeySeq;
    SilentConcat([StartCall] + TrackCalls(agvs), todo);
    SilentConcat([StartCall], TrackCalls(agvs));
    SilentTracks(agvs);
  }

  lemma SilentStop(agvs: seq<AGV>, todo: seq<Call>)
    ensures SilentKeys(UntrackCalls(agvs) + [DropConnectionCall] + todo) == SilentKeys(todo)
  {
    assert SilentKeys([DropConnectionCall]) == [];
    hide SilentKeys, UntrackCalls;
    SilentConcat(UntrackCalls(agvs) + [DropConnectionCall], todo);
    SilentConcat(UntrackCalls(agvs), [DropConnectionCall]);
    SilentUntracks(agvs);
  }

  lemma SnapshotKeys(f: Fleet, order: seq<string>)
    requires Inv(f) && Enumerates(order, f.tracked.Keys)
    ensures KeySeq(AgvsOf(f.tracked, order)) == order
  {
    hide BrokerInv, LockInv, ThreadInv, ConnInv, GoodChannels;
    forall i | 0 <= i < |order|
      ensures f.tracked[order[i]].agv.Key() == order[i]
    {
      assert order[i] in order;
      assert EntryOk(f.topics, f.channels, f.filterOf, order[i], f.tracked[order[i]]);
    }
    hide Inv, AGV.Key;
  }

  // ---- What each step does to the two -----------------------------------------------------------

  /** From f to f' only what t awaits has changed, from was to now. */
  ghost predicate AwaitsNow(f: Fleet, f': Fleet, t: nat, was: seq<string>, now: seq<string>) {
    && t < |f.threads| == |f'.threads| && Awaits(f.threads[t]) == was && Awaits(f'.threads[t]) == now
    && forall u | 0 <= u < |f.threads| && u != t :: f'.threads[u] == f.threads[u]
  }

  /** The AGVs that t awaits, after it has begun its next call. */
  ghost function BegunAwaits(f: Fleet, t: nat, ok: bool, order: seq<string>): seq<string>
    requires Enabled(f, Begin(t, ok, order))
  {
    var was := Awaits(f.threads[t]);
    match f.threads[t].todo[0]
    case TrackCall(agv, notify) => if agv.Key() in f.tracked && !notify then was[1..] else was
    case StartCall => if !f.started && !ok then [] else was
    case RestoreCall => if !f.started && |f.tracked| == 0 then was else order + was
    case _ => was
  }

  ghost function BegunTracked(f: Fleet, t: nat): set<string>
    requires t < |f.threads| && f.threads[t].todo != []
  {
    match f.threads[t].todo[0]
    case UntrackCall(agv) => f.tracked.Keys - {agv.Key()}
    case RestoreCall => {}
    case _ => f.tracked.Keys
  }

  lemma AwaitsBetween(todo: seq<Call>)
    ensures Awaits(Thread(Ready, todo)) == SilentKeys(todo)
    ensures forall ids :: Awaits(Thread(Removing(ids), todo)) == SilentKeys(todo)
    ensures forall agv, ids :: Awaits(Thread(Subscribing(agv, true, ids), todo)) == SilentKeys(todo)
    ensures forall agv: AGV, ids :: Awaits(Thread(Subscribing(agv, false, ids), todo)) == [agv.Key()] + SilentKeys(todo)
    ensures forall agvs, ids :: Awaits(Thread(Clearing(agvs, ids), todo)) == KeySeq(agvs) + SilentKeys(todo)
  {
    hide SilentKeys, AGV.Key, KeySeq;
  }

  lemma BeginAwaits(f: Fleet, t: nat, ok: bool, order: seq<string>)
    requires Inv(f) && Enabled(f, Begin(t, ok, order))
    ensures AwaitsNow(f, BeginCall(f, t, ok, order), t, Awaits(f.threads[t]), BegunAwaits(f, t, ok, order))
  {
    hide Inv, Awaits, BegunAwaits, SilentKeys, BeginCall;
    BeginMovesOne(f, t, ok, order);
    BeginsAwaiting(f, t, ok, order);
  }

  /** The thread that a first section leaves. */
  ghost function NextThread(f: Fleet, t: nat, ok: bool, order: seq<string>): Thread
    requires Enabled(f, Begin(t, ok, order))
  {
    var rest := f.threads[t].todo[1..];
    match f.threads[t].todo[0]
    case TrackCall(agv, notify) =>
      if agv.Key() in f.tracked then Thread(Ready, rest) else Thread(Subscribing(agv, notify, []), rest)
    case UntrackCall(agv) =>
      if agv.Key() in f.tracked then Thread(Removing(f.tracked[agv.Key()].ids), rest) else Thread(Ready, rest)
    case StartCall => Thread(Ready, if !f.started && !ok then [] else rest)
    case DropConnectionCall => Thread(Ready, rest)
    case StopCall => Thread(Ready, UntrackCalls(AgvsOf(f.tracked, order)) + [DropConnectionCall] + rest)
    case RestoreCall =>
      if !f.started && |f.tracked| == 0 then Thread(Ready, rest)
      else Thread(Clearing(AgvsOf(f.tracked, order), IdsOf(f.tracked, order) + ConnSeq(f.conn)), rest)
  }

  lemma BeginLeaves(f: Fleet, t: nat, ok: bool, order: seq<string>)
    requires Enabled(f, Begin(t, ok, order))
    ensures var f' := BeginCall(f, t, ok, order); t < |f'.threads| && f'.threads[t] == NextThread(f, t, ok, order)
  {
    match f.threads[t].todo[0]
    case StopCall => hide AgvsOf, UntrackCalls;
    case RestoreCall => hide Hand, IdsOf, AgvsOf;
    case StartCall => hide Resolver.Wildcard;
    case UntrackCall(agv) => hide Hand, AGV.Key;
    case TrackCall(agv, notify) => hide AGV.Key;
    case DropConnectionCall =>
  }

  lemma BeginsAwaiting(f: Fleet, t: nat, ok: bool, order: seq<string>)
    requires Inv(f) && Enabled(f, Begin(t, ok, order))
    ensures var f' := BeginCall(f, t, ok, order);
            t < |f'.threads| && Awaits(f'.threads[t]) == BegunAwaits(f, t, ok, order)
  {
    BeginLeaves(f, t, ok, order);
    hide Inv, Awaits, KeySeq, AgvsOf, IdsOf, Hand, AGV.Key, UntrackCalls, BeginCall;
    var todo := f.threads[t].todo;
    AwaitsBetween(todo);
    AwaitsBetween(todo[1..]);
    AwaitsBetween([]);
    match todo[0]
    case StopCall =>
      var agvs := AgvsOf(f.tracked, order);
      SilentStop(agvs, todo[1..]);
      AwaitsBetween(UntrackCalls(agvs) + [DropConnectionCall] + todo[1..]);
    case RestoreCall => SnapshotKeys(f, order);
    case _ =>
  }

  lemma BeginTracked(f: Fleet, t: nat, ok: bool, order: seq<string>)
    requires Enabled(f, Begin(t, ok, order))
    ensures BeginCall(f, t, ok, order).tracked.Keys == BegunTracked(f, t)
  {
    hide AgvsOf, IdsOf, Hand, AGV.Key, UntrackCalls, Resolver.Wildcard;
    match f.threads[t].todo[0]
    case UntrackCall(agv) =>
    case RestoreCall =>
    case _ => hide Enabled;
  }

  /** The same for the later steps of a call. */
  ghost predicate Later(st: Step) {
    !st.Begin? && !st.Spawn? && !st.SessionLoss?
  }

  ghost function LaterAwaits(f: Fleet, st: Step): seq<string>
    requires Enabled(f, st) && Later(st)
  {
    var was := Awaits(f.threads[st.thread]);
    match st
    case Subscribe(_, ok) => if ok then was else []
    case Commit(t) => if f.threads[t].frame.notify then was else was[1..]
    case _ => was
  }

  ghost function LaterTracked(f: Fleet, st: Step): set<string>
    requires Enabled(f, st) && Later(st)
  {
    if st.Commit? then f.tracked.Keys + {f.threads[st.thread].frame.agv.Key()} else f.tracked.Keys
  }

  lemma LaterMoves(f: Fleet, st: Step)
    requires Enabled(f, st) && Later(st)
    ensures var f', t := Apply(f, st), st.thread; t < |f'.threads| && f'.threads == f.threads[t := f'.threads[t]]
    ensures Apply(f, st).tracked.Keys == LaterTracked(f, st)
  {
    hide Hand, TrackCalls, AGV.Key, Resolver.Build;
  }

  lemma LaterAwaiting(f: Fleet, st: Step)
    requires Enabled(f, st) && Later(st)
    ensures var f', t := Apply(f, st), st.thread;
            t < |f'.threads| && Awaits(f'.threads[t]) == LaterAwaits(f, st)
  {
    var th := f.threads[st.thread];
    AwaitsBetween(th.todo);
    AwaitsBetween([]);
    if st.ClearEnd? {
      SilentRestore(th.frame.agvs, th.todo);
      AwaitsBetween([StartCall] + TrackCalls(th.frame.agvs) + th.todo);
    }
    hide Awaits, SilentKeys, KeySeq, Hand, TrackCalls, AGV.Key, Resolver.Build;
  }

  lemma LaterStep(f: Fleet, st: Step)
    requires Enabled(f, st) && Later(st)
    ensures AwaitsNow(f, Apply(f, st), st.thread, Awaits(f.threads[st.thread]), LaterAwaits(f, st))
    ensures Apply(f, st).tracked.Keys == LaterTracked(f, st)
  {
    LaterMoves(f, st);
    LaterAwaiting(f, st);
    hide Apply, Awaits, LaterAwaits, LaterTracked;
  }

  // ---- What that means for the balance -------------------------------------------------------------

  /** Keys only change places between the map and what t awaits. */
  ghost predicate SamePlaces(f: Fleet, f': Fleet, was: seq<string>, now: seq<string>) {
    forall k :: k in f'.tracked || k in now <==> k in f.tracked || k in was
  }

  lemma PlacesApart(f: Fleet, f': Fleet, t: nat, was: seq<string>, now: seq<string>)
    requires Apart(f) && AwaitsNow(f, f', t, was, now) && Distinct(now)
    requires forall k | k in now :: k !in f'.tracked && (k in was || k in f.tracked)
    requires forall k | k in f'.tracked :: k in f.tracked || k in was || !Awaited(f, k)
    ensures Apart(f')
  {
    hide Awaits;
    forall u, k | 0 <= u < |f'.threads| && k in Awaits(f'.threads[u])
      ensures k !in f'.tracked
    {
      if u != t {
        assert Awaited(f, k);
      }
    }
  }

  lemma PlacesBalanced(f: Fleet, f': Fleet, t: nat, was: seq<string>, now: seq<string>, events: seq<HookEvent>)
    requires AwaitsNow(f, f', t, was, now) && SamePlaces(f, f', was, now) && Balanced(f, events)
    ensures Balanced(f', events)
  {
    hide Awaits;
    forall k
      ensures CountsAsOnline(f', k) == CountsAsOnline(f, k)
    {
      if u :| 0 <= u < |f.threads| && u != t && k in Awaits(f.threads[u]) {
        assert k in Awaits(f'.threads[u]);
      } else {
        assert Awaited(f, k) <==> k in was;
        assert Awaited(f', k) <==> k in now;
      }
    }
  }

  /** A key that nobody awaits comes or goes with its hook. */
  lemma HookBalanced(f: Fleet, f': Fleet, events: seq<HookEvent>, e: HookEvent)
    requires Balanced(f, events) && !Awaited(f, e.key) && forall k :: Awaited(f', k) == Awaited(f, k)
    requires if e.WentOnline? then e.key !in f.tracked && f'.tracked.Keys == f.tracked.Keys + {e.key}
             else e.key in f.tracked && f'.tracked.Keys == f.tracked.Keys - {e.key}
    ensures Balanced(f', events + [e])
  {
    BalanceSnoc(events, e);
    hide Awaited, Balance;
    forall k
      ensures CountsAsOnline(f', k) == if k == e.key then e.WentOnline? else CountsAsOnline(f, k)
    {
      assert k in f'.tracked <==> k in f'.tracked.Keys;
    }
  }

  lemma SameAwaited(f: Fleet, f': Fleet, t: nat, was: seq<string>)
    requires AwaitsNow(f, f', t, was, was)
    ensures forall k :: Awaited(f', k) == Awaited(f, k)
  {
    hide Awaits;
    forall k
      ensures Awaited(f', k) == Awaited(f, k)
    {
      assert forall u | 0 <= u < |f.threads| :: Awaits(f'.threads[u]) == Awaits(f.threads[u]);
    }
  }

  // ---- Smooth steps keep the balance ------------------------------------------------------------------

  lemma TrackedUnawaited(f: Fleet, k: string)
    requires Apart(f) && k in f.tracked
    ensures !Awaited(f, k)
  {
    hide Awaits;
  }

  lemma DistinctRest(a: seq<string>)
    requires Distinct(a) && a != []
    ensures Distinct(a[1..]) && a[0] !in a[1..]
  {
  }

  lemma DistinctBoth(a: seq<string>, b: seq<string>)
    requires Distinct(a) && Distinct(b) && forall k | k in a :: k !in b
    ensures Distinct(a + b)
  {
    forall i, j | 0 <= i < j < |a + b|
      ensures (a + b)[i] != (a + b)[j]
    {
      if i < |a| <= j {
        assert a[i] in a && b[j - |a|] in b;
      }
    }
  }

  lemma QuietlyKept(f: Fleet, f': Fleet, t: nat, was: seq<string>, now: seq<string>, events: seq<HookEvent>)
    requires Apart(f) && Balanced(f, events) && AwaitsNow(f, f', t, was, now) && Distinct(now)
    requires forall k | k in now :: k !in f'.tracked && (k in was || k in f.tracked)
    requires forall k | k in f'.tracked :: k in f.tracked || k in was
    requires SamePlaces(f, f', was, now)
    ensures Apart(f') && Balanced(f', events + [])
  {
    hide Awaits;
    assert events + [] == events;
    PlacesApart(f, f', t, was, now);
    PlacesBalanced(f, f', t, was, now, events);
  }

  lemma BeginBalances(f: Fleet, t: nat, ok: bool, order: seq<string>, events: seq<HookEvent>)
    requires Inv(f) && Apart(f) && Balanced(f, events) && Enabled(f, Begin(t, ok, order))
    requires !FailsRestore(f, Begin(t, ok, order))
    ensures var f' := BeginCall(f, t, ok, order);
            Apart(f') && Balanced(f', events + HooksOf(f, Begin(t, ok, order)))
  {
    hide Inv, BeginCall, Awaits, AGV.Key, Balanced;
    var f', was, now := BeginCall(f, t, ok, order), Awaits(f.threads[t]), BegunAwaits(f, t, ok, order);
    BeginAwaits(f, t, ok, order);
    BeginTracked(f, t, ok, order);
    assert forall k :: k in f'.tracked <==> k in BegunTracked(f, t);
    match f.threads[t].todo[0]
    case UntrackCall(agv) =>
      SameAwaited(f, f', t, was);
      PlacesApart(f, f', t, was, was);
      if agv.Key() in f.tracked {
        TrackedUnawaited(f, agv.Key());
        HookBalanced(f, f', events, WentOffline(agv.Key()));
      } else {
        QuietlyKept(f, f', t, was, was, events);
      }
    case RestoreCall =>
      if f.started || |f.tracked| != 0 {
        DistinctBoth(order, was);
      } else {
        assert f.tracked.Keys == {};
      }
      QuietlyKept(f, f', t, was, now, events);
    case TrackCall(agv, notify) =>
      if !notify {
        SilentFirst(f.threads[t]);
      }
      QuietlyKept(f, f', t, was, now, events);
    case _ => QuietlyKept(f, f', t, was, now, events);
  }

  lemma SilentFirst(th: Thread)
    ensures th.frame.Ready? && th.todo != [] && th.todo[0].TrackCall? && !th.todo[0].notify ==>
              Awaits(th) != [] && Awaits(th)[0] == th.todo[0].agv.Key()
    ensures th.frame.Subscribing? && !th.frame.notify ==> Awaits(th) != [] && Awaits(th)[0] == th.frame.agv.Key()
  {
  }

  lemma LaterBalances(f: Fleet, st: Step, events: seq<HookEvent>)
    requires Apart(f) && Balanced(f, events) && Enabled(f, st) && Later(st) && Smooth(f, st)
    ensures Apart(Apply(f, st)) && Balanced(Apply(f, st), events + HooksOf(f, st))
  {
    hide Apply, Awaits, AGV.Key, Balanced;
    var t, f', was, now := st.thread, Apply(f, st), Awaits(f.threads[st.thread]), LaterAwaits(f, st);
    LaterStep(f, st);
    assert forall k :: k in f'.tracked <==> k in LaterTracked(f, st);
    if st.Commit? {
      var k := f.threads[t].frame.agv.Key();
      if f.threads[t].frame.notify {
        SameAwaited(f, f', t, was);
        if k in f.tracked {
          QuietlyKept(f, f', t, was, was, events);
        } else {
          assert !Awaited(f, k);
          UnawaitedBy(f, k, t);
          PlacesApart(f, f', t, was, was);
          HookBalanced(f, f', events, WentOnline(k));
        }
      } else {
        SilentFirst(f.threads[t]);
        DistinctRest(was);
        QuietlyKept(f, f', t, was, now, events);
      }
    } else {
      QuietlyKept(f, f', t, was, now, events);
    }
  }

  lemma UnawaitedBy(f: Fleet, k: string, t: nat)
    requires !Awaited(f, k) && t < |f.threads|
    ensures k !in Awaits(f.threads[t])
  {
    hide Awaits;
  }

  lemma OutsideBalances(f: Fleet, st: Step, events: seq<HookEvent>)
    requires Apart(f) && Balanced(f, events) && Public(st) && Enabled(f, st) && (st.Spawn? || st.SessionLoss?)
    ensures Apart(Apply(f, st)) && Balanced(Apply(f, st), events + [])
  {
    hide Awaits, Apart, Balanced;
    assert events + [] == events;
    if st.Spawn? {
      AwaitsBetween([st.call]);
      assert SilentKeys([st.call]) == [];
      NewcomerBalances(f, Apply(f, st), Thread(Ready, [st.call]), events);
    } else {
      LossBalances(f, Apply(f, st), events);
    }
  }

  lemma NewcomerBalances(f: Fleet, f': Fleet, th: Thread, events: seq<HookEvent>)
    requires Apart(f) && Balanced(f, events) && f'.tracked == f.tracked
    requires f'.threads == f.threads + [th] && Awaits(th) == []
    ensures Apart(f') && Balanced(f', events)
  {
    hide Awaits;
    assert forall u | 0 <= u < |f.threads| :: f'.threads[u] == f.threads[u];
    forall k
      ensures Awaited(f', k) == Awaited(f, k)
    {
      if u :| 0 <= u < |f.threads| && k in Awaits(f.threads[u]) {
        assert k in Awaits(f'.threads[u]);
      }
    }
  }

  lemma LossBalances(f: Fleet, f': Fleet, events: seq<HookEvent>)
    requires Apart(f) && Balanced(f, events) && f'.tracked == f.tracked && f'.threads == f.threads
    ensures Apart(f') && Balanced(f', events)
  {
    hide Awaits;
    assert forall k :: Awaited(f', k) == Awaited(f, k);
  }

  // ---- The others break it --------------------------------------------------------------------------

  lemma AwaitedTwice(f: Fleet, st: Step, events: seq<HookEvent>)
    requires Balanced(f, events) && Enabled(f, st) && TracksAwaited(f, st)
    ensures !Balanced(Apply(f, st), events + HooksOf(f, st))
  {
    var k := f.threads[st.thread].frame.agv.Key();
    BalanceSnoc(events, WentOnline(k));
    hide AGV.Key, Awaited;
    assert HooksOf(f, st) == [WentOnline(k)];
    assert CountsAsOnline(f, k);
    hide Apply, HooksOf;
    assert Balance(events + [WentOnline(k)], k) == 2;
  }

  lemma AwaitedLost(f: Fleet, st: Step, events: seq<HookEvent>)
    requires Inv(f) && Apart(f) && Balanced(f, events) && Enabled(f, st) && FailsRestore(f, st)
    ensures !Balanced(Apply(f, st), events + HooksOf(f, st))
  {
    hide Inv, Apply, Awaits, Balance, AGV.Key;
    var t, f' := st.thread, Apply(f, st);
    var was := Awaits(f.threads[t]);
    if st.Begin? {
      BeginsAs(f, st);
      BeginAwaits(f, t, st.ok, st.order);
      BeginTracked(f, t, st.ok, st.order);
    } else {
      LaterStep(f, st);
    }
    assert AwaitsNow(f, f', t, was, []) && f'.tracked.Keys == f.tracked.Keys && HooksOf(f, st) == [];
    assert events + [] == events;
    hide HooksOf, AwaitsNow, Enabled;
    LostOne(f, f', t, was);
    assert Balance(events, was[0]) == 1;
  }

  lemma BeginsAs(f: Fleet, st: Step)
    requires Enabled(f, st) && st.Begin?
    ensures Apply(f, st) == BeginCall(f, st.thread, st.ok, st.order)
  {
  }

  lemma LostOne(f: Fleet, f': Fleet, t: nat, was: seq<string>)
    requires Apart(f) && AwaitsNow(f, f', t, was, []) && was != [] && f'.tracked.Keys == f.tracked.Keys
    ensures CountsAsOnline(f, was[0]) && !CountsAsOnline(f', was[0])
  {
    hide Awaits;
    var k := was[0];
    assert k in Awaits(f.threads[t]) && k !in f.tracked.Keys;
    if u :| 0 <= u < |f'.threads| && k in Awaits(f'.threads[u]) {
      assert u != t ==> k in Awaits(f.threads[u]);
    }
  }

  // ---- The theorems ------------------------------------------------------------------------------------

  /** Exactly which steps keep the balance of hooks: all but those two kinds. */
  lemma StepBalancesExactly(f: Fleet, st: Step, events: seq<HookEvent>)
    requires Inv(f) && Apart(f) && Balanced(f, events) && Enabled(f, st) && Public(st)
    ensures Balanced(Apply(f, st), events + HooksOf(f, st)) <==> Smooth(f, st)
    ensures Smooth(f, st) ==> Apart(Apply(f, st))
  {
    if Smooth(f, st) {
      if st.Begin? {
        BeginsAs(f, st);
        hide Inv, Apart, Balanced, BeginCall, Awaited;
        BeginBalances(f, st.thread, st.ok, st.order, events);
      } else if Later(st) {
        hide Inv, Apart, Balanced, Smooth;
        LaterBalances(f, st, events);
      } else {
        hide Inv, Apart, Balanced;
        OutsideBalances(f, st, events);
      }
    } else {
      hide Inv, Apart, Balanced, Apply, HooksOf;
      if TracksAwaited(f, st) {
        AwaitedTwice(f, st, events);
      } else {
        AwaitedLost(f, st, events);
      }
    }
  }

  ghost predicate RunsHooked(f: Fleet, steps: seq<Step>, f': Fleet, events: seq<HookEvent>)
    decreases |steps|
  {
    if steps == [] then f == f' && events == []
    else
      Enabled(f, steps[0])
      && exists rest :: events == HooksOf(f, steps[0]) + rest && RunsHooked(Apply(f, steps[0]), steps[1..], f', rest)
  }

  ghost predicate SmoothRun(f: Fleet, steps: seq<Step>)
    decreases |steps|
  {
    steps == [] || (Enabled(f, steps[0]) && Public(steps[0]) && Smooth(f, steps[0])
                    && SmoothRun(Apply(f, steps[0]), steps[1..]))
  }

  lemma {:induction false} RunBalanced(f: Fleet, steps: seq<Step>, f': Fleet, before: seq<HookEvent>,
                                       events: seq<HookEvent>)
    requires Inv(f) && Apart(f) && Balanced(f, before) && RunsHooked(f, steps, f', events) && SmoothRun(f, steps)
    ensures Balanced(f', before + events)
    decreases |steps|
  {
    hide Inv, Apart, Apply, Enabled, HooksOf, Balanced, Public, Smooth, RunsHooked;
    if steps == [] {
      RunsNothing(f, f', events);
      assert before + events == before;
    } else {
      var st := steps[0];
      var rest := Unroll(f, steps, f', events);
      StepKeepsInv(f, st);
      StepBalancesExactly(f, st, before);
      RunBalanced(Apply(f, st), steps[1..], f', before + HooksOf(f, st), rest);
      assert before + events == before + HooksOf(f, st) + rest;
    }
  }

  lemma RunsNothing(f: Fleet, f': Fleet, events: seq<HookEvent>)
    requires RunsHooked(f, [], f', events)
    ensures f == f' && events == []
  {
  }

  lemma Unroll(f: Fleet, steps: seq<Step>, f': Fleet, events: seq<HookEvent>) returns (rest: seq<HookEvent>)
    requires RunsHooked(f, steps, f', events) && steps != []
    ensures Enabled(f, steps[0]) && events == HooksOf(f, steps[0]) + rest
            && RunsHooked(Apply(f, steps[0]), steps[1..], f', rest)
  {
    hide Apply, Enabled, HooksOf;
    rest :| events == HooksOf(f, steps[0]) + rest && RunsHooked(Apply(f, steps[0]), steps[1..], f', rest);
  }

  /**
   Over every interleaving of Start, Stop, Track, Untrack and Restore in which no Track commits an AGV that a
   Restore is about to put back, and no Restore fails with AGVs left to put back: online minus offline is one for
   the AGVs that are tracked or about to be put back and zero for the others; and so, once all calls have
   returned, one exactly for the tracked ones.
   */
  lemma HooksBalance(topics: Resolver, state: bool, visualization: bool, steps: seq<Step>, f: Fleet,
                     events: seq<HookEvent>)
    requires RunsHooked(Init(topics, state, visualization), steps, f, events)
    requires SmoothRun(Init(topics, state, visualization), steps)
    ensures Balanced(f, events)
    ensures Quiescent(f) ==> BalancedFor(events, f.tracked.Keys)
  {
    InitInv(topics, state, visualization);
    hide Inv, RunsHooked, SmoothRun;
    RunBalanced(Init(topics, state, visualization), steps, f, [], events);
    assert [] + events == events;
    if Quiescent(f) {
      NothingAwaited(f);
    }
  }

  lemma NothingAwaited(f: Fleet)
    requires Quiescent(f)
    ensures forall k :: !Awaited(f, k)
  {
    assert Awaits(Thread(Ready, [])) == [];
    hide Awaits;
  }

  // ---- Without Restore -----------------------------------------------------------------------------------

  ghost predicate LoudCall(c: Call) {
    !c.RestoreCall? && (c.TrackCall? ==> c.notify)
  }

  ghost predicate LoudStep(st: Step) {
    st.Spawn? ==> LoudCall(st.call)
  }

  ghost predicate LoudThread(th: Thread) {
    && !th.frame.Clearing? && (th.frame.Subscribing? ==> th.frame.notify) && forall c | c in th.todo :: LoudCall(c)
  }

  ghost predicate Loud(f: Fleet) {
    forall t | 0 <= t < |f.threads| :: LoudThread(f.threads[t])
  }

  lemma {:induction false} LoudListAwaitsNothing(todo: seq<Call>)
    requires forall c | c in todo :: LoudCall(c)
    ensures SilentKeys(todo) == []
  {
    if todo != [] {
      assert todo[0] in todo && forall c | c in todo[1..] :: c in todo;
      LoudListAwaitsNothing(todo[1..]);
    }
  }

  lemma LoudIsSmooth(f: Fleet, st: Step)
    requires Loud(f) && Enabled(f, st) && LoudStep(st)
    ensures Public(st) && Smooth(f, st)
  {
    forall t | 0 <= t < |f.threads|
      ensures Awaits(f.threads[t]) == []
    {
      assert LoudThread(f.threads[t]);
      LoudListAwaitsNothing(f.threads[t].todo);
    }
    hide Awaits, Enabled, Loud;
  }

  lemma SetLoud(f: Fleet, f': Fleet, t: nat)
    requires Loud(f) && t < |f.threads| == |f'.threads| && LoudThread(f'.threads[t])
    requires f'.threads == f.threads[t := f'.threads[t]]
    ensures Loud(f')
  {
    hide LoudThread;
  }

  lemma BeginLoud(f: Fleet, t: nat, ok: bool, order: seq<string>)
    requires Loud(f) && Enabled(f, Begin(t, ok, order))
    ensures Loud(BeginCall(f, t, ok, order))
  {
    var th := f.threads[t];
    assert LoudThread(th) && th.todo[0] in th.todo && forall c | c in th.todo[1..] :: c in th.todo;
    assert LoudCall(th.todo[0]) && forall c | c in th.todo[1..] :: LoudCall(c);
    BeginMovesOne(f, t, ok, order);
    BeginLeaves(f, t, ok, order);
    hide AgvsOf, AGV.Key, BeginCall, Enabled, Loud;
    SetLoud(f, BeginCall(f, t, ok, order), t);
  }

  lemma StepLoud(f: Fleet, st: Step)
    requires Loud(f) && Enabled(f, st) && LoudStep(st)
    ensures Loud(Apply(f, st))
  {
    if st.Begin? {
      hide Loud, BeginCall;
      BeginLoud(f, st.thread, st.ok, st.order);
    } else if Later(st) {
      assert LoudThread(f.threads[st.thread]);
      hide Hand, Resolver.Build, AGV.Key, Loud;
      SetLoud(f, Apply(f, st), st.thread);
    }
  }

  lemma {:induction false} LoudRunIsSmooth(f: Fleet, steps: seq<Step>, f': Fleet)
    requires Loud(f) && Runs(f, steps, f') && forall st | st in steps :: LoudStep(st)
    ensures SmoothRun(f, steps)
    decreases |steps|
  {
    hide Loud, Apply, Enabled, LoudStep, Public, Smooth;
    if steps != [] {
      assert steps[0] in steps && forall st | st in steps[1..] :: st in steps;
      LoudIsSmooth(f, steps[0]);
      StepLoud(f, steps[0]);
      LoudRunIsSmooth(Apply(f, steps[0]), steps[1..], f');
    }
  }

  /** Every run without a Restore is smooth, so the balance then holds at every moment. */
  lemma WithoutRestoreIsSmooth(topics: Resolver, state: bool, visualization: bool, steps: seq<Step>, f: Fleet)
    requires Runs(Init(topics, state, visualization), steps, f) && forall st | st in steps :: LoudStep(st)
    ensures SmoothRun(Init(topics, state, visualization), steps)
  {
    hide Runs, LoudStep;
    LoudRunIsSmooth(Init(topics, state, visualization), steps, f);
  }
}
