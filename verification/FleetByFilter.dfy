/**
 The same concurrent fleet session against MQTT itself, where unsubscribing
 names a filter and ends whatever is subscribed on it
 (internal/mqtt/transport.go). The session's steps do not depend on the kind of
 broker, so a by-filter broker simply follows the run with the set of filters
 that are subscribed there.
 */
module FleetByFilter {
  import opened Streams
  import opened Topics
  import opened Subscriptions
  import opened FleetProtocol
  import opened FleetSteps
  import opened FleetTheorems

  /** The call whose first section a step runs. */
  ghost predicate Begins(f: Fleet, st: Step) {
    st.Begin? && st.thread < |f.threads| && f.threads[st.thread].todo != []
  }

  ghost function CallOf(f: Fleet, st: Step): Call
    requires Begins(f, st)
  {
    f.threads[st.thread].todo[0]
  }

  /** The subscriptions a step ends, or asks the broker to end. */
  ghost function Ended(f: Fleet, st: Step): set<nat>
    requires Enabled(f, st)
  {
    match st
    case Begin(_, _, _) => if CallOf(f, st).DropConnectionCall? && f.conn.Some? then {f.conn.value} else {}
    case Unsubscribe(t) => {f.threads[t].frame.ids[|f.threads[t].frame.ids| - 1]}
    case ClearOne(t) => {f.threads[t].frame.ids[0]}
    case SessionLoss(lost) => lost
    case _ => {}
  }

  /** The filter a step subscribes. */
  ghost function Asked(f: Fleet, st: Step): set<string>
    requires Enabled(f, st)
  {
    match st
    case Begin(_, ok, _) => if CallOf(f, st).StartCall? && !f.started && ok then {f.topics.Wildcard(CONNECTION)} else {}
    case Subscribe(t, ok) =>
      var frame := f.threads[t].frame;
      if ok then {f.topics.Build(frame.agv.manufacturer, frame.agv.serialNumber, f.channels[|frame.ids|])} else {}
    case _ => {}
  }

  ghost function FiltersOf(f: Fleet, ids: set<nat>): set<string> {
    set id | id in ids && id in f.filterOf :: f.filterOf[id]
  }

  /** The by-filter broker's set after a step. */
  ghost function Follow(f: Fleet, filters: set<string>, st: Step): set<string>
    requires Enabled(f, st)
  {
    filters - FiltersOf(f, Ended(f, st)) + Asked(f, st)
  }

  /** Both brokers agree: a filter is subscribed by filter exactly when some subscription by id is on it. */
  ghost predicate Agree(f: Fleet, filters: set<string>) {
    filters == FiltersOf(f, f.live)
  }

  /** What a step does to the broker that knows subscriptions by id, and to their owners. */
  ghost predicate Effect(f: Fleet, f': Fleet, ended: set<nat>, asked: set<string>) {
    if asked == {} then
      f'.live == f.live - ended && f'.filterOf == f.filterOf && f'.owner.Keys <= f.owner.Keys
    else
      && ended == {} && f'.live == f.live + {f.nextID} && f'.owner.Keys <= f.owner.Keys + {f.nextID}
      && exists filter :: asked == {filter} && f'.filterOf == f.filterOf[f.nextID := filter]
  }

  lemma HandKeys(owner: map<nat, Owner>, ids: seq<nat>, o: Owner)
    ensures Hand(owner, ids, o).Keys == owner.Keys
  {
  }

  lemma AddEffect(f: Fleet, g: Fleet, filter: string, o: Owner)
    requires g.live == f.live && g.owner == f.owner && g.filterOf == f.filterOf && g.nextID == f.nextID
    ensures Effect(f, NewSubscription(g, filter, o), {}, {filter})
  {
    assert NewSubscription(g, filter, o).filterOf == f.filterOf[f.nextID := filter];
    assert {filter} == {filter};
  }

  lemma BeginEffect(f: Fleet, t: nat, ok: bool, order: seq<string>)
    requires Enabled(f, Begin(t, ok, order))
    ensures var st := Begin(t, ok, order); Effect(f, BeginCall(f, t, ok, order), Ended(f, st), Asked(f, st))
  {
    var call := f.threads[t].todo[0];
    hide BeginCall, Effect, Resolver.Wildcard;
    if call.StartCall? {
      StartEffect(f, t, ok, order);
    } else if call.DropConnectionCall? {
      DropEffect(f, t, ok, order);
    } else {
      QuietBegin(f, t, ok, order);
      NoEffect(f, BeginCall(f, t, ok, order));
    }
  }

  lemma StartEffect(f: Fleet, t: nat, ok: bool, order: seq<string>)
    requires Enabled(f, Begin(t, ok, order)) && f.threads[t].todo[0].StartCall?
    ensures Effect(f, BeginCall(f, t, ok, order), {}, if !f.started && ok then {f.topics.Wildcard(CONNECTION)} else {})
  {
    hide Resolver.Wildcard, Effect;
    var g := SetThread(f, t, Thread(Ready, f.threads[t].todo[1..]));
    if !f.started && ok {
      AddEffect(f, g, f.topics.Wildcard(CONNECTION), ByConnection);
      EffectFrame(f, NewSubscription(g, f.topics.Wildcard(CONNECTION), ByConnection), BeginCall(f, t, ok, order), {},
                  {f.topics.Wildcard(CONNECTION)});
    } else {
      NoEffect(f, BeginCall(f, t, ok, order));
    }
  }

  lemma DropEffect(f: Fleet, t: nat, ok: bool, order: seq<string>)
    requires Enabled(f, Begin(t, ok, order)) && f.threads[t].todo[0].DropConnectionCall?
    ensures Effect(f, BeginCall(f, t, ok, order), if f.conn.Some? then {f.conn.value} else {}, {})
  {
    hide Effect;
    if f.conn.Some? {
      EndEffect(f, BeginCall(f, t, ok, order), f.conn.value);
    } else {
      NoEffect(f, BeginCall(f, t, ok, order));
    }
  }

  /** The other first sections leave the broker alone. */
  lemma QuietBegin(f: Fleet, t: nat, ok: bool, order: seq<string>)
    requires Enabled(f, Begin(t, ok, order))
    requires !f.threads[t].todo[0].StartCall? && !f.threads[t].todo[0].DropConnectionCall?
    ensures var g := BeginCall(f, t, ok, order);
            g.live == f.live && g.filterOf == f.filterOf && g.owner.Keys == f.owner.Keys
  {
    hide IdsOf, AgvsOf, Hand, TrackCalls, UntrackCalls, AGV.Key;
    match f.threads[t].todo[0]
    case UntrackCall(agv) =>
      if agv.Key() in f.tracked {
        HandKeys(f.owner, f.tracked[agv.Key()].ids, ByThread(t));
      }
    case RestoreCall => HandKeys(f.owner, IdsOf(f.tracked, order) + ConnSeq(f.conn), ByThread(t));
    case _ =>
  }

  lemma NoEffect(f: Fleet, g: Fleet)
    requires g.live == f.live && g.filterOf == f.filterOf && g.owner.Keys == f.owner.Keys
    ensures Effect(f, g, {}, {})
  {
  }

  lemma EndEffect(f: Fleet, g: Fleet, id: nat)
    requires g.live == f.live - {id} && g.filterOf == f.filterOf && g.owner == f.owner - {id}
    ensures Effect(f, g, {id}, {})
  {
    assert (f.owner - {id}).Keys == f.owner.Keys - {id};
  }

  lemma EffectFrame(f: Fleet, g: Fleet, g': Fleet, ended: set<nat>, asked: set<string>)
    requires Effect(f, g, ended, asked) && g'.live == g.live && g'.owner == g.owner && g'.filterOf == g.filterOf
    ensures Effect(f, g', ended, asked)
  {
  }

  lemma StepByID(f: Fleet, st: Step)
    requires Inv(f) && Enabled(f, st)
    ensures Effect(f, Apply(f, st), Ended(f, st), Asked(f, st)) && f.nextID !in f.filterOf
    ensures Ended(f, st) <= f.filterOf.Keys
  {
    EndedIsKnown(f, st);
    assert f.nextID !in f.filterOf by { hide EntryInv, ThreadInv, LockInv; }
    hide Inv, BeginCall, Resolver.Build, Hand, Effect;
    var f' := Apply(f, st);
    match st
    case Begin(t, ok, order) => BeginEffect(f, t, ok, order);
    case Subscribe(t, ok) =>
      if !ok {
        NoEffect(f, f');
      } else {
        var th := f.threads[t];
        var agv, ids := th.frame.agv, th.frame.ids;
        AddEffect(f, SetThread(f, t, th.(frame := Subscribing(agv, th.frame.notify, ids + [f.nextID]))),
                  f.topics.Build(agv.manufacturer, agv.serialNumber, f.channels[|ids|]), ByThread(t));
      }
    case Commit(t) =>
      HandKeys(f.owner, f.threads[t].frame.ids, ByEntry(f.threads[t].frame.agv.Key()));
      NoEffect(f, f');
    case Unsubscribe(t) => EndEffect(f, f', f.threads[t].frame.ids[|f.threads[t].frame.ids| - 1]);
    case ClearOne(t) => EndEffect(f, f', f.threads[t].frame.ids[0]);
    case SessionLoss(lost) => LossEffect(f, f', lost);
    case _ => NoEffect(f, f');
  }

  lemma LossEffect(f: Fleet, g: Fleet, lost: set<nat>)
    requires g.live == f.live - lost && g.filterOf == f.filterOf && g.owner == f.owner
    ensures Effect(f, g, lost, {})
  {
  }

  lemma EndedIsKnown(f: Fleet, st: Step)
    requires Inv(f) && Enabled(f, st)
    ensures Ended(f, st) <= f.filterOf.Keys
    ensures !st.SessionLoss? ==> Ended(f, st) <= f.owner.Keys
  {
    if st.Unsubscribe? || st.ClearOne? {
      ThreadOwns(f, st.thread);
      assert forall id | id in Held(f.threads[st.thread]) :: id in f.owner;
    } else if st.Begin? && f.conn.Some? {
      OwnedOnly(f.owner, ByConnection, ConnSeq(f.conn));
      assert f.conn.value in ConnSeq(f.conn);
    }
    hide EntryInv, ThreadInv, LockInv, Owns;
  }

  /** No subscription that stays is on the filter of one that ends. */
  ghost predicate NoRival(f: Fleet, st: Step)
    requires Enabled(f, st)
  {
    forall a, b | a in Ended(f, st) && b in f.live && b !in Ended(f, st) && a in f.filterOf && b in f.filterOf ::
      f.filterOf[a] != f.filterOf[b]
  }

  /** Exactly when a step keeps the brokers in agreement: when it ends no subscription whose filter another one
    * needs. */
  lemma StepAgrees(f: Fleet, filters: set<string>, st: Step)
    requires Inv(f) && Enabled(f, st) && Agree(f, filters)
    ensures Agree(Apply(f, st), Follow(f, filters, st)) <==> NoRival(f, st)
  {
    StepByID(f, st);
    LiveHasFilter(f);
    var f', ended := Apply(f, st), Ended(f, st);
    hide Inv, Enabled, Apply, Ended, Asked;
    if Asked(f, st) == {} {
      RemovalAgrees(f, f', filters, ended);
    } else {
      var filter :| Asked(f, st) == {filter} && f'.filterOf == f.filterOf[f.nextID := filter];
      hide Effect;
      AdditionAgrees(f, f', filters, filter);
    }
  }

  lemma AdditionAgrees(f: Fleet, f': Fleet, filters: set<string>, filter: string)
    requires Agree(f, filters) && f.nextID !in f.filterOf && f'.live == f.live + {f.nextID}
    requires f'.filterOf == f.filterOf[f.nextID := filter] && forall id | id in f.live :: id in f.filterOf
    ensures FiltersOf(f, {}) == {} && Agree(f', filters - {} + {filter})
  {
    assert FiltersOf(f', f'.live) == FiltersOf(f, f.live) + {filter};
  }

  lemma RemovalAgrees(f: Fleet, f': Fleet, filters: set<string>, ended: set<nat>)
    requires Agree(f, filters) && f'.live == f.live - ended && f'.filterOf == f.filterOf
    requires ended <= f.filterOf.Keys && forall id | id in f.live :: id in f.filterOf
    ensures Agree(f', filters - FiltersOf(f, ended) + {})
            <==> forall a, b | a in ended && b in f.live && b !in ended && a in f.filterOf && b in f.filterOf ::
                   f.filterOf[a] != f.filterOf[b]
  {
    var rest := FiltersOf(f, f.live) - FiltersOf(f, ended);
    assert filters - FiltersOf(f, ended) + {} == rest;
    assert forall x | x in rest :: x in FiltersOf(f', f'.live);
    if forall a, b | a in ended && b in f.live && b !in ended && a in f.filterOf && b in f.filterOf ::
         f.filterOf[a] != f.filterOf[b] {
      assert forall x | x in FiltersOf(f', f'.live) :: x in rest;
    } else {
      var a, b :| a in ended && b in f.live && b !in ended && a in f.filterOf && b in f.filterOf
                  && f.filterOf[a] == f.filterOf[b];
      assert f.filterOf[b] in FiltersOf(f', f'.live) && f.filterOf[a] in FiltersOf(f, ended);
    }
  }

  // ---- Runs -------------------------------------------------------------------------------

  /** The steps take the session from f to f' and the by-filter broker from filters to filters'. */
  ghost predicate RunsBoth(f: Fleet, filters: set<string>, steps: seq<Step>, f': Fleet, filters': set<string>)
    decreases |steps|
  {
    if steps == [] then f == f' && filters == filters'
    else Enabled(f, steps[0]) && RunsBoth(Apply(f, steps[0]), Follow(f, filters, steps[0]), steps[1..], f', filters')
  }

  lemma {:induction false} BothIsRun(f: Fleet, filters: set<string>, steps: seq<Step>, f': Fleet, filters': set<string>)
    requires RunsBoth(f, filters, steps, f', filters')
    ensures Runs(f, steps, f')
    decreases |steps|
  {
    hide Apply, Enabled, Follow;
    if steps != [] {
      BothIsRun(Apply(f, steps[0]), Follow(f, filters, steps[0]), steps[1..], f', filters');
    }
  }

  lemma {:induction false} BothSnoc(f: Fleet, filters: set<string>, steps: seq<Step>, mid: Fleet, had: set<string>,
                                    st: Step)
    requires RunsBoth(f, filters, steps, mid, had) && Enabled(mid, st)
    ensures RunsBoth(f, filters, steps + [st], Apply(mid, st), Follow(mid, had, st))
    decreases |steps|
  {
    hide Apply, Enabled, Follow;
    if steps == [] {
      assert ([] + [st])[1..] == [];
      assert RunsBoth(Apply(mid, st), Follow(mid, had, st), [], Apply(mid, st), Follow(mid, had, st));
    } else {
      BothSnoc(Apply(f, steps[0]), Follow(f, filters, steps[0]), steps[1..], mid, had, st);
      assert (steps + [st])[1..] == steps[1..] + [st];
    }
  }

  lemma {:induction false} BothConcat(f: Fleet, filters: set<string>, a: seq<Step>, mid: Fleet, had: set<string>,
                                      b: seq<Step>, f': Fleet, filters': set<string>)
    requires RunsBoth(f, filters, a, mid, had) && RunsBoth(mid, had, b, f', filters')
    ensures RunsBoth(f, filters, a + b, f', filters')
    decreases |a|
  {
    hide Apply, Enabled, Follow;
    if a == [] {
      assert a + b == b;
    } else {
      BothConcat(Apply(f, a[0]), Follow(f, filters, a[0]), a[1..], mid, had, b, f', filters');
      assert (a + b)[1..] == a[1..] + b;
    }
  }

  // ---- When no two calls concern one AGV ----------------------------------------------------

  /** The thread's current call is subscribing the AGV's filters, or still has some of them to end. */
  ghost predicate Concerns(f: Fleet, u: nat, agv: AGV)
    requires u < |f.threads|
  {
    match f.threads[u].frame
    case Ready => false
    case Subscribing(a, _, _) => a.Key() == agv.Key()
    case Removing(ids) => HoldsFilterOf(f, ids, agv)
    case Clearing(_, ids) => HoldsFilterOf(f, ids, agv)
  }

  ghost predicate HoldsFilterOf(f: Fleet, ids: seq<nat>, agv: AGV) {
    exists id, ch :: id in ids && ch in f.channels && id in f.filterOf
                     && f.filterOf[id] == f.topics.Build(agv.manufacturer, agv.serialNumber, ch)
  }

  /** A Track of an AGV that is not tracked begins only when no other unfinished call concerns that AGV. */
  ghost predicate Orderly(f: Fleet, st: Step)
    requires Enabled(f, st)
  {
    Begins(f, st) && CallOf(f, st).TrackCall? && CallOf(f, st).agv.Key() !in f.tracked ==>
      forall u: nat | u < |f.threads| && u != st.thread :: !Concerns(f, u, CallOf(f, st).agv)
  }

  /** No two subscriptions anybody answers for are on one filter. */
  ghost predicate OneEach(f: Fleet) {
    forall a, b | a in f.owner && b in f.owner && a in f.filterOf && b in f.filterOf
      && f.filterOf[a] == f.filterOf[b] :: a == b
  }

  /** Whoever is subscribing an AGV is alone with it. */
  ghost predicate Alone(f: Fleet) {
    forall t: nat | t < |f.threads| && f.threads[t].frame.Subscribing? :: AloneWith(f, t, f.threads[t].frame.agv)
  }

  ghost predicate AloneWith(f: Fleet, t: nat, agv: AGV) {
    agv.Key() !in f.tracked && forall u: nat | u < |f.threads| && u != t :: !Concerns(f, u, agv)
  }

  ghost predicate Tidy(f: Fleet) {
    Inv(f) && WildcardInv(f) && OneEach(f) && Alone(f)
  }

  // -- OneEach

  lemma SubscribeOneEach(f: Fleet, t: nat)
    requires Tidy(f) && Enabled(f, Subscribe(t, true))
    ensures OneEach(Apply(f, Subscribe(t, true)))
  {
    var frame := f.threads[t].frame;
    var filter := f.topics.Build(frame.agv.manufacturer, frame.agv.serialNumber, f.channels[|frame.ids|]);
    forall id | id in f.owner && id in f.filterOf
      ensures f.filterOf[id] != filter && id != f.nextID
    {
      FilterIsFree(f, t, id);
    }
    hide Inv, WildcardInv, Alone, Resolver.Build;
  }

  /** The next filter of a subscribing thread is nobody's yet. */
  lemma FilterIsFree(f: Fleet, t: nat, id: nat)
    requires Inv(f) && Alone(f) && Enabled(f, Subscribe(t, true)) && id in f.owner && id in f.filterOf
    ensures id != f.nextID
    ensures var frame := f.threads[t].frame;
            f.filterOf[id] != f.topics.Build(frame.agv.manufacturer, frame.agv.serialNumber, f.channels[|frame.ids|])
  {
    assert id < f.nextID by { hide EntryInv, ThreadInv, LockInv; }
    var frame := f.threads[t].frame;
    assert AloneWith(f, t, frame.agv);
    match f.owner[id]
    case ByConnection => ConnectionFilter(f, id); WildcardIsNotTracked(f.topics, frame.agv, f.channels[|frame.ids|]);
    case ByEntry(k) =>
      var j := EntryFilter(f, id);
      BuildFaithful(f.topics, f.tracked[k].agv, frame.agv, f.channels[j], f.channels[|frame.ids|]);
    case ByThread(u) => ThreadFilterIsFree(f, t, id, u);
  }

  lemma ConnectionFilter(f: Fleet, id: nat)
    requires Inv(f) && id in f.owner && f.owner[id].ByConnection?
    ensures id in f.filterOf && f.filterOf[id] == f.topics.Wildcard(CONNECTION)
  {
    hide EntryInv, ThreadInv, LockInv, GoodChannels;
    OwnedOnly(f.owner, ByConnection, ConnSeq(f.conn));
    assert id in ConnSeq(f.conn);
  }

  lemma EntryFilter(f: Fleet, id: nat) returns (j: nat)
    requires Inv(f) && id in f.owner && f.owner[id].ByEntry? && id in f.filterOf
    ensures var k := f.owner[id].key;
            && k in f.tracked && f.tracked[k].agv.Key() == k && j < |f.channels| && ValidChannel(f.channels[j])
            && f.filterOf[id] == f.topics.Build(f.tracked[k].agv.manufacturer, f.tracked[k].agv.serialNumber,
                                                f.channels[j])
  {
    hide ThreadInv, LockInv, ConnInv, BrokerInv;
    var k := f.owner[id].key;
    var e := f.tracked[k];
    OwnedOnly(f.owner, ByEntry(k), e.ids);
    j :| 0 <= j < |e.ids| && e.ids[j] == id;
    assert EntryOk(f.topics, f.channels, f.filterOf, k, e);
  }

  lemma ThreadFilterIsFree(f: Fleet, t: nat, id: nat, u: nat)
    requires Inv(f) && Alone(f) && Enabled(f, Subscribe(t, true)) && id in f.owner && id in f.filterOf
    requires f.owner[id] == ByThread(u)
    ensures var frame := f.threads[t].frame;
            f.filterOf[id] != f.topics.Build(frame.agv.manufacturer, frame.agv.serialNumber, f.channels[|frame.ids|])
  {
    var frame := f.threads[t].frame;
    var ch := f.channels[|frame.ids|];
    assert u < |f.threads| by { hide EntryInv, LockInv, ConnInv, BrokerInv; }
    ThreadOwns(f, u);
    assert id in Held(f.threads[u]);
    assert AloneWith(f, t, frame.agv);
    if f.threads[u].frame.Subscribing? {
      var a := f.threads[u].frame.agv;
      var j := HeldFilter(f, u, id);
      BuildFaithful(f.topics, a, frame.agv, f.channels[j], ch);
      assert u != t ==> !Concerns(f, u, frame.agv);
    } else {
      assert !Concerns(f, u, frame.agv);
      assert ch in f.channels;
    }
  }

  lemma HeldFilter(f: Fleet, u: nat, id: nat) returns (j: nat)
    requires Inv(f) && u < |f.threads| && f.threads[u].frame.Subscribing? && id in f.threads[u].frame.ids
    ensures j < |f.threads[u].frame.ids| <= |f.channels| && ValidChannel(f.channels[j]) && id in f.filterOf
    ensures var a := f.threads[u].frame.agv;
            f.filterOf[id] == f.topics.Build(a.manufacturer, a.serialNumber, f.channels[j])
  {
    hide EntryInv, LockInv, ConnInv, BrokerInv;
    assert ThreadOk(f.topics, f.channels, f.filterOf, f.owner, u, f.threads[u]);
    j :| 0 <= j < |f.threads[u].frame.ids| && f.threads[u].frame.ids[j] == id;
  }

  lemma StepOneEach(f: Fleet, st: Step)
    requires Tidy(f) && Enabled(f, st)
    ensures OneEach(Apply(f, st))
  {
    StepByID(f, st);
    if Asked(f, st) == {} {
      hide Inv, Enabled, Apply, Ended, Asked, WildcardInv, Alone;
    } else if st.Subscribe? {
      SubscribeOneEach(f, st.thread);
    } else {
      NoWildcardYet(f);
      hide Inv, Alone, WildcardInv, IdsOf, AgvsOf, Hand, Resolver.Wildcard;
    }
  }

  // -- Alone

  /** Thread t moved; everything else about who subscribes what is as before, and t concerns nothing untracked anew. */
  lemma AloneKept(f: Fleet, f': Fleet, t: nat)
    requires Alone(f) && t < |f.threads| && |f'.threads| == |f.threads| && f'.topics == f.topics
             && f'.channels == f.channels
    requires forall u | 0 <= u < |f.threads| && u != t :: f'.threads[u] == f.threads[u]
    requires forall u: nat, agv: AGV | u < |f.threads| && u != t && Concerns(f', u, agv) :: Concerns(f, u, agv)
    requires forall agv: AGV | Concerns(f', t, agv) :: Concerns(f, t, agv) || agv.Key() in f.tracked
    requires forall k | k in f'.tracked ::
               k in f.tracked || (f.threads[t].frame.Subscribing? && f.threads[t].frame.agv.Key() == k
                                  && !f'.threads[t].frame.Subscribing?)
    requires f'.threads[t].frame.Subscribing? ==>
               f.threads[t].frame.Subscribing? && f.threads[t].frame.agv == f'.threads[t].frame.agv
    ensures Alone(f')
  {
    hide Concerns;
    forall v: nat | v < |f'.threads| && f'.threads[v].frame.Subscribing?
      ensures AloneWith(f', v, f'.threads[v].frame.agv)
    {
      var agv := f'.threads[v].frame.agv;
      assert AloneWith(f, v, agv);
      if v != t && agv.Key() in f'.tracked {
        SubscribingConcerns(f, t, agv);
      }
    }
  }

  lemma SubscribingConcerns(f: Fleet, t: nat, agv: AGV)
    requires t < |f.threads|
    ensures f.threads[t].frame.Subscribing? && f.threads[t].frame.agv.Key() == agv.Key() ==> Concerns(f, t, agv)
  {
  }

  /** Ids that have their filters already concern the same AGVs later. */
  lemma ConcernsKept(f: Fleet, f': Fleet, u: nat)
    requires Inv(f) && u < |f.threads| && u < |f'.threads| && f'.threads[u] == f.threads[u]
    requires f'.topics == f.topics && f'.channels == f.channels
    requires forall id | id in f.filterOf :: id in f'.filterOf && f'.filterOf[id] == f.filterOf[id]
    ensures forall agv: AGV | Concerns(f', u, agv) :: Concerns(f, u, agv)
  {
    ThreadOwns(f, u);
    assert forall id | id in Held(f.threads[u]) :: id in f.filterOf by { hide EntryInv, ThreadInv, LockInv; }
    hide Inv;
    forall agv: AGV | Concerns(f', u, agv)
      ensures Concerns(f, u, agv)
    {
      if !f.threads[u].frame.Subscribing? {
        var ids := Held(f.threads[u]);
        var id, ch :| id in ids && ch in f.channels && id in f'.filterOf
                      && f'.filterOf[id] == f.topics.Build(agv.manufacturer, agv.serialNumber, ch);
        assert HoldsFilterOf(f, ids, agv);
      }
    }
  }

  /** The filters of what the session has settled are those of tracked AGVs. */
  lemma SettledIsTracked(f: Fleet, id: nat, agv: AGV, ch: Channel)
    requires Inv(f) && id in f.owner && !f.owner[id].ByThread? && id in f.filterOf && ch in f.channels
    requires f.filterOf[id] == f.topics.Build(agv.manufacturer, agv.serialNumber, ch)
    ensures agv.Key() in f.tracked
  {
    if f.owner[id].ByConnection? {
      ConnectionFilter(f, id);
      WildcardIsNotTracked(f.topics, agv, ch);
    } else {
      var j := EntryFilter(f, id);
      BuildFaithful(f.topics, f.tracked[f.owner[id].key].agv, agv, f.channels[j], ch);
    }
  }

  lemma SettledConcern(f: Fleet, ids: seq<nat>, agv: AGV)
    requires Inv(f) && HoldsFilterOf(f, ids, agv) && forall id | id in ids :: id in f.owner && !f.owner[id].ByThread?
    ensures agv.Key() in f.tracked
  {
    var id, ch :| id in ids && ch in f.channels && id in f.filterOf
                  && f.filterOf[id] == f.topics.Build(agv.manufacturer, agv.serialNumber, ch);
    SettledIsTracked(f, id, agv, ch);
  }

  /** What a subscribing thread has so far concerns the AGV it is about, and no other. */
  lemma HeldConcern(f: Fleet, t: nat, agv: AGV)
    requires Inv(f) && t < |f.threads| && f.threads[t].frame.Subscribing?
             && HoldsFilterOf(f, f.threads[t].frame.ids, agv)
    ensures agv.Key() == f.threads[t].frame.agv.Key()
  {
    var id, ch :| id in f.threads[t].frame.ids && ch in f.channels && id in f.filterOf
                  && f.filterOf[id] == f.topics.Build(agv.manufacturer, agv.serialNumber, ch);
    var j := HeldFilter(f, t, id);
    BuildFaithful(f.topics, f.threads[t].frame.agv, agv, f.channels[j], ch);
  }

  lemma FewerConcern(f: Fleet, ids: seq<nat>, ids': seq<nat>, agv: AGV)
    requires HoldsFilterOf(f, ids', agv) && forall id | id in ids' :: id in ids
    ensures HoldsFilterOf(f, ids, agv)
  {
  }

  lemma OthersKept(f: Fleet, f': Fleet, t: nat)
    requires Inv(f) && t < |f.threads| && |f'.threads| == |f.threads| && f'.topics == f.topics
             && f'.channels == f.channels
    requires forall u | 0 <= u < |f.threads| && u != t :: f'.threads[u] == f.threads[u]
    requires forall id | id in f.filterOf :: id in f'.filterOf && f'.filterOf[id] == f.filterOf[id]
    ensures forall u: nat, agv: AGV | u < |f.threads| && u != t && Concerns(f', u, agv) :: Concerns(f, u, agv)
  {
    hide Inv;
    forall u: nat, agv: AGV | u < |f.threads| && u != t && Concerns(f', u, agv)
      ensures Concerns(f, u, agv)
    {
      ConcernsKept(f, f', u);
    }
  }

  lemma BeginTrackAlone(f: Fleet, t: nat, ok: bool, order: seq<string>)
    requires Tidy(f) && Enabled(f, Begin(t, ok, order)) && Orderly(f, Begin(t, ok, order))
    requires f.threads[t].todo[0].TrackCall? && f.threads[t].todo[0].agv.Key() !in f.tracked
    ensures Alone(BeginCall(f, t, ok, order))
  {
    var agv := f.threads[t].todo[0].agv;
    var f' := BeginCall(f, t, ok, order);
    OthersKept(f, f', t);
    assert forall u: nat | u < |f.threads| && u != t :: !Concerns(f, u, agv);
    hide Inv, WildcardInv, OneEach;
    forall v: nat | v < |f'.threads| && f'.threads[v].frame.Subscribing?
      ensures AloneWith(f', v, f'.threads[v].frame.agv)
    {
      if v != t {
        assert AloneWith(f, v, f.threads[v].frame.agv);
        SubscribingConcerns(f, v, agv);
      }
    }
  }

  lemma BeginOtherAlone(f: Fleet, t: nat, ok: bool, order: seq<string>)
    requires Tidy(f) && Enabled(f, Begin(t, ok, order))
    requires f.threads[t].todo[0].TrackCall? ==> f.threads[t].todo[0].agv.Key() in f.tracked
    ensures Alone(BeginCall(f, t, ok, order))
  {
    var f' := BeginCall(f, t, ok, order);
    StepByID(f, Begin(t, ok, order));
    BeginShape(f, t, ok, order);
    OthersKept(f, f', t);
    forall agv: AGV | Concerns(f', t, agv)
      ensures agv.Key() in f.tracked
    {
      HoldsSame(f, f', Held(f'.threads[t]), agv);
      SettledConcern(f, Held(f'.threads[t]), agv);
    }
    hide Inv, BeginCall, WildcardInv, OneEach, Concerns, Effect;
    AloneKept(f, f', t);
  }

  lemma HoldsSame(f: Fleet, f': Fleet, ids: seq<nat>, agv: AGV)
    requires HoldsFilterOf(f', ids, agv) && f'.topics == f.topics && f'.channels == f.channels
    requires forall id | id in ids :: id in f.filterOf && id in f'.filterOf && f'.filterOf[id] == f.filterOf[id]
    ensures HoldsFilterOf(f, ids, agv)
  {
  }

  /** The thread of a first section that does not subscribe an AGV holds nothing but what had been settled. */
  lemma BeginShape(f: Fleet, t: nat, ok: bool, order: seq<string>)
    requires Inv(f) && Enabled(f, Begin(t, ok, order))
    requires f.threads[t].todo[0].TrackCall? ==> f.threads[t].todo[0].agv.Key() in f.tracked
    ensures var f' := BeginCall(f, t, ok, order);
            && |f'.threads| == |f.threads| && f'.topics == f.topics && f'.channels == f.channels
            && (forall u | 0 <= u < |f.threads| && u != t :: f'.threads[u] == f.threads[u])
            && !f'.threads[t].frame.Subscribing? && f'.tracked.Keys <= f.tracked.Keys
            && (forall id | id in f.filterOf :: id in f'.filterOf && f'.filterOf[id] == f.filterOf[id])
            && (forall id | id in Held(f'.threads[t]) :: id in f.owner && !f.owner[id].ByThread? && id in f.filterOf)
  {
    StepByID(f, Begin(t, ok, order));
    assert forall id | id in f.owner :: id in f.filterOf by { hide EntryInv, ThreadInv, LockInv; }
    hide Inv, BeginCall, Resolver.Wildcard;
    hide Enabled;
    BeginFrame(f, t, ok, order);
    BeginHeld(f, t, ok, order);
  }

  /** f' is f with thread t changed, and fewer or as many AGVs tracked. */
  ghost predicate OnlyThread(f: Fleet, f': Fleet, t: nat) {
    && t < |f.threads| == |f'.threads| && f'.topics == f.topics && f'.channels == f.channels
    && (forall u | 0 <= u < |f.threads| && u != t :: f'.threads[u] == f.threads[u])
    && f'.tracked.Keys <= f.tracked.Keys
  }

  lemma BeginFrame(f: Fleet, t: nat, ok: bool, order: seq<string>)
    requires Enabled(f, Begin(t, ok, order))
    requires f.threads[t].todo[0].TrackCall? ==> f.threads[t].todo[0].agv.Key() in f.tracked
    ensures var f' := BeginCall(f, t, ok, order);
            OnlyThread(f, f', t) && !f'.threads[t].frame.Subscribing?
  {
    hide IdsOf, AgvsOf, Hand, TrackCalls, UntrackCalls, AGV.Key, Resolver.Wildcard;
    var f' := BeginCall(f, t, ok, order);
    var th := BeginThread(f, t, ok, order);
    hide BeginCall;
  }

  /** The thread of such a first section, and what else is changed. */
  ghost predicate BeginsAs(f: Fleet, f': Fleet, t: nat, th: Thread)
    requires t < |f.threads|
  {
    && !th.frame.Subscribing? && f'.threads == f.threads[t := th]
    && f'.topics == f.topics && f'.channels == f.channels && f'.tracked.Keys <= f.tracked.Keys
  }

  lemma BeginThread(f: Fleet, t: nat, ok: bool, order: seq<string>) returns (th: Thread)
    requires Enabled(f, Begin(t, ok, order))
    requires f.threads[t].todo[0].TrackCall? ==> f.threads[t].todo[0].agv.Key() in f.tracked
    ensures BeginsAs(f, BeginCall(f, t, ok, order), t, th)
  {
    th := BeginCall(f, t, ok, order).threads[t];
    hide BeginCall, BeginsAs;
    match f.threads[t].todo[0]
    case StartCall => BeginStart(f, t, ok, order);
    case DropConnectionCall => BeginDrop(f, t, ok, order);
    case RestoreCall => BeginRestore(f, t, ok, order);
    case _ => BeginRest(f, t, ok, order);
  }

  lemma BeginStart(f: Fleet, t: nat, ok: bool, order: seq<string>)
    requires Enabled(f, Begin(t, ok, order)) && f.threads[t].todo[0].StartCall?
    ensures var f' := BeginCall(f, t, ok, order); t < |f'.threads| && BeginsAs(f, f', t, f'.threads[t])
  {
    hide Resolver.Wildcard;
  }

  lemma BeginDrop(f: Fleet, t: nat, ok: bool, order: seq<string>)
    requires Enabled(f, Begin(t, ok, order)) && f.threads[t].todo[0].DropConnectionCall?
    ensures var f' := BeginCall(f, t, ok, order); t < |f'.threads| && BeginsAs(f, f', t, f'.threads[t])
  {
  }

  lemma BeginRestore(f: Fleet, t: nat, ok: bool, order: seq<string>)
    requires Enabled(f, Begin(t, ok, order)) && f.threads[t].todo[0].RestoreCall?
    ensures var f' := BeginCall(f, t, ok, order); t < |f'.threads| && BeginsAs(f, f', t, f'.threads[t])
  {
    hide IdsOf, AgvsOf, Hand;
  }

  lemma BeginRest(f: Fleet, t: nat, ok: bool, order: seq<string>)
    requires Enabled(f, Begin(t, ok, order))
    requires f.threads[t].todo[0].StopCall? || f.threads[t].todo[0].UntrackCall?
             || (f.threads[t].todo[0].TrackCall? && f.threads[t].todo[0].agv.Key() in f.tracked)
    ensures var f' := BeginCall(f, t, ok, order); t < |f'.threads| && BeginsAs(f, f', t, f'.threads[t])
  {
    hide AgvsOf, Hand, UntrackCalls, AGV.Key;
  }

  lemma BeginHeld(f: Fleet, t: nat, ok: bool, order: seq<string>)
    requires Inv(f) && Enabled(f, Begin(t, ok, order))
    requires f.threads[t].todo[0].TrackCall? ==> f.threads[t].todo[0].agv.Key() in f.tracked
    ensures forall id | id in Held(BeginCall(f, t, ok, order).threads[t]) :: id in f.owner && !f.owner[id].ByThread?
  {
    if f.threads[t].todo[0].RestoreCall? {
      RestoreIds(f, order);
      hide Inv, IdsOf, AgvsOf, Hand, Resolver.Wildcard;
    } else if f.threads[t].todo[0].UntrackCall? && f.threads[t].todo[0].agv.Key() in f.tracked {
      EntryOwns(f, f.threads[t].todo[0].agv.Key());
      hide Inv, IdsOf, AgvsOf, Hand, AGV.Key;
    } else {
      hide Inv, IdsOf, AgvsOf, Hand, TrackCalls, UntrackCalls, AGV.Key, Resolver.Wildcard;
    }
  }

  /** The steps of a call after its first section. */
  lemma LaterAlone(f: Fleet, st: Step)
    requires Tidy(f) && Enabled(f, st) && !st.Begin? && !st.Spawn? && !st.SessionLoss?
    ensures Alone(Apply(f, st))
  {
    var t, f' := st.thread, Apply(f, st);
    StepByID(f, st);
    LaterShape(f, st);
    OthersKept(f, f', t);
    ThreadOwns(f, t);
    assert forall id | id in f.owner :: id in f.filterOf by { hide EntryInv, ThreadInv, LockInv; }
    hide Inv, Apply, Enabled, WildcardInv, OneEach, Effect;
    forall agv: AGV | Concerns(f', t, agv)
      ensures Concerns(f, t, agv)
    {
      LaterConcern(f, f', t, agv);
    }
    hide Concerns;
    AloneKept(f, f', t);
  }

  lemma LaterConcern(f: Fleet, f': Fleet, t: nat, agv: AGV)
    requires Inv(f) && t < |f.threads| && t < |f'.threads| && Concerns(f', t, agv)
    requires f'.topics == f.topics && f'.channels == f.channels
    requires f'.threads[t].frame.Subscribing? ==>
               f.threads[t].frame.Subscribing? && f.threads[t].frame.agv == f'.threads[t].frame.agv
    requires !f'.threads[t].frame.Subscribing? ==>
               forall id | id in Held(f'.threads[t]) ::
                 id in Held(f.threads[t]) && id in f.filterOf && id in f'.filterOf && f'.filterOf[id] == f.filterOf[id]
    ensures Concerns(f, t, agv)
  {
    if !f'.threads[t].frame.Subscribing? {
      HoldsSame(f, f', Held(f'.threads[t]), agv);
      FewerConcern(f, Held(f.threads[t]), Held(f'.threads[t]), agv);
      if f.threads[t].frame.Subscribing? {
        HeldConcern(f, t, agv);
      }
    }
  }

  lemma LaterShape(f: Fleet, st: Step)
    requires Enabled(f, st) && !st.Begin? && !st.Spawn? && !st.SessionLoss?
    ensures var t, f' := st.thread, Apply(f, st);
            && t < |f.threads| == |f'.threads| && f'.topics == f.topics && f'.channels == f.channels
            && (forall u | 0 <= u < |f.threads| && u != t :: f'.threads[u] == f.threads[u])
            && (f'.threads[t].frame.Subscribing? ==>
                  f.threads[t].frame.Subscribing? && f.threads[t].frame.agv == f'.threads[t].frame.agv)
            && (!f'.threads[t].frame.Subscribing? ==>
                  forall id | id in Held(f'.threads[t]) :: id in Held(f.threads[t]))
            && (forall k | k in f'.tracked ::
                  k in f.tracked || (f.threads[t].frame.Subscribing? && f.threads[t].frame.agv.Key() == k
                                     && !f'.threads[t].frame.Subscribing?))
  {
    hide Hand, TrackCalls, AGV.Key, Resolver.Build;
  }

  lemma StepAlone(f: Fleet, st: Step)
    requires Tidy(f) && Enabled(f, st) && Orderly(f, st)
    ensures Alone(Apply(f, st))
  {
    if st.Begin? {
      if f.threads[st.thread].todo[0].TrackCall? && f.threads[st.thread].todo[0].agv.Key() !in f.tracked {
        BeginTrackAlone(f, st.thread, st.ok, st.order);
      } else {
        BeginOtherAlone(f, st.thread, st.ok, st.order);
      }
    } else if st.Spawn? || st.SessionLoss? {
      OutsideAlone(f, st);
    } else {
      LaterAlone(f, st);
    }
  }

  lemma OutsideAlone(f: Fleet, st: Step)
    requires Alone(f) && Enabled(f, st) && (st.Spawn? || st.SessionLoss?)
    ensures Alone(Apply(f, st))
  {
    var f' := Apply(f, st);
    forall v: nat | v < |f'.threads| && f'.threads[v].frame.Subscribing?
      ensures AloneWith(f', v, f'.threads[v].frame.agv)
    {
      assert AloneWith(f, v, f.threads[v].frame.agv);
      forall u: nat | u < |f'.threads| && u != v
        ensures !Concerns(f', u, f'.threads[v].frame.agv)
      {
        assert u < |f.threads| ==> !Concerns(f, u, f.threads[v].frame.agv);
      }
    }
  }

  lemma StepTidy(f: Fleet, st: Step)
    requires Tidy(f) && Enabled(f, st) && Orderly(f, st)
    ensures Tidy(Apply(f, st))
  {
    StepAlone(f, st);
    StepOneEach(f, st);
    StepKeepsInv(f, st);
    WildcardStep(f, st);
  }

  lemma TidyHasNoRivals(f: Fleet, st: Step)
    requires Inv(f) && OneEach(f) && Enabled(f, st)
    ensures NoRival(f, st)
  {
    EndedIsKnown(f, st);
    LossIsLive(f, st);
    forall id
      ensures id in f.live ==> id in f.owner
    {
      LiveIsOwned(f, id);
    }
    hide Inv, Ended;
  }

  lemma LossIsLive(f: Fleet, st: Step)
    requires Enabled(f, st)
    ensures st.SessionLoss? ==> Ended(f, st) <= f.live
  {
  }

  // ---- The theorems -------------------------------------------------------------------------

  /** Every step is orderly where it is taken. */
  ghost predicate OrderlyRun(f: Fleet, steps: seq<Step>)
    decreases |steps|
  {
    steps == [] || (Enabled(f, steps[0]) && Orderly(f, steps[0]) && OrderlyRun(Apply(f, steps[0]), steps[1..]))
  }

  lemma {:induction false} OrderlyRunAgrees(f: Fleet, filters: set<string>, steps: seq<Step>, f': Fleet,
                                            filters': set<string>)
    requires Tidy(f) && Agree(f, filters) && RunsBoth(f, filters, steps, f', filters') && OrderlyRun(f, steps)
    ensures Tidy(f') && Agree(f', filters')
    decreases |steps|
  {
    if steps != [] {
      var st := steps[0];
      assert Inv(f) && OneEach(f);
      hide Tidy, Inv, OneEach, Apply, Enabled, Follow, Agree, Orderly;
      TidyHasNoRivals(f, st);
      StepAgrees(f, filters, st);
      StepTidy(f, st);
      OrderlyRunAgrees(Apply(f, st), Follow(f, filters, st), steps[1..], f', filters');
    }
  }

  /**
   On MQTT too: when no Track of an untracked AGV begins while another unfinished call concerns that AGV, then,
   once every call has returned, the filters subscribed at the broker are exactly the specified ones whose
   subscription was not lost with a session.
   */
  lemma QuiescentByFilter(topics: Resolver, state: bool, visualization: bool, steps: seq<Step>, f: Fleet,
                          filters: set<string>)
    requires RunsBoth(Init(topics, state, visualization), {}, steps, f, filters)
    requires OrderlyRun(Init(topics, state, visualization), steps)
    requires Quiescent(f)
    ensures forall x: string ::
              x in filters <==> SpecCount(f.topics, f.channels, f.started, f.tracked.Keys, x) > |LostOn(f, x)|
  {
    var init := Init(topics, state, visualization);
    InitTidy(topics, state, visualization);
    OrderlyRunAgrees(init, {}, steps, f, filters);
    BothIsRun(init, {}, steps, f, filters);
    assert Reachable(f);
    hide Reachable, Tidy, RunsBoth, OrderlyRun, Quiescent, SpecCount, Runs, Init, LostOn;
    forall x: string
      ensures x in filters <==> SpecCount(f.topics, f.channels, f.started, f.tracked.Keys, x) > |LostOn(f, x)|
    {
      QuiescentFilters(f, x);
      CountPositive(f, x);
    }
  }

  lemma CountPositive(f: Fleet, x: string)
    requires forall id | id in f.live :: id in f.filterOf
    ensures |IdsOn(Subs(f), x)| > 0 <==> x in FiltersOf(f, f.live)
  {
    var ids := IdsOn(Subs(f), x);
    assert forall id | id in ids :: f.filterOf[id] in FiltersOf(f, f.live) && f.filterOf[id] == x;
    if x in FiltersOf(f, f.live) {
      var id :| id in f.live && id in f.filterOf && f.filterOf[id] == x;
      assert id in ids;
    }
  }

  lemma InitTidy(topics: Resolver, state: bool, visualization: bool)
    ensures Tidy(Init(topics, state, visualization)) && Agree(Init(topics, state, visualization), {})
  {
    InitInv(topics, state, visualization);
    InitWildcards(topics, state, visualization);
  }
}
