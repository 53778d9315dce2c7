/** Every step of the fleet protocol keeps the ownership invariant. */
module FleetSteps {
  import opened Streams
  import opened Topics
  import opened Subscriptions
  import opened FleetProtocol

  // ---- How ownership moves ------------------------------------------------------------

  lemma OwnsNew(owner: map<nat, Owner>, o: Owner, ids: seq<nat>, n: nat)
    requires Owns(owner, o, ids) && n !in owner
    ensures Owns(owner[n := o], o, ids + [n])
  {
  }

  lemma OwnsFrame(owner: map<nat, Owner>, owner': map<nat, Owner>, o: Owner, ids: seq<nat>)
    requires Owns(owner, o, ids)
    requires forall id: nat :: (id in owner' && owner'[id] == o) <==> (id in owner && owner[id] == o)
    ensures Owns(owner', o, ids)
  {
  }

  lemma OwnsEnd(owner: map<nat, Owner>, o: Owner, ids: seq<nat>, i: nat)
    requires Owns(owner, o, ids) && i < |ids|
    ensures Owns(owner - {ids[i]}, o, ids[..i] + ids[i + 1..])
    ensures ids[i] in owner && owner[ids[i]] == o
  {
    var rest := ids[..i] + ids[i + 1..];
    forall id: nat
      ensures id in rest <==> id in ids && id != ids[i]
    {
      if id in ids && id != ids[i] {
        var j :| 0 <= j < |ids| && ids[j] == id;
        assert rest[if j < i then j else j - 1] == id;
      }
    }
  }

  lemma OwnsHand(owner: map<nat, Owner>, o: Owner, o': Owner, ids: seq<nat>)
    requires Owns(owner, o, ids) && Owns(owner, o', []) && o != o'
    ensures Owns(Hand(owner, ids, o'), o', ids) && Owns(Hand(owner, ids, o'), o, [])
    ensures forall p, l | p != o && p != o' && Owns(owner, p, l) :: Owns(Hand(owner, ids, o'), p, l)
  {
    var owner' := Hand(owner, ids, o');
    forall p, l | p != o && p != o' && Owns(owner, p, l)
      ensures Owns(owner', p, l)
    {
      OwnsFrame(owner, owner', p, l);
    }
  }

  // ---- Threads ---------------------------------------------------------------------------

  /** The other threads do not notice a change of what thread t, an entry or the connection owns. */
  lemma ThreadsElsewhere(f: Fleet, f': Fleet, t: nat)
    requires ThreadInv(f.topics, f.channels, f.threads, f.filterOf, f.owner) && t < |f.threads|
    requires f'.topics == f.topics && f'.channels == f.channels && |f'.threads| == |f.threads|
    requires forall u | 0 <= u < |f.threads| && u != t :: f'.threads[u] == f.threads[u]
    requires forall id | id in f.filterOf :: id in f'.filterOf && f'.filterOf[id] == f.filterOf[id]
    requires forall u: nat, id: nat | u != t ::
               (id in f'.owner && f'.owner[id] == ByThread(u)) <==> (id in f.owner && f.owner[id] == ByThread(u))
    requires ThreadOk(f'.topics, f'.channels, f'.filterOf, f'.owner, t, f'.threads[t])
    ensures ThreadInv(f'.topics, f'.channels, f'.threads, f'.filterOf, f'.owner)
  {
    forall u: nat | u < |f'.threads|
      ensures ThreadOk(f'.topics, f'.channels, f'.filterOf, f'.owner, u, f'.threads[u])
    {
      if u != t {
        OwnsFrame(f.owner, f'.owner, ByThread(u), Held(f.threads[u]));
      }
    }
    forall id | id in f'.owner && f'.owner[id].ByThread?
      ensures f'.owner[id].thread < |f'.threads|
    {
      if f'.owner[id].thread != t {
        assert f'.owner[id] == ByThread(f'.owner[id].thread);
      }
    }
  }

  lemma EntriesElsewhere(f: Fleet, f': Fleet)
    requires EntryInv(f.topics, f.channels, f.tracked, f.filterOf, f.owner)
    requires f'.topics == f.topics && f'.channels == f.channels && f'.tracked == f.tracked
    requires forall id | id in f.filterOf :: id in f'.filterOf && f'.filterOf[id] == f.filterOf[id]
    requires forall k: string, id: nat ::
               (id in f'.owner && f'.owner[id] == ByEntry(k)) <==> (id in f.owner && f.owner[id] == ByEntry(k))
    ensures EntryInv(f'.topics, f'.channels, f'.tracked, f'.filterOf, f'.owner)
  {
    forall k | k in f'.tracked
      ensures EntryOk(f'.topics, f'.channels, f'.filterOf, k, f'.tracked[k])
              && Owns(f'.owner, ByEntry(k), f'.tracked[k].ids)
    {
      OwnsFrame(f.owner, f'.owner, ByEntry(k), f.tracked[k].ids);
    }
    forall id | id in f'.owner && f'.owner[id].ByEntry?
      ensures f'.owner[id].key in f'.tracked
    {
      assert f'.owner[id] == ByEntry(f'.owner[id].key);
    }
  }

  lemma ConnElsewhere(f: Fleet, f': Fleet)
    requires ConnInv(f.topics, f.conn, f.started, f.filterOf, f.owner)
    requires f'.topics == f.topics && f'.conn == f.conn && f'.started == f.started
    requires forall id | id in f.filterOf :: id in f'.filterOf && f'.filterOf[id] == f.filterOf[id]
    requires forall id: nat ::
               (id in f'.owner && f'.owner[id] == ByConnection) <==> (id in f.owner && f.owner[id] == ByConnection)
    ensures ConnInv(f'.topics, f'.conn, f'.started, f'.filterOf, f'.owner)
  {
    OwnsFrame(f.owner, f'.owner, ByConnection, ConnSeq(f.conn));
  }

  // ---- Steps that move no ownership ------------------------------------------------------

  lemma LockUpdate(f: Fleet, t: nat, th: Thread)
    requires LockInv(f.lock, f.threads) && t < |f.threads|
    requires th.frame.Clearing? <==> f.threads[t].frame.Clearing?
    ensures LockInv(f.lock, f.threads[t := th])
  {
  }

  lemma ThreadUpdate(f: Fleet, t: nat, th: Thread)
    requires Inv(f) && t < |f.threads|
    requires Held(th) == Held(f.threads[t])
    requires th.frame.Subscribing? ==>
               (f.threads[t].frame.Subscribing? && th.frame == f.threads[t].frame) || th.frame.ids == []
    requires th.frame.Clearing? <==> f.threads[t].frame.Clearing?
    ensures Inv(SetThread(f, t, th))
  {
    hide BrokerInv, ConnInv, EntryInv, LockInv, GoodChannels, Owns;
    LockUpdate(f, t, th);
    assert ThreadOk(f.topics, f.channels, f.filterOf, f.owner, t, f.threads[t]);
    assert ThreadOk(f.topics, f.channels, f.filterOf, f.owner, t, th);
    ThreadsElsewhere(f, SetThread(f, t, th), t);
  }

  lemma SpawnStep(f: Fleet, call: Call)
    requires Inv(f)
    ensures Inv(Apply(f, Spawn(call)))
  {
    hide BrokerInv, ConnInv, EntryInv, GoodChannels;
    var f' := Apply(f, Spawn(call));
    var n := |f.threads|;
    assert Owns(f.owner, ByThread(n), []) by {
      forall id: nat | id in f.owner
        ensures f.owner[id] != ByThread(n)
      {
      }
    }
    hide Owns;
    forall u: nat | u < |f'.threads|
      ensures ThreadOk(f.topics, f.channels, f.filterOf, f.owner, u, f'.threads[u])
    {
    }
    hide ThreadOk;
    SpawnLock(f, Thread(Ready, [call]));
  }

  lemma SpawnLock(f: Fleet, th: Thread)
    requires LockInv(f.lock, f.threads) && !th.frame.Clearing?
    ensures LockInv(f.lock, f.threads + [th])
  {
  }

  // ---- The broker gives and takes -----------------------------------------------------------

  lemma NewBroker(f: Fleet, filter: string, o: Owner)
    requires BrokerInv(f.nextID, f.filterOf, f.live, f.owner, f.dropped)
    ensures var f' := NewSubscription(f, filter, o);
            BrokerInv(f'.nextID, f'.filterOf, f'.live, f'.owner, f'.dropped)
            && f.nextID !in f.owner && f.nextID !in f.filterOf
  {
  }

  lemma EndBroker(f: Fleet, id: nat)
    requires BrokerInv(f.nextID, f.filterOf, f.live, f.owner, f.dropped)
    ensures var f' := EndSubscription(f, id); BrokerInv(f'.nextID, f'.filterOf, f'.live, f'.owner, f'.dropped)
  {
  }

  /** A thread obtains a subscription for the next channel of the AGV it is tracking. */
  lemma SubscribeOk(f: Fleet, t: nat)
    requires Inv(f) && Enabled(f, Subscribe(t, true))
    ensures Inv(Apply(f, Subscribe(t, true)))
  {
    hide ConnInv, EntryInv, BrokerInv, LockInv, GoodChannels, Owns, ThreadInv, ThreadOk;
    var th := f.threads[t];
    var agv, ids := th.frame.agv, th.frame.ids;
    var th' := th.(frame := Subscribing(agv, th.frame.notify, ids + [f.nextID]));
    var filter := f.topics.Build(agv.manufacturer, agv.serialNumber, f.channels[|ids|]);
    NewBroker(f, filter, ByThread(t));
    LockUpdate(f, t, th');
    var f' := Apply(f, Subscribe(t, true));
    SubscribedThread(f, t, th');
    ThreadsElsewhere(f, f', t);
    EntriesElsewhere(f, f');
    ConnElsewhere(f, f');
  }

  /** The subscribing thread answers for one more id, on the filter of its next channel. */
  lemma SubscribedThread(f: Fleet, t: nat, th: Thread)
    requires ThreadInv(f.topics, f.channels, f.threads, f.filterOf, f.owner)
    requires Enabled(f, Subscribe(t, true)) && f.nextID !in f.owner && f.nextID !in f.filterOf
    requires th.frame == Subscribing(f.threads[t].frame.agv, f.threads[t].frame.notify,
                                     f.threads[t].frame.ids + [f.nextID])
    ensures var agv, ids := f.threads[t].frame.agv, f.threads[t].frame.ids;
            var filter := f.topics.Build(agv.manufacturer, agv.serialNumber, f.channels[|ids|]);
            ThreadOk(f.topics, f.channels, f.filterOf[f.nextID := filter], f.owner[f.nextID := ByThread(t)], t, th)
  {
    var ids := f.threads[t].frame.ids;
    assert ThreadOk(f.topics, f.channels, f.filterOf, f.owner, t, f.threads[t]);
    hide ThreadInv, Owns, Resolver.Build;
    OwnsNew(f.owner, ByThread(t), ids, f.nextID);
  }

  /** Start obtains the connection subscription. */
  lemma StartOk(f: Fleet, t: nat, rest: seq<Call>)
    requires Inv(f) && t < |f.threads| && f.threads[t].frame.Ready? && !f.started
    ensures Inv(NewSubscription(SetThread(f, t, Thread(Ready, rest)), f.topics.Wildcard(CONNECTION), ByConnection)
                .(conn := Some(f.nextID), started := true))
  {
    var g := SetThread(f, t, Thread(Ready, rest));
    ThreadUpdate(f, t, Thread(Ready, rest));
    hide EntryInv, BrokerInv, LockInv, GoodChannels, ThreadInv;
    NewBroker(g, f.topics.Wildcard(CONNECTION), ByConnection);
    var f' := NewSubscription(g, f.topics.Wildcard(CONNECTION), ByConnection);
    OwnsNew(g.owner, ByConnection, [], f.nextID);
    assert [] + [f.nextID] == ConnSeq(Some(f.nextID));
    hide Owns;
    EntriesElsewhere(g, f');
    ThreadsUntouched(g, f');
  }

  lemma ThreadsUntouched(f: Fleet, f': Fleet)
    requires ThreadInv(f.topics, f.channels, f.threads, f.filterOf, f.owner)
    requires f'.topics == f.topics && f'.channels == f.channels && f'.threads == f.threads
    requires forall id | id in f.filterOf :: id in f'.filterOf && f'.filterOf[id] == f.filterOf[id]
    requires forall u: nat, id: nat ::
               (id in f'.owner && f'.owner[id] == ByThread(u)) <==> (id in f.owner && f.owner[id] == ByThread(u))
    ensures ThreadInv(f'.topics, f'.channels, f'.threads, f'.filterOf, f'.owner)
  {
    forall u: nat | u < |f'.threads|
      ensures ThreadOk(f'.topics, f'.channels, f'.filterOf, f'.owner, u, f'.threads[u])
    {
      OwnsFrame(f.owner, f'.owner, ByThread(u), Held(f.threads[u]));
    }
    forall id | id in f'.owner && f'.owner[id].ByThread?
      ensures f'.owner[id].thread < |f'.threads|
    {
      assert f'.owner[id] == ByThread(f'.owner[id].thread);
    }
  }

  /** A thread gives up one of the ids it is removing. */
  lemma EndHeld(f: Fleet, t: nat, th: Thread, i: nat)
    requires Inv(f) && t < |f.threads| && i < |Held(f.threads[t])|
    requires !th.frame.Subscribing?
    requires th.frame.Clearing? <==> f.threads[t].frame.Clearing?
    requires Held(th) == Held(f.threads[t])[..i] + Held(f.threads[t])[i + 1..]
    ensures Inv(EndSubscription(SetThread(f, t, th), Held(f.threads[t])[i]))
  {
    hide ConnInv, EntryInv, BrokerInv, LockInv, GoodChannels, Owns;
    var id := Held(f.threads[t])[i];
    var g := SetThread(f, t, th);
    var f' := EndSubscription(g, id);
    EndBroker(g, id);
    LockUpdate(f, t, th);
    assert ThreadOk(f.topics, f.channels, f.filterOf, f.owner, t, f.threads[t]);
    OwnsEnd(f.owner, ByThread(t), Held(f.threads[t]), i);
    assert ThreadOk(f'.topics, f'.channels, f'.filterOf, f'.owner, t, th);
    ThreadsElsewhere(f, f', t);
    EntriesElsewhere(f, f');
    ConnElsewhere(f, f');
  }

  /** Stop gives up the connection subscription. */
  lemma EndConn(f: Fleet)
    requires Inv(f) && f.conn.Some?
    ensures Inv(EndSubscription(f.(conn := None, started := false), f.conn.value))
  {
    hide EntryInv, BrokerInv, LockInv, GoodChannels, ThreadInv;
    var g := f.(conn := None, started := false);
    var f' := EndSubscription(g, f.conn.value);
    EndBroker(g, f.conn.value);
    OwnsEnd(f.owner, ByConnection, ConnSeq(f.conn), 0);
    assert ConnSeq(f.conn)[..0] + ConnSeq(f.conn)[1..] == ConnSeq(None);
    hide Owns;
    EntriesElsewhere(f, f');
    ThreadsUntouched(f, f');
  }

  lemma LossStep(f: Fleet, lost: set<nat>)
    requires Inv(f) && lost <= f.live
    ensures Inv(Apply(f, SessionLoss(lost)))
  {
    hide ConnInv, EntryInv, LockInv, GoodChannels, ThreadInv;
  }

  // ---- Steps that hand ids over ----------------------------------------------------------------

  lemma HandBroker(f: Fleet, ids: seq<nat>, o: Owner)
    requires BrokerInv(f.nextID, f.filterOf, f.live, f.owner, f.dropped)
    ensures BrokerInv(f.nextID, f.filterOf, f.live, Hand(f.owner, ids, o), f.dropped)
  {
    assert Hand(f.owner, ids, o).Keys == f.owner.Keys;
  }

  /** Untrack takes the entry's ids over. */
  lemma UntrackHand(f: Fleet, t: nat, k: string, rest: seq<Call>)
    requires Inv(f) && t < |f.threads| && f.threads[t].frame.Ready? && k in f.tracked
    ensures var ids := f.tracked[k].ids;
            Inv(SetThread(f, t, Thread(Removing(ids), rest))
                .(tracked := f.tracked - {k}, owner := Hand(f.owner, ids, ByThread(t))))
  {
    hide ConnInv, BrokerInv, LockInv, GoodChannels, Owns, EntryOk;
    var ids := f.tracked[k].ids;
    var th := Thread(Removing(ids), rest);
    var f' := SetThread(f, t, th).(tracked := f.tracked - {k}, owner := Hand(f.owner, ids, ByThread(t)));
    assert ThreadOk(f.topics, f.channels, f.filterOf, f.owner, t, f.threads[t]);
    OwnsHand(f.owner, ByEntry(k), ByThread(t), ids);
    HandBroker(f, ids, ByThread(t));
    LockUpdate(f, t, th);
    OwnedOnly(f.owner, ByEntry(k), ids);
    ConnElsewhere(f, f');
    ThreadsElsewhere(f, f', t);
    forall l | l in f'.tracked
      ensures EntryOk(f.topics, f.channels, f.filterOf, l, f'.tracked[l])
              && Owns(f'.owner, ByEntry(l), f'.tracked[l].ids)
    {
    }
  }

  lemma OwnedOnly(owner: map<nat, Owner>, o: Owner, ids: seq<nat>)
    requires Owns(owner, o, ids)
    ensures forall id: nat :: id in ids <==> id in owner && owner[id] == o
  {
  }

  /** A track commits: the entry takes the thread's ids over. */
  lemma CommitHand(f: Fleet, t: nat)
    requires Inv(f) && Enabled(f, Commit(t)) && f.threads[t].frame.agv.Key() !in f.tracked
    ensures Inv(Apply(f, Commit(t)))
  {
    hide ConnInv, BrokerInv, LockInv, GoodChannels, Owns;
    var agv, ids := f.threads[t].frame.agv, f.threads[t].frame.ids;
    var k := agv.Key();
    var f' := Apply(f, Commit(t));
    assert ThreadOk(f.topics, f.channels, f.filterOf, f.owner, t, f.threads[t]);
    UntrackedOwnsNothing(f, k);
    OwnsHand(f.owner, ByThread(t), ByEntry(k), ids);
    HandBroker(f, ids, ByEntry(k));
    LockUpdate(f, t, f'.threads[t]);
    OwnedOnly(f.owner, ByThread(t), ids);
    ConnElsewhere(f, f');
    ThreadsElsewhere(f, f', t);
    HeldDistinct(f.owner, ByThread(t), ids);
    CommitEntries(f, f', k, Entry(agv, ids));
  }

  lemma HeldDistinct(owner: map<nat, Owner>, o: Owner, ids: seq<nat>)
    requires Owns(owner, o, ids)
    ensures Distinct(ids)
  {
  }

  lemma UntrackedOwnsNothing(f: Fleet, k: string)
    requires EntryInv(f.topics, f.channels, f.tracked, f.filterOf, f.owner) && k !in f.tracked
    ensures Owns(f.owner, ByEntry(k), [])
  {
  }

  lemma CommitEntries(f: Fleet, f': Fleet, k: string, e: Entry)
    requires EntryInv(f.topics, f.channels, f.tracked, f.filterOf, f.owner)
    requires k !in f.tracked && f'.tracked == f.tracked[k := e] && f'.filterOf == f.filterOf
    requires f'.topics == f.topics && f'.channels == f.channels
    requires EntryOk(f.topics, f.channels, f.filterOf, k, e) && Owns(f'.owner, ByEntry(k), e.ids)
    requires forall l, ids | l != k && Owns(f.owner, ByEntry(l), ids) :: Owns(f'.owner, ByEntry(l), ids)
    requires forall id | id in f'.owner && f'.owner[id].ByEntry? && f'.owner[id].key != k ::
               id in f.owner && f.owner[id] == f'.owner[id]
    ensures EntryInv(f'.topics, f'.channels, f'.tracked, f'.filterOf, f'.owner)
  {
    hide Owns, EntryOk;
    forall l | l in f'.tracked
      ensures EntryOk(f.topics, f.channels, f.filterOf, l, f'.tracked[l])
              && Owns(f'.owner, ByEntry(l), f'.tracked[l].ids)
    {
      if l != k {
        assert Owns(f.owner, ByEntry(l), f.tracked[l].ids);
      }
    }
  }

  /** The ids of distinct entries, one after the other, are distinct and owned by entries of these keys. */
  lemma {:induction false} EntriesIds(f: Fleet, order: seq<string>)
    requires EntryInv(f.topics, f.channels, f.tracked, f.filterOf, f.owner)
    requires Distinct(order) && forall k | k in order :: k in f.tracked
    ensures Distinct(IdsOf(f.tracked, order))
    ensures forall id: nat :: id in IdsOf(f.tracked, order) <==>
              id in f.owner && f.owner[id].ByEntry? && f.owner[id].key in order
  {
    if order != [] {
      var init, k := order[..|order| - 1], order[|order| - 1];
      EntriesIds(f, init);
      assert Owns(f.owner, ByEntry(k), f.tracked[k].ids);
      OwnedOnly(f.owner, ByEntry(k), f.tracked[k].ids);
      HeldDistinct(f.owner, ByEntry(k), f.tracked[k].ids);
      hide Owns, EntryInv;
      assert order == init + [k];
      assert k !in init;
      DistinctConcat(IdsOf(f.tracked, init), f.tracked[k].ids);
    }
  }

  lemma DistinctConcat(a: seq<nat>, b: seq<nat>)
    requires Distinct(a) && Distinct(b) && forall id | id in a :: id !in b
    ensures Distinct(a + b)
  {
    forall i, j | 0 <= i < j < |a + b|
      ensures (a + b)[i] != (a + b)[j]
    {
      if i < |a| {
        assert a[i] in a;
      }
    }
  }

  lemma RestoreIds(f: Fleet, order: seq<string>)
    requires Inv(f) && Enumerates(order, f.tracked.Keys)
    ensures var ids := IdsOf(f.tracked, order) + ConnSeq(f.conn);
            Distinct(ids) && forall id: nat :: id in ids <==> id in f.owner && !f.owner[id].ByThread?
  {
    hide BrokerInv, LockInv, GoodChannels, ThreadInv, Owns, EntryOk;
    EntriesIds(f, order);
    OwnedOnly(f.owner, ByConnection, ConnSeq(f.conn));
    DistinctConcat(IdsOf(f.tracked, order), ConnSeq(f.conn));
  }

  lemma RestoreOwner(f: Fleet, t: nat, ids: seq<nat>)
    requires Owns(f.owner, ByThread(t), [])
    requires Distinct(ids) && forall id: nat :: id in ids <==> id in f.owner && !f.owner[id].ByThread?
    ensures var owner' := Hand(f.owner, ids, ByThread(t));
            && Owns(owner', ByThread(t), ids)
            && (forall id | id in owner' :: owner'[id].ByThread?)
            && (forall u: nat, id: nat | u != t ::
                  (id in owner' && owner'[id] == ByThread(u)) <==> (id in f.owner && f.owner[id] == ByThread(u)))
  {
  }

  /** Restore takes over everything the session owns. */
  lemma RestoreHand(f: Fleet, t: nat, agvs: seq<AGV>, order: seq<string>, rest: seq<Call>)
    requires Inv(f) && t < |f.threads| && f.threads[t].frame.Ready? && f.lock.None?
    requires Enumerates(order, f.tracked.Keys)
    ensures var ids := IdsOf(f.tracked, order) + ConnSeq(f.conn);
            Inv(SetThread(f, t, Thread(Clearing(agvs, ids), rest))
                .(tracked := map[], conn := None, started := false, lock := Some(t),
                  owner := Hand(f.owner, ids, ByThread(t))))
  {
    hide BrokerInv, GoodChannels, IdsOf, Hand;
    var ids := IdsOf(f.tracked, order) + ConnSeq(f.conn);
    var th := Thread(Clearing(agvs, ids), rest);
    var owner' := Hand(f.owner, ids, ByThread(t));
    var f' := SetThread(f, t, th).(tracked := map[], conn := None, started := false, lock := Some(t), owner := owner');
    RestoreIds(f, order);
    RestoreThread(f, t);
    RestoreOwner(f, t, ids);
    HandBroker(f, ids, ByThread(t));
    ThreadsElsewhere(f, f', t);
  }

  lemma RestoreThread(f: Fleet, t: nat)
    requires ThreadInv(f.topics, f.channels, f.threads, f.filterOf, f.owner) && t < |f.threads|
    requires f.threads[t].frame.Ready?
    ensures Owns(f.owner, ByThread(t), [])
  {
    assert ThreadOk(f.topics, f.channels, f.filterOf, f.owner, t, f.threads[t]);
  }

  // ---- All steps -------------------------------------------------------------------------------

  lemma StopBegin(f: Fleet, t: nat, rest: seq<Call>)
    requires Inv(f) && t < |f.threads| && f.threads[t].frame.Ready?
    ensures var g := SetThread(f, t, Thread(Ready, rest)).(conn := None, started := false);
            Inv(if f.conn.Some? then EndSubscription(g, f.conn.value) else g)
  {
    ThreadUpdate(f, t, Thread(Ready, rest));
    var g := SetThread(f, t, Thread(Ready, rest));
    hide BrokerInv, EntryInv, ThreadInv, LockInv, GoodChannels, Owns;
    if f.conn.Some? {
      EndConn(g);
    }
  }

  lemma BeginStep(f: Fleet, t: nat, ok: bool, order: seq<string>)
    requires Inv(f) && Enabled(f, Begin(t, ok, order))
    ensures Inv(Apply(f, Begin(t, ok, order)))
  {
    hide Inv, IdsOf, Hand, NewSubscription, EndSubscription;
    var rest := f.threads[t].todo[1..];
    match f.threads[t].todo[0]
    case TrackCall(agv, notify) =>
      if agv.Key() in f.tracked {
        ThreadUpdate(f, t, Thread(Ready, rest));
      } else {
        ThreadUpdate(f, t, Thread(Subscribing(agv, notify, []), rest));
      }
    case UntrackCall(agv) =>
      if agv.Key() in f.tracked {
        UntrackHand(f, t, agv.Key(), rest);
      } else {
        ThreadUpdate(f, t, Thread(Ready, rest));
      }
    case StartCall =>
      if f.started {
        ThreadUpdate(f, t, Thread(Ready, rest));
      } else if ok {
        StartOk(f, t, rest);
      } else {
        ThreadUpdate(f, t, Thread(Ready, []));
      }
    case DropConnectionCall => StopBegin(f, t, rest);
    case StopCall =>
      ThreadUpdate(f, t, Thread(Ready, UntrackCalls(AgvsOf(f.tracked, order)) + [DropConnectionCall] + rest));
    case RestoreCall =>
      if !f.started && |f.tracked| == 0 {
        ThreadUpdate(f, t, Thread(Ready, rest));
      } else {
        RestoreHand(f, t, AgvsOf(f.tracked, order), order, rest);
      }
  }

  lemma ClearEndStep(f: Fleet, t: nat)
    requires Inv(f) && Enabled(f, ClearEnd(t))
    ensures Inv(Apply(f, ClearEnd(t)))
  {
    hide BrokerInv, ConnInv, EntryInv, GoodChannels, Owns;
    var f' := Apply(f, ClearEnd(t));
    assert ThreadOk(f.topics, f.channels, f.filterOf, f.owner, t, f.threads[t]);
    ThreadsElsewhere(f, f', t);
  }

  lemma StepKeepsInv(f: Fleet, st: Step)
    requires Inv(f) && Enabled(f, st)
    ensures Inv(Apply(f, st))
  {
    hide Inv, NewSubscription, EndSubscription, Hand;
    match st
    case Spawn(call) => SpawnStep(f, call);
    case Begin(t, ok, order) => BeginStep(f, t, ok, order);
    case Subscribe(t, ok) =>
      if ok {
        SubscribeOk(f, t);
      } else {
        ThreadUpdate(f, t, Thread(Removing(f.threads[t].frame.ids), []));
      }
    case Commit(t) =>
      if f.threads[t].frame.agv.Key() in f.tracked {
        ThreadUpdate(f, t, f.threads[t].(frame := Removing(f.threads[t].frame.ids)));
      } else {
        CommitHand(f, t);
      }
    case Unsubscribe(t) =>
      var ids := f.threads[t].frame.ids;
      var n := |ids| - 1;
      assert ids[..n] + ids[n + 1..] == ids[..n];
      EndHeld(f, t, f.threads[t].(frame := Removing(ids[..n])), n);
    case Return(t) => ThreadUpdate(f, t, f.threads[t].(frame := Ready));
    case ClearOne(t) =>
      var ids := f.threads[t].frame.ids;
      assert ids[..0] + ids[1..] == ids[1..];
      EndHeld(f, t, f.threads[t].(frame := Clearing(f.threads[t].frame.agvs, ids[1..])), 0);
    case ClearEnd(t) => ClearEndStep(f, t);
    case SessionLoss(lost) => LossStep(f, lost);
  }

  lemma InitInv(topics: Resolver, state: bool, visualization: bool)
    ensures Inv(Init(topics, state, visualization))
  {
  }

  lemma {:induction false} RunKeepsInv(f: Fleet, steps: seq<Step>, f': Fleet)
    requires Inv(f) && Runs(f, steps, f')
    ensures Inv(f')
    decreases |steps|
  {
    hide Inv, Apply, Enabled;
    if steps != [] {
      StepKeepsInv(f, steps[0]);
      RunKeepsInv(Apply(f, steps[0]), steps[1..], f');
    }
  }

  /** The invariant holds in every reachable state. */
  lemma ReachableInv(f: Fleet)
    requires Reachable(f)
    ensures Inv(f)
  {
    hide Inv, Runs;
    var topics, state, visualization, steps :| Runs(Init(topics, state, visualization), steps, f);
    InitInv(topics, state, visualization);
    RunKeepsInv(Init(topics, state, visualization), steps, f);
  }
}
