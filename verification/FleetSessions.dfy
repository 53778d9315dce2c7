/**
 The fleet session as an object (internal/session/fleet.go), called by one
 goroutine at a time, against either kind of broker: the in-process one, which
 ends a subscription by its id (testkit/fake_broker.go), and MQTT, where a
 filter is subscribed at most once and ended by its name
 (internal/mqtt/transport.go).
 */
module FleetSessions {
  import opened Streams
  import opened Topics
  import opened Subscriptions
  import opened Filters
  import opened Reception
  import opened AutoTrack
  import opened Hooks

  // ---- The broker -------------------------------------------------------------------

  function Without(subs: map<nat, string>, filter: string): map<nat, string> {
    map i | i in subs && subs[i] != filter :: subs[i]
  }

  function Subscribed(subs: map<nat, string>, byFilter: bool, id: nat, filter: string): map<nat, string> {
    (if byFilter then Without(subs, filter) else subs)[id := filter]
  }

  function Unsubscribed(subs: map<nat, string>, byFilter: bool, id: nat, filter: string): map<nat, string> {
    if byFilter then Without(subs, filter) else subs - {id}
  }

  /** Does the n-th subscribe call from here on fail? */
  predicate FailsAt(script: seq<bool>, n: nat) {
    n < |script| && script[n]
  }

  function Rest(script: seq<bool>, n: nat): seq<bool> {
    if n <= |script| then script[n..] else []
  }

  lemma RestStep(script: seq<bool>, n: nat)
    ensures Rest(Rest(script, n), 1) == Rest(script, n + 1) && (FailsAt(Rest(script, n), 0) <==> FailsAt(script, n))
  {
  }

  class Broker {
    const byFilter: bool
    var nextID: nat
    var subs: map<nat, string>
    /** Outcomes of the Subscribe calls to come: true fails. Past its end calls succeed. */
    var script: seq<bool>

    constructor (byFilter: bool, script: seq<bool>)
      ensures this.byFilter == byFilter && nextID == 1 && subs == map[] && this.script == script
    {
      this.byFilter := byFilter;
      nextID, subs, this.script := 1, map[], script;
    }

    method Subscribe(filter: string) returns (id: Option<nat>)
      modifies this
      ensures id.None? <==> FailsAt(old(script), 0)
      ensures id.None? ==> subs == old(subs) && nextID == old(nextID)
      ensures id.Some? ==> id.value == old(nextID) && nextID == old(nextID) + 1
                           && subs == Subscribed(old(subs), byFilter, id.value, filter)
      ensures script == Rest(old(script), 1)
    {
      var fail := script != [] && script[0];
      script := if script == [] then [] else script[1..];
      if fail {
        return None;
      }
      id := Some(nextID);
      nextID := nextID + 1;
      subs := Subscribed(subs, byFilter, id.value, filter);
    }

    /** Disconnecting ends every subscription. */
    method Disconnect()
      modifies this`subs
      ensures subs == map[]
    {
      subs := map[];
    }

    method Unsubscribe(id: nat, filter: string)
      modifies this`subs
      ensures subs == Unsubscribed(old(subs), byFilter, id, filter)
    {
      subs := Unsubscribed(subs, byFilter, id, filter);
    }
  }

  // ---- Facts about values ----------------------------------------------------------------

  /** A filter the fleet itself may ask for. */
  ghost predicate FleetFilter(r: Resolver, channels: seq<Channel>, f: string) {
    || f == r.Wildcard(CONNECTION)
    || exists a: AGV, ch :: ch in channels && f == r.Build(a.manufacturer, a.serialNumber, ch)
  }

  /** With filter-based unsubscribe, nobody else on the connection may use the fleet's filters. */
  ghost predicate NoClash(r: Resolver, channels: seq<Channel>, byFilter: bool, foreign: map<nat, string>) {
    byFilter ==> forall id | id in foreign :: !FleetFilter(r, channels, foreign[id])
  }

  /** An owned id's filter is on no other live subscription that the broker could confuse it with. */
  lemma OwnedFilterUnique(r: Resolver, channels: seq<Channel>, byFilter: bool, full: map<nat, string>,
                          conn: Option<nat>, tracked: map<string, Entry>, foreign: map<nat, string>, id: nat,
                          other: nat)
    requires GoodChannels(channels) && Established(r, channels, full, conn, tracked, foreign)
    requires byFilter && NoClash(r, channels, byFilter, foreign)
    requires OwnedId(conn, tracked, id) && id in full && other in full && full[id] == full[other]
    ensures id == other
  {
    OwnedHasFleetFilter(r, channels, full, conn, tracked, foreign, id);
    assert other !in foreign;
    if conn == Some(id) || conn == Some(other) {
      ConnFilterUnique(r, channels, full, conn, tracked, foreign, id, other);
    } else {
      var k :| k in tracked && id in tracked[k].ids;
      var l :| l in tracked && other in tracked[l].ids;
      var i: nat :| i < |tracked[k].ids| && tracked[k].ids[i] == id;
      var j: nat :| j < |tracked[l].ids| && tracked[l].ids[j] == other;
      TrackedIdUnique(r, channels, full, tracked, k, l, i, j);
    }
  }

  lemma OwnedHasFleetFilter(r: Resolver, channels: seq<Channel>, full: map<nat, string>,
                            conn: Option<nat>, tracked: map<string, Entry>, foreign: map<nat, string>, id: nat)
    requires Established(r, channels, full, conn, tracked, foreign) && OwnedId(conn, tracked, id)
    ensures id in full && FleetFilter(r, channels, full[id])
  {
    if conn != Some(id) {
      var k :| k in tracked && id in tracked[k].ids;
      var i: nat :| i < |tracked[k].ids| && tracked[k].ids[i] == id;
      assert EntryOk(r, channels, full, k, tracked[k]);
      assert channels[i] in channels;
    }
  }

  lemma ConnFilterUnique(r: Resolver, channels: seq<Channel>, full: map<nat, string>,
                         conn: Option<nat>, tracked: map<string, Entry>, foreign: map<nat, string>, id: nat, other: nat)
    requires GoodChannels(channels) && Established(r, channels, full, conn, tracked, foreign)
    requires id in full && other in full && id !in foreign && other !in foreign && full[id] == full[other]
    requires conn == Some(id) || conn == Some(other)
    ensures id == other
  {
    if id != other {
      var x := if conn == Some(id) then other else id;
      var k :| k in tracked && x in tracked[k].ids;
      var i: nat :| i < |tracked[k].ids| && tracked[k].ids[i] == x;
      assert EntryOk(r, channels, full, k, tracked[k]);
      WildcardIsNotTracked(r, tracked[k].agv, channels[i]);
    }
  }

  /** Ending an owned subscription ends that one only, whichever way the broker identifies it. */
  lemma UnsubscribeOwned(r: Resolver, channels: seq<Channel>, byFilter: bool, full: map<nat, string>,
                         conn: Option<nat>, tracked: map<string, Entry>, foreign: map<nat, string>,
                         subs: map<nat, string>, id: nat)
    requires GoodChannels(channels) && Established(r, channels, full, conn, tracked, foreign)
    requires NoClash(r, channels, byFilter, foreign) && Submap(subs, full)
    requires OwnedId(conn, tracked, id) && id in full
    ensures Unsubscribed(subs, byFilter, id, full[id]) == subs - {id}
  {
    hide Established, NoClash, OwnedId, GoodChannels;
    if byFilter {
      forall other | other in subs && subs[other] == full[id]
        ensures other == id
      {
        OwnedFilterUnique(r, channels, byFilter, full, conn, tracked, foreign, id, other);
      }
      OnlyOneWithout(full, subs, id);
    }
  }

  lemma OnlyOneWithout(full: map<nat, string>, subs: map<nat, string>, id: nat)
    requires Submap(subs, full) && id in full
    requires forall other | other in subs && subs[other] == full[id] :: other == id
    ensures Without(subs, full[id]) == subs - {id}
  {
  }

  // ---- Starting ----------------------------------------------------------------------------

  /** Entries stay live when subscriptions are only added. */
  lemma EntriesGrow(r: Resolver, channels: seq<Channel>, subs: map<nat, string>, subs': map<nat, string>,
                    tracked: map<string, Entry>)
    requires EntriesLive(r, channels, subs, tracked) && Submap(subs, subs')
    ensures EntriesLive(r, channels, subs', tracked)
  {
    forall k | k in tracked
      ensures EntryOk(r, channels, subs', k, tracked[k])
    {
      assert EntryOk(r, channels, subs, k, tracked[k]);
    }
  }

  lemma EntryIdsLive(r: Resolver, channels: seq<Channel>, subs: map<nat, string>, tracked: map<string, Entry>)
    requires EntriesLive(r, channels, subs, tracked)
    ensures forall k | k in tracked :: forall id | id in tracked[k].ids :: id in subs
  {
    forall k, id | k in tracked && id in tracked[k].ids
      ensures id in subs
    {
      assert EntryOk(r, channels, subs, k, tracked[k]);
    }
  }

  lemma WildcardElsewhere(r: Resolver, channels: seq<Channel>, byFilter: bool, subs: map<nat, string>,
                          tracked: map<string, Entry>, foreign: map<nat, string>)
    requires GoodChannels(channels) && Established(r, channels, subs, None, tracked, foreign)
    requires byFilter && NoClash(r, channels, byFilter, foreign)
    ensures forall other | other in subs :: subs[other] != r.Wildcard(CONNECTION)
  {
    forall other | other in subs
      ensures subs[other] != r.Wildcard(CONNECTION)
    {
      if other !in foreign {
        var k :| k in tracked && other in tracked[k].ids;
        var i: nat :| i < |tracked[k].ids| && tracked[k].ids[i] == other;
        assert EntryOk(r, channels, subs, k, tracked[k]);
        WildcardIsNotTracked(r, tracked[k].agv, channels[i]);
      }
    }
  }

  lemma WildcardFresh(r: Resolver, channels: seq<Channel>, byFilter: bool, subs: map<nat, string>,
                      tracked: map<string, Entry>, foreign: map<nat, string>, id: nat)
    requires GoodChannels(channels) && Established(r, channels, subs, None, tracked, foreign)
    requires NoClash(r, channels, byFilter, foreign) && id !in subs
    ensures var subs' := Subscribed(subs, byFilter, id, r.Wildcard(CONNECTION));
            subs' == subs[id := r.Wildcard(CONNECTION)]
            && Established(r, channels, subs', Some(id), tracked, foreign)
  {
    var subs' := Subscribed(subs, byFilter, id, r.Wildcard(CONNECTION));
    if byFilter {
      WildcardElsewhere(r, channels, byFilter, subs, tracked, foreign);
    }
    assert subs' == subs[id := r.Wildcard(CONNECTION)];
    EntriesGrow(r, channels, subs, subs', tracked);
    EntryIdsLive(r, channels, subs, tracked);
    hide EntriesLive, GoodChannels, NoClash, Subscribed, Apart, Covered;
    ConnApart(subs, tracked, foreign, id);
    ConnCovered(subs, tracked, foreign, id, r.Wildcard(CONNECTION));
  }

  lemma ConnApart(subs: map<nat, string>, tracked: map<string, Entry>, foreign: map<nat, string>, id: nat)
    requires Apart(None, tracked, foreign) && Submap(foreign, subs) && id !in subs
    requires forall k | k in tracked :: forall i | i in tracked[k].ids :: i in subs
    ensures Apart(Some(id), tracked, foreign)
  {
    assert forall i | i in foreign :: !OwnedId(None, tracked, i) && i != id;
  }

  lemma ConnCovered(subs: map<nat, string>, tracked: map<string, Entry>, foreign: map<nat, string>, id: nat,
        filter: string)
    requires Covered(subs, None, tracked, foreign)
    ensures Covered(subs[id := filter], Some(id), tracked, foreign)
  {
    assert forall i | i in subs && i !in foreign :: OwnedId(None, tracked, i);
  }

  // ---- Tracking ------------------------------------------------------------------------------

  /** subs0 with the first subscriptions of an AGV added. */
  ghost predicate Tracking(r: Resolver, channels: seq<Channel>, subs0: map<nat, string>, subs: map<nat, string>,
                           agv: AGV, ids: seq<nat>) {
    && |ids| <= |channels| && Distinct(ids)
    && (forall id :: id in subs <==> id in subs0 || id in ids)
    && (forall id | id in subs0 :: subs[id] == subs0[id] && id !in ids)
    && (forall j | 0 <= j < |ids| :: subs[ids[j]] == r.Build(agv.manufacturer, agv.serialNumber, channels[j]))
  }

  lemma TrackFilterFresh(r: Resolver, channels: seq<Channel>, byFilter: bool, subs0: map<nat, string>,
                         conn: Option<nat>, tracked: map<string, Entry>, foreign: map<nat, string>,
                         subs: map<nat, string>, agv: AGV, ids: seq<nat>, n: nat)
    requires GoodChannels(channels) && Established(r, channels, subs0, conn, tracked, foreign)
    requires NoClash(r, channels, byFilter, foreign) && agv.Key() !in tracked
    requires Tracking(r, channels, subs0, subs, agv, ids) && |ids| < |channels| && n !in subs
    ensures var filter := r.Build(agv.manufacturer, agv.serialNumber, channels[|ids|]);
            var subs' := Subscribed(subs, byFilter, n, filter);
            subs' == subs[n := filter] && Tracking(r, channels, subs0, subs', agv, ids + [n])
  {
    var filter := r.Build(agv.manufacturer, agv.serialNumber, channels[|ids|]);
    forall other | byFilter && other in subs
      ensures subs[other] != filter
    {
      if other in ids {
        var j :| 0 <= j < |ids| && ids[j] == other;
        BuildFaithful(r, agv, agv, channels[j], channels[|ids|]);
      } else {
        NewFilterElsewhere(r, channels, byFilter, subs0, conn, tracked, foreign, agv, channels[|ids|], other);
      }
    }
  }

  lemma NewFilterElsewhere(r: Resolver, channels: seq<Channel>, byFilter: bool, subs: map<nat, string>,
                           conn: Option<nat>, tracked: map<string, Entry>, foreign: map<nat, string>,
                           agv: AGV, ch: Channel, other: nat)
    requires GoodChannels(channels) && Established(r, channels, subs, conn, tracked, foreign)
    requires byFilter && NoClash(r, channels, byFilter, foreign) && agv.Key() !in tracked && ch in channels
    requires other in subs
    ensures subs[other] != r.Build(agv.manufacturer, agv.serialNumber, ch)
  {
    if conn == Some(other) {
      WildcardIsNotTracked(r, agv, ch);
    } else if other !in foreign {
      var k :| k in tracked && other in tracked[k].ids;
      var i: nat :| i < |tracked[k].ids| && tracked[k].ids[i] == other;
      assert EntryOk(r, channels, subs, k, tracked[k]);
      BuildFaithful(r, tracked[k].agv, agv, channels[i], ch);
    }
  }

  /** Rolling the last new subscription back. */
  lemma TrackingUndo(r: Resolver, channels: seq<Channel>, byFilter: bool, subs0: map<nat, string>,
                     subs: map<nat, string>, agv: AGV, ids: seq<nat>)
    requires Tracking(r, channels, subs0, subs, agv, ids) && ids != [] && GoodChannels(channels)
    requires byFilter ==>
              forall id | id in subs0 :: subs0[id] != r.Build(agv.manufacturer, agv.serialNumber, channels[|ids| - 1])
    ensures var n := |ids| - 1;
            Tracking(r, channels, subs0,
                     Unsubscribed(subs, byFilter, ids[n], r.Build(agv.manufacturer, agv.serialNumber, channels[n])),
                     agv, ids[..n])
  {
    var n := |ids| - 1;
    var filter := r.Build(agv.manufacturer, agv.serialNumber, channels[n]);
    forall other | other in subs && subs[other] == filter && byFilter
      ensures other == ids[n]
    {
      if other in ids {
        var j :| 0 <= j < |ids| && ids[j] == other;
        BuildFaithful(r, agv, agv, channels[j], channels[n]);
      }
    }
    assert subs[ids[n]] == filter;
    assert Unsubscribed(subs, byFilter, ids[n], filter) == subs - {ids[n]};
    assert ids == ids[..n] + [ids[n]];
  }

  lemma TrackingDone(r: Resolver, channels: seq<Channel>, subs0: map<nat, string>, conn: Option<nat>,
                     tracked: map<string, Entry>, foreign: map<nat, string>, subs: map<nat, string>, agv: AGV,
                     ids: seq<nat>)
    requires Established(r, channels, subs0, conn, tracked, foreign) && agv.Key() !in tracked
    requires Tracking(r, channels, subs0, subs, agv, ids) && |ids| == |channels|
    ensures Established(r, channels, subs, conn, tracked[agv.Key() := Entry(agv, ids)], foreign)
  {
    var key := agv.Key();
    var tracked' := tracked[key := Entry(agv, ids)];
    EntryIdsLive(r, channels, subs0, tracked);
    EntriesGrow(r, channels, subs0, subs, tracked);
    TrackingEntry(r, channels, subs0, subs, agv, ids);
    TrackingIds(r, channels, subs0, subs, agv, ids);
    hide EntriesLive, EntryOk, Tracking, Apart, Covered;
    EntriesAdd(r, channels, subs, tracked, key, Entry(agv, ids));
    ApartAdd(subs0, conn, tracked, foreign, key, Entry(agv, ids));
    CoveredAdd(subs0, subs, conn, tracked, foreign, key, Entry(agv, ids));
  }

  lemma EntriesAdd(r: Resolver, channels: seq<Channel>, subs: map<nat, string>, tracked: map<string, Entry>,
                   key: string, e: Entry)
    requires EntriesLive(r, channels, subs, tracked) && EntryOk(r, channels, subs, key, e)
    ensures EntriesLive(r, channels, subs, tracked[key := e])
  {
    hide EntryOk;
  }

  lemma ApartAdd(subs0: map<nat, string>, conn: Option<nat>, tracked: map<string, Entry>, foreign: map<nat, string>,
                 key: string, e: Entry)
    requires Apart(conn, tracked, foreign) && key !in tracked && Submap(foreign, subs0)
    requires forall k | k in tracked :: forall id | id in tracked[k].ids :: id in subs0
    requires forall id | id in e.ids :: id !in subs0
    requires conn.Some? ==> conn.value in subs0
    ensures Apart(conn, tracked[key := e], foreign)
  {
    var tracked' := tracked[key := e];
    forall id | id in foreign
      ensures !OwnedId(conn, tracked', id)
    {
      assert !OwnedId(conn, tracked, id);
    }
  }

  lemma CoveredAdd(subs0: map<nat, string>, subs: map<nat, string>, conn: Option<nat>, tracked: map<string, Entry>,
                   foreign: map<nat, string>, key: string, e: Entry)
    requires Covered(subs0, conn, tracked, foreign) && key !in tracked
    requires forall id :: id in subs <==> id in subs0 || id in e.ids
    ensures Covered(subs, conn, tracked[key := e], foreign)
  {
    var tracked' := tracked[key := e];
    forall id | id in subs && id !in foreign
      ensures OwnedId(conn, tracked', id)
    {
      if id in e.ids {
        assert id in tracked'[key].ids;
      } else if conn != Some(id) {
        assert OwnedId(conn, tracked, id);
        var k :| k in tracked && id in tracked[k].ids;
        assert id in tracked'[k].ids;
      }
    }
  }

  lemma TrackingIds(r: Resolver, channels: seq<Channel>, subs0: map<nat, string>, subs: map<nat, string>,
                    agv: AGV, ids: seq<nat>)
    requires Tracking(r, channels, subs0, subs, agv, ids)
    ensures Submap(subs0, subs) && (forall id :: id in subs <==> id in subs0 || id in ids)
    ensures forall id | id in subs0 :: id !in ids
  {
  }

  lemma TrackingEntry(r: Resolver, channels: seq<Channel>, subs0: map<nat, string>, subs: map<nat, string>,
                      agv: AGV, ids: seq<nat>)
    requires Tracking(r, channels, subs0, subs, agv, ids) && |ids| == |channels|
    ensures EntryOk(r, channels, subs, agv.Key(), Entry(agv, ids))
  {
  }

  // ---- Untracking -------------------------------------------------------------------------------

  /** subs0 without the given ids. */
  ghost predicate Removed(subs0: map<nat, string>, subs: map<nat, string>, ids: seq<nat>) {
    Submap(subs, subs0) && forall id | id in subs0 :: id in subs <==> id !in ids
  }

  lemma UntrackDone(r: Resolver, channels: seq<Channel>, subs0: map<nat, string>, conn: Option<nat>,
                    tracked: map<string, Entry>, foreign: map<nat, string>, subs: map<nat, string>, k: string)
    requires Established(r, channels, subs0, conn, tracked, foreign) && k in tracked
    requires Removed(subs0, subs, tracked[k].ids)
    ensures Established(r, channels, subs, conn, tracked - {k}, foreign)
  {
    var tracked' := tracked - {k};
    forall l | l in tracked'
      ensures EntryOk(r, channels, subs, l, tracked'[l])
    {
      OtherEntryLive(r, channels, subs0, conn, tracked, foreign, subs, k, l);
    }
    assert EntriesLive(r, channels, subs, tracked');
    hide EntriesLive, EntryOk, Apart, Covered;
    RemovedOthers(subs0, conn, tracked, foreign, subs, k);
    ApartRemove(conn, tracked, foreign, k);
    CoveredRemove(subs0, conn, tracked, foreign, subs, k);
  }

  lemma RemovedOthers(subs0: map<nat, string>, conn: Option<nat>, tracked: map<string, Entry>,
                      foreign: map<nat, string>, subs: map<nat, string>, k: string)
    requires Apart(conn, tracked, foreign) && Submap(foreign, subs0) && k in tracked
    requires Removed(subs0, subs, tracked[k].ids)
    ensures Submap(foreign, subs) && (conn.Some? && conn.value in subs0 ==> conn.value in subs)
  {
    forall id | id in foreign
      ensures id !in tracked[k].ids
    {
      assert !OwnedId(conn, tracked, id);
    }
  }

  lemma ApartRemove(conn: Option<nat>, tracked: map<string, Entry>, foreign: map<nat, string>, k: string)
    requires Apart(conn, tracked, foreign)
    ensures Apart(conn, tracked - {k}, foreign)
  {
    forall id | id in foreign
      ensures !OwnedId(conn, tracked - {k}, id)
    {
      assert !OwnedId(conn, tracked, id);
    }
  }

  lemma CoveredRemove(subs0: map<nat, string>, conn: Option<nat>, tracked: map<string, Entry>,
                      foreign: map<nat, string>, subs: map<nat, string>, k: string)
    requires Covered(subs0, conn, tracked, foreign) && k in tracked && Removed(subs0, subs, tracked[k].ids)
    ensures Covered(subs, conn, tracked - {k}, foreign)
  {
    var tracked' := tracked - {k};
    forall id | id in subs && id !in foreign
      ensures OwnedId(conn, tracked', id)
    {
      assert OwnedId(conn, tracked, id);
      if conn != Some(id) {
        var l :| l in tracked && id in tracked[l].ids;
        assert l in tracked' && id in tracked'[l].ids;
      }
    }
  }

  lemma OtherEntryLive(r: Resolver, channels: seq<Channel>, subs0: map<nat, string>, conn: Option<nat>,
                       tracked: map<string, Entry>, foreign: map<nat, string>, subs: map<nat, string>, k: string,
                       l: string)
    requires Established(r, channels, subs0, conn, tracked, foreign) && k in tracked && l in tracked && k != l
    requires Removed(subs0, subs, tracked[k].ids)
    ensures EntryOk(r, channels, subs, l, tracked[l])
  {
    hide Covered, ConnLive, OwnedId;
    assert EntryOk(r, channels, subs0, l, tracked[l]);
    forall j | 0 <= j < |tracked[l].ids|
      ensures tracked[l].ids[j] in subs
    {
      assert tracked[l].ids[j] in tracked[l].ids;
    }
  }

  // ---- Clearing after a reconnect ------------------------------------------------------------------

  lemma ClearedAll(full: map<nat, string>, subs: map<nat, string>, conn: Option<nat>, tracked: map<string, Entry>,
                   foreign: map<nat, string>)
    requires Submap(subs, full) && Submap(foreign, subs) && Covered(full, conn, tracked, foreign)
    requires forall k | k in tracked :: forall id | id in tracked[k].ids :: id !in subs
    requires conn.Some? ==> conn.value !in subs
    ensures subs == foreign
  {
    forall id | id in subs
      ensures id in foreign
    {
      assert id in foreign || OwnedId(conn, tracked, id);
    }
  }

  lemma ForeignIsLive(r: Resolver, channels: seq<Channel>, subs: map<nat, string>, conn: Option<nat>,
                      tracked: map<string, Entry>, foreign: map<nat, string>)
    requires Established(r, channels, subs, conn, tracked, foreign)
    ensures Submap(foreign, subs)
  {
  }

  /** One more AGV's ids are gone, and the earlier ones have not come back. */
  lemma EntryCleared(r: Resolver, channels: seq<Channel>, full: map<nat, string>, conn: Option<nat>,
                     tracked: map<string, Entry>, foreign: map<nat, string>,
                     before: map<nat, string>, subs: map<nat, string>, k: string)
    requires Established(r, channels, full, conn, tracked, foreign) && k in tracked
    requires Submap(before, full) && Submap(foreign, before) && Removed(before, subs, tracked[k].ids)
    ensures Submap(subs, full) && Submap(foreign, subs) && Submap(subs, before)
    ensures forall id | id in tracked[k].ids :: id !in subs
  {
    hide ConnLive, EntriesLive, Covered;
    forall id | id in foreign
      ensures id !in tracked[k].ids
    {
      assert !OwnedId(conn, tracked, id);
    }
  }

  lemma AllCleared(agvs: seq<AGV>, tracked: map<string, Entry>, subs: map<nat, string>)
    requires Lists(agvs, tracked, tracked.Keys)
    requires forall j | 0 <= j < |agvs| :: forall id | id in tracked[agvs[j].Key()].ids :: id !in subs
    ensures forall k | k in tracked :: forall id | id in tracked[k].ids :: id !in subs
  {
    forall k, id | k in tracked && id in tracked[k].ids
      ensures id !in subs
    {
      assert k in KeysOf(agvs);
      var a :| a in agvs && a.Key() == k;
      var j: nat :| j < |agvs| && agvs[j] == a;
    }
  }

  /** The part of a set of subscriptions that is still live. */
  ghost function Survivors(foreign: map<nat, string>, subs: map<nat, string>): map<nat, string> {
    map id | id in foreign && id in subs :: foreign[id]
  }

  ghost function Shrink(full: map<nat, string>, foreign: map<nat, string>, subs: map<nat, string>): map<nat, string> {
    map id | id in full && (id in foreign ==> id in subs) :: full[id]
  }

  lemma ShrinkEstablished(r: Resolver, channels: seq<Channel>, full: map<nat, string>, conn: Option<nat>,
                          tracked: map<string, Entry>, foreign: map<nat, string>, subs: map<nat, string>)
    requires Established(r, channels, full, conn, tracked, foreign) && Submap(subs, full)
    ensures var full', foreign' := Shrink(full, foreign, subs), Survivors(foreign, subs);
            Established(r, channels, full', conn, tracked, foreign') && Submap(subs, full') && Submap(foreign', subs)
  {
    var full', foreign' := Shrink(full, foreign, subs), Survivors(foreign, subs);
    forall id | OwnedId(conn, tracked, id)
      ensures id !in foreign
    {
    }
    forall k | k in tracked
      ensures EntryOk(r, channels, full', k, tracked[k])
    {
      EntryOfEstablished(r, channels, full, conn, tracked, foreign, k);
    }
  }

  lemma NothingToRestore(r: Resolver, channels: seq<Channel>, full: map<nat, string>, tracked: map<string, Entry>,
                         foreign: map<nat, string>, subs: map<nat, string>)
    requires Established(r, channels, full, None, tracked, foreign) && |tracked| == 0
    requires Submap(subs, full) && Submap(foreign, subs)
    ensures tracked == map[] && Established(r, channels, subs, None, tracked, foreign)
  {
  }

  lemma ClearedEstablished(r: Resolver, channels: seq<Channel>, foreign: map<nat, string>)
    ensures Established(r, channels, foreign, None, map[], foreign)
  {
  }

  lemma ForeignSurvives(r: Resolver, channels: seq<Channel>, full: map<nat, string>, conn: Option<nat>,
                        tracked: map<string, Entry>, foreign: map<nat, string>, subs: map<nat, string>, id: nat)
    requires Established(r, channels, full, conn, tracked, foreign) && OwnedId(conn, tracked, id)
    requires Submap(subs, full) && Submap(foreign, subs)
    ensures Submap(subs - {id}, full) && Submap(foreign, subs - {id})
  {
    hide ConnLive, EntriesLive, Covered, OwnedId;
  }

  // ---- Listing AGVs ---------------------------------------------------------------------------------

  function KeysOf(agvs: seq<AGV>): set<string> {
    set a | a in agvs :: a.Key()
  }

  /** agvs enumerates the tracked AGVs with the given keys, each once. */
  ghost predicate Lists(agvs: seq<AGV>, tracked: map<string, Entry>, keys: set<string>) {
    && KeysOf(agvs) == keys
    && (forall i | 0 <= i < |agvs| :: agvs[i].Key() in tracked && tracked[agvs[i].Key()].agv == agvs[i])
    && (forall i, j | 0 <= i < j < |agvs| :: agvs[i].Key() != agvs[j].Key())
  }

  lemma ListsSnoc(agvs: seq<AGV>, tracked: map<string, Entry>, keys: set<string>, k: string)
    requires Lists(agvs, tracked, keys) && k in tracked && tracked[k].agv.Key() == k && k !in keys
    ensures Lists(agvs + [tracked[k].agv], tracked, keys + {k})
  {
    hide AGV.Key;
    KeysOfSnoc(agvs, tracked[k].agv);
    assert forall i | 0 <= i < |agvs| :: agvs[i].Key() in KeysOf(agvs);
  }

  lemma KeysOfSnoc(agvs: seq<AGV>, a: AGV)
    ensures KeysOf(agvs + [a]) == KeysOf(agvs) + {a.Key()}
  {
  }

  lemma ListsNone(tracked: map<string, Entry>)
    ensures Lists([], tracked, {})
  {
  }

  lemma KeysOfNone(agvs: seq<AGV>)
    requires agvs == []
    ensures KeysOf(agvs) == {}
  {
  }

  lemma KeysOfCons(a: AGV, agvs: seq<AGV>)
    ensures KeysOf([a] + agvs) == {a.Key()} + KeysOf(agvs)
  {
  }

  lemma NoRepeat(agvs: seq<AGV>, i: nat)
    requires i < |agvs| && forall i, j | 0 <= i < j < |agvs| :: agvs[i].Key() != agvs[j].Key()
    ensures agvs[i].Key() !in KeysOf(agvs[i + 1..]) && agvs[i].Key() !in KeysOf(agvs[..i])
  {
  }

  lemma EntryKeys(r: Resolver, channels: seq<Channel>, subs: map<nat, string>, conn: Option<nat>,
                  tracked: map<string, Entry>, foreign: map<nat, string>)
    requires Established(r, channels, subs, conn, tracked, foreign)
    ensures forall k | k in tracked :: tracked[k].agv.Key() == k
  {
    forall k | k in tracked
      ensures tracked[k].agv.Key() == k
    {
      assert EntryOk(r, channels, subs, k, tracked[k]);
    }
  }

  // ---- The session ---------------------------------------------------------------------------------

  class FleetSession {
    const topics: Resolver
    const channels: seq<Channel>
    const autoTrack: bool
    const broker: Broker
    var started: bool
    var conn: Option<nat>
    var tracked: map<string, Entry>
    /** The hook calls made so far. */
    var events: seq<HookEvent>
    /** Subscriptions on the same broker that are not the fleet's. */
    ghost var foreign: map<nat, string>
    /** A Restore has failed, so AGVs were dropped without an offline hook. */
    ghost var interrupted: bool

    ghost predicate Common()
      reads this, broker
    {
      && GoodChannels(channels)
      && NoClash(topics, channels, broker.byFilter, foreign)
      && (forall id | id in broker.subs :: id < broker.nextID)
      && started == conn.Some?
    }

    /** One online hook more than offline hooks for every tracked AGV, as many for the others. */
    ghost predicate Balanced()
      reads this
    {
      !interrupted ==> BalancedFor(events, tracked.Keys)
    }

    /** The broker has exactly the fleet's subscriptions and the foreign ones. */
    ghost predicate Valid()
      reads this, broker
    {
      Common() && Balanced() && Established(topics, channels, broker.subs, conn, tracked, foreign)
    }

    /**
     * What the broker sends while the session is in order: every AGV's connection topic once started, and of the
     * tracked AGVs the state topic and the visualization topic exactly as far as the options say; besides, what
     * others on the connection have subscribed.
     */
    lemma Receives(state: bool, visualization: bool, m: string, s: string, ch: string)
      requires Valid() && channels == Channels(state, visualization) && Plain(topics, m, s, ch)
      ensures Heard(broker.subs, topics.Build(m, s, ch))
              <==> || (ch == "connection" && started)
                   || (((ch == "state" && state) || (ch == "visualization" && visualization))
                       && CoveredBy(tracked, m, s))
                   || Heard(foreign, topics.Build(m, s, ch))
    {
      ChannelsEnabled(state, visualization, ch);
      hide Established, Plain;
      EstablishedHears(topics, channels, broker.subs, conn, tracked, foreign, m, s, ch);
    }

    lemma HearsConnections()
      requires Valid() && started
      ensures forall m, s | Plain(topics, m, s, "connection") ::
                Heard(broker.subs, topics.Build(m, s, "connection"))
    {
      hide Established, Plain, BalancedFor;
      forall m, s | Plain(topics, m, s, "connection")
        ensures Heard(broker.subs, topics.Build(m, s, "connection"))
      {
        EstablishedHears(topics, channels, broker.subs, conn, tracked, foreign, m, s, "connection");
      }
    }

    constructor (topics: Resolver, state: bool, visualization: bool, autoTrack: bool, broker: Broker)
      requires forall id | id in broker.subs :: id < broker.nextID
      requires NoClash(topics, Channels(state, visualization), broker.byFilter, broker.subs)
      ensures Valid() && this.broker == broker && this.topics == topics && foreign == broker.subs
      ensures channels == Channels(state, visualization) && this.autoTrack == autoTrack
      ensures !started && tracked == map[] && events == [] && !interrupted
    {
      this.topics, this.channels, this.broker := topics, Channels(state, visualization), broker;
      this.autoTrack := autoTrack;
      started, conn, tracked, events := false, None, map[], [];
      foreign, interrupted := broker.subs, false;
    }

    /** Start: the connection wildcard, once. A session that believes it has started does nothing. */
    method Start() returns (ok: bool)
      requires Common() && (started || Valid())
      modifies this`started, this`conn, broker
      ensures Common() && (old(Valid()) ==> Valid()) && started == (old(started) || ok)
      ensures ok <==> old(started) || !FailsAt(old(broker.script), 0)
      ensures broker.script == if old(started) then old(broker.script) else Rest(old(broker.script), 1)
      ensures old(started) || !ok ==> broker.subs == old(broker.subs) && conn == old(conn)
      ensures broker.nextID >= old(broker.nextID)
      ensures ok && old(Valid()) ==> forall m, s | Plain(topics, m, s, "connection") ::
                Heard(broker.subs, topics.Build(m, s, "connection"))
    {
      if started {
        if Valid() {
          HearsConnections();
        }
        return true;
      }
      hide Established, NoClash, Heard, Plain;
      var id := broker.Subscribe(topics.Wildcard(CONNECTION));
      if id.None? {
        return false;
      }
      WildcardFresh(topics, channels, broker.byFilter, old(broker.subs), tracked, foreign, id.value);
      conn := id;
      started := true;
      if old(Valid()) {
        HearsConnections();
      }
      return true;
    }

    /** The subscriptions of one AGV, all of them or, after a failure, none. */
    method SubscribeAll(agv: AGV) returns (ok: bool, ids: seq<nat>)
      requires Common() && Established(topics, channels, broker.subs, conn, tracked, foreign) && agv.Key() !in tracked
      modifies broker
      ensures Common() && broker.nextID >= old(broker.nextID)
      ensures ok ==> Tracking(topics, channels, old(broker.subs), broker.subs, agv, ids) && |ids| == |channels|
      ensures !ok ==> broker.subs == old(broker.subs)
    {
      hide Established, NoClash, Tracking, GoodChannels;
      ghost var subs0 := broker.subs;
      ids := [];
      TrackingStart(topics, channels, subs0, agv);
      var i := 0;
      while i < |channels|
        invariant i == |ids| <= |channels| && Common() && broker.nextID >= old(broker.nextID)
        invariant Tracking(topics, channels, subs0, broker.subs, agv, ids)
      {
        ghost var before := broker.subs;
        var id := broker.Subscribe(topics.Build(agv.manufacturer, agv.serialNumber, channels[i]));
        if id.None? {
          RollBack(agv, ids, subs0);
          return false, [];
        }
        TrackFilterFresh(topics, channels, broker.byFilter, subs0, conn, tracked, foreign, before, agv, ids, id.value);
        ids := ids + [id.value];
        i := i + 1;
      }
      ok := true;
    }

    method RollBack(agv: AGV, ids: seq<nat>, ghost subs0: map<nat, string>)
      requires Common() && Established(topics, channels, subs0, conn, tracked, foreign) && agv.Key() !in tracked
      requires Tracking(topics, channels, subs0, broker.subs, agv, ids)
      modifies broker`subs
      ensures Common() && broker.subs == subs0
    {
      hide Established, NoClash, Tracking, GoodChannels;
      var n := |ids|;
      TrackingBound(topics, channels, subs0, broker.subs, agv, ids);
      assert ids[..n] == ids;
      while n > 0
        invariant 0 <= n <= |ids| <= |channels| && Common()
        invariant Tracking(topics, channels, subs0, broker.subs, agv, ids[..n])
      {
        ghost var before := broker.subs;
        n := n - 1;
        UndoFilter(topics, channels, broker.byFilter, subs0, conn, tracked, foreign, agv, channels[n]);
        TrackingUndo(topics, channels, broker.byFilter, subs0, before, agv, ids[..n + 1]);
        assert ids[..n + 1][n] == ids[n] && ids[..n + 1][..n] == ids[..n];
        broker.Unsubscribe(ids[n], topics.Build(agv.manufacturer, agv.serialNumber, channels[n]));
        UnsubscribeShrinks(before, broker.byFilter, ids[n],
                           topics.Build(agv.manufacturer, agv.serialNumber, channels[n]));
      }
      TrackingNone(topics, channels, subs0, broker.subs, agv);
    }

    /** track: idempotent; on failure nothing is left behind. */
    method Track(agv: AGV, notify: bool) returns (ok: bool)
      requires Valid() && (notify || interrupted)
      modifies this`tracked, this`events, broker
      ensures Valid() && broker.nextID >= old(broker.nextID)
      ensures !ok ==> tracked == old(tracked) && broker.subs == old(broker.subs) && events == old(events)
      ensures ok ==> tracked.Keys == old(tracked).Keys + {agv.Key()}
      ensures forall k | k in old(tracked) :: k in tracked && tracked[k] == old(tracked)[k]
      ensures ok && agv.Key() !in old(tracked) ==> tracked[agv.Key()].agv == agv
      ensures ok && agv.Key() in old(tracked) ==> broker.subs == old(broker.subs)
      ensures events == if ok && notify
              && agv.Key() !in old(tracked) then old(events) + [WentOnline(agv.Key())] else old(events)
    {
      if agv.Key() in tracked {
        return true;
      }
      hide Established, NoClash, Tracking, GoodChannels, BalancedFor;
      var ids;
      ok, ids := SubscribeAll(agv);
      if !ok {
        return;
      }
      TrackingDone(topics, channels, old(broker.subs), conn, tracked, foreign, broker.subs, agv, ids);
      Commit(agv, ids, notify);
    }

    /** The second locked section of track, when nobody was faster. */
    method Commit(agv: AGV, ids: seq<nat>, notify: bool)
      requires Common() && Balanced() && (notify || interrupted) && agv.Key() !in tracked
      requires Established(topics, channels, broker.subs, conn, tracked[agv.Key() := Entry(agv, ids)], foreign)
      modifies this`tracked, this`events
      ensures Valid() && tracked == old(tracked)[agv.Key() := Entry(agv, ids)]
      ensures events == if notify then old(events) + [WentOnline(agv.Key())] else old(events)
    {
      hide Established, NoClash, GoodChannels, BalancedFor;
      if notify {
        if !interrupted {
          BalancedOnline(events, tracked.Keys, agv.Key());
        }
        events := events + [WentOnline(agv.Key())];
      }
      tracked := tracked[agv.Key() := Entry(agv, ids)];
      assert tracked.Keys == old(tracked).Keys + {agv.Key()};
    }

    /** untrack: removes exactly the AGV's subscriptions, and is a no-op for an untracked AGV. */
    method Untrack(agv: AGV)
      requires Valid()
      modifies this`tracked, this`events, broker`subs
      ensures Valid() && tracked == old(tracked) - {agv.Key()}
      ensures agv.Key() !in old(tracked) ==> broker.subs == old(broker.subs) && events == old(events)
      ensures agv.Key() in old(tracked) ==>
                Removed(old(broker.subs), broker.subs, old(tracked)[agv.Key()].ids)
                && events == old(events) + [WentOffline(agv.Key())]
    {
      var key := agv.Key();
      if key !in tracked {
        assert tracked - {key} == tracked;
        return;
      }
      hide Established, NoClash, GoodChannels, BalancedFor, Removed;
      EndEntry(key, broker.subs);
      UntrackDone(topics, channels, old(broker.subs), conn, tracked, foreign, broker.subs, key);
      if !interrupted {
        BalancedOffline(events, tracked.Keys, key);
      }
      tracked := tracked - {key};
      assert tracked.Keys == old(tracked).Keys - {key};
      events := events + [WentOffline(key)];
    }

    /** Unsubscribes what a tracked entry owns, last channel first, even when only part of it is still live. */
    method EndEntry(key: string, ghost full: map<nat, string>)
      requires Common() && Established(topics, channels, full, conn, tracked, foreign) && key in tracked
      requires Submap(broker.subs, full)
      modifies broker`subs
      ensures Common() && Removed(old(broker.subs), broker.subs, tracked[key].ids)
    {
      hide Established, NoClash, GoodChannels, OwnedId;
      var entry := tracked[key];
      ghost var subs0 := broker.subs;
      EntryOfEstablished(topics, channels, full, conn, tracked, foreign, key);
      var n := |entry.ids|;
      assert entry.ids[n..] == [];
      while n > 0
        invariant 0 <= n <= |entry.ids| && Removed(subs0, broker.subs, entry.ids[n..])
      {
        ghost var before := broker.subs;
        n := n - 1;
        UnsubscribeOwned(topics, channels, broker.byFilter, full, conn, tracked, foreign, before, entry.ids[n]);
        broker.Unsubscribe(entry.ids[n], topics.Build(entry.agv.manufacturer, entry.agv.serialNumber, channels[n]));
        assert entry.ids[n..] == [entry.ids[n]] + entry.ids[n + 1..];
      }
      assert entry.ids[0..] == entry.ids;
    }

    /** HandleConnection: with auto-tracking on, the state decides between Track and Untrack. */
    method HandleConnection(agv: AGV, state: ConnState) returns (ok: bool)
      requires Valid()
      modifies this`tracked, this`events, broker
      ensures Valid()
      ensures !autoTrack ==> ok && tracked == old(tracked) && broker.subs == old(broker.subs) && events == old(events)
      ensures ok && autoTrack ==> tracked.Keys == Handle(old(tracked).Keys, Job(agv.Key(), state))
      ensures ok && autoTrack ==>
                tracked.Keys == match state
                                case Online => old(tracked).Keys + {agv.Key()}
                                case Offline => old(tracked).Keys - {agv.Key()}
                                case ConnectionBroken => old(tracked).Keys - {agv.Key()}
                                case Other => old(tracked).Keys
      ensures !ok ==> state.Online? && tracked == old(tracked) && broker.subs == old(broker.subs)
    {
      ok := true;
      if !autoTrack {
        return;
      }
      match state {
        case Online => ok := Track(agv, true);
        case Offline => Untrack(agv); assert tracked.Keys == old(tracked).Keys - {agv.Key()};
        case ConnectionBroken => Untrack(agv); assert tracked.Keys == old(tracked).Keys - {agv.Key()};
        case Other =>
      }
    }

    /** The tracked AGVs, in whatever order the map yields them. */
    method Tracked() returns (agvs: seq<AGV>)
      requires forall k | k in tracked :: tracked[k].agv.Key() == k
      ensures Lists(agvs, tracked, tracked.Keys)
    {
      hide Lists, AGV.Key;
      agvs := [];
      var rest := tracked.Keys;
      ListsNone(tracked);
      assert tracked.Keys - rest == {};
      while rest != {}
        invariant rest <= tracked.Keys && Lists(agvs, tracked, tracked.Keys - rest)
        decreases |rest|
      {
        var k :| k in rest;
        ListsSnoc(agvs, tracked, tracked.Keys - rest, k);
        assert tracked.Keys - rest + {k} == tracked.Keys - (rest - {k});
        agvs := agvs + [tracked[k].agv];
        rest := rest - {k};
      }
      assert tracked.Keys - rest == tracked.Keys;
    }

    /** Stop: one offline hook per tracked AGV, and nothing of the fleet's left on the broker. */
    method Stop()
      requires Valid()
      modifies this`tracked, this`events, this`started, this`conn, broker`subs
      ensures Valid() && !started && tracked == map[] && broker.subs == foreign
    {
      hide Established, NoClash, GoodChannels, BalancedFor, Removed, AGV.Key, KeysOf;
      EntryKeys(topics, channels, broker.subs, conn, tracked, foreign);
      var agvs := Tracked();
      var i := 0;
      assert agvs[0..] == agvs;
      while i < |agvs|
        invariant 0 <= i <= |agvs| && Valid() && conn == old(conn)
        invariant tracked.Keys == KeysOf(agvs[i..])
      {
        KeysOfCons(agvs[i], agvs[i + 1..]);
        assert agvs[i..] == [agvs[i]] + agvs[i + 1..];
        NoRepeat(agvs, i);
        ghost var before := tracked;
        Untrack(agvs[i]);
        assert tracked.Keys == before.Keys - {agvs[i].Key()};
        i := i + 1;
      }
      KeysOfNone(agvs[i..]);
      assert tracked == map[];
      ForeignIsLive(topics, channels, broker.subs, conn, tracked, foreign);
      EndConnection(broker.subs);
      ClearedEstablished(topics, channels, foreign);
      started := false;
    }

    /** Ends the connection subscription, if there is one, when no AGV is tracked. */
    method EndConnection(ghost full: map<nat, string>)
      requires Common() && Established(topics, channels, full, conn, tracked, foreign) && Submap(broker.subs, full)
      requires Submap(foreign, broker.subs)
      requires forall k | k in tracked :: forall id | id in tracked[k].ids :: id !in broker.subs
      modifies this`conn, broker`subs
      ensures conn.None? && broker.subs == foreign
    {
      hide GoodChannels, NoClash, EntriesLive, Apart;
      if conn.Some? {
        UnsubscribeOwned(topics, channels, broker.byFilter, full, conn, tracked, foreign, broker.subs, conn.value);
        ForeignSurvives(topics, channels, full, conn, tracked, foreign, broker.subs, conn.value);
        broker.Unsubscribe(conn.value, topics.Wildcard(CONNECTION));
      }
      ClearedAll(full, broker.subs, conn, tracked, foreign);
      conn := None;
    }

    /** The locked part of Restore: every handle is used, the survivors among the fleet's subscriptions go. */
    method Clear(agvs: seq<AGV>, ghost full: map<nat, string>)
      requires Common() && Established(topics, channels, full, conn, tracked, foreign)
      requires Submap(broker.subs, full) && Submap(foreign, broker.subs) && Lists(agvs, tracked, tracked.Keys)
      modifies this`tracked, this`conn, this`started, broker`subs
      ensures Common() && !started && tracked == map[] && broker.subs == foreign
      ensures Established(topics, channels, broker.subs, conn, tracked, foreign)
    {
      hide Established, NoClash, GoodChannels, Removed, AGV.Key, KeysOf;
      var i := 0;
      while i < |agvs|
        modifies broker`subs
        invariant 0 <= i <= |agvs| && Common()
        invariant Submap(broker.subs, full) && Submap(foreign, broker.subs)
        invariant forall j | 0 <= j < i :: forall id | id in tracked[agvs[j].Key()].ids :: id !in broker.subs
      {
        ghost var before := broker.subs;
        EndEntry(agvs[i].Key(), full);
        EntryCleared(topics, channels, full, conn, tracked, foreign, before, broker.subs, agvs[i].Key());
        i := i + 1;
      }
      AllCleared(agvs, tracked, broker.subs);
      EndConnection(full);
      tracked := map[];
      started := false;
      ClearedEstablished(topics, channels, foreign);
    }

    /** What is left of the subscriptions at a reconnect: foreign is cut down to what survived. */
    ghost method Reconnected(full: map<nat, string>) returns (full': map<nat, string>)
      requires Common() && Established(topics, channels, full, conn, tracked, foreign) && Submap(broker.subs, full)
      modifies this`foreign
      ensures Common() && Established(topics, channels, full', conn, tracked, foreign)
      ensures Submap(broker.subs, full') && Submap(foreign, broker.subs)
      ensures foreign == Survivors(old(foreign), broker.subs)
    {
      hide Established, GoodChannels;
      full' := Shrink(full, foreign, broker.subs);
      ShrinkEstablished(topics, channels, full, conn, tracked, foreign, broker.subs);
      foreign := Survivors(foreign, broker.subs);
    }

    /**
     * Restore after a reconnect that left any part of the subscriptions (full) in place. On success the
     * same AGVs are tracked and the broker has exactly what it should; on failure at AGV number done,
     * exactly the AGVs before it are tracked and it has no subscription. No hook fires.
     */
    method Restore(ghost full: map<nat, string>) returns (ok: bool, agvs: seq<AGV>, done: nat)
      requires Common() && Balanced() && Established(topics, channels, full, conn, tracked, foreign)
      requires Submap(broker.subs, full)
      modifies this, broker
      ensures Valid() && events == old(events)
      ensures foreign == Survivors(old(foreign), old(broker.subs))
      ensures Lists(agvs, old(tracked), old(tracked).Keys)
      ensures done <= |agvs| && tracked.Keys == KeysOf(agvs[..done])
      ensures forall k | k in tracked :: k in old(tracked) && tracked[k].agv == old(tracked)[k].agv
      ensures ok ==> tracked.Keys == old(tracked).Keys && (started <==> old(started) || old(tracked) != map[])
      ensures ok ==> interrupted == old(interrupted)
      ensures !ok ==> interrupted && if started then done < |agvs| else done == 0
    {
      hide Established, NoClash, GoodChannels, BalancedFor, Removed, AGV.Key, KeysOf, Survivors, Submap;
      EntryKeys(topics, channels, full, conn, tracked, foreign);
      ghost var full' := Reconnected(full);
      agvs := Tracked();
      KeysOfNone(agvs[..0]);
      if !started && |tracked| == 0 {
        NothingToRestore(topics, channels, full', tracked, foreign, broker.subs);
        return true, [], 0;
      }
      Clear(agvs, full');
      interrupted := true;
      ok := Start();
      done := 0;
      if !ok {
        return;
      }
      ghost var was := old(interrupted);
      ok, done := Retrack(agvs, old(tracked));
      if ok {
        assert agvs[..done] == agvs;
        interrupted := was;
      }
    }

    /** The end of Restore: tracks the snapshot again, in order, without hooks, until one fails. */
    method Retrack(agvs: seq<AGV>, ghost before: map<string, Entry>) returns (ok: bool, done: nat)
      requires Valid() && started && interrupted && tracked == map[] && Lists(agvs, before, before.Keys)
      modifies this`tracked, this`events, broker
      ensures Valid() && events == old(events)
      ensures done <= |agvs| && tracked.Keys == KeysOf(agvs[..done]) && (ok <==> done == |agvs|)
      ensures forall k | k in tracked :: k in before && tracked[k].agv == before[k].agv
    {
      hide Established, NoClash, GoodChannels, BalancedFor, AGV.Key, KeysOf;
      done := 0;
      KeysOfNone(agvs[..0]);
      while done < |agvs|
        invariant 0 <= done <= |agvs| && Valid() && events == old(events)
        invariant tracked.Keys == KeysOf(agvs[..done])
        invariant forall k | k in tracked :: k in before && tracked[k].agv == before[k].agv
      {
        NoRepeat(agvs, done);
        assert agvs[..done + 1] == agvs[..done] + [agvs[done]];
        KeysOfSnoc(agvs[..done], agvs[done]);
        ok := Track(agvs[done], false);
        if !ok {
          return;
        }
        done := done + 1;
      }
      ok := true;
    }
  }

  lemma EntryOfEstablished(r: Resolver, channels: seq<Channel>, subs: map<nat, string>, conn: Option<nat>,
                           tracked: map<string, Entry>, foreign: map<nat, string>, k: string)
    requires Established(r, channels, subs, conn, tracked, foreign) && k in tracked
    ensures EntryOk(r, channels, subs, k, tracked[k])
    ensures forall j | 0 <= j < |tracked[k].ids| :: OwnedId(conn, tracked, tracked[k].ids[j])
  {
    hide EntryOk;
    forall j | 0 <= j < |tracked[k].ids|
      ensures OwnedId(conn, tracked, tracked[k].ids[j])
    {
      assert tracked[k].ids[j] in tracked[k].ids;
    }
  }

  lemma TrackingStart(r: Resolver, channels: seq<Channel>, subs: map<nat, string>, agv: AGV)
    ensures Tracking(r, channels, subs, subs, agv, [])
  {
  }

  lemma TrackingBound(r: Resolver, channels: seq<Channel>, subs0: map<nat, string>, subs: map<nat, string>,
        agv: AGV, ids: seq<nat>)
    requires Tracking(r, channels, subs0, subs, agv, ids)
    ensures |ids| <= |channels|
  {
  }

  lemma TrackingNone(r: Resolver, channels: seq<Channel>, subs0: map<nat, string>, subs: map<nat, string>, agv: AGV)
    requires Tracking(r, channels, subs0, subs, agv, [])
    ensures subs == subs0
  {
    assert forall id :: id in subs <==> id in subs0;
  }

  lemma UnsubscribeShrinks(subs: map<nat, string>, byFilter: bool, id: nat, filter: string)
    ensures Submap(Unsubscribed(subs, byFilter, id, filter), subs)
  {
  }

  lemma UndoFilter(r: Resolver, channels: seq<Channel>, byFilter: bool, subs0: map<nat, string>,
                   conn: Option<nat>, tracked: map<string, Entry>, foreign: map<nat, string>, agv: AGV, ch: Channel)
    requires GoodChannels(channels) && Established(r, channels, subs0, conn, tracked, foreign)
    requires NoClash(r, channels, byFilter, foreign) && agv.Key() !in tracked && ch in channels
    ensures byFilter ==> forall id | id in subs0 :: subs0[id] != r.Build(agv.manufacturer, agv.serialNumber, ch)
  {
    hide Established, NoClash, GoodChannels;
    if byFilter {
      forall id | id in subs0
        ensures subs0[id] != r.Build(agv.manufacturer, agv.serialNumber, ch)
      {
        NewFilterElsewhere(r, channels, byFilter, subs0, conn, tracked, foreign, agv, ch, id);
      }
    }
  }
}
