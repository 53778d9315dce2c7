/**
 The set of live subscriptions a fleet is answerable for, stated once: which
 filters there must be, and how often each. Both the concurrent protocol and
 the client are measured against it.
 */
module Subscriptions {
  import opened Streams
  import opened Topics

  datatype Option<+T> = None | Some(value: T)

  /** internal/session/fleet.go: what a tracked AGV owns, one subscription id per channel. */
  datatype Entry = Entry(agv: AGV, ids: seq<nat>)

  /** The per-AGV channels the fleet options enable, in subscription order. */
  function Channels(state: bool, visualization: bool): (r: seq<Channel>)
    ensures Distinct(r) && forall ch | ch in r :: ValidChannel(ch) && ch != CONNECTION
  {
    (if state then [STATE] else []) + (if visualization then [VISUALIZATION] else [])
  }

  ghost predicate GoodChannels(channels: seq<Channel>) {
    Distinct(channels) && forall ch | ch in channels :: ValidChannel(ch) && ch != CONNECTION
  }

  /** A tracked entry holds one id per channel, subscribed to that channel's filter. */
  ghost predicate EntryOk(r: Resolver, channels: seq<Channel>, subs: map<nat, string>, key: string, e: Entry) {
    && e.agv.Key() == key
    && |e.ids| == |channels|
    && Distinct(e.ids)
    && forall j | 0 <= j < |e.ids| ::
         e.ids[j] in subs && subs[e.ids[j]] == r.Build(e.agv.manufacturer, e.agv.serialNumber, channels[j])
  }

  ghost predicate Submap(a: map<nat, string>, b: map<nat, string>) {
    forall id | id in a :: id in b && a[id] == b[id]
  }

  ghost predicate EntriesLive(r: Resolver, channels: seq<Channel>, subs: map<nat, string>, tracked: map<string,
        Entry>) {
    forall k | k in tracked :: EntryOk(r, channels, subs, k, tracked[k])
  }

  ghost predicate ConnLive(r: Resolver, subs: map<nat, string>, conn: Option<nat>) {
    conn.Some? ==> conn.value in subs && subs[conn.value] == r.Wildcard(CONNECTION)
  }

  ghost predicate OwnedId(conn: Option<nat>, tracked: map<string, Entry>, id: nat) {
    conn == Some(id) || exists k :: k in tracked && id in tracked[k].ids
  }

  /** Nobody's id is anybody else's. */
  ghost predicate Apart(conn: Option<nat>, tracked: map<string, Entry>, foreign: map<nat, string>) {
    && (forall k, l | k in tracked && l in tracked && k != l ::
          forall id | id in tracked[k].ids :: id !in tracked[l].ids)
    && (forall k | k in tracked :: forall id | id in tracked[k].ids :: conn != Some(id))
    && (forall id | id in foreign :: !OwnedId(conn, tracked, id))
  }

  ghost predicate Covered(subs: map<nat, string>, conn: Option<nat>, tracked: map<string, Entry>, foreign: map<nat,
        string>) {
    forall id | id in subs :: id in foreign || OwnedId(conn, tracked, id)
  }

  /** subs is exactly the disjoint union of the connection subscription, the entries' ids, and foreign. */
  ghost predicate Established(r: Resolver, channels: seq<Channel>, subs: map<nat, string>,
                              conn: Option<nat>, tracked: map<string, Entry>, foreign: map<nat, string>) {
    && ConnLive(r, subs, conn) && EntriesLive(r, channels, subs, tracked) && Submap(foreign, subs)
    && Covered(subs, conn, tracked, foreign) && Apart(conn, tracked, foreign)
  }

  /** f is the filter of an enabled channel of a tracked AGV. */
  ghost predicate TrackedFilter(r: Resolver, channels: seq<Channel>, keys: set<string>, f: string) {
    exists key, ch :: key in keys && ch in channels && f == r.iface + "/" + r.version + "/" + key + "/" + ch
  }

  /** How many live subscriptions of the fleet there must be on filter f: the one specification. */
  ghost function SpecCount(r: Resolver, channels: seq<Channel>, started: bool, keys: set<string>, f: string): nat {
    (if started && f == r.Wildcard(CONNECTION) then 1 else 0) + (if TrackedFilter(r, channels, keys, f) then 1 else 0)
  }

  ghost function IdsOn(subs: map<nat, string>, f: string): set<nat> {
    set id | id in subs && subs[id] == f
  }

  lemma BuildByKey(r: Resolver, a: AGV, ch: Channel)
    ensures r.Build(a.manufacturer, a.serialNumber, ch) == r.iface + "/" + r.version + "/" + a.Key() + "/" + ch
  {
  }

  lemma WildcardIsNotTracked(r: Resolver, a: AGV, ch: Channel)
    requires ValidChannel(ch) && ch != CONNECTION
    ensures r.Build(a.manufacturer, a.serialNumber, ch) != r.Wildcard(CONNECTION)
  {
    BuildFaithful(r, a, AGV("+", "+"), ch, CONNECTION);
  }

  ghost function ConnIds(r: Resolver, conn: Option<nat>, f: string): set<nat> {
    if conn.Some? && f == r.Wildcard(CONNECTION) then {conn.value} else {}
  }

  ghost function EntryIds(subs: map<nat, string>, tracked: map<string, Entry>, f: string): set<nat> {
    set id | id in subs && subs[id] == f && (exists k :: k in tracked && id in tracked[k].ids)
  }

  /** Two tracked ids on one filter are the same id: keys and channels are told apart by their filters. */
  lemma TrackedIdUnique(r: Resolver, channels: seq<Channel>, subs: map<nat, string>, tracked: map<string, Entry>,
                        k: string, l: string, i: nat, j: nat)
    requires GoodChannels(channels)
    requires k in tracked && EntryOk(r, channels, subs, k, tracked[k]) && i < |channels|
    requires l in tracked && EntryOk(r, channels, subs, l, tracked[l]) && j < |channels|
    requires subs[tracked[k].ids[i]] == subs[tracked[l].ids[j]]
    ensures k == l && i == j
  {
    BuildFaithful(r, tracked[k].agv, tracked[l].agv, channels[i], channels[j]);
  }

  lemma EntryCount(r: Resolver, channels: seq<Channel>, subs: map<nat, string>, tracked: map<string, Entry>, f: string)
    requires GoodChannels(channels)
    requires forall k | k in tracked :: EntryOk(r, channels, subs, k, tracked[k])
    ensures |EntryIds(subs, tracked, f)| == if TrackedFilter(r, channels, tracked.Keys, f) then 1 else 0
  {
    var ids := EntryIds(subs, tracked, f);
    if TrackedFilter(r, channels, tracked.Keys, f) {
      var key, ch :| key in tracked.Keys && ch in channels && f == r.iface + "/" + r.version + "/" + key + "/" + ch;
      var j: nat :| j < |channels| && channels[j] == ch;
      var e := tracked[key];
      BuildByKey(r, e.agv, ch);
      var id := e.ids[j];
      assert id in ids;
      forall other | other in ids
        ensures other == id
      {
        var l :| l in tracked && other in tracked[l].ids;
        var i: nat :| i < |channels| && tracked[l].ids[i] == other;
        TrackedIdUnique(r, channels, subs, tracked, key, l, j, i);
      }
      assert ids == {id};
    } else {
      EntryIdsTracked(r, channels, subs, tracked, f);
    }
  }

  lemma EntryIdsTracked(r: Resolver, channels: seq<Channel>, subs: map<nat, string>, tracked: map<string, Entry>,
        f: string)
    requires forall k | k in tracked :: EntryOk(r, channels, subs, k, tracked[k])
    ensures EntryIds(subs, tracked, f) != {} ==> TrackedFilter(r, channels, tracked.Keys, f)
  {
    if EntryIds(subs, tracked, f) != {} {
      var id :| id in EntryIds(subs, tracked, f);
      EntryIdTracked(r, channels, subs, tracked, f, id);
    }
  }

  lemma EntryIdTracked(r: Resolver, channels: seq<Channel>, subs: map<nat, string>, tracked: map<string, Entry>,
                       f: string, id: nat)
    requires forall k | k in tracked :: EntryOk(r, channels, subs, k, tracked[k])
    requires id in EntryIds(subs, tracked, f)
    ensures TrackedFilter(r, channels, tracked.Keys, f)
  {
    var k :| k in tracked && id in tracked[k].ids;
    var i: nat :| i < |channels| && tracked[k].ids[i] == id;
    BuildByKey(r, tracked[k].agv, channels[i]);
    assert channels[i] in channels;
  }

  /** The established subscriptions are, with multiplicity, the specified filters and the foreign ones. */
  lemma EstablishedCount(r: Resolver, channels: seq<Channel>, subs: map<nat, string>, conn: Option<nat>,
                         tracked: map<string, Entry>, foreign: map<nat, string>, f: string)
    requires GoodChannels(channels) && Established(r, channels, subs, conn, tracked, foreign)
    ensures |IdsOn(subs, f)| == SpecCount(r, channels, conn.Some?, tracked.Keys, f) + |IdsOn(foreign, f)|
  {
    var c, e, o := ConnIds(r, conn, f), EntryIds(subs, tracked, f), IdsOn(foreign, f);
    EntryCount(r, channels, subs, tracked, f);
    EstablishedSplit(r, channels, subs, conn, tracked, foreign, f);
    assert |c + e + o| == |c| + |e| + |o|;
  }

  lemma EstablishedSplit(r: Resolver, channels: seq<Channel>, subs: map<nat, string>, conn: Option<nat>,
                         tracked: map<string, Entry>, foreign: map<nat, string>, f: string)
    requires Established(r, channels, subs, conn, tracked, foreign)
    ensures var c, e, o := ConnIds(r, conn, f), EntryIds(subs, tracked, f), IdsOn(foreign, f);
            IdsOn(subs, f) == c + e + o && c !! e && (c + e) !! o
  {
    hide EntryOk;
  }
}
