/**
 What the subscriptions are for: which inbound topics the broker sends to a
 session that has them. Filters are compared with topics by the broker's own
 matcher, so this is independent of how the session builds its filters.
 */
module Reception {
  import opened Segments
  import opened Topics
  import opened Filters
  import opened Subscriptions

  /** Some live subscription matches the topic. */
  ghost predicate Heard(subs: map<nat, string>, topic: string) {
    exists id :: id in subs && Matches(subs[id], topic)
  }

  /** Levels without separators and a known channel: what a topic from an AGV is made of. */
  ghost predicate Plain(r: Resolver, m: string, s: string, ch: string) {
    SlashFree(r.iface) && SlashFree(r.version) && SlashFree(m) && SlashFree(s) && ValidChannel(ch)
  }

  /** A tracked AGV covers the identity: it is the same or, if a part is a wildcard, that part is any. */
  ghost predicate CoveredBy(tracked: map<string, Entry>, m: string, s: string) {
    exists k :: k in tracked && Covers(tracked[k].agv.manufacturer, m) && Covers(tracked[k].agv.serialNumber, s)
  }

  lemma EntryMatches(r: Resolver, channels: seq<Channel>, subs: map<nat, string>, k: string, e: Entry, j: nat,
                     m: string, s: string, ch: string)
    requires GoodChannels(channels) && EntryOk(r, channels, subs, k, e) && j < |channels| && Plain(r, m, s, ch)
    ensures e.ids[j] in subs
    ensures Matches(subs[e.ids[j]], r.Build(m, s, ch))
            <==> channels[j] == ch && Covers(e.agv.manufacturer, m) && Covers(e.agv.serialNumber, s)
  {
    OwnSelects(r, e.agv, channels[j], m, s, ch);
  }

  lemma EntriesHear(r: Resolver, channels: seq<Channel>, subs: map<nat, string>, tracked: map<string, Entry>,
                    m: string, s: string, ch: string)
    requires GoodChannels(channels) && EntriesLive(r, channels, subs, tracked) && Plain(r, m, s, ch)
    ensures (exists k, j: nat :: k in tracked && j < |channels| && j < |tracked[k].ids| && tracked[k].ids[j] in subs
                                 && Matches(subs[tracked[k].ids[j]], r.Build(m, s, ch)))
            <==> ch in channels && CoveredBy(tracked, m, s)
  {
    hide Matches, Resolver.Build, Covers;
    forall k, j: nat | k in tracked && j < |channels|
      ensures tracked[k].ids[j] in subs
      ensures Matches(subs[tracked[k].ids[j]], r.Build(m, s, ch))
              <==> channels[j] == ch && Covers(tracked[k].agv.manufacturer, m) && Covers(tracked[k].agv.serialNumber, s)
    {
      EntryMatches(r, channels, subs, k, tracked[k], j, m, s, ch);
    }
    if ch in channels && CoveredBy(tracked, m, s) {
      var k :| k in tracked && Covers(tracked[k].agv.manufacturer, m) && Covers(tracked[k].agv.serialNumber, s);
      var j: nat :| j < |channels| && channels[j] == ch;
      assert Matches(subs[tracked[k].ids[j]], r.Build(m, s, ch));
    }
  }

  /**
   The broker sends connection topics of every AGV if the fleet has its connection subscription, and the topics of
   an enabled channel of the AGVs that are tracked, and what it sends for other subscriptions, and nothing else.
   */
  lemma EstablishedHears(r: Resolver, channels: seq<Channel>, subs: map<nat, string>, conn: Option<nat>,
                         tracked: map<string, Entry>, foreign: map<nat, string>, m: string, s: string, ch: string)
    requires GoodChannels(channels) && Established(r, channels, subs, conn, tracked, foreign) && Plain(r, m, s, ch)
    ensures Heard(subs, r.Build(m, s, ch))
            <==> (ch == "connection" && conn.Some?) || (ch in channels && CoveredBy(tracked, m, s))
                 || Heard(foreign, r.Build(m, s, ch))
  {
    WildcardSelects(r, CONNECTION, m, s, ch);
    EntriesHear(r, channels, subs, tracked, m, s, ch);
    hide Matches, Resolver.Build, Resolver.Wildcard, CoveredBy, GoodChannels;
    var topic := r.Build(m, s, ch);
    if Heard(subs, topic) {
      var id :| id in subs && Matches(subs[id], topic);
      if id !in foreign && conn != Some(id) {
        var k :| k in tracked && id in tracked[k].ids;
        var j: nat :| j < |tracked[k].ids| && tracked[k].ids[j] == id;
        assert EntryOk(r, channels, subs, k, tracked[k]);
      }
    }
    if ch == CONNECTION && conn.Some? {
      assert conn.value in subs && Matches(subs[conn.value], topic);
    }
  }

  /** What the options enable, by name. */
  lemma ChannelsEnabled(state: bool, visualization: bool, ch: string)
    ensures ch in Channels(state, visualization)
            <==> (ch == "state" && state) || (ch == "visualization" && visualization)
  {
  }

  /** The filter of an enabled channel of a tracked AGV, as that AGV's own topic. */
  ghost predicate OwnFilter(r: Resolver, channels: seq<Channel>, tracked: map<string, Entry>, f: string) {
    exists k, c :: k in tracked && c in channels
                   && f == r.Build(tracked[k].agv.manufacturer, tracked[k].agv.serialNumber, c)
  }

  lemma SpecFilter(r: Resolver, channels: seq<Channel>, tracked: map<string, Entry>, f: string)
    requires forall k | k in tracked :: tracked[k].agv.Key() == k
    ensures SpecCount(r, channels, true, tracked.Keys, f) > 0
            <==> f == r.Wildcard(CONNECTION) || OwnFilter(r, channels, tracked, f)
  {
    hide Resolver.Wildcard, Resolver.Build, AGV.Key;
    if k, c :| k in tracked.Keys && c in channels && f == r.iface + "/" + r.version + "/" + k + "/" + c {
      BuildByKey(r, tracked[k].agv, c);
    }
    if OwnFilter(r, channels, tracked, f) {
      var k, c :| k in tracked && c in channels
                  && f == r.Build(tracked[k].agv.manufacturer, tracked[k].agv.serialNumber, c);
      BuildByKey(r, tracked[k].agv, c);
      assert k in tracked.Keys && TrackedFilter(r, channels, tracked.Keys, f);
    }
  }

  lemma OwnFiltersMatch(r: Resolver, channels: seq<Channel>, tracked: map<string, Entry>, m: string, s: string,
                        ch: string)
    requires GoodChannels(channels) && Plain(r, m, s, ch)
    ensures (exists f :: OwnFilter(r, channels, tracked, f) && Matches(f, r.Build(m, s, ch)))
            <==> ch in channels && CoveredBy(tracked, m, s)
  {
    hide Matches, Resolver.Build, Covers;
    forall k, c | k in tracked && c in channels
      ensures Matches(r.Build(tracked[k].agv.manufacturer, tracked[k].agv.serialNumber, c), r.Build(m, s, ch))
              <==> c == ch && Covers(tracked[k].agv.manufacturer, m) && Covers(tracked[k].agv.serialNumber, s)
    {
      OwnSelects(r, tracked[k].agv, c, m, s, ch);
    }
    if ch in channels && CoveredBy(tracked, m, s) {
      var k :| k in tracked && Covers(tracked[k].agv.manufacturer, m) && Covers(tracked[k].agv.serialNumber, s);
      assert OwnFilter(r, channels, tracked, r.Build(tracked[k].agv.manufacturer, tracked[k].agv.serialNumber, ch));
    }
  }

  /** What the specified filters of a started fleet match. */
  lemma SpecHears(r: Resolver, channels: seq<Channel>, tracked: map<string, Entry>, m: string, s: string, ch: string)
    requires GoodChannels(channels) && Plain(r, m, s, ch)
    requires forall k | k in tracked :: tracked[k].agv.Key() == k
    ensures (exists f :: SpecCount(r, channels, true, tracked.Keys, f) > 0 && Matches(f, r.Build(m, s, ch)))
            <==> ch == "connection" || (ch in channels && CoveredBy(tracked, m, s))
  {
    WildcardSelects(r, CONNECTION, m, s, ch);
    OwnFiltersMatch(r, channels, tracked, m, s, ch);
    hide Matches, Resolver.Build, Resolver.Wildcard, AGV.Key, GoodChannels, SpecCount, OwnFilter, CoveredBy;
    forall f
      ensures SpecCount(r, channels, true, tracked.Keys, f) > 0
              <==> f == r.Wildcard(CONNECTION) || OwnFilter(r, channels, tracked, f)
    {
      SpecFilter(r, channels, tracked, f);
    }
    if OwnFilter(r, channels, tracked, r.Wildcard(CONNECTION)) || ch == CONNECTION {
      assert SpecCount(r, channels, true, tracked.Keys, r.Wildcard(CONNECTION)) > 0;
    }
  }
}
