/**
 The client's subscriptions over its life (client.go): a start, any number of
 reconnects, a stop. Whatever happens in between, a completed start or
 reconnect leaves the broker with the same filters, given by one function of
 what was registered and which AGVs are tracked.
 */
module Clients {
  import opened Streams
  import opened Topics
  import opened Filters
  import opened Segments
  import opened Subscriptions
  import opened Reception
  import opened Hooks
  import opened FleetSessions

  // ---- Subscribing a list of filters -------------------------------------------------

  /** A subscription of the client's own joins the foreign ones, and the fleet's stay as they were. */
  lemma SubscribedIsForeign(r: Resolver, channels: seq<Channel>, byFilter: bool, subs: map<nat, string>,
                            conn: Option<nat>, tracked: map<string, Entry>, foreign: map<nat, string>, id: nat,
                            g: string)
    requires Established(r, channels, subs, conn, tracked, foreign) && NoClash(r, channels, byFilter, foreign)
    requires id !in subs && (byFilter ==> !FleetFilter(r, channels, g))
    ensures var subs', foreign' := Subscribed(subs, byFilter, id, g), Subscribed(foreign, byFilter, id, g);
            Established(r, channels, subs', conn, tracked, foreign') && NoClash(r, channels, byFilter, foreign')
  {
    hide FleetFilter;
    if byFilter {
      ReplacedIsForeign(r, channels, subs, conn, tracked, foreign, g);
      hide Established;
      GrownIsForeign(r, channels, Without(subs, g), conn, tracked, Without(foreign, g), id, g);
    } else {
      GrownIsForeign(r, channels, subs, conn, tracked, foreign, id, g);
    }
  }

  lemma ReplacedIsForeign(r: Resolver, channels: seq<Channel>, subs: map<nat, string>, conn: Option<nat>,
                          tracked: map<string, Entry>, foreign: map<nat, string>, g: string)
    requires Established(r, channels, subs, conn, tracked, foreign) && !FleetFilter(r, channels, g)
    ensures Established(r, channels, Without(subs, g), conn, tracked, Without(foreign, g))
  {
    forall id | OwnedId(conn, tracked, id)
      ensures id in subs && subs[id] != g
    {
      OwnedHasFleetFilter(r, channels, subs, conn, tracked, foreign, id);
    }
    var left := Without(subs, g);
    ShrinkEstablished(r, channels, subs, conn, tracked, foreign, left);
    hide Established, FleetFilter;
    assert Shrink(subs, foreign, left) == left by {
      forall id | id in subs && subs[id] == g
        ensures id in foreign
      {
        assert Established(r, channels, subs, conn, tracked, foreign);
      }
    }
    assert Survivors(foreign, left) == Without(foreign, g);
  }

  lemma GrownIsForeign(r: Resolver, channels: seq<Channel>, subs: map<nat, string>, conn: Option<nat>,
                       tracked: map<string, Entry>, foreign: map<nat, string>, id: nat, g: string)
    requires Established(r, channels, subs, conn, tracked, foreign) && id !in subs
    ensures Established(r, channels, subs[id := g], conn, tracked, foreign[id := g])
  {
    EntriesGrow(r, channels, subs, subs[id := g], tracked);
    forall i | OwnedId(conn, tracked, i)
      ensures i in subs
    {
      OwnedHasFleetFilter(r, channels, subs, conn, tracked, foreign, i);
    }
    hide EntriesLive, FleetFilter;
  }

  /** A broker that keeps one subscription per filter counts no filter twice. */
  function Cap(byFilter: bool, n: nat): nat {
    if byFilter && n > 1 then 1 else n
  }

  ghost predicate Counted(byFilter: bool, subs0: map<nat, string>, subs: map<nat, string>, filters: seq<string>) {
    forall f: string :: |IdsOn(subs, f)| == Cap(byFilter, |IdsOn(subs0, f)| + multiset(filters)[f])
  }

  lemma CountedNone(byFilter: bool, subs: map<nat, string>)
    requires byFilter ==> forall f: string :: |IdsOn(subs, f)| <= 1
    ensures Counted(byFilter, subs, subs, [])
  {
    hide IdsOn;
  }

  /** Whatever filters are asked for, each is counted as often as asked, or once. */
  lemma CountedSnoc(byFilter: bool, subs0: map<nat, string>, subs: map<nat, string>, filters: seq<string>, id: nat,
                    g: string)
    requires Counted(byFilter, subs0, subs, filters) && id !in subs
    ensures Counted(byFilter, subs0, Subscribed(subs, byFilter, id, g), filters + [g])
  {
    var subs' := Subscribed(subs, byFilter, id, g);
    forall f: string
      ensures |IdsOn(subs', f)| == Cap(byFilter, |IdsOn(subs0, f)| + multiset(filters + [g])[f])
    {
      SubscribedCount(subs, byFilter, id, g, f);
      assert |IdsOn(subs, f)| == Cap(byFilter, |IdsOn(subs0, f)| + multiset(filters)[f]);
      assert multiset(filters + [g])[f] == multiset(filters)[f] + if f == g then 1 else 0;
    }
  }

  lemma SubscribedCount(subs: map<nat, string>, byFilter: bool, id: nat, g: string, f: string)
    requires id !in subs
    ensures var n := |IdsOn(subs, f)|;
            |IdsOn(Subscribed(subs, byFilter, id, g), f)| == if f != g then n else if byFilter then 1 else n + 1
  {
    var rest := if byFilter then Without(subs, g) else subs;
    if byFilter {
      assert IdsOn(rest, f) == if f == g then {} else IdsOn(subs, f);
    }
    GrownIds(rest, id, g, f);
  }

  lemma GrownIds(subs: map<nat, string>, id: nat, g: string, f: string)
    requires id !in subs
    ensures id !in IdsOn(subs, f) && IdsOn(subs[id := g], f) == IdsOn(subs, f) + if f == g then {id} else {}
  {
    forall i
      ensures i in IdsOn(subs[id := g], f) <==> i in IdsOn(subs, f) || (i == id && f == g)
    {
    }
  }

  ghost predicate OnePerFilter(byFilter: bool, subs: map<nat, string>) {
    byFilter ==> forall f: string :: |IdsOn(subs, f)| <= 1
  }

  /** A broker that starts empty has at most one subscription per filter for ever. */
  lemma KeepsOnePerFilter(subs: map<nat, string>, byFilter: bool, id: nat, other: nat, g: string)
    requires OnePerFilter(byFilter, subs) && id !in subs
    ensures OnePerFilter(byFilter, Subscribed(subs, byFilter, id, g))
    ensures OnePerFilter(byFilter, Unsubscribed(subs, byFilter, other, g))
  {
    if byFilter {
      forall f: string
        ensures |IdsOn(Subscribed(subs, byFilter, id, g), f)| <= 1
      {
        SubscribedCount(subs, byFilter, id, g, f);
      }
      FewerOn(Unsubscribed(subs, byFilter, other, g), subs, byFilter);
    }
  }

  lemma NoneOn(f: string)
    ensures IdsOn(map[], f) == {}
  {
  }

  lemma NoIdOn(subs: map<nat, string>, f: string)
    ensures |IdsOn(subs, f)| == 0 <==> forall id | id in subs :: subs[id] != f
  {
    if id :| id in subs && subs[id] == f {
      assert id in IdsOn(subs, f);
    } else {
      assert IdsOn(subs, f) == {};
    }
  }

  lemma FewerOn(small: map<nat, string>, subs: map<nat, string>, byFilter: bool)
    requires Submap(small, subs) && OnePerFilter(byFilter, subs)
    ensures OnePerFilter(byFilter, small)
  {
    forall f: string
      ensures |IdsOn(small, f)| <= |IdsOn(subs, f)|
    {
      assert IdsOn(small, f) <= IdsOn(subs, f);
      Fewer(IdsOn(small, f), IdsOn(subs, f));
    }
  }

  lemma Fewer(a: set<nat>, b: set<nat>)
    requires a <= b
    ensures |a| <= |b|
  {
    assert b == a + (b - a);
  }

  /** The fleet never has two subscriptions on one filter, nor one on a filter that is not its own. */
  lemma FleetOnePerFilter(r: Resolver, channels: seq<Channel>, subs: map<nat, string>, conn: Option<nat>,
                          tracked: map<string, Entry>, foreign: map<nat, string>)
    requires GoodChannels(channels) && Established(r, channels, subs, conn, tracked, foreign)
    requires NoClash(r, channels, true, foreign) && OnePerFilter(true, foreign)
    ensures OnePerFilter(true, subs)
  {
    forall f: string
      ensures |IdsOn(subs, f)| <= 1
    {
      var ids := IdsOn(subs, f);
      if id :| id in ids && OwnedId(conn, tracked, id) {
        forall other | other in ids
          ensures other == id
        {
          OwnedFilterUnique(r, channels, true, subs, conn, tracked, foreign, id, other);
        }
        assert ids == {id};
      } else {
        assert ids <= IdsOn(foreign, f);
        Fewer(ids, IdsOn(foreign, f));
      }
    }
  }

  function If(wanted: bool, filter: string): seq<string> {
    if wanted then [filter] else []
  }

  lemma CountConcat(a: seq<string>, b: seq<string>, f: string)
    ensures multiset(a + b)[f] == multiset(a)[f] + multiset(b)[f]
  {
  }

  lemma CountFive(a: seq<string>, b: seq<string>, c: seq<string>, d: seq<string>, e: seq<string>, f: string)
    ensures multiset(a + b + c + d + e)[f]
            == multiset(a)[f] + multiset(b)[f] + multiset(c)[f] + multiset(d)[f] + multiset(e)[f]
  {
    CountConcat(a, b, f);
    CountConcat(a + b, c, f);
    CountConcat(a + b + c, d, f);
    CountConcat(a + b + c + d, e, f);
  }

  lemma FlagCount(wanted: bool, filter: string, f: string)
    ensures multiset(If(wanted, filter))[f] == if wanted && f == filter then 1 else 0
  {
  }

  // ---- The client -----------------------------------------------------------------------

  datatype Handle = Handle(id: nat, filter: string)

  datatype StartResult = AlreadyStarted | ConnectFailed | SubscribeFailed | Up

  class Client {
    const topics: Resolver
    /** The configured identity; an empty part is a wildcard. */
    const manufacturer: string
    const serialNumber: string
    const broker: Broker
    const fleet: FleetSession?
    var started: bool
    /** What is needed to end each of the client's own subscriptions. */
    var unsubs: seq<Handle>
    var wantState: bool
    var wantConn: bool
    var wantViz: bool
    var wantFS: bool
    var topicHandlers: seq<string>

    function Filter(ch: Channel): string {
      SubscriptionFilter(topics, manufacturer, serialNumber, ch)
    }

    /** The filters the client asks for itself, in order. */
    function Wanted(): seq<string>
      reads this`wantState, this`wantConn, this`wantViz, this`wantFS, this`topicHandlers
    {
      (if fleet != null then If(wantFS, Filter(FACTSHEET))
       else If(wantState, Filter(STATE)) + If(wantConn, Filter(CONNECTION)) + If(wantViz, Filter(VISUALIZATION))
            + If(wantFS, Filter(FACTSHEET)))
      + topicHandlers
    }

    /** How often filter f must be subscribed while the given AGVs are tracked: the specification. */
    ghost function FilterCount(keys: set<string>, f: string): nat
      reads this`wantState, this`wantConn, this`wantViz, this`wantFS, this`topicHandlers
    {
      (if fleet == null then 0 else SpecCount(topics, fleet.channels, true, keys, f)) + multiset(Wanted())[f]
    }

    /** The broker has the specified filters, each exactly as often as specified, or once if it keeps one per filter. */
    ghost predicate MeetsSpec(keys: set<string>)
      reads this`wantState, this`wantConn, this`wantViz, this`wantFS, this`topicHandlers, broker`subs
    {
      forall f: string :: |IdsOn(broker.subs, f)| == Cap(broker.byFilter, FilterCount(keys, f))
    }

    ghost function Objects(): set<object> {
      {this, broker} + if fleet == null then {} else {fleet}
    }

    ghost predicate Wired()
      reads Objects()
    {
      && (forall id | id in broker.subs :: id < broker.nextID)
      && (fleet != null ==> fleet.broker == broker && fleet.topics == topics && fleet.Common() && fleet.Balanced())
    }

    /** Specified and kept from before, each filter as often as that makes, or once. */
    ghost predicate MeetsSpecWith(keys: set<string>, kept: map<nat, string>)
      reads this`wantState, this`wantConn, this`wantViz, this`wantFS, this`topicHandlers, broker`subs
    {
      forall f: string :: |IdsOn(broker.subs, f)| == Cap(broker.byFilter, FilterCount(keys, f) + |IdsOn(kept, f)|)
    }

    lemma WantedBesideFleet(f: string)
      requires fleet != null
      ensures multiset(Wanted())[f] == multiset(topicHandlers)[f] + if wantFS && f == Filter(FACTSHEET) then 1 else 0
    {
      hide Filter;
      var own := If(wantFS, Filter(FACTSHEET));
      assert Wanted() == own + topicHandlers;
      hide Wanted, If;
      CountConcat(own, topicHandlers, f);
      FlagCount(wantFS, Filter(FACTSHEET), f);
    }

    lemma WantedAlone(f: string)
      requires fleet == null
      ensures multiset(Wanted())[f] == multiset(topicHandlers)[f]
                + (if wantState && f == Filter(STATE) then 1 else 0)
                + (if wantConn && f == Filter(CONNECTION) then 1 else 0)
                + (if wantViz && f == Filter(VISUALIZATION) then 1 else 0)
                + (if wantFS && f == Filter(FACTSHEET) then 1 else 0)
    {
      hide Filter;
      hide If;
      var a, b := If(wantState, Filter(STATE)), If(wantConn, Filter(CONNECTION));
      var c, d := If(wantViz, Filter(VISUALIZATION)), If(wantFS, Filter(FACTSHEET));
      CountFive(a, b, c, d, topicHandlers, f);
      FlagCount(wantState, Filter(STATE), f);
      FlagCount(wantConn, Filter(CONNECTION), f);
      FlagCount(wantViz, Filter(VISUALIZATION), f);
      FlagCount(wantFS, Filter(FACTSHEET), f);
    }

    /** The own filters, from the flags: with a fleet, it takes care of states, connections and visualization. */
    lemma WantedCount(f: string)
      ensures multiset(Wanted())[f] == multiset(topicHandlers)[f]
                + (if wantFS && f == Filter("factsheet") then 1 else 0)
                + if fleet != null then 0
                  else (if wantState && f == Filter("state") then 1 else 0)
                       + (if wantConn && f == Filter("connection") then 1 else 0)
                       + (if wantViz && f == Filter("visualization") then 1 else 0)
    {
      hide Filter, Wanted;
      if fleet != null {
        WantedBesideFleet(f);
      } else {
        WantedAlone(f);
      }
    }

    /** The specification from the flags. */
    lemma FilterCountMeans(keys: set<string>, f: string)
      ensures FilterCount(keys, f) == multiset(topicHandlers)[f]
                + (if wantFS && f == Filter("factsheet") then 1 else 0)
                + if fleet != null then SpecCount(topics, fleet.channels, true, keys, f)
                  else (if wantState && f == Filter("state") then 1 else 0)
                       + (if wantConn && f == Filter("connection") then 1 else 0)
                       + (if wantViz && f == Filter("visualization") then 1 else 0)
    {
      WantedCount(f);
      hide Filter, Wanted, SpecCount;
    }

    /** The broker sends what some filter with a positive count matches. */
    lemma CountsHear(keys: set<string>, kept: map<nat, string>, topic: string)
      requires MeetsSpecWith(keys, kept)
      ensures Heard(broker.subs, topic)
              <==> (exists f :: FilterCount(keys, f) > 0 && Matches(f, topic)) || Heard(kept, topic)
    {
      hide MeetsSpecWith, FilterCount, Matches, IdsOn;
      if id :| id in broker.subs && Matches(broker.subs[id], topic) {
        CountMeans(keys, kept, broker.subs[id]);
      }
      if id :| id in kept && Matches(kept[id], topic) {
        CountMeans(keys, kept, kept[id]);
      }
      if f :| FilterCount(keys, f) > 0 && Matches(f, topic) {
        CountMeans(keys, kept, f);
      }
    }

    /** A filter is subscribed exactly when it is specified or kept. */
    lemma CountMeans(keys: set<string>, kept: map<nat, string>, f: string)
      requires MeetsSpecWith(keys, kept)
      ensures (exists id :: id in broker.subs && broker.subs[id] == f)
              <==> FilterCount(keys, f) > 0 || exists id :: id in kept && kept[id] == f
    {
      hide FilterCount, IdsOn;
      NoIdOn(broker.subs, f);
      NoIdOn(kept, f);
    }

    lemma OwnFilterHears(subscribed: Channel, m: string, s: string, ch: string)
      requires Plain(topics, m, s, ch) && SlashFree(manufacturer) && SlashFree(serialNumber) && ValidChannel(subscribed)
      ensures Matches(Filter(subscribed), topics.Build(m, s, ch))
              <==> subscribed == ch && Admits(manufacturer, m) && Admits(serialNumber, s)
    {
      SubscriptionSelects(topics, manufacturer, serialNumber, subscribed, m, s, ch);
    }

    /**
     * Without a fleet the broker sends exactly the topics of those of the four channels that are asked for, from the
     * AGVs that the configured identity admits, and what the topic handlers' filters and kept subscriptions match.
     */
    lemma HearsWithoutFleet(kept: map<nat, string>, m: string, s: string, ch: string)
      requires fleet == null && MeetsSpecWith({}, kept)
      requires Plain(topics, m, s, ch) && SlashFree(manufacturer) && SlashFree(serialNumber)
      ensures Heard(broker.subs, topics.Build(m, s, ch))
              <==> || (Admits(manufacturer, m) && Admits(serialNumber, s)
                       && ((ch == "state" && wantState) || (ch == "connection" && wantConn)
                           || (ch == "visualization" && wantViz) || (ch == "factsheet" && wantFS)))
                   || (exists f :: f in topicHandlers && Matches(f, topics.Build(m, s, ch)))
                   || Heard(kept, topics.Build(m, s, ch))
    {
      hide MeetsSpecWith, FilterCount, Matches, Filter, Wanted, Resolver.Build;
      var topic := topics.Build(m, s, ch);
      CountsHear({}, kept, topic);
      OwnFilterHears("state", m, s, ch);
      OwnFilterHears("connection", m, s, ch);
      OwnFilterHears("visualization", m, s, ch);
      OwnFilterHears("factsheet", m, s, ch);
      forall f
        ensures FilterCount({}, f) > 0 <==> f in topicHandlers || (wantFS && f == Filter("factsheet"))
                                            || (wantState && f == Filter("state"))
                                            || (wantConn && f == Filter("connection"))
                                            || (wantViz && f == Filter("visualization"))
      {
        FilterCountMeans({}, f);
      }
    }

    lemma AllHeard(kept: map<nat, string>)
      requires fleet == null && MeetsSpecWith({}, kept)
      ensures forall m, s, ch | Plain(topics, m, s, ch) && SlashFree(manufacturer) && SlashFree(serialNumber) ::
                Heard(broker.subs, topics.Build(m, s, ch))
                <==> || (Admits(manufacturer, m) && Admits(serialNumber, s)
                         && ((ch == "state" && wantState) || (ch == "connection" && wantConn)
                             || (ch == "visualization" && wantViz) || (ch == "factsheet" && wantFS)))
                     || (exists f :: f in topicHandlers && Matches(f, topics.Build(m, s, ch)))
                     || Heard(kept, topics.Build(m, s, ch))
    {
      hide Heard, Plain, SlashFree, Admits, Resolver.Build, Matches;
      forall m, s, ch | Plain(topics, m, s, ch) && SlashFree(manufacturer) && SlashFree(serialNumber)
        ensures Heard(broker.subs, topics.Build(m, s, ch))
                <==> || (Admits(manufacturer, m) && Admits(serialNumber, s)
                         && ((ch == "state" && wantState) || (ch == "connection" && wantConn)
                             || (ch == "visualization" && wantViz) || (ch == "factsheet" && wantFS)))
                     || (exists f :: f in topicHandlers && Matches(f, topics.Build(m, s, ch)))
                     || Heard(kept, topics.Build(m, s, ch))
      {
        HearsWithoutFleet(kept, m, s, ch);
      }
    }

    /**
     * With a fleet: every AGV's connection topic, the tracked AGVs' topics as the fleet's options say, the factsheets
     * of admitted AGVs if asked for, and what the topic handlers' filters and kept subscriptions match.
     */
    lemma HearsWithFleet(kept: map<nat, string>, state: bool, visualization: bool, m: string, s: string, ch: string)
      requires fleet != null && MeetsSpecWith(Keys(), kept) && fleet.channels == Channels(state, visualization)
      requires forall k | k in fleet.tracked :: fleet.tracked[k].agv.Key() == k
      requires Plain(topics, m, s, ch) && SlashFree(manufacturer) && SlashFree(serialNumber)
      ensures Heard(broker.subs, topics.Build(m, s, ch))
              <==> || ch == "connection"
                   || (((ch == "state" && state) || (ch == "visualization" && visualization))
                       && CoveredBy(fleet.tracked, m, s))
                   || (ch == "factsheet" && wantFS && Admits(manufacturer, m) && Admits(serialNumber, s))
                   || (exists f :: f in topicHandlers && Matches(f, topics.Build(m, s, ch)))
                   || Heard(kept, topics.Build(m, s, ch))
    {
      hide MeetsSpecWith, FilterCount, Matches, Filter, Wanted, Resolver.Build, SpecCount, CoveredBy, AGV.Key;
      var topic := topics.Build(m, s, ch);
      CountsHear(Keys(), kept, topic);
      OwnFilterHears("factsheet", m, s, ch);
      SpecHears(topics, fleet.channels, fleet.tracked, m, s, ch);
      ChannelsEnabled(state, visualization, ch);
      forall f
        ensures FilterCount(Keys(), f) > 0 <==> f in topicHandlers || (wantFS && f == Filter("factsheet"))
                                                || SpecCount(topics, fleet.channels, true, Keys(), f) > 0
      {
        FilterCountMeans(Keys(), f);
      }
    }

    /** What was kept does no harm exactly when there is none of it or, where once is enough, it is wanted anyway. */
    lemma KeptHarmless(keys: set<string>, kept: map<nat, string>)
      requires MeetsSpecWith(keys, kept)
      ensures MeetsSpec(keys)
              <==> if broker.byFilter then forall id | id in kept :: FilterCount(keys, kept[id]) > 0 else kept == map[]
    {
      hide FilterCount;
      forall f
        ensures |IdsOn(kept, f)| == 0 <==> forall id | id in kept :: kept[id] != f
      {
        NoIdOn(kept, f);
      }
      if id :| id in kept && (broker.byFilter ==> FilterCount(keys, kept[id]) == 0) {
        assert |IdsOn(broker.subs, kept[id])| != Cap(broker.byFilter, FilterCount(keys, kept[id]));
      }
    }

    /** On a broker with one subscription per filter, the client's own filters replace none of the fleet's. */
    ghost predicate Tidy()
      reads this`wantState, this`wantConn, this`wantViz, this`wantFS, this`topicHandlers
    {
      broker.byFilter && fleet != null ==> forall f | f in Wanted() :: !FleetFilter(topics, fleet.channels, f)
    }

    /** Not connected: nothing is subscribed or tracked. */
    ghost predicate Idle()
      reads Objects()
    {
      Wired() && !started && broker.subs == map[]
      && (fleet != null ==> fleet.tracked == map[] && fleet.foreign == map[])
    }

    /** Connected, and the fleet's subscriptions are in place next to the client's own. */
    ghost predicate Live()
      reads Objects()
    {
      Wired() && started && (fleet != null ==> fleet.Valid() && fleet.started)
    }

    ghost function Keys(): set<string>
      reads Objects()
    {
      if fleet == null then {} else fleet.tracked.Keys
    }

    constructor (topics: Resolver, manufacturer: string, serialNumber: string, broker: Broker, fleet: FleetSession?)
      requires broker.subs == map[]
      requires fleet != null ==> fleet.broker == broker && fleet.topics == topics && fleet.Valid() && !fleet.started
                                 && fleet.tracked == map[] && fleet.foreign == map[]
      ensures Idle() && this.broker == broker && this.fleet == fleet && this.topics == topics
      ensures this.manufacturer == manufacturer && this.serialNumber == serialNumber
      ensures Wanted() == []
    {
      this.topics, this.manufacturer, this.serialNumber := topics, manufacturer, serialNumber;
      this.broker, this.fleet, started, unsubs := broker, fleet, false, [];
      wantState, wantConn, wantViz, wantFS, topicHandlers := false, false, false, false, [];
    }

    /** Subscribes one of the client's own filters. */
    method SubscribeOne(filter: string) returns (ok: bool)
      requires Wired()
      modifies this`unsubs, Objects() - {this}
      ensures Wired() && (ok <==> !FailsAt(old(broker.script), 0)) && broker.script == Rest(old(broker.script), 1)
      ensures if ok then exists id :: id !in old(broker.subs) && unsubs == old(unsubs) + [Handle(id, filter)]
                                      && broker.subs == Subscribed(old(broker.subs), broker.byFilter, id, filter)
              else broker.subs == old(broker.subs) && unsubs == old(unsubs)
      ensures fleet != null ==> SameFleet(old(fleet.started), old(fleet.conn), old(fleet.tracked), old(fleet.events),
                                          old(fleet.interrupted))
      ensures fleet != null && old(fleet.Valid()) && (broker.byFilter ==> !FleetFilter(topics, fleet.channels, filter))
              ==> fleet.Valid()
    {
      hide Established, NoClash, BalancedFor, GoodChannels, FleetFilter, Subscribed;
      ghost var before := broker.subs;
      var id := broker.Subscribe(filter);
      if id.None? {
        return false;
      }
      SubscribedBelow(before, broker.byFilter, id.value, filter);
      unsubs := unsubs + [Handle(id.value, filter)];
      if fleet != null {
        JoinForeign(before, id.value, filter);
      }
      ok := true;
    }

    ghost predicate SameFleet(started: bool, conn: Option<nat>, tracked: map<string, Entry>, events: seq<HookEvent>,
                              interrupted: bool)
      requires fleet != null
      reads fleet
    {
      && fleet.started == started && fleet.conn == conn && fleet.tracked == tracked && fleet.events == events
      && fleet.interrupted == interrupted
    }

    ghost method JoinForeign(before: map<nat, string>, id: nat, filter: string)
      requires fleet != null && id !in before
      modifies fleet`foreign
      ensures NoClash(topics, fleet.channels, broker.byFilter, old(fleet.foreign)) ==>
                NoClash(topics, fleet.channels, broker.byFilter, fleet.foreign)
      ensures Established(topics, fleet.channels, before, fleet.conn, fleet.tracked, old(fleet.foreign))
              && NoClash(topics, fleet.channels, broker.byFilter, old(fleet.foreign))
              && (broker.byFilter ==> !FleetFilter(topics, fleet.channels, filter))
              ==> Established(topics, fleet.channels, Subscribed(before, broker.byFilter, id, filter), fleet.conn,
                              fleet.tracked, fleet.foreign)
    {
      hide Established, NoClash, FleetFilter, Subscribed;
      if Established(topics, fleet.channels, before, fleet.conn, fleet.tracked, fleet.foreign)
         && NoClash(topics, fleet.channels, broker.byFilter, fleet.foreign)
         && (broker.byFilter ==> !FleetFilter(topics, fleet.channels, filter)) {
        SubscribedIsForeign(topics, fleet.channels, broker.byFilter, before, fleet.conn, fleet.tracked, fleet.foreign,
                            id, filter);
        fleet.foreign := Subscribed(fleet.foreign, broker.byFilter, id, filter);
      }
    }

    /** Subscribes the client's own filters one by one; the first failure ends it. */
    method SubscribeOwn() returns (ok: bool, ghost made: nat)
      requires Wired() && OnePerFilter(broker.byFilter, broker.subs)
      modifies this`unsubs, Objects() - {this}
      ensures Wired() && made <= |Wanted()| == old(|Wanted()|)
      ensures Counted(broker.byFilter, old(broker.subs), broker.subs, Wanted()[..made])
      ensures forall j | 0 <= j < made :: !FailsAt(old(broker.script), j)
      ensures if ok then made == |Wanted()| else made < |Wanted()| && FailsAt(old(broker.script), made)
      ensures broker.script == Rest(old(broker.script), if ok then made else made + 1)
      ensures |unsubs| == |old(unsubs)| + made && unsubs[..|old(unsubs)|] == old(unsubs)
      ensures forall j | 0 <= j < made :: unsubs[|old(unsubs)| + j].filter == Wanted()[j]
      ensures fleet != null ==> SameFleet(old(fleet.started), old(fleet.conn), old(fleet.tracked), old(fleet.events),
                                          old(fleet.interrupted))
      ensures fleet != null && old(fleet.Valid()) && Tidy() ==> fleet.Valid()
    {
      hide Subscribed, Wanted, Counted, IdsOn, FailsAt, Rest, FleetFilter, FleetSession.Valid, Wired;
      ghost var subs0, script := broker.subs, broker.script;
      var filters := Wanted();
      made := 0;
      CountedNone(broker.byFilter, subs0);
      RestNone(script);
      assert filters[..0] == [];
      for i := 0 to |filters|
        invariant made == i && filters == Wanted() && Wired()
        invariant |unsubs| == |old(unsubs)| + i && unsubs[..|old(unsubs)|] == old(unsubs)
        invariant forall j | 0 <= j < i :: unsubs[|old(unsubs)| + j].filter == filters[j]
        invariant Counted(broker.byFilter, subs0, broker.subs, filters[..i])
        invariant broker.script == Rest(script, i) && forall j | 0 <= j < i :: !FailsAt(script, j)
        invariant fleet != null ==> SameFleet(old(fleet.started), old(fleet.conn), old(fleet.tracked),
                                              old(fleet.events), old(fleet.interrupted))
        invariant fleet != null && old(fleet.Valid()) && Tidy() ==> fleet.Valid()
      {
        ghost var before := broker.subs;
        RestStep(script, i);
        assert filters[i] in Wanted();
        var done := SubscribeOne(filters[i]);
        if !done {
          return false, made;
        }
        ghost var id :| id !in before && broker.subs == Subscribed(before, broker.byFilter, id, filters[i]);
        CountedSnoc(broker.byFilter, subs0, before, filters[..i], id, filters[i]);
        assert filters[..i + 1] == filters[..i] + [filters[i]];
        made := made + 1;
      }
      ok := true;
    }

    /** What is on the broker besides the fleet's: the client's own, from before. */
    ghost function Kept(): map<nat, string>
      reads Objects()
    {
      if fleet == null then broker.subs else fleet.foreign
    }

    /** The fleet is consistent with the broker, which has nothing but its subscriptions and kept ones. */
    ghost predicate FleetInPlace()
      reads Objects()
    {
      OnePerFilter(broker.byFilter, Kept()) && (fleet != null ==> fleet.broker == broker && fleet.Valid())
    }

    /** The fleet believes it has started, but its subscriptions ended with an earlier connection. */
    ghost predicate Stale()
      reads Objects()
    {
      fleet != null && fleet.started && fleet.tracked == map[] && fleet.foreign == map[] && broker.subs == map[]
    }

    /** How many subscribe calls a start makes, if none fails. */
    function Calls(): nat
      reads Objects(), this`wantState, this`wantConn, this`wantViz, this`wantFS, this`topicHandlers
    {
      (if fleet != null && !fleet.started then 1 else 0) + |Wanted()|
    }

    /** subscribeLocked: the fleet's connection wildcard, unless it is there, and then the client's own filters. */
    method SubscribeLocked() returns (ok: bool)
      requires Wired() && (FleetInPlace() || Stale())
      modifies this`unsubs, Objects() - {this}
      ensures Wired() && Keys() == old(Keys())
      ensures fleet != null ==> fleet.tracked == old(fleet.tracked) && fleet.events == old(fleet.events)
                                && fleet.interrupted == old(fleet.interrupted)
      ensures fleet != null && Tidy() && old(fleet.Valid()) ==> fleet.Valid()
      ensures fleet != null ==> fleet.started == (old(fleet.started) || !FailsAt(old(broker.script), 0))
      ensures ok && old(FleetInPlace()) ==> MeetsSpecWith(Keys(), old(Kept()))
      ensures ok && !old(FleetInPlace()) ==>
                forall f: string :: |IdsOn(broker.subs, f)| == Cap(broker.byFilter, multiset(Wanted())[f])
      ensures ok <==> forall j | 0 <= j < old(Calls()) :: !FailsAt(old(broker.script), j)
      ensures broker.script == Rest(old(broker.script), Made(old(broker.script), old(Calls())))
    {
      hide FleetFilter, Established, NoClash, BalancedFor, GoodChannels, IdsOn, SpecCount, OnePerFilter;
      hide Wanted, MeetsSpecWith, Counted, FailsAt, Rest, Made;
      ghost var script, kept := broker.script, Kept();
      ghost var first: nat := if fleet != null && !fleet.started then 1 else 0;
      if fleet != null {
        ok := fleet.Start();
        if !ok {
          MadeMeans(script, old(Calls()), 0);
          return;
        }
      }
      ghost var subs0, inPlace := broker.subs, old(FleetInPlace());
      FleetLeavesRoom(inPlace, kept);
      ghost var made;
      ok, made := SubscribeOwn();
      RestNone(script);
      CallsMade(script, first, made, |Wanted()|, ok);
      if ok {
        assert Wanted()[..made] == Wanted();
        Total(inPlace, subs0, kept);
      }
    }

    /** Adding the client's own filters to what is there gives the specified counts. */
    lemma Total(inPlace: bool, subs0: map<nat, string>, kept: map<nat, string>)
      requires Counted(broker.byFilter, subs0, broker.subs, Wanted())
      requires !inPlace ==> forall f: string :: |IdsOn(subs0, f)| == 0
      requires inPlace ==> forall f: string ::
                 |IdsOn(subs0, f)| == |IdsOn(kept, f)|
                   + if fleet == null then 0 else SpecCount(topics, fleet.channels, true, Keys(), f)
      ensures inPlace ==> MeetsSpecWith(Keys(), kept)
      ensures !inPlace ==> forall f: string :: |IdsOn(broker.subs, f)| == Cap(broker.byFilter, multiset(Wanted())[f])
    {
      hide IdsOn, SpecCount, Wanted;
    }

    /** What is subscribed when the client's own filters are next. */
    lemma FleetLeavesRoom(inPlace: bool, kept: map<nat, string>)
      requires Wired() && kept == Kept() && (!inPlace ==> broker.subs == map[])
      requires inPlace ==> FleetInPlace() && (fleet != null ==> fleet.started)
      ensures OnePerFilter(broker.byFilter, broker.subs)
      ensures !inPlace ==> forall f: string :: |IdsOn(broker.subs, f)| == 0
      ensures inPlace ==> forall f: string ::
                |IdsOn(broker.subs, f)| == |IdsOn(kept, f)|
                  + if fleet == null then 0 else SpecCount(topics, fleet.channels, true, Keys(), f)
    {
      hide FleetFilter, Established, NoClash, BalancedFor, GoodChannels, IdsOn, SpecCount;
      if !inPlace {
        forall f: string
          ensures IdsOn(broker.subs, f) == {}
        {
          NoneOn(f);
        }
      } else if fleet != null {
        if broker.byFilter {
          FleetOnePerFilter(topics, fleet.channels, broker.subs, fleet.conn, fleet.tracked, kept);
        }
        forall f: string
          ensures |IdsOn(broker.subs, f)|
                  == SpecCount(topics, fleet.channels, true, Keys(), f) + |IdsOn(kept, f)|
        {
          EstablishedCount(topics, fleet.channels, broker.subs, fleet.conn, fleet.tracked, kept, f);
        }
      }
    }

    /**
     * Start: connects and subscribes. It fails to subscribe exactly when one of its calls fails, and then it
     * leaves the fleet's started flag behind exactly when the wildcard was not the one that failed. A start that
     * comes up meets the specification, unless such a flag was left behind by an earlier one.
     */
    method Start(connects: bool) returns (result: StartResult)
      requires started || Idle()
      modifies this`started, this`unsubs, Objects() - {this}
      ensures result.AlreadyStarted? <==> old(started)
      ensures result.AlreadyStarted? ==> broker.subs == old(broker.subs) && unsubs == old(unsubs)
      ensures result.ConnectFailed? <==> !old(started) && !connects
      ensures result.SubscribeFailed? <==>
                !old(started) && connects && exists j: nat :: j < old(Calls()) && FailsAt(old(broker.script), j)
      ensures result.ConnectFailed? || result.SubscribeFailed? ==> Idle()
      ensures result.ConnectFailed? ==> (Stale() <==> old(Stale()))
      ensures result.SubscribeFailed? ==>
                (Stale() <==> old(Stale()) || (fleet != null && !FailsAt(old(broker.script), 0)))
      ensures !old(started) ==> (started <==> result.Up?)
      ensures !old(started) && connects ==>
                broker.script == Rest(old(broker.script), Made(old(broker.script), old(Calls())))
      ensures result.Up? && !old(Stale()) && Tidy() ==> Live()
      ensures result.Up? ==>
                (MeetsSpec({}) <==> !old(Stale()) || (broker.byFilter && topics.Wildcard(CONNECTION) in Wanted()))
      ensures result.Up? && fleet == null ==>
                forall m, s, ch | Plain(topics, m, s, ch) && SlashFree(manufacturer) && SlashFree(serialNumber) ::
                  Heard(broker.subs, topics.Build(m, s, ch))
                  <==> || (Admits(manufacturer, m) && Admits(serialNumber, s)
                           && ((ch == "state" && wantState) || (ch == "connection" && wantConn)
                               || (ch == "visualization" && wantViz) || (ch == "factsheet" && wantFS)))
                       || (exists f :: f in topicHandlers && Matches(f, topics.Build(m, s, ch)))
      ensures result.Up? && old(Stale()) ==>
                forall f: string :: |IdsOn(broker.subs, f)| == Cap(broker.byFilter, multiset(Wanted())[f])
    {
      hide Established, NoClash, BalancedFor, GoodChannels, MeetsSpec, MeetsSpecWith, Wanted, IdsOn, Tidy, FailsAt;
      hide Rest, Made, FilterCount;
      if started {
        return AlreadyStarted;
      }
      if !connects {
        return ConnectFailed;
      }
      IdleFleet();
      assert Keys() == {} && Kept() == map[];
      var ok := SubscribeLocked();
      if !ok {
        Disconnect();
        return SubscribeFailed;
      }
      if MeetsSpecWith({}, map[]) {
        KeptHarmless({}, map[]);
      }
      if fleet == null {
        AllHeard(map[]);
      }
      if fleet != null {
        NoWildcard();
      }
      started := true;
      return Up;
    }

    /**
     * With the client's own filters alone a fleet client falls short: nobody subscribes the fleet's wildcard,
     * unless the client does and once is enough.
     */
    lemma NoWildcard()
      requires fleet != null
      ensures (forall f: string :: |IdsOn(broker.subs, f)| == Cap(broker.byFilter, multiset(Wanted())[f])) ==>
                (MeetsSpec({}) <==> broker.byFilter && topics.Wildcard(CONNECTION) in Wanted())
    {
      hide Wanted, IdsOn;
      var f := topics.Wildcard(CONNECTION);
      if MeetsSpec({}) {
        assert |IdsOn(broker.subs, f)| == Cap(broker.byFilter, FilterCount({}, f));
      }
    }

    lemma IdleFleet()
      requires Idle()
      ensures (FleetInPlace() <==> !Stale()) && Kept() == map[]
    {
      hide BalancedFor;
      forall f: string
        ensures IdsOn(map[], f) == {}
      {
        NoneOn(f);
      }
    }

    /** The transport goes down: every subscription on it ends, the fleet's bookkeeping stays. */
    method Disconnect()
      requires Wired()
      modifies broker`subs, if fleet == null then {} else {fleet}
      ensures Wired() && broker.subs == map[] && (fleet != null ==> fleet.foreign == map[])
      ensures fleet != null ==> fleet.tracked == old(fleet.tracked) && fleet.events == old(fleet.events)
                                && fleet.started == old(fleet.started) && fleet.conn == old(fleet.conn)
                                && fleet.interrupted == old(fleet.interrupted)
    {
      hide BalancedFor, GoodChannels;
      broker.Disconnect();
      if fleet != null {
        NoForeign();
      }
    }

    ghost method NoForeign()
      requires fleet != null
      modifies fleet`foreign
      ensures fleet.foreign == map[]
    {
      fleet.foreign := map[];
    }

    /** What a reconnect leaves of the client's own subscriptions. */
    ghost function Left(): map<nat, string>
      reads Objects()
    {
      if fleet == null then broker.subs else Survivors(fleet.foreign, broker.subs)
    }

    /**
     * handleReconnect, whatever part of the subscriptions (full) the connection has kept. The handles are
     * dropped, the fleet restores itself and the client subscribes as at a start; no hook fires. On success
     * the broker has what is specified for the AGVs that were tracked, and what was left of the client's own
     * counts on top: the specification itself is met exactly when nothing is left or, by filter, nothing but
     * what is wanted.
     */
    method HandleReconnect(ghost full: map<nat, string>) returns (restored: bool, ok: bool)
      requires Wired() && OnePerFilter(broker.byFilter, broker.subs)
      requires fleet != null ==> Established(topics, fleet.channels, full, fleet.conn, fleet.tracked, fleet.foreign)
                                 && Submap(broker.subs, full)
      modifies this`unsubs, Objects() - {this}
      ensures restored <==> old(started)
      ensures !restored ==> broker.subs == old(broker.subs) && Keys() == old(Keys())
      ensures fleet != null ==> fleet.events == old(fleet.events)
      ensures ok ==> restored && Keys() == old(Keys()) && MeetsSpecWith(old(Keys()), old(Left()))
      ensures ok ==> (MeetsSpec(old(Keys()))
                      <==> if broker.byFilter then forall id | id in old(Left()) ::
                                                     FilterCount(old(Keys()), old(Left())[id]) > 0
                           else old(Left()) == map[])
      ensures ok && fleet == null ==>
                forall m, s, ch | Plain(topics, m, s, ch) && SlashFree(manufacturer) && SlashFree(serialNumber) ::
                  Heard(broker.subs, topics.Build(m, s, ch))
                  <==> || (Admits(manufacturer, m) && Admits(serialNumber, s)
                           && ((ch == "state" && wantState) || (ch == "connection" && wantConn)
                               || (ch == "visualization" && wantViz) || (ch == "factsheet" && wantFS)))
                       || (exists f :: f in topicHandlers && Matches(f, topics.Build(m, s, ch)))
                       || Heard(old(broker.subs), topics.Build(m, s, ch))
      ensures ok && Tidy() ==> Live()
      ensures restored && fleet != null ==> Keys() <= old(Keys()) && (Tidy() ==> fleet.Valid())
    {
      hide Established, NoClash, BalancedFor, GoodChannels, MeetsSpec, MeetsSpecWith, Wanted, IdsOn, Tidy, FilterCount;
      hide Survivors, OnePerFilter;
      if !started {
        return false, false;
      }
      ghost var left := Left();
      restored, ok := true, true;
      unsubs := [];
      if fleet != null {
        ok := RestoreFleet(full);
      }
      if ok {
        ok := SubscribeLocked();
      }
      if ok {
        KeptHarmless(Keys(), left);
      }
      if ok && fleet == null {
        AllHeard(left);
      }
    }

    /** The fleet's part of a reconnect. */
    method RestoreFleet(ghost full: map<nat, string>) returns (ok: bool)
      requires Wired() && fleet != null && Submap(broker.subs, full) && OnePerFilter(broker.byFilter, broker.subs)
      requires Established(topics, fleet.channels, full, fleet.conn, fleet.tracked, fleet.foreign)
      modifies fleet, broker
      ensures Wired() && fleet.Valid() && fleet.events == old(fleet.events)
      ensures fleet.foreign == Survivors(old(fleet.foreign), old(broker.subs)) && FleetInPlace()
      ensures Keys() <= old(Keys()) && (ok ==> Keys() == old(Keys()))
    {
      ghost var left := Survivors(fleet.foreign, broker.subs);
      FewerOn(left, broker.subs, broker.byFilter) by {
        assert Submap(fleet.foreign, full);
      }
      hide Established, NoClash, BalancedFor, GoodChannels, Lists, OnePerFilter, Survivors;
      var agvs, done;
      ok, agvs, done := fleet.Restore(full);
    }

    /** Stop: untracks every AGV, ends the client's own subscriptions in reverse, and disconnects. */
    method Stop() returns (ghost last: map<nat, string>)
      requires started ==> Live()
      modifies this`started, this`unsubs, Objects() - {this}
      ensures !started
      ensures old(started) ==> Submap(last, old(broker.subs))
                               && forall h | h in old(unsubs) :: Ended(last, broker.byFilter, h)
      ensures !old(started) ==> broker.subs == old(broker.subs) && unsubs == old(unsubs)
      ensures old(started) ==> Idle() && !Stale() && unsubs == []
    {
      assert started && fleet != null ==> Submap(fleet.foreign, broker.subs);
      hide Established, NoClash, BalancedFor, GoodChannels, Ended;
      last := broker.subs;
      if !started {
        return;
      }
      var own := unsubs;
      unsubs, started := [], false;
      if fleet != null {
        fleet.Stop();
      }
      EndOwn(own);
      last := broker.subs;
      Disconnect();
    }

    /** Ends the client's own subscriptions, last one first. */
    method EndOwn(own: seq<Handle>)
      modifies broker`subs
      ensures Submap(broker.subs, old(broker.subs))
      ensures forall h | h in own :: Ended(broker.subs, broker.byFilter, h)
    {
      var n := |own|;
      assert own[n..] == [];
      while n > 0
        invariant 0 <= n <= |own| && Submap(broker.subs, old(broker.subs))
        invariant forall h | h in own[n..] :: Ended(broker.subs, broker.byFilter, h)
      {
        n := n - 1;
        assert own[n..] == [own[n]] + own[n + 1..];
        ghost var before := broker.subs;
        broker.Unsubscribe(own[n].id, own[n].filter);
        assert forall h | h in own[n + 1..] :: Ended(before, broker.byFilter, h);
      }
      assert own[0..] == own;
    }
  }

  /**
   A client whose first start fails on its only topic handler, after the fleet's wildcard, and whose second
   start succeeds: it is up, and nothing but the handler's filter is subscribed.
   */
  method RetryLosesWildcard(topics: Resolver, byFilter: bool, filter: string)
    returns (client: Client, first: StartResult, second: StartResult)
    ensures first.SubscribeFailed? && second.Up? && client.fleet != null
    ensures forall f: string :: |IdsOn(client.broker.subs, f)| == if f == filter then 1 else 0
    ensures filter != topics.Wildcard(CONNECTION) ==> !client.MeetsSpec({})
  {
    hide Established, NoClash, BalancedFor, GoodChannels, Client.MeetsSpec, IdsOn, Resolver.Build, FleetFilter, Made;
    hide Rest, FailsAt, OnePerFilter, Client.MeetsSpecWith, Client.FilterCount, Client.Tidy, Client.FleetInPlace;
    SecondFails();
    var broker := new Broker(byFilter, [false, true]);
    var fleet := new FleetSession(topics, true, false, false, broker);
    client := new Client(topics, "", "", broker, fleet);
    client.topicHandlers := [filter];
    OneFilter(filter);
    assert client.Wanted() == [filter];
    assert client.Calls() == 2;
    first := client.Start(true);
    assert client.Stale() && broker.script == [] && client.Wanted() == [filter];
    second := client.Start(true);
    assert client.Wanted() == [filter];
  }

  lemma SecondFails()
    ensures var script := [false, true];
            Made(script, 2) == 2 && Rest(script, 2) == [] && !FailsAt(script, 0) && FailsAt(script, 1)
    ensures forall j :: !FailsAt([], j)
  {
    assert Rest([false, true], 1) == [true];
    assert Made([true], 1) == 1;
  }

  lemma OneFilter(filter: string)
    ensures forall f: string :: multiset([filter])[f] == if f == filter then 1 else 0
    ensures [] + [filter] == [filter]
  {
  }

  /** No subscription the broker would end by this handle is left. */
  ghost predicate Ended(subs: map<nat, string>, byFilter: bool, h: Handle) {
    if byFilter then forall id | id in subs :: subs[id] != h.filter else h.id !in subs
  }

  lemma RestNone(script: seq<bool>)
    ensures Rest(script, 0) == script
  {
  }

  /** How many of n calls in a row are made, when the first failure ends them. */
  function Made(script: seq<bool>, n: nat): nat {
    if n == 0 then 0 else if FailsAt(script, 0) then 1 else 1 + Made(Rest(script, 1), n - 1)
  }

  lemma {:induction false} MadeMeans(script: seq<bool>, n: nat, k: nat)
    requires k <= n && forall j | 0 <= j < k :: !FailsAt(script, j)
    requires k == n || FailsAt(script, k)
    ensures Made(script, n) == if k == n then n else k + 1
  {
    if k > 0 {
      RestShift(script, 1);
      assert !FailsAt(script, 0);
      assert forall j: nat :: FailsAt(Rest(script, 1), j) <==> FailsAt(script, 1 + j);
      MadeMeans(Rest(script, 1), n - 1, k - 1);
    }
  }

  lemma RestShift(script: seq<bool>, n: nat)
    ensures forall j: nat :: FailsAt(Rest(script, n), j) <==> FailsAt(script, n + j)
    ensures forall m: nat :: Rest(Rest(script, n), m) == Rest(script, n + m)
  {
  }

  /** Which calls failed, counted from the start of the script. */
  lemma CallsMade(script: seq<bool>, first: nat, made: nat, wanted: nat, ok: bool)
    requires made <= wanted && first <= 1 && (first == 1 ==> !FailsAt(script, 0))
    requires forall j | 0 <= j < made :: !FailsAt(Rest(script, first), j)
    requires if ok then made == wanted else made < wanted && FailsAt(Rest(script, first), made)
    ensures ok <==> forall j | 0 <= j < first + wanted :: !FailsAt(script, j)
    ensures Rest(script, Made(script, first + wanted)) == Rest(Rest(script, first), if ok then made else made + 1)
  {
    hide Rest, FailsAt, Made;
    RestShift(script, first);
    forall j | 0 <= j < first + made
      ensures !FailsAt(script, j)
    {
      if j >= first {
        assert FailsAt(Rest(script, first), j - first) <==> FailsAt(script, first + (j - first));
      }
    }
    if !ok {
      assert FailsAt(script, first + made);
    }
    MadeMeans(script, first + wanted, first + made);
  }

  lemma SubscribedBelow(subs: map<nat, string>, byFilter: bool, id: nat, filter: string)
    requires forall i | i in subs :: i < id
    ensures forall i | i in Subscribed(subs, byFilter, id, filter) :: i < id + 1
  {
  }
}
