/**
 VDA 5050 topics: building and parsing them (topic/resolver.go), the lane an
 inbound topic is routed to (internal/mqtt/classify.go), and the string key
 under which an AGV is indexed.
 */
module Topics {
  import opened Segments

  type Channel = string

  const CONNECTION: Channel := "connection"
  const STATE: Channel := "state"
  const VISUALIZATION: Channel := "visualization"
  const FACTSHEET: Channel := "factsheet"
  const ORDER: Channel := "order"
  const INSTANT_ACTIONS: Channel := "instantActions"

  predicate ValidChannel(ch: Channel) {
    ch in [ORDER, INSTANT_ACTIONS, STATE, VISUALIZATION, CONNECTION, FACTSHEET]
  }

  /** The channels by the names that VDA 5050 gives them; no other name is known. */
  lemma ChannelNames(ch: string)
    ensures CONNECTION == "connection" && STATE == "state" && VISUALIZATION == "visualization"
    ensures FACTSHEET == "factsheet" && ORDER == "order" && INSTANT_ACTIONS == "instantActions"
    ensures ValidChannel(ch) <==> ch == "order" || ch == "instantActions" || ch == "state" || ch == "visualization"
                                  || ch == "connection" || ch == "factsheet"
  {
  }

  datatype ParsedTopic = ParsedTopic(
    iface: string,
    version: string,
    manufacturer: string,
    serialNumber: string,
    channel: Channel)

  datatype ParseResult = Parsed(topic: ParsedTopic) | WrongSegmentCount | UnknownChannel

  datatype Resolver = Resolver(iface: string, version: string) {

    function Build(manufacturer: string, serial: string, ch: Channel): string {
      iface + "/" + version + "/" + manufacturer + "/" + serial + "/" + ch
    }

    function Wildcard(ch: Channel): string {
      Build("+", "+", ch)
    }

    function Parse(topic: string): ParseResult {
      var parts := Split(topic);
      if |parts| != 5 then WrongSegmentCount
      else if !ValidChannel(parts[4]) then UnknownChannel
      else Parsed(ParsedTopic(parts[0], parts[1], parts[2], parts[3], parts[4]))
    }
  }

  /** An AGV's protocol identity and the key both the fleet and the dispatcher index it by. */
  datatype AGV = AGV(manufacturer: string, serialNumber: string) {
    function Key(): string {
      manufacturer + "/" + serialNumber
    }
  }

  lemma ValidChannelsAreSlashFree(ch: Channel)
    requires ValidChannel(ch)
    ensures SlashFree(ch) && ch != "+" && ch != "#" && ch != ""
  {
    assert '/' !in ORDER && '/' !in INSTANT_ACTIONS && '/' !in STATE;
    assert '/' !in VISUALIZATION && '/' !in CONNECTION && '/' !in FACTSHEET;
    assert |ch| >= 5;
  }

  /** The levels of a built topic are the levels of its five arguments, in order. */
  lemma BuildLevels(r: Resolver, m: string, s: string, ch: Channel)
    ensures Split(r.Build(m, s, ch)) == Split(r.iface) + Split(r.version) + Split(m) + Split(s) + Split(ch)
  {
    var t3 := r.iface + "/" + r.version;
    var t2 := t3 + "/" + m;
    var t1 := t2 + "/" + s;
    SplitConcat(r.iface, r.version);
    SplitConcat(t3, m);
    SplitConcat(t2, s);
    SplitConcat(t1, ch);
  }

  /**
   A built topic parses exactly when its parts are separator-free and the
   channel is known, and then parsing gives the five parts back.
   */
  lemma ParseBuild(r: Resolver, m: string, s: string, ch: Channel)
    ensures r.Parse(r.Build(m, s, ch)).Parsed?
            <==> SlashFree(r.iface) && SlashFree(r.version) && SlashFree(m) && SlashFree(s) && ValidChannel(ch)
    ensures r.Parse(r.Build(m, s, ch)).Parsed?
            ==> r.Parse(r.Build(m, s, ch)).topic == ParsedTopic(r.iface, r.version, m, s, ch)
  {
    BuildLevels(r, m, s, ch);
    SplitSingle(r.iface);
    SplitSingle(r.version);
    SplitSingle(m);
    SplitSingle(s);
    SplitSingle(ch);
    if ValidChannel(ch) {
      ValidChannelsAreSlashFree(ch);
    }
    FiveLevels(Split(r.iface), Split(r.version), Split(m), Split(s), Split(ch));
  }

  /** Why a topic does not parse: not five levels or, if five, a channel that is not known. */
  lemma ParseFails(r: Resolver, topic: string)
    ensures r.Parse(topic).WrongSegmentCount? <==> |Split(topic)| != 5
    ensures r.Parse(topic).UnknownChannel? <==> |Split(topic)| == 5 && !ValidChannel(Split(topic)[4])
  {
  }

  lemma FiveLevels(a: seq<string>, b: seq<string>, c: seq<string>, d: seq<string>, e: seq<string>)
    requires |a| >= 1 && |b| >= 1 && |c| >= 1 && |d| >= 1 && |e| >= 1
    ensures |a + b + c + d + e| == 5 <==> |a| == |b| == |c| == |d| == |e| == 1
    ensures |a + b + c + d + e| == 5 ==> a + b + c + d + e == [a[0], b[0], c[0], d[0], e[0]]
  {
  }

  /** Rebuilding a parsed topic gives the original string back, for every topic. */
  lemma BuildParse(r: Resolver, topic: string)
    requires r.Parse(topic).Parsed?
    ensures var p := r.Parse(topic).topic;
            Resolver(p.iface, p.version).Build(p.manufacturer, p.serialNumber, p.channel) == topic
  {
    var p := Split(topic);
    JoinSplit(topic);
    JoinFive(p[0], p[1], p[2], p[3], p[4]);
    assert p == [p[0], p[1], p[2], p[3], p[4]];
  }

  lemma JoinFive(a: string, b: string, c: string, d: string, e: string)
    ensures Join([a, b, c, d, e]) == a + "/" + b + "/" + c + "/" + d + "/" + e
  {
    var j4 := d + "/" + e;
    var j3 := c + "/" + j4;
    var j2 := b + "/" + j3;
    assert Join([d, e]) == j4;
    assert Join([c, d, e]) == j3 by { assert [c, d, e][1..] == [d, e]; }
    assert Join([b, c, d, e]) == j2 by { assert [b, c, d, e][1..] == [c, d, e]; }
    assert Join([a, b, c, d, e]) == a + "/" + j2 by { assert [a, b, c, d, e][1..] == [b, c, d, e]; }
    AssociateFive(a, b, c, d, e);
  }

  lemma AssociateFive(a: string, b: string, c: string, d: string, e: string)
    ensures a + ("/" + (b + ("/" + (c + ("/" + (d + "/" + e)))))) == a + "/" + b + "/" + c + "/" + d + "/" + e
  {
  }

  /**
   The key is a faithful index of subscriptions: two AGVs get the same filter
   exactly when they have the same key and channel, whatever their names hold.
   */
  lemma BuildFaithful(r: Resolver, a: AGV, b: AGV, c: Channel, d: Channel)
    requires ValidChannel(c) && ValidChannel(d)
    ensures r.Build(a.manufacturer, a.serialNumber, c) == r.Build(b.manufacturer, b.serialNumber, d)
            <==> a.Key() == b.Key() && c == d
  {
    var pre := r.iface + "/" + r.version + "/";
    assert r.Build(a.manufacturer, a.serialNumber, c) == pre + a.Key() + "/" + c;
    assert r.Build(b.manufacturer, b.serialNumber, d) == pre + b.Key() + "/" + d;
    if r.Build(a.manufacturer, a.serialNumber, c) == r.Build(b.manufacturer, b.serialNumber, d) {
      SplitConcat(pre + a.Key(), c);
      SplitConcat(pre + b.Key(), d);
      ValidChannelsAreSlashFree(c);
      ValidChannelsAreSlashFree(d);
      SplitSingle(c);
      SplitSingle(d);
      var sa, sb := Split(pre + a.Key()), Split(pre + b.Key());
      assert sa == (sa + [c])[..|sa + [c]| - 1] == (sb + [d])[..|sb + [d]| - 1] == sb;
      assert c == (sa + [c])[|sa|] == (sb + [d])[|sb|] == d;
      JoinSplit(pre + a.Key());
      JoinSplit(pre + b.Key());
      assert (pre + a.Key())[|pre|..] == a.Key();
      assert (pre + b.Key())[|pre|..] == b.Key();
    }
  }

  /**
   The key is a faithful index of identities for AGVs whose serial numbers are
   separator-free, as those that came out of a topic are.
   */
  lemma KeyFaithful(a: AGV, b: AGV)
    requires SlashFree(a.serialNumber) && SlashFree(b.serialNumber)
    ensures a.Key() == b.Key() <==> a == b
  {
    SplitConcat(a.manufacturer, a.serialNumber);
    SplitConcat(b.manufacturer, b.serialNumber);
    SplitSingle(a.serialNumber);
    SplitSingle(b.serialNumber);
    if a.Key() == b.Key() {
      var sa, sb := Split(a.manufacturer), Split(b.manufacturer);
      assert a.serialNumber == Split(a.Key())[|Split(a.Key())| - 1] == b.serialNumber;
      assert sa == Split(a.Key())[..|Split(a.Key())| - 1] == sb;
      JoinSplit(a.manufacturer);
      JoinSplit(b.manufacturer);
    }
  }

  /** A key stands for one identity only, exactly when both parts of that identity are separator-free. */
  lemma KeyIdentifies(a: AGV)
    ensures (forall b: AGV :: a.Key() == b.Key() ==> a == b) <==> SlashFree(a.manufacturer) && SlashFree(a.serialNumber)
  {
    if SlashFree(a.manufacturer) && SlashFree(a.serialNumber) {
      forall b: AGV | a.Key() == b.Key()
        ensures a == b
      {
        SlashFreeKey(a, b);
      }
    } else {
      var b := KeyRival(a);
    }
  }

  lemma SlashFreeKey(a: AGV, b: AGV)
    requires SlashFree(a.manufacturer) && SlashFree(a.serialNumber) && a.Key() == b.Key()
    ensures a == b
  {
    SplitConcat(a.manufacturer, a.serialNumber);
    SplitConcat(b.manufacturer, b.serialNumber);
    SplitSingle(a.manufacturer);
    SplitSingle(a.serialNumber);
    SplitSingle(b.manufacturer);
    SplitSingle(b.serialNumber);
    var levels := Split(b.manufacturer) + Split(b.serialNumber);
    assert levels == [a.manufacturer, a.serialNumber];
    assert levels[0] == a.manufacturer && levels[1] == a.serialNumber;
  }

  /** Any identity with a separator in one of its parts shares its key with another one. */
  lemma KeyRival(a: AGV) returns (b: AGV)
    requires !(SlashFree(a.manufacturer) && SlashFree(a.serialNumber))
    ensures b != a && b.Key() == a.Key()
  {
    if !SlashFree(a.manufacturer) {
      var i := SlashIn(a.manufacturer);
      var l, r := a.manufacturer[..i], a.manufacturer[i + 1..];
      b := AGV(l, r + "/" + a.serialNumber);
      assert b.Key() == l + "/" + r + "/" + a.serialNumber;
    } else {
      var i := SlashIn(a.serialNumber);
      var l, r := a.serialNumber[..i], a.serialNumber[i + 1..];
      b := AGV(a.manufacturer + "/" + l, r);
      assert b.Key() == a.manufacturer + "/" + (l + "/" + r);
    }
  }

  lemma SlashIn(s: string) returns (i: nat)
    requires !SlashFree(s)
    ensures i < |s| && s == s[..i] + "/" + s[i + 1..]
  {
    i :| 0 <= i < |s| && s[i] == '/';
  }

  // ---- Routing of inbound topics -------------------------------------------

  /** The lane an inbound topic is queued on; connection and AGV lanes are keyed. */
  datatype Route = ToConnection(key: string) | ToAgv(key: string) | ToTopic

  function Classify(topic: string): Route {
    var parts := Split(topic);
    if |parts| < 5 then ToTopic
    else
      var channel := parts[|parts| - 1];
      var key := parts[|parts| - 3] + "/" + parts[|parts| - 2];
      if channel == CONNECTION then ToConnection(key)
      else if channel in [STATE, VISUALIZATION, FACTSHEET] then ToAgv(key)
      else ToTopic
  }

  predicate Droppable(topic: string) {
    var parts := Split(topic);
    |parts| >= 5 && parts[|parts| - 1] == VISUALIZATION
  }

  /** Routing agrees with parsing on every topic the parser accepts. */
  lemma RouteOfParsed(r: Resolver, topic: string)
    requires r.Parse(topic).Parsed?
    ensures var p := r.Parse(topic).topic;
            var key := AGV(p.manufacturer, p.serialNumber).Key();
            Classify(topic) == (if p.channel == CONNECTION then ToConnection(key)
                                else if p.channel in [STATE, VISUALIZATION, FACTSHEET] then ToAgv(key)
                                else ToTopic)
  {
  }

  /**
   The lane of any topic with four or more levels, whether or not the parser accepts it: with two or more levels
   in front, the last one decides and the two before it are the key; with one, it is a custom topic.
   */
  lemma RouteByLastLevels(before: string, m: string, s: string, ch: string)
    requires SlashFree(m) && SlashFree(s) && SlashFree(ch)
    ensures Classify(before + "/" + m + "/" + s + "/" + ch)
            == if SlashFree(before) then ToTopic
               else if ch == "connection" then ToConnection(m + "/" + s)
               else if ch == "state" || ch == "visualization" || ch == "factsheet" then ToAgv(m + "/" + s)
               else ToTopic
    ensures Droppable(before + "/" + m + "/" + s + "/" + ch) <==> !SlashFree(before) && ch == "visualization"
  {
    SplitConcat(before, m);
    SplitConcat(before + "/" + m, s);
    SplitConcat(before + "/" + m + "/" + s, ch);
    SplitSingle(before);
    SplitSingle(m);
    SplitSingle(s);
    SplitSingle(ch);
    LastThree(Split(before), m, s, ch);
  }

  lemma LastThree(a: seq<string>, m: string, s: string, ch: string)
    ensures var all := a + [m] + [s] + [ch]; var n := |all|;
            n == |a| + 3 && all[n - 3] == m && all[n - 2] == s && all[n - 1] == ch
  {
  }

  /** Every topic with four or more levels has that form, and a shorter one is a custom topic. */
  lemma LastLevels(topic: string) returns (before: string, m: string, s: string, ch: string)
    ensures if |Split(topic)| < 4 then Classify(topic) == ToTopic && !Droppable(topic)
            else SlashFree(m) && SlashFree(s) && SlashFree(ch) && topic == before + "/" + m + "/" + s + "/" + ch
  {
    before, m, s, ch := "", "", "", "";
    var parts := Split(topic);
    if |parts| >= 4 {
      var n := |parts| - 3;
      before, m, s, ch := Join(parts[..n]), parts[n], parts[n + 1], parts[n + 2];
      JoinSplit(topic);
      JoinLast(parts, n + 2);
      JoinLast(parts[..n + 2], n + 1);
      JoinLast(parts[..n + 1], n);
      assert parts[..n + 2][..n + 1] == parts[..n + 1] && parts[..n + 1][..n] == parts[..n];
    }
  }

  lemma {:induction false} JoinLast(parts: seq<string>, n: nat)
    requires |parts| == n + 1 && n >= 1
    ensures Join(parts) == Join(parts[..n]) + "/" + parts[n]
  {
    if n == 1 {
      assert Join(parts[1..]) == parts[1] && Join(parts[..1]) == parts[0];
    } else {
      JoinLast(parts[1..], n - 1);
      assert parts[..n][1..] == parts[1..][..n - 1];
    }
  }

  /** Two parsed topics share a keyed lane exactly when they name the same AGV and the same kind of lane. */
  lemma RouteFaithful(r: Resolver, t: string, u: string)
    requires r.Parse(t).Parsed? && r.Parse(u).Parsed?
    requires !Classify(t).ToTopic? && !Classify(u).ToTopic?
    ensures var p, q := r.Parse(t).topic, r.Parse(u).topic;
            Classify(t) == Classify(u)
            <==> p.manufacturer == q.manufacturer && p.serialNumber == q.serialNumber
                 && (p.channel == CONNECTION <==> q.channel == CONNECTION)
  {
    var p, q := r.Parse(t).topic, r.Parse(u).topic;
    RouteOfParsed(r, t);
    RouteOfParsed(r, u);
    assert SlashFree(Split(t)[3]) && SlashFree(Split(u)[3]);
    KeyFaithful(AGV(p.manufacturer, p.serialNumber), AGV(q.manufacturer, q.serialNumber));
  }

  /** Only messages of an AGV lane can be droppable, and there exactly the visualization ones are. */
  lemma DroppableRoute(topic: string)
    ensures Droppable(topic)
            <==> Classify(topic).ToAgv? && Split(topic)[|Split(topic)| - 1] == VISUALIZATION
  {
  }

  /** A keyed lane never has the empty key, so the fallback to the whole topic is never taken. */
  lemma RouteKeyNonEmpty(topic: string)
    requires !Classify(topic).ToTopic?
    ensures Classify(topic).key != ""
  {
    var parts := Split(topic);
    assert '/' in parts[|parts| - 3] + "/" + parts[|parts| - 2];
  }
}
