/**
 Topic filters: the matcher of the in-process broker (testkit/fake_broker.go),
 proved against section 4.7 of MQTT 3.1.1, and the filters a client subscribes
 (client.go).
 */
module Filters {
  import opened Segments
  import opened Topics

  /** Level by level comparison in which both wildcards stand for exactly one level. */
  ghost predicate LevelsMatch(fp: seq<string>, tp: seq<string>) {
    |fp| == |tp| && forall i | 0 <= i < |fp| :: fp[i] == "+" || fp[i] == "#" || fp[i] == tp[i]
  }

  ghost predicate Matches(filter: string, topic: string) {
    LevelsMatch(Split(filter), Split(topic))
  }

  method MatchFilter(filter: string, topic: string) returns (ok: bool)
    ensures ok <==> Matches(filter, topic)
  {
    var fp := Split(filter);
    var tp := Split(topic);
    if |fp| != |tp| {
      return false;
    }
    for i := 0 to |fp|
      invariant LevelsMatch(fp[..i], tp[..i])
    {
      if fp[i] == "+" || fp[i] == "#" {
        continue;
      }
      if fp[i] != tp[i] {
        return false;
      }
    }
    return true;
  }

  /** MQTT 3.1.1, section 4.7.1: '+' stands for one level, a final '#' for any number of levels. */
  ghost predicate MqttLevels(fp: seq<string>, tp: seq<string>) {
    if fp == [] then tp == []
    else if fp[0] == "#" then |fp| == 1
    else tp != [] && (fp[0] == "+" || fp[0] == tp[0]) && MqttLevels(fp[1..], tp[1..])
  }

  ghost predicate StartsWithDollar(topic: string) {
    topic != "" && topic[0] == '$'
  }

  /** Section 4.7.2: a filter that starts with a wildcard never matches a topic that starts with '$'. */
  ghost predicate MqttMatches(filter: string, topic: string) {
    && !(StartsWithDollar(topic) && Split(filter)[0] in ["+", "#"])
    && MqttLevels(Split(filter), Split(topic))
  }

  /** Section 4.7.1.2: '#' may only be the last level. */
  ghost predicate WellFormed(fp: seq<string>) {
    forall i | 0 <= i < |fp| - 1 :: fp[i] != "#"
  }

  lemma {:induction false} LevelsMatchIsMqtt(fp: seq<string>, tp: seq<string>)
    requires WellFormed(fp)
    ensures LevelsMatch(fp, tp) <==> MqttLevels(fp, tp) && |fp| == |tp|
  {
    if fp == [] || tp == [] {
    } else {
      LevelsMatchIsMqtt(fp[1..], tp[1..]);
      if LevelsMatch(fp, tp) {
        assert forall i | 0 <= i < |fp| - 1 :: fp[1..][i] == fp[i + 1] && tp[1..][i] == tp[i + 1];
      }
      if LevelsMatch(fp[1..], tp[1..]) && (fp[0] == "+" || fp[0] == "#" || fp[0] == tp[0]) {
        assert forall i | 1 <= i < |fp| :: fp[i] == fp[1..][i - 1] && tp[i] == tp[1..][i - 1];
      }
    }
  }

  lemma {:induction false} HashFreeKeepsLevelCount(fp: seq<string>, tp: seq<string>)
    requires "#" !in fp && MqttLevels(fp, tp)
    ensures |fp| == |tp|
  {
    if fp != [] {
      HashFreeKeepsLevelCount(fp[1..], tp[1..]);
    }
  }

  /**
   The broker's matcher against the standard, for every legal filter and every
   topic: it agrees up to the number of levels, except for '$' topics under a
   leading wildcard, which it does not treat specially.
   */
  lemma MatcherAgainstStandard(filter: string, topic: string)
    requires WellFormed(Split(filter))
    ensures !(StartsWithDollar(topic) && Split(filter)[0] in ["+", "#"]) ==>
              (Matches(filter, topic) <==> MqttMatches(filter, topic) && |Split(filter)| == |Split(topic)|)
    ensures "#" !in Split(filter) ==>
              ((Matches(filter, topic) <==> MqttMatches(filter, topic))
               <==> !(StartsWithDollar(topic) && Split(filter)[0] == "+" && Matches(filter, topic)))
  {
    LevelsMatchIsMqtt(Split(filter), Split(topic));
    if "#" !in Split(filter) && MqttLevels(Split(filter), Split(topic)) {
      HashFreeKeepsLevelCount(Split(filter), Split(topic));
    }
  }

  /** The level count matters: a trailing '#' does not reach below its own level in this broker. */
  lemma TrailingHashFallsShort()
    ensures MqttMatches("a/#", "a/b/c") && !Matches("a/#", "a/b/c")
  {
    SplitJoinForward(["a", "#"]);
    SplitJoinForward(["a", "b", "c"]);
    assert Join(["a", "#"]) == "a/#";
    assert Join(["b", "c"]) == "b/c" && ["a", "b", "c"][1..] == ["b", "c"];
    assert Join(["a", "b", "c"]) == "a/b/c";
    assert MqttLevels(["#"], ["b", "c"]);
    assert ["a", "#"][1..] == ["#"];
  }

  /** client.go: an identity part left empty is a single-level wildcard. */
  function SubscriptionFilter(r: Resolver, manufacturer: string, serial: string, ch: Channel): string {
    r.Build(if manufacturer == "" then "+" else manufacturer, if serial == "" then "+" else serial, ch)
  }

  /** What a configured identity part admits. */
  ghost predicate Admits(pin: string, part: string) {
    pin == "" || pin == "+" || pin == "#" || pin == part
  }

  /**
   A client's filter receives exactly the topics of the subscribed channel
   whose identity the configuration admits.
   */
  lemma SubscriptionSelects(r: Resolver, pinM: string, pinS: string, subscribed: Channel,
                            m: string, s: string, ch: Channel)
    requires SlashFree(r.iface) && SlashFree(r.version)
    requires SlashFree(pinM) && SlashFree(pinS) && SlashFree(m) && SlashFree(s)
    requires ValidChannel(subscribed) && ValidChannel(ch)
    ensures Matches(SubscriptionFilter(r, pinM, pinS, subscribed), r.Build(m, s, ch))
            <==> subscribed == ch && Admits(pinM, m) && Admits(pinS, s)
  {
    var fm := if pinM == "" then "+" else pinM;
    var fs := if pinS == "" then "+" else pinS;
    assert SlashFree("+");
    ValidChannelsAreSlashFree(subscribed);
    ValidChannelsAreSlashFree(ch);
    LevelsOfBuild(r, fm, fs, subscribed);
    LevelsOfBuild(r, m, s, ch);
    var fp, tp := [r.iface, r.version, fm, fs, subscribed], [r.iface, r.version, m, s, ch];
    assert LevelsMatch(fp, tp) <==> (fm == "+" || fm == "#" || fm == m) && (fs == "+" || fs == "#" || fs == s)
                                    && subscribed == ch by {
      if LevelsMatch(fp, tp) {
        assert fp[2] == fm && fp[3] == fs && fp[4] == subscribed;
      }
    }
  }

  /** The fleet's wildcard receives exactly the topics of its channel, whatever the AGV. */
  lemma WildcardSelects(r: Resolver, subscribed: Channel, m: string, s: string, ch: Channel)
    requires SlashFree(r.iface) && SlashFree(r.version) && SlashFree(m) && SlashFree(s)
    requires ValidChannel(subscribed) && ValidChannel(ch)
    ensures Matches(r.Wildcard(subscribed), r.Build(m, s, ch)) <==> subscribed == ch
  {
    SubscriptionSelects(r, "", "", subscribed, m, s, ch);
  }

  /** These filters are legal and use no multi-level wildcard, so that the standard agrees with this broker on them. */
  lemma FiltersAreLegal(r: Resolver, pinM: string, pinS: string, ch: Channel)
    requires SlashFree(r.iface) && SlashFree(r.version) && SlashFree(pinM) && SlashFree(pinS) && ValidChannel(ch)
    requires r.iface != "#" && r.version != "#" && pinM != "#" && pinS != "#"
    ensures "#" !in Split(SubscriptionFilter(r, pinM, pinS, ch)) && "#" !in Split(r.Wildcard(ch))
    ensures WellFormed(Split(SubscriptionFilter(r, pinM, pinS, ch))) && WellFormed(Split(r.Wildcard(ch)))
  {
    ValidChannelsAreSlashFree(ch);
    assert SlashFree("+");
    LevelsOfBuild(r, if pinM == "" then "+" else pinM, if pinS == "" then "+" else pinS, ch);
    LevelsOfBuild(r, "+", "+", ch);
  }

  /** An AGV's own filter receives exactly its topics of the channel; a part that is a wildcard admits any. */
  lemma OwnSelects(r: Resolver, owner: AGV, subscribed: Channel, m: string, s: string, ch: Channel)
    requires SlashFree(r.iface) && SlashFree(r.version) && SlashFree(m) && SlashFree(s)
    requires ValidChannel(subscribed) && ValidChannel(ch)
    ensures Matches(r.Build(owner.manufacturer, owner.serialNumber, subscribed), r.Build(m, s, ch))
            <==> subscribed == ch && Covers(owner.manufacturer, m) && Covers(owner.serialNumber, s)
  {
    ValidChannelsAreSlashFree(subscribed);
    ValidChannelsAreSlashFree(ch);
    LevelsOfBuild(r, m, s, ch);
    var a, b := owner.manufacturer, owner.serialNumber;
    if SlashFree(a) && SlashFree(b) {
      LevelsOfBuild(r, a, b, subscribed);
      FiveMatch(r, a, b, subscribed, m, s, ch);
    } else {
      BuildLevels(r, a, b, subscribed);
      SplitSingle(a);
      SplitSingle(b);
    }
  }

  /** What an identity part that is used in a filter as it is admits. */
  ghost predicate Covers(pin: string, part: string) {
    pin == "+" || pin == "#" || pin == part
  }

  lemma FiveMatch(r: Resolver, a: string, b: string, subscribed: Channel, m: string, s: string, ch: Channel)
    requires subscribed != "+" && subscribed != "#"
    ensures LevelsMatch([r.iface, r.version, a, b, subscribed], [r.iface, r.version, m, s, ch])
            <==> subscribed == ch && Covers(a, m) && Covers(b, s)
  {
    var fp, tp := [r.iface, r.version, a, b, subscribed], [r.iface, r.version, m, s, ch];
    if LevelsMatch(fp, tp) {
      assert fp[2] == a && fp[3] == b && fp[4] == subscribed;
    }
  }

  lemma LevelsOfBuild(r: Resolver, m: string, s: string, ch: Channel)
    requires SlashFree(r.iface) && SlashFree(r.version) && SlashFree(m) && SlashFree(s) && SlashFree(ch)
    ensures Split(r.Build(m, s, ch)) == [r.iface, r.version, m, s, ch]
  {
    BuildLevels(r, m, s, ch);
    SplitSingle(r.iface);
    SplitSingle(r.version);
    SplitSingle(m);
    SplitSingle(s);
    SplitSingle(ch);
  }
}
