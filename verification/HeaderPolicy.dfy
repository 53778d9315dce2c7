/**
 The inbound header-id policy (inbound_policy.go): one watermark per
 manufacturer, serial number and channel, kept in a map with a joined key.
 */
module HeaderPolicy {
  import opened Subscriptions
  import opened Topics
  import opened Outbound

  datatype Disposition = Accept | Stale | Duplicate

  datatype Message = Message(agv: AGV, channel: Channel, headerId: uint32)

  /** The key under which watermarks are kept. */
  function Key(agv: AGV, channel: Channel): string {
    agv.manufacturer + "\0" + agv.serialNumber + "\0" + channel
  }

  predicate NulFree(agv: AGV) {
    '\0' !in agv.manufacturer && '\0' !in agv.serialNumber
  }

  /** With NUL characters two vehicles can share a watermark. */
  lemma KeyCollides(m: string, s: string, t: string, c: Channel)
    ensures Key(AGV(m + "\0" + s, t), c) == Key(AGV(m, s + "\0" + t), c)
  {
  }

  /** On the known channels a key stands for one identity and channel only, exactly when the identity is NUL-free. */
  lemma KeyIdentifies(a: AGV, c: Channel)
    requires ValidChannel(c)
    ensures (forall b, d: Channel | ValidChannel(d) :: Key(a, c) == Key(b, d) ==> a == b && c == d) <==> NulFree(a)
  {
    if NulFree(a) {
      forall b, d: Channel | ValidChannel(d) && Key(a, c) == Key(b, d)
        ensures a == b && c == d
      {
        NulFreeKey(a, c, b, d);
      }
    } else {
      var b := KeyRival(a, c);
    }
  }

  lemma ChannelsAreNulFree(c: Channel)
    requires ValidChannel(c)
    ensures '\0' !in c
  {
    assert '\0' !in ORDER && '\0' !in INSTANT_ACTIONS && '\0' !in STATE;
    assert '\0' !in VISUALIZATION && '\0' !in CONNECTION && '\0' !in FACTSHEET;
  }

  lemma NulFreeKey(a: AGV, c: Channel, b: AGV, d: Channel)
    requires NulFree(a) && ValidChannel(c) && ValidChannel(d) && Key(a, c) == Key(b, d)
    ensures a == b && c == d
  {
    hide ValidChannel;
    ChannelsAreNulFree(c);
    ChannelsAreNulFree(d);
    // From the right end: neither the channels nor the parts of a hold a separator.
    NulSplitsLast(a.manufacturer + "\0" + a.serialNumber, c, b.manufacturer + "\0" + b.serialNumber, d);
    NulFreeParts(a.manufacturer, a.serialNumber, b.manufacturer, b.serialNumber);
  }

  lemma NulSplitsLast(x: string, a: string, y: string, b: string)
    requires '\0' !in a && '\0' !in b && x + "\0" + a == y + "\0" + b
    ensures x == y && a == b
  {
    var l, r := x + "\0" + a, y + "\0" + b;
    assert l[|x|] == '\0' && r[|y|] == '\0';
    forall i | |x| < i < |l|
      ensures l[i] != '\0'
    {
      assert l[i] == a[i - |x| - 1];
    }
    forall i | |y| < i < |r|
      ensures r[i] != '\0'
    {
      assert r[i] == b[i - |y| - 1];
    }
    assert |x| <= |y| && |y| <= |x|;
    assert l[..|x|] == x && r[..|y|] == y && l[|x| + 1..] == a && r[|y| + 1..] == b;
  }

  /** Two NUL-free parts are recovered from their join, even if the other join was not known to be of such parts. */
  lemma NulFreeParts(m: string, s: string, m': string, s': string)
    requires '\0' !in m && '\0' !in s && m + "\0" + s == m' + "\0" + s'
    ensures m == m' && s == s'
  {
    var l, r := m + "\0" + s, m' + "\0" + s';
    assert r[|m'|] == '\0';
    forall i | 0 <= i < |l| && i != |m|
      ensures l[i] != '\0'
    {
      if i < |m| {
        assert l[i] == m[i];
      } else {
        assert l[i] == s[i - |m| - 1];
      }
    }
    assert |m'| == |m|;
    assert l[..|m|] == m && r[..|m'|] == m' && l[|m| + 1..] == s && r[|m'| + 1..] == s';
  }

  /** Any identity with a NUL shares its key with another one, on the same channel. */
  lemma KeyRival(a: AGV, c: Channel) returns (b: AGV)
    requires !NulFree(a)
    ensures b != a && Key(b, c) == Key(a, c)
  {
    if '\0' in a.manufacturer {
      var i :| 0 <= i < |a.manufacturer| && a.manufacturer[i] == '\0';
      var l, r := a.manufacturer[..i], a.manufacturer[i + 1..];
      assert a.manufacturer == l + "\0" + r;
      b := AGV(l, r + "\0" + a.serialNumber);
      KeyCollides(l, r, a.serialNumber, c);
    } else {
      var i :| 0 <= i < |a.serialNumber| && a.serialNumber[i] == '\0';
      var l, r := a.serialNumber[..i], a.serialNumber[i + 1..];
      assert a.serialNumber == l + "\0" + r;
      b := AGV(a.manufacturer + "\0" + l, r);
      KeyCollides(a.manufacturer, l, r, c);
    }
  }

  /** A topic name without NUL characters (section 4.7.3 of MQTT 3.1.1) yields such an identity. */
  lemma TopicNamesAreNulFree(r: Resolver, topic: string)
    requires r.Parse(topic).Parsed? && '\0' !in topic
    ensures NulFree(AGV(r.Parse(topic).topic.manufacturer, r.Parse(topic).topic.serialNumber))
  {
    var p := r.Parse(topic).topic;
    BuildParse(r, topic);
    hide Resolver.Parse;
    var before, after := p.iface + "/" + p.version + "/", "/" + p.channel;
    assert topic == before + p.manufacturer + "/" + p.serialNumber + after;
    PartsAreNulFree(before, p.manufacturer, p.serialNumber, after);
  }

  lemma PartsAreNulFree(before: string, m: string, s: string, after: string)
    requires '\0' !in before + m + "/" + s + after
    ensures '\0' !in m && '\0' !in s
  {
    assert forall c | c in m :: c in before + m;
  }

  // ---- What the policy should say --------------------------------------------------------

  /** The header ids of one identity and channel, in order of arrival. */
  ghost function Headers(stream: seq<Message>, agv: AGV, channel: Channel): seq<uint32> {
    if stream == [] then []
    else
      var m := stream[|stream| - 1];
      Headers(stream[..|stream| - 1], agv, channel) + if m.agv == agv && m.channel == channel then [m.headerId] else []
  }

  /** The strict left-to-right maxima of a sequence. */
  ghost function Records(ids: seq<uint32>): seq<uint32> {
    if ids == [] then []
    else
      var init, id := ids[..|ids| - 1], ids[|ids| - 1];
      Records(init) + if forall x | x in init :: x < id then [id] else []
  }

  /** The highest element of a nonempty sequence. */
  ghost predicate IsMax(ids: seq<uint32>, id: uint32) {
    id in ids && forall x | x in ids :: x <= id
  }

  // ---- The policy ----------------------------------------------------------------------------

  function Verdict(last: map<string, uint32>, key: string, headerId: uint32): Disposition {
    if key !in last then Accept
    else if headerId == last[key] then Duplicate
    else if headerId < last[key] then Stale
    else Accept
  }

  /** The watermarks after a stream. */
  ghost function Watermarks(stream: seq<Message>): map<string, uint32> {
    if stream == [] then map[]
    else
      var m := stream[|stream| - 1];
      var last := Watermarks(stream[..|stream| - 1]);
      if Verdict(last, Key(m.agv, m.channel), m.headerId).Accept? then last[Key(m.agv, m.channel) := m.headerId]
      else last
  }

  class HeaderSequencePolicy {
    var last: map<string, uint32>
    ghost var seen: seq<Message>

    ghost predicate Valid()
      reads this
    {
      last == Watermarks(seen)
    }

    constructor ()
      ensures Valid() && seen == []
    {
      last, seen := map[], [];
    }

    /** Classify: the watermark of the message's key moves on acceptance only. */
    method Classify(agv: AGV, channel: Channel, headerId: uint32) returns (d: Disposition)
      requires Valid()
      modifies this
      ensures Valid() && seen == old(seen) + [Message(agv, channel, headerId)]
      ensures d == Verdict(Watermarks(old(seen)), Key(agv, channel), headerId)
      ensures forall k | k != Key(agv, channel) :: (k in last <==> k in old(last)) && (k in last ==>
                last[k] == old(last)[k])
    {
      var key := Key(agv, channel);
      ghost var m := Message(agv, channel, headerId);
      assert (seen + [m])[..|seen|] == seen;
      seen := seen + [m];
      if key !in last {
        last := last[key := headerId];
        return Accept;
      }
      var prev := last[key];
      if headerId == prev {
        return Duplicate;
      }
      if headerId < prev {
        return Stale;
      }
      last := last[key := headerId];
      return Accept;
    }
  }

  // ---- The two agree ----------------------------------------------------------------------------

  lemma MaxSnoc(ids: seq<uint32>, max: Option<uint32>, id: uint32)
    requires if max.Some? then IsMax(ids, max.value) else ids == []
    ensures IsMax(ids + [id], if max.Some? && max.value >= id then max.value else id)
    ensures (forall x | x in ids :: x < id) <==> max.None? || max.value < id
  {
  }

  ghost function Mark(stream: seq<Message>, agv: AGV, channel: Channel): Option<uint32> {
    var last, key := Watermarks(stream), Key(agv, channel);
    if key in last then Some(last[key]) else None
  }

  /** The messages are on channels of the protocol; nothing is asked of their identities. */
  ghost predicate KnownChannels(stream: seq<Message>) {
    forall m | m in stream :: ValidChannel(m.channel)
  }

  /** The watermark of a NUL-free identity is the highest header id it has sent, whatever else is in the stream. */
  lemma {:induction false} MarkIsMax(stream: seq<Message>, agv: AGV, channel: Channel)
    requires KnownChannels(stream) && NulFree(agv) && ValidChannel(channel)
    ensures var mark, ids := Mark(stream, agv, channel), Headers(stream, agv, channel);
            if mark.Some? then IsMax(ids, mark.value) else ids == []
  {
    if stream != [] {
      var init, m := stream[..|stream| - 1], stream[|stream| - 1];
      assert m in stream;
      MarkIsMax(init, agv, channel);
      if Key(m.agv, m.channel) == Key(agv, channel) {
        NulFreeKey(agv, channel, m.agv, m.channel);
      }
      MaxSnoc(Headers(init, agv, channel), Mark(init, agv, channel), m.headerId);
      MarkSnoc(stream, agv, channel);
      hide Headers, Watermarks, Key, IsMax, Mark;
      assert Headers(init, agv, channel) + [] == Headers(init, agv, channel);
      HeadersSnoc(stream, agv, channel);
    }
  }

  lemma HeadersSnoc(stream: seq<Message>, agv: AGV, channel: Channel)
    requires stream != []
    ensures var m := stream[|stream| - 1];
            Headers(stream, agv, channel)
            == Headers(stream[..|stream| - 1], agv, channel)
               + if m.agv == agv && m.channel == channel then [m.headerId] else []
  {
  }

  /** A message moves its own key's watermark, upwards only. */
  lemma MarkSnoc(stream: seq<Message>, agv: AGV, channel: Channel)
    requires stream != []
    ensures var m, was := stream[|stream| - 1], Mark(stream[..|stream| - 1], agv, channel);
            Mark(stream, agv, channel)
            == if Key(m.agv, m.channel) != Key(agv, channel) || (was.Some? && was.value >= m.headerId) then was
               else Some(m.headerId)
  {
  }

  /**
   Each message is classified by the earlier header ids of its own identity and channel alone:
   accepted above all of them, a duplicate of the highest, stale below it.
   */
  lemma VerdictMeans(stream: seq<Message>, m: Message)
    requires KnownChannels(stream) && ValidChannel(m.channel) && NulFree(m.agv)
    ensures VerdictFits(stream, m)
  {
    MarkIsMax(stream, m.agv, m.channel);
  }

  ghost predicate VerdictFits(stream: seq<Message>, m: Message) {
    var d, ids := Verdict(Watermarks(stream), Key(m.agv, m.channel), m.headerId), Headers(stream, m.agv, m.channel);
    && (d.Accept? <==> forall x | x in ids :: x < m.headerId)
    && (d.Duplicate? <==> IsMax(ids, m.headerId))
    && (d.Stale? <==> exists x :: x in ids && m.headerId < x)
  }

  /** Exactly when an identity is judged by its own messages, in every stream: when it holds no NUL. */
  lemma VerdictExactly(agv: AGV, channel: Channel)
    requires ValidChannel(channel)
    ensures (forall stream, id: uint32 | KnownChannels(stream) :: VerdictFits(stream, Message(agv, channel, id)))
            <==> NulFree(agv)
  {
    hide ValidChannel, VerdictFits;
    if NulFree(agv) {
      forall stream, id: uint32 | KnownChannels(stream)
        ensures VerdictFits(stream, Message(agv, channel, id))
      {
        VerdictMeans(stream, Message(agv, channel, id));
      }
    } else {
      var b := KeyRival(agv, channel);
      var m := Message(b, channel, 1);
      FirstIsTaken(m, agv);
      assert KnownChannels([m]) && !VerdictFits([m], Message(agv, channel, 1));
    }
  }

  /** One message of a rival is enough to turn away the first one of an identity that shares its key. */
  lemma FirstIsTaken(m: Message, agv: AGV)
    requires m.agv != agv && Key(m.agv, m.channel) == Key(agv, m.channel)
    ensures !VerdictFits([m], Message(agv, m.channel, m.headerId))
  {
    hide Key;
    assert [m][..0] == [];
    assert Headers([], agv, m.channel) == [] && Watermarks([]) == map[];
    assert Headers([m], agv, m.channel) == [];
    assert Watermarks([m]) == map[Key(agv, m.channel) := m.headerId];
  }

  /** The header ids the policy accepts from one identity and channel. */
  ghost function AcceptedIds(stream: seq<Message>, agv: AGV, channel: Channel): seq<uint32> {
    if stream == [] then []
    else
      var init, m := stream[..|stream| - 1], stream[|stream| - 1];
      AcceptedIds(init, agv, channel)
      + if m.agv == agv && m.channel == channel && Verdict(Watermarks(init), Key(m.agv, m.channel), m.headerId).Accept?
        then [m.headerId] else []
  }

  lemma RecordsSnoc(ids: seq<uint32>, id: uint32)
    ensures Records(ids + [id]) == Records(ids) + if forall x | x in ids :: x < id then [id] else []
  {
    assert (ids + [id])[..|ids|] == ids;
  }

  /** In any interleaving, what is accepted from one identity and channel is exactly its records. */
  lemma {:induction false} AcceptedAreRecords(stream: seq<Message>, agv: AGV, channel: Channel)
    requires KnownChannels(stream) && NulFree(agv) && ValidChannel(channel)
    ensures AcceptedIds(stream, agv, channel) == Records(Headers(stream, agv, channel))
  {
    if stream != [] {
      var init, m := stream[..|stream| - 1], stream[|stream| - 1];
      AcceptedAreRecords(init, agv, channel);
      assert m in stream;
      if m.agv == agv && m.channel == channel {
        VerdictMeans(init, m);
      }
      HeadersSnoc(stream, agv, channel);
      RecordsSnoc(Headers(init, agv, channel), m.headerId);
      hide Headers, Records, Watermarks, Key, Verdict;
      assert Headers(init, agv, channel) + [] == Headers(init, agv, channel);
      assert AcceptedIds(init, agv, channel) + [] == AcceptedIds(init, agv, channel);
    }
  }

  /** Records increase strictly, so no header id is accepted twice. */
  lemma {:induction false} RecordsIncrease(ids: seq<uint32>)
    ensures forall x | x in Records(ids) :: x in ids
    ensures forall i, j | 0 <= i < j < |Records(ids)| :: Records(ids)[i] < Records(ids)[j]
  {
    if ids != [] {
      RecordsIncrease(ids[..|ids| - 1]);
      var rest := Records(ids[..|ids| - 1]);
      assert forall i | 0 <= i < |rest| :: rest[i] in rest;
      assert ids == ids[..|ids| - 1] + [ids[|ids| - 1]];
    }
  }
}
