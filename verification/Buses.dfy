/**
 The in-process event bus (internal/bus/memory.go) and the client's typed
 handlers on it (eventbus_client.go, inbound.go). A handler is a number; what
 it does when called, including subscribing and unsubscribing on the same bus,
 is given by a reaction.
 */
module Buses {
  import opened Streams
  import opened Subscriptions
  import opened Topics

  datatype Payload = Event(channel: Channel, message: nat) | Custom(message: nat)

  /** A handler as the bus sees it: wrapped for one channel's events, or subscribed as it is. */
  datatype Handler = Typed(channel: Channel, id: nat) | Plain(id: nat)

  datatype Subscription = Subscription(id: nat, handler: Handler)

  /** What a handler does to the bus while it runs. */
  datatype Op = DoSubscribe(event: string, handler: Handler) | DoUnsubscribe(event: string, id: nat)

  datatype Reaction = Reaction(ops: seq<Op>, failed: bool)

  // ---- Lists of subscriptions --------------------------------------------------------

  function Without(subs: seq<Subscription>, id: nat): seq<Subscription> {
    if subs == [] then []
    else if subs[0].id == id then subs[1..]
    else [subs[0]] + Without(subs[1..], id)
  }

  ghost predicate Rising(subs: seq<Subscription>) {
    forall i, j | 0 <= i < j < |subs| :: subs[i].id < subs[j].id
  }

  ghost predicate Holds(subs: seq<Subscription>, id: nat) {
    exists s :: s in subs && s.id == id
  }

  /** With rising ids a removal takes out the one entry with the id, if there is one, and keeps
    * the order of the rest. */
  lemma WithoutMeans(subs: seq<Subscription>, id: nat)
    requires Rising(subs)
    ensures Rising(Without(subs, id)) && !Holds(Without(subs, id), id)
    ensures forall s :: s in Without(subs, id) <==> s in subs && s.id != id
    ensures |Without(subs, id)| == |subs| - if Holds(subs, id) then 1 else 0
    ensures Without(Without(subs, id), id) == Without(subs, id)
  {
    WithoutKeepsOrder(subs, id);
    WithoutLength(subs, id);
    NothingToRemove(Without(subs, id), id);
  }

  lemma {:induction false} WithoutKeepsOrder(subs: seq<Subscription>, id: nat)
    requires Rising(subs)
    ensures Rising(Without(subs, id)) && forall s :: s in Without(subs, id) <==> s in subs && s.id != id
  {
    if subs != [] {
      var rest := subs[1..];
      assert subs == [subs[0]] + rest;
      WithoutKeepsOrder(rest, id);
      RestIsAbove(subs);
      if subs[0].id != id {
        RisingCons(subs[0], Without(rest, id));
      }
    }
  }

  lemma RestIsAbove(subs: seq<Subscription>)
    requires Rising(subs) && subs != []
    ensures forall s | s in subs[1..] :: s.id > subs[0].id
  {
  }

  lemma RisingCons(s: Subscription, subs: seq<Subscription>)
    requires Rising(subs) && forall t | t in subs :: t.id > s.id
    ensures Rising([s] + subs)
  {
    assert forall i | 0 <= i < |subs| :: subs[i] in subs;
  }

  lemma {:induction false} WithoutLength(subs: seq<Subscription>, id: nat)
    ensures |Without(subs, id)| == |subs| - if Holds(subs, id) then 1 else 0
  {
    if subs != [] {
      assert subs == [subs[0]] + subs[1..];
      WithoutLength(subs[1..], id);
      assert Holds(subs, id) <==> subs[0].id == id || Holds(subs[1..], id);
    }
  }

  lemma {:induction false} NothingToRemove(subs: seq<Subscription>, id: nat)
    requires !Holds(subs, id)
    ensures Without(subs, id) == subs
  {
    if subs != [] {
      assert subs[0] in subs;
      forall s | s in subs[1..]
        ensures s.id != id
      {
        assert s in subs;
      }
      NothingToRemove(subs[1..], id);
    }
  }

  lemma {:induction false} WithoutAt(subs: seq<Subscription>, id: nat, k: nat)
    requires k <= |subs| && forall i | 0 <= i < k :: subs[i].id != id
    ensures k < |subs| && subs[k].id == id ==> Without(subs, id) == subs[..k] + subs[k + 1..]
    ensures k == |subs| ==> Without(subs, id) == subs
  {
    if k > 0 {
      WithoutAt(subs[1..], id, k - 1);
      assert subs == [subs[0]] + subs[1..];
    }
  }

  /** append(list[:k], list[k+1:]...): the entries behind k move down in the same backing array. */
  method ShiftDown(list: array<Subscription>, k: nat, count: nat)
    requires k < count <= list.Length
    modifies list
    ensures list[..count - 1] == old(list[..k]) + old(list[k + 1..count])
    ensures list[count..] == old(list[count..])
  {
    var i := k;
    while i + 1 < count
      invariant k <= i < count
      invariant forall j | 0 <= j < i :: list[j] == old(if j < k then list[j] else list[j + 1])
      invariant forall j | i < j < list.Length :: list[j] == old(list[j])
    {
      list[i] := list[i + 1];
      i := i + 1;
    }
  }

  /** The removal as Go does it: the first entry with the id is found and shifted out in place. */
  method DeleteInPlace(list: array<Subscription>, count: nat, id: nat) returns (left: nat)
    requires count <= list.Length
    modifies list
    ensures left <= count && list[..left] == Without(old(list[..count]), id)
    ensures list[count..] == old(list[count..])
  {
    hide Without;
    ghost var was := list[..count];
    var i := 0;
    while i < count
      invariant 0 <= i <= count && list[..] == old(list[..])
      invariant forall j | 0 <= j < i :: was[j].id != id
    {
      if list[i].id == id {
        WithoutAt(was, id, i);
        assert was[..i] == list[..i] && was[i + 1..] == list[i + 1..count];
        ShiftDown(list, i, count);
        return count - 1;
      }
      i := i + 1;
    }
    WithoutAt(was, id, count);
    return count;
  }

  // ---- The bus --------------------------------------------------------------------------

  datatype State = State(nextID: nat, subs: map<string, seq<Subscription>>)

  function ListOf(s: State, event: string): seq<Subscription> {
    if event in s.subs then s.subs[event] else []
  }

  function Perform(s: State, op: Op): State {
    match op
    case DoSubscribe(event, h) =>
      State(s.nextID + 1, s.subs[event := ListOf(s, event) + [Subscription(s.nextID + 1, h)]])
    case DoUnsubscribe(event, id) =>
      if event in s.subs then s.(subs := s.subs[event := Without(s.subs[event], id)]) else s
  }

  function PerformAll(s: State, ops: seq<Op>): State
    decreases ops
  {
    if ops == [] then s else PerformAll(Perform(s, ops[0]), ops[1..])
  }

  lemma {:induction false} PerformConcat(s: State, a: seq<Op>, b: seq<Op>)
    ensures PerformAll(s, a + b) == PerformAll(PerformAll(s, a), b)
    decreases a
  {
    if a == [] {
      assert a + b == b;
    } else {
      assert (a + b)[1..] == a[1..] + b;
      PerformConcat(Perform(s, a[0]), a[1..], b);
    }
  }

  /** Ids rise in every list and have all been issued. */
  ghost predicate Ordered(s: State) {
    forall event | event in s.subs ::
      Rising(s.subs[event]) && forall sub | sub in s.subs[event] :: sub.id <= s.nextID
  }

  lemma PerformKeepsOrder(s: State, op: Op)
    requires Ordered(s)
    ensures Ordered(Perform(s, op))
  {
    var list := ListOf(s, op.event);
    match op
    case DoSubscribe(event, h) =>
      assert forall i | 0 <= i < |list| :: list[i] in list;
    case DoUnsubscribe(event, id) =>
      WithoutMeans(list, id);
  }

  /** Over any run of subscriptions and removals, reentrant or not, the ids of every list keep rising. */
  lemma {:induction false} OrderIsKept(s: State, ops: seq<Op>)
    requires Ordered(s)
    ensures Ordered(PerformAll(s, ops))
    decreases ops
  {
    if ops != [] {
      PerformKeepsOrder(s, ops[0]);
      OrderIsKept(Perform(s, ops[0]), ops[1..]);
    }
  }

  // ---- Delivery ----------------------------------------------------------------------------

  /** Does the payload reach the handler behind the wrapper? */
  predicate Reaches(h: Handler, p: Payload) {
    h.Plain? || (p.Event? && p.channel == h.channel)
  }

  function ReactionOf(h: Handler, p: Payload, react: (nat, Payload) -> Reaction): Reaction {
    if Reaches(h, p) then react(h.id, p) else Reaction([], false)
  }

  datatype Delivery = Delivery(calls: seq<nat>, ops: seq<Op>, failed: bool)

  /** Calls a list of handlers in order and stops at the first error. */
  function Deliver(hs: seq<Handler>, p: Payload, react: (nat, Payload) -> Reaction): Delivery {
    if hs == [] then Delivery([], [], false)
    else
      var r := ReactionOf(hs[0], p, react);
      var called := if Reaches(hs[0], p) then [hs[0].id] else [];
      if r.failed then Delivery(called, r.ops, true)
      else
        var rest := Deliver(hs[1..], p, react);
        Delivery(called + rest.calls, r.ops + rest.ops, rest.failed)
  }

  ghost function IdsOf(hs: seq<Handler>): seq<nat> {
    seq(|hs|, i requires 0 <= i < |hs| => hs[i].id)
  }

  /** The payload is for the handler: it is a plain one, or one for the channel of the event. */
  ghost function For(p: Payload): Handler -> bool {
    (h: Handler) => h.Plain? || (p.Event? && p.channel == h.channel)
  }

  /** The handlers behind the first n entries that the payload is for. */
  ghost function ReachedIn(hs: seq<Handler>, p: Payload, n: nat): seq<nat>
    requires n <= |hs|
  {
    IdsOf(Filter(hs[..n], For(p)))
  }

  /** A handler fails on a payload that reaches it, or not at all. */
  ghost predicate FailsOn(h: Handler, p: Payload, react: (nat, Payload) -> Reaction) {
    For(p)(h) && react(h.id, p).failed
  }

  /**
   Delivery is to all handlers that the payload is for, in order, if none of them fails; and otherwise to those up to
   and including the first that does.
   */
  lemma {:induction false} DeliverMeans(hs: seq<Handler>, p: Payload, react: (nat, Payload) -> Reaction)
    returns (n: nat)
    ensures n <= |hs| && Deliver(hs, p, react).calls == ReachedIn(hs, p, n)
    ensures if Deliver(hs, p, react).failed then n > 0 && FailsOn(hs[n - 1], p, react) else n == |hs|
    ensures forall i | 0 <= i < n && !(Deliver(hs, p, react).failed && i == n - 1) :: !FailsOn(hs[i], p, react)
  {
    n := 0;
    if hs != [] {
      hide ReachedIn;
      ReachedNone(hs, p);
      ReachedNone(hs[1..], p);
      if ReactionOf(hs[0], p, react).failed {
        n := 1;
        ReachedMore(hs, p, 0);
      } else {
        var rest := DeliverMeans(hs[1..], p, react);
        n := rest + 1;
        ReachedMore(hs, p, rest);
        assert forall i | 1 <= i < n :: hs[i] == hs[1..][i - 1];
      }
    } else {
      ReachedNone(hs, p);
    }
  }

  lemma ReachedNone(hs: seq<Handler>, p: Payload)
    ensures ReachedIn(hs, p, 0) == []
  {
  }

  lemma ReachedMore(hs: seq<Handler>, p: Payload, n: nat)
    requires n < |hs|
    ensures ReachedIn(hs, p, n + 1) == (if Reaches(hs[0], p) then [hs[0].id] else []) + ReachedIn(hs[1..], p, n)
  {
    hide Filter;
    assert hs[..n + 1] == [hs[0]] + hs[1..][..n];
    FilterConcat([hs[0]], hs[1..][..n], For(p));
    FilterOne(hs[0], For(p));
    IdsOfConcat(if Reaches(hs[0], p) then [hs[0]] else [], Filter(hs[1..][..n], For(p)));
  }

  lemma IdsOfConcat(a: seq<Handler>, b: seq<Handler>)
    ensures IdsOf(a + b) == IdsOf(a) + IdsOf(b)
  {
  }

  lemma FilterOne(h: Handler, keep: Handler -> bool)
    ensures Filter([h], keep) == if keep(h) then [h] else []
  {
    assert [h][..0] == [] && [h][1..] == [];
  }

  function HandlersOf(subs: seq<Subscription>): seq<Handler> {
    seq(|subs|, i requires 0 <= i < |subs| => subs[i].handler)
  }

  /** A Go slice: the backing array and the length. Appending and deleting in place write the array. */
  datatype Slice = Slice(data: array<Subscription>, count: nat)

  /** append: in place while the capacity lasts, and into a larger array after that. */
  method Append(s: Slice, x: Subscription) returns (r: Slice)
    requires s.count <= s.data.Length
    modifies s.data
    ensures r.count == s.count + 1 <= r.data.Length && r.data[..r.count] == old(s.data[..s.count]) + [x]
    ensures r.data == s.data || fresh(r.data)
    ensures s.data[..s.count] == old(s.data[..s.count])
  {
    var data := s.data;
    if s.count == data.Length {
      data := new Subscription[2 * s.count + 1](_ => x);
      for i := 0 to s.count
        invariant data[..i] == s.data[..i] && s.data[..] == old(s.data[..])
      {
        data[i] := s.data[i];
      }
    }
    data[s.count] := x;
    r := Slice(data, s.count + 1);
  }

  /**
   Why Publish copies first: when the handler at position i unsubscribes itself, the entry that comes next
   has moved into its place, so a walk over the live array that goes on at i + 1 misses it.
   */
  method LiveWalkMisses(list: array<Subscription>, count: nat, i: nat)
    requires count <= list.Length && Rising(list[..count]) && i + 1 < count
    modifies list
    ensures list[i] == old(list[i + 1])
    ensures forall j | i + 1 <= j < count - 1 :: list[j] == old(list[j + 1])
  {
    ghost var was := list[..count];
    assert was[i].id == list[i].id;
    WithoutAt(was, list[i].id, i);
    var left := DeleteInPlace(list, count, list[i].id);
    assert list[..left] == was[..i] + was[i + 1..];
    assert list[..left][i] == was[i + 1];
    forall j | i + 1 <= j < count - 1
      ensures list[j] == was[j + 1]
    {
      assert list[..left][j] == was[j + 1];
    }
  }

  class Memory {
    var nextID: nat
    var subs: map<string, Slice>
    /** The backing arrays, one per event. */
    ghost var arrays: set<array<Subscription>>

    ghost predicate Shape()
      reads this`subs, this`arrays
    {
      && (forall e | e in subs :: subs[e].data in arrays && subs[e].count <= subs[e].data.Length)
      && (forall e, f | e in subs && f in subs && e != f :: subs[e].data != subs[f].data)
    }

    ghost function Abs(): State
      requires Shape()
      reads this, arrays
    {
      State(nextID, map e | e in subs :: subs[e].data[..subs[e].count])
    }

    ghost predicate Valid()
      reads this, arrays
    {
      Shape() && Ordered(Abs())
    }

    ghost function Handlers(event: string): seq<Handler>
      requires Shape()
      reads this, arrays
    {
      HandlersOf(ListOf(Abs(), event))
    }

    constructor ()
      ensures Valid() && Abs() == State(0, map[]) && arrays == {}
    {
      nextID, subs, arrays := 0, map[], {};
    }

    /** The slices of the other events are sound, apart from each other and from data, and hold what they held. */
    ghost predicate OthersKept(event: string, data: array<Subscription>, was: State)
      reads this`subs, this`arrays, arrays
    {
      && subs.Keys + {event} == was.subs.Keys + {event}
      && (forall e | e in subs && e != event ::
            subs[e].data in arrays && subs[e].count <= subs[e].data.Length && subs[e].data != data)
      && (forall e | e in subs && e != event :: subs[e].data[..subs[e].count] == was.subs[e])
      && (forall e, f | e in subs && f in subs && e != f && e != event && f != event :: subs[e].data != subs[f].data)
    }

    /** One event's slice is replaced; the other events keep their arrays. */
    method Store(event: string, list: Slice, ghost was: State)
      requires list.count <= list.data.Length && OthersKept(event, list.data, was)
      modifies this`subs, this`arrays
      ensures arrays == old(arrays) + {list.data} && Shape()
      ensures Abs() == State(nextID, was.subs[event := list.data[..list.count]])
    {
      hide Ordered, Perform, HandlersOf, ListOf, Shape;
      subs := subs[event := list];
      arrays := arrays + {list.data};
      StoredShape(event, was);
      StoredAbs(event, was);
    }

    lemma StoredShape(event: string, was: State)
      requires event in subs && subs[event].data in arrays && subs[event].count <= subs[event].data.Length
      requires OthersKept(event, subs[event].data, was)
      ensures Shape()
    {
    }

    lemma StoredAbs(event: string, was: State)
      requires Shape() && event in subs && OthersKept(event, subs[event].data, was)
      ensures Abs() == State(nextID, was.subs[event := subs[event].data[..subs[event].count]])
    {
      ghost var stored := was.subs[event := subs[event].data[..subs[event].count]];
      assert subs.Keys == stored.Keys;
      assert forall e | e in subs :: subs[e].data[..subs[e].count] == stored[e];
    }

    method Subscribe(event: string, h: Handler) returns (id: nat)
      requires Valid()
      modifies this, arrays
      ensures Valid() && fresh(arrays - old(arrays))
      ensures Abs() == Perform(old(Abs()), DoSubscribe(event, h)) && id == nextID == old(nextID) + 1
      ensures Handlers(event) == old(Handlers(event)) + [h]
      ensures forall e | e != event :: Handlers(e) == old(Handlers(e))
    {
      SubscribedState(Abs(), event, h);
      hide Perform, HandlersOf, ListOf, Ordered;
      Add(event, Subscription(nextID + 1, h));
      id := nextID;
    }

    /** The locked part of Subscribe: the next id is taken and the event's list grows. */
    method Add(event: string, x: Subscription)
      requires Valid() && x.id == nextID + 1
      modifies this, arrays
      ensures Shape() && fresh(arrays - old(arrays))
      ensures Abs() == State(x.id, old(Abs()).subs[event := ListOf(old(Abs()), event) + [x]])
    {
      ghost var was := Abs();
      hide Ordered, Perform, HandlersOf, ListOf, Shape, OthersKept;
      var list := SliceOf(event, x.handler);
      list := Push(event, list, x, was);
      nextID := nextID + 1;
      Store(event, list, was);
    }

    /** The event's slice, empty if it has none. */
    method SliceOf(event: string, h: Handler) returns (list: Slice)
      requires Valid()
      ensures list.count <= list.data.Length && list.data[..list.count] == ListOf(Abs(), event)
      ensures OthersKept(event, list.data, Abs()) && (list.data in arrays || fresh(list.data))
    {
      hide Ordered;
      if event in subs {
        list := subs[event];
      } else {
        var none := new Subscription[0](_ => Subscription(0, h));
        list := Slice(none, 0);
      }
    }

    /** Appending to it leaves the other events' slices alone. */
    method Push(event: string, list: Slice, x: Subscription, ghost was: State) returns (r: Slice)
      requires list.count <= list.data.Length && OthersKept(event, list.data, was)
      modifies list.data
      ensures r.count == list.count + 1 <= r.data.Length && r.data[..r.count] == old(list.data[..list.count]) + [x]
      ensures OthersKept(event, r.data, was) && (r.data == list.data || fresh(r.data))
    {
      r := Append(list, x);
    }

    /** The returned unsubscribe function: the entry with the id is shifted out of the live array. */
    method Unsubscribe(event: string, id: nat)
      requires Valid()
      modifies this`subs, this`arrays, arrays
      ensures Valid() && arrays == old(arrays) && Abs() == Perform(old(Abs()), DoUnsubscribe(event, id))
      ensures nextID == old(nextID) && forall e | e != event :: ListOf(Abs(), e) == old(ListOf(Abs(), e))
      ensures forall x: Subscription :: x in ListOf(Abs(), event) <==> x in old(ListOf(Abs(), event)) && x.id != id
      ensures |old(ListOf(Abs(), event))| - 1 <= |ListOf(Abs(), event)| <= |old(ListOf(Abs(), event))|
    {
      hide Ordered, Perform, Without, ListOf, HandlersOf;
      ghost var was := Abs();
      UnsubscribedState(was, event, id);
      if event in subs {
        var list := subs[event];
        var left := DeleteInPlace(list.data, list.count, id);
        Store(event, Slice(list.data, left), was);
      }
    }

    /** What a handler does to the bus, one operation after the other. */
    method PerformOps(ops: seq<Op>)
      requires Valid()
      modifies this, arrays
      ensures Valid() && fresh(arrays - old(arrays)) && Abs() == PerformAll(old(Abs()), ops)
    {
      hide Ordered, PerformAll, Perform;
      var i := 0;
      ghost var was := Abs();
      assert ops[..0] == [];
      PerformNone(was);
      while i < |ops|
        invariant 0 <= i <= |ops| && Valid() && fresh(arrays - old(arrays)) && Abs() == PerformAll(was, ops[..i])
      {
        PerformConcat(was, ops[..i], [ops[i]]);
        PerformOne(PerformAll(was, ops[..i]), ops[i]);
        assert ops[..i + 1] == ops[..i] + [ops[i]];
        match ops[i] {
          case DoSubscribe(event, h) => var _ := Subscribe(event, h);
          case DoUnsubscribe(event, id) => Unsubscribe(event, id);
        }
        i := i + 1;
      }
      assert ops[..i] == ops;
    }

    /** The copy Publish takes: a new array with the event's subscriptions of the moment. */
    method Snapshot(event: string) returns (copy: array<Subscription>)
      requires Valid()
      ensures fresh(copy) && copy[..] == ListOf(Abs(), event)
    {
      hide Ordered;
      if event !in subs {
        copy := new Subscription[0](_ => Subscription(0, Plain(0)));
        return;
      }
      var list := subs[event];
      copy := new Subscription[list.count](_ => Subscription(0, Plain(0)));
      for i := 0 to list.count
        invariant copy[..i] == list.data[..i]
      {
        copy[i] := list.data[i];
      }
      assert copy[..] == copy[..list.count];
    }

    /** One handler runs, and does to the bus what it does. */
    method Call(h: Handler, p: Payload, react: (nat, Payload) -> Reaction) returns (called: seq<nat>, failed: bool)
      requires Valid()
      modifies this, arrays
      ensures Valid() && fresh(arrays - old(arrays))
      ensures var r := ReactionOf(h, p, react); failed == r.failed && Abs() == PerformAll(old(Abs()), r.ops)
      ensures called == if Reaches(h, p) then [h.id] else []
    {
      hide PerformAll, Ordered, Reaches;
      called := if Reaches(h, p) then [h.id] else [];
      var r := ReactionOf(h, p, react);
      PerformOps(r.ops);
      failed := r.failed;
    }

    /**
     * Publish: the handlers subscribed when it begins are called in order, up to the first error,
     * whatever they do to the live arrays meanwhile; and what they do is all that happens to the bus.
     */
    method Publish(event: string, p: Payload, react: (nat, Payload) -> Reaction) returns (calls: seq<nat>, failed: bool)
      requires Valid()
      modifies this, arrays
      ensures Valid() && fresh(arrays - old(arrays))
      ensures var d := Deliver(old(Handlers(event)), p, react);
              calls == d.calls && failed == d.failed && Abs() == PerformAll(old(Abs()), d.ops)
    {
      hide Deliver, PerformAll, ReactionOf, Ordered, Reaches, HandlersOf, ListOf, Shape;
      var copy := Snapshot(event);
      ghost var hs := HandlersOf(copy[..]);
      ghost var was, all := Abs(), Deliver(hs, p, react);
      calls := [];
      ghost var done: seq<Op> := [];
      var i := 0;
      PerformNone(was);
      HandlersLength(copy[..]);
      assert hs[0..] == hs;
      ghost var copied := copy[..];
      while i < copy.Length
        invariant 0 <= i <= copy.Length == |hs| && Valid() && fresh(arrays - old(arrays)) && copy !in arrays
        invariant copy[..] == copied && Abs() == PerformAll(was, done)
        invariant var rest := Deliver(hs[i..], p, react);
                  all == Delivery(calls + rest.calls, done + rest.ops, rest.failed)
      {
        HandlerAt(copied, i);
        DeliverStep(hs, i, p, react);
        assert calls + [] == calls;
        var called, error := Call(copy[i].handler, p, react);
        calls := calls + called;
        ghost var ops := ReactionOf(hs[i], p, react).ops;
        PerformConcat(was, done, ops);
        done := done + ops;
        if error {
          return calls, true;
        }
        i := i + 1;
      }
      DeliverNone(hs[i..], p, react);
      assert calls + [] == calls && done + [] == done;
      failed := false;
    }
  }

  lemma HandlersLength(subs: seq<Subscription>)
    ensures |HandlersOf(subs)| == |subs|
  {
  }

  lemma HandlerAt(subs: seq<Subscription>, i: nat)
    requires i < |subs|
    ensures |HandlersOf(subs)| == |subs| && HandlersOf(subs)[i] == subs[i].handler
  {
  }

  lemma SubscribedState(s: State, event: string, h: Handler)
    requires Ordered(s)
    ensures var s' := Perform(s, DoSubscribe(event, h));
            && Ordered(s')
            && s' == State(s.nextID + 1, s.subs[event := ListOf(s, event) + [Subscription(s.nextID + 1, h)]])
            && HandlersOf(ListOf(s', event)) == HandlersOf(ListOf(s, event)) + [h]
            && forall e | e != event :: ListOf(s', e) == ListOf(s, e)
  {
    PerformKeepsOrder(s, DoSubscribe(event, h));
    HandlersSnoc(ListOf(s, event), Subscription(s.nextID + 1, h));
  }

  lemma UnsubscribedState(s: State, event: string, id: nat)
    requires Ordered(s)
    ensures var s' := Perform(s, DoUnsubscribe(event, id));
            && Ordered(s')
            && s' == (if event in s.subs then s.(subs := s.subs[event := Without(s.subs[event], id)]) else s)
            && (forall e | e != event :: ListOf(s', e) == ListOf(s, e))
            && (forall x: Subscription :: x in ListOf(s', event) <==> x in ListOf(s, event) && x.id != id)
            && |ListOf(s, event)| - 1 <= |ListOf(s', event)| <= |ListOf(s, event)|
  {
    PerformKeepsOrder(s, DoUnsubscribe(event, id));
    WithoutMeans(ListOf(s, event), id);
    hide Without;
  }

  lemma HandlersSnoc(subs: seq<Subscription>, x: Subscription)
    ensures HandlersOf(subs + [x]) == HandlersOf(subs) + [x.handler]
  {
  }

  lemma PerformNone(s: State)
    ensures PerformAll(s, []) == s
  {
  }

  lemma DeliverNone(hs: seq<Handler>, p: Payload, react: (nat, Payload) -> Reaction)
    requires hs == []
    ensures Deliver(hs, p, react) == Delivery([], [], false)
  {
  }

  lemma PerformOne(s: State, op: Op)
    ensures PerformAll(s, [op]) == Perform(s, op)
  {
    assert [op][1..] == [];
    assert PerformAll(Perform(s, op), []) == Perform(s, op);
  }

  lemma DeliverStep(hs: seq<Handler>, i: nat, p: Payload, react: (nat, Payload) -> Reaction)
    requires i < |hs|
    ensures var d, r, rest := Deliver(hs[i..], p, react), ReactionOf(hs[i], p, react), Deliver(hs[i + 1..], p, react);
            var called := if Reaches(hs[i], p) then [hs[i].id] else [];
            d == if r.failed then Delivery(called, r.ops, true)
                 else Delivery(called + rest.calls, r.ops + rest.ops, rest.failed)
  {
    assert hs[i..][1..] == hs[i + 1..];
  }

  // ---- Typed handlers, with and without a bus ------------------------------------------------

  const STATE_RECEIVED := "vda.state.received"
  const CONNECTION_CHANGED := "vda.connection.changed"
  const VISUALIZATION_RECEIVED := "vda.visualization.received"
  const FACTSHEET_RECEIVED := "vda.factsheet.received"

  /** The event names, which are promised to stay, by channel. */
  lemma EventNames()
    ensures EventName("state") == "vda.state.received" && EventName("connection") == "vda.connection.changed"
    ensures EventName("visualization") == "vda.visualization.received"
    ensures EventName("factsheet") == "vda.factsheet.received"
    ensures forall ch :: HasHandlers(ch) <==>
                           ch == "state" || ch == "connection" || ch == "visualization" || ch == "factsheet"
  {
  }

  /** The event name of an inbound channel with typed handlers. */
  function EventName(ch: Channel): string {
    if ch == STATE then STATE_RECEIVED
    else if ch == CONNECTION then CONNECTION_CHANGED
    else if ch == VISUALIZATION then VISUALIZATION_RECEIVED
    else FACTSHEET_RECEIVED
  }

  predicate HasHandlers(ch: Channel) {
    ch in [STATE, CONNECTION, VISUALIZATION, FACTSHEET]
  }

  function Wrap(ch: Channel, ids: seq<nat>): seq<Handler> {
    seq(|ids|, i requires 0 <= i < |ids| => Typed(ch, ids[i]))
  }

  /** Calls typed handlers directly, in order, stopping at the first error. */
  function Direct(ids: seq<nat>, p: Payload, react: (nat, Payload) -> Reaction): (seq<nat>, bool) {
    if ids == [] then ([], false)
    else if react(ids[0], p).failed then ([ids[0]], true)
    else
      var rest := Direct(ids[1..], p, react);
      ([ids[0]] + rest.0, rest.1)
  }

  /** Wrapped handlers are called with their channel's messages exactly as the handlers themselves would be. */
  lemma {:induction false} WrapIsTransparent(ch: Channel, ids: seq<nat>, message: nat, react: (nat,
        Payload) -> Reaction)
    ensures var p := Event(ch, message);
            var d := Deliver(Wrap(ch, ids), p, react);
            Direct(ids, p, react) == (d.calls, d.failed)
  {
    if ids != [] {
      WrapIsTransparent(ch, ids[1..], message, react);
      assert Wrap(ch, ids)[1..] == Wrap(ch, ids[1..]);
    }
  }

  /** Messages of another channel pass them by. */
  lemma {:induction false} WrapIgnoresOthers(ch: Channel, ids: seq<nat>, p: Payload, react: (nat, Payload) -> Reaction)
    requires p.Event? ==> p.channel != ch
    ensures Deliver(Wrap(ch, ids), p, react) == Delivery([], [], false)
  {
    if ids != [] {
      WrapIgnoresOthers(ch, ids[1..], p, react);
      assert Wrap(ch, ids)[1..] == Wrap(ch, ids[1..]);
    }
  }

  class TypedClient {
    var bus: Memory?
    var stateHandlers: seq<nat>
    var connHandlers: seq<nat>
    var vizHandlers: seq<nat>
    var fsHandlers: seq<nat>
    var busUnsubs: seq<nat>
    ghost var registered: map<Channel, seq<nat>>

    constructor ()
      ensures bus == null && Serves() && forall ch :: HasHandlers(ch) ==> registered[ch] == []
    {
      bus, busUnsubs := null, [];
      registered := map[STATE := [], CONNECTION := [], VISUALIZATION := [], FACTSHEET := []];
      stateHandlers, connHandlers, vizHandlers, fsHandlers := [], [], [], [];
    }

    function OwnHandlers(ch: Channel): seq<nat>
      reads this`stateHandlers, this`connHandlers, this`vizHandlers, this`fsHandlers
    {
      if ch == STATE then stateHandlers
      else if ch == CONNECTION then connHandlers
      else if ch == VISUALIZATION then vizHandlers
      else fsHandlers
    }

    /** Moves one list of handlers onto the bus. */
    method Migrate(target: Memory, ch: Channel, ids: seq<nat>)
      requires target.Valid() && bus == target
      modifies target, target.arrays, this`busUnsubs
      ensures target.Valid() && fresh(target.arrays - old(target.arrays))
      ensures target.Handlers(EventName(ch)) == old(target.Handlers(EventName(ch))) + Wrap(ch, ids)
      ensures forall e | e != EventName(ch) :: target.Handlers(e) == old(target.Handlers(e))
      ensures busUnsubs == old(busUnsubs) + IdsAfter(old(target.nextID), |ids|)
    {
      hide Memory.Shape, Ordered, HandlersOf, ListOf, EventName, Wrap, Memory.Handlers, Perform, IdsAfter;
      var i := 0;
      IdsAfterNone(target.nextID);
      WrapNone(ch, ids[..0]);
      assert target.Handlers(EventName(ch)) + [] == target.Handlers(EventName(ch));
      while i < |ids|
        invariant 0 <= i <= |ids| && target.Valid() && fresh(target.arrays - old(target.arrays))
        invariant target.Handlers(EventName(ch)) == old(target.Handlers(EventName(ch))) + Wrap(ch, ids[..i])
        invariant forall e | e != EventName(ch) :: target.Handlers(e) == old(target.Handlers(e))
        invariant target.nextID == old(target.nextID) + i
        invariant busUnsubs == old(busUnsubs) + IdsAfter(old(target.nextID), i)
      {
        var id := target.Subscribe(EventName(ch), Typed(ch, ids[i]));
        WrapSnoc(ch, ids[..i], ids[i]);
        assert ids[..i + 1] == ids[..i] + [ids[i]];
        IdsAfterSnoc(old(target.nextID), i);
        busUnsubs := busUnsubs + [id];
        i := i + 1;
      }
      assert ids[..i] == ids;
    }

    /** The handlers registered for each channel, in order: on the client itself or, wrapped, alone on its bus. */
    ghost predicate Serves()
      reads this, bus, if bus == null then {} else bus.arrays
    {
      && (bus != null ==> bus.Valid())
      && forall ch | HasHandlers(ch) ::
           && ch in registered
           && if bus == null then OwnHandlers(ch) == registered[ch]
              else OwnHandlers(ch) == [] && bus.Handlers(EventName(ch)) == Wrap(ch, registered[ch])
    }

    /**
     * UseEventBus: every handler of the client moves behind what the bus has, channel by channel, in order.
     * Attaching a bus without subscribers for the first time loses no handler and changes no order.
     */
    method UseEventBus(target: Memory)
      requires target.Valid()
      modifies this, target, target.arrays
      ensures bus == target && target.Valid() && fresh(target.arrays - old(target.arrays))
              && registered == old(registered)
      ensures forall ch | HasHandlers(ch) ::
                && OwnHandlers(ch) == []
                && target.Handlers(EventName(ch)) == old(target.Handlers(EventName(ch)))
                   + Wrap(ch, old(OwnHandlers(ch)))
      ensures forall e | (forall ch | HasHandlers(ch) :: e != EventName(ch)) ::
              target.Handlers(e) == old(target.Handlers(e))
      ensures old(Serves()) && old(bus) == null
              && (forall ch | HasHandlers(ch) :: old(target.Handlers(EventName(ch))) == [])
              ==> Serves()
    {
      hide Memory.Shape, Ordered, HandlersOf, ListOf, EventName, Wrap, Memory.Handlers, Perform;
      EventNamesDiffer();
      bus := target;
      MigrateAll(target);
      stateHandlers, connHandlers, vizHandlers, fsHandlers := [], [], [], [];
      assert forall ch | HasHandlers(ch) :: [] + Wrap(ch, old(OwnHandlers(ch))) == Wrap(ch, old(OwnHandlers(ch)));
    }

    method MigrateAll(target: Memory)
      requires target.Valid() && bus == target
      modifies target, target.arrays, this`busUnsubs
      ensures target.Valid() && fresh(target.arrays - old(target.arrays))
      ensures forall ch | HasHandlers(ch) ::
                target.Handlers(EventName(ch)) == old(target.Handlers(EventName(ch))) + Wrap(ch, OwnHandlers(ch))
      ensures forall e | (forall ch | HasHandlers(ch) :: e != EventName(ch)) ::
              target.Handlers(e) == old(target.Handlers(e))
    {
      hide Memory.Shape, Ordered, HandlersOf, ListOf, EventName, Wrap, Memory.Handlers, Perform;
      EventNamesDiffer();
      Migrate(target, STATE, stateHandlers);
      Migrate(target, CONNECTION, connHandlers);
      Migrate(target, VISUALIZATION, vizHandlers);
      Migrate(target, FACTSHEET, fsHandlers);
    }

    /** OnState and its siblings: on the client, or on the bus once there is one. */
    method On(ch: Channel, id: nat)
      requires Serves() && HasHandlers(ch)
      modifies this, bus, if bus == null then {} else bus.arrays
      ensures Serves() && bus == old(bus) && registered == old(registered)[ch := old(registered)[ch] + [id]]
      ensures busUnsubs == if bus == null then old(busUnsubs) else old(busUnsubs) + [bus.nextID]
    {
      hide Memory.Shape, Ordered, HandlersOf, ListOf, EventName, Wrap, Memory.Handlers, Perform;
      EventNamesDiffer();
      WrapSnoc(ch, registered[ch], id);
      registered := registered[ch := registered[ch] + [id]];
      if bus != null {
        hide OwnHandlers;
        var unsub := bus.Subscribe(EventName(ch), Typed(ch, id));
        busUnsubs := busUnsubs + [unsub];
        return;
      }
      Append(ch, id);
    }

    method Append(ch: Channel, id: nat)
      requires HasHandlers(ch)
      modifies this`stateHandlers, this`connHandlers, this`vizHandlers, this`fsHandlers
      ensures forall c | HasHandlers(c) :: OwnHandlers(c) == old(OwnHandlers(c)) + if c == ch then [id] else []
    {
      if ch == STATE {
        stateHandlers := stateHandlers + [id];
      } else if ch == CONNECTION {
        connHandlers := connHandlers + [id];
      } else if ch == VISUALIZATION {
        vizHandlers := vizHandlers + [id];
      } else {
        fsHandlers := fsHandlers + [id];
      }
    }

    /**
     * invokeState and its siblings. Bus or not, the registered handlers are called in order up to the
     * first error, which is returned.
     */
    method Invoke(ch: Channel, message: nat, react: (nat, Payload) -> Reaction) returns (calls: seq<nat>, failed: bool)
      requires Serves() && HasHandlers(ch)
      modifies bus, if bus == null then {} else bus.arrays
      ensures (calls, failed) == Direct(registered[ch], Event(ch, message), react)
      ensures calls <= registered[ch] && (!failed ==> calls == registered[ch])
      ensures failed <==> calls != [] && react(calls[|calls| - 1], Event(ch, message)).failed
      ensures forall i | 0 <= i < |calls| - 1 :: !react(calls[i], Event(ch, message)).failed
    {
      hide Memory.Shape, Ordered, HandlersOf, ListOf, EventName, Wrap, Memory.Handlers, Perform, PerformAll, Direct,
        Deliver;
      DirectMeans(registered[ch], Event(ch, message), react);
      var p := Event(ch, message);
      if bus != null {
        WrapIsTransparent(ch, registered[ch], message, react);
        calls, failed := bus.Publish(EventName(ch), p, react);
        return;
      }
      calls, failed := InvokeDirect(OwnHandlers(ch), p, react);
    }

    method InvokeDirect(handlers: seq<nat>, p: Payload, react: (nat,
          Payload) -> Reaction) returns (calls: seq<nat>, failed: bool)
      ensures (calls, failed) == Direct(handlers, p, react)
    {
      hide Direct;
      calls := [];
      var i := 0;
      assert handlers[0..] == handlers;
      while i < |handlers|
        invariant 0 <= i <= |handlers|
        invariant var all, rest := Direct(handlers, p, react), Direct(handlers[i..], p, react);
                  all.0 == calls + rest.0 && all.1 == rest.1
      {
        DirectStep(handlers, i, p, react);
        calls := calls + [handlers[i]];
        if react(handlers[i], p).failed {
          return calls, true;
        }
        i := i + 1;
      }
      DirectNone(handlers[i..], p, react);
      assert calls + [] == calls;
      failed := false;
    }
  }

  lemma {:induction false} DirectMeans(ids: seq<nat>, p: Payload, react: (nat, Payload) -> Reaction)
    ensures var (calls, failed) := Direct(ids, p, react);
            && calls <= ids && (!failed ==> calls == ids)
            && (failed <==> calls != [] && react(calls[|calls| - 1], p).failed)
            && forall i | 0 <= i < |calls| - 1 :: !react(calls[i], p).failed
  {
    if ids != [] {
      DirectMeans(ids[1..], p, react);
    }
  }

  lemma DirectNone(ids: seq<nat>, p: Payload, react: (nat, Payload) -> Reaction)
    requires ids == []
    ensures Direct(ids, p, react) == ([], false)
  {
  }

  lemma DirectStep(ids: seq<nat>, i: nat, p: Payload, react: (nat, Payload) -> Reaction)
    requires i < |ids|
    ensures Direct(ids[i..], p, react)
            == if react(ids[i], p).failed then ([ids[i]], true)
               else var rest := Direct(ids[i + 1..], p, react); ([ids[i]] + rest.0, rest.1)
  {
    assert ids[i..][1..] == ids[i + 1..];
  }

  /** The ids the bus issues next. */
  ghost function IdsAfter(last: nat, count: nat): seq<nat> {
    seq(count, i requires 0 <= i < count => last + 1 + i)
  }

  lemma IdsAfterNone(last: nat)
    ensures IdsAfter(last, 0) == []
  {
  }

  lemma IdsAfterSnoc(last: nat, n: nat)
    ensures IdsAfter(last, n + 1) == IdsAfter(last, n) + [last + 1 + n]
  {
  }

  lemma WrapNone(ch: Channel, ids: seq<nat>)
    requires ids == []
    ensures Wrap(ch, ids) == []
  {
  }

  lemma WrapSnoc(ch: Channel, ids: seq<nat>, id: nat)
    ensures Wrap(ch, ids + [id]) == Wrap(ch, ids) + [Typed(ch, id)]
  {
  }

  lemma EventNamesDiffer()
    ensures forall a, b | HasHandlers(a) && HasHandlers(b) && a != b :: EventName(a) != EventName(b)
  {
    assert STATE_RECEIVED[4] == 's' && CONNECTION_CHANGED[4] == 'c' && VISUALIZATION_RECEIVED[4] == 'v'
      && FACTSHEET_RECEIVED[4] == 'f';
  }
}
