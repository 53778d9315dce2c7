/** Every step of the dispatcher keeps the invariant. */
module DispatcherSteps {
  import opened Streams
  import opened Topics
  import opened Dispatcher
  import opened DispatcherInvariant

  // ---- A worker of a lane ------------------------------------------------------

  ghost predicate SameLane(l: Lane, l': Lane) {
    l'.epoch == l.epoch && l'.route == l.route && l'.sent == l.sent
  }

  ghost predicate SameShape(l: Lane, l': Lane) {
    l'.epoch == l.epoch && l'.route == l.route
  }

  lemma FifosKept(lanes: seq<Lane>, i: nat, l: Lane, qsize: nat, arrived: seq<Inbound>, fate: map<nat, Fate>)
    requires FifoInv(lanes, qsize, arrived, fate) && i < |lanes| && SameLane(lanes[i], l) && Fifo(l, qsize)
    ensures FifoInv(lanes[i := l], qsize, arrived, fate)
  {
    hide SentTo, Fifo;
  }

  lemma RegistryKept(lanes: seq<Lane>, i: nat, l: Lane, shards: map<string, nat>, topicQ: nat, epochs: nat, open: bool)
    requires RegistryInv(lanes, shards, topicQ, epochs, open) && i < |lanes| && SameShape(lanes[i], l)
    ensures RegistryInv(lanes[i := l], shards, topicQ, epochs, open)
  {
    assert forall j | 0 <= j < |lanes| :: SameShape(lanes[j], lanes[i := l][j]);
  }

  lemma ProducerKept(p: Producer, lanes: seq<Lane>, i: nat, l: Lane, epochs: nat, open: bool, start: nat, qsize: nat)
    requires ProducerInv(p, lanes, epochs, open, start, qsize) && i < |lanes| && SameShape(lanes[i], l)
    ensures ProducerInv(p, lanes[i := l], epochs, open, start, qsize)
  {
    hide RouteOf, Droppable, DoneFresh;
  }

  lemma FatesKept(fate: map<nat, Fate>, arrived: seq<Inbound>, lanes: seq<Lane>, i: nat, l: Lane, epochs: nat,
                  open: bool, start: nat, qsize: nat)
    requires FateInv(fate, arrived, lanes, epochs, open, start, qsize) && i < |lanes| && SameShape(lanes[i], l)
    ensures FateInv(fate, arrived, lanes[i := l], epochs, open, start, qsize)
  {
    hide RouteOf, Droppable;
    forall n: nat | n in fate && n < |arrived|
      ensures FateOk(arrived[n], fate[n], lanes[i := l], epochs, open, start, qsize)
    {
      assert FateOk(arrived[n], fate[n], lanes, epochs, open, start, qsize);
    }
  }

  lemma WorkersKept(lanes: seq<Lane>, conns: seq<ConnLane>, mode: Mode, i: nat, l: Lane)
    requires WorkerInv(lanes, conns, mode) && i < |lanes| && SameShape(lanes[i], l) && l.pc == lanes[i].pc
    ensures WorkerInv(lanes[i := l], conns, mode)
  {
  }

  lemma LaneParts(s: State, i: nat, l: Lane)
    requires Inv(s) && i < |s.lanes| && SameLane(s.lanes[i], l) && Fifo(l, s.qsize)
    ensures var lanes := s.lanes[i := l];
            && FifoInv(lanes, s.qsize, s.arrived, s.fate)
            && RegistryInv(lanes, s.shards, s.topicQ, |s.conns|, s.Open())
            && ProducerInv(s.producer, lanes, |s.conns|, s.Open(), s.start, s.qsize)
            && FateInv(s.fate, s.arrived, lanes, |s.conns|, s.Open(), s.start, s.qsize)
  {
    hide StampInv, WorkerInv, ReportInv, PostInv, PendingInv, CurrentInv, FifoInv, RegistryInv, ProducerInv, FateInv;
    hide Fifo;
    FifosKept(s.lanes, i, l, s.qsize, s.arrived, s.fate);
    RegistryKept(s.lanes, i, l, s.shards, s.topicQ, |s.conns|, s.Open());
    ProducerKept(s.producer, s.lanes, i, l, |s.conns|, s.Open(), s.start, s.qsize);
    FatesKept(s.fate, s.arrived, s.lanes, i, l, |s.conns|, s.Open(), s.start, s.qsize);
  }

  lemma LaneWorker(s: State, i: nat, l: Lane)
    requires WorkerInv(s.lanes, s.conns, s.mode) && i < |s.lanes| && l.epoch == s.lanes[i].epoch
    requires l.pc.Exited? ==> s.CtxDone(l.epoch)
    requires s.lanes[i].pc.Exited? ==> l.pc.Exited?
    ensures WorkerInv(s.lanes[i := l], s.conns, s.mode)
  {
  }

  lemma LaneUpdate(s: State, i: nat, l: Lane)
    requires Inv(s) && i < |s.lanes| && SameLane(s.lanes[i], l) && Fifo(l, s.qsize)
    requires l.pc.Exited? ==> s.CtxDone(l.epoch)
    requires s.lanes[i].pc.Exited? ==> l.pc.Exited?
    ensures Inv(SetLane(s, i, l))
  {
    hide FifoInv, RegistryInv, WorkerInv, ProducerInv, FateInv, StampInv, ReportInv, PostInv, PendingInv;
    hide CoalesceInv, CountInv, WakeInv, Fifo;
    LaneParts(s, i, l);
    LaneWorker(s, i, l);
  }

  // ---- The coalescing worker ---------------------------------------------------

  lemma ConnParts(s: State, e: nat, c: ConnLane)
    requires PostInv(s.conns, s.arrived, s.fate) && WorkerInv(s.lanes, s.conns, s.mode)
    requires e < |s.conns| && c.posted == s.conns[e].posted
    requires c.pc.Gone? && !s.conns[e].pc.Gone? ==> s.CtxDone(e)
    requires s.conns[e].pc.Gone? ==> c.pc.Gone?
    ensures PostInv(s.conns[e := c], s.arrived, s.fate) && WorkerInv(s.lanes, s.conns[e := c], s.mode)
  {
    hide PostedIn;
  }

  /** A step that neither posts nor takes. */
  lemma ConnUpdate(s: State, e: nat, c: ConnLane)
    requires Inv(s) && e < |s.conns|
    requires c.posted == s.conns[e].posted && c.overwritten == s.conns[e].overwritten
    requires Taken(c) == Taken(s.conns[e])
    requires c.pc.Gone? && !s.conns[e].pc.Gone? ==> s.CtxDone(e)
    requires s.conns[e].pc.Gone? ==> c.pc.Gone?
    requires s.Open() && e + 1 == |s.conns| ==> WakeInv(c, s.connLatest, s.producer, e)
    ensures Inv(SetConn(s, e, c))
  {
    hide FifoInv, RegistryInv, WorkerInv, ProducerInv, FateInv, StampInv, ReportInv, PostInv, PendingInv;
    hide WakeInv, Taken, KeyCoalesced;
    ConnParts(s, e, c);
  }

  /** Taking the pending message of a key leaves a coalesced history of that key. */
  lemma TakePending(all: seq<Inbound>, got: seq<Inbound>, m: Inbound)
    requires all != [] && all[|all| - 1] == m && Subsequence(got, all[..|all| - 1])
    ensures Coalesced(all, got + [m])
  {
    SubsequenceTake(got, all[..|all| - 1], m);
    assert all[..|all| - 1] + [m] == all;
  }

  lemma TakeKey(posted: seq<Inbound>, taken: seq<Inbound>, latest: map<string, Inbound>, k: string, key: string)
    requires k in latest && ConnKey(latest[k]) == k && KeyCoalesced(posted, taken, latest, key)
    ensures KeyCoalesced(posted, taken + [latest[k]], latest - {k}, key)
  {
    hide ConnKey, OnKey, Subsequence, Coalesced;
    OnKeySnoc(taken, latest[k], key);
    if key == k {
      TakePending(OnKey(posted, key), OnKey(taken, key), latest[k]);
    } else {
      assert OnKey(taken + [latest[k]], key) == OnKey(taken, key);
    }
  }

  lemma OnKeySnoc(a: seq<Inbound>, m: Inbound, key: string)
    ensures OnKey(a + [m], key) == OnKey(a, key) + if ConnKey(m) == key then [m] else []
  {
    FilterSnoc(a, m, (x: Inbound) => ConnKey(x) == key);
  }

  lemma TakeValue(latest: map<string, Inbound>, k: string)
    requires k in latest && forall key | key in latest :: ConnKey(latest[key]) == key
    ensures multiset((latest - {k}).Values) + multiset{latest[k]} == multiset(latest.Values)
  {
    var rest := latest - {k};
    forall j | j in rest
      ensures rest[j] != latest[k]
    {
      assert ConnKey(latest[j]) == j;
    }
    forall v | v in latest.Values
      ensures v in rest.Values + {latest[k]}
    {
      var j :| j in latest && latest[j] == v;
      if j != k {
        assert rest[j] == v;
      }
    }
    assert latest.Values == rest.Values + {latest[k]};
  }

  lemma TakeCurrent(c: ConnLane, c': ConnLane, latest: map<string, Inbound>, k: string)
    requires CoalesceInv(c, latest) && CountInv(c, latest)
    requires k in latest && forall key | key in latest :: ConnKey(latest[key]) == key
    requires c'.posted == c.posted && c'.overwritten == c.overwritten && Taken(c') == Taken(c) + [latest[k]]
    ensures CoalesceInv(c', latest - {k}) && CountInv(c', latest - {k})
  {
    hide ConnKey, Taken, KeyCoalesced;
    var posted, taken, taken', rest := c.posted, Taken(c), Taken(c'), latest - {k};
    assert ConnKey(latest[k]) == k;
    forall key
      ensures KeyCoalesced(posted, taken', rest, key)
    {
      assert KeyCoalesced(posted, taken, latest, key);
      TakeKey(posted, taken, latest, k, key);
    }
    TakeValue(latest, k);
  }

  lemma OnlyCurrentTakes(s: State, e: nat)
    requires PendingInv(s.connLatest, s.shards, s.Open()) && WorkerInv(s.lanes, s.conns, s.mode)
    requires s.connLatest != map[] && e < |s.conns| && !s.conns[e].pc.Gone?
    ensures s.Open() && e + 1 == |s.conns|
  {
  }

  lemma TakeStep(s: State, e: nat, k: string)
    requires Inv(s) && Enabled(s, Take(e, k))
    ensures Inv(Apply(s, Take(e, k)))
  {
    hide FifoInv, RegistryInv, WorkerInv, ProducerInv, FateInv, StampInv, ReportInv, PostInv;
    hide CoalesceInv, CountInv, ConnKey;
    var c := s.conns[e];
    var c' := c.(pc := Handling(s.connLatest[k]));
    OnlyCurrentTakes(s, e);
    ConnParts(s, e, c');
    TakeCurrent(c, c', s.connLatest, k);
  }

  // ---- The producer -------------------------------------------------------------

  lemma ProducerStamp(s: State, p: Producer)
    requires StampInv(s.arrived, s.fate, s.producer, s.start, s.qsize)
    requires Holding(p) == Holding(s.producer) && (Holding(p) ==> p.msg == s.producer.msg)
    ensures StampInv(s.arrived, s.fate, p, s.start, s.qsize)
  {
  }

  /** The producer reads or moves on, with the message it holds or without one. */
  lemma ProducerUpdate(s: State, p: Producer)
    requires Inv(s)
    requires Holding(p) == Holding(s.producer) && (Holding(p) ==> p.msg == s.producer.msg)
    requires ProducerInv(p, s.lanes, |s.conns|, s.Open(), s.start, s.qsize)
    requires s.Open() && s.producer == Waking(|s.conns| - 1) ==>
               WakeInv(s.conns[|s.conns| - 1], s.connLatest, p, |s.conns| - 1)
    ensures Inv(s.(producer := p))
  {
    hide FifoInv, RegistryInv, WorkerInv, ProducerInv, FateInv, StampInv, ReportInv, PostInv, PendingInv;
    hide CoalesceInv, CountInv;
    ProducerStamp(s, p);
  }

  lemma ArriveUnsettled(arrived: seq<Inbound>, fate: map<nat, Fate>, m: Inbound)
    requires m.receivedAt !in fate
    ensures forall i: nat :: SentTo(arrived + [m], fate, i) == SentTo(arrived, fate, i)
    ensures forall e: nat :: PostedIn(arrived + [m], fate, e) == PostedIn(arrived, fate, e)
  {
    assert (arrived + [m])[..|arrived|] == arrived;
  }

  lemma ArriveStamp(s: State, m: Inbound, p: Producer)
    requires StampInv(s.arrived, s.fate, s.producer, s.start, s.qsize) && s.producer.Idle?
    requires m.receivedAt == |s.arrived| && Holding(p) && p.msg == m
    ensures StampInv(s.arrived + [m], s.fate, p, s.start, s.qsize) && m.receivedAt !in s.fate
    ensures forall n: nat | n in s.fate :: n < |s.arrived|
  {
  }

  lemma ArriveHistories(s: State, m: Inbound)
    requires Inv(s) && m.receivedAt !in s.fate
    requires forall n: nat | n in s.fate :: n < |s.arrived|
    ensures var arrived := s.arrived + [m];
            && FifoInv(s.lanes, s.qsize, arrived, s.fate)
            && FateInv(s.fate, arrived, s.lanes, |s.conns|, s.Open(), s.start, s.qsize)
            && ReportInv(s.reports, arrived, s.fate, s.qsize)
            && PostInv(s.conns, arrived, s.fate)
  {
    hide RegistryInv, WorkerInv, ProducerInv, StampInv, PendingInv, CurrentInv;
    hide SentTo, PostedIn, FateOk, Fifo, Droppable;
    ArriveUnsettled(s.arrived, s.fate, m);
  }

  lemma ArriveStep(s: State, topic: string, payload: int, handler: int)
    requires Inv(s) && s.producer.Idle?
    ensures Inv(Apply(s, Arrive(topic, payload, handler)))
  {
    hide FifoInv, RegistryInv, WorkerInv, FateInv, StampInv, ReportInv, PostInv, PendingInv;
    hide CoalesceInv, CountInv, Classify;
    var m := Inbound(topic, payload, handler, |s.arrived|);
    ArriveStamp(s, m, Apply(s, Arrive(topic, payload, handler)).producer);
    ArriveHistories(s, m);
  }

  // ---- A message gets its fate -----------------------------------------------------

  /** Giving the last arrival its fate extends the one selection that fate names, and no other. */
  lemma SettleLast(arrived: seq<Inbound>, fate: map<nat, Fate>, m: Inbound, f: Fate)
    requires forall i | 0 <= i < |arrived| :: arrived[i].receivedAt == i
    requires |arrived| > 0 && m == arrived[|arrived| - 1] && m.receivedAt !in fate
    ensures var fate' := fate[m.receivedAt := f];
            && (forall i: nat :: SentTo(arrived, fate', i)
                                 == SentTo(arrived, fate, i) + if f == Sent(i) then [m] else [])
            && (forall e: nat :: PostedIn(arrived, fate', e)
                                 == PostedIn(arrived, fate, e) + if f == Posted(e) then [m] else [])
  {
    var init := arrived[..|arrived| - 1];
    var fate' := fate[m.receivedAt := f];
    assert forall x | x in init :: x.receivedAt != m.receivedAt;
    forall i: nat
      ensures SentTo(arrived, fate', i) == SentTo(arrived, fate, i) + if f == Sent(i) then [m] else []
    {
      FilterCongruent(init, (x: Inbound) => x.receivedAt in fate && fate[x.receivedAt] == Sent(i),
                      (x: Inbound) => x.receivedAt in fate' && fate'[x.receivedAt] == Sent(i));
    }
    forall e: nat
      ensures PostedIn(arrived, fate', e) == PostedIn(arrived, fate, e) + if f == Posted(e) then [m] else []
    {
      FilterCongruent(init, (x: Inbound) => x.receivedAt in fate && fate[x.receivedAt] == Posted(e),
                      (x: Inbound) => x.receivedAt in fate' && fate'[x.receivedAt] == Posted(e));
    }
  }

  lemma SettleStamp(s: State, f: Fate, p: Producer)
    requires StampInv(s.arrived, s.fate, s.producer, s.start, s.qsize)
    requires Holding(s.producer) && !Holding(p)
    ensures var m := s.producer.msg;
            var fate' := s.fate[m.receivedAt := f];
            && m.receivedAt !in s.fate && |s.arrived| > 0
            && m == s.arrived[|s.arrived| - 1] && m.receivedAt == |s.arrived| - 1
            && StampInv(s.arrived, fate', p, s.start, s.qsize)
            && (forall i: nat :: SentTo(s.arrived, fate', i)
                                 == SentTo(s.arrived, s.fate, i) + if f == Sent(i) then [m] else [])
            && (forall e: nat :: PostedIn(s.arrived, fate', e)
                                 == PostedIn(s.arrived, s.fate, e) + if f == Posted(e) then [m] else [])
  {
    hide SentTo, PostedIn;
    SettleLast(s.arrived, s.fate, s.producer.msg, f);
  }

  lemma HeldIsRecent(s: State)
    requires StampInv(s.arrived, s.fate, s.producer, s.start, s.qsize) && Holding(s.producer)
    ensures s.producer.msg.receivedAt + 1 >= s.start
  {
  }

  /** The parts that speak of fates, for a fate that is right for the message. */
  lemma SettleFates(s: State, f: Fate, reports: seq<Report>)
    requires Inv(s) && Holding(s.producer)
    requires FateOk(s.producer.msg, f, s.lanes, |s.conns|, s.Open(), s.start, s.qsize)
    requires reports == if f.Discarded? then s.reports + [Report(s.producer.msg, DropDiscarded, f.depth)] else s.reports
    ensures var fate' := s.fate[s.producer.msg.receivedAt := f];
            && FateInv(fate', s.arrived, s.lanes, |s.conns|, s.Open(), s.start, s.qsize)
            && ReportInv(reports, s.arrived, fate', s.qsize)
  {
    SettleStamp(s, f, Idle);
    assert f.Discarded? ==> f.depth == s.qsize && Droppable(s.producer.msg.topic);
    SettleReports(s.arrived, s.fate, s.producer.msg, f, s.reports, s.qsize);
    hide RegistryInv, WorkerInv, ProducerInv, StampInv, FifoInv, PostInv, PendingInv, CurrentInv, ReportInv;
    hide SentTo, PostedIn, FateOk, Droppable;
  }

  lemma SettleReports(arrived: seq<Inbound>, fate: map<nat, Fate>, m: Inbound, f: Fate, reports: seq<Report>,
        qsize: nat)
    requires ReportInv(reports, arrived, fate, qsize)
    requires m.receivedAt < |arrived| && arrived[m.receivedAt] == m && m.receivedAt !in fate
    requires f.Discarded? ==> f.depth == qsize && Droppable(m.topic)
    ensures ReportInv(if f.Discarded? then reports + [Report(m, DropDiscarded, f.depth)] else reports, arrived,
                      fate[m.receivedAt := f], qsize)
  {
    hide Droppable;
  }

  /** Fates that name no lane and no epoch leave every queue alone. */
  lemma SettleQueues(s: State, f: Fate)
    requires Inv(s) && Holding(s.producer) && !f.Sent? && !f.Posted?
    ensures var fate' := s.fate[s.producer.msg.receivedAt := f];
            FifoInv(s.lanes, s.qsize, s.arrived, fate') && PostInv(s.conns, s.arrived, fate')
  {
    SettleStamp(s, f, Idle);
    hide RegistryInv, WorkerInv, ProducerInv, StampInv, FateInv, ReportInv, PendingInv, CurrentInv;
    hide SentTo, PostedIn, Fifo;
  }

  /** A message is discarded, with its report, or lost. */
  lemma SettleUpdate(s: State, f: Fate, reports: seq<Report>)
    requires Inv(s) && Holding(s.producer) && !f.Sent? && !f.Posted?
    requires FateOk(s.producer.msg, f, s.lanes, |s.conns|, s.Open(), s.start, s.qsize)
    requires reports == if f.Discarded? then s.reports + [Report(s.producer.msg, DropDiscarded, f.depth)] else s.reports
    ensures Inv(Settle(s, s.producer.msg, f).(reports := reports))
  {
    hide FifoInv, RegistryInv, WorkerInv, FateInv, StampInv, ReportInv, PostInv, PendingInv;
    hide CoalesceInv, CountInv, FateOk;
    SettleStamp(s, f, Idle);
    SettleFates(s, f, reports);
    SettleQueues(s, f);
  }

  /** A channel send. */
  lemma SendQueues(s: State, i: nat, l: Lane)
    requires Inv(s) && Holding(s.producer) && i < |s.lanes| && |s.lanes[i].buf| < s.qsize
    requires l == s.lanes[i].(buf := s.lanes[i].buf + [s.producer.msg], sent := s.lanes[i].sent + [s.producer.msg])
    ensures var fate' := s.fate[s.producer.msg.receivedAt := Sent(i)];
            FifoInv(s.lanes[i := l], s.qsize, s.arrived, fate') && PostInv(s.conns, s.arrived, fate')
  {
    SettleStamp(s, Sent(i), Idle);
    hide RegistryInv, WorkerInv, ProducerInv, StampInv, FateInv, ReportInv, PendingInv, CurrentInv;
    hide SentTo, PostedIn;
  }

  lemma SendLanes(s: State, i: nat, l: Lane, fate: map<nat, Fate>)
    requires Inv(s) && i < |s.lanes| && l.epoch == s.lanes[i].epoch && l.route == s.lanes[i].route
    requires l.pc == s.lanes[i].pc
    requires FateInv(fate, s.arrived, s.lanes, |s.conns|, s.Open(), s.start, s.qsize)
    ensures RegistryInv(s.lanes[i := l], s.shards, s.topicQ, |s.conns|, s.Open())
    ensures WorkerInv(s.lanes[i := l], s.conns, s.mode)
    ensures FateInv(fate, s.arrived, s.lanes[i := l], |s.conns|, s.Open(), s.start, s.qsize)
  {
    hide ProducerInv, StampInv, ReportInv, PostInv, PendingInv, CurrentInv, FifoInv, RegistryInv, FateInv, WorkerInv;
    RegistryKept(s.lanes, i, l, s.shards, s.topicQ, |s.conns|, s.Open());
    FatesKept(fate, s.arrived, s.lanes, i, l, |s.conns|, s.Open(), s.start, s.qsize);
    WorkersKept(s.lanes, s.conns, s.mode, i, l);
  }

  lemma SendUpdate(s: State, i: nat)
    requires Inv(s) && Holding(s.producer) && i < |s.lanes| && |s.lanes[i].buf| < s.qsize
    requires FateOk(s.producer.msg, Sent(i), s.lanes, |s.conns|, s.Open(), s.start, s.qsize)
    ensures Inv(Send(s, s.producer.msg, i))
  {
    hide FifoInv, RegistryInv, WorkerInv, FateInv, StampInv, ReportInv, PostInv, PendingInv;
    hide CoalesceInv, CountInv, FateOk;
    var l := s.lanes[i].(buf := s.lanes[i].buf + [s.producer.msg], sent := s.lanes[i].sent + [s.producer.msg]);
    SettleStamp(s, Sent(i), Idle);
    SettleFates(s, Sent(i), s.reports);
    SendQueues(s, i, l);
    SendLanes(s, i, l, s.fate[s.producer.msg.receivedAt := Sent(i)]);
  }

  /** The backpressure hook: reported, not settled. */
  lemma ReportBackpressure(s: State, p: Producer)
    requires Inv(s) && s.producer.Refused? && !Droppable(s.producer.msg.topic)
    requires p == Blocked(s.producer.msg, s.producer.done, s.producer.lane)
    ensures Inv(s.(producer := p, reports := s.reports + [Report(s.producer.msg, DropBackpressured, s.producer.depth)]))
  {
    ProducerUpdate(s, p);
    BackpressureReports(s);
    hide FifoInv, RegistryInv, WorkerInv, FateInv, StampInv, ReportInv, PostInv, PendingInv, ProducerInv;
    hide CoalesceInv, CountInv, WakeInv, Droppable;
  }

  lemma BackpressureReports(s: State)
    requires Inv(s) && s.producer.Refused? && !Droppable(s.producer.msg.topic)
    ensures ReportInv(s.reports + [Report(s.producer.msg, DropBackpressured, s.producer.depth)],
                      s.arrived, s.fate, s.qsize)
  {
    hide FifoInv, RegistryInv, WorkerInv, FateInv, PostInv, PendingInv, CurrentInv, Droppable, HasLane;
  }

  // ---- Finding the queue -------------------------------------------------------------

  lemma FoundLane(s: State, i: nat)
    requires RegistryInv(s.lanes, s.shards, s.topicQ, |s.conns|, s.Open()) && s.Open() && s.producer.Sampled?
    requires ProducerInv(s.producer, s.lanes, |s.conns|, s.Open(), s.start, s.qsize)
    requires match RouteOf(s.producer.msg)
             case ToAgv(key) => key in s.shards && i == s.shards[key]
             case _ => i == s.topicQ
    ensures ProducerInv(Offering(s.producer.msg, s.producer.done, i), s.lanes, |s.conns|, s.Open(), s.start, s.qsize)
  {
    hide RouteOf, Droppable;
  }

  /** No fate names a lane or an epoch that does not exist yet. */
  lemma NothingSentYet(s: State)
    requires StampInv(s.arrived, s.fate, s.producer, s.start, s.qsize)
    requires FateInv(s.fate, s.arrived, s.lanes, |s.conns|, s.Open(), s.start, s.qsize)
    ensures SentTo(s.arrived, s.fate, |s.lanes|) == [] && PostedIn(s.arrived, s.fate, |s.conns|) == []
  {
    hide RouteOf, Droppable;
    forall m | m in s.arrived && m.receivedAt in s.fate
      ensures s.fate[m.receivedAt] != Sent(|s.lanes|) && s.fate[m.receivedAt] != Posted(|s.conns|)
    {
      var n :| 0 <= n < |s.arrived| && s.arrived[n] == m;
      assert FateOk(s.arrived[n], s.fate[n], s.lanes, |s.conns|, s.Open(), s.start, s.qsize);
    }
    FilterNone(s.arrived, (m: Inbound) => m.receivedAt in s.fate && s.fate[m.receivedAt] == Sent(|s.lanes|));
    FilterNone(s.arrived, (m: Inbound) => m.receivedAt in s.fate && s.fate[m.receivedAt] == Posted(|s.conns|));
  }

  lemma NewLaneFifo(s: State, l: Lane)
    requires FifoInv(s.lanes, s.qsize, s.arrived, s.fate) && SentTo(s.arrived, s.fate, |s.lanes|) == []
    requires l.sent == [] && l.buf == [] && l.delivered == [] && l.pc.Waiting?
    ensures FifoInv(s.lanes + [l], s.qsize, s.arrived, s.fate)
  {
    hide SentTo;
  }

  /** A new lane leaves every statement about the existing lanes as it was. */
  lemma NewLaneParts(s: State, l: Lane)
    requires ProducerInv(s.producer, s.lanes, |s.conns|, s.Open(), s.start, s.qsize)
    requires FateInv(s.fate, s.arrived, s.lanes, |s.conns|, s.Open(), s.start, s.qsize)
    ensures ProducerInv(s.producer, s.lanes + [l], |s.conns|, s.Open(), s.start, s.qsize)
    ensures FateInv(s.fate, s.arrived, s.lanes + [l], |s.conns|, s.Open(), s.start, s.qsize)
  {
    hide RouteOf, Droppable, DoneFresh;
  }

  lemma SpawnRegistry(s: State, key: string)
    requires RegistryInv(s.lanes, s.shards, s.topicQ, |s.conns|, s.Open()) && s.Open() && key !in s.shards
    ensures RegistryInv(s.lanes + [NewLane(|s.conns| - 1, ToAgv(key))], s.shards[key := |s.lanes|], s.topicQ,
                        |s.conns|, s.Open())
  {
    var l := NewLane(|s.conns| - 1, ToAgv(key));
    SpawnUnique(s.lanes, s.shards, s.topicQ, |s.conns|, key, l);
    SpawnKnown(s.lanes, s.shards, s.topicQ, |s.conns|, key, l);
    hide Registered, Known, UniqueLanes;
  }

  lemma SpawnUnique(lanes: seq<Lane>, shards: map<string, nat>, topicQ: nat, epochs: nat, key: string, l: Lane)
    requires UniqueLanes(lanes) && Known(lanes, shards, topicQ, epochs) && key !in shards
    requires l.epoch + 1 == epochs && l.route == ToAgv(key)
    ensures UniqueLanes(lanes + [l])
  {
    forall i | 0 <= i < |lanes|
      ensures lanes[i].epoch != l.epoch || lanes[i].route != l.route
    {
    }
    hide Known;
  }

  lemma SpawnKnown(lanes: seq<Lane>, shards: map<string, nat>, topicQ: nat, epochs: nat, key: string, l: Lane)
    requires Registered(lanes, shards, epochs) && Known(lanes, shards, topicQ, epochs) && key !in shards
    requires l.epoch + 1 == epochs && l.route == ToAgv(key)
    ensures Registered(lanes + [l], shards[key := |lanes|], epochs)
    ensures Known(lanes + [l], shards[key := |lanes|], topicQ, epochs)
  {
  }

  lemma SpawnWorkers(s: State, l: Lane)
    requires WorkerInv(s.lanes, s.conns, s.mode) && s.Open() && l.epoch + 1 == |s.conns| && l.pc.Waiting?
    ensures WorkerInv(s.lanes + [l], s.conns, s.mode)
  {
  }

  /** agvQueue starts a lane for a key that has none. */
  lemma SpawnLane(s: State, key: string)
    requires Inv(s) && s.Open() && key !in s.shards
    ensures Inv(s.(lanes := s.lanes + [NewLane(|s.conns| - 1, ToAgv(key))], shards := s.shards[key := |s.lanes|]))
  {
    hide FifoInv, RegistryInv, WorkerInv, FateInv, StampInv, ReportInv, PostInv, ProducerInv;
    hide CoalesceInv, CountInv, WakeInv, ConnKey, SentTo, PostedIn;
    var l := NewLane(|s.conns| - 1, ToAgv(key));
    NothingSentYet(s);
    NewLaneFifo(s, l);
    NewLaneParts(s, l);
    SpawnRegistry(s, key);
    SpawnWorkers(s, l);
  }

  lemma FindQueueStep(s: State)
    requires Inv(s) && s.producer.Sampled?
    ensures Inv(Apply(s, FindQueue))
  {
    hide FifoInv, RegistryInv, WorkerInv, FateInv, StampInv, ReportInv, PostInv, PendingInv;
    hide CoalesceInv, CountInv, WakeInv, RouteOf, Droppable, HasLane, DoneFresh;
    var p := s.producer;
    if !s.Open() {
      SettleUpdate(s, Lost, s.reports);
    } else if RouteOf(p.msg).ToAgv? && RouteOf(p.msg).key !in s.shards {
      var key := RouteOf(p.msg).key;
      var mid := s.(lanes := s.lanes + [NewLane(|s.conns| - 1, ToAgv(key))], shards := s.shards[key := |s.lanes|]);
      SpawnLane(s, key);
      FoundLane(mid, |s.lanes|);
      ProducerUpdate(mid, Offering(p.msg, p.done, |s.lanes|));
    } else {
      var i := if RouteOf(p.msg).ToAgv? then s.shards[RouteOf(p.msg).key] else s.topicQ;
      FoundLane(s, i);
      ProducerUpdate(s, Offering(p.msg, p.done, i));
    }
  }

  // ---- Posting a connection message ------------------------------------------------------

  lemma PostPending(all: seq<Inbound>, got: seq<Inbound>, m: Inbound)
    requires Subsequence(got, all)
    ensures var all' := all + [m]; all' != [] && all'[|all'| - 1] == m && Subsequence(got, all'[..|all'| - 1])
  {
    assert (all + [m])[..|all|] == all;
  }

  lemma PostKey(posted: seq<Inbound>, taken: seq<Inbound>, latest: map<string, Inbound>, m: Inbound, key: string)
    requires KeyCoalesced(posted, taken, latest, key)
    ensures KeyCoalesced(posted + [m], taken, latest[ConnKey(m) := m], key)
  {
    hide ConnKey, OnKey, Subsequence;
    OnKeySnoc(posted, m, key);
    var all, got := OnKey(posted, key), OnKey(taken, key);
    if key == ConnKey(m) {
      if key in latest {
        SubsequenceSkip(got, all[..|all| - 1], latest[key]);
        assert all[..|all| - 1] + [latest[key]] == all;
      }
      PostPending(all, got, m);
    } else {
      assert OnKey(posted + [m], key) == all;
    }
  }

  lemma PostValue(latest: map<string, Inbound>, m: Inbound)
    requires forall key | key in latest :: ConnKey(latest[key]) == key
    requires m !in latest.Values
    ensures var k := ConnKey(m);
            multiset(latest[k := m].Values) + (if k in latest then multiset{latest[k]} else multiset{})
            == multiset(latest.Values) + multiset{m}
  {
    var k := ConnKey(m);
    var latest' := latest[k := m];
    assert forall key | key in latest' :: ConnKey(latest'[key]) == key;
    TakeValue(latest', k);
    if k in latest {
      TakeValue(latest, k);
      assert latest - {k} == latest' - {k};
    } else {
      assert latest == latest' - {k};
    }
  }

  lemma PostCurrent(c: ConnLane, c': ConnLane, latest: map<string, Inbound>, m: Inbound)
    requires CoalesceInv(c, latest) && CountInv(c, latest)
    requires forall key | key in latest :: ConnKey(latest[key]) == key
    requires m !in c.posted
    requires c'.posted == c.posted + [m] && Taken(c') == Taken(c)
    requires c'.overwritten == c.overwritten + if ConnKey(m) in latest then [latest[ConnKey(m)]] else []
    ensures CoalesceInv(c', latest[ConnKey(m) := m]) && CountInv(c', latest[ConnKey(m) := m])
  {
    hide ConnKey, Taken, KeyCoalesced;
    var posted, taken, posted', taken', latest' := c.posted, Taken(c), c'.posted, Taken(c'), latest[ConnKey(m) := m];
    forall key
      ensures KeyCoalesced(posted', taken', latest', key)
    {
      assert KeyCoalesced(posted, taken, latest, key);
      PostKey(posted, taken, latest, m, key);
    }
    PendingIsPosted(c, latest, m);
    PostValue(latest, m);
    var over := if ConnKey(m) in latest then [latest[ConnKey(m)]] else [];
    assert multiset(c'.overwritten) == multiset(c.overwritten) + multiset(over);
    PostCount(multiset(c.posted), multiset(taken), multiset(c.overwritten), multiset(latest.Values),
              multiset(latest'.Values), m, multiset(over));
  }

  lemma PostCount(posted: multiset<Inbound>, taken: multiset<Inbound>, gone: multiset<Inbound>,
                  pending: multiset<Inbound>, pending': multiset<Inbound>, m: Inbound, over: multiset<Inbound>)
    requires posted == taken + gone + pending && pending' + over == pending + multiset{m}
    ensures posted + multiset{m} == taken + (gone + over) + pending'
  {
    assert posted + multiset{m} == taken + gone + (pending + multiset{m});
  }

  lemma PendingIsPosted(c: ConnLane, latest: map<string, Inbound>, m: Inbound)
    requires CountInv(c, latest) && m !in c.posted
    ensures m !in latest.Values
  {
    forall v | v in latest.Values
      ensures v in c.posted
    {
      assert multiset(latest.Values)[v] > 0;
      assert multiset(c.posted)[v] > 0;
    }
  }

  lemma PostQueues(s: State, e: nat, c: ConnLane)
    requires Inv(s) && s.producer.Posting? && e < |s.conns| && c.pc == s.conns[e].pc
    requires c.posted == s.conns[e].posted + [s.producer.msg]
    ensures var fate' := s.fate[s.producer.msg.receivedAt := Posted(e)];
            && FifoInv(s.lanes, s.qsize, s.arrived, fate') && PostInv(s.conns[e := c], s.arrived, fate')
            && WorkerInv(s.lanes, s.conns[e := c], s.mode)
            && s.producer.msg !in s.conns[e].posted
  {
    SettleStamp(s, Posted(e), Idle);
    assert s.producer.msg !in s.conns[e].posted by {
      assert s.conns[e].posted == PostedIn(s.arrived, s.fate, e);
    }
    hide RegistryInv, ProducerInv, StampInv, FateInv, ReportInv, PendingInv, CurrentInv;
    hide SentTo, PostedIn, Fifo;
  }

  lemma PostStep(s: State)
    requires Inv(s) && s.producer.Posting?
    ensures Inv(Apply(s, Post))
  {
    hide FifoInv, RegistryInv, WorkerInv, FateInv, StampInv, ReportInv, PostInv;
    hide CoalesceInv, CountInv, Taken, RouteOf, ConnKey, Droppable;
    var m := s.producer.msg;
    if !s.Open() {
      SettleUpdate(s, Lost, s.reports);
    } else {
      var e := |s.conns| - 1;
      var c := s.conns[e];
      var c' := Apply(s, Post).conns[e];
      SettleStamp(s, Posted(e), Waking(e));
      HeldIsRecent(s);
      SettleFates(s, Posted(e), s.reports);
      PostQueues(s, e, c');
      SameTaken(c, c');
      PostCurrent(c, c', s.connLatest, m);
    }
  }

  lemma SameTaken(c: ConnLane, c': ConnLane)
    requires c'.delivered == c.delivered && c'.pc == c.pc
    ensures Taken(c') == Taken(c)
  {
  }

  lemma WakeStep(s: State)
    requires Inv(s) && Enabled(s, Wake)
    ensures Inv(Apply(s, Wake))
  {
    hide FifoInv, RegistryInv, WorkerInv, FateInv, StampInv, ReportInv, PostInv, PendingInv;
    hide CoalesceInv, CountInv;
    var e := s.producer.epoch;
    ConnUpdate(s, e, s.conns[e].(wake := true));
    ProducerUpdate(SetConn(s, e, s.conns[e].(wake := true)), Idle);
  }

  // ---- The life cycle -----------------------------------------------------------------------

  lemma StartRegistry(s: State)
    requires RegistryInv(s.lanes, s.shards, s.topicQ, |s.conns|, s.Open())
    ensures RegistryInv(s.lanes + [NewLane(|s.conns|, ToTopic)], map[], |s.lanes|, |s.conns| + 1, true)
    ensures forall i | 0 <= i < |s.lanes| :: s.lanes[i].epoch < |s.conns|
  {
  }

  lemma StartWorkers(s: State)
    requires WorkerInv(s.lanes, s.conns, s.mode) && s.mode.Down?
    requires RegistryInv(s.lanes, s.shards, s.topicQ, |s.conns|, s.Open())
    ensures WorkerInv(s.lanes + [NewLane(|s.conns|, ToTopic)],
                      s.conns + [ConnLane(false, Selecting, [], [], [])], Connecting)
  {
  }

  /** What was read or settled before an epoch begins is about messages from before it. */
  lemma StartReferences(s: State)
    requires StampInv(s.arrived, s.fate, s.producer, s.start, s.qsize)
    requires ProducerInv(s.producer, s.lanes, |s.conns|, s.Open(), s.start, s.qsize)
    requires FateInv(s.fate, s.arrived, s.lanes, |s.conns|, s.Open(), s.start, s.qsize)
    requires forall i | 0 <= i < |s.lanes| :: s.lanes[i].epoch < |s.conns|
    ensures ProducerInv(s.producer, s.lanes, |s.conns| + 1, true, |s.arrived|, s.qsize)
    ensures FateInv(s.fate, s.arrived, s.lanes, |s.conns| + 1, true, |s.arrived|, s.qsize)
    ensures StampInv(s.arrived, s.fate, s.producer, |s.arrived|, s.qsize)
  {
    hide RouteOf, Droppable;
  }

  lemma StartCurrent()
    ensures CoalesceInv(ConnLane(false, Selecting, [], [], []), map[])
    ensures CountInv(ConnLane(false, Selecting, [], [], []), map[])
  {
    hide ConnKey;
    var taken := Taken(ConnLane(false, Selecting, [], [], []));
    forall key
      ensures KeyCoalesced([], taken, map[], key)
    {
      assert OnKey([], key) == [];
    }
  }

  lemma StartStep(s: State)
    requires Inv(s) && s.mode.Down?
    ensures Inv(Apply(s, StartDispatch))
  {
    hide FifoInv, RegistryInv, WorkerInv, FateInv, StampInv, ReportInv, ProducerInv, PostInv;
    hide CoalesceInv, CountInv, SentTo, PostedIn;
    var l := NewLane(|s.conns|, ToTopic);
    NothingSentYet(s);
    NewLaneFifo(s, l);
    StartRegistry(s);
    StartWorkers(s);
    StartReferences(s);
    NewLaneParts(s.(mode := Connecting, conns := s.conns + [ConnLane(false, Selecting, [], [], [])],
                    start := |s.arrived|), l);
    StartPosted(s);
    StartCurrent();
  }

  lemma StartPosted(s: State)
    requires PostInv(s.conns, s.arrived, s.fate) && PostedIn(s.arrived, s.fate, |s.conns|) == []
    ensures PostInv(s.conns + [ConnLane(false, Selecting, [], [], [])], s.arrived, s.fate)
  {
    hide PostedIn;
  }

  /** Closing the fields only weakens what is promised about open ones. */
  lemma CloseParts(s: State, shards: map<string, nat>)
    requires Inv(s)
    ensures RegistryInv(s.lanes, shards, s.topicQ, |s.conns|, false)
    ensures ProducerInv(s.producer, s.lanes, |s.conns|, false, s.start, s.qsize)
    ensures FateInv(s.fate, s.arrived, s.lanes, |s.conns|, false, s.start, s.qsize)
  {
    hide StampInv, WorkerInv, ReportInv, PostInv, PendingInv, CurrentInv, FifoInv, RouteOf, Droppable;
  }

  lemma ModeWorkers(s: State, mode: Mode)
    requires WorkerInv(s.lanes, s.conns, s.mode)
    requires mode.Down? ==> AllExited(s)
    requires !mode.Down? ==> !s.mode.Down? && (s.mode.Cancelled? ==> mode.Cancelled?)
    ensures WorkerInv(s.lanes, s.conns, mode)
  {
  }

  lemma LifeCycleStep(s: State, st: Step)
    requires Inv(s) && Enabled(s, st)
    requires st.Connected? || st.ClearDispatch? || st.CancelDispatch? || st.StopReturns?
    ensures Inv(Apply(s, st))
  {
    hide FifoInv, RegistryInv, WorkerInv, FateInv, StampInv, ReportInv, ProducerInv, PostInv;
    hide CoalesceInv, CountInv, WakeInv, AllExited;
    var s' := Apply(s, st);
    ModeWorkers(s, s'.mode);
    if !st.Connected? {
      CloseParts(s, s'.shards);
    }
    HasEpoch(s);
  }

  lemma HasEpoch(s: State)
    requires WorkerInv(s.lanes, s.conns, s.mode)
    ensures s.mode.Down? || |s.conns| > 0
  {
  }

  // ---- All steps ------------------------------------------------------------------------------

  lemma SampleStep(s: State)
    requires Inv(s) && s.producer.Routed?
    ensures Inv(Apply(s, Sample))
  {
    hide FifoInv, RegistryInv, WorkerInv, FateInv, StampInv, ReportInv, PostInv, PendingInv;
    hide CoalesceInv, CountInv, WakeInv, RouteOf, Droppable;
    ProducerUpdate(s, Apply(s, Sample).producer);
  }

  lemma FullLane(s: State, i: nat)
    requires FifoInv(s.lanes, s.qsize, s.arrived, s.fate) && i < |s.lanes|
    ensures |s.lanes[i].buf| <= s.qsize && Fifo(s.lanes[i], s.qsize)
  {
  }

  lemma OfferStep(s: State)
    requires Inv(s) && Enabled(s, Offer)
    ensures Inv(Apply(s, Offer))
  {
    hide FifoInv, RegistryInv, WorkerInv, FateInv, StampInv, ReportInv, PostInv, PendingInv;
    hide CoalesceInv, CountInv, WakeInv, RouteOf, Droppable;
    FullLane(s, s.producer.lane);
    if |s.lanes[s.producer.lane].buf| < s.qsize {
      HeldIsRecent(s);
      SendUpdate(s, s.producer.lane);
    } else {
      ProducerUpdate(s, Apply(s, Offer).producer);
    }
  }

  lemma BlockedStep(s: State, st: Step)
    requires Inv(s) && Enabled(s, st) && (st.Hook? || st.Unblock? || st.Abandon?)
    ensures Inv(Apply(s, st))
  {
    hide FifoInv, RegistryInv, WorkerInv, FateInv, StampInv, ReportInv, PostInv, PendingInv;
    hide CoalesceInv, CountInv, WakeInv, RouteOf, Droppable;
    var p := s.producer;
    if st.Hook? && Droppable(p.msg.topic) {
      SettleUpdate(s, Discarded(p.depth), s.reports + [Report(p.msg, DropDiscarded, p.depth)]);
    } else if st.Hook? {
      ReportBackpressure(s, Blocked(p.msg, p.done, p.lane));
    } else if st.Unblock? {
      HeldIsRecent(s);
      SendUpdate(s, p.lane);
    } else {
      SettleUpdate(s, Lost, s.reports);
    }
  }

  lemma LaneStep(s: State, st: Step)
    requires Inv(s) && Enabled(s, st) && (st.Receive? || st.Finish? || st.Quit?)
    ensures Inv(Apply(s, st))
  {
    hide FifoInv, RegistryInv, WorkerInv, FateInv, StampInv, ReportInv, PostInv, PendingInv, ProducerInv, CurrentInv;
    FullLane(s, st.lane);
    LaneUpdate(s, st.lane, Apply(s, st).lanes[st.lane]);
  }

  lemma ConnStep(s: State, st: Step)
    requires Inv(s) && Enabled(s, st) && (st.WakeUp? || st.DrainEnd? || st.Handled? || st.ConnQuit?)
    ensures Inv(Apply(s, st))
  {
    hide FifoInv, RegistryInv, WorkerInv, FateInv, StampInv, ReportInv, PostInv, PendingInv, ProducerInv;
    hide CoalesceInv, CountInv;
    ConnUpdate(s, st.epoch, Apply(s, st).conns[st.epoch]);
  }

  lemma StepKeepsInv(s: State, st: Step)
    requires Inv(s) && Enabled(s, st)
    ensures Inv(Apply(s, st))
  {
    hide Inv, Apply;
    match st
    case Arrive(topic, payload, handler) => ArriveStep(s, topic, payload, handler);
    case Sample => SampleStep(s);
    case FindQueue => FindQueueStep(s);
    case Offer => OfferStep(s);
    case Hook => BlockedStep(s, st);
    case Unblock => BlockedStep(s, st);
    case Abandon => BlockedStep(s, st);
    case Post => PostStep(s);
    case Wake => WakeStep(s);
    case Receive(_) => LaneStep(s, st);
    case Finish(_) => LaneStep(s, st);
    case Quit(_) => LaneStep(s, st);
    case WakeUp(_) => ConnStep(s, st);
    case Take(e, k) => TakeStep(s, e, k);
    case DrainEnd(_) => ConnStep(s, st);
    case Handled(_) => ConnStep(s, st);
    case ConnQuit(_) => ConnStep(s, st);
    case StartDispatch => StartStep(s);
    case Connected => LifeCycleStep(s, st);
    case ClearDispatch => LifeCycleStep(s, st);
    case CancelDispatch => LifeCycleStep(s, st);
    case StopReturns => LifeCycleStep(s, st);
  }

  lemma InitInv(configured: int)
    ensures Inv(Init(configured))
  {
  }

  lemma {:induction false} RunKeepsInv(s: State, steps: seq<Step>, s': State)
    requires Inv(s) && Runs(s, steps, s')
    ensures Inv(s')
    decreases |steps|
  {
    hide Inv, Apply, Enabled;
    if steps != [] {
      StepKeepsInv(s, steps[0]);
      RunKeepsInv(Apply(s, steps[0]), steps[1..], s');
    }
  }

  /** The invariant holds in every reachable state. */
  lemma {:induction false} RunsKeepSize(s: State, steps: seq<Step>, s': State)
    requires Runs(s, steps, s')
    ensures s'.qsize == s.qsize
    decreases |steps|
  {
    if steps != [] {
      StepKeepsSize(s, steps[0]);
      hide Apply, Enabled;
      RunsKeepSize(Apply(s, steps[0]), steps[1..], s');
    }
  }

  lemma StepKeepsSize(s: State, st: Step)
    requires Enabled(s, st)
    ensures Apply(s, st).qsize == s.qsize
  {
    hide RouteOf, ConnKey, Classify, Droppable;
  }

  lemma ReachableInv(s: State)
    requires Reachable(s)
    ensures Inv(s)
  {
    hide Inv, Runs;
    var configured, steps :| Runs(Init(configured), steps, s);
    InitInv(configured);
    RunKeepsInv(Init(configured), steps, s);
  }
}
