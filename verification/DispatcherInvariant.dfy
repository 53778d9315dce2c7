/**
 The inductive invariant of the dispatcher. It is kept in parts, each over the
 components it speaks of, so that a step has to be compared only with the
 parts whose components it changes.
 */
module DispatcherInvariant {
  import opened Streams
  import opened Topics
  import opened Dispatcher

  // ---- Selections from the arrivals ----------------------------------------

  ghost function SentTo(arrived: seq<Inbound>, fate: map<nat, Fate>, i: nat): seq<Inbound> {
    Filter(arrived, (m: Inbound) => m.receivedAt in fate && fate[m.receivedAt] == Sent(i))
  }

  ghost function PostedIn(arrived: seq<Inbound>, fate: map<nat, Fate>, e: nat): seq<Inbound> {
    Filter(arrived, (m: Inbound) => m.receivedAt in fate && fate[m.receivedAt] == Posted(e))
  }

  /** The messages of a stream that are coalesced under key. */
  ghost function OnKey(a: seq<Inbound>, key: string): seq<Inbound> {
    Filter(a, (m: Inbound) => ConnKey(m) == key)
  }

  ghost function InHand(pc: WorkerPc): seq<Inbound> {
    if pc.Running? then [pc.msg] else []
  }

  ghost function Taken(c: ConnLane): seq<Inbound> {
    c.delivered + if c.pc.Handling? then [c.pc.msg] else []
  }

  ghost predicate Holding(p: Producer) {
    !p.Idle? && !p.Waking?
  }

  // ---- The parts of the invariant -------------------------------------------

  /** Arrivals are stamped in order; all are settled but the one the producer holds, the last. */
  ghost predicate StampInv(arrived: seq<Inbound>, fate: map<nat, Fate>, p: Producer, start: nat, qsize: nat) {
    && (forall i | 0 <= i < |arrived| :: arrived[i].receivedAt == i)
    && (forall n: nat :: n in fate <==> n < |arrived| && !(Holding(p) && n == |arrived| - 1))
    && (Holding(p) ==> |arrived| > 0 && p.msg == arrived[|arrived| - 1])
    && start <= |arrived|
    && qsize > 0
  }

  ghost predicate Fifo(l: Lane, qsize: nat) {
    |l.buf| <= qsize && l.sent == l.delivered + InHand(l.pc) + l.buf
  }

  /** Every lane is a bounded FIFO, and what was sent to it is what the fates say. */
  ghost predicate FifoInv(lanes: seq<Lane>, qsize: nat, arrived: seq<Inbound>, fate: map<nat, Fate>) {
    forall i | 0 <= i < |lanes| :: Fifo(lanes[i], qsize) && lanes[i].sent == SentTo(arrived, fate, i)
  }

  ghost predicate Registered(lanes: seq<Lane>, shards: map<string, nat>, epochs: nat) {
    forall key | key in shards ::
      shards[key] < |lanes| && lanes[shards[key]].epoch + 1 == epochs && lanes[shards[key]].route == ToAgv(key)
  }

  ghost predicate Known(lanes: seq<Lane>, shards: map<string, nat>, topicQ: nat, epochs: nat) {
    forall i | 0 <= i < |lanes| && lanes[i].epoch + 1 == epochs ::
      match lanes[i].route
      case ToAgv(key) => key in shards && shards[key] == i
      case _ => i == topicQ
  }

  /** Epoch and route are a key of the lanes. */
  ghost predicate UniqueLanes(lanes: seq<Lane>) {
    forall i, j | 0 <= i < |lanes| && 0 <= j < |lanes|
                  && lanes[i].epoch == lanes[j].epoch && lanes[i].route == lanes[j].route :: i == j
  }

  /** While the fields are set, exactly the current epoch's lanes are registered, one per route. */
  ghost predicate RegistryInv(lanes: seq<Lane>, shards: map<string, nat>, topicQ: nat, epochs: nat, open: bool) {
    && (forall i | 0 <= i < |lanes| :: lanes[i].epoch < epochs && !lanes[i].route.ToConnection?)
    && (open ==>
          && topicQ < |lanes| && lanes[topicQ].epoch + 1 == epochs && lanes[topicQ].route.ToTopic?
          && Registered(lanes, shards, epochs) && Known(lanes, shards, topicQ, epochs))
    && UniqueLanes(lanes)
  }

  /** Workers run exactly while their epoch's context lasts, and all are gone once Stop has returned. */
  ghost predicate WorkerInv(lanes: seq<Lane>, conns: seq<ConnLane>, mode: Mode) {
    && (forall i | 0 <= i < |lanes| ::
          && (lanes[i].epoch + 1 < |conns| || mode.Down? ==> lanes[i].pc.Exited?)
          && (!ContextOver(lanes[i].epoch, |conns|, mode) ==> !lanes[i].pc.Exited?))
    && (forall e | 0 <= e < |conns| ::
          && (e + 1 < |conns| || mode.Down? ==> conns[e].pc.Gone?)
          && (!ContextOver(e, |conns|, mode) ==> !conns[e].pc.Gone?))
    && (mode.Down? || |conns| > 0)
  }

  ghost predicate DoneFresh(m: Inbound, done: Done, epochs: nat, open: bool, start: nat) {
    && (done.DoneOf? ==> done.epoch < epochs)
    && (open && m.receivedAt >= start ==> done.DoneOf? && done.epoch + 1 == epochs)
  }

  ghost predicate HasLane(m: Inbound, done: Done, i: nat, lanes: seq<Lane>, epochs: nat, open: bool, start: nat) {
    && DoneFresh(m, done, epochs, open, start)
    && i < |lanes|
    && lanes[i].route == RouteOf(m)
    && (done.DoneOf? ==> done.epoch <= lanes[i].epoch)
    && (open && m.receivedAt >= start ==> lanes[i].epoch + 1 == epochs)
  }

  /** What the producer has read so far. Only a message from before this epoch may carry stale reads. */
  ghost predicate ProducerInv(p: Producer, lanes: seq<Lane>, epochs: nat, open: bool, start: nat, qsize: nat) {
    match p
    case Idle => true
    case Routed(m) => !RouteOf(m).ToConnection?
    case Sampled(m, done) => !RouteOf(m).ToConnection? && DoneFresh(m, done, epochs, open, start)
    case Offering(m, done, i) => HasLane(m, done, i, lanes, epochs, open, start)
    case Refused(m, done, i, depth) => HasLane(m, done, i, lanes, epochs, open, start) && depth == qsize
    case Blocked(m, done, i) => HasLane(m, done, i, lanes, epochs, open, start) && !Droppable(m.topic)
    case Posting(m) => RouteOf(m).ToConnection?
    case Waking(e) => e < epochs
  }

  /** What a settled message's fate says about it. */
  ghost predicate FateOk(m: Inbound, f: Fate, lanes: seq<Lane>, epochs: nat, open: bool, start: nat, qsize: nat) {
    match f
    case Sent(i) =>
      && i < |lanes| && lanes[i].route == RouteOf(m)
      && (open && m.receivedAt >= start ==> lanes[i].epoch + 1 == epochs)
      && (open && lanes[i].epoch + 1 == epochs ==> m.receivedAt + 1 >= start)
    case Posted(e) =>
      && e < epochs && RouteOf(m).ToConnection?
      && (open && m.receivedAt >= start ==> e + 1 == epochs)
      && (open && e + 1 == epochs ==> m.receivedAt + 1 >= start)
    case Discarded(depth) => depth == qsize && Droppable(m.topic)
    case Lost => open ==> m.receivedAt < start
  }

  ghost predicate FateInv(fate: map<nat, Fate>, arrived: seq<Inbound>, lanes: seq<Lane>, epochs: nat, open: bool,
                          start: nat, qsize: nat) {
    forall n: nat | n in fate && n < |arrived| :: FateOk(arrived[n], fate[n], lanes, epochs, open, start, qsize)
  }

  /** The hook is told of full queues only, and of a loss exactly for the discarded messages. */
  ghost predicate ReportInv(reports: seq<Report>, arrived: seq<Inbound>, fate: map<nat, Fate>, qsize: nat) {
    && (forall r | r in reports ::
          && r.depth == qsize
          && r.msg.receivedAt < |arrived| && arrived[r.msg.receivedAt] == r.msg
          && (r.reason.DropDiscarded? <==> Droppable(r.msg.topic))
          && (r.reason.DropDiscarded? ==>
                r.msg.receivedAt in fate && fate[r.msg.receivedAt] == Discarded(r.depth)))
    && (forall n: nat | n in fate && n < |arrived| && fate[n].Discarded? ::
          Report(arrived[n], DropDiscarded, fate[n].depth) in reports)
  }

  ghost predicate PostInv(conns: seq<ConnLane>, arrived: seq<Inbound>, fate: map<nat, Fate>) {
    forall e | 0 <= e < |conns| :: conns[e].posted == PostedIn(arrived, fate, e)
  }

  ghost predicate PendingInv(latest: map<string, Inbound>, shards: map<string, nat>, open: bool) {
    && (forall key | key in latest :: ConnKey(latest[key]) == key)
    && (!open ==> latest == map[] && shards == map[])
  }

  /** Latest wins: the pending message of a key is its last posted one; without one, the last was taken. */
  ghost predicate KeyCoalesced(posted: seq<Inbound>, taken: seq<Inbound>, latest: map<string, Inbound>, key: string) {
    var all, got := OnKey(posted, key), OnKey(taken, key);
    if key in latest then
      all != [] && all[|all| - 1] == latest[key] && Subsequence(got, all[..|all| - 1])
    else
      Coalesced(all, got)
  }

  ghost predicate CoalesceInv(c: ConnLane, latest: map<string, Inbound>) {
    var posted, taken := c.posted, Taken(c);
    forall key :: KeyCoalesced(posted, taken, latest, key)
  }

  /** No posted message disappears but by being overwritten. */
  ghost predicate CountInv(c: ConnLane, latest: map<string, Inbound>) {
    multiset(c.posted) == multiset(Taken(c)) + multiset(c.overwritten) + multiset(latest.Values)
  }

  /** No wakeup is lost. */
  ghost predicate WakeInv(c: ConnLane, latest: map<string, Inbound>, p: Producer, epoch: nat) {
    latest != map[] ==> c.wake || c.pc.Draining? || c.pc.Handling? || p == Waking(epoch)
  }

  ghost predicate CurrentInv(s: State) {
    s.Open() ==>
      var e := |s.conns| - 1;
      CoalesceInv(s.conns[e], s.connLatest) && CountInv(s.conns[e], s.connLatest)
      && WakeInv(s.conns[e], s.connLatest, s.producer, e)
  }

  ghost predicate Inv(s: State) {
    && StampInv(s.arrived, s.fate, s.producer, s.start, s.qsize)
    && FifoInv(s.lanes, s.qsize, s.arrived, s.fate)
    && RegistryInv(s.lanes, s.shards, s.topicQ, |s.conns|, s.Open())
    && WorkerInv(s.lanes, s.conns, s.mode)
    && ProducerInv(s.producer, s.lanes, |s.conns|, s.Open(), s.start, s.qsize)
    && FateInv(s.fate, s.arrived, s.lanes, |s.conns|, s.Open(), s.start, s.qsize)
    && ReportInv(s.reports, s.arrived, s.fate, s.qsize)
    && PostInv(s.conns, s.arrived, s.fate)
    && PendingInv(s.connLatest, s.shards, s.Open())
    && CurrentInv(s)
  }
}
