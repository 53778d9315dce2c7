/**
 The id ledger of an egress loop (examples/dispatch-egress-sketch/main.go):
 ids are issued, published, and then recorded, fenced or taken back according
 to the publish outcome. Over every run, which ids were in flight more than once?
 */
module Ledgers {
  import opened Streams
  import opened Topics
  import opened Subscriptions
  import opened Outcomes
  import opened Outbound
  import opened PublishPath

  // ---- One attempt and its effect on the ledger -------------------------------------------

  /** A publish that used the issued ids: never sent and reusable, never sent but not known to be, or sent. */
  datatype Attempt = Refused | Unencodable | Sent(fate: Fate)

  datatype Packed = Packed(headerId: uint32, updateId: uint32, fate: Fate)

  datatype Ids = Ids(headerId: uint32, updateId: uint32)

  /** The ledger's counters and books and, in order, the packets sent with its ids. */
  datatype Egress = Egress(nextHeader: uint32, nextUpdate: uint32, recorded: seq<Ids>, fenced: seq<Ids>,
                           sent: seq<Packed>)

  /** uint32 arithmetic. */
  function Wrap(n: nat): uint32 {
    n % UINT32_RANGE
  }

  function Next(id: uint32): uint32 {
    Wrap(id + 1)
  }

  /** May the issued ids get past validation? */
  ghost predicate Passes(opts: Validation, s: Egress) {
    opts.disabled || ((s.nextHeader != 0 || opts.allowZeroHeaderId) && s.nextUpdate != 0)
  }

  /** Fenced: the outcome is uncertain. */
  ghost predicate Fences(a: Attempt) {
    a.Unencodable? || a == Sent(Unresolved)
  }

  ghost predicate Consumes(a: Attempt) {
    a == Sent(Completed) || Fences(a)
  }

  ghost function Step(s: Egress, a: Attempt): Egress {
    var ids := Ids(s.nextHeader, s.nextUpdate);
    Egress(if Consumes(a) then Next(s.nextHeader) else s.nextHeader,
           if Consumes(a) then Next(s.nextUpdate) else s.nextUpdate,
           if a == Sent(Completed) then s.recorded + [ids] else s.recorded,
           if Fences(a) then s.fenced + [ids] else s.fenced,
           if a.Sent? then s.sent + [Packed(s.nextHeader, s.nextUpdate, a.fate)] else s.sent)
  }

  ghost function Begin(header: uint32, update: uint32): Egress {
    Egress(header, update, [], [], [])
  }

  /** The run of the given attempts leads from ids (header, update) to s. */
  ghost predicate Runs(opts: Validation, header: uint32, update: uint32, attempts: seq<Attempt>, s: Egress) {
    if attempts == [] then s == Begin(header, update)
    else
      var n := |attempts| - 1;
      exists before :: Runs(opts, header, update, attempts[..n], before)
                       && (attempts[n].Refused? || Passes(opts, before)) && s == Step(before, attempts[n])
  }

  lemma RunsSnoc(opts: Validation, header: uint32, update: uint32, attempts: seq<Attempt>, s: Egress, a: Attempt)
    requires Runs(opts, header, update, attempts, s) && (a.Refused? || Passes(opts, s))
    ensures Runs(opts, header, update, attempts + [a], Step(s, a))
  {
    assert (attempts + [a])[..|attempts|] == attempts;
  }

  /** The ids of the packets that were accepted or left unresolved. */
  ghost function InFlight(sent: seq<Packed>): seq<uint32> {
    if sent == [] then []
    else
      var p := sent[|sent| - 1];
      InFlight(sent[..|sent| - 1]) + if p.fate.Rejected? then [] else [p.headerId]
  }

  /** What one attempt adds to the packets in flight, and what is issued next. */
  lemma StepEffect(s: Egress, a: Attempt)
    ensures var s' := Step(s, a);
            && InFlight(s'.sent) == InFlight(s.sent) + (if Consumes(a) && a.Sent? then [s.nextHeader] else [])
            && s'.nextHeader == (if Consumes(a) then Next(s.nextHeader) else s.nextHeader)
            && s'.nextUpdate == (if Consumes(a) then Next(s.nextUpdate) else s.nextUpdate)
  {
    hide Next;
    if a.Sent? {
      var p := Packed(s.nextHeader, s.nextUpdate, a.fate);
      assert (s.sent + [p])[..|s.sent|] == s.sent;
    }
  }

  /** The state before the last attempt of a run. */
  lemma Unrun(opts: Validation, header: uint32, update: uint32, attempts: seq<Attempt>,
        s: Egress) returns (before: Egress)
    requires Runs(opts, header, update, attempts, s) && attempts != []
    ensures var n := |attempts| - 1;
            Runs(opts, header, update, attempts[..n], before)
            && (attempts[n].Refused? || Passes(opts, before)) && s == Step(before, attempts[n])
  {
    hide Passes, Step;
    var n := |attempts| - 1;
    before :| Runs(opts, header, update, attempts[..n], before)
              && (attempts[n].Refused? || Passes(opts, before)) && s == Step(before, attempts[n]);
  }

  lemma NoRun(opts: Validation, header: uint32, update: uint32, s: Egress)
    requires Runs(opts, header, update, [], s)
    ensures s == Begin(header, update) && InFlight(s.sent) == []
  {
  }

  // ---- Ids are never in flight twice -------------------------------------------------------

  ghost predicate Increasing(ids: seq<uint32>) {
    forall i, j | 0 <= i < j < |ids| :: ids[i] < ids[j]
  }

  ghost predicate Below(ids: seq<uint32>, limit: int) {
    forall i | 0 <= i < |ids| :: ids[i] < limit
  }

  /** What is issued next is above everything in flight, or the counter has wrapped to zero. */
  ghost predicate Ahead(s: Egress) {
    Increasing(InFlight(s.sent)) && (s.nextHeader != 0 ==> Below(InFlight(s.sent), s.nextHeader))
  }

  lemma NextSmall(id: uint32)
    ensures Next(id) == if id + 1 == UINT32_RANGE then 0 else id + 1
  {
  }

  lemma IncreasingSnoc(ids: seq<uint32>, id: uint32)
    requires Increasing(ids) && Below(ids, id)
    ensures Increasing(ids + [id]) && Below(ids + [id], id + 1) && Below(ids, id + 1)
  {
  }

  lemma AheadStep(opts: Validation, s: Egress, a: Attempt)
    requires Ahead(s) && (a.Refused? || Passes(opts, s)) && !opts.disabled && !opts.allowZeroHeaderId
    ensures Ahead(Step(s, a))
  {
    StepEffect(s, a);
    hide Step, InFlight, Increasing, Below, Next;
    assert InFlight(s.sent) + [] == InFlight(s.sent);
    if Consumes(a) {
      NextSmall(s.nextHeader);
      IncreasingSnoc(InFlight(s.sent), s.nextHeader);
    }
  }

  /**
   With the default validation the header ids of everything accepted or left unresolved are strictly
   increasing over every run, from any starting ids, across the wrap of the 32-bit counter.
   */
  lemma {:induction false} NeverReused(opts: Validation, header: uint32, update: uint32, attempts: seq<Attempt>,
        s: Egress)
    requires Runs(opts, header, update, attempts, s) && !opts.disabled && !opts.allowZeroHeaderId
    ensures Ahead(s)
  {
    hide Runs, Step, Passes, InFlight;
    if attempts == [] {
      NoRun(opts, header, update, s);
    } else {
      var n := |attempts| - 1;
      var before := Unrun(opts, header, update, attempts, s);
      NeverReused(opts, header, update, attempts[..n], before);
      AheadStep(opts, before, attempts[n]);
    }
  }

  /** A wrapped counter stops the ledger for good: nothing is sent any more. */
  lemma {:induction false} WrappedStaysSilent(opts: Validation, update: uint32, attempts: seq<Attempt>, s: Egress)
    requires Runs(opts, 0, update, attempts, s) && !opts.disabled && !opts.allowZeroHeaderId
    ensures s == Begin(0, update) && forall a | a in attempts :: a.Refused?
  {
    hide Runs, InFlight, Next;
    if attempts == [] {
      NoRun(opts, 0, update, s);
    } else {
      var n := |attempts| - 1;
      var before := Unrun(opts, 0, update, attempts, s);
      WrappedStaysSilent(opts, update, attempts[..n], before);
      assert attempts == attempts[..n] + [attempts[n]];
    }
  }

  // ---- Other validation settings --------------------------------------------------------------

  /** How many pairs of ids have been used up. */
  ghost function Used(attempts: seq<Attempt>): nat {
    if attempts == [] then 0
    else Used(attempts[..|attempts| - 1]) + if Consumes(attempts[|attempts| - 1]) then 1 else 0
  }

  /** The ids in flight are, in order, some of the first used ones, each at most once. */
  ghost predicate Numbered(header: uint32, used: nat, ids: seq<uint32>, at: seq<nat>) {
    && |at| == |ids|
    && (forall i, j | 0 <= i < j < |at| :: at[i] < at[j])
    && (forall i | 0 <= i < |at| :: at[i] < used && ids[i] == Wrap(header + at[i]))
  }

  lemma NextWrap(n: nat)
    ensures Next(Wrap(n)) == Wrap(n + 1)
  {
  }

  lemma WrapSmall(n: nat)
    ensures n < UINT32_RANGE ==> Wrap(n) == n
    ensures n == UINT32_RANGE ==> Wrap(n) == 0
  {
  }

  lemma NumberedSnoc(header: uint32, used: nat, ids: seq<uint32>, at: seq<nat>)
    requires Numbered(header, used, ids, at)
    ensures Numbered(header, used + 1, ids + [Wrap(header + used)], at + [used])
    ensures Numbered(header, used + 1, ids, at)
  {
    hide Wrap;
  }

  lemma {:induction false} IdsNumbered(opts: Validation, header: uint32, update: uint32, attempts: seq<Attempt>,
        s: Egress)
    returns (at: seq<nat>)
    requires Runs(opts, header, update, attempts, s)
    ensures s.nextHeader == Wrap(header + Used(attempts)) && s.nextUpdate == Wrap(update + Used(attempts))
    ensures Numbered(header, Used(attempts), InFlight(s.sent), at)
  {
    hide Runs, Step, Passes, InFlight, Wrap, Next;
    at := [];
    if attempts == [] {
      NoRun(opts, header, update, s);
      WrapSmall(header);
      WrapSmall(update);
    } else {
      var n := |attempts| - 1;
      var before := Unrun(opts, header, update, attempts, s);
      at := IdsNumbered(opts, header, update, attempts[..n], before);
      var used := Used(attempts[..n]);
      StepEffect(before, attempts[n]);
      hide Numbered;
      if Consumes(attempts[n]) {
        NumberedSnoc(header, used, InFlight(before.sent), at);
        NextWrap(header + used);
        NextWrap(update + used);
        at := if attempts[n].Sent? then at + [used] else at;
      }
      assert InFlight(before.sent) + [] == InFlight(before.sent);
    }
  }

  /** With the update id still checked, fewer than 2^32 pairs can ever be used. */
  lemma {:induction false} UsedBound(opts: Validation, header: uint32, update: uint32, attempts: seq<Attempt>,
        s: Egress)
    requires Runs(opts, header, update, attempts, s) && !opts.disabled
    ensures update + Used(attempts) <= UINT32_RANGE && (update == 0 ==> Used(attempts) == 0)
  {
    hide Runs, Step, InFlight, Wrap, Numbered;
    if attempts != [] {
      var n := |attempts| - 1;
      var before := Unrun(opts, header, update, attempts, s);
      UsedBound(opts, header, update, attempts[..n], before);
      if !attempts[n].Refused? {
        var at := IdsNumbered(opts, header, update, attempts[..n], before);
        WrapSmall(update + Used(attempts[..n]));
      }
    }
  }

  /** Less than a full turn of the counter keeps ids apart. */
  lemma WrapInjective(start: uint32, a: nat, b: nat)
    requires a < b < UINT32_RANGE
    ensures Wrap(start + a) != Wrap(start + b)
  {
    WrapValue(start, a);
    WrapValue(start, b);
  }

  lemma WrapValue(start: uint32, a: nat)
    requires a < UINT32_RANGE
    ensures Wrap(start + a) == if start + a < UINT32_RANGE then start + a else start + a - UINT32_RANGE
  {
  }

  lemma NumberedDistinct(header: uint32, used: nat, ids: seq<uint32>, at: seq<nat>)
    requires Numbered(header, used, ids, at) && used <= UINT32_RANGE
    ensures Distinct(ids)
  {
    hide Wrap;
    forall i, j | 0 <= i < j < |ids|
      ensures ids[i] != ids[j]
    {
      WrapInjective(header, at[i], at[j]);
    }
  }

  // ---- Exactly when ids are reused ------------------------------------------------------------

  function Accepts(n: nat): seq<Attempt> {
    seq(n, _ => Sent(Completed))
  }

  /** n accepted publishes in a row, as far as validation lets them. */
  lemma {:induction false} AcceptedRun(opts: Validation, header: uint32, update: uint32, n: nat) returns (s: Egress)
    requires opts.disabled || (opts.allowZeroHeaderId && 0 < update && update + n <= UINT32_RANGE)
    ensures Runs(opts, header, update, Accepts(n), s)
    ensures s.nextHeader == Wrap(header + n) && s.nextUpdate == Wrap(update + n)
    ensures |InFlight(s.sent)| == n && forall i | 0 <= i < n :: InFlight(s.sent)[i] == Wrap(header + i)
  {
    hide Step, InFlight, Wrap, Next;
    if n == 0 {
      s := Begin(header, update);
      NoRun(opts, header, update, s);
      WrapSmall(header);
      WrapSmall(update);
    } else {
      hide Runs;
      var before := AcceptedRun(opts, header, update, n - 1);
      s := Step(before, Sent(Completed));
      AcceptsSnoc(n - 1);
      WrapSmall(update + n - 1);
      RunsSnoc(opts, header, update, Accepts(n - 1), before, Sent(Completed));
      StepEffect(before, Sent(Completed));
      NextWrap(header + n - 1);
      NextWrap(update + n - 1);
    }
  }

  lemma AcceptsSnoc(n: nat)
    ensures Accepts(n + 1) == Accepts(n) + [Sent(Completed)]
  {
  }

  /** No header id is ever in flight twice exactly when validation has not been disabled. */
  lemma DistinctExactly(opts: Validation, header: uint32, update: uint32)
    ensures (forall attempts, s | Runs(opts, header, update, attempts, s) :: Distinct(InFlight(s.sent)))
            <==> !opts.disabled
  {
    hide Runs, InFlight, Numbered, Wrap;
    if opts.disabled {
      var s := AcceptedRun(opts, header, update, UINT32_RANGE + 1);
      FullTurn(header);
      assert InFlight(s.sent)[0] == InFlight(s.sent)[UINT32_RANGE];
    } else {
      forall attempts, s | Runs(opts, header, update, attempts, s)
        ensures Distinct(InFlight(s.sent))
      {
        var at := IdsNumbered(opts, header, update, attempts, s);
        UsedBound(opts, header, update, attempts, s);
        NumberedDistinct(header, Used(attempts), InFlight(s.sent), at);
      }
    }
  }

  lemma FullTurn(header: uint32)
    ensures Wrap(header + 0) == Wrap(header + UINT32_RANGE)
  {
  }

  lemma NumberedIncreasing(header: uint32, used: nat, ids: seq<uint32>, at: seq<nat>)
    requires Numbered(header, used, ids, at) && header + used <= UINT32_RANGE
    ensures Increasing(ids)
  {
    hide Wrap;
    forall i | 0 <= i < |ids|
      ensures ids[i] == header + at[i]
    {
      WrapSmall(header + at[i]);
    }
  }

  /** With zero header ids allowed, ids increase over every run exactly when the update id runs out first. */
  lemma IncreasingExactly(opts: Validation, header: uint32, update: uint32)
    requires !opts.disabled && opts.allowZeroHeaderId
    ensures (forall attempts, s | Runs(opts, header, update, attempts, s) :: Increasing(InFlight(s.sent)))
            <==> update == 0 || header <= update
  {
    hide Runs, InFlight, Increasing, Numbered, Wrap;
    if update == 0 || header <= update {
      forall attempts, s | Runs(opts, header, update, attempts, s)
        ensures Increasing(InFlight(s.sent))
      {
        var at := IdsNumbered(opts, header, update, attempts, s);
        UsedBound(opts, header, update, attempts, s);
        NumberedIncreasing(header, Used(attempts), InFlight(s.sent), at);
      }
    } else {
      var n := UINT32_RANGE - header;
      var s := AcceptedRun(opts, header, update, n + 1);
      WrapBreaksOrder(header, InFlight(s.sent));
    }
  }

  lemma WrapBreaksOrder(header: uint32, ids: seq<uint32>)
    requires 0 < header && |ids| == UINT32_RANGE - header + 1
    requires forall i | 0 <= i < |ids| :: ids[i] == Wrap(header + i)
    ensures !Increasing(ids)
  {
    hide Wrap;
    var n := UINT32_RANGE - header;
    WrapSmall(header + 0);
    WrapSmall(header + n);
    assert ids[0] == header && ids[n] == 0;
  }

  // ---- The books ---------------------------------------------------------------------------------

  ghost function IdsOf(sent: seq<Packed>, fate: Fate): seq<Ids> {
    if sent == [] then []
    else
      var p := sent[|sent| - 1];
      IdsOf(sent[..|sent| - 1], fate) + if p.fate == fate then [Ids(p.headerId, p.updateId)] else []
  }

  lemma IdsOfSnoc(sent: seq<Packed>, p: Packed, fate: Fate)
    ensures IdsOf(sent + [p], fate) == IdsOf(sent, fate) + if p.fate == fate then [Ids(p.headerId, p.updateId)] else []
  {
    assert (sent + [p])[..|sent|] == sent;
  }

  lemma BooksStep(s: Egress, a: Attempt)
    requires s.recorded == IdsOf(s.sent, Completed) && Subsequence(IdsOf(s.sent, Unresolved), s.fenced)
    ensures var s' := Step(s, a);
            && s'.recorded == IdsOf(s'.sent, Completed) && Subsequence(IdsOf(s'.sent, Unresolved), s'.fenced)
            && (s.fenced == IdsOf(s.sent, Unresolved) && !a.Unencodable? ==> s'.fenced == IdsOf(s'.sent, Unresolved))
  {
    var ids := Ids(s.nextHeader, s.nextUpdate);
    if a.Sent? {
      var p := Packed(s.nextHeader, s.nextUpdate, a.fate);
      IdsOfSnoc(s.sent, p, Completed);
      IdsOfSnoc(s.sent, p, Unresolved);
    }
    hide IdsOf, Subsequence, Next;
    assert IdsOf(s.sent, Unresolved) + [] == IdsOf(s.sent, Unresolved) && s.recorded + [] == s.recorded;
    SubsequenceSkip(IdsOf(s.sent, Unresolved), s.fenced, ids);
    SubsequenceTake(IdsOf(s.sent, Unresolved), s.fenced, ids);
  }

  /** Over every run the ledger records exactly the accepted packets, in order, and fences every unresolved one. */
  lemma {:induction false} BooksAreRight(opts: Validation, header: uint32, update: uint32, attempts: seq<Attempt>,
        s: Egress)
    requires Runs(opts, header, update, attempts, s)
    ensures s.recorded == IdsOf(s.sent, Completed) && Subsequence(IdsOf(s.sent, Unresolved), s.fenced)
    ensures Unencodable !in attempts ==> s.fenced == IdsOf(s.sent, Unresolved)
  {
    hide Runs, Step, Passes;
    if attempts == [] {
      NoRun(opts, header, update, s);
    } else {
      hide IdsOf, Subsequence;
      var n := |attempts| - 1;
      var before := Unrun(opts, header, update, attempts, s);
      BooksAreRight(opts, header, update, attempts[..n], before);
      BooksStep(before, attempts[n]);
    }
  }

  // ---- The loop itself ---------------------------------------------------------------------------

  /** What became of the issued ids, given the outcome and the packets the publish sent. */
  ghost function AttemptOf(outcome: Outcome, sent: seq<Packet>): Attempt {
    if sent != [] then Sent(sent[0].fate) else if outcome.NotStarted? then Refused else Unencodable
  }

  class Ledger {
    var nextHeader: uint32
    var nextUpdate: uint32
    var recorded: seq<Ids>
    var fenced: seq<Ids>
    /** The validation settings of the client the ledger is used with, and the run so far. */
    ghost const opts: Validation
    ghost const firstHeader: uint32
    ghost const firstUpdate: uint32
    ghost var attempts: seq<Attempt>
    ghost var sent: seq<Packed>

    ghost function State(): Egress
      reads this
    {
      Egress(nextHeader, nextUpdate, recorded, fenced, sent)
    }

    ghost predicate Valid()
      reads this
    {
      Runs(opts, firstHeader, firstUpdate, attempts, State())
    }

    constructor (header: uint32, update: uint32, ghost opts: Validation)
      ensures Valid() && this.opts == opts && State() == Begin(header, update)
      ensures firstHeader == header && firstUpdate == update && attempts == []
    {
      nextHeader, nextUpdate, recorded, fenced := header, update, [], [];
      this.opts, firstHeader, firstUpdate, attempts, sent := opts, header, update, [], [];
    }

    /** GetNext issues the current ids; they stay current until recorded or fenced. */
    method GetNext() returns (headerId: uint32, updateId: uint32)
      ensures headerId == nextHeader && updateId == nextUpdate
    {
      return nextHeader, nextUpdate;
    }

    method RecordSuccessfulPublish(headerId: uint32, updateId: uint32)
      modifies this`recorded, this`nextHeader, this`nextUpdate
      ensures recorded == old(recorded) + [Ids(headerId, updateId)]
      ensures nextHeader == Next(headerId) && nextUpdate == Next(updateId)
      ensures nextHeader == (headerId + 1) % 0x1_0000_0000 && nextUpdate == (updateId + 1) % 0x1_0000_0000
    {
      recorded := recorded + [Ids(headerId, updateId)];
      nextHeader, nextUpdate := Next(headerId), Next(updateId);
    }

    method Fence(headerId: uint32, updateId: uint32)
      modifies this`fenced, this`nextHeader, this`nextUpdate
      ensures fenced == old(fenced) + [Ids(headerId, updateId)]
      ensures nextHeader == Next(headerId) && nextUpdate == Next(updateId)
      ensures nextHeader == (headerId + 1) % 0x1_0000_0000 && nextUpdate == (updateId + 1) % 0x1_0000_0000
    {
      fenced := fenced + [Ids(headerId, updateId)];
      nextHeader, nextUpdate := Next(headerId), Next(updateId);
    }

    /**
     * publishOrderOnce: one step of the run. The packet it sent, if any, carries the issued ids, and its
     * error is nil exactly for an accepted packet and keeps the publish's outcome otherwise.
     */
    method PublishOrderOnce(agv: AGVHandle, orderId: string, w: World) returns (err: Option<Error>,
          ghost packets: seq<Packet>)
      requires Valid() && agv.validation == opts
      modifies this, agv.transport`wire
      ensures Valid() && agv.transport.wire == old(agv.transport.wire) + packets
      ensures OutcomeFits(ClassifyPublish(err), packets)
      ensures packets != [] ==> packets[0].payload.OrderPayload? && packets[0].payload.orderId == orderId
                                && packets[0].payload.header.headerId == old(nextHeader)
                                && packets[0].payload.orderUpdateId == old(nextUpdate)
      ensures attempts == old(attempts) + [AttemptOf(ClassifyPublish(err), packets)]
      ensures State() == Step(old(State()), AttemptOf(ClassifyPublish(err), packets))
    {
      hide Runs, Next, ClassifyPublish;
      var headerId, updateId := GetNext();
      ghost var before := State();
      var res;
      res, err, packets := Send(agv, headerId, updateId, orderId, w);
      ghost var a := AttemptOf(ClassifyPublish(err), packets);
      match ClassifyPublish(err) {
        case Accepted =>
          RecordSuccessfulPublish(res.headerId, res.orderUpdateId);
        case NotStarted =>
          WrappedKeepsOutcome(err.value);
          err := Some(Wrapped(err.value));
        case Uncertain =>
          Fence(headerId, updateId);
          WrappedKeepsOutcome(err.value);
          err := Some(Wrapped(err.value));
      }
      if packets != [] {
        sent := sent + [Packed(headerId, updateId, packets[0].fate)];
      }
      RunsSnoc(opts, firstHeader, firstUpdate, attempts, before, a);
      attempts := attempts + [a];
    }
  }

  /** The order of one attempt, built around the issued ids and published. */
  method Send(agv: AGVHandle, headerId: uint32, updateId: uint32, orderId: string, w: World)
    returns (res: PublishResult, err: Option<Error>, ghost packets: seq<Packet>)
    modifies agv.transport`wire
    ensures agv.transport.wire == old(agv.transport.wire) + packets && OutcomeFits(ClassifyPublish(err), packets)
    ensures err.Some? <==> !ClassifyPublish(err).Accepted?
    ensures err.None? ==> res.headerId == headerId && res.orderUpdateId == updateId
    ensures packets != [] ==> packets[0].payload.OrderPayload? && packets[0].payload.orderId == orderId
                              && packets[0].payload.header.headerId == headerId
                              && packets[0].payload.orderUpdateId == updateId
    ensures packets != [] || !ClassifyPublish(err).NotStarted? ==>
              agv.validation.disabled || ((headerId != 0 || agv.validation.allowZeroHeaderId) && updateId != 0)
  {
    hide ClassifyPublish, ValidateOrder, Blank;
    var ord := new OrderMessage(Header(headerId, "", "", "", ""), orderId, updateId);
    OrderPasses(ord.header, orderId, updateId, agv.manufacturer, agv.serial, agv.validation);
    RefusalMeans(agv.started, true,
                 ValidateOrder(ord.header, orderId, updateId, agv.manufacturer, agv.serial, agv.validation),
                 w.encodes, agv.qos);
    res, err, packets := agv.PublishOrder(ord, w);
    NoErrorIsAccepted(err);
  }

  lemma NoErrorIsAccepted(err: Option<Error>)
    ensures err.None? <==> ClassifyPublish(err).Accepted?
  {
    if err.Some? {
      ClassifyMeans(err.value);
    }
  }

  lemma WrappedKeepsOutcome(e: Error)
    ensures ClassifyPublish(Some(Wrapped(e))) == ClassifyPublish(Some(e))
  {
    ClassifyMeans(e);
    ClassifyMeans(Wrapped(e));
  }
}
