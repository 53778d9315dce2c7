/**
 The state differ (facts/facts.go): the facts between two consecutive states,
 and what a consumer that only sees facts can reconstruct from them.
 */
module Facts {
  import opened Subscriptions
  import opened Outbound

  datatype ActionState = ActionState(actionId: string, status: string, actionType: Option<string>)

  datatype State = State(lastNodeId: string, orderId: string, orderUpdateId: uint32, actions: seq<ActionState>)

  datatype Fact =
    | LastNodeChanged(prevNode: string, nextNode: string)
    | OrderIdChanged(prevOrder: string, nextOrder: string)
    | OrderUpdateChanged(prevOrderId: string, nextOrderId: string, prevUpdate: uint32, nextUpdate: uint32)
    | ActionTransitioned(actionId: string, prevStatus: string, nextStatus: string, actionType: string)

  // ---- The diff as a function ---------------------------------------------------------

  /** The actions by id; a later entry replaces an earlier one. */
  function Index(actions: seq<ActionState>): map<string, ActionState> {
    if actions == [] then map[]
    else
      var a := actions[|actions| - 1];
      Index(actions[..|actions| - 1])[a.actionId := a]
  }

  /** The status a state reports for an action. */
  function Status(actions: seq<ActionState>, id: string): Option<string> {
    if id in Index(actions) then Some(Index(actions)[id].status) else None
  }

  function Text(s: Option<string>): string {
    if s.Some? then s.value else ""
  }

  /** The fact about one reported action, if it is new or its status differs. */
  function ActionFact(was: Option<string>, a: ActionState): seq<Fact> {
    if was == Some(a.status) then []
    else [ActionTransitioned(a.actionId, Text(was), a.status, Text(a.actionType))]
  }

  function ActionFacts(before: seq<ActionState>, actions: seq<ActionState>): seq<Fact> {
    if actions == [] then []
    else
      var a := actions[|actions| - 1];
      ActionFacts(before, actions[..|actions| - 1]) + ActionFact(Status(before, a.actionId), a)
  }

  const NOTHING := State("", "", 0, [])

  /** The first observation is compared with nothing. */
  function Base(prev: Option<State>): State {
    if prev.Some? then prev.value else NOTHING
  }

  function NodeFact(p: State, next: State): seq<Fact> {
    if p.lastNodeId != next.lastNodeId then [LastNodeChanged(p.lastNodeId, next.lastNodeId)] else []
  }

  function OrderFact(p: State, next: State): seq<Fact> {
    if p.orderId != next.orderId then [OrderIdChanged(p.orderId, next.orderId)] else []
  }

  /** The code fills both order ids with the new one. */
  function UpdateFact(p: State, next: State): seq<Fact> {
    if p.orderUpdateId != next.orderUpdateId
    then [OrderUpdateChanged(next.orderId, next.orderId, p.orderUpdateId, next.orderUpdateId)] else []
  }

  function Diff(prev: Option<State>, next: State): seq<Fact> {
    var p := Base(prev);
    NodeFact(p, next) + OrderFact(p, next) + UpdateFact(p, next) + ActionFacts(p.actions, next.actions)
  }

  // ---- What the facts say, entry by entry ------------------------------------------------

  /** The entry that counts for an action: the last one with its id. */
  ghost predicate LastEntry(actions: seq<ActionState>, id: string, a: ActionState) {
    exists j :: 0 <= j < |actions| && actions[j] == a && a.actionId == id
                && forall k | j < k < |actions| :: actions[k].actionId != id
  }

  ghost predicate Mentions(actions: seq<ActionState>, id: string) {
    exists j :: 0 <= j < |actions| && actions[j].actionId == id
  }

  /** The fact tells of the reported action: its id, its status and type, and the status it had before, if any. */
  ghost predicate TellsOf(f: Fact, before: seq<ActionState>, a: ActionState) {
    && f.ActionTransitioned? && f.actionId == a.actionId && f.nextStatus == a.status
    && f.actionType == (if a.actionType.Some? then a.actionType.value else "")
    && (if Mentions(before, a.actionId) then exists b :: LastEntry(before, a.actionId, b) && f.prevStatus == b.status
        else f.prevStatus == "")
  }

  /** The reported action is new, or its status is another than before. */
  ghost predicate HasMoved(before: seq<ActionState>, a: ActionState) {
    forall b | LastEntry(before, a.actionId, b) :: b.status != a.status
  }

  /** The k-th fact tells of the action at position at[k] of the report. */
  ghost predicate TellsAt(facts: seq<Fact>, before: seq<ActionState>, actions: seq<ActionState>, at: seq<nat>) {
    |at| == |facts| && forall k | 0 <= k < |at| :: at[k] < |actions| && TellsOf(facts[k], before, actions[at[k]])
  }

  /** The positions of the actions that have moved, in order. */
  ghost predicate MovedAt(before: seq<ActionState>, actions: seq<ActionState>, at: seq<nat>) {
    && (forall k, l | 0 <= k < l < |at| :: at[k] < at[l])
    && forall j: nat :: j in at <==> j < |actions| && HasMoved(before, actions[j])
  }

  /** One fact for each reported action that has moved, in the order of the report, and no other. */
  ghost predicate TellsAll(facts: seq<Fact>, before: seq<ActionState>, actions: seq<ActionState>) {
    exists at: seq<nat> :: TellsAt(facts, before, actions, at) && MovedAt(before, actions, at)
  }

  lemma {:induction false} IndexIsLast(actions: seq<ActionState>, id: string)
    ensures id in Index(actions) <==> Mentions(actions, id)
    ensures id in Index(actions) ==> LastEntry(actions, id, Index(actions)[id])
    ensures forall b | LastEntry(actions, id, b) :: id in Index(actions) && b == Index(actions)[id]
  {
    if actions != [] {
      var n := |actions| - 1;
      var init, a := actions[..n], actions[n];
      IndexIsLast(init, id);
      assert forall j | 0 <= j < n :: actions[j] == init[j];
      if a.actionId == id {
        assert LastEntry(actions, id, a);
      } else {
        assert Mentions(actions, id) <==> Mentions(init, id);
        forall b
          ensures LastEntry(actions, id, b) <==> LastEntry(init, id, b)
        {
          LastEntrySnoc(init, a, id, b);
          assert init + [a] == actions;
        }
      }
    }
  }

  lemma LastEntrySnoc(init: seq<ActionState>, a: ActionState, id: string, b: ActionState)
    requires a.actionId != id
    ensures LastEntry(init + [a], id, b) <==> LastEntry(init, id, b)
  {
    var all := init + [a];
    if LastEntry(all, id, b) {
      var j :| 0 <= j < |all| && all[j] == b && b.actionId == id && forall k | j < k < |all| :: all[k].actionId != id;
      assert init[j] == b;
      assert forall k | j < k < |init| :: init[k] == all[k];
    }
    if LastEntry(init, id, b) {
      var j :| 0 <= j < |init| && init[j] == b && b.actionId == id
               && forall k | j < k < |init| :: init[k].actionId != id;
      assert all[j] == b;
    }
  }

  lemma ActionFactTells(before: seq<ActionState>, a: ActionState)
    ensures var facts := ActionFact(Status(before, a.actionId), a);
            if HasMoved(before, a) then |facts| == 1 && TellsOf(facts[0], before, a) else facts == []
  {
    IndexIsLast(before, a.actionId);
    hide Index, LastEntry, Mentions;
  }

  lemma {:induction false} ActionFactsTell(before: seq<ActionState>, actions: seq<ActionState>)
    ensures TellsAll(ActionFacts(before, actions), before, actions)
  {
    hide TellsOf, HasMoved, TellsAll;
    if actions == [] {
      TellsNothing(before);
    } else {
      var n := |actions| - 1;
      var init, a := actions[..n], actions[n];
      ActionFactsTell(before, init);
      ActionFactTells(before, a);
      var facts, more := ActionFacts(before, init), ActionFact(Status(before, a.actionId), a);
      assert ActionFacts(before, actions) == facts + more;
      hide ActionFacts, ActionFact;
      TellsOneMore(facts, more, before, init, a);
      assert actions == init + [a];
    }
  }

  lemma TellsNothing(before: seq<ActionState>)
    ensures TellsAll([], before, [])
  {
    assert TellsAt([], before, [], []) && MovedAt(before, [], []);
  }

  lemma TellsOneMore(facts: seq<Fact>, more: seq<Fact>, before: seq<ActionState>, init: seq<ActionState>,
                     a: ActionState)
    requires TellsAll(facts, before, init)
    requires if HasMoved(before, a) then |more| == 1 && TellsOf(more[0], before, a) else more == []
    ensures TellsAll(facts + more, before, init + [a])
  {
    hide TellsOf, HasMoved, TellsAt, MovedAt;
    var at: seq<nat> :| TellsAt(facts, before, init, at) && MovedAt(before, init, at);
    MovedOneMore(before, init, a, at);
    TellsAtOneMore(facts, before, init, a, at);
    if HasMoved(before, a) {
      TellsAtLast(facts, more[0], before, init + [a], at, |init|);
      assert more == [more[0]];
    } else {
      assert facts + more == facts;
    }
  }

  lemma MovedOneMore(before: seq<ActionState>, init: seq<ActionState>, a: ActionState, at: seq<nat>)
    requires MovedAt(before, init, at)
    ensures MovedAt(before, init + [a], if HasMoved(before, a) then at + [|init|] else at)
  {
    hide HasMoved;
    assert forall k | 0 <= k < |at| :: at[k] in at;
  }

  lemma TellsAtOneMore(facts: seq<Fact>, before: seq<ActionState>, init: seq<ActionState>, a: ActionState,
                       at: seq<nat>)
    requires TellsAt(facts, before, init, at)
    ensures TellsAt(facts, before, init + [a], at)
  {
    hide TellsOf;
  }

  lemma TellsAtLast(facts: seq<Fact>, f: Fact, before: seq<ActionState>, actions: seq<ActionState>, at: seq<nat>,
                    n: nat)
    requires TellsAt(facts, before, actions, at) && n < |actions| && TellsOf(f, before, actions[n])
    ensures TellsAt(facts + [f], before, actions, at + [n])
  {
    hide TellsOf;
  }

  /**
   What Apply reports, in order: the node, the order id and the order update id if they changed, each with the value
   of the previous state, or the empty one if there was none, and the new value; and then the actions that moved.
   */
  ghost predicate Reported(out: seq<Fact>, prev: Option<State>, next: State) {
    var node := if prev.Some? then prev.value.lastNodeId else "";
    var order := if prev.Some? then prev.value.orderId else "";
    var update: uint32 := if prev.Some? then prev.value.orderUpdateId else 0;
    exists scalars, moves ::
      && out == scalars + moves && TellsAll(moves, if prev.Some? then prev.value.actions else [], next.actions)
      && scalars == (if next.lastNodeId == node then [] else [LastNodeChanged(node, next.lastNodeId)])
                    + (if next.orderId == order then [] else [OrderIdChanged(order, next.orderId)])
                    + (if next.orderUpdateId == update then []
                       else [OrderUpdateChanged(next.orderId, next.orderId, update, next.orderUpdateId)])
  }

  lemma DiffReports(prev: Option<State>, next: State)
    ensures Reported(Diff(prev, next), prev, next)
  {
    var p := Base(prev);
    ActionFactsTell(p.actions, next.actions);
    hide TellsAll, ActionFacts;
    var scalars := NodeFact(p, next) + OrderFact(p, next) + UpdateFact(p, next);
    var moves := ActionFacts(p.actions, next.actions);
    assert Diff(prev, next) == scalars + moves;
  }

  // ---- The code -----------------------------------------------------------------------------

  /** Apply, with the map and the two loops of the code. */
  method Apply(prev: Option<State>, next: Option<State>) returns (out: seq<Fact>)
    ensures out == if next.None? then [] else Diff(prev, next.value)
    ensures next.Some? ==> Reported(out, prev, next.value)
  {
    if next.None? {
      return [];
    }
    out := [];
    var n := next.value;
    var prevNode, prevOrder, prevUpdate: uint32 := "", "", 0;
    if prev.Some? {
      prevNode, prevOrder, prevUpdate := prev.value.lastNodeId, prev.value.orderId, prev.value.orderUpdateId;
    }
    if prevNode != n.lastNodeId {
      out := out + [LastNodeChanged(prevNode, n.lastNodeId)];
    }
    if prevOrder != n.orderId {
      out := out + [OrderIdChanged(prevOrder, n.orderId)];
    }
    if prevUpdate != n.orderUpdateId {
      out := out + [OrderUpdateChanged(n.orderId, n.orderId, prevUpdate, n.orderUpdateId)];
    }
    ghost var p := Base(prev);
    assert out == NodeFact(p, n) + OrderFact(p, n) + UpdateFact(p, n);
    var actionFacts := ApplyActions(if prev.Some? then prev.value.actions else [], n.actions);
    out := out + actionFacts;
    DiffReports(prev, n);
  }

  method ApplyActions(previous: seq<ActionState>, actions: seq<ActionState>) returns (out: seq<Fact>)
    ensures out == ActionFacts(previous, actions)
  {
    out := [];
    var prevActions: map<string, ActionState> := map[];
    for i := 0 to |previous|
      invariant prevActions == Index(previous[..i])
    {
      assert previous[..i + 1][..i] == previous[..i];
      prevActions := prevActions[previous[i].actionId := previous[i]];
    }
    assert previous[..|previous|] == previous;
    for i := 0 to |actions|
      invariant out == ActionFacts(previous, actions[..i])
    {
      hide Index;
      var a := actions[i];
      assert actions[..i + 1][..i] == actions[..i];
      assert ActionFacts(previous, actions[..i]) + [] == ActionFacts(previous, actions[..i]);
      if a.actionId !in prevActions {
        out := out + [ActionTransitioned(a.actionId, "", a.status, Text(a.actionType))];
        continue;
      }
      if prevActions[a.actionId].status != a.status {
        out := out + [ActionTransitioned(a.actionId, prevActions[a.actionId].status, a.status, Text(a.actionType))];
      }
    }
    assert actions[..|actions|] == actions;
  }

  // ---- Reading the facts back -----------------------------------------------------------

  /** What a consumer of facts knows. */
  datatype View = View(lastNodeId: string, orderId: string, orderUpdateId: uint32, actions: map<string, string>)

  function Observe(v: View, f: Fact): View {
    match f
    case LastNodeChanged(_, next) => v.(lastNodeId := next)
    case OrderIdChanged(_, next) => v.(orderId := next)
    case OrderUpdateChanged(_, _, _, next) => v.(orderUpdateId := next)
    case ActionTransitioned(id, _, next, _) => v.(actions := v.actions[id := next])
  }

  function ObserveAll(v: View, facts: seq<Fact>): View {
    if facts == [] then v else Observe(ObserveAll(v, facts[..|facts| - 1]), facts[|facts| - 1])
  }

  lemma {:induction false} ObserveConcat(v: View, a: seq<Fact>, b: seq<Fact>)
    ensures ObserveAll(v, a + b) == ObserveAll(ObserveAll(v, a), b)
  {
    if b == [] {
      assert a + b == a;
    } else {
      ObserveConcat(v, a, b[..|b| - 1]);
      assert (a + b)[..|a + b| - 1] == a + b[..|b| - 1];
    }
  }

  /** Observing at most one fact. */
  lemma ObserveOne(v: View, facts: seq<Fact>)
    requires |facts| <= 1
    ensures ObserveAll(v, facts) == if facts == [] then v else Observe(v, facts[0])
  {
    if facts != [] {
      assert facts[..0] == [];
      assert ObserveAll(v, facts[..0]) == v;
    }
  }

  /** The last status reported for an action that differs from what it was. */
  ghost function LastChange(was: Option<string>, actions: seq<ActionState>, id: string): Option<string> {
    if actions == [] then None
    else
      var a := actions[|actions| - 1];
      if a.actionId == id && Some(a.status) != was then Some(a.status)
      else LastChange(was, actions[..|actions| - 1], id)
  }

  ghost function Known(v: View, id: string): Option<string> {
    if id in v.actions then Some(v.actions[id]) else None
  }

  /** What the action facts make of a view: every action moves to its last change, and nothing else moves. */
  lemma {:induction false} ObserveActions(v: View, before: seq<ActionState>, actions: seq<ActionState>, id: string)
    ensures var v' := ObserveAll(v, ActionFacts(before, actions));
            var change := LastChange(Status(before, id), actions, id);
            && v'.lastNodeId == v.lastNodeId && v'.orderId == v.orderId && v'.orderUpdateId == v.orderUpdateId
            && Known(v', id) == if change.Some? then change else Known(v, id)
  {
    if actions != [] {
      var init, a := actions[..|actions| - 1], actions[|actions| - 1];
      ObserveActions(v, before, init, id);
      var facts := ActionFact(Status(before, a.actionId), a);
      ObserveConcat(v, ActionFacts(before, init), facts);
      ObserveOne(ObserveAll(v, ActionFacts(before, init)), facts);
      hide Index, Status, ObserveAll, LastChange;
      assert LastChange(Status(before, id), actions, id)
          == if a.actionId == id && Some(a.status) != Status(before, id) then Some(a.status)
             else LastChange(Status(before, id), init, id) by {
        LastChangeStep(Status(before, id), actions, id);
      }
    }
  }

  lemma LastChangeStep(was: Option<string>, actions: seq<ActionState>, id: string)
    requires actions != []
    ensures var a := actions[|actions| - 1];
            LastChange(was, actions, id) == if a.actionId == id && Some(a.status) != was then Some(a.status)
                                            else LastChange(was, actions[..|actions| - 1], id)
  {
  }

  /** The scalar facts carry the new node, order and update id. */
  lemma ObserveScalars(v: View, p: State, next: State)
    requires v.lastNodeId == p.lastNodeId && v.orderId == p.orderId && v.orderUpdateId == p.orderUpdateId
    ensures ObserveAll(v, NodeFact(p, next) + OrderFact(p, next) + UpdateFact(p, next))
            == View(next.lastNodeId, next.orderId, next.orderUpdateId, v.actions)
  {
    hide ObserveAll;
    var a, b, c := NodeFact(p, next), OrderFact(p, next), UpdateFact(p, next);
    ObserveConcat(v, a + b, c);
    ObserveConcat(v, a, b);
    ObserveOne(v, a);
    ObserveOne(ObserveAll(v, a), b);
    ObserveOne(ObserveAll(v, a + b), c);
  }

  /** The view has everything the state reports. */
  ghost predicate Agrees(v: View, s: State) {
    && v.lastNodeId == s.lastNodeId && v.orderId == s.orderId && v.orderUpdateId == s.orderUpdateId
    && forall id :: Status(s.actions, id).Some? ==> Known(v, id) == Status(s.actions, id)
  }

  /** An action that ends in its old status was not reported with another one in between. */
  ghost predicate Settled(was: Option<string>, actions: seq<ActionState>, id: string) {
    Status(actions, id) == was ==> LastChange(was, actions, id).None?
  }

  ghost predicate DistinctIds(actions: seq<ActionState>) {
    forall i, j | 0 <= i < j < |actions| :: actions[i].actionId != actions[j].actionId
  }

  lemma {:induction false} StatusIsReported(was: Option<string>, actions: seq<ActionState>, id: string)
    ensures Status(actions, id).Some? && Status(actions, id) != was ==>
              LastChange(was, actions, id) == Status(actions, id)
    ensures Status(actions, id).None? ==> LastChange(was, actions, id).None?
    ensures LastChange(was, actions, id).Some? ==> LastChange(was, actions, id) != was
    ensures Status(actions, id).Some? <==> exists a :: a in actions && a.actionId == id
  {
    if actions != [] {
      var init, a := actions[..|actions| - 1], actions[|actions| - 1];
      StatusIsReported(was, init, id);
      assert actions == init + [a];
    }
  }

  /** Distinct action ids are always settled. */
  lemma {:induction false} DistinctIsSettled(was: Option<string>, actions: seq<ActionState>, id: string)
    requires DistinctIds(actions)
    ensures Settled(was, actions, id)
    ensures LastChange(was, actions, id).Some? ==> LastChange(was, actions, id) == Status(actions, id)
  {
    if actions != [] {
      var init, a := actions[..|actions| - 1], actions[|actions| - 1];
      DistinctIsSettled(was, init, id);
      StatusIsReported(was, init, id);
      assert a !in init;
    }
  }

  /**
   Round trip: from a view of the previous state, the facts give a view of the next one exactly when
   no repeated action id hides a change. In particular whenever the ids are distinct.
   */
  lemma PatchIsNext(v: View, prev: Option<State>, next: State)
    requires Agrees(v, Base(prev))
    ensures Agrees(ObserveAll(v, Diff(prev, next)), next)
            <==> forall id | Status(next.actions, id).Some? ::
                   Settled(Status(Base(prev).actions, id), next.actions, id)
    ensures forall id :: Status(next.actions, id).None? ==> Known(ObserveAll(v, Diff(prev, next)), id) == Known(v, id)
  {
    var p := Base(prev);
    var v' := ObserveAll(v, Diff(prev, next));
    PatchOne(v, prev, next, "");
    forall id
      ensures Status(next.actions, id).Some? ==>
                (Known(v', id) == Status(next.actions, id) <==> Settled(Status(p.actions, id), next.actions, id))
      ensures Status(next.actions, id).None? ==> Known(v', id) == Known(v, id)
    {
      PatchOne(v, prev, next, id);
      StatusIsReported(Status(p.actions, id), next.actions, id);
    }
    hide Status, Settled, LastChange, Known, ObserveAll, Diff;
  }

  lemma PatchOne(v: View, prev: Option<State>, next: State, id: string)
    requires Agrees(v, Base(prev))
    ensures var v' := ObserveAll(v, Diff(prev, next));
            var change := LastChange(Status(Base(prev).actions, id), next.actions, id);
            && v'.lastNodeId == next.lastNodeId && v'.orderId == next.orderId && v'.orderUpdateId == next.orderUpdateId
            && Known(v', id) == if change.Some? then change else Known(v, id)
  {
    var p := Base(prev);
    hide ObserveAll, Status, ActionFacts;
    var scalars := NodeFact(p, next) + OrderFact(p, next) + UpdateFact(p, next);
    ObserveScalars(v, p, next);
    ObserveConcat(v, scalars, ActionFacts(p.actions, next.actions));
    ObserveActions(ObserveAll(v, scalars), p.actions, next.actions, id);
  }

  // ---- No facts, no change ----------------------------------------------------------------

  lemma {:induction false} NoActionFacts(before: seq<ActionState>, actions: seq<ActionState>)
    ensures ActionFacts(before, actions) == [] <==> forall a | a in actions ::
            Status(before, a.actionId) == Some(a.status)
  {
    if actions != [] {
      NoActionFacts(before, actions[..|actions| - 1]);
      assert actions == actions[..|actions| - 1] + [actions[|actions| - 1]];
    }
  }

  /** The result is empty exactly when nothing that is observed changed. */
  lemma SilenceMeansUnchanged(prev: Option<State>, next: State)
    ensures Diff(prev, next) == [] <==>
            && Base(prev).lastNodeId == next.lastNodeId && Base(prev).orderId == next.orderId
            && Base(prev).orderUpdateId == next.orderUpdateId
            && forall a | a in next.actions :: Status(Base(prev).actions, a.actionId) == Some(a.status)
  {
    NoActionFacts(Base(prev).actions, next.actions);
  }

  /** A repeated id that returns to its old status leaves a consumer with the status in between. */
  lemma RepeatedIdMisleads()
    ensures var was := State("n", "o", 1, [ActionState("a", "RUNNING", None)]);
            var next := State("n", "o", 1, [ActionState("a", "FAILED", None), ActionState("a", "RUNNING", None)]);
            var v := View("n", "o", 1, map["a" := "RUNNING"]);
            Agrees(v, was) && !Agrees(ObserveAll(v, Diff(Some(was), next)), next)
            && Known(ObserveAll(v, Diff(Some(was), next)), "a") == Some("FAILED")
  {
    var r, f := ActionState("a", "RUNNING", None), ActionState("a", "FAILED", None);
    var was, next := State("n", "o", 1, [r]), State("n", "o", 1, [f, r]);
    var v := View("n", "o", 1, map["a" := "RUNNING"]);
    assert [r][..0] == [] && [f, r][..1] == [f] && [f][..0] == [];
    assert Index([r]) == map["a" := r];
    assert Index([f]) == map["a" := f];
    assert Index([f, r]) == map["a" := r];
    assert LastChange(Some("RUNNING"), [f], "a") == Some("FAILED");
    PatchOne(v, Some(was), next, "a");
  }

  // ---- Whole streams ------------------------------------------------------------------------

  const BLANK := View("", "", 0, map[])

  /** A consumer that observes the facts between each state and its predecessor. */
  function Follow(states: seq<State>): View {
    if states == [] then BLANK
    else
      var n := |states| - 1;
      ObserveAll(Follow(states[..n]), Diff(Before(states), states[n]))
  }

  lemma BlankAgrees()
    ensures Agrees(BLANK, NOTHING)
  {
  }

  function Before(states: seq<State>): Option<State>
    requires states != []
  {
    if |states| == 1 then None else Some(states[|states| - 2])
  }

  lemma FollowStep(v: View, prev: Option<State>, next: State)
    requires Agrees(v, Base(prev)) && DistinctIds(next.actions)
    ensures Agrees(ObserveAll(v, Diff(prev, next)), next)
  {
    forall id
      ensures Settled(Status(Base(prev).actions, id), next.actions, id)
    {
      DistinctIsSettled(Status(Base(prev).actions, id), next.actions, id);
    }
    hide Status, ObserveAll, Diff, DistinctIds, LastChange;
    PatchIsNext(v, prev, next);
  }

  /** After any stream of states with distinct action ids, the facts alone give the last state. */
  lemma {:induction false} FollowIsLast(states: seq<State>)
    requires forall s | s in states :: DistinctIds(s.actions)
    ensures states != [] ==> Agrees(Follow(states), states[|states| - 1])
  {
    hide Agrees, ObserveAll, Diff, DistinctIds;
    if states != [] {
      var n := |states| - 1;
      FollowIsLast(states[..n]);
      BlankAgrees();
      FollowStep(Follow(states[..n]), Before(states), states[n]);
    }
  }
}
