/**
 From the broker's connection messages to the tracked AGVs: the dispatcher's
 coalesced delivery, read as fleet jobs, has the meaning of everything that
 arrived.
 */
module EndToEnd {
  import opened Streams
  import opened Dispatcher
  import opened DispatcherInvariant
  import opened DispatcherTheorems
  import opened AutoTrack

  /** The fleet job a delivered connection message is turned into; stateOf is the decoded payload. */
  ghost function JobsOf(a: seq<Inbound>, stateOf: Inbound -> ConnState): seq<Job> {
    if a == [] then []
    else JobsOf(a[..|a| - 1], stateOf) + [Job(ConnKey(a[|a| - 1]), stateOf(a[|a| - 1]))]
  }

  ghost function Decoded(a: seq<Inbound>, stateOf: Inbound -> ConnState): seq<ConnState> {
    if a == [] then [] else Decoded(a[..|a| - 1], stateOf) + [stateOf(a[|a| - 1])]
  }

  lemma {:induction false} StatesOfJobs(a: seq<Inbound>, stateOf: Inbound -> ConnState, key: string)
    ensures StatesOf(JobsOf(a, stateOf), key) == Decoded(OnKey(a, key), stateOf)
  {
    hide ConnKey;
    if a != [] {
      var init, m := a[..|a| - 1], a[|a| - 1];
      StatesOfJobs(init, stateOf, key);
      var jobs := JobsOf(a, stateOf);
      assert jobs[..|jobs| - 1] == JobsOf(init, stateOf);
      FilterSnoc(init, m, (x: Inbound) => ConnKey(x) == key);
      assert a == init + [m];
      assert (OnKey(init, key) + [m])[..|OnKey(init, key)|] == OnKey(init, key);
    }
  }

  lemma {:induction false} DecodedLength(a: seq<Inbound>, stateOf: Inbound -> ConnState)
    ensures |Decoded(a, stateOf)| == |a|
    ensures a != [] ==> Decoded(a, stateOf)[|a| - 1] == stateOf(a[|a| - 1])
                        && Decoded(a, stateOf)[..|a| - 1] == Decoded(a[..|a| - 1], stateOf)
  {
    if a != [] {
      DecodedLength(a[..|a| - 1], stateOf);
    }
  }

  lemma {:induction false} DecodedSubsequence(xs: seq<Inbound>, ys: seq<Inbound>, stateOf: Inbound -> ConnState)
    requires Subsequence(xs, ys)
    ensures Subsequence(Decoded(xs, stateOf), Decoded(ys, stateOf))
  {
    DecodedLength(xs, stateOf);
    DecodedLength(ys, stateOf);
    if xs != [] {
      if Subsequence(xs, ys[..|ys| - 1]) {
        DecodedSubsequence(xs, ys[..|ys| - 1], stateOf);
      } else {
        DecodedSubsequence(xs[..|xs| - 1], ys[..|ys| - 1], stateOf);
      }
    }
  }

  lemma DecodedCoalesced(full: seq<Inbound>, got: seq<Inbound>, stateOf: Inbound -> ConnState)
    requires Coalesced(full, got)
    ensures Coalesced(Decoded(full, stateOf), Decoded(got, stateOf))
  {
    DecodedLength(full, stateOf);
    DecodedLength(got, stateOf);
    DecodedSubsequence(got, full, stateOf);
  }

  /** The connection messages of the current epoch, those carried into it included. */
  ghost function ConnectionStream(s: State): seq<Inbound>
    requires s.Open() && s.start <= |s.arrived|
  {
    CarriedConnection(s) + ConnOnly(s.arrived[s.start..])
  }

  lemma DeliveryIsCoalescing(s: State, stateOf: Inbound -> ConnState)
    requires Reachable(s) && Quiescent(s)
    ensures s.start <= |s.arrived|
    ensures CoalescedPerKey(JobsOf(ConnectionStream(s), stateOf), JobsOf(s.conns[|s.conns| - 1].delivered, stateOf))
  {
    hide Reachable, Coalesced, OnKey, CarriedConnection, ConnOnly;
    QuiescentDelivery(s);
    var posted, delivered := s.conns[|s.conns| - 1].posted, s.conns[|s.conns| - 1].delivered;
    var full, got := JobsOf(posted, stateOf), JobsOf(delivered, stateOf);
    forall key
      ensures Coalesced(StatesOf(full, key), StatesOf(got, key))
    {
      StatesOfJobs(posted, stateOf, key);
      StatesOfJobs(delivered, stateOf, key);
      DecodedCoalesced(OnKey(posted, key), OnKey(delivered, key), stateOf);
    }
  }

  /**
   End to end: whenever the dispatcher has caught up, handling what it delivered
   leaves the same AGVs tracked as handling every connection message that
   arrived, for every stream whose AGVs are robust, as all streams of protocol
   states are.
   */
  lemma CoalescedDeliveryKeepsMeaning(s: State, tracked: set<string>, stateOf: Inbound -> ConnState)
    requires Reachable(s) && Quiescent(s) && s.start <= |s.arrived|
    requires var full := JobsOf(ConnectionStream(s), stateOf);
             forall key :: Robust(key in tracked, StatesOf(full, key))
    ensures HandleAll(tracked, JobsOf(s.conns[|s.conns| - 1].delivered, stateOf))
            == HandleAll(tracked, JobsOf(ConnectionStream(s), stateOf))
  {
    DeliveryIsCoalescing(s, stateOf);
    hide Reachable, Quiescent, CoalescedPerKey, HandleAll, JobsOf;
    CoalescingPreservesMeaning(tracked, JobsOf(ConnectionStream(s), stateOf),
                               JobsOf(s.conns[|s.conns| - 1].delivered, stateOf));
  }
}
