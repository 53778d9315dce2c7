/** The online and offline hooks of the fleet, as a log, and when they balance. */
module Hooks {
  datatype HookEvent = WentOnline(key: string) | WentOffline(key: string)

  /** Online hooks minus offline hooks fired for an AGV. */
  ghost function Balance(events: seq<HookEvent>, key: string): int {
    if events == [] then 0
    else
      Balance(events[..|events| - 1], key)
      + match events[|events| - 1]
        case WentOnline(k) => if k == key then 1 else 0
        case WentOffline(k) => if k == key then -1 else 0
  }

  lemma BalanceSnoc(events: seq<HookEvent>, e: HookEvent)
    ensures forall key :: Balance(events + [e], key)
              == Balance(events, key) + (if e.key != key then 0 else if e.WentOnline? then 1 else -1)
  {
    assert (events + [e])[..|events|] == events;
  }

  ghost predicate BalancedFor(events: seq<HookEvent>, keys: set<string>) {
    forall key :: Balance(events, key) == if key in keys then 1 else 0
  }

  lemma BalancedOnline(events: seq<HookEvent>, keys: set<string>, key: string)
    requires BalancedFor(events, keys) && key !in keys
    ensures BalancedFor(events + [WentOnline(key)], keys + {key})
  {
    BalanceSnoc(events, WentOnline(key));
  }

  lemma BalancedOffline(events: seq<HookEvent>, keys: set<string>, key: string)
    requires BalancedFor(events, keys) && key in keys
    ensures BalancedFor(events + [WentOffline(key)], keys - {key})
  {
    BalanceSnoc(events, WentOffline(key));
  }
}
