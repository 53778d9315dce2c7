# navlink in Dafny

navlink is a VDA 5050 client over MQTT. This project models the parts of it that are hard to get right and
proves what they promise, for every input, every run or every interleaving.

- **Inbound dispatcher** (`Dispatcher.dfy`, `DispatcherInvariant.dfy`, `DispatcherSteps.dfy`,
  `DispatcherTheorems.dfy`, `DispatcherProgress.dfy`, `DispatcherBlocking.dfy`, `Transports.dfy`). One MQTT callback
  produces; bounded channels per AGV, a topic channel and a latest-wins connection map consume, each with its own
  worker. Every critical section and every channel operation is one atomic step of a transition system with
  histories, over any number of dispatch epochs. The `Transport` class has the fields of the Go struct; its methods
  take these steps and say what they do to the fields, and its loops are the source's loops.
- **Fleet subscriptions** (`Subscriptions.dfy`, `FleetProtocol.dfy`, `FleetSteps.dfy`, `FleetTheorems.dfy`,
  `FleetDrive.dfy`, `FleetRecovery.dfy`, `FleetFinality.dfy`, `Hooks.dfy`, `FleetHooks.dfy`, `FleetByFilter.dfy`,
  `FleetRivals.dfy`, `FleetRuns.dfy`, `FleetSessions.dfy`). As a transition system of concurrent calls, with sessions
  lost at any moment: what is live at rest, exactly when a Restore makes a loss good, exactly when an Untrack is
  final, exactly which steps keep the hooks in balance. First against a broker that knows subscriptions by id, then
  against one that knows them by filter, as MQTT does, with the exact condition for the two to agree. And as a class
  called by one goroutine, against either kind of broker.
- **Auto-tracking** (`AutoTrack.dfy`, `EndToEnd.dfy`, `FleetTracking.dfy`). What coalescing does to streams of
  connection states, from arrival at the dispatcher through the bounded job queue to the filters at the broker.
- **Client life cycle** (`Clients.dfy`). Start, reconnect and stop against one specification of the filters.
- **Publish outcome** (`Outcomes.dfy`, `Outbound.dfy`, `PublishPath.dfy`, `Ledgers.dfy`). From the caller's
  message to the MQTT library, the three-way classification of what came of it, and the id ledger over whole runs.
- **Topics and filters** (`Segments.dfy`, `Topics.dfy`, `Filters.dfy`, `Reception.dfy`), **state differ** (`Facts.dfy`),
  **header policy** (`HeaderPolicy.dfy`), **event bus** (`Buses.dfy`, over arrays that are shared and shifted in
  place), and stream lemmas (`Streams.dfy`).

Outside influences are parameters: how a token wait ends, whether a payload encodes, which subscribe calls fail
(the broker's script), which key a map iteration yields, what a handler does. Channel sends, receives and locks
are atomic; Go's memory model is taken to make them so. `dafny verify dfyconfig.toml` checks everything.

## Where code and documentation differ

The code is followed in each case.

- `README.md` says the connection queue and the custom topic queue do not starve vehicle state. The connection queue
  cannot. A full custom topic queue can: the callback blocks on it, and until its worker receives or the context ends
  no message of any lane is accepted (`DispatcherBlocking.BlocksExactly`, `DispatcherBlocking.BlockedUntilReceived`).
  What holds for all lanes is that it is always released (`DispatcherProgress.MaximalRunsEndQuiescent`).
- `internal/mqtt/dispatch.go:50-51` speaks of one pending message per AGV. It is one per key for all subscriptions
  together, so two subscriptions on one connection topic overwrite each other
  (`DispatcherTheorems.BackToBackOverwrites`); that costs no handler its last message exactly when a key's messages
  are all for one handler (`DispatcherTheorems.HandlersExact`).
- The fleet session holds one unsubscribe function per subscription; on MQTT unsubscribing is by filter. Two
  overlapping Tracks of one AGV can leave it tracked without filters (`FleetRuns.TwoTracksLoseFilter`), and a Track
  is safe exactly when no other call in flight concerns its AGV (`FleetRivals.TrackIsSafeExactly`). An Untrack during
  a Restore can be undone by it (`FleetRuns.RestoreBeatsUntrack`); it is final exactly when no call in flight may
  still track the AGV (`FleetFinality.UntrackIsFinalExactly`).
- `internal/session/fleet.go:184` says Restore re-subscribes all tracked AGVs. One whose Track was under way when the
  session was lost can end up tracked without a subscription (`FleetRecovery.RestoreMissesTrack`), and such a Track
  is the only obstacle (`FleetRecovery.RestoreRecoversExactly`).
- `testkit/fake_broker.go:65-66` says an injected publish failure counts as not started. It is classified by its
  cause like any other error, so an arbitrary one is uncertain (`Outcomes.ClassifyMeans`).
- `publish.go:22` describes Uncertain as possibly in flight. A message that fails to encode was never sent and is
  uncertain all the same (`PublishPath.RefusalMeans`).
- `facts/facts.go:24-28` lists a previous order id for an order update; the code puts the new one into both
  fields (`Facts.UpdateFact`).
- After a start that subscribed the fleet's wildcard and then failed, a second start never subscribes it
  (`Clients.Client.Start`, `Clients.RetryLosesWildcard`).

## Model

| member | source | states |
|---|---|---|
| `Segments.JoinSplit` | topic/resolver.go:46-47 | Joining the segments of any string gives the string back. |
| `Segments.SplitJoin` | topic/resolver.go:46-47 | Splitting a joined list gives the list back if and only if no part holds a separator. |
| `Topics.ChannelNames` | topic/resolver.go:11-18 | The six channels by their names in VDA 5050, and no other name is known. |
| `Topics.ParseBuild` | topic/resolver.go:36-62 | A built topic parses if and only if interface, version and both identity parts are slash-free and the channel is known, and then to exactly the five parts. |
| `Topics.BuildParse` | topic/resolver.go:36-62 | Rebuilding any parsed topic gives the original string. |
| `Topics.ParseFails` | topic/resolver.go:46-54 | Why a topic does not parse: the wrong number of levels if and only if it has not five, an unknown channel if and only if it has five and the last is not a channel. |
| `Topics.BuildFaithful` | internal/session/fleet.go:18 | Two AGVs and channels get the same filter if and only if fleet key and channel agree, so the string-keyed map is a faithful index of subscriptions even for parts with slashes. |
| `Topics.KeyIdentifies` | internal/session/fleet.go:18 | A fleet key stands for one identity only if and only if both parts of that identity are free of slashes; with one anywhere, some other identity shares the key. |
| `Topics.RouteOfParsed` | internal/mqtt/classify.go:15-31 | On every topic the parser accepts, lane and key are those of the parsed channel and identity. |
| `Topics.RouteByLastLevels` | internal/mqtt/classify.go:15-36 | For any topic, parsed or not, whose last three levels have at least one level before them: lane, key and droppability by its levels, with at least two of them the last one decides and the two before it are the key. |
| `Topics.LastLevels` | internal/mqtt/classify.go:15-36 | Every topic of four or more levels has that form, and shorter ones go to the topic lane. |
| `Topics.RouteFaithful` | internal/mqtt/classify.go:15-31 | Two parsed topics share a keyed lane if and only if they name the same AGV and the same kind of lane. |
| `Topics.DroppableRoute` | internal/mqtt/classify.go:33-36 | A topic is droppable exactly when it is an AGV-lane topic on the visualization channel. |
| `Topics.RouteKeyNonEmpty` | internal/mqtt/dispatch.go:92-95 | A keyed lane never has an empty key, so the fallback to the topic is never taken. |
| `Filters.MatchFilter` | testkit/fake_broker.go:247-262 | The loop decides the level-by-level matching predicate. |
| `Filters.MatcherAgainstStandard` | testkit/fake_broker.go:247-262 | Against section 4.7 of MQTT 3.1.1, for every legal filter: the matcher is the standard restricted to equal level counts, and is the standard on filters without '#' (outside the '$' rule). |
| `Filters.TrailingHashFallsShort` | testkit/fake_broker.go:247-262 | A trailing '#' reaches below its level in the standard but not in this broker: a concrete pair. |
| `Filters.SubscriptionSelects` | client.go:497-507 | The subscription filter receives a built topic if and only if the channels agree and each configured identity part admits the topic's. |
| `Filters.WildcardSelects` | topic/resolver.go:40-42 | The fleet wildcard receives the topics of its channel from every AGV, and nothing else. |
| `Filters.OwnSelects` | internal/session/fleet.go:237-239 | An AGV filter receives exactly the topics of that AGV on that channel (of any, where a part of the identity is a wildcard). |
| `Filters.FiltersAreLegal` | client.go:497-507 | The filters are legal in the sense of section 4.7.1 of MQTT 3.1.1 and have no multi-level wildcard. |
| `DispatcherSteps.StepKeepsInv` | internal/mqtt/dispatch.go:18-187 | Every atomic step of producer, workers and life cycle keeps the whole invariant. |
| `DispatcherSteps.ReachableInv` | internal/mqtt/dispatch.go:18-187 | The invariant holds in every reachable state, for every interleaving and queue size. |
| `DispatcherTheorems.LaneConservation` | internal/mqtt/dispatch.go:36-48 | Before shutdown, delivered, running, queued and held by the producer, in this order, are the arrivals of the lane's route with exactly the discarded ones removed; the queue never exceeds its bound. |
| `DispatcherTheorems.KeyConservation` | internal/mqtt/dispatch.go:36-48 | The same for every AGV key, with or without a lane, in every reachable open state. |
| `DispatcherTheorems.NoLaneConservation` | internal/mqtt/dispatch.go:128-142 | For a key without a lane nothing was kept in this epoch except what the callback holds. |
| `DispatcherTheorems.CarriedAtMostOne` | internal/mqtt/transport.go:154-157 | At most one message crosses from one dispatch epoch into the next: the one the callback was busy with. |
| `DispatcherTheorems.OnlyVisualizationDiscarded` | internal/mqtt/dispatch.go:173-182 | A message is discarded if and only if the hook reported it so; only visualization is, and only when its lane held as many messages as the queue size. |
| `DispatcherTheorems.BoundIsConfigured` | internal/mqtt/dispatch.go:18-22 | Over every run the bound of each queue is the configured number if it is positive and 256 if not: no queue exceeds it, a message is discarded or reported and blocked only by a lane with exactly that many, and one offered to a lane with fewer is queued. |
| `DispatcherTheorems.DeliveredIsPrefix` | internal/mqtt/dispatch.go:36-48 | Delivered messages other than visualization are at any moment a prefix of those that arrived for the lane: none lost, none reordered. |
| `DispatcherTheorems.TopicLaneKeepsAll` | internal/mqtt/dispatch.go:113-126 | Nothing of the topic lane is ever discarded. |
| `DispatcherTheorems.ConnectionsArePosted` | internal/mqtt/dispatch.go:92-103 | Every connection message of the epoch gets into the map, in arrival order. |
| `DispatcherTheorems.NoLostWakeup` | internal/mqtt/dispatch.go:52-66 | A non-empty connection map implies a wake token, a draining worker, or a producer about to send the token. |
| `DispatcherTheorems.CoalescedByAgv` | internal/mqtt/dispatch.go:92-95 | The key under which a connection message is coalesced is the AGV its topic names, for topics with any number of levels in front. |
| `DispatcherTheorems.ConnectionConservation` | internal/mqtt/dispatch.go:82-103 | Connection arrivals are, with multiplicity, delivered or in hand, overwritten, or pending; there is one pending message per key, under its own key. |
| `DispatcherTheorems.OverwrittenIsGone` | internal/mqtt/dispatch.go:101 | What was overwritten is neither delivered nor pending. |
| `DispatcherTheorems.DeliveredIsSubsequence` | internal/mqtt/dispatch.go:50-67 | Per key, what was delivered is a subsequence of what arrived, whichever keys takeConn picks. |
| `DispatcherTheorems.QuiescentDelivery` | internal/mqtt/dispatch.go:36-103 | When nothing is left to do, every lane has delivered all that was kept, the map is empty, and per key the delivered connection messages end in the last arrival. |
| `DispatcherTheorems.BackToBackOverwrites` | internal/mqtt/dispatch.go:92-103 | Coalescing ignores the handler: when two subscriptions match one connection topic, the second callback overwrites the first one's message, from every idle state. |
| `DispatcherTheorems.HandlersExact` | internal/mqtt/dispatch.go:92-103 | Every coalescing of a stream shows each handler its last message if and only if all messages are for one handler. |
| `DispatcherTheorems.OneHandlerSeesLast` | internal/mqtt/dispatch.go:50-103 | At quiescence a key whose messages were all for one handler has shown it the last of them. |
| `DispatcherBlocking.BlockedUntilReceived` | internal/mqtt/dispatch.go:167-187 | While the callback is blocked on a full lane, no run without a receive on that lane or a cancel accepts a message of any lane. |
| `DispatcherBlocking.OneLaneCanBlockAll` | internal/mqtt/dispatch.go:167-187 | With any queue size, enough messages of one AGV lane, or of the custom topic lane, block the callback while every other queue is empty. |
| `DispatcherBlocking.BlocksExactly` | internal/mqtt/dispatch.go:158-187 | A run to a blocked callback holding a message of a topic exists if and only if the topic is neither a connection topic nor droppable: the connection lane starves nobody, the topic lane can starve all. |
| `DispatcherProgress.InternalStepWorks` | internal/mqtt/dispatch.go:36-187 | Every step other than an arrival or the life cycle strictly decreases a measure of the work left. |
| `DispatcherProgress.InternalRunsAreFinite` | internal/mqtt/dispatch.go:36-187 | A run without arrivals is no longer than the work there was at its start. |
| `DispatcherProgress.Progress` | internal/mqtt/dispatch.go:36-187 | Before shutdown, a state that is not quiescent has an enabled internal step. |
| `DispatcherProgress.MaximalRunsEndQuiescent` | internal/mqtt/dispatch.go:167-186 | Runs without arrivals that cannot be continued end at quiescence with an idle producer: backpressure is always released. |
| `DispatcherProgress.OneWorkerPerRoute` | internal/mqtt/dispatch.go:128-142 | No two live workers serve one route, so handlers of one AGV shard never overlap. |
| `DispatcherProgress.NoWorkerOnceCleared` | internal/mqtt/transport.go:210-257 | Once the dispatch fields are cleared, only the next start creates workers. |
| `DispatcherProgress.StopIsFinal` | internal/mqtt/transport.go:229-257 | After Stop has returned no handler of any epoch so far runs, and none ever will, whatever happens next. |
| `Transports.Transport.constructor` | internal/mqtt/transport.go:82-89 | A new transport is in the initial state of the transition system, with the configured queue size if it is positive and 256 if not. |
| `Transports.Transport.IsReachable` | internal/mqtt/dispatch.go:18-187 | Every state the object can get into is a reachable one, so all theorems above hold of it. |
| `Transports.Transport.Start` | internal/mqtt/transport.go:112-173 | Comes up with fresh fields and two new workers, leaving earlier epochs alone; when the connection fails it is down again with every worker gone; a second start is refused and changes nothing. |
| `Transports.Transport.Stop` | internal/mqtt/transport.go:229-257 | On return every worker has left, each lane has delivered the message it was busy with and then a prefix of its queue, no lane lost or gained anything else, and connections deliver only what a worker already held. |
| `Transports.Transport.ShutdownDispatch` | internal/mqtt/transport.go:210-226 | Clears the fields, then cancels; touches no queue or worker. |
| `Transports.Transport.AwaitWorkers` | internal/mqtt/transport.go:255 | From any state after the cancel, running and draining handlers included: handlers in progress finish, a queue worker may still deliver a prefix of its queue in order, the connection worker delivers nothing new, and then all have left. |
| `Transports.Transport.EnqueueOnConnectionLane` | internal/mqtt/dispatch.go:144-156 | enqueue of a connection message, uninterrupted: it becomes the pending one of its key with a wake token set, or is lost once closed. |
| `Transports.Transport.EnqueueOnLane` | internal/mqtt/dispatch.go:144-187 | enqueue of any other message, uninterrupted: lost once closed, sent if its lane holds fewer than the configured number (256 if none is), else reported and then discarded or blocked. |
| `Transports.Transport.ResumeBlocked` | internal/mqtt/dispatch.go:183-187 | A blocked callback resumes if and only if its lane has room or its context is done: the message is at the end of the queue, or lost only if done. |
| `Transports.Transport.RunQueue` | internal/mqtt/dispatch.go:36-48 | Left alone, a queue worker delivers what it was busy with and then its whole queue in order, touching no other lane. |
| `Transports.Transport.CoalesceOnce` | internal/mqtt/dispatch.go:52-66 | One wake token is enough: the turn it starts delivers every pending message and leaves the map empty. |
| `Transports.Transport.TakeConn` | internal/mqtt/dispatch.go:82-90 | Removes and returns some pending message, or reports an empty map. |
| `Transports.Transport.DrainConnections` | internal/mqtt/dispatch.go:52-66 | Left alone, the drain loop delivers every pending message exactly once and empties the map. |
| `Subscriptions.EstablishedCount` | internal/session/fleet.go:229-307 | A broker state made of one connection id, the entries' ids and foreign ids has each filter exactly as often as the specification function says, plus the foreign ones. |
| `Reception.EstablishedHears` | internal/session/fleet.go:109-122 | The broker sends every AGV's connection topic if and only if the fleet has its connection subscription, the topics of a tracked AGV if and only if the channel is enabled, and what other subscriptions match. |
| `FleetSteps.StepKeepsInv` | internal/session/fleet.go:109-296 | Every critical section and broker call of interleaved Track, Untrack, Start, Stop and Restore keeps the ownership invariant. |
| `FleetTheorems.LinearOwnership` | internal/session/fleet.go:109-296 | In every reachable state a live subscription is held by the connection slot, one tracked entry or one call in flight, by only one of them, and nothing held is lost but by the broker itself. |
| `FleetTheorems.QuiescentFilters` | internal/session/fleet.go:109-307 | Once every call has returned, however often sessions were lost, each filter is live as often as specified (the wildcard once if started, one per enabled channel of each tracked AGV, nothing else) short of exactly the lost subscriptions the session still counts on. |
| `FleetTheorems.RightExactly` | internal/session/fleet.go:109-307 | So at rest all filters are as specified if and only if nothing the session counts on is lost. |
| `FleetTheorems.RestingFleetHears` | internal/session/fleet.go:109-307 | What the subscriptions are for: at rest, with nothing lost, the broker sends the connection topic of every AGV if started and the state and visualization topics of tracked AGVs exactly as the options say, and nothing else. |
| `FleetRecovery.RestoreRecoversExactly` | internal/session/fleet.go:186-256 | From the first section of a Restore, every run without a further loss, whatever calls run beside and after it, ends with the specified filters if and only if no Track in flight had by then lost a subscription it already holds. |
| `FleetRecovery.RestoredByFilter` | internal/session/fleet.go:186-256 | The same for the filters at an MQTT broker, under the order of calls that QuiescentByFilter asks for. |
| `FleetRecovery.RestoreMissesTrack` | internal/session/fleet.go:186-256 | A loss in the middle of a Track, a whole Restore, and then the commit: a concrete family of runs that leave any given AGV tracked without a live subscription. |
| `FleetTheorems.NothingDropped` | internal/session/fleet.go:109-296 | Runs without a session loss drop nothing, so the filters are right at their end. |
| `FleetTheorems.OneConnectionWildcard` | internal/session/fleet.go:109-122 | However Start, Stop and Restore interleave, there are never two connection subscriptions. |
| `FleetByFilter.StepAgrees` | internal/mqtt/transport.go:306-322 | On MQTT, where a filter is subscribed once and unsubscribing ends it for all: a step keeps the broker's filters those of the live subscriptions if and only if it ends none whose filter another live one needs. |
| `FleetByFilter.OrderlyRunAgrees` | internal/session/fleet.go:229-269 | They agree after every run in which no Track of an untracked AGV begins while another unfinished call concerns that AGV, Stop, Restore and session losses included. |
| `FleetByFilter.QuiescentByFilter` | internal/session/fleet.go:229-269 | After such a run, once every call has returned, the filters at the broker are exactly the specified ones whose subscription was not lost with a session. |
| `FleetRivals.TrackIsSafeExactly` | internal/session/fleet.go:229-269 | In every state that orderly runs keep (no two subscriptions on one filter, no call beside a Track of its AGV): a Track of an untracked AGV is safe on MQTT, however the calls in flight then finish, if and only if no other call in flight concerns that AGV. |
| `FleetRuns.TwoTracksLoseFilter` | internal/session/fleet.go:229-269 | Two overlapping Tracks of one AGV can leave it tracked with no filter at an MQTT broker: a concrete run. |
| `FleetFinality.StaysUntrackedExactly` | internal/session/fleet.go:186-256 | An AGV that is not tracked stays so, until somebody asks for it, over all runs with any other calls and losses, if and only if no call in flight is tracking it, has it to track, or has it in a Restore snapshot. |
| `FleetFinality.UntrackIsFinalExactly` | internal/session/fleet.go:271-278 | So an Untrack is final from its first section on if and only if no call in flight may still track its AGV. |
| `FleetDrive.StopAlone` | internal/session/fleet.go:125-150 | From every reachable state, a Stop that nobody interferes with runs to its end and leaves no AGV tracked and no connection subscription. |
| `FleetRuns.RestoreBeatsUntrack` | internal/session/fleet.go:186-216 | An Untrack that returns during a Restore is undone by it: a concrete run that ends with the AGV tracked and subscribed. |
| `FleetHooks.StepBalancesExactly` | internal/session/fleet.go:186-296 | A step keeps the balance of hooks if and only if it is neither the commit of a Track whose AGV a Restore is about to put back, nor a failed subscribe that ends a Restore with AGVs left to put back. |
| `FleetHooks.HooksBalance` | internal/session/fleet.go:186-296 | Over every interleaving of Start, Stop, Track, Untrack and Restore without those two kinds of steps, an AGV has gone online once more than offline if it is tracked or about to be put back, and equally often if not; once all calls have returned, exactly if it is tracked. |
| `FleetHooks.WithoutRestoreIsSmooth` | internal/session/fleet.go:229-296 | Runs without Restore have no such step, so the balance holds in all of them. |
| `FleetSessions.OwnedFilterUnique` | internal/session/fleet.go:237-248 | No two subscriptions of the fleet share a filter, so a broker that unsubscribes by filter cannot confuse them. |
| `FleetSessions.UnsubscribeOwned` | internal/mqtt/transport.go:306-322 | Ending an owned subscription removes that one only, by id or by filter, out of any surviving subset. |
| `FleetSessions.FleetSession.constructor` | internal/session/fleet.go:79-86 | A new session subscribes nothing and treats what is on the broker as foreign. |
| `FleetSessions.FleetSession.Start` | internal/session/fleet.go:109-122 | Subscribes the wildcard once, after which the connection topic of every AGV is received; a session that believes it has started does nothing and succeeds. |
| `FleetSessions.FleetSession.Receives` | internal/session/fleet.go:109-307 | Of a tracked AGV the state topic is received if and only if the state option is on, and the visualization topic if and only if the visualization option is; connection topics of all AGVs if and only if started; and what others on the connection subscribed. |
| `FleetSessions.FleetSession.SubscribeAll` | internal/session/fleet.go:237-248 | All channel subscriptions of an AGV or, after a failure, exactly the broker state from before. |
| `FleetSessions.FleetSession.Track` | internal/session/fleet.go:229-269 | Idempotent; on failure nothing changes; on success exactly the AGV's entry and one online hook are added and the broker matches. |
| `FleetSessions.FleetSession.Untrack` | internal/session/fleet.go:271-296 | Removes exactly the AGV's subscriptions and fires one offline hook; a no-op for an untracked AGV. |
| `FleetSessions.FleetSession.HandleConnection` | internal/session/fleet.go:170-182 | A no-op with auto-tracking off; otherwise, without a subscribe error, ONLINE adds the AGV to the tracked ones, OFFLINE and CONNECTIONBROKEN take it out, any other state changes nothing; with an error nothing changes. |
| `FleetSessions.FleetSession.Stop` | internal/session/fleet.go:125-150 | Leaves nothing of the fleet on the broker and balances every online hook with an offline one. |
| `FleetSessions.FleetSession.Restore` | internal/session/fleet.go:186-216 | For id-based and filter-based brokers and any surviving subset: on success the tracked AGVs are unchanged, no hook fires and the broker is right; on failure at the k-th AGV exactly those before it stay tracked and it leaves no subscription. |
| `FleetSessions.FleetSession.Clear` | internal/session/fleet.go:192-205 | The locked part of Restore ends every surviving subscription of the fleet before any is made. |
| `FleetSessions.FleetSession.Retrack` | internal/session/fleet.go:210-215 | Tracks the snapshot in order, silently, until one fails. |
| `AutoTrack.HandleAllIsLocal` | internal/session/fleet.go:170-182 | Whether an AGV ends up tracked depends on its own messages only. |
| `AutoTrack.CoalescingExact` | internal/mqtt/dispatch.go:92-103 | Every coalescing of one AGV's states leads to the outcome of the full stream if and only if the last state drives tracking or no state says anything new. |
| `AutoTrack.CoalescingPreservesMeaning` | fleet_autotrack.go:35-49 | Under that condition for every AGV, any coalesced and reordered stream leaves the same AGVs tracked as the full one. |
| `AutoTrack.ProtocolStatesKeepMeaning` | internal/session/fleet.go:174-178 | For ONLINE, OFFLINE and CONNECTIONBROKEN the condition always holds, and the tracked AGVs are those whose last message was ONLINE. |
| `EndToEnd.DeliveryIsCoalescing` | internal/mqtt/dispatch.go:50-103 | When the dispatcher has caught up, the jobs from what it delivered are a per-AGV coalescing of the jobs from all that arrived. |
| `EndToEnd.CoalescedDeliveryKeepsMeaning` | fleet_autotrack.go:65-87 | End to end: handling the delivered connection messages leaves the same AGVs tracked as handling every one that arrived. |
| `FleetTracking.AutoTracker.Schedule` | fleet_autotrack.go:65-87 | Never blocks: the job is queued, or refused when there is no tracker, the queue of 64 is full or the tracker is being stopped; a full queue is reported unless stopped. |
| `FleetTracking.AutoTracker.RunOne` | fleet_autotrack.go:35-49 | The oldest job goes to FleetSession.HandleConnection; only a failed subscription of an ONLINE AGV is reported, and then nothing was tracked. |
| `FleetTracking.AutoTracker.RunAll` | fleet_autotrack.go:35-49 | The worker handles all that is queued, in order, and keeps fleet and broker in agreement. |
| `FleetTracking.AutoTracker.Cancel` | fleet_autotrack.go:51-61 | Only a running tracker gets cancelled; its queue and what it handled are left alone. |
| `FleetTracking.AutoTracker.AwaitWorker` | fleet_autotrack.go:51-61 | After the wait a prefix of the queue has been handled in order, the rest counts as refused, and a new tracker may start. |
| `FleetTracking.TrackedIsWhatArrived` | fleet_autotrack.go:22-49 | End to end through dispatcher, queue and session: with nothing refused or failed, the fleet tracks what handling every arrived connection message one by one would have left, if every AGV meets the coalescing condition. |
| `FleetTracking.OnlineAgvsAreSubscribed` | internal/session/fleet.go:170-182 | With the protocol's states the tracked AGVs are exactly those whose last arrived state is ONLINE, and the broker has exactly the filters specified for them. |
| `Clients.CountedSnoc` | client.go:368-387 | One more filter, new or repeated, is counted as often as it was asked for on a broker by id and once on a broker by filter. |
| `Clients.FleetOnePerFilter` | internal/session/fleet.go:237-248 | The fleet never has two subscriptions on one filter, nor one on a filter of the client's own, so its counts are the same on a broker by filter. |
| `Clients.KeepsOnePerFilter` | internal/mqtt/transport.go:306-322 | Subscribing and unsubscribing by filter never leave two subscriptions on one filter. |
| `Clients.SubscribedIsForeign` | client.go:368-387 | A subscription of the client's own, new or replacing an older one on its filter, leaves the fleet's exactly as they were. |
| `Clients.Client.SubscribeLocked` | client.go:339-389 | Subscribing succeeds if and only if none of its calls fails; then every filter of want flags, topic filters, pinned identity and tracked AGVs is subscribed as often as specified on top of what was kept (once on a broker by filter), unless a stale fleet left the wildcard out. |
| `Clients.Client.FilterCountMeans` | client.go:339-389 | The specification from the flags: with a fleet its own plus the factsheet filter if asked for, without one each of the four channels that is asked for, and every topic handler filter as often as registered. |
| `Clients.Client.HearsWithoutFleet` | client.go:354-372 | A client without a fleet receives the topics of exactly those of state, connection, visualization and factsheet that it asked for, from the AGVs its identity admits, and what topic handlers' filters and kept subscriptions match. |
| `Clients.Client.HearsWithFleet` | client.go:339-353 | A client with a fleet receives every connection topic, the tracked AGVs' topics by the fleet options, and factsheets of admitted AGVs if and only if asked for; the rest as without. |
| `Clients.Client.Start` | client.go:268-294 | Without a fleet, one that comes up receives exactly the channels asked for from the admitted AGVs. It fails to subscribe if and only if one of its calls fails, and keeps a stale started flag if and only if there was one or the wildcard was not the call that failed; one that comes up meets the specification if and only if there was no stale flag (or the client itself asks for the wildcard by filter); a failed one leaves nothing subscribed. |
| `Clients.RetryLosesWildcard` | client.go:268-294 | A start that fails on its only topic handler and is tried again comes up with the handler's filter alone: the fleet's wildcard is missing, for either kind of broker. |
| `Clients.Client.HandleReconnect` | client.go:401-436 | After a connection that kept any part of the subscriptions: no hook fires, and on success the broker has what is specified for the AGVs that were tracked, with the client's own kept ones counted on top; without a fleet it receives exactly the channels asked for and what was kept; the specification is met if and only if none were kept or, by filter, only wanted ones. |
| `Clients.Client.KeptHarmless` | client.go:401-436 | Kept subscriptions do no harm if and only if there are none or, where once is enough, their filters are wanted anyway: dropping the old handles doubles them on a broker by id. |
| `Clients.Client.Stop` | client.go:297-337 | Before it disconnects, every subscription of the client's own has been ended and none begun; it ends in the state a fresh start needs: nothing subscribed, nothing tracked, no stale flag. |
| `Clients.Client.EndOwn` | client.go:320-324 | Ends every one of the client's own subscriptions and no subscription comes into being. |
| `Outcomes.IsCause` | publish.go:117-148 | Every errors.Is question about a chain is a question about its root cause. |
| `Outcomes.ClassifyMeans` | publish.go:58-81 | NotStarted if and only if the cause rules a packet out, or the context ended and nothing was attempted. |
| `Outcomes.OutcomeByCause` | publish.go:58-81 | The outcome for every cause, marked as attempted or not. |
| `Outcomes.MarkMeans` | publish.go:85-94 | Marking is idempotent, keeps the cause, and the marked error is Uncertain if and only if the cause is not definite. |
| `Outcomes.MarkChanges` | publish.go:85-94 | The only outcome a mark changes is that of an ended context. |
| `Outcomes.AdaptMeans` | mqtt_adapter.go:28-35 | Crossing the adapter keeps the cause, and the error is marked afterwards if and only if either side had marked it. |
| `Outbound.TrimSpaceEmpty` | outbound_validate.go:61 | An id is empty after trimming if and only if it is all white space. |
| `Outbound.SpaceCharacters` | outbound_validate.go:61 | White space is what Unicode calls so, by code point. |
| `Outbound.OrderPasses` | outbound_validate.go:54-68 | An order passes if and only if every enabled check holds; a refusal is always classified NotStarted. |
| `Outbound.OrderReasons` | outbound_validate.go:54-68 | Which reason a refused order gives: the first failed check's, in the order of the code. |
| `Outbound.HeaderReasons` | outbound_validate.go:85-99 | Which reason a refused header gives: headerId_zero before identity_mismatch. |
| `Outbound.ActionsReasons` | outbound_validate.go:70-83 | Which reason refused instant actions give. |
| `Outbound.ValidateInstantActions` | outbound_validate.go:70-83 | The loop accepts if and only if header and all action ids fit, and names the first blank id. |
| `Outbound.WireIdentity` | internal/outbound/builder.go:41-53 | A validated message goes out with the caller's header id, the handle's version, the time of sending, and for each identity part what the caller gave or, where blank, the handle's; that is the handle's identity if and only if the checks guarantee or the caller respects it; filling in is idempotent. |
| `PublishPath.WaitToken` | internal/mqtt/wait.go:17-52 | Nil if and only if the token completed before the default wait and the deadline; otherwise exactly which error. |
| `PublishPath.Sender.PublishRaw` | internal/mqtt/transport.go:260-280 | What is handed to the library and which error each way of ending gives. |
| `PublishPath.Sender.Publish` | mqtt_adapter.go:28-35 | The outcome says exactly what became of the packet: NotStarted means never handed over or rejected by the library. |
| `PublishPath.RefusalMeans` | agv.go:30-50 | A publish refused before the transport is reusable, except that a failed encoding counts as uncertain. |
| `PublishPath.RefusalOrder` | agv.go:30-50 | The checks in their order, each with its error; QoS 0, 1 and 2 pass and nothing above does. |
| `PublishPath.IdentityChecked` | inbound.go:131-142 | The strict check refuses a header if and only if it is not blank and names somebody else in either part. |
| `PublishPath.AGVHandle.PublishOrder` | agv.go:30-68 | The first failed check decides and sends nothing; otherwise the packet is on the built order topic with the caller's order, update and header id, the handle's version, the time of sending and each identity part of the caller or, where blank, of the handle, and the outcome fits its fate; the message is changed only after validation. |
| `PublishPath.AGVHandle.PublishInstantActions` | agv.go:72-113 | The same for instant actions, with the action ids in order. |
| `PublishPath.PublishedOrderChecksOut` | inbound.go:131-142 | A validated order's topic parses back to the handle's identity and its header passes the strict identity check there. |
| `Ledgers.NeverReused` | examples/dispatch-egress-sketch/main.go:40-87 | With default validation, over every run and from any starting ids, the header ids accepted or left unresolved are strictly increasing, across the 32-bit wrap. |
| `Ledgers.WrappedStaysSilent` | examples/dispatch-egress-sketch/main.go:73-87 | Once the counter has wrapped to zero nothing is sent any more. |
| `Ledgers.DistinctExactly` | examples/dispatch-egress-sketch/main.go:40-87 | No header id is in flight twice over any run if and only if validation is not disabled. |
| `Ledgers.IncreasingExactly` | examples/dispatch-egress-sketch/main.go:40-87 | With zero header ids allowed, ids increase over every run if and only if the update id runs out first. |
| `Ledgers.BooksAreRight` | examples/dispatch-egress-sketch/main.go:77-87 | The ledger records exactly the accepted packets, in order, and fences every unresolved one. |
| `Ledgers.Send` | examples/dispatch-egress-sketch/main.go:43-51 | The issued ids are those on the wire, and nothing leaves unless they pass validation. |
| `Ledgers.Ledger.PublishOrderOnce` | examples/dispatch-egress-sketch/main.go:40-64 | Takes exactly one step of the run; its error keeps the outcome of the publish. |
| `Ledgers.Ledger.RecordSuccessfulPublish` | examples/dispatch-egress-sketch/main.go:77-81 | Appends the record and advances both counters modulo 2^32. |
| `Ledgers.Ledger.Fence` | examples/dispatch-egress-sketch/main.go:83-87 | Appends to the fenced ids and advances both counters modulo 2^32. |
| `Facts.Apply` | facts/facts.go:40-106 | The result, entry by entry: the changed ones of node, order and order update, each with the previous state's value (empty or zero for a nil state) and the new one, then one fact for each reported action that is new or has another status than the last previous entry with its id, in order, with that status (or none) as previous, its own as next, and its own type. |
| `Facts.PatchIsNext` | facts/facts.go:40-106 | From a view of the previous state the facts give a view of the next one if and only if no repeated action id hides a change; actions the next state does not report keep their status. |
| `Facts.DistinctIsSettled` | facts/facts.go:83-104 | Distinct action ids meet that condition. |
| `Facts.RepeatedIdMisleads` | facts/facts.go:83-104 | A repeated id that returns to its old status misleads a consumer: a concrete pair of states. |
| `Facts.SilenceMeansUnchanged` | facts/facts.go:40-106 | The result is empty if and only if nothing observed changed. |
| `Facts.FollowIsLast` | facts/facts.go:37-106 | Folding the facts over any stream of states with distinct action ids reconstructs the last one. |
| `HeaderPolicy.KeyIdentifies` | inbound_policy.go:45 | On the known channels a watermark key stands for one identity and channel only if and only if the identity is free of NUL. |
| `HeaderPolicy.KeyCollides` | inbound_policy.go:45 | With NUL characters two vehicles share a watermark. |
| `HeaderPolicy.TopicNamesAreNulFree` | topic/resolver.go:46-62 | Identities parsed from topic names without NUL are NUL-free. |
| `HeaderPolicy.HeaderSequencePolicy.Classify` | inbound_policy.go:41-63 | The watermark of the message's own key moves on acceptance only; no other key's does. |
| `HeaderPolicy.VerdictMeans` | inbound_policy.go:41-63 | A message of a NUL-free identity: Accept above, Duplicate at, Stale below the highest earlier header id of its identity and channel, whatever other identities the stream holds. |
| `HeaderPolicy.VerdictExactly` | inbound_policy.go:41-63 | An identity is judged by its own messages alone, in every stream, if and only if it is NUL-free. |
| `HeaderPolicy.AcceptedAreRecords` | inbound_policy.go:41-63 | The accepted ids of each NUL-free identity and channel are exactly the strict left-to-right maxima of its own messages, whatever else is in the stream. |
| `HeaderPolicy.RecordsIncrease` | inbound_policy.go:41-63 | So no header id is accepted twice. |
| `Buses.WithoutMeans` | internal/bus/memory.go:63-75 | With rising ids a removal takes out the one entry with the id, keeps the order of the rest, and is idempotent. |
| `Buses.DeleteInPlace` | internal/bus/memory.go:66-72 | The in-place shift computes that removal and touches nothing behind the list. |
| `Buses.LiveWalkMisses` | internal/bus/memory.go:39-50 | Why the copy is needed: when a handler unsubscribes itself, every later entry of the live array moves one place down, so a walk over it would miss the next one. |
| `Buses.Append` | internal/bus/memory.go:61 | Appending writes the backing array in place or a larger new one, and the list reads as before plus the new entry. |
| `Buses.OrderIsKept` | internal/bus/memory.go:53-75 | Over any run of subscriptions and removals the ids of every list keep rising. |
| `Buses.Memory.Subscribe` | internal/bus/memory.go:53-61 | Appends under a fresh id to the event's backing array or a larger one; no other event's handlers change. |
| `Buses.Memory.Unsubscribe` | internal/bus/memory.go:63-75 | The entry is shifted out of the live backing array, and over all events that is exactly the removal: every other subscription of the event stays, and other events keep theirs. |
| `Buses.Memory.Publish` | internal/bus/memory.go:39-50 | The handlers subscribed when it begins are called in order up to the first error although they shift and grow the live arrays meanwhile, and what they did is all that happened to the bus. |
| `Buses.DeliverMeans` | internal/bus/memory.go:39-50 | Delivery is to all handlers the payload is for, in order, if none fails, and otherwise up to and including the first that does. |
| `Buses.WrapIsTransparent` | eventbus_client.go:94-132 | Wrapped handlers are called, and fail, exactly as they would be directly. |
| `Buses.WrapIgnoresOthers` | eventbus_client.go:94-132 | Events of another channel pass them by. |
| `Buses.EventNames` | events.go:14-20 | The event name of each channel with typed handlers, and which channels those are. |
| `Buses.TypedClient.UseEventBus` | eventbus_client.go:11-35 | Every handler moves behind what the bus has, per channel and in order; on a fresh bus the first attachment loses nothing. |
| `Buses.TypedClient.On` | client.go:142-199 | Registration appends to the same sequence of handlers, on the client or on its bus, where the id to unsubscribe it by is kept. |
| `Buses.TypedClient.Invoke` | inbound.go:166-235 | With or without a bus, the registered handlers are called in order up to the first error, which is returned. |

## Left out

- JSON, TLS, wills, keep-alive, the MQTT library itself, timestamps as times, and the inbound timing report: foreign code or I/O.
- `internal/gerrors`, `config.go`, `instant.go`, `events.go`, `extend/registry.go`, `testkit/recording.go` and the other examples: data, wrappers or one-branch functions that would only add easy members.
- Nothing being lost across a shutdown: the code does not promise it.
- Start of a transport or client while a Stop of the same one is running: taken not to overlap.
- FleetTheorems.LinearOwnership: ownership is a statement about ids; what becomes of filters on a broker that unsubscribes by filter is in FleetByFilter and FleetRivals.
- FleetByFilter.QuiescentByFilter: for fleets alone on the broker; foreign filters are in FleetSessions.
- FleetRivals.TrackIsSafeExactly: for states of orderly runs, and "however the calls in flight then finish" means without new calls and without a session loss.
- FleetHooks.HooksBalance: a step breaks the balance of the moment; that a later step could even it out again is not claimed or excluded.
- FleetSessions.FleetSession.Track: one call at a time, so the second look at the map never finds a faster rival; the rival is in FleetProtocol.
- FleetSessions.FleetSession.Untrack: the broker always ends a subscription it is asked to end, so the first unsubscribe error is not modelled; hooks are an event log, and what a hook does is not modelled.
- FleetSessions.FleetSession.Stop: as for Untrack, no unsubscribe fails.
- Clients.Client.HandleReconnect: for a client that itself asks for one of the fleet's filters at a broker by filter, only a connection that kept nothing is covered.
- Clients.Client.Stop: no unsubscribe fails; stopping the auto-track worker is FleetTracking.AutoTracker.Cancel and AwaitWorker, and the typed handlers' bus subscriptions are not ended here.
- Transports.Transport.DrainConnections: for one worker left alone; with callbacks in between, the transition system speaks.
- PublishPath.WaitToken: the goroutine and its channel are the race that is a parameter; time passes only in it.
- PublishPath.Sender.Publish: a completed token with an error counts as rejected, whatever the library had already written to the socket.
- Ledgers.Ledger.PublishOrderOnce: one ledger used by one loop; publishes past the ledger are not part of its run.
- Facts.PatchIsNext: a view keeps actions a later state no longer reports, since no fact says they are gone.
- Buses.Memory.Unsubscribe: ids do not wrap at 2^64, and an append that outgrows its array takes one of a capacity of the model's choosing.
- Buses.TypedClient.UseEventBus: a second attachment leaves the handlers on the first bus, and Stop takes them off it; neither is claimed otherwise.
- Buses.TypedClient.Invoke: decoding, identity check and policy before it are modelled separately or not at all.
