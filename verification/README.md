# The concurrent runtime of a DAP client, and the session that survives its reconnects

An MCP server drives a debugger over the Debug Adapter Protocol (DAP).  Its client (`dap.go`) runs one
goroutine that reads the connection (`readLoop`), one that replaces it when it breaks (`reconnectLoop`), any
number of goroutines that send requests and wait for responses, and subscribers with a bridge goroutine each.
They share one atomic flag, two one-slot channels, a response registry, a ring of recent events and a table
of subscribers.  On top of it a session (`tools.go`) keeps breakpoint tables that have to be put back into the
adapter after every reconnect.

This project models that runtime and proves what it keeps over every schedule and every run.

| file | models |
|---|---|
| `ReconnectProtocol.dfy`, `ReconnectTheorems.dfy` | `markStale`, `reconnectLoop`, `doReconnect`, `replaceConn`, `notifySessionReconnected` with the hook's requests, and `readLoop`, one atomic load, compare-and-swap, channel operation or mutex section a step |
| `ReconnectRecovery.dfy` | exactly when a client can become healthy again, and the two dead ends in which it cannot |
| `HookOutcomes.dfy` | exactly when the hook can still succeed, and what makes it fail on a connection that stays up |
| `Backoff.dfy`, `ReconnectRefinement.dfy` | `doReconnect` as the loop it is, and the proof that every stretch of the protocol through it ends as its contract says |
| `ReconnectShutdown.dfy` | what is left to happen once the context is cancelled |
| `ReconnectWitnesses.dfy` | runs of the code as written that reach states its comments rule out |
| `RegistryProtocol.dfy`, `RegistryTheorems.dfy` | requests, responses, drains and swaps, interleaved |
| `ResponseRegistry.dfy` | the mutex sections of the registry as methods on a map of channels |
| `EventRing.dfy`, `EventBus.dfy` | the replay ring, the subscriber table with its in-place cancel, the fan-out |
| `SubscribeProtocol.dfy`, `Bridge.dfy` | `Subscribe` against dispatchers; one subscription's channel, bridge and output |
| `StopTracking.dfy` | how the stop-waiting tools use `lastStopAt` |
| `SessionModel.dfy`, `DebuggerSession.dfy` | the breakpoint tables against the adapter: as values, and as a class whose methods are proved against them |

A protocol is a datatype `State`, a datatype `Action`, a guard `Enabled` and an effect `Apply`.  `Reachable` means
that some sequence of enabled actions leads there from `Init`; a lemma about a reachable state is a statement
about every schedule.  Every invariant is proved step by step (`StepKeepsInv`) and carried over runs
(`RunKeepsInv`).

## Where the code does not do what it says

The model follows the code.

- The re-initialisation hook runs inside `doReconnect` under a context without a deadline, and there are two ways for
  it to wait for good.  It holds the session's lock then, so the `stop` tool waits behind it.
  - If `readLoop` fails on the new connection and drains before the hook registers its next request, and that
    request's write still succeeds, nobody is left to answer or drain it.  The same happens with the
    InitializedEvent when `readLoop` broadcasts the loss before the hook subscribes, because that broadcast is not
    replayed.  (`ReconnectRecovery.Stuck`; runs: `ReconnectWitnesses.StuckRequestWitness`, `StuckEventWitness`)
  - If the InitializedEvent is dispatched between the hook's snapshot of the ring and its subscription, it is lost,
    and the hook waits on a good connection.  No I/O error is needed.  (`ReconnectRecovery.Missed`; run:
    `ReconnectWitnesses.MissedEventWitness`)

  `ReconnectRecovery.RecoveryExactly` says that, on a network that behaves from now on, these are the only states of
  an open client from which it cannot become healthy without a cancel.
- The drain of `replaceConn` is said to make `readLoop`'s own drain idle.  After a forced reconnect `readLoop` may drain
  for the old connection when the hook has registered a request on the new one; the hook then fails although nothing
  fails on its connection.  `HookOutcomes.FailureExactly` lists exactly what makes it fail there: such a late drain, a
  late broadcast, or a response that comes before its lookup; `ReconnectWitnesses.LateDrainWitness` is a run.
- `AwaitResponse` looks its channel up again.  A response dispatched before that lookup is in the channel's
  buffer, and the caller is told the connection is stale (`RegistryTheorems.AwaitIsExact`,
  `DispatchedBeforeLookupWitness`).
- A caller of `AwaitResponse` that gives up leaves its entry in the registry, so its response is not the orphan that
  `dispatchResponse` speaks of: it is taken and sent to a channel nobody receives from
  (`RegistryTheorems.AbandonedResponseIsStillTaken`).
- `Subscribe` takes the snapshot and then registers.  Its comment says an event in between is delivered twice;
  it is lost.  The twice-delivered events are those whose push precedes the snapshot and whose fan-out follows the
  registration (`SubscribeProtocol.DeliveryCount`, `MissedEventWitness`).  Registering first would lose none
  (`RegisterFirstMissesNothing`).  A live event may also overtake the replay (`ChannelOrder`, `OvertakingWitness`).
- The `markStale` after a failed hook runs while `stale` is set, so it does nothing, and `stale` is then cleared.  A
  failed re-initialisation is not retried (`ReconnectTheorems.FailedHookIsNotRetried`,
  `ReconnectWitnesses.FailedHookWitness`).  `Config.retryFailedHook` describes a loop that clears only after a nil
  hook; there `HealthyMeansSynced` holds in every run.
- If `readLoop` takes the token of the swap and then fails on the new connection before `stale` is cleared, it stays
  parked on the current connection of a client that is not stale.  `ReconnectTheorems.ClearStrandsFailedReader` says
  exactly when, `StrandedByClearOnly` that only a new mark or a cancel ends it, and
  `ReconnectWitnesses.StrandedReaderWitness` gives a run whose hook even succeeded.
- `reinitialize` sets `lastStopAt` to zero and keeps the ring, so a stop reported before a reconnect can be reported
  again after it (`StopTracking.ReplayAfterReinitializeWitness`).
- A tool advances `lastStopAt` before it has the stack trace; if that fails, the stop is consumed and no later
  wait-for-stop replays it (`StopTracking.ConsumedStopIsNotReplayed`).
- The bridge goroutine does not always exit after a cancel, as its comment says: `Bridge.ExitIsCertain` and
  `ExitIsPossible` give the exact conditions, `BlockedWitness` a run.

## Model

| member | source | states |
|---|---|---|
| ReconnectTheorems.StaleHasExactlyOneOwner | dap.go:479-529 | in every reachable state `stale` is set exactly while a caller is between its compare-and-swap and its send, a token is stored, the loop holds the token or is in doReconnect, or the loop gave up; at most one of these holds, and the "buffer full" branch is never taken |
| ReconnectTheorems.OneReconnectPerStalePeriod | dap.go:479-529 | while the client is open and can redial, every stale period has its own call of doReconnect and its own clear: the three counts differ only by the one in progress, so no wakeup is lost or doubled |
| ReconnectTheorems.FailedSendAsksForReconnect | dap.go:327-333 | the sender of a failed write goes on to markStale, after which the client is stale and, if it is open and can redial, a reconnect is coming |
| ReconnectTheorems.ForcedMarkAsksForReconnect | tools.go:1821-1829 | the reconnect tool can mark a client at any time, with the same result |
| ReconnectTheorems.SendIsTransparent | dap.go:321-334 | a checked send is let through if and only if the client is not stale; one that succeeds leaves the client as it was |
| ReconnectRecovery.FailedReadAsksForReconnect | dap.go:1300-1319 | after a read error on the current connection readLoop can by itself mark the client, drain, broadcast the loss once and park; a reconnect is then coming, and a hook that waited has been told |
| ReconnectTheorems.ParkedReaderIsNotForgotten | dap.go:493-511 | a reader parked on a replaced connection has a resume token stored or still to be sent by the replaceConn that replaced it |
| ReconnectTheorems.LostEventsBoundedBySwaps | dap.go:1301-1319 | over any run resumes never exceed swaps, and ConnectionLostEvent broadcasts never exceed swaps plus one |
| ReconnectTheorems.ParkedReaderIsRecovered | dap.go:1309-1319 | a reader parked on the current connection of an open client is stranded if and only if `stale` is down and no token is stored; without a read error between swap and clear `stale` is set, and with a backend someone then owns the reconnect |
| ReconnectTheorems.ClearStrandsFailedReader | dap.go:587-600 | storing false leaves readLoop stranded, with no token, no owner and `stale` down, if and only if it has already failed on the new connection and taken the token of the swap |
| ReconnectTheorems.StrandedByClearOnly | dap.go:479-619 | no other step strands readLoop, and once stranded every step keeps it so except a caller's compare-and-swap in markStale and a cancel |
| ReconnectTheorems.StrandedForGood | dap.go:479-619 | over any schedule without those two it stays stranded |
| ReconnectTheorems.OnlyClearLowersStale | dap.go:598-600 | no step of any role lowers `stale` except the store at the end of doReconnect |
| ReconnectTheorems.StaleFallsAfterHook | dap.go:587-600 | when `stale` falls, every swap so far has had its wired hook run exactly once and the last run has returned; with the corrected loop it returned nil |
| ReconnectTheorems.SendRefusedInWindow | dap.go:321-324 | a checked send whose stale test falls between the swap and the clear is refused and changes nothing |
| ReconnectTheorems.MarkAfterHookErrorIsIdle | dap.go:636-648 | the markStale after a hook error never wins its compare-and-swap, so it never signals |
| ReconnectTheorems.FailedHookIsNotRetried | dap.go:596-600 | after doReconnect the client is not stale and nobody owns a reconnect, and the session is initialised if and only if the hook did not fail; the corrected loop always leaves it initialised |
| ReconnectTheorems.HealthyMeansSynced | dap.go:591-600 | a client that is not stale has an initialised session: in every run of the corrected loop, and in every run of the code whose hooks all succeeded |
| ReconnectRecovery.RecoveryExactly | dap.go:479-648 | if from now on the current connection is not lost and one InitializedEvent comes per attach, an open client that can redial has a continuation without a cancel to a state that is not stale, with an initialised session and a reader on the current connection, if and only if its hook is neither stuck nor has missed its event; whatever the schedule so far |
| ReconnectRecovery.RecoveryByLoss | dap.go:479-648 | if connections may also be lost, it has one if and only if its hook is not stuck |
| ReconnectRecovery.HookReturnsExactly | tools.go:1710-1793 | on a connection that stays up, with one InitializedEvent per attach, a running hook can return without a cancel if and only if it is not stuck and has not missed its event |
| ReconnectRecovery.EventMissedExactly | dap.go:1194-1198 | an InitializedEvent is missed if and only if it is dispatched between the hook's snapshot and its subscription |
| ReconnectRecovery.LossIsHeardExactly | tools.go:402-421 | the broadcast of a loss reaches the hook if and only if it listens; it can then return the error even if the InitializedEvent has come too |
| ReconnectRecovery.StuckForGood | dap.go:1053-1073 | from a stuck state every schedule without a cancel leaves the hook inside, stuck, and `stale` set |
| ReconnectRecovery.MissedForGood | dap.go:1194-1198 | after a missed event every schedule without a cancel, a lost connection or a second InitializedEvent leaves the hook inside and `stale` set, although readLoop reads |
| ReconnectRecovery.OwnerInstalls | dap.go:479-511 | whoever owns the reconnect can bring the client to a new connection with its resume token sent, whatever the schedule so far |
| ReconnectShutdown.CancelEndsBoth | dap.go:516-529 | from every reachable state, also with the hook stuck, a cancel lets readLoop and reconnectLoop end |
| ReconnectShutdown.ShutdownIsQuiet | dap.go:1301-1305 | a read that fails because of the cancel is never broadcast as a lost connection, over any schedule |
| HookOutcomes.SuccessExactly | tools.go:1710-1804 | when nothing fails on its connection from now on, a running hook can return nil if and only if CanSucceed, a condition on the state alone: readLoop can come to read the connection, without a drain if a request is registered, and the InitializedEvent, if still needed, has been heard or is still to come |
| HookOutcomes.FailureExactly | dap.go:498-503 | in every run of the hook in which nothing fails on its connection, it fails if and only if a response comes before its lookup, the registry is drained late for another connection, or the loss of another connection is heard |
| ReconnectTheorems.StepKeepsInv | dap.go:479-648 | every step of senders, readLoop, reconnectLoop and Close keeps ownership, the reader's tokens, the window between swap and clear, and the hook count |
| ReconnectTheorems.ReachableInv | dap.go:479-648 | that invariant holds in every reachable state |
| ReconnectRefinement.StretchFollowsRounds | dap.go:553-619 | every stretch of a protocol run through doReconnect, with any steps of the other roles in between, ends as the contract of Backoff.Client.DoReconnect says for the rounds it went through: installed or given up, number of swaps and hook runs, and what the session is left in |
| ReconnectRefinement.LoopFollowsRounds | dap.go:553-619 | conversely, for every sequence of rounds and either result of the hook there is such a run |
| ReconnectWitnesses.FailedHookWitness | dap.go:634-648 | a run of the code that ends healthy, with a session whose hook failed and nobody to retry it |
| ReconnectWitnesses.StrandedReaderWitness | dap.go:1309-1319 | a run of the code that ends with readLoop stranded on a client whose hook succeeded |
| ReconnectWitnesses.StuckRequestWitness | dap.go:340-350 | a run of the code into the deadlock: readLoop is parked, and the hook awaits the response to a request it registered after the drain |
| ReconnectWitnesses.StuckEventWitness | tools.go:402-421 | a run of the code into the other one: the hook has subscribed after the broadcast and waits for an InitializedEvent |
| ReconnectWitnesses.MissedEventWitness | dap.go:1194-1198 | a run of the code in which the hook has missed its InitializedEvent and waits, while readLoop reads a connection that never failed |
| ReconnectWitnesses.LateDrainWitness | dap.go:498-503 | a forced reconnect whose hook fails by the drain for the old connection, without an error on the new one and with nobody to retry |
| Backoff.NextWait | dap.go:613-617 | doubling a wait and cutting it off at the cap gives the next wait of the closed form |
| Backoff.WaitsRiseToCap | dap.go:536-617 | for a base within the cap the k-th wait is min(base times 2 to the k-1, cap) and waits never fall; a wait exceeds the cap if and only if it is the first one and the base does |
| Backoff.TotalWait | dap.go:536-549 | with one second and thirty seconds, n failures wait 2 to the n, minus 1, seconds in all for n up to 5, and 31 + 30(n-5) after |
| Backoff.Client.DoReconnect | dap.go:553-619 | for every sequence of outcomes: a connection is installed if and only if the first round that does not simply fail succeeds with the context alive; then `stale` is cleared whatever the hook said, otherwise it is left; the attempts and the exact waits |
| RegistryTheorems.CompletedAtMostOnce | dap.go:1083-1142 | in every reachable state each response channel has had at most one send or close in all; no send hits a closed channel, no channel is closed twice, and the send of dispatchResponse never blocks |
| RegistryTheorems.FateIsFinal | dap.go:1083-1142 | a channel is in the registry exactly until it is taken, drained or cleaned up, and no later step changes which |
| RegistryTheorems.DrainCompletesEveryWaiter | dap.go:493-503 | after the drain of replaceConn, or of readLoop, the registry is empty and every channel made before it is completed by a message, a close, or the clean-up of its own failed send |
| RegistryTheorems.DrainWakesWaiter | dap.go:1064-1072 | a caller that waits on a registered channel can then receive, and gets ErrConnectionStale |
| RegistryTheorems.ReplaceConn | dap.go:493-503 | swap and drain together give a new connection, an empty registry and nobody waiting for the old one |
| RegistryTheorems.RegistryHoldsOnlyCurrentEntries | dap.go:493-503 | between drains every registered entry was registered on the current connection; a channel is out of the registry if and only if it is completed |
| RegistryTheorems.SequenceNumbersAreFresh | dap.go:267-276 | over any number of swaps and senders a sequence number is handed out once, registered once and written at most once, and only after it was registered |
| RegistryTheorems.ResponseCrossesNoConnection | dap.go:321-350 | a response that AwaitResponse returns answers that very request, and came from the connection the request was written on |
| RegistryTheorems.WriteIsFinal | dap.go:328-350 | the connection a request was written on never changes |
| RegistryTheorems.LateResponseIsOrphanOrOwn | dap.go:1083-1098 | a response read at any time is dropped without effect, or taken for the request written on the connection it came from; no other channel changes |
| RegistryTheorems.ResponseIsTaken | dap.go:1083-1098 | a response is dropped if and only if its request is not registered; otherwise it is taken out and can be sent at once |
| RegistryTheorems.AwaitedResponseIsReturned | dap.go:1053-1098 | the response to a registered request whose caller waits is what AwaitResponse returns |
| RegistryTheorems.CallReturnsItsResponse | dap.go:267-350 | from every state with readLoop free, a fresh call that is written and looked up returns the response to its own number, and leaves no entry |
| RegistryTheorems.FailedSendLeavesNoEntry | dap.go:327-333 | a call whose write fails returns the error, and its entry is gone |
| RegistryTheorems.RefusedCallIsNotRegistered | dap.go:321-324 | a refused call returns the error and touches nothing else |
| RegistryTheorems.AbandonedResponseIsStillTaken | dap.go:1079-1098 | a caller that gives up leaves its entry, and its response is taken |
| RegistryTheorems.LateResponseWitness | dap.go:493-503 | a run in which a response read after the swap is delivered to the request written before it |
| RegistryTheorems.AwaitIsExact | dap.go:1053-1073 | without ctx cancellation AwaitResponse returns the dispatched response if its lookup came first and dispatchResponse took the channel; in every other schedule it returns ErrConnectionStale |
| RegistryTheorems.WaiterIsWoken | dap.go:1064-1072 | a waiter whose channel has left the registry can receive at once, unless readLoop is about to send to it |
| RegistryTheorems.DispatchedBeforeLookupWitness | dap.go:1054-1062 | a run in which the response lies in the channel and AwaitResponse reports a stale connection |
| RegistryTheorems.StepKeepsInv | dap.go:267-376 | every step of requesters, readLoop and reconnectLoop keeps the registry invariant for every sequence number |
| ResponseRegistry.Registry.RegisterIfAbsent | dap.go:355-363 | a new open, empty channel if and only if the number was absent; all other entries stay |
| ResponseRegistry.Registry.DispatchResponse | dap.go:1083-1098 | the entry leaves and its open, empty channel gets the message; no other channel is touched, and an orphan changes nothing |
| ResponseRegistry.Registry.CloseRegistry | dap.go:1134-1142 | for every order of walking the map each registered channel is closed once, none gets a message, and the registry is empty |
| EventRing.Ring.constructor | dap.go:957-962 | an empty ring of the given capacity |
| EventRing.Ring.Push | dap.go:965-973 | index and size stay in bounds and the history grows by the entry, through every wrap-around |
| EventRing.Ring.Snapshot | dap.go:976-988 | exactly the last min(n, capacity) of the n entries ever pushed, oldest first |
| EventRing.LastIs | dap.go:976-988 | the last n of a sequence: how many, which, and in which order |
| EventBus.SubscriberList.Register | dap.go:1196-1198 | the subscription is appended, whether append reuses the backing array or moves to a larger one |
| EventBus.SubscriberList.Cancel | dap.go:1255-1265 | exactly that subscription leaves the list by a shift in place, order kept; a repeated cancel changes nothing |
| EventBus.SubscriberList.ShiftDown | dap.go:1259-1262 | every later entry moves down by one and every earlier one stays |
| EventBus.SubscriberList.CopyOut | dap.go:1110-1113 | a fresh array with the list's elements in order |
| EventBus.SubscriberList.Perform | dap.go:1196-1265 | any sequence of registrations and cancels, repeated ones included, leaves the list that the changes give one after the other |
| EventBus.SubscriberList.CopySurvives | dap.go:1110-1113 | a list copied out before any such sequence still holds exactly what it held |
| EventBus.BroadcastEvent | dap.go:1146-1166 | every subscription in the table that is not cancelled and has fewer than 64 events buffered gets the event once, at the end; every other keeps its channel; none waits |
| EventBus.DispatchEvent | dap.go:1104-1128 | the event enters the ring once, and reaches exactly the same subscriptions |
| EventBus.WithoutCuts | dap.go:1259-1264 | cutting the one entry with an id out of the list leaves the list without that id |
| EventBus.ListIsLive | dap.go:1196-1265 | after any sequence of registrations and repeated cancels the slice lists exactly the live subscriptions in registration order |
| EventBus.TableIsLive | dap.go:1180-1265 | after any sequence of subscribes and repeated cancels the table of a type lists exactly its live subscriptions in registration order |
| EventBus.TableExactly | dap.go:1180-1265 | an id is in the table of a type if and only if it was subscribed under it and never cancelled, and of two such ids the one subscribed first stands first |
| SubscribeProtocol.DeliveryCount | dap.go:1194-1214 | an event that passes the filters is received zero times if and only if push and fan-out copy both fall between snapshot and registration, twice if and only if push precedes the snapshot and copy follows registration, and once otherwise |
| SubscribeProtocol.TimesAreSteps | dap.go:1104-1214 | the log of a run is what its schedule pushes, and the times that the other theorems compare are the numbers of the steps of that schedule |
| SubscribeProtocol.FilteredDelivery | dap.go:1200-1214 | an event of another type is never received; one that is too old or pushed out of the ring is received once if its copy follows the registration, else not |
| SubscribeProtocol.SingleDispatcherDuplicate | dap.go:1286-1338 | with readLoop as the only dispatcher at most one event, the last of the snapshot, is received twice |
| SubscribeProtocol.SingleDispatcherGap | dap.go:1286-1338 | with readLoop as the only dispatcher the missed events are contiguous |
| SubscribeProtocol.RegisterFirstMissesNothing | dap.go:1187-1198 | in the other order, registering before the snapshot, every event that passes the filters is received once or twice |
| SubscribeProtocol.MissedEventWitness | dap.go:1187-1198 | a run with one dispatcher in which an event is never received |
| SubscribeProtocol.ChannelOrder | dap.go:1194-1214 | with readLoop as the only dispatcher the channel is in push order if and only if no matching event is copied out after the registration and before the replay of another matching entry |
| SubscribeProtocol.OvertakingWitness | dap.go:1194-1214 | a run with one dispatcher in which a newer live event is put before an older replayed one |
| SubscribeProtocol.StepKeepsInv | dap.go:1104-1214 | every push, copy, snapshot, registration and replay keeps each event's count equal to what its times say |
| Bridge.OutputIsOrderedSelection | dap.go:1216-1252 | for every schedule, what a subscriber has and can still receive is an in-order selection of the puts without repetition; only dropped puts are missing, and after a cancel what the drain could not place |
| Bridge.DropsBounded | dap.go:1201-1214 | of n puts at most max(0, n-64) are dropped, so a replay of at most 64 entries alone drops none |
| Bridge.DropMeansBehind | dap.go:1115-1127 | a put is dropped if and only if the channel holds 64 messages, so a subscriber loses one only while it is at least 64 accepted messages behind |
| Bridge.ExitIsCertain | dap.go:1216-1252 | after a cancel, with no more puts and no consumer, every schedule of the bridge ends with its exit if and only if it is already draining or the output has room for all that is on its way |
| Bridge.ExitIsPossible | dap.go:1216-1252 | some schedule ends with its exit if and only if it is not holding a message for a full output |
| Bridge.ExitDelivers | dap.go:1223-1242 | a bridge that exits leaves in the output, in order, everything that was on its way, up to the output's capacity |
| Bridge.BridgeHalts | dap.go:1219-1252 | every schedule of the bridge alone is finite, with an explicit bound |
| Bridge.BlockedForGood | dap.go:1243-1249 | a bridge that holds a message for a full output stays so over every schedule in which nothing is consumed, cancels included |
| Bridge.BlockedWitness | dap.go:1243-1249 | sixty-five unconsumed events and a cancel reach that state |
| Bridge.StepKeepsInv | dap.go:1201-1252 | every step keeps order, the conservation of messages and both buffer bounds |
| StopTracking.ReplayStops | dap.go:1200-1214 | the replay loop puts exactly the stops at or after `since` of the last 64 entries on the channel, which never overflows |
| StopTracking.ReplayOfIsFilter | dap.go:1201-1214 | an entry is replayed if and only if it is in the ring, a stop, and not before `since` |
| StopTracking.ReplayKeepsOrder | dap.go:1201-1214 | the replay keeps the ring's order and repeats nothing |
| StopTracking.StopsReportedAtMostOnce | tools.go:621-639 | between two reinitializations no tool returns a stop twice, although push and fan-out are two steps: the stack trace each tool awaits first is dispatched behind the fan-out; and only stops that were dispatched are ever returned |
| StopTracking.LiveStopIsReported | tools.go:433-445 | a stop that comes while a tool listens can be received and returned by it |
| StopTracking.DeliveredStopIsReported | tools.go:627-639 | whichever delivered stop a tool receives is the one it can return |
| StopTracking.OtherEventsAreIgnored | dap.go:1104-1113 | an event that is not a stop changes nothing for a tool that waits for stops |
| StopTracking.TimeoutLosesNothing | tools.go:647-652 | after a wait that timed out the next one is replayed exactly the stops since the last advance that are among the last 64 events |
| StopTracking.StepSeesOnlyNewStops | tools.go:1454-1486 | step and pause are never replayed a stop dispatched before they began |
| StopTracking.MissedStopIsReplayed | tools.go:614-627 | a stop is replayed to a tool if and only if it is not before the tool's `since` and fewer than 64 events of any type followed it up to the snapshot, whatever was dispatched in between |
| StopTracking.ConsumedStopIsNotReplayed | tools.go:630-643 | what was dispatched before a tool advanced lastStopAt, for a stop or a terminated event, is not replayed to any later tool before the next reinitialize, over any run in between |
| StopTracking.ReplayAfterReinitializeWitness | tools.go:1797-1799 | a run that returns one stop before and again after a reinitialize |
| StopTracking.TwoWaitsWitness | tools.go:614-639 | a run in which two concurrent wait-for-stop calls return the same stop |
| SessionModel.SetLineAgreement | tools.go:1650-1689 | `breakpoint` with a line is done, and stored, if and only if the line is new, the response succeeds, lists a breakpoint and its last one is verified; then table and adapter hold the old lines and the new one; after a failure they agree if and only if they did and the request had no effect; nothing else changes and lists stay duplicate-free |
| SessionModel.SetFunctionAgreement | tools.go:1618-1648 | the same for a function: on success both lists are equal and the function is listed once; on failure the stored list stays, and they agree if and only if the function was stored already (when the request took effect) or they agreed before (when it did not) |
| SessionModel.ClearFileAgreement | tools.go:506-519 | a cleared file is gone from table and adapter; a failed clear keeps the table and breaks the agreement if and only if it took effect on a stored file |
| SessionModel.ClearAllAgreement | tools.go:480-505 | after a successful clear both tables are empty and a file agrees if and only if it was stored or agreed before; after a failure part way exactly the stored files whose empty list took effect lose their agreement |
| SessionModel.ContinueAgreement | tools.go:543-580 | continue stores nothing; its target agrees afterwards if and only if the session stores just that line or function, or agreed before and the request had no effect |
| SessionModel.ContinueIsLast | tools.go:545-580 | the program is told to go on once, last, and only after the temporary breakpoint asked for was accepted |
| SessionModel.ReinitTrace | tools.go:1710-1793 | whatever fails, the requests form a prefix of initialize, attach, one setBreakpoints per stored file, setFunctionBreakpoints if any, configurationDone; all but the last were accepted, and configurationDone follows only a full success and the initialized event |
| SessionModel.ReinitResult | tools.go:1757-1793 | the tables are never changed; whatever fails, a file agrees afterwards if and only if its request took effect or it agreed before, and so for the functions; on success that is every stored file and the stored functions, for every map order, and a fresh adapter agrees everywhere |
| SessionModel.NewSessionAgreement | tools.go:1025-1050 | in a new session a file no initial breakpoint names agrees with a fresh adapter if and only if the table kept no lines for it |
| SessionModel.CleanFilesAgree | tools.go:471-1804 | over any run of tools, reconnects and new sessions with any replies, stored lists stay duplicate-free, and a file has the same lines in table and adapter if and only if it is outside the dirty set |
| SessionModel.CleanFuncsAgree | tools.go:471-1804 | the same for the list of function breakpoints |
| SessionModel.StepAgreement | tools.go:471-1804 | one operation leaves a file agreeing if and only if it heals it, or it agreed and the operation does not dirty it |
| SessionModel.StepFuncsAgreement | tools.go:471-1804 | the same for the list of function breakpoints |
| DebuggerSession.Session.Breakpoint | tools.go:1611-1693 | every branch, with its loops for duplicates, sends exactly the one request it should, or none, and gives the session and result of SetFunction or SetLine, or an error that changes nothing; a new line is done if and only if the reply verifies it |
| DebuggerSession.Session.ClearBreakpoints | tools.go:473-522 | every branch sends exactly its requests and gives the session and result of ClearAll or ClearFile, or an error that changes nothing |
| DebuggerSession.Session.ClearEverything | tools.go:480-504 | the loop over the files stops at the first failure and empties the tables only after the last success, as ClearAll says |
| DebuggerSession.Session.ContinueExecution | tools.go:537-589 | the commands sent are the temporary breakpoint if any and then the continue, up to the first that is not accepted; the tables stay |
| DebuggerSession.Session.Reinitialize | tools.go:1710-1804 | the commands sent are exactly the attempted prefix of the plan, adapter and result are those of SessionModel.Reinitialize, the capabilities are stored if and only if initialize was accepted, and the stop state is reset if and only if all succeeded |
| DebuggerSession.Session.Handshake | tools.go:1723-1792 | the log of commands grows by the first n requests of the plan, all accepted but perhaps the last, and the event came before the third |
| DebuggerSession.Session.Reapply | tools.go:1757-1783 | the stored lines of every file and then the stored functions are sent, stopping at the first failure |
| DebuggerSession.Session.SetInitialBreakpoints | tools.go:1250-1269 | the loop sends the request of every spec that names something, up to the first failure, and stores none |
| DebuggerSession.Session.Debug | tools.go:1250-1271 | the initial breakpoints go to the new adapter, and the tables of the last session stay as they were |

## Left out

- Sockets, dialing, keepalive, subprocesses, pipes and Docker: a read, write or dial is a step that succeeds or fails.
- JSON, message bodies and the thin request builders: all are `newRequest` and `sendAndRegister`, so one request stands for them.
- `SendRequest` (dap.go:1026-1047): no handler uses it, and it does not write its sequence number into the message.
- MCP registration, prompts, context, stack and variable formatting, timeouts and clamps, logs, `FlexInt`: text and one-branch facts.
- Real time, fairness and the Go memory model: steps are atomic and sequentially consistent, clocks are logical; what is proved is safety, counting bounds and that a recovering continuation exists.
- `Close` is only the cancellation of the context; that its callers return depends on the operating system and on who holds `ds.mu`.
- The reconnect, registry, subscribe, bridge and stop protocols are state machines on values, because their subject is the interleaving of goroutines; their registry, ring, subscriber table, retry loop and session are also classes whose methods update in place.
- The table of lists by event type: one list stands for one type, and `EventBus.Table` takes the type as a parameter.
- A change of the backoff parameters between two failures: base and cap are constant over one `doReconnect`.
- Backoff.Client.DoReconnect: durations are unbounded, so it does not say what a base near the limit of 64 bits doubles to.
- Conditions of source breakpoints are never set by the tools modelled, so a stored breakpoint is its line.
- DebuggerSession.Session.Debug: models the clean-up and the initial breakpoints, not the launch, the handshake before them or the wait for the entry stop after them.
- DebuggerSession.Session.Reinitialize: does not model a failure of AttachArgs, which the only backend that can redial never returns (connect_backend.go:51-56).
- StopTracking.StopsReportedAtMostOnce: for one stop-waiting tool at a time; `TwoWaitsWitness` shows that it fails for two.
- ReconnectRecovery.RecoveryExactly: says that a recovering continuation exists, not that a scheduler takes it; the hook's wait for `ds.mu`, which another tool may hold, is not a step of the model.
- SubscribeProtocol.ChannelOrder: the order of the puts; which of them a full channel drops is in `Bridge`.
