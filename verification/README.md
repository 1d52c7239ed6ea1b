# Verified model of Pie Relay's durable chat turns

This project models, in Dafny, the parts of Pie Relay that carry a chat turn from an HTTP request to a
Claude executor and its output back to a screen, and proves what they promise.

- **Chat gateway and journal** (`JournalLog`, `JournalStore`, `TurnTable`, `GatewayState`,
  `GatewayInvariant`, `GatewaySteps`, `GatewayRuns`, `GatewayDelivery`, `GatewayProgress`, `GatewaySending`,
  `GatewayScheduling`, `GatewayWitnesses`, `ChatGateway`).
  The manager keeps one append-only file per conversation, admits a bounded number of turns, lets the rest
  wait in order and rebuilds a lost turn from the file. `GatewayState` is a transition system on values:
  files, live peers, the turn table and what was written to relays, chats and control messages alike.
  `ChatGateway` has the classes that update these in place; every method is proved to do exactly what the
  transition system says, so the theorems about all runs hold of the classes. They say both what never goes
  wrong and what is bound to happen: `GatewayProgress` and `GatewaySending` have the second kind. `TurnTable` is finer:
  its steps are single critical sections, and a run of the gateway without a crash is proved to be a run of them.
- **Replay cache** (`RequestReplay`). The client recognises retried requests and keeps a bounded history
  of responses. The greedy eviction is proved equal to choosing over the whole past.
- **Terminal viewer** (`TerminalStream`, `TerminalScheduler`, `TerminalViewer`, `TerminalScreen`). Two
  classes turn a lossy, reordered frame stream into bytes for a terminal; `TerminalScreen` wires them as
  the event handlers do. The screen is byte-exact if and only if nothing was dropped since the last snapshot.
- **Websocket writer** (`WsWriter`), **verification cache** (`AuthCache`): concurrent objects as machines
  whose steps are lock sections and channel operations, with classes whose methods are those steps.
- **Lifecycle webhook** (`Lifecycle`): unordered, repeated and concurrent deliveries.
- **Chat reducer** (`ChatReducer`): tool results attach as brackets match, nothing is rewritten, no text is lost.
- **Paging** (`Paging`) and **restart budget** (`RestartBudget`).

## How to read the model

A crash of the manager loses every peer and every index and keeps the files (`GatewayState.Crashed`). What the
model cannot see is an input of a step: the disk's answer to an append, whether a socket write succeeded, the
status the control plane has on record, times, and which ready case a `select` takes. Payloads are opaque bytes;
the marker appended when a turn completes is an input too. Operations that relate the turn table to peers
(`Ensure`, `Send`, `Close`, handling one relay frame, the whole promotion loop) are atomic in `GatewayState`.

### Results that differ from what one might expect

- The gateway's consistency does not survive every relay frame. A frame whose own type is one of the two
  types the journal reserves for accepting and completing a chat can open or close a turn on its own.
  `GatewaySteps.ReceivedKeepsExactly` gives the exact condition: a frame keeps the invariant if and only if
  it does not intrude in that way. The theorems about runs assume that no frame does.
- There are two windows between critical sections: between unpublishing a peer and abandoning its turn
  (`GatewayScheduling.StopWindow`), and between finding that a promoted conversation has no live turn and
  taking its slot back (`GatewayScheduling.ReleaseWindow`). If somebody ensures the conversation or sends to it
  in such a window, slots and leases agree afterwards exactly if it then has no live turn, or, when a peer is
  stopped, if that peer had none. A peer that is still there but idle is enough for the second window, since
  a turn that ends before it got a slot leaves its place in the queue behind.
- A background task keeps the request of its first stamped frame, unless that frame was stamped through its
  parent while the task itself was unknown: then the task is not remembered, and its next frame may go to another
  turn. `GatewayProgress.TaskBoundExactly` is the exact condition, `ParentAloneIsNotEnough` what happens otherwise.
- All four failing sides are met by reachable states: `GatewayWitnesses` has a short run from the start for each.
- A sender that overflows the websocket writer closes the socket itself, and everybody who then fails or stops
  waits behind it. `WsWriter.ReturnUnaidedExactly` says exactly when calls in progress can return without that.
- A request that overlaps another active one is let through by the replay cache on every retry
  (`RequestReplay.RememberedUnlessBusy`).
- The terminal is not exact after an overflow, although the tracker goes on accepting frames
  (`TerminalViewer.ExactUnlessDropped`).
- The order of lifecycle events can matter when the latest one is an update, which keeps the status the user
  has. `Lifecycle.UpdateOrderExactly` says exactly for which sets of events it does.
- The restart budget admits 2 × 5 − 1 restarts in an interval as long as its window, not 5, and that bound is
  reached (`RestartBudget.BudgetIsTight`).

## Model

| member | source | states |
|---|---|---|
| JournalLog.PendingMeaning | executor-manager/internal/chatgateway/journal.go:114-157 | the recovery scan finds a request exactly if the file accepted it and neither accepted it again nor completed it later, with the payload and sequence of that acceptance |
| JournalLog.AcceptedMeaning | executor-manager/internal/chatgateway/journal.go:269-302 | the in-memory index holds an id exactly if some accepting event of the file carries it |
| JournalLog.AcceptedOnceMeaning | executor-manager/internal/chatgateway/journal.go:76-80 | the recursive form of "accepted once" is equivalent to: no two accepting events share an id |
| JournalLog.AppendKeepsWellFormed | executor-manager/internal/chatgateway/journal.go:64-112 | whatever append succeeds, file sequences stay exactly 1..n and each id is accepted at most once |
| JournalLog.PendingWasAccepted | executor-manager/internal/chatgateway/journal.go:114-157 | an unfinished request's id is in the idempotency index, so it cannot be accepted again |
| JournalStore.Journal.LoadIndex | executor-manager/internal/chatgateway/journal.go:269-298 | the decode loop yields exactly the fold of the file: its accepted ids and its length as last sequence |
| JournalStore.Journal.Append | executor-manager/internal/chatgateway/journal.go:64-112 | the file grows by exactly the event a bare log would take, or nothing changes and the reason is the log's; indices stay exact |
| JournalStore.Journal.HasRequest | executor-manager/internal/chatgateway/journal.go:212-223 | the answer depends on the file alone, so idempotency survives a restart |
| JournalStore.Journal.LastSequence | executor-manager/internal/chatgateway/journal.go:225-232 | the answer is the length of the file |
| JournalStore.Journal.PendingChatRequest | executor-manager/internal/chatgateway/journal.go:114-157 | the decode loop reports what the file leaves unfinished, or that it leaves several |
| JournalStore.Journal.Remove | executor-manager/internal/chatgateway/journal.go:159-174 | exactly the conversation's file goes, and every remaining index stays exact |
| JournalStore.Journal.Events | executor-manager/internal/chatgateway/journal.go:176-210 | the scan returns the slice of the file right after the cursor, bounded by the page size |
| TurnTable.ClaimKeepsTable | executor-manager/internal/chatgateway/gateway.go:557-574 | a claim never oversubscribes slots, never queues anybody twice or beside a slot, and queues only when all slots are taken |
| TurnTable.ReleaseKeepsTable | executor-manager/internal/chatgateway/gateway.go:578-595 | one locked pass of the release loop keeps the same four properties |
| TurnTable.RunKeepsTable | executor-manager/internal/chatgateway/gateway.go:557-617 | every interleaving of critical sections keeps them |
| TurnTable.NoOvertaking | executor-manager/internal/chatgateway/gateway.go:557-617 | while a conversation waits, nobody behind it and nobody who joins later gets a slot, over any run of critical sections |
| TurnTable.BoundedWaiting | executor-manager/internal/chatgateway/gateway.go:576-617 | a conversation cannot still wait after more slots were given up than there were conversations ahead of it |
| GatewayState.FirstLive | executor-manager/internal/chatgateway/gateway.go:592-615 | the slot's next owner: the first queued conversation whose peer has a chat; every entry before it has none |
| GatewayInvariant.PromotionKeeps | executor-manager/internal/chatgateway/gateway.go:592-615 | handing a free slot on, stale entries dropped, loses no live waiter, oversubscribes nothing and keeps slot holders equal to leased peers |
| GatewayInvariant.ChatAccepted | executor-manager/internal/chatgateway/gateway.go:312-336 | accepting a chat makes it the journal's one unfinished request and the peer's turn, payload included |
| GatewayInvariant.ChatCompleted | executor-manager/internal/chatgateway/gateway.go:937-953 | completing the active turn leaves nothing unfinished |
| GatewayInvariant.CorrelationKeeps | executor-manager/internal/chatgateway/gateway.go:874-909 | a first task binding wins for good, new ones name the candidate, and at most 2048 are kept |
| GatewayInvariant.StampedIsAccepted | executor-manager/internal/chatgateway/gateway.go:812-843 | the id a frame is journaled under is empty or was accepted by this conversation, and empty only if no turn is active |
| GatewaySteps.RecoveryFindsTheTurn | executor-manager/internal/chatgateway/journal.go:147-156 | a sound journal never reports several unfinished requests and names the unfinished one exactly |
| GatewaySteps.EnsuredKeeps | executor-manager/internal/chatgateway/gateway.go:233-275 | restoring a peer keeps journals, peers and turn table in agreement |
| GatewaySteps.SentKeeps | executor-manager/internal/chatgateway/gateway.go:277-343 | so does sending, whatever the outcome |
| GatewaySteps.CompletedKeeps | executor-manager/internal/chatgateway/gateway.go:937-965 | so does completing a turn and passing its slot on |
| GatewaySteps.ClosedKeeps | executor-manager/internal/chatgateway/gateway.go:536-555 | so does stopping a peer, active, waiting or idle |
| GatewaySteps.RemovedKeeps | executor-manager/internal/chatgateway/gateway.go:619-626 | so does removing a conversation with its file |
| GatewaySteps.CrashedKeeps | executor-manager/internal/chatgateway/gateway.go:233-275 | so does losing every peer and the whole turn table |
| GatewaySteps.ReceivedKeepsExactly | executor-manager/internal/chatgateway/gateway.go:775-851 | handling a relay frame keeps the agreement if and only if the frame is not journaled under a reserved type so as to open or close a turn |
| GatewaySteps.NextKeeps | executor-manager/internal/chatgateway/gateway.go:233-977 | every step of the system keeps the whole invariant |
| GatewayRuns.RunKeeps | executor-manager/internal/chatgateway/gateway.go:233-977 | so does every run, through any number of crashes |
| GatewayRuns.ReachableStates | executor-manager/internal/chatgateway/gateway.go:557-617 | in every reachable state: recovery never fails; a live turn is the one recovery finds; slot holders are exactly the leased peers, at most the limit; the queue is duplicate-free, disjoint from them, holds every live turn without a slot, and is non-empty only if all slots are taken |
| GatewayRuns.PeerMatchesRecovery | executor-manager/internal/chatgateway/gateway.go:240-249 | a live peer's turn and payload are what recovery would find, and an idle peer's journal recovers nothing |
| GatewayRuns.JournalDeterminesTurn | executor-manager/internal/chatgateway/gateway.go:240-249 | two sound managers over the same file hold the same turn |
| GatewayRuns.CrashRestoresTurn | executor-manager/internal/chatgateway/gateway.go:233-275 | after a crash and any actions about other conversations, further crashes included, ensuring a conversation restores exactly the turn it lost, with a slot or a place in the queue |
| GatewayRuns.OthersKeepLog | executor-manager/internal/chatgateway/journal.go:93-112 | an action about another conversation, or a crash, leaves a conversation's file as it is |
| GatewayRuns.AcceptedAtMostOnce | executor-manager/internal/chatgateway/gateway.go:296-325 | an accepted request id is never accepted again in any later state, crashes included, until the conversation is removed |
| GatewayRuns.AcceptanceIsDurable | executor-manager/internal/chatgateway/gateway.go:319-326 | a request reported as accepted is in the journal at that moment and was not before |
| GatewayRuns.NextRemembers | executor-manager/internal/chatgateway/journal.go:76-110 | only removing a conversation makes it forget an accepted id |
| GatewayDelivery.WireIsAuthorised | executor-manager/internal/chatgateway/gateway.go:729-743 | a chat is written only while it is the journal's unfinished request, payload included, its conversation holds a slot, its host last reported online and this connection has not carried it |
| GatewayDelivery.WakeDelivers | executor-manager/internal/chatgateway/gateway.go:856-861 | no wakeup is lost: a leased, online, unsent chat has a token waiting and taking it delivers the chat |
| GatewayDelivery.DeliveredAtMostOnce | executor-manager/internal/chatgateway/gateway.go:727-808 | between host-offline reports one connection carries each chat at most once, over any run |
| GatewayDelivery.TaskKeepsItsOrigin | executor-manager/internal/chatgateway/gateway.go:812-843 | over any run, a background task once bound to a request stays with it: its frames are stamped with that request whatever is active or named by then, as long as the peer lives |
| GatewayDelivery.BindingsNeverChange | executor-manager/internal/chatgateway/gateway.go:889-908 | no step changes or drops a binding for as long as the peer lives |
| GatewayDelivery.StampedIdsWereAccepted | executor-manager/internal/chatgateway/gateway.go:812-843 | each id stamped on a journaled event belongs to an accepting event at or before it in the same file |
| GatewayProgress.PlainOrigin | executor-manager/internal/chatgateway/gateway.go:812-843 | a frame that is no task event is journaled under the accepted request it names, else under the active turn |
| GatewayProgress.RecordedExactly | executor-manager/internal/chatgateway/gateway.go:1015-1032 | a frame the disk takes becomes one event with its own type and data under that id, and nothing else changes but the bindings |
| GatewayProgress.SlotMovesOn | executor-manager/internal/chatgateway/gateway.go:576-617 | a slot given up is with the first live waiter, leased and woken, and the entries before it are gone; without one it is free and the queue empty |
| GatewayProgress.CompletedEnds | executor-manager/internal/chatgateway/gateway.go:937-965 | a durable completion leaves the peer idle, nothing to recover and its slot moved on, and the file grown by exactly the completion |
| GatewayProgress.TerminalFrameEndsTurn | executor-manager/internal/chatgateway/gateway.go:847-851 | a done, error or aborted frame ends the live turn: peer idle, recovery finds nothing, slot with the first live waiter, file grown by the frame and the completion |
| GatewayProgress.OtherFramesKeepTurns | executor-manager/internal/chatgateway/gateway.go:775-851 | no other frame, unless it intrudes, ends, starts or changes a turn, a slot or the queue; it leaves one event of its own type and data |
| GatewayProgress.TaskBoundExactly | executor-manager/internal/chatgateway/gateway.go:874-909 | while there is room, a stamped task frame leaves its task bound, to the id it was stamped with, if and only if the task was bound before or the parent was not |
| GatewayProgress.ParentBound | executor-manager/internal/chatgateway/gateway.go:874-909 | a stamped frame that names only its parent leaves the parent bound to that id |
| GatewayProgress.TaskKeepsFirstOrigin | executor-manager/internal/chatgateway/gateway.go:812-843 | under that condition every later frame of the task is stamped as the first one, over any run in which the peer lives |
| GatewayProgress.ParentKeepsFirstOrigin | executor-manager/internal/chatgateway/gateway.go:812-843 | the same for frames that name only their parent, without a condition |
| GatewayProgress.ParentAloneIsNotEnough | executor-manager/internal/chatgateway/gateway.go:889-908 | without the condition the next frame that names only the task is stamped with whatever other turn is active |
| GatewaySending.AcceptedExactly | executor-manager/internal/chatgateway/gateway.go:277-343 | a message is accepted if and only if nothing the gateway checks speaks against it: its id, the host, the status, an earlier acceptance, a full queue, a live turn if it is a chat, and the disk |
| GatewaySending.DuplicateExactly | executor-manager/internal/chatgateway/gateway.go:296-310 | a request is called a duplicate if and only if it is admissible and the file accepted its id before |
| GatewaySending.ChatTakesEffect | executor-manager/internal/chatgateway/gateway.go:312-336 | an accepted chat is the peer's turn with its payload, in the file as its last event, and has a slot or a place in the queue |
| GatewaySending.ControlTakesEffect | executor-manager/internal/chatgateway/gateway.go:319-342 | an accepted control message is the file's last event in its durable form and the last in the peer's queue in its full form; the turn is untouched |
| GatewaySending.StepThrough | executor-manager/internal/chatgateway/gateway.go:852-855 | one step adds to what went through the queue exactly the message it gets accepted |
| GatewaySending.ControlsInOrder | executor-manager/internal/chatgateway/gateway.go:277-343 | over any run in which the peer lives, messages taken for the socket followed by those queued are those before followed by the accepted ones, in order and once each |
| GatewaySending.PublishedControlsInOrder | executor-manager/internal/chatgateway/gateway.go:277-343 | from the publication of the peer they are exactly the accepted ones |
| GatewaySending.QueueDrains | executor-manager/internal/chatgateway/gateway.go:852-855 | an online host is sent the whole queue, in order, by as many successful writes |
| GatewaySending.NothingWithoutConnection | executor-manager/internal/chatgateway/gateway.go:707-864 | after a connection ended nothing is delivered to the conversation's host over any run that does not connect again |
| GatewaySending.OnlineAsReported | executor-manager/internal/chatgateway/gateway.go:791-808 | the host counts as online exactly as last reported on this connection; a new connection starts offline |
| GatewaySending.OnlineReportDelivers | executor-manager/internal/chatgateway/gateway.go:791-797 | a host reported online gets the leased turn this connection has not carried |
| GatewaySending.ReplacedHostGetsTheChat | executor-manager/internal/chatgateway/gateway.go:798-808 | a host that comes online after one went offline gets the unfinished chat although the connection carried it before |
| GatewaySending.NewConnectionGetsTheChat | executor-manager/internal/chatgateway/gateway.go:727-797 | so does the host behind a new connection |
| GatewaySending.RemovalForgets | executor-manager/internal/chatgateway/gateway.go:619-626 | after a removal peer and file are gone, nothing is recovered for it, and all other files are as they were |
| GatewaySending.TransportIsJournaled | executor-manager/internal/chatgateway/gateway.go:1066-1069 | a transport event enters the file verbatim and without a request |
| GatewayScheduling.ReleaseIsARun | executor-manager/internal/chatgateway/gateway.go:576-617 | the release loop, stale entries and all, is a finite run of table sections, and the table ends as the atomic operation leaves it |
| GatewayScheduling.StalePass | executor-manager/internal/chatgateway/gateway.go:595-615 | having promoted a stale conversation, the loop still has the same result to reach |
| GatewayScheduling.NextActs | executor-manager/internal/chatgateway/gateway.go:557-617 | every action but a crash acts on the turn table by critical sections of one kind, claims or releases |
| GatewayScheduling.GatewayRunIsTableRun | executor-manager/internal/chatgateway/gateway.go:233-977 | a run of the gateway without a crash is a run of its turn table, and whoever keeps waiting between actions keeps waiting between sections |
| GatewayScheduling.FirstComeFirstServed | executor-manager/internal/chatgateway/gateway.go:557-617 | over any actions of the gateway without a crash, while a conversation waits nobody behind it or joining later gets a slot, and at most as many slots are given up as there were conversations ahead |
| GatewayScheduling.StopWindow | executor-manager/internal/chatgateway/gateway.go:540-555 | any Ensures and Sends happen between unpublishing a peer and abandoning its turn: slots and leases agree afterwards if and only if the peer had no turn or the conversation has no live one by then |
| GatewayScheduling.EnsuringReopensTheTurn | executor-manager/internal/chatgateway/gateway.go:240-268 | in that window an Ensure makes the turn being closed live again |
| GatewayScheduling.ReleaseWindow | executor-manager/internal/chatgateway/gateway.go:592-615 | any Ensures and Sends happen after the loop promoted a conversation without a live turn, with or without a peer, and before it takes the slot back: slots and leases agree afterwards if and only if the conversation still has no live turn |
| GatewayWitnesses.IntrusionIsReachable | executor-manager/internal/chatgateway/gateway.go:843-846 | a connected conversation and a frame of the reserved type break the agreement |
| GatewayWitnesses.StopWindowIsReachable | executor-manager/internal/chatgateway/gateway.go:540-555 | one chat, a stop and an Ensure in its window break it |
| GatewayWitnesses.ReleaseWindowIsReachable | executor-manager/internal/chatgateway/gateway.go:576-617 | a run from the start in which an idle waiter is promoted, accepts a chat in the window, is told it holds a slot and then loses it |
| GatewayWitnesses.ParentAloneIsReachable | executor-manager/internal/chatgateway/gateway.go:874-909 | six actions reach a state in which a task frame is stamped through its parent with the first request and the next frame of the same task with the second |
| ChatGateway.Peer.CorrelateTaskRequest | executor-manager/internal/chatgateway/gateway.go:874-909 | the two loops over the task keys find and remember exactly what the transition system says |
| ChatGateway.Gateway.ClaimTurn | executor-manager/internal/chatgateway/gateway.go:557-574 | the queue scan and the slot test are the claim of the turn table |
| ChatGateway.Gateway.ReleasePass | executor-manager/internal/chatgateway/gateway.go:578-595 | one locked pass is the release of the turn table |
| ChatGateway.Gateway.ReleaseTurn | executor-manager/internal/chatgateway/gateway.go:576-617 | the loop ends and has the effect of one atomic promotion of the first live waiter |
| ChatGateway.Gateway.Ensure | executor-manager/internal/chatgateway/gateway.go:233-275 | the whole state afterwards, and the reason when it refuses |
| ChatGateway.Gateway.Send | executor-manager/internal/chatgateway/gateway.go:277-343 | the whole state and the outcome: accepted with its event, duplicate, or refused in the order the gateway checks |
| ChatGateway.Gateway.Stop | executor-manager/internal/chatgateway/gateway.go:536-555 | the peer disappears and its turn, active or waiting, moves on |
| ChatGateway.Gateway.Remove | executor-manager/internal/chatgateway/gateway.go:619-626 | the same, and the file goes |
| ChatGateway.Gateway.CompleteActive | executor-manager/internal/chatgateway/gateway.go:937-965 | the turn ends only if its completion was journaled, and then its slot moves on |
| ChatGateway.Gateway.SendActiveChat | executor-manager/internal/chatgateway/gateway.go:729-743 | writes exactly an active, leased, unsent, non-empty chat |
| ChatGateway.Gateway.Attribute | executor-manager/internal/chatgateway/gateway.go:812-842 | the id a frame is stamped with and the bindings remembered |
| ChatGateway.Gateway.HandleFrame | executor-manager/internal/chatgateway/gateway.go:775-851 | the whole state after one relay frame: host report, attribution, journal, completion |
| ChatGateway.Gateway.TakeWake | executor-manager/internal/chatgateway/gateway.go:856-861 | the token is gone and the chat written if the host is online |
| ChatGateway.Gateway.WriteControl | executor-manager/internal/chatgateway/gateway.go:852-855 | the oldest control message leaves the queue for the socket, and a failed write ends the connection |
| RequestReplay.RetainedIsLongestSuffix | client/internal/chatagent/replay.go:82-90 | what is retained is the longest suffix of the completion order within 64 requests and 32 MiB |
| RequestReplay.GreedyIsOffline | client/internal/chatagent/replay.go:82-90 | evicting after each completion never differs from choosing over the whole history |
| RequestReplay.ReplayableIsLongestPrefix | client/internal/chatagent/replay.go:68-73 | what an active request is answered with is the longest prefix of its frames within 16 MiB |
| RequestReplay.RunKeepsSound | client/internal/chatagent/replay.go:36-106 | over any operations retained ids stay distinct and never include the active one |
| RequestReplay.DuplicateMeansKnown | client/internal/chatagent/replay.go:43-48 | a retry is called duplicate exactly if its id is active or retained |
| RequestReplay.RetainedExactly | client/internal/chatagent/replay.go:82-90 | a completed request is retained as long as it and everything completed since fit within both bounds, and what is retained is else completed later |
| RequestReplay.RemembersWhileItFits | client/internal/chatagent/replay.go:36-95 | over any operations a completed request is answered with its frames as long as it and all requests completed since are at most 64 and 32 MiB, and, unless taken up again, exactly that long |
| RequestReplay.NewOncePerId | client/internal/chatagent/replay.go:36-106 | a request taken up is called duplicate from then on, through any operations that do not reset it, while active and then as long as it and all requests completed since fit |
| RequestReplay.RememberedUnlessBusy | client/internal/chatagent/replay.go:49-59 | an id answered "new" is remembered if and only if no other request was active |
| RequestReplay.CompletedIsReplayed | client/internal/chatagent/replay.go:77-84 | a completed request is answered with its whole stream, or exactly its terminal frame if the stream was too long |
| RequestReplay.ActiveIsReplayed | client/internal/chatagent/replay.go:43-48 | through any operations that neither reset nor complete it, a request taken up is called a duplicate and answered with the longest prefix within 16 MiB of the frames observed since |
| RequestReplay.CompletedIsReplayedInFull | client/internal/chatagent/replay.go:62-95 | from the operations: once its terminal frame has come it is answered with every frame observed since it was taken up, if they hold at most 16 MiB, else with the terminal frame alone |
| RequestReplay.ResetLetsItStartAgain | client/internal/chatagent/replay.go:97-106 | a reset request is new again |
| RequestReplay.ReplayBuffer.Begin | client/internal/chatagent/replay.go:36-60 | answers and changes exactly as the machine over the whole past does |
| RequestReplay.ReplayBuffer.Observe | client/internal/chatagent/replay.go:62-95 | likewise; map, order list and byte count stay those of the retained suffix |
| RequestReplay.ReplayBuffer.Evict | client/internal/chatagent/replay.go:85-90 | the loop ends, never indexes an empty list and leaves exactly the retained suffix and its true size |
| TerminalStream.TerminalStreamTracker.AcceptOutput | desktop/src/terminal-stream.ts:17-45 | decision and new position for every frame, numbered or not |
| TerminalStream.TerminalStreamTracker.AcceptSnapshot | desktop/src/terminal-stream.ts:47-54 | a snapshot fixes the position and ends the wait |
| TerminalScheduler.TerminalOutputScheduler.Enqueue | desktop/src/terminal-output-scheduler.ts:43-58 | accepts the data behind what was accepted before, or overflows into a new empty generation, or discards when disposed; in all cases written plus queued bytes are the accepted ones in order, within the limits |
| TerminalScheduler.TerminalOutputScheduler.Pump | desktop/src/terminal-output-scheduler.ts:74-95 | hands over one bounded non-empty chunk unless a write is outstanding, and keeps written plus queued bytes exact |
| TerminalScheduler.TerminalOutputScheduler.WriteDone | desktop/src/terminal-output-scheduler.ts:88-94 | a callback of an earlier generation changes nothing; one of this generation defers a pump |
| TerminalScheduler.TerminalOutputScheduler.StallFires | desktop/src/terminal-output-scheduler.ts:83-87 | the timer runs exactly while a write is outstanding, so when it fires the queue is dropped |
| TerminalScheduler.TerminalOutputScheduler.Recover | desktop/src/terminal-output-scheduler.ts:60-67 | a new generation that holds nothing and awaits nothing |
| TerminalScheduler.SplitHead | desktop/src/terminal-output-scheduler.ts:76-80 | cutting a chunk off the front keeps the bytes and their count |
| TerminalViewer.StepAccounted | desktop/src/TerminalScreen.tsx:533-566 | each event keeps account of every accepted byte: shown, queued or lost |
| TerminalViewer.ExactUnlessDropped | desktop/src/TerminalScreen.tsx:533-566 | under any loss, duplication and reordering, while no snapshot is awaited, the screen is byte-exact if and only if nothing was dropped since the last snapshot |
| TerminalViewer.FreshViewIsExact | desktop/src/TerminalScreen.tsx:451-467 | the same from a fresh mount |
| TerminalViewer.FreshMountPaintsAll | desktop/src/terminal-stream.ts:17-45 | when the frames of one incarnation arrive in order, repeats allowed, up to n, the screen shows exactly outputs 1 to n |
| TerminalViewer.SnapshotPaintsAll | desktop/src/terminal-stream.ts:17-54 | and from a snapshot at k, whatever was there before, its history followed by exactly outputs k+1 to n |
| TerminalViewer.AwaitedMeansAsked | desktop/src/terminal-stream.ts:17-54 | a snapshot is awaited if and only if a gap was answered since the last one |
| TerminalViewer.NothingSkippedSilently | desktop/src/terminal-stream.ts:17-45 | when no snapshot is awaited, every numbered output that came since the last one belongs to the incarnation followed and lies within what the screen accounts for |
| TerminalViewer.UnnumberedIsPainted | desktop/src/terminal-stream.ts:18-20 | output without an incarnation or a number is painted as it comes and moves nothing |
| TerminalViewer.GapAsksForTheRest | desktop/src/terminal-stream.ts:17-58 | on a gap the position asked to resume from is the last output the screen accounts for, with more than one missing up to the frame that came, or the beginning of a new incarnation |
| TerminalScreen.Screen.OnOutput | desktop/src/TerminalScreen.tsx:533-552 | tracker and scheduler together move as the view machine says; a snapshot is requested exactly on a gap or an overflow |
| TerminalScreen.Screen.OnSnapshot | desktop/src/TerminalScreen.tsx:554-566 | likewise for a snapshot |
| TerminalScreen.Screen.OnStall | desktop/src/TerminalScreen.tsx:460-466 | likewise for a stalled write |
| TerminalScreen.Screen.ScreenIsExact | desktop/src/TerminalScreen.tsx:533-566 | in every state the handlers reach: chunks written followed by chunks queued are the last snapshot's history followed by exactly the outputs after it, if and only if nothing was dropped since |
| WsWriter.NextKeeps | client/internal/ptyagent/wswriter.go:49-127 | every lock section and channel operation keeps: exact byte count within 16 MiB, at most 256 messages, order, one closing of done |
| WsWriter.ReachableIsSound | client/internal/ptyagent/wswriter.go:41-127 | from the start, in every interleaving of senders, loop, failure and stop the socket's messages are a prefix of the accepted ones, the byte count is exact and bounded, and done is closed at most once |
| WsWriter.ClampNeverFires | client/internal/ptyagent/wswriter.go:77-84 | the counter never goes below zero, so its clamp has nothing to do |
| WsWriter.RefusedForSize | client/internal/ptyagent/wswriter.go:56-60 | a message is refused for size exactly if the bytes really reserved, queued and being written leave no room |
| WsWriter.RefusedForNumber | client/internal/ptyagent/wswriter.go:64-74 | as long as done is open, a message is turned away for number if and only if 256 accepted messages have not been taken for the socket, and else can be queued |
| WsWriter.NothingLeaks | client/internal/ptyagent/wswriter.go:63-84 | when all calls have returned and the loop is gone, the bytes still counted are those of accepted, unwritten messages |
| WsWriter.CallsReturnWithoutTheLoop | client/internal/ptyagent/wswriter.go:49-127 | from any sound state all calls in progress can return without a step of the loop: nobody waits for a message to be written, and all together wait for the socket to close at most once |
| WsWriter.ReturnUnaidedExactly | client/internal/ptyagent/wswriter.go:107-127 | in every reachable state they can return without the socket too if and only if no fail is unfinished in the once and none has to enter it: the once is finished, or a Stop is in it or can enter first, or no fail is on its way and the channel has room for all messages on offer |
| WsWriter.AFailCanBeNeeded | client/internal/ptyagent/wswriter.go:95-98 | one failed write reaches a state where they cannot |
| WsWriter.ClosedRefuses | client/internal/ptyagent/wswriter.go:49-55 | once the writer is closed a Send is refused at once and changes nothing |
| WsWriter.NothingAfterFailure | client/internal/ptyagent/wswriter.go:89-98 | after a failed write nothing more is handed to the socket, in any interleaving |
| WsWriter.ShutdownHappens | client/internal/ptyagent/wswriter.go:56-127 | a Stop, a cancelled context, a failed write, a message over the byte limit and a full queue each leave the writer closed by the time all calls have returned |
| WsWriter.BoundedWSWriter.ReserveBytes | client/internal/ptyagent/wswriter.go:49-62 | the lock section of Send is that step of the machine |
| WsWriter.BoundedWSWriter.Offer | client/internal/ptyagent/wswriter.go:64-74 | the select of Send, whichever ready case it takes |
| WsWriter.BoundedWSWriter.ReleaseBytes | client/internal/ptyagent/wswriter.go:77-84 | the release is that step of the machine |
| WsWriter.BoundedWSWriter.SetClosed | client/internal/ptyagent/wswriter.go:107-111 | the lock section inside the once |
| WsWriter.BoundedWSWriter.CloseChannel | client/internal/ptyagent/wswriter.go:107-127 | closing done, once; a Stop leaves the once, a fail goes on to the socket |
| WsWriter.BoundedWSWriter.SocketReturned | client/internal/ptyagent/wswriter.go:113-115 | the socket has closed and a fail leaves the once |
| WsWriter.BoundedWSWriter.WriteReturned | client/internal/ptyagent/wswriter.go:89-98 | the bytes of a written message are released and an error ends the loop |
| AuthCache.ReachableIsSound | executor-manager/internal/auth/auth.go:251-313 | from an empty cache, any interleaving of calls keeps it sound and at most 4096 entries |
| AuthCache.OneFlightPerToken | executor-manager/internal/auth/auth.go:266-282 | at most one upstream verification per token is under way |
| AuthCache.AnswersAreUpstreams | executor-manager/internal/auth/auth.go:262-312 | every answer but the caller's own context error is one the upstream gave for that token |
| AuthCache.CachedAnswersAreFresh | executor-manager/internal/auth/auth.go:262-265 | a cached answer is never a context error and comes from a verification of that token started less than its TTL before |
| AuthCache.WaitersAreServed | executor-manager/internal/auth/auth.go:266-275 | a waiter's leader either still leads that token's flight or has an answer for it, never both and never neither |
| AuthCache.AsksExactly | executor-manager/internal/auth/auth.go:251-281 | a call asks the upstream if and only if there is one, no unexpired entry answers the token and no other call is asking; it waits if and only if one is |
| AuthCache.StoredAnswersAreUsed | executor-manager/internal/auth/auth.go:251-312 | as long as nothing is pruned and no newer verification of the token finishes, every call within the time to live of a kept answer gets that answer and asks nobody |
| AuthCache.Cached.Lookup | executor-manager/internal/auth/auth.go:251-281 | hit, wait or lead, as the machine says |
| AuthCache.Cached.Settle | executor-manager/internal/auth/auth.go:282-312 | what is stored, published and removed when the upstream answers |
| AuthCache.Cached.Prune | executor-manager/internal/auth/auth.go:293-306 | within the bound nothing goes; else the expired go; else exactly 4096 unexpired stay |
| Lifecycle.TimeNeverDecreases | executor-manager/cmd/manager/lifecycle_webhook.go:87-96 | the time of the last applied event never goes back, and stands still only if the record is unchanged |
| Lifecycle.RedeliveryChangesNothing | executor-manager/cmd/manager/lifecycle_webhook.go:81-91 | delivering the last applied event id again never changes the record, whatever its payload |
| Lifecycle.OnlyAcceptableApply | executor-manager/cmd/manager/lifecycle_webhook.go:57-136 | only a well-formed, stored event of a known type that is newer than the record and at most five minutes (unless configured) in the future changes the record |
| Lifecycle.AppliedFields | executor-manager/cmd/manager/lifecycle_webhook.go:93-136 | an applied event sets the fields it names; what it leaves out stays, or gets the default in a new record |
| Lifecycle.ReuseRefusedExactly | executor-manager/cmd/manager/lifecycle_webhook.go:80-92 | a reused event id is refused if and only if its payload, its time or the status it asks for differs from what was applied |
| Lifecycle.LatestWins | executor-manager/cmd/manager/lifecycle_webhook.go:80-136 | under any order and repetition the first effective delivery of the latest event fixes the record for good, with its id, hash and time and the status it asked for then |
| Lifecycle.OrderDoesNotMatter | executor-manager/cmd/manager/lifecycle_webhook.go:68-136 | two histories that share their latest event end with the same id, hash and time and, unless it is an update, the same status |
| Lifecycle.UpdateOrderExactly | executor-manager/cmd/manager/lifecycle_webhook.go:68-136 | for a set of events whose latest is an update: all histories carrying exactly these events end with the same status if and only if each of them that sets a status and is newer than the record sets the one the update would find at once |
| Lifecycle.UpdatesFreezeStatus | executor-manager/cmd/manager/lifecycle_webhook.go:97-103 | a witness: the same three events end suspended or active |
| Lifecycle.InterleavingsAreSequential | executor-manager/cmd/manager/lifecycle_webhook.go:80-136 | concurrent handlers with compare-and-swap writes have the effect of some of them running one after another |
| Lifecycle.UserRecord.Handle | executor-manager/cmd/manager/lifecycle_webhook.go:57-136 | the handler's checks in their order and its step-by-step edits amount to one delivery |
| ChatReducer.AttachToolResult | desktop/src/protocol.ts:784-801 | the scan from the end fills exactly the last activity without a result |
| ChatReducer.FixPermission | desktop/src/protocol.ts:761-779 | exactly the pending cards with that request id are decided |
| ChatReducer.MatchesAreBrackets | desktop/src/protocol.ts:784-801 | filling the last gap pairs calls and results as brackets: a paired result closes its call, an unpaired call is open |
| ChatReducer.ToolResultsMatchAsBrackets | desktop/src/protocol.ts:784-869 | for every action sequence the p-th tool call shows a result exactly if a tool result closes that call as a bracket, and then that one; all others are dropped |
| ChatReducer.BracketsAreUnique | desktop/src/protocol.ts:784-801 | a call has at most one closing result and is closed or open, not both |
| ChatReducer.TranscriptShowsActions | desktop/src/protocol.ts:714-883 | besides the assistant's text the transcript has exactly one line for each action that calls for one, in order and in that action's own words |
| ChatReducer.CardsShowFirstDecision | desktop/src/protocol.ts:761-779 | for every action sequence the p-th permission card shows the first decision made for its request after it, or is pending if there was none |
| ChatReducer.RespondingExactly | desktop/src/protocol.ts:714-883 | a turn is live if and only if an action opened one and none has closed it since |
| ChatReducer.SessionIsLast | desktop/src/protocol.ts:803-883 | the session id is the last one that was not blank |
| ChatReducer.HostIsLast | desktop/src/protocol.ts:803-883 | the host is up exactly as last reported |
| ChatReducer.ThoughtsSince | desktop/src/protocol.ts:803-883 | the thinking shown is everything thought since it was last cleared, in order |
| ChatReducer.NothingIsRewritten | desktop/src/protocol.ts:714-801 | ids stay strictly increasing below the next one, and no line changes but for a first result or a first decision |
| ChatReducer.StreamIsConserved | desktop/src/protocol.ts:726-735 | up to white space, the assistant's lines followed by the text still streaming are exactly the text events in order |
| Paging.SendBacklog | executor-manager/cmd/manager/integration_api.go:1153-1173 | whatever is appended between pages, what is sent is a contiguous run right after the cursor, and it reaches the end of the last file read unless a read or write fails |
| Paging.ReconnectLosesNothing | executor-manager/cmd/manager/integration_api.go:1145-1173 | two connections, the second from where the first stopped, give one contiguous run |
| Paging.CursorSeparates | executor-manager/cmd/manager/usage_reconciler.go:32-46 | a usage event is recorded if and only if the cursor has passed it |
| Paging.UsagesMeaning | executor-manager/cmd/manager/usage_reconciler.go:34-36 | recording concerns exactly the usage events |
| Paging.UsageReconciler.Reconcile | executor-manager/cmd/manager/usage_reconciler.go:20-52 | recorded usage events are exactly those up to the cursor, in order and once each; the cursor stops right before the first one refused, else reaches the end of the last file read; other conversations are untouched |
| Paging.UsageReconciler.Work | executor-manager/cmd/manager/usage_reconciler.go:21-63 | through all passes over all conversations, while the files grow, each conversation's recorded usage events stay exactly those up to its cursor, and no cursor goes back |
| RestartBudget.ChildRestartTracker.Allow | client/internal/chatagent/agent.go:362-371 | counts within the current window, or starts one |
| RestartBudget.PermitsByWindow | client/internal/chatagent/agent.go:347-371 | permits since an instant come from the current window and at most the tail of the one before |
| RestartBudget.BudgetPerInterval | client/internal/chatagent/agent.go:347-371 | for any non-decreasing times an interval no longer than the window holds at most 2 × 5 − 1 permitted restarts |
| RestartBudget.BudgetIsTight | client/internal/chatagent/agent.go:347-371 | that bound is reached |
| RestartBudget.RefusedExactly | client/internal/chatagent/agent.go:362-371 | an attempt is refused if and only if the window it falls in already holds five |
| RestartBudget.BackoffWithinBudget | client/internal/chatagent/agent.go:387-393 | within the budget delays are 1, 2, 4, 8, 16 s and never reach the cap |
| RestartBudget.SuperviseExecutor | client/internal/chatagent/agent.go:293-333 | the loop makes only permitted restarts, each after the delay of its place in the window, ends fatally exactly at the first refused one, and resets the turn once for each dead process |

## Left out

- ChatGateway.Gateway.Stop: waits for the peer's goroutine up to five seconds; the model treats stopping as atomic, and only GatewayScheduling.StopWindow looks inside.
- ChatGateway.Gateway.Remove: a stop that times out shows only as a file that was not erased; that the peer may still run then is not modelled.
- JournalStore.Journal.LoadIndex: reads a file that decodes; an error that leaves an empty index marked as loaded is not modelled.
- GatewayScheduling.ReleaseWindow: Ensures and Sends of the conversation in the window; a stop of it, or other conversations' operations inside the window, are not considered.
- GatewayScheduling.StopWindow: likewise.
- ChatGateway.Gateway.HandleFrame: reading a frame, attributing, journaling and completing are one step; another goroutine's Send between the journal append and the completion is not modelled.
- JournalStore.Journal.Append: writes are all or nothing; torn lines, and an index left partly loaded by a decode error, are not modelled. The byte budget is an input, since JSON escaping decides it.
- TerminalViewer.ExactUnlessDropped: covers frames with an incarnation and a number; frames without them, and the text shown when a process exits, are painted with no guarantee.
- RestartBudget.SuperviseExecutor: its two nested loops are one loop over attempts; jitter, which only shortens a delay, and the processes themselves are inputs or left out.
- Lifecycle.OrderDoesNotMatter: says nothing about organization, subject and quota, which an event dropped as stale does not contribute; provisioning and draining after the record is stored are left out, as are other writers of user records.
- Raising the turn limit while the gateway runs: the model fixes it at start.
- The control plane (conversation status, activity times, idle reaping) appears only as the statuses a Send reads.
- Waiters of Request, subscriptions, usage recording on the fast path, and session ids learned from frames.
- Fixed-width counters (uint64 sequences, JavaScript safe integers) are unbounded here.
- SHA-256 keys, JSON, base64 and HMAC: keys stand for what they digest, payloads are opaque.
- What a terminal does with its chunks, dialing, HTTP, Docker, processes, React screens and the relay server.
- A scheduler configured with a chunk size of zero, which would never empty its queue.
- The event stream's projection of journal events, which maps each one to one, and its notifications.
