# Symphoneer Hub: verified model

The Hub relays commands from users to Runtimes behind firewalls and mirrors what those Runtimes do.
This project models its delivery protocol and the state machines around it in Dafny, and proves what
they promise over every run.

**Command delivery.** One row of the `commands` table is written by the API handler, the job
processor, the exhaustion handler and the gateway's acknowledgement handling. `HubMachine` is a step
relation in which every atomic statement of these four is one step and every process has a program
counter, so `setCommandStatus` is two steps (read and check, then compare-and-set) with anything in
between, and any statement may throw. `HubFrames` says which tables each step may touch. `EdgeMachine`
is the Connector side: `inFlightCommands` with its 60-second timers, the executions, and reference
Runtimes that deduplicate by idempotency key. A host runs one Runtime at a time, which may be replaced at
any moment, by another one or by the same one with another store. `Delivery` joins the two by
sets of published messages and reported results that only grow: any element may be taken never, once
or often, in any order, so loss, duplication and reordering are all runs, and so are crashes of any
process. `HubInvariants` and `EdgeInvariants` carry the inductive invariant, `Delivery`,
`Discipline`, `Expiry` and `Outcomes` the theorems over whole runs, `Reachable`, `Races` and `Churn` build runs that
show the exceptions are real and the bounds sharp, and `Addressing` tells where effects fall.
`Processes` holds the worker and API code as straight-line methods with interference between any two
statements, and `Repository` and `ConnectorProcess` the classes whose methods refine the table and
Connector steps.

**Idempotency.** `Json` and `Canonical` model `canonicalJson` character by character: a stable sort
under an arbitrary collation of what `Object.entries` lists (array indices first), string escaping
(section 25.5.2 of ECMA-262), and the value that a `jsonb` column keeps. Canonical texts are equal only for values that are equal up to key order. The
converse fails when the collation ties two distinct keys that are no array indices, which `localeCompare` does for some
(canonically equivalent or ignorable code points), and `Canonical.CanonicalInvariantIffNoTies` gives
the exact condition; the five keys the API puts into a payload are told apart by any usual collation.
`CommandPolicy` applies this to `sameIdempotentCommand`.

**Projection.** A Connector session polls an append-only log with a cursor; the Hub's event table and
snapshot register absorb what arrives.

**Smaller machines.** Pairing codes and device tokens, connection ownership and presence, the
fixed-window limiter, the migration runner, the reconnect backoff, and the text of a pairing code.

Time is an integer of milliseconds (seconds for Redis expiries) that never goes back unless a
contract says so. Each SQL statement, Redis command and Lua script is one atomic step, transactions
roll back fully, and the unique indexes hold. Connectors run the repository's own code, and what they
send arrives over a connection bound to their own installation and Runtime. Digests, random bytes,
uuids, clocks and everything a Runtime or the network answers are parameters.

Findings worth knowing:

- Commands are routed by installation alone, and the Connector sends them to whatever Runtime its host
  runs, so a command can take effect on a Runtime it was not for, or on several; it can even succeed by
  the answer of a Runtime that has replaced the one the Connector was paired with. Two owners that use one
  key on one Runtime share one effect. `Addressing` has the runs, and says exactly for which Connectors,
  hosts and Runtimes each of these is excluded.
- A repeated request is told that its key is reused in some run exactly if the collation ties keys of its
  payload (`Races.NeverMisjudgedIffNoTies`).
- A status leaves the transition table in exactly one way: an acknowledgement that completes a `queued`
  row (`Discipline.ChangesFollowTable`, `Races.QueuedCanSucceed`).
- `delivering` can fall back to `queued` (`Races.DeliveringCanGoBack`), yet the number of changes is
  bounded (`Discipline.BoundedChurn`), and the bound is reached (`Churn.ChurnBoundIsReached`).
- The exhaustion handler can leave a command unsettled: when a statement of its throws
  (`Races.ExhaustionCanThrow`), and by its write exactly when another write of `queued` or `delivering`
  has overtaken it (`Discipline.ExhaustionFailsIffOvertaken`, `Races.ExhaustionCanLose`).
- Two concurrent calls can leave an installation two open pairing codes (`Pairing.TwoOpenCodes`,
  `Pairing.OnlyOpenCodeIff`).
- The limiter never allows twice its limit within one window length: the bound is one less, and is
  reached (`RateLimiter.LessThanTwiceTheLimit`, `RateLimiter.BoundIsReached`).

## Model

| member | source | states |
|---|---|---|
| Delivery.SucceededMeansAccepted | apps/api/src/websocket-gateway.ts:189-200 | in every reachable state, a row is `succeeded` only if an execution of that command, on a Connector bound to the row's own installation and Runtime, started before expiry and was accepted by the Runtime then behind that Connector, whose answer is the stored result |
| Delivery.ResultIsTheAnswer | apps/connector/src/index.ts:86-94 | every stored result is the answer that the Runtime then behind a Connector paired with the row's installation and Runtime gave to an unexpired execution, and the status is `succeeded` or `rejected` as that answer accepted or not; whether that is the row's own Runtime is decided by `Addressing.OwnAnswerIffTruePairing` |
| Delivery.TerminalStatusAbsorbs | packages/database/src/repository.ts:385-412 | over any interleaving of split writers and acknowledgements a terminal status and its result never change again, and identity columns never change at all |
| Delivery.FinishedIffTerminal | packages/database/src/repository.ts:399-411 | in every reachable state `finishedAt` is set exactly on terminal rows, and no other row has a result |
| Delivery.OneCompletionRecord | apps/api/src/websocket-gateway.ts:189-212 | a command has at most one completion audit record in any run; it is never lost and names the status the row keeps |
| Outcomes.CompletionIsRecorded | apps/api/src/websocket-gateway.ts:189-212 | an acknowledgement that changes a status leaves its process with that completion to record, and in every later state the record is there or still owed, unless that process has thrown |
| Outcomes.AcknowledgedIsRecorded | apps/api/src/websocket-gateway.ts:201-212 | in every reachable state a command with an acknowledged status has its completion recorded or owed, or the receipt that completed it has thrown |
| Outcomes.ExhaustionWrites | apps/worker/src/index.ts:96-102 | in every run, when the exhaustion handler's compare-and-set wins, the command is `expired` exactly if its expiry had passed at the handler's decision and `failed` otherwise, its error code is `delivery_exhausted`, it is finished at the time of the write, and nothing else changes |
| Outcomes.HandledJobsAreSpent | apps/worker/src/index.ts:86-89 | in every run the exhaustion handler starts only for a job with eight counted runs |
| Outcomes.UnpairedIsRefused | packages/database/src/repository.ts:38-56 | in every run, a caller whose Runtime was found unpaired never makes or replays a row |
| Outcomes.ErrorIsReported | apps/connector/src/index.ts:96-115 | in every run, an execution that ends with an error of the Runtime client is reported as `conflict` exactly for status 409 or a code that contains "conflict", as `rejected` exactly for any other 4xx, and as `failed` otherwise, with that code |
| Outcomes.AnswerIsReported | apps/connector/src/index.ts:86-94 | in every run, an execution that ends with an answer is reported as `succeeded` or `rejected` as it accepted or not, with the answer |
| Outcomes.LateIsReported | apps/connector/src/index.ts:76-85 | in every run, a new delivery at or after expiry is reported at once as expired with `command_expired` and never reaches a Runtime, and an earlier one is not reported by its arrival |
| Expiry.ExpiredOnlyWhenDue | apps/worker/src/index.ts:48-51 | in every reachable state a command is `expired` only from its expiry on, whether the worker, the exhaustion handler or a Connector said so |
| Delivery.CompletedJobIsSettled | apps/worker/src/index.ts:44-51 | a job completes only for a command that is terminal from then on |
| Delivery.CreationIsIdempotent | packages/database/src/repository.ts:281-344 | over any interleaving of callers that passed the ownership check there is one row per owner and key, exactly one caller is told it created it, and every other is told of a replay of that row only if it asked for the same thing and of a reused key only if it did not or the collation ties keys of its payload, so that without ties the answer says which |
| Delivery.CommandsStayWithTheirOwner | packages/database/src/repository.ts:281-281 | in every reachable state a command's owner owns the installation it is for |
| Delivery.MessagesCarryTheRow | apps/worker/src/index.ts:63-69 | every message ever published carries the payload, key, installation and expiry fixed at insert, and belongs to a recorded attempt numbered 1 to 8 |
| Delivery.PublishedAttemptWentOut | apps/worker/src/index.ts:69-80 | an attempt recorded as published handed the row's own message to a subscriber |
| Addressing.OneEffectPerRuntime | apps/connector/src/index.ts:117-129 | however often a command is delivered, retried or replayed, its executions have at most one effect on any one Runtime, the one that answered, with the row's own payload and key, started before expiry, through a Connector of an installation of the row's owner |
| Addressing.AddressedIffOnlyRuntime | apps/connector/src/index.ts:73-87 | the commands of an installation for a Runtime have effects on that Runtime only, in every reachable state, if and only if the hosts of the installation's Connectors never run another Runtime |
| Addressing.WrongRuntimeRun | apps/api/src/websocket-gateway.ts:47-52 | any other Runtime that comes to run on the host of a Connector of the installation takes a command there in some run, whatever the Connector is paired as |
| Addressing.OneEffectIffOneRuntime | apps/connector/src/index.ts:117-129 | no command of an installation ever has two effects if and only if only one Runtime, with one store, ever runs behind its Connectors |
| Addressing.TwoConnectorsRun | apps/connector/src/index.ts:117-129 | two Connectors of one installation with different Runtimes behind them both take one command in some run |
| Addressing.ReplacedRun | apps/connector/src/index.ts:123-125 | a Runtime that has replaced the first one behind the same Connector takes the command again, after the 60-second window, in some run |
| Addressing.OwnAnswerIffTruePairing | apps/connector/src/index.ts:158-160 | every command of an installation for a Runtime that succeeds was accepted by that very Runtime if and only if no Connector paired as that Runtime ever has another one behind it |
| Addressing.WrongAnswerRun | apps/connector/src/index.ts:86-94 | a Connector stays up while another Runtime replaces the one it started with, and a command for its pairing succeeds by that one's answer in some run |
| Addressing.AcceptedHasEffect | apps/connector/src/index.ts:86-94 | a succeeded command has an effect under its key on the very Runtime that accepted it |
| Addressing.OwnEffectIffOwnRuntimes | packages/database/src/repository.ts:38-56 | every succeeded command of an installation caused the effect it was accepted for itself if and only if its Connectors share no Runtime with those of another owner's installation |
| Addressing.ForeignEffectRun | packages/database/src/repository.ts:38-56 | two owners that use one key on one Runtime: in some run the second command succeeds on the strength of the first one's effect |
| Delivery.DedupWindow | apps/connector/src/index.ts:121-128 | an `inFlightCommands` entry exists exactly for the execution that either runs or waits for its timer, never both; executions of one command in one process are at least 60 seconds apart |
| Delivery.DuplicateSharesReport | apps/connector/src/index.ts:121-128 | a delivery inside the window starts nothing, and everything reported for that execution is one identical result |
| Delivery.RunKeepsInv | packages/database/src/repository.ts:377-446 | the joint invariant of Hub and Connectors holds in every state of every run |
| Delivery.RunGrows | packages/database/src/repository.ts:377-486 | rows, attempts, messages, results, audits, executions and effects are never taken back along a run |
| HubInvariants.StepKeepsHubInv | apps/worker/src/index.ts:44-107 | every atomic Hub step keeps the invariant: among others every pending compare-and-set carries an equal or allowed pair, and each row has one maker |
| EdgeInvariants.StepKeepsEdgeInv | apps/connector/src/index.ts:73-129 | every Connector, timer and Runtime step keeps the deduplication window, report soundness and one effect per key |
| Discipline.BoundedChurn | apps/worker/src/index.ts:58-61 | a status changes at most 2R + 1 times in any run in which R calls asking for `queued` are started |
| Churn.ChurnBoundIsReached | apps/worker/src/index.ts:58-61 | for every request and every R some run reaches exactly 2R + 1 changes |
| Discipline.ChangesFollowTable | packages/contracts/src/command-policy.ts:11-24 | a status change in a run is outside the transition table if and only if it is an acknowledgement completing a `queued` row as succeeded, rejected or conflict |
| Races.QueuedCanSucceed | packages/database/src/repository.ts:439-442 | for every request some run takes the command from `queued` straight to `succeeded` by its Connector's acknowledgement |
| Discipline.PublishIsPreceded | apps/worker/src/index.ts:56-69 | every publish follows, in the same job run, the attempt row and then a won write of `delivering`; attempt numbers lie in 1 to 8 |
| Discipline.ExhaustionSettles | apps/worker/src/index.ts:86-102 | a handler that ended otherwise than by an exception or a lost race leaves the command terminal for good |
| Discipline.ExhaustionFailsIffOvertaken | packages/database/src/repository.ts:385-412 | the handler's write leaves the command unsettled if and only if, since the handler's read, an API call or a job run has won a write of `queued` or `delivering` that still stands and differs from the status read |
| Discipline.HandlerWrites | packages/database/src/repository.ts:408-412 | after the handler's write the status is terminal if and only if it was terminal before or still the one read |
| Races.ExhaustionCanLose | apps/api/src/app.ts:206-210 | for every request some run spends all eight attempts and ends with the write of the API call that made the command landing between the handler's read and its write, which then loses and leaves `queued` |
| Races.ExhaustionCanThrow | apps/worker/src/index.ts:96-102 | for every request some run ends with the handler having thrown and the command unsettled |
| Races.DeliveringCanGoBack | apps/api/src/app.ts:206-210 | for every request some run has the API call that made the command win a `queued` write over `delivering` |
| Races.NeverMisjudgedIffNoTies | packages/database/src/repository.ts:314-344 | for every request and collation, no run tells a caller with the same request that its key is reused if and only if the collation ties no keys of the payload |
| Races.AskedTwice | packages/database/src/repository.ts:314-344 | when the stored payload comes back with another canonical text, the second of two callers with the same request is told that its key is reused in some run |
| Processes.OthersDoNotDisturb | apps/worker/src/index.ts:44-84 | what a process relies on between two of its statements is kept by every step of every other process |
| Processes.HubHost.ReadCommandStatus | packages/database/src/repository.ts:385-397 | remembers the status it saw, or refuses exactly if the table allows no transition from it and it is another one |
| Processes.HubHost.SwapCommandStatus | packages/database/src/repository.ts:399-413 | writes exactly if the status is still the one read: every column that is given is stored, and every other one kept |
| Processes.HubHost.SetCommandStatus | packages/database/src/repository.ts:377-414 | under interference before either half: refused exactly if the transition from the status at the read is not allowed, lost exactly if the status has changed by the write, and otherwise every given column is stored and every other one kept |
| Processes.HubHost.ProcessJob | apps/worker/src/index.ts:44-84 | under interference: a terminal command ends the run at once; a due one is marked expired; an offline Connector ends it with an exception and nothing done; otherwise it has its attempt row, and ends with an exception exactly after both status writes have won, having published the row's own message exactly if somebody subscribed, with the attempt row saying which |
| Processes.HubHost.PublishAndRecord | apps/worker/src/index.ts:63-83 | the attempt row is finished as published or not routed according to the number of subscribers, and the run ends with an exception that keeps the job retryable |
| Processes.HubHost.SettleExhausted | apps/worker/src/index.ts:86-102 | under interference the handler ends with a terminal command unless it lost the race; if its write wins, the command is `expired` or `failed` as it was due at the decision or not, with the code `delivery_exhausted`, finished then |
| Processes.HubHost.OnFailed | apps/worker/src/index.ts:86-89 | the handler runs exactly for a job whose eight runs have been counted, and otherwise nothing changes |
| Processes.HubHost.CreateCommand | packages/database/src/repository.ts:269-345 | under interference before every statement: refused for an unpaired Runtime; otherwise a row of this owner, key and request is made or replayed, or the key is told to be reused by the row that has it |
| Processes.HubHost.AnswerCreated | apps/api/src/app.ts:205-226 | a job is enqueued and `queued` written exactly if the row was still `created`; 503 exactly if that write was refused or lost, 200 exactly for a terminal row, and 202 with the status otherwise |
| Processes.HubHost.PauseAttempt | apps/api/src/app.ts:192-226 | the whole handler: 404, 409 and 503 exactly for an unpaired Runtime, a reused key, and a refused or lost write; otherwise the answer names the row of this owner, key and request, `replayed` exactly for a caller that did not make it |
| Processes.HubHost.HandleResult | apps/api/src/websocket-gateway.ts:189-212 | a result completes a row exactly if it comes over the row's own installation and Runtime while the row is `queued` or `delivering`, and then the completion is recorded with the status the row has |
| Processes.HubHost.CountRun | packages/relay/src/index.ts:55-68 | a run that returned completes its job, and one that threw is counted once |
| Processes.HubHost.Recover | apps/worker/src/index.ts:36-38 | an open command that is not due gets a job if it has none |
| Repository.HubRepository.CreateCommand | packages/database/src/repository.ts:269-345 | refused exactly if the Runtime has no unrevoked credential in an installation of the caller's; otherwise, with other connections writing between any two statements: if nobody has the key at the insert exactly this row is added, and if somebody has it the caller is told by the canonical comparison with that row |
| Repository.HubRepository.SetCommandStatus | packages/database/src/repository.ts:377-414 | with other connections writing before the read and before the update: the whole table afterwards in each case, missing row, refused transition, lost race and write, the last one column by column |
| Repository.HubRepository.CompleteCommandFromConnector | packages/database/src/repository.ts:416-446 | changes one row exactly if installation, Runtime and the `queued` or `delivering` guard match: the status, the finishing time, and the result and error code if given |
| Repository.HubRepository.CreateCommandAttempt | packages/database/src/repository.ts:448-469 | one row per command and attempt number; an existing one is reused unchanged |
| CommandPolicy.TerminalIffStuck | packages/contracts/src/command-policy.ts:11-24 | the five statuses tested as terminal are exactly those the table lets nobody leave |
| CommandPolicy.CanTransitionIff | packages/contracts/src/command-policy.ts:11-24 | the transitions are exactly: any open status to `expired` or `failed`, created to queued to delivering and back to queued, and delivering to the three answers |
| CommandPolicy.SameIdempotentCommandDecides | packages/contracts/src/command-policy.ts:65-78 | never calls different requests the same, and without tied payload keys decides request equality |
| CommandPolicy.InvalidTimestampIff | packages/contracts/src/command-policy.ts:58-74 | an invalid timestamp is an error exactly when every column compared before it is equal |
| Canonical.CanonicalDecides | packages/contracts/src/command-policy.ts:47-56 | without tied keys, canonical texts are equal if and only if the values are equal up to object key order |
| Canonical.CanonicalSound | packages/contracts/src/command-policy.ts:47-56 | whatever the collation, equal canonical texts mean values equal up to key order |
| Canonical.CanonicalInvariantIffNoTies | packages/contracts/src/command-policy.ts:50-52 | canonical text does not depend on the order in which keys were inserted if and only if no object in the value has two keys the collation ties, neither of them an array index |
| Canonical.TiedKeysDiffer | packages/contracts/src/command-policy.ts:51-51 | any two tied keys give one value with two canonical texts, unless one of the keys is an array index, and then they do not |
| Canonical.SortOfEntries | packages/contracts/src/command-policy.ts:50-51 | sorting what `Object.entries` lists is one stable sort of the members as inserted, under the collation with its ties between array indices resolved |
| Canonical.EntriesInOrder | packages/contracts/src/command-policy.ts:50-50 | `Object.entries` lists array indices first, in ascending numeric order, and the other keys as they were inserted |
| Canonical.IsIndexIff | packages/contracts/src/command-policy.ts:50-50 | the array indices are exactly the usual texts of the numbers below 2^32 - 1 |
| Canonical.SortIsStable | packages/contracts/src/command-policy.ts:50-51 | the sort orders the entries, keeps them all, and keeps tied ones in their order |
| Canonical.StableSortUnique | packages/contracts/src/command-policy.ts:50-51 | a sorted list with the same tied classes is unique |
| Json.PrintInjective | packages/contracts/src/command-policy.ts:52-55 | distinct JSON values never print the same text |
| Json.QuoteReads | packages/contracts/src/command-policy.ts:52-52 | a quoted string can be read off the front of any text in one way only |
| Json.UnescapeEscape | packages/contracts/src/command-policy.ts:52-52 | reading an escaped string by the rules of JSON gives it back |
| Json.ScalarTexts | packages/contracts/src/command-policy.ts:55-55 | null, booleans and numbers print as themselves, and a string can be read back from between its quotes |
| ConnectorProcess.CommandHandler.HandleCommand | apps/connector/src/index.ts:117-129 | starts an execution exactly for a command without entry, settles it at once as expired exactly if its time has come, awaits the execution the entry names, and moves as the machine does |
| ConnectorProcess.CommandHandler.Settle | apps/connector/src/index.ts:86-115 | an answer is `succeeded` or `rejected` as it accepted or not; an error is `conflict`, `rejected` or `failed` by its status number and code; the 60-second timer starts, as in the machine |
| ConnectorProcess.CommandHandler.AnswerMessage | apps/connector/src/index.ts:128-128 | every message that awaited an execution is answered with the one report there is for that execution |
| ConnectorProcess.CommandHandler.FireTimer | apps/connector/src/index.ts:123-125 | in a reachable state the timer removes its own execution's entry and no other |
| Projection.ConnectorSession.SyncRuntime | apps/connector/src/index.ts:155-185 | one poll, over every point where it may fail or the socket may close: the snapshot goes out once per new sequence, the cursor moves to the last of at most 200 events, and while the socket is open all events up to the cursor have been handed over in order without gap |
| Projection.ConnectorSession.PollAll | apps/connector/src/index.ts:187-200 | over any number of polls of one connection, with the log growing between them and any of them failing anywhere: while the socket is open what was handed over is the log up to the cursor, and once these batches are applied, amid any others, the table has every event up to the cursor; and a poll answered in full leaves nothing to hand over unless it has handed over a full page of 200 |
| Projection.ConnectorSession.Connect | apps/connector/src/index.ts:139-140 | the first snapshot a new connection gets is handed over, also one of sequence 0 |
| Projection.CursorAdvances | apps/connector/src/index.ts:172-177 | handing over the next events and moving the cursor to the last leaves no gap |
| Projection.LogGrowth | apps/connector/src/index.ts:139-141 | events appended later lie behind every cursor a session has had |
| Projection.EventStore.InsertRuntimeEvents | packages/database/src/repository.ts:221-246 | a batch is stored whole, rows that are there staying and the first event of an id winning, or not at all when two rows would share a sequence |
| Projection.Replication | packages/database/src/schema.ts:92-99 | for batches of one log in any order and number no insert is refused, and the table holds exactly the events that arrived |
| Projection.SameArrivalsSameTable | packages/database/src/repository.ts:221-246 | order and duplication of arrivals do not matter |
| Projection.AppliedCoversCursor | apps/connector/src/index.ts:139-141 | once a session's batches are applied the table covers the log up to its cursor, and sending them again changes nothing |
| Projection.SnapshotStore.UpsertSnapshot | packages/database/src/repository.ts:201-219 | the row of this installation and Runtime becomes the upsert of what it was, and no other row changes |
| Projection.RegisterHoldsLastGreatest | packages/database/src/repository.ts:201-219 | after any upserts the row holds the last arrival among those with the greatest sequence, with that sequence |
| Projection.RegisterIsGreatestSent | apps/connector/src/index.ts:162-170 | once all snapshots that any sessions sent have been applied, the row holds one of them and its sequence is the greatest of all |
| Projection.RegisterOrderFree | packages/database/src/repository.ts:201-219 | if a sequence determines its snapshot, what is stored does not depend on order or repetition |
| Pairing.PairingConserves | packages/database/src/repository.ts:108-175 | in every run successful consumes, consumed codes and `connector.paired` records are equal in number |
| Pairing.CodeRedeemedOnce | packages/database/src/repository.ts:114-128 | no code digest is redeemed twice in a run, and none at or after its expiry |
| Pairing.ConsumedStays | packages/database/src/repository.ts:91-95 | a consumed code is never deleted, changed or reopened |
| Pairing.TokenResolution | packages/database/src/repository.ts:177-192 | a token resolves to a pair if and only if that pair's latest successful pairing issued it and it was not revoked since; never to two pairs |
| Pairing.PairingStore.CreatePairingCode | packages/database/src/repository.ts:84-106 | with other connections writing between its two statements: no open code is left by the first, and the second adds this code to whatever is open by then, unless the digest is taken |
| Pairing.OnlyOpenCodeIff | packages/database/src/repository.ts:91-104 | over any run, the code a call creates is its installation's only open one if and only if no other call's insert fell between the two statements of this call and is still open |
| Pairing.OpenIffIssued | packages/database/src/repository.ts:91-104 | a code is open if and only if it was issued and has since been neither cleared nor redeemed |
| Pairing.TwoOpenCodes | packages/database/src/repository.ts:91-104 | two calls that both clear before either inserts leave two open codes |
| Pairing.PairingStore.ConsumePairingCode | packages/database/src/repository.ts:108-175 | the transaction writes code, credential and audit record together or nothing, and is invalid exactly when no unconsumed, unexpired code has the digest |
| Pairing.PairingStore.FindConnectorByTokenHash | packages/database/src/repository.ts:177-192 | finds the pair whose credential has this token and is not revoked, if there is one |
| Gateway.OwnerIsLatestBind | apps/api/src/websocket-gateway.ts:226-231 | a connection owns its installation if and only if it was bound last and its own close is unhandled; a superseded one's late close never evicts it |
| Gateway.ConnectorGateway.Bind | apps/api/src/websocket-gateway.ts:90-93 | the new connection owns the installation, and the one told to close is the previous owner |
| Gateway.ConnectorGateway.OnClose | apps/api/src/websocket-gateway.ts:226-231 | removes an entry exactly when the closing connection is the owner, and no other entry |
| Gateway.ConnectorGateway.Route | apps/api/src/websocket-gateway.ts:47-63 | a command goes to the open socket of the current owner or nowhere |
| Gateway.PresenceStore.Online | packages/relay/src/index.ts:22-29 | a touch sets the key for 30 seconds |
| Gateway.PresenceStore.Offline | packages/relay/src/index.ts:31-35 | with others acting between the GET and the DEL: the DEL is sent exactly if the GET saw this connection, and takes another connection's live key down if and only if that one touched the key in between and the touch still stands |
| Gateway.PresenceStore.LateOffline | packages/relay/src/index.ts:31-35 | a connection that touches the key between the GET and the DEL of the one that leaves is offline at once |
| Gateway.PresenceStore.IsOnline | packages/relay/src/index.ts:41-43 | online exactly if the key is live, and whoever is online was touched within the last 30 seconds |
| RateLimiter.FixedWindowRateLimiter.Consume | packages/relay/src/index.ts:122-136 | counts every call on the key, opens a window when there is none, and allows up to the limit |
| RateLimiter.WindowBound | packages/relay/src/index.ts:122-136 | a window allows exactly its first calls up to the limit |
| RateLimiter.LessThanTwiceTheLimit | packages/relay/src/index.ts:122-136 | no half-open interval of one window length sees more than 2L - 1 calls allowed |
| RateLimiter.BoundIsReached | packages/relay/src/index.ts:122-136 | for every limit and window of at least two units some trace reaches 2L - 1 |
| Migrations.MigrationRunner.Migrate | packages/database/src/migrate.ts:30-53 | a run commits exactly the pending files before the point where it ends: the first drifted file, its death, or the end |
| Migrations.MigrationsRunOnce | packages/database/src/migrate.ts:42-48 | over any number of runs failing anywhere, each file's SQL is committed at most once, together with its record, and nothing is undone |
| Migrations.ProgressCommitsPending | packages/database/src/migrate.ts:33-48 | what a run commits is the pending files before its end, in listing order, and nothing else |
| Migrations.PendingInNameOrder | packages/database/src/migrate.ts:10-12 | pending files are committed in name order |
| Migrations.NameBeforeIff | packages/database/src/migrate.ts:10-12 | the order of names is by the first character in which they differ, a shorter name coming first |
| Migrations.SecondRunIsIdle | packages/database/src/migrate.ts:36-40 | after a complete run another run of the same files meets no drift and commits nothing |
| Backoff.CappedMonotone | packages/contracts/src/backoff.ts:20-20 | the delay without jitter never shrinks from one attempt to a later one |
| Backoff.CapIsReached | packages/contracts/src/backoff.ts:20-20 | it reaches the cap after finitely many attempts and stays there |
| Backoff.DelayBounds | packages/contracts/src/backoff.ts:16-22 | with valid options every delay lies between the two rounded ends of the jitter range |
| Backoff.DelayDoubles | packages/contracts/src/backoff.ts:20-20 | without the cap the delay is the base at first and doubles with every attempt, and the cap is the lesser of the two |
| Backoff.JitterEnds | packages/contracts/src/backoff.ts:16-22 | options are refused exactly when a guard throws, and random 0, 1 and one half give the two ends of the jitter range and its middle |
| PairingCode.AlphabetIsPattern | packages/contracts/src/security.ts:18-18 | the alphabet codes are drawn from and the pattern that checks them are the same set of characters |
| PairingCode.CodesAreUniform | packages/contracts/src/security.ts:9-14 | every code of n alphabet characters comes from exactly 8 to the n byte strings |
| PairingCode.NormalizeRecovers | packages/contracts/src/security.ts:16-22 | however a generated code is cased, spaced and hyphenated, normalising gives back its eight characters |
| PairingCode.NormalizeIff | packages/contracts/src/security.ts:16-22 | a text is accepted, and as which code, exactly if it spells eight characters of the alphabet in either case with separators anywhere; any other text is refused |
| PairingCode.CreatedCodeNormalizes | packages/contracts/src/security.ts:13-16 | the printed code itself normalises to its eight characters |

## Left out

- The web app, Supabase sign-in, CORS, JWT verification, rate keys, configuration, logging and shutdown: user interface and I/O.
- Zod schemas, the `sanitize*` functions and `redact`: field whitelisting that would only add easy members. Every message and payload is taken as already valid.
- HMAC, token entropy and constant-time comparison: digests are plain values and no cryptographic fact is claimed.
- BullMQ's locks, stall detection, backoff and retention: adding an existing job id changes nothing, a job has at most eight counted runs, and a finished or exhausted job may disappear and be enqueued again. The same attempt number may be run more than once.
- Liveness: nothing says a command is ever delivered. A failed enqueue is a process that stops.
- The 100-row limit of `listRecoverableCommands`: recovery is a step for any one recoverable command.
- Presence inside delivery: `isOnline` and the subscriber count are arbitrary answers there.
- Several API instances: a published message may reach any number of Connectors of the installation, so routing between instances is not told apart from duplication.
- Error messages, `updatedAt`, `lastSeenAt` and the `command.created` audit record; a write or acknowledgement carries its status, result and error code.
- A Connector that fails to build its report (an error text the schema rejects) is an execution that never settles.
- Clock skew: Hub and Connectors read one clock that never goes back. A timer fires at some moment after it is due, and a Redis key is gone exactly at its expiry.
- `undefined`, lone surrogates and negative zero in JSON payloads; a number is its printed text, so an injective number printer is assumed.
- Upper-casing outside ASCII in `normalizePairingCode`: a letter such as U+017F, which upper-cases into the alphabet, is left as it is here and so rejected.
- Floating-point rounding in the backoff: reals are exact.
- The `polling` flag of `syncRuntime`: polls of one session are calls one after the other. A different Runtime identity is a poll without an answer.
- `close()` of the gateway, which empties the map when the process stops.
- The transaction lock `for update` in `consumePairingCode`: the transaction is one step.
- The `locked` flag and the advisory lock of the migration runner: runs follow one another.
- Processes.HubHost.ProcessJob: the paths on which no statement throws, because a statement that throws is the machine's `Throw` step, after which a run only ends.
- Whether a Runtime is paired, in the machine: its `assertRuntimeOwner` step tests the installation's owner and takes the pairing as a parameter; `Repository.HubRepository` tests both.
- How a Connector comes to its pairing: the identity in its state file and the host it sends to are parameters of its start.
