# AMX verification

Dafny models of the parts of AMX whose state has to survive crashes, retries, clock
steps and concurrent instances: the transcript hooks, the agent's event outbox and
transport, its command handlers and self update, and the server's billing, alerts,
webhook drain and credential formats. `dafny verify dfyconfig.toml` checks everything.

Each component is written twice. Pure functions give the meaning of every operation
and carry the theorems, which range over all inputs and all runs. Where the program
updates things in place (Python state objects, Go structs, database rows) a class with
the same fields and loops does the same, and every method's postcondition equates its
whole new state with the specification function applied to the old one. Calls that
reach outside (files, network, `tsamx`, the key provider) become parameters saying
whether they succeed, so theorems hold for every pattern of failures.

## What is proved

**Transcript engine** (`Lines`, `Rows`, `Assembly`, `Routing`, `Session`, `HookSessions`,
`Timely`, `WholeSession`, `QuietSessions`, `RunBookkeeping`, `Outcomes`, `TurnContents`,
`TurnMessages`, `Emission`, `EmissionOnce`, `Readiness`, `SessionEmission`). However a transcript is cut into reads and hook runs, the turns of all runs are those of one
assembly of the whole, task notifications included, as long as they come in time
(`WholeSession.SessionEquivalent`); the partial line and the held rows are a sufficient
checkpoint (`Session.ReadResumes`, `Assembly.HeldRebuilds`), and assembly resumes exactly
when no notification strays (`Assembly.Resume`). Routing conserves rows and releases a
turn exactly when all it waits for is reported (`Routing.ResolveConserves`,
`Routing.ReleasedAre`). Firings on an open turn followed by the closing one emit every
observation key once (`EmissionOnce.ExactlyOnce`), and so does a whole session, through
open, closed, deferred and released (`SessionEmission.EmittedOnce`). What a turn holds
can be read off its own rows: launches and outcomes (`Outcomes.EntriesTold`), messages
(`TurnMessages.MessagesTold`), and dates (`TurnContents.TurnsTold`); and so can what a firing on it may put out,
span by span (`Readiness.OpenFiringAdds`).

**Session usage** (`BoundedReader`, `UsageModel`, `UsageProofs`, `UsageAttribution`,
`UsageKinds`, `UsageLabels`, `SessionUsage`). The chunked reader refines line splitting whatever the chunk sizes
(`BoundedReader.OutputRefines`). Folding models and labels under budgets conserves
every total (`UsageProofs.PayloadConserves`) and a model with its own bucket holds
exactly its own tokens (`UsageAttribution.Attributed`), messages, labels and span
(`UsageLabels.BucketTold`).

**Outbox and transport** (`DedupeWindow`, `OutboxLog`, `Outbox`, `OutboxDedupe`,
`OutboxCompaction`, `Transport`, `Delivery`). Two state machines: the log with enqueues, flush steps, crashes at any
point and restarts (`Outbox.NothingLost`, `Outbox.GoneForGood`), and the send buffer
with pump, teardown and reconnects (`Transport.ExactlyOnce`); composed, an event leaves the disk only once it is
on the wire (`Delivery.OnTheWireOrOnDisk`, `Delivery.DroppedOnlyOnceSeen`). The log is
modelled down to a crash at any character of an append (`OutboxLog.TornAppend`). Which
enqueues are dropped as repeats is settled exactly, for every run
(`OutboxDedupe.DroppedIff`).

**Server** (`BillingDay`, `Billing`, `BillingCoverage`, `Alerts`, `AlertEffects`,
`Webhook`, `WebhookLease`, `DekCache`, `Crypto`, `Rewrap`, `RewrapSweep`). Billing keeps its purge mark below its watermark under any clock and never
bills survivors of a purge as a day (`Billing.ClockJumpSafety`); one sweep equals any
chain of sweeps (`Billing.BatchIndependent`), and leaves an event for exactly the closed
tenant-days with a readable snapshot (`BillingCoverage.SweepCovers`). Alerts stage exactly their transitions
(`Alerts.TransitionHistory`) and close exactly what an operation is about
(`AlertEffects.ResolvesExactly`, `AlertEffects.ReportClosesExactly`). Every staged webhook row is accounted for under any
number of instances and expired leases (`Webhook.EveryRowAccountedFor`) and left alone
while its lease or backoff runs (`WebhookLease.LeftAlone`). Credentials
read back across flag flips and key rotations (`Crypto.RoundTrip`), the key cache agrees
with unwrapping (`DekCache.AgreesWithUnwrapping`), and the rewrap never revives a stale
secret (`Rewrap.NeverRevives`) and, undisturbed, converts every account it can
(`RewrapSweep.UndisturbedSweep`).

**Agent commands** (`AppliedLog`, `SelfUpdate`, `Pools`, `Manifest`, `Commands`,
`CommandEffects`, `CommandEngine`). Over any history with arbitrary pool failures a converged deliver
keeps the live account (`Commands.DeliverKeepsLive`, over retries
`Commands.RetriesKeepLive`) and a converged purge leaves nothing
(`Commands.PurgeLeavesNothing`), nothing but the named account moves
(`CommandEffects.SwitchesAccount`, `CommandEffects.PurgeFrame`), and which commands
converge is settled exactly (`CommandEffects.DeliverConvergesIff`); a self update leaves an intact binary whatever
fails and wherever it stops (`SelfUpdate.SurvivesEverywhere`), and so does any history of
them under an exact condition (`SelfUpdate.SurvivesHistory`, `SelfUpdate.LostIff`).

## Where the code and its promises differ

Each but the last has a lemma with an input where it happens and one with the exact
condition under which it does.

- A policy that fails midway has already set the threshold, or the cooldown, but does not
  advance the time that guards against older ones, so an older policy can still take
  those back, against the comment at `ama-agent/internal/command/handlers.go:479-485`:
  `Commands.HalfAppliedRewinds`, `Commands.RewindIff`. Histories without such a policy are
  safe (`Commands.NeverRewinds`), and the settings injected last always are
  (`Commands.LateSettingsNeverRewind`).
- A deliver whose switch back fails is answered as diverged, but its re-queued copy finds
  record and flag as desired and is answered as converged, with the runner still on the
  delivered account: `Commands.FailedRestoreSticks`, `Commands.RetryRestoresIff`,
  `Commands.MovesIff`.
- A purge drops the record it names by id and the slot it names by email, and checks only
  that the id is there. With another email the recorded account's slot stays; with none,
  and nothing live, the runner is moved onto another account: `Commands.NamelessPurge`,
  `Commands.PurgeRecordedIff`, `Commands.PurgeMovesRunner`.
- After a self update whose install and restore both failed, the agent keeps running
  without a binary, and the log asks for a real retry. That retry removes the backup, the
  last intact binary, before it finds nothing to move aside: `SelfUpdate.RetryLosesBinary`,
  `SelfUpdate.LostIff`.
- A task notification about a tool call of a turn closed by an earlier run, and not
  deferred, is filed in the turn open by then: `Assembly.NoticeAfterItsTurn`,
  `Assembly.Resume`.
- A message whose own id equals the fallback id of a later row without one takes that row
  in and changes its key: `EmissionOnce.ImitatedIdStrays`, `EmissionOnce.KeysKeepIff`.
- An event id queued twice less than a window apart leaves set and ring of the dedupe
  window in disagreement after a restart: `Outbox.QueuedTwice`,
  `DedupeWindow.ReloadedTwice`, `DedupeWindow.ReloadExact`.
- The rewrap stops with one account scanned and uncounted when it meets a readable legacy
  secret whose tenant has no usable key: `Rewrap.KeylessAborts`, `Rewrap.AbortsIff`.
- A webhook row is given up when its attempt would reach 8, so stored attempts stay
  below 8 (`Webhook.EveryRowAccountedFor`).

## Model

| member | source | states |
|---|---|---|
| `Lines.SplitJoin` | `deploy/langfuse/langfuse_hook.py:715-722` | splitting text at newlines loses nothing: joining the pieces gives the text back and no piece holds a newline |
| `Lines.SplitGrow` | `deploy/langfuse/langfuse_hook.py:715-719` | the unfinished last line kept in the buffer is all that later text needs: complete lines of the whole are those found so far plus those of buffer and new text |
| `Session.ReadResumes` | `deploy/langfuse/langfuse_hook.py:673-731` | reading a grown file from the saved offset with the saved partial line yields exactly the rows that reading the whole file would add |
| `HookSessions.HookSession.ReadNewJsonl` | `deploy/langfuse/langfuse_hook.py:673-731` | missing file and no new bytes read nothing; a shrunken file restarts and drops all turn state; otherwise new complete lines become rows |
| `Assembly.TurnAssembly.AddInjectedContextRow` | `deploy/langfuse/langfuse_hook.py:1047-1062` | meta rows are consumed; injected text is filed under its tool call |
| `Assembly.TurnAssembly.AddToolResultRow` | `deploy/langfuse/langfuse_hook.py:1064-1090` | result rows are consumed and the latest result of a tool call wins |
| `Assembly.TurnAssembly.SearchKnowing` | `deploy/langfuse/langfuse_hook.py:1117-1123` | the newest closed turn that knows the tool call |
| `Assembly.LatestKnowing` | `deploy/langfuse/langfuse_hook.py:1117-1123` | no turn closed after the one found knows the tool call |
| `Assembly.TurnAssembly.AddTaskNotificationRow` | `deploy/langfuse/langfuse_hook.py:1092-1132` | a notification finishes the open turn's result, else that of the newest closed turn that knows the call, else becomes a result of the open turn |
| `Assembly.TurnAssembly.BuildTurn` | `deploy/langfuse/langfuse_hook.py:1134-1184` | one message per id in first-seen order with the blocks of all its rows; no turn without a user row or without assistant rows |
| `Assembly.TurnAssembly.StartNewTurn` | `deploy/langfuse/langfuse_hook.py:1186-1193` | a user row discards the open state and starts over with itself |
| `Assembly.TurnAssembly.AddAssistantRow` | `deploy/langfuse/langfuse_hook.py:1196-1211` | assistant rows gather under their message id, or a positional one, and date each tool call once |
| `Assembly.AssembleTurns` | `deploy/langfuse/langfuse_hook.py:1214-1261` | the loop over the rows yields the closed turns, the trailing turn and its raw rows |
| `Assembly.HeldRebuilds` | `deploy/langfuse/langfuse_hook.py:1275-1289` | the raw rows of the open turn rebuild its whole assembly state, notifications included, so they are a sufficient checkpoint |
| `Assembly.Resume` | `deploy/langfuse/langfuse_hook.py:1214-1261` | assembling a second batch behind the held rows, with the task ids known by then, gives what one pass over both gives if and only if no notification of the second batch strays, that is, reports at its turn a tool call that only turns closed in the first batch know |
| `Assembly.ClosedRebuild` | `deploy/langfuse/langfuse_hook.py:1264-1272` | the raw rows of a closed turn, with the notifications it got after it was closed, assemble to that turn and nothing else |
| `Assembly.NoticeAfterItsTurn` | `deploy/langfuse/langfuse_hook.py:1115-1132` | an input that strays: a notification after its turn was closed in an earlier batch finds the turn in one pass but lands in the open turn otherwise |
| `Outcomes.ReportReachesOpen` | `deploy/langfuse/langfuse_hook.py:1108-1113` | a notification about a tool call the open turn knows changes that entry alone: its outcome becomes the notification's text and stamp, the launch stays, every other entry and turn is as before |
| `Outcomes.ReportReachesClosed` | `deploy/langfuse/langfuse_hook.py:1115-1123` | else the same happens in the newest closed turn that knows the call, and nowhere else |
| `Outcomes.ReportOpensEntry` | `deploy/langfuse/langfuse_hook.py:1125-1132` | known to no turn, it opens an entry in the open turn with its text as the result; with no turn open it is dropped |
| `Outcomes.BlocksSet` | `deploy/langfuse/langfuse_hook.py:1073-1089` | a result row gives each tool call the last of its blocks, without an outcome |
| `Outcomes.EntriesTold` | `deploy/langfuse/langfuse_hook.py:1064-1132` | in every turn, read off its own rows: a tool call has an entry exactly when a row mentions it, the launch is that of the last result, and the outcome that of the last notification if one came since, else none |
| `TurnContents.TurnsTold` | `deploy/langfuse/langfuse_hook.py:1047-1062` | in every turn: it begins with its user row and holds no other, each tool call is dated by the first assistant row that makes it, and each injected text is the last one injected |
| `TurnContents.ClosesIff` | `deploy/langfuse/langfuse_hook.py:1242-1250` | a user row closes the turn before it exactly when that turn has an assistant row; one without is dropped, and no other row closes a turn |
| `TurnContents.TextIs` | `deploy/langfuse/langfuse_hook.py:624-635` | the text of a content made of blocks is its non-empty text blocks, line by line |
| `TurnMessages.MessagesTold` | `deploy/langfuse/langfuse_hook.py:1134-1184` | all assistant rows of one message id are one message of the turn: the last row, with the blocks of all of them in row order |
| `HookSessions.HookSession.RouteToPendingTurn` | `deploy/langfuse/langfuse_hook.py:843-848` | a routed row joins its turn and moves the id from pending to resolved once |
| `HookSessions.HookSession.FindPendingAgentTurn` | `deploy/langfuse/langfuse_hook.py:807-824` | the first deferred turn for which the id is pending or resolved |
| `HookSessions.HookSession.RouteStashed` | `deploy/langfuse/langfuse_hook.py:855-861` | stashed notifications whose turn is known now leave the stash |
| `HookSessions.HookSession.RouteBatched` | `deploy/langfuse/langfuse_hook.py:863-875` | batch notifications go to the deferred turn that knows them, to the stash when unattributable, or stay |
| `HookSessions.HookSession.ResolveDeferredAgentTurns` | `deploy/langfuse/langfuse_hook.py:826-891` | the whole routing step; the newest 50 stashed rows are kept and fully resolved turns come out in deferral order |
| `Routing.BatchRoutes` | `deploy/langfuse/langfuse_hook.py:863-875` | where every row ends is fixed by who knows its id before the routing starts: kept rows in order, unattributed ones, and each turn's own rows |
| `Routing.StashRoutes` | `deploy/langfuse/langfuse_hook.py:855-861` | the same for the stash |
| `Routing.OneDestination` | `deploy/langfuse/langfuse_hook.py:826-891` | every row has exactly one destination |
| `Routing.RouteConserved` | `deploy/langfuse/langfuse_hook.py:826-891` | routing neither loses nor duplicates a row: turns, remaining rows and stash hold the same multiset as before |
| `Routing.ResolveConserves` | `deploy/langfuse/langfuse_hook.py:877-891` | after the release step too: waiting, released, remaining, stashed and dropped rows hold the same multiset as before, and only the oldest unattributed ones beyond 50 are dropped |
| `Routing.DoneIff` | `deploy/langfuse/langfuse_hook.py:877-885` | a deferred turn is finished by a run if and only if stash and batch report every occurrence of every id it waits for |
| `Routing.ReleasedAre` | `deploy/langfuse/langfuse_hook.py:877-891` | released are exactly those turns, in deferral order, each with its rows followed by its notifications |
| `Routing.QuietBatch` | `deploy/langfuse/langfuse_hook.py:863-866` | a batch without notifications passes through unchanged |
| `HookSessions.HookSession.PopAllDeferred` | `deploy/langfuse/langfuse_hook.py:893-904` | at session end all deferred row lists come out |
| `HookSessions.HookSession.HighestNumber` | `deploy/langfuse/langfuse_hook.py:1299-1302` | the highest number assigned so far |
| `HookSessions.HookSession.AssignTurnNumbers` | `deploy/langfuse/langfuse_hook.py:1292-1309` | each turn with a uuid gets the next number the first time it is seen |
| `Session.NumberingSafe` | `deploy/langfuse/langfuse_hook.py:1292-1309` | numbers already assigned never change, new ones are above all others, and no two uuids share a number |
| `Session.NumbersStable` | `deploy/langfuse/langfuse_hook.py:1312-1369` | a whole run keeps every number assigned before it, as long as the file did not shrink |
| `RunBookkeeping.NumberedInOrder` | `deploy/langfuse/langfuse_hook.py:1292-1309` | new uuids are numbered without a gap in the order of their first turns, and nothing but turns is numbered |
| `RunBookkeeping.RunNumbers` | `deploy/langfuse/langfuse_hook.py:1299-1309` | the new numbers of a run follow right behind the largest number counted or assigned before |
| `RunBookkeeping.ShrunkStartsOver` | `deploy/langfuse/langfuse_hook.py:683-702` | a shrunken transcript is read from its start by a session that remembers nothing but its turn count |
| `HookSessions.HookSession.Gather` | `deploy/langfuse/langfuse_hook.py:1319-1347` | reading, reattaching held rows and routing, with everything deferred taken out at session end |
| `HookSessions.HookSession.AssembleBatch` | `deploy/langfuse/langfuse_hook.py:1349-1369` | owed turns first, then the batch; the trailing turn is held unless the session ends |
| `HookSessions.HookSession.GetNewTurns` | `deploy/langfuse/langfuse_hook.py:1312-1369` | one run's turns and the state it leaves |
| `HookSessions.HookSession.GetTurnsToEmit` | `deploy/langfuse/langfuse_hook.py:1023-1044` | turns with unresolved agents are put aside with their rows, the others are emitted |
| `HookSessions.HookSession.Run` | `deploy/langfuse/langfuse_hook.py:1312-1369` | one hook run from file to emitted turns |
| `Session.RunKeepsWellFormed` | `deploy/langfuse/langfuse_hook.py:1023-1044` | over any run a deferred turn never waits for the empty id |
| `Timely.KeepsPace` | `deploy/langfuse/langfuse_hook.py:843-875` | routing notifications that come in time and assembling the rows left keeps pace with one pass over all of them: same open turn, same turns closed since, and the deferred turns' rows stand for the same turns |
| `Timely.RunKeepsPace` | `deploy/langfuse/langfuse_hook.py:1319-1369` | the same for one run behind the held rows: what was emitted, what is deferred and what the run closes are together the closed turns of one pass |
| `WholeSession.OpenRun` | `deploy/langfuse/langfuse_hook.py:1312-1369` | a run keeps the checkpoint: emitted turns, deferred turns and held rows stand for all that was read |
| `WholeSession.UnownedIff` | `deploy/langfuse/langfuse_hook.py:1312-1369` | for a run that reads one row no deferred turn waits for, the checkpoint is kept if and only if the row comes in time |
| `WholeSession.OpenFiringsEquivalent` | `deploy/langfuse/langfuse_hook.py:1312-1369` | for any cutting into runs whose notifications come in time, emitted and deferred turns are, as a multiset, the closed turns of one pass, and the held rows are its open turn's |
| `WholeSession.SessionEquivalent` | `deploy/langfuse/langfuse_hook.py:1312-1369` | with the closing run, the turns of all runs are, as a multiset, exactly those of one assembly of the whole transcript with its notifications, when every notification comes in time: routing hands it to a deferred turn exactly when one pass hands it to that turn; task ids may become known as agents start, each firing knowing those of the rows read by then |
| `WholeSession.QuietSession` | `deploy/langfuse/langfuse_hook.py:1312-1369` | without notifications that holds unconditionally, whatever task ids are known when |
| `QuietSessions.EmittedInOrder` | `deploy/langfuse/langfuse_hook.py:1312-1369` | without notifications open runs emit the settled closed turns in the order of one pass |
| `Emission.EmissionCursor.ShouldEmit` | `deploy/langfuse/langfuse_hook.py:1848-1855` | a key passes once, and only when complete if the cursor is for an open turn |
| `Emission.EmissionCursor.EmitReady` | `deploy/langfuse/langfuse_hook.py:2226-2232` | subagents whose result is in by then are emitted, the others stay pending |
| `Emission.EmissionCursor.EmitTool` | `deploy/langfuse/langfuse_hook.py:1869-2020` | the keys one tool call offers |
| `Emission.EmissionCursor.EmitToolBatch` | `deploy/langfuse/langfuse_hook.py:2023-2064` | the keys one message's tool calls offer, in order |
| `Emission.EmissionCursor.EmitMessage` | `deploy/langfuse/langfuse_hook.py:2225-2310` | generation key, tool keys and ready subagents of one message |
| `Emission.EmissionCursor.EmitTurnObservations` | `deploy/langfuse/langfuse_hook.py:2186-2327` | the full walk puts out exactly the offered keys not put out before, each once |
| `EmissionOnce.CoreKeysAre` | `deploy/langfuse/langfuse_hook.py:2186-2327` | at close the walk offers exactly the generation, tool and subagent keys that messages and transcripts name |
| `EmissionOnce.CoreKeysGrow` | `deploy/langfuse/langfuse_hook.py:2781-2840` | keys of an earlier view of a turn stay keys of the later one |
| `EmissionOnce.NewlyDisjoint` | `deploy/langfuse/langfuse_hook.py:2781-2840` | no key is newly emitted by two firings |
| `EmissionOnce.KeysKeepIff` | `deploy/langfuse/langfuse_hook.py:1201-1205` | the generation keys of a turn keep their values over all later views if and only if no assistant row without an id arrives while its fallback id is taken |
| `EmissionOnce.UnreservedTidy` | `deploy/langfuse/langfuse_hook.py:1201-1205` | ids that do not begin like the fallback never take one |
| `EmissionOnce.ExactlyOnce` | `deploy/langfuse/langfuse_hook.py:2642-2840` | for any open firings followed by a closing one on a turn that only grows, what they newly emit is pairwise disjoint and covers every generation, tool and subagent key of the final turn, when every assistant row without an id opens a message of its own |
| `EmissionOnce.ImitatedIdStrays` | `deploy/langfuse/langfuse_hook.py:1201-1205` | a turn where one does: its early key is no key of the final turn |
| `EmissionOnce.EmitReadyObservations` | `deploy/langfuse/langfuse_hook.py:2781-2840` | a firing on the held open turn, gated by unresolved agents and undelivered queued notifications |
| `EmissionOnce.EmitClosing` | `deploy/langfuse/langfuse_hook.py:2722-2778` | the closing emission puts out, once each, all that is still owed |
| `Readiness.OpenFiringAdds` | `deploy/langfuse/langfuse_hook.py:2186-2327` | a firing on the open turn adds a key if and only if the user row has a uuid, no launched agent is still out, no queued notification is undelivered, and the key may go out by the blocks and results alone |
| `Readiness.GenerationGoesOutIff` | `deploy/langfuse/langfuse_hook.py:2255-2266` | message by message: the generation newly goes out if and only if every tool call of the message has a result and no earlier message has an async launch without its outcome |
| `Readiness.CoreIff` | `deploy/langfuse/langfuse_hook.py:2255-2310` | before close, generation keys go out for such messages, tool keys for calls with a result, subagent keys for calls whose agent cannot still be running, and no others |
| `Readiness.FlowIff` | `deploy/langfuse/langfuse_hook.py:1964-1985` | workflow agents go out for calls with a result that name their run, before close only once the outcome is in |
| `Readiness.GatedIff` | `deploy/langfuse/langfuse_hook.py:965-1020` | a firing is held back exactly when a launched agent has not reported or a notification is queued and not yet delivered |
| `Readiness.PendingAre` | `deploy/langfuse/langfuse_hook.py:965-986` | a turn waits for exactly the launches among its tool calls, in order, whose result is an async launch without an outcome |
| `Readiness.AsyncLaunchIs` | `deploy/langfuse/langfuse_hook.py:947-963` | a result is an async launch as its flag says, or without a flag as the phrases in its text do |
| `SessionEmission.OpenBecomes` | `deploy/langfuse/langfuse_hook.py:1186-1193` | whatever is read later, an open turn with a message stays the same one of the turns and only grows |
| `SessionEmission.EntryIs` | `deploy/langfuse/langfuse_hook.py:2722-2838` | until a turn is closed its progress entry is exactly what the firings on it put out |
| `SessionEmission.EmittedOnce` | `deploy/langfuse/langfuse_hook.py:2842-2917` | over a whole session, whenever a run closes a turn, deferred and released ones included, its entry holds what the firings on it put out while it was open, no two of which put out the same key, and the closing run puts out exactly the keys still owed |
| `BoundedReader.OutputRefines` | `deploy/langfuse/session_usage_hook.py:694-738` | the output is a subsequence of the file's lines in order, holds every non-empty line up to the limit and none longer than the limit plus one chunk, and truncation is flagged exactly when a line was dropped |
| `BoundedReader.ChunkStep` | `deploy/langfuse/session_usage_hook.py:703-733` | buffer and skipping flag carry exactly what the next chunk needs |
| `BoundedReader.TakeLines` | `deploy/langfuse/session_usage_hook.py:711-722` | all complete lines come out of the buffer; while skipping the first is the end of a dropped one |
| `BoundedReader.ReadChunk` | `deploy/langfuse/session_usage_hook.py:703-733` | one read: lines out, limit checked on the rest |
| `BoundedReader.ReadLines` | `deploy/langfuse/session_usage_hook.py:694-738` | within the byte budget the reader yields that output; over it, it stops before the read that crosses it and flags truncation; it never buffers more than the line limit plus one chunk |
| `UsageModel.Count` | `deploy/langfuse/session_usage_hook.py:187-209` | every abnormal counter is 0 and none exceeds the server's bound |
| `SessionUsage.Aggregator.SpendLabels` | `deploy/langfuse/session_usage_hook.py:239-244` | the shared label budget is drawn on only if it suffices |
| `SessionUsage.Aggregator.BucketFor` | `deploy/langfuse/session_usage_hook.py:296-311` | a known model, a new one within both limits, or the shared fold bucket |
| `SessionUsage.Aggregator.Bump` | `deploy/langfuse/session_usage_hook.py:257-271` | a known key, a new one within both limits, or the fold key is incremented; a missing label counts nothing |
| `SessionUsage.Aggregator.TokenSlices` | `deploy/langfuse/session_usage_hook.py:314-341` | at most 16 iteration objects with their own or the message's model, else the message's counters; cutting sets truncated |
| `SessionUsage.Aggregator.AddMessage` | `deploy/langfuse/session_usage_hook.py:389-421` | slices to their models, what no slice carries to the message's own |
| `SessionUsage.Aggregator.AddLine` | `deploy/langfuse/session_usage_hook.py:363-421` | a message counts only if its id is new |
| `SessionUsage.Aggregate` | `deploy/langfuse/session_usage_hook.py:344-422` | the loop counts the first record of each id within the line limit and flags truncation past it |
| `SessionUsage.BuildModels` | `deploy/langfuse/session_usage_hook.py:425-445` | the payload is the models in falling token weight, at most 50 |
| `UsageProofs.Conserved` | `deploy/langfuse/session_usage_hook.py:344-422` | folding labels moves numbers between buckets but loses and invents none |
| `UsageProofs.DuplicatesIgnored` | `deploy/langfuse/session_usage_hook.py:363-378` | later lines that repeat a message id, or hold no message, change nothing |
| `UsageProofs.FirstMessagesDistinct` | `deploy/langfuse/session_usage_hook.py:363-378` | exactly one record per message id in the transcript is counted |
| `UsageProofs.AlwaysGood` | `deploy/langfuse/session_usage_hook.py:239-311` | whatever the transcript holds, label text stays within the 256-character budget and room for the fold label is kept everywhere |
| `UsageProofs.SortingKeeps` | `deploy/langfuse/session_usage_hook.py:425-445` | ordering keeps every model and every sum |
| `UsageProofs.PayloadConserves` | `deploy/langfuse/session_usage_hook.py:344-445` | for every transcript the payload carries exactly the sums of the distinct messages, with at most 50 models, 20 keys per count map and the label budget |
| `UsageAttribution.Attributed` | `deploy/langfuse/session_usage_hook.py:296-311` | a model with a bucket of its own holds exactly the tokens labelled with it; one without was, if mentioned, refused from the first message that mentions it on |
| `UsageKinds.PayloadByKind` | `deploy/langfuse/session_usage_hook.py:314-422` | each token kind of the payload is the sum of its own counter over the distinct messages, read from their first sixteen iteration objects or else their own usage |
| `UsageKinds.PayloadFalls` | `deploy/langfuse/session_usage_hook.py:425-445` | the payload's models stand in falling order of their five token kinds together |
| `UsageLabels.LabelIs` | `deploy/langfuse/session_usage_hook.py:212-225` | a label is passed through unchanged if it is short enough and of plain characters, and folded whole otherwise; never cut |
| `UsageLabels.BumpedLands` | `deploy/langfuse/session_usage_hook.py:257-271` | a label is counted under itself unless it is new and there is no room, and never changes the count of another |
| `UsageLabels.BucketTold` | `deploy/langfuse/session_usage_hook.py:389-421` | a bucket counts its model's messages, tiers and stop reasons as often as the messages carry them, save labels there was no room for, and spans exactly from the earliest to the latest stamp |
| `DedupeWindow.RecentIds.MarkSeen` | `ama-agent/internal/reporter/reporter.go:364-375` | one recorded id; a full window forgets its oldest |
| `DedupeWindow.MarkedRecent` | `ama-agent/internal/reporter/reporter.go:364-375` | the ring always holds the newest ids, oldest first, as many as it has slots |
| `DedupeWindow.SeenInRing` | `ama-agent/internal/reporter/reporter.go:285-304` | over any recorded ids the set has at most as many members as the ring has slots and holds only ids still in it |
| `DedupeWindow.SeenAre` | `ama-agent/internal/reporter/reporter.go:364-375` | after any ids the set holds exactly those of which some occurrence has no earlier copy pushed out since |
| `DedupeWindow.ReloadExact` | `ama-agent/internal/reporter/reporter.go:324-337` | reloading any ids leaves set and ring in agreement if and only if no id still in the ring repeats one less than a ring before it |
| `DedupeWindow.FreshExact` | `ama-agent/internal/reporter/reporter.go:344-375` | enqueues keep them in agreement |
| `DedupeWindow.SuppressedFor` | `ama-agent/internal/reporter/reporter.go:280-304` | a recorded id is suppressed if and only if fewer than a window's worth of fresh ids follow it |
| `DedupeWindow.ReloadedTwice` | `ama-agent/internal/reporter/reporter.go:331-335` | what goes wrong otherwise: an id queued twice in a row drops out of the set while the ring still holds it |
| `OutboxLog.ReplayAdd` | `ama-agent/internal/reporter/outboxlog.go:107-120` | an add under an unused number appends its item to the replay |
| `OutboxLog.ReplayDel` | `ama-agent/internal/reporter/outboxlog.go:121-123` | a tombstone retires exactly the item with its number |
| `OutboxLog.ReplayAdds` | `ama-agent/internal/reporter/outboxlog.go:209-249` | a compacted log replays to the very items it was compacted to |
| `OutboxLog.ReusedNumber` | `ama-agent/internal/reporter/outboxlog.go:53-56` | why the counter resumes past retired numbers: a reused one would make the loader return an item twice |
| `OutboxLog.WholeAppend` | `ama-agent/internal/reporter/outboxlog.go:156-168` | a whole append adds its record and leaves the log ready for the next |
| `OutboxLog.TornAppend` | `ama-agent/internal/reporter/outboxlog.go:77-104` | a crash at any byte of an append leaves a log that replays without the record, or with it once its last character is written |
| `OutboxLog.LoadOutbox` | `ama-agent/internal/reporter/outboxlog.go:80-134` | live items in enqueue order and the highest number seen |
| `OutboxLog.AppendLog.AppendAdd` | `ama-agent/internal/reporter/outboxlog.go:136-143` | a failed append writes nothing |
| `OutboxLog.AppendLog.AppendDel` | `ama-agent/internal/reporter/outboxlog.go:145-154` | only a written tombstone counts towards compaction |
| `OutboxLog.AppendLog.Compact` | `ama-agent/internal/reporter/outboxlog.go:187-207` | the log becomes the given live items, or stays as it was |
| `Outbox.EventOutbox.Open` | `ama-agent/internal/reporter/reporter.go:320-337` | queue, counter and dedupe window after a restart, the log compacted |
| `Outbox.EventOutbox.Enqueue` | `ama-agent/internal/reporter/reporter.go:339-362` | a suppressed event changes nothing; another is queued even if its append fails |
| `Outbox.EventOutbox.Drop` | `ama-agent/internal/reporter/reporter.go:415-422` | the first queued event with the number goes |
| `Outbox.EventOutbox.DeleteDelivered` | `ama-agent/internal/reporter/reporter.go:411-441` | queue, tombstone, and compaction to the queue when due |
| `Outbox.EventOutbox.Flush` | `ama-agent/internal/reporter/reporter.go:394-409` | events queued at the start are sent in order and deleted one by one, up to the first failed send |
| `Outbox.FlushIsARun` | `ama-agent/internal/reporter/reporter.go:394-441` | the flush method is a run of the machine below |
| `Outbox.StepKeeps` | `ama-agent/internal/reporter/reporter.go:344-441` | every enqueue, flush step, crash and restart keeps the log replaying to the events it owes |
| `Outbox.NothingLost` | `ama-agent/internal/reporter/reporter.go:344-441` | in every interleaving with crashes the log replays, in enqueue order, to enqueued events only, among them every durable one not yet confirmed, and beyond unconfirmed ones only confirmed ones without a tombstone; what is on disk unconfirmed is queued; no process confirms an event twice |
| `Outbox.GoneForGood` | `ama-agent/internal/reporter/reporter.go:411-441` | an event whose tombstone was written, or that neither log nor queue holds, is never replayed nor queued again |
| `Outbox.QueuedTwice` | `ama-agent/internal/reporter/reporter.go:344-362` | a run after which a restart leaves set and ring in disagreement: an id logged, a window of others that could not be, the id again, a crash |
| `Outbox.RestartRequeues` | `ama-agent/internal/reporter/outboxlog.go:53-75` | after a crash and a restart the queue is what the log replays to |
| `OutboxDedupe.EnqueueStep` | `ama-agent/internal/reporter/reporter.go:344-362` | an id in the dedupe set changes nothing; any other event adds one queued item, one mark and, if the append succeeds, one record |
| `OutboxDedupe.DroppedIff` | `ama-agent/internal/reporter/reporter.go:344-375` | in any run an enqueue is dropped if and only if the process has recorded its id, by reload or enqueue, and some occurrence survives in the window |
| `OutboxDedupe.RepeatDroppedIff` | `ama-agent/internal/reporter/reporter.go:344-375` | an id recorded before is dropped again exactly while fewer than a window's worth of ids follow it and no earlier copy of it has left the ring in between |
| `OutboxDedupe.TwiceInARow` | `ama-agent/internal/reporter/reporter.go:348-351` | the same event enqueued twice in a row: the second is always dropped |
| `OutboxDedupe.OncePerWindow` | `ama-agent/internal/reporter/reporter.go:344-375` | in a process that started from well-spaced ids an id is dropped for exactly one window |
| `OutboxCompaction.TombstonesBounded` | `ama-agent/internal/reporter/reporter.go:427-440` | as long as compactions reach the disk the log holds at most 256 tombstones, in every run |
| `OutboxCompaction.RewritesWhenFull` | `ama-agent/internal/reporter/reporter.go:427-440` | and settling a delivery rewrites it exactly when it holds that many |
| `Transport.SendQueue.SendConfirmed` | `ama-agent/internal/transport/transport.go:173-194` | nothing is accepted once closed; otherwise the job is buffered with an empty channel |
| `Transport.SendQueue.TrySend` | `ama-agent/internal/transport/transport.go:158-171` | a full buffer or a closed client drops the message |
| `Transport.SendQueue.Resolve` | `ama-agent/internal/transport/transport.go:196-203` | the answer goes to the waiter, if there is one |
| `Transport.SendQueue.PumpOne` | `ama-agent/internal/transport/transport.go:313-333` | the oldest job is taken, sent and answered; a failed send ends the pump |
| `Transport.SendQueue.DrainSendQueue` | `ama-agent/internal/transport/transport.go:205-218` | the buffer is emptied and every job in it failed |
| `Transport.StepKeeps` | `ama-agent/internal/transport/transport.go:266-350` | every step keeps each accepted job in one place, in order, and every waiter rightly told |
| `Transport.ExactlyOnce` | `ama-agent/internal/transport/transport.go:173-218` | in every interleaving each accepted job is in exactly one of settled, the pump's hand and the buffer; a waiter gets at most one answer, and success exactly for a job the pump put on the wire, each once and in order |
| `Transport.ReportHasRoom` | `ama-agent/internal/transport/transport.go:196-203` | a waiter's channel is empty when its answer arrives, so telling never blocks |
| `Transport.DrainFailsAll` | `ama-agent/internal/transport/transport.go:205-218` | a drain settles every buffered job with a failure and touches nothing else |
| `Transport.TearDownAnswersAll` | `ama-agent/internal/transport/transport.go:341-350` | after a teardown's drain every accepted confirmed send has its one answer |
| `Delivery.OnTheWireOrOnDisk` | `ama-agent/cmd/ama/main.go:405-409` | end to end: a confirmed event is on the wire, a durable one is on the wire or in the replayed log |
| `Delivery.DroppedOnlyOnceSeen` | `ama-agent/cmd/ama/main.go:518-545` | an event leaves the disk, or the queue of a live process, only after it is confirmed and on the wire |
| `Webhook.BackoffGrows` | `ams-server/app/services/alert_webhook.py:66-69` | the wait never shortens, starts at a minute and is an hour from the seventh failure on |
| `Webhook.NextDue` | `ams-server/app/services/alert_webhook.py:137-145` | the lockable due row that was due first |
| `Webhook.WebhookOutbox.SelectDue` | `ams-server/app/services/alert_webhook.py:137-159` | at most 20 due rows, earliest first, none locked elsewhere |
| `Webhook.WebhookOutbox.ReserveDue` | `ams-server/app/services/alert_webhook.py:126-170` | the selected rows and only they carry a fresh token and a lease |
| `Webhook.WebhookOutbox.Finalize` | `ams-server/app/services/alert_webhook.py:173-247` | owned delivered rows go, owned failures back off or are given up at the eighth, rows not owned stay as they are |
| `Webhook.WebhookOutbox.Sweep` | `ams-server/app/services/alert_webhook.py:250-280` | one drain as a whole: which rows it changed, how, and how many were delivered |
| `Webhook.OnlyTheHolder` | `ams-server/app/services/alert_webhook.py:173-247` | only the batch with a row's latest token changes its attempt or removes it, knows its attempt, and removes it only when delivered or at its eighth failure; settling adds no row |
| `Webhook.StaleBatchIsIdle` | `ams-server/app/services/alert_webhook.py:181-183` | a batch whose leases were all taken over settles nothing |
| `Webhook.BudgetFalls` | `ams-server/app/services/alert_webhook.py:202-223` | settling an owned row strictly lowers the sum of eight minus attempt |
| `Webhook.EveryRowAccountedFor` | `ams-server/app/services/alert_webhook.py:126-247` | over every run each staged row is present with as many failures as its attempt, at most seven, or was delivered, or was dropped at its eighth; at most eight owned settlings per row |
| `WebhookLease.LeaseHolds` | `ams-server/app/services/alert_webhook.py:146-170` | a leased row is reserved by nobody else before the lease ends, whatever the instances do, unless its own batch settles it |
| `WebhookLease.BackoffHolds` | `ams-server/app/services/alert_webhook.py:202-223` | a failed row is reserved by nobody before its backoff is over |
| `WebhookLease.LeftAlone` | `ams-server/app/services/alert_webhook.py:126-247` | until it is due a row stays exactly as it is |
| `BillingDay.AggregateDay` | `ams-server/app/services/billing.py:71-108` | the loop's payload describes its rows |
| `BillingDay.AggregateDescribes` | `ams-server/app/services/billing.py:71-108` | distinct billable account ids ascending, distinct servers, well-formed snapshots, the highest utilization |
| `BillingDay.RowOrderIrrelevant` | `ams-server/app/services/billing.py:71-108` | the payload does not depend on row order |
| `BillingDay.AscendingUnique` | `ams-server/app/services/billing.py:104` | sorting leaves one possible list |
| `Billing.BillingDb.FirstReported` | `ams-server/app/services/billing.py:129-136` | the earliest usage row |
| `Billing.BillingDb.GroupByTenant` | `ams-server/app/services/billing.py:236-250` | a day's usage rows by tenant |
| `Billing.BillingDb.DayValues` | `ams-server/app/services/billing.py:251-264` | one event per tenant with a well-formed snapshot that day |
| `Billing.BillingDb.ClosedDays` | `ams-server/app/services/billing.py:232-265` | the day loop gathers every closed day |
| `Billing.BillingDb.Insert` | `ams-server/app/services/billing.py:267-279` | conflicting rows are left out and not counted |
| `Billing.BillingDb.SweepBilling` | `ams-server/app/services/billing.py:111-293` | one sweep: idle, rewound, or advanced |
| `Billing.BatchIndependent` | `ams-server/app/services/billing.py:227-293` | over a fixed ledger any chain of sweeps through closed days ends as one sweep to the last |
| `Billing.OneEventPerTenantDay` | `ams-server/app/services/billing.py:232-279` | an advancing sweep creates exactly the events of tenant-days with a well-formed snapshot past the watermark and leaves others alone |
| `Billing.ClockJumpSafety` | `ams-server/app/services/billing.py:118-211` | under any clock the purge mark stays at or below the watermark and every daily event was aggregated from all rows reported by then, never from survivors of a purge |
| `Billing.PurgedDaysStaySealed` | `ams-server/app/services/billing.py:174-200` | a sweep bills no day below the purge mark, and none that ended less than the grace period ago |
| `Billing.EventsNeverChange` | `ams-server/app/services/billing.py:267-279` | over any further steps an event keeps its payload; export is all that happens to it |
| `Billing.RewindHeals` | `ams-server/app/services/billing.py:167-208` | after a forward clock step one idle sweep brings the watermark back and the next bills every reopened day once |
| `BillingCoverage.SweepCovers` | `ams-server/app/services/billing.py:118-279` | from the watermark on, or from the first usage snapshot, a sweep leaves an event for exactly the tenant-days with a readable snapshot that ended at least the grace period ago |
| `BillingCoverage.EventLists` | `ams-server/app/services/billing.py:71-108` | a day's event lists, each once and in order, exactly the accounts that some readable snapshot of the tenant reports as allocated that day |
| `BillingCoverage.WatermarkLands` | `ams-server/app/services/billing.py:118-208` | a sweep leaves the watermark at the newest midnight a grace period back, or at the purge mark if that is ahead |
| `Billing.BillingDb.Retain` | `ams-server/app/services/usage_cost.py:442-527` | settled rows past retention go, and the mark rises to the next midnight |
| `BillingCoverage.DeletesExactly` | `ams-server/app/services/usage_cost.py:461-502` | retention deletes exactly the usage rows past their time, below both watermarks, that it got to |
| `BillingCoverage.MarkCoversDeleted` | `ams-server/app/services/usage_cost.py:503-527` | every deleted row is older than the mark it leaves |
| `Billing.BillingDb.ExportBillingEvent` | `ams-server/app/services/billing.py:331-342` | pending becomes exported once |
| `BillingCoverage.ExportsOwnOnly` | `ams-server/app/services/billing.py:331-342` | export marks the tenant's own event and touches nothing else |
| `Billing.BillingDb.VoidBillingEvent` | `ams-server/app/services/billing.py:366-448` | which voids are refused and what an accepted one inserts |
| `Billing.VoidOnce` | `ams-server/app/services/billing.py:366-448` | a void changes no existing event, reverses exactly the exported aggregate, and a second one changes nothing |
| `BillingCoverage.VoidsExactly` | `ams-server/app/services/billing.py:366-448` | in any run a void is accepted exactly for the tenant's own exported daily event not voided before, and then adds the reversal and, if the day still has a readable snapshot, its new aggregate; nothing else changes |
| `Alerts.AlertStore.Find` | `ams-server/app/services/alerts.py:149-151` | the first alert of a key in a status |
| `Alerts.AlertStore.StageWebhook` | `ams-server/app/services/alerts.py:78-107` | staging is configured or does nothing |
| `Alerts.AlertStore.Open` | `ams-server/app/services/alerts.py:127-190` | acknowledged and open alerts are refreshed, only a new one is inserted and staged |
| `Alerts.AlertStore.Close` | `ams-server/app/services/alerts.py:193-214` | every matching active alert is resolved and staged, no other is touched |
| `Alerts.AlertStore.SyncFromReport` | `ams-server/app/services/alerts.py:307-352` | one report's opens and resolves |
| `Alerts.AlertStore.SyncWatermarkFuture` | `ams-server/app/services/alerts.py:437-479` | raised per tenant while the watermark is ahead, resolved otherwise |
| `Alerts.AlertStore.AckAlert` | `ams-server/app/services/inventory.py:879-895` | another tenant's alert is not found, a resolved one refused |
| `Alerts.OpKeeps` | `ams-server/app/services/alerts.py:127-606` | every open, resolve, sync and acknowledge keeps one active alert a key and the staged history |
| `Alerts.TransitionHistory` | `ams-server/app/services/alerts.py:78-214` | over all serial runs each key has at most one active alert and each alert has staged its opening while active, opening and resolution afterwards |
| `Alerts.DriftAfterReport` | `ams-server/app/services/alerts.py:286-352` | after a report the accounts with an active drift alert on its server are exactly those it reported |
| `AlertEffects.OpensExactly` | `ams-server/app/services/alerts.py:127-190` | an opening renews the active alert of its key, with the new detail and snapshot and nothing else changed, and adds and stages a new one only when there is none |
| `AlertEffects.ResolvesExactly` | `ams-server/app/services/alerts.py:193-283` | a resolve closes exactly the active alerts it is about, spelled out over their fields, and reports each with its own |
| `AlertEffects.ReportClosesExactly` | `ams-server/app/services/alerts.py:286-352` | a report closes the server's exhaustion alert when it is not exhausted and its drift alerts about accounts it does not list, no others |
| `AlertEffects.ExhaustionAfterReport` | `ams-server/app/services/alerts.py:307-352` | an exhausted report leaves an active exhaustion alert |
| `AlertEffects.ReliefAfterReport` | `ams-server/app/services/alerts.py:307-352` | a report that is not exhausted leaves none |
| `AlertEffects.WatermarkAhead` | `ams-server/app/services/alerts.py:437-479` | while the watermark is ahead every listed tenant has an active alert |
| `AlertEffects.WatermarkBack` | `ams-server/app/services/alerts.py:437-479` | once it is not, exactly the listed tenants' alerts about it are closed |
| `AlertEffects.AcksExactly` | `ams-server/app/services/inventory.py:879-895` | acknowledging turns the tenant's own open alert into an acknowledged one, or changes nothing |
| `AppliedLog.AppliedRing.Append` | `ama-agent/internal/store/applied.go:79-92` | an entry counts in memory even when its write fails; the ring keeps 128 |
| `AppliedLog.AppliedRing.Find` | `ama-agent/internal/store/applied.go:107-117` | the most recent entry of a command |
| `AppliedLog.AppliedRing.RecentIDs` | `ama-agent/internal/store/applied.go:119-138` | ids newest first, duplicates at their newest use |
| `AppliedLog.RecentIdsAre` | `ama-agent/internal/store/applied.go:119-138` | they are distinct and exactly the ids a lookup finds |
| `AppliedLog.KeptThrough` | `ama-agent/internal/store/applied.go:30-33` | a durably logged command is found as logged through restarts and failed writes, until a ring's worth of others follows |
| `AppliedLog.ForgottenAfterRing` | `ama-agent/internal/store/applied.go:15-17` | 128 other entries forget it |
| `SelfUpdate.Updater.SwapAndRestart` | `ama-agent/internal/command/selfupdate.go:358-440` | the swap with every operation able to fail, and every state the disk passes through |
| `SelfUpdate.SurvivesEverywhere` | `ama-agent/internal/command/selfupdate.go:358-440` | whatever fails and wherever it stops, an intact binary is at the binary path or its backup |
| `SelfUpdate.EndingsInstall` | `ama-agent/internal/command/selfupdate.go:362-397` | which binary each ending leaves installed; a restored failure leaves the old one |
| `SelfUpdate.ExecOnlyWhenLogged` | `ama-agent/internal/command/selfupdate.go:379-397` | the restart is reached only with the command durably logged as converged |
| `SelfUpdate.DivergedIsRetried` | `ama-agent/internal/command/selfupdate.go:484-491` | a diverged swap is not taken for an applied one, so a re-issue gets a real retry |
| `SelfUpdate.LogNeverAheadOfBinary` | `ama-agent/internal/command/selfupdate.go:194-200` | the disk never calls the command applied before the new binary is installed |
| `SelfUpdate.SurvivesHistory` | `ama-agent/internal/command/selfupdate.go:358-440` | over any history of updates, crashes at any point and starts an intact binary is at the binary path or its backup, also in the middle of every update, as long as no update comes while the binary path is empty |
| `SelfUpdate.LostIff` | `ama-agent/internal/command/selfupdate.go:362-367` | exactly when an update leaves neither: it comes while the binary path is empty, gets past the gate and the acquisition, and removes the backup |
| `SelfUpdate.MissingOnlyAfter` | `ama-agent/internal/command/selfupdate.go:368-374` | a running agent is without a binary exactly after an install that failed together with its restore |
| `SelfUpdate.RetryLosesBinary` | `ama-agent/internal/command/selfupdate.go:362-374` | the retry of such an update then clears away the last intact binary |
| `SelfUpdate.NoSecondSwap` | `ama-agent/internal/command/selfupdate.go:206-211` | a re-queued command still among the last 128 entries touches no file |
| `Pools.Bridge.Add` | `ama-agent/internal/tsamx/fake.go:79-100` | a captured account is in the pool with its flag, and live |
| `Pools.Bridge.Remove` | `ama-agent/internal/tsamx/fake.go:102-121` | an absent account is no error |
| `Pools.Bridge.SetEnabled` | `ama-agent/internal/tsamx/fake.go:123-143` | only the named account's flag changes |
| `Pools.Bridge.Switch` | `ama-agent/internal/tsamx/fake.go:145-155` | only an account in the pool can become live |
| `Pools.AddedKeeps` | `ama-agent/internal/tsamx/fake.go:79-100` | adding keeps the pool valid and every other account as it was |
| `Pools.RemovedKeeps` | `ama-agent/internal/tsamx/fake.go:102-121` | removing leaves no trace of the account and moves no one else |
| `Pools.Bridge.OtherSwitchTarget` | `ama-agent/internal/command/handlers.go:256-278` | the first enabled other account, else the first other one |
| `CommandEngine.Engine.Handle` | `ama-agent/internal/command/command.go:252-304` | signature, recipient and freshness come before any handler |
| `CommandEngine.Engine.HandleDeliver` | `ama-agent/internal/command/handlers.go:79-193` | every early answer of a deliver, in order |
| `CommandEngine.Engine.InstallAccount` | `ama-agent/internal/command/handlers.go:195-254` | add, then back to the account that was live |
| `CommandEngine.Engine.HandleRecall` | `ama-agent/internal/command/handlers.go:302-384` | recall with its replay gate |
| `CommandEngine.Engine.PurgeAccount` | `ama-agent/internal/command/handlers.go:331-367` | move the runner away, remove, forget |
| `CommandEngine.Engine.HandleSetActive` | `ama-agent/internal/command/handlers.go:386-439` | enable or disable with its replay gate |
| `CommandEngine.Engine.HandleSetPolicy` | `ama-agent/internal/command/handlers.go:475-537` | stale policies are answered without effect |
| `CommandEngine.Engine.InjectPolicy` | `ama-agent/internal/command/handlers.go:498-533` | settings are injected one after the other up to the first that fails |
| `Commands.HandleKeeps` | `ama-agent/internal/command/handlers.go:79-537` | every command, whatever the pool calls do, keeps the pools valid and the ring bounded |
| `Commands.DeliverKeepsLive` | `ama-agent/internal/command/handlers.go:195-254` | in any history a converged deliver leaves the runner where it was, or on the delivered account if it was nowhere, with record, flag and all other accounts as they should be |
| `Commands.MovesIff` | `ama-agent/internal/command/handlers.go:195-254` | exactly which attempts of a deliver leave the runner elsewhere than they found it |
| `Commands.RetriesKeepLive` | `ama-agent/internal/command/handlers.go:79-254` | over any number of attempts of one deliver the runner stays, as long as none of them moves it |
| `Commands.RetryRestoresIff` | `ama-agent/internal/command/handlers.go:141-254` | a retry that converges leaves the runner where the attempt before left it, or on the delivered account if it finds nothing live; a runner live elsewhere before the first attempt ends there if and only if that attempt did not move it |
| `Commands.FailedRestoreSticks` | `ama-agent/internal/command/handlers.go:141-246` | an input where it did: the switch back fails, and the re-queued command is answered as converged with the runner on the delivered account |
| `Commands.PurgeLeavesNothing` | `ama-agent/internal/command/handlers.go:331-367` | in any history a converged purge that ran leaves the account in neither pool nor manifest |
| `Commands.PurgeMovesRunner` | `ama-agent/internal/command/handlers.go:332-357` | purging the live account moves the runner to the best other one; purging another never moves it; with no email, nothing live counts as live |
| `Commands.PurgeRecordedIff` | `ama-agent/internal/command/handlers.go:331-362` | a converged purge drops the record it names by id; the recorded account's slot goes too if and only if the command names that slot by email, or there was none |
| `Commands.NamelessPurge` | `ama-agent/internal/command/handlers.go:302-367` | an input where it stays: a reference without email while nothing is live, which also moves the runner onto another account |
| `Commands.ToggleSetsBoth` | `ama-agent/internal/command/handlers.go:417-438` | flag and record agree after a converged enable or disable, and the runner stays |
| `CommandEffects.SwitchesAccount` | `ama-agent/internal/command/handlers.go:302-438` | a recall without purge switches the account off, an enable or disable as it says, in the pool and in its record, with the runner, every other account, record and pool as before; it converges exactly when the pool call works and the record can be written |
| `CommandEffects.PurgeFrame` | `ama-agent/internal/command/handlers.go:331-367` | a converged purge takes the account's record and its slot and no other |
| `CommandEffects.PurgeConvergesIff` | `ama-agent/internal/command/handlers.go:331-367` | exactly when a purge converges |
| `CommandEffects.DeliverFrame` | `ama-agent/internal/command/handlers.go:141-193` | a converged deliver writes the account's record as delivered and no other, and touches no other pool |
| `CommandEffects.DeliverConvergesIff` | `ama-agent/internal/command/handlers.go:79-254` | exactly when a deliver converges |
| `Commands.RefusalsChangeNothing` | `ama-agent/internal/command/command.go:265-280` | a rejected command changes nothing, not even the log; an unregistered provider touches neither pool nor manifest |
| `Commands.ReplayHasNoEffect` | `ama-agent/internal/command/command.go:368-376` | replaying a converged recall or toggle within 128 other events has no effect whatsoever |
| `Commands.RewindIff` | `ama-agent/internal/command/handlers.go:475-533` | exactly when handling a command leaves a setting to an older policy than before, with that policy's value: it passes the gate, is older, gets as far as the setting, and no policy newer than it has converged in full |
| `Commands.NeverRewinds` | `ama-agent/internal/command/handlers.go:479-496` | in a history without half-applied policies for a setting the policy in force for it never gets older |
| `Commands.LateSettingsNeverRewind` | `ama-agent/internal/command/handlers.go:516-533` | for hysteresis and strategy, set last, that holds in any history |
| `Commands.HalfAppliedRewinds` | `ama-agent/internal/command/handlers.go:498-533` | two commands, the second older and answered as converged, after which threshold or cooldown has the older value |
| `Manifest.Store.Upsert` | `ama-agent/internal/store/manifest.go:159-190` | no record is written without an active key |
| `Manifest.Store.UpdateBaseline` | `ama-agent/internal/store/manifest.go:192-233` | only the seal of a present record changes |
| `Manifest.Store.SetStatus` | `ama-agent/internal/store/manifest.go:286-297` | an absent record is reported, not created |
| `Manifest.Store.Remove` | `ama-agent/internal/store/manifest.go:299-308` | absence is success |
| `Manifest.Store.OpenCredential` | `ama-agent/internal/store/manifest.go:235-250` | nothing opens without the record's key |
| `Manifest.BaselinesChangeSealsOnly` | `ama-agent/internal/store/manifest.go:192-202` | leaving all re-syncs out of any run gives the same accounts, metadata and status: none resurrects a purged account |
| `Manifest.OpensLastSealed` | `ama-agent/internal/store/manifest.go:235-250` | an account opens to the plaintext last sealed for it, exactly while its key is held, and its fingerprint is that plaintext's |
| `Manifest.StatusGiven` | `ama-agent/internal/store/manifest.go:286-297` | a status change gives the record that status and leaves account and seal |
| `Manifest.UpsertGiven` | `ama-agent/internal/store/manifest.go:159-190` | a delivered record carries what was delivered under the active key; no other record changes |
| `Manifest.RemovalTakes` | `ama-agent/internal/store/manifest.go:299-308` | a removal takes the record and no other |
| `Manifest.KeysGiven` | `ama-agent/internal/store/kek.go:18-85` | keys come and go without touching a record; only a held key becomes active, and a revoked one is neither held nor active |
| `DekCache.Cache.Get` | `ams-server/app/core/kek.py:203-213` | a hit moves to the back, an expired entry goes |
| `DekCache.Cache.Put` | `ams-server/app/core/kek.py:215-220` | the newest entries up to the bound stay |
| `DekCache.Cache.Invalidate` | `ams-server/app/core/kek.py:222-229` | one version, or every version of the tenant |
| `DekCache.Cache.UnwrapCached` | `ams-server/app/core/kek.py:249-259` | from the cache, or unwrapped and remembered; a failure is not remembered |
| `DekCache.AgreesWithUnwrapping` | `ams-server/app/core/kek.py:189-259` | after any run a lookup answers what unwrapping the stored row answers, the bound holds, and no hit is past its expiry |
| `DekCache.EvictsLeastRecent` | `ams-server/app/core/kek.py:215-220` | what a put pushes out was used longer ago than everything it keeps |
| `DekCache.PutDropsAtMostOne` | `ams-server/app/core/kek.py:215-220` | only a full cache drops an entry, and one only |
| `DekCache.InvalidatesExactly` | `ams-server/app/core/kek.py:222-229` | exactly the version, or the tenant's versions, are gone |
| `DekCache.HitsUntilExpiry` | `ams-server/app/core/kek.py:203-220` | a key put in is answered until its time is over and not a moment longer |
| `Crypto.ActiveIsHighest` | `ams-server/app/core/kek.py:302-312` | the active key is the live one with the highest version |
| `Crypto.ByVersionIs` | `ams-server/app/core/kek.py:315-323` | a stored version is found as stored |
| `Crypto.RotationKeeps` | `ams-server/app/core/kek.py:267-285` | a rotation keeps every old version readable |
| `Crypto.EnvelopeSplits` | `ams-server/app/core/crypto.py:99-104` | the envelope text splits back into its version, nonce and ciphertext |
| `Crypto.FormatFollowsFlag` | `ams-server/app/core/crypto.py:53-69` | the write flag alone decides the format, and the prefix tells |
| `Crypto.RoundTrip` | `ams-server/app/core/crypto.py:53-119` | what was written under either flag reads back, whatever the flag by then and however often keys rotated since, as long as old versions are kept |
| `Crypto.WhenWritingFails` | `ams-server/app/core/crypto.py:60-62` | writing fails only with the flag on and no usable active key |
| `Rewrap.PlanPreservesText` | `ams-server/scripts/rewrap_secrets.py:74-101` | what a sweep writes opens to what it read, in the wanted format |
| `Rewrap.SwapPreservesText` | `ams-server/scripts/rewrap_secrets.py:105-113` | a sweep's write leaves every row's plaintext as it was just before |
| `Rewrap.NeverRevives` | `ams-server/scripts/rewrap_secrets.py:65-117` | in every interleaving of sweeps in both directions, writers and rotations, each row opens to what its last genuine writer stored |
| `Rewrap.CountersBalance` | `ams-server/scripts/rewrap_secrets.py:57-117` | scanned is rewrapped plus skipped plus raced plus failed, and one more exactly when the sweep meets a readable legacy secret whose tenant has no usable key |
| `Rewrap.AbortsIff` | `ams-server/scripts/rewrap_secrets.py:74-95` | a sweep stops early if and only if it is a forward one with the write flag on and meets such a secret |
| `Rewrap.KeylessAborts` | `ams-server/scripts/rewrap_secrets.py:74-95` | such an input: one scanned account, counted nowhere |
| `Rewrap.ReverseNeverAborts` | `ams-server/scripts/rewrap_secrets.py:87-95` | a reverse sweep never aborts |
| `RewrapSweep.ConvertsAccount` | `ams-server/scripts/rewrap_secrets.py:74-117` | a readable account in the old format is converted, same plaintext in the wanted format, and counted; if its secret changed since the read it is left alone and counted as raced |
| `RewrapSweep.LeavesAccount` | `ams-server/scripts/rewrap_secrets.py:66-85` | an empty account does not count, one in the wanted format is skipped, an unreadable one fails, and none is touched |
| `RewrapSweep.UndisturbedSweep` | `ams-server/scripts/rewrap_secrets.py:41-117` | an undisturbed sweep converts every readable account whose tenant has a usable key, touches nothing else and reports exactly as many |
| `RewrapSweep.DryRunWritesNothing` | `ams-server/scripts/rewrap_secrets.py:102-104` | a dry run writes nothing |
| `Rewrap.CredentialTable.CompareAndSwap` | `ams-server/scripts/rewrap_secrets.py:105-113` | a write lands only on the exact value read |
| `Rewrap.CredentialTable.RewrapOne` | `ams-server/scripts/rewrap_secrets.py:65-117` | one account in its own transaction |
| `Rewrap.CredentialTable.RewrapAll` | `ams-server/scripts/rewrap_secrets.py:41-117` | the refusal without the flag, and the sweep |

## Left out

Weaker than the code, member by member:

- HookSessions.HookSession.ReadNewJsonl: reads characters, not bytes, so a multi-byte character cut by a read, which the code replaces, does not occur; decoding one line into a row is a parameter, and rows that are not objects are dropped by it. The emission progress a shrunken file also resets belongs to the firings of `EmissionOnce` and is not part of this state.
- WholeSession.SessionEquivalent: asks that every notification names a tool call by what is known when it is read, and comes in time; one whose task id becomes known only at a later run goes through the stash, of which `Routing.ResolveConserves` speaks. Without that it is false; exactly when is settled for two batches (`Assembly.Resume`) and for a run that reads one row (`WholeSession.UnownedIff`). The file does not shrink between the runs.
- WholeSession.OpenFiringsEquivalent: likewise.
- SessionEmission.EmittedOnce: likewise, for turns whose user row has a uuid no other turn has; turns without one emit everything when they close.
- QuietSessions.EmittedInOrder: is about transcripts without notifications, since released turns are emitted out of order.
- Session.NumberingSafe: says nothing of turns without a uuid, whose fallback numbers are not stored.
- EmissionOnce.ExactlyOnce: emission calls succeed; spans, timestamps, tags and metadata are reduced to the emitted keys. Workflow-agent keys appear only as an upper bound, because their transcripts may be replaced between firings.
- BoundedReader.ReadLines: works on the decoded characters of each chunk.
- UsageProofs.PayloadConserves: decoding one line into a message, its time stamp included, is a parameter.
- Outbox.NothingLost: a failed append writes nothing, a compaction happens whole or not at all, and every record is shorter than the replay scanner's limit of one mebibyte. An outbox kept in memory only, and directory errors on opening, are not modelled.
- Outbox.EventOutbox.Flush: the outcome of each send is a parameter; the concurrent enqueues a real flush overlaps with are steps of `Outbox.NothingLost`.
- OutboxLog.AppendLog.AppendAdd: a partial write that fails inside a running process does not occur; a crash in the middle of a write does (`OutboxLog.TornAppend`).
- OutboxLog.AppendLog.AppendDel: likewise.
- OutboxLog.AppendLog.Compact: a rewrite that succeeds and cannot be reopened does not occur.
- OutboxLog.LoadOutbox: the JSON text of a record is a parameter with the law that decoding inverts encoding.
- Transport.ExactlyOnce: safety only; that anyone waiting is answered eventually is not claimed, since a connect that flushes can wait on a pump not yet started. The receive side and reconnect delays are not modelled.
- OutboxDedupe.OncePerWindow: starts from ids that stand a window apart; from others an id can leave the set early, exactly when is `OutboxDedupe.RepeatDroppedIff`.
- OutboxCompaction.TombstonesBounded: asks that compactions reach the disk; while they fail the log grows.
- TurnMessages.MessagesTold: is about message ids that do not begin like the fallback id; of rows without one `EmissionOnce.KeysKeepIff` speaks.
- RewrapSweep.UndisturbedSweep: nobody else writes meanwhile and no key is missing; what happens otherwise is `RewrapSweep.ConvertsAccount` and `Rewrap.AbortsIff`.
- UsageLabels.BucketTold: says nothing of the shared fold bucket and the fold label, which take what had no room.
- Webhook.WebhookOutbox.Finalize: is one atomic step, although its ownership query takes no row lock. Signing and the HTTP exchange are a parameter saying which posts succeed; the alert about dropped webhooks is left to the returned list of rows given up.
- Billing.BillingDb.Retain: is one atomic step, and the rollup's own watermark and the rows it spares are parameters.
- Billing.BillingDb.VoidBillingEvent: events are keyed by tenant, kind and day instead of by a generated id; audit rows are not modelled.
- BillingDay.AggregateDay: utilization is a real number, so NaN does not occur.
- Alerts.TransitionHistory: operations run one at a time; dedupe keys are structured values instead of joined text; the offline sweep, severities beyond storage, and timestamps are not modelled. Alerts about dropped webhooks stage nothing and are excluded.
- Alerts.AlertStore.AckAlert: who acknowledged and when is not stored.
- Commands.HandleKeeps: covers deliver, recall, set-active and set-policy; session setup, mode changes, switch-now, report requests and the account state attached to acknowledgements are not modelled. Opening the sealed credential and checking the signature are parameters.
- CommandEngine.Engine.Handle: dispatches those four kinds only.
- Commands.DeliverKeepsLive: the pool is the in-memory one, its map and order kept as one sequence without duplicates; a failing call may leave the pool in any valid shape.
- Commands.NeverRewinds: excludes histories that half-apply the setting, where it is false (`Commands.HalfAppliedRewinds`).
- Commands.RetriesKeepLive: excludes attempts that move the runner, where it is false (`Commands.FailedRestoreSticks`).
- SelfUpdate.SurvivesEverywhere: acquiring and vetting the new binary is one step that yields a version or fails; sending the acknowledgement, reinstalling `tsamx` and the commit pin are not modelled.
- AppliedLog.KeptThrough: the text of the ring file is not modelled; a write replaces it whole or not at all.
- Manifest.OpensLastSealed: every write of the manifest file succeeds whole; restarts are not modelled.
- Crypto.RoundTrip: AES-GCM, Fernet, base64 and decimal parsing are parameters with the law that decoding inverts encoding.
- DekCache.AgreesWithUnwrapping: stored key rows do not change, and one thread at a time uses the cache.
- Rewrap.NeverRevives: argument parsing and the filter for one tenant are not modelled.
- Rewrap.AbortsIff: the keys do not change while one sweep counts; other writers may.

Not modelled at all:

- the pool summary of usage reports: counters over nested loops, without state between calls
- the seat switcher, account pool automation, command outbox sweeps and the usage-cost rollup
- gRPC, HTTP, TLS, process start and file locks, beyond succeeding or failing
- SQL, migrations, request schemas, authentication and the admin operations
- the guard hook for dangerous commands, metrics, pagination, configuration and the console
