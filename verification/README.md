# teammate-mcp: the messaging protocol, modelled and proved

teammate-mcp passes messages between Claude panes and Codex threads through files.
Senders, a Codex worker, channel pumps, a watchdog, two drain hooks and the
receivers are separate processes. They share no memory: they coordinate by atomic
renames, `flock` locks, leases that run out, and small state files, and each of them
may die between any two file operations. This project models those processes and
proves what docs/reliable-conversations.md promises of them, and where a promise
stops, under exactly which condition it holds.

Each protocol is a state machine: the files, the locks, where every process stands,
and a history of what was really sent. A run is any sequence of enabled steps, so
every interleaving and every crash is a run, and the theorems speak about all runs.
The operations themselves are written as the programs they are, classes and methods
with loops. `deliver_record`, `retry_delivery`, `reply`, the channel scan and the direct sender are proved to be runs of
their machine whatever other processes do between their lines (the `gaps`
parameters), and to compute exactly the stated outcome if nobody does anything.

| module | what it holds |
|---|---|
| `Prelude`, `Mail`, `Text` | shared datatypes, message records, Python's string functions |
| `CodexDelivery` | delivery of one question to a Codex thread: workers, manual retries, receipts, clock, archiving, crashes |
| `CodexLifetime` | how often a question can fail over its whole life |
| `CodexTransport` | which app-server request a delivery may send; matching responses to requests |
| `MailboxWorker`, `ManualRetry` | `deliver_record` and `retry_delivery` as programs that refine `CodexDelivery` |
| `Backoff` | the worker's scan of a label and the connection backoff |
| `Receipts`, `MailboxFiles` | the receipt merge; every file operation of one job on the mailbox and native-channel transports |
| `Reply`, `ReplyCall` | the protocol of `reply`, and `reply` as a program that refines it |
| `Conversation` | reply chains and the search for the question being answered |
| `Registry`, `RegistryRuns` | the label registry as a program, and what all sequences of its calls keep |
| `Addressing` | registry, mailboxes, senders and workers of all labels together |
| `ChannelPump`, `ChannelScan` | the native channel: handshake, fencing, marks; the scan loop as a program that refines it |
| `PaneDelivery`, `PaneSend` | one pane message among sender, watchdogs and hooks; the direct sender as a program that refines it |
| `PaneMailbox` | many pane messages under drains and wakes |
| `Compose`, `ComposeLines` | reading typed text from a screen: the round trip, and what each line test and cleaner means |
| `CaptureFrames`, `Utf8` | the other parsers and their inverses |

## What the proofs found

- A receipt that dies between storing the processed file and removing the inbox file
  leaves both. The next receipt reads the inbox copy (src/teammate_mcp/server.py:222),
  and a weaker acknowledgement then drops the stored answer, although
  docs/reliable-conversations.md:12 says that completed answers survive.
  `MailboxFiles.AnswerKeptIffInboxGone` gives the exact condition,
  `Receipts.CrashedReceiptLosesAnswer` the concrete case, and
  `MailboxFiles.AnswerSurvives` shows that one receipt run to its end restores the promise.
- Two overlapping channel scans can notify one message twice, because the mark of an
  earlier scan is looked at outside the lock (`ChannelPump.OverlapDuplicates`).
  `ChannelPump.MarkIsSafeIffUnrivalled` gives the exact condition: a mark is safe if and
  only if nobody has notified the message or has marked it and is about to. Scans that
  exclude each other meet it, and so would a second look at the record under the lock.
- A pane message can be surfaced twice if a lease runs out while its owner still runs
  (`PaneDelivery.ExpiredLeaseDuplicates`). `PaneDelivery.ClaimIsSafeIffSenderGone` gives
  the exact condition: a watchdog's or a hook's claim is safe if and only if the direct
  sender has finished or died, which is the guard the lease stands for.
- A blank line inside typed text is lost when the text is read back from the screen;
  `Compose.ComposeRoundTrip` shows that nothing else is.
- A `waiting` result forgets earlier failures. Three attempts is the bound between two
  resets (`CodexDelivery.AtMostThreeFailures`), not of a question's life: a question whose
  thread fails a probe and is then found busy, over and over, fails any number of times
  (`CodexLifetime.WaitingResetsForEver`). The count carries on from one failure to the next
  if and only if no reset lies between them (`CodexLifetime.CountContinuesIffNoReset`).
- A connection that breaks after it was established continues the old backoff
  although the state file was cleared in between; a worker that dies there starts it
  over. A delay shrinks if and only if the backoff was cleared since the failure before
  (`Backoff.ShrinksIffCleared`).

## Model

| member | source | states |
|---|---|---|
| CodexDelivery.StepKeeps | src/teammate_mcp/mailbox_worker.py:44-105 | every step of every worker, manual retry and receipt, every clock tick, archiving and crash keeps the invariant that ties locks, state file, inbox file and dispatch history together |
| CodexDelivery.AtMostOneDispatch | src/teammate_mcp/mailbox_worker.py:52-105 | of any two dispatches of one question in any run at least one was explicitly rejected by the app-server |
| CodexDelivery.StoredStateIsTruthful | src/teammate_mcp/mailbox_worker.py:52-105 | `delivered` means an accepted dispatch, `processed` a removed inbox file and no unrejected dispatch, `dispatching` and `uncertain` at most one of unknown outcome, and every state that permits another attempt that all dispatches so far were rejected |
| CodexDelivery.DispatchesGoToTheOwner | src/teammate_mcp/mailbox_worker.py:57-60 | every dispatch goes to the recipient recorded when the question was accepted, whatever endpoint the worker was started for |
| CodexDelivery.ReceiptsExcludeDispatches | src/teammate_mcp/mailbox_worker.py:72-104 | while a request is about to go out or its outcome is pending, no receipt of the question is running or has completed, and no other worker is on it |
| CodexDelivery.AttemptsArePaced | src/teammate_mcp/mailbox_worker.py:89-105 | the whole history of attempts obeys the retry schedule, and after a third failure the stored state is terminal |
| CodexDelivery.AtMostThreeFailures | src/teammate_mcp/mailbox_worker.py:91-97 | between two resets (a `waiting` result or a manual retry) at most three attempts fail |
| CodexDelivery.AttemptsBackOff | src/teammate_mcp/mailbox_worker.py:98-99 | the attempt after failure n starts at least 2^n seconds later |
| CodexLifetime.LifetimeBound | src/teammate_mcp/mailbox_worker.py:89-105 | in any run a question fails at most three times more than three times the number of its resets |
| CodexLifetime.CountContinuesIffNoReset | src/teammate_mcp/mailbox_worker.py:91-105 | of two failures in a row the second carries on the count if and only if no `waiting` result or manual retry lies between them, else it starts over at one |
| CodexLifetime.WaitingResetsForEver | src/teammate_mcp/mailbox_worker.py:105 | for every n there is a run without any manual retry in which a question fails n times |
| CodexLifetime.OnlyThirdErrorFails | src/teammate_mcp/mailbox_worker.py:89-97 | in every run without ValueErrors and with workers of the owner, a question is stored as failed only after its third failure since the last reset |
| CodexTransport.InProgressIsFirst | src/teammate_mcp/codex_transport.py:75-77 | the turn to steer is the first one in progress, and none is found only if none is in progress |
| CodexTransport.NeverInterrupts | src/teammate_mcp/codex_transport.py:57-83 | a turn is started only on a thread that the probe found idle and open to direct input; a thread the probe found active is steered only under the immediate policy and only in its turn in progress, and otherwise left waiting |
| CodexTransport.PlanIff | src/teammate_mcp/codex_transport.py:57-83 | each of the four plans if and only if the policy, the probed thread and its turns call for it |
| CodexTransport.AppServer.Request | src/teammate_mcp/codex_transport.py:39-50 | the request is answered exactly as the server answers its id: an error is raised if and only if the server answered with an error, a result returned if and only if it answered otherwise, and a timeout only if it did not answer, whatever else is on the wire |
| CodexTransport.AppServer.Session | src/teammate_mcp/codex_transport.py:39-50 | over any sequence of requests with timeouts the outcome of request k is the server's answer to request k, error or result, never a late answer to an earlier one |
| MailboxWorker.Job.DeliverRecord | src/teammate_mcp/mailbox_worker.py:44-105 | a call of `deliver_record`, with other actors moving between its lines, is a run of the delivery protocol; undisturbed it does nothing unless the question is due, and else leaves exactly the state file and dispatch that owner, probe, policy, receipt lock, registry and answer call for |
| MailboxWorker.StoredOutcome | src/teammate_mcp/mailbox_worker.py:58-105 | what an undisturbed attempt stores and sends, in terms of the owner, what the probe found, the receipt lock, the endpoint and the answer: `retry` with its delay before the third transient error and `failed` from then on, `failed` on a ValueError or another owner, `waiting` on a busy thread, else one dispatch and `delivered` or `uncertain` |
| MailboxWorker.FailedIff | src/teammate_mcp/mailbox_worker.py:58-97 | `failed` is stored if and only if the owner is another thread, a ValueError was raised, or an error that was not ambiguous was the third |
| MailboxWorker.TransientErrorIsRetried | src/teammate_mcp/mailbox_worker.py:53-105 | after a transient error before the third, a later call with an idle thread delivers the question |
| ManualRetry.Tool.RetryDelivery | src/teammate_mcp/server.py:1365-1392 | a call of `retry_delivery`, with other actors moving between its lines, is a run of the delivery protocol; undisturbed it puts a question back if and only if it is a known failure, pending, and its owner asks, and else changes nothing |
| ManualRetry.Tool.Check | src/teammate_mcp/server.py:1380-1388 | whatever others do meanwhile, a retry is approved only for a failed or retrying, pending question of the caller |
| MailboxWorker.Job.TryLock | src/teammate_mcp/mailbox_worker.py:45-51 | the call goes on only if it got the delivery lock without waiting |
| MailboxWorker.Job.ReadState | src/teammate_mcp/mailbox_worker.py:52-54 | the call goes on only if the stored state is not terminal and its retry time has come |
| MailboxWorker.Job.Screen | src/teammate_mcp/mailbox_worker.py:55-60 | the call goes on only for a pending question; an owner mismatch is stored as failed without any request |
| MailboxWorker.Job.Dispatching | src/teammate_mcp/mailbox_worker.py:73-82 | whatever others do meanwhile, the durable mark is written only with the receipt lock held, the inbox file present (unless the mailbox was archived) and the endpoint unchanged; undisturbed the first of the three that fails decides the outcome |
| MailboxWorker.Job.Deliver | src/teammate_mcp/codex_transport.py:84-90 | undisturbed the mutating request follows a successful claim, once, and its answer decides the result |
| MailboxWorker.Job.Caught | src/teammate_mcp/mailbox_worker.py:89-101 | an error after the mark gives `uncertain`, a ValueError or a third failure `failed`, anything else `retry` with its delay |
| MailboxWorker.Job.Finish | src/teammate_mcp/mailbox_worker.py:102-105 | whatever happened, and whatever others do meanwhile, the result is stored and both locks are released |
| Backoff.Label.Scan | src/teammate_mcp/mailbox_worker.py:108-132 | one round over a label leaves the connection file the specification gives and begins exactly the deliveries it allows, each while the endpoint was still the same |
| Backoff.RoundOutcome | src/teammate_mcp/mailbox_worker.py:114-131 | in terms of what a round met: nothing changes if nothing is pending or the time has not come; a failed connection or a delivery that raised counts one more failure and waits 2, 4, 8, 16, 32 and then 60 seconds; anything else clears the backoff |
| Backoff.BegunStops | src/teammate_mcp/mailbox_worker.py:122-126 | deliveries stop at the first changed endpoint or raised error and at nothing else |
| Backoff.ConnectionIsPaced | src/teammate_mcp/mailbox_worker.py:116-131 | over all rounds and worker deaths the stored counter is the number of failures since the last clearing, the stored time is their delay after the last of them, and no attempt to connect comes earlier |
| Backoff.DelaysNeverShrink | src/teammate_mcp/mailbox_worker.py:129-131 | between two clearings the delays are at least 2 and at most 60 seconds and never shrink |
| Backoff.ShrinksIffCleared | src/teammate_mcp/mailbox_worker.py:121-131 | from one failure to the next the delay shrinks if and only if the backoff was cleared between them and was above 2 seconds, and then starts over at 2 |
| Receipts.Mailbox.SaveProcessedReceipt | src/teammate_mcp/server.py:218-243 | a receipt that runs to its end leaves exactly the merged processed record, no inbox copy, and every other job's files untouched |
| Receipts.ReceiptFold | src/teammate_mcp/server.py:218-243 | after any sequence of completed receipts the stored terminal is the last answer offered, else the first completion, else the last of all, and all fields of the message survive |
| Receipts.WeakReceiptKeepsAnswer | src/teammate_mcp/server.py:222-236 | a weaker acknowledgement keeps a stored answer if and only if no inbox copy without that answer is read instead |
| Receipts.CrashedReceiptLosesAnswer | src/teammate_mcp/server.py:238-243 | the concrete case in which a crash between store and removal lets an empty acknowledgement drop the answer |
| MailboxFiles.StepKeeps | src/teammate_mcp/server.py:178-243 | every single file operation of senders, receipts and pump updates keeps the invariant of a job's files |
| MailboxFiles.Conservation | src/teammate_mcp/server.py:178-190 | after every file operation an accepted job is in the inbox or processed and in history as well, with all fields its sender wrote |
| MailboxFiles.NeverReappears | src/teammate_mcp/claude_channel.py:127-151 | once a receipt removed the inbox copy it stays removed, whatever pump updates were under way |
| MailboxFiles.AnswerSurvives | src/teammate_mcp/server.py:231-236 | after one receipt ran to its end a stored answer survives every later receipt, weaker or crashing |
| MailboxFiles.AnswerKeptIffInboxGone | src/teammate_mcp/server.py:222-240 | in any reachable state a weaker receipt about to be stored keeps a stored answer if and only if the inbox copy is gone |
| Reply.AtMostOneAnswer | src/teammate_mcp/server.py:1428-1464 | over any sequence of `reply` calls, errors and crashes at most one answer to a question is enqueued |
| Reply.ResponseIsTruthful | src/teammate_mcp/server.py:1451-1461 | no response file or `failed` means nothing was sent, `sent` that exactly the stored text was, `dispatching` that at most that text was |
| Reply.SentIsFinal | src/teammate_mcp/server.py:1436-1441 | once the response file says `sent`, nothing later changes it or sends anything |
| Reply.CompletedReplyLeavesReceipt | src/teammate_mcp/server.py:1436-1464 | a reply, first or repeated, that runs to its end leaves a completed receipt with exactly the sent text and no inbox copy |
| ReplyCall.Question.Reply | src/teammate_mcp/server.py:1417-1464 | a call of `reply`, with other actors moving between its lines, is a run of the protocol; undisturbed its outcome, the response file, what is sent and the mailbox files are exactly those that the reply lock, the stored response, the search for the question, the send and the job lock dictate |
| ReplyCall.Question.Begin | src/teammate_mcp/server.py:1430-1441 | reply lock and response file decide whether the call is refused, repeats a receipt or goes on |
| ReplyCall.Question.WriteReceipt | src/teammate_mcp/server.py:206-216 | whatever others do meanwhile, the receipt written for a reply is the merge of the files as they were when it got the job lock |
| Conversation.StepKeeps | src/teammate_mcp/server.py:178-243 | every copy of a message anywhere is the message as sent, and every sent reply follows an earlier message, goes to its sender and stays in its conversation |
| Conversation.ConversationIsTheRoot | src/teammate_mcp/server.py:700-703 | every message ends a reply chain of some length and every copy of it carries the id of the chain's first question |
| Conversation.ChainAgrees | src/teammate_mcp/server.py:1456-1457 | along a chain all messages have the root's conversation and each reply is addressed to the sender of the message it answers |
| Conversation.SearchSucceeds | src/teammate_mcp/server.py:1442-1450 | while history stands a look fails if and only if it meets a sender called "unknown", the last folder always settles the search, and what is found is the question as sent |
| Conversation.SearchEnds | src/teammate_mcp/server.py:1442-1457 | with any drains, receipts and writes between its looks, and history standing, a search takes at most three looks and ends with the question as sent, in the conversation of its chain, unless its sender is called "unknown" |
| Registry.Registry.Register | src/teammate_mcp/registry.py:120-151 | refused for a mailbox address or another channel session's address, else the entry is written and with de-duplication exactly the other labels of the pane go |
| RegistryRuns.PaneRegistration | src/teammate_mcp/registry.py:120-151 | a pane gets a label that is free, its own or a plain pane's, never a mailbox address or another channel session's label; refused it changes nothing, accepted it keeps what is known of the same pane and forgets the rest |
| RegistryRuns.ChannelRegistration | src/teammate_mcp/registry.py:120-151 | a channel process gets a label that is free, its own or a plain pane's, and else changes nothing |
| RegistryRuns.ChannelSessionKeepsLabel | src/teammate_mcp/registry.py:124-130 | over every run, session and process of a channel session's label change only by a registration of that very session or process, however often others register |
| Registry.Registry.DropCollisions | src/teammate_mcp/registry.py:131-138 | exactly the other labels with the same session id, ignoring case, are dropped |
| Registry.Registry.RegisterMailbox | src/teammate_mcp/registry.py:169-187 | refused if and only if the thread has another mailbox address or the label is somebody else's |
| RegistryRuns.MailboxRegistration | src/teammate_mcp/registry.py:169-187 | a thread gets a label that is free or its own, unless it has another one; its settings stay, and nobody else's entry changes |
| Registry.Registry.PruneDead | src/teammate_mcp/registry.py:338-356 | exactly the dead entries go and are reported, none if the open panes are unknown |
| RegistryRuns.RunKeeps | src/teammate_mcp/registry.py:103-187 | over every run session ids are unique ignoring case, mailbox addresses have an owner and no pane, and each thread owns at most one |
| RegistryRuns.OwnerFixed | src/teammate_mcp/registry.py:169-187 | the thread that owns a mailbox address is the same until the address is unregistered |
| RegistryRuns.EntryStaysIffNotRemoved | src/teammate_mcp/registry.py:338-356 | over every run an entry stays all the time if and only if no call unregisters it, registers its pane under another label, or prunes it while its pane is closed and its grace period over; so a live, fresh or pane-free entry is never pruned |
| RegistryRuns.OpenPaneStays | src/teammate_mcp/registry.py:342-354 | a pane's label stays with its pane over any number of calls, however old its registration, while the pane is listed as open and nobody claims label or pane |
| RegistryRuns.FreshPaneStays | src/teammate_mcp/registry.py:348-352 | a label registered less than the grace period ago stays with its pane, whatever list of open panes pruning has |
| RegistryRuns.ClosedPaneGoes | src/teammate_mcp/registry.py:343-354 | a closed pane's entry is pruned if and only if its registration is as old as the grace period, or has no date |
| RegistryRuns.ChannelFencing | src/teammate_mcp/claude_channel.py:35-64 | while a connection is recorded only it, a new connect, a registration of the label or its removal changes that |
| RegistryRuns.ChannelUpdates | src/teammate_mcp/claude_channel.py:35-64 | the recorded connection, or the first, does set the channel's state, and a new connection always takes over |
| RegistryRuns.ThreadStaysBound | src/teammate_mcp/server.py:612-634 | over every run a thread bound to a label stays bound until the entry is removed or started over for another pane or process |
| RegistryRuns.SettingsKept | src/teammate_mcp/server.py:641-655 | over every run automatic delivery is set only for labels with a thread, and no setup error stands beside delivery that is switched on |
| RegistryRuns.OnlyTheOwnerConfigures | src/teammate_mcp/server.py:1468-1496 | a label's delivery setting changes only by its owning thread, on an entry that has not changed meanwhile, or with an entry that is started over |
| RegistryRuns.CallerMailboxLabel | src/teammate_mcp/server.py:573-579 | a thread that owns a mailbox address is resolved to that very address, any other to none |
| RegistryRuns.CallerLabel | src/teammate_mcp/server.py:582-588 | a caller is resolved to its only label or its mailbox address, never to another thread's label, and not at all only without either |
| Addressing.StepKeeps | src/teammate_mcp/server.py:712-731 | every step of senders, registrations, unregistrations, workers and receivers of all labels keeps the invariant that files, archives, registry and actors agree on owners |
| Addressing.MailIsForTheOwner | src/teammate_mcp/server.py:715-723 | whatever is in a mailbox was sent to the thread that owns the label now |
| Addressing.DispatchesReachTheAcceptingOwner | src/teammate_mcp/mailbox_worker.py:57-82 | every dispatch goes to the thread that owned the label when the message was accepted, however often the label changed hands |
| Addressing.ArchivedMailStaysAway | src/teammate_mcp/registry.py:154-166 | an accepted message is in the live history or archived, never both, and once archived it is in no live mailbox again |
| Addressing.NothingInherited | src/teammate_mcp/registry.py:154-187 | when a label has passed to another thread none of the previous owner's messages is in its mailbox, they are all archived |
| Addressing.SendArrives | src/teammate_mcp/server.py:712-731 | a send nobody disturbs ends in the inbox and the history of the label's owner |
| Addressing.WorkerDispatches | src/teammate_mcp/mailbox_worker.py:108-126 | a worker nobody disturbs dispatches a pending message of the label's owner |
| Addressing.RecheckIff | src/teammate_mcp/mailbox_worker.py:77-81 | a worker goes on to dispatch if and only if the message is still pending and the label's entry is the one it was started with |
| Addressing.UnregisterArchives | src/teammate_mcp/registry.py:154-166 | an unregistration nobody disturbs frees the label, archives its whole mailbox and touches no other label |
| Addressing.ClaimRuleIsRegistrys | src/teammate_mcp/registry.py:172-180 | the claim rule used here is the registry's own, as far as labels are mailboxes |
| ChannelPump.NothingBeforeHandshake | src/teammate_mcp/claude_channel.py:57-81 | before every notification of every run its connection was recorded and then confirmed by the nonce it was started with |
| ChannelPump.NoticesReachTheOwner | src/teammate_mcp/claude_channel.py:97-104 | a message accepted for a session or a process is only ever notified where the label belonged to that session and process when the message was read, whatever registrations happen |
| ChannelPump.NotifiedAtMostOnce | src/teammate_mcp/claude_channel.py:79-151 | with scans that do not overlap every message is notified at most once, across crashes and reconnects |
| ChannelPump.ProcessedIsFinal | src/teammate_mcp/claude_channel.py:135-151 | a message that a receipt removed and no pump has marked is never marked nor notified again, whatever scans had read it before |
| ChannelPump.UnrivalledMarksNotifyOnce | src/teammate_mcp/claude_channel.py:88-151 | in any run, overlapping scans included, messages are notified at most once as long as no mark has a rival |
| ChannelPump.FreshMarksNotifyOnce | src/teammate_mcp/claude_channel.py:93-110 | marks put only on unmarked messages have no rival, so a second look at the record under the lock would do |
| ChannelPump.MarkIsSafeIffUnrivalled | src/teammate_mcp/claude_channel.py:88-110 | after any run without rivalry, no continuation without rivalry of a mark notifies a message twice if and only if nobody has notified its message or has marked it and is about to |
| ChannelPump.MarkKeepsOnceIffUnrivalled | src/teammate_mcp/claude_channel.py:127-151 | in any state that keeps the invariant of single notices, a mark keeps it if and only if it has no rival |
| ChannelPump.RivalMarkRepeats | src/teammate_mcp/claude_channel.py:88-110 | from any state, a pump that puts its mark although another has notified the message, or marked it and is about to, can go on to a second notification of it |
| ChannelPump.OverlapDuplicates | src/teammate_mcp/claude_channel.py:88-151 | a concrete run of two overlapping scans that notifies a message twice |
| ChannelScan.Pumping.ScanOnce | src/teammate_mcp/claude_channel.py:79-125 | a scan, with others moving between its lines, is a run of the channel protocol; undisturbed it notifies every open message of its list that is meant for the label's owner and whose locks are free, once each and in order, up to an error |
| ChannelScan.Pumping.HandleFile | src/teammate_mcp/claude_channel.py:85-125 | undisturbed it leaves alone what is processed, marked, locked or meant for another session, marks as failed what is meant for another process, and notifies of the rest once, ending as sent or, after an error, uncertain |
| ChannelScan.Pumping.Confirm | src/teammate_mcp/claude_channel.py:72-77 | a connection is ready if and only if the nonce is its own and it is the recorded one |
| ChannelScan.Pumping.Claim | src/teammate_mcp/claude_channel.py:127-151 | whatever others do meanwhile, a message is claimed only with both locks and its inbox file present, and is then marked before it is sent |
| PaneDelivery.StepKeeps | src/teammate_mcp/server.py:784-1045 | every step of the direct sender, of watchdogs and of hooks, and every crash, keeps the invariant of lease, pane state and lock, provided no claim is taken while the direct sender runs |
| PaneDelivery.CarefulClaimsSurfaceOnce | src/teammate_mcp/server.py:784-1045 | over every run, crashes included and leases of any length, in which nobody claims the message while its direct sender runs, it is surfaced at most once and injected or printed at most once |
| PaneDelivery.SurfacedAtMostOnce | src/teammate_mcp/server.py:784-1045 | hence at most once in every run whatever, if leases outlive their running owners or there is no direct sender |
| PaneSend.Message.Send | src/teammate_mcp/server.py:828-1045 | a direct send, with watchdogs and hooks moving between its lines, is a run of pane delivery; undisturbed the message is left free without the lock or while the user types, left gone if it was, and else injected once and then gone, or kept as uncertain after an error, or as dispatching if it is stuck |
| PaneSend.Message.Claim | src/teammate_mcp/server.py:831-844 | undisturbed the lease is renewed under the send lock for a message that is still there; without the lock or the message the call is decided |
| PaneDelivery.ClaimIsSafeIffSenderGone | src/teammate_mcp/pane_delivery.py:15-57 | after any such run, a claim leaves the message surfaced at most once in all such continuations if and only if the direct sender has finished or died |
| PaneDelivery.CarelessClaimDuplicates | src/teammate_mcp/server.py:1041-1045 | from any claim taken while the direct sender waits, its lock timeout and fallback copy lead on to the message being surfaced twice |
| PaneDelivery.NeverInjectedAgain | src/teammate_mcp/pane_delivery.py:32-57 | once the record says `dispatching` or `uncertain` and the injection is over, no later step surfaces the message |
| PaneDelivery.ExpiredLeaseDuplicates | src/teammate_mcp/server.py:1041-1045 | a concrete run with an early expiring lease that surfaces a message twice |
| PaneMailbox.Pane.StopDrain | hooks/stop_inbox_drain.py:100-161 | guarded it does nothing; else the first five available messages are shown, and exactly those move to processed |
| PaneMailbox.Pane.PromptDrain | hooks/user_prompt_submit_inbox_drain.py:109-160 | the first available messages up to the bound are attached with their bodies cut to the byte limit, and exactly those move to processed |
| PaneMailbox.Pane.Wake | src/teammate_mcp/watcher.py:291-337 | while the user types, or if label or message is no longer what it was, nothing is touched; else the first message that may be surfaced, if there is one, is injected and goes to processed, or stays marked `uncertain` after an error; everything else stays |
| PaneMailbox.WokenMeans | src/teammate_mcp/watcher.py:303-337 | the same of the wake's specification, in terms of what it saw and of the fields of the records |
| PaneMailbox.DrainsShowAll | hooks/stop_inbox_drain.py:131-156 | n drains show the first n times five available messages, each once and in order, and enough of them show all |
| PaneMailbox.DrainTakes | src/teammate_mcp/pane_delivery.py:50-57 | a drain takes only messages that are no native channel's, under no lease and unclaimed, leaves all others, and leaves none of the former while it takes fewer than its bound |
| PaneMailbox.NativeMailUntouched | src/teammate_mcp/pane_delivery.py:33-54 | over any run of drains, wakes and crashes a native-channel message stays in the inbox and is never shown |
| PaneMailbox.StoredHolds | hooks/stop_inbox_drain.py:150-156 | after a drain every shown message is in processed as it was, and nothing there is lost |
| PaneMailbox.ShownAtMostOnce | src/teammate_mcp/watcher.py:303-337 | over any run of arrivals, lease changes, drains, wakes and crashes every message is seen at most once and none is lost from disk |
| Compose.ExtractCompose | src/teammate_mcp/iterm.py:337-402 | the parsing loops compute the extraction function |
| Compose.ExtractRendered | src/teammate_mcp/iterm.py:337-402 | from a screen with prompt line, indented lines and closing rule the typed text is extracted without its blank continuation lines, or nothing if it looks like an echo |
| Compose.ComposeRoundTrip | src/teammate_mcp/iterm.py:371-390 | the text comes back unchanged if and only if no continuation line is blank |
| Compose.PrintedRoundTrip | src/teammate_mcp/iterm.py:337-402 | printing such a screen and parsing the printed text returns the typed text |
| ComposeLines.RuleOrStatusCloses | src/teammate_mcp/iterm.py:363-381 | rules and status lines end the typed text alike |
| ComposeLines.StatusIff | src/teammate_mcp/iterm.py:365-381 | a status line is one with any of the four marks, in letters of either case |
| ComposeLines.EchoIff | src/teammate_mcp/iterm.py:393-402 | a text counts as an echo if and only if one of the five marks occurs in it |
| ComposeLines.EchoReadsEmpty | src/teammate_mcp/iterm.py:391-402 | an injected message still on screen reads as no typing at all |
| ComposeLines.RuleIff | src/teammate_mcp/iterm.py:363 | a rule is five rule characters behind nothing but white space |
| ComposeLines.OldPromptIgnored | src/teammate_mcp/iterm.py:326-335 | a prompt above the last forty lines is not read |
| ComposeLines.PaddingGoes | src/teammate_mcp/iterm.py:282-291 | trailing cell padding is stripped, all of it and nothing else |
| ComposeLines.EscapeGoes | src/teammate_mcp/iterm.py:477-481 | an escape sequence is removed whole, and nothing around it |
| ComposeLines.UnfinishedEscapeStays | src/teammate_mcp/iterm.py:477-481 | what only looks like an escape sequence stays |
| CaptureFrames.Parse | src/teammate_mcp/watcher.py:216-234 | the loop computes the map the printed text stands for |
| CaptureFrames.RoundTrip | src/teammate_mcp/watcher.py:198-234 | parsing the framed dump of sessions with distinct ids and no frame lines gives exactly the map from upper-cased id to content |
| Utf8.PreviewIsLongestPrefix | hooks/user_prompt_submit_inbox_drain.py:127-135 | the preview is the longest whole-character prefix whose encoding fits the limit |
| Utf8.KnownEncodings | hooks/user_prompt_submit_inbox_drain.py:127-128 | the encoder agrees with the examples of section 7 of RFC 3629 |
| Utf8.DecodeEncode | hooks/user_prompt_submit_inbox_drain.py:127-130 | decoding undoes encoding for every text of Unicode scalar values |

## Left out

- AppleScript, iTerm, psutil, WebSocket and MCP plumbing: captures, injections, liveness and connections are parameters or nondeterministic outcomes of steps.
- src/teammate_mcp/queue.py, cli.py, daemon.py and the wrappers over them: they carry no part of the delivery guarantees.
- Mailbox archiving after `prune_dead` has released its lock, and the direct sender's unlocked final write racing a receiver's receipt: the code does not exclude these interleavings, no theorem covers them.
- Failed state-file writes: they count as a crash at that point. Half-written processed files of the hooks and failed moves are not modelled.
- A pane copy that stays visible in the compose box is put back marked `dispatching`; it is modelled as staying so, nothing claims that it is drained.
- PaneDelivery.SurfacedAtMostOnce: no receiver receipt or channel pump works on the message meanwhile; whether a lease is still active is any answer its length allows, not a clock reading; the 15 seconds of grace for records without a delivery mode and unreadable files are not modelled.
- PaneMailbox.ShownAtMostOnce: the direct sender is not among its actors, PaneDelivery has it for one message at a time; name order of new files is left open.
- PaneMailbox.Pane.PromptDrain: the notice added to a cut body and the wording of blocks are not modelled, nor the pause file.
- ChannelPump.NoticesReachTheOwner: the owner is compared when the message is read, as the code does; a registration between that and the notification is not noticed.
- ChannelPump.NotifiedAtMostOnce: for scans that do not overlap; MarkIsSafeIffUnrivalled has the exact condition for all others; lease and pane-state checks of the pump are not modelled.
- CodexTransport.NeverInterrupts: speaks of the thread as the probe found it; it may turn active before the request arrives, which the app-server decides.
- CodexDelivery.AtMostOneDispatch: speaks about one question; several questions of one worker interact only through files of their own.
- Addressing.NothingInherited: for labels only ever used as mailboxes; everything but the owner in a registry entry is one opaque value.
- Backoff.Label.Scan: one label; a round of the worker visits the labels one after the other, and a lock admits a single worker process.
- Conversation.SearchEnds: needs the mailbox not to have been archived; checks of label and job id syntax, and whitespace-only reply texts, are left out here and in ReplyCall.
- RegistryRuns.CallerLabel: only for calls that carry a thread id; resolution by environment variable or terminal session is not modelled.
- Registry.Registry.Unregister: removes the entry only; the archiving that precedes it is in Addressing.
- Text.Upper: ASCII letters only, as session ids are ASCII; `Compose` lower-cases ASCII letters, which is exact for the ASCII patterns it searches.
- Utf8.DecodeEncode: lone surrogates, which Python strings may hold and UTF-8 cannot encode, are not characters here.
- The policy by which a pane counts as busy or starving (`_wake_action`), prompt guards and message wording: textual.
