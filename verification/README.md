# Two submission journals that never resend

The repository connects Letta agents over the A2A protocol with two programs that face each other. The
bridge hands the input of a request to a remote session; the client hands a message to a remote peer. Both
obey one rule: input whose fate is unknown is never sent again and never followed by other input, whatever
is cancelled, whatever runs at the same time and whenever a process dies. This project models the code that
keeps the rule and proves that it does, or exactly when.

`dafny verify dfyconfig.toml` checks everything.

## The bridge

`Journal` describes the durable state (tasks, attempts, snapshots, tombstones, mappings) and each atomic
transaction on it as a function. `SqliteStore` and `DurableBinding` are the classes that carry the
transactions out in place, with their scans, loops and rollbacks; each method commits exactly the
transaction of the function or nothing. `TurnRunner` is one turn of the runner over those methods, and
`WireStream` one request of the executor against what it journals.

`Bridge` is the machine of all of it together: one journal, which a crash keeps, and one process with its
attempts, context locks, quarantine, cache, waiters, handler tokens and interrupted tasks, which a crash
loses. A step is the code between two awaits. `BridgeInvariant` says what every reachable state satisfies;
`BridgeSteps`, `BridgeHooks`, `BridgeProcess`, `BridgeSaves`, `BridgeCancels` and `BridgeLife` show it step
by step; `BridgeTheorems`, `BridgeReopen`, `BridgeOutcomes` and `BridgeTruth` draw the consequences for every
run. The history fields `sends`, `sent`, `stops` and `attested` are logs that no step reads.

`PromiseChain` shows that the promise-chain locks under the bridge, the client's memory store and the push
sender are FIFO mutexes; the machine lets any waiter enter a free context lock, which is more than they do.

What the environment is held to, in the words of the machine: at most one process is alive; the SDK executes
an admitted request at most once and while its handler token is held; a task id belongs to one context (the
arbitrary function `home`); identifiers are not empty; the status message of a reduced terminal event has an
id. Sizes are compared with an arbitrary function, so every pattern of size refusals is covered. Time,
aborts and the order in which a database returns rows are arbitrary. Several guards of the handler (its
in-memory message, submission and cancellation sets, and whether a task may be resumed) are left out of the
machine, which therefore has more runs than the code.

## The client

`ToolJournal` is the machine of the tool service: any number of calls, each under its binding's lock and its
context's lock, with the two records it writes one after the other and the rule that merges them.
`ToolJournalProofs` has its invariant, `ToolTheorems` the consequences, `ToolLocks` the absence of deadlock
under these locks and the store's write lock, and `ToolService` the methods that do the steps in place.
`Invoker` is the polling invoker against a scripted peer, `FileStore` the file-backed context store,
`DataPreview` the preview of untrusted data parts.

Message ids are taken to be fresh: no call begins with an id that was used before. The service makes one up
unless its caller supplies it.

The quarantine of a binding holds over all runs (`BindingQuarantine`). The quarantine of a context across
bindings does not: a second binding can submit to a context whose earlier message is unsettled, in two ways.
A call that does not know its context beforehand writes the record of the context the peer names without
reading it first. And the merge prefers a pending binding over a context record that is fenced but no longer
pending, which an unaccepted yet terminal readback leaves. `LearnedContextOverwritesFence` and
`MergePassesFence` are runs that reach such a state. `OverruledExactly` says, in terms of what is stored, when
an action takes the mark of an unsettled message from its context's record, `UnsettledStaysMarked` that
nothing else ever does, and `ContextQuarantine` that the context is quarantined in every run without such a
write over the mark. The history fields `subs`, `settled`, `noted` and `overruled` are logs: nothing stored and
no call depends on them.

A row below that begins "keeps the invariant" is about one step of a machine: from every state that satisfies
the invariant it leads to one that does. A step of the bridge moreover forgets nothing of the history and, in
a live process, leaves every announced publication as it was unless it is the save that retires it.

## Model

| member | source | states |
|---|---|---|
| BridgeTheorems.Fence | packages/letta-a2a-bridge/src/letta-agent.ts:132-233 | in every run, of two inputs sent to one context the earlier one has a committed stop or an operator-verified one |
| BridgeTheorems.FenceAtSend | packages/letta-a2a-bridge/src/letta-agent.ts:188-191 | the same at the moment of the send, also while the earlier record is only being published and the durable guard does not see it |
| BridgeTheorems.AtMostOnce | packages/letta-a2a-bridge/src/bridge.ts:490-565 | for each owner, tenant and message id, input reaches the session at most once over all restarts, refusals and prunes |
| BridgeTheorems.Isolation | packages/letta-a2a-bridge/src/durable-binding.ts:131-151 | two inputs share a conversation exactly when they share a context; the durable mapping and the in-memory cache agree with it |
| BridgeTheorems.HistoryGrows | packages/letta-a2a-bridge/src/durable-binding.ts:587-616 | over any continuation of any run no send, stop, tombstone or mapping is forgotten, and where an input went, when a message was reserved and what a context is mapped to is never changed |
| BridgeTheorems.WaitersRegistered | packages/letta-a2a-bridge/src/durable-binding.ts:493-499 | whoever waits for an acknowledgment, an attempt or the cancellation of a parked task, is registered, and its record is still being published |
| BridgeTheorems.NoLostAcknowledgment | packages/letta-a2a-bridge/src/durable-binding.ts:104-130 | in a live process an announced publication is retired only by the save of its own task with the journalled message id, and after any step nobody, neither an attempt nor a cancellation, waits for a record that is no longer announced |
| BridgeReopen.ReopenAccepted | packages/letta-a2a-bridge/src/durable-binding.ts:301-350 | every journal a run can leave is accepted by validation, whatever limits the next process chooses |
| BridgeReopen.RecoveryNeverFails | packages/letta-a2a-bridge/src/durable-binding.ts:699-739 | recovery of any remaining attempt succeeds in every reachable state |
| BridgeReopen.RecoveriesRun | packages/letta-a2a-bridge/src/durable-binding.ts:699-739 | the steps of a recovering process add up to one pass of recovery |
| BridgeReopen.ReopenCompletes | packages/letta-a2a-bridge/src/durable-binding.ts:220-255 | opening, visiting every attempt in any order and finishing leaves each attempt done, or unresolved with a snapshot |
| BridgeReopen.ReopenConverges | packages/letta-a2a-bridge/src/durable-binding.ts:699-739 | after any number of crashes, each behind any prefix of recovery, one more opening gives the journal of one undisturbed pass, each attempt with the stamp of the pass that repaired it |
| BridgeTruth.RecoveryTellsTheTruth | packages/letta-a2a-bridge/src/durable-binding.ts:703-737 | "no input was sent" only for attempts never sent, COMPLETED only after a committed or verified stop, CANCELED only from the journal, unknown stays unresolved; all of it also where a journalled publication is replayed, which is replayed as it is |
| BridgeTruth.CompletionIsCommitted | packages/letta-a2a-bridge/src/letta-agent-executor.ts:135-161 | a live attempt reduces COMPLETED or an interruption only after its stop was committed |
| BridgeOutcomes.JournalIsHonest | packages/letta-a2a-bridge/src/durable-binding.ts:477-491 | at every moment of every run no journalled snapshot says COMPLETED of an input that may still be running, and none says that no input was sent where one was |
| BridgeOutcomes.RunGood | packages/letta-a2a-bridge/src/letta-agent.ts:193-221 | a turn comes to its settlement as a success only if the last result its stream delivered was a settled success |
| BridgeOutcomes.StopIsCommitted | packages/letta-a2a-bridge/src/letta-agent.ts:206-222 | every stop in the history of every run was put there by the settlement of its own turn, after owned cleanup and a stream whose last result was a settled success, together with the stored `stopped` phase, and by nothing else |
| BridgeTruth.CompleteCloseIsQuiet | packages/letta-a2a-bridge/src/bridge.ts:180-209 | after a complete close every attempt is done and nothing runs; no later step but retention and a late operator commit changes an attempt, snapshot, tombstone or mapping, only a save can change a task row, and recovery writes nothing |
| BridgeTruth.ReopenAfterClose | packages/letta-a2a-bridge/src/bridge.ts:185-200 | the process after a complete close opens the same journal and leaves it as it is |
| BridgeLife.ReachableInv | packages/letta-a2a-bridge/src/durable-binding.ts:84-88 | the invariant behind the theorems holds in every reachable state, whatever crashed and whatever interleaved |
| BridgeLife.RunKeeps | packages/letta-a2a-bridge/src/durable-binding.ts:84-88 | every run keeps the invariant, from wherever it holds |
| BridgeLife.StepKeeps | packages/letta-a2a-bridge/src/durable-binding.ts:84-88 | each of the 43 steps keeps the invariant and the history; only a save retires an announcement in a live process, and exactly the ones it acknowledges |
| BridgeHooks.GuardClears | packages/letta-a2a-bridge/src/letta-agent.ts:136-140 | under the lock, past the quarantine check and the durable guard, every input the context ever received has stopped |
| BridgeSteps.AbandonQueueKeeps | packages/letta-a2a-bridge/src/letta-agent.ts:263-272 | keeps the invariant when a cancelled waiter leaves the queue of its context lock |
| BridgeSteps.AcquireKeeps | packages/letta-a2a-bridge/src/letta-agent.ts:235-249 | keeps the invariant when a waiter enters a free context lock and checks the quarantine: one holder, and it never enters a quarantined context |
| BridgeSteps.LookupKeeps | packages/letta-a2a-bridge/src/letta-agent.ts:142-145 | keeps the invariant when the conversation is looked up, cache before mapping: cache and mapping still agree |
| BridgeSteps.GiveUpKeeps | packages/letta-a2a-bridge/src/letta-agent.ts:135-145 | keeps the invariant when an error or abort before the send releases the lock unfenced: nothing was sent, so nothing needs a fence |
| BridgeSteps.ObserveKeeps | packages/letta-a2a-bridge/src/durable-binding.ts:181-201 | keeps the invariant over the read half of `observe`, after which other steps may rewrite the record |
| BridgeSteps.ObserveStepKeeps | packages/letta-a2a-bridge/src/durable-binding.ts:202-204 | keeps the invariant over its write half, which puts the record it read and may thereby undo a cancellation mark |
| BridgeSteps.SendOkKeeps | packages/letta-a2a-bridge/src/durable-binding.ts:176-180 | keeps the invariant over the `sent` hook and its failure: the input counts as sent either way |
| BridgeSteps.LeaveStreamKeeps | packages/letta-a2a-bridge/src/letta-agent.ts:190-205 | keeps the invariant when the stream is left, by its end or by any error |
| BridgeSteps.ReleaseKeeps | packages/letta-a2a-bridge/src/letta-agent.ts:231-257 | keeps the invariant when the lock is released: the input has stopped or its context is quarantined |
| BridgeSteps.ConcludeKeeps | packages/letta-a2a-bridge/src/durable-binding.ts:477-486 | keeps the invariant over the read half of `publication`: the record may say stopped only if the history does |
| BridgeHooks.DispatchKeeps | packages/letta-a2a-bridge/src/durable-binding.ts:469-474 | keeps the invariant over dispatch and its refusal, which fences an attempt that never sent |
| BridgeHooks.GuardKeeps | packages/letta-a2a-bridge/src/durable-binding.ts:153-158 | keeps the invariant over the durable guard: whoever passes it finds every earlier input of the context stopped |
| BridgeHooks.SessionReadyKeeps | packages/letta-a2a-bridge/src/letta-agent.ts:174-182 | keeps the invariant when the conversation of a ready session is mapped: one per context, none shared |
| BridgeHooks.CorrelateKeeps | packages/letta-a2a-bridge/src/durable-binding.ts:159-167 | keeps the invariant over the second guard and the caching of the conversation |
| BridgeHooks.IntendKeeps | packages/letta-a2a-bridge/src/durable-binding.ts:168-175 | keeps the invariant over correlation and intent in one transaction: an attempt about to send is marked `intent` |
| BridgeHooks.SendKeeps | packages/letta-a2a-bridge/src/letta-agent.ts:188-191 | keeps the invariant over the send: it is the first of its attempt, and every earlier one of the context has stopped |
| BridgeHooks.CloseSessionKeeps | packages/letta-a2a-bridge/src/letta-agent.ts:206-230 | keeps the invariant over settlement: before the lock can be released either the stop is committed or the context is quarantined, even if the record cannot be marked |
| BridgeHooks.PublishKeeps | packages/letta-a2a-bridge/src/durable-binding.ts:487-491 | keeps the invariant when snapshot and phase are committed together: while the durable fence is down the quarantine holds the context |
| BridgeProcess.AcceptStepKeeps | packages/letta-a2a-bridge/src/durable-binding.ts:415-468 | keeps the invariant over acceptance, and over every refusal of it |
| BridgeProcess.ConcludeStepKeeps | packages/letta-a2a-bridge/src/letta-agent-executor.ts:174-195 | keeps the invariant over the read half of `publication` and over the catch of the executor |
| BridgeProcess.PublishStepKeeps | packages/letta-a2a-bridge/src/letta-agent-executor.ts:188-195 | keeps the invariant over the write half: an attempt whose publication is refused is remembered as a failure for close |
| BridgeProcess.WaitPublishedKeeps | packages/letta-a2a-bridge/src/durable-binding.ts:493-499 | keeps the invariant when a waiter registers or finds the record settled: nobody waits for a record that is no longer announced |
| BridgeProcess.FinishKeeps | packages/letta-a2a-bridge/src/letta-agent-executor.ts:196-218 | keeps the invariant when an attempt ends: a task is parked only with its stop confirmed |
| BridgeProcess.ExecuteStepKeeps | packages/letta-a2a-bridge/src/letta-agent-executor.ts:75-104 | keeps the invariant when an admitted request starts or is refused: each starts once, under a token that is out |
| BridgeProcess.ReserveStepKeeps | packages/letta-a2a-bridge/src/bridge.ts:490-565 | keeps the invariant over a reservation: the tombstone is new, so no attempt, send or record has its message |
| BridgeProcess.EnterKeeps | packages/letta-a2a-bridge/src/bridge.ts:256-259 | keeps the invariant when a handler call takes a token or finds the bridge closed |
| BridgeProcess.LeaveKeeps | packages/letta-a2a-bridge/src/bridge.ts:245-255 | keeps the invariant when a token is given back: what it stood for is over or has another |
| BridgeProcess.HandOverKeeps | packages/letta-a2a-bridge/src/bridge.ts:463-488 | keeps the invariant when a disconnected stream takes its second token before it gives back the first: the set of tokens is never empty in between |
| BridgeProcess.CloseKeeps | packages/letta-a2a-bridge/src/bridge.ts:260-263 | keeps the invariant when admission closes |
| BridgeProcess.ReportRequestsKeeps | packages/letta-a2a-bridge/src/bridge.ts:264-273 | keeps the invariant when the handler reports: complete only without tokens |
| BridgeProcess.FinalDrainKeeps | packages/letta-a2a-bridge/src/letta-agent-executor.ts:294-322 | keeps the invariant over the verdict: it is complete only when every attempt in the journal is done |
| BridgeSaves.SaveStepKeeps | packages/letta-a2a-bridge/src/durable-binding.ts:104-130 | keeps the invariant over a save and settles exactly the records it acknowledges, waking their waiters in the same step |
| BridgeCancels.CancelInterruptedKeeps | packages/letta-a2a-bridge/src/letta-agent-executor.ts:221-247 | keeps the invariant when a parked task is cancelled, read half |
| BridgeCancels.CancelStepKeeps | packages/letta-a2a-bridge/src/letta-agent-executor.ts:242-251 | keeps the invariant over the write half, which announces the cancellation, and over its failure, which is reported at close |
| BridgeCancels.CancelWaitKeeps | packages/letta-a2a-bridge/src/letta-agent-executor.ts:253-269 | keeps the invariant when the cancellation of a parked task registers for its acknowledgment, or finds the record already settled |
| BridgeCancels.CancelIntentKeeps | packages/letta-a2a-bridge/src/durable-binding.ts:511-526 | keeps the invariant when a request to cancel is recorded, at any moment of the attempt |
| BridgeLife.ResolveKeeps | packages/letta-a2a-bridge/src/durable-binding.ts:535-579 | keeps the invariant over the read half of operator reconciliation, of which several may be under way for one attempt: only an unresolved attempt without a process behind it |
| BridgeLife.ResolveStepKeeps | packages/letta-a2a-bridge/src/durable-binding.ts:580-585 | keeps the invariant over its commit: the stop the operator vouches for lifts the fence of that input alone |
| BridgeLife.PruneStepKeeps | packages/letta-a2a-bridge/src/durable-binding.ts:587-616 | keeps the invariant over retention at any moment: nothing a live process or the fence still needs is forgotten |
| BridgeLife.OpenKeeps | packages/letta-a2a-bridge/src/durable-binding.ts:220-255 | keeps the invariant when a new process opens the journal of a dead one |
| BridgeLife.RecoverKeeps | packages/letta-a2a-bridge/src/durable-binding.ts:699-739 | keeps the invariant over one recovery transaction, which never fails |
| BridgeLife.FinishOpenKeeps | packages/letta-a2a-bridge/src/durable-binding.ts:248-250 | keeps the invariant when opening ends: everything that may still run is unresolved, so the durable guard blocks its context without the lost quarantine |
| BridgeLife.AttachKeeps | packages/letta-a2a-bridge/src/durable-binding.ts:258-283 | keeps the invariant when a bridge is attached, or refused because of its agent or its sharing domain |
| BridgeLife.CrashKeeps | packages/letta-a2a-bridge/src/durable-binding.ts:84-87 | keeps the invariant over a crash at any moment, which leaves the journal and the history and nothing else |
| BridgeLife.ReleaseOwnerKeeps | packages/letta-a2a-bridge/src/durable-binding.ts:266-277 | keeps the invariant when a complete close gives the owner back |
| A2A.Reduce | packages/letta-a2a-bridge/src/durable-binding.ts:617-629 | reducing never moves a task to another id or context, and the last status event wins |
| Journal.RecoveryEvents | packages/letta-a2a-bridge/src/durable-binding.ts:652-698 | the events end with exactly one status, the one asked for |
| JournalProofs.Validated | packages/letta-a2a-bridge/src/durable-binding.ts:301-350 | a sound journal passes validation |
| JournalProofs.PutKeeps | packages/letta-a2a-bridge/src/durable-binding.ts:294-300 | storing a sound record keeps the journal sound |
| JournalProofs.ReserveKeeps | packages/letta-a2a-bridge/src/durable-binding.ts:403-414 | a reservation keeps the journal and is for a message no attempt has |
| JournalProofs.AcceptKeeps | packages/letta-a2a-bridge/src/durable-binding.ts:452-467 | an accepted attempt and its task are committed together: the journal stays sound and keeps what it had |
| JournalProofs.FlagsKeep | packages/letta-a2a-bridge/src/durable-binding.ts:361-368 | a hook that moves a record that is not announced keeps the journal sound, whatever flags it sets |
| JournalProofs.CancelKeeps | packages/letta-a2a-bridge/src/durable-binding.ts:511-526 | recording a cancellation keeps the journal sound |
| JournalProofs.MappingKeeps | packages/letta-a2a-bridge/src/durable-binding.ts:133-150 | a context keeps its conversation and no two contexts share one |
| JournalProofs.IntentKeeps | packages/letta-a2a-bridge/src/durable-binding.ts:168-173 | the intent with its mapping keeps the journal sound, in particular the mapping injective |
| JournalProofs.PublicationKeeps | packages/letta-a2a-bridge/src/durable-binding.ts:487-491 | a publication keeps snapshot, marker and record consistent |
| JournalProofs.StoreRepairKeeps | packages/letta-a2a-bridge/src/durable-binding.ts:732-737 | a repair writes row, snapshot and record so that the journal stays sound |
| JournalProofs.SaveKeeps | packages/letta-a2a-bridge/src/durable-binding.ts:104-130 | a save keeps the journal sound |
| JournalProofs.PruneKeeps | packages/letta-a2a-bridge/src/durable-binding.ts:587-616 | a prune forgets only done attempts of an ended task, all of them with the task, and keeps tombstones and mappings |
| JournalProofs.PrunedKeeps | packages/letta-a2a-bridge/src/durable-binding.ts:587-616 | the same for any sequence of prunes; each remaining attempt keeps its row and its snapshot, and the next open validates |
| JournalProofs.RecoverOneFrame | packages/letta-a2a-bridge/src/durable-binding.ts:699-739 | recovering one attempt touches no other and leaves recovered ones alone |
| JournalProofs.RecoverOneKeeps | packages/letta-a2a-bridge/src/durable-binding.ts:699-739 | on a sound journal recovery of one attempt never throws |
| JournalProofs.RecoverAllKeeps | packages/letta-a2a-bridge/src/durable-binding.ts:699-739 | a whole pass never throws and leaves a sound journal |
| JournalProofs.RecoverAllSettles | packages/letta-a2a-bridge/src/durable-binding.ts:699-739 | a pass recovers every attempt it visits and rewrites no recovered one |
| JournalProofs.RecoveryConverges | packages/letta-a2a-bridge/src/durable-binding.ts:699-739 | crashing after any prefix and running again gives the same journal |
| DurableBinding.Binding.Put | packages/letta-a2a-bridge/src/durable-binding.ts:294-300 | stores a record with its time, or refuses its size |
| DurableBinding.Binding.AssertAvailable | packages/letta-a2a-bridge/src/durable-binding.ts:379-402 | the two scans succeed exactly when no attempt of the context waits for reconciliation |
| DurableBinding.Binding.TurnRecord | packages/letta-a2a-bridge/src/durable-binding.ts:369-378 | the scan over all attempts finds exactly the record stored under the turn's key |
| DurableBinding.Binding.UpdateTurn | packages/letta-a2a-bridge/src/durable-binding.ts:361-368 | a hook commits its update or nothing |
| DurableBinding.Binding.BeforeTurn | packages/letta-a2a-bridge/src/durable-binding.ts:153-158 | commits the phase `preparing` exactly if the context is available, else changes nothing |
| DurableBinding.Binding.SetMapping | packages/letta-a2a-bridge/src/durable-binding.ts:133-150 | a conversation is stored, refused as changed, refused as owned by another context, or refused by a limit |
| DurableBinding.Binding.BeforeSend | packages/letta-a2a-bridge/src/durable-binding.ts:159-167 | passes the second guard, checks the agent and maps the conversation, or fails with the same error and journal as the transaction |
| DurableBinding.Binding.CommitIntent | packages/letta-a2a-bridge/src/durable-binding.ts:168-175 | correlation and intent commit together or roll back |
| DurableBinding.Binding.Sent | packages/letta-a2a-bridge/src/durable-binding.ts:176-180 | commits the `sent` transaction or nothing |
| DurableBinding.Binding.Stopped | packages/letta-a2a-bridge/src/durable-binding.ts:205-210 | commits the `stopped` transaction or nothing |
| DurableBinding.Binding.Unresolved | packages/letta-a2a-bridge/src/durable-binding.ts:211-216 | commits the `unresolved` transaction or nothing |
| DurableBinding.Binding.Collect | packages/letta-a2a-bridge/src/durable-binding.ts:184-190 | run ids are collected once each, in order |
| DurableBinding.Binding.Observe | packages/letta-a2a-bridge/src/durable-binding.ts:181-201 | returns exactly the record the specification reads and reduces before the await, and writes nothing |
| DurableBinding.Binding.CommitObserved | packages/letta-a2a-bridge/src/durable-binding.ts:202-204 | commits that record after the await, or nothing |
| DurableBinding.Binding.ReserveMessage | packages/letta-a2a-bridge/src/durable-binding.ts:403-414 | a tombstone is written once per message, within the limits |
| DurableBinding.Binding.Accept | packages/letta-a2a-bridge/src/durable-binding.ts:415-468 | checks limits and duplicates twice and commits task and record in one transaction, or refuses with the error of the first failed check |
| DurableBinding.Binding.Dispatched | packages/letta-a2a-bridge/src/durable-binding.ts:469-474 | commits `dispatching` exactly if the context is available, else nothing |
| DurableBinding.Binding.Publication | packages/letta-a2a-bridge/src/durable-binding.ts:477-486 | returns exactly the record and snapshot the specification marks and reduces before the await |
| DurableBinding.Binding.SavePublication | packages/letta-a2a-bridge/src/durable-binding.ts:636-651 | snapshot stored, marker set, public text cleared |
| DurableBinding.Binding.CommitPublished | packages/letta-a2a-bridge/src/durable-binding.ts:487-491 | snapshot and record commit together or roll back |
| DurableBinding.Binding.WaitPublished | packages/letta-a2a-bridge/src/durable-binding.ts:493-499 | registers a waiter exactly when the record is still being published |
| DurableBinding.Binding.SettleOne | packages/letta-a2a-bridge/src/durable-binding.ts:115-122 | settles one announced record if the save acknowledges it, or meets one that does not fit |
| DurableBinding.Binding.SettleEach | packages/letta-a2a-bridge/src/durable-binding.ts:115-122 | the loop settles exactly the acknowledged records, or meets one that does not fit |
| DurableBinding.Binding.Save | packages/letta-a2a-bridge/src/durable-binding.ts:104-130 | task and records commit together, or nothing; exactly the acknowledged waiters are woken |
| DurableBinding.Binding.RequestCancellation | packages/letta-a2a-bridge/src/durable-binding.ts:511-526 | marks the unfinished attempts one write at a time, up to the first that throws |
| DurableBinding.Binding.Resolve | packages/letta-a2a-bridge/src/durable-binding.ts:535-579 | succeeds exactly for an attempt that operator evidence may settle, and returns its outcome |
| DurableBinding.Binding.CommitResolved | packages/letta-a2a-bridge/src/durable-binding.ts:580-585 | commits the resolved record with its snapshot, or nothing |
| DurableBinding.Binding.Retired | packages/letta-a2a-bridge/src/durable-binding.ts:590-604 | the loop decides exactly which tasks may be forgotten and finds all their attempts |
| DurableBinding.Binding.Forget | packages/letta-a2a-bridge/src/durable-binding.ts:605-611 | deletes exactly the attempts, snapshots and row of one retired task in one transaction |
| DurableBinding.Binding.Prune | packages/letta-a2a-bridge/src/durable-binding.ts:587-616 | one pass equals the sequence of prunes of all tasks, and counts what it forgot |
| DurableBinding.Binding.Validate | packages/letta-a2a-bridge/src/durable-binding.ts:301-350 | the loop accepts exactly the valid journals |
| DurableBinding.Binding.Replay | packages/letta-a2a-bridge/src/durable-binding.ts:703-712 | a journalled publication is stored again as it is |
| DurableBinding.Binding.StoreRepaired | packages/letta-a2a-bridge/src/durable-binding.ts:732-737 | commits row, snapshot and record of a decided outcome together |
| DurableBinding.Binding.RecoverOne | packages/letta-a2a-bridge/src/durable-binding.ts:700-738 | one iteration commits its transaction or throws |
| DurableBinding.Binding.Recover | packages/letta-a2a-bridge/src/durable-binding.ts:699-739 | the pass over records read once at its start equals recovery against the changing journal |
| DurableBinding.Binding.Open | packages/letta-a2a-bridge/src/durable-binding.ts:248-254 | validation, then recovery; either failure closes the store |
| DurableBinding.Binding.BindAgent | packages/letta-a2a-bridge/src/durable-binding.ts:278-283 | binds the journal to one agent, or refuses another |
| DurableBinding.Binding.Attach | packages/letta-a2a-bridge/src/durable-binding.ts:258-265 | attaches at most one bridge, and binds the journal to one sharing domain or refuses another |
| DurableBinding.Binding.Release | packages/letta-a2a-bridge/src/durable-binding.ts:266-271 | only a complete close gives the store back |
| SqliteStore.AllRows | packages/letta-a2a-bridge/src/sqlite-store.ts:184-190 | a query lists each row once |
| SqliteStore.BindingStore.Begin | packages/letta-a2a-bridge/src/sqlite-store.ts:209-216 | refuses a closed store and a nested transaction |
| SqliteStore.BindingStore.Commit | packages/letta-a2a-bridge/src/sqlite-store.ts:224-225 | what was written becomes durable |
| SqliteStore.BindingStore.Rollback | packages/letta-a2a-bridge/src/sqlite-store.ts:226-231 | what was durable is restored |
| SqliteStore.BindingStore.SaveTask | packages/letta-a2a-bridge/src/sqlite-store.ts:113-121 | changes one task row and nothing else |
| SqliteStore.BindingStore.DeleteTask | packages/letta-a2a-bridge/src/sqlite-store.ts:155-160 | removes one task row and nothing else |
| SqliteStore.BindingStore.SetExecution | packages/letta-a2a-bridge/src/sqlite-store.ts:192-200 | changes one record and nothing else |
| SqliteStore.BindingStore.SetPublication | packages/letta-a2a-bridge/src/sqlite-store.ts:192-200 | changes one snapshot and nothing else |
| SqliteStore.BindingStore.SetMapping | packages/letta-a2a-bridge/src/sqlite-store.ts:192-200 | changes one mapping and nothing else |
| SqliteStore.BindingStore.SetMessage | packages/letta-a2a-bridge/src/sqlite-store.ts:192-200 | changes one tombstone and nothing else |
| SqliteStore.BindingStore.DeleteAttempt | packages/letta-a2a-bridge/src/sqlite-store.ts:202-207 | removes one record with its snapshot and nothing else |
| SqliteStore.BindingStore.Close | packages/letta-a2a-bridge/src/sqlite-store.ts:234-244 | idempotent, refused inside a transaction |
| TurnRunner.Runner.Prepare | packages/letta-a2a-bridge/src/letta-agent.ts:132-189 | nothing is submitted unless the context is unquarantined, available and mapped, the caller's own hook agreed, the session resumed the known conversation and the intent is committed |
| TurnRunner.Runner.Resume | packages/letta-a2a-bridge/src/letta-agent.ts:135-173 | the quarantine, the caller's hook and the durable guard come before the session, which resumes the cached conversation, else the mapped one |
| TurnRunner.Runner.Correlate | packages/letta-a2a-bridge/src/letta-agent.ts:174-188 | the conversation is mapped and cached, the second guard passed and the intent committed, or nothing is submitted |
| TurnRunner.Runner.Stream | packages/letta-a2a-bridge/src/letta-agent.ts:190-202 | every message is observed durably before it is used; text and last result are those of the whole stream |
| TurnRunner.Runner.Observe | packages/letta-a2a-bridge/src/durable-binding.ts:181-204 | an observation keeps the turn's record in its phase |
| TurnRunner.Runner.RunTurn | packages/letta-a2a-bridge/src/letta-agent.ts:132-233 | at most one submission; it ends in a committed stop of a settled success or in quarantine; a finished turn returns the whole text |
| PromiseChain.MutualExclusion | packages/letta-a2a-bridge/src/letta-agent.ts:235-258 | over every run, cancellations and deletions included, at most one body per key runs |
| PromiseChain.StartOrder | packages/letta-a2a-client/src/context-store.ts:38-69 | bodies of one key begin in arrival order, none twice |
| PromiseChain.RunKeeps | packages/letta-a2a-bridge/src/push.ts:276-283 | the chain invariant holds after every run |
| PromiseChain.SettledIffClear | packages/letta-a2a-bridge/src/letta-agent.ts:240-246 | a tail has settled exactly when everything of its key up to it is out of the way |
| PromiseChain.StartsInTurn | packages/letta-a2a-bridge/src/letta-agent.ts:263-285 | a waiter may start exactly when it is first in line for a free lock: no early and no lost wake-up |
| PromiseChain.Refines | packages/letta-a2a-bridge/src/letta-agent.ts:235-258 | every step is a step of a FIFO mutex of its key; deleting a map entry is none |
| PromiseChain.Independent | packages/letta-a2a-client/src/context-store.ts:44-52 | a step of one key is invisible to every other key |
| PromiseChain.ContextLock.Arrive | packages/letta-a2a-bridge/src/letta-agent.ts:240-246 | reads the tail, links behind it and becomes the tail |
| PromiseChain.ContextLock.Begin | packages/letta-a2a-bridge/src/letta-agent.ts:247-249 | a body that begins is alone |
| PromiseChain.ContextLock.Release | packages/letta-a2a-bridge/src/letta-agent.ts:250-251 | a leaver releases its own gate only |
| PromiseChain.ContextLock.Forget | packages/letta-a2a-bridge/src/letta-agent.ts:252-257 | only the settled tail deletes its entry |
| WireStream.StreamShape | packages/letta-a2a-bridge/src/letta-agent-executor.ts:97-206 | task, working, progress without immediate repeats, then the artifact and the terminal status once as the last events, or neither |
| WireStream.StreamAgreesWithJournal | packages/letta-a2a-bridge/src/letta-agent-executor.ts:174-198 | what follows the progress is the journalled last word exactly when no assistant text arrives while it is being journalled |
| WireStream.OnlyTextDiffers | packages/letta-a2a-bridge/src/letta-agent-executor.ts:188-198 | even then the terminal status and `lastChunk` agree, and the text on the wire extends the journalled one |
| WireStream.LastChunkMeansSuccess | packages/letta-a2a-bridge/src/letta-agent-executor.ts:403-456 | `lastChunk` is true exactly on success, and the terminal status is then the runner's own |
| WireStream.ProgressShape | packages/letta-a2a-bridge/src/letta-agent-executor.ts:388-401 | progress repeats no phase immediately and ends with the last one |
| WireStream.ProgressStatus.Update | packages/letta-a2a-bridge/src/letta-agent-executor.ts:393-397 | publishes a change of phase, unless closed |
| WireStream.TextArtifact.Push | packages/letta-a2a-bridge/src/letta-agent-executor.ts:418-420 | collects text until settled |
| WireStream.TextArtifact.Prepare | packages/letta-a2a-bridge/src/letta-agent-executor.ts:421-423 | takes the fallback only when nothing was streamed |
| WireStream.TextArtifact.Snapshot | packages/letta-a2a-bridge/src/letta-agent-executor.ts:425-442 | at most one artifact event, none without text |
| WireStream.TextArtifact.Settle | packages/letta-a2a-bridge/src/letta-agent-executor.ts:450-455 | publishes once |
| WireStream.Interpret | packages/letta-a2a-bridge/src/letta-agent-executor.ts:149-173 | decides terminal state and success of a settled runner call |
| WireStream.Settle | packages/letta-a2a-bridge/src/letta-agent-executor.ts:174-198 | journals the last word, then publishes it with whatever text came in between, or neither; later callbacks have no effect |
| WireStream.RunTurn | packages/letta-a2a-bridge/src/letta-agent-executor.ts:143-147 | delivers the callbacks of one turn in order, each as the specification says |
| WireStream.ExecuteTurn | packages/letta-a2a-bridge/src/letta-agent-executor.ts:97-219 | the whole stream and the journal entry of one request |
| ToolTheorems.BindingQuarantine | packages/letta-a2a-client/src/tool-service.ts:172-223 | no binding ever submits while an earlier submission through it has no recorded acceptance or response, also with `newContext`, over crashes at every write |
| ToolTheorems.BindingQuarantineAtSubmit | packages/letta-a2a-client/src/tool-service.ts:280-295 | the same at the moment of the submission |
| ToolTheorems.SubmittedOnce | packages/letta-a2a-client/src/tool-service.ts:363-374 | each message is submitted at most once, message ids being fresh: the machine begins no call with a used one, which a caller of the service could supply |
| ToolTheorems.ContextQuarantine | packages/letta-a2a-client/src/tool-service.ts:236-249 | no binding submits to a known context past an unsettled submission of any binding, in every run in which neither of the two writes of `OverruledExactly` takes that submission's mark from the context's record |
| ToolTheorems.UnsettledStaysMarked | packages/letta-a2a-client/src/tool-service.ts:289-295 | whatever crashes, an unsettled message stays marked in its binding's record, and in its known context's record exactly as long as no action of the run is one of the two writes that take the mark |
| ToolTheorems.SubmissionIsAllowed | packages/letta-a2a-client/src/tool-service.ts:250-278 | a submission is made only past readback, over a task that has ended or is the interrupted one being continued |
| ToolTheorems.MergeRepairs | packages/letta-a2a-client/src/tool-service.ts:239-249 | when the binding has nothing pending, the merge passes a fence exactly for the binding's own message |
| ToolTheorems.MergePassesFenceExactly | packages/letta-a2a-client/src/tool-service.ts:240-248 | the merge passes another message's fence exactly when the binding is of this context and pending and the record is not pending |
| ToolTheorems.OverruledExactly | packages/letta-a2a-client/src/tool-service.ts:318-344 | an action that does not settle an unsettled message takes its mark from the context's record exactly if it is the write of a call that did not know the context, or a check whose merge prefers a pending binding and whose readback agrees |
| ToolTheorems.CrashAdmitsNoMore | packages/letta-a2a-client/src/tool-service.ts:281-421 | wherever a call dies from its first note on, also between the two writes of a withdrawal, the pair of records admits nothing that the finished write would not admit, and nothing at all before the submission |
| ToolTheorems.RunPairs | packages/letta-a2a-client/src/tool-service.ts:304-345 | how far the two records of a call may lie apart, in every run |
| ToolWitness.MergePassesFence | packages/letta-a2a-client/src/tool-service.ts:240-248 | a reachable state with two submissions to one known context, the first unsettled, by way of the merge |
| ToolWitness.LearnedContextOverwritesFence | packages/letta-a2a-client/src/tool-service.ts:318-344 | another, by way of a context learned from the peer |
| ToolJournalProofs.RunKeeps | packages/letta-a2a-client/src/tool-service.ts:172-223 | the invariant of the client machine holds after every run |
| ToolJournalProofs.ReadBindingKeeps | packages/letta-a2a-client/src/tool-service.ts:173-191 | keeps the invariant when the binding is read and the context determined, or the call refused |
| ToolJournalProofs.CheckKeeps | packages/letta-a2a-client/src/tool-service.ts:236-278 | keeps the invariant over merge, readback and both refusals; an unsettled message whose mark the stored readback takes is on record as overruled |
| ToolJournalProofs.CheckClears | packages/letta-a2a-client/src/tool-service.ts:240-249 | a check that needs no readback passes only where every submission to the context is settled or had lost its mark before |
| ToolJournalProofs.WriteNoteKeeps | packages/letta-a2a-client/src/tool-service.ts:281-290 | keeps the invariant when the note is written under the binding: whatever it replaces was settled |
| ToolJournalProofs.ContextNoteKeeps | packages/letta-a2a-client/src/tool-service.ts:291-295 | keeps the invariant when the note is written under the context: whatever it replaces was settled or overruled before |
| ToolJournalProofs.SubmitKeeps | packages/letta-a2a-client/src/tool-service.ts:363-374 | keeps the invariant over the submission: both records carry the message before the peer can |
| ToolJournalProofs.HearKeeps | packages/letta-a2a-client/src/tool-service.ts:304-318 | keeps the invariant when a task heard replaces the record of the binding: the message is settled, or the record still marks it |
| ToolJournalProofs.RelayKeeps | packages/letta-a2a-client/src/tool-service.ts:319-345 | keeps the invariant when it replaces the record of the context, also of one just learned |
| ToolJournalProofs.RespondKeeps | packages/letta-a2a-client/src/tool-service.ts:377-405 | keeps the invariant over a message response, which settles the message |
| ToolJournalProofs.WithdrawKeeps | packages/letta-a2a-client/src/tool-service.ts:415-416 | keeps the invariant when the binding is put back after a failure before the submission: the message was never out |
| ToolJournalProofs.WithdrawContextKeeps | packages/letta-a2a-client/src/tool-service.ts:417-421 | keeps the invariant when the context is put back too |
| ToolJournalProofs.StopKeeps | packages/letta-a2a-client/src/tool-service.ts:439-444 | keeps the invariant when a call ends or dies anywhere: it leaves its records and frees its locks |
| ToolLocks.RanksIncrease | packages/letta-a2a-client/src/tool-service.ts:192-209 | binding, context, file: every lock a call waits for ranks above all it holds, also that of a context learned in mid-invocation and the write lock of the store |
| ToolLocks.NoDeadlock | packages/letta-a2a-client/src/tool-service.ts:319-340 | whatever the calls hold and wait for, the write lock included, one of them can move |
| ToolService.Service.ReadBinding | packages/letta-a2a-client/src/tool-service.ts:173-191 | reads the binding, and either refuses, also where only a legacy entry is left, or determines the context as the machine does |
| ToolService.Service.Merged | packages/letta-a2a-client/src/tool-service.ts:236-248 | returns the merge of the records stored for the binding and the context of the call |
| ToolService.Service.Check | packages/letta-a2a-client/src/tool-service.ts:236-278 | passes exactly when the step of the machine does, and stores exactly what it stores |
| ToolService.Service.Proceed | packages/letta-a2a-client/src/tool-service.ts:249-278 | re-reads and stores the merged record, and refuses exactly what the machine refuses |
| ToolService.Service.WriteNote | packages/letta-a2a-client/src/tool-service.ts:281-290 | writes the note under the binding alone |
| ToolService.Service.WriteContextNote | packages/letta-a2a-client/src/tool-service.ts:291-295 | writes it under the known context alone, if there is one |
| ToolService.Service.WriteTask | packages/letta-a2a-client/src/tool-service.ts:304-318 | accepts a task only if it matches and writes its snapshot under the binding alone |
| ToolService.Service.Relay | packages/letta-a2a-client/src/tool-service.ts:341-345 | writes it under the locked context alone, if there is one |
| Invoker.OneIdentity | packages/letta-a2a-client/src/a2a-invoker.ts:457-467 | all snapshots delivered share one identity, consistent with the caller's ids |
| Invoker.ReturnedIsLast | packages/letta-a2a-client/src/a2a-invoker.ts:154-169 | a returned task is stopped and was delivered last; nothing before it was stopped |
| Invoker.ReturnsIff | packages/letta-a2a-client/src/a2a-invoker.ts:154-169 | a task is returned exactly when the peer's agreeing answers reach a stopped one before anything fails |
| Invoker.Execution.Accept | packages/letta-a2a-client/src/a2a-invoker.ts:259-269 | the identity is checked whole before any of it is pinned |
| Invoker.Execution.CancelAccepted | packages/letta-a2a-client/src/a2a-invoker.ts:271-285 | cancellation is requested only for the accepted id, and only an agreeing readback is kept |
| Invoker.Execution.Poll | packages/letta-a2a-client/src/a2a-invoker.ts:150-169 | the polling loop does what the specification of its answers says |
| Invoker.Execution.Invoke | packages/letta-a2a-client/src/a2a-invoker.ts:132-176 | at most one submission; a failure after acceptance asks once to cancel the accepted task |
| FileStore.Serialisable | packages/letta-a2a-client/src/context-store.ts:106-129 | for any processes and crash points the file is the fold of the committed writes in lock order |
| FileStore.LastWriteWins | packages/letta-a2a-client/src/context-store.ts:113-121 | in the file of any run each key has the value of its last committed write |
| FileStore.OnlyWritten | packages/letta-a2a-client/src/context-store.ts:131-161 | the file of any run has exactly the keys of committed writes |
| FileStore.OneHolder | packages/letta-a2a-client/src/context-store.ts:164-184 | two operations never hold the lock of one path |
| FileStore.ReleasesOnlyItsOwn | packages/letta-a2a-client/src/context-store.ts:187-196 | a release removes only a lock file with its own token, although it reads and removes in two steps |
| FileStore.OrphanFailsClosed | packages/letta-a2a-client/src/context-store.ts:199-210 | an orphaned lock file stays until it is removed by hand |
| FileStore.RunKeeps | packages/letta-a2a-client/src/context-store.ts:106-129 | the invariant of files, locks and committed writes holds after every run |
| FileStore.Store.Acquire | packages/letta-a2a-client/src/context-store.ts:164-209 | the retry loop holds the lock exactly if some attempt finds no file |
| FileStore.Store.Release | packages/letta-a2a-client/src/context-store.ts:187-196 | removes only its own lock file |
| FileStore.Store.Set | packages/letta-a2a-client/src/context-store.ts:106-129 | read, modify, replace what the lock was found with; the lock is given back either way |
| DataPreview.AlikeSame | packages/letta-a2a-client/src/tool-operations.ts:211-257 | values alike but for strings, filtered keys and what width cuts off have the same preview and use the same budget |
| DataPreview.VisitBounded | packages/letta-a2a-client/src/tool-operations.ts:223-229 | depth, width and keys of a preview are bounded |
| DataPreview.BudgetIsShared | packages/letta-a2a-client/src/tool-operations.ts:216-218 | one node budget is shared by the whole value and used exactly |
| DataPreview.Projection.Preview | packages/letta-a2a-client/src/tool-operations.ts:217-256 | returns what the recursive specification says and leaves the shared counter where it says |
| DataPreview.Projection.PreviewItems | packages/letta-a2a-client/src/tool-operations.ts:224-229 | the same for the items of a list |
| DataPreview.Projection.PreviewEntries | packages/letta-a2a-client/src/tool-operations.ts:236-253 | the same for the entries of an object, filtered keys left out |

## Left out

- ToolTheorems.ContextQuarantine: holds for runs that take no mark of the submission; without that condition it is false, as `ToolWitness` shows.
- ToolTheorems.SubmittedOnce: a message id that a caller supplies twice is not modelled; the machine begins no call with a used one.
- ToolTheorems.CrashAdmitsNoMore: speaks of a context known before the submission; for one learned from the peer the second record may belong to another binding.
- BridgeTruth.CompleteCloseIsQuiet: retention, and an operator call whose check came before the bridge attached and whose commit comes after, are the operator's own writes and are excepted; a later save of the SDK may rewrite a task row.
- BridgeLife.PruneStepKeeps: the machine prunes one task in a step; `DurableBinding.Binding.Prune` is the pass over all of them.
- DurableBinding.Binding.Open: recovery is one method here; crashes between its transactions are steps of `Bridge`.
- DurableBinding.Binding.Save: the methods of the binding are shown for an open store whose records lie under their own keys, which validation guarantees; on a closed store each of them throws before it does anything.
- TurnRunner.Runner.RunTurn: one turn without interleaving, with one clock reading; interleavings are steps of `Bridge`.
- PromiseChain.ContextLock.Begin: an abort that arrives together with the predecessor's settlement is a cancellation or a start, whichever callback runs.
- Invoker.Execution.Invoke: the event stream of `events`, and deadlines other than as the end of the peer's answers.
- FileStore.Store.Set: an operation runs to its end here; its crashes are steps of the machine in the same module.
- Message history, message parts and artifact metadata of tasks; a task here is its identity, status and artifacts.
- The order in which `ORDER BY` returns rows; every order is allowed.
- Invalid JSON and wrong field types in stored records, which the loaders refuse.
- The retry loop, redirect rules and transports of push delivery; only its per-task chain is modelled.
- Authentication, agent cards, HTTP routing, pagination and the coalescing of text parts.
- Reconciliation of client records by an operator, which happens outside the program.
