# The agent's protocols, modelled and proved

The agent runs on a student or competition server and carries out commands of a
management server: power-off, Docker training environments, image deployment, root
terminals. What makes that hard is everything that can go wrong between two steps. These
files model that logic in Dafny and prove what it keeps.

`dafny verify dfyconfig.toml` checks everything.

## What is here

- **Command journal** (`Journal`, `StateFile`, `Dispatcher`). A journaled command goes
  through load, acknowledged start, saved intent, execution, saved result, report and clear.
  `Journal` is the step machine: one durable cell, one program counter, the server's set of
  ended commands, histories of executions and reports, and a crash enabled everywhere.
  `Dispatcher` is the code: classes whose methods append their steps to a ghost history that
  is a run of that machine.
- **Terminal sessions** (`TerminalSession`, `TerminalManager`). `TerminalSession` is the
  machine of all threads: the dispatching thread, one waiter per session, closers, recovery,
  with every lock section, store call and report as a step, and the process restarting at any
  time. `TerminalManager` is the class with the manager's fields, method by method; between
  any two of its steps all other threads may run, and its history is a run of the machine.
- **Relay** (`TokenBucket`, `OutboundQueue`). The two-number bucket against the minimum over
  all past windows, and the byte account of the outbound queue under any interleaving.
- **Container pairs** (`Pair`, `FakeExecutor`, `DockerExecutor`). What each operation does to
  the container map, the in-memory executor and the Docker executor proved against it, the
  second refining the first over whole sequences, and the compensation of failed calls.
- **Smaller cores** (`JsonWalk`, `Paths`, `Workspace`, `Shell`, `Heartbeat`, `ImageCopy`).

## What is assumed

- **Server.** A start is accepted only for a command that is not over. A final report that
  comes back without error (2xx or 409) means the command is over. A RUNNING report never
  ends a command. A request may take effect although its reply is lost, and the server may
  end commands on its own at any time.
- **Stores.** Success means the new state; an error means the old state or the new one, since
  a save can still fail after its rename. Processes crash; the machine does not lose power.
  A journal that cannot be loaded, for example above 64 KiB, is a load error, so nothing is
  claimed about progress.
- **Docker.** A failed call has no effect, and the agent is the only one that changes
  containers. Directories, the MPS service, TLS files, readiness, sign-in and in-container
  commands are one probe that succeeds or fails.
- **Terminal recovery** is retried only at start-up (cmd/xkp-agent/main.go:101). The model is
  wider: it may run at any time, except while the dispatching thread books a failed start.
- `calm`, `healthy` and `sound` mark a world in which no call fails. Contracts under them say
  what must happen then; everything else is proved without them.
- A wait that never ends is a call that never returns: the waiting methods of
  `TerminalManager` answer `StillWaiting`, `Waiting` or `over == false` instead.

## Where the code does less than one might expect

- `RecordStartFailure` may fail behind the rename; then a record is on disk that nothing
  announces, and a next start overwrites it unreported (`LateFailureLosesARecord`).
  `AnnouncementBreaksIff` and `AnnouncementHealsIff` say exactly when this begins and ends: a
  restart heals it. The theorems about records are about all histories in which no start got
  in before it was healed since the process was last started, and `StartGetsInOverRecordIff`
  says when one can.
- A failed start may end neither reported nor recorded: when the process dies while no
  record of it is on disk (`CrashForsakes`), and without any crash when the save in
  `RecordStartFailure` fails without effect, since the dispatcher then returns before it reports
  (`FailedSaveForsakes`). `AccountedIff` says these are the only ways in those
  histories.
- The next heartbeat sequence can move back (`NextSequenceCanFall`, `NextSequenceFallsIff`).
- The bucket is not characterised by its earlier windows alone; the burst bounds the request
  itself (`EarlierWindowsAreNotEnough`).
- A create that finds a component running reports it as STOPPED (`SameAnswerIff`,
  `CreateOverRunning`).
- `StopPair` does not compensate when an inspection fails after its stops (`StopPair`,
  `StopChangesIff`).
- `DeletePair` checks one component at a time, so a mismatch at the second leaves the first
  deleted (`DeletePair`, `RefusedDeleteKeepsIff`, `RefusedDeleteMayDelete`).
- `validRelativeWorkspace` lets a leading `../` through, and such a path may lead outside the
  root (`DecodedPathMayLeave`), though it need not (`DecodedPathMayReturn`);
  `DecodedPathLeavesIff` says exactly when. Only `resolveWorkspace` stops it.

## Model

| member | source | states |
|---|---|---|
| Journal.AtMostOnce | README.md:97-103 | in every run, with a crash between any two steps, lost replies and store errors that leave the old or the new state, no command id is executed twice |
| Journal.ReportsAgree | internal/runtime/command_dispatcher.go:599-610 | any two final reports of one command carry the same stored result, and so does whatever the journal still holds for it; progress reports are not final reports |
| Journal.SuccessIsReal | internal/runtime/command_dispatcher.go:198-213 | a final report of success stands for an execution of that very command that returned no error |
| Journal.UnknownMeansUnrecorded | internal/runtime/command_dispatcher.go:584-596 | a final report says EXECUTION_OUTCOME_UNKNOWN if and only if no real outcome of that command ever reached the disk |
| Journal.CodeTellsSuccess | internal/runtime/command_dispatcher.go:198-213 | a final report carries the lease its command was stored with, and its code alone tells whether it is a success |
| Journal.ReportsTellTheOutcome | internal/runtime/command_dispatcher.go:523-557 | every final report names, code by code for each kind of command, the outcome that command had, with its details or its error's text, or says that the outcome is unknown |
| Journal.DeniedOnlyWithoutGrant | internal/runtime/command_dispatcher.go:523-529 | a command is denied only if it creates, starts, restores or deletes an environment; never a stop, a shutdown, an image deployment or a Docker inventory |
| Journal.EarlierCommandsAreSettled | internal/runtime/agent.go:156-188 | when the start of a command is acknowledged the journal is empty, and every command executed before is another one, was reported, is over for the server and has left the journal |
| Journal.JournalKeepsItsCommand | internal/runtime/command_dispatcher.go:173-221 | a journal entry is never replaced by another command's: it gains a result once, and goes only when it has one and the command is settled |
| Journal.StepInv | internal/runtime/command_dispatcher.go:142-225 | every step keeps the inductive invariant: an executed command is in the journal or settled, results on disk are unique per command, reports were durable first |
| Journal.RunInv | internal/runtime/command_dispatcher.go:142-225 | the invariant holds after every run from the empty journal |
| StateFile.FileStore.Load | internal/runtime/command_store.go:34-52 | a successful load returns the state that is stored |
| StateFile.FileStore.Save | internal/runtime/command_store.go:54-87 | success means the new state is stored; an error leaves the old state or the new one, never a torn file |
| StateFile.FileStore.Clear | internal/terminal/recovery_store.go:159-187 | success means nothing is stored; an error leaves the old state or nothing |
| Dispatcher.Server.StartCommand | internal/runtime/command_dispatcher.go:191-193 | assumed of the server: a start is accepted only for a command that is not over |
| Dispatcher.Server.FinishCommand | internal/client/client.go:344-351 | assumed of the server: a final report that comes back without error (2xx or 409) means the command is over; it may be over although the reply was lost |
| Dispatcher.CommandDispatcher.ReportStored | internal/runtime/command_dispatcher.go:599-610 | exactly one final report, of the stored result; nil only if the server agrees and the journal is empty; nil when no call fails |
| Dispatcher.CommandDispatcher.ReportFound | internal/runtime/command_dispatcher.go:177-190 | an occupied journal is reported without executing; an intent without result is first given the unknown outcome |
| Dispatcher.CommandDispatcher.RetryPending | internal/runtime/command_dispatcher.go:576-597 | never executes; nil means that what the journal held was reported, with the unknown outcome where it had none, and that it is empty now; nil when no call fails |
| Dispatcher.CommandDispatcher.Begin | internal/runtime/command_dispatcher.go:481-507 | lets the execution start only from an empty journal, after the acknowledged start, with the intent saved; another command's entry is the only cause of the pending-result error; when no call fails it goes ahead exactly from an empty journal and a command that is not over |
| Dispatcher.CommandDispatcher.SendUpdates | internal/runtime/command_dispatcher.go:311-322 | progress reports change neither the journal nor what is reported as final |
| Dispatcher.CommandDispatcher.Execute | internal/runtime/command_dispatcher.go:523-557 | one execution of this command, and no report |
| Dispatcher.CommandDispatcher.AnnounceStart | internal/runtime/command_dispatcher.go:304-309 | RUNNING is reported once before an image deployment begins; an error ends it before anything is executed |
| Dispatcher.CommandDispatcher.Perform | internal/runtime/command_dispatcher.go:324-346 | executed once; when no call fails the outcome is reported once, an error is returned exactly unless it was completed, and the journal is empty |
| Dispatcher.CommandDispatcher.Conclude | internal/runtime/command_dispatcher.go:509-520 | nil only if the outcome was completed, stored, reported once, acknowledged and cleared; when no call fails an outcome that is an error is reported and cleared too |
| Dispatcher.CommandDispatcher.Carry | internal/runtime/command_dispatcher.go:302-346 | from the saved intent: nil only if the command was executed once, reported once with its completed outcome, and the journal is empty |
| Dispatcher.CommandDispatcher.DispatchJournaled | internal/runtime/command_dispatcher.go:173-224 | from an empty journal, nil means carried out: executed once, reported once, over for the server, journal empty; without a grant, creating, starting, restoring and deleting an environment execute nothing in any weather; when no call fails, a command not yet over is reported once: as not granted in those four cases, else executed once, with RUNNING reported for image deployments only; an entry of its own is reported without executing, another's is left alone |
| Dispatcher.CommandDispatcher.Dispatch | internal/runtime/command_dispatcher.go:142-225 | malformed and unjournaled commands leave the journal, the executions and the reports alone; a well-formed journaled one is carried out as above; the pending-result error needs an occupied journal |
| Dispatcher.CommandDispatcher.ProcessCommandsOnce | internal/runtime/agent.go:156-188 | the pending-result error cannot occur; a round that finds an entry executes nothing and, if it returns nil, as it does when no call fails, reported just that entry; otherwise the first error ends the batch and is returned, and nil means exactly the journaled commands of the batch were executed, in order, and the journal is empty |
| Dispatcher.CommandDispatcher.CommandLoop | internal/runtime/agent.go:137-154 | any number of rounds across any number of restarts executes no command twice |
| Heartbeat.Agent.Settle | internal/runtime/agent.go:91-104 | an answer naming the sequence sent moves to the next sequence and resets the pause; an error doubles the pause up to 30 seconds; another sequence changes nothing |
| Heartbeat.StepInv | internal/runtime/agent.go:82-105 | each lock section, by any caller, keeps: everything below the next sequence and below every sequence on the wire is acknowledged |
| Heartbeat.SentInOrder | internal/runtime/agent.go:82-105 | with any number of concurrent callers, sequence k is sent only after each of 1..k-1 was acknowledged |
| Heartbeat.BackoffBounded | internal/runtime/agent.go:92-97 | the pause after failures is always between 1 and 30 seconds |
| Heartbeat.BackoffCountsFailures | internal/runtime/agent.go:92-104 | in every interleaving the pause is one second doubled for each failure since the last acknowledgement, up to 30 seconds |
| Heartbeat.NothingSkipped | internal/runtime/agent.go:101-104 | the next sequence is 1 or directly above an acknowledged one |
| Heartbeat.AcknowledgedMovesOn | internal/runtime/agent.go:101-104 | an acknowledged sequence is followed by the next one |
| Heartbeat.NextSequenceCanFall | internal/runtime/agent.go:101-102 | a run in which a slow caller moves the next sequence back |
| Heartbeat.NextSequenceFallsIff | internal/runtime/agent.go:98-102 | it moves back exactly at the acknowledgement of a sequence more than one behind |
| TerminalSession.StepControl | internal/terminal/manager.go:65-311 | every step of every thread keeps who holds the locks, the slot and the sessions |
| TerminalSession.StepRecord | internal/terminal/manager.go:84-161 | every step keeps what is known about the record, unless a start gets in while a record is on disk |
| TerminalSession.RunControl | internal/terminal/manager.go:65-311 | the control invariant holds after every run, restarts included |
| TerminalSession.RunRecord | internal/terminal/manager.go:84-161 | in every history in which no start got in over an unhealed late failure since the process was last started: the record invariant holds, and the record is exposed or announced according to whether such a failure is pending |
| TerminalSession.RunLosesNothing | internal/terminal/manager.go:106-128 | in every history in which no start ever got in over an unhealed late failure, each record written and neither acknowledged nor rolled back is on disk |
| TerminalSession.RecordIsAnnounced | internal/terminal/manager.go:87-129 | in every such history a record on disk implies an active session or pending recovery wherever another thread can look, exactly except between a late failure and its healing; and if that never happened in an earlier process either, each record written and neither acknowledged nor rolled back is on disk |
| TerminalSession.StartFindsNoRecord | internal/terminal/manager.go:106-112 | in every such history, whenever Start has claimed the session and is about to save, no record is on disk; and if it never happened in an earlier process either, none is owed |
| TerminalSession.StartGetsInOverRecordIff | internal/terminal/manager.go:87-107 | Start is let in while a record is on disk exactly between a late failure and its healing |
| TerminalSession.AnnouncementBreaksIff | internal/terminal/recovery_store.go:142-157 | when no late failure is pending, a step ends the announcement exactly when it is one: a RecordStartFailure whose save fails behind the rename while recovery is not pending |
| TerminalSession.AnnouncementHealsIff | internal/terminal/manager.go:50-63 | and short of a start, a step brings it back exactly when it is a restart or the record goes |
| TerminalSession.LateFailureLosesARecord | internal/terminal/manager.go:144-147 | and then a run exists in which the next Start overwrites the unreported record |
| TerminalSession.StepRemoval | internal/terminal/manager.go:205-225 | from a state that keeps the invariants, a step leaves the record, or removes it for its own acknowledged command, or rolls back its own launch |
| TerminalSession.RemovalIsEarned | internal/terminal/manager.go:114-128 | in every such history a record goes only after the acknowledged report of its own attempt or by the rollback of its own launch, and is never replaced by another attempt's |
| TerminalSession.AccountEndsIff | internal/runtime/command_dispatcher.go:445-457 | an attempt that is reported, recorded or in the dispatching thread's hands ceases to be so exactly when that thread lets go of it unreported and unrecorded: the process dies, or RecordStartFailure's save fails without effect |
| TerminalSession.AccountedIff | internal/runtime/command_dispatcher.go:445-457 | every attempt of this process, and in a history without any start over an unhealed late failure every attempt ever made, is reported, recorded or in hand exactly unless some step let go of it in that way; it is never made good |
| TerminalSession.CrashForsakes | internal/runtime/command_dispatcher.go:445-449 | a history in which dying between the rollback and RecordStartFailure leaves neither record nor report |
| TerminalSession.FailedSaveForsakes | internal/terminal/manager.go:144-146 | a history without any crash in which a failed save in RecordStartFailure leaves neither record nor report |
| TerminalSession.StoreExclusion | internal/terminal/manager.go:77-78 | Start, a failed start being booked, the waiter and the recovery are never at the store together, and two waiters never, though they share no single lock |
| TerminalSession.OneSession | internal/terminal/manager.go:104-107 | active, cancel and done are set together, no done is closed twice, at most one session is neither completed nor cancelled and it is the active one |
| TerminalSession.CloseMeansDone | internal/terminal/manager.go:246-264 | when Close returns nil for a session, its waiter is gone or its launch rolled back, and its record is cleared, announced, being booked, or left by a late failure not yet healed |
| TerminalManager.Manager.NewManager | internal/terminal/manager.go:50-63 | over whatever any earlier process left: recovery is pending exactly if a record is stored, and the theorems about records hold from here on |
| TerminalManager.Manager.Claim | internal/terminal/manager.go:87-107 | the deciding lock section: active session first, then pending recovery, then deadline, else the slot is taken |
| TerminalManager.Manager.Start | internal/terminal/manager.go:65-132 | which answer it gives for which state it saw under the lock, as the history shows; at most one new attempt; the record is written over nothing; after a failure the slot is free, done is closed, and a record left behind is its own and pending |
| TerminalManager.Manager.Abandon | internal/terminal/manager.go:109-129 | a start that could not save or launch ends rolled back, with its record cleared or recovery pending |
| TerminalManager.Manager.RollbackStart | internal/terminal/manager.go:163-171 | the slot is given back and done closed |
| TerminalManager.Manager.RecordStartFailure | internal/terminal/manager.go:134-151 | success means the record of this attempt is stored and recovery pending; after an error a record on disk can only be this attempt's |
| TerminalManager.Manager.ClearStartFailure | internal/terminal/manager.go:153-161 | success means no record is stored and nothing is pending |
| TerminalManager.Manager.AwaitCompletion | internal/terminal/manager.go:173-238 | at its end the session's done is closed, the slot is free, and a record left on disk is its own and pending; reported means acknowledged |
| TerminalManager.Manager.ReportCompletion | internal/terminal/manager.go:205-217 | the report is tried until it is acknowledged, three times at most, and given up only after three |
| TerminalManager.Manager.Close | internal/terminal/manager.go:246-264 | nil means no session was active, or the one found is over: done closed, waiter gone, slot not its own, record cleared, announced, being booked or left by an unhealed late failure |
| TerminalManager.Manager.RetryRecovery | internal/terminal/manager.go:275-311 | nil means no record is stored and nothing is pending; it is turned away only by the lock or by a failed start being booked |
| TerminalManager.Manager.RetryFound | internal/terminal/manager.go:295-310 | the record is cleared only after its own attempt was acknowledged, and what the disk held when it was cleared is the record that was reported |
| TerminalManager.Manager.DispatchTerminal | internal/runtime/command_dispatcher.go:401-461 | told by the history: a start refused for an active session, and only that, is followed by closing the session; a second start is made exactly when that closing succeeded; the last answer decides, so it is refused only if that answer refused it; one attempt at most; a failed attempt ends acknowledged, or recorded and pending, or its record could not be saved |
| TerminalManager.Manager.StartOrReplace | internal/runtime/command_dispatcher.go:412-421 | the same up to the answer, with the attempt it made |
| TerminalManager.Manager.BookFailedStart | internal/runtime/command_dispatcher.go:445-457 | a failed start ends acknowledged, or recorded and pending, or its record could not be saved and then the disk holds nothing or its own record |
| TokenBucket.TokenBucket.Allow | internal/terminal/relay.go:132-149 | the new tokens, time and answer are those of the two-number specification |
| TokenBucket.RefillMeaning | internal/terminal/relay.go:136-143 | refilling computes the minimum over all past windows and the one opened now |
| TokenBucket.AllowKeeps | internal/terminal/relay.go:132-149 | a call keeps the tokens equal to the smallest budget over all windows |
| TokenBucket.PlayRepresents | internal/terminal/relay.go:126-149 | after any calls on any clock the two numbers are the latest time seen and the smallest budget |
| TokenBucket.AllowIsExact | internal/terminal/relay.go:132-149 | n bytes are admitted exactly when they overfill no window from any earlier entry to now, nor the burst alone |
| TokenBucket.EveryWindowBounded | internal/terminal/relay.go:19-21 | between any two entries at most burst plus rate times elapsed time was admitted |
| TokenBucket.EarlierWindowsAreNotEnough | internal/terminal/relay.go:138-140 | the earlier windows alone do not characterise the answer: a request above the burst after a pause |
| OutboundQueue.StepInv | internal/terminal/manager_linux.go:124-141 | every atomic operation of any sender or the writer keeps the byte account |
| OutboundQueue.QueueBounded | internal/terminal/manager_linux.go:124-141 | in every interleaving the bytes held never exceed 1 MiB, the channel never 64 messages, and the counter is the bytes held plus failed reservations, hence never negative |
| OutboundQueue.RefusedIff | internal/terminal/manager_linux.go:126-129 | a reservation is refused exactly when the bytes held, failed reservations in flight and the message exceed the limit |
| OutboundQueue.QuietCounter | internal/terminal/manager_linux.go:124-152 | at rest the counter is the sum of the channel: nothing leaks |
| OutboundQueue.FirstInFirstOut | internal/terminal/manager_linux.go:132-152 | in every interleaving the messages accepted so far are those taken out and then those in the channel, in order: none lost, none twice |
| OutboundQueue.Queue.Send | internal/terminal/manager_linux.go:124-137 | sent exactly when the counter and then the channel had room, and then behind what was there; others run in between |
| OutboundQueue.Queue.Dequeue | internal/terminal/manager_linux.go:150-152 | the oldest message is taken out and its bytes given back; the others stay behind it in order |
| Pair.ValidatePairIdentity | internal/container/validator.go:84-104 | accepts exactly one or two well-formed components with distinct types and names |
| Pair.ValidIdentityIff | internal/container/validator.go:84-104 | a valid identity, clause by clause: one or two components, annotation or editor, distinct, with well-formed names and fingerprints |
| Pair.DockerAcceptsWhatFakeAccepts | internal/container/fake.go:37-135 | with the containers at the payload's names of its environment, what the in-memory executor accepts Docker accepts |
| Pair.SameMap | internal/container/docker.go:262-386 | and both reach the same container map |
| Pair.DockerAcceptsIff | internal/container/docker.go:262-386 | which containers each operation accepts: create and stop take missing components, restore and delete any fingerprint, start neither; each wants the agent's label, the environment and the component type |
| Pair.DockerLeaves | internal/container/docker.go:262-386 | the container each operation leaves for each component, in every accepted state |
| Pair.DockerAnswers | internal/container/docker.go:576-600 | the state each operation reports for each component, in every accepted state |
| Pair.DockerLeavesAlone | internal/container/docker.go:262-386 | no operation changes a container outside the payload |
| Pair.RestoreTakesAnything | internal/container/docker.go:285-323 | every payload that may be created is restored from nothing and from running containers of other fingerprints, which create, start and stop refuse |
| Pair.FakeAcceptsIff | internal/container/fake.go:137-155 | which entries the in-memory executor accepts for each operation |
| Pair.FakeLeaves | internal/container/fake.go:37-135 | the entry each operation leaves, and the state it reports, for each component |
| Pair.StaysAssigned | internal/container/docker.go:354-386 | no operation gives a container name to another environment than the one it is assigned to |
| Pair.SameAnswerIff | internal/container/docker.go:354-386 | and give the same answer, exactly unless a create finds a component running |
| Pair.CreateOverRunning | internal/container/docker.go:580-590 | every payload that may be created is accepted by both and answered differently when its containers run already |
| Pair.DockerRefinesFake | internal/container/fake.go:37-135 | over every sequence of operations the in-memory executor accepts, for any number of environments and beside any other containers: accepted by Docker, same map, and answered alike at exactly the requests that do not create over a running component |
| FakeExecutor.FakeExecutor.PreflightLocked | internal/container/fake.go:137-145 | accepts exactly when every component that exists has the payload's type and fingerprint |
| FakeExecutor.FakeExecutor.RequirePairLocked | internal/container/fake.go:147-155 | accepts exactly when every component exists with the payload's type and fingerprint |
| FakeExecutor.FakeExecutor.InspectPair | internal/container/fake.go:28-35 | the state of each component by slot, or a refusal of a mismatch |
| FakeExecutor.FakeExecutor.CreatePair | internal/container/fake.go:37-60 | accepted exactly under the stated condition; only missing components are added; a refusal changes nothing |
| FakeExecutor.FakeExecutor.StartPair | internal/container/fake.go:62-77 | accepted exactly when complete; exactly the payload's entries run; a refusal changes nothing |
| FakeExecutor.FakeExecutor.StopPair | internal/container/fake.go:79-94 | accepted exactly when complete; exactly the payload's entries stop; a refusal changes nothing |
| FakeExecutor.FakeExecutor.RestorePair | internal/container/fake.go:96-117 | accepted exactly when complete; the payload's entries are replaced, stopped; a refusal changes nothing |
| FakeExecutor.FakeExecutor.DeletePair | internal/container/fake.go:119-135 | accepted exactly when what exists belongs; exactly the payload's names go; a refusal changes nothing |
| DockerExecutor.DockerExecutor.InspectComponent | internal/container/docker.go:521-555 | present only with this environment's labels (and fingerprint, when exact), rejected for a mismatch or an unreadable inspection |
| DockerExecutor.DockerExecutor.InspectStates | internal/container/docker.go:482-496 | succeeds only if everything there matches, and tells exactly which components run |
| DockerExecutor.DockerExecutor.InspectResult | internal/container/docker.go:498-519 | the state of each component by slot |
| DockerExecutor.CompensateStop | internal/container/docker.go:563-568 | of the containers just started, each is stopped once, latest first, and exactly those whose stop failed still run |
| DockerExecutor.CompensateStart | internal/container/docker.go:570-574 | of the containers just stopped, each is started once, latest first, and exactly those whose start failed are still stopped |
| DockerExecutor.CompensateRemove | internal/container/docker.go:557-561 | of the containers just created, each is removed once, latest first, and exactly those whose removal failed are still there |
| DockerExecutor.DockerExecutor.CreatePair | internal/container/docker.go:69-81 | success is exactly the specified map and answer; on failure the map is as before but for containers this call created whose removal failed; foreign containers untouched; a mismatch changes nothing; without faults it accepts exactly what is specified |
| DockerExecutor.DockerExecutor.StartPair | internal/container/docker.go:83-126 | success is exactly the specified map and answer; on failure running flags are as before but for containers this call started whose stop failed; foreign containers untouched; a mismatch changes nothing; without faults it accepts exactly what is specified |
| DockerExecutor.DockerExecutor.StopPair | internal/container/docker.go:262-283 | the same for stopping, but for a failure of the last inspection; with no compensation missed, a refused stop changed the map exactly when an inspection failed after a stop had succeeded |
| DockerExecutor.StopChangesIff | internal/container/docker.go:262-283 | stopping changes the map exactly when some component runs |
| DockerExecutor.DockerExecutor.RestorePair | internal/container/docker.go:285-323 | without faults, whenever each of the payload's names is missing or carries the agent's label, the environment and the type, whatever its fingerprint and state, it succeeds and leaves every component stopped at the payload's fingerprint; success is exactly the specified map and answer; a failure leaves each component as it was, stopped, gone or newly made, and none is gone or newly made while another runs; foreign containers untouched; a mismatch changes nothing |
| DockerExecutor.DockerExecutor.DeletePair | internal/container/docker.go:325-352 | success is exactly the specified map and answer; a refusal leaves an owned prefix deleted and at most the next component stopped; without faults exactly the components in front of the first mismatch are deleted; containers outside the payload or not owned are untouched |
| DockerExecutor.RefusedDeleteKeepsIff | internal/container/docker.go:325-352 | a delete refused for a mismatch changes nothing exactly when none of the components in front of the first mismatch is there |
| DockerExecutor.RefusedDeleteMayDelete | internal/container/docker.go:325-352 | every payload of two components, its second foreign, is refused and loses its first |
| DockerExecutor.DockerExecutor.CreateAbsent | internal/container/docker.go:354-386 | only missing components are created; a failure removes them again |
| DockerExecutor.RestoreMeaning | internal/container/docker.go:285-323 | after a restore every component exists, stopped, labelled for this environment, at the payload's fingerprint |
| JsonWalk.Decoder.Descend | internal/protocol/command.go:399-443 | the recursive walk, over the decoder, does what the specification of the remaining tokens says, and terminates |
| JsonWalk.RejectDuplicateFields | internal/protocol/command.go:397-453 | accepts exactly a walk that succeeds and leaves nothing behind |
| JsonWalk.WalkDecides | internal/protocol/command.go:399-443 | for every value and whatever follows: the walk consumes exactly its tokens, and succeeds if and only if no object at any depth repeats a key |
| JsonWalk.NoDuplicatesIff | internal/protocol/command.go:399-443 | what is decided speaks of every object within the value, the outermost and the innermost alike |
| JsonWalk.AcceptedIff | internal/protocol/command.go:397-453 | the text of one value is accepted if and only if no object in it repeats a key |
| JsonWalk.TrailingRefused | internal/protocol/command.go:447-452 | anything behind the value is refused |
| Paths.SplitJoin | internal/container/validator.go:120-138 | splitting undoes joining, for segments without slashes |
| Paths.JoinSplit | internal/container/validator.go:120-138 | joining undoes splitting, for every string |
| Paths.KeptNormal | internal/container/validator.go:106-119 | the cleaned form has no empty, dot or inner parent segment; a rooted one has no parent segment |
| Paths.CleanIdempotent | internal/container/validator.go:106-119 | cleaning twice is cleaning once |
| Paths.CleanLaws | internal/container/validator.go:106-119 | doubled and trailing slashes and dots change nothing, and a segment followed by a parent is nothing, wherever they stand |
| Paths.RootHasNoParent | internal/container/validator.go:106-119 | a parent at the root stays at the root |
| Paths.LeadingParentStays | internal/container/validator.go:106-119 | a leading parent of a relative path stays |
| Paths.JoinBelow | internal/container/validator.go:112-119 | joining plain segments to a clean root appends them |
| Workspace.ResolveWorkspace | internal/container/validator.go:106-138 | succeeds exactly for an absolute root and a relative path with a first segment that is no parent, whose components on the file system are plain up to the end of the path or up to one that does not exist; the result is the root's segments and then the path's |
| Workspace.WalkComponents | internal/container/validator.go:122-137 | the loop accepts exactly when the components are plain up to the end or up to one that does not exist |
| Workspace.WalkedIff | internal/container/validator.go:122-137 | the walk is characterised on the file system alone: a chain of plain components, then the end or nothing |
| Workspace.ResultIsBelowRoot | internal/container/validator.go:106-138 | a result is clean and is the root followed by at least one segment, none of them a parent |
| Workspace.NoSymlinkWalked | internal/container/validator.go:122-137 | no component looked at before the first missing one is a symlink |
| Workspace.DecodedPathRefusedIff | internal/protocol/command.go:531-534 | of the paths the decoder lets through, resolveWorkspace's lexical test refuses exactly those that begin with ../ |
| Workspace.DecodedPathLeadsTo | internal/protocol/command.go:531-534 | where the joined path lies: what the leading parents leave of the root, then the other segments |
| Workspace.DecodedPathLeavesIff | internal/protocol/command.go:531-534 | the joined path is outside the root exactly when the segments behind the parents do not lead back through those the parents took away |
| Workspace.NoneThatLeavesIsInside | internal/container/validator.go:106-119 | no path that leaves the root passes resolveWorkspace's lexical test |
| Workspace.DecodedPathMayLeave | internal/protocol/command.go:531-534 | under every root but / some path the decoder lets through (../x or ../y) is joined to one outside the root |
| Workspace.DecodedPathMayReturn | internal/protocol/command.go:531-534 | and under every root whose last segment has no colon some path begins with a parent, is refused by that test, and lies inside all the same |
| Shell.QuoteRoundTrip | internal/modeldeploy/manager.go:64 | for every string, its quoted form reads back as that one word |
| Shell.ReadList | internal/modeldeploy/manager.go:40-62 | a written list of commands reads back as the words it was written from |
| Shell.DeployCommand | internal/modeldeploy/manager.go:40-62 | for every payload the command line parses to exactly the intended mkdir, test and cp commands in order; and run on any files, it changes nothing when a target exists and must not be overwritten or the model is missing, else leaves the model target as the model source, the config target as the config source, the object detector as the config exactly if that is its name, and every other file as it was |
| Shell.PlanDeploys | internal/modeldeploy/manager.go:40-62 | the commands, run up to the first failure, do that for any paths that do not clash |
| Shell.DecodedPathsAreApart | internal/protocol/command.go:539-542 | the paths of every payload the decoder accepts do not clash |
| Shell.ModelFileStaysBelow | internal/protocol/command.go:539-542 | a path the decoder accepts names a file strictly below any root it is joined to, and its base lands directly in the target directory |
| ImageCopy.CopyWithProgress | internal/imagedeploy/manager.go:124-153 | for any short reads, data with errors and short writes: the file gains exactly the first written bytes, nil means the whole stream, and nothing that failed means nil; a refused report, and only that, ends it with the report's error; reports strictly increase, number at most written/64 MiB + 1, are never more than 64 MiB and one buffer apart, and end at the announced total |
| ImageCopy.Download | internal/imagedeploy/manager.go:66-80 | an archive is imported only whole, and never above the maximum: reading one byte more notices any excess; when nothing fails, exactly the admissible sizes are imported; IMPORTING is reported once, with the size, exactly before an import |

## Left out

- HTTP, TLS, WebSocket, enrollment, metrics, identity, configuration, power control and the
  installers: system calls and field copying. Only what the server promises is modelled.
- Upgrade, terminal input, file transfer and model workspace commands: they do not use the
  journal, so they are steps that leave it alone.
- Message texts: a result carries its code and a fixed message or the error's text, which is
  taken as already bounded and cleaned.
- Dispatcher.CommandDispatcher.Begin: the four journaled paths run the same steps with
  different codes and are one method here; the second load of the Docker inventory path, which
  reads the same entry again, is not repeated.
- StateFile.FileStore.Save: encoding, symlink, size and file mode checks are one call that
  succeeds or fails; power loss is not modelled.
- TerminalSession.StepControl: command validation before the recovery lock has no step, and
  cancelling with the lock section that follows it, in the rollback, is one step.
- TerminalManager.Manager.AwaitCompletion: the code and text with which the end of a session is
  reported are not modelled.
- TerminalManager.Manager.DispatchTerminal: the report of a start that was refused without an
  attempt touches no state of the manager and is not modelled.
- TerminalManager.Manager.Start: deadlines are two parameters, one for each check.
- TokenBucket.TokenBucket.Allow: time and tokens are reals; rounding of float64 is not modelled.
- OutboundQueue.Queue.Send: messages are their sizes; their bytes, pings and write errors are
  not modelled. The loop that writes input to the pseudo-terminal is left out as easy.
- Pair.ValidatePairIdentity: the create-only checks of images, resources, ports and the
  workspace are one flag of the payload.
- DockerExecutor.DockerExecutor.StartPair: the loops for MPS shims, readiness and sign-in after
  the starting loop are one probe; they change no container.
- JsonWalk.RejectDuplicateFields: starts from the tokens of well-formed values; Go matches
  field names without regard to case, so nothing is said about setting a struct field twice.
- Workspace.ResolveWorkspace: the file system does not change during the walk.
- Shell.DeployCommand: the file system is a map of regular files; directories, permissions and
  a failing mkdir are not modelled. The reader gives no meaning to unquoted expansions, redirections,
  comments and operators other than `&&`, and refuses them; the command line contains none.
- ImageCopy.CopyWithProgress: a reader that returns nothing and no error for ever is given a
  finite patience, so termination is not a claim about such readers.
- Regular expressions other than those of container names and fingerprints, URL parsing,
  relay control messages, hashing and timestamps.
