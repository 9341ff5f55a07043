# TwinDesk connector core: a verified model

This project models the parts of TwinDesk whose correctness does not show in any one function: the
OAuth refresh-rotation journal and the three parties that settle it, the projection of Feishu messages
into threads and work items, the durable receipts of the Bot consumer, the hand-over of the Feishu
runtime lease, the byte-level JSON code around credentials, the redaction of outbound values, the
loopback listener and the Draft revision chain. `dafny verify dfyconfig.toml` checks everything.

## How it is modelled

* **Files** are byte sequences. An append that fails leaves any prefix of its line behind; a load cuts
  the tail behind the last newline, and that cut may fail too. JSON.stringify and JSON.parse of a record
  are a codec; the assumptions on it are `RotationJournal.SoundFormat` and `ReceiptStore.SoundFormat`, about
  the records that the program writes, and `CodecExists` shows for both record types that they can be met.
* **Objects with methods** (`RotationJournalFile`, `ReceiptFile`, `SharedLeaseManager`, `Redactor`,
  `DefaultListener`) are classes with the fields of the source. Each method is proved equal to a function
  on the object's state, and the theorems are about those functions; the lease manager and the listener also
  promise what they keep and what a caller learns.
* **Concurrency** is a step system. A step is what runs between two awaits; every interleaving, crash and
  failed file operation is a run. `PromiseTail` models the promise chain itself, reactions and job queue
  included, and the supervisor is built on it.
* **Loops** of the source are loops (merging references, grouping a batch, replaying a file, scanning
  JSON, escaping the secret, redacting records and arrays, walking revisions), each proved against a
  recursive specification.
* Timestamps are integers (milliseconds). SHA-256 is taken to be injective: a digest is the text digested.
  Clocks, the Keychain, the network and every I/O outcome are nondeterministic inputs of a step.

## Modules

| module | models |
|---|---|
| AppendLog | append, torn tails and repair of a record file |
| RotationEvents, RotationJournal, JournalAnswers | journal events, their reader, the transition relation, the journal object, and exactly when its operations succeed |
| RotationRuns, RotationInvariant, RotationSteps | coordinator, reconciler and reauthorizer on one journal, the invariant of their runs, and one lemma per kind of step |
| RotationReplacement | how a failed replacement unwinds through replacer, encoder, verifier and persister |
| RotationSafety, RotationAbandoned, RotationFiles, RotationQueue, RotationOrigins | what all runs keep, when a reservation is left without an owner, what the file keeps, what the journal's queue enforces, and where refreshed credentials come from |
| RotationProgress, RotationOutcomes | what an undisturbed refresh, reconciliation or replacement ends with, in every case |
| CodecExists | codecs that meet the assumptions on the two file formats |
| Projection, ProjectionOutcomes, ProjectionConvergence | the message projection, what one of its results keeps, adds and shows, and its independence of delivery order |
| JsonStrings, TextOrder, CanonicalJson, CanonicalText, ReceiptDigest, DigestText | string literals, key order, the canonical printer and its text, the two digests and the texts they hash |
| ReceiptStore, ReceiptRuns, ReceiptAnswers | the receipt file, all runs of consumeOnce, and what each delivery is answered |
| PromiseTail, RuntimeOwner, RuntimeSupervisor, SupervisorSafety | promise queues, the shared lease, the supervisor, and what all runs keep |
| SupervisorLiveness, SupervisorProgress, SupervisorCalls | that the supervisor never gets stuck, that it matches the configuration read last, what a refresh achieves, and what becomes of each call |
| JsonScanners, SecretEscaper | the duplicate-name scanners and the secret's JSON literal |
| Redaction, RedactionNames, RedactionOutcomes | the redaction traversal, which field names it withholds by how they read, and what it makes of each value |
| RedactionSecrecy, RedactionFidelity | what redaction hides over all pairs of values, and what it lets through unchanged |
| LoopbackListener | the one-shot callback listener |
| DraftRevisions, DraftOutcomes | edits of a Draft, the two readers of the chain, and what each edit is answered |

## What the proofs found

* **A failed append that is not followed by a restart can make the journal or the receipt file
  unreadable.** The repair runs only when the file is loaded, and memory does not follow a failed append. A
  process that goes on appends its next record behind a torn tail, or, when the whole line had reached
  the file before the sync failed, behind a record that memory does not know. The next record is committed
  and acknowledged all the same. A restart can load the file afterwards if and only if it ended in a
  newline, loaded, and what it loads to allows the new record: `RotationJournal.CommittedEventReadable` for
  every append that passes the checks against memory, `ReceiptStore.AcknowledgedReadable` for every
  receipt. `RotationJournal.RetryReadableIffNothingWritten` and `ReceiptRuns.ReplacedReadableIff` give the
  runs, for every number of bytes that the failed append left behind.
  docs/FEISHU_OAUTH_ROTATION_COORDINATOR.md says that a torn final line is truncated; the code does that
  at load only.
* A refresh that cannot record its end leaves an active reservation that no call owns. That is so if and only if
  the clock gives no usable instant when the remote outcome is known, or that instant is before the credential
  or its successor, or the file has no room for the closing event, or its append fails; a process that has
  no such reservation gets one in no other way (`RotationAbandoned.AbandonedIffCloseFails`, over all reachable
  states). Until the process ends nothing is refreshed, settled or replaced then
  (`RotationAbandoned.AbandonedUntilCrash`). `RotationAbandoned.AbandonedRun` is such a run, from an empty file.
* The coordinator's attempt to settle a blocked sequence as reauthorized directly works only for
  blocking events written before schema version 3 (`RotationJournal.DirectReauthorization`), so not for a
  sequence that the present code reserved and blocked (`RotationJournal.BlockedRefusesDirect`).
* A message that is delivered again under a later observation time, as overlapping discovery windows do, changes
  nothing, also in the same batch as new messages (`ProjectionConvergence.DeliveriesReflect`): events, references,
  times and presentation are those of the first delivery of each event. The presentation of a work item is
  independent of how its messages arrive if and only if all of them that are tied for the newest
  source time ask for the same presentation (`ProjectionConvergence.OrderIndependentIffTiesAgree`).
* Receipt handlers run at least once, not exactly once; the documentation says so as well. A handler
  succeeds again only after a crash behind its success or a failed append
  (`ReceiptRuns.HandledAgainOnlyIfLost`), after a failed append always (`ReceiptRuns.FailedAppendRepeats`),
  and after a crash exactly when the file loads and has no receipt for the key
  (`ReceiptRuns.CrashRepeatsIff`). `ReceiptRuns.HandledTwice` is a run without a failed file operation.
* The top-level scanner is exact for a top-level object, but it refuses arrays of objects that merely
  share a name (`JsonScanners.TopLevelArrayIsRefused`); the deep scanner is exact everywhere.
* Redaction hides what it should for exactly those callers that do not declare `kind` sensitive
  (`RedactionSecrecy.ConfidentialIffKindVisible`): with `kind` declared sensitive, its value still decides
  whether the object is treated as a secret reference.
* A ready Draft revision can be submitted again unchanged if and only if no submission audit is on record
  for it or the one on record is the same (`DraftRevisions.ResubmissionIff`). One that a submitted edit
  created, with its audit on record, never can: the new audit has the same identity and another source
  revision (`DraftRevisions.ResubmissionConflicts`; `DraftRevisions.SubmittedEditConflicts` is such a run).

## Model

| member | source | states |
|---|---|---|
| AppendLog.RepairIsUnique | packages/plugin-feishu/src/oauth-rotation-coordinator.ts:245-297 | the repair keeps the one longest prefix that is empty or ends in a newline |
| AppendLog.LinesAfterAppend | packages/plugin-feishu/src/oauth-rotation-coordinator.ts:299-324 | a terminated text appended to any file adds exactly one line, and that line is glued to whatever tail was there |
| AppendLog.TailAfterTornAppend | packages/plugin-feishu/src/oauth-rotation-coordinator.ts:299-324 | an append cut short adds nothing but to the tail, and leaves the complete lines as they were |
| AppendLog.AppendedShape | packages/plugin-feishu/src/oauth-rotation-coordinator.ts:299-324 | for every number of bytes that reach the disk: either one more line, or the same lines and a longer torn tail |
| CodecExists.JournalFormatExists | packages/plugin-feishu/src/oauth-rotation-coordinator.ts:90-163 | the assumptions on the journal's format hold of a codec in which every well-formed event is written |
| CodecExists.ReceiptFormatExists | packages/plugin-feishu/src/bot-event-consumer.ts:655-735 | the assumptions on the receipt file's format hold of a codec in which every receipt is written |
| AppendLog.FindRepairedLength | packages/plugin-feishu/src/oauth-rotation-coordinator.ts:245-297 | the backward search finds the length of that prefix |
| AppendLog.SplitLines | packages/plugin-feishu/src/oauth-rotation-coordinator.ts:245-297 | splitting a whole file yields its lines in order |
| RotationEvents.ParseAfterEncode | packages/plugin-feishu/src/oauth-rotation-coordinator.ts:90-163 | every well-formed event is read back from its record |
| RotationEvents.EncodeAfterParse | packages/plugin-feishu/src/oauth-rotation-coordinator.ts:90-163 | whatever record the reader accepts is the record of the event it returns, and that event is well formed |
| RotationEvents.EntriesOrdered | packages/plugin-feishu/src/oauth-rotation-coordinator.ts:165-201 | of two entries of a replayable journal the later one belongs to the same sequence, with the same source, or to a later one with a strictly larger source no earlier than the results before |
| RotationEvents.SequenceIsOpened | packages/plugin-feishu/src/oauth-rotation-coordinator.ts:165-201 | each of the sequences 1, 2, 3, ... up to the last is opened by a reserved event |
| RotationEvents.OpenedOnce | packages/plugin-feishu/src/oauth-rotation-coordinator.ts:165-201 | no sequence is opened twice |
| RotationEvents.JournalStructure | packages/plugin-feishu/src/oauth-rotation-coordinator.ts:90-201 | sequences run 1, 2, 3, ... without a gap, each opened exactly once, right after the terminal entry of the one before; one source and at most one terminal entry per sequence, and sources strictly increase |
| RotationJournal.LoadsIffReplayable | packages/plugin-feishu/src/oauth-rotation-coordinator.ts:245-297 | a file loads if and only if its lines are the encodings of a replayable journal, and then to the last event of it |
| RotationJournal.ReloadAfterAppend | packages/plugin-feishu/src/oauth-rotation-coordinator.ts:245-324 | what a restart reads after any append, complete or torn, behind any tail |
| RotationJournal.CrashInsideAppend | packages/plugin-feishu/src/oauth-rotation-coordinator.ts:245-324 | at every crash point inside one append, whatever appends failed before: a restart reads what is in memory or one event beyond it, the appended event exactly when all of it is there and the file takes it, and nothing exactly when all of it is there and the file does not take it |
| RotationJournal.CommittedEventReadable | packages/plugin-feishu/src/oauth-rotation-coordinator.ts:299-412 | every append that passes the checks against memory is acknowledged; a restart reads its event, and can load the file at all, if and only if the file ended in a newline, loaded, and its last event allows the new one |
| RotationJournal.RetryReadableIffNothingWritten | packages/plugin-feishu/src/oauth-rotation-coordinator.ts:299-370 | a first reservation whose append failed after any number of bytes, and its retry: the retry is acknowledged, and a restart can load the file if and only if nothing had reached it, although the file ended in a newline also when the whole line had |
| RotationJournal.RotationJournalFile.ReplayAll | packages/plugin-feishu/src/oauth-rotation-coordinator.ts:276-290 | the replay loop computes the last event, or the first error |
| RotationJournal.RotationJournalFile.EnsureLoaded | packages/plugin-feishu/src/oauth-rotation-coordinator.ts:245-297 | loading repairs the tail and fills the memory, or reports why not |
| RotationJournal.RotationJournalFile.AppendEvent | packages/plugin-feishu/src/oauth-rotation-coordinator.ts:299-324 | an append changes the file only, by the bytes that reached it, and the size bound is checked first |
| RotationJournal.RotationJournalFile.ReserveRotation | packages/plugin-feishu/src/oauth-rotation-coordinator.ts:337-370 | a reservation opens the next sequence, in memory only after the append committed |
| RotationJournal.RotationJournalFile.SettleRotation | packages/plugin-feishu/src/oauth-rotation-coordinator.ts:372-412 | settling closes the sequence that is open, with a result exactly for terminal states |
| RotationJournal.RotationJournalFile.BeginReauthorization | packages/plugin-feishu/src/oauth-rotation-coordinator.ts:414-470 | the first half of a replacement reserves the blocked sequence |
| RotationJournal.RotationJournalFile.FinishReauthorization | packages/plugin-feishu/src/oauth-rotation-coordinator.ts:470-495 | the second half records the evidence as the terminal event |
| JournalAnswers.LoadAnswers | packages/plugin-feishu/src/oauth-rotation-coordinator.ts:245-297 | loading succeeds exactly for a readable file of bounded size whose complete lines encode a replayable journal, and memory then holds its last event; a failed load leaves memory as it was, removes at most a torn tail, and reports too large exactly for a file that is |
| JournalAnswers.ReserveAnswers | packages/plugin-feishu/src/oauth-rotation-coordinator.ts:337-370 | a reservation succeeds exactly when the clock is not behind the credential, the last sequence is over with a result not later than the credential, a number and room are left and the append commits; an open sequence is reported as pending |
| JournalAnswers.SettleAnswers | packages/plugin-feishu/src/oauth-rotation-coordinator.ts:165-201 | a settlement succeeds exactly when it names the open sequence and goes from its state to one of those it may go to, with evidence in order, room and a committed append; otherwise memory stands still |
| RotationJournal.WindowSuffices | packages/plugin-feishu/src/oauth-reauthorization-coordinator.ts:186-207 | evidence newer than the blocked source and not newer than the recorded time always passes the reader and the transition check |
| RotationJournal.DirectReauthorization | packages/plugin-feishu/src/oauth-rotation-coordinator.ts:620-640 | settling a blocked sequence as reauthorized without a reservation works if and only if the blocking event predates version 3 |
| RotationJournal.BlockedRefusesDirect | packages/plugin-feishu/src/oauth-rotation-coordinator.ts:337-412 | a sequence reserved and blocked in an empty file by the present code is on the refusing side: evidence beyond its source does not settle it directly |
| RotationSafety.RefreshedAtMostOnce | packages/plugin-feishu/src/oauth-rotation-coordinator.ts:337-713 | in every run, from any file, the credentials handed to the remote refresh have strictly increasing obtainedAt: none is submitted twice |
| RotationSafety.SettledAtMostOnce | packages/plugin-feishu/src/oauth-rotation-coordinator.ts:372-495 | in every run, from any file, coordinator, reconciler and reauthorizer together give a sequence at most one acknowledged terminal event, in order of sequences, with evidence beyond its source and not beyond any later source; a file that loads knows of all of them |
| RotationSafety.EveryRemoteCallIsOnRecord | packages/plugin-feishu/src/oauth-rotation-coordinator.ts:620-713 | a call about to refresh holds the latest event, with a source beyond every credential used so far, and a restart that loads the file finds that event or one beyond it, which has seen every remote call and every settlement |
| RotationOrigins.OnlySpentIsRefreshed | packages/plugin-feishu/src/oauth-rotation-coordinator.ts:620-713 | in every run, from any file, every credential handed to the remote refresh had been read from the Keychain, by the call that handed it over, as one whose access token is not usable |
| RotationSafety.NeverTakenBackAfterWrite | packages/plugin-feishu/src/oauth-reauthorization-coordinator.ts:113-249 | in every run, in memory and for a restart, a reauthorization reservation is taken back only by the replacement that made it and only if its Keychain command was not started; a command that takes effect, however late, belongs to a replacement that is never taken back |
| RotationReplacement.LeftIffStarted | packages/plugin-feishu/src/oauth-initial-credential-persistence.ts:346-537 | whatever is thrown at whatever stage of the persister and whenever the signal is aborted, the catch blocks leave the reservation in place if and only if the Keychain command had been started |
| RotationSafety.OnlyTheAppendCanFail | packages/plugin-feishu/src/oauth-reauthorization-coordinator.ts:176-250 | in every reachable state in which the persister has returned, its Keychain command has taken effect, and only the append can keep the journal unsettled |
| RotationFiles.MemoryMatchesFile | packages/plugin-feishu/src/oauth-rotation-coordinator.ts:245-495 | in runs whose appends fail only by a crash, inside an append or elsewhere, the file always loads to a replayable journal and memory equals it |
| RotationAbandoned.AbandonedIffCloseFails | packages/plugin-feishu/src/oauth-rotation-coordinator.ts:660-713 | after any step of any run an active reservation is without a call that owns it if and only if it was so before and the process goes on, or the step ends a refresh that cannot be settled: no usable clock, an instant before the credential or its successor, no room in the file, or a failing append |
| RotationAbandoned.AbandonedUntilCrash | packages/plugin-feishu/src/oauth-rotation-coordinator.ts:620-713 | from then on, in every continuation without a crash, the journal stands still: nothing is refreshed, settled or replaced |
| RotationAbandoned.AbandonedRun | packages/plugin-feishu/src/oauth-rotation-coordinator.ts:620-713 | a run from an empty file that ends so: a refresh reserves, the endpoint refuses it, and the append that should say so fails after any number of bytes |
| RotationQueue.NothingRunsInsideReplacement | packages/plugin-feishu/src/oauth-rotation-coordinator.ts:236-243 | with the promise queue in place of the guard: whenever an inspection, reservation, settlement or replacement is about to run, no call of the process is inside a replacement callback |
| RotationQueue.ProcessIsRun | packages/plugin-feishu/src/oauth-rotation-coordinator.ts:236-243 | a process under the queue makes no steps but those of the modelled runs |
| RotationProgress.RefreshRotates | packages/plugin-feishu/src/oauth-rotation-coordinator.ts:620-713 | from any state with the journal at rest an undisturbed refresh makes one remote call with the stored credential, after its durable reservation, and ends with the new credential stored and the sequence completed |
| RotationOutcomes.RefreshStandsStill | packages/plugin-feishu/src/oauth-rotation-coordinator.ts:620-664 | from every state that the invariant allows, loaded or not: without a credential, with the last rotation over and a usable credential or one older than its result, with a refresh under way, or with an open rotation that is not just reserved and has no evidence, an undisturbed refresh changes nothing |
| RotationOutcomes.RefreshSettles | packages/plugin-feishu/src/oauth-rotation-coordinator.ts:620-645 | an open rotation with a credential beyond its source ends on that evidence, completed if it was reserved or uncertain and reauthorized if it was blocked; a reservation without it, held by no call, becomes uncertain; nothing is refreshed |
| RotationOutcomes.RefreshLeavesBlocked | packages/plugin-feishu/src/oauth-rotation-coordinator.ts:620-655 | a sequence that the present version blocked stays as it is, evidence or not |
| RotationOutcomes.RemoteFailureIsRecorded | packages/plugin-feishu/src/oauth-rotation-coordinator.ts:666-700 | a reserved refresh that gets no later credential ends after one remote call: reauthorization required if the endpoint refused, uncertain in every other case, also when the Keychain had been written |
| RotationOutcomes.ReconcilerSettles | packages/plugin-feishu/src/oauth-reconciliation.ts:145-210 | with a reserved sequence that no call holds, an uncertain or a reserved reauthorization, and an unexpired credential beyond its source, an undisturbed reconciliation ends the sequence on that evidence, as completed or reauthorized |
| RotationOutcomes.ReconcilerStandsStill | packages/plugin-feishu/src/oauth-reconciliation.ts:145-185 | with nothing of that kind open, an expired credential or one not beyond the source, it changes nothing |
| RotationOutcomes.ReconcilerRechecks | packages/plugin-feishu/src/oauth-reconciliation.ts:186-202 | where the journal has changed since its first look it settles nothing |
| RotationProgress.ReplacementUnblocks | packages/plugin-feishu/src/oauth-reauthorization-coordinator.ts:176-250 | an undisturbed replacement of a blocked sequence, through all stages of the persister, ends with its evidence in the Keychain and in the journal |
| RotationOutcomes.ReplacementRefused | packages/plugin-feishu/src/oauth-rotation-coordinator.ts:414-432 | without a blocked sequence a replacement does not begin |
| RotationOutcomes.RefusedReplacementRestores | packages/plugin-feishu/src/oauth-reauthorization-coordinator.ts:176-249 | a callback that refuses, for its clock, its inputs or a token outside the window, leaves the sequence blocked as before, through the reservation and its restoration on record |
| RotationOutcomes.FailedReplacementRestores | packages/plugin-feishu/src/oauth-reauthorization-coordinator.ts:176-249 | the same for every failure of the principal check, the encoding or the Keychain access before the command is started |
| RotationOutcomes.StartedReplacementStays | packages/plugin-feishu/src/oauth-reauthorization-coordinator.ts:208-249 | once the command was started a failure leaves the reservation on record and the command pending |
| Projection.MergeReferences | packages/plugin-feishu/src/message-normalization.ts:246-270 | the merge loop keeps the order of first appearance and the newest time of each reference |
| Projection.GroupBatch | packages/plugin-feishu/src/message-normalization.ts:272-300 | grouping by conversation keeps the order of arrival |
| Projection.ProjectBatch | packages/plugin-feishu/src/message-normalization.ts:272-398 | the projection loop stops at the first record that the domain parser refuses |
| ProjectionOutcomes.ProjectAnswers | packages/plugin-feishu/src/message-normalization.ts:282-306 | onto any stored records: a conflict exactly if thread and work item do not belong together, no change exactly if every event is known |
| ProjectionOutcomes.ProjectionOutcome | packages/plugin-feishu/src/message-normalization.ts:298-398 | a projection keeps subject, creation, Persona and earlier events, or founds them from the first batch; it appends exactly the new events, oldest first; and it presents the newest of them, the smallest event among ties, unless a newer message is stored |
| ProjectionOutcomes.MergeKeepsPlaces | packages/plugin-feishu/src/message-normalization.ts:246-270 | merging leaves stored references in their places and moves no time back |
| ProjectionOutcomes.BatchIsAllOrNothing | packages/plugin-feishu/src/message-normalization.ts:272-398 | one conversation that cannot be projected fails the batch, and nothing of it is stored |
| ProjectionConvergence.DeliveriesReflect | packages/plugin-feishu/src/message-normalization.ts:272-398 | after any batches, new messages mixed with ones delivered before and observed anew, each conversation has exactly the events, references and times of the first delivery of each event, and shows a newest of these: done if deleted, else waiting for a reply or for a review as the message requires, with its texts |
| ProjectionConvergence.ReplayIsSilent | packages/plugin-feishu/src/message-normalization.ts:272-398 | delivering absorbed events again, in any order, grouping and repetition, with whatever contents and observation times, projects nothing and stores nothing |
| ProjectionConvergence.Convergence | packages/plugin-feishu/src/message-normalization.ts:246-398 | two ways to deliver the same events, in any order, split and repetition and with any observation times, end with the same events and references, and with the same presentation if the ties for the newest time agree |
| ProjectionConvergence.OrderIndependentIffTiesAgree | packages/plugin-feishu/src/message-normalization.ts:272-398 | over all deliveries of given messages, with any repetition and observation times, the presentation is the same if and only if all messages tied for the newest time present alike |
| JsonStrings.DecodeAfterEscape | packages/plugin-feishu/src/bot-event-consumer.ts:458-469 | every text, lone surrogates included, is read back from the literal that JSON.stringify prints (section 7 of RFC 8259) |
| JsonStrings.WrittenIsShortest | packages/plugin-feishu/src/bot-event-consumer.ts:458-469 | and no shorter body of a literal stands for the same unit, halves of surrogate pairs apart |
| JsonStrings.ClosingOfBody | packages/plugin-feishu/src/bot-tenant-token-acquisition.ts:357-369 | the search for the closing quote stops exactly behind a well-formed string body |
| JsonStrings.QuotedUnique | packages/plugin-feishu/src/bot-event-consumer.ts:458-469 | literals are told apart even when more text follows |
| TextOrder.SortKeeps | packages/plugin-feishu/src/bot-event-consumer.ts:458-469 | sorting by key yields an ascending permutation |
| TextOrder.SortPermutation | packages/plugin-feishu/src/bot-event-consumer.ts:471-505 | permutations of elements with distinct keys sort alike |
| CanonicalJson.CanonicalIdentifies | packages/plugin-feishu/src/bot-event-consumer.ts:458-469 | two values print alike exactly when they are equal up to the order of object members (key order as in section 3.2.3 of RFC 8785) |
| CanonicalText.LessPrecedes | packages/plugin-feishu/src/bot-event-consumer.ts:458-469 | names are ordered by the first code unit that differs, a name before its extensions |
| CanonicalText.CanonicalIsJson | packages/plugin-feishu/src/bot-event-consumer.ts:458-469 | the canonical text is a JSON text without white space (sections 2 to 7 of RFC 8259) that says exactly the value, every object listing its members strictly in that order |
| ReceiptDigest.EventDigestIdentifies | packages/plugin-feishu/src/bot-event-consumer.ts:471-505 | two events have the same digest exactly when they differ only in delivery id, mention order and member order of the content |
| ReceiptDigest.MessageKeyIdentifies | packages/plugin-feishu/src/bot-event-consumer.ts:471-505 | the receipt key is the message within its account, application and tenant |
| DigestText.EventDigestText | packages/plugin-feishu/src/bot-event-consumer.ts:471-505 | the text hashed for an event is a JSON list of its sixteen fields in their order, with the content in canonical form and the mentions sorted |
| DigestText.MessageKeyText | packages/plugin-feishu/src/bot-event-consumer.ts:471-476 | the text hashed for the key is a JSON list of account, application, tenant and message |
| ReceiptStore.ReceiptFile.ReplayAll | packages/plugin-feishu/src/bot-event-consumer.ts:612-640 | replaying the lines yields the receipts, and refuses a key repeated with a different digest |
| ReceiptStore.ReceiptFile.EnsureLoaded | packages/plugin-feishu/src/bot-event-consumer.ts:583-653 | loading repairs the tail and fills the map, or reports why not |
| ReceiptStore.ReceiptFile.Admit | packages/plugin-feishu/src/bot-event-consumer.ts:694-722 | consumeOnce up to the handler: the answer of a delivery that never reaches it, or that it is called |
| ReceiptStore.ReceiptFile.Acknowledge | packages/plugin-feishu/src/bot-event-consumer.ts:655-735 | consumeOnce behind the handler's success: the size bound, the bytes that reach the file, and the map only after the append committed |
| ReceiptRuns.ReceiptsAreFinal | packages/plugin-feishu/src/bot-event-consumer.ts:694-735 | in every run, with crashes between any two awaits and inside an append, accepted and duplicate follow a successful handler call with the same digest, and once a key was accepted no handler call and no acceptance for it follows, with whatever digest |
| ReceiptRuns.MemoryIsHonest | packages/plugin-feishu/src/bot-event-consumer.ts:583-735 | the map in memory, and what the file loads to, hold only receipts of handled events, and all that were acknowledged |
| ReceiptAnswers.LoadsIffConsistent | packages/plugin-feishu/src/bot-event-consumer.ts:612-640 | a file loads exactly when its lines are receipts of which no two give a key different digests, and then to the table of them |
| ReceiptAnswers.AcceptedKeyIsAnswered | packages/plugin-feishu/src/bot-event-consumer.ts:694-717 | over all runs: an accepted message delivered again, in the same process or after a restart that can load the file, is a duplicate if and only if its digest is the accepted one and a conflict if and only if it is not, and nothing changes |
| ReceiptAnswers.NewMessageIsHandled | packages/plugin-feishu/src/bot-event-consumer.ts:712-735 | a message that is not on record reaches the handler once; it is accepted and goes on record exactly if the handler succeeds, the file has room and the append commits, and else the answer says what failed |
| ReceiptAnswers.UnopenedFails | packages/plugin-feishu/src/bot-event-consumer.ts:583-653 | where the file cannot be opened the delivery fails, the handler is not called and what a restart reads stays the same |
| ReceiptStore.AcknowledgedReadable | packages/plugin-feishu/src/bot-event-consumer.ts:655-692 | a receipt for a key without one in memory is acknowledged; a restart reads it, and can load the file at all, if and only if the file ended in a newline, loaded, and had no other digest for the key |
| ReceiptRuns.HandledTwice | packages/plugin-feishu/src/bot-event-consumer.ts:694-735 | a run without a failed file operation in which the handler succeeds twice for one event: the process died between handler and append |
| ReceiptRuns.HandledAgainOnlyIfLost | packages/plugin-feishu/src/bot-event-consumer.ts:694-735 | in every run a handler succeeds again for a key only if right after each earlier success the process crashed or the append of its receipt failed |
| ReceiptRuns.FailedAppendRepeats | packages/plugin-feishu/src/bot-event-consumer.ts:694-735 | after a failed append the next delivery of the key always reaches the handler, with whatever digest |
| ReceiptRuns.CrashRepeatsIff | packages/plugin-feishu/src/bot-event-consumer.ts:694-735 | after a crash behind the handler the next delivery of the key reaches it again if and only if the file loaded, had no receipt for the key and did not get the whole line |
| ReceiptRuns.ReplacedReadableIff | packages/plugin-feishu/src/bot-event-consumer.ts:655-735 | a receipt whose append failed after any number of bytes, and a second one accepted for its key: a restart can load the file if and only if nothing of the first had reached it, or all of it with the same digest |
| ReceiptRuns.ExactlyOnceUnlessLost | packages/plugin-feishu/src/bot-event-consumer.ts:694-735 | in runs in which appends commit and no crash falls between a handler's success and its answer, with restarts and failed loads anywhere else, the handler succeeds exactly once per acknowledged key and the file holds what memory holds |
| PromiseTail.OneLine | packages/bundle-workbench/src/feishu-runtime-supervisor.ts:280-296 | reactions run in the order asked for, one operation at a time whatever the operations do, and what runs next finds every operation queued before it ended |
| PromiseTail.NothingIsLost | packages/plugin-feishu/src/oauth-rotation-coordinator.ts:236-243 | when nothing runs and no job waits, everything that was queued has run |
| PromiseTail.OperationsInOrder | packages/plugin-feishu/src/oauth-rotation-coordinator.ts:236-243 | operations start under their own numbers, first to last |
| RuntimeOwner.SharedLeaseManager.Begin | packages/bundle-workbench/src/feishu-runtime-owner.ts:139-185 | a callback starts if and only if the manager accepts and the request fits, never once a drain waits; the counter stays the number of callbacks under way |
| RuntimeOwner.SharedLeaseManager.End | packages/bundle-workbench/src/feishu-runtime-owner.ts:186-191 | a returning callback resolves a waiting drain promise exactly when it was the last one |
| RuntimeOwner.SharedLeaseManager.StopAccepting | packages/bundle-workbench/src/feishu-runtime-owner.ts:193-201 | afterwards nothing is accepted, and the caller waits on an unresolved promise if and only if callbacks are under way |
| RuntimeOwner.CallbacksInsideLease | packages/bundle-workbench/src/feishu-runtime-owner.ts:139-238 | callbacks run wholly inside the kernel lease, which is released only when none is left; after close none starts |
| RuntimeOwner.DrainNeverMissed | packages/bundle-workbench/src/feishu-runtime-owner.ts:186-201 | stopAndDrain can return exactly when no callback is under way |
| RuntimeOwner.EveryCallbackEntered | packages/bundle-workbench/src/feishu-runtime-owner.ts:139-191 | every callback under way was admitted with the owner's configuration, not aborted, with the lease held |
| SupervisorSafety.LeaseIsExclusive | packages/bundle-workbench/src/feishu-runtime-supervisor.ts:280-351 | in every reachable state at most one owner holds the lease, no base call is in flight while one does or is being acquired, and calls inside an owner run while it holds the lease |
| SupervisorSafety.HandOver | packages/bundle-workbench/src/feishu-runtime-supervisor.ts:318-351 | a new owner comes into being only when every earlier one drained and released, no call uses the lease and no polling run is left |
| SupervisorSafety.OnePollingRun | packages/bundle-workbench/src/feishu-runtime-supervisor.ts:353-426 | at most one polling run is live, under the current owner |
| SupervisorSafety.PollingAlwaysHasAnOwner | packages/bundle-workbench/src/feishu-runtime-supervisor.ts:346-355 | the guard of startPolling against a missing owner never fires on the path that keeps the owner |
| SupervisorSafety.NothingBeginsAfterQuiesce | packages/bundle-workbench/src/feishu-runtime-supervisor.ts:253-306 | from the call of quiesce on no call starts to use the lease, neither later calls nor those still waiting |
| SupervisorSafety.QuiescedForGood | packages/bundle-workbench/src/feishu-runtime-supervisor.ts:253-260 | once quiesce has done its work no polling run exists and the status is stopped, in every continuation |
| SupervisorSafety.ClosedReleasesEverything | packages/bundle-workbench/src/feishu-runtime-supervisor.ts:262-278 | the database is closed only when no owner, call or polling run is left |
| SupervisorSafety.NoLostWakeup | packages/bundle-workbench/src/feishu-runtime-supervisor.ts:298-316 | an operation that waits for base calls or for a drain can go on exactly when they are over |
| SupervisorProgress.MatchesConfiguration | packages/bundle-workbench/src/feishu-runtime-supervisor.ts:318-426 | in every run that was never asked to quiesce, whenever no operation is under way, the status calls for attention or matches the configuration read last: for a configured user an owner holds the lease for exactly that configuration and a live polling run goes on under it, otherwise there is no owner and no polling |
| SupervisorProgress.RefreshTakesEffect | packages/bundle-workbench/src/feishu-runtime-supervisor.ts:318-412 | a refresh called in any reachable state before quiesce, whatever is queued or under way: once everything is worked off in any order, without a failure and with a given user configured, the supervisor is running with an owner and live polling for that user |
| SupervisorProgress.RefreshCanTakeEffect | packages/bundle-workbench/src/feishu-runtime-supervisor.ts:318-412 | and from every such state everything can be worked off in that way |
| SupervisorLiveness.WorkLowers | packages/bundle-workbench/src/feishu-runtime-supervisor.ts:253-426 | in every reachable state each step that goes on with what is under way, in whatever order, either changes nothing or lowers a well-founded rank |
| SupervisorLiveness.WorksOff | packages/bundle-workbench/src/feishu-runtime-supervisor.ts:253-426 | so from every such state what is under way can be worked off to a state in which no such step is left, and without a failure |
| SupervisorLiveness.SettledIsDone | packages/bundle-workbench/src/feishu-runtime-supervisor.ts:280-426 | in such a state every queued operation and call has run, no operation is under way, no call uses the lease and no owner is on its way out |
| SupervisorLiveness.CloseCompletes | packages/bundle-workbench/src/feishu-runtime-supervisor.ts:253-278 | and if close had been asked for, whatever else was under way, polling is stopped for good, the lease is released and the database is closed |
| SupervisorCalls.CallIsServed | packages/bundle-workbench/src/feishu-runtime-supervisor.ts:289-307 | in every reachable state the turn of a call brings a refusal after quiesce, the lease for itself without an owner, a place inside the owner exactly if the request fits its configuration; it is counted and nothing else happens |
| SupervisorCalls.EveryCallEnds | packages/bundle-workbench/src/feishu-runtime-supervisor.ts:289-307 | where no useful step is left every call has come to its end: none waits and none uses the lease |
| SupervisorCalls.QuiesceCompletes | packages/bundle-workbench/src/feishu-runtime-supervisor.ts:253-260 | and if quiesce had been asked for, polling is over for good and the status is stopped |
| SupervisorCalls.NoOwnerAfterQuiesce | packages/bundle-workbench/src/feishu-runtime-supervisor.ts:253-351 | once quiesce was asked for no owner comes into being in any continuation, unless one was being acquired already |
| SupervisorCalls.UnchangedConfigurationKeepsOwner | packages/bundle-workbench/src/feishu-runtime-supervisor.ts:336-351 | a refresh that reads the configuration of the owner keeps the owner and its lease, whatever is done until something else begins |
| SupervisorCalls.EndedRunShows | packages/bundle-workbench/src/feishu-runtime-supervisor.ts:376-412 | a polling run that ends by itself sets the status to the recovery it calls for, a stopped one changes no status |
| SupervisorCalls.FailedRefreshShows | packages/bundle-workbench/src/feishu-runtime-supervisor.ts:318-412 | a refresh that fails, to read, to release, to acquire or to build, ends with a status that calls for a restart |
| JsonScanners.FindClosing | packages/plugin-feishu/src/bot-tenant-token-acquisition.ts:357-368 | the inner loop finds the first unescaped quote |
| JsonScanners.ColonFollows | packages/plugin-feishu/src/bot-tenant-token-acquisition.ts:369-372 | whether the next unit that is not blank is a colon |
| JsonScanners.HasDuplicateObjectKey | packages/plugin-feishu/src/bot-tenant-token-acquisition.ts:351-390 | the loop computes the recursive scan |
| JsonScanners.DuplicateTopLevelKey | packages/plugin-feishu/src/credential-bundle.ts:168-207 | the loop computes the recursive scan with a depth counter |
| JsonScanners.DuplicateObjectKeyIsExact | packages/plugin-feishu/src/bot-tenant-token-acquisition.ts:351-390 | on every JSON text (sections 2, 4 and 7 of RFC 8259) true if and only if some object at any depth has two members of the same decoded name |
| JsonScanners.DuplicateTopLevelKeyIsExact | packages/plugin-feishu/src/credential-bundle.ts:168-207 | on every JSON text true if and only if a name comes twice among all objects that are not inside another object |
| JsonScanners.TopLevelObject | packages/plugin-feishu/src/credential-bundle.ts:168-207 | for a top-level object: true exactly when that object repeats a name, and then the deep scanner agrees |
| JsonScanners.TopLevelArrayIsRefused | packages/plugin-feishu/src/credential-bundle.ts:168-207 | an array of two objects with the same single name is refused although no object repeats a name |
| SecretEscaper.EscapedSecretLength | packages/plugin-feishu/src/bot-tenant-token-acquisition.ts:182-189 | the precomputed length is the length of the escaped secret |
| SecretEscaper.RequestBody | packages/plugin-feishu/src/bot-tenant-token-acquisition.ts:191-210 | the buffer is filled exactly, without gap or overrun, with prefix, escaped secret and suffix |
| SecretEscaper.SecretReadsBack | packages/plugin-feishu/src/bot-tenant-token-acquisition.ts:182-210 | the literal decodes to the secret if and only if the secret has no control character |
| SecretEscaper.AgreesWithStringify | packages/plugin-feishu/src/bot-tenant-token-acquisition.ts:165-210 | on admitted secrets (0x21 to 0x7e) the escaper writes what JSON.stringify would |
| SecretEscaper.BodyIsTheRequest | packages/plugin-feishu/src/bot-tenant-token-acquisition.ts:191-210 | the body is the JSON text of an object with exactly the two members, which read as the identifier and the secret and pass the duplicate scanner |
| Redaction.FreshKey | packages/domain/src/redaction.ts:427-432 | the output name is the first of key, key_, key__, ... that is free |
| Redaction.Redactor.PickKey | packages/domain/src/redaction.ts:428-432 | the loop over used names finds it, and over-long names are replaced and counted |
| Redaction.Redactor.VisitValue | packages/domain/src/redaction.ts:327-345 | one visit computes the redacted value and updates counts, nodes and seen objects as the specification says |
| Redaction.Redactor.VisitReference | packages/domain/src/redaction.ts:346-424 | the same for errors, arrays and records, refused ones included |
| Redaction.Redactor.VisitList | packages/domain/src/redaction.ts:377-405 | the item loop |
| Redaction.Redactor.VisitRecord | packages/domain/src/redaction.ts:426-463 | the field loop |
| RedactionNames.MaskIsWithheld | packages/domain/src/redaction.ts:120-144 | for options with any declared names: a field is withheld exactly if its name, read without separators and without regard to capitals, is declared, ends in a word for a secret or for a place of secrets, or is a header, a cookie, the environment or the OAuth state; names hidden reasoning; or, for diagnosis, names business content |
| RedactionOutcomes.NamedFieldsAreWithheld | packages/domain/src/redaction.ts:426-456 | in every record that is looked into, at any depth, such a field shows the marker and is counted for its reason, whatever it holds |
| RedactionOutcomes.OtherFieldsAreShown | packages/domain/src/redaction.ts:426-456 | and every other field shows its redacted value, texts at a diagnostic boundary exactly under names of metadata |
| RedactionOutcomes.NamesAreMade | packages/domain/src/redaction.ts:428-433 | a field appears under its cleaned name, or the marker for one over 1024 units, with underscores added |
| RedactionOutcomes.NamesAreCounted | packages/domain/src/redaction.ts:428-433 | and what is found in the name is counted |
| RedactionOutcomes.SymbolsAreCounted | packages/domain/src/redaction.ts:457-462 | that a record has properties under symbols is counted once and shows nothing |
| RedactionOutcomes.AlikeNamesShareFate | packages/domain/src/redaction.ts:120-122 | names that agree up to separators and capitals are treated alike |
| RedactionOutcomes.WholeIsReplaced | packages/domain/src/redaction.ts:327-424 | values over a limit, met before or not data are replaced as unsafe, objects that locate a secret as secret references, texts outside metadata at a diagnostic boundary as business content |
| RedactionOutcomes.RestIsShown | packages/domain/src/redaction.ts:327-405 | every other value keeps its kind: scalars as they are, texts cleaned, arrays item by item, records field by field |
| RedactionOutcomes.ErrorIsShown | packages/domain/src/redaction.ts:349-375 | an error shows its class and code, if they are no more than that, and never its message |
| RedactionOutcomes.ComesOnce | packages/domain/src/redaction.ts:341-342 | an object met again anywhere later is replaced |
| RedactionOutcomes.OutputIsShallow | packages/domain/src/redaction.ts:327-329 | the output is at most 18 levels deep, however deep the input |
| RedactionSecrecy.NothingLeaks | packages/domain/src/redaction.ts:124-463 | values that differ only under masked fields, inside secret references, refused objects, errors' content or withheld texts give the same value and counts |
| RedactionSecrecy.SensitiveKindShows | packages/domain/src/redaction.ts:421-440 | with kind declared sensitive two such values are told apart |
| RedactionSecrecy.ConfidentialIffKindVisible | packages/domain/src/redaction.ts:327-463 | the non-interference holds for all pairs of values if and only if kind is not declared sensitive |
| RedactionSecrecy.SurvivingText | packages/domain/src/redaction.ts:327-463 | every text in the output is the marker, the cleaned text of an allowed place (under an allowlisted key at a diagnostic boundary), or the checked name or code of an error |
| RedactionSecrecy.FieldsConserved | packages/domain/src/redaction.ts:426-463 | members and enumerable fields correspond one for one and in order, under distinct names, masked ones showing the marker |
| RedactionSecrecy.FieldsShown | packages/domain/src/redaction.ts:426-463 | and the member of a field that is not masked shows the redacted value of that field |
| RedactionSecrecy.ItemsConserved | packages/domain/src/redaction.ts:391-402 | array positions are kept: each shows its own item, redacted with the state that the items before it left, and a hole shows the marker |
| RedactionSecrecy.MaskedFieldsCounted | packages/domain/src/redaction.ts:322-463 | counts only grow, by at least one for each masked field |
| RedactionSecrecy.EveryMarkerCounted | packages/domain/src/redaction.ts:327-463 | the output has at most as many markers as are counted, but for texts of the input that read as the marker already |
| RedactionFidelity.HarmlessPasses | packages/domain/src/redaction.ts:327-463 | a value with nothing to hide, within the node and depth limits and without repeated objects, is returned unchanged at every boundary and nothing is counted |
| LoopbackListener.DefaultListener.WaitForCallback | packages/plugin-feishu/src/oauth-loopback-callback-host.ts:234-256 | wait arms the listener at most once and only before it is closed, with an acceptable URL and no abort; a refused call changes nothing |
| LoopbackListener.DefaultListener.Reject | packages/plugin-feishu/src/oauth-loopback-callback-host.ts:301-310 | an abort, timeout or server error decides a waiting promise and closes the server; one that is decided stays as it is |
| LoopbackListener.DefaultListener.CloseListener | packages/plugin-feishu/src/oauth-loopback-callback-host.ts:258-266 | after close an armed promise is decided: by the cancellation if it was waiting, else as it was before |
| LoopbackListener.DefaultListener.OnRequest | packages/plugin-feishu/src/oauth-loopback-callback-host.ts:283-299 | 200 if and only if the request carries the expected state while the promise waits, and then it decides; everything else is a 404 that changes nothing |
| LoopbackListener.SettledOnce | packages/plugin-feishu/src/oauth-loopback-callback-host.ts:207-311 | in every interleaving the promise settles at most once, only after the server closed, and is never orphaned |
| LoopbackListener.ClosingSettles | packages/plugin-feishu/src/oauth-loopback-callback-host.ts:268-310 | when the server has closed an armed promise has settled |
| LoopbackListener.FirstDecides | packages/plugin-feishu/src/oauth-loopback-callback-host.ts:283-310 | an accepted callback is never overridden by a later abort, timeout or error, nor the other way round |
| LoopbackListener.AcceptedIffExpected | packages/plugin-feishu/src/oauth-loopback-callback-host.ts:283-299 | 200 exactly for the expected state while the promise waits |
| LoopbackListener.DecidesAsWhatItIs | packages/plugin-feishu/src/oauth-loopback-callback-host.ts:234-310 | while the promise waits an abort and a close cancel it, a timeout times it out, a server error makes listening unavailable, and a request with the expected state is accepted |
| LoopbackListener.WaitIsAnswered | packages/plugin-feishu/src/oauth-loopback-callback-host.ts:234-256 | which refusal a call of wait gets, and exactly when it begins to wait |
| DraftRevisions.EveryRunIsAChain | packages/bundle-workbench/src/model-draft-controller.ts:420-551 | every run of creations, edits (failed and half-done ones included) and Persona changes keeps revisions 1 to n with n at most 100, all but the last superseded, the last active, one Persona |
| DraftRevisions.ChainHolds | packages/storage-sqlite/src/draft-action-state.ts:667-836 | the same as an invariant, with the stored transitions and audits agreeing with the Drafts |
| DraftRevisions.RepeatedEditAddsNothing | packages/bundle-workbench/src/model-draft-controller.ts:420-551 | repeating the last successful edit answers with the same Draft and changes nothing |
| DraftRevisions.RetryCompletesEdit | packages/bundle-workbench/src/model-draft-controller.ts:286-328 | an edit whose audit failed after its transaction is completed by the same request |
| DraftOutcomes.NewContentAddsRevision | packages/bundle-workbench/src/model-draft-controller.ts:420-551 | in every reachable store new content supersedes the last revision by one with that content, submitted if asked for, with its audit; the whole new store is given |
| DraftOutcomes.SubmitsInPlace | packages/bundle-workbench/src/model-draft-controller.ts:474-505 | submitting an editing revision as it stands succeeds: the revision itself becomes ready, with transition and audit |
| DraftOutcomes.RecoveredEdits | packages/bundle-workbench/src/model-draft-controller.ts:455-473 | an edit whose outcome is there already answers with it and at most completes its audit |
| DraftOutcomes.RefusedEdits | packages/bundle-workbench/src/model-draft-controller.ts:420-465 | an edit out of range, of a missing revision, for another Persona or against another successor is refused as such and changes nothing |
| DraftOutcomes.UncommittedChangesNothing | packages/bundle-workbench/src/model-draft-controller.ts:420-551 | a transaction that cannot commit or comes before the Draft or work item leaves the store as it was |
| DraftOutcomes.FirstDraftIsStored | packages/storage-sqlite/src/draft-action-state.ts:458-530 | a first Draft is stored exactly if it is number one, active, of the selected Persona, in order of time, and nothing is stored over another |
| DraftRevisions.ResubmissionIff | packages/bundle-workbench/src/model-draft-controller.ts:286-330 | submitting a ready revision again unchanged succeeds if and only if no submission audit is on record for it or the one on record is the same; it changes no Draft |
| DraftRevisions.ResubmissionConflicts | packages/bundle-workbench/src/model-draft-controller.ts:420-551 | in every reachable store it fails if and only if the audit on record names the revision before: the revision was created by a submitted edit |
| DraftRevisions.SubmittedEditConflicts | packages/bundle-workbench/src/model-draft-controller.ts:420-551 | a run on the failing side: a first Draft is edited and submitted in one request, and submitting the new revision again fails |
| DraftRevisions.LatestModelDraft | packages/bundle-workbench/src/model-draft-controller.ts:256-284 | the upward loop computes the last revision reachable, or reports a broken chain |
| DraftOutcomes.ReaderFollows | packages/bundle-workbench/src/model-draft-controller.ts:256-284 | over any rows, it goes as far as the chain continues and answers with the Draft there unless that is superseded or a row that does not continue the chain follows within the limit |
| DraftRevisions.LatestDraft | packages/bundle-workbench/src/feishu-reply-flow-controller.ts:120-149 | the highest row is returned exactly when it is active, within the limit, and all rows below are superseded and of its Persona |
| DraftRevisions.BothReadersAgree | packages/bundle-workbench/src/feishu-reply-flow-controller.ts:120-149 | in every reachable store both readers find the last revision |

## Left out

- RotationJournal.SoundFormat and ReceiptStore.SoundFormat are assumptions, not theorems about JSON.stringify and JSON.parse: that records are read back, that no text holds a newline, and that an object text glued behind prefixes of object texts is no JSON text (section 4 of RFC 8259).
- RotationSafety.RefreshedAtMostOnce: one process at a time, as the runtime lease grants it; the directory entry of a new file and bytes lost by the disk after a successful sync are not modelled.
- RotationSafety.NeverTakenBackAfterWrite: an abort reason is taken to be none of the error classes that the catch blocks look for; a Keychain command that reports success is taken to have had its effect.
- RotationRuns: the remote token exchange, the Keychain and the discovery calls are outcomes of a step; the byte copies, the zeroing of buffers and the checks of token sets are not part of this model; what a call leaves in journal and Keychain is modelled, the status or error that it returns is not.
- RotationEvents.ParseAfterEncode: a timestamp is an integer, so two spellings of one instant are not told apart, and the calendar checks of the reader are not modelled.
- ProjectionConvergence.Convergence: says nothing about createdAt and the subject of a thread, which do depend on the first batch (ProjectionOutcomes.ProjectionOutcome says how), and leaves updatedAt to DeliveriesReflect, since it is the last first observation; the events first seen by the two runs must agree on source and time of each message; batches with two equal event ids, which the domain parser rejects, are outside.
- Projection.ProjectBatch: messages are taken after normalizeMessage; the whitespace compaction and the 280-unit cut of a summary, and links and mentions of the presentation, are not modelled.
- CanonicalJson.CanonicalIdentifies: numbers are the tokens that JSON.stringify prints, so the conversion of doubles to tokens is not modelled.
- ReceiptStore.ReceiptFile.Admit: argument checks by regular expression and the file-permission checks are left out.
- RuntimeSupervisor: its asynchronous methods are split into steps on values rather than methods of a class; microtask turns in which nothing else of the supervisor can run are merged into one step.
- SupervisorLiveness.WorksOff: takes for granted that callers return the lease in the end and that an aborted polling run ends.
- SupervisorSafety.OnePollingRun: the inside of a polling run is not modelled, only its start, abort, end and settlement.
- SupervisorSafety.QuiescedForGood: polling may still start after quiesce has been called, by the refresh that is running then; the statement begins when the quiesce operation is done.
- JsonScanners.DuplicateObjectKeyIsExact: literal tokens are any run of units that are neither structural nor blank, which includes more than the numbers and names of the grammar.
- SecretEscaper.RequestBody: the zeroing of the prefix and suffix buffers and the UTF-8 encoding of the identifier are left out.
- RedactionNames.MaskIsWithheld: the lists of business content and metadata names are those of the model, word by word.
- Redaction.Redactor.VisitValue: the patterns of redactText are an uninterpreted function from a text to a cleaned text and its counts; strings are sequences of characters, not of UTF-16 units; the order in which JavaScript lists integer-like names is not modelled.
- RedactionSecrecy.NothingLeaks: the two values name corresponding objects by the same identity.
- LoopbackListener.DefaultListener.OnRequest: the parsing of the request target and of the authorization URL is reduced to the state they carry, if they are acceptable.
- DraftRevisions.ChainHolds: one work item; the identities derived from its digest are the revision numbers; the duplicate branch of reviseDraft is not reached by edits and is left out; cancellation of Drafts has no caller in the repository.
- The bounded reading of response bodies, settings editors, identity bootstrapping, presentations, readiness checks, maintenance runtimes, approval and execution controllers and the web and plugin wiring: input checks and mappings that would add easy members only.
