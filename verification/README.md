# Switchyard custody, verified

Switchyard records exactly what a provider did and refuses to claim more than the evidence
shows. This project models the parts that carry that promise and proves what they keep over
every run.

**Admission.** `ProviderAdmissionMapper` is a state machine over ordered envelopes with a sealed,
bounded evidence log. `ProviderAdmission.Step` is one public call as a function; the class in
`ProviderAdmissionMapper.dfy` updates its fields in place, checkpoints and restores them, and is
proved to compute `Step`. The runs of `Step` are then shown to keep the log transactional, the
admission state coupled and monotone, the boundary records in the language (R S C)* or R F, and the
history of a cleanly cut run free of trouble. What each kind of message has to say, field by field, for
its fact to be kept and not a discrepancy is stated apart from the transition function, in both
directions (`ProviderFacts`, `ClientFacts`, `EchoFacts`). Replay is proved to accept exactly the logs whose calls
were replayable, to rebuild the whole private state, and to accept nothing a run could not have made.

**Acquisition.** The byte-bounded queue, the ordinal that is spent even when a put is refused, the
loss generation, the reader and writer lock sections and the terminal cut are a class; the lock
sections are also the steps of a machine with any interleaving. While no loss is recorded the queue
holds the stream's lines, exactly and in order. `LineFacts` says which lines are what, and when what they
carry is acquired. Composed with the mapper: a clean cut means that the
records' server-side bytes are the whole stdout stream.

**Running and verifying.** The drain loop projects the worker's output while it feeds the mapper; the
verifier folds the retained frames afterwards. On every run that returns with a clean cut the two
agree, replay accepts the snapshot, and the agent text is within its bound. What both compute is the last
agent text among the JSON messages (`WorkerOutput`). `WholeRun` joins this with
acquisition: one statement from stdout to the verifier's verdict.

**Dispatch store, direct API ledger, attempt rows.** Each SQLite transaction is one atomic step of any
number of processes that may crash in between. A dispatch is claimed or closed before launch, once
and never both, and its record is handed out to those with the same inputs alone; a budget scope is
never overspent or oversubscribed, counted in the tokens of the responses themselves; a provider is
contacted once and only on record; a terminal attempt was sealed from the whole message of a completed
turn under a confirmed cut.

**Canonical JSON.** The RFC 8785 serializer as a recursive writer into a sink, and a strict reader that
knows the short escapes, the lower-case `\u00` escapes, plain decimals and ascending keys and nothing
else. The reader accepts exactly what the serializer writes, so each value has the one spelling that
sections 3.2.2.2 and 3.2.3 prescribe; two values share their bytes under one exact condition; and
the re-layout of a float's shortest decimal text (section 3.2.2.3) proved to be ECMA-262's
Number::toString and to keep the number.

**Preflight and work items.** The reserved turn/start request is a true worst case; the reserved echo is
short by thirty-two bytes, exactly. The depth-first search raises the cycle error if and only if the
dependency graph has a cycle.

## Where the code and its promises part

- `_atomic` does not checkpoint the `_bounded_*` fields. A failed call is rolled back completely under
  every contract but the echo contract, and under that one it is not
  (`AdmissionRollback.RollbackExactly`): a turn/start request whose params have no canonical form raises
  and leaves its input selected, in every world and from every state that could accept it, and the
  corrected request is then refused as a second one. With the vendored serializer any member integer
  beyond 2^53 - 1 does this (`UncanonicalInput.LargeIntegerLeavesInputSelected`). The runner's own
  params hold no integers, so the failing calls are those of other callers.
- Replay is not total. `ReplayRoundTrip.ReplayExactly` gives the exact condition on the calls: client
  traffic in order and well shaped, server messages in order with valid custody and no request
  method, known legacy facts. The shortest log that is refused is one client request after a gap
  (`ReplayRoundTrip.GappedRequestDoesNotReplay`). An unordered fixture call is outside a production run.
- The reserved input echo omits `emittedAtMs` and the sign of a negative timestamp.
  `Preflight.EchoFitsExactly` is the condition under which no echo of a prompt is refused; an accepted
  brief fails it exactly when its reserved echo ends within the last thirty-two bytes of the bound
  (`Preflight.AcceptedFallsShortExactly`), and every accepted brief grows into one that does
  (`Preflight.AcceptedEchoMayNotFit`).
- The runner never takes messages off `client.notifications`. Where that queue (256 places and 16 MiB by
  default) holds all notifications of the stream at once it never refuses one; where it does not, no
  interleaving and no cut ends the turn cleanly (`NotificationLimit`).
- The message a collector seals is the one of the last turn observed before it loaded the row, and the
  message that stays in the row is that of the last turn observed before the seal. They are the same
  exactly when no turn was observed in between, or the last one that was ended with the loaded message
  again (`SealedMessage.SealMatchesExactly`); `SealedMessage.DisturbedSealNeedNotMatch` is a run where
  they are not. The command line always collects inside `begin_existing_occurrence`
  (src/switchyard/nightshift_adapter.py:1354-1380), which holds the store's only write transaction, and then
  they are the same (`SealedMessage.UndisturbedSealMatches`); the failing runs are those of callers that
  use the adapter as a library without it.

## Model

| member | source | states |
|---|---|---|
| `ProviderAdmissionMapper.Mapper.constructor` | src/switchyard/provider_admission.py:236-268 | a new mapper holds no evidence, expects ordinal 0 and is unresolved |
| `ProviderAdmissionMapper.Mapper.Retain` | src/switchyard/provider_admission.py:302-334 | one record is appended with the next sequence number, or a record or byte bound raises and nothing changes |
| `ProviderAdmissionMapper.Mapper.MarkDiscrepancy` | src/switchyard/provider_admission.py:336-356 | distrust is recorded in the state and in one record, with the identity in force |
| `ProviderAdmissionMapper.Mapper.Restore` | src/switchyard/provider_admission.py:358-398 | every checkpointed field returns to the checkpoint; the bounded bookkeeping does not |
| `ProviderAdmissionMapper.Mapper.ConsumeEnvelope` | src/switchyard/provider_admission.py:426-503 | the object's fields and result after an envelope are those of the transition function, rollback included |
| `ProviderAdmissionMapper.Mapper.Consume` | src/switchyard/provider_admission.py:505-513 | the unordered path refuses a production mapper untouched and otherwise is the transition function |
| `ProviderAdmissionMapper.Mapper.MarkAcquisitionLoss` | src/switchyard/provider_admission.py:404-408 | a reported loss becomes a discrepancy without bytes, or raises after a cut |
| `ProviderAdmissionMapper.Mapper.RecordLegacyLocalFact` | src/switchyard/provider_admission.py:410-424 | a known legacy fact is retained, an unknown one is a discrepancy |
| `ProviderAdmissionMapper.Mapper.ConsumeCut` | src/switchyard/provider_admission.py:1114-1178 | the terminal cut is recorded once, with distrust unless all six facts hold |
| `ProviderAdmissionMapper.Mapper.ConsumeInOrder` | src/switchyard/provider_admission.py:450-503 | an in-order envelope is decided by kind and shape and applied to the fields |
| `ProviderAdmissionMapper.Mapper.AcceptClientRequest` | src/switchyard/provider_admission.py:515-603 | the request is raised, refused or issued as decided, and its selected input is kept either way |
| `ProviderAdmissionMapper.Mapper.AcceptClientResponse` | src/switchyard/provider_admission.py:605-675 | the response is raised, refused or retained, removing exactly its request |
| `ProviderAdmissionMapper.Mapper.ConsumeImpl` | src/switchyard/provider_admission.py:677-762 | a server message is taken into custody under the bound its selection allows, then classified |
| `ProviderAdmissionMapper.Mapper.ProviderRequest` | src/switchyard/provider_admission.py:843-882 | a valid sampling request becomes the pending one and one record |
| `ProviderAdmissionMapper.Mapper.ResponseStarted` | src/switchyard/provider_admission.py:888-948 | the pending request becomes a step; the first one fixes the execution identity |
| `ProviderAdmissionMapper.Mapper.ProviderRefused` | src/switchyard/provider_admission.py:950-998 | a typed capacity refusal of the pending request parks the dispatch |
| `ProviderAdmissionMapper.Mapper.ResponseCompleted` | src/switchyard/provider_admission.py:1000-1035 | completion closes exactly the open response |
| `ProviderFacts.RequestStartedExactly` | src/switchyard/provider_admission.py:843-882 | a `providerRequest/started` in custody begins a request, with these facts on record, exactly when its fields are the next request of this turn; any other is distrusted |
| `ProviderFacts.ResponseStartedExactly` | src/switchyard/provider_admission.py:884-948 | a `rawResponse/started` admits the execution or carries it on exactly when it is the first sight of a response to the pending request, no earlier than it |
| `ProviderFacts.RefusedExactly` | src/switchyard/provider_admission.py:950-998 | a `providerAdmission/refused` parks the dispatch, with its facts on record, exactly when its fields are the typed capacity refusal of the pending request before any admission |
| `ProviderFacts.ResponseCompletedExactly` | src/switchyard/provider_admission.py:1000-1035 | a `rawResponse/completed` ends the open response exactly when it names it; any other is distrusted |
| `ProviderFacts.ServerRequestExactly` | src/switchyard/provider_admission.py:1084-1112 | a server request surfaces an approval exactly when it asks for one in this thread and turn, after admission and with no response open |
| `ProviderFacts.TurnFactExactly` | src/switchyard/provider_admission.py:1037-1082 | a thread or turn fact is kept exactly when it is about this thread and turn and the turn may end, and completes the provider exactly when it ends an admitted turn |
| `ProviderFacts.OtherNotificationExactly` | src/switchyard/provider_admission.py:699-762 | any other notification leaves a trace of itself alone, unless it reports an error, an unknown boundary or comes after the end |
| `ClientFacts.ClientRequestExactly` | src/switchyard/provider_admission.py:515-603 | a client request is issued, with its facts on record, exactly when it is closed, of a known method and thread, new, and selects at most the first input; it raises exactly when its params have no canonical form |
| `ClientFacts.ClientResponseExactly` | src/switchyard/provider_admission.py:605-675 | a client response is retained exactly when it answers an outstanding request, which is then outstanding no more |
| `ClientFacts.LossExactly` | src/switchyard/provider_admission.py:404-408 | a reported loss is distrusted while the mapper is open and raises after its cut |
| `ClientFacts.LegacyExactly` | src/switchyard/provider_admission.py:410-424 | a legacy fact is kept exactly when it is one of the four known ones |
| `ClientFacts.CutExactly` | src/switchyard/provider_admission.py:1114-1178 | the first cut of its own processes closes the mapper, and clean exactly when all is well; any other raises |
| `ClientFacts.OutOfOrderExactly` | src/switchyard/provider_admission.py:429-450 | an envelope out of order is distrusted and the expected ordinal never goes back |
| `EchoFacts.MapperSelectsExactly` | src/switchyard/provider_admission.py:677-698 | under the echo contract the larger bound is for the closed frames of this turn alone: the echo of the selected input and agent output |
| `EchoFacts.InputEchoExactly` | src/switchyard/provider_admission.py:764-790 | the echo of the selected input is kept exactly as one start and then the one completion of that item |
| `EchoFacts.AgentItemKeptExactly` | src/switchyard/provider_admission.py:791-822 | an agent message is kept exactly as a start with no other open and then its own completion, all completed texts within 32 KiB |
| `EchoFacts.DeltaKeptExactly` | src/switchyard/provider_admission.py:809-811 | a piece of a message is kept exactly while that message is open |
| `EchoFacts.SummaryExactly` | src/switchyard/provider_admission.py:812-816 | the selected summary ends the turn exactly when the turn may end and its one agent message is the last one completed |
| `ProviderAdmission.DecideClientRequest` | src/switchyard/provider_admission.py:515-603 | whatever is decided about a client request names that request and keeps its exact custody-valid bytes, unless the call raises |
| `ProviderAdmission.DecideClientResponse` | src/switchyard/provider_admission.py:605-675 | the same for a client response |
| `ProviderAdmission.DecideCustodied` | src/switchyard/provider_admission.py:699-762 | once bytes are in custody no decision drops them |
| `AdmissionGuards.Decompose` | src/switchyard/provider_admission.py:358-503 | every successful public call is one guarded decision applied to an open mapper in which only the expected ordinal and the echo bookkeeping have moved |
| `AdmissionLog.StepIsTransactional` | src/switchyard/provider_admission.py:358-402 | a call appends exactly one record to an open log, or raises and leaves all but the echo bookkeeping as it was |
| `AdmissionLog.RunInvariant` | src/switchyard/provider_admission.py:302-356 | every reachable log is dense, sealed, within 4096 records and 16 MiB, with the retained bytes equal to the records' sizes and the cut last; identity exists exactly when admitted and the mechanism lies in its disposition's class |
| `AdmissionLog.RunAdvances` | src/switchyard/provider_admission.py:336-356 | over any continuation the log only grows, identity and distrust are final, approval never reaches completion, and nothing follows a cut |
| `AdmissionRollback.RollbackExactly` | src/switchyard/provider_admission.py:358-398 | in every world with a turn/start request that has no canonical form, every failed call leaves the state exactly as it was if and only if the contract is not the echo contract |
| `AdmissionRollback.RollsBackElsewhere` | src/switchyard/provider_admission.py:358-398 | outside the echo contract that holds in every world |
| `AdmissionRollback.EchoRollbackIsPartial` | src/switchyard/provider_admission.py:570-590 | under the echo contract such a request raises and leaves its input selected, in every world and from every state that could accept it |
| `AdmissionRollback.CorrectedRequestIsRefused` | src/switchyard/provider_admission.py:570-590 | the corrected request is then refused as a second selected input and the dispatch distrusted |
| `UncanonicalInput.LargeIntegerLeavesInputSelected` | src/switchyard/provider_admission.py:570-590 | with the vendored serializer one member integer beyond 2^53 - 1 is such a request |
| `UncanonicalInput.OutOfDomainHasNoText` | src/switchyard/_vendor/rfc8785/_impl.py:199-205 | a dict with a member outside the integer domain is refused wherever the member stands |
| `UncanonicalInput.SerializerIsAWorld` | src/switchyard/_vendor/rfc8785/_impl.py:177-252 | the serializer is a function of the value and not of the order its dicts were filled in |
| `AdmissionRollback.StepTouchesEchoOnly` | src/switchyard/provider_admission.py:358-375 | outside the echo contract no call ever moves the unsaved fields |
| `BoundaryLanguage.RunSpeaksLanguage` | src/switchyard/provider_admission.py:843-1035 | the boundary records of every run spell a prefix of (R S C)* or R F, ordinals and orders count the steps, response and occurrence ids are distinct and times never decrease |
| `BoundaryLanguage.CompletionIsWhole` | src/switchyard/provider_admission.py:1052-1076 | a completed provider spelled (R S C) at least once and nothing else |
| `BoundaryLanguage.ParkingIsOneRefusal` | src/switchyard/provider_admission.py:950-998 | a parked dispatch spelled exactly R F |
| `CleanHistory.CleanMeansNothingWentWrong` | src/switchyard/provider_admission.py:1147-1175 | a clean cut means no discrepancy and no approval anywhere, and requests issued correspond one to one with later responses of equal id, method and params digest |
| `CleanHistory.RunKeepsHistory` | src/switchyard/provider_admission.py:585-675 | in every run distrust is in the state exactly when it is in the log, and the outstanding requests are the issued and unanswered ones |
| `CleanHistory.RunKeepsCut` | src/switchyard/provider_admission.py:1117-1178 | a clean cut agrees with the state it closed |
| `CleanHistory.RunKeepsShapes` | src/switchyard/provider_admission.py:590-675 | in every log the records with request or response facts are exactly those of kind CLIENT_REQUEST_ISSUED and CLIENT_RESPONSE_RETAINED |
| `CleanRunWitness.CleanRunExists` | src/switchyard/provider_admission.py:1117-1178 | a concrete run of five notifications, one of them an agent message, and a cut closes cleanly with its provider completed, so what is proved of clean runs is not empty |
| `CleanRunWitness.ParkedRunExists` | src/switchyard/provider_admission.py:950-998 | another one parks on a capacity refusal and closes cleanly |
| `AdmissionReplay.ReplayRecord` | src/switchyard/provider_admission.py:1213-1294 | one retained record is reconstructed as a call, performed, and compared whole with what the call produced |
| `AdmissionReplay.ReplayRecords` | src/switchyard/provider_admission.py:1198-1296 | the replay loop over a fresh mapper accepts and rebuilds exactly what the replay function says |
| `AdmissionReplay.RefusedStaysRefused` | src/switchyard/provider_admission.py:1213-1296 | a log with a refused prefix is refused whatever follows |
| `ReplayRoundTrip.RedoStep` | src/switchyard/provider_admission.py:1213-1294 | replaying one production record remakes that very record and state if and only if the call was replayable |
| `ReplayRoundTrip.ReplayExactly` | src/switchyard/provider_admission.py:1198-1296 | the log of a production run replays if and only if each of its calls was replayable, and then all private state is rebuilt |
| `ReplayRoundTrip.GappedRequestDoesNotReplay` | src/switchyard/provider_admission.py:1246-1256 | one client request after a gap is a production run whose log is refused |
| `ReplayRoundTrip.ClientGapDoesNotReplay` | src/switchyard/provider_admission.py:1246-1256 | client traffic out of order at any point of a production run ends replay |
| `AcceptedSnapshots.ReplayIsSound` | src/switchyard/provider_admission.py:1198-1296 | every state replay reaches is that of a run of public operations with that log |
| `AcceptedSnapshots.AcceptedIsReachable` | src/switchyard/provider_admission.py:1300-1316 | an accepted snapshot is the snapshot of the rebuilt mapper, which public operations reach, whoever wrote it |
| `AcceptedSnapshots.AcceptedIsTrustworthy` | src/switchyard/provider_admission.py:1300-1316 | from acceptance alone follow the boundary language, the coupling, what completion means and what clean means |
| `AcceptedSnapshots.LiveSnapshotAccepted` | src/switchyard/provider_admission.py:1180-1316 | a production mapper's own snapshot is accepted exactly when its run was replayable, and rebuilds its state |
| `ByteBoundedQueue.Queue.PutNowait` | src/switchyard/appserver.py:194-199 | an item is appended exactly when a place and enough of the byte budget are free; a refusal changes nothing |
| `ByteBoundedQueue.Queue.GetNowait` | src/switchyard/appserver.py:201-204 | the oldest item leaves and gives back its weight; only an empty queue has none |
| `ByteBoundedQueue.TotalBytesTail` | src/switchyard/appserver.py:194-204 | what the remaining items weigh after the oldest is taken |
| `AppServerClient.AppServerClient.constructor` | src/switchyard/appserver.py:249-350 | a client starts with empty queues, ordinal 0 and no loss |
| `AppServerClient.AppServerClient.NextOrderedLocked` | src/switchyard/appserver.py:501-529 | the ordinal is spent whether or not the envelope is put |
| `AppServerClient.AppServerClient.RecordLossLocked` | src/switchyard/appserver.py:531-539 | a loss moves the generation, keeps its diagnostic if it fits and offers a loss envelope |
| `AppServerClient.AppServerClient.Offer` | src/switchyard/appserver.py:697-720 | a message enters its own queue and the ordered one, or a loss takes its place |
| `AppServerClient.AppServerClient.Route` | src/switchyard/appserver.py:840-861 | a response is retained within the event bound or lost, and its one-place mailbox takes the first answer only |
| `AppServerClient.AppServerClient.NextLine` | src/switchyard/appserver.py:735-746 | chunked reads yield the next whole line, or drop exactly that line when it is oversized or unterminated |
| `AppServerClient.AppServerClient.ReadOne` | src/switchyard/appserver.py:733-866 | one iteration of the reader is one line fetched, classified and delivered |
| `AppServerClient.AppServerClient.ReadStdout` | src/switchyard/appserver.py:722-866 | the reader loop is those steps to the end of the stream or the first exception |
| `AppServerClient.AppServerClient.WriteRequest` | src/switchyard/appserver.py:413-449 | a refused request touches nothing; an accepted one is in ordered custody before any byte is sent, or is a loss and not sent |
| `AppServerClient.AppServerClient.DrainOrderedAcquisition` | src/switchyard/appserver.py:686-695 | a drain returns the queued envelopes in order and leaves the queue empty |
| `AppServerClient.AppServerClient.StopProcess` | src/switchyard/appserver.py:577-636 | wait, terminate and kill are tried in order, each failure being one loss of its own reason |
| `AppServerClient.AppServerClient.QuiesceAcquisition` | src/switchyard/appserver.py:547-695 | the client and the cut after a shutdown: every failure is one more loss, in order, and the cut is quiesced exactly when there was none, at the end of stdout and with the process gone |
| `TerminalCut.QuiescedExactly` | src/switchyard/appserver.py:547-676 | the cut is quiesced exactly after a shutdown in which nothing failed, each failure is one loss, and the disposition tells which wait saw the process leave |
| `TerminalCut.QuiescedCutIsOfRun` | src/switchyard/appserver.py:547-695 | the cut the client returns is the cut of its run, with the losses of the shutdown as the last steps of the run |
| `AcquisitionRuns.DeliverGrows` | src/switchyard/appserver.py:697-866 | delivering a line without a loss adds one envelope with exactly its bytes |
| `AcquisitionRuns.RecordLossGrows` | src/switchyard/appserver.py:531-539 | no loss is silent: the generation moves on and ordinals only grow |
| `AcquisitionRuns.EnqueueGrows` | src/switchyard/appserver.py:439-451 | a request in custody is one client envelope; a refused one is a loss |
| `LineFacts.LineExactly` | src/switchyard/appserver.py:759-861 | a line that decodes to an object is a notification, a server request, an answer or a loss exactly as its method, id, params and size say |
| `LineFacts.UnreadLineIsLost` | src/switchyard/appserver.py:735-758 | every other line is lost |
| `LineFacts.ServerRequestAcquiredExactly` | src/switchyard/appserver.py:697-720 | a server request is acquired exactly when its own queue and the ordered one take it, and otherwise is one loss |
| `LineFacts.NotificationAcquiredExactly` | src/switchyard/appserver.py:697-720 | the same for a notification |
| `LineFacts.AnswerAcquiredExactly` | src/switchyard/appserver.py:840-861 | an answer is acquired and handed over exactly within 16 KiB, when the ordered queue takes it and the waiter has none yet |
| `LineFacts.LossExactly` | src/switchyard/appserver.py:531-539 | what a loss leaves: the generation, its diagnostic within 64 places and 64 KiB, and its envelope with up to 16 KiB of the lost bytes |
| `LineFacts.EnvelopeWeighs` | src/switchyard/appserver.py:228-239 | an envelope weighs 64 bytes and its parts |
| `LineFacts.FittingRequestIsIssued` | src/switchyard/appserver.py:697-720 | in any run a server request at hand that fits is in the issued sequence after its delivery |
| `LineFacts.PlainRequestExactly` | src/switchyard/appserver.py:413-428 | a request that selects nothing is written exactly when it names its method and is within its bound |
| `LineFacts.SelectingRequestExactly` | src/switchyard/appserver.py:428-438 | a turn/start under the echo contract is written exactly when it also selects the one input, in its normalized form |
| `LineFacts.TurnLearnedExactly` | src/switchyard/appserver.py:828-838 | the turn is learned from the answer to its start and from nothing else |
| `EchoFacts.ReaderSelectsExactly` | src/switchyard/appserver.py:778-794 | the reader admits a larger line exactly for the closed echo of the selected input and, once the turn is known, for closed agent output of that turn |
| `AcquisitionRuns.RunKeepsCustody` | src/switchyard/appserver.py:501-866 | over every interleaving ordinals ascend below the next one, and until the first loss every ordinal has its envelope and the server's wires are the lines read, in order |
| `AcquisitionRuns.RunExtendsIssued` | src/switchyard/appserver.py:501-529 | what was put on the ordered queue stays in the issued sequence |
| `AcquisitionRuns.NotificationsAreCapped` | src/switchyard/appserver.py:697-720 | no more notifications can be acquired than were taken off their own queue plus what it holds |
| `EndToEndCustody.EnvelopeIsRetained` | src/switchyard/provider_admission.py:429-503 | an envelope that left no discrepancy was the expected one and its record keeps its ordinal, kind and bytes |
| `EndToEndCustody.RunIsFaithful` | src/switchyard/provider_admission.py:429-503 | while a log shows no discrepancy its ordered records are the first envelopes fed, none dropped, reordered or altered |
| `EndToEndCustody.LosslessPrefix` | src/switchyard/appserver.py:547-676 | at a quiesced cut without loss, what was issued is the whole stream |
| `EndToEndCustody.CustodyIsEndToEnd` | src/switchyard/provider_admission.py:1117-1178 | if the mapper fed from the drained envelopes closed cleanly with the client's cut, its ordered records are numbered 0 to the high-water mark and their server bytes are exactly the lines of the whole stdout stream, in order |
| `EndToEndCustody.CleanTurnsAreShort` | src/switchyard/provider_runner.py:787-828 | a clean run whose notification queue nobody empties has at most as many notifications as that queue holds |
| `NotificationLimit.OfferIsLossExactly` | src/switchyard/appserver.py:697-720 | offering a notification is a loss exactly when its queue has no place or too few bytes left, or the ordered queue refuses it |
| `NotificationLimit.FittingStreamIsNeverRefused` | src/switchyard/appserver.py:697-720 | a queue that holds all notifications of the stream never refuses one, in any interleaving |
| `NotificationLimit.OverfullStreamIsLost` | src/switchyard/appserver.py:697-720 | where it does not and nothing is taken off it, something is lost by the end of the stream |
| `NotificationLimit.OverfullTurnIsUnclean` | src/switchyard/provider_runner.py:787-828 | such a stream never closes cleanly, whatever the interleaving, the feed and the cut |
| `NotificationLimit.OneTooManyIsUnclean` | src/switchyard/appserver.py:255-280 | one notification line written once more often than the queue has places is such a stream |
| `ProviderRunner.ProviderRun.AcceptMessage` | src/switchyard/provider_runner.py:796-826 | usage, turn status and output are projected, and attribution failures recorded, as the projection function says |
| `ProviderRunner.ProviderRun.DrainBatch` | src/switchyard/provider_runner.py:787-828 | a drain feeds and projects its events up to the first exception and stores the snapshot |
| `ProviderRunner.ProviderRun.AttendTurn` | src/switchyard/provider_runner.py:856-868 | polling ends at a settled mechanism, a deadline or an exception, the latter two as losses |
| `ProviderRunner.ProviderRun.ConcludeTurn` | src/switchyard/provider_runner.py:869-886 | cleanup drains, records the cut and derives the run's state from both |
| `ProviderRunner.ProviderRun.Turn` | src/switchyard/provider_runner.py:856-889 | the run returns exactly when neither the handler nor the cleanup raised |
| `WorkerOutput.OutputIsLastText` | src/switchyard/provider_runner.py:787-828 | over every cleanly cut run that returned: the output is the text of the last completed agent message of the turn among the messages fed, None only if there is none, all texts are counted and within the bound, and status and usage are those last reported |
| `WorkerOutput.OutcomeExactly` | src/switchyard/provider_runner.py:869-889 | each outcome is claimed exactly for its mechanism and turn status under a clean cut, and every failure before the cleanup is on record |
| `WorkerOutput.SettledExactly` | src/switchyard/provider_runner.py:856-868 | polling goes on exactly while the dispatch is open, admitted or running |
| `RunVerification.ReplayedWorkerOutput` | src/switchyard/review_verifier.py:306-328 | the verifier's loop is the fold over retained frames, up to its first refusal |
| `WorkerOutput.VerifiedExactly` | src/switchyard/review_verifier.py:306-328 | over any log of object frames the verifier succeeds exactly when each frame is readable and the agent texts together are within the bound, and then it has the last of them |
| `WorkerOutput.VerifiedOutputExactly` | src/switchyard/review_verifier.py:306-328 | so the verified output of a snapshot is the last agent text among its frames |
| `RunVerification.AcceptedFrames` | src/switchyard/provider_admission.py:677-762 | the frame of an accepted envelope decodes to its message, and client traffic never looks like projected server traffic |
| `RunVerification.MessageAgrees` | src/switchyard/review_verifier.py:306-328 | without a loss, projecting a message live is what the verifier does with its frame |
| `LiveReplayAgreement.VerifierAgreesWithRun` | src/switchyard/review_verifier.py:306-328 | for every run that returned with a clean cut, replay accepts the snapshot and rebuilds the live mapper, the recomputed output never raises and is the stored one, and all agent text is within the bound |
| `LiveReplayAgreement.ClaimedOutcomeIsClean` | src/switchyard/provider_runner.py:870-886 | only a cleanly cut run claims an outcome |
| `LiveReplayAgreement.SmoothRunReplays` | src/switchyard/provider_admission.py:1198-1296 | a run whose calls all went through without a discrepancy replays |
| `WholeRun.WholeRunIsVerified` | src/switchyard/review_verifier.py:368-392 | for a run that claims an outcome, over every interleaving and batching: the snapshot holds the whole stdout stream, replay accepts it, and the verifier recomputes the stored output |
| `WholeRunWitness.WholeRunExists` | src/switchyard/provider_runner.py:745-889 | a concrete stream with an agent message, an interleaving and a runner meet all its hypotheses, and so those of end-to-end custody and of agreement, with an outcome claimed and that message as the output |
| `DispatchStore.RunStore.FindRecord` | src/switchyard/provider_runner.py:601-610 | a lookup gives the retained record, nothing, or refuses other inputs or another dispatch record |
| `DispatchStore.RunStore.ClaimDispatch` | src/switchyard/provider_runner.py:559-599 | a claim is fresh exactly when no row exists; otherwise the retained record is returned and nothing changes |
| `DispatchStore.RunStore.CloseDispatch` | src/switchyard/provider_runner.py:612-641 | a closure is inserted only where no row exists, and accepted again only if identical |
| `DispatchStore.RunStore.StoreRecord` | src/switchyard/provider_runner.py:643-645 | an update replaces the record of an existing row and nothing else |
| `DispatchStore.RunStore.Prepare` | src/switchyard/provider_runner.py:752-774 | a retained record is returned, a failed capture closes the dispatch, and only a fresh claim goes on |
| `DispatchFencing.RunsAreFenced` | src/switchyard/provider_runner.py:559-645 | over every interleaving of runners, closers and crashes each fresh claim or closure of a dispatch is its only one, and an owner's row is still its own |
| `DispatchFencing.AtMostOneContact` | src/switchyard/provider_runner.py:752-774 | two processes at the provider for one dispatch are the same process, and none is there for a dispatch ever closed before launch |
| `DispatchFencing.RunsKeepRows` | src/switchyard/provider_runner.py:559-645 | rows are never removed, their admitted bytes never change and a closed row never changes at all |
| `DispatchFencing.ReclosureIsIdempotent` | src/switchyard/provider_runner.py:612-641 | an accepted closure is accepted again unchanged, and shuts out fresh claims and other closures |
| `DispatchFencing.ReuseIsExact` | src/switchyard/provider_runner.py:559-641 | over every interleaving a retained record is handed out exactly to those who bring the request, brief, backend and dispatch record of the one who claimed or closed it, and a closure is valid and of its own binding |
| `DirectApi.RunStore.Totals` | src/switchyard/direct_api.py:441-448 | the active count and the reserved sum of a scope |
| `DirectApi.RunStore.ClaimRun` | src/switchyard/direct_api.py:390-478 | a claim reserves and inserts in one step, returns the retained record, or refuses and changes nothing |
| `DirectApi.RunStore.UpdateRun` | src/switchyard/direct_api.py:480-482 | an update replaces the record of an existing run |
| `DirectApi.RunStore.CloseConcurrencySlot` | src/switchyard/direct_api.py:484-487 | the slot is closed and the monetary reservation stays |
| `DirectApi.RunStore.RunRequest` | src/switchyard/direct_api.py:567-703 | a run's record, store writes and slot release for every preparation and transport outcome |
| `ClaimFacts.ClaimExactly` | src/switchyard/direct_api.py:390-478 | an unknown dispatch is claimed exactly when its scope is new or of this configuration, has fewer active rows than its limit and bears the sum; a known one is returned to the same request only |
| `ClaimFacts.SlotFreedExactly` | src/switchyard/direct_api.py:695-703 | a fresh run leaves its record stored and its reservation standing, with the slot taken exactly while nobody knows what became of the request |
| `DirectResponses.AnsweredRun` | src/switchyard/direct_api.py:613-681 | a run answered with the enrolled model, one text within bound and token counts completes with that text and those counts exactly when each count is within its own maximum |
| `DirectResponses.UncountedRun` | src/switchyard/direct_api.py:613-681 | without token counts it completes with the text alone |
| `DirectResponses.CompletedRunIsExplained` | src/switchyard/direct_api.py:567-681 | a fresh run completes on such a response only |
| `DirectResponses.RefusedRun` | src/switchyard/direct_api.py:514-526 | what each status but 200 means |
| `DirectResponses.UnacceptableRun` | src/switchyard/direct_api.py:640-681 | what is wrong with any other decoded response |
| `DirectResponses.UndecodedRun` | src/switchyard/direct_api.py:624-634 | a reply that is no JSON object |
| `DirectResponses.FruitlessRun` | src/switchyard/direct_api.py:613-698 | failures, over-bound replies and cancellations after contact |
| `DirectResponses.EarlyRun` | src/switchyard/direct_api.py:567-601 | runs that never get as far as contact |
| `LedgerSafety.LedgerIsSafe` | src/switchyard/direct_api.py:430-475 | over every interleaving and crash each scope's reservations sum to at most its budget, its active slots stay within its limit, and each reservation belongs to a claimed run under the pinned configuration |
| `LedgerSafety.ConfigurationStaysPinned` | src/switchyard/direct_api.py:432-440 | a scope keeps the configuration of its first claim |
| `LedgerSafety.RunAloneIsOneThread` | src/switchyard/direct_api.py:567-703 | the sequential run is one thread of the interleaving machine |
| `ContactSafety.RunsAreCareful` | src/switchyard/direct_api.py:567-703 | over every interleaving and crash a busy run owns its row, slot and contact, and its durable record is the one its phase implies |
| `ContactSafety.OneContactConservativeRelease` | src/switchyard/direct_api.py:567-703 | a dispatch is contacted at most once and only with contact on record; a slot is free only if the durable contact state is settled and the state does not end in OUTCOME_UNKNOWN |
| `ContactSafety.SettleIsSane` | src/switchyard/direct_api.py:602-703 | whatever the transport does, a completed record is within its token envelope and never forgets contact |
| `ContactSafety.SpendStaysWithinBudget` | src/switchyard/direct_api.py:153-175 | completed runs with observed usage cost together at most the pinned budget |
| `DirectResponses.RunsAreFounded` | src/switchyard/direct_api.py:567-703 | over every interleaving and crash, whatever is stored as completed was answered just so |
| `DirectResponses.ResponsesStayWithinBudget` | src/switchyard/direct_api.py:153-175 | the token counts in the responses that completed the runs of a scope, at its pinned prices, never sum to more than its budget |
| `KeyOrder.BigEndianOrder` | src/switchyard/_vendor/rfc8785/_impl.py:233-238 | comparing big-endian UTF-16 bytes is comparing code units |
| `KeyOrder.KeyOrderIsStrictAndTotal` | src/switchyard/_vendor/rfc8785/_impl.py:233-238 | keys are strictly and totally ordered by code units |
| `KeyOrder.KeyOrderIsNotCodePointOrder` | src/switchyard/_vendor/rfc8785/_impl.py:233-238 | the order differs from code-point order, by example |
| `KeySorting.SortIsPermutation` | src/switchyard/_vendor/rfc8785/_impl.py:238-238 | sorting keeps the entries |
| `KeySorting.SortIsAscending` | src/switchyard/_vendor/rfc8785/_impl.py:238-238 | distinct keys come out strictly ascending |
| `KeySorting.AscendingIsUnique` | src/switchyard/_vendor/rfc8785/_impl.py:238-238 | there is one ascending order of the same entries |
| `CanonicalForm.SameMeaningSameCanon` | src/switchyard/_vendor/rfc8785/_impl.py:226-252 | values a reader cannot tell apart have the same canonical form |
| `CanonicalForm.CanonKeepsMeaning` | src/switchyard/_vendor/rfc8785/_impl.py:226-252 | canonical order keeps the value |
| `CanonicalForm.TextOfCanon` | src/switchyard/_vendor/rfc8785/_impl.py:188-252 | canonical order does not change the text or its errors |
| `CanonicalJsonReader.StringComesBack` | src/switchyard/_vendor/rfc8785/_impl.py:79-94 | the strict reader reads escaped strings back exactly, whatever follows |
| `CanonicalJsonReader.IntComesBack` | src/switchyard/_vendor/rfc8785/_impl.py:201-205 | the strict reader reads integers back exactly, whatever follows |
| `CanonicalJsonReader.ValueComesBack` | src/switchyard/_vendor/rfc8785/_impl.py:188-252 | the strict reader reads every nested value's text back as the value in canonical key order, in any context |
| `CanonicalJsonReader.LoadsDumps` | src/switchyard/_vendor/rfc8785/_impl.py:177-185 | canonical bytes are uniquely decodable |
| `CanonicalJsonReader.SameBytesIffSameValue` | src/switchyard/_vendor/rfc8785/_impl.py:177-252 | two values have the same bytes if and only if they are the same value up to key order |
| `CanonicalJsonReader.InsertionOrderIsInvisible` | src/switchyard/_vendor/rfc8785/_impl.py:226-252 | insertion order shows neither in the bytes nor in the errors |
| `CanonicalTexts.TextIffSerializable` | src/switchyard/_vendor/rfc8785/_impl.py:177-254 | a value is refused exactly when an integer beyond 2^53 - 1 or an unsupported part is in it at any depth |
| `CanonicalTexts.StringIsOnly` | src/switchyard/_vendor/rfc8785/_impl.py:31-41 | a string is read from its escaped text and from nothing else |
| `CanonicalTexts.IntIsOnly` | src/switchyard/_vendor/rfc8785/_impl.py:199-205 | an integer is read from its decimal text and from nothing else |
| `CanonicalTexts.ValueIsOnly` | src/switchyard/_vendor/rfc8785/_impl.py:188-252 | a value is read from its canonical text and from nothing else |
| `CanonicalTexts.CanonicalBytesExactly` | src/switchyard/_vendor/rfc8785/_impl.py:177-252 | bytes are canonical for a value if and only if the strict reader reads the value from them and it is within the domain |
| `CanonicalJsonWriter.SerializeStr` | src/switchyard/_vendor/rfc8785/_impl.py:79-94 | the quoted escaped string is appended as UTF-8 |
| `CanonicalJsonWriter.Dump` | src/switchyard/_vendor/rfc8785/_impl.py:188-254 | the sink gains exactly the canonical text, or the first error in writing order is returned |
| `CanonicalJsonWriter.DumpsOf` | src/switchyard/_vendor/rfc8785/_impl.py:177-185 | the bytes of a fresh sink |
| `FloatLayout.LayOut` | src/switchyard/_vendor/rfc8785/_impl.py:120-174 | cutting, padding and reassembling the text of `str` gives ECMA-262's Number::toString |
| `FloatLayout.PadRight` | src/switchyard/_vendor/rfc8785/_impl.py:153-162 | the first loop pads an integer to all its digits |
| `FloatLayout.PadLeft` | src/switchyard/_vendor/rfc8785/_impl.py:163-171 | the second loop pads a fraction with its zeros |
| `FloatValue.RelayoutKeepsValue` | src/switchyard/_vendor/rfc8785/_impl.py:122-174 | both texts denote the same number, and an exponent is used exactly from 21 up and from -7 down |
| `FloatValue.SerializeFloat` | src/switchyard/_vendor/rfc8785/_impl.py:97-174 | non-finite floats are refused, zeros are 0, and the sign is written before the positive form |
| `Utf8Codec.DecodeEncode` | src/switchyard/_vendor/rfc8785/_impl.py:86-93 | UTF-8 decodes to the text it encodes |
| `CompactJson.EscapedSize` | src/switchyard/appserver.py:36-38 | a string takes at most six bytes per code point, and NULs take exactly six |
| `CompactJson.CostIsSize` | src/switchyard/appserver.py:36-38 | the compact wire of a value is as long as its parts add up to |
| `Preflight.AcceptedTurnStartFits` | src/switchyard/provider_runner.py:78-85 | once a brief is accepted no thread identity or request number makes the real request longer than the reserved one |
| `Preflight.RefusedTurnStartExactly` | src/switchyard/provider_runner.py:78-85 | and it is refused exactly when some thread identity and request number make the real request too long |
| `Preflight.AcceptedTurnStartIsSent` | src/switchyard/appserver.py:422-426 | so the client never refuses the accepted request for its size |
| `Preflight.EchoFitsExactly` | src/switchyard/provider_runner.py:86-97 | every closed echo fits if and only if the reserved ones leave thirty-two bytes |
| `Preflight.AcceptedFallsShortExactly` | src/switchyard/provider_runner.py:86-98 | an accepted brief has an echo that can be refused exactly when its reserved echo ends within the last thirty-two bytes |
| `Preflight.GrowthFallsShort` | src/switchyard/provider_runner.py:86-98 | an accepted brief that can grow by steps of at most thirty-two bytes grows into an accepted one whose echo can be refused |
| `Preflight.AcceptedEchoMayNotFit` | src/switchyard/provider_runner.py:71-98 | a letter more in the packet is three bytes more in the brief, so every accepted brief grows into such a one |
| `Preflight.EchoFrameIsSelected` | src/switchyard/appserver.py:90-107 | every closed echo of the input a request selects is one the reader selects for the large bound |
| `WorkItemGraph.Search.Visit` | src/switchyard/submission_protocol.py:352-361 | visiting succeeds with the node finished after its dependencies, or a cycle exists; it terminates |
| `WorkItemGraph.Search.VisitAll` | src/switchyard/submission_protocol.py:349-364 | the search succeeds if and only if there is no cycle, and leaves a topological order |
| `WorkItemGraph.ValidateWorkItems` | src/switchyard/submission_protocol.py:324-364 | exactly the first fault is raised, the cycle error exactly for a cycle |
| `WorkItemGraph.FaultlessMeans` | src/switchyard/submission_protocol.py:324-364 | no fault means distinct identities, known dependencies and no cycle |
| `WorkItemGraph.FaultExactly` | src/switchyard/submission_protocol.py:324-364 | which error is raised: the first repeated identity or campaign, then an unknown dependency, then the cycle |
| `WorkItemGraph.TopologicalMeansAcyclic` | src/switchyard/submission_protocol.py:349-364 | a finished order of all nodes rules cycles out |
| `BoundedText.BoundedIsLongest` | src/switchyard/nightshift_adapter.py:1196-1202 | the longest prefix of whole code points within the byte bound is kept, and a cut is reported exactly |
| `AttemptStore.AdapterStore.UpdateAttempt` | src/switchyard/nightshift_adapter.py:705-739 | an update is applied exactly when the guard permits it, and otherwise says why |
| `AttemptStore.UpdateRefusedExactly` | src/switchyard/nightshift_adapter.py:705-739 | an update is refused exactly when it names no column, the attempt is unknown or terminal, or it would lead out of indeterminacy, and then changes nothing |
| `AttemptStore.AdapterStore.FinalizeAcquisition` | src/switchyard/nightshift_adapter.py:967-1005 | finality is given exactly under a quiesced lossless cut whose process is gone, a drain that went through and an attempt not given up |
| `AttemptStore.AdapterStore.Collect` | src/switchyard/nightshift_adapter.py:1011-1040 | a receipt is sealed exactly where none was, the look and the drain went through and left the attempt completed with an exact outcome, and the cut is quiesced and lossless with the process gone; the last update before it observed a completed turn with that message; otherwise nothing becomes terminal |
| `AttemptTerminality.RunsAbsorb` | src/switchyard/nightshift_adapter.py:705-739 | over every interleaving indeterminacy is absorbing and a terminal row never changes |
| `AttemptTerminality.TerminalMeans` | src/switchyard/nightshift_adapter.py:1011-1040 | a receipt exists exactly when terminal, sealed once from a whole observed message under a cut that is quiesced, without loss and with its process seen to exit |
| `AttemptTable.StoreRunsAreRowRuns` | src/switchyard/nightshift_adapter.py:691-739 | over every interleaving on the whole table each attempt is where its own steps since its admission lead |
| `AttemptTable.EveryAttemptIsSound` | src/switchyard/nightshift_adapter.py:691-739 | what is proved of one row holds of every attempt of the table |
| `SealedMessage.OpenRowHoldsLast` | src/switchyard/nightshift_adapter.py:1153-1186 | an open attempt holds the text of the last turn observed, the status of its last update and no receipt |
| `SealedMessage.CompletedExactly` | src/switchyard/nightshift_adapter.py:1148-1186 | an attempt counts as completed exactly when nobody gave it up or sealed it and its last update observed a completed turn |
| `SealedMessage.WriteOnOpen` | src/switchyard/nightshift_adapter.py:1115-1186 | what each update makes of an open row, column by column |
| `SealedMessage.GivenUpExactly` | src/switchyard/nightshift_adapter.py:967-1040 | an open attempt is given up exactly by a mark, a message over the bound, a cut that is not confirmed or an outcome that is not exact |
| `SealedMessage.StoredMessageIsLongest` | src/switchyard/nightshift_adapter.py:1148-1202 | over every interleaving the stored message is the longest prefix within the bound of a text a turn was observed with |
| `SealedMessage.TerminalWasSealed` | src/switchyard/nightshift_adapter.py:1011-1040 | every terminal run has a collector whose load and seal took effect |
| `SealedMessage.SealMatchesExactly` | src/switchyard/nightshift_adapter.py:1011-1040 | over every run, which message was sealed, that the last update before it was loaded observed a completed turn ending with it, which one stays, and that they are the same exactly when no turn was observed between load and seal or the last one ended with the loaded message |
| `SealedMessage.UndisturbedSealMatches` | src/switchyard/nightshift_adapter.py:673-689 | over every run under the occurrence lock the receipt is of the message in the row |
| `SealedMessage.DisturbedSealNeedNotMatch` | src/switchyard/nightshift_adapter.py:1011-1040 | without it, one explicit run from admission that ends terminal with the receipt of another message |

## Left out

- LiveReplayAgreement.VerifierAgreesWithRun: speaks of runs that return. When the loss mark of the exception handler is itself refused by the byte budget, `run` raises after storing its record, and nothing is claimed about that record.
- WholeRun.WholeRunIsVerified: the verifier's checks against Nightshift custody, review artifacts and route configuration are not part of this model; only its replay, cleanness and output checks are.
- ReplayRoundTrip.ReplayExactly: under the echo contract a production run is one in which no call raised, because a raised call may leave bookkeeping that its log does not show.
- DirectApi.RunStore.RunRequest: cost and finish-reason fields, reported identities and error metadata of the record are left out; no decision reads them.
- AttemptStore.AdapterStore.Collect: the events it appends and the choice of the selected turn in a notification or thread read are left out (an update is its input), and an exception of the App Server while the thread is read is not a case; it would leave the row as the writes before it left it.
- WorkItemGraph.ValidateWorkItems: the exact-work reference, timestamp and authoring checks of the same function are left out, each being settled by one branch; Python's recursion limit is not modelled.
- CanonicalJsonWriter.Dump: floats have their own module and are not a case of the value type; non-string keys do not exist in it.
- Binding, schema, closure and start-request validation: closed-field checks taken as preconditions or as parameters.
- SHA-256, JSON parsing, `str` of a float, regular expressions: library behaviour, taken as parameters (`World`, `Setup`, `Rules`) or stated as the shape of the input; no collision resistance is claimed.
- Texts of refusals are constructors of `Reason`, so that two different texts are two different values; the text itself is not modelled.
- The mapper's and the client's attributes that change together are grouped into records; each group is a field of the class.
- A retained record whose JSON members have the wrong types, as opposed to wrong values, does not exist in the model.
- Lone surrogates in strings, and Python's equality of booleans, integers and floats.
- Counters that only count (refused frames, queue overflows) and log lines.
- The branch of `_next_ordered_locked` for a client without ordered acquisition: the runner always enables it.
- The response-queue map and the method map of the client are one map, so the branch for an answer with a queue but no method cannot occur.
- Subprocess start, descriptors, sealing, signals, HTTP, SQLite internals, clocks and sleeping: inputs of the steps.
- `reconcile`, `resume`, provenance export and command-line parsing.
