# IO-Link master stack: model and proofs

This project models the state-keeping layers of the i-link IO-Link master stack
and proves properties of them over all runs. To verify it:
`dafny verify dfyconfig.toml`.

Every layer is written twice. A step machine on values says what each input does,
branch by branch as the C functions do, and carries history: what was sent, asked,
confirmed, reported. The theorems are about its runs. A class with the C struct's
fields and arrays then runs the same steps in place, loops included, and each of its
methods is proved equal to the step on values. Its `Drive` method takes any sequence of
inputs and does what the run of the step machine does; the drivers beside it conclude the
main theorems of the object itself.

| module | what it covers |
|---|---|
| Bytes, IsduCodec | octets; the ISDU block, its builder, its length and checksum rules |
| DlModel, DataLink | OD, ISDU, Command and Event handlers of the data link layer with the services and the mode handler that drive them: on values, in place |
| DlAccounting | every request is confirmed at most once, over all runs |
| DlDeactivation | requests under way when the handlers are switched off and on again; how a transfer given up is reported |
| DlMultiplexer | Commands and Events do not disturb the ISDU handler's exchange, as long as messages and answers alternate |
| DlCommands, DlCommandRuns | what frees a blocked COMMAND_2; when activation opens an exchange; commands lost with the link; every command sent once |
| DlMessages, MessagePort | the message handler in PREOPERATE and OPERATE: when messages and answers alternate, when no message goes out any more; in place |
| DlHistory | no step looks at history, so what holds from a start holds from any moment of a run |
| DlTransport, DlEndToEnd, DlRequests | the phases of a transfer; responses and requests end to end, message by message |
| DlTimeouts | the response time of a transfer, over all runs |
| DlServices | what is refused and how; what a lost link answers; the modes |
| DlEvents, DlEventRuns, DlEventCycles | the event memory reader; reading a memory to its end; confirming it, cycle after cycle |
| DlEventBreaks | readings and confirmations of events when the handlers are switched off and on |
| DlStartup | direct parameter access in STARTUP, with retries |
| DataStorage, DataStoragePort | the data storage machine: on values, in place |
| DataStorageRuns, DataStorageStore | its reports; its byte store and the upload-download round trip |
| DataStorageDecisions | what an activation decides, by the device's answers; how long an upload vouches for the store |
| Mailbox, JobPool, MasterJobs | the ring behind the mailboxes; the jobs that travel through them; the master's calls |
| AppLayer, AppLayerPort | one on-request service at a time: on values, in place |
| AlEvents | the event collector, and the way from event memory to the report |
| SystemManagement, SystemManagementPort, SystemManagementRuns | start-up of a port: on values, in place, over all runs |
| SystemManagementScript, SystemManagementVerdicts | what a start-up writes for the octets it reads; both sides of each of its checks, and the way to OPERATE |

## What does not hold, and exactly when it does

- With one on-request octet per message, the length of a response with an extended
  length is first read before octet 1 has arrived. The transfer is cut short exactly for
  a short request for index 2, 16, 256..767 or 4096..4351 (DlEndToEnd.MisreadIffIndex); an
  intact answer is lost (IntactAnswerIsLost), or, for one length of each service, replaced
  by octets of the request with NO_ERROR (MisreadPassesIff).
- Deactivation answers a request exactly if it waits in IDLE_1, or its transfer was
  aborted, lost its link, timed out, or ends with the octets last received. Any other
  transfer stays busy, switched off, and the application layer waits for it over any run
  without a mode change (DlDeactivation.DeactivationAnswersIff, AbandonedTransferWaits).
  The confirmation of a transfer resting in ISDUERROR_4 is forgotten
  (DlAccounting.DeactivateBalance).
- Activation and the first message send a segment of an old request in exactly the states of
  DlDeactivation.SendsOldSegment (ActivationSendsOldSegmentIff). From INACTIVE_0 with no control
  code: if the command word survived in INACTIVE_0 or IDLE_1, or the transfer survived in
  REQUEST_2 with a segment left. A control code, or a COMMAND_2 left over without its trigger or
  with the event flag up, keeps it back.
- Activation opens an exchange in exactly the states of DlCommands.Opens (ActivationOpensSession).
  The Command handler must be on and ready. From INACTIVE_0 the event flag must be clear, and only an
  answer clears it. From COMMAND_2 a trigger must be left over and no control code; the flag
  does not matter then.
- PREOPERATE back to STARTUP switches the Command handler off, and only a wake-up switches it on:
  no later activation opens an exchange (DlCommands.RestartSwitchesCommandsOff,
  CommandOffForever), and the next control code, the OPERATE command included, takes the
  exchange away until a wake-up or a mode change (NextCommandBlocksForever).
- A master command sent and not answered when the link is lost in OPERATE is confirmed with
  NO_ERROR by the next activation (DlCommands.LostCommandConfirmed, ActivationAnswersCommand).
- Switching the outputs off has the OPERATE command sent, which is confirmed as a device mode
  taken on; system management in OPERATE takes that for a lost link and gives the port up
  (DlCommandRuns.OutputsOffEndOperate). FALLBACK asked for in PREOPERATE is confirmed twice
  (CommandIsAnswered).
- COMMAND_2 is blocked by a second control code (DlMultiplexer.CommandReturnsIffNoSecondCode)
  and by VALID and INVALID (ControlCodeBlocksIffUnknown): no exchange leaves it
  (SecondCodeBlocksForever). It stays blocked until a DL_Control_req or DL_Write_Devicemode_req
  finds the Command handler in MASTERCOMMAND_2, and no longer (DlCommands.BlockedUntilFreed,
  FreedLeaves). After a second PDOUT code that is the next request (FreedFromMasterCommand);
  after VALID or INVALID it takes two, the first of them with a master command
  (FreedFromIdle); with the Command handler off there is none (NotFreedWhenOff).
- DL_WriteParam_req in OPERATE with a message on the line breaks the alternation of messages and
  answers, and nothing else does while the handlers stay on (DlMessages.TriggersAlternateIff,
  WriteInOperateBreaks). A
  transfer under way then sends one segment more, or polls once more, and the device's answer is
  not looked at (WriteTakesExchange); the way back hands over two answers in a row
  (AnsweredTwice).
- A parameter access accepted while a transfer is under way is confirmed by no run of exchanges
  and commands (DlMessages.AccessInTransferIsLost). With none under way a refused parameter
  write is carried out nevertheless, with the address and value of the access before, and confirmed twice
  (RefusedWriteIsCarriedOut).
- A link lost in OPERATE answers no parameter access, and none is answered later; in PREOPERATE
  it does (DlServices.LossAnswersIffPreoperate, AccessLostInOperate).
- No message goes out any more once an answer comes in RESPONSE_8 or AW_REPLY_9 with no transfer
  under way and either OPERATE commanded meanwhile or the event flag up (DlMessages.StallsIff).
  With the event flag only a wake-up leads on from there (StalledForever). With OPERATE the
  commands STARTUP and INACTIVE do as well, unless a parameter write comes first
  (StalledInOperate).
- STARTUP commanded while events are read, with the link kept, leaves the reading where it is
  (DlEventBreaks.ReadingSurvivesIff, RestartKeepsReading); with the flag still up the answer to the
  next ISDU poll is taken for an octet of the event (AnswerTakenForEvent).
- INACTIVE asked for in PREOPERATE has the message handler start the cycle of OPERATE, with the mode
  still PREOPERATE (DlServices.MessagesFollowModeIff).
- A type-2 status octet without a bit in 0..5 is read again and again
  (DlEvents.StatusStartsWalkIffSlot, DlEventRuns.StatusReadForever).
- A direct parameter access is confirmed unless, while it is outstanding, another access or
  service comes (DlStartup.AcceptedAreConfirmedUnlessOverrun), or the mode handler's PREOPERATE
  or OPERATE overtakes it in STARTUP_2: it is then outstanding for as long as no wake-up comes
  (OvertakenIsNeverConfirmed).
- A failed re-upload leaves `valid` set over a store that is no longer the old one
  (DataStorageStore.FailedReuploadIsDownloaded, IntactUntilWritten).
- An index list of 70 entries is uploaded by an earlier count (DataStorageStore.ListCounted).
  A list that names (3, 5), the list itself, is parsed again in the middle of the upload;
  RoundTrip says what was read in list order only without that (`relisted`).
- An activation of data storage ends without a report for two causes
  (DataStorageRuns.SilentOnlyForCause). The comment at iolink_ds.c:709 leaves one of them open.
- It may also never end: a failed service in CheckUpload, CheckDSValidity or DecomposeSet is
  ignored, and no request leads on from there (DataStorageRuns.FailureIgnoredIff,
  FailedActivationNeverEnds).
- A download over a store that is not intact may parse past its end; it does not while the
  store has at most 1790 octets (DataStorageStore.DownloadParsesTo, SmallStoreParsesInside).
- A reconfiguration while the device is told to break off makes the failure be reported without
  its reason (DataStorageDecisions.ReconfiguredFaultForgotten). A device that does not answer the
  question for its size is reported as another device (MisansweredIsRefused).
- A negative response whose code is 0 is passed on as success (AppLayer.NegativeAnswerIsError).
  An ISDU read that times out is told as an error of the application; a write is told as a
  timeout (FailureIsTold).
- A late answer to an aborted parameter access is delivered in the wrong form exactly if the
  next access goes the other way (AppLayer.RightFormIffLikeForLike). A late ISDU answer that
  arrives while a direct parameter read is awaited is handed over in front of its octet
  (AppLayer.ParameterReadDelivers). One that arrives while an ISDU request is awaited confirms
  that request, with the old data, and the request's own answer is lost
  (AppLayer.FirstAnswerConfirms, LateAnswerConfirmsNext).
- AL_Event_ind scans all six places, also those a shorter set did not fill
  (AlEvents.SetReported, StaleUploadRequest).
- The comment T3 at iolink_sm.c:1245 notwithstanding, a link lost in RestartDevice does not free
  the port, and no later configuration does (SystemManagementRuns.LinkLostFreesPortUnlessRestarting,
  StuckForever).
- A restart that is cut short goes on to the comparison with the revision unchecked
  (SystemManagementScript.RestartCutIff, CutRestartSkipsRevision); every other COMREADY has the
  revision checked (ComReadyIsOfRevision).
- A link that is lost on the way to PREOPERATE, or while the serial number is read, is not
  noticed by itself (SystemManagementVerdicts.LossNoticedIff).
- A failed serial number read of a device that is not of revision 1.1 is not reported
  (SystemManagementRuns.FailedSerialReadReportedIffV11).
- Serial number and identity may be compared under different configurations
  (SystemManagementRuns.ConfigurationChangesBetweenChecks).

## Model

| member | source | states |
|---|---|---|
| IsduCodec.DecodeEncode | src-master-application/ilink/iolink_dl.c:3121-3198 | a request block read back by the length rules gives exactly its direction, index, subindex and data |
| IsduCodec.EncodeInjective | src-master-application/ilink/iolink_dl.c:3121-3198 | two requests with the same block are the same request |
| IsduCodec.EncodeHeaderCanonical | src-master-application/ilink/iolink_dl.c:3148-3166 | the length nibble is 3..15, or 1 with an extended length of at least 17; the length reader returns exactly the total length built |
| IsduCodec.EncodeShortest | src-master-application/ilink/iolink_dl.c:3129-3166 | no block that is read back as the same request is shorter |
| IsduCodec.EncodeFoldsToZero | src-master-application/ilink/iolink_dl.c:238-271 | the checksum fold over every built block is zero |
| IsduCodec.FoldSeesOneOctet | src-master-application/ilink/iolink_dl.c:238-271 | changing one octet changes the fold, always |
| IsduCodec.CalcChkpdu | src-master-application/ilink/iolink_dl.c:238-253 | the loop computes the fold of the first `length` octets |
| IsduCodec.BuildHead | src-master-application/ilink/iolink_dl.c:3121-3181 | header and address octets in place, and the overhead that makes up the total length |
| IsduCodec.BuildRequest | src-master-application/ilink/iolink_dl.c:3144-3193 | the buffer holds the request block followed only by zeros |
| DlMultiplexer.Transparency | src-master-application/ilink/iolink_dl.c:2563-2702 | on every run with the link up in which messages and answers alternate, whatever Commands and Events come in, the ISDU handler sees strictly alternating master and device triggers; ISDU_1 goes with a clear event flag, EVENT_3 with a set one |
| DlMultiplexer.ExchangeReachesIsduIffFlagClear | src-master-application/ilink/iolink_dl.c:2563-2596 | a message and its answer both reach the ISDU handler exactly when the event flag was clear before |
| DlMultiplexer.CommandReturnsIffNoSecondCode | src-master-application/ilink/iolink_dl.c:2598-2633 | COMMAND_2 is left with the answer exactly when no second control code has arrived |
| DlMultiplexer.SecondCodeBlocksForever | src-master-application/ilink/iolink_dl.c:2606-2623 | with a second control code no number of exchanges leaves COMMAND_2 or prepares a message; which requests do, BlockedUntilFreed says |
| DlMultiplexer.ControlCodeBlocksIffUnknown | src-master-application/ilink/iolink_dl.c:2103-2175 | of the codes that can be given, exactly VALID and INVALID are left pending in COMMAND_2, without a message |
| DlMultiplexer.SessionFollowsMachine | src-master-application/ilink/iolink_dl.c:2675-2702 | the multiplexed session is the machine itself with a record of triggers |
| DlCommands.BlockedUntilFreed | src-master-application/ilink/iolink_dl.c:2598-2633 | over every run without mode change or wake-up a blocked COMMAND_2 stays blocked if and only if no DL_Control_req or DL_Write_Devicemode_req finds the Command handler in MASTERCOMMAND_2 |
| DlCommands.FreedLeaves | src-master-application/ilink/iolink_dl.c:2155-2164 | with that request the next trigger leaves COMMAND_2, and the exchange is as before |
| DlCommands.FreedFromIdle | src-master-application/ilink/iolink_dl.c:2110-2153 | from IDLE_1 a run frees it if and only if it holds a request with a master command and another request after it |
| DlCommands.FreedFromMasterCommand | src-master-application/ilink/iolink_dl.c:2155-2164 | from MASTERCOMMAND_2 a run frees it if and only if it holds any such request |
| DlCommands.NotFreedWhenOff | src-master-application/ilink/iolink_dl.c:2103-2175 | with the Command handler off no run frees it |
| DlCommands.ActivationOpensSession | src-master-application/ilink/iolink_dl.c:601-635 | in every state in which the mode handler switches the handlers on: an exchange opens if and only if the Command handler is ready and, by the state the OD handler was left in, the event flag is clear, or a trigger and no control code are left |
| DlCommands.RestartSwitchesCommandsOff | src-master-application/ilink/iolink_dl.c:637-666 | PREOPERATE back to STARTUP leaves the Command handler switched off |
| DlCommands.CommandOffForever | src-master-application/ilink/iolink_dl.c:3379-3379 | it stays off over every run without a wake-up, mode changes included, and no activation in that run opens an exchange |
| DlCommands.NextCommandBlocksForever | src-master-application/ilink/iolink_dl.c:2110-2160 | then the first control code blocks COMMAND_2 through every run without mode change or wake-up, and no message is prepared |
| DlCommands.ActivationAnswersCommand | src-master-application/ilink/iolink_dl.c:2598-2623 | activation with a COMMAND_2 left over confirms its command with NO_ERROR exactly if a trigger and no control code are left |
| DlCommands.LossKeepsCommand | src-master-application/ilink/iolink_dl.c:753-799 | a link lost in OPERATE leaves COMMAND_2, its trigger and its command where they are |
| DlCommands.LostCommandConfirmed | src-master-application/ilink/iolink_dl.c:730-751 | a master command lost with the link in OPERATE is confirmed with NO_ERROR by the next start-up |
| DlCommandRuns.EveryCommandIsSent | src-master-application/ilink/iolink_dl.c:2103-2175 | over every run without parameter accesses each control code and device mode is sent once and in order, as its octet in one message of the page channel to address 0, the last one perhaps not yet; nothing else goes out there |
| DlCommandRuns.CommandIsAnswered | src-master-application/ilink/iolink_dl.c:730-751 | the answer to a command is told as a device mode taken on exactly for 0x99, 0x9A and 0x5A; FALLBACK in PREOPERATE is told before as well |
| DlCommandRuns.OutputsOffEndOperate | src-master-application/ilink/iolink_sm.c:2169-2202 | PDOUTINVALID is told as OPERATE taken on, for which system management in OPERATE gives the port up with COMLOST; PDOUTVALID is told as nothing |
| DlMessages.TriggersAlternateIff | src-master-application/ilink/iolink_dl.c:958-1341 | over every run from activation the OD handler is given alternating triggers, a master message first, if and only if no parameter write is taken up in OPERATE with a message on the line |
| DlMessages.MessagesTransparent | src-master-application/ilink/iolink_dl.c:958-1341 | on such a run the ISDU handler sees strictly alternating triggers, Commands and Events notwithstanding |
| DlMessages.WriteInOperateBreaks | src-master-application/ilink/iolink_dl.c:1241-1257 | DL_WriteParam_req in OPERATE with a message on the line breaks the alternation, whatever the line reports next |
| DlMessages.WriteTakesExchange | src-master-application/ilink/iolink_dl.c:1241-1257 | taken up in an exchange of the ISDU handler it makes that handler send one segment more, poll once more, or write the parameter; the octets of the device are not looked at |
| DlMessages.AnsweredTwice | src-master-application/ilink/iolink_dl.c:1042-1053 | the way back to OPERATE hands the OD handler two answers in a row |
| DlMessages.AccessInTransferIsLost | src-master-application/ilink/iolink_dl.c:3007-3077 | a parameter access accepted while a transfer is under way is confirmed by no run of exchanges and commands |
| DlMessages.AccessInIdleIsAnswered | src-master-application/ilink/iolink_dl.c:1818-1886 | with no transfer under way the next exchange writes it and confirms it once |
| DlMessages.AccessIsMade | src-master-application/ilink/iolink_dl.c:1818-1886 | an accepted access of either kind: one message of the page channel for its address, with the octet to write, and one confirmation, a read with the first octet of the answer |
| DlMessages.RefusedWriteIsCarriedOut | src-master-application/ilink/iolink_dl.c:3007-3040 | a refused parameter write is written by the next exchange with the address and value of the access before, and confirmed a second time |
| DlMessages.WorkIsSentIff | src-master-application/ilink/iolink_dl.c:985-1028 | in PREOPERATE a message goes out with the timer for a parameter access, a transfer, the OPERATE command or an event, and none without |
| DlMessages.MessageIsRepeated | src-master-application/ilink/iolink_dl.c:1069-1130 | a failed message of PREOPERATE is repeated twice at most, then the link is given up |
| DlMessages.CycleGoesOn | src-master-application/ilink/iolink_dl.c:1258-1341 | in OPERATE each answer is followed by the next message; a failure gives the link up at once |
| DlMessages.StallsIff | src-master-application/ilink/iolink_dl.c:1035-1066 | on a run with alternating triggers the message handler comes to wait for what will not come exactly with an answer in RESPONSE_8 or AW_REPLY_9 that finds no transfer under way and OPERATE commanded or the event flag up |
| DlMessages.StalledForever | src-master-application/ilink/iolink_dl.c:1035-1066 | in those two states it then waits over every run without a wake-up, and the OD handler is not called |
| DlMessages.StalledInOperate | src-master-application/ilink/iolink_dl.c:1220-1341 | so it does in AW_REPLY_16 while the handlers stay on; a parameter write leads from there to AW_REPLY_9 |
| DlMessages.ActivationOpens | src-master-application/ilink/iolink_dl.c:601-625 | the mode handler leaves STARTUP with a session at its start |
| MessagePort.MessageHandler.constructor | src-master-application/ilink/iolink_dl.c:808-824 | in STARTUP |
| MessagePort.MessageHandler.MessageAsked | src-master-application/ilink/iolink_dl.c:1145-1208 | in place, equal to the step on values: the OD handler asked for a message |
| MessagePort.MessageHandler.AnswerGiven | src-master-application/ilink/iolink_dl.c:1036-1046 | in place, equal to the step on values: and given an answer |
| MessagePort.MessageHandler.CalledAsSet | src-master-application/ilink/iolink_dl.c:1011-1015 | in place, equal to the step on values: and called by the trigger that stands |
| MessagePort.MessageHandler.Startup2Sm | src-master-application/ilink/iolink_dl.c:826-840 | in place, equal to the step on values: leaving STARTUP |
| MessagePort.MessageHandler.Preoperate6Sm | src-master-application/ilink/iolink_dl.c:958-1009 | in place, equal to the step on values: commands, or work waiting |
| MessagePort.MessageHandler.GetOd7Sm | src-master-application/ilink/iolink_dl.c:1011-1028 | in place, equal to the step on values: the message |
| MessagePort.MessageHandler.AwaitReply9Sm | src-master-application/ilink/iolink_dl.c:1035-1088 | in place, equal to the step on values: answer or error |
| MessagePort.MessageHandler.WayBackSm | src-master-application/ilink/iolink_dl.c:1044-1066 | in place, equal to the step on values: where an answer leads |
| MessagePort.MessageHandler.ErrorHandling10Sm | src-master-application/ilink/iolink_dl.c:1090-1135 | in place, equal to the step on values: retry, or link lost |
| MessagePort.MessageHandler.ComLostSm | src-master-application/ilink/iolink_dl.c:753-799 | in place, equal to the step on values: link lost |
| MessagePort.MessageHandler.EndOperateSm | src-master-application/ilink/iolink_dl.c:1224-1240 | in place, equal to the step on values: STARTUP or INACTIVE commanded |
| MessagePort.MessageHandler.Operate12Sm | src-master-application/ilink/iolink_dl.c:1142-1210 | in place, equal to the step on values: the first cycle |
| MessagePort.MessageHandler.AwaitReply16Sm | src-master-application/ilink/iolink_dl.c:1220-1341 | in place, equal to the step on values: commands, parameter write, cycle |
| MessagePort.MessageHandler.CycleSm | src-master-application/ilink/iolink_dl.c:1258-1341 | in place, equal to the step on values: an answer and the next message |
| MessagePort.MessageHandler.MessageSm | src-master-application/ilink/iolink_dl.c:1393-1473 | in place, equal to the step on values: dispatch on the state |
| MessagePort.MessageHandler.MhConf | src-master-application/ilink/iolink_dl.c:504-510 | in place, equal to the step on values: a command of the mode handler |
| MessagePort.MessageHandler.ModeEventSm | src-master-application/ilink/iolink_dl.c:601-728 | in place, equal to the step on values: the handlers switched, then the command |
| MessagePort.MessageHandler.CommandOfMode | src-master-application/ilink/iolink_dl.c:601-696 | in place, equal to the step on values: the command given by mode |
| MessagePort.MessageHandler.AccessCalled | src-master-application/ilink/iolink_dl.c:3007-3025 | in place, equal to the step on values: a parameter access, by the state |
| MessagePort.MessageHandler.Take | src-master-application/ilink/iolink_dl.c:3505-3583 | in place, equal to the step on values: any input |
| MessagePort.MessageHandler.Drive | src-master-application/ilink/iolink_dl.c:3505-3583 | any sequence of calls does what the step machine does |
| MessagePort.MessageHandler.DriveOpened | src-master-application/ilink/iolink_dl.c:958-1341 | the triggers the object gives alternate exactly if no parameter write is taken up with a message on the line |
| DlHistory.StepIgnoresHistory | src-master-application/ilink/iolink_dl.c:1674-2702 | every input does the same behind any history of messages, confirmations and reports |
| DlHistory.RunAddsToHistory | src-master-application/ilink/iolink_dl.c:1674-2702 | a run adds to its history exactly what it does from an empty one |
| DlRequests.RequestEndToEnd | src-master-application/ilink/iolink_dl.c:1804-1922 | from any moment at which a request is accepted, behind any history, under every interleaving of Commands and Events and whatever the device answers: after w messages of the ISDU handler exactly the first min(w, n) of the n segments are sent, in order, FlowCTRL START then k mod 16; joined, all n are the block and zeros, and decode to the request |
| DlEndToEnd.SegmentsRoundUp | src-master-application/ilink/iolink_dl.c:3194-3200 | n is ceil(length of the block / od_len) |
| DlEndToEnd.RequestJoined | src-master-application/ilink/iolink_dl.c:1888-1911 | all segments joined are the block followed by zeros only |
| DlEndToEnd.ResponseEndToEnd | src-master-application/ilink/iolink_dl.c:1934-2066 | for every well-formed response and every interleaving: after w messages, b of them answered busy, the device has sent one segment for each answered message beyond n + b; the transfer is confirmed if and only if n + b + Reads messages were answered, once and as its Outcome, and the handler is idle again |
| DlEndToEnd.ReadsAllUnlessMisread | src-master-application/ilink/iolink_dl.c:1988-2044 | all ceil(length / od_len) segments are read if and only if the length is not misread; then the Outcome is the exact payload, service and checksum result |
| DlEndToEnd.MisreadIffIndex | src-master-application/ilink/iolink_dl.c:302-333 | the length is misread exactly with one octet per message, an extended length, and a short request for index 2, 16, 256..767 or 4096..4351 |
| DlEndToEnd.MisreadPassesIff | src-master-application/ilink/iolink_dl.c:1745-1776 | a misread answer is confirmed with NO_ERROR, and octets of the request as data, exactly if octet 1 of the request is 2 and the first octet of the answer equals its length |
| DlEndToEnd.IntactAnswerIsLost | src-master-application/ilink/iolink_dl.c:1988-2015 | a read of index 16 with one octet per message: an intact answer of 14 octets is confirmed as INVALID after its first octet |
| DlEndToEnd.QuietTransferEnds | src-master-application/ilink/iolink_dl.c:1804-2066 | without Commands and Events the transfer is confirmed with the answer to message number n + busy answers + Reads, and not before |
| DlEndToEnd.EveryRequestCompletes | src-master-application/ilink/iolink_dl.c:1804-2066 | from every accepted request there is a run of n + Reads exchanges that confirms it |
| DlEndToEnd.SingleOctetErrorDetected | src-master-application/ilink/iolink_dl.c:1759-1776 | a response with one octet changed behind the length header is still framed, and is a checksum error |
| DlEndToEnd.DisturbedResponseIsReported | src-master-application/ilink/iolink_dl.c:1745-1782 | a transfer whose response was hit in one such octet is confirmed once, with CHECKSUM_ERROR, with the answer to its last message |
| DlEndToEnd.RequestIsAccepted | src-master-application/ilink/iolink_dl.c:3089-3200 | DL_ISDUTransport_req on an idle handler starts such a transfer, whatever happened before |
| DlEndToEnd.ScheduleHolds | src-master-application/ilink/iolink_dl.c:1888-2066 | at every moment the number of messages and of busy answers fixes the state, the segment counter and the segments received |
| DlTransport.TransferInvariant | src-master-application/ilink/iolink_dl.c:1888-2066 | every exchange keeps the state of the transfer: what is sent, what is received, what the next message asks for |
| DlTransport.CompletesAsExpected | src-master-application/ilink/iolink_dl.c:1745-1782 | a buffer holding the whole response is confirmed as its payload, service and checksum result |
| DlTransport.CompletesMisread | src-master-application/ilink/iolink_dl.c:1745-1782 | a response cut short is confirmed with what the buffer then holds: the header read and the octets of the request |
| DlTimeouts.TimeoutReported | src-master-application/ilink/iolink_dl.c:1905-1966 | over every run from an accepted request in which the device puts the handler off: the request is confirmed once, with ISDU_TIMEOUT, if and only if the timer ran out after the last segment was answered and the ISDU handler has had a message since; an earlier expiry counts for nothing, and once the time is up no answer helps |
| DlAccounting.ConfirmedAtMostOnce | src-master-application/ilink/iolink_dl.c:1674-1816 | over every run from a reset: confirmations, the request under way and the dropped requests add up to the requests made |
| DlAccounting.RunBalance | src-master-application/ilink/iolink_dl.c:1674-2066 | every input changes the balance of owed and given confirmations exactly by the request it is or drops |
| DlAccounting.EveryReturnConfirmsOnce | src-master-application/ilink/iolink_dl.c:1674-1782 | a busy handler that comes back to IDLE_1 has confirmed exactly once and cleared total_isdu_seg and rwcmd |
| DlAccounting.DeactivationConfirmsWaiting | src-master-application/ilink/iolink_dl.c:1804-1816 | a request waiting in IDLE_1 is confirmed with NO_COMM on deactivation |
| DlAccounting.DeactivateBalance | src-master-application/ilink/iolink_dl.c:1674-1681 | deactivation changes the balance of given and owed confirmations exactly when the handler rests in ISDUERROR_4; which requests it answers, DeactivationAnswersIff says |
| DlDeactivation.DeactivationAnswersIff | src-master-application/ilink/iolink_dl.c:1804-2066 | for every state, deactivation confirms the outstanding request if and only if it waits in IDLE_1, or its transfer was aborted, lost its link, timed out in WAIT_3, or ends with the octets last received; any other transfer stays busy and unanswered |
| DlDeactivation.AbandonedTransferWaits | src-master-application/ilink/iolink_dl.c:530-549 | a transfer that survived deactivation is not confirmed by any input before the next mode change; other requests are refused |
| DlDeactivation.ActivationSendsOldSegmentIff | src-master-application/ilink/iolink_dl.c:530-535 | in every state in which the mode handler switches the handlers on: that and the first message put a segment of an old request on the wire exactly in the states of SendsOldSegment, told by the states left over, the trigger, the control code and the event flag |
| DlDeactivation.AbortReportedAsAbortIff | src-master-application/ilink/iolink_dl.c:1693-1719 | an abort is confirmed as ISDU_ABORT if and only if the link is up and no timer left over from an earlier WAIT_3 has run out; otherwise as NO_COMM or ISDU_TIMEOUT |
| DlDeactivation.TimerLeftRunningIff | src-master-application/ilink/iolink_dl.c:1934-2015 | WAIT_3 is left with its timer running exactly on T9 |
| DlDeactivation.LossReported | src-master-application/ilink/iolink_dl.c:1693-1711 | a lost link is confirmed as NO_COMM unless a timer has run out, then as ISDU_TIMEOUT |
| DlDeactivation.RefusedAnswerReported | src-master-application/ilink/iolink_dl.c:1693-1719 | a refused answer is confirmed with the service code read as an illegal service primitive, or as INVALID if its header is well formed, and the abort is sent |
| DlEventRuns.EventsReadAndSignalled | src-master-application/ilink/iolink_dl.c:2195-2506 | for every type-2 status octet with a slot bit and every event memory, behind any history and under every interleaving: after w messages of the event handler exactly the first w reads of the plan are made; the events are signalled if and only if all 1 + 3m are answered, and are the marked slots in order with eventsleft down to 0 |
| DlEventRuns.EveryMemoryIsRead | src-master-application/ilink/iolink_dl.c:2195-2506 | from every raised flag there is a run of 1 + 3m exchanges that reads and signals the memory |
| DlEventRuns.StatusReadForever | src-master-application/ilink/iolink_dl.c:2316-2344 | without a slot bit every message of the event handler reads the status octet again, and nothing is signalled |
| DlEvents.PlanAddress | src-master-application/ilink/iolink_dl.c:2367-2420 | the plan reads addresses 3i+1, 3i+2, 3i+3 of the marked slots, one slot after the other |
| DlEvents.PlanLength | src-master-application/ilink/iolink_dl.c:2326-2344 | the plan is the status octet and three reads for each marked slot |
| DlEvents.SlotsAreTheMarked | src-master-application/ilink/iolink_dl.c:2326-2344 | the slots walked are exactly the status bits set in 0..5, ascending |
| DlEvents.SlotCompletes | src-master-application/ilink/iolink_dl.c:2394-2431 | the scan moves to the next marked slot; at the end as many events were read as announced, so the mismatch branch is not reached |
| DlEvents.StatusStartsWalkIffSlot | src-master-application/ilink/iolink_dl.c:2316-2344 | a type-2 status octet starts the walk if and only if it marks a slot in 0..5 |
| DlEvents.NoSlotReadsStatusForever | src-master-application/ilink/iolink_dl.c:2316-2344 | without one the handler stays in READ_EVENT_2 at the status octet for as long as the flag is up |
| DlEventCycles.ConfirmationIsWritten | src-master-application/ilink/iolink_dl.c:2215-2240 | whatever was signalled, under every interleaving: the next message of the event handler is one write of od_len octets to the diagnosis channel, address 0, which takes the confirmation back; the one after it reads the status octet again |
| DlEventCycles.EventsConfirmedInTurn | src-master-application/ilink/iolink_dl.c:2195-2506 | while the flag stays up the messages of the event handler are the plan, one confirming write, the plan, and so on; the slots in use are signalled once for each plan read to its end |
| DlEventBreaks.ReadingSurvivesIff | src-master-application/ilink/iolink_dl.c:2265-2300 | in every state: a reading of event memory outlives the switching off of the handlers if and only if the link is not lost and the octets received last do not end it |
| DlEventBreaks.LossForgetsReading | src-master-application/ilink/iolink_dl.c:2265-2272 | a link lost while events are read or unconfirmed: over every run up to the next activation nothing is read or written for them, the reading is forgotten and the event handler starts idle; a confirmation that was due is still due |
| DlEventBreaks.LostConfirmationStaysDue | src-master-application/ilink/iolink_dl.c:2205-2216 | a confirmation that comes to its turn with the link lost is not written and stays due, and the handler leaves for INACTIVE_0 |
| DlEventBreaks.FirstFlagAfter | src-master-application/ilink/iolink_dl.c:2202-2256 | with the first flag raised behind such an activation the status octet is read, unless the confirmation is due: then that is written first |
| DlEventBreaks.RestartKeepsReading | src-master-application/ilink/iolink_dl.c:549-560 | STARTUP commanded while events are read, with the link kept: the next activation leaves the reading exactly where it stopped |
| DlEventBreaks.AnswerTakenForEvent | src-master-application/ilink/iolink_dl.c:2581-2585 | with the flag still up the answer to the first ISDU poll behind it is then stored as an octet of the event, though no message asked for it |
| DlServices.StatusEventsSignalled | src-master-application/ilink/iolink_dl.c:2463-2496 | a status octet without details signals one event for each of its bits 0 to 4 in ascending order, with their codes and eventsleft down to 0, and the confirmation is due |
| DlServices.RequestRefusedIff | src-master-application/ilink/iolink_dl.c:3100-3119 | an ISDU request is refused in the idle modes, for index 0 and 1, or with a transfer under way, with that status, no data, and nothing else changed; any other is loaded and not confirmed yet |
| DlServices.AccessRefusedIff | src-master-application/ilink/iolink_dl.c:3015-3072 | a parameter access is accepted if and only if the message handler is ready and the address is at most 31; else it is confirmed at once with the reason |
| DlServices.DevicemodeRefused | src-master-application/ilink/iolink_dl.c:3228-3250 | a device mode asked for in STARTUP is refused and nothing else happens |
| DlServices.LossAnswersIffPreoperate | src-master-application/ilink/iolink_dl.c:1090-1117 | a lost link answers the device mode and the parameter access that wait with NO_COMM in PREOPERATE, and nothing in OPERATE |
| DlServices.AccessLostInOperate | src-master-application/ilink/iolink_dl.c:753-799 | a parameter access that waits when the link is lost in OPERATE is confirmed by no run of exchanges and commands |
| DlServices.ModeFollows | src-master-application/ilink/iolink_dl.c:561-696 | the next mode for every mode, request and state of the link; the loss is forgotten exactly on the way to IDLE_0 |
| DlServices.MessagesFollowModeIff | src-master-application/ilink/iolink_dl.c:597-696 | behind a mode event the message handler, at rest before it, is where the mode is, except where STARTUP is left for IDLE_0, and where INACTIVE is asked for in PREOPERATE: there it starts the cycle of OPERATE in a mode that stays |
| DlServices.ModeAndLinkFollow | src-master-application/ilink/iolink_dl.c:3357-3380 | for every input: besides the mode handler only a wake-up changes the mode, and only a lost link or a failed wake-up changes what is known of the link |
| DlServices.LayoutIsAsAsked | src-master-application/ilink/iolink_dl.c:2964-3003 | over every run: the mode asked for is the last one, and the message length the last one asked for with a mode other than INACTIVE |
| DlServices.AccessAnswerTakesOwnWord | src-master-application/ilink/iolink_dl.c:884-937 | a direct access takes the command word over, whatever waits for it; its answer takes back the word of an access and of nothing else |
| DlStartup.StartupRetry | src-master-application/ilink/iolink_dl.c:826-956 | with one access at a time: rwcmd is set exactly while an access is outstanding, each is confirmed at most once, and its message goes out at most three times |
| DlStartup.TransferEndsConfirmed | src-master-application/ilink/iolink_dl.c:879-937 | a transfer ends only with its confirmation: NO_ERROR in STARTUP_2 with the octet received, or NO_COMM in INACTIVE_0 after the third failure |
| DlStartup.AcceptedAreConfirmedUnlessOverrun | src-master-application/ilink/iolink_dl.c:2867-2952 | over every run accepted accesses are the confirmed, the overrun and the outstanding one; all but the outstanding one are confirmed if and only if no access and no command arrives while one is outstanding |
| DlStartup.OvertakenIsNeverConfirmed | src-master-application/ilink/iolink_dl.c:826-841 | an access overtaken in STARTUP_2 by the PREOPERATE or OPERATE command is confirmed by no run without a wake-up |
| DlStartup.FailureIsRepeated | src-master-application/ilink/iolink_dl.c:917-956 | a failed message is sent again with the timer, three times in all; after the third failure the link is given up and the access confirmed with NO_COMM |
| DlStartup.AccessTakenUpIff | src-master-application/ilink/iolink_dl.c:2867-2952 | an access is refused with its reason outside STARTUP_2 or above address 15; the first read of MIN_CYCL, and only that, is answered at once from the wake-up; any other is taken up |
| DlStartup.WakeUpTold | src-master-application/ilink/iolink_dl.c:808-824 | a wake-up is told with the cycle time read and opens STARTUP_2 |
| DlStartup.MessageHandler.constructor | src-master-application/ilink/iolink_dl.c:3587-3628 | the handler starts in the invariant |
| DlStartup.MessageHandler.Startup2Sm | src-master-application/ilink/iolink_dl.c:826-869 | new state equal to the step on values: the first transmission, or leaving STARTUP |
| DlStartup.MessageHandler.AwaitReply4Sm | src-master-application/ilink/iolink_dl.c:879-915 | new state equal to the step on values: reply, or error and timer |
| DlStartup.MessageHandler.ErrorHandling5Sm | src-master-application/ilink/iolink_dl.c:917-956 | new state equal to the step on values: third failure, or resend |
| DlStartup.MessageHandler.MessageSm | src-master-application/ilink/iolink_dl.c:1393-1473 | new state equal to the step on values: dispatch on the state |
| DlStartup.MessageHandler.AccessReq | src-master-application/ilink/iolink_dl.c:2867-2952 | new state equal to the step on values: refusals, the shortcut for the first MIN_CYCL read, acceptance |
| DlStartup.MessageHandler.HandleTimerTimeout | src-master-application/ilink/iolink_dl.c:3479-3500 | new state equal to the step on values: timer of the initial cycle |
| DlStartup.MessageHandler.HandleError | src-master-application/ilink/iolink_dl.c:3410-3477 | new state equal to the step on values: receive and transmit errors |
| DlStartup.MessageHandler.HandleData | src-master-application/ilink/iolink_dl.c:3528-3543 | new state equal to the step on values: a received message |
| DlStartup.MessageHandler.MhConf | src-master-application/ilink/iolink_dl.c:504-510 | new state equal to the step on values: a command of the mode handler |
| DlStartup.MessageHandler.CommandWord | src-master-application/ilink/iolink_dl.c:3007-3022 | new state equal to the step on values: another service sets the command word |
| DlStartup.MessageHandler.WakeUpReceived | src-master-application/ilink/iolink_dl.c:3359-3382 | new state equal to the step on values: the wake-up is answered |
| DlStartup.MessageHandler.Drive | src-master-application/ilink/iolink_dl.c:3505-3583 | any sequence of calls does what the step machine does |
| DlStartup.MessageHandler.DriveOneAtATime | src-master-application/ilink/iolink_dl.c:826-956 | the retry theorem of the handler itself, after any sequence of calls with one access at a time |
| DataLink.TransferStaysInBounds | src-master-application/ilink/iolink_dl.c:1888-2066 | a request and a response whose segments fit 241 octets never take the handler out of its buffer |
| DataLink.OnRequestHandlers.SendOd | src-master-application/ilink/iolink_dl.c:2707-2779 | in place, equal to the step on values: the transmit buffer holds the octets given, padded to od_len, or is untouched for a bad length or address |
| DataLink.OnRequestHandlers.IsduError4Sm | src-master-application/ilink/iolink_dl.c:1674-1719 | in place, equal to the step on values: abort message and confirmation with the reason |
| DataLink.OnRequestHandlers.EnterIsduError4Sm | src-master-application/ilink/iolink_dl.c:1721-1743 | in place, equal to the step on values: give up now, later, or because inactive |
| DataLink.OnRequestHandlers.Result | src-master-application/ilink/iolink_dl.c:1745-1776 | in place, equal to the step on values: what a response is confirmed as |
| DataLink.OnRequestHandlers.ReceptionCompleteSm | src-master-application/ilink/iolink_dl.c:1745-1782 | in place, equal to the step on values: one confirmation, counters cleared |
| DataLink.OnRequestHandlers.IsduIdle1Sm | src-master-application/ilink/iolink_dl.c:1804-1886 | in place, equal to the step on values: idle polling, parameter access, first segment |
| DataLink.OnRequestHandlers.IsduRequest2Sm | src-master-application/ilink/iolink_dl.c:1888-1932 | in place, equal to the step on values: next segment, or wait |
| DataLink.OnRequestHandlers.CopyReceived | src-master-application/ilink/iolink_dl.c:1961-1965 | in place, equal to the step on values: the received octets at their place, all others unchanged, octets behind the buffer dropped |
| DataLink.OnRequestHandlers.UpdateLength | src-master-application/ilink/iolink_dl.c:302-333 | in place, equal to the step on values: length and rounded-up segment count |
| DataLink.OnRequestHandlers.IsduWait3Sm | src-master-application/ilink/iolink_dl.c:1934-2015 | in place, equal to the step on values: poll, busy, no service, first segment |
| DataLink.OnRequestHandlers.IsduResponse5Sm | src-master-application/ilink/iolink_dl.c:2017-2066 | in place, equal to the step on values: further segments |
| DataLink.OnRequestHandlers.IsduSmRun | src-master-application/ilink/iolink_dl.c:2068-2101 | in place, equal to the step on values: dispatch on the state |
| DataLink.OnRequestHandlers.CmdSmRun | src-master-application/ilink/iolink_dl.c:2103-2175 | in place, equal to the step on values: control code to master command to page write |
| DataLink.OnRequestHandlers.WriteMasterCommandCnf | src-master-application/ilink/iolink_dl.c:730-751 | in place, equal to the step on values: confirmation of a master command, taken once |
| DataLink.OnRequestHandlers.ScanStatus | src-master-application/ilink/iolink_dl.c:2325-2344 | in place, equal to the step on values: the loop counts the marked slots and finds the first |
| DataLink.OnRequestHandlers.StatusCodeSm | src-master-application/ilink/iolink_dl.c:2310-2365 | in place, equal to the step on values: status octet of either type |
| DataLink.OnRequestHandlers.ScanNext | src-master-application/ilink/iolink_dl.c:2396-2405 | in place, equal to the step on values: the loop finds the next marked slot |
| DataLink.OnRequestHandlers.StoreOctetSm | src-master-application/ilink/iolink_dl.c:2373-2394 | in place, equal to the step on values: one octet of the event being read |
| DataLink.OnRequestHandlers.MemoryByteSm | src-master-application/ilink/iolink_dl.c:2367-2435 | in place, equal to the step on values: one octet of event memory |
| DataLink.OnRequestHandlers.SignalDetails | src-master-application/ilink/iolink_dl.c:2447-2462 | in place, equal to the step on values: the collected events, eventsleft counting down |
| DataLink.OnRequestHandlers.SignalStatus | src-master-application/ilink/iolink_dl.c:2463-2496 | in place, equal to the step on values: the marked bits of a type-1 status octet |
| DataLink.OnRequestHandlers.SignalEvent3Sm | src-master-application/ilink/iolink_dl.c:2437-2506 | in place, equal to the step on values: events signalled, confirmation due |
| DataLink.OnRequestHandlers.EvIdle1Sm | src-master-application/ilink/iolink_dl.c:2195-2263 | in place, equal to the step on values: confirm or start reading |
| DataLink.OnRequestHandlers.EvSmRun | src-master-application/ilink/iolink_dl.c:2508-2543 | in place, equal to the step on values: dispatch on the state |
| DataLink.OnRequestHandlers.OdIsdu1Sm | src-master-application/ilink/iolink_dl.c:2563-2596 | in place, equal to the step on values: Command first, then the ISDU handler |
| DataLink.OnRequestHandlers.OdCommand2Sm | src-master-application/ilink/iolink_dl.c:2598-2633 | in place, equal to the step on values: back to ISDU or Event |
| DataLink.OnRequestHandlers.OdEvent3Sm | src-master-application/ilink/iolink_dl.c:2635-2673 | in place, equal to the step on values: Command first, then the Event handler |
| DataLink.OnRequestHandlers.OdSmRun | src-master-application/ilink/iolink_dl.c:2675-2702 | in place, equal to the step on values: dispatch on the state |
| DataLink.OnRequestHandlers.MasterMessage | src-master-application/ilink/iolink_dl.c:1011-1028 | in place, equal to the step on values: a message prepared |
| DataLink.OnRequestHandlers.DeviceMessage | src-master-application/ilink/iolink_dl.c:1035-1046 | in place, equal to the step on values: an answer taken in, its event flag first |
| DataLink.OnRequestHandlers.IsduTransportReq | src-master-application/ilink/iolink_dl.c:3089-3207 | in place, equal to the step on values: refusals with their status, or the block built and counted |
| DataLink.OnRequestHandlers.ParameterReq | src-master-application/ilink/iolink_dl.c:3007-3077 | in place, equal to the step on values: direct parameter access |
| DataLink.OnRequestHandlers.ControlRequest | src-master-application/ilink/iolink_dl.c:3209-3226 | in place, equal to the step on values: control code |
| DataLink.OnRequestHandlers.DevicemodeRequest | src-master-application/ilink/iolink_dl.c:3228-3298 | in place, equal to the step on values: master command for a mode |
| DataLink.OnRequestHandlers.CommunicationLost | src-master-application/ilink/iolink_dl.c:1094-1117 | in place, equal to the step on values: pending confirmations, then the link is given up |
| DataLink.OnRequestHandlers.SetHandlersActive | src-master-application/ilink/iolink_dl.c:530-535 | in place, equal to the step on values: the three handlers switched on or off |
| DataLink.OnRequestHandlers.GotoIdleSm | src-master-application/ilink/iolink_dl.c:537-549 | in place, equal to the step on values: everything off |
| DataLink.OnRequestHandlers.ModeHandlerSm | src-master-application/ilink/iolink_dl.c:601-696 | in place, equal to the step on values: mode transitions |
| DataLink.OnRequestHandlers.ResponseTimePassed | src-master-application/ilink/iolink_dl.c:410-416 | in place, equal to the step on values: the response time runs out |
| DataLink.OnRequestHandlers.SetModeReq | src-master-application/ilink/iolink_dl.c:2964-3005 | in place, equal to the step on values: the mode asked for, with its message layout |
| DataLink.OnRequestHandlers.WokenUp | src-master-application/ilink/iolink_dl.c:3359-3382 | in place, equal to the step on values: the wake-up answered or not |
| DataLink.OnRequestHandlers.AccessTaken | src-master-application/ilink/iolink_dl.c:2946-2946 | in place, equal to the step on values: a direct access sets the command word |
| DataLink.OnRequestHandlers.AccessAnswered | src-master-application/ilink/iolink_dl.c:887-894 | in place, equal to the step on values: and takes it back |
| DataLink.OnRequestHandlers.Take | src-master-application/ilink/iolink_dl.c:3505-3583 | in place, equal to the step on values: any input |
| DataLink.OnRequestHandlers.Drive | src-master-application/ilink/iolink_dl.c:3505-3583 | any sequence of calls does what the step machine does |
| DataLink.OnRequestHandlers.DriveFromReset | src-master-application/ilink/iolink_dl.c:1674-2066 | after any sequence of calls from a reset, the object has confirmed no more than was requested, and what is missing is under way or was dropped |
| DataLink.OnRequestHandlers.DriveTransfer | src-master-application/ilink/iolink_dl.c:1804-2066 | the object sends and confirms an accepted request as the transport theorems say |
| DataLink.OnRequestHandlers.DriveReading | src-master-application/ilink/iolink_dl.c:2195-2506 | the object reads and signals an event memory as the event theorem says |
| DataLink.OnRequestHandlers.DriveCycles | src-master-application/ilink/iolink_dl.c:2195-2506 | the object reads, signals and confirms cycle after cycle |
| DataLink.OnRequestHandlers.DriveTimeout | src-master-application/ilink/iolink_dl.c:1905-1966 | the object gives a request up as the timeout theorem says |
| DataStorageStore.RoundTrip | src-master-application/ilink/iolink_ds.c:520-611 | from a full upload until the store is written again, a download that ends has written exactly the records that fitted, in index-list order, then DL_END, and has parsed exactly `size` bytes |
| DataStorageStore.DownloadCompletes | src-master-application/ilink/iolink_ds.c:1036-1047 | a download whose writes the device accepts ends with the n+1st confirmation |
| DataStorageStore.StoreBoundsAndFraming | src-master-application/ilink/iolink_ds.c:946-977 | for every index list and parameter length pos stays within 2048, the bytes below it are whole records, and a record is dropped exactly if it does not fit |
| DataStorageStore.StoreInvariant | src-master-application/ilink/iolink_ds.c:440-611 | upload order, framing and parse position hold between all inputs |
| DataStorageStore.ReadsRecord | src-master-application/ilink/iolink_ds.c:520-543 | parsing at the end of k stored records gives record k and ends where record k+1 starts |
| DataStorageStore.RecordAppended | src-master-application/ilink/iolink_ds.c:950-964 | appending a record keeps the store a sequence of whole records |
| DataStorageStore.IntactUntilWritten | src-master-application/ilink/iolink_ds.c:447-454 | the store stops being the last upload exactly when an upload starts or a store is loaded |
| DataStorageStore.FailedReuploadIsDownloaded | src-master-application/ilink/iolink_ds.c:447-480 | a failed re-upload leaves `valid` set, and a later download begins with its records |
| DataStorageStore.ListCounted | src-master-application/ilink/iolink_ds.c:918-944 | the list is counted exactly if its terminating entry is among the first 70 |
| DataStorageStore.DownloadParsesTo | src-master-application/ilink/iolink_ds.c:520-543 | whatever the store holds, an accepted download parses from record to record up to ParseEnd and no further, and has done so with confirmation number size / 4 + 2 at the latest |
| DataStorageStore.SmallStoreParsesInside | src-master-application/ilink/iolink_ds.c:520-543 | a store of at most 1790 octets is never parsed past its end |
| DataStorageStore.WholeRecordsParse | src-master-application/ilink/iolink_ds.c:520-543 | a store of whole records is parsed to exactly its size |
| DataStorageRuns.EveryActivationEndsAtMostOnce | src-master-application/ilink/iolink_ds.c:641-855 | over every run no activation begins before the last has ended and none ends twice; one is open exactly in the active states |
| DataStorageRuns.FailureIgnoredIff | src-master-application/ilink/iolink_ds.c:641-811 | for every state, a failed confirmation changes nothing at all exactly where the table has no row for a communication error; elsewhere it leads out of the state |
| DataStorageRuns.RequestsMoveIff | src-master-application/ilink/iolink_ds.c:641-811 | while an activation is under way no request moves or ends it, except INIT in CheckIdentity and CheckMemSize |
| DataStorageRuns.FailedActivationNeverEnds | src-master-application/ilink/iolink_ds.c:684-738 | an activation whose service failed in CheckUpload, CheckDSValidity or DecomposeSet never ends: no sequence of requests changes the state or reports anything |
| DataStorageRuns.SilentOnlyForCause | src-master-application/ilink/iolink_ds.c:295-328 | for every state and input, an activation ends unreported exactly for INIT in CheckIdentity or CheckMemSize, or a communication error in DS_Fault |
| DataStorage.FireRanks | src-master-application/ilink/iolink_ds.c:813-855 | every event an action raises ranks below the one it answers, so the event loop ends for every state, event and data |
| DataStorage.ListEnd | src-master-application/ilink/iolink_ds.c:923-944 | the first entry with index 0 among 70 |
| DataStoragePort.DsPort.constructor | src-master-application/ilink/iolink_ds.c:1148-1157 | the initial state |
| DataStoragePort.DsPort.Event | src-master-application/ilink/iolink_ds.c:813-855 | in place, equal to the step on values: the event loop, run to completion |
| DataStoragePort.DsPort.WalkIndexList | src-master-application/ilink/iolink_ds.c:918-944 | in place, equal to the step on values: the list walked entry by entry |
| DataStoragePort.DsPort.ParseIndexList | src-master-application/ilink/iolink_ds.c:918-944 | in place, equal to the step on values: entries and count |
| DataStoragePort.DsPort.CopyRecord | src-master-application/ilink/iolink_ds.c:952-964 | in place, equal to the step on values: index, subindex, length and data at pos, all other bytes unchanged |
| DataStoragePort.DsPort.AppendRecord | src-master-application/ilink/iolink_ds.c:946-977 | in place, equal to the step on values: stored if it fits, else dropped |
| DataStoragePort.DsPort.WriteParamAct | src-master-application/ilink/iolink_ds.c:520-543 | in place, equal to the step on values: a record parsed and written |
| DataStoragePort.DsPort.UploadNextAct | src-master-application/ilink/iolink_ds.c:458-477 | in place, equal to the step on values: next entry or end of upload |
| DataStoragePort.DsPort.DecomposeAct | src-master-application/ilink/iolink_ds.c:589-611 | in place, equal to the step on values: more data or done |
| DataStoragePort.DsPort.FaultAct | src-master-application/ilink/iolink_ds.c:295-328 | in place, equal to the step on values: report or break |
| DataStoragePort.DsPort.CheckIdAct | src-master-application/ilink/iolink_ds.c:360-383 | in place, equal to the step on values: identity |
| DataStoragePort.DsPort.CheckFlagsAct | src-master-application/ilink/iolink_ds.c:404-438 | in place, equal to the step on values: lock and upload request |
| DataStoragePort.DsPort.ReadConfirmation | src-master-application/ilink/iolink_ds.c:858-1019 | in place, equal to the step on values: read confirmations by state |
| DataStoragePort.DsPort.WriteConfirmation | src-master-application/ilink/iolink_ds.c:1021-1063 | in place, equal to the step on values: write confirmations by state |
| DataStoragePort.DsPort.Initialise | src-master-application/ilink/iolink_ds.c:1108-1140 | in place, equal to the step on values: configuration |
| DataStoragePort.DsPort.LoadStore | src-master-application/ilink/iolink_ds.c:1227-1272 | in place, equal to the step on values: a store loaded from outside |
| DataStoragePort.DsPort.StartUp | src-master-application/ilink/iolink_ds.c:1098-1101 | in place, equal to the step on values: start-up |
| DataStoragePort.DsPort.RequestUpload | src-master-application/ilink/iolink_ds.c:1142-1145 | in place, equal to the step on values: an upload asked for |
| DataStoragePort.DsPort.RequestDelete | src-master-application/ilink/iolink_ds.c:1103-1106 | in place, equal to the step on values: the store deleted |
| DataStoragePort.DsPort.Drive | src-master-application/ilink/iolink_ds.c:813-855 | any sequence of calls does what the step machine does |
| DataStoragePort.DsPort.DriveFromInit | src-master-application/ilink/iolink_ds.c:440-611 | after any sequence of calls activations and ends have alternated, the array holds the records kept, and an ended download of an intact store wrote exactly them and DL_END |
| DataStorageDecisions.ActivationDecides | src-master-application/ilink/iolink_ds.c:358-520 | for every store, configuration and answers of the device: an activation asks for size, flags and checksum as far as it needs them and ends as a stranger, too large, locked, with UL_START or DL_START written, or Ready |
| DataStorageDecisions.IdentityDecides | src-master-application/ilink/iolink_ds.c:360-383 | the store must be empty or of the device at the port |
| DataStorageDecisions.UploadRequestActivates | src-master-application/ilink/iolink_ds.c:370-379 | an upload asked for by the device starts the same activation |
| DataStorageDecisions.MisansweredIsRefused | src-master-application/ilink/iolink_ds.c:858-900 | a refused or misformed answer to size or flags is reported as FAULT_ID or FAULT_SIZE |
| DataStorageDecisions.SizeDecides | src-master-application/ilink/iolink_ds.c:385-402 | at most 2048 octets, read most significant first |
| DataStorageDecisions.FlagsDecide | src-master-application/ilink/iolink_ds.c:404-438 | bits 1 and 2 together lock and disable; bit 7 with backup starts an upload; else the checksum is asked for |
| DataStorageDecisions.ChecksumDecides | src-master-application/ilink/iolink_ds.c:479-518 | an empty store is uploaded; otherwise DL_START is written if and only if downloads are enabled and the big-endian checksum read differs from the store; else Ready |
| DataStorageDecisions.UploadBegins | src-master-application/ilink/iolink_ds.c:440-457 | with UL_START acknowledged the index list is read |
| DataStorageDecisions.ListIsParsed | src-master-application/ilink/iolink_ds.c:918-944 | the entries are two octets of index and one of subindex each, up to the one with index 0 |
| DataStorageDecisions.UploadVouches | src-master-application/ilink/iolink_ds.c:950-1035 | the checksum read at the end, UL_END and its acknowledgement: the store then has the configured identity and that checksum, is valid, and Ready is reported |
| DataStorageDecisions.DownloadReported | src-master-application/ilink/iolink_ds.c:1036-1063 | the end of a download reads the checksum again and reports Ready; the store keeps its own |
| DataStorageDecisions.VoucherKept | src-master-application/ilink/iolink_ds.c:440-611 | over every run identity, checksum and validity of the store change only with an upload that ends, a deletion at rest, or a store loaded |
| DataStorageDecisions.DownloadIffChanged | src-master-application/ilink/iolink_ds.c:500-518 | after an upload and any such run the same device is downloaded to if and only if downloads are enabled and its checksum is no longer the one it gave then |
| DataStorageDecisions.UploadFailureReported | src-master-application/ilink/iolink_ds.c:295-328 | a failed read breaks the device off and is reported as FAULT_UP |
| DataStorageDecisions.DownloadFailureReported | src-master-application/ilink/iolink_ds.c:295-328 | a failed write breaks the device off and is reported as FAULT_DOWN |
| DataStorageDecisions.ReconfiguredFaultForgotten | src-master-application/ilink/iolink_ds.c:1108-1140 | a reconfiguration in between takes the reason away |
| DataStorageDecisions.LevelSwitches | src-master-application/ilink/iolink_ds.c:1108-1140 | what each backup level switches on, and where data storage waits |
| DataStorageDecisions.StoreReplaced | src-master-application/ilink/iolink_ds.c:1227-1272 | what deleting and loading make of the store |
| DataStorageDecisions.OffAnswers | src-master-application/ilink/iolink_ds.c:330-345 | switched off, a start-up is answered at once and an upload request is not |
| Mailbox.BoundedFifo | src-master-application/iol_osal/osal.c:351-445 | for any sequence of posts, fetches and timeouts the messages handed out and queued are those accepted, in order, and never more than the slots |
| Mailbox.PostAppends | src-master-application/iol_osal/osal.c:429-434 | a post appends to the queue the ring stands for, wrapping included |
| Mailbox.FetchTakesOldest | src-master-application/iol_osal/osal.c:382-387 | a fetch takes its oldest message |
| Mailbox.Mbox.constructor | src-master-application/iol_osal/osal.c:324-349 | an empty ring |
| Mailbox.Mbox.Fetch | src-master-application/iol_osal/osal.c:351-397 | the oldest message, or nothing changed on timeout |
| Mailbox.Mbox.Post | src-master-application/iol_osal/osal.c:399-445 | appended, or nothing changed on timeout |
| JobPool.JobsAreConserved | src-master-application/ilink/iolink_main.c:158-337 | after any interleaving each of the 50 jobs is in exactly one place and each free pool holds only its own |
| JobPool.NeverFull | src-master-application/ilink/iolink_main.c:304-337 | whoever posts finds room: the work mailbox and both free pools |
| JobPool.ReturnedWhereDrawn | src-master-application/ilink/iolink_main.c:177-245 | the main loop returns each type to the pool it is drawn from |
| JobPool.ForeignTypeChangesPool | src-master-application/ilink/iolink_main.c:177-245 | a job comes back to its pool if and only if its type is of the pool it was drawn from |
| JobPool.InitiallyConserved | src-master-application/ilink/iolink_main.c:524-539 | so it is after initialisation |
| MasterJobs.Master.constructor | src-master-application/ilink/iolink_main.c:524-539 | all jobs posted to their pools |
| MasterJobs.Master.FetchAvailJob | src-master-application/ilink/iolink_main.c:254-272 | on the rings, equal to the move on values: an internal job taken |
| MasterJobs.Master.FetchAvailApiJob | src-master-application/ilink/iolink_main.c:274-292 | on the rings, equal to the move on values: an API job taken |
| MasterJobs.Master.PostJobWithType | src-master-application/ilink/iolink_main.c:304-315 | on the rings, equal to the move on values: queued for certain: the assertion holds |
| MasterJobs.Master.FetchWork | src-master-application/ilink/iolink_main.c:164-176 | on the rings, equal to the move on values: the oldest job |
| MasterJobs.Master.GiveJobBack | src-master-application/ilink/iolink_main.c:177-245 | on the rings, equal to the move on values: returned for certain to its own pool |
| MasterJobs.Master.MainLoopPass | src-master-application/ilink/iolink_main.c:158-252 | on the rings, equal to the move on values: one job fetched and returned, all jobs conserved |
| AppLayer.OneConfirmationPerRequest | src-master-application/ilink/iolink_al.c:578-692 | for every sequence of requests, aborts and confirmations each request is confirmed once, through its own callback and in order, except the one awaited |
| AppLayer.BusyDisturbsNothing | src-master-application/ilink/iolink_al.c:314-341 | a busy rejection leaves the service in progress, its callback, direction and index alone |
| AppLayer.RightFormIffLikeForLike | src-master-application/ilink/iolink_al.c:405-467 | a confirmation has the form of its request if and only if the data link layer answers like for like |
| AppLayer.ConfirmedInForm | src-master-application/ilink/iolink_al.c:405-467 | like for like, every confirmation has the form of its request |
| AppLayer.IsduReadDelivers | src-master-application/ilink/iolink_al.c:1120-1185 | a positive read response hands over exactly its payload |
| AppLayer.NegativeAnswerIsError | src-master-application/ilink/iolink_al.c:179-312 | a negative response is passed on as success exactly when its code is 0 |
| AppLayer.ParameterReadDelivers | src-master-application/ilink/iolink_al.c:882-921 | a parameter read hands over its octet behind what ISDU confirmations have left since it was taken on: its octet alone if and only if they left nothing |
| AppLayer.FirstAnswerConfirms | src-master-application/ilink/iolink_al.c:913-921 | an ISDU request is confirmed, through its own callback and in its form, by the first ISDU answer of whatever request; all later answers are passed to nobody |
| AppLayer.LateAnswerConfirmsNext | src-master-application/ilink/iolink_al.c:1120-1185 | a positive answer to an aborted ISDU request confirms the next one: a read gets the old data with success, or an error for a write, and a write is done; its own answer is lost |
| AppLayer.EveryRequestIsHandedDown | src-master-application/ilink/iolink_al.c:481-560 | over every run the services asked of the data link layer are those of the requests taken on, one each and in order, with their own direction, index, subindex and data; writes of index 0 and everything turned away ask for none |
| AppLayer.IndexZeroRefused | src-master-application/ilink/iolink_al.c:343-403 | a write of index 0 is refused at once |
| AppLayer.AccessTold | src-master-application/ilink/iolink_al.c:405-467 | a direct parameter access is told as done or as an error of the application |
| AppLayer.DeviceCodeIsTold | src-master-application/ilink/iolink_al.c:179-247 | an error code of two octets arrives as sent, most significant first; another answer is an error of the application |
| AppLayer.IllegalAnswerIsTold | src-master-application/ilink/iolink_al.c:179-260 | what an answer with a header that does not fit is told as |
| AppLayer.NoServiceIsTold | src-master-application/ilink/iolink_al.c:225-236 | what an answer without a service is told as |
| AppLayer.FailureIsTold | src-master-application/ilink/iolink_al.c:179-312 | what a transfer that failed is told as, for reads and writes |
| AppLayerPort.AlPort.constructor | src-master-application/ilink/iolink_al.c:951-959 | an idle layer |
| AppLayerPort.AlPort.Error | src-master-application/ilink/iolink_al.c:179-312 | in place, equal to the step on values: the error type |
| AppLayerPort.AlPort.SendCnf | src-master-application/ilink/iolink_al.c:405-467 | in place, equal to the step on values: the confirmation |
| AppLayerPort.AlPort.BuildDlServiceAct | src-master-application/ilink/iolink_al.c:343-403 | in place, equal to the step on values: the service and its event |
| AppLayerPort.AlPort.Fire | src-master-application/ilink/iolink_al.c:578-692 | in place, equal to the step on values: one transition |
| AppLayerPort.AlPort.Event | src-master-application/ilink/iolink_al.c:648-692 | in place, equal to the step on values: the event loop |
| AppLayerPort.AlPort.HandleRequest | src-master-application/ilink/iolink_al.c:844-851 | in place, equal to the step on values: a request |
| AppLayerPort.AlPort.HandleAbort | src-master-application/ilink/iolink_al.c:923-938 | in place, equal to the step on values: an abort |
| AppLayerPort.AlPort.HandleReadParamCnf | src-master-application/ilink/iolink_al.c:882-890 | in place, equal to the step on values: a parameter read |
| AppLayerPort.AlPort.HandleWriteParamCnf | src-master-application/ilink/iolink_al.c:892-911 | in place, equal to the step on values: a parameter write |
| AppLayerPort.AlPort.HandleIsduCnf | src-master-application/ilink/iolink_al.c:913-921 | in place, equal to the step on values: an ISDU confirmation with the data kept |
| AppLayerPort.AlPort.Drive | src-master-application/ilink/iolink_al.c:648-692 | any sequence of jobs does what the step machine does |
| AppLayerPort.AlPort.DriveFromInit | src-master-application/ilink/iolink_al.c:578-692 | after any sequence of jobs every request is confirmed once or turned away, except the one awaited; like for like in its form |
| AlEvents.SetReported | src-master-application/ilink/iolink_al.c:853-875 | a set of events is reported once and whole; it is taken for an upload request exactly when it, or what an earlier set left behind its end, holds one |
| AlEvents.MemoryReported | src-master-application/ilink/iolink_al.c:853-875 | what the event memory reader signals arrives as one report of the marked slots |
| AlEvents.StaleUploadRequest | src-master-application/ilink/iolink_al.c:1203-1222 | an upload request left in the second place is taken up again by the next single event |
| AlEvents.EventBeforeResponseIsLost | src-master-application/ilink/iolink_al.c:713-736 | an event that comes before AL_Event_rsp is dropped |
| AlEvents.EventCollector.EventInd | src-master-application/ilink/iolink_al.c:853-875 | in place: an event collected |
| AlEvents.EventCollector.HandleSet | src-master-application/ilink/iolink_al.c:1203-1240 | in place: the scan of all six places |
| AlEvents.EventCollector.EventRsp | src-master-application/ilink/iolink_al.c:940-943 | in place: ready for the next set |
| SystemManagementRuns.ComReadyIsGated | src-master-application/ilink/iolink_sm.c:446-660 | over every run each COMREADY stands for a passed check of cycle time and identity under the configuration then in force, the identifiers being the octets read at 7 to 11 in that pass, and a matching serial number |
| SystemManagementRuns.WaitIsEnteredReady | src-master-application/ilink/iolink_sm.c:1045-1093 | wait is entered only from checkSerNum, with that report |
| SystemManagementRuns.ConfigurationChangesBetweenChecks | src-master-application/ilink/iolink_sm.c:1990-2002 | while the serial number is read a configuration is taken over in place exactly if it asks for DI or DO |
| SystemManagementRuns.CompatibilityIsBounded | src-master-application/ilink/iolink_sm.c:576-605 | from a start-up until the checks are left: at most one restart and at most 32 accesses |
| SystemManagementRuns.ConfirmationProgresses | src-master-application/ilink/iolink_sm.c:901-1017 | every successful confirmation leaves the checks or lowers the measure on restart, phase and address |
| SystemManagementRuns.LinkLostFreesPortUnlessRestarting | src-master-application/ilink/iolink_sm.c:1241-1249 | a failed access reports COMLOST and frees the port if and only if the device is not being restarted |
| SystemManagementRuns.StuckForever | src-master-application/ilink/iolink_sm.c:1241-1249 | from there no input leads out, a new configuration included |
| SystemManagementRuns.FailedSerialReadReportedIffV11 | src-master-application/ilink/iolink_sm.c:1719-1726 | a failed serial number read is reported exactly for revision 1.1; otherwise the state stays |
| SystemManagementRuns.StoreAssembles | src-master-application/ilink/iolink_sm.c:2084-2109 | the octets of one pass are assembled most significant first |
| SystemManagementScript.ComReadyIsOfRevision | src-master-application/ilink/iolink_sm.c:446-1071 | over every run what a start-up has written is the script for the octets read, restart included, and each COMREADY stands for the cycle time read and the revision configured, unless the device is of revision 1.0 or the restart was cut short |
| SystemManagementScript.RestartCutIff | src-master-application/ilink/iolink_sm.c:1241-1249 | what cuts a restart short: mode indications, confirmations of a device mode, a failed serial number read |
| SystemManagementScript.CutRestartSkipsRevision | src-master-application/ilink/iolink_sm.c:901-941 | then a device of any revision is let through |
| SystemManagementVerdicts.CycleTimeTaken | src-master-application/ilink/iolink_sm.c:2029-2060 | the cycle time is the one read, but at least 92 for COM1 and 80 otherwise |
| SystemManagementVerdicts.RevisionDecides | src-master-application/ilink/iolink_sm.c:943-965 | the revision fits, or the device is restarted once, or REVISION_FAULT is reported after DEVICE_PREOPERATE |
| SystemManagementVerdicts.ComparisonDecides | src-master-application/ilink/iolink_sm.c:615-660 | cycle time, vendor and device octets decide between passing, one restart, CYCTIME_FAULT and COMP_FAULT |
| SystemManagementVerdicts.ComparisonV10Decides | src-master-application/ilink/iolink_sm.c:446-481 | the same for revision 1.0, without a restart, reported at once |
| SystemManagementVerdicts.SerialDecides | src-master-application/ilink/iolink_sm.c:1045-1071 | COMREADY or SERNUM_FAULT by the serial number read |
| SystemManagementVerdicts.MissingSerialDecides | src-master-application/ilink/iolink_sm.c:1707-1718 | a device without a serial number has the serial number zero |
| SystemManagementVerdicts.PreoperateReached | src-master-application/ilink/iolink_sm.c:2133-2142 | DEVICE_PREOPERATE written: PREOPERATE is requested, and reaching it starts the serial number read |
| SystemManagementVerdicts.V10OperateReached | src-master-application/ilink/iolink_sm.c:1019-1043 | the cycle time is written, then DEVICE_OPERATE, then OPERATE requested |
| SystemManagementVerdicts.CycleAsked | src-master-application/ilink/iolink_sm.c:1913-1933 | OPERATE asked for: with or without a cycle time to write |
| SystemManagementVerdicts.CycleWritten | src-master-application/ilink/iolink_sm.c:1698-1705 | the cycle time confirmed |
| SystemManagementVerdicts.OperateConfirmed | src-master-application/ilink/iolink_sm.c:2169-2195 | OPERATE confirmed by the device and reached |
| SystemManagementVerdicts.FittingDeviceOperates | src-master-application/ilink/iolink_sm.c:446-1071 | a device that fits is taken from a free port to OPERATE in one pass, written only MASTER_IDENT and DEVICE_PREOPERATE, with COMREADY and OPERATE reported once each |
| SystemManagementVerdicts.DeviceConfigured | src-master-application/ilink/iolink_sm.c:1935-2003 | a configuration for a device starts the port |
| SystemManagementVerdicts.DigitalConfigured | src-master-application/ilink/iolink_sm.c:1935-2003 | one for a digital port is taken up everywhere but while the serial number is read |
| SystemManagementVerdicts.OffConfigured | src-master-application/ilink/iolink_sm.c:1935-2003 | switching off sends the device back first |
| SystemManagementVerdicts.NoDeviceFound | src-master-application/ilink/iolink_sm.c:1836-1911 | what a wake-up without an answer reports |
| SystemManagementVerdicts.LossNoticedIff | src-master-application/ilink/iolink_sm.c:1836-1911 | the states in which a lost link is noticed by itself, and what it reports |
| SystemManagementVerdicts.ConfirmationEndsOperate | src-master-application/ilink/iolink_sm.c:2197-2202 | a device mode confirmed in OPERATE gives the port up |
| SystemManagementVerdicts.LaterFailureGivesUp | src-master-application/ilink/iolink_sm.c:1698-1745 | what fails after the checks gives the port up |
| SystemManagementPort.SmPort.constructor | src-master-application/ilink/iolink_sm.c:2205-2211 | the initial state |
| SystemManagementPort.SmPort.Event | src-master-application/ilink/iolink_sm.c:1336-1380 | in place, equal to the step on values: one transition |
| SystemManagementPort.SmPort.DoCheckCompV10 | src-master-application/ilink/iolink_sm.c:446-481 | in place, equal to the step on values: the check of a V1.0 device |
| SystemManagementPort.SmPort.DoCheckComp | src-master-application/ilink/iolink_sm.c:615-660 | in place, equal to the step on values: the check of another device |
| SystemManagementPort.SmPort.CheckVxyCnf | src-master-application/ilink/iolink_sm.c:943-965 | in place, equal to the step on values: the revision |
| SystemManagementPort.SmPort.CheckSerialNumber | src-master-application/ilink/iolink_sm.c:1045-1071 | in place, equal to the step on values: the comparison loop |
| SystemManagementPort.SmPort.StoreParameter | src-master-application/ilink/iolink_sm.c:2029-2114 | in place, equal to the step on values: an octet at its place |
| SystemManagementPort.SmPort.ReadOn | src-master-application/ilink/iolink_sm.c:901-941 | in place, equal to the step on values: the next address or the check |
| SystemManagementPort.SmPort.ReadConfirmation | src-master-application/ilink/iolink_sm.c:2005-2131 | in place, equal to the step on values: read confirmations |
| SystemManagementPort.SmPort.RestartOn | src-master-application/ilink/iolink_sm.c:967-1017 | in place, equal to the step on values: the restart sequence |
| SystemManagementPort.SmPort.WriteConfirmation | src-master-application/ilink/iolink_sm.c:2133-2167 | in place, equal to the step on values: write confirmations |
| SystemManagementPort.SmPort.ModeIndication | src-master-application/ilink/iolink_sm.c:1836-1911 | in place, equal to the step on values: mode indications |
| SystemManagementPort.SmPort.SerialConfirmation | src-master-application/ilink/iolink_sm.c:1707-1745 | in place, equal to the step on values: the serial number |
| SystemManagementPort.SmPort.CycleConfirmation | src-master-application/ilink/iolink_sm.c:1698-1705 | in place, equal to the step on values: the master cycle time |
| SystemManagementPort.SmPort.DevmodeConfirmation | src-master-application/ilink/iolink_sm.c:2169-2202 | in place, equal to the step on values: the mode command |
| SystemManagementPort.SmPort.SetPortConfiguration | src-master-application/ilink/iolink_sm.c:1935-2003 | in place, equal to the step on values: a configuration, the serial number kept |
| SystemManagementPort.SmPort.OperateRequest | src-master-application/ilink/iolink_sm.c:1913-1933 | in place, equal to the step on values: operate |
| SystemManagementPort.SmPort.SpeedDetected | src-master-application/ilink/iolink_sm.c:1836-1911 | in place, equal to the step on values: the speed found |
| SystemManagementPort.SmPort.Drive | src-master-application/ilink/iolink_sm.c:1336-1380 | any sequence of calls does what the step machine does |
| SystemManagementPort.SmPort.DriveFromInit | src-master-application/ilink/iolink_sm.c:446-660 | after any sequence of calls every COMREADY the object reported stands for passed checks |

## Left out

- DlRequests.RequestEndToEnd: a block whose last segment would end behind the 241-octet buffer is excluded; the C code then sends octets of the neighbouring fields.
- DlEndToEnd.ResponseEndToEnd: between acceptance and confirmation only Commands and Events come in, od_len does not change, and the device's segments fit the 241-octet buffer, which the C code does not check. Timeouts, aborts, lost links and mode changes during a transfer are the subject of DlAccounting, DlDeactivation and DlTimeouts.
- DlAccounting.ConfirmedAtMostOnce: a wake-up comes only before STARTUP, and activation finds no left-over ISDU command; what happens without the latter says DlDeactivation.ActivationSendsOldSegmentIff.
- DataLink.OnRequestHandlers.MasterMessage: octets of a segment behind the 241-octet buffer are sent as 0 and dropped when received, where the C code goes on into the neighbouring fields; TransferStaysInBounds says when there are none.
- DataLink.OnRequestHandlers.AbortReq: nothing in the code sets the abort command that the states of the ISDU handler test for; the model lets it come at any time. If something did, a timer left over from an earlier WAIT_3 would turn an abort into a timeout (DlDeactivation.AbortReportedAsAbortIff, TimerLeftRunningIff).
- DataStoragePort.DsPort.WriteParamAct: octets behind the store read as 0, where the C code reads on; DataStorageStore.DownloadParsesTo says how far a parse goes.
- DataStorage.FireRanks: the transitions on CLEAR, DISABLE, ENABLE_COM and ENABLE_NO_C, which nothing raises and whose action is an assertion failure.
- JobPool.JobsAreConserved: an empty free pool on a fetch is an assertion failure of the C code, so the fetch is not a move then; AL_Event_req and the EXIT job, for which the main loop has no return, are not moves.
- Mailbox.Mbox.Fetch: a call that waits is not a step until it wakes; condition variables, priorities and the clock are not modelled. OS_WAIT_FOREVER never expires.
- AppLayer.OneConfirmationPerRequest: DL_ISDUTransport_cnf and the job it posts are one step; the events param_write_2 and rwparam, which two constants switch off.
- AppLayerPort.AlPort.HandleReadParamCnf: a parameter octet that would be stored behind the 241-octet buffer is dropped.
- SystemManagementRuns.ComReadyIsGated: an assertion failure in a confirmation callback is a precondition of the input (CanStep), so is one confirmation for each request.
- DlMultiplexer.Transparency: messages and answers alternate; DlMessages.MessagesTransparent says when the message handler sees to that.
- DlMessages.TriggersAlternateIff: the line answers or fails only a message that is on it or that the transceiver repeats; the handlers stay switched on, and what happens when they are switched off and on again say DlDeactivation and DlCommands.
- DlMessages.AccessInTransferIsLost: no request, abort or mode change in between; DlAccounting and DlDeactivation have them.
- DlMessages.StallsIff: the timer of the initial cycle is on or off, without its length; the states of direct parameter access are one state there and a machine of their own in DlStartup; ERRORHANDLING_17 and CHECKHANDLER_11, which nothing enters.
- Process data handlers and the interleaved mode TYPE_1_1, which is never selected.
- populate_valuelist, a table of message layouts; the model takes od_len in 1..32.
- pd_valid from a type-1 status octet; the record of received and transmitted octet counts, which follow from the message kind.
- A null data pointer of AL_Write_req; the data pointer handed up with a response is modelled as the octets it points to.
- Configuration manager, port data exchange and on-request data exchange layers, the SMI services: small tables above the layers modelled.
- Transceiver, SPI, GPIO, interrupts, TCP server and the clients: hardware and plumbing; they appear as inputs that deliver octets, errors or timeouts.
- Logging.
