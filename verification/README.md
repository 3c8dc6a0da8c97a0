# Verification of the lite ability framework

A Dafny model of the abilities of small and mini devices: who is in the foreground, in which order applications
are switched, what is kept of them, which services live, and how the messages between them are coded. Five parts
are modelled, each with the state the code keeps and each branch it takes, and properties of all runs are proved
of them. `dafny verify dfyconfig.toml` checks everything.

**The mini-system ability scheduler** (multi-task build). One manager serves requests from a message queue. A
request starts an ability, terminates one or several, or stops an application. An application switch is a chain of
four messages, BACKGROUND, DESTROY, CREATE and FOREGROUND, each sent to an app thread and acknowledged; while it is
under way a flag is set and further requests wait. `Scheduler` is the manager as a function of its state (the
most-recently-used list, the flag, the pending token, the queue, the messages in flight) and
`AbilityRecordManager`, over `AbilityList` and `SavedState`, is the manager that updates records, lists and buffers
in place; each of its methods is proved to do what `Scheduler` says, and its `Serve` that any sequence of inputs
ends where the run of the state machine does. `MruList` is what a user would want: a list on which each request is
one step; `Recency` says of each request who is on the list afterwards, in which order and with which data.
`SchedulerProofs` and `SchedulerRuns` prove that every run of requests, app steps and acknowledgements refines that
list, overtakes nothing, keeps one application alive at a time, finishes, and hands back what applications saved.
`DeferredStart` follows the mission of a start that had to wait through the rest of the run.

**The mission stacks of the small-system service.** `MissionStacks` models starting, removing and clearing pages on
the launcher and default stacks, with the links between missions; `ReturnPath` which mission is on top after each
of them, and where a closed one returns; `FailedStart` what a failed start leaves behind, with the exact condition
under which it leaves everything as it was; `AbilityMissionStack`, `AbilityStackManager` and `AbilityTasks` the
same on records, back pointers and links updated in place.

**Service connections.** `ServiceConnect` models one service with its connections and what is sent to its
application; `ServiceMission` all services under any interleaving of tasks and acknowledgements;
`ServiceRequests` the protocol as a table, with what every run has asked of a service and told its clients;
`AbilityConnectMission` the records updated in place. `AppExit` and `AppDeath` join services and pages, in every run
and on one token counter: when an application's process is told to exit, and what goes with it. The `Serve` methods of
`AbilityConnectMission` and `AbilityTask` carry out any sequence of tasks in place and end where these runs end.

**The application side.** `AbilitySlices` models the slices of an ability presenting and terminating each other,
`AbilityLifecycle` abilities driven by state messages, and `AbilitySliceScheduler` and `AbilityThread` the objects
that do it; `AbilityThread.Serve` ties them to the runs of `AbilityLifecycle`.

**Want codecs.** `WantUri` prints and parses the text form of an element name, `WantTlv` the nested
type-length-value records of parameters, byte by byte.

## How to read it

- A class method whose `ensures` reads `State() == F(old(State()), ...)` changes its object exactly as the function
  `F` of the value model says. What the design promises is proved of `F`, and of runs of such steps.
- Histories (`log`, `moves`, `reports`, `retired`, `ended`) record what was sent or done. They are never read by the
  operations; the properties are about them.
- `Env` holds what the scheduler asks of others: bundle queries, permission checks, and which abilities are
  registered as temporary. Its answers may differ from one request to the next.
- Outcomes of process starts and messages of the small-system service (`Launch`, `started`) are parameters of the
  operations, and clients, threads and acknowledgements are events in any order.

## Where the code falls short

- TERMINATE_APP deletes the record on top without asking whether it is home (`ForcedHomeIsLost`,
  `HomeStaysUnlessForced`).
- A start from an application to the launcher that fails leaves the launcher stack on top when the launcher had no
  mission (`FailedLauncherStart`), and one that had shown an existing page again deletes that page (`UndoReuse`);
  `FailedStartIsExactUndo` gives the condition.
- Presenting a slice that is already on the stack is let through and leaves it both on top and below
  (`PresentKeepsExactly`); the interface asks callers not to.
- Clearing an application that is in the background brings the one it returns to on top of its stack, so the page in the
  foreground changes although the one that went was not shown (`HiddenClearSwitches` says exactly when).
- A deferred start is recorded with a mission number that `CopyWant` leaves uninitialised (`RecordedMission` says when
  it is the one asked for), and `TERMINATE_MISSION` goes by it (`StaleMissionDecides`).
- A service told to stop because its last client page is gone is still on the list as connected, so a client that
  comes next is told that it is connected to it (`NoticeAfterStop`; `ToldToStopStillTells` says exactly when that can
  happen). No client is told so by a service that is STOPPING (`StoppingIsFinal`).
- A parameter whose key and value records together take 256 bytes or more, such as a key of 200 bytes with a value
  of 100, is copied into a buffer whose length was computed in 8 bits (`LongPairDoesNotFit`, `CopiesStayInside`).
- A Want's data longer than 65535 bytes, and a URI longer than 65535 characters, are cut
  (`AppendsExactlyWhenItFits`, `RoundTrip`).


## Model

| member | source | states |
|---|---|---|
| SchedulerRuns.NoOvertaking | services/abilitymgr_lite/src/slite/ability_mgr_service_slite.cpp:150-206 | after every event of every run the executed requests followed by the waiting ones are the received ones in order, and requests wait only while a switch is under way |
| SchedulerRuns.MutualExclusion | services/abilitymgr_lite/src/slite/ability_record_manager.cpp:391-514 | in every reachable state at most one ability has an app thread and at most one lifecycle message is outstanding, for that ability; between switches none is, the front ability is in the foreground with the thread and every other one is stopped without |
| SchedulerRuns.RefinesMru | services/abilitymgr_lite/src/slite/ability_record_manager.cpp:864-942 | every run refines the one-step most-recently-used list: items, order, tokens and missions equal a fold over the executed requests, and the ability in the foreground is the front of that list |
| SchedulerRuns.MessagesCarryData | services/abilitymgr_lite/src/slite/ability_record_manager.cpp:1061-1109 | in every run a message that creates an ability or brings it to the foreground goes to the front of the one-step list and carries the data it has there; one that takes an ability to the background or destroys it carries none |
| SchedulerRuns.ListStaysSound | services/abilitymgr_lite/src/slite/ability_list.cpp:36-49 | in every run the list stays within its capacity, its tokens and names differ pairwise, and home is on it and not marked for removal |
| SchedulerRuns.SwitchesComplete | services/abilitymgr_lite/src/slite/ability_record_manager.cpp:1033-1059 | left alone, the manager is idle with an empty queue after at most four acknowledgements for each waiting request and four for the switch under way, having executed everything received |
| SchedulerRuns.SavedStateDelivered | services/abilitymgr_lite/src/slite/js_ability_thread.cpp:145-177 | what an app stores during DESTROY is exactly what the same ability is given at its next CREATE, whatever runs in between |
| SchedulerRuns.NothingSavedNothingDelivered | services/abilitymgr_lite/src/slite/ability_record_manager.cpp:1061-1095 | an ability that never saved is given nothing at CREATE |
| SchedulerRuns.BulkTermination | services/abilitymgr_lite/src/slite/ability_record_manager.cpp:367-389 | from idle, TerminateMission leaves exactly the top, home and the abilities of other missions, TerminateAll the top, home and the excluded bundle, as they were and in their old order, and the manager is idle again |
| SchedulerRuns.ReceivedAsSent | services/abilitymgr_lite/src/slite/ability_record_manager.cpp:1163-1198 | a request is taken in as it was sent, carried out or deferred, its token cut to 16 bits; only the mission of a deferred start may differ |
| SchedulerRuns.KeepRecsFilters | services/abilitymgr_lite/src/slite/ability_list.cpp:207-244 | the bulk filter keeps exactly the spared records and distributes over concatenation, so it keeps their order |
| SchedulerRuns.HomeStaysUnlessForced | services/abilitymgr_lite/src/slite/ability_record_manager.cpp:475-514 | a request takes home off the list if and only if it is TERMINATE_APP with home's token while home is on top |
| SchedulerRuns.ForcedHomeIsLost | services/abilitymgr_lite/src/slite/ability_record_manager.cpp:475-514 | at rest with home on top, TERMINATE_APP with its token takes home off the list |
| SchedulerRuns.RunKeeps | services/abilitymgr_lite/src/slite/ability_record_manager.cpp:1200-1260 | every run of client requests, app steps and acknowledgements keeps the switch invariant and the books |
| SchedulerRuns.DequeueSteps | services/abilitymgr_lite/src/slite/ability_record_manager.cpp:1200-1260 | carrying out the first waiting request settles the manager or starts a switch, and shortens the queue |
| SchedulerRuns.HandleRequestSteps | services/abilitymgr_lite/src/slite/ability_mgr_service_slite.cpp:150-206 | a client request keeps the invariant whether it is carried out or deferred |
| SchedulerRuns.HandleAckSteps | services/abilitymgr_lite/src/slite/ability_record_manager.cpp:1033-1059 | an acknowledgement keeps the invariant, draining the queue when the switch ends |
| SchedulerRuns.DestroyDoneSteps | services/abilitymgr_lite/src/slite/ability_record_manager.cpp:864-942 | after DESTROY the record that left is dropped or asleep, and the successor, pending or front, is created |
| SchedulerRuns.BackgroundDoneSteps | services/abilitymgr_lite/src/slite/ability_record_manager.cpp:813-862 | after BACKGROUND the same ability is told to be destroyed |
| SchedulerRuns.CreateDoneSteps | services/abilitymgr_lite/src/slite/ability_record_manager.cpp:762-766 | after CREATE the same ability is told to come to the foreground |
| SchedulerRuns.ForegroundDoneSteps | services/abilitymgr_lite/src/slite/ability_record_manager.cpp:1033-1059 | after FOREGROUND the switch is over and the list front is in the foreground |
| SchedulerRuns.RunOperationMonotone | services/abilitymgr_lite/src/slite/ability_record_manager.cpp:1200-1260 | draining the queue never takes tokens back, receives nothing, and only adds to what was executed |
| SchedulerRuns.AckWorks | services/abilitymgr_lite/src/slite/ability_record_manager.cpp:1040-1045 | each acknowledgement lowers the work left |
| Recency.FullListLosesLeastRecent | services/abilitymgr_lite/src/slite/ability_list.cpp:36-49 | making room on a full list takes exactly one ability off, and nothing but home is behind it: the least recently used one other than home |
| Recency.StartOfListed | services/abilitymgr_lite/src/slite/ability_record_manager.cpp:203-226 | an ability on the list comes to the front with the data of the start and its mission, if it has one, once a JS application passes the check; the others keep their order, and the old front goes exactly if it is temporary |
| Recency.StartOfNew | services/abilitymgr_lite/src/slite/ability_record_manager.cpp:269-356 | any other ability that is installed, and checked if it is a JS application, is put in front with the next token, the data and mission of the start or the next mission number, once the list has room |
| Recency.StartOfFront | services/abilitymgr_lite/src/slite/ability_record_manager.cpp:189-202 | a start without a name, or of the ability in front, changes nothing |
| Recency.TerminateStops | services/abilitymgr_lite/src/slite/ability_record_manager.cpp:391-473 | the front goes and the next comes in its place, home in front changes places with the next, one further down is taken out, and home there or nobody is left alone |
| Recency.TerminateAppStops | services/abilitymgr_lite/src/slite/ability_record_manager.cpp:475-514 | the same, but the front goes even if it is home |
| Recency.ForceStopStops | services/abilitymgr_lite/src/slite/ability_record_manager.cpp:537-565 | the same by name, and the next ability has the data of the request if the front stopped |
| Recency.ForceStopOfNobody | services/abilitymgr_lite/src/slite/ability_record_manager.cpp:537-565 | without a name or for a bundle not on the list nothing changes |
| Recency.BulkStops | services/abilitymgr_lite/src/slite/ability_list.cpp:207-244 | what a bulk termination leaves, in which order |
| Recency.HomeFirst | services/abilitymgr_lite/src/slite/ability_record_manager.cpp:56-91 | the list begins with home alone |
| Recency.StartDelivers | services/abilitymgr_lite/src/slite/ability_record_manager.cpp:1061-1109 | while the ability asked for last is being started it is sent the data of that request |
| DeferredStarts.RecordedMission | services/abilitymgr_lite/src/slite/ability_record_manager.cpp:1163-1198 | a start is recorded with the mission it asked for if and only if it is not deferred or the number CopyWant leaves uninitialised happens to be that mission |
| DeferredStarts.DeferredStartMission | services/abilitymgr_lite/src/slite/ability_record_manager.cpp:1163-1183 | a deferred start that is carried out and brings its bundle to the front gives it the mission of the uninitialised number, whatever was asked for |
| DeferredStarts.StaleMissionDecides | services/abilitymgr_lite/src/slite/ability_record_manager.cpp:367-389 | any legal run later in which the bundle is not started again, with the ability still on the list below another, TERMINATE_MISSION spares it if and only if the uninitialised number did not give it that mission |
| DeferredStarts.FoldStays | services/abilitymgr_lite/src/slite/ability_list.cpp:36-244 | no sequence of requests without a start of its bundle, within one token period, changes the name or mission of an ability that stays on the list |
| SchedulerProofs.PerformSteps | services/abilitymgr_lite/src/slite/ability_record_manager.cpp:177-250 | each kind of request, performed from rest, either settles at rest or starts a switch, and changes the abstract list by exactly one step |
| SchedulerProofs.StartKnownSteps | services/abilitymgr_lite/src/slite/ability_record_manager.cpp:203-226 | starting a bundle on the list moves it to the front and starts the old top leaving |
| SchedulerProofs.StartNewSteps | services/abilitymgr_lite/src/slite/ability_record_manager.cpp:572-650 | starting a new bundle makes room, pushes it to the front with a fresh token, and starts the old top leaving |
| SchedulerProofs.TerminateSteps | services/abilitymgr_lite/src/slite/ability_record_manager.cpp:391-473 | terminating the top pops it, terminating home on top swaps it with the next, terminating another one drops it |
| SchedulerProofs.PurgeSteps | services/abilitymgr_lite/src/slite/ability_list.cpp:207-244 | a bulk termination leaves the manager at rest |
| SchedulerProofs.ForceStopTopSteps | services/abilitymgr_lite/src/slite/ability_record_manager.cpp:475-514 | force-stopping the foreground app drops it and creates the next one at once |
| MruList.EvictionIsSafe | services/abilitymgr_lite/src/slite/ability_list.cpp:186-205 | making room on a full list takes neither home nor the ability on top and keeps the list well formed |
| MruList.MoveKeeps | services/abilitymgr_lite/src/slite/ability_list.cpp:134-144 | moving a record to the front keeps the list well formed |
| MruList.PushKeeps | services/abilitymgr_lite/src/slite/ability_list.cpp:36-49 | pushing a record with a fresh token and name keeps the list well formed |
| MruList.DropKeeps | services/abilitymgr_lite/src/slite/ability_list.cpp:101-114 | dropping any record but home keeps the list well formed |
| SavedState.AcceptsExactly | frameworks/ability_lite/src/slite/ability_saved_data.cpp:31-65 | one to 1024 bytes are accepted, a null or empty buffer and a longer one are refused with different codes |
| SavedState.FetchesWhole | frameworks/ability_lite/src/slite/ability_saved_data.cpp:67-109 | stored bytes come out whole into a buffer that holds them, or not at all, with the code that says why |
| SavedState.SetThenGet | frameworks/ability_lite/src/slite/ability_saved_data.cpp:31-109 | an accepted Set is what the next Get returns; a rejected one leaves the earlier bytes to be returned |
| SavedState.AbilitySavedData.SetSavedData | frameworks/ability_lite/src/slite/ability_saved_data.cpp:31-47 | answers by null, empty and the 1024-byte limit, and stores only what it accepts |
| SavedState.AbilitySavedData.SetUserSavedData | frameworks/ability_lite/src/slite/ability_saved_data.cpp:49-65 | the same for the user's bytes |
| SavedState.AbilitySavedData.GetSavedData | frameworks/ability_lite/src/slite/ability_saved_data.cpp:67-87 | copies the stored bytes, or answers why not; a size is given back exactly where the caller asks for it |
| SavedState.AbilitySavedData.GetUserSavedData | frameworks/ability_lite/src/slite/ability_saved_data.cpp:89-109 | the same for the user's bytes |
| SavedState.AbilitySavedData.Reset | frameworks/ability_lite/src/slite/ability_saved_data.cpp:121-128 | forgets both buffers and the result code |
| AbilityLists.AbilityList.Add | services/abilitymgr_lite/src/slite/ability_list.cpp:36-49 | evicts the bottom when full and pushes a record unless its token is there, also when the record itself is |
| AbilityLists.AbilityList.Get | services/abilitymgr_lite/src/slite/ability_list.cpp:51-65 | finds the first record with the token, or none |
| AbilityLists.AbilityList.GetByName | services/abilitymgr_lite/src/slite/ability_list.cpp:67-84 | finds the first record with the bundle name, or none |
| AbilityLists.AbilityList.Erase | services/abilitymgr_lite/src/slite/ability_list.cpp:101-114 | removes the first record with the token |
| AbilityLists.AbilityList.GetAbilityList | services/abilitymgr_lite/src/slite/ability_list.cpp:116-126 | one token for each record of the mission, the bottom one first; exactly the tokens of its records |
| AbilityLists.AbilityList.MoveToTop | services/abilitymgr_lite/src/slite/ability_list.cpp:134-144 | takes the record with the token off and adds it again; within the capacity and with distinct tokens it moves to the front and nothing else changes |
| AbilityLists.AbilityList.PopBottomAbility | services/abilitymgr_lite/src/slite/ability_list.cpp:186-205 | removes the bottom record, or the one above it if the bottom one is home; on a list of one home stays |
| AbilityLists.AbilityList.PopAllAbility | services/abilitymgr_lite/src/slite/ability_list.cpp:207-244 | keeps the top, the permanent records and the excluded bundle, in their old order |
| AbilityRecordManagers.AbilityRecordManager.StartLauncher | services/abilitymgr_lite/src/slite/ability_record_manager.cpp:56-91 | starts home and leaves the state a boot leaves; called again it does nothing |
| AbilityRecordManagers.AbilityRecordManager.StartAbility | services/abilitymgr_lite/src/slite/ability_record_manager.cpp:177-250 | does what the state machine says of a start, or defers it |
| AbilityRecordManagers.AbilityRecordManager.StartKnownAbility | services/abilitymgr_lite/src/slite/ability_record_manager.cpp:203-226 | a start of a bundle on the list |
| AbilityRecordManagers.AbilityRecordManager.StartNewAbility | services/abilitymgr_lite/src/slite/ability_record_manager.cpp:269-356 | a start of a bundle not on the list |
| AbilityRecordManagers.AbilityRecordManager.PreCheckStartAbility | services/abilitymgr_lite/src/slite/ability_record_manager.cpp:572-650 | makes the record with its token and mission, and creates it at once if nothing is pending |
| AbilityRecordManagers.AbilityRecordManager.TerminateAbility | services/abilitymgr_lite/src/slite/ability_record_manager.cpp:358-365 | does what the state machine says of a termination, or defers it |
| AbilityRecordManagers.AbilityRecordManager.TerminateAbilityWith | services/abilitymgr_lite/src/slite/ability_record_manager.cpp:391-473 | terminates the top, home on top, or another record |
| AbilityRecordManagers.AbilityRecordManager.TerminateMission | services/abilitymgr_lite/src/slite/ability_record_manager.cpp:367-389 | terminates every record of the mission but the top, one after the other, with the result of filtering the list once |
| AbilityRecordManagers.AbilityRecordManager.TerminateAll | services/abilitymgr_lite/src/slite/ability_record_manager.cpp:516-535 | keeps the top, permanent records and the excluded bundle |
| AbilityRecordManagers.AbilityRecordManager.ForceStop | services/abilitymgr_lite/src/slite/ability_record_manager.cpp:537-565 | terminates by bundle name |
| AbilityRecordManagers.AbilityRecordManager.ForceStopBundle | services/abilitymgr_lite/src/slite/ability_record_manager.cpp:475-514 | drops the record at once, destroying its thread, and creates the next when it was on top |
| AbilityRecordManagers.AbilityRecordManager.CreateAppTask | services/abilitymgr_lite/src/slite/ability_record_manager.cpp:667-712 | gives the record its thread and sends CREATE |
| AbilityRecordManagers.AbilityRecordManager.GenerateToken | services/abilitymgr_lite/src/slite/ability_record_manager.cpp:714-726 | hands out tokens with period 65534 |
| AbilityRecordManagers.AbilityRecordManager.GenerateMission | services/abilitymgr_lite/src/slite/ability_record_manager.cpp:728-735 | hands out mission numbers |
| AbilityRecordManagers.AbilityRecordManager.DeleteRecordInfo | services/abilitymgr_lite/src/slite/ability_record_manager.cpp:737-749 | takes the record off the list with its thread |
| AbilityRecordManagers.AbilityRecordManager.OnCreateDone | services/abilitymgr_lite/src/slite/ability_record_manager.cpp:762-766 | sends FOREGROUND |
| AbilityRecordManagers.AbilityRecordManager.OnBackgroundDone | services/abilitymgr_lite/src/slite/ability_record_manager.cpp:813-862 | sends DESTROY with somewhere to save to unless the record is to be removed |
| AbilityRecordManagers.AbilityRecordManager.OnDestroyDone | services/abilitymgr_lite/src/slite/ability_record_manager.cpp:864-942 | drops or puts to sleep the one that left and creates its successor; ignores an unknown token |
| AbilityRecordManagers.AbilityRecordManager.SchedulerLifecycleDone | services/abilitymgr_lite/src/slite/ability_record_manager.cpp:1033-1059 | dispatches an acknowledgement, also one with an unknown token; the last one clears the flag and drains the queue |
| AbilityRecordManagers.AbilityRecordManager.SendMsgToAbilityThread | services/abilitymgr_lite/src/slite/ability_record_manager.cpp:1061-1095 | sends a message carrying the saved data only with CREATE and DESTROY |
| AbilityRecordManagers.AbilityRecordManager.AddAbilityOperation | services/abilitymgr_lite/src/slite/ability_record_manager.cpp:1185-1198 | queues a copy whose mission number is left uninitialised |
| AbilityRecordManagers.AbilityRecordManager.RunOperation | services/abilitymgr_lite/src/slite/ability_record_manager.cpp:1200-1260 | carries out waiting requests until one starts a switch; while a switch is under way it carries out none |
| AbilityRecordManagers.AbilityRecordManager.HandleRequest | services/abilitymgr_lite/src/slite/ability_mgr_service_slite.cpp:150-206 | the dispatcher, for a client request |
| AbilityRecordManagers.AbilityRecordManager.HandleTransactionDone | services/abilitymgr_lite/src/slite/ability_mgr_service_slite.cpp:150-206 | the dispatcher, for an acknowledgement |
| AbilityRecordManagers.AbilityRecordManager.ProcessMessage | services/abilitymgr_lite/src/slite/js_ability_thread.cpp:145-177 | on CREATE the app is handed the saved data the message points to, on DESTROY it fills that in; the message is then on its way back |
| AbilityRecordManagers.AbilityRecordManager.Handle | services/abilitymgr_lite/src/slite/ability_mgr_service_slite.cpp:150-206 | one input, whatever it is: the new state is that of the state machine, and whatever came onto the list is a new object |
| AbilityRecordManagers.AbilityRecordManager.Serve | services/abilitymgr_lite/src/slite/ability_mgr_service_slite.cpp:150-206 | from the start of home through any sequence of requests, app turns and acknowledgements the manager updated in place ends where the state machine does, so every theorem about runs is about it |
| MissionStacks.RunsStayWellFormed | services/abilitymgr_lite/src/ability_stack_manager.cpp:21-131 | after any sequence of generate, remove and clear: one non-empty mission a bundle, the launcher bundle alone on the launcher stack, links only to other live missions of the same stack, and a default stack on top is not empty |
| MissionStacks.StepPages | services/abilitymgr_lite/src/ability_stack_manager.cpp:21-131 | what each operation does to the pages of every bundle: a start adds one page to its own bundle or shows the top one again, a removal cuts its bundle at the page removed, a clear takes all; no other bundle changes |
| MissionStacks.GeneratedIsForeground | services/abilitymgr_lite/src/ability_stack_manager.cpp:21-75 | the page a start returns belongs to its bundle and is the one in the foreground afterwards |
| MissionStacks.GeneratedKeeps | services/abilitymgr_lite/src/ability_stack_manager.cpp:21-75 | a start keeps the stacks well formed, for any top ability passed in |
| MissionStacks.RemovedKeeps | services/abilitymgr_lite/src/ability_stack_manager.cpp:84-103 | a removal keeps the stacks well formed |
| MissionStacks.ClearedKeeps | services/abilitymgr_lite/src/ability_stack_manager.cpp:105-131 | a clear keeps the stacks well formed |
| MissionStacks.ToTopKeeps | services/abilitymgr_lite/src/ability_mission_stack.cpp:54-60 | moving a mission to the top keeps a stack good and its bundles the same |
| MissionStacks.DroppedKeeps | services/abilitymgr_lite/src/ability_mission_stack.cpp:62-71 | removing a mission and the links to it keeps a stack good and takes exactly its bundle |
| MissionStacks.RunsKeepTokensApart | services/abilitymgr_lite/src/page_ability_record.cpp:70-76 | after any such sequence no two pages of the two stacks have the same token |
| MissionStacks.HeldPages | services/abilitymgr_lite/src/ability_stack_manager.cpp:133-156 | the page found by token is on its bundle's mission |
| ReturnPaths.RemovalReturns | services/abilitymgr_lite/src/ability_stack_manager.cpp:84-103 | when a removal takes the last page of a bundle, the mission it was linked to comes in front of the others, which keep their order, and its top page is shown if its stack is; without a link the launcher stack comes on top; links to the closed mission go, all others stay |
| ReturnPaths.RemovalStays | services/abilitymgr_lite/src/ability_stack_manager.cpp:84-91 | as long as pages are left no mission moves, no link changes and the same stack is on top |
| ReturnPaths.ClearReturns | services/abilitymgr_lite/src/ability_stack_manager.cpp:105-131 | the same for a bundle cleared at once, except that the launcher stack comes on top only if the bundle was shown |
| ReturnPaths.HiddenClearSwitches | services/abilitymgr_lite/src/ability_stack_manager.cpp:117-121 | clearing an application that is not shown changes the page that is exactly if it is linked to another one on the stack that is on top |
| ReturnPaths.ClearOfNothing | services/abilitymgr_lite/src/ability_stack_manager.cpp:105-131 | clearing a bundle without pages changes nothing |
| ReturnPaths.StartRaises | services/abilitymgr_lite/src/ability_stack_manager.cpp:21-75 | a start puts the mission of the target in front of the others, which keep order and links; it is linked to the mission that was in front if an application starts another, and otherwise keeps its link |
| ReturnPaths.ShowsAgain | services/abilitymgr_lite/src/ability_stack_manager.cpp:29-60 | a start makes no new page exactly if the target has a mission and is started from nowhere, from or to the launcher, is the shared JS ability, or is wanted by the names of the page on top |
| FailedStarts.FailedStartIsExactUndo | services/abilitymgr_lite/src/task/ability_start_task.cpp:49-71 | a start that fails at inactivating the top leaves stacks, order, links and top stack as before if and only if it made a new page on the mission already on top, or on a new mission while the launcher stack or, for an application, the default stack was shown |
| FailedStarts.FailedApplicationStart | services/abilitymgr_lite/src/task/ability_start_task.cpp:49-71 | so it does from the launcher or a running application to an application without a mission |
| FailedStarts.FailedLauncherStart | services/abilitymgr_lite/src/task/ability_start_task.cpp:64-70 | from an application to a launcher without a mission it does not: the launcher stack stays on top |
| FailedStarts.RefusedStartChangesNothing | services/abilitymgr_lite/src/task/ability_start_task.cpp:52-58 | a start of the page already in the foreground, or without a name, changes nothing |
| FailedStarts.UndoReuse | services/abilitymgr_lite/src/task/ability_start_task.cpp:64-70 | removing a page that was shown again loses pages that were there before |
| AbilityMissionStacks.PageAbilityRecord.IsSamePageAbility | services/abilitymgr_lite/src/page_ability_record.cpp:99-112 | compares bundle and ability name, with the null cases |
| AbilityMissionStacks.AbilityMissionRecord.FindPageAbility | services/abilitymgr_lite/src/ability_mission_record.cpp:81-90 | position of the first page with the token |
| AbilityMissionStacks.AbilityMissionRecord.PushPageAbility | services/abilitymgr_lite/src/ability_mission_record.cpp:117-124 | adds the page on top and sets its back pointer |
| AbilityMissionStacks.AbilityMissionRecord.RemovePageAbility | services/abilitymgr_lite/src/ability_mission_record.cpp:126-143 | cuts the pages at the target |
| AbilityMissionStacks.AbilityMissionRecord.ClearPageAbility | services/abilitymgr_lite/src/ability_mission_record.cpp:145-152 | drops every page |
| AbilityMissionStacks.AbilityMissionStack.GetTargetMissionRecord | services/abilitymgr_lite/src/ability_mission_stack.cpp:94-103 | position of the bundle's mission |
| AbilityMissionStacks.AbilityMissionStack.FindPageAbility | services/abilitymgr_lite/src/ability_mission_stack.cpp:110-122 | the page with the token, if any mission has it |
| AbilityMissionStacks.AbilityMissionStack.PushTopMissionRecord | services/abilitymgr_lite/src/ability_mission_stack.cpp:45-52 | adds the mission on top and sets its back pointer |
| AbilityMissionStacks.AbilityMissionStack.MoveMissionRecordToTop | services/abilitymgr_lite/src/ability_mission_stack.cpp:54-60 | brings the mission on top, keeping the order of the others |
| AbilityMissionStacks.AbilityMissionStack.RemoveMissionRecord | services/abilitymgr_lite/src/ability_mission_stack.cpp:62-71 | removes the mission and clears every link to it |
| AbilityMissionStacks.AbilityMissionStack.RemoveMissionOf | services/abilitymgr_lite/src/ability_mission_stack.cpp:73-80 | removes the bundle's mission with its pages |
| AbilityMissionStacks.AbilityMissionStack.IsTopMissionRecord | services/abilitymgr_lite/src/ability_mission_stack.cpp:82-92 | the bundle is on top; not on an empty stack |
| AbilityMissionStacks.AbilityMissionStack.IsBottomPageAbility | services/abilitymgr_lite/src/page_ability_record.cpp:122-131 | the page is the bottom one of its mission; a page on no mission is not |
| AbilityMissionStacks.AbilityMissionStack.ReusedPage | services/abilitymgr_lite/src/ability_stack_manager.cpp:29-60 | the page on top of the target's mission, when it is shown again |
| AbilityMissionStacks.AbilityMissionStack.Start | services/abilitymgr_lite/src/ability_stack_manager.cpp:21-75 | raises the target's mission with its page and links it back |
| AbilityMissionStacks.AbilityMissionStack.RemovePageAbility | services/abilitymgr_lite/src/ability_stack_manager.cpp:84-103 | cuts the page off and, when the mission empties, removes it and returns to the one before |
| AbilityStackManagers.AbilityMgrContext.GetTargetMissionStack | services/abilitymgr_lite/src/ability_mgr_context.cpp:54-60 | the launcher stack for the launcher bundle, the default stack otherwise |
| AbilityStackManagers.AbilityMgrContext.GetTopPageAbility | services/abilitymgr_lite/src/ability_stack_manager.cpp:77-82 | the page in the foreground |
| AbilityStackManagers.AbilityMgrContext.GeneratePageAbility | services/abilitymgr_lite/src/ability_stack_manager.cpp:21-75 | new state and page are those of the start, back pointers and links in place |
| AbilityStackManagers.AbilityMgrContext.RemovePageAbility | services/abilitymgr_lite/src/ability_stack_manager.cpp:84-103 | new state is that of the removal |
| AbilityStackManagers.AbilityMgrContext.ClearAbilityStack | services/abilitymgr_lite/src/ability_stack_manager.cpp:105-131 | new state is that of the clear |
| AbilityStackManagers.AbilityMgrContext.FindPageAbility | services/abilitymgr_lite/src/ability_stack_manager.cpp:133-156 | finds the page on either stack |
| AbilityStackManagers.AbilityMgrContext.ExistAppInStack | services/abilitymgr_lite/src/ability_stack_manager.cpp:193-201 | the bundle has a mission |
| AbilityTasks.AbilityTask.StartPage | services/abilitymgr_lite/src/task/ability_start_task.cpp:39-80 | start, refusal, and roll-back on failure |
| AbilityTasks.AbilityTask.Serve | services/abilitymgr_lite/src/ability_worker.cpp:50-177 | any sequence of page operations, starts with their roll-back, service tasks, stops and application deaths ends in the state the run of the model ends in, so the theorems about runs are about it |
| AbilityTasks.AbilityTask.Stop | services/abilitymgr_lite/src/task/ability_stop_task.cpp:24-66 | the ability goes, and the bundle told to exit is the one the model says; the next task may follow |
| AbilityTasks.AbilityTask.ClearApp | services/abilitymgr_lite/src/task/app_terminate_task.cpp:27-51 | services, connections of its pages, and mission of an application that ended |
| AppExits.ExitExactlyWhenNothingLeft | services/abilitymgr_lite/src/task/ability_stop_task.cpp:40-65 | for page and service stops alike the process is told to exit exactly when the stop leaves its bundle with no page and no service |
| AppExits.ExitInEveryRun | services/abilitymgr_lite/src/task/ability_stop_task.cpp:24-66 | after every run of page starts and removals, service tasks, stops and application deaths, all on one token counter, a token names at most one page or service, and its stop tells its application to exit exactly when the bundle is left with neither |
| AppExits.RunsStayJoint | services/abilitymgr_lite/src/page_ability_record.cpp:70-76 | every such run keeps stacks well formed, services sound and their tokens apart |
| AppExits.CountWithout | services/abilitymgr_lite/src/ability_connect_mission.cpp:116-132 | removing one service lowers its bundle's count by one |
| AppDeaths.StopTakes | services/abilitymgr_lite/src/task/ability_stop_task.cpp:24-66 | a page that stops goes with those above it and nothing else, a service that stops goes alone |
| AppDeaths.TaskReaches | services/abilitymgr_lite/src/task/ability_start_task.cpp:39-80 | a start that succeeds shows a page of its target, one that is rolled back leaves no more pages than there were, and no other application and no service is touched |
| AppDeaths.AppGoneTakes | services/abilitymgr_lite/src/task/app_terminate_task.cpp:27-51 | with its process an application loses all pages and services, no other one loses any, and services left lose exactly the clients that were its pages |
| ServiceRequests.Protocol | services/abilitymgr_lite/src/page_ability_record.cpp:340-481 | for every status and every input, the status afterwards and exactly what is sent |
| ServiceRequests.ClientsAfter | services/abilitymgr_lite/src/page_ability_record.cpp:237-248 | who is connected after every input: a client is admitted unless the service is closing or knows it, and goes when it disconnects or its page is gone |
| ServiceRequests.OtherwiseSame | services/abilitymgr_lite/src/page_ability_record.cpp:340-481 | what else an input changes in a service record |
| ServiceRequests.RequestsWereSent | services/abilitymgr_lite/src/page_ability_record.cpp:340-442 | in every run a service that is connecting was asked to connect and not to disconnect since, one that is disconnecting the other way round, one that is stopping was told to stop, one that is done has told every client, and none that is inactive still waits |
| ServiceRequests.LastClientEndsIt | services/abilitymgr_lite/src/page_ability_record.cpp:354-442 | when the last client of a service nobody started leaves, it is asked to disconnect and to stop, and is done, with nothing else sent |
| ServiceRequests.DoAsks | services/abilitymgr_lite/src/page_ability_record.cpp:340-481 | each input keeps that |
| ServiceRequests.StartLists | services/abilitymgr_lite/src/task/ability_start_task.cpp:82-109 | a service that is not known gets a record with a fresh token, kept if its process could be reached or spawned |
| ServiceRequests.ConnectReaches | services/abilitymgr_lite/src/ability_worker.cpp:121-159 | a connect admits the client to the service it names and starts that if need be; a stopping one is left alone |
| ServiceRequests.TokenReaches | services/abilitymgr_lite/src/task/ability_connect_done_task.cpp:24-42 | an event that names a token reaches exactly the service that has it |
| ServiceRequests.DisconnectReaches | services/abilitymgr_lite/src/task/ability_disconnect_task.cpp:24-39 | a disconnection reaches a service with that connection, if there is one |
| ServiceRequests.PageGoneReaches | services/abilitymgr_lite/src/ability_connect_mission.cpp:151-161 | the death of a page reaches exactly the services of other applications |
| ServiceRequests.TerminateReaches | services/abilitymgr_lite/src/task/ability_terminate_service_task.cpp:31-51 | a service that has not run leaves the list at once, any other is stopped by force |
| ServiceRequests.StopReaches | services/abilitymgr_lite/src/task/ability_stop_task.cpp:40-55 | a service that has stopped leaves the list with its clients told |
| ServiceRequests.AppGoneReaches | services/abilitymgr_lite/src/ability_connect_mission.cpp:98-114 | all services of an application leave the list with their clients told, in order, and no other |
| ServiceMissions.RunsStaySound | services/abilitymgr_lite/src/page_ability_record.cpp:354-481 | every interleaving of starts, connects, disconnects, their acknowledgements, terminations, stops, page and app deaths keeps every service, live or gone, in order |
| ServiceMissions.NeverStoppedUnderLiveClient | services/abilitymgr_lite/src/page_ability_record.cpp:354-481 | every stop request to a service was sent by force, or with no connection and nobody having started it; a service stopping without force has neither |
| ServiceMissions.StoppingIsFinal | services/abilitymgr_lite/src/page_ability_record.cpp:390-428 | once stopping, a service is never asked to connect, disconnect or stop for good again, tells no client any more that it is connected, and is STOPPING until STOPPED |
| ServiceMissions.ToldToStopStillTells | services/abilitymgr_lite/src/page_ability_record.cpp:464-481 | after the stop request sent when the last client page is gone, some sequence of tasks has a client told that it is connected to that service if and only if the service was not stopping already |
| ServiceMissions.NoticeAfterStop | services/abilitymgr_lite/src/page_ability_record.cpp:464-481 | one such run: connected for one page, told to stop when that is gone, and the next page is told that it is connected |
| ServiceMissions.StepDescends | services/abilitymgr_lite/src/ability_worker.cpp:121-177 | every service after a task was there before and its log only grew, or it is new; a stopping one stays so and tells nobody |
| ServiceMissions.ConnectDoneExactlyOnce | services/abilitymgr_lite/src/page_ability_record.cpp:376-388 | no connection is told twice that it is up; one on record has been told exactly if it is up; sids differ; a connected service has only connections that are up |
| ServiceMissions.StepKeeps | services/abilitymgr_lite/src/ability_worker.cpp:121-177 | each task keeps that |
| ServiceMissions.ConnectTaskKeeps | services/abilitymgr_lite/src/task/ability_connect_task.cpp:27-43 | admitting a client keeps that |
| ServiceMissions.StartServiceKeeps | services/abilitymgr_lite/src/task/ability_start_task.cpp:82-109 | a service start, with its roll-back, keeps that |
| ServiceMissions.TerminateServiceKeeps | services/abilitymgr_lite/src/task/ability_terminate_service_task.cpp:31-51 | a forced termination keeps that |
| ServiceMissions.StopKeeps | services/abilitymgr_lite/src/task/ability_stop_task.cpp:40-55 | a stop acknowledgement keeps that |
| ServiceMissions.ClearKeeps | services/abilitymgr_lite/src/ability_connect_mission.cpp:98-114 | the death of an application keeps that |
| ServiceMissions.PageIsGoneKeeps | services/abilitymgr_lite/src/ability_connect_mission.cpp:151-161 | the death of a client page keeps that |
| ServiceConnects.PerformConnectKeeps | services/abilitymgr_lite/src/task/ability_connect_task.cpp:45-85 | connection admission keeps a service in order |
| ServiceConnects.ConnectDoneKeeps | services/abilitymgr_lite/src/task/ability_connect_done_task.cpp:24-42 | so does a connect acknowledgement, even a late one |
| ServiceConnects.DisconnectAbilityKeeps | services/abilitymgr_lite/src/page_ability_record.cpp:354-374 | so does a disconnect |
| ServiceConnects.DisconnectDoneKeeps | services/abilitymgr_lite/src/task/ability_disconnect_done_task.cpp:24-39 | so does a disconnect acknowledgement |
| ServiceConnects.ForceStopKeeps | services/abilitymgr_lite/src/page_ability_record.cpp:408-428 | so does a forced stop |
| ServiceConnects.PageGoneKeeps | services/abilitymgr_lite/src/page_ability_record.cpp:464-481 | so does the loss of a client's connections, with the stop it may send |
| ServiceConnects.StateReportedKeeps | services/abilitymgr_lite/src/task/ability_inactivate_task.cpp:24-44 | so does a reported state, with the connect request that waited for it |
| ServiceConnects.NoticesGoToWaiting | services/abilitymgr_lite/src/page_ability_record.cpp:376-388 | exactly the waiting clients are told, each with its own identity and the service's |
| ServiceConnects.NoticesCount | services/abilitymgr_lite/src/page_ability_record.cpp:376-388 | each waiting client is told once |
| ServiceConnects.WithoutSidExact | services/abilitymgr_lite/src/page_ability_record.cpp:237-248 | a disconnect forgets that client's connection only |
| ServiceConnects.WithoutTokenExact | services/abilitymgr_lite/src/page_ability_record.cpp:464-481 | a page that is gone loses all its connections and only those |
| AbilityConnectMissions.ServiceRecord.PerformConnectTask | services/abilitymgr_lite/src/task/ability_connect_task.cpp:45-85 | the admission state machine, on the record |
| AbilityConnectMissions.ServiceRecord.NotifyWaiting | services/abilitymgr_lite/src/page_ability_record.cpp:376-388 | marks and tells every waiting connection |
| AbilityConnectMissions.ServiceRecord.Disconnect | services/abilitymgr_lite/src/page_ability_record.cpp:354-374 | forgets the connection and disconnects after the last one |
| AbilityConnectMissions.ServiceRecord.DisconnectDone | services/abilitymgr_lite/src/page_ability_record.cpp:390-406 | back to the initial status, or stops |
| AbilityConnectMissions.ServiceRecord.ForceStopService | services/abilitymgr_lite/src/page_ability_record.cpp:408-428 | stops, or disconnects first |
| AbilityConnectMissions.ServiceRecord.StopDone | services/abilitymgr_lite/src/page_ability_record.cpp:430-442 | stopped, and every client told |
| AbilityConnectMissions.ServiceRecord.RemoveRecordsOfPage | services/abilitymgr_lite/src/page_ability_record.cpp:464-481 | drops a page's connections and stops after the last one |
| AbilityConnectMissions.AbilityConnectMission.FindByToken | services/abilitymgr_lite/src/ability_connect_mission.cpp:46-54 | the service with the token |
| AbilityConnectMissions.AbilityConnectMission.FindByName | services/abilitymgr_lite/src/ability_connect_mission.cpp:56-73 | the service with the names |
| AbilityConnectMissions.AbilityConnectMission.FindByConnection | services/abilitymgr_lite/src/ability_connect_mission.cpp:75-83 | the service a client is connected to |
| AbilityConnectMissions.AbilityConnectMission.CountServiceInApp | services/abilitymgr_lite/src/ability_connect_mission.cpp:116-132 | how many services the bundle has |
| AbilityConnectMissions.AbilityConnectMission.RemoveServiceRecords | services/abilitymgr_lite/src/ability_connect_mission.cpp:98-114 | every service of a bundle is done and goes |
| AbilityConnectMissions.AbilityConnectMission.RemoveConnectRecordByPageToken | services/abilitymgr_lite/src/ability_connect_mission.cpp:151-161 | services of other bundles lose the page's connections |
| AbilityConnectMissions.AbilityConnectMission.StartService | services/abilitymgr_lite/src/task/ability_start_task.cpp:82-109 | a service record is made, or rolled back |
| AbilityConnectMissions.AbilityConnectMission.ConnectAbility | services/abilitymgr_lite/src/ability_worker.cpp:121-159 | starts the service if need be and admits the client |
| AbilityConnectMissions.AbilityConnectMission.ConnectDoneTask | services/abilitymgr_lite/src/task/ability_connect_done_task.cpp:24-42 | guarded move to CONNECTED |
| AbilityConnectMissions.AbilityConnectMission.DisconnectAbilityTask | services/abilitymgr_lite/src/task/ability_disconnect_task.cpp:24-39 | finds the service by client and disconnects |
| AbilityConnectMissions.AbilityConnectMission.DisconnectDoneTask | services/abilitymgr_lite/src/task/ability_disconnect_done_task.cpp:24-39 | guarded disconnect acknowledgement |
| AbilityConnectMissions.AbilityConnectMission.TerminateServiceTask | services/abilitymgr_lite/src/task/ability_terminate_service_task.cpp:31-51 | removes an unstarted service, force-stops another |
| AbilityConnectMissions.AbilityConnectMission.TerminateTask | services/abilitymgr_lite/src/task/ability_terminate_task.cpp:26-44 | force-stops the service with the token |
| AbilityConnectMissions.AbilityConnectMission.StateTask | services/abilitymgr_lite/src/task/ability_inactivate_task.cpp:24-44 | records a reported state |
| AbilityConnectMissions.AbilityConnectMission.LaunchPending | services/abilitymgr_lite/src/app_record.cpp:128-142 | the service a new process was started for is told to become inactive |
| AbilityConnectMissions.AbilityConnectMission.Serve | services/abilitymgr_lite/src/ability_worker.cpp:50-177 | any sequence of tasks, deaths and acknowledgements ends in the services the run of the model ends in |
| AbilityConnectMissions.AbilityConnectMission.StopTask | services/abilitymgr_lite/src/task/ability_stop_task.cpp:38-55 | the service is done and goes |
| AbilitySlices.PresentKeepsExactly | frameworks/ability_lite/src/ability_slice_scheduler.cpp:101-131 | presenting keeps the top slice in the ability's state, the stack distinct and in the background, and histories on the lifecycle graph, if and only if the target is not itself a running slice of the stack |
| AbilitySlices.PresentThenTerminate | frameworks/ability_lite/src/ability_slice_scheduler.cpp:101-165 | presenting a slice that does not run and terminating it restores top, stack and all other states |
| AbilitySlices.TerminateKeeps | frameworks/ability_lite/src/ability_slice_scheduler.cpp:133-165 | terminating any slice keeps the slices in order |
| AbilitySlices.StartKeeps | frameworks/ability_lite/src/ability_slice_scheduler.cpp:40-52 | the main slice, if the loader finds one, is the top one then and gets exactly its two callbacks |
| AbilitySlices.TopKeeps | frameworks/ability_lite/src/ability_slice_scheduler.cpp:54-82 | inactive, active and background reach exactly the top slice, with one callback |
| AbilitySlices.StopKeeps | frameworks/ability_lite/src/ability_slice_scheduler.cpp:84-99 | stopping the ability stops the top slice and every stacked one |
| AbilitySlices.StopCallbacks | frameworks/ability_lite/src/ability_slice_scheduler.cpp:84-99 | the top slice first and then the stacked ones from the top down, each once |
| AbilitySlices.PresentsExactly | frameworks/ability_lite/src/ability_slice_scheduler.cpp:184-203 | a started slice of an active ability presents any slice that is neither on top nor active, and nothing else is let through |
| AbilitySlices.PresentCallbacks | frameworks/ability_lite/src/ability_slice_scheduler.cpp:101-131 | the old top is inactive before the target is brought to active along the graph, and in the background after |
| AbilitySlices.TerminatesExactly | frameworks/ability_lite/src/ability_slice_scheduler.cpp:205-219 | a started slice of an active ability terminates if it is on top or on the stack, and no other does |
| AbilitySlices.TerminateTopCallbacks | frameworks/ability_lite/src/ability_slice_scheduler.cpp:143-160 | the next slice is active before the one that goes is in the background and stopped |
| AbilitySlices.TerminateStacked | frameworks/ability_lite/src/ability_slice_scheduler.cpp:160-165 | a stacked slice is stopped and leaves the stack, top and order as they were |
| AbilitySlices.TerminateLast | frameworks/ability_lite/src/ability_slice_scheduler.cpp:205-226 | the last slice stays and its ability is asked to terminate |
| AbilitySlices.PresentMoves | frameworks/ability_lite/src/ability_slice_scheduler.cpp:101-131 | what an accepted present does to top, stack and states |
| AbilitySlices.TerminateTop | frameworks/ability_lite/src/ability_slice_scheduler.cpp:143-160 | what terminating the top slice does to top, stack and states |
| AbilitySlices.WithoutIs | frameworks/ability_lite/src/ability_slice_stack.cpp:40-43 | removing a slice takes it and nothing else |
| AbilityLifecycles.NoRunExits | frameworks/ability_lite/src/ability_thread.cpp:212-258 | no sequence of messages, unknown targets included, trips a lifecycle guard, and between messages every stored ability is inactive, active or in the background |
| AbilityLifecycles.ReportedIsTarget | frameworks/ability_lite/src/ability_thread.cpp:212-258 | the state reported for a valid target is that target, except that an ability in the background is not made inactive |
| AbilityLifecycles.StepMeets | frameworks/ability_lite/src/ability_thread.cpp:315-354 | the state reported for every message, with every target, and when the ability is forgotten |
| AbilityLifecycles.SlicesStayInOrder | frameworks/ability_lite/src/ability_slice_scheduler.cpp:40-165 | in every run that presents only slices that do not run, as documented, the slices of every ability that is there are in order, and those of every ability that ever stopped were all stopped along the lifecycle graph, none left on top or stacked |
| AbilityLifecycles.MainSliceStays | frameworks/ability_lite/src/ability_slice_scheduler.cpp:40-52 | in every run a native page whose main slice was loaded has a slice on top for as long as it is there |
| AbilityLifecycles.FirstMessageShows | frameworks/ability_lite/src/ability_thread.cpp:212-258 | the first message for an ability starts the main slice the loader finds, with its two callbacks |
| AbilityLifecycles.SliceMessagesReach | frameworks/ability_lite/src/ability_slice.cpp:33-49 | a slice that presents or terminates reaches the slices of its own ability only |
| AbilityLifecycles.StoppedAreKept | frameworks/ability_lite/src/ability_thread.cpp:240-258 | of an ability that stops the history of its slices is kept |
| AbilityLifecycles.HandleKeeps | frameworks/ability_lite/src/ability.cpp:34-118 | each lifecycle transaction keeps an ability's slices in order; the one that stops the ability stops the top slice and every stacked one along the lifecycle graph |
| AbilitySliceSchedulers.AbilitySliceScheduler.HandleStartAbilitySlice | frameworks/ability_lite/src/ability_slice_scheduler.cpp:40-52 | the top slice, or the one loaded, is initialised and started |
| AbilitySliceSchedulers.AbilitySliceScheduler.HandleStopAbilitySlice | frameworks/ability_lite/src/ability_slice_scheduler.cpp:84-99 | the loop stops every stacked slice |
| AbilitySliceSchedulers.AbilitySliceScheduler.AddAbilitySlice | frameworks/ability_lite/src/ability_slice_scheduler.cpp:101-131 | new state is that of the present |
| AbilitySliceSchedulers.AbilitySliceScheduler.RemoveAbilitySlice | frameworks/ability_lite/src/ability_slice_scheduler.cpp:133-165 | new state is that of the termination |
| AbilitySliceSchedulers.AbilitySliceScheduler.CheckLegalForAdd | frameworks/ability_lite/src/ability_slice_scheduler.cpp:184-203 | exactly the presents let through |
| AbilitySliceSchedulers.AbilitySliceScheduler.MayRemoveSlice | frameworks/ability_lite/src/ability_slice_scheduler.cpp:205-219 | exactly the terminations let through |
| AbilitySliceSchedulers.AbilitySliceStack.Remove | frameworks/ability_lite/src/ability_slice_stack.cpp:40-43 | takes every occurrence of the slice |
| AbilitySliceSchedulers.AbilitySliceStack.Pop | frameworks/ability_lite/src/ability_slice_stack.cpp:54-63 | takes the front slice, or gives none |
| AbilitySliceSchedulers.AbilitySliceStack.Exist | frameworks/ability_lite/src/ability_slice_stack.cpp:35-38 | the slice is on the stack |
| AbilityThreads.Ability.OnStart | frameworks/ability_lite/src/ability.cpp:34-49 | guarded; starts the slices |
| AbilityThreads.Ability.OnInactive | frameworks/ability_lite/src/ability.cpp:51-63 | guarded; hands the state on |
| AbilityThreads.Ability.OnActive | frameworks/ability_lite/src/ability.cpp:65-80 | guarded; hands the state on |
| AbilityThreads.Ability.OnBackground | frameworks/ability_lite/src/ability.cpp:82-97 | guarded; hands the state on |
| AbilityThreads.Ability.OnStop | frameworks/ability_lite/src/ability.cpp:99-118 | guarded; stops the slices and drops their manager |
| AbilityThreads.Ability.HandleLifecycleTransaction | frameworks/ability_lite/src/ability_thread.cpp:315-354 | the calls that lead to a target state |
| AbilityThreads.AbilityThread.PerformTransactAbilityState | frameworks/ability_lite/src/ability_thread.cpp:212-258 | creates, drives, reports and forgets an ability |
| AbilityThreads.AbilityThread.Serve | frameworks/ability_lite/src/ability_thread.cpp:212-258 | any sequence of state messages, presents and terminations ends in the abilities, reports and slices the run of the model ends in; no guard is tripped |
| AbilityThreads.AbilityThread.PresentSlice | frameworks/ability_lite/src/ability_slice.cpp:33-40 | an ability's slice presents another |
| AbilityThreads.AbilityThread.TerminateSlice | frameworks/ability_lite/src/ability_slice.cpp:42-49 | an ability's slice terminates |
| WantUri.RoundTrip | frameworks/want_lite/src/want.cpp:354-459 | printing and parsing gives back device, bundle and ability, null as empty, if and only if no field holds a separator and the text is at most 65535 characters |
| WantUri.ParsePrintParse | frameworks/want_lite/src/want.cpp:354-459 | parsing, printing and parsing an accepted text again gives the same fields if and only if they print to at most 65535 characters, whatever stood after "#Want" or "end" and however long the text was; every text that short is such a one |
| WantUri.AcceptsExactly | frameworks/want_lite/src/want.cpp:354-408 | a text is accepted, and gives these fields, exactly if it is "#Want" up to the first ";", the three properties in order with fields free of ";", and "end", whatever follows |
| WantUri.FullText | frameworks/want_lite/src/want.cpp:410-459 | the text printed for every element |
| WantUri.ParsedFacts | frameworks/want_lite/src/want.cpp:354-408 | what is parsed holds no separator and prints no longer than the text |
| WantUri.ParsePrinted | frameworks/want_lite/src/want.cpp:354-408 | the printed fields are found again from any property on |
| WantUri.WantParseUri | frameworks/want_lite/src/want.cpp:354-408 | the parser, with its null and malformed inputs |
| WantUri.ParseProperties | frameworks/want_lite/src/want.cpp:363-398 | the cursor loop reads what the model reads |
| WantUri.WantToUri | frameworks/want_lite/src/want.cpp:410-459 | the printer, with its 16-bit length |
| WantUri.PrintProperties | frameworks/want_lite/src/want.cpp:412-446 | the printing loop |
| WantTlv.RunsAreUniquelyDecodable | frameworks/want_lite/src/want.cpp:153-243 | the bytes of a run of SetIntParam and SetStrParam, with parameters whose copies stay inside their buffer, decode to exactly its accepted parameters, and two such runs give the same data exactly when those agree, up to 65535 bytes |
| WantTlv.DataIsConcatenation | frameworks/want_lite/src/want.cpp:153-174 | after such a run the data of a Want is the concatenation of its accepted parameters' nested records |
| WantTlv.UniquelyDecodable | frameworks/want_lite/src/want.cpp:98-151 | two parameter sequences never give the same bytes |
| WantTlv.DecodeEncode | frameworks/want_lite/src/want.cpp:98-151 | every accepted parameter is read back, in order |
| WantTlv.AppendsExactlyWhenItFits | frameworks/want_lite/src/want.cpp:153-174 | a call appends its record exactly when the new length fits 16 bits |
| WantTlv.CopiesStayInside | frameworks/want_lite/src/want.cpp:134-151 | the two copies stay inside the buffer of 8-bit length if and only if the records' lengths add up to less than 256 |
| WantTlv.LongPairDoesNotFit | frameworks/want_lite/src/want.cpp:134-151 | a key of 200 bytes with a value of 100: a buffer of 48 bytes for copies of 304 |
| WantTlv.EntryBytes | frameworks/want_lite/src/want.cpp:98-151 | the bytes of an accepted parameter: tags 97, 13, 6 or 13, each with its length, an int with its highest byte first |
| WantTlv.AcceptedExactly | frameworks/want_lite/src/want.cpp:98-243 | which parameters are accepted, by the lengths of key and value |
| WantTlv.PairReadBack | frameworks/want_lite/src/want.cpp:134-151 | key and value are read back from one pair |
| WantTlv.BigEndianReadBack | frameworks/want_lite/src/want.cpp:192-196 | four big-endian bytes give the number back |
| WantTlv.CopyInto | frameworks/want_lite/src/want.cpp:98-126 | a bounded copy changes exactly the bytes it copies |
| WantTlv.EncapTlv | frameworks/want_lite/src/want.cpp:98-126 | succeeds exactly for values of 1 to 253 bytes |
| WantTlv.CombineKeyValueTlv | frameworks/want_lite/src/want.cpp:134-151 | joins two records under the pair tag when they fit |
| WantTlv.IntBytes | frameworks/want_lite/src/want.cpp:192-196 | the shifting loop gives the big-endian bytes |
| WantTlv.Want.UpdateWantData | frameworks/want_lite/src/want.cpp:153-174 | appends, with the 16-bit length |
| WantTlv.Want.SetIntParam | frameworks/want_lite/src/want.cpp:176-213 | appends the parameter exactly when it is accepted |
| WantTlv.Want.SetStrParam | frameworks/want_lite/src/want.cpp:215-243 | appends the parameter exactly when it is accepted |
| WantTlv.Want.SetParams | frameworks/want_lite/src/want.cpp:176-243 | a run of calls ends in the data of the model, and each answers whether its parameter was accepted |
| WantTlv.Want.SetWantData | frameworks/want_lite/src/want.cpp:266-281 | replaces the data |

## Left out

Of the mini-system scheduler:

- Scheduler.Perform: assumes one permanent ability, home, which is installed and not registered as temporary, and a list capacity of at least 3
- SchedulerRuns.Legal: runs use at most 65534 tokens, because the token counter starts over then and tokens could repeat, and none of their executed requests is a TERMINATE_APP for home while home is on top; what that one does is proved apart
- AbilityRecordManagers.AbilityRecordManager.ForceStopBundle: the list has a second record when the one on top is stopped, because the code dereferences null otherwise
- AbilityRecordManagers.AbilityRecordManager.OnDestroyDone: the same for the acknowledged end of a terminated ability
- AbilityRecordManagers.AbilityRecordManager.HandleTransactionDone: only messages that were sent are acknowledged
- AbilityRecordManagers.AbilityRecordManager.SchedulerLifecycleDone: the same, and no other message is in flight then, because a thread answers its messages one at a time
- AbilityRecordManagers.AbilityRecordManager.HandleRequest: under the two limits of SchedulerRuns.Legal
- AbilityRecordManagers.AbilityRecordManager.StartLauncher: before the first start or with home on the list; it is not called after home was lost
- AbilityRecordManagers.AbilityRecordManager.ProcessMessage: the two callbacks of a message, one right after the other, are one step
- the single-task build, which drives a native launcher by callbacks and follows another protocol
- failures of allocation, thread creation and queue sends, after some of which the flag stays set or the queue is not drained
- starts on remote devices, and calls that bypass the dispatcher's message queue
- observers, notifications, application paths, and start attempts' log codes
- the start-up states and message-queue deletion of the JS app thread; its messages are handled in order
- two branches of StartAbility and PreCheckStartAbility for a bundle found only after it was not found
- JS bundles always have a path; the query then never fails for a JS bundle without one

Of the small-system service:

- MissionStacks.RunsStayWellFormed: the next and previous pointers between pages, acyclicity of the links between missions, and at most one active page are not claimed, because the code does not keep them
- MissionStacks.Generated: bundle names are not null, list capacities of 10240 are not reached, and the back of an empty list is null
- AbilityTasks.AbilityTask.StartPage: two records are compared by what identifies them, token and names, instead of by address; lifecycle messages to pages and their effects on page states are not modelled
- AbilityMissionStacks.AbilityMissionStack.PushTopMissionRecord: for a bundle without a mission and a mission without a link, as every caller has it
- AbilityMissionStacks.AbilityMissionStack.RemoveMissionOf: the connections of the pages it clears are the part of AbilityTask.ClearApp
- AbilityStackManagers.AbilityMgrContext.ClearAbilityStack: the services and connections it also clears are the part of AbilityTask.ClearApp
- AbilityStackManagers.AbilityMgrContext.FindPageAbility: its fall-back to the service records is the part of AbilityTask.Stop
- AbilityConnectMissions.AbilityConnectMission.StopTask: the decision to exit is the part of AbilityTask.Stop
- AbilityTasks.AbilityTask.ClearApp: the activation of the page that is on top afterwards, which is a lifecycle message to it
- AppExits.Exit: the application record is attached and the exit message is delivered
- ServiceMissions.Run: safety only; whether a disconnection ever completes depends on acknowledgements that can race
- ServiceMissions.StartService: one token counter serves pages and services; each model counts its own and leaves gaps for the other's, and AppExits.Run joins the two counters
- permission checks, app spawning, permission loading, IPC registration, dump and the command-line tool
- GetPrevPageAbility and the activation of the page to return to

Of the application side:

- AbilityThreads.AbilityThread.PerformTransactAbilityState: base-class callbacks without re-entrancy; an exit(-1) ends the process and is a failed result
- AbilitySliceSchedulers.AbilitySliceScheduler.AddAbilitySlice: root views and windows shown by active slices
- AbilityThreads.AbilityThread.Serve: the slices a message is about are found by number among those the ability has met, or are new, as an application that keeps its slices would pass them
- AbilityLifecycles.SlicesStayInOrder: a slice belongs to one ability, and a deleted slice is not presented again
- service connections on the application's side, event handlers and loaders

Of the codecs:

- WantTlv.CombineKeyValueTlv: only for records whose lengths add up to less than 256; beyond that the code's 8-bit length wraps and its copies leave their buffer (CopiesStayInside), so what follows is not defined
- WantTlv.Want.SetIntParam: the same for keys that long
- WantTlv.Want.SetStrParam: the same for keys and values that long
- WantTlv.Want.SetParams: the same for each parameter of a run
- WantTlv.DataIsConcatenation: the same, and so RunsAreUniquelyDecodable
- WantTlv.CopyInto: the bounded copy of the C library, which also fails for an empty destination, is modelled by its result; the bytes it clears on failure are freed unread
- WantTlv.Want: the fields other than data; Memdup gives null for no bytes
- serialisation of a Want to an IPC message
