# MonHop, verified

MonHop keeps a group of computers agreed on one display layout and lets one keyboard and mouse cross between
them. This project models its hardest parts in Dafny 4.11 and proves what they promise, for every input and every
run.

- **The sharing network thread** (`SharingNet*.dfy`, `GroupPlans`, `NetworkState`, `NetworkThread`). One current-thread
  runtime runs a command loop, connect and link tasks, hub runs and event pumps. Code between two awaits is atomic, so
  the thread is an interleaving of atomic steps; while a handler runs nothing else on the thread moves. `SharingNet` is
  that state machine, `SharingNetTheorems` states the guarantees over every run, and `SharingNetRuns` holds a concrete
  run that shows where a stronger guarantee would be false. `GroupPlans` adds the controller that numbers the group's
  records and sends them. `NetworkState.State` holds the thread's fields and the code that updates them;
  `NetworkThread.Thread` has one method for each step, and its invariant says that whatever was called in whatever
  order is a run, so the guarantees hold of the object.
- **The group record** (`Records`, `RecordCheck`, `Crossings`, `Stamps`, `CanonicalForm`, `Converging`). Validation,
  what it makes of the directed links, the order on stamps, the canonical form behind the content digest, and what
  exchanging records in pairs converges to.
- **Rebuilding a record for the displays shown now** (`Matching`, `Adapting`, `AdaptLoops`, `Surviving`, `Refitting`,
  `Rejoining`, `AdaptTheorems`, and the worked examples `Desks`, `ReusedId`, `LooseId`), and **which end of a link
  proposes** (`LinkDecision`).
- **The arrangement library** (`EntryNames`, `Library`, `LibraryTheorems`, `RememberedOnce`).
- **Pairing** (`Pairing`, `PairingRuns`, `PairingTheorems`, `PairingObject`, `StopSwitch`, `PairingStops`): user actions, a timer and a
  worker thread race on shared state. `PairingObject.PairingController` is the object they share, with one method for
  each step, and `PairingStops` runs it together with the stop switch of every attempt.
- **Arithmetic and codecs**: `Calendar`, `Png`, `Edwards`, `Der`.

Conventions. Coordinates are reals. A computer is a number for the network thread and a fingerprint for records.
JSON text and the content digest are functions that the theorems quantify over; all that is asked of them is that no
two crossings of one record are written alike and no two contents among the records at hand have one digest, which
some functions do for every list of records (`FaithfulEncodingsExist`). The pointer topology every
member must be able to build and the size of a record's JSON text are one predicate, `admits`, that every theorem
quantifies over. What the transport, the clock, the user or the operating system answers is part of the step.

Where a promise is not met by the code, the code is modelled as it is:

- A hub may report a newer session's end before an older one's of the same computer: its teardown reports queued
  arrivals before seated links (crates/monhop-transport/src/session_hub.rs). `ReportIsCreditedRightIffInOrder` gives
  the exact condition and `LateReportEndsTheReplacement` a run without it.
- A rebuild keeps a crossing whose display is gone when a surviving display takes over its id, and drops one whose
  display survives when its id is written with leading zeros, which validation accepts. `KeepsExactlyTheSurvivors`
  gives the exact condition. `ReusedIdKeepsADeadCrossing` has a valid record, sound snapshots and a valid result
  where every crossing kept is a dead one; `LooseIdDropsALivingCrossing` has a valid record that writes a display's
  id as "02", every display surviving, and that crossing gone.
- A waiting control switch is proposed whatever the stamps, so both ends of a link may propose:
  `BothProposeExactlyWithAFlip` says exactly when, `FlipsCollide` shows it.
- The comment on the order of display ids says numbers come first; in the code they come last, and the model
  follows the code.

## Model

| member | source | states |
|---|---|---|
| `SharingNetTheorems.EverySessionEndsOnce` | apps/monhop-desktop/src/sharing_hub.rs:1297-1404 | in every reachable state each session a hub took is live or has been delivered exactly one end; per hub and computer, unreported sessions equal owed entries plus one if the current session is that hub's; once no pump runs, every session has ended once |
| `SharingNetTheorems.ReportIsCreditedRightIffInOrder` | apps/monhop-desktop/src/sharing_hub.rs:1361-1404 | while reports came in order, what is owed or live is what the hub has unreported, a report settles the oldest of it, and it is credited to its own session if and only if it is in order too |
| `SharingNetTheorems.ReportEndsItsOwnSession` | apps/monhop-desktop/src/sharing_hub.rs:1484-1519 | with reports in order, a report ends the live session if and only if it is that session's own; a replaced session's report leaves its replacement alone |
| `SharingNetRuns.LateReportEndsTheReplacement` | apps/monhop-desktop/src/sharing_hub.rs:1314-1335 | a run in which a report out of order ends a session that is not its own |
| `SharingNetReports.ReportSettlesOldest` | apps/monhop-desktop/src/sharing_hub.rs:1374-1404 | whatever a report says, it settles exactly the oldest open session of that computer with that hub and nothing else, and there always is one |
| `SharingNetTheorems.NoStrandedPort` | apps/monhop-desktop/src/sharing_hub.rs:1529-1549 | at every yield point, a bound endpoint with nothing enabled, connecting, linked or in session has a Tick queued, or the loop is inside a handler that still ends tasks, settles, binds or tears down |
| `SharingNetTheorems.OneHubAtATime` | apps/monhop-desktop/src/sharing_hub.rs:1191-1293 | at most one hub run is unfinished; the hub flag is up exactly while one is, the native flag implies one is, and a session of the current hub implies the native flag |
| `SharingNetTheorems.NoLostWakeup` | apps/monhop-desktop/src/sharing_hub.rs:1448-1483 | a connect that waits for a hub to end and has not been woken waits while a hub run is unfinished |
| `SharingNetTheorems.QuietIsFree` | apps/monhop-desktop/src/sharing_hub.rs:261-268 | no command in flight, unbound and no hub means no endpoint, no hub run, no connect and no link task |
| `SharingNetTheorems.QuietStays` | apps/monhop-desktop/src/sharing_hub.rs:509-519 | from a quiet state every run without a new command stays quiet |
| `SharingNetTheorems.QuietReadsAreASnapshot` | apps/monhop-desktop/src/sharing_hub.rs:261-268 | the three flags read one after the other, at three different moments, are as good as one snapshot when no command is sent meanwhile |
| `SharingNetTheorems.RetiredAlone` | apps/monhop-desktop/src/sharing_hub.rs:1631-1655 | whenever an endpoint is retired no task is left that holds it |
| `SharingNetTheorems.TasksHoldTheEndpoint` | apps/monhop-desktop/src/sharing_hub.rs:1104-1179 | every unfinished connect and link task holds the endpoint that is bound now |
| `SharingNetTheorems.PlanNeverOlder` | apps/monhop-desktop/src/sharing_hub.rs:1017-1041 | once there is a plan there always is one, and its epoch never decreases |
| `SharingNetTheorems.SessionsUnderTheirHub` | apps/monhop-desktop/src/sharing_hub.rs:1434-1483 | every session handed to the current hub was connected under that hub's agreement, with no condition on epochs |
| `GroupPlans.HubIsTheCurrentPlans` | apps/monhop-desktop/src/sharing.rs:2101-2161 | for every run of the controller, its workers and the thread, in whatever order plans are made, kept, noted as the newest, sent late, delivered to a thread that starts and used, a hub that runs is under the current plan's record; no hypothesis on epochs, through the first 2^64 - 1 changes of the record |
| `GroupPlans.AlwaysFair` | apps/monhop-desktop/src/sharing.rs:2101-2161 | in every such run the epoch counts the changes of the record, and every plan made and kept, and the newest noted, carries the record its epoch stands for |
| `GroupPlans.AllotmentGrows` | apps/monhop-desktop/src/sharing.rs:2108-2118 | what an epoch stands for never changes later in the run, so no epoch stands for two records |
| `GroupPlans.HubPartsExactly` | apps/monhop-desktop/src/sharing_hub.rs:1448-1483 | for every state whose hub is the current plan's and every step of the thread, the step parts them if and only if it starts a hub for a connect whose plan has the current epoch and another record |
| `NetworkThread.ObjectKeepsItsPromises` | apps/monhop-desktop/src/sharing_hub.rs:1191-1404 | whatever methods of the thread object were called before: at most one hub run is unfinished, the hub flag is up exactly while one is, the native flag means what it says, a quiet thread holds no task and no endpoint, an endpoint is retired alone, and every session not live has had exactly one end |
| `NetworkThread.ObjectStrandsNoPort` | apps/monhop-desktop/src/sharing_hub.rs:1529-1549 | at every yield point the object holds no bound endpoint without a use, a queued Tick or a handler that will let go of it |
| `NetworkThread.ObjectsPlanNeverOlder` | apps/monhop-desktop/src/sharing_hub.rs:1017-1041 | the object's plan is at least as new as at every earlier moment of its life |
| `NetworkThread.Thread.Send` | apps/monhop-desktop/src/sharing_hub.rs:281-296 | a command sent is counted in flight and queued; the object stays a run |
| `NetworkThread.Thread.Receive` | apps/monhop-desktop/src/sharing_hub.rs:994-1014 | taking the next command and running its handler up to the first await is the machine's step for some task ended first; the object stays a run |
| `NetworkThread.Thread.Advance` | apps/monhop-desktop/src/sharing_hub.rs:1017-1179 | each later stretch of a handler, adopting, binding, settling or tearing down, is the machine's step; the object stays a run |
| `NetworkThread.Thread.Resume` | apps/monhop-desktop/src/sharing_hub.rs:1631-1673 | a handler that awaited a task, a hub or a retirement goes on as the machine does; the object stays a run |
| `NetworkThread.Thread.Drop` | apps/monhop-desktop/src/sharing_hub.rs:1631-1655 | an aborted task is gone; the object stays a run |
| `NetworkThread.Thread.FailConnect` | apps/monhop-desktop/src/sharing_hub.rs:1421-1444 | a connect that fails is over and asks for a Tick; the object stays a run |
| `NetworkThread.Thread.Admit` | apps/monhop-desktop/src/sharing_hub.rs:1448-1527 | an admission that ends, waits, joins or starts a hub keeps the object a run |
| `NetworkThread.Thread.EndLink` | apps/monhop-desktop/src/sharing_hub.rs:1578-1605 | a link that ends asks for a Tick; the object stays a run |
| `NetworkThread.Thread.CloseHub` | apps/monhop-desktop/src/sharing_hub.rs:1257-1294 | a hub that closes itself keeps the object a run |
| `NetworkThread.Thread.ReturnRun` | apps/monhop-desktop/src/sharing_hub.rs:1257-1294 | a returned hub run keeps the object a run: the count and the flags go down, waiting connects wake |
| `NetworkThread.Thread.StartPeer` | apps/monhop-desktop/src/sharing_hub.rs:1300-1313 | only the current hub's report says that native input has started; the object stays a run |
| `NetworkThread.Thread.EndPeer` | apps/monhop-desktop/src/sharing_hub.rs:1314-1335 | an end report keeps the object a run: it settles what is owed first, else the live session |
| `NetworkThread.Thread.IdleNative` | apps/monhop-desktop/src/sharing_hub.rs:1336-1343 | a report that native input rests keeps the object a run |
| `NetworkThread.Thread.EndStream` | apps/monhop-desktop/src/sharing_hub.rs:1346-1358 | the end of a hub's events keeps the object a run: every session of that hub ends once |
| `NetworkState.State.TakeOwed` | apps/monhop-desktop/src/sharing_hub.rs:1361-1370 | tells whether a report was owed by that hub for that computer, and takes exactly the first such entry out |
| `NetworkState.State.EndSession` | apps/monhop-desktop/src/sharing_hub.rs:1374-1404 | ends the session if it is that hub's, and drops the native flag to whether native input started when it was the last |
| `NetworkState.State.StreamEnds` | apps/monhop-desktop/src/sharing_hub.rs:1346-1358 | every session of the hub ends and every report it owes is dropped, and nobody else's |
| `NetworkState.State.IsIdle` | apps/monhop-desktop/src/sharing_hub.rs:940-949 | true if and only if no computer is enabled, in session, connecting or linked |
| `NetworkState.State.Drain` | apps/monhop-desktop/src/sharing_hub.rs:1631-1655 | the handles taken are every computer's connects and links, and the computers keep everything else |
| `NetworkThread.SessionsAreDistinct` | apps/monhop-desktop/src/sharing_hub.rs:1484-1519 | in every reachable state no two computers are in one session, which closing a hub's stream relies on |
| `RecordCheck.CheckRecord` | apps/monhop-desktop/src/group_record.rs:445-550 | the check as it runs, owner map and loops, passes a record if and only if it is valid |
| `RecordCheck.OwnersOf` | apps/monhop-desktop/src/group_record.rs:456-474 | the owner map is filled if and only if every member is valid, they are in order and no display number is shown twice; then it maps every number to the member that shows it |
| `RecordCheck.NumbersAreNames` | apps/monhop-desktop/src/group_record.rs:475-477 | a valid member list owns as many display numbers as it has display ids |
| `Crossings.CheckCrossings` | apps/monhop-desktop/src/group_record.rs:521-545 | the loops over the links accept if and only if every crossing works both ways, none overlap on an edge, and each joins two computers |
| `Crossings.ReversalIsAnInvolution` | apps/monhop-desktop/src/group_record.rs:1172-1179 | among checked links each has exactly one reverse, which is another link, and whose reverse it is |
| `Crossings.HalfTheLinksAreTheCrossings` | apps/monhop-desktop/src/group_record.rs:521-530 | there are exactly twice as many links as crossings, a crossing being a link with its reverse |
| `Crossings.ValidRecordsCount` | apps/monhop-desktop/src/arrangement_library.rs:463 | for every record that passes its check, half the number of links, as the view shows it, is the number of crossings |
| `Crossings.OneWayOut` | apps/monhop-desktop/src/group_record.rs:531-541 | a point of a display's edge is covered by at most one link |
| `Stamps.CompareIsTotalOrder` | apps/monhop-desktop/src/group_record.rs:77-90 | revision, then lower author, then lower content is a total order whose only ties are equal stamps |
| `Stamps.MergeIsTheGreater` | apps/monhop-desktop/src/group_record.rs:596-605 | the winner of two copies is one of them, at least as new as both, and both orders of merging give its stamp |
| `Stamps.StampsNeverFall` | apps/monhop-desktop/src/group_record.rs:67-90 | for any number of computers and any schedule of pairwise exchanges each held stamp never decreases and every held copy is one of the originals |
| `Stamps.GreatestStampWins` | apps/monhop-desktop/src/group_record.rs:67-90 | every computer reached by a time-ordered path from a holder of the greatest stamp ends with that stamp |
| `Converging.ReachedComputersAgree` | apps/monhop-desktop/src/group_record.rs:587-605 | with a text and a digest that tell apart what the original records say, such a computer ends with one of the original records, with the same content as the holder's up to order, names and stamp |
| `Converging.EqualStampsAgree` | apps/monhop-desktop/src/group_record.rs:596-605 | valid records with equal stamps have equal content, if their crossings are written apart and their two contents do not collide in one digest |
| `Converging.FaithfulEncodingsExist` | apps/monhop-desktop/src/group_record.rs:552-585 | for every list of records there are a text and a digest that tell their crossings and their contents apart, so what the two lemmas above ask can be met |
| `CanonicalForm.SameFormExactlyWhenSameContent` | apps/monhop-desktop/src/group_record.rs:552-585 | two valid records have one canonical form if and only if they agree up to the order of displays, links, positions and hidden ids, display names, revision and author, whenever no two crossings of the first are written alike |
| `CanonicalForm.BuildContent` | apps/monhop-desktop/src/group_record.rs:557-585 | the form built by sorting copies and clearing names member by member is the canonical form |
| `CanonicalForm.DisplayOrderIsTotal` | apps/monhop-desktop/src/group_record.rs:1185-1191 | the order of display ids is total and ties only identical texts; ids that are no number come first, numbers by value |
| `LinkDecision.AtMostOneProposes` | apps/monhop-desktop/src/lifecycle.rs:893-940 | with true summaries, distinct DeviceIds and no control switch waiting, at most one end of a link proposes, whatever else holds of either |
| `LinkDecision.ExactlyOneProposes` | apps/monhop-desktop/src/lifecycle.rs:893-940 | and exactly one does when either holds a record naming both, neither is busy and both can propose something |
| `LinkDecision.SomeoneProposesExactly` | apps/monhop-desktop/src/lifecycle.rs:879-954 | some end proposes if and only if the end that acts is not busy, its displays rest, and its record fits or can be rebuilt |
| `LinkDecision.AsIsProposalAgrees` | apps/monhop-desktop/src/lifecycle.rs:926-940 | once both ends keep the greater stamp of an as-is proposal they hold the same content |
| `LinkDecision.BothProposeExactlyWithAFlip` | apps/monhop-desktop/src/lifecycle.rs:899-940 | for any two ends that met, both propose if and only if a control switch waits on one of them and each end, for itself, is not busy, holds a record and can send: with a switch, one that fits or, once its displays rest, can be rebuilt; without, being the end that acts, with its displays at rest and something to propose |
| `LinkDecision.FlipsCollide` | apps/monhop-desktop/src/lifecycle.rs:899-910 | two ends that both propose because one has a control switch waiting |
| `Matching.PairDisplays` | apps/monhop-desktop/src/sharing_preferences.rs:1272-1307 | the two passes over the remembered displays compute the pairing |
| `Matching.PairsExactly` | apps/monhop-desktop/src/sharing_preferences.rs:1255-1307 | two displays pair if and only if both lists report their identity for one display and it is the same, or neither identity is claimed, the ids are equal and no two identities differ: the order of the lists does not matter |
| `Matching.PairingIsOneToOne` | apps/monhop-desktop/src/sharing_preferences.rs:1269-1307 | no remembered display and no live display is in two pairs |
| `Matching.AsManyPairs` | apps/monhop-desktop/src/sharing_preferences.rs:1269-1307 | as many displays pair off whichever of the two lists is the remembered one |
| `AdaptLoops.RebuildFor` | apps/monhop-desktop/src/group_record.rs:790-893 | the rebuild as it runs, list by list, is `Adapt` |
| `AdaptLoops.PlaceChanged` | apps/monhop-desktop/src/group_record.rs:835-860 | the nested loops that drop and push positions place every changed block |
| `AdaptTheorems.AdaptTouchesOnlyTheChanged` | apps/monhop-desktop/src/group_record.rs:861-893 | a rebuild is valid, gives each changed member exactly what it shows, and leaves other members, control, version, revision and author alone |
| `AdaptTheorems.AdaptKeepsTheSurvivors` | apps/monhop-desktop/src/group_record.rs:817-828 | the crossings of a tidy rebuild are exactly the remapped ones whose two displays survive, in order |
| `AdaptTheorems.AdaptFitsAndIsIdempotent` | apps/monhop-desktop/src/group_record.rs:697-720 | the result fits the link it was rebuilt for, and rebuilding it again gives it back with nothing left out |
| `AdaptTheorems.SameNewsSameRebuild` | apps/monhop-desktop/src/group_record.rs:786-796 | two links that know the same changes rebuild the same record: known displays count only through the changed members |
| `AdaptTheorems.NothingLeftOut` | apps/monhop-desktop/src/group_record.rs:823-828 | a rebuild not marked as leaving something out has every crossing, under its displays' new ids |
| `AdaptTheorems.BlocksKeepTheirPlace` | apps/monhop-desktop/src/group_record.rs:798-860 | every display a changed computer shows and does not hide has one position, its origin moved as its computer's block was |
| `Refitting.KeepsExactlyTheSurvivors` | apps/monhop-desktop/src/group_record.rs:807-828 | the crossings carried over are exactly those whose displays survive if and only if no crossing with a gone end is taken for another display's and every surviving end is written as its computer lists it |
| `Refitting.NoReuseIsTidy` | apps/monhop-desktop/src/group_record.rs:807-828 | with ends written as listed, it is enough that no gone display's id is in use again |
| `Rejoining.CrossingsStillHold` | apps/monhop-desktop/src/group_record.rs:823-828 | after a tidy rebuild with sound members the kept crossings parse, work both ways, do not overlap and join two computers |
| `ReusedId.ReusedIdKeepsADeadCrossing` | apps/monhop-desktop/src/group_record.rs:807-828 | a valid record whose valid rebuild keeps both links of a crossing although the display at one end is gone |
| `LooseId.LooseIdDropsALivingCrossing` | apps/monhop-desktop/src/group_record.rs:807-828 | a valid record with a link that writes a listed id as "02": both its displays survive, and the valid rebuild has only the other crossing |
| `EntryNames.LaterCandidate` | apps/monhop-desktop/src/arrangement_library.rs:326-334 | every numbered attempt gives a legal name that ends in its number |
| `EntryNames.OneEnding` | apps/monhop-desktop/src/arrangement_library.rs:326-331 | no name ends in two numbers, so numbered attempts give different names |
| `EntryNames.NormalizedIsLegal` | apps/monhop-desktop/src/arrangement_library.rs:506-516 | normalizing a normalized name changes nothing |
| `EntryNames.BaseReads` | apps/monhop-desktop/src/arrangement_library.rs:310-325 | the base of a generated name for two or more computers is one line and has ink |
| `LibraryTheorems.FreeNameExists` | apps/monhop-desktop/src/arrangement_library.rs:310-340 | with fewer than 32 entries for a set of computers one of the 33 attempts is free |
| `LibraryTheorems.RememberingKeepsTheLibrary` | apps/monhop-desktop/src/arrangement_library.rs:227-260 | remembering a valid record in a sound library keeps it sound and never lacks a name; the record comes last, after exactly the entries that are not remembered for its own monitors, in order, or, where 32 others fill the set, after all but the one remembered longest ago; it is refused if and only if 32 user-named entries fill the set, and answers no if and only if it is there already, and then nothing changes |
| `RememberedOnce.SameMonitorsBack` | apps/monhop-desktop/src/group_record.rs:742-749 | for valid records, having the same monitors reads the same from either side |
| `RememberedOnce.RememberingKeepsOne` | apps/monhop-desktop/src/arrangement_library.rs:224-260 | one remembered entry for each set of computers and their monitors: no two remembered entries have the same monitors, and remembering keeps that |
| `RememberedOnce.SavingKeepsOne` | apps/monhop-desktop/src/arrangement_library.rs:203-222 | saving keeps that too, a saved entry being the user's |
| `RememberedOnce.ForgettingKeepsOne` | apps/monhop-desktop/src/arrangement_library.rs:345-375 | so does forgetting |
| `RememberedOnce.EveryRunKeepsTheLibrary` | apps/monhop-desktop/src/arrangement_library.rs:203-375 | after any run of saving, remembering and forgetting valid records, refused or not, a library is sound and remembers one entry for each set of computers and their monitors |
| `Library.ArrangementLibrary.RememberAutomatically` | apps/monhop-desktop/src/arrangement_library.rs:227-260 | the library and the answer after remembering are `Remembered` of the library before |
| `Library.ArrangementLibrary.RememberedName` | apps/monhop-desktop/src/arrangement_library.rs:310-340 | the loop over attempts returns the first free candidate |
| `Library.ArrangementLibrary.Upsert` | apps/monhop-desktop/src/arrangement_library.rs:205-222 | the library and the answer after saving are `Upserted` of the library before |
| `LibraryTheorems.SavingKeepsTheLibrary` | apps/monhop-desktop/src/arrangement_library.rs:205-222 | saving keeps a sound library sound and every entry of another name or set; it is refused exactly for an illegal name or a new name in a full set, and then nothing changes |
| `Library.ArrangementLibrary.RemoveFor` | apps/monhop-desktop/src/arrangement_library.rs:345-375 | an illegal name is refused; else the entry meant goes and nothing else changes, or the answer is unknown if and only if none is meant: the only entry of that name made with that computer, or else the first such entry of a pair |
| `Library.ChosenIsMeant` | apps/monhop-desktop/src/arrangement_library.rs:353-371 | filtering and then searching the indices finds exactly the entry meant, and there is at most one |
| `LibraryTheorems.ForgettingKeepsTheRest` | apps/monhop-desktop/src/arrangement_library.rs:345-375 | forgetting takes out one entry of that name made with that computer, or nothing with an error |
| `LibraryTheorems.ForgettingFindsIt` | apps/monhop-desktop/src/arrangement_library.rs:352-371 | with the set of computers given, the entry of that name is the one taken out |
| `Library.ArrangementLibrary.Migrate` | apps/monhop-desktop/src/arrangement_library.rs:421-453 | the migrated library is `Migrated` of the old entries |
| `LibraryTheorems.CarryingOverIsSound` | apps/monhop-desktop/src/arrangement_library.rs:419-453 | the migrated library is sound |
| `LibraryTheorems.CarryingOverKeeps` | apps/monhop-desktop/src/arrangement_library.rs:419-453 | an entry that converts is dropped only for one of its name and set, or for 32 of its set |
| `LibraryTheorems.Validate` | apps/monhop-desktop/src/arrangement_library.rs:184-201 | the loop with a set of names per set of computers accepts a library if and only if it is sound |
| `Pairing.PairingState.BeginAttempt` | apps/monhop-desktop/src/pairing.rs:661-688 | an attempt begins if and only if an identity is read and the phase is settled; then its id is above every earlier one, it is current and busy, and no code, peer, badge or storage outcome of the last is left to see; else nothing changes |
| `Pairing.PairingState.FinishAttempt` | apps/monhop-desktop/src/pairing.rs:692-736 | afterwards nothing is busy or stopping; a current attempt shows paired, or failed and is no longer current; of any other only the stopping phase ends, in ready with nothing of the attempt left or in failed when storage is unverified, and a view that was not stopping changes in nothing but busy |
| `Pairing.PairingState.Cancel` | apps/monhop-desktop/src/pairing.rs:588-605 | no attempt is current and no code shows; the view is stopping exactly while a worker is busy, given that it said stopping only then before; not busy and with an identity, it is ready with nothing of an attempt left |
| `PairingTheorems.CodeOnlyWhileShowing` | apps/monhop-desktop/src/pairing.rs:540-605 | over every interleaving a visible code is its own attempt's, which is current, in the showing phase, with its worker listening |
| `PairingTheorems.WorkersWriteTheirOwnAttempt` | apps/monhop-desktop/src/pairing.rs:872-946 | at every worker step it is the only worker and the last attempt's; if an attempt is current it is its own, and else it changes the view at most by ending the stopping phase |
| `PairingTheorems.StoppingMeansAWorkerRuns` | apps/monhop-desktop/src/pairing.rs:425-435 | the view is busy if and only if a worker has not reported its end, and stopping only while it is |
| `PairingTheorems.ViewIsTheLastAttempts` | apps/monhop-desktop/src/pairing.rs:661-736 | a peer or badge in the view is the last attempt's |
| `PairingTheorems.SwitchIsTheWorkers` | apps/monhop-desktop/src/pairing.rs:588-593 | in every run the stop switch the controller has at hand is the running worker's own |
| `PairingStops.JoinsOnlyTheStopped` | apps/monhop-desktop/src/pairing.rs:540-550 | however cancels, the timer, attaching and everything else interleave, a join waits only for a worker that was told to stop: its switch is cancelled with a reason, and an endpoint it attached is revoked |
| `PairingStops.CancelStopsTheWorker` | apps/monhop-desktop/src/pairing.rs:588-605 | once a cancel has gone through, every worker that ran is told to stop, at every later moment of the run |
| `PairingObject.ObjectKeepsItsPromises` | apps/monhop-desktop/src/pairing.rs:425-736 | whatever methods of the controller object were called before: a code shows only for its own current attempt in the showing phase, the view is busy exactly while a worker has not reported its end and stopping only then, there is never a second worker, and the switch at hand is the worker's own |
| `PairingObject.PairingController.Proceed` | apps/monhop-desktop/src/pairing.rs:437-652 | each stretch of the one operation, opening, showing, entering or forgetting, keeps the object a run: a worker that still runs refuses it, and a shown code is cancelled and its worker joined before another starts |
| `PairingObject.PairingController.Cancel` | apps/monhop-desktop/src/pairing.rs:588-605 | a cancel at any moment keeps the object a run |
| `PairingObject.PairingController.Begin` | apps/monhop-desktop/src/pairing.rs:437-612 | an operation begins only when no other holds the lock; the object stays a run |
| `PairingObject.PairingController.ShowCode` | apps/monhop-desktop/src/pairing.rs:953-990 | a worker's code reaches the view only while its attempt is current; the object stays a run |
| `PairingObject.PairingController.Reach` | apps/monhop-desktop/src/pairing.rs:872-946 | a worker's progress reaches the view only while its attempt is current; the object stays a run |
| `PairingObject.PairingController.Finish` | apps/monhop-desktop/src/pairing.rs:564-570 | the worker's report of its end keeps the object a run |
| `StopSwitch.StopReachesTheEndpoint` | apps/monhop-desktop/src/pairing.rs:314-330 | however any number of stops interleave with attaching, once one has returned an attached endpoint is revoked |
| `StopSwitch.FirstReasonIsKept` | apps/monhop-desktop/src/pairing.rs:314-322 | a stop reason once set never changes, and a revoked endpoint stays revoked |
| `StopSwitch.FirstOfferDecides` | apps/monhop-desktop/src/pairing.rs:314-322 | the reason kept is that of the stop that offered one first |
| `StopSwitch.PairingControl.Stop` | apps/monhop-desktop/src/pairing.rs:314-322 | one stop cancels, keeps an earlier reason, and revokes what is attached |
| `StopSwitch.PairingControl.Attach` | apps/monhop-desktop/src/pairing.rs:324-330 | an endpoint attached after a stop is revoked |
| `StopSwitch.PairingControl.Check` | apps/monhop-desktop/src/pairing.rs:332-353 | a stop is told by its reason and role, then a revoked endpoint |
| `Calendar.EpochIsDayZero` | apps/monhop-desktop/src/logging.rs:199-210 | day 0 is 1970-01-01 |
| `Calendar.EveryDayIsADate` | apps/monhop-desktop/src/logging.rs:199-210 | every integer day gives a date of the proleptic Gregorian calendar |
| `Calendar.NextDayIsTomorrow` | apps/monhop-desktop/src/logging.rs:199-210 | the day after any day gives the calendar's next date |
| `Calendar.DaysInOrder` | apps/monhop-desktop/src/logging.rs:199-210 | later days have later dates |
| `Calendar.DifferentDaysDiffer` | apps/monhop-desktop/src/logging.rs:199-210 | no two days share a date |
| `Png.DecodeRow` | scripts/generate-icons.py:38-51 | a row decoded in place is its decoding; a filter type past 4 is refused as soon as a byte needs it |
| `Png.DecodeRows` | scripts/generate-icons.py:33-54 | the nested loops return the decoded rows, or nothing for a wrong length or filter type |
| `Png.AddedIsPredicted` | scripts/generate-icons.py:42-48 | the first of three least distances is the Paeth predictor with its ties, section 6.6 of RFC 2083; the other filters are those of section 6 |
| `Png.ImageRecovered` | scripts/generate-icons.py:33-54 | for every image and every choice of filters 0 to 4 row by row, decoding its filtered bytes gives the image back |
| `Png.OnlyFromTheirEncoding` | scripts/generate-icons.py:36-54 | below any row, rows come out if and only if every filter type is one of the five or a row has no byte to filter, and with the five types only from their own encoding |
| `Png.ImageOnlyFromItsEncoding` | scripts/generate-icons.py:33-54 | for every source, width and height the decoder gives rows if and only if the length is right and every filter type is one of the five, or there is no column; it then gives as many rows of the right length as asked, and the source is their encoding under its own filter types |
| `Edwards.Multiply` | scripts/verify_updater_signature.py:60-67 | the loop computes double-and-add of the scalar for any addition |
| `Edwards.MultiplyIsRepeatedAddition` | scripts/verify_updater_signature.py:60-67 | where points stand for elements of an associative operation with (0, 1, 1, 0) its unit, multiplying is repeated addition for every scalar |
| `Edwards.MultiplyStaysTied` | scripts/verify_updater_signature.py:52-67 | with the file's own addition in the field of the curve, every point the loop holds keeps x·y and z·t equal |
| `Edwards.IdentityIsNeutral` | scripts/verify_updater_signature.py:52-71 | adding (0, 1, 1, 0) to any point gives a point the file's equality test finds equal |
| `Der.DerElement` | scripts/macos-signing.swift:289-309 | an element is read with its tag, content, own bytes and end, or refused |
| `Der.DerChildren` | scripts/macos-signing.swift:275-287 | the loop over offsets returns the walk of the container's content |
| `Der.ChildrenTileTheContent` | scripts/macos-signing.swift:275-287 | on success the elements, one after the other, are exactly the container's content, each read where the one before it ended |
| `Der.ChildrenReadBack` | scripts/macos-signing.swift:275-309 | every list of single-byte-tag elements with lengths under 2^32, written in a SEQUENCE, is read back exactly (section 8.1.3 of ITU-T X.690) |

## Left out

- Sockets, QUIC, TLS, the pairing key exchange, protected storage, native capture and injection: only their answers and end reports appear.
- The listener for network moves, contacts and knocks, and closing one computer's connection: they touch none of the state the theorems are about.
- The order in which a handler ends the tasks it lists: any order is allowed, which covers the code's.
- `idle` also drops finished task handles from the lists; the model keeps them, and a finished handle counts for nothing.
- The pointer topology of a record and the size of its JSON text: one predicate every theorem quantifies over.
- JSON, hashing, file reads and writes, and loading a library file by version.
- f64 rounding and NaN: coordinates are reals.
- The rest of the group record: relabelling, previews, removing a member, restamping and summaries are one-branch edits.
- `ActionGate`, the cached setup and the rest of the app's supervisor.
- LinkDecision.ExactlyOneProposes: a rebuild of the record is a yes or no answer here; that a rebuild, when there is one, is valid and fits is AdaptTheorems'.
- Loading a remembered entry that fits the displays shown now.
- GroupPlans.HubIsTheCurrentPlans: the epoch is a 64-bit counter that wraps, so nothing is said after 2^64 - 1 changes of the record in one life of the app.
- The network thread is started once: a second thread after the first has stopped or panicked is not modelled.
- The user-visible sentences of pairing, its completed and saved lists, and a pairing worker that panics.
- The Edwards group law, point decompression and the final comparison of Ed25519: that `_add` stands for an associative operation on curve points is a hypothesis of MultiplyIsRepeatedAddition.
- Chunk parsing and decompression before a PNG's rows.
- DER that is not minimal is accepted as the code accepts it; only minimal lengths are written.
- The date and time text around the calendar, log rotation, labels, tray, windows, autostart, preference switches, release scripts and the landing page: they would only add easy members.
