# Container lifecycle, terminal connection and quota rules of BrowseTerm Local, in Dafny

BrowseTerm Local is the web application a user signs in to in order to create, save, hibernate, resume
and delete terminal containers. It keeps no state of its own. Container rows and device reservations
are Cloud's; pods belong to Kubernetes and are reached through container-maker; a snapshot Job writes a
row's `save_status`; and the browser drives one WebSocket per terminal page. Every handler is a protocol
over stores it cannot lock, and every `await` can fail, lose its reply, or let another handler in. This
project models those protocols and proves what they guarantee.

`dafny verify dfyconfig.toml` checks the whole project.

## How it is organised

*Container lifecycle.* `Platform` holds the shared stores; each remote operation is one atomic step.
`ErrorLayers` is the way a reply becomes a result or an exception on its way up: the class of the
exception decides which `except` clause of a handler takes it. `Sagas` is the control flow of every
handler, one remote call at a time. The model is then used twice.

`Interleaving` lets any number of handler instances, snapshot Jobs, the status monitor and the reaper step
in any order; every call may be served, refused, lose its reply, or return a reply that cannot be decoded,
and a call given up on may still take effect later. Any sequence of labels is a history, so a lemma about
`Execute(capacity, ls)` is about every history. `TenantFrame`, `Reservations`, `SaveBeforeDelete`,
`ConfirmedSnapshot`, `SaveExit`, `ResumeExclusion`, `PodStartCounts` and `CreateCompensation` are such
lemmas. `SaveExit` ends with saves that only their snapshot Jobs accompany, and `LateEffects` and
`LateStatus` are about resumes that only their own late calls accompany. `Stages` and `FreshPods` hold what
every history keeps about stages and pod ids.

`Plans` says once more, without any control flow, what each handler is to do: its calls in order, the answers
it can go on with, the one closing call that follows the first other answer, and its reply. `PlanFollowing`
shows that every instance does just that in every interleaving, and `PlanResults` what it comes to: which
rows a hibernate accepts, and when a handler goes through.

`SoloRuns`, `ResumeExit`, `RollbackPromise`, `CreateExit` and `ShortSagas` classify how one handler that
nothing overlaps can end, and `UnoverlappedRuns` shows that such a lone run is a history of the whole system,
so each classification holds from every reachable state. `ServedRuns` and `ServedHibernate` are the runs in
which every call is served. `ApiHandlers` has the handlers as methods that await, branch and change the
platform, each proved to follow the saga of the same name.

*Terminal page.* `TerminalPage` is the event machine of `TerminalPageHandler` together with what the
browser holds for it (requests, sockets, timers, posts). `TerminalTheorems` is about every sequence of
events, `ReconnectSeries` about the delays such a sequence arms, and `PageProgress` about what the page does
next in every state it can reach. `TerminalPageHandlers` has the object with its mutable fields, driven by the
same events.

*Quantities and names.* `Digits` and `Quantities` are the strings and their grammar; `Floats` is what is
used of floating point: a rounding of every exact result that is monotone and leaves whole numbers up to
2^53, and such numbers times or divided by 1Mi or 1Gi, as they are. `Conversions` (parse, print) and
`DerivedRequests` compute with it, and hold for every such rounding. `Fractions` is about what digits after
the point are worth; where that depends on the accuracy of floats, it asks of the rounding that it moves no
number from 2^-30 on by more than one part in 2^52 (`Floats.Accurate`). `Names` sanitises and takes suffixes
off.

*Create form and terminal list.* `QuotaControls` (bounded inputs under refreshes, and what is submitted)
and `PendingTracking` (which containers are cleaned up automatically).

## Where the code and its documentation differ

- README.md:133-141 promises that a resume whose pod-start step fails after Cloud's transition is rolled
  back. `ContainerService` turns every failure of the container-maker call into an `HTTPException`, and
  `resume_container` answers an `HTTPException` before it reaches the rollback. The rollback comes exactly
  when the step failed at its catalog read (`RollbackPromise.PodStartFailureIsRolledBackIff`), so never for a
  row with a saved image (`RollbackPromise.SavedImageNeverRolledBack`);
  `RollbackPromise.PodStartFailureLeavesReservation` is a concrete resume that ends in a 500 with the row
  RESUMING and the reservation still held.
- README.md:139-141 says that a resume Cloud rejects falls back to `status=FAILED`. The code answers with
  Cloud's status at once and writes nothing. FAILED is written exactly when the ownership lookup fails
  otherwise than with a 404, or when Cloud's reply to the transition cannot be decoded
  (`ResumeExit.ResumeExits`).
- src/api_handlers.py:574-575 says that a failed save call marks the row FAILED if it fails before the Job
  records anything. The code does not look: a SUCCEEDED that the Job has recorded is overwritten with
  FAILED exactly if the snapshot call is not answered with success and the FAILED write takes effect
  (`SaveExit.SuccessOverwrittenIff`, `SaveExit.RecordedSuccessIsOverwritten`).
- src/api_handlers.py:831-833 says that hibernate never deletes the pod on anything but a confirmed
  success. It does not say of which snapshot, and a save status names none: a Job of another instance that
  reports SUCCEEDED after this hibernate's PENDING leads to the delete as well. A hibernate is sure to trust
  only its own snapshot exactly if no other instance has one outstanding when it writes PENDING, given that
  none starts one meanwhile (`ConfirmedSnapshot.TrustsItsOwnSnapshotIff`).
- Nothing undoes hibernate's pod delete: if Cloud's transition then fails, a RUNNING row stays RUNNING with
  its reservation and without a pod (`ShortSagas.PodGoneAndRowLeftRunning`).
- README.md:135-138 promises that the rollback leaves the row HIBERNATED. A final sync whose reply was lost
  can take effect after it: the row then says RUNNING and holds no reservation. That happens exactly if the
  rollback took effect and that sync is the newest of the run's effective writes of the status
  (`LateStatus.RunsUnreservedIff`; `LateStatus.LateSyncAfterRollback` is a witness).
- A resume whose pod start was carried out but not answered ends with the reservation held, the row RESUMING,
  and a pod that no row knows (`ResumeExit.LostPodStartLeavesPodAndReservation`).
- The comment at templates/static/js/terminals.js:635-640 says that the Create button is enabled only
  within the device's remaining quota. A refresh that reports less than a control's minimum leaves its old
  maximum standing, so the check can pass, and a disabled control is submitted as its default
  (`QuotaControls.CheckIsHonestIff` and `QuotaControls.SubmissionIsHonestIff` say exactly when; on the
  form as it is served, a device with nothing left passes, `QuotaControls.NoQuotaPassesTheCheck`).
- The comment at templates/static/js/terminals.js:1334 says that a container is cleaned up automatically
  if it fails before it is Running. If Running arrives before tracking begins, a failure long afterwards
  still deletes it (`PendingTracking.RunningBeforeTrackingIsForgotten`).
- Printing a memory amount, reading it and printing it again need not give the same text: an amount less
  than one Mi above a whole number of Gi prints in Mi, reads as whole Gi, and prints in Gi
  (`Conversions.PrintingIsStableIff`, `Conversions.PrintingCanChange`).
- A CPU limit with digits after the point need not read as the millicores it states: both the number and the
  product are rounded, and then cut off. With the double nearest to 1.001, which lies below it, `1.001` reads
  as 1000 millicores (`Fractions.ReadingCanFallShort`). The reading is at most one unit off, and exact whenever
  the stated amount keeps four parts in 2^52 clear of the whole numbers on either side
  (`Fractions.FractionIsReadNearly`), or the number is itself a float, as 0.5 and 0.25 are
  (`Fractions.ExactFractionIsRead`).
- A derived request can exceed ratio times the limit, by less than one unit, exactly when the float product
  is rounded up to a whole one: with the double nearest to one third, `3m` derives `1m`
  (`DerivedRequests.DerivedRequestCanExceedTheProduct`). It never does when the product keeps a margin from
  the next whole number that a caller can check (`DerivedRequests.MarginKeepsRequestsBelow`); half of a
  limit always does.

## What is taken for granted

- Cloud's operations are atomic and keep their documented contracts: create reserves capacity on the
  user's active device; resume is a compare-and-set from HIBERNATED to RESUMING that reserves; hibernate
  clears the device and releases; delete releases; update writes only the fields it carries, and only to
  a row of the given user. Ids of containers and pods are not reused.
- A 404 comes only from Cloud's own answer about a row that is missing or not the caller's. Any other
  refusal may come from anywhere, at any time, and has no effect.
- Only snapshot Jobs write SUCCEEDED, each for the instance whose snapshot call it serves; they may do so
  during that call and at any time after it, more than once, so late writes of older snapshots are possible.
- For reservation accounting and resume exclusion, `/update-container` is not used to write RESUMING or
  HIBERNATED (`Reservations.TameLabels`). For resume exclusion, no outside hibernation overlaps a resume
  of the same container (`ResumeExclusion.Apart`); `ResumeExclusion.OverlapLetsTwoIn` shows that this
  is needed.
- In the browser, `Date.now()` does not go back, a close with code 4401 comes only on a socket that has
  opened, and every session reply carries a ticket of its own.

## Model

| member | source | states |
|---|---|---|
| SaveBeforeDelete.HibernateSavesBeforeItDeletes | src/api_handlers.py:825-865 | in every interleaving, with any call refused, lost, garbled or late, the pod delete of a hibernate comes after that same hibernate's PENDING write reached the row and, after that, the Job's SUCCEEDED for that container; a PENDING write that found no row never leads to a delete |
| SaveBeforeDelete.LocalOnlyWritesPendingOrFailed | src/api_handlers.py:559-582 | no call of any handler, in time or late, ever carries a save status other than PENDING or FAILED |
| SaveBeforeDelete.OnlyTheJobSucceeds | src/db_ops/dto/container_dto.py:44-57 | a step after which a row says SUCCEEDED found it so or is the Job's write |
| SaveBeforeDelete.EveryHibernateInv | src/api_handlers.py:825-840 | in every reachable state a waiting hibernate either has its own PENDING on the row or the row is gone for good, and a SUCCEEDED it could read was written after that PENDING |
| ConfirmedSnapshot.DeleteRestsOnTheNewestReport | src/api_handlers.py:834-842 | in every interleaving, the poll that leads a hibernate on to the pod delete rests on the newest write to the save status, a Job's SUCCEEDED made after the hibernate's own PENDING |
| ConfirmedSnapshot.TrustsItsOwnSnapshot | src/api_handlers.py:825-842 | from every reachable state in which a hibernate has just written PENDING and no other instance has a snapshot of the container outstanding: if no other starts one and each is reported on once, the report that leads to the pod delete is about the hibernate's own snapshot |
| ConfirmedSnapshot.OtherSnapshotCanBeTrusted | src/api_handlers.py:831-833 | if another instance has a snapshot of the container outstanding when a hibernate writes PENDING, an equally orderly continuation leads to the pod delete on that other snapshot |
| ConfirmedSnapshot.TrustsItsOwnSnapshotIff | src/api_handlers.py:825-842 | such a hibernate is sure to trust only its own snapshot exactly if no other instance has one outstanding |
| SaveExit.SaveStatusIsTheLastWrite | src/api_handlers.py:559-582 | in every interleaving a row's save status is the last one written to it by a handler, in time or late, or by a Job |
| SaveExit.SaveCalls | src/api_handlers.py:573-622 | in every interleaving a save that ends in a 202 asked for the snapshot, after its PENDING write was answered, and attempted FAILED exactly if that call was not answered with success; one that ends otherwise never asked |
| SaveExit.SaveExits | src/api_handlers.py:573-622 | from every reachable state, a save that only snapshot Jobs accompany and that answered 202 leaves on the user's row what a Job reported after the handler's own last write, and otherwise that write: FAILED if it was attempted and took effect, PENDING if not |
| SaveExit.SuccessOverwrittenIff | src/api_handlers.py:574-582 | a SUCCEEDED that the Job recorded during the snapshot call ends as FAILED exactly if that call was not answered with success and the FAILED write took effect |
| SaveExit.SuccessTurnsFailedIff | src/api_handlers.py:574-582 | in every reachable state a step turns a recorded SUCCEEDED into FAILED exactly if it is a Job's FAILED or the FAILED write of a save, in time or late, and that save, also one long ended, got no success for its snapshot call |
| SaveExit.RecordedSuccessIsOverwritten | src/api_handlers.py:574-582 | a concrete way to lose a recorded SUCCEEDED: the reply of the snapshot call is lost and the FAILED write is served |
| ResumeExclusion.AtMostOneResume | src/api_handlers.py:660-739 | with no outside hibernation overlapping a resume of the container, a single token is held by the HIBERNATED row, or by one resume past Cloud's transition, also one at the FAILED fallback whose transition took effect unknown to it, or by one rollback still in flight: two resumes are never past the transition at once, whatever fails, is rolled back or lands late |
| ResumeExclusion.OverlapLetsTwoIn | src/cloud_client/client.py:192-215 | the hypothesis is needed: from every state where a resume is possible, one overlapping hibernation lets a second resume past the transition beside the first |
| PodStartCounts.PodStartsNeverExceedTransitions | src/api_handlers.py:660-704 | in every interleaving, overlapping hibernations included, pod starts by resumes of a container plus the resumes still about to start one never exceed Cloud's transitions of it |
| ResumeExclusion.TransitionTakesTheToken | src/cloud_client/client.py:192-200 | a transition that is answered with success found the row HIBERNATED and leaves it otherwise |
| ResumeExit.ResumeExits | src/api_handlers.py:649-739 | every way a resume that nothing overlaps can end: it answers 200 exactly if every call was answered so that it could go on, and otherwise the call it failed at was not; a 200 means RUNNING with the new pod's id, address and resources and the reservation held; a missing row or a definite rejection changes nothing; FAILED is attempted exactly after a lookup that failed otherwise or an undecodable reply to the transition; a failure after the transition leaves the reservation, with the row RESUMING unless a FAILED mark or the final sync took effect, or a HIBERNATED row with the books restored; and in every case there is one new pod exactly if the pod start took effect, answered or not |
| UnoverlappedRuns.UnoverlappedResumeExits | src/api_handlers.py:649-739 | from every state the whole system can reach, a resume that nothing overlaps and that has answered has ended in one of the classified ways |
| PlanFollowing.EveryInstanceFollowsItsPlan | src/api_handlers.py:325-878 | in every reachable state every instance of every handler has made the calls of its plan in order, each with the user, id and body the plan gives it, all answered so that it goes on but perhaps the last; its next call is the plan's next one, or the closing call of that failure; and it ends only with the plan's answer, at the plan's end, after a failure, or when the window closes on the polls |
| PlanResults.HibernateAcceptsOnlyReadyRows | src/api_handlers.py:813-825 | in every interleaving a hibernate writes to the row only once, PENDING, after its own lookup showed a row of its user's that was RUNNING with a kubernetes id; after such a lookup that write is its next call; after a lookup of any other row it has ended with 409 after that one call |
| PlanResults.GoesThroughIff | src/api_handlers.py:643-739 | in every interleaving a resume, create, delete or update that has answered answered 200 exactly if each of its calls was answered so that it could go on, and then nothing of its plan is left to do; so a resume whose final sync was served is never rolled back, and a create never gives up while its calls go well |
| PlanResults.SaveIsAcceptedIff | src/api_handlers.py:602-618 | in every interleaving a save that has ended answered 202 exactly if its lookup found the row and its PENDING write was answered |
| ServedRuns.ServedResumeSucceeds | src/api_handlers.py:649-719 | a resume of a row that Cloud lets resume, with every call served, answers 200 within six calls; the row is RUNNING with the reservation and a new pod of the user's |
| ServedRuns.ServedCreateSucceeds | src/api_handlers.py:348-405 | a create for the user's own row, with every call served, answers 200 after three calls with one new pod for the row |
| ServedRuns.ServedSaveIsAccepted | src/api_handlers.py:602-618 | a save of the user's own row, with every call served, asks for the snapshot with PENDING on the row and answers 202 |
| ServedHibernate.ServedHibernateSucceeds | src/api_handlers.py:813-872 | from every state, a hibernate of the user's running row with a pod, with every call served and its Job reporting SUCCEEDED, answers 200: the container's pods are gone, the row is HIBERNATED and saved, and its reservation is released |
| UnoverlappedRuns.LoneRunIsAHistory | src/api_handlers.py:325-878 | for every handler, a lone run and the history in which only that instance steps end on the same platform at the same stage |
| UnoverlappedRuns.AloneFromHere | src/api_handlers.py:325-878 | from any world, an instance that steps alone goes exactly where the lone run goes |
| UnoverlappedRuns.UnoverlappedCreateExits | src/api_handlers.py:341-409 | from every reachable state, a create that nothing overlaps and that has answered has ended in one of the classified ways |
| UnoverlappedRuns.UnoverlappedHibernateEnds | src/api_handlers.py:857-878 | from every reachable state, a hibernate whose snapshot is confirmed, and that nothing overlaps from there on, ends in one of the classified ways |
| LateEffects.ReservationFollowsTheTransitions | src/api_handlers.py:660-739 | from every reachable state, at every moment of a resume that only its own late calls overlap and ever after, the row holds the reservation Cloud made exactly if the transition has taken effect and the rollback has not, every device has otherwise given out what it had before, and the rollback never comes first |
| LateStatus.RowFollowsTheNewestWrites | src/api_handlers.py:660-739 | under the same late effects, the row's status and the id, address and resources of its pod are what the newest of the run's calls to write them and take effect wrote, and otherwise what they were; its save status and image never change |
| LateStatus.RunsUnreservedIff | README.md:135-138 | once the transition has taken effect, the row says RUNNING without holding a reservation exactly if the rollback took effect and the final sync is the newest of the run's effective writes of the status |
| LateStatus.LateSyncAfterRollback | src/api_handlers.py:704-731 | a final sync whose reply is lost and that lands after the rollback leaves a RUNNING row under its pod, without a reservation |
| ResumeExit.ReservationLeftBehind | src/api_handlers.py:720-733 | after the transition, a failed exit keeps the reservation exactly when the handler did not learn of the transition, or the failing call was the pod start, or the rollback took no effect; otherwise the row is HIBERNATED and every device is as before |
| ResumeExit.LostPodStartLeavesPodAndReservation | src/api_handlers.py:700-721 | a resume that fails at its pod start ends RESUMING with its reservation, and with a pod that no row knows exactly if Kubernetes did start it |
| RollbackPromise.PodStartFailureIsRolledBackIff | README.md:133-141 | a failure of the pod-start step after the transition is rolled back exactly when it happened at the catalog read and not at the container-maker call |
| RollbackPromise.SavedImageNeverRolledBack | src/api_handlers.py:700-733 | for a row that has a saved image, no failure of the pod-start step is rolled back and the reservation is always left behind |
| RollbackPromise.PodStartFailureLeavesReservation | src/containers/containers_service.py:238-247 | a concrete resume whose pod container-maker refuses: 500, row RESUMING, reservation still held |
| ResumeExit.RollbackRestores | README.md:135-138 | after the transition, hibernating gives HIBERNATED, no device, and every device's books as they were |
| FreshPods.EveryUidFresh | src/api_handlers.py:702-714 | in every reachable state of the whole system a pod about to start gets an id no pod has, which is what the exit results ask of their starting state |
| Reservations.UsageIsTheSumOfReservations | README.md:118-147 | under any interleaving of create, delete, resume and hibernate, device usage is the sum of what rows hold there and within capacity, every RESUMING row holds a reservation and no HIBERNATED row does |
| Reservations.CreateReserves | src/db_ops/container_db_ops.py:23-38 | a container that is created is the user's, PENDING, and holds what it asked for on the user's device, within that device's capacity; nothing else is held that was not before |
| Reservations.AllReleasedMeansAllFree | src/cloud_client/client.py:183-215 | nothing leaks in the books: once every row is deleted or hibernated, every device is entirely free |
| Reservations.PerformKeepsSound | src/cloud_client/client.py:150-215 | each of Cloud's operations, accepted or not, keeps the books balanced and the statuses truthful |
| TenantFrame.InstancesTouchOnlyTheirTenant | src/api_handlers.py:813-869 | in every reachable state a step of a handler, and every late effect of a call it gave up on, changes at most the row of its own id if that row is its session user's, rows created for that user, and pods of that user's namespace for that id |
| TenantFrame.EveryInstanceConfined | src/api_handlers.py:652-658 | a handler gets past its ownership lookup only with a row of its own user, and the id stays that user's for good |
| TenantFrame.EveryFlightConfined | src/cloud_client/client.py:211-215 | a late hibernate carries no user id, yet when it lands the row is still its user's or gone |
| TenantFrame.ScopedCallOnlyTouches | src/cloud_client/client.py:173-190 | what a call confined to a user and a container can change: update bodies carry the session's user id over any caller field |
| TenantFrame.StepEvolves | README.md:120-131 | along every step rows are only appended, keep their owner, and once deleted stay deleted |
| CreateCompensation.FailedCreateReleasesOnce | src/api_handlers.py:384-409 | an ended create made exactly one release attempt if its pod creation failed and none otherwise, and its reply is that original failure whatever the release did |
| CreateCompensation.ReleasedAtMostOnce | src/db_ops/container_db_ops.py:67-86 | over every history with the server's release, the browser's follow-up delete, repeats and late deletes, a row goes away by exactly one effective deletion |
| CreateCompensation.ReleaseGivesBackTheReservation | src/cloud_client/client.py:183-190 | deleting a row in any sound state frees exactly what that row held and leaves the books balanced |
| CreateExit.CreateExits | src/api_handlers.py:341-409 | every way a lone create can end: it answers 200 exactly if all its calls were accepted, and ends early exactly if the lookup was not, with 404 for a missing row and 500 otherwise; 200 means the pod started and the books are untouched; a failed creation is answered with its own failure, and its release takes the row and the reservation away exactly if it took effect; a pod started by a call that was not answered with success stays |
| CreateExit.FailedCreateAfterCreateInDb | src/containers/containers_service.py:314-329 | create-in-db, then a create whose pod creation fails: if its release takes effect the row is gone and every device is as before create-in-db, if not the row and reservation stay; the pods are as before exactly if none was started, and one that was outlives the row |
| ShortSagas.DeleteExits | src/api_handlers.py:496-519 | a delete answers 200 exactly when the row was the user's and the reply arrived, and then the row is gone; a 404 can also hide a deletion whose reply could not be decoded |
| ShortSagas.HibernateEnds | src/api_handlers.py:857-878 | every way a lone hibernate can end once its snapshot is confirmed: the pods are gone exactly if the pod delete took effect, the row is HIBERNATED and released exactly if Cloud's transition did, 200 means both, and every other answer is a 500 |
| ShortSagas.PodGoneAndRowLeftRunning | src/api_handlers.py:862-869 | from every state, if Cloud refuses the transition after the pod delete, the pods are gone and the row and its reservation are as they were, so a RUNNING row still is RUNNING with its reservation |
| ShortSagas.SavePends | src/api_handlers.py:602-608 | by the time a lone save asks for the snapshot, the user's row says PENDING |
| ApiHandlers.Handlers.ResumeContainer | src/api_handlers.py:626-740 | the handler leaves the platform of the lone resume and gives its response, so every exit is classified |
| ApiHandlers.Handlers.CreateContainerInK8s | src/api_handlers.py:325-409 | the handler leaves the platform of the lone create and gives its response, so every exit is classified |
| ApiHandlers.Handlers.SaveContainer | src/api_handlers.py:586-622 | a 202 goes out with PENDING on the user's row and the saga about to ask for the snapshot; any other answer ends the saga |
| ApiHandlers.Handlers.RunSave | src/api_handlers.py:573-582 | the background half, at any later time, with the Job reporting during its snapshot call: the row says what the Job reported last, unless the call was not answered with success and the FAILED write took effect; nothing else changes |
| ApiHandlers.Handlers.DeleteContainerInDb | src/api_handlers.py:496-519 | the handler leaves the platform of the lone delete and gives its response |
| ApiHandlers.Handlers.TryResume | src/api_handlers.py:643-719 | the exception that leaves the try block, together with the flag, puts the saga at the right closing clause |
| ApiHandlers.Handlers.StartContainer | src/containers/containers_service.py:174-247 | the catalog is read only without an image override; any failure leads a create to its release and a resume to its closing clauses |
| ApiHandlers.Handlers.HibernateContainer | src/api_handlers.py:786-878 | with everyone else acting before every call, for every positive window and interval the wait makes at most window / interval polls, rounded up, all begun inside the window and a raising one among them; the pod is deleted exactly when the first terminal status seen is SUCCEEDED; a FAILED or a closed window answers 502, and a poll that raises answers with its exception; a row that is RUNNING with a pod gets PENDING as the second call, any other 409 after one call; from such a row, with every call answered with success, it answers 200 exactly if the newest poll read SUCCEEDED |
| ApiHandlers.Handlers.AwaitSnapshot | src/api_handlers.py:834-840 | the poll loop ends, returns what the newest poll came to, which is no exception if every call was answered with success, and goes on past a poll only if that read a status that was not terminal |
| ApiHandlers.Handlers.TriggerSave | src/api_handlers.py:813-829 | PENDING is the second call exactly from a row that is RUNNING with a pod, and any other row that was read gets 409 after one call; it goes on to the polls if every call was answered with success, and then with no pod delete so far |
| ApiHandlers.Handlers.RemovePod | src/api_handlers.py:857-872 | deletes the pod, then makes Cloud's transition, ends as the saga does, and with 200 if every call was answered with success |
| ApiHandlers.LeadsToFold | src/api_handlers.py:803-878 | the stages a hibernate goes through are the saga folded over its replies |
| TerminalTheorems.SingleConnectionChain | templates/static/js/terminalpage.js:507-598 | in every reachable state at most one of session request, socket not yet closed and armed timer exists, and such a socket is the one `this.websocket` refers to |
| TerminalTheorems.CallbacksUseTheirOwnSocket | templates/static/js/terminalpage.js:539-552 | an open or message callback finds its own socket in `this.websocket`, and opening sends that socket's own ticket as its first message |
| TerminalTheorems.TicketsAreSentOnce | templates/static/js/terminalpage.js:545 | a ticket is sent at most once over all sockets, and only over the one opened from the same reply |
| TerminalTheorems.HeartbeatCoversActivity | templates/static/js/terminalpage.js:603-636 | the interval is armed exactly while the current socket is up, posts cover strictly newer activity, and a tick leaves no marked activity unposted |
| TerminalTheorems.CleanupIsFinal | templates/static/js/terminalpage.js:768-784 | after cleanup, whatever happens, no session request is made, no timer armed, and at most one socket is created, for a request already in flight |
| TerminalTheorems.ReconnectsAreBounded | templates/static/js/terminalpage.js:587-598 | attempts stay within the maximum, and without a successful open at most maximum minus attempts further reconnects are timed |
| TerminalTheorems.ConnectionStops | templates/static/js/terminalpage.js:507-598 | without a successful open the machine stops after a bounded number of connection steps of any kind |
| PageProgress.LostSocketArmsATimerIff | templates/static/js/terminalpage.js:558-598 | in every reachable state, a close other than 4401 on a page not cleaned up arms one timer, with its delay and one more attempt, exactly if attempts are left, and makes no request |
| PageProgress.FiredTimerRequests | templates/static/js/terminalpage.js:595-597 | in every reachable state, a timer that fires makes exactly one request, unless the page is cleaned up |
| PageProgress.RejectedTicketRequestsAtOnce | templates/static/js/terminalpage.js:568-572 | in every reachable state, a 4401 close makes one request at once and leaves attempts and timers alone, unless the page is cleaned up |
| PageProgress.OutageUsesEveryAttempt | templates/static/js/terminalpage.js:587-598 | for every maximum, when every reconnect fails the page uses up all its attempts, makes one request more than that, and arms the whole series of delays |
| PageProgress.SessionReplyConnects | templates/static/js/terminalpage.js:529-539 | in every reachable state, a usable session reply creates one socket, which becomes the page's, for a ticket no other socket has; an unusable one creates none |
| PageProgress.RefusedSessionIsFinal | templates/static/js/terminalpage.js:518-533 | in every reachable state, a refused session leaves no request, timer or live socket, and the page shows the failure for 404, for 409, and for anything else |
| PageProgress.ReceivedTraffic | templates/static/js/terminalpage.js:550-553 | in every reachable state, the page answers a ready message by asking for SSH on that socket and sends nothing for any other, and the next heartbeat posts the time of whatever was received |
| PageProgress.TypedTextIsSent | templates/static/js/terminalpage.js:333-348 | in every reachable state, typed text goes out unchanged on the open socket exactly if SSH is up, and the next heartbeat then posts its time; otherwise nothing changes |
| PageProgress.UnloadCloses | templates/static/js/terminalpage.js:768-784 | in every reachable state, cleaning up closes an open socket, after telling SSH exactly if that is up, and sends nothing else |
| PageProgress.DelayValues | templates/static/js/terminalpage.js:594 | the delays are 1000, 2000, 4000 and 8000 ms, and 15000 ms from the fifth attempt on |
| TerminalTheorems.DelayInRange | templates/static/js/terminalpage.js:594 | every delay is between 1000 and 15000 ms |
| ReconnectSeries.ArmsTheSeries | templates/static/js/terminalpage.js:587-598 | from any state, as long as no socket opens, the page arms exactly the delays of the attempts that follow, in order |
| ReconnectSeries.EveryStateEndsInSeries | templates/static/js/terminalpage.js:539-598 | in every reachable state the newest armed delays are those of the attempts since the last successful open |
| ReconnectSeries.ArmedDelaysNeverShrink | templates/static/js/terminalpage.js:594 | the delays armed since the last successful open never shrink and lie between 1000 and 15000 ms |
| ReconnectSeries.FullSeriesTakes | templates/static/js/terminalpage.js:587-598 | when all of at least four attempts are used up, the delays armed since the last successful open sum to 15000 (max - 3) ms |
| TerminalTheorems.PlayKeepsInv | templates/static/js/terminalpage.js:507-784 | chain, tickets and flags hold along every sequence of events from any state where they hold |
| TerminalPageHandlers.Drive | templates/static/js/terminalpage.js:507-784 | the object with its mutable fields, driven by any events, goes through exactly the machine's states and keeps its invariant |
| TerminalPageHandlers.TerminalPageHandler.Deliver | templates/static/js/terminalpage.js:539-576 | one event delivered to the object changes the whole page as the machine says |
| TerminalPageHandlers.TerminalPageHandler.OnOpen | templates/static/js/terminalpage.js:541-548 | onopen, which writes to `this.websocket`, given that the single chain makes it the callback's own socket |
| TerminalPageHandlers.TerminalPageHandler.OnClose | templates/static/js/terminalpage.js:558-576 | onclose: nothing after cleanup, a fresh request on 4401, a timed reconnect otherwise |
| TerminalPageHandlers.TerminalPageHandler.OnTick | templates/static/js/terminalpage.js:617-628 | a heartbeat tick leaves the newest marked activity as the newest posted |
| TerminalPageHandlers.TerminalPageHandler.HandleTerminalInput | templates/static/js/terminalpage.js:333-348 | typed text goes out and counts as activity only over an open socket with SSH established |
| TerminalPageHandlers.TerminalPageHandler.Cleanup | templates/static/js/terminalpage.js:768-784 | closes an open socket, after telling SSH if it was up, and marks the page cleaned up |
| Quantities.SplitIsTheGrammar | src/common/utils.py:35-39 | the scanner accepts exactly the strings of the pattern's grammar, an optional final newline included, and the reading is the only one |
| Quantities.TablesFollowTheGrammar | src/common/utils.py:13-39 | so memory and CPU strings have at most one reading each, under the units of their tables, and the scanner finds it whenever there is one |
| Conversions.WholeMemoryIsRead | src/common/utils.py:13-40 | below 2^53, a whole number with a unit reads as that many times the unit's worth, for each unit of the memory table, under every rounding |
| Conversions.WholeCpuIsRead | src/common/utils.py:27-64 | below 2^53, a whole number reads as thousands of millicores, and with m as millicores, under every rounding |
| Fractions.FractionIsRead | src/common/utils.py:32-40 | without rounding, digits, a point, digits and a unit of the table read as the largest whole number within the exact amount they state |
| Fractions.MemoryFractionIsRead | src/common/utils.py:32-40 | so for every memory quantity with digits after the point |
| Fractions.CpuFractionIsRead | src/common/utils.py:56-64 | so for every CPU quantity with digits after the point |
| Fractions.FractionIsReadNearly | src/common/utils.py:32-64 | in floats, under every accurate rounding, such a quantity reads as the whole part of the exact amount, or one less or one more, and as just that part if the amount keeps clear of the whole numbers on either side |
| Fractions.ExactFractionIsRead | src/common/utils.py:32-64 | under every rounding, digits that state a float, such as .5 and .25, are read exactly when the amount is whole |
| Fractions.HalvesAreRead | src/common/utils.py:32-64 | under every rounding 0.5 is 500 millicores and 1.5Gi one and a half Gi |
| Fractions.ReadingCanFallShort | src/common/utils.py:56-64 | under a rounding that takes 1.001 to the double below it, which is the nearest, 1.001 CPUs read as 1000 millicores |
| Conversions.MemoryRoundTrip | src/common/utils.py:32-54 | below 2^53, reading a printed amount loses exactly the part below one Mi, and nothing just for whole Mi |
| Conversions.PrintingIsStableIff | src/common/utils.py:42-54 | below 2^53, printing what was read back gives the same text exactly when the amount is below 1Gi, a whole number of Gi, or at least one Mi above one |
| Conversions.PrintingCanChange | src/common/utils.py:46-52 | there are amounts whose text changes when it is read and printed again |
| Conversions.CpuRoundTrip | src/common/utils.py:56-71 | below 2^53 every number of millicores survives printing and reading, and the text is stable |
| Digits.DecimalRoundTrip | src/common/utils.py:68-71 | a printed number is made of digits and reads as itself |
| DerivedRequests.DerivedMemoryRequest | src/common/utils.py:73-84 | for limits below 2^53 and every float rounding, a derived memory request is a valid quantity, always less than one Mi below ratio times the limit, and at most that product exactly unless the float product is rounded up to a whole number of Mi; an unreadable limit comes back unchanged |
| DerivedRequests.DerivedCpuRequest | src/common/utils.py:86-97 | the same for CPU, with a gap below one millicore and rounding up to a whole millicore |
| DerivedRequests.MarginKeepsRequestsBelow | src/common/utils.py:73-97 | a product that stays below the next whole number by one part in d, where floats still count in such parts, is never exceeded by a derived request under any rounding, for d of 2, 1Mi and 1Gi |
| DerivedRequests.HalfKeepsMargin | src/common/utils.py:76-77 | half of any limit below 2^53 keeps that margin |
| DerivedRequests.DerivedMemoryIsMonotone | src/containers/containers_service.py:192-200 | in floats, a larger memory limit or ratio never derives a smaller request |
| DerivedRequests.DerivedCpuIsMonotone | src/containers/containers_service.py:192-200 | in floats, a larger CPU limit or ratio never derives a smaller request |
| DerivedRequests.DerivedRequestCanExceedTheProduct | src/common/utils.py:86-97 | under a rounding that takes the product just below one to one, as ties to even do, 3m times the double nearest to one third derives 1m, above the product |
| Floats.WholeOfRounded | src/common/utils.py:80-94 | truncating a rounded result gives the exact result rounded down, or the next whole number exactly if it was rounded up to it |
| Names.SanitizeMakesLabels | src/containers/containers_helpers.py:154-186 | every non-empty name becomes a lower-case label of section 2.1 of RFC 1123 without the length limit, sanitising twice changes nothing more, and the names left alone are exactly the labels |
| Names.SanitizeKeepsTheLetters | src/containers/containers_helpers.py:170-183 | no letter or digit is lost, added, moved or changed but for case, unless there is none and the fallback stands in |
| Names.SeparatorsBecomeHyphens | src/containers/containers_helpers.py:176-178 | a space, underscore or hyphen between two parts becomes exactly one hyphen between the sanitised parts |
| Names.OtherCharactersVanish | src/containers/containers_helpers.py:176-178 | a character that is no letter, digit, space, underscore or hyphen vanishes, and the parts on either side join without a hyphen |
| Names.SuffixRemovalRecoversTheName | src/containers/containers_service.py:229-235 | the sanitised name comes back from name-kind and name-kind-digits, for the kinds pod, service and ingress, whatever hyphens, digits or kinds it contains |
| Names.BareNameKeptIff | src/containers/containers_service.py:229-235 | a name without a suffix is left alone exactly when its last part is neither pod, service or ingress nor a number after a hyphen |
| Names.JoinUndoesSplit | src/containers/containers_service.py:229-235 | joining the parts of a split name gives the name, and no part holds a hyphen |
| QuotaControls.RefreshesAndClicksStayInBounds | templates/static/js/terminals.js:115-125 | while refreshes report at least the minimum, any refreshes and clicks keep the value between the minimum and what was last reported |
| QuotaControls.ClickMovesByItsAmount | templates/static/js/terminals.js:115-125 | a click moves the value of a control in bounds by just its amount, exactly if that stays within the minimum and what is available |
| QuotaControls.RefreshKeepsWhatFits | templates/static/js/terminals.js:266-297 | a refresh that finds the minimum keeps a value that still fits, lowers one that does not to what is available, and puts the minimum in for what is no number; one that does not disables the control and changes no number |
| QuotaControls.RefreshBringsInBounds | templates/static/js/terminals.js:280-283 | the first refresh that finds the minimum brings a control into bounds |
| QuotaControls.WholeGbIsTheLargest | templates/static/js/terminals.js:237 | what a device offers is the largest whole number of GiB within its bytes, and nothing for a negative number |
| QuotaControls.SubmittedLimitFitsTheDevice | templates/static/js/terminals.js:1151-1190 | a control kept in bounds by a device's whole GiB is submitted as it stands, passes the last check, and gives a limit the server reads as at most that device's bytes |
| QuotaControls.SubmissionIsHonestIff | templates/static/js/terminals.js:1151-1171 | with a disabled control submitted as its default: after a refresh, what passes the last check is available exactly when the device has the minimum or the default was already out of the old bounds |
| QuotaControls.CheckIsHonestIff | templates/static/js/terminals.js:641-660 | after a refresh, a value that passes the check is available, exactly when the device has the minimum or the value was already out of the old bounds |
| QuotaControls.NoQuotaPassesTheCheck | templates/terminals.html:49-71 | on the form as it is served, a device with nothing left passes the check |
| QuotaControls.TypedValuesAreChecked | templates/static/js/terminals.js:655-660 | whatever is typed between sufficient refreshes, a value that passes the check is available |
| QuotaControls.CreateForm.RefreshDeviceQuota | templates/static/js/terminals.js:1050-1060 | if every resource has its minimum, an enabled button means that all three values are available |
| QuotaControls.CreateForm.Configure | templates/static/js/terminals.js:266-297 | one control after a refresh, and when the check on it is honest |
| QuotaControls.CreateForm.AdjustCpu | templates/static/js/terminals.js:115-125 | a click moves the value only within bounds and then brings the button up to date |
| PendingTracking.CleanedUpExactlyWhenTracked | templates/static/js/terminals.js:722-826 | over any history a container is cleaned up exactly by a Failed event that comes while it is listed and tracked with no Running or Failed event handled since |
| PendingTracking.ListedMeansNewestReload | templates/static/js/terminals.js:302-332 | a container is listed exactly if it is in the newest list the page loaded |
| PendingTracking.CleanedUpAtMostOnce | templates/static/js/terminals.js:799-826 | a container tracked once is cleaned up at most once, and never after a Running event handled while it was tracked |
| PendingTracking.PendingBefore | templates/static/js/terminals.js:1335-1339 | a container is pending exactly if it was tracked and nothing has settled it since |
| PendingTracking.RunningBeforeTrackingIsForgotten | templates/static/js/terminals.js:1334-1339 | a Running event that comes before tracking does not count: a later failure still cleans up |
| PendingTracking.PendingContainers.HandleStatusChange | templates/static/js/terminals.js:722-799 | one status event handled by the page does to the map what the history says and changes no other container's entry |

## Left out

- Transport: HTTP, gRPC, certificates and the gRPC client's set-up (`_ensure_grpc_client`); they appear only as ways a call can fail.
- Sign-in, sessions, cookies, the CSRF check, payments, subscriptions, logging, template rendering and the DOM: wrappers and one-branch logic.
- The inside of Cloud, container-maker, the reaper, the status monitor and socket-ssh, which are not part of this repository; name conflicts in Kubernetes are ordinary refusals.
- Malformed request bodies and missing keys in rows or replies, the exact texts of errors, and `clean_k8s_error_message`: they rest on the JSON library.
- The fields `last_request_id`, `last_save_attempted_at` and `save_error`, image ids, port mappings and environment variables: they are copied and decide nothing.
- The row filters of `/update-container` other than the container id; reads that change nothing (lists, container info, the device quota).
- `delete_container_in_k8s` and `/update-container` appear in the step machine only, not as methods of `ApiHandlers`.
- ResumeExit.ResumeExits: takes the lost calls of the resume itself as taking effect at once or not at all; what their late effects do to the row and the reservation is in `LateEffects` and `LateStatus`, and pods that start late are not counted.
- UnoverlappedRuns.UnoverlappedResumeExits: leaves out late effects in the same way.
- CreateExit.CreateExits: takes the create's own lost calls as taking effect at once or not at all; late releases are in `CreateCompensation`.
- SaveExit.SaveCalls: the step machine keeps a save going until its background half has ended, although the answer goes out before; `ApiHandlers` has the two halves apart.
- ResumeExclusion.AtMostOneResume: says nothing when a hibernation overlaps a resume of the same container, because the code does not guarantee it.
- Quantities.SplitIsTheGrammar: ASCII digits only.
- Fractions.FractionIsReadNearly: numbers below 2^-30 and amounts from 2^50 bytes or millicores on are not covered; the exact reading is given for amounts that keep clear of whole numbers, since otherwise it depends on the digits.
- Conversions.MemoryRoundTrip: amounts from 2^53 on, where floats are no longer exact, are not covered, and overflow to infinity is not modelled.
- DerivedRequests.DerivedMemoryRequest: limits below 2^53 only.
- DerivedRequests.DerivedCpuRequest: limits below 2^53 only.
- Names.SanitizeMakesLabels: ASCII names only; Unicode case folding and Unicode digits are not modelled.
- TerminalTheorems.HeartbeatCoversActivity: ticks come at any time while armed; the period of 90 seconds is not modelled.
- QuotaControls.SubmittedLimitFitsTheDevice: a device with less than 2^53 bytes, for which the browser's division is exact.
- QuotaControls.RefreshesAndClicksStayInBounds: whole numbers of CPUs; values typed by hand are in `TypedValuesAreChecked`.
- PendingTracking.CleanedUpAtMostOnce: what a clean-up deletes afterwards is in `CreateCompensation`; here it is only counted.
