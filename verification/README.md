# A verified model of the HEY bridge

The bridge has two processes. The Go **sidecar** polls mailbox boxes through the HEY API and writes one
event at a time to its output, waiting for an acknowledgement before the next. The Python **host**
ingests each event into a durable queue, acknowledges it, drains the queue into the gateway, and answers
each event with one remote mutation (a reply or a comment), made by another run of the sidecar. Both
sides keep files: the sidecar a cursor for each box and an OAuth credential, the host the queue.

The model states what these programs promise each other and proves it for every input, run and crash
point it can express.

| file | what it models |
|---|---|
| `Decimal.dfy`, `Events.dfy` | identities, accounts, events, frames, and the strict readers of both |
| `QueueModel.dfy`, `QueueRefinement.dfy`, `DurableQueue.dfy` | the queue: what its file means, the log it refines, the object that changes it |
| `StateFile.dfy` | `_save_posix` over a directory whose changes reach the disk late |
| `Hydration.dfy`, `PollPlan.dfy`, `PlanFacts.dfy`, `WatchEngine.dfy`, `AckReader.dfy` | one poll: hydration, the plan it makes, what the plan is in terms of the API's answers, the engine that carries it out, the reader of acks |
| `Session.dfy` | one connection of the host, over any frames |
| `Delivery.dfy`, `DeliverySafety.dfy`, `DeliveryResults.dfy` | sidecar, host connection, pipes and files as one machine, with crashes of either process and of the machine |
| `DeliveryProgress.dfy` | that machine can always deliver: readiness and whole polls from any state |
| `DeliveryBaselines.dfy` | which baseline a box's cursor goes back to, and when a baseline can be lost |
| `Adapter.dfy`, `AdapterSafety.dfy`, `JobSends.dfy` | claims, drains, jobs and sends of any number of adapters on one state path, interleaved |
| `DrainOrder.dfy`, `DrainSnapshots.dfy` | the order of replies on a thread: exactly when it holds, and runs in which it does not |
| `DrainPass.dfy` | one drain left alone: what it makes of every event |
| `DrainRounds.dfy`, `DrainProgress.dfy` | progress of the drains, in rounds and under any schedule |
| `DrainDuty.dfy` | which drain follows which step, and what a host at rest leaves pending |
| `Bridge.dfy`, `BridgeCounts.dfy`, `BridgeSafety.dfy` | both machines over one queue: from the mailbox entry to the mutation, and a count of what is taken in, pending and answered |
| `Mutation.dfy` | one final response: the mutation, the exit code, the retry loop |
| `Credentials.dfy`, `CredentialAccess.dfy`, `CredentialSafety.dfy`, `CredentialResults.dfy` | token rotation by many managers on one store, with power losses |

The pieces fit as follows. The class methods are proved against specification functions (`Poll` against
`PlanOf` and `AfterAcks`, the queue object against `QueueModel`), the queue file is proved to refine a log of
completions followed by pending events, the machine in `Delivery.dfy` is built from those functions, and
`Bridge.dfy` runs it with the adapters over the same queue: every run of the bridge is a run of each, so what is
proved of either holds of both together. A save of any file has three outcomes throughout: it returned, it failed
before the rename, or it failed after it. `StateDirectory.Save` proves when each happens and what it leaves on disk: only
the new bytes, what could be left before, or that or the new bytes. That is how the machines list the contents a power
loss may bring back (`AfterSave`), of the queue, the cursor file and the credential file alike.

What a plan, an attempt, a refresh or a save comes to is stated over the answers of the API and the outcomes of the
calls (`PlanFacts`, `ReplyEnds` and `CommentEnds`, `RefreshEnds` and `AccessEnds`, `Replaces`), not over the functions
that compute it. The machines leave their environment every choice (`EnvironmentFree` in `DeliveryProgress`, `DrainPass`
and `CredentialAccess`), and nothing in them stands still: from any state a connection can be made ready and deliver all
its boxes owe (`DeliversAfterAll`), a drain treats every event of its snapshot (`DrainAlone`), a host that lets nothing
down empties its queue (`NothingLeftPending`), and a manager's steps can do what its methods do (`AccessRuns`).

A run begins with any cursor file and with any queue that saves may leave (`SavedRepresents`), items stored before kinds
existed included, which load as messages (`LegacyLoadsAsMessage`).

## What does not hold

Six expectations a reader may have are false of the code. Each has a run or an input that shows it, and an exact
condition.

* *An ingest that returns has put its event on disk.* If a save fails after its rename, the ingest raises and
  nothing is acknowledged, but the event can be read back. Offered again it is refused as seen, that refusal is
  acknowledged, and a power loss may still restore the old file (`RetriedIngestNotDurable`). Over every run, an
  identity the queue shows is missing from some possible content exactly when it was taken in by such a save, and no
  save of the queue has returned and the machine has not gone down since (`NotSecureExactly`); `EarnedExactly` says
  which acknowledgements that concerns.
* *A box's first baseline is kept once readiness is announced.* If the baseline save fails after its rename, the next
  start finds the box in the file that readers see, saves nothing and announces readiness; a power loss may then bring
  back the file without the box, and the start after that takes a new baseline. What arrived between the two is never
  emitted (`BaselineSkips`). Over every run, the baseline of the first readiness is the one in force exactly when no
  power loss since has brought back a file without the box (`FirstBaselineExactly`), and one can do so exactly when the
  box came into the file by a save that failed after its rename, and no save of the file has returned and the machine
  has not gone down since (`LackedExactly`).
* *A drain over a fresh snapshot replies in order.* A drain passes over an event whose thread is claimed, and
  waits in a later dispatch; if the first job ends meanwhile, a later event of that thread is claimed next
  (`OrderCanFail`, from an empty host). Replies are in order exactly when every claim under which a reply was
  confirmed was made for the first pending event of its thread (`OrderByClaims`), and a claim is in order exactly
  when the drain has not passed over a pending event of the thread (`ClaimOrderExact`).
* *A confirmed reply completes its event.* The completion after the reply may fail. The event then stays pending
  exactly when the completion did not reach the file (`ConfirmedSendCompletesItsEvent`), and the next drain replies
  again (`RepliesTwice`).
* *Every event the sidecar builds is accepted by the host.* A message is not checked for a positive sender
  number, the Go encoding drops a zero, and the host then refuses the frame (`ZeroCreatorRefused`).
  `HostTakesExactly` gives the exact condition, the host's account included, and by `AckedWereReadable` a box never
  moves past an event that is refused whenever it is hydrated.
* *A refresh token is sent once.* It is sent again after a refused request (`RefusedPostSpendsTwice`), after a
  grant that was not stored although it replaced the token (`LostSaveSpendsTwice`), and after one that was stored, when a
  power loss brings back the file before it (`PowerLossSpendsTwice`). Two requests send the same token exactly when the
  same replacing grants were in force when they were sent (`RotationExact`). A grant is in force exactly when a save
  put it into the file and every power loss since brought back a content that has it (`InForceExactly`); one can be
  undone exactly when its save failed after the rename, and no save has returned and the machine has not gone down since
  (`RevertibleExactly`). When nothing is undone, two requests send the same token exactly when no grant from the first
  on was stored with a replacement (`RotationUnlessUndone`).

## Assumptions

They appear as `requires` clauses, as guards of steps, or in the predicates `Honest` and `Fresh`: box ids are distinct in
a poll; each create of the SDK is one POST, although the client is built with retries; a create answered with 404, 409,
422 or 429 was not applied and one answered with success was; a sidecar process that is cut off does not exit with
code 75; the token endpoint issues tokens it has not issued before; the gateway's `handle_message` raises only before
it has handed the event to a job; the queue can be read when a job ends. Newest-first listings are assumed only by
`SinceIsExact` and `SinceTellsExactly`; `SinceIsLongestPrefix` says what happens without. The results on reply order assume what `Fixed`
says: authorization does not change, and a restart finds the queue as it was.

## Model

| member | source | states |
|---|---|---|
| DeliveryResults.NoLoss | sidecar/watch.go:192-226 | over every run with crashes of the sidecar, the host and the machine: each cursor on disk of a box whose readiness was announced is reached from the last announced baseline through increments all of whose events, but the owner's, were acknowledged; that is the only baseline announced if and only if no power loss brought back a file without the box after that; and each acknowledgement made for an event as held is for one completed or pending in every content the queue may have on disk |
| DeliveryBaselines.FirstBaselineExactly | sidecar/watch.go:43-74 | over every run: the baseline of a box's first readiness is in force, and the only one, if and only if no power loss since brought back a cursor file without the box |
| DeliveryBaselines.LackedExactly | sidecar/cursor.go:110-117 | over every run, when readiness is announced included: a power loss may bring back a cursor file without a box that readers see in it if and only if the box came in by a save that failed after its rename and no save of the file has returned and the machine has not gone down since |
| DeliveryBaselines.FirstBaselineKept | sidecar/watch.go:68-73 | in a run in which no save of the cursor file fails after its rename, with any power losses, each box keeps its first baseline |
| DeliveryBaselines.AnnouncedGrows | sidecar/watch.go:53-67 | no step takes an announced baseline back |
| DeliveryBaselines.BaselineSkips | sidecar/watch.go:68-73 | for any two cursors, a run in which readiness is announced with the first, nothing is polled or acknowledged, and the box then stands at the second |
| DeliveryResults.EarnedExactly | hey_platform/adapter.py:359-362 | per acknowledgement, over every run: turned away if and only if the sender is not authorized; exposed if and only if the event is authorized, was seen before, and was taken in by a save that failed after its rename with none returned and no power loss since; held otherwise, and then in every content |
| DeliveryResults.NotSecureExactly | hey_platform/engine.py:595-611 | over every run: an identity the queue shows is missing from some content a power loss may bring back if and only if it was taken in by a save that failed after its rename and no save has returned and the machine has not gone down since |
| DeliveryResults.NoLossWhileUp | hey_platform/adapter.py:344-364 | while the machine stays up, every acknowledgement for an authorized sender, exposed or not, is for an event completed or pending in the queue readers see |
| DeliveryResults.ChainDelivered | sidecar/watch.go:212-220 | a cursor justified by fully acknowledged polls is justified by fully acknowledged increments, back to the baseline |
| DeliveryProgress.DeliversAfterAll | sidecar/watch.go:76-228 | whatever a run has been through, crashes and failed saves included, it has a continuation in which every event its boxes owe is emitted, taken in and acknowledged in order, and every box moves, when the cursor file loads, the boxes can be listed and read and the queue refuses none by failing |
| DeliveryProgress.PollRuns | sidecar/watch.go:192-226 | the same of one poll from a connection at rest |
| DeliveryProgress.ReadyRuns | sidecar/watch.go:43-74 | from any state at all the host can start over and reach a connection at rest, with a cursor for each box and the queue as it was |
| DeliveryProgress.RoomWelcomes | hey_platform/engine.py:651-689 | the queue refuses no event of the host's account by failing as long as it has room for all of them |
| DeliveryProgress.SavedBeforeEmitted | sidecar/watch.go:192-226 | over every run with any crashes: an event is written only when readers see the cursors earned by the acks before it, and a poll ends only when all its events were acknowledged and readers see every box moved |
| DeliveryProgress.ErrorHeard | hey_platform/adapter.py:344-350 | a sidecar that ends with an error says so in a fatal frame, and the host that hears it gives the connection up with nothing taken in |
| DeliveryResults.ExposedOnlyAfterFailedSync | hey_platform/engine.py:595-611 | a run without a save that failed after its rename exposes no acknowledgement and leaves one content possible |
| DeliverySafety.RetriedIngestNotDurable | hey_platform/engine.py:674-687 | a fresh event whose save fails after the rename is refused, not rewritten, when offered again |
| DeliverySafety.RunInv | hey_platform/adapter.py:304-364 | every step of either process and every crash keeps the pipeline invariant |
| DeliveryResults.AckNeverMismatches | sidecar/watch.go:298-309 | the sidecar only ever reads the ack of the event it waits for, and never two |
| DeliveryResults.IngestsTheAwaitedEvent | sidecar/watch.go:204-211 | the host ingests exactly the event the sidecar waits on; nothing else is in flight |
| DeliveryResults.NothingBeforeReady | hey_platform/adapter.py:304-318 | over every run: a step that ingests or acknowledges comes after a step that accepted the ready frame of the same connection, with nothing but good event frames handled since; no other step acknowledges or takes anything in |
| DeliveryResults.AckedWereReadable | hey_platform/adapter.py:351-362 | over every run, an identity is acknowledged only if some poll planned an event under it that the host's reader accepts for this account |
| DeliveryResults.KindPreserved | sidecar/main.go:109-183 | over every run, an event in the queue was there, as it is, when the run began, or carries the kind of the entry of its thread from which some poll hydrated it |
| BridgeSafety.MutationsMatchEntries | hey_platform/adapter.py:525-536 | over every run of the whole bridge: every mutation invoked is on a thread and entry that some poll listed, and is a comment exactly when that entry is a comment; or it is for an event that was pending when the run began, with that event's kind |
| BridgeSafety.EachTakenUntilDone | hey_platform/adapter.py:359-387 | over every run of the whole bridge with any crashes, for each content the queue may have on disk: each time an event was acknowledged under an identity as newly taken in, or was pending when the run began, is matched by its being pending or by a recorded reply or a drop of its own, so an identity accepted again is owed a new answer |
| BridgeSafety.AckedUntilDone | hey_platform/adapter.py:344-387 | the same for every acknowledgement of an event as held, refusals as seen included: it is pending in every content, unless it was replied to, dropped because its sender was not authorized, or completed before the run began |
| BridgeSafety.AckedUntilDoneWhileUp | hey_platform/adapter.py:344-387 | while the machine stays up, the same of every acknowledgement for an authorized sender, in the queue readers see |
| BridgeSafety.RunInv | hey_platform/engine.py:711-742 | the pipeline's queue and the adapters' queue stay the same over every step of either and every crash |
| BridgeSafety.PipeIsRun | hey_platform/adapter.py:344-364 | the pipeline of a run of the bridge is a run of the pipeline |
| BridgeSafety.HostIsRun | hey_platform/adapter.py:366-387 | the adapters of a run of the bridge make a run of the adapters |
| BridgeSafety.PipelineUnhindered | hey_platform/engine.py:651-689 | the adapters can follow every step of the pipeline, so joining the two excludes none of them |
| BridgeSafety.AdaptersUnhindered | hey_platform/engine.py:711-742 | nor does it exclude a step of an adapter, however a save in it ends |
| BridgeSafety.CrashUnhindered | hey_platform/engine.py:548-621 | nor does it exclude a crash of the host or a power loss, whichever content comes back |
| BridgeSafety.CompletionAgrees | hey_platform/engine.py:711-742 | completing an identity does the same to the log and to the adapters' queue, for every way the save ends |
| Session.Connection | hey_platform/adapter.py:304-318 | over any frames and any completions meanwhile: without a valid ready frame nothing happens; after it frames are ingested and acknowledged in order up to the first that is no event of this account, or whose ingest, acknowledgement or following drain fails, and only in the last case is that frame acknowledged |
| Session.AckedIsHeld | hey_platform/adapter.py:359-362 | every authorized event a connection acknowledged is completed or pending in the queue it leaves, whatever was completed meanwhile |
| WatchEngines.WatchEngine.Poll | sidecar/watch.go:76-228 | a failed gathering has no effect; otherwise everything is emitted exactly when every write succeeds, every wait yields the item's acknowledgement and every save of moved cursors returns; a write that fails, a wait cut short or answered otherwise, and a save that does not return end the poll there and are the only causes of these ends; the plan's events up to there are written in order, the lines read are those of the acks, and the cursors on disk are those earned by the acks at every moment a crash could hit |
| WatchEngines.CausedOnce | sidecar/watch.go:192-226 | what the environment does to a poll leaves it one end, one number of acks and one number of events written |
| WatchEngines.WatchEngine.EmitAll | sidecar/watch.go:192-226 | the same of the loop over the items, which keeps the counters equal to the unacknowledged events of each box |
| WatchEngines.CountAndSort | sidecar/watch.go:172-190 | counting and sorting the event map gives the plan's order and the exact counts, whatever order the map yields |
| WatchEngines.Advance | sidecar/watch.go:212-220 | after one more ack, exactly the boxes with nothing left move to their next cursor, and the cursors are saved exactly when one does |
| WatchEngines.AdvanceIdle | sidecar/watch.go:192-203 | before the first event, exactly the boxes with no event move, and the cursors are saved exactly when one does |
| WatchEngines.GatherAll | sidecar/watch.go:144-170 | the gathering loops compute the plan's event map |
| WatchEngines.WatchEngine.Initialize | sidecar/watch.go:43-74 | readiness is announced exactly when the file is usable, the boxes are listed and can be recorded, the baseline is on file already or its save returns, and the write succeeds; the file then has the whole baseline, which may not have been synced (`DeliveryBaselines.LackedExactly`), and each failure leaves the file it should |
| WatchEngines.BaselineExact | sidecar/watch.go:53-67 | a baseline is made exactly when every box has a positive number and an address, and each unknown one an address that names a cursor; it covers the known and the listed boxes, and each unknown box stands at the cursor its own address names |
| WatchEngines.BaselineKeeps | sidecar/watch.go:53-67 | a baseline never moves a known cursor, covers every box, and can be loaded again |
| WatchEngines.WaitingNone | sidecar/watch.go:215-216 | a box's counter is zero exactly when all its events are acknowledged |
| PlanFacts.PlanExact | sidecar/watch.go:98-190 | over the API's answers and the cursors: an identity is emitted for a box if and only if some topic posting with a positive number, added or updated since the box's cursor, hydrates since that cursor's time to an event of that identity by someone else; the box may move to the cursor the API names; each identity comes once, oldest first |
| PlanFacts.PlanSucceedsExactly | sidecar/watch.go:98-166 | when events are dated readably: a plan is made exactly when every box has a readable cursor and changes that need no full sync and name a proper next cursor, and every touched topic hydrates |
| PlanFacts.PlanFails | sidecar/watch.go:98-166 | a plan that is not made has the reason its error names |
| PlanFacts.ItemsStand | sidecar/watch.go:144-170 | an item found more than once is dated and told by the lowest box, and there by the first posting by number and address, that has it |
| PollPlan.PlanIgnoresBoxOrder | sidecar/watch.go:88 | the order in which boxes are listed does not matter |
| PlanFacts.ReplayExact | sidecar/watch.go:192-226 | a poll repeated after any number of acks, with the same answers, emits for each box that did not move exactly what it emitted before and nothing for the others |
| PollPlan.ArrangeCanonical | sidecar/watch.go:179-190 | the emission order is the only strict arrangement of the pending events |
| Hydration.HydratePostingSince | sidecar/main.go:80-107 | the loop with its early break and reversal computes the newer prefix, oldest first, with its error cases |
| Hydration.SinceTellsExactly | sidecar/main.go:80-107 | on a listing that goes back in time: the events tell, oldest first, of exactly the entries of kind message whose fetched message was created after the cursor and of kind comment created after it, field by field; other entries contribute nothing |
| Hydration.SinceEnds | sidecar/main.go:80-107 | the hydration fails exactly on a bad address, a listing that cannot be read, or a message or comment that is incomplete while all before it are complete and newer |
| Hydration.SinceIsExact | sidecar/main.go:80-107 | on a listing whose hydrated entries come newest first: exactly the messages and comments that hydrate and were created strictly after the cursor, oldest first; an entry past the break that would not hydrate is not looked at |
| Hydration.BreakLosesNothing | sidecar/main.go:88-101 | on such a listing the early break loses no entry that hydrates |
| Hydration.SinceIsLongestPrefix | sidecar/main.go:88-101 | on any listing: the newer entries of the longest prefix whose supported entries are all newer |
| Hydration.EventsWellBuilt | sidecar/main.go:109-183 | every event carries its thread and entry, and the kind of an entry listed in that thread |
| Hydration.HostTakesExactly | hey_platform/adapter.py:351-358 | a host takes the frame of a posting's event, unchanged, exactly when posting and sender numbers are positive and the posting is of its own positive account number |
| Hydration.ZeroCreatorRefused | sidecar/main.go:147-164 | a message is built into an event whatever its creator's number; with 0 a host of any account refuses the frame, with any other it takes it |
| Hydration.TopicEntries | sidecar/sdk.go:72-93 | the bounded page loop computes the listing |
| Hydration.ListingComplete | sidecar/sdk.go:72-93 | a listing is the whole chain of pages or nothing |
| AckReaders.BufferedReader.ReadLimitedLine | sidecar/watch.go:332-344 | for any buffer size: the next line exactly when it fits the limit, an error exactly when not, no byte lost |
| AckReaders.LineExtends | sidecar/watch.go:332-344 | a piece without a newline taken off the input is taken off its first line |
| AckReaders.LinesSplit | sidecar/watch.go:252-254 | successive lines split the input without loss or repetition |
| Events.FromDictExact | hey_platform/core.py:83-113 | reading inverts writing, and only what writing a valid event produces is read |
| Events.EventFrameAccepted | hey_platform/core.py:143-152 | a sidecar's event frame is accepted exactly when its event is valid, unchanged, and is never taken for another frame |
| Events.PostReadyFrames | hey_platform/adapter.py:344-358 | of all frames there are, the host takes exactly the event frames of valid events of its account |
| Events.ReadyFrameExact | hey_platform/core.py:116-123 | the one frame that announces readiness is the ready frame of protocol version 2 |
| Events.FatalFrameExact | hey_platform/core.py:126-140 | a fatal frame is one with nothing but a reason that is not blank; every other frame that claims to be fatal is malformed |
| Events.PersistedExact | hey_platform/engine.py:58-69 | a stored item is the current form of a valid event or the kindless form of a message |
| Events.NoCoercionLeft | hey_platform/core.py:148-152 | the guard against coerced payloads never fires |
| Decimal.AccountsAgree | hey_platform/client.py:41-50 | the length and lexicographic test accepts exactly the renderings of 1 to 2^63-1 |
| Decimal.ParseCanonicalAccount | sidecar/app.go:230-244 | the Go loop and bounded parse accept the same strings, with the same value |
| Decimal.LexIsNumeric | hey_platform/client.py:41-50 | for equal lengths, string order is numeric order |
| Decimal.EventIdInjective | hey_platform/core.py:64-66 | printing an identity is one-to-one on threads and entries |
| Decimal.MatchesIdentityImage | hey_platform/engine.py:38 | the identity pattern accepts exactly what printing produces |
| Decimal.IsIdentityExact | hey_platform/client.py:541 | the matcher decides the pattern |
| Decimal.ContextRoundTrip | hey_platform/core.py:155-159 | reading a context inverts printing it, and nothing else is read |
| QueueRefinement.SavedRepresents | hey_platform/engine.py:623-649 | any file a save has written stands for the log of what it holds, so that runs may start from it |
| QueueRefinement.RunRefines | hey_platform/engine.py:623-742 | from any such file, after any run and any save faults: the last completed identities in completion order, then the pending ones in ingestion order, without duplicates |
| QueueRefinement.StepRefines | hey_platform/engine.py:651-742 | one operation on the file is one operation on the log, with the same answer |
| QueueRefinement.ReacceptedAfterEviction | hey_platform/engine.py:651-689 | a completed identity is accepted again only after at least `maxSeen` other completions |
| QueueRefinement.SaveLoad | hey_platform/engine.py:623-649 | what a save writes is loaded back as the state saved, within the limits, if and only if no identity is pending twice |
| QueueRefinement.LoadedIsLoadable | hey_platform/engine.py:475-534 | what loading accepts is canonical |
| QueueRefinement.LoadExact | hey_platform/engine.py:475-534 | which files load and as what: no file as the empty state, and a file within the byte limit as the canonical state whose identities and stored forms it lists; no other content is accepted |
| QueueRefinement.ResaveFixedPoint | hey_platform/engine.py:623-649 | saving what was loaded is stable after one save |
| QueueRefinement.LegacyLoadsAsMessage | hey_platform/engine.py:58-69 | a list with a kindless item loads as the list with that item a message |
| DurableQueues.DurableQueue.Trim | hey_platform/engine.py:536-546 | each value once, at its last position, the last `cap` of them |
| DurableQueues.DurableQueue.Save | hey_platform/engine.py:623-649 | the file and the answer are those of the model |
| DurableQueues.DurableQueue.Ingest | hey_platform/engine.py:651-689 | likewise for ingest; an unauthorized event is refused without a look at the file, and a file that loading rejects is left alone, with its error |
| DurableQueues.DurableQueue.Complete | hey_platform/engine.py:711-742 | likewise for complete, with its effect on the log; a file that loading rejects is left alone, with its error |
| StateFile.StateDirectory.Save | hey_platform/engine.py:548-621 | a save returns exactly when every call and every write succeeds, and raises after the rename exactly when only the check or the directory sync after it fails; at every step a crash leaves what it could have left before, or that or the new bytes, or only the new bytes, and the last exactly when the save returns; so what it may leave is what the machines list for each outcome (`AfterSave`) |
| StateFile.StateDirectory.WriteAll | hey_platform/engine.py:579-585 | the partial-write loop reassembles every byte in order, unless a write fails before the last byte is taken |
| StateFile.ReplaceAdds | hey_platform/engine.py:595-611 | a rename adds exactly the new bytes to what a crash may leave and takes nothing away; a directory sync leaves only them |
| StateFile.CreatePreserves | hey_platform/engine.py:562-571 | creating the temporary file changes nothing of what a crash may leave at the path |
| Adapters.ClaimTable.Claim | hey_platform/adapter.py:164-171 | a claim succeeds exactly on a free thread and changes only that thread |
| Adapters.ClaimTable.Release | hey_platform/adapter.py:190-198 | a release drops exactly the claims of one identity |
| Adapters.FindEventSpec | hey_platform/adapter.py:177-188 | the claimed event is found exactly when it is pending |
| AdapterSafety.ClaimsNameTheirThread | hey_platform/adapter.py:164-198 | in every reachable state a claim maps a thread to an identity of that thread, and no two jobs or dispatching drains stand for one thread |
| AdapterSafety.CallsAreClaimedAndPending | hey_platform/adapter.py:512-536 | a mutation is invoked only for the pending event its thread's claim names, with that event's kind |
| JobSends.SendsExactly | hey_platform/adapter.py:512-536 | over every run and interleaving: a send of a job invokes the mutation, of the kind of its event, exactly when that event is still pending; otherwise it fails for good |
| JobSends.MaySendExactly | hey_platform/adapter.py:495-505 | over every run: a job may send exactly when it has not sent yet or its last send was answered as retryable |
| AdapterSafety.ConfirmedSendCompletesItsEvent | hey_platform/adapter.py:506-510 | after a confirmed send exactly its event leaves the queue if and only if the completing save reached the file, and every other event stays in order |
| AdapterSafety.PendingLeavesOnlyWhenDone | hey_platform/adapter.py:366-387 | while the process lives an event leaves the queue only by a confirmed send or a lost authorization whose completion reached the file |
| AdapterSafety.ReleaseIsLocal | hey_platform/adapter.py:190-198 | releasing a held identity frees its thread and no other |
| AdapterSafety.RunInv | hey_platform/adapter.py:366-387 | every interleaving of drains, jobs, sends, completions and restarts keeps the claim invariant |
| DrainOrder.OrderExact | hey_platform/adapter.py:366-387 | completions that fail included: replies on a thread follow ingestion order, each event replied to until a reply is recorded, if and only if every reply was to the first pending event of the thread; the events accepted are as many as those settled and those pending |
| DrainOrder.OrderByClaims | hey_platform/adapter.py:380-384 | the same at the claims: in order if and only if every claim under which a reply was confirmed was made for the first pending event of the thread |
| DrainOrder.BeginsByClaim | hey_platform/adapter.py:164-171 | such a hold begins with a drain claiming a pending event of a free thread, the queue unchanged, or with a claimed identity taken in again |
| DrainOrder.ClaimedInOrder | hey_platform/adapter.py:380-384 | if every claim is for the first pending event of its thread, order holds over every run |
| DrainRounds.RoundShrinks | hey_platform/adapter.py:366-387 | a round of a drain and its jobs, these ending in any order, removes one event of each thread and keeps order |
| DrainRounds.RoundsDrain | hey_platform/adapter.py:366-387 | rounds empty the queue, each thread's events confirmed in ingestion order |
| DrainRounds.PassRuns | hey_platform/adapter.py:366-387 | a drain over a quiet host, while no job ends, dispatches exactly the first event of each thread and passes over the rest |
| DrainPass.DrainAlone | hey_platform/adapter.py:366-387 | from any reachable state, whatever is claimed and whatever a drain left alone finds about each event short of a stop: it drops exactly the events of unauthorized senders, dispatches exactly the first cleared event of each thread that was not claimed, and leaves the rest of the host as it was |
| DrainPass.DrainStops | hey_platform/adapter.py:367-374 | a drain that meets an event of another account, or whose drop raises, stops there: what came before is treated as in a full pass, what comes after is left alone, and the event leaves the queue only if its drop reached the file |
| DrainPass.DispatchStops | hey_platform/adapter.py:382-387 | a dispatch that fails ends its drain, frees the thread again, and leaves the event and those after it alone |
| DrainProgress.EveryScheduleProgresses | hey_platform/adapter.py:366-387 | under any interleaving of drains, dispatches and jobs whose sends are all confirmed and completed: between two idle states, if a drain started with something pending, some event was answered for good, and the queue is short by exactly the number answered |
| DrainDuty.LeftPendingWasLetDown | hey_platform/adapter.py:462-476 | over every run and interleaving, when each accepted event, each job that ends with its event gone and each start of the host calls for a drain: an event pending in a host at rest was let down by a drain, dispatch or job that ended without it or a drain that did not come, has been pending since, and no drain was started since |
| DrainDuty.NothingLeftPending | hey_platform/adapter.py:359-387 | a host that lets nothing down comes to rest with an empty queue |
| DrainSnapshots.ClaimOrderExact | hey_platform/adapter.py:367-384 | a claim is in order if and only if the drain has not passed over a pending event of the thread, when no event of a snapshot is taken in again while a drain walks it |
| DrainSnapshots.OneDrainReorders | hey_platform/adapter.py:380-384 | from any idle host with four such events one fresh drain can reply out of order |
| DrainSnapshots.OrderCanFail | hey_platform/adapter.py:380-384 | a run from an empty host, everything in it succeeding, whose replies on a thread are out of order |
| DrainSnapshots.RepliesTwice | hey_platform/adapter.py:506-510 | a run from an empty host in which one event taken in once is replied to twice, because the first completion failed |
| Mutations.SendWithRetry | hey_platform/adapter.py:483-510 | each attempt ends as its own world decides (`SendEnds`), the attempts end with the first that is not retryable or when they are used up, and only the last can have been applied |
| Mutations.Send | hey_platform/adapter.py:525-557 | a run that comes to its end is told as a success exactly when it had no error, and as retryable exactly when its error was marked safe and was no cancellation; one that never starts or is cut off as a final failure; retryable means that nothing was applied, success that the create was |
| Mutations.SendClaimed | hey_platform/adapter.py:519-536 | a send invokes the mutation of its event's kind exactly when the thread's claim names a pending event |
| Mutations.RetryableExact | hey_platform/adapter.py:478-481 | of all messages the runner raises, exactly exit code 75 reads as retryable |
| Mutations.RunReply | sidecar/reply.go:42-116 | a reply is created exactly when the thread is positive, the text is not blank and within the limit, the listing has a message with an identity, the draft for the first such message has some contact whose trimmed address is not empty, and there is a positive sender; it carries the text and the draft's addresses to that message; a failed read is told as it failed and marked safe exactly when it may pass, a failed create exactly when its status is 404, 409, 422 or 429, and everything else ends in a final error |
| Mutations.ReplyEndsOneWay | sidecar/reply.go:42-116 | that settles both the creates and the error |
| Mutations.RunComment | sidecar/comment.go:16-44 | a comment is created, with its text, exactly when thread and text allow it; it succeeds exactly on a success status or a redirect back to the thread, and its error is marked safe exactly when the create was definitively rejected |
| Mutations.RunSidecar | sidecar/app.go:128-155 | a run without a client ends as a failed read, any other as the mutation of its kind; one that ends safe to retry applied nothing |
| Mutations.ContactEmails | sidecar/reply.go:149-161 | the loop computes the address list |
| Mutations.AddressesSpec | sidecar/reply.go:149-161 | the addresses are those of the contacts that introduce one, in their order: neither blank nor equal up to case to one before |
| CredentialResults.RotationExact | sidecar/auth.go:87-163 | in any interleaving, with any power losses, whatever the server answers and however saves end: two requests of an origin send the same refresh token if and only if the same replacing grants were in force when they were sent, and spend the same access token if and only if the same grants were; so do managers that observed the same token |
| CredentialResults.InForceExactly | sidecar/auth.go:254-258 | over every run: a grant is in force in the file that readers see if and only if a save put it there and every power loss since brought back a content that has it |
| CredentialResults.RevertibleExactly | sidecar/auth.go:254-258 | over every run: a power loss may undo a grant in force if and only if its save failed after the rename, and no save has returned and the machine has not gone down since |
| CredentialResults.RotationUnlessUndone | sidecar/auth.go:87-163 | when power losses bring back what readers saw: two requests send the same refresh token if and only if no grant from the first on was stored with a replacement, and spend the same access token if and only if none was stored |
| CredentialResults.UndoneOnlyAfterFailedSync | sidecar/auth.go:254-258 | in a run without a save that failed after its rename no power loss undoes anything |
| CredentialSafety.SpentTwiceExactly | sidecar/auth.go:146-158 | of any history in which each request spends the tokens of a stored grant: the same refresh token if and only if the same replacing grants were in force, the same access token if and only if the same grants were |
| CredentialSafety.RunInv | sidecar/auth.go:87-163 | every step of a manager and every power loss keeps the store, the requests and the lock consistent |
| CredentialResults.OthersUntouched | sidecar/auth.go:211-219 | over any stretch of a run without a power loss and without a step of an origin's managers its entry and its requests stay as they are |
| CredentialResults.LostSaveSpendsTwice | sidecar/auth.go:87-163 | a run in which the server replaces the refresh token, the grant is not stored, and the replaced token is sent again |
| CredentialResults.PowerLossSpendsTwice | sidecar/auth.go:254-258 | a run in which the server replaces the refresh token, the grant is stored without a sync, a power loss undoes it, and the replaced token is sent again |
| CredentialResults.RefusedPostSpendsTwice | sidecar/auth.go:122-136 | a run in which a refused request makes the same token be sent again |
| Credentials.CredentialManager.RefreshLocked | sidecar/auth.go:87-163 | a token another manager stored is adopted; otherwise a request is sent exactly when there is a refresh token and a secure endpoint, and the refresh succeeds exactly when an access token comes back and its save returns; the stored credential is then the old one with the granted tokens, what the answer leaves out kept but the expiry, and no other origin changes |
| Credentials.CredentialManager.AccessToken | sidecar/auth.go:57-79 | a credential whose expiry is set and at most five minutes away is refreshed, and the token returned is the granted one, or none when the request cannot be made, is refused or is not saved; any other is returned as stored, with the store untouched |
| CredentialAccess.AccessRuns | sidecar/auth.go:57-79 | in the machine of many managers, from any state in which the lock is free, a manager's own steps can do what `AccessToken` does on the stored credentials, and leave all other managers and origins alone |
| CredentialAccess.RefreshRuns | sidecar/auth.go:87-163 | the same of a refresh, with the one request it sends |

## Left out

- Windows: the ctypes and ACL code, `auth_lock_windows.go` and the Windows replace are not modelled; the replace is taken to be atomic as on POSIX.
- Processes: spawning, process groups, timeouts, stderr and thread joining appear only as the outcomes they have (an exit code, a cut-off run, a crash).
- Permission, ownership, symlink and inode checks appear only as calls that may fail.
- JSON text and Unicode: frames and files are values; the byte length of a state is an abstract function of its value; texts are sequences of characters, so a limit in bytes counts characters and a blank text is one of ASCII white space.
- The HEY SDK, HTTP and the gateway base class are environment: their answers are parameters or free choices of a step.
- API answers are fixed while one poll gathers; a box number stands for its decimal key in the cursor file; timestamps are integers parsed and printed by abstract functions.
- URL parsing of a posting is an abstract function from its address to a topic number; `hydratePosting` and `visibleEventEntry` are not used by `poll`.
- Delivery.Next: one sidecar runs at a time; an orphan that outlives a crashed host until it next reads its input is not modelled.
- Bridge.Next: completions by the adapters happen between the steps of the connection; a drain that raises and so ends the connection is a completion step followed by the connection's stop.
- Delivery.Halted: frames still in the pipe when the host gives up are dropped with the connection, as the host drops them.
- WatchEngines.WatchEngine.WaitForAck: acknowledgement lines arrive already split and decoded; the splitting is `AckReaders`, the text fallback for cancellation is a flag.
- WatchEngines.CountItems: a Go map is walked in an arbitrary order, modelled by choosing any remaining element.
- Hydration.SinceIsExact: says nothing of an entry past the break that would fail to hydrate, because the loop never fetches it.
- Adapters.Step: a dispatch that fails after its job began, and a queue that cannot be read when a job ends, are assumed away; one mutation is under way for a job at a time, and the final send happens inside the processing of its event; the retry loop of a job is `Mutations.SendWithRetry`.
- DrainSnapshots.ClaimOrderExact: assumes no event of a snapshot is taken in again while a drain walks it; the deduplication window would have to forget it in that time, and the snapshot then no longer orders the queue.
- DrainRounds.RoundShrinks: the jobs of a round start after its drain and end one after the other, in any order, and their completions return; any other interleaving is covered by `DrainProgress.EveryScheduleProgresses` for progress and `DrainOrder.OrderExact` for order.
- DrainRounds.RoundsDrain: is about such rounds; that a drain follows each completed job is `DrainDuty`.
- Credentials.CredentialManager.RefreshLocked: a grant the server issued but whose answer was lost counts as a refused request; a decode error of another origin's entry and reading the file are not modelled; the lock is held or not.
- `redactError`, `validateBaseURL`, identity lookup, setup text, display defaults and `plugin.py` are one-branch checks.
- That each event is dispatched once, or that mutations happen at most once across restarts, is not claimed: snapshots go stale, processing is cancelled, and failures are ambiguous by design.
