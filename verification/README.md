# Models of the Daredevil block layer and NVMe driver

Daredevil is a Linux 6.1 storage stack in which every core can reach every NVMe submission queue and
tasks are steered to queues by priority. This project models the parts of it whose correctness is
hardest to see from one function, and proves what holds of them over all inputs, runs and
interleavings.

* **The flush sequencer** (`Flush`, `FlushQueue`, `FlushRuns`, `FlushRefs`, `FlushOutcomes`). PREFLUSH
  and FUA writes are split into steps that share device flushes through two alternating queues.
  `Flush` gives the transitions and their invariant, also inside the walk of `flush_end_io`, during
  which the list being walked may become the pending list. `FlushQueue` performs the transitions in
  place. `FlushRuns` adds a device with a volatile cache, errors, a clock, other writers and tag
  iterators that hold references to the flush request, and proves durability, absence of deadlock and
  termination. `FlushRefs` says exactly when a failed flush is given to its waiters as a success, and
  `FlushOutcomes` where every request goes and which errors it may end with.
* **PRP lists** (`Prp`, `PrpSetup`). The driver's loop over a scatter-gather list against the
  controller's walk as section 4.3 of NVM Express 1.4 prescribes it, and the pages on failure and
  unmap.
* **The rings** (`Ring`, `NvmeQueue`, `RingRuns`). The lazy submission doorbell, the phase bit, and
  the safety of several submission rings and one completion ring that have no other flow control than
  their shared tags.
* **Submitting lists** (`QueueRqs`, `Dispatch`, `HwCtx`, `DispatchRuns`). `nvme_queue_rqs` on a linked
  list in place, and `blk_mq_dispatch_rq_list` over the driver's `queue_rq`: nothing is lost, and
  which calls leave a command without a doorbell, alone and on a ring that others use.
* **The queue regulator** (`Partition`, `Regulator`, `RoundRobin`, `Merit`, `Heap`, `PrioArrays`,
  `Recommend`, `RecommendAnswers`, `Usage`, `NsqMaps`). The uneven division of queues, its set-up, the
  round-robin choice, the min-heaps with their moving-average merits, recommendation by many CPUs at
  once and what it answers, and the accounting of which CPU uses which queue.
* **Request lists and bios** (`Plug`, `PlugList`, `Bio`, `BioChain`). Plug flushing as a stable
  group-by, and completion of part of a request.

`Seqs`, `Options` and `Arithmetic` hold general definitions and facts. State that the source changes
in place is a class or an array whose methods are proved to compute functions on values; the lemmas
speak about these functions.

The main results are `FlushRuns.RunsAreDurable`, `FlushRuns.QuiescentRunsEndAll`,
`FlushRuns.RunsTerminate`, `FlushRefs.FailureForgivenIff`, `FlushOutcomes.ResultsAreReported`,
`PrpSetup.TransferFollowsSgl`, `RingRuns.RunsAreSafe`, `QueueRqs.BatchesCover` with
`QueueRqs.QueueRqs`, `Dispatch.NothingIsLost`, `Dispatch.DoorbellsAreRung`,
`DispatchRuns.DispatchTellsController`, `Partition.QueueInItsBlock`, `Partition.CompletionFindsTags`,
`Regulators.GroupsSplit` with `Regulators.Regulator.Init`, `Regulators.NsqPickHasPrioIff`,
`Merits.StoredIsBounded`, `Heaps.UpdateMakesHeap` with `PrioArrays.PrioArray.UpdatePriorityArray`,
`Recommend.RecommendedHasPrio`, `RecommendAnswers.AnswersWereOnTop`, `Recommend.HeapsStayWhole`,
`Usages.RunsAreAccurate`, `Plugs.BatchInOrder` with `Plugs.KeysOnce`, `Bios.UpdateKeepsBytes`,
`Bios.EachBioCompletes` and `Bios.AnyPartition`. The other rows below lead to them or tie them to the
code in place.

Seven places where the code does not do all that its text says or its purpose suggests, each with the
exact condition and a concrete input:

* A flush that failed may be given to its waiters as a success, because `flush_end_io` overwrites the
  remembered error when a tag iterator drops a reference that is not the last
  (`FlushRefs.FailureForgivenIff`, `FlushRefs.FailedFlushTakenForSuccess`).
* A `BLEX_NSQ` round-robin pick leaves its group once the counter has wrapped, because the remainder
  is taken of a signed value (`Regulators.NsqPickHasPrioIff`,
  `RoundRobins.WrappedCounterLeavesGroup`).
* A task update clears the old use on the wrong CPU or once too often if the task migrates after its
  CPU was recorded (`Usages.UpdateKeepsGoodIff`, `Usages.UpdateLosesAUse`); a migration while it is
  being recorded leaves its use on the wrong CPU (`Usages.MoveKeepsGoodIff`, `Usages.MoveLeavesAUse`);
  and an outlier update accounts for a queue that the context does not record
  (`Usages.OutlierKeepsGoodIff`, `Usages.OutlierLeavesAUse`).
* The merit is the moving average meant only while the products fit in an int
  (`Merits.AverageIsExactIff`, `Merits.LargeSampleTurnsNegative`).
* `blk_update_request` with all bytes of a request may return true, against its documentation
  (`Bios.WholeUpdateIff`, `Bios.EmptyTailStays`).
* The sector of a request lags behind partial completions that are no whole sectors
  (`Bios.UpdatesComposeIff`, `Bios.HalfSectorsAreLost`).
* `blk_mq_dispatch_rq_list` may return with a command whose doorbell was not rung
  (`Dispatch.DoorbellsAreRung`, `Dispatch.CommandLeftWithoutDoorbell`), if
  `nvme_fail_nonready_command` answers success; that function is in core.c, which is not part of the
  repository.

Run `dafny verify dfyconfig.toml` to check everything.

## Model

| member | source | states |
|---|---|---|
| FlushRuns.RunsAreDurable | daredevil/block/blk-flush.c:190-302 | in every state of every run, with any device failures, completion orders, clock and references: a request has its data written, and if FUA stable, once it ended without error, and whatever had completed when a PREFLUSH request was inserted is stable before its own data may be written and when it ends, unless the request was given a failed flush as a success; no BUG_ON fires |
| FlushRefs.FailureForgivenIff | daredevil/block/blk-flush.c:261-276 | a flush fails while others hold references: each waiting request is given it as a success if and only if a reference that is not the last is dropped between the answer and the last drop, and else it ends with the error |
| FlushRefs.CarefulRunsAreDurable | daredevil/block/blk-flush.c:190-302 | in every run without such a drop all inserted requests get what RunsAreDurable promises, without exception |
| FlushRefs.FailedFlushTakenForSuccess | daredevil/block/blk-mq.c:1644-1652 | a concrete run, with two tag iterators, after which a PREFLUSH request has ended without error although its flush failed and earlier data is not stable |
| FlushRefs.FailureWithoutIterators | daredevil/block/blk-flush.c:261-298 | without other references a failed flush fails every request that waited for it |
| FlushRuns.Progress | daredevil/block/blk-flush.c:190-238 | in every state with an unfinished request some completion is possible: the sequencer never gets stuck |
| FlushRuns.CompletionDecreases | daredevil/block/blk-flush.c:190-302 | every completion, also one that starts another flush, strictly lowers a natural-number measure of the work left |
| FlushRuns.RunsTerminate | daredevil/block/blk-flush.c:190-302 | a run makes at most 15 completions for each insertion and one for each reference a tag iterator takes |
| FlushRuns.QuiescentRunsEndAll | daredevil/block/blk-flush.c:190-302 | a run that can go no further has ended exactly the inserted requests, each once |
| FlushRuns.EventInv | daredevil/block/blk-flush.c:190-504 | every event of the world, also taking and dropping references, keeps the structural invariant and the credit that each recorded step has had its effect on the device unless forgiven |
| FlushRuns.EndAllCredited | daredevil/block/blk-flush.c:277-298 | the end of a flush credits every request that waited for it, without being forgiven, with a step that this flush performed |
| FlushRuns.CreditedIsDurable | daredevil/block/blk-flush.c:125-140 | recording all steps that the policy asks for is enough for durability |
| FlushRuns.InsertInv | daredevil/block/blk-flush.c:435-504 | insertion of any request keeps the world invariant, whichever of the four ways it takes |
| FlushRuns.DispatchInv | daredevil/block/blk-flush.c:322-389 | a flush that reaches the device covers what each request waiting for it needs |
| FlushRuns.DataDoneInv | daredevil/block/blk-flush.c:391-424 | completion of a DATA step, with or without error, keeps the world invariant |
| FlushRuns.FlushDoneInv | daredevil/block/blk-flush.c:240-302 | the answer of the device to a flush keeps the world invariant, however many other references are held |
| FlushRuns.GetInv | daredevil/block/blk-mq-tag.c:283-295 | taking a reference at any time keeps the world invariant |
| FlushRuns.PutInv | daredevil/block/blk-mq.c:1644-1652 | dropping a reference through end_io keeps the world invariant, whether or not it is the last |
| FlushOutcomes.ResultsAreReported | daredevil/block/blk-flush.c:190-302 | in every run, with any failures, orders, clock and references: a request that ended with an error did so because the device reported that error for it or for a flush that it waited for |
| FlushOutcomes.HealthyRunsEndWell | daredevil/block/blk-flush.c:190-302 | in every run without device errors each request that ended did so without error |
| FlushOutcomes.DataOutcome | daredevil/block/blk-flush.c:391-424 | a DATA step without error lets the request end well if its POSTFLUSH was recorded, and else puts it on a queue to wait for it; one with an error ends it with that error |
| FlushOutcomes.FlushOutcome | daredevil/block/blk-flush.c:267-298 | a flush whose last reference is dropped takes each waiter on to the first step it still lacks, or to its good end if there is none; a failed one ends it with the error |
| FlushOutcomes.InsertOutcome | daredevil/block/blk-flush.c:435-504 | a request without steps ends well at once, one of data alone bypasses the queues, and any other waits for or performs the first step of its policy, just the steps outside the policy being recorded |
| FlushOutcomes.CompleteSeqGoes | daredevil/block/blk-flush.c:190-238 | after a completion without error a request waits for, or performs, the first step not yet done; an error ends it with that error |
| FlushOutcomes.KickIssuesIff | daredevil/block/blk-flush.c:322-389 | with requests waiting and no flush in flight a kick issues one for just the pending requests, if and only if no DATA step is in flight or the first request has waited for the timeout |
| FlushOutcomes.PendingClock | daredevil/block/blk-flush.c:216-217 | the clock of the pending queue starts with its first request and is not set again by later ones |
| FlushOutcomes.PolicyIsNeeded | daredevil/block/blk-flush.c:125-140 | a request is given a flush step exactly if it asks for it and some reachable state of the device lets its submitter down without it |
| Flush.LastRefOutcome | daredevil/block/blk-flush.c:267-298 | dropping the last reference gives each waiting request its flush step, and ends it with the remembered error or else the own one, if there is any |
| Flush.EndAllOutcome | daredevil/block/blk-flush.c:286-298 | the walk gives each request it visits its flush step and that status, and changes the standing of no other |
| Flush.EndStepInv | daredevil/block/blk-flush.c:286-298 | one step of the walk removes exactly the visited request from the walked list and adds none, also when the nested kick has just made that list the pending one |
| Flush.EndAllInv | daredevil/block/blk-flush.c:286-298 | the walk visits exactly the requests present at entry and leaves their list empty, with the invariant of the walk kept and a flush or DATA step under way if one is needed |
| Flush.FlushEndIoInv | daredevil/block/blk-flush.c:240-302 | flush_end_io keeps the invariant (lists disjoint and duplicate-free, each matching the current step of its requests; indices differ exactly while a flush is in flight; the tag owner waits in the running list; no BUG_ON) and empties the running list |
| Flush.InsertFlushInv | daredevil/block/blk-flush.c:435-504 | insertion keeps the invariant, for every request whose POSTFLUSH comes with DATA |
| Flush.DataEndIoInv | daredevil/block/blk-flush.c:391-424 | the end of a DATA step keeps the invariant |
| Flush.AdvanceSound | daredevil/block/blk-flush.c:190-232 | completing steps of one request moves that request alone, to the list of its new step or to its end |
| Flush.AdvanceMovesOne | daredevil/block/blk-flush.c:190-232 | a completion changes at most the place, the recorded steps and the outcome of its own request, and ends it at once on an error |
| Flush.CompleteSeqInv | daredevil/block/blk-flush.c:190-238 | blk_flush_complete_seq with its final kick keeps the invariant |
| Flush.KickIndexed | daredevil/block/blk-flush.c:322-389 | a kick toggles the pending index exactly if it issues a flush, and the owner of the borrowed tag is in the running list |
| Flush.PostflushWithoutDataIsCreditedTooEarly | daredevil/block/blk-flush.c:286-298 | a concrete state in which a request with POSTFLUSH but no DATA is met twice by one walk, and its POSTFLUSH is credited while the flush issued after its PREFLUSH is still in flight: the assumption on the policy is needed |
| FlushQueues.FlushQueue.KickFlush | daredevil/block/blk-flush.c:322-389 | performs the transition that the invariant lemmas speak about, on the fields in place |
| FlushQueues.FlushQueue.MoveOn | daredevil/block/blk-flush.c:207-235 | puts the request where its next step takes it |
| FlushQueues.FlushQueue.CompleteSeq | daredevil/block/blk-flush.c:190-238 | performs the completion that CompleteSeqInv and AdvanceSound speak about |
| FlushQueues.FlushQueue.DataEndIo | daredevil/block/blk-flush.c:391-424 | performs the transition of DataEndIoInv |
| FlushQueues.FlushQueue.WalkRunning | daredevil/block/blk-flush.c:286-298 | the cursor loop, which reads the successor before it moves a request, ends in the state of the plain list walk EndAll over the requests present at entry |
| FlushQueues.FlushQueue.EndStep | daredevil/block/blk-flush.c:290-297 | completes the flush step that the visited request waits for |
| FlushQueues.FlushQueue.FlushEndIo | daredevil/block/blk-flush.c:240-302 | drops a reference and performs the transition of FlushEndIoInv and LastRefOutcome |
| FlushQueues.FlushQueue.InsertFlush | daredevil/block/blk-flush.c:435-504 | performs the transition of InsertFlushInv |
| FlushQueues.FlushQueue.GetRef | daredevil/block/blk-mq-tag.c:283-295 | takes one more reference to the flush request |
| PrpSetup.TransferFollowsSgl | daredevil/drivers/nvme/host/pci.c:684-773 | a controller that walks PRP1, PRP2 and the chained list pages as section 4.3 of NVM Express 1.4 prescribes uses, for every byte of the payload, the address the scatter-gather list gives it, in order, with the right number of pages |
| PrpSetup.Iod.SetupPrps | daredevil/drivers/nvme/host/pci.c:684-773 | succeeds with the pointers and the list that TransferFollowsSgl speaks about, or fails with every list page given back; the number of list pages stays within the reserved array |
| PrpSetup.Iod.FillList | daredevil/drivers/nvme/host/pci.c:735-760 | the loop that fills list pages places every entry once, in order, and opens a page exactly when the last one is full; bad_sgl is not reached |
| PrpSetup.Iod.BuildList | daredevil/drivers/nvme/host/pci.c:719-767 | the list holds the entries of the payload, from the small pool exactly up to 32 of them |
| PrpSetup.Iod.AddEntry | daredevil/drivers/nvme/host/pci.c:737-759 | one round of the loop adds the entry for the next page of the data |
| PrpSetup.Iod.ChainPage | daredevil/drivers/nvme/host/pci.c:737-746 | the last entry of a full page moves to the new page and is replaced by a link to it |
| PrpSetup.NextSeg | daredevil/drivers/nvme/host/pci.c:748-759 | the cursor moves to the next page of the data; a segment that ends inside a page while data remains does not occur |
| PrpSetup.FirstCursor | daredevil/drivers/nvme/host/pci.c:699-712 | the cursor after the first, possibly partial, page stands where the data goes on |
| PrpSetup.Iod.FreePrps | daredevil/drivers/nvme/host/pci.c:614-628 | gives back every list page once, under the address it was allocated at |
| PrpSetup.Iod.UnmapData | daredevil/drivers/nvme/host/pci.c:646-668 | gives back exactly the pages of the list, small or chained, told apart by nr_allocations |
| PrpSetup.PagesFit | daredevil/drivers/nvme/host/pci.c:426-431 | a list takes at most ceil(8n / (page - 8)) pages, and the largest transfer fits the reserved array |
| PrpSetup.NextTail | daredevil/drivers/nvme/host/pci.c:748-759 | sg_next is needed exactly when the current segment is used up, and then the next segment begins a page |
| PrpSetup.EntryAligned | daredevil/drivers/nvme/host/pci.c:747-759 | every entry after PRP1 is page-aligned |
| PrpSetup.PageOfEntry | daredevil/drivers/nvme/host/pci.c:747-759 | the page an entry points to holds the next bytes of the data |
| PrpSetup.PagesCover | daredevil/drivers/nvme/host/pci.c:684-773 | the pages PRP1, entries in order, cover each payload byte at its own address |
| Prp.ReadListGives | daredevil/drivers/nvme/host/pci.c:735-763 | the controller reads back the entries of a list over any number of links between pages |
| Prp.ReadSmallGives | daredevil/drivers/nvme/host/pci.c:719-722 | a list from the small pool lies within one page and needs no link |
| Prp.ChainFilled | daredevil/drivers/nvme/host/pci.c:737-746 | moving the last entry of a full page to a new page and linking keeps the sequence of entries |
| Prp.FlatLength | daredevil/drivers/nvme/host/pci.c:735-760 | how many entries a number of full pages holds |
| Prp.NextPage | daredevil/drivers/nvme/host/pci.c:748-759 | the data after a page boundary begins where a page begins |
| RingRuns.RunsAreSafe | daredevil/drivers/nvme/host/pci.c:3057-3057 | with depth - 1 tags per completion queue, in every interleaving and over any number of wraps: submission rings hold exactly the unfetched commands, in order and intact; a held tag finds a free slot; the controller never posts over an unhandled completion; the phase test tells exactly if one waits; completions are handled once each in posting order |
| RingRuns.EventInv | daredevil/drivers/nvme/host/pci.c:555-589 | every event (copy, lazy doorbell, batch, commit, fetch, post, handle, head update) keeps the invariant that ties tags to ring entries |
| RingRuns.RoomForHeld | daredevil/drivers/nvme/host/pci.c:572-579 | a held tag bounds the unfetched commands of each queue below depth - 1 |
| RingRuns.RoomForCompletion | daredevil/drivers/nvme/host/pci.c:1267-1298 | a tag being executed finds its completion slot free, although the entry being handled has already given up its tag |
| Rings.CopyCmdOk | daredevil/drivers/nvme/host/pci.c:572-579 | copying a command keeps every unfetched one and appends the new one |
| Rings.WriteSqDbOk | daredevil/drivers/nvme/host/pci.c:555-570 | the doorbell is rung if asked for or if the ring would look empty; then the controller knows of everything |
| Rings.CommitRqsOk | daredevil/drivers/nvme/host/pci.c:581-589 | after commit the controller knows of every command copied |
| Rings.CleanIsRung | daredevil/drivers/nvme/host/pci.c:555-589 | sq_tail equals last_sq_tail exactly if the controller has been told of every command |
| Rings.CopyAllOk | daredevil/drivers/nvme/host/pci.c:1043-1063 | a batch appends its commands in order |
| Rings.FetchOk | daredevil/drivers/nvme/host/pci.c:555-579 | what the controller fetches is the oldest unfetched command as it was copied |
| Rings.CqePendingIsUnread | daredevil/drivers/nvme/host/pci.c:1139-1144 | the phase test holds exactly if an unhandled completion is at the head |
| Rings.PostOk | daredevil/drivers/nvme/host/pci.c:1139-1144 | a post with a free slot (section 4.6 of NVM Express 1.4) touches no unread completion |
| Rings.UpdateCqHeadOk | daredevil/drivers/nvme/host/pci.c:1267-1277 | moving the head past the handled completion, also over the end of the ring, leaves the others unread |
| Rings.UpdateCqHeadPosts | daredevil/drivers/nvme/host/pci.c:1267-1277 | the head update keeps head and phase in step with the controller |
| NvmeQueues.NvmeQueue.SqCopyCmd | daredevil/drivers/nvme/host/pci.c:572-579 | performs the copy of CopyCmdOk on the ring array |
| NvmeQueues.NvmeQueue.WriteSqDb | daredevil/drivers/nvme/host/pci.c:555-570 | performs the lazy doorbell of WriteSqDbOk |
| NvmeQueues.NvmeQueue.CommitRqs | daredevil/drivers/nvme/host/pci.c:581-589 | performs the commit of CommitRqsOk |
| NvmeQueues.NvmeQueue.SubmitCmds | daredevil/drivers/nvme/host/pci.c:1043-1063 | copies all commands in order and rings once |
| NvmeQueues.NvmeQueue.Enqueue | daredevil/drivers/nvme/host/pci.c:1031-1040 | the tail of nvme_queue_rq: copy, then doorbell as the last flag says |
| NvmeQueues.NvmeQueue.CqePending | daredevil/drivers/nvme/host/pci.c:1139-1144 | answers the phase test |
| NvmeQueues.NvmeQueue.UpdateCqHead | daredevil/drivers/nvme/host/pci.c:1267-1277 | performs the head update of UpdateCqHeadOk |
| NvmeQueues.NvmeQueue.PollCq | daredevil/drivers/nvme/host/pci.c:1279-1298 | handles exactly the completions that wait, oldest first, and rings the completion doorbell once if there were any |
| QueueRqs.QueueRqs | daredevil/drivers/nvme/host/pci.c:1080-1109 | in place on the linked list, for any prep failures: the batches are those of the specification, and the returned list is that of the failed requests, last one first, of which FailedRevMembers says what it holds |
| QueueRqs.BatchesCover | daredevil/drivers/nvme/host/pci.c:1080-1109 | the batches hand over every prepared request once, in list order, each to its own hardware queue; none is empty and there are no more than changes of queue along the list, plus one |
| QueueRqs.FailedRevMembers | daredevil/drivers/nvme/host/pci.c:1088-1095 | the returned list holds a request if and only if it is on the list and failed, each once, and failed and prepared requests make up the list |
| QueueRqs.Round | daredevil/drivers/nvme/host/pci.c:1085-1106 | one round brings the work on the list one request further: submitted, collected and failed so far are what the specification says |
| QueueRqs.Visit | daredevil/drivers/nvme/host/pci.c:1085-1106 | one round of the loop keeps the list split into collected, unvisited and failed requests |
| QueueRqs.SubmitAtBoundary | daredevil/drivers/nvme/host/pci.c:1097-1105 | a batch is cut off and submitted exactly at a change of queue or the end |
| QueueRqs.RqListMove | daredevil/include/linux/blk-mq.h:272-280 | moves one request between linked lists and keeps both linked |
| QueueRqs.SubmitCmds | daredevil/drivers/nvme/host/pci.c:1043-1063 | pops and copies every request of the list in order |
| Dispatch.NothingIsLost | daredevil/block/blk-mq.c:2112-2276 | for every list and every sequence of driver answers each request is in exactly one of accepted, ended with error, or back on hctx->dispatch, and the sorting ends at the first request that could not be tried or that the driver had no room for; that one and the rest go back in list order, before those that wait for a zone |
| Dispatch.LoopSorts | daredevil/block/blk-mq.c:2130-2189 | the loop sorts the requests it tried by their answers, each kind in list order; it tries all requests before the first that lacks a budget or tag or is answered with a lack of resources, and none after it |
| Dispatch.FailedGetTheirStatus | daredevil/block/blk-mq.c:2181-2187 | a request ends with a status if and only if it was tried and failed, and then with the status that the driver gave for it |
| Dispatch.DoorbellsAreRung | daredevil/block/blk-mq.c:2130-2204 | a ring used by this call alone that was clean on entry is clean on return if and only if the call is not stranded: a copied command announced as not the last, followed only by requests accepted without using the ring |
| DispatchRuns.DispatchTellsController | daredevil/block/blk-mq.c:2112-2204 | whatever other submitters, the controller and the completion handler do before, between and after what a call does to a shared ring: unless the call is stranded, on return the controller has been told of every command that the call copied |
| DispatchRuns.ActsTell | daredevil/block/blk-mq.c:2130-2204 | the last thing a call does to the ring tells the controller of everything, if and only if the call is not stranded |
| Dispatch.TroubleCommits | daredevil/block/blk-mq.c:2188-2204 | a call that has met an error or a lack of resources commits whatever it copied |
| Dispatch.CommandLeftWithoutDoorbell | daredevil/drivers/nvme/host/pci.c:1004-1041 | a concrete stranded call: the controller stops being ready between two requests |
| HwCtxs.HwCtx.DispatchRqList | daredevil/block/blk-mq.c:2112-2276 | the method ends in the ring, dispatch list, outcomes and end statuses of the specification and reports progress exactly if nothing went back and something was accepted or ended |
| HwCtxs.HwCtx.QueueRq | daredevil/drivers/nvme/host/pci.c:1004-1041 | copies and rings exactly if it answers from the ring, else leaves the ring alone |
| Partition.BlocksFill | daredevil/include/linux/blk-blex.h:416-446 | the blocks of the completion queues follow one another without gap or overlap and fill 1..max_nqid |
| Partition.QueueInItsBlock | daredevil/include/linux/blk-blex.h:384-508 | every queue lies in the block of its completion queue, blk_blex_get_cqid is idempotent, and index, bounds, size and tag index agree |
| Partition.IndexInverse | daredevil/include/linux/blk-blex.h:433-468 | get_kth_cqid and cqid_to_index are inverse, and a queue has the k-th completion queue exactly if it lies in block k |
| Partition.HeadOfBlock | daredevil/include/linux/blk-blex.h:479-491 | every queue of a block is mapped to its first queue, for any average and remainder |
| Partition.IndexOfBlock | daredevil/include/linux/blk-blex.h:457-468 | the first queue of block k has index k |
| Partition.CompletionFindsTags | daredevil/drivers/nvme/host/pci.c:1155-1164 | the tag index is below nr_cqs, and a submission queue and a completion queue have the same tag index exactly if it is the one the submission queue was created with |
| Regulators.GroupsSplit | daredevil/block/blk-blex.c:748-784 | the groups are two intervals that split the queues, none empty, and a queue has the priority of its completion queue |
| Regulators.Regulator.Init | daredevil/block/blk-blex.c:856-934 | after initialisation every group and every exposed queue is as the numbering functions say, with heaps in id order and counters at zero |
| Regulators.Regulator.GroupInit | daredevil/block/blk-blex.c:748-784 | a group covers the completion queues of its priority, and nr_attach_nsqs is the size of its interval |
| Regulators.Regulator.LabelQueues | daredevil/block/blk-blex.c:763-768 | the loop labels the completion queues of the group, keeps other labels, and counts the submission queues up to the next group |
| Regulators.Regulator.EnqInit | daredevil/block/blk-blex.c:790-854 | an exposed queue gets its completion queue, group and priority, and an eNCQ exactly if it is a completion queue |
| Regulators.Regulator.GroupHeap | daredevil/block/blk-blex.c:724-738 | the heap of a group holds its completion queues, the first one on top |
| Regulators.Regulator.EncqHeap | daredevil/block/blk-blex.c:733-738 | the heap of a completion queue holds its submission queues |
| Regulators.Regulator.RrNextNsqid | daredevil/block/blk-blex.c:288-323 | the pick is the one the round-robin lemmas speak about, and only the counters of that pick move |
| Regulators.GroupIsInterval | daredevil/block/blk-blex.c:748-784 | the queues of a priority are an interval |
| Regulators.NsqPickHasPrioIff | daredevil/block/blk-blex.c:316-320 | a pick of type BLEX_NSQ has the priority asked for if and only if the counter has not wrapped below zero or is a multiple of the number of queues |
| Regulators.NsqCycleCoversGroup | daredevil/block/blk-blex.c:316-320 | one cycle of picks visits each queue of the priority exactly once |
| Regulators.NcqPickHasPrio | daredevil/block/blk-blex.c:299-314 | a pick of type BLEX_NCQ has the priority asked for whatever the counters, and belongs to the completion queue chosen |
| Regulators.NcqCycleCoversGroup | daredevil/block/blk-blex.c:299-314 | one cycle visits each completion queue of the group exactly once |
| RoundRobins.NsqPickInGroupIff | daredevil/block/blk-blex.c:316-320 | the same condition for any interval; a pick outside lies before it |
| RoundRobins.WrappedCounterLeavesGroup | daredevil/block/blk-blex.c:316-320 | a concrete wrapped counter whose pick is a queue of another group |
| Merits.ExactIsBetween | daredevil/block/blk-blex.c:998-1001 | despite two truncations the moving average lies between the stored merit and the new sample |
| Merits.AverageIsExactIff | daredevil/block/blk-blex.c:998-1001 | as long as the stored merit is not negative and its own product fits in an int, the 32-bit computation gives that average if and only if the product of the sample fits too: the condition for the first overflow |
| Merits.StoredIsBounded | daredevil/block/blk-blex.c:1076-1086 | over any run of updates the stored merit stays within any bounds that hold of its first value and of every sample |
| Merits.ExactIsWeighted | daredevil/block/blk-blex.c:998-1001 | the average has the weights meant: its distance from numer parts of the sample and the rest of the stored merit is below one |
| Merits.SampleIsPlain | daredevil/block/blk-blex.c:971-996 | while the products fit in an int, the sample is the quotient meant, in spite of mixed signs and widths |
| Merits.ResetStartsAfresh | daredevil/block/blk-blex.c:1076-1086 | after a reset the merit computed is what the next average starts from, the counters of that kind are at zero, and the other kind is untouched |
| Merits.LargeSampleTurnsNegative | daredevil/block/blk-blex.c:998-1001 | with the default weights a sample of 2^29 gives a negative merit |
| Merits.MeritIsInt | daredevil/block/blk-blex.c:13-13 | no merit exceeds the infinite one |
| Merits.BusierIsNoBetter | daredevil/block/blk-blex.c:971-1002 | a queue with at least the load of another never gets a smaller merit, as long as the products fit in ints |
| Heaps.SiftIsPermutation | daredevil/block/blk-blex.c:1035-1060 | the sift-down keeps the ids |
| Heaps.UpdateMakesHeap | daredevil/block/blk-blex.c:1028-1060 | if all parents below the root were in order the result is a min-heap under the merits used in the call |
| Heaps.UpdateTopIsLeast | daredevil/block/blk-blex.c:1028-1066 | and the queue on top has the least of these merits |
| Heaps.TopChangesIff | daredevil/block/blk-blex.c:1035-1066 | the top changes exactly if one of its sons has no greater merit than the one used |
| Heaps.SinksBelowTies | daredevil/block/blk-blex.c:1051-1052 | the queue that was on top sinks below ties as well: where it comes to rest its sons have greater merits than the one used |
| Heaps.SiftKeepsIds | daredevil/block/blk-blex.c:1035-1060 | the sift-down brings in no foreign id and no duplicate |
| PrioArrays.ForcedUpdateChangesTop | daredevil/block/blk-blex.c:1032-1066 | as no merit exceeds the infinite one, a forced update always replaces the top when there are two entries, by a queue of least merit among the others |
| PrioArrays.PrioArray.UpdatePriorityArray | daredevil/block/blk-blex.c:1004-1088 | with the merits the code computes: only counts the uses while not due or while another CPU updates; else an update without force, of a heap in order below its root, leaves a heap under the merits of the moment with a queue of least merit on top, and a forced one leaves another queue on top; mru starts again |
| PrioArrays.PrioArray.Update | daredevil/block/blk-blex.c:1004-1088 | the same for any merit function, and that the statistics of a queue that left the top start afresh, all others untouched |
| PrioArrays.PrioArray.UpdateWith | daredevil/block/blk-blex.c:1004-1088 | performs the transition that OrdinaryUpdate and ForcedUpdateChangesTop speak about, on the fields in place |
| PrioArrays.OrdinaryUpdate | daredevil/block/blk-blex.c:1032-1066 | an update that is not forced leaves a heap, least on top, under the merits of the moment with what was added to that of the old top |
| PrioArrays.PrioArray.SiftDown | daredevil/block/blk-blex.c:1035-1060 | the loop on the array computes the specified sift-down with the merits of the moment |
| PrioArrays.PrioArray.Reorder | daredevil/block/blk-blex.c:1028-1086 | the part done by the lock holder, with top_nq equal to the root afterwards |
| PrioArrays.PrioArray.PickSon | daredevil/block/blk-blex.c:1036-1050 | chooses the smaller son, the right one only if it exists and is strictly smaller |
| Recommend.RecommendedHasPrio | daredevil/block/blk-blex.c:1090-1118 | in every interleaving of any number of calls the recommended queue has the priority asked for and its completion queue lies in that group |
| RecommendAnswers.AnswersWereOnTop | daredevil/block/blk-blex.c:1090-1118 | in every interleaving: since it began the call found some completion queue on top of the heap of its group, and its answer is what it found on top of the heap of that completion queue if this has several submission queues, and else the completion queue |
| RecommendAnswers.AloneGetsPeeked | daredevil/block/blk-blex.c:1090-1118 | from any state with the invariant, a call that then runs alone can only end with the queue that blk_blex_peek_recommend gives in that state |
| RecommendAnswers.StepsDecrease | daredevil/block/blk-blex.c:1004-1118 | in every interleaving each step of a call lowers a bound on the steps it has left, so that no call waits for another |
| RecommendAnswers.CanFinish | daredevil/block/blk-blex.c:1090-1118 | a call can always go on alone to its end |
| RecommendAnswers.RoundRobinMovesOn | daredevil/block/blk-blex.c:1090-1118 | a round-robin call that runs alone, with free heaps that are due, leaves another queue on top of each heap it looked at, if there is another |
| RecommendAnswers.DriveIsUpdate | daredevil/block/blk-blex.c:1004-1088 | the steps of one call, with the merits of one moment, do to a heap what PrioArray.UpdateWith does |
| Recommend.OneSifter | daredevil/block/blk-blex.c:1017-1069 | only one call at a time is at work under the lock of a heap |
| Recommend.HeapsStayWhole | daredevil/block/blk-blex.c:1028-1069 | in every reachable state each heap is a permutation of its first ids, and top_nq is the root whenever the lock is free |
| Recommend.ForcedUpdateMovesOn | daredevil/block/blk-blex.c:1032-1066 | in every interleaving a forced update of a heap with several queues has replaced the top it found by the time it unlocks |
| Recommend.PeekedHasPrio | daredevil/include/linux/blk-blex.h:541-550 | two looks at different moments of a run still give a queue of the priority |
| Recommend.EventKeepsInv | daredevil/block/blk-blex.c:1004-1118 | every step of every call keeps the invariant, the lock being held only by a call at work under it |
| Recommend.StepKeepsHeap | daredevil/block/blk-blex.c:1004-1088 | one step of an update keeps the heap whole and what the call relies on |
| Recommend.StepKeepsOther | daredevil/block/blk-blex.c:1004-1088 | and does not disturb another call on the same heap |
| Recommend.RoundsSift | daredevil/block/blk-blex.c:1035-1060 | without changes of merit in between, the steps do what one update does |
| Recommend.MembersHavePrio | daredevil/block/blk-blex.c:695-742 | every id in the heap of a group or of a completion queue has the priority of that heap |
| Usages.OpsKeepConsistent | daredevil/block/blk-blex.c:364-417 | over every run of set and clear, also clears without a set, a CPU is in the mask of exactly the queues its map holds, each with a positive count, and nr_in_use counts them |
| Usages.RunsAreAccurate | daredevil/block/blk-blex.c:87-95 | over every run of harmless task events each counter is the number of live tasks there, and all is empty once every task has exited |
| Usages.UpdateKeepsGoodIff | daredevil/block/blk-blex.c:505-543 | with the two CPU readings apart: a task update keeps the counters right if and only if it keeps the queue, or both readings give the recorded CPU, or the first gives another one and nobody else uses the old queue on the CPU read second |
| Usages.OutlierKeepsGoodIff | daredevil/block/blk-blex.c:240-250 | an update for an outlier queue keeps the counters right if and only if it picks the queue the task has |
| Usages.UpdateLosesAUse | daredevil/block/blk-blex.c:505-543 | a concrete run: a task migrates after its CPU was recorded, and its update drops the use of another task from counter and mask |
| Usages.MoveLeavesAUse | daredevil/block/blk-blex.c:206-214 | a concrete run: a task migrates between the setting of its use and the recording of its CPU; its use is counted on the wrong CPU and stays there after it exits |
| Usages.EmptyIsGood | daredevil/block/blk-blex.c:871-884 | freshly set up maps of any size are right as long as there is no task |
| Usages.OutlierLeavesAUse | daredevil/block/blk-blex.c:240-250 | a concrete run: an outlier update drops the use of a queue that the task still has, and leaves one behind when it exits |
| Usages.ApplyKeepsGoodIff | daredevil/block/blk-blex.c:162-258 | which events keep the counters right, both ways |
| Usages.MoveKeepsGoodIff | daredevil/block/blk-blex.c:206-214 | a task seen on another CPU takes its use along, if and only if the CPU on which the use is set is the one recorded |
| Usages.ExitKeepsGood | daredevil/block/blk-blex.c:87-95 | an exiting task gives up exactly its use |
| Usages.RescheduleCounts | daredevil/block/blk-blex.c:532-540 | what an update does to every counter, for any two CPU readings |
| NsqMaps.Maps.SetMaps | daredevil/block/blk-blex.c:398-417 | performs the set that the lemmas speak about on map, counter and mask |
| NsqMaps.Maps.ClearMaps | daredevil/block/blk-blex.c:364-396 | performs the clear |
| NsqMaps.Maps.UpdateMappings | daredevil/block/blk-blex.c:426-441 | set, then clear in the update context only |
| NsqMaps.Maps.TaskUpdate | daredevil/block/blk-blex.c:532-541 | performs the rescheduling of UpdateKeepsGoodIff and returns the CPU to record |
| Plugs.RoundsPerKey | daredevil/block/blk-mq.c:3036-3038 | the final loop makes as many rounds as there are distinct pairs of hardware and software queue on the list |
| Plugs.KeysOnce | daredevil/block/blk-mq.c:3036-3038 | no pair comes up twice |
| Plugs.BatchInOrder | daredevil/block/blk-mq.c:2935-2968 | each batch holds exactly the requests of its pair, in submission order although the list is last in, first out |
| Plugs.RoundsKeep | daredevil/block/blk-mq.c:3036-3038 | the rounds lose and double nothing |
| Plugs.RunsKeepRequests | daredevil/block/blk-mq.c:1343-1364 | over every run of adds and flushes each added request is in exactly one place; the plug stays within its limits, counts right, holds nothing that may merge behind a request that is large enough, and holds requests of one queue only unless multiple_queues is set, as the direct path takes for granted |
| Plugs.DirectIsSafe | daredevil/block/blk-mq.c:2985-2998 | the driver is given a list directly if and only if there is one, schedule does not flush it and neither flag is set; then its requests have one queue and no scheduler |
| Plugs.FlagsHaveCauses | daredevil/block/blk-mq.c:1357-1360 | over every run, has_elevator is raised exactly by a request with a scheduler, multiple_queues only by requests of different queues, and neither is lowered |
| Plugs.AddKeepsListIff | daredevil/block/blk-mq.c:1343-1364 | a plug with requests keeps them, when another is added, if and only if it is below its limit and its last request is below the size limit or merges are off; else it holds the new one alone |
| PlugLists.Plug.DispatchPlugList | daredevil/block/blk-mq.c:2935-2968 | the loop of pops and pushes hands over the first pair and leaves the others in list order |
| PlugLists.Plug.DispatchAll | daredevil/block/blk-mq.c:3036-3038 | the loop ends and hands over the rounds of the specification |
| PlugLists.Plug.FlushPlugList | daredevil/block/blk-mq.c:2970-3039 | empties the plug, by the direct path where it applies |
| PlugLists.Plug.AddRqToPlug | daredevil/block/blk-mq.c:1343-1364 | flushes first exactly if the plug is full, then pushes |
| Bios.UpdateKeepsBytes | daredevil/block/blk-mq.c:932-1028 | a request whose length is the sum of its bios keeps it so, loses exactly the completed bytes, is never found botched, says more exactly if bios are left, and its sector moves on by the whole sectors completed if more is left, unless it is a passthrough request |
| Bios.EachBioCompletes | daredevil/block/blk-mq.c:802-825 | each bio that a completion reaches loses its share of the bytes and gets its status and sector: an error if there was one, the sector written by a whole zone append, an I/O error for a partial one, and else none; a bio not reached stays as it was; and just the bios reached and whole leave the request |
| Bios.FailureIsReported | daredevil/block/blk-mq.c:802-825 | every bio that a failed completion takes from the request is ended once, unless in a flush sequence, with that error |
| Bios.WholeUpdateIff | daredevil/block/blk-mq.c:916-917 | the documented promise that completing all bytes returns false holds if and only if the request has at most one bio or its last bio is not empty |
| Bios.EmptyTailStays | daredevil/block/blk-mq.c:916-917 | a concrete request that breaks the promise; no caller is shown to build one |
| Bios.AnyPartition | daredevil/block/blk-mq.c:966-986 | however a completion is cut into positive parts, the same bios with the same bytes are left |
| Bios.PartsCompose | daredevil/block/blk-mq.c:966-986 | two partial completions leave what one of the sum leaves |
| Bios.UpdatesComposeIff | daredevil/block/blk-mq.c:988-1005 | two partial completions leave the whole request, with length and sector, as one of their sum does, if and only if the odd bytes of the parts do not make up another sector, or, when the second part finishes the request, if the first part was below a sector |
| Bios.HalfSectorsAreLost | daredevil/block/blk-mq.c:1001-1005 | a concrete request whose sector does not move after two halves of a sector, but does after both at once |
| Bios.DroppedAreEnded | daredevil/block/blk-mq.c:802-825 | every bio that leaves the request is empty and was ended once, unless in a flush sequence, and no other bio was ended |
| BioChains.Request.Update | daredevil/block/blk-mq.c:932-1028 | the method on the linked bios ends in the state of the specification |
| BioChains.Request.EndBios | daredevil/block/blk-mq.c:966-986 | the loop walks the chain as specified and counts the bytes |
| BioChains.Bio.EndBytes | daredevil/block/blk-mq.c:802-825 | completes bytes of one bio, with its status and end |

## Left out

- FlushRuns.RunsAreDurable: does not promise durability to requests that were given a failed flush as a success; `FlushRefs.FailureForgivenIff` says exactly which these are. Requests whose policy has POSTFLUSH without DATA are excluded, as the comment at daredevil/block/blk-flush.c:12-16 intends; `Flush.PostflushWithoutDataIsCreditedTooEarly` shows why.
- FlushQueues.FlushQueue.InsertFlush: queue lists are sequences reassigned by the methods, not linked `list_head`s; `rq->end_io`, the flags the driver sees and the choice between requeue and insertion are not modelled.
- FlushRuns.EventInv: a tag iterator may take a reference at any moment while the flush request has one, also before it has been dispatched; each locked section is one step; the clock is arbitrary, so the timeout that defers a kick is covered both ways.
- Two BUG_ONs of the sequencer: that a sequenced request has a single bio (daredevil/block/blk-flush.c:477) and the `default` of the switch of `blk_flush_complete_seq` (daredevil/block/blk-flush.c:233-234), whose steps are an enumeration here; "no BUG_ON fires" speaks of the others.
- Flush request fields (REQ_DRV, FAILFAST flags, accounting of flush time) and elevator inserts: no effect on the order of steps.
- PrpSetup.Iod.SetupPrps: DMA mapping, the SGL descriptor path and the metadata pointer are not modelled; addresses are unbounded integers and the pools are given answers.
- RingRuns.RunsAreSafe: memory ordering and the shadow doorbells of `nvme_dbbuf_update_and_check_event` are not modelled; each locked section is one step.
- NvmeQueues.NvmeQueue.PollCq: what handling a completion does to its request is not modelled, only which completions are handled and in what order.
- DispatchRuns.DispatchTellsController: a request is identified with its tag.
- Dispatch.NothingIsLost: budgets, driver tags and the driver's answers are an environment; restarting the queue afterwards (`blk_mq_run_hw_queue`, `blk_mq_mark_tag_wait`) is not modelled.
- QueueRqs.QueueRqs: which requests fail in `nvme_prep_rq_batch` is given.
- Regulators.Regulator.Init: allocation failures are not modelled; the number of completion queues of a group must not exceed nr_cpu_ids, the size of the heap array the code allocates; queue numbers are below 2^31.
- FlushOutcomes.KickIssuesIff: for a clock that has not gone back behind the pending time nor run 2^63 ticks beyond it.
- RecommendAnswers.RoundRobinMovesOn: for a call that runs alone; among several calls `Recommend.ForcedUpdateMovesOn` says it of each heap.
- Recommend.RecommendedHasPrio: merits may have any value at any moment, and the use counters of heaps are unbounded integers here; RCU grace periods are one step.
- Heap order across updates: merits change and are reset between calls, so it is stated for one call.
- Usages.RunsAreAccurate: each set and clear is one step, and so is a whole task update but for its two CPU readings; changes of the optimisation level and the non-default queue choice are not modelled; which queue is chosen is arbitrary.
- Merits.AverageIsExactIff: a stored merit that is negative or whose own product overflows is not considered, so the condition is that of the first overflow; statistics are read once per merit; parameters outside 0 <= numer <= denom are not considered.
- Plugs.RunsKeepRequests: a request does not grow by merges while it is on the list; what the driver leaves of a list issued directly is an arbitrary part of it; recursion into a flush from the driver and the file that defines BLK_MAX_REQUEST_COUNT and BLK_PLUG_FLUSH_SIZE are not part of this model, so both limits are parameters.
- Bios.UpdateKeepsBytes: segments inside a bio are not modelled, the size of a bio's first segment is a function given as a parameter, never more than what the bio has left; integrity, crypto and statistics calls are left out.
- Bios.AnyPartition: for requests without error that are no zone append.
- Dominance ratio, per-CPU default table, vNQ busy marks, tag iteration by hctx, sysfs, tracing and all scripts: not modelled.
