# Spring Batch tutorial jobs, modelled in Dafny

The application declares its jobs with Spring Batch builder chains.

- **deliveryFlow** drives to the address. It then asks a delivery decider whether the customer is present. If present, it hands the package over and a receipt decider either thanks or refunds the customer. If not, it leaves the package at the door.
- **prepareFlowersJob** selects flowers and removes thorns when the step listener says trimming is required. It then arranges the flowers and runs deliveryFlow as a nested flow.
- **billingFlow** and **billingJob** send an invoice.
- **deliverPackageJob** runs a split. Its builder chain starts at packageItemStep, which reads the `item` and `run.date` job parameters, and declares no transition out of it. `.split(...).add(deliveryFlow(), billingFlow())` folds that step into the split as a third branch, so packageItemStep, deliveryFlow and billingFlow all run to their ends.
- **job** runs **chunkBasedStep**. This step reads shipped orders in chunks of 10 and passes each order through a composite processor, which validates in filter mode, then assigns a tracking number, then keeps only the orders that ship free. The step writes the survivors. It retries a chunk on `OrderProcessingException`, up to a limit of 3.

The model is made of these modules:

- `Flow` (flow.dfy) is a small flow engine.
  - A transition table of `(from, pattern, to)` entries.
  - A resolver that prefers an exact exit status to the `"*"` wildcard, then falls back to the default ends for COMPLETED and FAILED. Any other label is an explicit `Unresolved` outcome.
  - A fuel-bounded interpreter for tasklet steps, deciders, steps whose status is reported from outside, nested flows and splits.
- `Jobs` (jobs.dfy) holds:
  - the application's flows and jobs as values of that engine;
  - a reference run for each flow and job, told case by case, with theorems that the interpreter agrees with it;
  - the path scenarios.
- `Orders`, `TrackedOrderItemProcessor` and `FreeShippingItemProcessor` cover the records and the two item processors. A tracked order is a class whose setters change it in place.
- `ChunkStep` (chunk_step.dfy) covers the composite processor chain, one attempt at a chunk, retrying a chunk and the whole step. It also links the step's exit status to the job that runs it.
- `Reader` (simple_item_reader.dfy) models SimpleItemReader as a class with a cursor over its five strings.

How inputs the engine cannot see are modelled:

- **Decider and listener labels.** The labels of the delivery decider, the receipt decider and the flower-selection listener come from code that is not part of this model. The interpreter reads them, in order, from an `inputs` sequence.
- **Tracking-number draws.** `getTrackingNumber` uses `Math.random` and `UUID`. Its outcomes come from an oracle `draws: nat -> Draw`, consumed one per call.
- **Validation.** The bean-validation rules on `Order` are an opaque predicate `valid`.

## Model

| member | source | states |
|---|---|---|
| Flow.FindEntrySound | src/main/java/com/linkedin/batch/LinkedinBatchApplication.java:241-249 | looking up a node's entry for a pattern finds one exactly when the table has one; what it finds is in the table |
| Flow.FindEntryAtSound | src/main/java/com/linkedin/batch/LinkedinBatchApplication.java:241-249 | scanning the entries from a position finds one for the node and pattern exactly when one exists there, and what it finds is such an entry |
| Flow.CompatibleSound | src/main/java/com/linkedin/batch/LinkedinBatchApplication.java:241-249 | an entry is compatible with the entries from a position on iff none of them for the same node and pattern leads elsewhere |
| Flow.ValidateFromSound | src/main/java/com/linkedin/batch/LinkedinBatchApplication.java:241-249 | the check of the entries from a position on accepts them iff no two of them give one node two targets for one pattern |
| Flow.ValidateSound | src/main/java/com/linkedin/batch/LinkedinBatchApplication.java:241-249 | the build-time table check accepts exactly the tables in which no node has two targets for one pattern |
| Flow.ExactMatchWins | src/main/java/com/linkedin/batch/LinkedinBatchApplication.java:242-244 | in a well-formed table an exact entry for the label is taken, whatever wildcard the node also has |
| Flow.WildcardFallback | src/main/java/com/linkedin/batch/LinkedinBatchApplication.java:243-244 | without an exact entry, the node's "*" entry is taken |
| Flow.UnmatchedDefault | src/main/java/com/linkedin/batch/LinkedinBatchApplication.java:241-249 | with neither, COMPLETED and FAILED end the flow and the resolution is unresolved exactly for every other label |
| Flow.ResolveIgnoresOrder | src/main/java/com/linkedin/batch/LinkedinBatchApplication.java:240-250 | resolution is determined by the set of entries, whatever order the builder's `from` chains added them in |
| Flow.FindEntryIgnoresOrder | src/main/java/com/linkedin/batch/LinkedinBatchApplication.java:240-250 | in a well-formed table, the entry found for a node and pattern does not depend on the order of the entries |
| Flow.ExecuteTasklet | src/main/java/com/linkedin/batch/LinkedinBatchApplication.java:223-226 | a printing tasklet finishes; a conditional throw throws exactly when its condition holds; a parameter-reading tasklet finishes iff every key it reads is a job parameter |
| Flow.MissingKey | src/main/java/com/linkedin/batch/LinkedinBatchApplication.java:347-348 | true iff some key read is not among the job parameters |
| Flow.JoinAllSound | src/main/java/com/linkedin/batch/LinkedinBatchApplication.java:358-359 | a split completes iff every branch completed; it fails iff every branch ended and some branch failed; any other combined status is one of the branches' |
| Flow.JoinAroundCompleted | src/main/java/com/linkedin/batch/LinkedinBatchApplication.java:358-359 | a three-way split whose middle branch completes and whose last branch ended keeps an error of the first branch; otherwise it fails iff the first or the last branch failed, and completes otherwise |
| Flow.RunFrom | src/main/java/com/linkedin/batch/LinkedinBatchApplication.java:240-250 | a run given no fuel ends OutOfFuel having visited nothing, and only then is its path empty; with fuel it visits at least one node |
| Flow.RunFromConsumes | src/main/java/com/linkedin/batch/LinkedinBatchApplication.java:240-250 | a run reads the labels front to back, leaving a suffix of them unread, and its path starts at the node it was started on |
| Flow.Proceed | src/main/java/com/linkedin/batch/LinkedinBatchApplication.java:240-250 | following a transition never shortens the path so far |
| Flow.ProceedConsumes | src/main/java/com/linkedin/batch/LinkedinBatchApplication.java:240-250 | following a transition keeps the path so far as the start of the path and leaves a suffix of the labels unread |
| Flow.ExecuteNode | src/main/java/com/linkedin/batch/LinkedinBatchApplication.java:240-250 | a tasklet step exits COMPLETED iff the tasklet finishes and FAILED iff it throws, reading no label and running nothing inside; a decider aborts iff no label is left and otherwise exits with exactly the next label, consuming it alone; a nested flow or split exits only COMPLETED or FAILED; an aborting node carries an error, never a declared end |
| Flow.ExecuteNodeConsumes | src/main/java/com/linkedin/batch/LinkedinBatchApplication.java:240-250 | executing a node leaves a suffix of the labels unread |
| Flow.RunBranches | src/main/java/com/linkedin/batch/LinkedinBatchApplication.java:358-359 | every branch of a split runs to its end, each from the labels the previous one left; none cancels another |
| Flow.RunBranchesConsumes | src/main/java/com/linkedin/batch/LinkedinBatchApplication.java:358-359 | the branches of a split together leave a suffix of the labels unread |
| Flow.TaskletVisit | src/main/java/com/linkedin/batch/LinkedinBatchApplication.java:241-249 | a tasklet node whose exit status resolves to a target continues at that target |
| Flow.DeciderVisit | src/main/java/com/linkedin/batch/LinkedinBatchApplication.java:244-249 | a decider reads one label and continues where that label resolves |
| Flow.SubFlowVisit | src/main/java/com/linkedin/batch/LinkedinBatchApplication.java:287-288 | a nested flow whose COMPLETED and FAILED end the enclosing flow hands its own run on, under its name |
| Flow.SplitVisit | src/main/java/com/linkedin/batch/LinkedinBatchApplication.java:358-360 | a split whose COMPLETED and FAILED end the job ends it with the joined status of its branches |
| Flow.ThreeBranches | src/main/java/com/linkedin/batch/LinkedinBatchApplication.java:357-359 | a three-way split runs its branches one after the other, each on the labels the previous one left; the paths are concatenated and the statuses listed in branch order |
| Flow.ThreeWaySplitVisit | src/main/java/com/linkedin/batch/LinkedinBatchApplication.java:357-360 | a three-way split whose COMPLETED and FAILED end the job runs its three branches in turn and ends with their joined status |
| Jobs.DriveToAddress | src/main/java/com/linkedin/batch/LinkedinBatchApplication.java:336-340 | the tasklet throws iff the driver is lost, whatever the job parameters |
| Jobs.DeliveryTableWellFormed | src/main/java/com/linkedin/batch/LinkedinBatchApplication.java:240-250 | the deliveryFlow table gives no node two targets for one pattern |
| Jobs.PrepareFlowersTableWellFormed | src/main/java/com/linkedin/batch/LinkedinBatchApplication.java:282-290 | the prepareFlowersJob table gives no node two targets for one pattern |
| Jobs.DriveToAddressRoutes | src/main/java/com/linkedin/batch/LinkedinBatchApplication.java:241-244 | from driveToAddressStep, FAILED ends the flow failed and every other status goes to deliveryDecider |
| Jobs.DeliveryDeciderRoutes | src/main/java/com/linkedin/batch/LinkedinBatchApplication.java:244-249 | PRESENT leads to givePackageToCustomerStep and NOT_PRESENT to leaveAtDoorStep; any other label takes the default end |
| Jobs.ReceiptDeciderRoutes | src/main/java/com/linkedin/batch/LinkedinBatchApplication.java:246-247 | CORRECT leads to thankCustomerStep and INCORRECT to refundStep; any other label takes the default end |
| Jobs.ArrangeFlowersRoutes | src/main/java/com/linkedin/batch/LinkedinBatchApplication.java:287 | every status from arrangeFlowersStep enters deliveryFlow |
| Jobs.SelectFlowersRoutes | src/main/java/com/linkedin/batch/LinkedinBatchApplication.java:284-286 | TRIM_REQUIRED leads to removeThornsStep and NO_TRIM_REQUIRED to arrangeFlowersStep; any other label takes the default end |
| Jobs.DeliveryFlowNodes | src/main/java/com/linkedin/batch/LinkedinBatchApplication.java:240-250 | deliveryFlow starts at driveToAddressStep and holds its seven nodes with their tasklets and deciders |
| Jobs.DeliveryFlowEnds | src/main/java/com/linkedin/batch/LinkedinBatchApplication.java:245-249 | givePackageToCustomerStep leads to receiptDecider on COMPLETED; thankCustomerStep, refundStep and leaveAtDoorStep end the flow completed |
| Jobs.DeliveryFlowActs | src/main/java/com/linkedin/batch/LinkedinBatchApplication.java:240-250 | deliveryFlow has the nodes and routes its runs rely on |
| Jobs.FinalStepVisit | src/main/java/com/linkedin/batch/LinkedinBatchApplication.java:246-249 | thankCustomerStep, refundStep and leaveAtDoorStep each end the flow completed, reading no label |
| Jobs.UnroutedVisit | src/main/java/com/linkedin/batch/LinkedinBatchApplication.java:244-249 | a decider label with no route of its own ends the run at the decider, completed, failed or unresolved by the label |
| Jobs.DecidedFinalStep | src/main/java/com/linkedin/batch/LinkedinBatchApplication.java:245-249 | a decider label that leads to a final step visits that step and completes |
| Jobs.ReceiptDeciderVisit | src/main/java/com/linkedin/batch/LinkedinBatchApplication.java:246-247 | from receiptDecider, the run is the reference run for its next label |
| Jobs.PackageGiven | src/main/java/com/linkedin/batch/LinkedinBatchApplication.java:245-246 | after PRESENT the package is handed over and receiptDecider decides the rest |
| Jobs.HandedOverRun | src/main/java/com/linkedin/batch/LinkedinBatchApplication.java:244-247 | the reference run of deliveryFlow for PRESENT then CORRECT or INCORRECT visits the five nodes up to thankCustomerStep or refundStep and completes |
| Jobs.DeliveryDeciderVisit | src/main/java/com/linkedin/batch/LinkedinBatchApplication.java:244-249 | from deliveryDecider, the run is the reference run for its labels |
| Jobs.DeliveryVisit | src/main/java/com/linkedin/batch/LinkedinBatchApplication.java:240-250 | any flow shaped like deliveryFlow runs as the reference run of deliveryFlow |
| Jobs.DeliveryFlowRuns | src/main/java/com/linkedin/batch/LinkedinBatchApplication.java:240-250 | deliveryFlow, given five or more units of fuel, runs exactly as the reference run says, for every label sequence and either value of the lost flag |
| Jobs.DriverArrives | src/main/java/com/linkedin/batch/LinkedinBatchApplication.java:336-340 | with the flag as declared, driveToAddressStep always finishes |
| Jobs.LostDriverFails | src/main/java/com/linkedin/batch/LinkedinBatchApplication.java:241-242 | a lost driver fails the flow at driveToAddressStep; deliveryDecider is never reached and no label is read |
| Jobs.PresentAndCorrect | src/main/java/com/linkedin/batch/LinkedinBatchApplication.java:244-246 | PRESENT then CORRECT visits exactly driveToAddressStep, deliveryDecider, givePackageToCustomerStep, receiptDecider, thankCustomerStep and completes; refundStep and leaveAtDoorStep are not visited |
| Jobs.PresentAndIncorrect | src/main/java/com/linkedin/batch/LinkedinBatchApplication.java:245-247 | PRESENT then INCORRECT ends at refundStep, completed |
| Jobs.NotPresent | src/main/java/com/linkedin/batch/LinkedinBatchApplication.java:248-249 | NOT_PRESENT leaves the package at the door, completes, and reads no further label |
| Jobs.UndeclaredDeliveryLabel | src/main/java/com/linkedin/batch/LinkedinBatchApplication.java:244-249 | a deliveryDecider label that is not declared and is neither COMPLETED nor FAILED leaves the run unresolved at the decider |
| Jobs.PrepareFlowersNodes | src/main/java/com/linkedin/batch/LinkedinBatchApplication.java:282-290 | prepareFlowersJob starts at selectFlowersStep and holds its four nodes, deliveryFlow among them as a nested flow |
| Jobs.PrepareFlowersEnds | src/main/java/com/linkedin/batch/LinkedinBatchApplication.java:285-288 | removeThornsStep leads to arrangeFlowersStep on COMPLETED, and the nested deliveryFlow ends the job as it ends |
| Jobs.PrepareFlowersJobActs | src/main/java/com/linkedin/batch/LinkedinBatchApplication.java:282-290 | prepareFlowersJob and its nested deliveryFlow have the nodes and routes their runs rely on |
| Jobs.NestedDeliveryVisit | src/main/java/com/linkedin/batch/LinkedinBatchApplication.java:287 | entering the nested deliveryFlow runs it as its reference run, under its name |
| Jobs.SelectFlowersVisit | src/main/java/com/linkedin/batch/LinkedinBatchApplication.java:284-287 | TRIM_REQUIRED visits removeThornsStep then arrangeFlowersStep before deliveryFlow; NO_TRIM_REQUIRED visits arrangeFlowersStep only; any other label ends the job at selectFlowersStep |
| Jobs.PrepareFlowersVisit | src/main/java/com/linkedin/batch/LinkedinBatchApplication.java:282-290 | any job shaped like prepareFlowersJob runs as its reference run |
| Jobs.PrepareFlowersJobRuns | src/main/java/com/linkedin/batch/LinkedinBatchApplication.java:282-290 | prepareFlowersJob, given nine or more units of fuel, runs exactly as the reference run says |
| Jobs.DeliveryRunStaysInFlow | src/main/java/com/linkedin/batch/LinkedinBatchApplication.java:240-250 | every node a deliveryFlow run visits is a node of deliveryFlow |
| Jobs.TrimLabelRuns | src/main/java/com/linkedin/batch/LinkedinBatchApplication.java:284-287 | in the reference run TRIM_REQUIRED visits removeThornsStep and arrangeFlowersStep before deliveryFlow, and NO_TRIM_REQUIRED arrangeFlowersStep only |
| Jobs.TrimRequired | src/main/java/com/linkedin/batch/LinkedinBatchApplication.java:285-287 | TRIM_REQUIRED visits removeThornsStep before arrangeFlowersStep, then deliveryFlow, and the job ends as deliveryFlow does |
| Jobs.NoThornsInDelivery | src/main/java/com/linkedin/batch/LinkedinBatchApplication.java:240-250 | no run of deliveryFlow visits removeThornsStep |
| Jobs.NoTrimRequired | src/main/java/com/linkedin/batch/LinkedinBatchApplication.java:286-287 | NO_TRIM_REQUIRED goes straight to arrangeFlowersStep, removeThornsStep never runs, and the job ends as deliveryFlow does |
| Jobs.TrimmedBouquetDelivered | src/main/java/com/linkedin/batch/LinkedinBatchApplication.java:282-290 | TRIM_REQUIRED, PRESENT, CORRECT visits the nine nodes of the full path in order and completes |
| Jobs.BillingVisit | src/main/java/com/linkedin/batch/LinkedinBatchApplication.java:230-236 | a flow shaped like billingFlow sends the invoice and completes |
| Jobs.BillingRuns | src/main/java/com/linkedin/batch/LinkedinBatchApplication.java:230-237 | billingFlow and billingJob send the invoice and complete, reading no label |
| Jobs.DeliverPackageNodes | src/main/java/com/linkedin/batch/LinkedinBatchApplication.java:355-362 | deliverPackageJob starts at its split, whose branches are deliveryFlow, billingFlow and the flow wrapped around packageItemStep, in that order |
| Jobs.DeliverPackageEnds | src/main/java/com/linkedin/batch/LinkedinBatchApplication.java:355-362 | the split's COMPLETED and FAILED end the job that way, and packageItemStep's COMPLETED and FAILED end its branch that way |
| Jobs.DeliverPackageJobActs | src/main/java/com/linkedin/batch/LinkedinBatchApplication.java:355-362 | deliverPackageJob and its three branches have the nodes and routes their runs rely on |
| Jobs.PackagingFailsVisit | src/main/java/com/linkedin/batch/LinkedinBatchApplication.java:345-352 | without the "item" or "run.date" job parameter packageItemStep throws and its branch fails, reading no label |
| Jobs.PackagingDoneVisit | src/main/java/com/linkedin/batch/LinkedinBatchApplication.java:345-352 | with both job parameters packageItemStep finishes and its branch completes, reading no label |
| Jobs.PackagingVisit | src/main/java/com/linkedin/batch/LinkedinBatchApplication.java:345-352 | the packaging branch visits packageItemStep only and fails exactly when a job parameter it reads is missing |
| Jobs.SplitBranchesVisit | src/main/java/com/linkedin/batch/LinkedinBatchApplication.java:357-360 | whatever deliveryFlow does, billingFlow and then packageItemStep run after it on the labels it left, and the job ends with the joined status of the three |
| Jobs.DeliverPackageVisit | src/main/java/com/linkedin/batch/LinkedinBatchApplication.java:355-362 | any job shaped like deliverPackageJob runs as its reference run |
| Jobs.DeliverPackageJobRuns | src/main/java/com/linkedin/batch/LinkedinBatchApplication.java:355-362 | deliverPackageJob, given six or more units of fuel, runs exactly as the reference run says: all three branches run, an error of deliveryFlow is the job's, and otherwise the job fails iff deliveryFlow or packaging failed |
| Jobs.MissingParameterFailsPackaging | src/main/java/com/linkedin/batch/LinkedinBatchApplication.java:345-351 | without the "item" or "run.date" job parameter the job fails once deliveryFlow has ended, while deliveryFlow and billingFlow still run in full |
| Jobs.InvoiceSentEvenIfLost | src/main/java/com/linkedin/batch/LinkedinBatchApplication.java:357-359 | a lost driver fails the job, whatever the job parameters, but billingFlow still sends the invoice and packageItemStep still runs |
| Jobs.PackageDeliveredAndBilled | src/main/java/com/linkedin/batch/LinkedinBatchApplication.java:355-362 | with both parameters, PRESENT and CORRECT, the job visits all three branches in full and completes |
| Jobs.ChunkJobRuns | src/main/java/com/linkedin/batch/LinkedinBatchApplication.java:211-214 | the job runs chunkBasedStep only and ends completed, failed or unresolved as the step's exit status says |
| Orders.TrackedOrder.constructor | src/main/java/com/linkedin/batch/TrackedOrderItemProcessor.java:14 | a new tracked order holds the order, no tracking number and no free shipping |
| Orders.TrackedOrder.SetTrackingNumber | src/main/java/com/linkedin/batch/TrackedOrderItemProcessor.java:15 | only the tracking number changes |
| Orders.TrackedOrder.SetFreeShipping | src/main/java/com/linkedin/batch/FreeShippingItemProcessor.java:11 | only the free-shipping flag changes |
| TrackedOrderItemProcessor.GetTrackingNumber | src/main/java/com/linkedin/batch/TrackedOrderItemProcessor.java:19-24 | it fails, with OrderProcessingException, exactly on a failed draw; otherwise it returns the generated identifier |
| TrackedOrderItemProcessor.Track | src/main/java/com/linkedin/batch/TrackedOrderItemProcessor.java:10-17 | it fails exactly on a failed draw, with OrderProcessingException; otherwise it returns a tracked order built from the given order, with the drawn tracking number and no free shipping |
| TrackedOrderItemProcessor.NeverFilters | src/main/java/com/linkedin/batch/TrackedOrderItemProcessor.java:10-21 | process never filters: it throws OrderProcessingException or returns a tracked order, and only the draw decides which |
| TrackedOrderItemProcessor.Process | src/main/java/com/linkedin/batch/TrackedOrderItemProcessor.java:10-17 | the method returns a fresh object holding the tracked order, or fails as Track does; no object escapes a failure |
| FreeShippingItemProcessor.Filter | src/main/java/com/linkedin/batch/FreeShippingItemProcessor.java:10-14 | the item is kept iff its cost is strictly above 80; a kept item is the input with only the flag set to true |
| FreeShippingItemProcessor.ExactlyEightyIsFiltered | src/main/java/com/linkedin/batch/FreeShippingItemProcessor.java:11 | a cost of exactly 80 is filtered out |
| FreeShippingItemProcessor.KeptItemsAreStable | src/main/java/com/linkedin/batch/FreeShippingItemProcessor.java:11-13 | a kept item has the flag set, keeps its order and tracking number, and is kept unchanged when processed again |
| FreeShippingItemProcessor.Process | src/main/java/com/linkedin/batch/FreeShippingItemProcessor.java:10-14 | the flag is written on the argument in every case; the same object is returned iff the item ships free, and null otherwise |
| Reader.ReadsInOrder | src/main/java/com/linkedin/batch/SimpleItemReader.java:26-29 | the i-th read from a cursor returns element cursor + i while there is one, and null from then on |
| Reader.ExhaustedStaysExhausted | src/main/java/com/linkedin/batch/SimpleItemReader.java:28 | once the data is used up, every later read returns null |
| Reader.DeliversRestOnce | src/main/java/com/linkedin/batch/SimpleItemReader.java:23-28 | enough reads deliver the rest of the data, each element exactly once and in order |
| Reader.FreshReaderReads | src/main/java/com/linkedin/batch/SimpleItemReader.java:16-29 | a fresh reader returns "1" to "5" in order and then null forever; exactly five reads return an item |
| Reader.SimpleItemReader.constructor | src/main/java/com/linkedin/batch/SimpleItemReader.java:16-24 | the list is "1" to "5" and the cursor is before its first element |
| Reader.SimpleItemReader.Read | src/main/java/com/linkedin/batch/SimpleItemReader.java:26-29 | the read is the first of the reads the reference sequence gives from the old cursor, and the remaining reads continue from the new cursor; the cursor never passes the end and advances only when an item is returned |
| ChunkStep.Validate | src/main/java/com/linkedin/batch/LinkedinBatchApplication.java:198-203 | a valid order passes; an invalid one is filtered in filter mode and a ValidationException otherwise |
| ChunkStep.Composite | src/main/java/com/linkedin/batch/LinkedinBatchApplication.java:187-191 | a draw is used iff the order is valid; the order is kept iff it is valid, the draw succeeds and it ships free, and then it carries the drawn tracking number and free shipping; OrderProcessingException iff valid and the draw fails; ValidationException iff invalid and not in filter mode |
| ChunkStep.ProcessChunkSound | src/main/java/com/linkedin/batch/LinkedinBatchApplication.java:171-173 | an attempt uses at most one draw per order; when it succeeds, its survivors are exactly the selected orders, in order, each tracked and shipping free; in filter mode only OrderProcessingException can fail it, and with no failed draw it succeeds |
| ChunkStep.RunChunk | src/main/java/com/linkedin/batch/LinkedinBatchApplication.java:174-178 | the retries never exceed the limit; a chunk is aborted only when the limit is reached or the error is not retryable |
| ChunkStep.RetriedFrom | src/main/java/com/linkedin/batch/LinkedinBatchApplication.java:177-178 | from a retryably failing attempt j up to a successful attempt n within the limit, the chunk commits attempt n's output after n retries |
| ChunkStep.FailsThenSucceeds | src/main/java/com/linkedin/batch/LinkedinBatchApplication.java:177-178 | a chunk that fails N times with a retryable error and then succeeds, with N at most the limit, commits after N retries with what the successful attempt produced |
| ChunkStep.ExhaustedFrom | src/main/java/com/linkedin/batch/LinkedinBatchApplication.java:177-178 | when every attempt from j on fails retryably, the chunk aborts with the last attempt's error after retryLimit retries |
| ChunkStep.RetriesExhausted | src/main/java/com/linkedin/batch/LinkedinBatchApplication.java:177-178 | a chunk that fails retryLimit + 1 times aborts with the last error after retryLimit retries |
| ChunkStep.NonRetryableNotRetried | src/main/java/com/linkedin/batch/LinkedinBatchApplication.java:177 | an error that is not retryable aborts the chunk at once, with no retry |
| ChunkStep.CommittedChunkSound | src/main/java/com/linkedin/batch/LinkedinBatchApplication.java:171-178 | a committed chunk writes exactly its selected orders, in order, each tracked and shipping free |
| ChunkStep.SelectedAppend | src/main/java/com/linkedin/batch/LinkedinBatchApplication.java:187-191 | selecting from two runs of orders one after the other selects from each, in order |
| ChunkStep.SelectedAtMost | src/main/java/com/linkedin/batch/LinkedinBatchApplication.java:187-191 | a chunk never yields more survivors than it has orders |
| ChunkStep.FirstChunk | src/main/java/com/linkedin/batch/LinkedinBatchApplication.java:171 | a chunk is non-empty, holds at most chunkSize orders and is full unless it takes the rest of the input |
| ChunkStep.StepCommits | src/main/java/com/linkedin/batch/LinkedinBatchApplication.java:169-184 | the committed orders are a prefix of the input made of full chunks unless it is the whole input; the step completes iff the whole input was committed and fails otherwise |
| ChunkStep.StepWritesBounded | src/main/java/com/linkedin/batch/LinkedinBatchApplication.java:171 | every write holds at most chunkSize items |
| ChunkStep.StepWritesSelected | src/main/java/com/linkedin/batch/LinkedinBatchApplication.java:169-184 | what is written, in order, is exactly the selected orders of the committed input |
| ChunkStep.StepWritesFlagged | src/main/java/com/linkedin/batch/LinkedinBatchApplication.java:187-191 | every item the step writes is tracked and ships free |
| ChunkStep.StepSound | src/main/java/com/linkedin/batch/LinkedinBatchApplication.java:169-184 | the four step lemmas together: full-chunk commits, bounded writes, exactly the selected orders written, and COMPLETED iff all input was committed; nothing after an aborted chunk is written |
| ChunkStep.NoFailedDrawCompletes | src/main/java/com/linkedin/batch/LinkedinBatchApplication.java:169-184 | in filter mode with no failed draw, the step completes with no retry and writes the selected orders of the whole input |
| ChunkStep.SevenOrdersSelected | src/main/java/com/linkedin/batch/LinkedinBatchApplication.java:187-190 | of seven orders that ship free where every fourth is invalid, five are selected |
| ChunkStep.SevenOrdersInChunksOfThree | src/main/java/com/linkedin/batch/LinkedinBatchApplication.java:169-184 | seven orders in chunks of three, two invalid: the step completes with three writes holding five orders |
| ChunkStep.StepWritesCount | src/main/java/com/linkedin/batch/LinkedinBatchApplication.java:171 | a completed step made one write per chunk of its input |
| ChunkStep.InvalidOrdersAreDropped | src/main/java/com/linkedin/batch/LinkedinBatchApplication.java:199-202 | in chunkBasedStep an invalid order is dropped without an error and without asking for a tracking number |
| ChunkStep.AbortsOnTrackingOnly | src/main/java/com/linkedin/batch/LinkedinBatchApplication.java:177-178 | chunkBasedStep aborts a chunk only on OrderProcessingException, never on a validation error |
| ChunkStep.ChunkBasedStepAborts | src/main/java/com/linkedin/batch/LinkedinBatchApplication.java:174-178 | a chunk chunkBasedStep aborts failed on OrderProcessingException after 3 retries |
| ChunkStep.ChunkJobEndsAsStep | src/main/java/com/linkedin/batch/LinkedinBatchApplication.java:211-214 | the job completes iff chunkBasedStep committed its whole input, and fails iff it did not |

## Left out

- Spring Batch's own engine is not part of this model. `Flow` is a reference semantics for the builder chains: an exact label, then "*", then the default ends. The source relies on Spring's dangling-end rules, which are not visible here. The model ends the flow COMPLETED or FAILED for an unmatched COMPLETED or FAILED, and otherwise reports an explicit `Unresolved` outcome.
- `.next(step)` is read as a COMPLETED transition to that step.
- `.end()` at line 288 closes the builder and adds no transition.
- DeliveryDecider, ReceiptDecider and FlowersSelectionStepExecutionListener are not part of this model. Their labels are inputs to the interpreter.
- The split's SimpleAsyncTaskExecutor and the step's taskExecutor (lines 160-166, 182, 358) are concurrency. Split branches run one after the other in declaration order, and chunks are processed one at a time.
- Jobs.DeliverPackageJobWith / Jobs.DeliverPackageNodes / Jobs.MissingParameterFailsPackaging: the step before `.split(...)` at line 357 becomes a third branch of the split, placed after the flows given to `add`. This is how Spring Batch's split builder treats the current step, but the builder's code is not part of this model. The model does not capture a reading in which packageItemStep runs before the split.
- Flow.RunFrom is bounded by fuel. The theorems state the fuel each flow needs. A run without enough fuel ends `OutOfFuel`, which the source cannot do.
- Readers, writers and SQL (lines 47-55, 69-98, 110-158) are file, JSON and JDBC I/O. The chunk step takes its input as a sequence of orders. What it writes is the sequence of committed chunks' outputs.
- OrderRowMapper, CustomRetryListener, CustomSkipListener, Order and TrackedOrder's own source are not part of this model.
  - The retry listener is observable only as the retry count.
  - The skip policy is commented out at lines 175-176 and 179.
- BeanValidatingItemProcessor's constraint annotations on Order are an opaque predicate `valid`.
- Math.random and UUID.randomUUID are an oracle of draws. The 3% probability is not modelled.
- The cost is a `real`. BigDecimal's scale is not modelled, and `compareTo` ignores scale.
- ChunkStep.RunChunk:
  - `retryLimit` counts the retries after the first attempt, so 3 allows four attempts. Spring's SimpleRetryPolicy counts total attempts. The count is a parameter so that either reading can be instantiated.
  - Retries are counted per chunk. Spring keys retry state by item.
  - A retried chunk is processed again from its first order, drawing fresh tracking numbers.
- ChunkStep.RunStep requires a chunk size above zero. The source's chunk size is 10.
- Printing (System.out.println, printf), `main`, bean wiring, nestedBillingJobStep and storePackageStep (never used by a job) are left out.
