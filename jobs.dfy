/**
 * The flows and jobs the application declares with its builder chains,
 * as transition tables for module Flow, and what running them does.
 */
module Jobs {
  import opened Wrappers
  import opened Flow

  // Node names: a step's state is named after the step, a decider after its bean.
  const DRIVE_TO_ADDRESS := "driveToAddressStep"
  const DELIVERY_DECIDER := "deliveryDecider"
  const GIVE_PACKAGE := "givePackageToCustomerStep"
  const RECEIPT_DECIDER := "receiptDecider"
  const THANK_CUSTOMER := "thankCustomerStep"
  const REFUND := "refundStep"
  const LEAVE_AT_DOOR := "leaveAtDoorStep"
  const SELECT_FLOWERS := "selectFlowersStep"
  const REMOVE_THORNS := "removeThornsStep"
  const ARRANGE_FLOWERS := "arrangeFlowersStep"
  const DELIVERY_FLOW := "deliveryFlow"
  const SEND_INVOICE := "sendInvoiceStep"
  const PACKAGE_ITEM := "packageItemStep"
  const SPLIT := "split0"
  const PACKAGING_FLOW := "split0_0"
  const CHUNK_BASED_STEP := "chunkBasedStep"

  // Labels produced by the deciders and by the flower-selection listener.
  const PRESENT := "PRESENT"
  const NOT_PRESENT := "NOT_PRESENT"
  const CORRECT := "CORRECT"
  const INCORRECT := "INCORRECT"
  const TRIM_REQUIRED := "TRIM_REQUIRED"
  const NO_TRIM_REQUIRED := "NO_TRIM_REQUIRED"

  /** The local flag of driveToAddressStep. */
  const IS_LOST := false

  /** The driveToAddressStep tasklet: throws when lost, else FINISHED. */
  function DriveToAddress(isLost: bool): (b: TaskletBody)
    ensures forall params :: ExecuteTasklet(b, params) == Threw <==> isLost
  {
    ThrowIf(isLost)
  }

  /** The packageItemStep tasklet reads the "item" and "run.date" job parameters. */
  const PACKAGE_ITEM_TASKLET := ReadParameters(["item", "run.date"])

  function DeliveryTable(): seq<Transition> {
    [ Transition(DRIVE_TO_ADDRESS, Exact(FAILED), EndFailed),
      Transition(DRIVE_TO_ADDRESS, Wildcard, ToNode(DELIVERY_DECIDER)),
      Transition(DELIVERY_DECIDER, Exact(PRESENT), ToNode(GIVE_PACKAGE)),
      Transition(GIVE_PACKAGE, Exact(COMPLETED), ToNode(RECEIPT_DECIDER)),
      Transition(RECEIPT_DECIDER, Exact(CORRECT), ToNode(THANK_CUSTOMER)),
      Transition(RECEIPT_DECIDER, Exact(INCORRECT), ToNode(REFUND)),
      Transition(DELIVERY_DECIDER, Exact(NOT_PRESENT), ToNode(LEAVE_AT_DOOR)) ]
  }

  /** deliveryFlow, with the driveToAddressStep flag as a parameter. */
  function DeliveryFlowWith(isLost: bool): Graph {
    Graph(DELIVERY_FLOW, DRIVE_TO_ADDRESS,
          map[ DRIVE_TO_ADDRESS := TaskletStep(DriveToAddress(isLost)),
               DELIVERY_DECIDER := Decider,
               GIVE_PACKAGE := TaskletStep(Announce),
               RECEIPT_DECIDER := Decider,
               THANK_CUSTOMER := TaskletStep(Announce),
               REFUND := TaskletStep(Announce),
               LEAVE_AT_DOOR := TaskletStep(Announce) ],
          DeliveryTable())
  }

  function DeliveryFlow(): Graph {
    DeliveryFlowWith(IS_LOST)
  }

  function PrepareFlowersTable(): seq<Transition> {
    [ Transition(SELECT_FLOWERS, Exact(TRIM_REQUIRED), ToNode(REMOVE_THORNS)),
      Transition(REMOVE_THORNS, Exact(COMPLETED), ToNode(ARRANGE_FLOWERS)),
      Transition(SELECT_FLOWERS, Exact(NO_TRIM_REQUIRED), ToNode(ARRANGE_FLOWERS)),
      Transition(ARRANGE_FLOWERS, Wildcard, ToNode(DELIVERY_FLOW)) ]
  }

  /** prepareFlowersJob. The exit status of selectFlowersStep is set by its
      step listener, so it is supplied by the environment. */
  function PrepareFlowersJob(): Graph {
    Graph("prepareFlowersJob", SELECT_FLOWERS,
          map[ SELECT_FLOWERS := ReportedStep,
               REMOVE_THORNS := TaskletStep(Announce),
               ARRANGE_FLOWERS := TaskletStep(Announce),
               DELIVERY_FLOW := SubFlow(DeliveryFlow()) ],
          PrepareFlowersTable())
  }

  function BillingFlow(): Graph {
    Graph("billingFlow", SEND_INVOICE, map[SEND_INVOICE := TaskletStep(Announce)], [])
  }

  function BillingJob(): Graph {
    Graph("billingJob", SEND_INVOICE, map[SEND_INVOICE := TaskletStep(Announce)], [])
  }

  /** The flow Spring Batch's split builder wraps around the step that was
      current when `.split(...)` was called: packageItemStep alone. */
  function PackagingFlow(): Graph {
    Graph(PACKAGING_FLOW, PACKAGE_ITEM, map[PACKAGE_ITEM := TaskletStep(PACKAGE_ITEM_TASKLET)], [])
  }

  /** deliverPackageJob. The builder chain declares no transition out of
      packageItemStep: `.split(...).add(deliveryFlow(), billingFlow())` folds
      the current step into the split as one more branch, after the flows
      given to `add`, and the job starts at that split. */
  function DeliverPackageJobWith(isLost: bool): Graph {
    Graph("deliverPackageJob", SPLIT,
          map[ SPLIT := Split([DeliveryFlowWith(isLost), BillingFlow(), PackagingFlow()]) ],
          [])
  }

  function DeliverPackageJob(): Graph {
    DeliverPackageJobWith(IS_LOST)
  }

  /** The job that runs chunkBasedStep; the step's exit status comes from
      the chunk pipeline (module ChunkStep). */
  function ChunkJob(): Graph {
    Graph("job", CHUNK_BASED_STEP, map[CHUNK_BASED_STEP := ReportedStep], [])
  }

  // ---------------------------------------------------------------------
  // The tables are well formed

  lemma DeliveryTableWellFormed()
    ensures WellFormed(DeliveryTable())
  {
    var t := DeliveryTable();
    assert ValidateFrom(t, 5);
    assert ValidateFrom(t, 3);
    assert ValidateFrom(t, 1);
    assert Validate(t);
    ValidateSound(t);
  }

  lemma PrepareFlowersTableWellFormed()
    ensures WellFormed(PrepareFlowersTable())
  {
    assert Validate(PrepareFlowersTable());
    ValidateSound(PrepareFlowersTable());
  }

  // ---------------------------------------------------------------------
  // How each node with several outgoing transitions routes its exit status

  function DriveToAddressRoute(exitStatus: string): Option<Target> {
    if exitStatus == FAILED then Some(EndFailed) else Some(ToNode(DELIVERY_DECIDER))
  }

  function DeliveryDeciderRoute(exitStatus: string): Option<Target> {
    if exitStatus == PRESENT then Some(ToNode(GIVE_PACKAGE))
    else if exitStatus == NOT_PRESENT then Some(ToNode(LEAVE_AT_DOOR))
    else DefaultEnd(exitStatus)
  }

  function ReceiptDeciderRoute(exitStatus: string): Option<Target> {
    if exitStatus == CORRECT then Some(ToNode(THANK_CUSTOMER))
    else if exitStatus == INCORRECT then Some(ToNode(REFUND))
    else DefaultEnd(exitStatus)
  }

  function SelectFlowersRoute(exitStatus: string): Option<Target> {
    if exitStatus == TRIM_REQUIRED then Some(ToNode(REMOVE_THORNS))
    else if exitStatus == NO_TRIM_REQUIRED then Some(ToNode(ARRANGE_FLOWERS))
    else DefaultEnd(exitStatus)
  }

  /** From driveToAddressStep, FAILED ends the flow failed (the exact entry
      wins over "*"); every other status goes to deliveryDecider. */
  lemma DriveToAddressRoutes(exitStatus: string)
    ensures Resolve(DeliveryTable(), DRIVE_TO_ADDRESS, exitStatus) == DriveToAddressRoute(exitStatus)
  {
    if exitStatus != FAILED {
      assert FindEntry(DeliveryTable(), DRIVE_TO_ADDRESS, Exact(exitStatus)) == None by {
        FindEntrySound(DeliveryTable(), DRIVE_TO_ADDRESS, Exact(exitStatus));
      }
    }
  }

  /** PRESENT hands the package over, NOT_PRESENT leaves it at the door. */
  lemma DeliveryDeciderRoutes(exitStatus: string)
    ensures Resolve(DeliveryTable(), DELIVERY_DECIDER, exitStatus) == DeliveryDeciderRoute(exitStatus)
  {
    if exitStatus != PRESENT && exitStatus != NOT_PRESENT {
      assert FindEntry(DeliveryTable(), DELIVERY_DECIDER, Exact(exitStatus)) == None by {
        FindEntrySound(DeliveryTable(), DELIVERY_DECIDER, Exact(exitStatus));
      }
    }
  }

  /** CORRECT thanks the customer, INCORRECT refunds them. */
  lemma ReceiptDeciderRoutes(exitStatus: string)
    ensures Resolve(DeliveryTable(), RECEIPT_DECIDER, exitStatus) == ReceiptDeciderRoute(exitStatus)
  {
    if exitStatus != CORRECT && exitStatus != INCORRECT {
      assert FindEntry(DeliveryTable(), RECEIPT_DECIDER, Exact(exitStatus)) == None by {
        FindEntrySound(DeliveryTable(), RECEIPT_DECIDER, Exact(exitStatus));
      }
    }
  }

  /** Any status from arrangeFlowersStep enters deliveryFlow. */
  lemma ArrangeFlowersRoutes(exitStatus: string)
    ensures Resolve(PrepareFlowersTable(), ARRANGE_FLOWERS, exitStatus) == Some(ToNode(DELIVERY_FLOW))
  {
    assert FindEntry(PrepareFlowersTable(), ARRANGE_FLOWERS, Exact(exitStatus)) == None by {
      FindEntrySound(PrepareFlowersTable(), ARRANGE_FLOWERS, Exact(exitStatus));
    }
  }

  /** TRIM_REQUIRED goes through removeThornsStep, NO_TRIM_REQUIRED straight to arrangeFlowersStep. */
  lemma SelectFlowersRoutes(exitStatus: string)
    ensures Resolve(PrepareFlowersTable(), SELECT_FLOWERS, exitStatus) == SelectFlowersRoute(exitStatus)
  {
    if exitStatus != TRIM_REQUIRED && exitStatus != NO_TRIM_REQUIRED {
      assert FindEntry(PrepareFlowersTable(), SELECT_FLOWERS, Exact(exitStatus)) == None by {
        FindEntrySound(PrepareFlowersTable(), SELECT_FLOWERS, Exact(exitStatus));
      }
    }
  }

  // ---------------------------------------------------------------------
  // Reference runs: what each flow does, told case by case

  /** How a run ends when a node's label has no transition of its own. */
  function Unrouted(node: string, exitStatus: string): Status {
    if exitStatus == COMPLETED then Completed
    else if exitStatus == FAILED then Failed
    else Unresolved(node, exitStatus)
  }

  /** From receiptDecider: the first label decides between thanking and refunding. */
  function FromReceiptDecider(inputs: seq<string>): Execution {
    if inputs == [] then Execution([RECEIPT_DECIDER], NoOutcome(RECEIPT_DECIDER), inputs)
    else if inputs[0] == CORRECT then Execution([RECEIPT_DECIDER, THANK_CUSTOMER], Completed, inputs[1..])
    else if inputs[0] == INCORRECT then Execution([RECEIPT_DECIDER, REFUND], Completed, inputs[1..])
    else Execution([RECEIPT_DECIDER], Unrouted(RECEIPT_DECIDER, inputs[0]), inputs[1..])
  }

  /** From deliveryDecider: PRESENT hands the package over and asks for the
      receipt, NOT_PRESENT leaves it at the door. */
  function FromDeliveryDecider(inputs: seq<string>): Execution {
    if inputs == [] then Execution([DELIVERY_DECIDER], NoOutcome(DELIVERY_DECIDER), inputs)
    else if inputs[0] == PRESENT then Prefixed(DELIVERY_DECIDER, Prefixed(GIVE_PACKAGE, FromReceiptDecider(inputs[1..])))
    else if inputs[0] == NOT_PRESENT then Execution([DELIVERY_DECIDER, LEAVE_AT_DOOR], Completed, inputs[1..])
    else Execution([DELIVERY_DECIDER], Unrouted(DELIVERY_DECIDER, inputs[0]), inputs[1..])
  }

  /** A whole run of deliveryFlow: a lost driver fails it at once. */
  function DeliveryRun(isLost: bool, inputs: seq<string>): Execution {
    if isLost then Execution([DRIVE_TO_ADDRESS], Failed, inputs)
    else
      var d := FromDeliveryDecider(inputs);
      Execution([DRIVE_TO_ADDRESS] + d.path, d.status, d.rest)
  }

  /** A whole run of prepareFlowersJob: the flowers are selected, thorns
      removed if needed, arranged, and then deliveryFlow runs as a nested
      flow to its end, whose status is the job's. */
  function PrepareFlowersRun(inputs: seq<string>): Execution {
    if inputs == [] then Execution([SELECT_FLOWERS], NoOutcome(SELECT_FLOWERS), inputs)
    else
      var nested := Prefixed(DELIVERY_FLOW, DeliveryRun(IS_LOST, inputs[1..]));
      if inputs[0] == TRIM_REQUIRED then Prefixed(SELECT_FLOWERS, Prefixed(REMOVE_THORNS, Prefixed(ARRANGE_FLOWERS, nested)))
      else if inputs[0] == NO_TRIM_REQUIRED then Prefixed(SELECT_FLOWERS, Prefixed(ARRANGE_FLOWERS, nested))
      else Execution([SELECT_FLOWERS], Unrouted(SELECT_FLOWERS, inputs[0]), inputs[1..])
  }

  /** How packageItemStep ends: it fails without both job parameters. */
  function PackagingStatus(params: map<string, string>): Status {
    if "item" in params && "run.date" in params then Completed else Failed
  }

  /** A whole run of deliverPackageJob: the split runs deliveryFlow,
      billingFlow and packageItemStep to their ends, whatever the others do.
      An error of deliveryFlow is the job's; otherwise the job fails iff
      deliveryFlow or packaging failed (billingFlow always completes). */
  function DeliverPackageRun(isLost: bool, params: map<string, string>, inputs: seq<string>): Execution {
    var d := DeliveryRun(isLost, inputs);
    var status :=
      if !d.status.Ended() then d.status
      else if d.status == Failed || PackagingStatus(params) == Failed then Failed
      else Completed;
    Execution([SPLIT] + d.path + [SEND_INVOICE, PACKAGE_ITEM], status, d.rest)
  }

  // ---------------------------------------------------------------------
  // The interpreter on deliveryFlow agrees with the reference run

  predicate HasNode(g: Graph, name: string, x: Executor) {
    name in g.nodes && g.nodes[name] == x
  }

  /** What the interpreter needs to know of deliveryFlow: its start, its
      nodes, and how its table resolves. */
  ghost predicate ActsAsDeliveryFlow(g: Graph, isLost: bool) {
    && g.start == DRIVE_TO_ADDRESS
    && HasNode(g, DRIVE_TO_ADDRESS, TaskletStep(ThrowIf(isLost)))
    && HasNode(g, DELIVERY_DECIDER, Decider)
    && HasNode(g, GIVE_PACKAGE, TaskletStep(Announce))
    && HasNode(g, RECEIPT_DECIDER, Decider)
    && HasNode(g, THANK_CUSTOMER, TaskletStep(Announce))
    && HasNode(g, REFUND, TaskletStep(Announce))
    && HasNode(g, LEAVE_AT_DOOR, TaskletStep(Announce))
    && (forall x :: Resolve(g.transitions, DRIVE_TO_ADDRESS, x) == DriveToAddressRoute(x))
    && (forall x :: Resolve(g.transitions, DELIVERY_DECIDER, x) == DeliveryDeciderRoute(x))
    && (forall x :: Resolve(g.transitions, RECEIPT_DECIDER, x) == ReceiptDeciderRoute(x))
    && Resolve(g.transitions, GIVE_PACKAGE, COMPLETED) == Some(ToNode(RECEIPT_DECIDER))
    && Resolve(g.transitions, THANK_CUSTOMER, COMPLETED) == Some(EndCompleted)
    && Resolve(g.transitions, REFUND, COMPLETED) == Some(EndCompleted)
    && Resolve(g.transitions, LEAVE_AT_DOOR, COMPLETED) == Some(EndCompleted)
  }

  lemma DeliveryFlowNodes(isLost: bool)
    ensures var g := DeliveryFlowWith(isLost);
            && g.start == DRIVE_TO_ADDRESS
            && HasNode(g, DRIVE_TO_ADDRESS, TaskletStep(ThrowIf(isLost)))
            && HasNode(g, DELIVERY_DECIDER, Decider)
            && HasNode(g, GIVE_PACKAGE, TaskletStep(Announce))
            && HasNode(g, RECEIPT_DECIDER, Decider)
            && HasNode(g, THANK_CUSTOMER, TaskletStep(Announce))
            && HasNode(g, REFUND, TaskletStep(Announce))
            && HasNode(g, LEAVE_AT_DOOR, TaskletStep(Announce))
  {
  }

  lemma DeliveryFlowEnds()
    ensures Resolve(DeliveryTable(), GIVE_PACKAGE, COMPLETED) == Some(ToNode(RECEIPT_DECIDER))
    ensures Resolve(DeliveryTable(), THANK_CUSTOMER, COMPLETED) == Some(EndCompleted)
    ensures Resolve(DeliveryTable(), REFUND, COMPLETED) == Some(EndCompleted)
    ensures Resolve(DeliveryTable(), LEAVE_AT_DOOR, COMPLETED) == Some(EndCompleted)
  {
  }

  lemma DeliveryFlowActs(isLost: bool)
    ensures ActsAsDeliveryFlow(DeliveryFlowWith(isLost), isLost)
  {
    DeliveryFlowNodes(isLost);
    DeliveryFlowEnds();
    forall x ensures Resolve(DeliveryTable(), DRIVE_TO_ADDRESS, x) == DriveToAddressRoute(x) {
      DriveToAddressRoutes(x);
    }
    forall x ensures Resolve(DeliveryTable(), DELIVERY_DECIDER, x) == DeliveryDeciderRoute(x) {
      DeliveryDeciderRoutes(x);
    }
    forall x ensures Resolve(DeliveryTable(), RECEIPT_DECIDER, x) == ReceiptDeciderRoute(x) {
      ReceiptDeciderRoutes(x);
    }
  }

  /** A tasklet node that ends the flow once it completes. */
  lemma FinalStepVisit(g: Graph, isLost: bool, name: string, params: map<string, string>, rest: seq<string>, fuel: nat)
    requires ActsAsDeliveryFlow(g, isLost)
    requires name == THANK_CUSTOMER || name == REFUND || name == LEAVE_AT_DOOR
    requires fuel >= 1
    ensures RunFrom(g, name, params, rest, fuel) == Execution([name], Completed, rest)
  {
    TaskletVisit(g, name, Announce, params, rest, fuel, COMPLETED, EndCompleted);
  }

  /** A decider whose label has no transition ends the run where it is. */
  lemma UnroutedVisit(g: Graph, current: string, params: map<string, string>, exitStatus: string, rest: seq<string>, fuel: nat)
    requires fuel >= 1
    requires HasNode(g, current, Decider)
    requires Resolve(g.transitions, current, exitStatus) == DefaultEnd(exitStatus)
    ensures RunFrom(g, current, params, [exitStatus] + rest, fuel) == Execution([current], Unrouted(current, exitStatus), rest)
  {
    if exitStatus == COMPLETED {
      DeciderVisit(g, current, params, exitStatus, rest, fuel, EndCompleted);
    } else if exitStatus == FAILED {
      DeciderVisit(g, current, params, exitStatus, rest, fuel, EndFailed);
    }
  }

  /** A decider label that leads to a final tasklet node. */
  lemma DecidedFinalStep(g: Graph, current: string, params: map<string, string>,
                         exitStatus: string, next: string, rest: seq<string>, fuel: nat)
    requires fuel >= 2
    requires HasNode(g, current, Decider) && HasNode(g, next, TaskletStep(Announce))
    requires Resolve(g.transitions, current, exitStatus) == Some(ToNode(next))
    requires Resolve(g.transitions, next, COMPLETED) == Some(EndCompleted)
    ensures RunFrom(g, current, params, [exitStatus] + rest, fuel) == Execution([current, next], Completed, rest)
  {
    DeciderVisit(g, current, params, exitStatus, rest, fuel, ToNode(next));
    TaskletVisit(g, next, Announce, params, rest, fuel - 1, COMPLETED, EndCompleted);
    assert [current] + [next] == [current, next];
  }

  lemma ReceiptDeciderVisit(g: Graph, isLost: bool, params: map<string, string>, inputs: seq<string>, fuel: nat)
    requires ActsAsDeliveryFlow(g, isLost)
    requires fuel >= 2
    ensures RunFrom(g, RECEIPT_DECIDER, params, inputs, fuel) == FromReceiptDecider(inputs)
  {
    if inputs != [] {
      var x, rest := inputs[0], inputs[1..];
      assert inputs == [x] + rest;
      assert Resolve(g.transitions, RECEIPT_DECIDER, x) == ReceiptDeciderRoute(x);
      if x == CORRECT {
        DecidedFinalStep(g, RECEIPT_DECIDER, params, x, THANK_CUSTOMER, rest, fuel);
      } else if x == INCORRECT {
        DecidedFinalStep(g, RECEIPT_DECIDER, params, x, REFUND, rest, fuel);
      } else {
        UnroutedVisit(g, RECEIPT_DECIDER, params, x, rest, fuel);
      }
    }
  }

  /** PRESENT: the package is handed over, then receiptDecider decides. */
  lemma PackageGiven(g: Graph, params: map<string, string>, rest: seq<string>, fuel: nat)
    requires HasNode(g, DELIVERY_DECIDER, Decider) && HasNode(g, GIVE_PACKAGE, TaskletStep(Announce))
    requires Resolve(g.transitions, DELIVERY_DECIDER, PRESENT) == Some(ToNode(GIVE_PACKAGE))
    requires Resolve(g.transitions, GIVE_PACKAGE, COMPLETED) == Some(ToNode(RECEIPT_DECIDER))
    requires fuel >= 2
    ensures RunFrom(g, DELIVERY_DECIDER, params, [PRESENT] + rest, fuel)
            == Prefixed(DELIVERY_DECIDER, Prefixed(GIVE_PACKAGE, RunFrom(g, RECEIPT_DECIDER, params, rest, fuel - 2)))
  {
    var e2 := RunFrom(g, RECEIPT_DECIDER, params, rest, fuel - 2);
    TaskletVisit(g, GIVE_PACKAGE, Announce, params, rest, fuel - 1, COMPLETED, ToNode(RECEIPT_DECIDER));
    assert RunFrom(g, GIVE_PACKAGE, params, rest, fuel - 1) == Prefixed(GIVE_PACKAGE, e2);
    DeciderVisit(g, DELIVERY_DECIDER, params, PRESENT, rest, fuel, ToNode(GIVE_PACKAGE));
  }

  lemma DeliveryDeciderVisit(g: Graph, isLost: bool, params: map<string, string>, inputs: seq<string>, fuel: nat)
    requires ActsAsDeliveryFlow(g, isLost)
    requires fuel >= 4
    ensures RunFrom(g, DELIVERY_DECIDER, params, inputs, fuel) == FromDeliveryDecider(inputs)
  {
    if inputs != [] {
      var x, rest := inputs[0], inputs[1..];
      assert inputs == [x] + rest;
      assert Resolve(g.transitions, DELIVERY_DECIDER, x) == DeliveryDeciderRoute(x);
      if x == PRESENT {
        PackageGiven(g, params, rest, fuel);
        ReceiptDeciderVisit(g, isLost, params, rest, fuel - 2);
      } else if x == NOT_PRESENT {
        DecidedFinalStep(g, DELIVERY_DECIDER, params, x, LEAVE_AT_DOOR, rest, fuel);
      } else {
        UnroutedVisit(g, DELIVERY_DECIDER, params, x, rest, fuel);
      }
    }
  }

  lemma DeliveryVisit(g: Graph, isLost: bool, params: map<string, string>, inputs: seq<string>, fuel: nat)
    requires ActsAsDeliveryFlow(g, isLost)
    requires fuel >= 5
    ensures RunFrom(g, g.start, params, inputs, fuel) == DeliveryRun(isLost, inputs)
  {
    assert Resolve(g.transitions, DRIVE_TO_ADDRESS, FAILED) == DriveToAddressRoute(FAILED);
    assert Resolve(g.transitions, DRIVE_TO_ADDRESS, COMPLETED) == DriveToAddressRoute(COMPLETED);
    if isLost {
      TaskletVisit(g, DRIVE_TO_ADDRESS, ThrowIf(isLost), params, inputs, fuel, FAILED, EndFailed);
    } else {
      TaskletVisit(g, DRIVE_TO_ADDRESS, ThrowIf(isLost), params, inputs, fuel, COMPLETED, ToNode(DELIVERY_DECIDER));
      DeliveryDeciderVisit(g, isLost, params, inputs, fuel - 1);
    }
  }

  /** deliveryFlow, given enough fuel, runs exactly as DeliveryRun tells. */
  lemma DeliveryFlowRuns(isLost: bool, params: map<string, string>, inputs: seq<string>, fuel: nat)
    requires fuel >= 5
    ensures RunFlow(DeliveryFlowWith(isLost), params, inputs, fuel) == DeliveryRun(isLost, inputs)
  {
    DeliveryFlowActs(isLost);
    DeliveryVisit(DeliveryFlowWith(isLost), isLost, params, inputs, fuel);
  }

  // ---------------------------------------------------------------------
  // Scenarios of deliveryFlow

  /** The driver is never lost, so driveToAddressStep always finishes. */
  lemma DriverArrives(params: map<string, string>)
    ensures ExecuteTasklet(DriveToAddress(IS_LOST), params) == Finished
  {
  }

  /** A lost driver fails the flow at driveToAddressStep: deliveryDecider is
      never reached and no decider label is read. */
  lemma LostDriverFails(params: map<string, string>, inputs: seq<string>, fuel: nat)
    requires fuel >= 5
    ensures RunFlow(DeliveryFlowWith(true), params, inputs, fuel) == Execution([DRIVE_TO_ADDRESS], Failed, inputs)
    ensures DELIVERY_DECIDER !in RunFlow(DeliveryFlowWith(true), params, inputs, fuel).path
  {
    DeliveryFlowRuns(true, params, inputs, fuel);
  }

  /** The reference run for PRESENT followed by a declared receipt label. */
  lemma HandedOverRun(x: string, rest: seq<string>)
    requires x == CORRECT || x == INCORRECT
    ensures DeliveryRun(IS_LOST, [PRESENT, x] + rest)
            == Execution([DRIVE_TO_ADDRESS, DELIVERY_DECIDER, GIVE_PACKAGE, RECEIPT_DECIDER,
                          if x == CORRECT then THANK_CUSTOMER else REFUND], Completed, rest)
  {
    var receipt := [x] + rest;
    assert receipt[0] == x && receipt[1..] == rest;
    var r := FromReceiptDecider(receipt);
    assert r == Execution([RECEIPT_DECIDER, if x == CORRECT then THANK_CUSTOMER else REFUND], Completed, rest);
    var inputs := [PRESENT] + receipt;
    assert inputs == [PRESENT, x] + rest;
    assert inputs[0] == PRESENT && inputs[1..] == receipt;
    assert FromDeliveryDecider(inputs) == Prefixed(DELIVERY_DECIDER, Prefixed(GIVE_PACKAGE, r));
  }

  /** PRESENT then CORRECT: the package is handed over and the customer
      thanked; refundStep and leaveAtDoorStep are not visited. */
  lemma PresentAndCorrect(params: map<string, string>, rest: seq<string>, fuel: nat)
    requires fuel >= 5
    ensures RunFlow(DeliveryFlow(), params, [PRESENT, CORRECT] + rest, fuel)
            == Execution([DRIVE_TO_ADDRESS, DELIVERY_DECIDER, GIVE_PACKAGE, RECEIPT_DECIDER, THANK_CUSTOMER], Completed, rest)
    ensures REFUND !in RunFlow(DeliveryFlow(), params, [PRESENT, CORRECT] + rest, fuel).path
    ensures LEAVE_AT_DOOR !in RunFlow(DeliveryFlow(), params, [PRESENT, CORRECT] + rest, fuel).path
  {
    DeliveryFlowRuns(IS_LOST, params, [PRESENT, CORRECT] + rest, fuel);
    HandedOverRun(CORRECT, rest);
  }

  /** PRESENT then INCORRECT: the package is handed over and the customer refunded. */
  lemma PresentAndIncorrect(params: map<string, string>, rest: seq<string>, fuel: nat)
    requires fuel >= 5
    ensures RunFlow(DeliveryFlow(), params, [PRESENT, INCORRECT] + rest, fuel)
            == Execution([DRIVE_TO_ADDRESS, DELIVERY_DECIDER, GIVE_PACKAGE, RECEIPT_DECIDER, REFUND], Completed, rest)
  {
    DeliveryFlowRuns(IS_LOST, params, [PRESENT, INCORRECT] + rest, fuel);
    HandedOverRun(INCORRECT, rest);
  }

  /** NOT_PRESENT: the package is left at the door and no receipt is asked for. */
  lemma NotPresent(params: map<string, string>, rest: seq<string>, fuel: nat)
    requires fuel >= 5
    ensures RunFlow(DeliveryFlow(), params, [NOT_PRESENT] + rest, fuel)
            == Execution([DRIVE_TO_ADDRESS, DELIVERY_DECIDER, LEAVE_AT_DOOR], Completed, rest)
  {
    DeliveryFlowRuns(IS_LOST, params, [NOT_PRESENT] + rest, fuel);
    assert ([NOT_PRESENT] + rest)[1..] == rest;
  }

  /** A deliveryDecider label the flow does not declare stops the run there. */
  lemma UndeclaredDeliveryLabel(params: map<string, string>, x: string, rest: seq<string>, fuel: nat)
    requires fuel >= 5
    requires x != PRESENT && x != NOT_PRESENT && x != COMPLETED && x != FAILED
    ensures RunFlow(DeliveryFlow(), params, [x] + rest, fuel)
            == Execution([DRIVE_TO_ADDRESS, DELIVERY_DECIDER], Unresolved(DELIVERY_DECIDER, x), rest)
  {
    DeliveryFlowRuns(IS_LOST, params, [x] + rest, fuel);
    assert ([x] + rest)[1..] == rest;
  }

  // ---------------------------------------------------------------------
  // prepareFlowersJob

  /** What the interpreter needs to know of prepareFlowersJob; its nested
      deliveryFlow is described by ActsAsDeliveryFlow. */
  ghost predicate ActsAsPrepareFlowersJob(g: Graph) {
    && g.start == SELECT_FLOWERS
    && HasNode(g, SELECT_FLOWERS, ReportedStep)
    && HasNode(g, REMOVE_THORNS, TaskletStep(Announce))
    && HasNode(g, ARRANGE_FLOWERS, TaskletStep(Announce))
    && DELIVERY_FLOW in g.nodes && g.nodes[DELIVERY_FLOW].SubFlow?
    && (forall x :: Resolve(g.transitions, SELECT_FLOWERS, x) == SelectFlowersRoute(x))
    && Resolve(g.transitions, REMOVE_THORNS, COMPLETED) == Some(ToNode(ARRANGE_FLOWERS))
    && Resolve(g.transitions, ARRANGE_FLOWERS, COMPLETED) == Some(ToNode(DELIVERY_FLOW))
    && Resolve(g.transitions, DELIVERY_FLOW, COMPLETED) == Some(EndCompleted)
    && Resolve(g.transitions, DELIVERY_FLOW, FAILED) == Some(EndFailed)
  }

  lemma PrepareFlowersNodes()
    ensures var g := PrepareFlowersJob();
            && g.start == SELECT_FLOWERS
            && HasNode(g, SELECT_FLOWERS, ReportedStep)
            && HasNode(g, REMOVE_THORNS, TaskletStep(Announce))
            && HasNode(g, ARRANGE_FLOWERS, TaskletStep(Announce))
            && HasNode(g, DELIVERY_FLOW, SubFlow(DeliveryFlow()))
  {
  }

  lemma PrepareFlowersEnds()
    ensures Resolve(PrepareFlowersTable(), REMOVE_THORNS, COMPLETED) == Some(ToNode(ARRANGE_FLOWERS))
    ensures Resolve(PrepareFlowersTable(), DELIVERY_FLOW, COMPLETED) == Some(EndCompleted)
    ensures Resolve(PrepareFlowersTable(), DELIVERY_FLOW, FAILED) == Some(EndFailed)
  {
  }

  lemma PrepareFlowersJobActs()
    ensures ActsAsPrepareFlowersJob(PrepareFlowersJob())
    ensures ActsAsDeliveryFlow(PrepareFlowersJob().nodes[DELIVERY_FLOW].flow, IS_LOST)
  {
    PrepareFlowersNodes();
    PrepareFlowersEnds();
    DeliveryFlowActs(IS_LOST);
    forall x ensures Resolve(PrepareFlowersTable(), SELECT_FLOWERS, x) == SelectFlowersRoute(x) {
      SelectFlowersRoutes(x);
    }
    ArrangeFlowersRoutes(COMPLETED);
  }

  lemma NestedDeliveryVisit(g: Graph, params: map<string, string>, inputs: seq<string>, fuel: nat)
    requires ActsAsPrepareFlowersJob(g)
    requires ActsAsDeliveryFlow(g.nodes[DELIVERY_FLOW].flow, IS_LOST)
    requires fuel >= 6
    ensures RunFrom(g, DELIVERY_FLOW, params, inputs, fuel) == Prefixed(DELIVERY_FLOW, DeliveryRun(IS_LOST, inputs))
  {
    var f := g.nodes[DELIVERY_FLOW].flow;
    SubFlowVisit(g, DELIVERY_FLOW, f, params, inputs, fuel);
    DeliveryVisit(f, IS_LOST, params, inputs, fuel - 1);
  }

  /** selectFlowersStep routes its label; the two declared labels reach
      deliveryFlow through arrangeFlowersStep, removing thorns first when
      trimming is required. */
  lemma SelectFlowersVisit(g: Graph, params: map<string, string>, x: string, rest: seq<string>, fuel: nat)
    requires ActsAsPrepareFlowersJob(g)
    requires fuel >= 4
    ensures x == TRIM_REQUIRED ==>
              RunFrom(g, g.start, params, [x] + rest, fuel)
              == Prefixed(SELECT_FLOWERS, Prefixed(REMOVE_THORNS, Prefixed(ARRANGE_FLOWERS, RunFrom(g, DELIVERY_FLOW, params, rest, fuel - 3))))
    ensures x == NO_TRIM_REQUIRED ==>
              RunFrom(g, g.start, params, [x] + rest, fuel)
              == Prefixed(SELECT_FLOWERS, Prefixed(ARRANGE_FLOWERS, RunFrom(g, DELIVERY_FLOW, params, rest, fuel - 2)))
    ensures x != TRIM_REQUIRED && x != NO_TRIM_REQUIRED ==>
              RunFrom(g, g.start, params, [x] + rest, fuel) == Execution([SELECT_FLOWERS], Unrouted(SELECT_FLOWERS, x), rest)
  {
    assert Resolve(g.transitions, SELECT_FLOWERS, x) == SelectFlowersRoute(x);
    if x == TRIM_REQUIRED {
      DeciderVisit(g, SELECT_FLOWERS, params, x, rest, fuel, ToNode(REMOVE_THORNS));
      TaskletVisit(g, REMOVE_THORNS, Announce, params, rest, fuel - 1, COMPLETED, ToNode(ARRANGE_FLOWERS));
      TaskletVisit(g, ARRANGE_FLOWERS, Announce, params, rest, fuel - 2, COMPLETED, ToNode(DELIVERY_FLOW));
    } else if x == NO_TRIM_REQUIRED {
      DeciderVisit(g, SELECT_FLOWERS, params, x, rest, fuel, ToNode(ARRANGE_FLOWERS));
      TaskletVisit(g, ARRANGE_FLOWERS, Announce, params, rest, fuel - 1, COMPLETED, ToNode(DELIVERY_FLOW));
    } else if x == COMPLETED {
      DeciderVisit(g, SELECT_FLOWERS, params, x, rest, fuel, EndCompleted);
    } else if x == FAILED {
      DeciderVisit(g, SELECT_FLOWERS, params, x, rest, fuel, EndFailed);
    }
  }

  lemma PrepareFlowersVisit(g: Graph, params: map<string, string>, inputs: seq<string>, fuel: nat)
    requires ActsAsPrepareFlowersJob(g)
    requires ActsAsDeliveryFlow(g.nodes[DELIVERY_FLOW].flow, IS_LOST)
    requires fuel >= 9
    ensures RunFrom(g, g.start, params, inputs, fuel) == PrepareFlowersRun(inputs)
  {
    if inputs != [] {
      var x, rest := inputs[0], inputs[1..];
      assert inputs == [x] + rest;
      SelectFlowersVisit(g, params, x, rest, fuel);
      if x == TRIM_REQUIRED {
        NestedDeliveryVisit(g, params, rest, fuel - 3);
      } else if x == NO_TRIM_REQUIRED {
        NestedDeliveryVisit(g, params, rest, fuel - 2);
      }
    }
  }

  /** prepareFlowersJob, given enough fuel, runs exactly as PrepareFlowersRun tells. */
  lemma PrepareFlowersJobRuns(params: map<string, string>, inputs: seq<string>, fuel: nat)
    requires fuel >= 9
    ensures RunFlow(PrepareFlowersJob(), params, inputs, fuel) == PrepareFlowersRun(inputs)
  {
    PrepareFlowersJobActs();
    PrepareFlowersVisit(PrepareFlowersJob(), params, inputs, fuel);
  }

  /** Every node deliveryFlow visits is one of its own. */
  lemma DeliveryRunStaysInFlow(isLost: bool, inputs: seq<string>)
    ensures forall n :: n in DeliveryRun(isLost, inputs).path ==> n in DeliveryFlowWith(isLost).nodes
  {
    if !isLost && |inputs| > 0 && inputs[0] == PRESENT {
      var r := FromReceiptDecider(inputs[1..]);
      assert forall n :: n in r.path ==> n in DeliveryFlowWith(isLost).nodes;
    }
  }

  /** The reference run after TRIM_REQUIRED and after NO_TRIM_REQUIRED. */
  lemma TrimLabelRuns(x: string, rest: seq<string>)
    requires x == TRIM_REQUIRED || x == NO_TRIM_REQUIRED
    ensures var nested := Prefixed(DELIVERY_FLOW, DeliveryRun(IS_LOST, rest));
            PrepareFlowersRun([x] + rest)
            == if x == TRIM_REQUIRED then Prefixed(SELECT_FLOWERS, Prefixed(REMOVE_THORNS, Prefixed(ARRANGE_FLOWERS, nested)))
               else Prefixed(SELECT_FLOWERS, Prefixed(ARRANGE_FLOWERS, nested))
  {
    var inputs := [x] + rest;
    assert inputs[0] == x && inputs[1..] == rest;
  }

  /** TRIM_REQUIRED: removeThornsStep runs, then arrangeFlowersStep, then
      deliveryFlow, and the job ends as deliveryFlow does. */
  lemma TrimRequired(params: map<string, string>, rest: seq<string>, fuel: nat)
    requires fuel >= 9
    ensures var e := RunFlow(PrepareFlowersJob(), params, [TRIM_REQUIRED] + rest, fuel);
            var d := DeliveryRun(IS_LOST, rest);
            e.path == [SELECT_FLOWERS, REMOVE_THORNS, ARRANGE_FLOWERS, DELIVERY_FLOW] + d.path
            && e.status == d.status && e.rest == d.rest
  {
    PrepareFlowersJobRuns(params, [TRIM_REQUIRED] + rest, fuel);
    TrimLabelRuns(TRIM_REQUIRED, rest);
    var d := DeliveryRun(IS_LOST, rest);
    assert [SELECT_FLOWERS] + ([REMOVE_THORNS] + ([ARRANGE_FLOWERS] + ([DELIVERY_FLOW] + d.path)))
        == [SELECT_FLOWERS, REMOVE_THORNS, ARRANGE_FLOWERS, DELIVERY_FLOW] + d.path;
  }

  /** removeThornsStep is not a node of deliveryFlow, so no run of it visits it. */
  lemma NoThornsInDelivery(inputs: seq<string>)
    ensures REMOVE_THORNS !in DeliveryRun(IS_LOST, inputs).path
  {
    DeliveryRunStaysInFlow(IS_LOST, inputs);
    assert REMOVE_THORNS !in DeliveryFlowWith(IS_LOST).nodes;
  }

  /** NO_TRIM_REQUIRED: straight to arrangeFlowersStep; removeThornsStep never runs. */
  lemma NoTrimRequired(params: map<string, string>, rest: seq<string>, fuel: nat)
    requires fuel >= 9
    ensures var e := RunFlow(PrepareFlowersJob(), params, [NO_TRIM_REQUIRED] + rest, fuel);
            var d := DeliveryRun(IS_LOST, rest);
            e.path == [SELECT_FLOWERS, ARRANGE_FLOWERS, DELIVERY_FLOW] + d.path
            && e.status == d.status && e.rest == d.rest
            && REMOVE_THORNS !in e.path
  {
    PrepareFlowersJobRuns(params, [NO_TRIM_REQUIRED] + rest, fuel);
    TrimLabelRuns(NO_TRIM_REQUIRED, rest);
    var d := DeliveryRun(IS_LOST, rest);
    assert [SELECT_FLOWERS] + ([ARRANGE_FLOWERS] + ([DELIVERY_FLOW] + d.path))
        == [SELECT_FLOWERS, ARRANGE_FLOWERS, DELIVERY_FLOW] + d.path;
    NoThornsInDelivery(rest);
  }

  /** A bouquet that needs trimming, delivered to a customer who is present
      and finds the receipt correct. */
  lemma TrimmedBouquetDelivered(params: map<string, string>, rest: seq<string>, fuel: nat)
    requires fuel >= 9
    ensures RunFlow(PrepareFlowersJob(), params, [TRIM_REQUIRED, PRESENT, CORRECT] + rest, fuel)
            == Execution([SELECT_FLOWERS, REMOVE_THORNS, ARRANGE_FLOWERS, DELIVERY_FLOW,
                          DRIVE_TO_ADDRESS, DELIVERY_DECIDER, GIVE_PACKAGE, RECEIPT_DECIDER, THANK_CUSTOMER],
                         Completed, rest)
  {
    assert [TRIM_REQUIRED, PRESENT, CORRECT] + rest == [TRIM_REQUIRED] + ([PRESENT, CORRECT] + rest);
    TrimRequired(params, [PRESENT, CORRECT] + rest, fuel);
    HandedOverRun(CORRECT, rest);
  }

  // ---------------------------------------------------------------------
  // billingFlow, billingJob and deliverPackageJob

  /** What the interpreter needs to know of billingFlow (and billingJob). */
  ghost predicate ActsAsBilling(g: Graph) {
    && g.start == SEND_INVOICE
    && HasNode(g, SEND_INVOICE, TaskletStep(Announce))
    && Resolve(g.transitions, SEND_INVOICE, COMPLETED) == Some(EndCompleted)
  }

  lemma BillingVisit(g: Graph, params: map<string, string>, inputs: seq<string>, fuel: nat)
    requires ActsAsBilling(g)
    requires fuel >= 1
    ensures RunFrom(g, g.start, params, inputs, fuel) == Execution([SEND_INVOICE], Completed, inputs)
  {
    TaskletVisit(g, SEND_INVOICE, Announce, params, inputs, fuel, COMPLETED, EndCompleted);
  }

  /** billingFlow and billingJob send the invoice and complete, reading no label. */
  lemma BillingRuns(params: map<string, string>, inputs: seq<string>, fuel: nat)
    requires fuel >= 1
    ensures RunFlow(BillingFlow(), params, inputs, fuel) == Execution([SEND_INVOICE], Completed, inputs)
    ensures RunFlow(BillingJob(), params, inputs, fuel) == Execution([SEND_INVOICE], Completed, inputs)
  {
    BillingVisit(BillingFlow(), params, inputs, fuel);
    BillingVisit(BillingJob(), params, inputs, fuel);
  }

  /** What the interpreter needs to know of deliverPackageJob; its branches
      are described by ActsAsDeliveryFlow, ActsAsBilling and ActsAsPackaging. */
  ghost predicate ActsAsDeliverPackageJob(g: Graph) {
    && g.start == SPLIT
    && SPLIT in g.nodes && g.nodes[SPLIT].Split? && |g.nodes[SPLIT].flows| == 3
    && Resolve(g.transitions, SPLIT, COMPLETED) == Some(EndCompleted)
    && Resolve(g.transitions, SPLIT, FAILED) == Some(EndFailed)
  }

  ghost predicate ActsAsPackaging(g: Graph) {
    && g.start == PACKAGE_ITEM
    && HasNode(g, PACKAGE_ITEM, TaskletStep(PACKAGE_ITEM_TASKLET))
    && Resolve(g.transitions, PACKAGE_ITEM, COMPLETED) == Some(EndCompleted)
    && Resolve(g.transitions, PACKAGE_ITEM, FAILED) == Some(EndFailed)
  }

  lemma DeliverPackageNodes(isLost: bool)
    ensures var g := DeliverPackageJobWith(isLost);
            && g.start == SPLIT
            && HasNode(g, SPLIT, Split([DeliveryFlowWith(isLost), BillingFlow(), PackagingFlow()]))
            && PackagingFlow().start == PACKAGE_ITEM
            && HasNode(PackagingFlow(), PACKAGE_ITEM, TaskletStep(PACKAGE_ITEM_TASKLET))
  {
  }

  lemma DeliverPackageEnds(isLost: bool)
    ensures Resolve(DeliverPackageJobWith(isLost).transitions, SPLIT, COMPLETED) == Some(EndCompleted)
    ensures Resolve(DeliverPackageJobWith(isLost).transitions, SPLIT, FAILED) == Some(EndFailed)
    ensures Resolve(PackagingFlow().transitions, PACKAGE_ITEM, COMPLETED) == Some(EndCompleted)
    ensures Resolve(PackagingFlow().transitions, PACKAGE_ITEM, FAILED) == Some(EndFailed)
  {
  }

  lemma DeliverPackageJobActs(isLost: bool)
    ensures ActsAsDeliverPackageJob(DeliverPackageJobWith(isLost))
    ensures ActsAsDeliveryFlow(DeliverPackageJobWith(isLost).nodes[SPLIT].flows[0], isLost)
    ensures ActsAsBilling(DeliverPackageJobWith(isLost).nodes[SPLIT].flows[1])
    ensures ActsAsPackaging(DeliverPackageJobWith(isLost).nodes[SPLIT].flows[2])
  {
    DeliverPackageNodes(isLost);
    DeliverPackageEnds(isLost);
    DeliveryFlowActs(isLost);
  }

  /** Without both job parameters, packageItemStep throws and its branch fails. */
  lemma PackagingFailsVisit(g: Graph, params: map<string, string>, inputs: seq<string>, fuel: nat)
    requires ActsAsPackaging(g)
    requires fuel >= 1
    requires "item" !in params || "run.date" !in params
    ensures RunFrom(g, g.start, params, inputs, fuel) == Execution([PACKAGE_ITEM], Failed, inputs)
  {
    assert ExecuteTasklet(PACKAGE_ITEM_TASKLET, params) == Threw by {
      assert PACKAGE_ITEM_TASKLET.keys[0] == "item" && PACKAGE_ITEM_TASKLET.keys[1] == "run.date";
    }
    TaskletVisit(g, PACKAGE_ITEM, PACKAGE_ITEM_TASKLET, params, inputs, fuel, FAILED, EndFailed);
  }

  /** With both job parameters, packageItemStep completes and so does its branch. */
  lemma PackagingDoneVisit(g: Graph, params: map<string, string>, inputs: seq<string>, fuel: nat)
    requires ActsAsPackaging(g)
    requires fuel >= 1
    requires "item" in params && "run.date" in params
    ensures RunFrom(g, g.start, params, inputs, fuel) == Execution([PACKAGE_ITEM], Completed, inputs)
  {
    assert ExecuteTasklet(PACKAGE_ITEM_TASKLET, params) == Finished by {
      assert forall k :: k in PACKAGE_ITEM_TASKLET.keys ==> k == "item" || k == "run.date";
    }
    TaskletVisit(g, PACKAGE_ITEM, PACKAGE_ITEM_TASKLET, params, inputs, fuel, COMPLETED, EndCompleted);
  }

  /** The packaging branch reads no label and ends as PackagingStatus says. */
  lemma PackagingVisit(g: Graph, params: map<string, string>, inputs: seq<string>, fuel: nat)
    requires ActsAsPackaging(g)
    requires fuel >= 1
    ensures RunFrom(g, g.start, params, inputs, fuel) == Execution([PACKAGE_ITEM], PackagingStatus(params), inputs)
  {
    if "item" in params && "run.date" in params {
      PackagingDoneVisit(g, params, inputs, fuel);
    } else {
      PackagingFailsVisit(g, params, inputs, fuel);
    }
  }

  /** Whatever the first branch does, billingFlow and then packageItemStep
      run after it on the labels it left. */
  lemma SplitBranchesVisit(g: Graph, params: map<string, string>, inputs: seq<string>, fuel: nat, e0: Execution)
    requires ActsAsDeliverPackageJob(g)
    requires ActsAsBilling(g.nodes[SPLIT].flows[1])
    requires ActsAsPackaging(g.nodes[SPLIT].flows[2])
    requires fuel >= 2
    requires RunFrom(g.nodes[SPLIT].flows[0], g.nodes[SPLIT].flows[0].start, params, inputs, fuel - 1) == e0
    ensures RunFrom(g, SPLIT, params, inputs, fuel)
            == Execution([SPLIT] + (e0.path + [SEND_INVOICE] + [PACKAGE_ITEM]),
                         JoinAll([e0.status, Completed, PackagingStatus(params)]), e0.rest)
  {
    var fs := g.nodes[SPLIT].flows;
    ThreeWaySplitVisit(g, SPLIT, fs, params, inputs, fuel);
    BillingVisit(fs[1], params, e0.rest, fuel - 1);
    PackagingVisit(fs[2], params, e0.rest, fuel - 1);
  }

  lemma DeliverPackageVisit(g: Graph, isLost: bool, params: map<string, string>, inputs: seq<string>, fuel: nat)
    requires ActsAsDeliverPackageJob(g)
    requires ActsAsDeliveryFlow(g.nodes[SPLIT].flows[0], isLost)
    requires ActsAsBilling(g.nodes[SPLIT].flows[1])
    requires ActsAsPackaging(g.nodes[SPLIT].flows[2])
    requires fuel >= 6
    ensures RunFrom(g, g.start, params, inputs, fuel) == DeliverPackageRun(isLost, params, inputs)
  {
    DeliveryVisit(g.nodes[SPLIT].flows[0], isLost, params, inputs, fuel - 1);
    SplitBranchesVisit(g, params, inputs, fuel, DeliveryRun(isLost, inputs));
    JoinedIsReference(isLost, params, inputs, RunFrom(g, SPLIT, params, inputs, fuel));
  }

  /** The joined run of the three branches is the reference run. */
  lemma JoinedIsReference(isLost: bool, params: map<string, string>, inputs: seq<string>, e: Execution)
    requires var d := DeliveryRun(isLost, inputs);
             e == Execution([SPLIT] + (d.path + [SEND_INVOICE] + [PACKAGE_ITEM]),
                            JoinAll([d.status, Completed, PackagingStatus(params)]), d.rest)
    ensures e == DeliverPackageRun(isLost, params, inputs)
  {
    var d := DeliveryRun(isLost, inputs);
    JoinAroundCompleted(d.status, PackagingStatus(params));
    assert [SPLIT] + (d.path + [SEND_INVOICE] + [PACKAGE_ITEM]) == [SPLIT] + d.path + [SEND_INVOICE, PACKAGE_ITEM];
  }

  /** deliverPackageJob, given enough fuel, runs exactly as DeliverPackageRun tells. */
  lemma DeliverPackageJobRuns(isLost: bool, params: map<string, string>, inputs: seq<string>, fuel: nat)
    requires fuel >= 6
    ensures RunFlow(DeliverPackageJobWith(isLost), params, inputs, fuel) == DeliverPackageRun(isLost, params, inputs)
  {
    DeliverPackageJobActs(isLost);
    DeliverPackageVisit(DeliverPackageJobWith(isLost), isLost, params, inputs, fuel);
  }

  /** Without the "item" or "run.date" job parameter packageItemStep fails
      and so does the job, once deliveryFlow has ended; deliveryFlow and
      billingFlow still run in full beside it. */
  lemma MissingParameterFailsPackaging(params: map<string, string>, inputs: seq<string>, fuel: nat)
    requires fuel >= 6
    requires "item" !in params || "run.date" !in params
    ensures var d := DeliveryRun(IS_LOST, inputs);
            RunFlow(DeliverPackageJob(), params, inputs, fuel)
            == Execution([SPLIT] + d.path + [SEND_INVOICE, PACKAGE_ITEM], if d.status.Ended() then Failed else d.status, d.rest)
  {
    DeliverPackageJobRuns(IS_LOST, params, inputs, fuel);
  }

  /** A lost driver fails the job, yet billingFlow still sends the invoice
      and packageItemStep still runs: the branches of a split do not cancel
      each other. */
  lemma InvoiceSentEvenIfLost(params: map<string, string>, inputs: seq<string>, fuel: nat)
    requires fuel >= 6
    ensures RunFlow(DeliverPackageJobWith(true), params, inputs, fuel)
            == Execution([SPLIT, DRIVE_TO_ADDRESS, SEND_INVOICE, PACKAGE_ITEM], Failed, inputs)
  {
    DeliverPackageJobRuns(true, params, inputs, fuel);
  }

  /** With both parameters, a present customer and a correct receipt, the
      job completes after all three branches. */
  lemma PackageDeliveredAndBilled(params: map<string, string>, rest: seq<string>, fuel: nat)
    requires fuel >= 6
    requires "item" in params && "run.date" in params
    ensures RunFlow(DeliverPackageJob(), params, [PRESENT, CORRECT] + rest, fuel)
            == Execution([SPLIT, DRIVE_TO_ADDRESS, DELIVERY_DECIDER, GIVE_PACKAGE,
                          RECEIPT_DECIDER, THANK_CUSTOMER, SEND_INVOICE, PACKAGE_ITEM], Completed, rest)
  {
    DeliverPackageJobRuns(IS_LOST, params, [PRESENT, CORRECT] + rest, fuel);
    HandedOverRun(CORRECT, rest);
    var d := DeliveryRun(IS_LOST, [PRESENT, CORRECT] + rest);
    assert [SPLIT] + d.path + [SEND_INVOICE, PACKAGE_ITEM]
        == [SPLIT, DRIVE_TO_ADDRESS, DELIVERY_DECIDER, GIVE_PACKAGE, RECEIPT_DECIDER, THANK_CUSTOMER, SEND_INVOICE, PACKAGE_ITEM];
  }

  // ---------------------------------------------------------------------
  // The job around chunkBasedStep

  /** The job ends as chunkBasedStep's exit status says. */
  lemma ChunkJobRuns(params: map<string, string>, exitStatus: string, rest: seq<string>, fuel: nat)
    requires fuel >= 1
    ensures RunFlow(ChunkJob(), params, [exitStatus] + rest, fuel)
            == Execution([CHUNK_BASED_STEP], Unrouted(CHUNK_BASED_STEP, exitStatus), rest)
  {
    assert Resolve(ChunkJob().transitions, CHUNK_BASED_STEP, exitStatus) == DefaultEnd(exitStatus);
    if exitStatus == COMPLETED {
      DeciderVisit(ChunkJob(), CHUNK_BASED_STEP, params, exitStatus, rest, fuel, EndCompleted);
    } else if exitStatus == FAILED {
      DeciderVisit(ChunkJob(), CHUNK_BASED_STEP, params, exitStatus, rest, fuel, EndFailed);
    } else {
      assert ([exitStatus] + rest)[1..] == rest;
    }
  }
}
