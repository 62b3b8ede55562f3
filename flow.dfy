/**
 * The flow engine: transition tables, exit-status resolution and a
 * fuel-bounded interpreter for flows and jobs built from steps, deciders,
 * nested flows and splits.
 */
module Flow {
  import opened Wrappers

  /** The two exit statuses the engine itself produces. */
  const COMPLETED: string := "COMPLETED"
  const FAILED: string := "FAILED"

  /** What `.on(...)` matches: one exact exit-status label, or the "*" wildcard. */
  datatype Pattern = Exact(exitStatus: string) | Wildcard

  /** Where a transition leads: another node, or an end of the flow
      (`.end()` ends it COMPLETED, `.fail()` ends it FAILED). */
  datatype Target = ToNode(node: string) | EndCompleted | EndFailed

  datatype Transition = Transition(from: string, on: Pattern, to: Target)

  /** What a tasklet lambda does, reduced to what decides whether it returns
      FINISHED or throws. */
  datatype TaskletBody =
    | Announce                           // prints a message, returns FINISHED
    | ThrowIf(condition: bool)           // throws a RuntimeException when the condition holds
    | ReadParameters(keys: seq<string>)  // calls toString() on each job parameter, so a missing one throws

  datatype TaskletOutcome = Finished | Threw

  /** How a node obtains its exit status. */
  datatype Executor =
    | TaskletStep(body: TaskletBody)
    | Decider                 // a decider: its label is supplied by the environment
    | ReportedStep            // a step whose exit status is set outside the flow engine
    | SubFlow(flow: Graph)    // a nested flow, run to its end
    | Split(flows: seq<Graph>) // parallel branches, run to completion and joined

  /** A flow (or the flow of a job): its nodes by name, a start node and a transition table. */
  datatype Graph = Graph(name: string, start: string, nodes: map<string, Executor>, transitions: seq<Transition>)

  /** How a run ends. Only Completed and Failed are ends the flow declares;
      the rest are errors of the configuration or of the model's bounds. */
  datatype Status =
    | Completed
    | Failed
    | Unresolved(node: string, exitStatus: string)  // no transition for this label
    | UnknownNode(node: string)                // a transition names a node the flow lacks
    | NoOutcome(node: string)                  // the environment supplied no label for a decider
    | OutOfFuel
  {
    predicate Ended() { Completed? || Failed? }
  }

  /** The nodes visited, in order (a nested flow's or split's nodes follow
      its own name), how the run ended, and the environment labels left unread. */
  datatype Execution = Execution(path: seq<string>, status: Status, rest: seq<string>)

  /** The result of executing one node: the nodes it ran inside itself, its
      exit status (or the error that aborts the whole run), the labels left. */
  datatype NodeOutcome = Exit(exitStatus: string) | Abort(status: Status)
  datatype NodeRun = NodeRun(inner: seq<string>, outcome: NodeOutcome, rest: seq<string>)

  /** `rest` is what is left of `inputs` after reading some of its front. */
  ghost predicate IsSuffix(rest: seq<string>, inputs: seq<string>) {
    |rest| <= |inputs| && rest == inputs[|inputs| - |rest|..]
  }

  lemma SuffixTransitive(a: seq<string>, b: seq<string>, c: seq<string>)
    requires IsSuffix(c, b) && IsSuffix(b, a)
    ensures IsSuffix(c, a)
  {
    assert a[|a| - |b|..][|b| - |c|..] == a[|a| - |c|..];
  }

  // ---------------------------------------------------------------------
  // Transition tables

  /** The first entry of the table leaving `from` on exactly `on`. */
  function FindEntry(table: seq<Transition>, from: string, on: Pattern): Option<Target> {
    FindEntryAt(table, 0, from, on)
  }

  /** The first such entry at position `i` or later. */
  function FindEntryAt(table: seq<Transition>, i: nat, from: string, on: Pattern): Option<Target>
    decreases |table| - i
  {
    if i >= |table| then None
    else if table[i].from == from && table[i].on == on then Some(table[i].to)
    else FindEntryAt(table, i + 1, from, on)
  }

  lemma {:induction false} FindEntryAtSound(table: seq<Transition>, i: nat, from: string, on: Pattern)
    ensures FindEntryAt(table, i, from, on).Some? ==>
              exists j :: i <= j < |table| && table[j] == Transition(from, on, FindEntryAt(table, i, from, on).value)
    ensures FindEntryAt(table, i, from, on).None? <==>
              forall j :: i <= j < |table| ==> !(table[j].from == from && table[j].on == on)
    decreases |table| - i
  {
    if i < |table| && !(table[i].from == from && table[i].on == on) {
      FindEntryAtSound(table, i + 1, from, on);
    }
  }

  /** FindEntry finds an entry exactly when the table has one. */
  lemma FindEntrySound(table: seq<Transition>, from: string, on: Pattern)
    ensures FindEntry(table, from, on).Some? ==> Transition(from, on, FindEntry(table, from, on).value) in table
    ensures FindEntry(table, from, on).None? <==> !HasEntry(table, from, on)
  {
    FindEntryAtSound(table, 0, from, on);
  }

  predicate HasEntry(table: seq<Transition>, from: string, on: Pattern) {
    exists t :: t in table && t.from == from && t.on == on
  }

  /** The end an exit status reaches when no transition of its node matches it. */
  function DefaultEnd(exitStatus: string): Option<Target> {
    if exitStatus == COMPLETED then Some(EndCompleted)
    else if exitStatus == FAILED then Some(EndFailed)
    else None
  }

  /** Resolve the next target for `from` after it exited with `exitStatus`:
      the exact exitStatus first, then the wildcard, then the default end;
      None is an unresolved transition. */
  function Resolve(table: seq<Transition>, from: string, exitStatus: string): Option<Target> {
    match FindEntry(table, from, Exact(exitStatus))
    case Some(t) => Some(t)
    case None =>
      match FindEntry(table, from, Wildcard)
      case Some(t) => Some(t)
      case None => DefaultEnd(exitStatus)
  }

  /** No node has two entries for the same pattern that lead to different targets. */
  ghost predicate WellFormed(table: seq<Transition>) {
    forall t1, t2 :: t1 in table && t2 in table && t1.from == t2.from && t1.on == t2.on ==> t1.to == t2.to
  }

  /** `e` does not conflict with any entry of `table` at position `i` or later. */
  function Compatible(e: Transition, table: seq<Transition>, i: nat): bool
    decreases |table| - i
  {
    i >= |table| ||
    ((table[i].from != e.from || table[i].on != e.on || table[i].to == e.to) && Compatible(e, table, i + 1))
  }

  /** The build-time check of the entries at position `i` or later. */
  function ValidateFrom(table: seq<Transition>, i: nat): bool
    decreases |table| - i
  {
    i >= |table| || (Compatible(table[i], table, i + 1) && ValidateFrom(table, i + 1))
  }

  /** The build-time check of a transition table. */
  function Validate(table: seq<Transition>): bool {
    ValidateFrom(table, 0)
  }

  lemma {:induction false} CompatibleSound(e: Transition, table: seq<Transition>, i: nat)
    ensures Compatible(e, table, i) <==>
              forall j :: i <= j < |table| && table[j].from == e.from && table[j].on == e.on ==> table[j].to == e.to
    decreases |table| - i
  {
    if i < |table| {
      CompatibleSound(e, table, i + 1);
    }
  }

  lemma {:induction false} ValidateFromSound(table: seq<Transition>, i: nat)
    ensures ValidateFrom(table, i) <==>
              forall j, k :: i <= j < k < |table| && table[j].from == table[k].from && table[j].on == table[k].on ==>
                table[j].to == table[k].to
    decreases |table| - i
  {
    if i < |table| {
      ValidateFromSound(table, i + 1);
      CompatibleSound(table[i], table, i + 1);
    }
  }

  /** The check accepts exactly the well-formed tables. */
  lemma ValidateSound(table: seq<Transition>)
    ensures Validate(table) <==> WellFormed(table)
  {
    ValidateFromSound(table, 0);
    if Validate(table) {
      forall t1, t2 | t1 in table && t2 in table && t1.from == t2.from && t1.on == t2.on
        ensures t1.to == t2.to
      {
        var j :| 0 <= j < |table| && table[j] == t1;
        var k :| 0 <= k < |table| && table[k] == t2;
        if j < k {
          assert table[j].to == table[k].to;
        } else if k < j {
          assert table[k].to == table[j].to;
        }
      }
    }
  }

  /** An exact entry for the label is taken, whatever wildcard the node has. */
  lemma ExactMatchWins(table: seq<Transition>, from: string, exitStatus: string, to: Target)
    requires WellFormed(table)
    requires Transition(from, Exact(exitStatus), to) in table
    ensures Resolve(table, from, exitStatus) == Some(to)
  {
    FindEntrySound(table, from, Exact(exitStatus));
  }

  /** Without an exact entry, the node's wildcard entry is taken. */
  lemma WildcardFallback(table: seq<Transition>, from: string, exitStatus: string, to: Target)
    requires WellFormed(table)
    requires !HasEntry(table, from, Exact(exitStatus))
    requires Transition(from, Wildcard, to) in table
    ensures Resolve(table, from, exitStatus) == Some(to)
  {
    FindEntrySound(table, from, Exact(exitStatus));
    FindEntrySound(table, from, Wildcard);
  }

  /** With neither, COMPLETED and FAILED end the flow and any other label is unresolved. */
  lemma UnmatchedDefault(table: seq<Transition>, from: string, exitStatus: string)
    requires !HasEntry(table, from, Exact(exitStatus))
    requires !HasEntry(table, from, Wildcard)
    ensures Resolve(table, from, exitStatus) == DefaultEnd(exitStatus)
    ensures Resolve(table, from, exitStatus).None? <==> exitStatus != COMPLETED && exitStatus != FAILED
  {
    FindEntrySound(table, from, Exact(exitStatus));
    FindEntrySound(table, from, Wildcard);
  }

  /** Resolution depends only on the set of entries, not on the order in
      which the builder added them. */
  lemma ResolveIgnoresOrder(t1: seq<Transition>, t2: seq<Transition>, from: string, exitStatus: string)
    requires WellFormed(t1)
    requires forall t :: t in t1 <==> t in t2
    ensures WellFormed(t2)
    ensures Resolve(t1, from, exitStatus) == Resolve(t2, from, exitStatus)
  {
    FindEntryIgnoresOrder(t1, t2, from, Exact(exitStatus));
    FindEntryIgnoresOrder(t1, t2, from, Wildcard);
  }

  lemma FindEntryIgnoresOrder(t1: seq<Transition>, t2: seq<Transition>, from: string, on: Pattern)
    requires WellFormed(t1)
    requires forall t :: t in t1 <==> t in t2
    ensures FindEntry(t1, from, on) == FindEntry(t2, from, on)
  {
    FindEntrySound(t1, from, on);
    FindEntrySound(t2, from, on);
  }

  // ---------------------------------------------------------------------
  // Executing nodes

  function ExecuteTasklet(body: TaskletBody, params: map<string, string>): (o: TaskletOutcome)
    ensures body.Announce? ==> o == Finished
    ensures body.ThrowIf? ==> (o == Threw <==> body.condition)
    ensures body.ReadParameters? ==> (o == Finished <==> forall k :: k in body.keys ==> k in params)
  {
    match body
    case Announce => Finished
    case ThrowIf(c) => if c then Threw else Finished
    case ReadParameters(keys) => if MissingKey(keys, params) then Threw else Finished
  }

  function MissingKey(keys: seq<string>, params: map<string, string>): (b: bool)
    ensures b <==> exists k :: k in keys && k !in params
  {
    if keys == [] then false
    else keys[0] !in params || MissingKey(keys[1..], params)
  }

  /** A tasklet that returns FINISHED completes its step; one that throws fails it. */
  function TaskletExitStatus(o: TaskletOutcome): string {
    if o == Finished then COMPLETED else FAILED
  }

  /** The exit status with which a nested flow or split hands its end back. */
  function EndLabel(s: Status): NodeOutcome {
    if s == Completed then Exit(COMPLETED)
    else if s == Failed then Exit(FAILED)
    else Abort(s)
  }

  /** The combined status of a split: an error of any branch first, otherwise
      FAILED if any branch failed, otherwise COMPLETED. */
  function JoinAll(ss: seq<Status>): Status {
    if ss == [] then Completed
    else
      var r := JoinAll(ss[1..]);
      if !ss[0].Ended() then ss[0]
      else if !r.Ended() then r
      else if ss[0] == Failed || r == Failed then Failed
      else Completed
  }

  lemma {:induction false} JoinAllSound(ss: seq<Status>)
    ensures JoinAll(ss) == Completed <==> forall i :: 0 <= i < |ss| ==> ss[i] == Completed
    ensures JoinAll(ss) == Failed <==> (forall i :: 0 <= i < |ss| ==> ss[i].Ended()) && exists i :: 0 <= i < |ss| && ss[i] == Failed
    ensures !JoinAll(ss).Ended() ==> JoinAll(ss) in ss
  {
    if ss != [] {
      JoinAllSound(ss[1..]);
      assert forall i :: 1 <= i < |ss| ==> ss[i] == ss[1..][i - 1];
      if JoinAll(ss) == Failed && ss[0] != Failed {
        var i :| 0 <= i < |ss[1..]| && ss[1..][i] == Failed;
        assert ss[i + 1] == Failed;
      }
    }
  }

  function Statuses(runs: seq<Execution>): (ss: seq<Status>)
    ensures |ss| == |runs| && forall i :: 0 <= i < |runs| ==> ss[i] == runs[i].status
  {
    if runs == [] then [] else [runs[0].status] + Statuses(runs[1..])
  }

  function Paths(runs: seq<Execution>): seq<string> {
    if runs == [] then [] else runs[0].path + Paths(runs[1..])
  }

  function LastRest(runs: seq<Execution>, inputs: seq<string>): seq<string> {
    if runs == [] then inputs else LastRest(runs[1..], runs[0].rest)
  }

  /** Run `g` from node `current`. Each node visited costs one unit of fuel,
      and so does entering a nested flow or a split. */
  function RunFrom(g: Graph, current: string, params: map<string, string>, inputs: seq<string>, fuel: nat): (e: Execution)
    ensures fuel == 0 <==> e.status == OutOfFuel && e.path == []
    ensures fuel > 0 ==> |e.path| > 0
    decreases fuel, 0, 0
  {
    if fuel == 0 then Execution([], OutOfFuel, inputs)
    else if current !in g.nodes then Execution([current], UnknownNode(current), inputs)
    else
        var n := ExecuteNode(current, g.nodes[current], params, inputs, fuel - 1);
        var here := [current] + n.inner;
        match n.outcome
        case Abort(s) => Execution(here, s, n.rest)
        case Exit(exitStatus) =>
          match Resolve(g.transitions, current, exitStatus)
          case None => Execution(here, Unresolved(current, exitStatus), n.rest)
          case Some(t) => Proceed(g, here, t, params, n.rest, fuel - 1)
  }

  /** Follow a resolved transition: stop at an end, or run on from the
      target node. `here` is the path so far. */
  function Proceed(g: Graph, here: seq<string>, t: Target, params: map<string, string>, rest: seq<string>, fuel: nat): (e: Execution)
    ensures |e.path| >= |here|
    decreases fuel, 1, 0
  {
    match t
    case EndCompleted => Execution(here, Completed, rest)
    case EndFailed => Execution(here, Failed, rest)
    case ToNode(next) =>
      var e := RunFrom(g, next, params, rest, fuel);
      Execution(here + e.path, e.status, e.rest)
  }

  /** Execute one node and obtain its exit status. */
  function ExecuteNode(name: string, x: Executor, params: map<string, string>, inputs: seq<string>, fuel: nat): (n: NodeRun)
    ensures x.TaskletStep? ==> n.inner == [] && n.rest == inputs &&
                               (n.outcome == Exit(COMPLETED) <==> ExecuteTasklet(x.body, params) == Finished) &&
                               (n.outcome == Exit(FAILED) <==> ExecuteTasklet(x.body, params) == Threw)
    ensures (x.Decider? || x.ReportedStep?) ==> n.inner == [] &&
                                                (n.outcome.Abort? <==> inputs == []) &&
                                                (inputs != [] ==> [n.outcome.exitStatus] + n.rest == inputs)
    ensures (x.SubFlow? || x.Split?) && n.outcome.Exit? ==> n.outcome.exitStatus in {COMPLETED, FAILED}
    ensures n.outcome.Abort? ==> !n.outcome.status.Ended()
    decreases fuel, 2, 0
  {
    match x
    case TaskletStep(body) => NodeRun([], Exit(TaskletExitStatus(ExecuteTasklet(body, params))), inputs)
    case Decider =>
      if inputs == [] then NodeRun([], Abort(NoOutcome(name)), inputs) else NodeRun([], Exit(inputs[0]), inputs[1..])
    case ReportedStep =>
      if inputs == [] then NodeRun([], Abort(NoOutcome(name)), inputs) else NodeRun([], Exit(inputs[0]), inputs[1..])
    case SubFlow(f) =>
      var e := RunFrom(f, f.start, params, inputs, fuel);
      NodeRun(e.path, EndLabel(e.status), e.rest)
    case Split(fs) =>
      var runs := RunBranches(fs, params, inputs, fuel);
      NodeRun(Paths(runs), EndLabel(JoinAll(Statuses(runs))), LastRest(runs, inputs))
  }

  /** Run every branch of a split to its end, none cancelling another.
      Branches read the environment's labels in declaration order. */
  function RunBranches(fs: seq<Graph>, params: map<string, string>, inputs: seq<string>, fuel: nat): (runs: seq<Execution>)
    ensures |runs| == |fs|
    ensures |fs| > 0 ==> runs[0] == RunFrom(fs[0], fs[0].start, params, inputs, fuel)
    ensures forall i :: 0 < i < |fs| ==> runs[i] == RunFrom(fs[i], fs[i].start, params, runs[i - 1].rest, fuel)
    decreases fuel, 1, |fs| + 1
  {
    if fs == [] then []
    else
      var e := RunFrom(fs[0], fs[0].start, params, inputs, fuel);
      var more := RunBranches(fs[1..], params, e.rest, fuel);
      var runs := [e] + more;
      assert runs[1..] == more;
      assert forall i :: 0 < i < |fs| ==> runs[i] == more[i - 1] && fs[i] == fs[1..][i - 1];
      runs
  }

  /** A run reads the environment's labels front to back: what it leaves
      unread is a suffix of what it was given, and its path starts at the
      node it was started on. */
  lemma {:induction false} RunFromConsumes(g: Graph, current: string, params: map<string, string>, inputs: seq<string>, fuel: nat)
    ensures IsSuffix(RunFrom(g, current, params, inputs, fuel).rest, inputs)
    ensures fuel > 0 ==> RunFrom(g, current, params, inputs, fuel).path[0] == current
    decreases fuel, 0, 0
  {
    if fuel > 0 && current in g.nodes {
      var n := ExecuteNode(current, g.nodes[current], params, inputs, fuel - 1);
      ExecuteNodeConsumes(current, g.nodes[current], params, inputs, fuel - 1);
      var here := [current] + n.inner;
      if n.outcome.Exit? && Resolve(g.transitions, current, n.outcome.exitStatus).Some? {
        var t := Resolve(g.transitions, current, n.outcome.exitStatus).value;
        var e := Proceed(g, here, t, params, n.rest, fuel - 1);
        ProceedConsumes(g, here, t, params, n.rest, fuel - 1);
        SuffixTransitive(inputs, n.rest, e.rest);
        assert e.path[0] == e.path[..|here|][0];
      }
    }
  }

  /** Following a transition keeps the path so far and reads labels front to back. */
  lemma {:induction false} ProceedConsumes(g: Graph, here: seq<string>, t: Target, params: map<string, string>, rest: seq<string>, fuel: nat)
    ensures IsSuffix(Proceed(g, here, t, params, rest, fuel).rest, rest)
    ensures Proceed(g, here, t, params, rest, fuel).path[..|here|] == here
    decreases fuel, 1, 0
  {
    if t.ToNode? {
      RunFromConsumes(g, t.node, params, rest, fuel);
      var e := RunFrom(g, t.node, params, rest, fuel);
      assert (here + e.path)[..|here|] == here;
    }
  }

  lemma {:induction false} ExecuteNodeConsumes(name: string, x: Executor, params: map<string, string>, inputs: seq<string>, fuel: nat)
    ensures IsSuffix(ExecuteNode(name, x, params, inputs, fuel).rest, inputs)
    decreases fuel, 2, 0
  {
    match x
    case TaskletStep(_) =>
    case Decider =>
    case ReportedStep =>
    case SubFlow(f) => RunFromConsumes(f, f.start, params, inputs, fuel);
    case Split(fs) => RunBranchesConsumes(fs, params, inputs, fuel);
  }

  lemma {:induction false} RunBranchesConsumes(fs: seq<Graph>, params: map<string, string>, inputs: seq<string>, fuel: nat)
    ensures IsSuffix(LastRest(RunBranches(fs, params, inputs, fuel), inputs), inputs)
    decreases fuel, 1, |fs| + 1
  {
    if fs != [] {
      var runs := RunBranches(fs, params, inputs, fuel);
      var e := RunFrom(fs[0], fs[0].start, params, inputs, fuel);
      var more := RunBranches(fs[1..], params, e.rest, fuel);
      RunFromConsumes(fs[0], fs[0].start, params, inputs, fuel);
      RunBranchesConsumes(fs[1..], params, e.rest, fuel);
      assert runs == [e] + more && runs[1..] == more;
      SuffixTransitive(inputs, e.rest, LastRest(more, e.rest));
    }
  }

  // ---------------------------------------------------------------------
  // One visit of a node, for reasoning about concrete flows step by step

  lemma TaskletVisit(g: Graph, current: string, body: TaskletBody, params: map<string, string>,
                     inputs: seq<string>, fuel: nat, exitStatus: string, t: Target)
    requires fuel >= 1
    requires current in g.nodes && g.nodes[current] == TaskletStep(body)
    requires TaskletExitStatus(ExecuteTasklet(body, params)) == exitStatus
    requires Resolve(g.transitions, current, exitStatus) == Some(t)
    ensures RunFrom(g, current, params, inputs, fuel) == Proceed(g, [current], t, params, inputs, fuel - 1)
  {
  }

  lemma DeciderVisit(g: Graph, current: string, params: map<string, string>,
                     exitStatus: string, rest: seq<string>, fuel: nat, t: Target)
    requires fuel >= 1
    requires current in g.nodes && (g.nodes[current] == Decider || g.nodes[current] == ReportedStep)
    requires Resolve(g.transitions, current, exitStatus) == Some(t)
    ensures RunFrom(g, current, params, [exitStatus] + rest, fuel) == Proceed(g, [current], t, params, rest, fuel - 1)
  {
  }

  /** A nested flow whose COMPLETED and FAILED end the enclosing flow hands
      its end on unchanged. */
  lemma SubFlowVisit(g: Graph, current: string, f: Graph, params: map<string, string>, inputs: seq<string>, fuel: nat)
    requires fuel >= 1
    requires current in g.nodes && g.nodes[current] == SubFlow(f)
    requires Resolve(g.transitions, current, COMPLETED) == Some(EndCompleted)
    requires Resolve(g.transitions, current, FAILED) == Some(EndFailed)
    ensures RunFrom(g, current, params, inputs, fuel)
            == Prefixed(current, RunFrom(f, f.start, params, inputs, fuel - 1))
  {
  }

  /** A split whose COMPLETED and FAILED end the enclosing flow ends it with
      the joined status of its branches. */
  lemma SplitVisit(g: Graph, current: string, fs: seq<Graph>, params: map<string, string>, inputs: seq<string>, fuel: nat)
    requires fuel >= 1
    requires current in g.nodes && g.nodes[current] == Split(fs)
    requires Resolve(g.transitions, current, COMPLETED) == Some(EndCompleted)
    requires Resolve(g.transitions, current, FAILED) == Some(EndFailed)
    ensures var runs := RunBranches(fs, params, inputs, fuel - 1);
            RunFrom(g, current, params, inputs, fuel)
            == Execution([current] + Paths(runs), JoinAll(Statuses(runs)), LastRest(runs, inputs))
  {
  }

  /** The paths, statuses and leftover labels of three runs. */
  lemma ThreeRuns(runs: seq<Execution>, inputs: seq<string>)
    requires |runs| == 3
    ensures Paths(runs) == runs[0].path + runs[1].path + runs[2].path
    ensures Statuses(runs) == [runs[0].status, runs[1].status, runs[2].status]
    ensures LastRest(runs, inputs) == runs[2].rest
  {
    assert runs[1..] == [runs[1], runs[2]] && runs[1..][1..] == [runs[2]] && runs[1..][1..][1..] == [];
    assert Paths(runs[1..][1..]) == runs[2].path + [];
    assert LastRest(runs[1..], runs[0].rest) == LastRest(runs[1..][1..], runs[1].rest);
    assert LastRest(runs[1..][1..], runs[1].rest) == LastRest([], runs[2].rest);
  }

  /** The three branches of a three-way split, one after the other. */
  lemma ThreeBranches(fs: seq<Graph>, params: map<string, string>, inputs: seq<string>, fuel: nat)
    requires |fs| == 3
    ensures var runs := RunBranches(fs, params, inputs, fuel);
            var e0 := RunFrom(fs[0], fs[0].start, params, inputs, fuel);
            var e1 := RunFrom(fs[1], fs[1].start, params, e0.rest, fuel);
            var e2 := RunFrom(fs[2], fs[2].start, params, e1.rest, fuel);
            && Paths(runs) == e0.path + e1.path + e2.path
            && Statuses(runs) == [e0.status, e1.status, e2.status]
            && LastRest(runs, inputs) == e2.rest
  {
    ThreeRuns(RunBranches(fs, params, inputs, fuel), inputs);
  }

  /** A three-way split whose COMPLETED and FAILED end the enclosing flow
      runs its branches one after the other and ends with their joined status. */
  lemma ThreeWaySplitVisit(g: Graph, current: string, fs: seq<Graph>, params: map<string, string>, inputs: seq<string>, fuel: nat)
    requires fuel >= 1 && |fs| == 3
    requires current in g.nodes && g.nodes[current] == Split(fs)
    requires Resolve(g.transitions, current, COMPLETED) == Some(EndCompleted)
    requires Resolve(g.transitions, current, FAILED) == Some(EndFailed)
    ensures var e0 := RunFrom(fs[0], fs[0].start, params, inputs, fuel - 1);
            var e1 := RunFrom(fs[1], fs[1].start, params, e0.rest, fuel - 1);
            var e2 := RunFrom(fs[2], fs[2].start, params, e1.rest, fuel - 1);
            RunFrom(g, current, params, inputs, fuel)
            == Execution([current] + (e0.path + e1.path + e2.path), JoinAll([e0.status, e1.status, e2.status]), e2.rest)
  {
    var runs := RunBranches(fs, params, inputs, fuel - 1);
    SplitVisit(g, current, fs, params, inputs, fuel);
    ThreeBranches(fs, params, inputs, fuel - 1);
    SplitRunIs(RunFrom(g, current, params, inputs, fuel), current, runs, inputs);
  }

  /** A split's run, told by its three branches' runs. */
  lemma SplitRunIs(e: Execution, current: string, runs: seq<Execution>, inputs: seq<string>)
    requires |runs| == 3
    requires e == Execution([current] + Paths(runs), JoinAll(Statuses(runs)), LastRest(runs, inputs))
    ensures e == Execution([current] + (runs[0].path + runs[1].path + runs[2].path),
                           JoinAll([runs[0].status, runs[1].status, runs[2].status]), runs[2].rest)
  {
    ThreeRuns(runs, inputs);
  }

  /** A split with a completing middle branch and an ended last branch:
      an error of the first branch wins, otherwise it fails iff the first
      or the last branch failed. */
  lemma JoinAroundCompleted(s: Status, p: Status)
    requires p.Ended()
    ensures JoinAll([s, Completed, p]) == if !s.Ended() then s else if s == Failed || p == Failed then Failed else Completed
  {
    assert [p][1..] == [];
    assert JoinAll([p]) == p;
    assert [Completed, p][1..] == [p];
    assert JoinAll([Completed, p]) == p;
    assert [s, Completed, p][1..] == [Completed, p];
  }

  /** `e` with `node` in front of its path. */
  function Prefixed(node: string, e: Execution): Execution {
    Execution([node] + e.path, e.status, e.rest)
  }

  /** Run a flow or a job from its start node. */
  function RunFlow(g: Graph, params: map<string, string>, inputs: seq<string>, fuel: nat): Execution {
    RunFrom(g, g.start, params, inputs, fuel)
  }
}
