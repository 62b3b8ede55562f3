/**
 * chunkBasedStep: orders are read in chunks of at most `chunkSize`, each
 * order goes through the composite processor (validate, then track, then
 * free shipping), and the survivors of a chunk are written together. A
 * chunk whose processing throws a retryable error is processed again, up
 * to `retryLimit` times.
 */
module ChunkStep {
  import opened Wrappers
  import opened Orders
  import opened TrackedOrderItemProcessor
  import opened FreeShippingItemProcessor
  import Flow
  import Jobs

  /** The fault-tolerance settings of a chunk-oriented step. `retryLimit`
      counts the attempts after the first. */
  datatype Config = Config(chunkSize: nat, retryable: set<ErrorKind>, retryLimit: nat, filterInvalid: bool)

  /** chunkBasedStep: chunks of 10, OrderProcessingException retried up to 3
      times, invalid orders filtered rather than rejected. */
  const CHUNK_BASED_STEP_CONFIG: Config := Config(10, {OrderProcessingException}, 3, true)

  // ---------------------------------------------------------------------
  // The composite processor

  /** orderValidatingItemProcessor: a valid order passes; an invalid one is
      filtered (None) in filter mode and rejected otherwise. The validation
      constraints themselves are the predicate `valid`. */
  function Validate(filterInvalid: bool, valid: Order -> bool, o: Order): (r: Result<Option<Order>, ErrorKind>)
    ensures r == Success(Some(o)) <==> valid(o)
    ensures r == Success(None) <==> !valid(o) && filterInvalid
    ensures r == Failure(ValidationException) <==> !valid(o) && !filterInvalid
  {
    if valid(o) then Success(Some(o))
    else if filterInvalid then Success(None)
    else Failure(ValidationException)
  }

  /** The result of one order through the composite, and the next unused draw. */
  datatype ItemRun = ItemRun(result: Result<Option<Tracked>, ErrorKind>, next: nat)

  /** compositeItemProcessor: the delegates run in order, each on the output
      of the one before; a None ends the chain, and so does an error. Only an
      order that passes validation reaches the tracking processor and uses
      up a draw. */
  function Composite(filterInvalid: bool, valid: Order -> bool, o: Order, draws: nat -> Draw, next: nat): (r: ItemRun)
    ensures r.next == if valid(o) then next + 1 else next
    ensures r.result == Failure(ValidationException) <==> !valid(o) && !filterInvalid
    ensures r.result == Failure(OrderProcessingException) <==> valid(o) && draws(next) == Fail
    ensures (r.result.Success? && r.result.value.Some?) <==> valid(o) && draws(next).Uuid? && ShipsFree(o)
    ensures r.result.Success? && r.result.value.Some? ==> r.result.value.value == Tracked(o, Some(draws(next).value), true)
  {
    match Validate(filterInvalid, valid, o)
    case Failure(e) => ItemRun(Failure(e), next)
    case Success(None) => ItemRun(Success(None), next)
    case Success(Some(v)) =>
      match Track(v, draws(next))
      case Failure(e) => ItemRun(Failure(e), next + 1)
      case Success(t) => ItemRun(Success(Filter(t)), next + 1)
  }

  // ---------------------------------------------------------------------
  // One attempt at a chunk

  /** The orders of a chunk the processors let through: valid ones that ship free. */
  function Selected(valid: Order -> bool, chunk: seq<Order>): seq<Order> {
    if chunk == [] then []
    else (if valid(chunk[0]) && ShipsFree(chunk[0]) then [chunk[0]] else []) + Selected(valid, chunk[1..])
  }

  function OrdersOf(ts: seq<Tracked>): (os: seq<Order>)
    ensures |os| == |ts| && forall i :: 0 <= i < |ts| ==> os[i] == ts[i].order
  {
    if ts == [] then [] else [ts[0].order] + OrdersOf(ts[1..])
  }

  /** The survivors of one attempt at a chunk, or its first error. */
  datatype Attempt = Attempt(result: Result<seq<Tracked>, ErrorKind>, next: nat)

  /** Process every order of the chunk in order; the first error ends the attempt. */
  function ProcessChunk(cfg: Config, valid: Order -> bool, chunk: seq<Order>, draws: nat -> Draw, next: nat): Attempt {
    if chunk == [] then Attempt(Success([]), next)
    else
      var h := Composite(cfg.filterInvalid, valid, chunk[0], draws, next);
      match h.result
      case Failure(e) => Attempt(Failure(e), h.next)
      case Success(out) =>
        var t := ProcessChunk(cfg, valid, chunk[1..], draws, h.next);
        match t.result
        case Failure(e) => t
        case Success(more) => Attempt(Success((if out.Some? then [out.value] else []) + more), t.next)
  }

  /** What one attempt produces: it uses at most one draw per order; when
      it succeeds its survivors are exactly the selected orders, in order,
      each with a tracking number and free shipping; in filter mode only a
      failed draw can make it fail, and with no failed draw it succeeds. */
  lemma {:induction false} ProcessChunkSound(cfg: Config, valid: Order -> bool, chunk: seq<Order>, draws: nat -> Draw, next: nat)
    ensures var a := ProcessChunk(cfg, valid, chunk, draws, next);
            next <= a.next <= next + |chunk|
    ensures var a := ProcessChunk(cfg, valid, chunk, draws, next);
            a.result.Success? ==>
              OrdersOf(a.result.value) == Selected(valid, chunk)
              && forall t :: t in a.result.value ==> t.freeShipping && t.trackingNumber.Some?
    ensures var a := ProcessChunk(cfg, valid, chunk, draws, next);
            cfg.filterInvalid && a.result.Failure? ==> a.result.error == OrderProcessingException
    ensures var a := ProcessChunk(cfg, valid, chunk, draws, next);
            cfg.filterInvalid && (forall k :: next <= k < next + |chunk| ==> draws(k).Uuid?) ==> a.result.Success?
  {
    if chunk != [] {
      var h := Composite(cfg.filterInvalid, valid, chunk[0], draws, next);
      ProcessChunkSound(cfg, valid, chunk[1..], draws, h.next);
      var t := ProcessChunk(cfg, valid, chunk[1..], draws, h.next);
      if h.result.Success? && t.result.Success? {
        var out := h.result.value;
        var head := if out.Some? then [out.value] else [];
        assert OrdersOf(head + t.result.value) == OrdersOf(head) + OrdersOf(t.result.value);
      }
    }
  }

  // ---------------------------------------------------------------------
  // Retrying a chunk

  datatype ChunkOutcome =
    | Committed(written: seq<Tracked>, retries: nat, next: nat)
    | Aborted(error: ErrorKind, retries: nat, next: nat)

  /** Attempt the chunk; a retryable error while retries remain starts the
      next attempt, any other error aborts the chunk. `retries` counts the
      retries made so far, one retry-listener call each. */
  function RunChunk(cfg: Config, valid: Order -> bool, chunk: seq<Order>, draws: nat -> Draw, next: nat, retries: nat): (c: ChunkOutcome)
    requires retries <= cfg.retryLimit
    ensures retries <= c.retries <= cfg.retryLimit
    ensures c.Aborted? ==> c.retries == cfg.retryLimit || c.error !in cfg.retryable
    decreases cfg.retryLimit - retries
  {
    var a := ProcessChunk(cfg, valid, chunk, draws, next);
    match a.result
    case Success(w) => Committed(w, retries, a.next)
    case Failure(e) =>
      if e in cfg.retryable && retries < cfg.retryLimit then RunChunk(cfg, valid, chunk, draws, a.next, retries + 1)
      else Aborted(e, retries, a.next)
  }

  /** Where attempt `k` of a chunk starts reading draws, when every attempt
      before it failed. */
  function AttemptStart(cfg: Config, valid: Order -> bool, chunk: seq<Order>, draws: nat -> Draw, next: nat, k: nat): nat {
    if k == 0 then next else ProcessChunk(cfg, valid, chunk, draws, AttemptStart(cfg, valid, chunk, draws, next, k - 1)).next
  }

  /** Attempt `k` of a chunk. */
  function AttemptAt(cfg: Config, valid: Order -> bool, chunk: seq<Order>, draws: nat -> Draw, next: nat, k: nat): Attempt {
    ProcessChunk(cfg, valid, chunk, draws, AttemptStart(cfg, valid, chunk, draws, next, k))
  }

  /** Attempts `j` to `n - 1` fail with a retryable error. */
  ghost predicate FailRetryably(cfg: Config, valid: Order -> bool, chunk: seq<Order>, draws: nat -> Draw, next: nat, j: nat, n: nat) {
    forall k :: j <= k < n ==>
      AttemptAt(cfg, valid, chunk, draws, next, k).result.Failure?
      && AttemptAt(cfg, valid, chunk, draws, next, k).result.error in cfg.retryable
  }

  lemma {:induction false} RetriedFrom(cfg: Config, valid: Order -> bool, chunk: seq<Order>, draws: nat -> Draw, next: nat, j: nat, n: nat)
    requires j <= n <= cfg.retryLimit
    requires FailRetryably(cfg, valid, chunk, draws, next, j, n)
    requires AttemptAt(cfg, valid, chunk, draws, next, n).result.Success?
    ensures RunChunk(cfg, valid, chunk, draws, AttemptStart(cfg, valid, chunk, draws, next, j), j)
            == Committed(AttemptAt(cfg, valid, chunk, draws, next, n).result.value, n, AttemptStart(cfg, valid, chunk, draws, next, n + 1))
    decreases n - j
  {
    if j < n {
      assert AttemptAt(cfg, valid, chunk, draws, next, j).result.Failure?;
      assert AttemptStart(cfg, valid, chunk, draws, next, j + 1) == AttemptAt(cfg, valid, chunk, draws, next, j).next;
      RetriedFrom(cfg, valid, chunk, draws, next, j + 1, n);
    }
  }

  /** A chunk that fails N times with a retryable error and then succeeds,
      with N at most the retry limit, is committed as the successful attempt
      made it, after N retries. */
  lemma FailsThenSucceeds(cfg: Config, valid: Order -> bool, chunk: seq<Order>, draws: nat -> Draw, next: nat, n: nat)
    requires n <= cfg.retryLimit
    requires FailRetryably(cfg, valid, chunk, draws, next, 0, n)
    requires AttemptAt(cfg, valid, chunk, draws, next, n).result.Success?
    ensures var c := RunChunk(cfg, valid, chunk, draws, next, 0);
            c.Committed? && c.retries == n && c.written == AttemptAt(cfg, valid, chunk, draws, next, n).result.value
  {
    RetriedFrom(cfg, valid, chunk, draws, next, 0, n);
  }

  lemma {:induction false} ExhaustedFrom(cfg: Config, valid: Order -> bool, chunk: seq<Order>, draws: nat -> Draw, next: nat, j: nat)
    requires j <= cfg.retryLimit
    requires FailRetryably(cfg, valid, chunk, draws, next, j, cfg.retryLimit + 1)
    ensures RunChunk(cfg, valid, chunk, draws, AttemptStart(cfg, valid, chunk, draws, next, j), j)
            == Aborted(AttemptAt(cfg, valid, chunk, draws, next, cfg.retryLimit).result.error, cfg.retryLimit,
                       AttemptStart(cfg, valid, chunk, draws, next, cfg.retryLimit + 1))
    decreases cfg.retryLimit - j
  {
    assert AttemptAt(cfg, valid, chunk, draws, next, j).result.Failure?;
    assert AttemptStart(cfg, valid, chunk, draws, next, j + 1) == AttemptAt(cfg, valid, chunk, draws, next, j).next;
    if j < cfg.retryLimit {
      ExhaustedFrom(cfg, valid, chunk, draws, next, j + 1);
    }
  }

  /** A chunk that fails retryLimit + 1 times is aborted with the last
      error, after retryLimit retries. */
  lemma RetriesExhausted(cfg: Config, valid: Order -> bool, chunk: seq<Order>, draws: nat -> Draw, next: nat)
    requires FailRetryably(cfg, valid, chunk, draws, next, 0, cfg.retryLimit + 1)
    ensures var c := RunChunk(cfg, valid, chunk, draws, next, 0);
            c.Aborted? && c.retries == cfg.retryLimit
            && c.error == AttemptAt(cfg, valid, chunk, draws, next, cfg.retryLimit).result.error
  {
    ExhaustedFrom(cfg, valid, chunk, draws, next, 0);
  }

  /** An error that is not retryable aborts the chunk at once, with no retry. */
  lemma NonRetryableNotRetried(cfg: Config, valid: Order -> bool, chunk: seq<Order>, draws: nat -> Draw, next: nat)
    requires ProcessChunk(cfg, valid, chunk, draws, next).result.Failure?
    requires ProcessChunk(cfg, valid, chunk, draws, next).result.error !in cfg.retryable
    ensures RunChunk(cfg, valid, chunk, draws, next, 0)
            == Aborted(ProcessChunk(cfg, valid, chunk, draws, next).result.error, 0, ProcessChunk(cfg, valid, chunk, draws, next).next)
  {
  }

  /** What a committed chunk writes: the selected orders of the chunk, each
      tracked and shipping free. */
  lemma {:induction false} CommittedChunkSound(cfg: Config, valid: Order -> bool, chunk: seq<Order>, draws: nat -> Draw, next: nat, retries: nat)
    requires retries <= cfg.retryLimit
    ensures var c := RunChunk(cfg, valid, chunk, draws, next, retries);
            c.Committed? ==>
              OrdersOf(c.written) == Selected(valid, chunk)
              && forall t :: t in c.written ==> t.freeShipping && t.trackingNumber.Some?
    decreases cfg.retryLimit - retries
  {
    ProcessChunkSound(cfg, valid, chunk, draws, next);
    var a := ProcessChunk(cfg, valid, chunk, draws, next);
    if a.result.Failure? && a.result.error in cfg.retryable && retries < cfg.retryLimit {
      CommittedChunkSound(cfg, valid, chunk, draws, a.next, retries + 1);
    }
  }

  // ---------------------------------------------------------------------
  // The step: chunk after chunk until the input ends or a chunk is aborted

  /** The items written by each committed chunk, the step's exit status, the
      retries made, and how many orders the committed chunks held. */
  datatype StepResult = StepResult(writes: seq<seq<Tracked>>, exitStatus: string, retries: nat, committed: nat)

  function Flatten(ws: seq<seq<Tracked>>): seq<Tracked> {
    if ws == [] then [] else ws[0] + Flatten(ws[1..])
  }

  function RunStep(cfg: Config, valid: Order -> bool, input: seq<Order>, draws: nat -> Draw, next: nat): StepResult
    requires cfg.chunkSize > 0
    decreases |input|
  {
    if input == [] then StepResult([], Flow.COMPLETED, 0, 0)
    else
      var n := if cfg.chunkSize < |input| then cfg.chunkSize else |input|;
      match RunChunk(cfg, valid, input[..n], draws, next, 0)
      case Aborted(_, r, _) => StepResult([], Flow.FAILED, r, 0)
      case Committed(w, r, after) =>
        var s := RunStep(cfg, valid, input[n..], draws, after);
        StepResult([w] + s.writes, s.exitStatus, r + s.retries, n + s.committed)
  }

  lemma {:induction false} SelectedAppend(valid: Order -> bool, a: seq<Order>, b: seq<Order>)
    ensures Selected(valid, a + b) == Selected(valid, a) + Selected(valid, b)
  {
    if a == [] {
      assert a + b == b;
    } else {
      assert (a + b)[0] == a[0];
      assert (a + b)[1..] == a[1..] + b;
      SelectedAppend(valid, a[1..], b);
    }
  }

  lemma OrdersOfAppend(a: seq<Tracked>, b: seq<Tracked>)
    ensures OrdersOf(a + b) == OrdersOf(a) + OrdersOf(b)
  {
  }

  /** The length of the step's first chunk. */
  function FirstChunk(cfg: Config, input: seq<Order>): (n: nat)
    requires cfg.chunkSize > 0 && input != []
    ensures 0 < n <= cfg.chunkSize && n <= |input|
    ensures n < |input| ==> n == cfg.chunkSize
  {
    if cfg.chunkSize < |input| then cfg.chunkSize else |input|
  }

  /** One step of RunStep: the first chunk is committed and the rest of the
      input follows, or it is aborted and the step ends there. */
  lemma StepUnfold(cfg: Config, valid: Order -> bool, input: seq<Order>, draws: nat -> Draw, next: nat)
    requires cfg.chunkSize > 0 && input != []
    ensures var n := FirstChunk(cfg, input);
            var c := RunChunk(cfg, valid, input[..n], draws, next, 0);
            var all := RunStep(cfg, valid, input, draws, next);
            && (c.Aborted? ==> all == StepResult([], Flow.FAILED, c.retries, 0))
            && (c.Committed? ==>
                  var s := RunStep(cfg, valid, input[n..], draws, c.next);
                  all == StepResult([c.written] + s.writes, s.exitStatus, c.retries + s.retries, n + s.committed))
  {
  }

  /** The commit facts of the rest of the input carry over to the whole
      input once a first chunk of `n` orders is committed. */
  lemma CommitsAfterChunk(cfg: Config, total: nat, n: nat, w: seq<Tracked>, r: nat, s: StepResult)
    requires 0 < n <= cfg.chunkSize && n <= total && (n < total ==> n == cfg.chunkSize)
    requires s.committed <= total - n && (s.committed == total - n || s.committed == |s.writes| * cfg.chunkSize)
    requires s.exitStatus == Flow.COMPLETED || s.exitStatus == Flow.FAILED
    requires s.exitStatus == Flow.COMPLETED <==> s.committed == total - n
    ensures var all := StepResult([w] + s.writes, s.exitStatus, r + s.retries, n + s.committed);
            && all.committed <= total
            && (all.committed == total || all.committed == |all.writes| * cfg.chunkSize)
            && (all.exitStatus == Flow.COMPLETED <==> all.committed == total)
  {
    if s.committed != total - n {
      assert |[w] + s.writes| == 1 + |s.writes|;
      assert (1 + |s.writes|) * n == n + |s.writes| * n;
    }
  }

  /** The committed orders are the input's leading chunks of chunkSize
      orders, and the step completes exactly when all of the input was
      committed, and fails otherwise. */
  lemma {:induction false} StepCommits(cfg: Config, valid: Order -> bool, input: seq<Order>, draws: nat -> Draw, next: nat)
    requires cfg.chunkSize > 0
    ensures var s := RunStep(cfg, valid, input, draws, next);
            && s.committed <= |input|
            && (s.committed == |input| || s.committed == |s.writes| * cfg.chunkSize)
            && (s.exitStatus == Flow.COMPLETED || s.exitStatus == Flow.FAILED)
            && (s.exitStatus == Flow.COMPLETED <==> s.committed == |input|)
    decreases |input|
  {
    if input != [] {
      var n := FirstChunk(cfg, input);
      var c := RunChunk(cfg, valid, input[..n], draws, next, 0);
      StepUnfold(cfg, valid, input, draws, next);
      if c.Committed? {
        StepCommits(cfg, valid, input[n..], draws, c.next);
        CommitsAfterChunk(cfg, |input|, n, c.written, c.retries, RunStep(cfg, valid, input[n..], draws, c.next));
      }
    }
  }

  /** A first write of at most chunkSize items keeps every write within chunkSize. */
  lemma BoundedAfterChunk(cfg: Config, w: seq<Tracked>, ws: seq<seq<Tracked>>)
    requires |w| <= cfg.chunkSize
    requires forall i :: 0 <= i < |ws| ==> |ws[i]| <= cfg.chunkSize
    ensures forall i :: 0 <= i < |[w] + ws| ==> |([w] + ws)[i]| <= cfg.chunkSize
  {
    assert forall i :: 1 <= i < |[w] + ws| ==> ([w] + ws)[i] == ws[i - 1];
  }

  /** Every write holds at most chunkSize items. */
  lemma {:induction false} StepWritesBounded(cfg: Config, valid: Order -> bool, input: seq<Order>, draws: nat -> Draw, next: nat)
    requires cfg.chunkSize > 0
    ensures var s := RunStep(cfg, valid, input, draws, next);
            forall i :: 0 <= i < |s.writes| ==> |s.writes[i]| <= cfg.chunkSize
    decreases |input|
  {
    if input != [] {
      var n := FirstChunk(cfg, input);
      var chunk := input[..n];
      var c := RunChunk(cfg, valid, chunk, draws, next, 0);
      StepUnfold(cfg, valid, input, draws, next);
      if c.Committed? {
        StepWritesBounded(cfg, valid, input[n..], draws, c.next);
        CommittedChunkSound(cfg, valid, chunk, draws, next, 0);
        SelectedAtMost(valid, chunk);
        BoundedAfterChunk(cfg, c.written, RunStep(cfg, valid, input[n..], draws, c.next).writes);
      }
    }
  }

  lemma FlattenCons(w: seq<Tracked>, ws: seq<seq<Tracked>>)
    ensures Flatten([w] + ws) == w + Flatten(ws)
  {
    assert ([w] + ws)[1..] == ws;
  }

  lemma TakeSplit(input: seq<Order>, n: nat, k: nat)
    requires n + k <= |input|
    ensures input[..n + k] == input[..n] + input[n..][..k]
  {
  }

  /** Every item of a committed write is tracked and ships free. */
  lemma FlagsAfterChunk(w: seq<Tracked>, ws: seq<seq<Tracked>>)
    requires forall t :: t in w ==> t.freeShipping && t.trackingNumber.Some?
    requires forall t :: t in Flatten(ws) ==> t.freeShipping && t.trackingNumber.Some?
    ensures forall t :: t in Flatten([w] + ws) ==> t.freeShipping && t.trackingNumber.Some?
  {
    FlattenCons(w, ws);
  }

  /** The orders written for the rest of the input follow those of its
      first chunk of `n` orders once that chunk is committed. */
  lemma SelectedAfterChunk(valid: Order -> bool, input: seq<Order>, n: nat, w: seq<Tracked>, ws: seq<seq<Tracked>>, k: nat, all: StepResult)
    requires n <= |input| && OrdersOf(w) == Selected(valid, input[..n])
    requires k <= |input| - n && OrdersOf(Flatten(ws)) == Selected(valid, input[n..][..k])
    requires all.writes == [w] + ws && all.committed == n + k
    ensures all.committed <= |input| && OrdersOf(Flatten(all.writes)) == Selected(valid, input[..all.committed])
  {
    FlattenCons(w, ws);
    OrdersOfAppend(w, Flatten(ws));
    TakeSplit(input, n, k);
    SelectedAppend(valid, input[..n], input[n..][..k]);
  }

  /** What the step writes, in order, is exactly the selected orders of the
      committed input. */
  lemma {:induction false} StepWritesSelected(cfg: Config, valid: Order -> bool, input: seq<Order>, draws: nat -> Draw, next: nat)
    requires cfg.chunkSize > 0
    ensures var s := RunStep(cfg, valid, input, draws, next);
            s.committed <= |input| && OrdersOf(Flatten(s.writes)) == Selected(valid, input[..s.committed])
    decreases |input|
  {
    if input == [] {
      assert input[..0] == [];
    } else {
      var n := FirstChunk(cfg, input);
      var chunk := input[..n];
      var c := RunChunk(cfg, valid, chunk, draws, next, 0);
      StepUnfold(cfg, valid, input, draws, next);
      if c.Aborted? {
        assert input[..0] == [];
      } else {
        CommittedChunkSound(cfg, valid, chunk, draws, next, 0);
        StepWritesSelected(cfg, valid, input[n..], draws, c.next);
        var rest := RunStep(cfg, valid, input[n..], draws, c.next);
        SelectedAfterChunk(valid, input, n, c.written, rest.writes, rest.committed, RunStep(cfg, valid, input, draws, next));
      }
    }
  }

  /** Every item the step writes is tracked and ships free. */
  lemma {:induction false} StepWritesFlagged(cfg: Config, valid: Order -> bool, input: seq<Order>, draws: nat -> Draw, next: nat)
    requires cfg.chunkSize > 0
    ensures var s := RunStep(cfg, valid, input, draws, next);
            forall t :: t in Flatten(s.writes) ==> t.freeShipping && t.trackingNumber.Some?
    decreases |input|
  {
    if input != [] {
      var n := FirstChunk(cfg, input);
      var chunk := input[..n];
      var c := RunChunk(cfg, valid, chunk, draws, next, 0);
      StepUnfold(cfg, valid, input, draws, next);
      if c.Committed? {
        CommittedChunkSound(cfg, valid, chunk, draws, next, 0);
        StepWritesFlagged(cfg, valid, input[n..], draws, c.next);
        FlagsAfterChunk(c.written, RunStep(cfg, valid, input[n..], draws, c.next).writes);
      }
    }
  }

  /** What the step does: the committed chunks are the input's leading
      chunks of chunkSize orders, each write held at most chunkSize items,
      what was written is exactly the selected orders of the committed
      input, in order, and the step completes exactly when the whole input
      was committed; an aborted chunk stops the step, so nothing after it
      is written. */
  lemma StepSound(cfg: Config, valid: Order -> bool, input: seq<Order>, draws: nat -> Draw, next: nat)
    requires cfg.chunkSize > 0
    ensures var s := RunStep(cfg, valid, input, draws, next);
            && s.committed <= |input|
            && (s.committed == |input| || s.committed == |s.writes| * cfg.chunkSize)
            && (forall i :: 0 <= i < |s.writes| ==> |s.writes[i]| <= cfg.chunkSize)
            && OrdersOf(Flatten(s.writes)) == Selected(valid, input[..s.committed])
            && (forall t :: t in Flatten(s.writes) ==> t.freeShipping && t.trackingNumber.Some?)
            && (s.exitStatus == Flow.COMPLETED || s.exitStatus == Flow.FAILED)
            && (s.exitStatus == Flow.COMPLETED <==> s.committed == |input|)
  {
    StepCommits(cfg, valid, input, draws, next);
    StepWritesBounded(cfg, valid, input, draws, next);
    StepWritesSelected(cfg, valid, input, draws, next);
    StepWritesFlagged(cfg, valid, input, draws, next);
  }


  lemma {:induction false} SelectedAtMost(valid: Order -> bool, chunk: seq<Order>)
    ensures |Selected(valid, chunk)| <= |chunk|
  {
    if chunk != [] {
      SelectedAtMost(valid, chunk[1..]);
    }
  }

  /** In filter mode, with no failed draw from `next` on, every chunk commits
      on its first attempt: the step completes with no retry and writes the
      selected orders of the whole input. */
  lemma {:induction false} NoFailedDrawCompletes(cfg: Config, valid: Order -> bool, input: seq<Order>, draws: nat -> Draw, next: nat)
    requires cfg.chunkSize > 0 && cfg.filterInvalid
    requires forall k :: next <= k ==> draws(k).Uuid?
    ensures var s := RunStep(cfg, valid, input, draws, next);
            s.exitStatus == Flow.COMPLETED && s.retries == 0 && s.committed == |input|
            && OrdersOf(Flatten(s.writes)) == Selected(valid, input)
    decreases |input|
  {
    StepWritesSelected(cfg, valid, input, draws, next);
    StepCommits(cfg, valid, input, draws, next);
    if input != [] {
      var n := FirstChunk(cfg, input);
      var chunk := input[..n];
      ProcessChunkSound(cfg, valid, chunk, draws, next);
      var a := ProcessChunk(cfg, valid, chunk, draws, next);
      var c := RunChunk(cfg, valid, chunk, draws, next, 0);
      assert c == Committed(a.result.value, 0, a.next);
      StepUnfold(cfg, valid, input, draws, next);
      NoFailedDrawCompletes(cfg, valid, input[n..], draws, a.next);
    }
    assert input[..|input|] == input;
  }

  /** Every fourth order, by identifier, breaks its constraints. */
  predicate ValidUnlessIdDivisibleByFour(o: Order) {
    o.orderId % 4 != 0
  }

  /** Orders 0 to 6, all otherwise like `template`. */
  function SevenOrders(template: Order): (os: seq<Order>)
    ensures |os| == 7
  {
    [template.(orderId := 0), template.(orderId := 1), template.(orderId := 2), template.(orderId := 3),
     template.(orderId := 4), template.(orderId := 5), template.(orderId := 6)]
  }

  lemma SelectedCons(valid: Order -> bool, o: Order, rest: seq<Order>)
    ensures Selected(valid, [o] + rest) == (if valid(o) && ShipsFree(o) then [o] else []) + Selected(valid, rest)
  {
    assert ([o] + rest)[1..] == rest;
  }

  lemma SevenOrdersSelected(template: Order)
    requires template.cost > 80.0
    ensures |Selected(ValidUnlessIdDivisibleByFour, SevenOrders(template))| == 5
  {
    var o0, o1, o2, o3 := template.(orderId := 0), template.(orderId := 1), template.(orderId := 2), template.(orderId := 3);
    var o4, o5, o6 := template.(orderId := 4), template.(orderId := 5), template.(orderId := 6);
    assert !ValidUnlessIdDivisibleByFour(o0) && !ValidUnlessIdDivisibleByFour(o4);
    assert ValidUnlessIdDivisibleByFour(o1) && ValidUnlessIdDivisibleByFour(o2) && ValidUnlessIdDivisibleByFour(o3);
    assert ValidUnlessIdDivisibleByFour(o5) && ValidUnlessIdDivisibleByFour(o6);
    var t6 := [o6] + [];
    var t5 := [o5] + t6;
    var t4 := [o4] + t5;
    var t3 := [o3] + t4;
    var t2 := [o2] + t3;
    var t1 := [o1] + t2;
    var t0 := [o0] + t1;
    SelectedCons(ValidUnlessIdDivisibleByFour, o6, []);
    assert |Selected(ValidUnlessIdDivisibleByFour, t6)| == 1;
    SelectedCons(ValidUnlessIdDivisibleByFour, o5, t6);
    assert |Selected(ValidUnlessIdDivisibleByFour, t5)| == 2;
    SelectedCons(ValidUnlessIdDivisibleByFour, o4, t5);
    assert |Selected(ValidUnlessIdDivisibleByFour, t4)| == 2;
    SelectedCons(ValidUnlessIdDivisibleByFour, o3, t4);
    assert |Selected(ValidUnlessIdDivisibleByFour, t3)| == 3;
    SelectedCons(ValidUnlessIdDivisibleByFour, o2, t3);
    assert |Selected(ValidUnlessIdDivisibleByFour, t2)| == 4;
    SelectedCons(ValidUnlessIdDivisibleByFour, o1, t2);
    assert |Selected(ValidUnlessIdDivisibleByFour, t1)| == 5;
    SelectedCons(ValidUnlessIdDivisibleByFour, o0, t1);
    assert |Selected(ValidUnlessIdDivisibleByFour, t0)| == 5;
    assert t0 == SevenOrders(template);
  }

  /** Seven orders in chunks of three, where orders 0 and 4 are invalid: the
      step completes with three writes holding five orders. */
  lemma SevenOrdersInChunksOfThree(template: Order, draws: nat -> Draw)
    requires template.cost > 80.0
    requires forall k :: draws(k).Uuid?
    ensures var s := RunStep(CHUNK_BASED_STEP_CONFIG.(chunkSize := 3), ValidUnlessIdDivisibleByFour, SevenOrders(template), draws, 0);
            s.exitStatus == Flow.COMPLETED && |Flatten(s.writes)| == 5 && |s.writes| == 3
  {
    var cfg := CHUNK_BASED_STEP_CONFIG.(chunkSize := 3);
    var input := SevenOrders(template);
    NoFailedDrawCompletes(cfg, ValidUnlessIdDivisibleByFour, input, draws, 0);
    var s := RunStep(cfg, ValidUnlessIdDivisibleByFour, input, draws, 0);
    assert |OrdersOf(Flatten(s.writes))| == |Flatten(s.writes)|;
    SevenOrdersSelected(template);
    StepWritesCount(cfg, ValidUnlessIdDivisibleByFour, input, draws, 0);
    assert ChunkCount(3, 7) == 3;
  }

  /** The number of chunks `n` orders make in chunks of `k`. */
  function ChunkCount(k: nat, n: nat): nat
    requires k > 0
    decreases n
  {
    if n == 0 then 0 else if k < n then 1 + ChunkCount(k, n - k) else 1
  }

  /** A completed step made one write per chunk of its input. */
  lemma {:induction false} StepWritesCount(cfg: Config, valid: Order -> bool, input: seq<Order>, draws: nat -> Draw, next: nat)
    requires cfg.chunkSize > 0
    ensures var s := RunStep(cfg, valid, input, draws, next);
            s.exitStatus == Flow.COMPLETED ==> |s.writes| == ChunkCount(cfg.chunkSize, |input|)
    decreases |input|
  {
    if input != [] {
      var n := FirstChunk(cfg, input);
      var c := RunChunk(cfg, valid, input[..n], draws, next, 0);
      StepUnfold(cfg, valid, input, draws, next);
      if c.Committed? {
        StepWritesCount(cfg, valid, input[n..], draws, c.next);
        StepCommits(cfg, valid, input[n..], draws, c.next);
      }
    }
  }

  // ---------------------------------------------------------------------
  // chunkBasedStep as configured

  /** In filter mode an invalid order is dropped without an error and without
      asking for a tracking number. */
  lemma InvalidOrdersAreDropped(valid: Order -> bool, o: Order, draws: nat -> Draw, next: nat)
    requires !valid(o)
    ensures Composite(CHUNK_BASED_STEP_CONFIG.filterInvalid, valid, o, draws, next) == ItemRun(Success(None), next)
  {
  }

  /** chunkBasedStep never aborts a chunk on a validation error, and a
      chunk it aborts has been attempted four times. */
  lemma ChunkBasedStepAborts(valid: Order -> bool, chunk: seq<Order>, draws: nat -> Draw, next: nat)
    ensures var c := RunChunk(CHUNK_BASED_STEP_CONFIG, valid, chunk, draws, next, 0);
            c.Aborted? ==> c.error == OrderProcessingException && c.retries == 3
  {
    AbortsOnTrackingOnly(valid, chunk, draws, next, 0);
  }

  lemma {:induction false} AbortsOnTrackingOnly(valid: Order -> bool, chunk: seq<Order>, draws: nat -> Draw, next: nat, retries: nat)
    requires retries <= 3
    ensures var c := RunChunk(CHUNK_BASED_STEP_CONFIG, valid, chunk, draws, next, retries);
            c.Aborted? ==> c.error == OrderProcessingException
    decreases 3 - retries
  {
    ProcessChunkSound(CHUNK_BASED_STEP_CONFIG, valid, chunk, draws, next);
    var a := ProcessChunk(CHUNK_BASED_STEP_CONFIG, valid, chunk, draws, next);
    if a.result.Failure? && retries < 3 {
      AbortsOnTrackingOnly(valid, chunk, draws, a.next, retries + 1);
    }
  }

  /** The job around chunkBasedStep completes or fails as the step does. */
  lemma ChunkJobEndsAsStep(valid: Order -> bool, input: seq<Order>, draws: nat -> Draw, params: map<string, string>,
                           rest: seq<string>, fuel: nat)
    requires fuel >= 1
    ensures var s := RunStep(CHUNK_BASED_STEP_CONFIG, valid, input, draws, 0);
            var e := Flow.RunFlow(Jobs.ChunkJob(), params, [s.exitStatus] + rest, fuel);
            e.path == [Jobs.CHUNK_BASED_STEP]
            && (e.status == Flow.Completed <==> s.committed == |input|)
            && (e.status == Flow.Failed <==> s.committed < |input|)
  {
    var s := RunStep(CHUNK_BASED_STEP_CONFIG, valid, input, draws, 0);
    StepSound(CHUNK_BASED_STEP_CONFIG, valid, input, draws, 0);
    Jobs.ChunkJobRuns(params, s.exitStatus, rest, fuel);
  }
}
