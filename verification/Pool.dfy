/** `parallel_map`: the thread pool as a step system, and every schedule of it against the
    serial loop `[fn(i) for i in items]`. */
module Pool {
  import opened Text

  // ----- the serial loop -----

  /** The serial loop stops at the first item that raises. */
  function Serial<T, R, E>(fn: T -> Result<R, E>, items: seq<T>): Result<seq<R>, E> {
    if items == [] then Ok([])
    else
      match fn(items[0])
      case Err(e) => Err(e)
      case Ok(r) =>
        match Serial(fn, items[1..])
        case Err(e) => Err(e)
        case Ok(rs) => Ok([r] + rs)
  }

  lemma {:induction false} SerialReturns<T, R, E>(fn: T -> Result<R, E>, items: seq<T>, rs: seq<R>)
    requires |rs| == |items| && forall k :: 0 <= k < |items| ==> fn(items[k]) == Ok(rs[k])
    ensures Serial(fn, items) == Ok(rs)
  {
    if items != [] {
      SerialReturns(fn, items[1..], rs[1..]);
      assert rs == [rs[0]] + rs[1..];
    }
  }

  lemma {:induction false} SerialRaises<T, R, E>(fn: T -> Result<R, E>, items: seq<T>, c: nat, e: E)
    requires c < |items| && fn(items[c]) == Err(e)
    requires forall k :: 0 <= k < c ==> fn(items[k]).Ok?
    ensures Serial(fn, items) == Err(e)
  {
    if c > 0 { SerialRaises(fn, items[1..], c - 1, e); }
  }

  // ----- the pool -----

  datatype Slot<R, E> = Unsubmitted | Pending | Running | Done(outcome: Result<R, E>) | Cancelled

  /** What the calling thread is doing: submitting every item, reading the results in order,
      or waiting for the workers on the way out of the `with` block. */
  datatype Phase = Submitting | Collecting | Closing | Closed

  datatype State<R, E> = State(
    phase: Phase,
    slots: seq<Slot<R, E>>,
    queue: seq<int>,
    submitted: nat,
    threads: nat,
    collected: seq<R>,
    raised: Option<E>)

  datatype Move = Submit(spawn: bool) | Take | Finish(item: nat) | Collect | Close

  function Start<R, E>(n: nat): State<R, E> {
    State(if n == 0 then Collecting else Submitting, seq(n, _ => Unsubmitted), [], 0, 0, [], None)
  }

  function SlotLoad<R, E>(s: Slot<R, E>): nat { if s.Running? then 1 else 0 }

  function InFlight<R, E>(slots: seq<Slot<R, E>>): nat {
    if slots == [] then 0 else SlotLoad(slots[0]) + InFlight(slots[1..])
  }

  /** Futures that no worker has picked up are cancelled when a result raises. */
  function CancelPending<R, E>(slots: seq<Slot<R, E>>): seq<Slot<R, E>> {
    seq(|slots|, k requires 0 <= k < |slots| => if slots[k].Pending? then Cancelled else slots[k])
  }

  predicate Enabled<R, E>(s: State<R, E>, workers: nat, m: Move) {
    match m
    case Submit(spawn) =>
      s.phase == Submitting && s.submitted < |s.slots| && (if spawn then s.threads < workers else s.threads > 0)
    case Take =>
      s.queue != [] && 0 <= s.queue[0] < |s.slots| && InFlight(s.slots) < s.threads
    case Finish(i) => i < |s.slots| && s.slots[i].Running?
    case Collect =>
      s.phase == Collecting && (|s.collected| >= |s.slots| || s.slots[|s.collected|].Done?)
    case Close => s.phase == Closing && s.queue == [] && InFlight(s.slots) == 0
  }

  function Next<T, R, E>(fn: T -> Result<R, E>, items: seq<T>, workers: nat, s: State<R, E>, m: Move): State<R, E>
    requires |items| == |s.slots| && Enabled(s, workers, m)
  {
    match m
    case Submit(spawn) =>
      s.(phase := if s.submitted + 1 == |items| then Collecting else Submitting,
         slots := s.slots[s.submitted := Pending], queue := s.queue + [s.submitted],
         submitted := s.submitted + 1, threads := if spawn then s.threads + 1 else s.threads)
    case Take =>
      var i := s.queue[0];
      s.(queue := s.queue[1..], slots := if s.slots[i].Pending? then s.slots[i := Running] else s.slots)
    case Finish(i) => s.(slots := s.slots[i := Done(fn(items[i]))])
    case Collect =>
      var c := |s.collected|;
      if c >= |s.slots| then s.(phase := Closing)
      else
        (match s.slots[c].outcome
         case Ok(r) => s.(collected := s.collected + [r])
         case Err(e) => s.(phase := Closing, raised := Some(e), slots := CancelPending(s.slots)))
    case Close => s.(phase := Closed)
  }

  /** A run: a state sequence from the start, each state a move away from the one before. */
  ghost predicate IsRun<T, R, E>(fn: T -> Result<R, E>, items: seq<T>, workers: nat, run: seq<State<R, E>>) {
    && run != [] && run[0] == Start(|items|)
    && forall k :: 0 < k < |run| ==> IsStep(fn, items, workers, run[k - 1], run[k])
  }

  ghost predicate IsStep<T, R, E>(fn: T -> Result<R, E>, items: seq<T>, workers: nat, s: State<R, E>, s': State<R, E>) {
    |items| == |s.slots| && exists m :: Enabled(s, workers, m) && s' == Next(fn, items, workers, s, m)
  }

  function OutcomeOf<R, E>(s: State<R, E>): Result<seq<R>, E> {
    match s.raised case None => Ok(s.collected) case Some(e) => Err(e)
  }

  // ----- what every step keeps -----

  ghost predicate QueueInv<R, E>(s: State<R, E>) {
    && s.submitted <= |s.slots|
    && (forall k :: 0 <= k < |s.queue| ==>
         0 <= s.queue[k] < s.submitted && (s.slots[s.queue[k]].Pending? || s.slots[s.queue[k]].Cancelled?))
    && (forall a, b :: 0 <= a < b < |s.queue| ==> s.queue[a] < s.queue[b])
    && (forall i :: 0 <= i < |s.slots| && s.slots[i].Pending? ==> i in s.queue)
  }

  ghost predicate SlotInv<T, R, E>(fn: T -> Result<R, E>, items: seq<T>, s: State<R, E>) {
    && |s.slots| == |items| && s.submitted <= |items|
    && (forall i :: 0 <= i < |items| ==> (s.slots[i].Unsubmitted? <==> i >= s.submitted))
    && (forall i :: 0 <= i < |items| && s.slots[i].Done? ==> s.slots[i].outcome == fn(items[i]))
    && ((exists i :: 0 <= i < |items| && s.slots[i].Cancelled?) ==> s.raised.Some?)
  }

  ghost predicate ResultInv<R, E>(s: State<R, E>) {
    && |s.collected| <= |s.slots|
    && (forall k :: 0 <= k < |s.collected| ==> s.slots[k] == Done(Ok(s.collected[k])))
    && (s.raised.Some? ==> |s.collected| < |s.slots| && s.slots[|s.collected|] == Done(Err(s.raised.value)))
    && (s.phase == Submitting <==> s.submitted < |s.slots|)
    && (s.phase == Submitting || s.phase == Collecting ==> s.raised == None)
    && (s.phase == Closing || s.phase == Closed ==> s.raised.Some? || |s.collected| == |s.slots|)
  }

  /** Never more items in flight than threads, nor more threads than the pool allows. */
  ghost predicate PoolInv<R, E>(s: State<R, E>, workers: nat) {
    && InFlight(s.slots) <= s.threads <= workers
    && (s.submitted > 0 ==> s.threads > 0)
    && (s.phase == Closed ==> s.queue == [] && InFlight(s.slots) == 0)
  }

  ghost predicate Inv<T, R, E>(fn: T -> Result<R, E>, items: seq<T>, workers: nat, s: State<R, E>) {
    SlotInv(fn, items, s) && QueueInv(s) && ResultInv(s) && PoolInv(s, workers)
  }

  lemma {:induction false} InFlightUpdate<R, E>(slots: seq<Slot<R, E>>, i: nat, x: Slot<R, E>)
    requires i < |slots|
    ensures InFlight(slots[i := x]) == InFlight(slots) - SlotLoad(slots[i]) + SlotLoad(x)
  {
    if i == 0 {
      assert slots[i := x][1..] == slots[1..];
    } else {
      InFlightUpdate(slots[1..], i - 1, x);
      assert slots[i := x][1..] == slots[1..][i - 1 := x];
    }
  }

  lemma {:induction false} InFlightSame<R, E>(a: seq<Slot<R, E>>, b: seq<Slot<R, E>>)
    requires |a| == |b| && forall k :: 0 <= k < |a| ==> (a[k].Running? <==> b[k].Running?)
    ensures InFlight(a) == InFlight(b)
  {
    if a != [] { InFlightSame(a[1..], b[1..]); }
  }

  lemma {:induction false} SomeoneRuns<R, E>(slots: seq<Slot<R, E>>) returns (i: nat)
    requires InFlight(slots) > 0
    ensures i < |slots| && slots[i].Running?
  {
    if slots[0].Running? { i := 0; } else { i := SomeoneRuns(slots[1..]); i := i + 1; }
  }

  lemma {:induction false} NobodyRuns<R, E>(slots: seq<Slot<R, E>>)
    requires forall k :: 0 <= k < |slots| ==> !slots[k].Running?
    ensures InFlight(slots) == 0
  {
    if slots != [] { NobodyRuns(slots[1..]); }
  }

  lemma StartInv<T, R, E>(fn: T -> Result<R, E>, items: seq<T>, workers: nat)
    ensures Inv(fn, items, workers, Start(|items|))
  {
    NobodyRuns(Start<R, E>(|items|).slots);
  }

  lemma SubmitKeepsInv<T, R, E>(fn: T -> Result<R, E>, items: seq<T>, workers: nat, s: State<R, E>, spawn: bool)
    requires Inv(fn, items, workers, s) && Enabled(s, workers, Submit(spawn))
    ensures Inv(fn, items, workers, Next(fn, items, workers, s, Submit(spawn)))
  {
    hide InFlight;
    InFlightUpdate(s.slots, s.submitted, Pending);
    var s' := Next(fn, items, workers, s, Submit(spawn));
    forall i | 0 <= i < |s'.slots| && s'.slots[i].Pending? ensures i in s'.queue {
      if i == s.submitted { assert s'.queue[|s.queue|] == i; }
    }
  }

  lemma TakeKeepsInv<T, R, E>(fn: T -> Result<R, E>, items: seq<T>, workers: nat, s: State<R, E>)
    requires Inv(fn, items, workers, s) && Enabled(s, workers, Take)
    ensures Inv(fn, items, workers, Next(fn, items, workers, s, Take))
  {
    hide InFlight;
    hide QueueInv;
    TakeKeepsQueue(fn, items, workers, s);
    InFlightUpdate(s.slots, s.queue[0], Running);
  }

  lemma TakeKeepsQueue<T, R, E>(fn: T -> Result<R, E>, items: seq<T>, workers: nat, s: State<R, E>)
    requires |items| == |s.slots| && QueueInv(s) && Enabled(s, workers, Take)
    ensures QueueInv(Next(fn, items, workers, s, Take))
    ensures s.slots[s.queue[0]].Pending? || s.slots[s.queue[0]].Cancelled?
  {
    hide InFlight;
    var s' := Next(fn, items, workers, s, Take);
    forall j | 0 <= j < |s'.slots| && s'.slots[j].Pending? ensures j in s'.queue {
      var k :| 0 <= k < |s.queue| && s.queue[k] == j;
      assert k > 0 && s'.queue[k - 1] == j;
    }
  }

  lemma FinishKeepsInv<T, R, E>(fn: T -> Result<R, E>, items: seq<T>, workers: nat, s: State<R, E>, i: nat)
    requires Inv(fn, items, workers, s) && Enabled(s, workers, Finish(i))
    ensures Inv(fn, items, workers, Next(fn, items, workers, s, Finish(i)))
  {
    InFlightUpdate(s.slots, i, Done(fn(items[i])));
    InFlightUpdate(s.slots, i, Pending);
  }

  lemma CollectKeepsInv<T, R, E>(fn: T -> Result<R, E>, items: seq<T>, workers: nat, s: State<R, E>)
    requires Inv(fn, items, workers, s) && Enabled(s, workers, Collect)
    ensures Inv(fn, items, workers, Next(fn, items, workers, s, Collect))
  {
    hide QueueInv;
    hide SlotInv;
    hide InFlight;
    CollectKeepsQueue(fn, items, workers, s);
    CollectKeepsSlots(fn, items, workers, s);
    CancelKeepsLoad(s.slots);
  }

  lemma CancelKeepsLoad<R, E>(slots: seq<Slot<R, E>>)
    ensures InFlight(CancelPending(slots)) == InFlight(slots)
  {
    var cancelled := CancelPending(slots);
    forall k | 0 <= k < |slots| ensures slots[k].Running? <==> cancelled[k].Running? {}
    InFlightSame(slots, cancelled);
  }

  lemma CollectKeepsQueue<T, R, E>(fn: T -> Result<R, E>, items: seq<T>, workers: nat, s: State<R, E>)
    requires SlotInv(fn, items, s) && QueueInv(s) && Enabled(s, workers, Collect)
    ensures |items| == |s.slots| && QueueInv(Next(fn, items, workers, s, Collect))
  {
    hide InFlight;
  }

  lemma CollectKeepsSlots<T, R, E>(fn: T -> Result<R, E>, items: seq<T>, workers: nat, s: State<R, E>)
    requires SlotInv(fn, items, s) && Enabled(s, workers, Collect)
    ensures SlotInv(fn, items, Next(fn, items, workers, s, Collect))
  {
    hide InFlight;
  }

  /** Every move keeps the invariant. */
  lemma StepKeepsInv<T, R, E>(fn: T -> Result<R, E>, items: seq<T>, workers: nat, s: State<R, E>, m: Move)
    requires Inv(fn, items, workers, s) && Enabled(s, workers, m)
    ensures Inv(fn, items, workers, Next(fn, items, workers, s, m))
  {
    match m
    case Submit(spawn) => SubmitKeepsInv(fn, items, workers, s, spawn);
    case Take => TakeKeepsInv(fn, items, workers, s);
    case Finish(i) => FinishKeepsInv(fn, items, workers, s, i);
    case Collect => CollectKeepsInv(fn, items, workers, s);
    case Close =>
  }

  // ----- progress and termination -----

  /** The pool never gets stuck before the `with` block is left. */
  lemma SomeMoveEnabled<T, R, E>(fn: T -> Result<R, E>, items: seq<T>, workers: nat, s: State<R, E>) returns (m: Move)
    requires Inv(fn, items, workers, s) && workers > 0 && s.phase != Closed
    ensures Enabled(s, workers, m)
  {
    if s.phase == Submitting {
      m := Submit(s.threads == 0);
    } else if s.phase == Collecting && (|s.collected| == |s.slots| || s.slots[|s.collected|].Done?) {
      m := Collect;
    } else if InFlight(s.slots) > 0 {
      var i := SomeoneRuns(s.slots);
      m := Finish(i);
    } else if s.queue != [] {
      m := Take;
    } else {
      assert s.phase == Collecting ==> !s.slots[|s.collected|].Cancelled?;
      if s.phase == Collecting { InFlightUpdate(s.slots, |s.collected|, Pending); }
      m := Close;
    }
  }

  function SlotWeight<R, E>(s: Slot<R, E>): nat {
    match s
    case Unsubmitted => 4
    case Pending => 2
    case Running => 1
    case Done(_) => 0
    case Cancelled => 0
  }

  function Weight<R, E>(slots: seq<Slot<R, E>>): nat {
    if slots == [] then 0 else SlotWeight(slots[0]) + Weight(slots[1..])
  }

  function PhaseWeight(p: Phase): nat {
    match p case Submitting => 3 case Collecting => 2 case Closing => 1 case Closed => 0
  }

  function Budget<R, E>(s: State<R, E>): int {
    Weight(s.slots) + |s.queue| + (|s.slots| - |s.collected|) + PhaseWeight(s.phase)
  }

  lemma {:induction false} WeightUpdate<R, E>(slots: seq<Slot<R, E>>, i: nat, x: Slot<R, E>)
    requires i < |slots|
    ensures Weight(slots[i := x]) == Weight(slots) - SlotWeight(slots[i]) + SlotWeight(x)
  {
    if i == 0 {
      assert slots[i := x][1..] == slots[1..];
    } else {
      WeightUpdate(slots[1..], i - 1, x);
      assert slots[i := x][1..] == slots[1..][i - 1 := x];
    }
  }

  lemma {:induction false} CancelLightens<R, E>(slots: seq<Slot<R, E>>)
    ensures Weight(CancelPending(slots)) <= Weight(slots)
  {
    if slots != [] {
      CancelLightens(slots[1..]);
      assert CancelPending(slots)[1..] == CancelPending(slots[1..]);
    }
  }

  /** Every move uses up some of a finite budget. */
  lemma StepSpendsBudget<T, R, E>(fn: T -> Result<R, E>, items: seq<T>, workers: nat, s: State<R, E>, m: Move)
    requires Inv(fn, items, workers, s) && Enabled(s, workers, m)
    ensures 0 <= Budget(Next(fn, items, workers, s, m)) < Budget(s)
  {
    hide InFlight;
    hide PoolInv;
    StepKeepsInv(fn, items, workers, s, m);
    match m
    case Submit(_) => WeightUpdate(s.slots, s.submitted, Pending);
    case Take => WeightUpdate(s.slots, s.queue[0], Running);
    case Finish(i) => WeightUpdate(s.slots, i, Done(fn(items[i])));
    case Collect => CancelLightens(s.slots);
    case Close =>
  }

  lemma {:induction false} StartWeight<R, E>(n: nat)
    ensures Weight(seq(n, _ => Slot<R, E>.Unsubmitted)) == 4 * n
  {
    if n > 0 {
      StartWeight<R, E>(n - 1);
      assert seq(n, _ => Slot<R, E>.Unsubmitted)[1..] == seq(n - 1, _ => Slot<R, E>.Unsubmitted);
    }
  }

  /** Along every run the invariant holds, so the bound on items in flight does, and no run
      has more than 5n + 4 states. */
  lemma {:induction false} RunsAreSafe<T, R, E>(fn: T -> Result<R, E>, items: seq<T>, workers: nat, run: seq<State<R, E>>)
    requires IsRun(fn, items, workers, run)
    ensures forall k :: 0 <= k < |run| ==> Inv(fn, items, workers, run[k]) && InFlight(run[k].slots) <= workers
    ensures |run| + Budget(run[|run| - 1]) <= 5 * |items| + 4
  {
    if |run| == 1 {
      StartInv(fn, items, workers);
      StartWeight<R, E>(|items|);
    } else {
      var shorter := run[..|run| - 1];
      assert IsRun(fn, items, workers, shorter) by {
        forall k | 0 < k < |shorter| ensures IsStep(fn, items, workers, shorter[k - 1], shorter[k]) {
          assert IsStep(fn, items, workers, run[k - 1], run[k]);
        }
      }
      RunsAreSafe(fn, items, workers, shorter);
      var s, s' := run[|run| - 2], run[|run| - 1];
      assert s == shorter[|shorter| - 1];
      assert IsStep(fn, items, workers, s, s');
      var m :| Enabled(s, workers, m) && s' == Next(fn, items, workers, s, m);
      StepKeepsInv(fn, items, workers, s, m);
      StepSpendsBudget(fn, items, workers, s, m);
      forall k | 0 <= k < |run| ensures Inv(fn, items, workers, run[k]) {
        if k < |shorter| { assert shorter[k] == run[k]; }
      }
    }
  }

  // ----- the outcome -----

  /** A closed pool hands its caller what the serial loop would have. */
  lemma ClosedIsSerial<T, R, E>(fn: T -> Result<R, E>, items: seq<T>, workers: nat, s: State<R, E>)
    requires Inv(fn, items, workers, s) && s.phase == Closed
    ensures OutcomeOf(s) == Serial(fn, items)
    ensures s.raised == None ==> forall i :: 0 <= i < |items| ==> s.slots[i] == Done(fn(items[i]))
  {
    if s.raised == None {
      SerialReturns(fn, items, s.collected);
    } else {
      SerialRaises(fn, items, |s.collected|, s.raised.value);
    }
  }

  /** What a call can end with. A pool of no threads cannot be built: `ThreadPoolExecutor`
      raises its own ValueError. */
  datatype CallResult<R, E> = Returned(values: seq<R>) | Raised(error: E) | NoSuchPool

  function AsCall<R, E>(r: Result<seq<R>, E>): CallResult<R, E> {
    match r case Ok(rs) => Returned(rs) case Err(e) => Raised(e)
  }

  function PoolSize(maxWorkers: int, n: nat): int { if maxWorkers < n then maxWorkers else n }

  /** The pool of a call is as large as the smaller of the two numbers, and no run of it ever has
      more items in flight than either. */
  lemma CallsAreBounded<T, R, E>(fn: T -> Result<R, E>, items: seq<T>, maxWorkers: int, run: seq<State<R, E>>, k: nat)
    requires PoolSize(maxWorkers, |items|) > 0 && IsRun(fn, items, PoolSize(maxWorkers, |items|), run) && k < |run|
    ensures InFlight(run[k].slots) <= maxWorkers && InFlight(run[k].slots) <= |items|
    ensures PoolSize(maxWorkers, |items|) == maxWorkers || PoolSize(maxWorkers, |items|) == |items|
  {
    RunsAreSafe(fn, items, PoolSize(maxWorkers, |items|), run);
  }

  /** `parallel_map(fn, items, max_workers)` may end with `r`. */
  ghost predicate ParallelMapMay<T, R(!new), E(!new)>(fn: T -> Result<R, E>, items: seq<T>, maxWorkers: int, r: CallResult<R, E>) {
    if items == [] then r == Returned([])
    else if PoolSize(maxWorkers, |items|) <= 0 then r == NoSuchPool
    else exists run: seq<State<R, E>> ::
      && IsRun(fn, items, PoolSize(maxWorkers, |items|), run)
      && run[|run| - 1].phase == Closed && r == AsCall(OutcomeOf(run[|run| - 1]))
  }

  lemma RunOn<T, R, E>(fn: T -> Result<R, E>, items: seq<T>, workers: nat, run: seq<State<R, E>>, m: Move)
      returns (longer: seq<State<R, E>>)
    requires IsRun(fn, items, workers, run) && |items| == |run[|run| - 1].slots| && Enabled(run[|run| - 1], workers, m)
    ensures longer == run + [Next(fn, items, workers, run[|run| - 1], m)]
    ensures IsRun(fn, items, workers, longer) && Inv(fn, items, workers, longer[|longer| - 1])
    ensures |longer[|longer| - 1].slots| == |items| && |longer| <= 5 * |items| + 4
  {
    var s := run[|run| - 1];
    RunsAreSafe(fn, items, workers, run);
    StepSpendsBudget(fn, items, workers, s, m);
    longer := run + [Next(fn, items, workers, s, m)];
    forall k | 0 < k < |longer| ensures IsStep(fn, items, workers, longer[k - 1], longer[k]) {
      if k < |run| { assert IsStep(fn, items, workers, run[k - 1], run[k]); }
    }
    RunsAreSafe(fn, items, workers, longer);
  }

  lemma {:induction false} Completes<T, R, E>(fn: T -> Result<R, E>, items: seq<T>, workers: nat, run: seq<State<R, E>>)
      returns (full: seq<State<R, E>>)
    requires IsRun(fn, items, workers, run) && workers > 0
    ensures IsRun(fn, items, workers, full) && full[|full| - 1].phase == Closed
    ensures run <= full
    decreases 5 * |items| + 4 - |run|
  {
    RunsAreSafe(fn, items, workers, run);
    hide Enabled;
    hide Next;
    hide Budget;
    var s := run[|run| - 1];
    if s.phase == Closed {
      full := run;
    } else {
      var m := SomeMoveEnabled(fn, items, workers, s);
      var longer := RunOn(fn, items, workers, run, m);
      full := Completes(fn, items, workers, longer);
    }
  }

  /** Whatever the schedule, `parallel_map` ends the way the serial loop does: the same list
      in item order, or the exception of the first failing item. A pool is built only for a
      non-empty list, and only a caller asking for no workers is refused one. */
  lemma ParallelMapIsSerial<T, R(!new), E(!new)>(fn: T -> Result<R, E>, items: seq<T>, maxWorkers: int, r: CallResult<R, E>)
    ensures ParallelMapMay(fn, items, maxWorkers, r) <==>
      r == if items != [] && maxWorkers <= 0 then NoSuchPool else AsCall(Serial(fn, items))
  {
    var workers := PoolSize(maxWorkers, |items|);
    if items != [] && workers > 0 {
      forall run: seq<State<R, E>> | IsRun(fn, items, workers, run) && run[|run| - 1].phase == Closed
        ensures OutcomeOf(run[|run| - 1]) == Serial(fn, items)
      {
        RunsAreSafe(fn, items, workers, run);
        ClosedIsSerial(fn, items, workers, run[|run| - 1]);
      }
      var run := Completes(fn, items, workers, [Start<R, E>(|items|)]);
      assert IsRun(fn, items, workers, run);
    }
  }

  /** `parallel_map`, the pool making whatever moves it is ready for in any order. */
  method ParallelMap<T, R(!new), E(!new)>(fn: T -> Result<R, E>, items: seq<T>, maxWorkers: int) returns (r: CallResult<R, E>)
    ensures ParallelMapMay(fn, items, maxWorkers, r)
    ensures r == if items != [] && maxWorkers <= 0 then NoSuchPool else AsCall(Serial(fn, items))
  {
    hide Enabled;
    hide Next;
    hide Inv;
    hide Budget;
    if items == [] {
      return Returned([]);
    }
    var workers := PoolSize(maxWorkers, |items|);
    if workers <= 0 {
      return NoSuchPool;
    }
    var s: State<R, E> := Start(|items|);
    ghost var run := [s];
    RunsAreSafe(fn, items, workers, run);
    while s.phase != Closed
      invariant IsRun(fn, items, workers, run) && run[|run| - 1] == s
      invariant Inv(fn, items, workers, s) && |items| == |s.slots|
      decreases 5 * |items| + 4 - |run|
    {
      ghost var ready := SomeMoveEnabled(fn, items, workers, s);
      var m: Move :| Enabled(s, workers, m);
      run := RunOn(fn, items, workers, run, m);
      s := Next(fn, items, workers, s, m);
    }
    r := AsCall(OutcomeOf(s));
    ParallelMapIsSerial(fn, items, maxWorkers, r);
  }
}
