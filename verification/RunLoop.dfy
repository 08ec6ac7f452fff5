/** `aws.run`: every module once per region or once in all, each isolated from the failures of
    the others. */
module RunLoop {
  import opened Text
  import opened Tags
  import opened Writer

  /** What one call of a module's `gather` does: the calls it makes on the writer, and the
      exception it ends with, if any. */
  datatype Outcome = Outcome(calls: seq<Call>, failure: Option<string>)

  datatype Regional = Regional(name: string, gather: string -> Outcome)

  datatype Global = Global(name: string, gather: () -> Outcome)

  datatype WithAccount = WithAccount(name: string, gather: string -> Outcome)

  /** One turn of one of the three loops. */
  datatype Step = Step(region: string, name: string, outcome: Outcome)

  function FailureCalls(s: Step): seq<Call> {
    if s.outcome.failure == None then [] else [Call.AddError(ErrorNote(s.region, s.name, s.outcome.failure.value))]
  }

  function StepCalls(s: Step): seq<Call> { s.outcome.calls + FailureCalls(s) }

  function AllCalls(steps: seq<Step>): seq<Call> {
    if steps == [] then [] else AllCalls(steps[..|steps| - 1]) + StepCalls(steps[|steps| - 1])
  }

  lemma AllCallsMore(steps: seq<Step>, s: Step)
    ensures AllCalls(steps + [s]) == AllCalls(steps) + StepCalls(s)
  {
    hide StepCalls;
    assert (steps + [s])[..|steps|] == steps;
  }

  lemma {:induction false} AllCallsAppend(a: seq<Step>, b: seq<Step>)
    ensures AllCalls(a + b) == AllCalls(a) + AllCalls(b)
  {
    hide StepCalls;
    if b == [] {
      assert a + b == a;
    } else {
      var front, last := b[..|b| - 1], b[|b| - 1];
      AllCallsAppend(a, front);
      AllCallsMore(a + front, last);
      assert a + b == a + front + [last];
      assert AllCalls(b) == AllCalls(front) + StepCalls(last);
    }
  }

  // ----- the order of the turns -----

  function RegionSteps(region: string, modules: seq<Regional>): seq<Step> {
    seq(|modules|, k requires 0 <= k < |modules| => Step(region, modules[k].name, modules[k].gather(region)))
  }

  function RegionalSteps(regions: seq<string>, modules: seq<Regional>): seq<Step> {
    if regions == [] then []
    else RegionalSteps(regions[..|regions| - 1], modules) + RegionSteps(regions[|regions| - 1], modules)
  }

  function GlobalSteps(modules: seq<Global>): seq<Step> {
    seq(|modules|, k requires 0 <= k < |modules| => Step("global", modules[k].name, modules[k].gather()))
  }

  function AccountSteps(modules: seq<WithAccount>, account: string): seq<Step> {
    seq(|modules|, k requires 0 <= k < |modules| => Step("global", modules[k].name, modules[k].gather(account)))
  }

  /** `regions or get_regions()` */
  function Targets(given: Option<seq<string>>, listed: seq<string>): seq<string> {
    if given.Some? && given.value != [] then given.value else listed
  }

  datatype Registry = Registry(regional: seq<Regional>, global: seq<Global>, withAccount: seq<WithAccount>)

  function Steps(regions: seq<string>, r: Registry, account: string): seq<Step> {
    RegionalSteps(regions, r.regional) + GlobalSteps(r.global) + AccountSteps(r.withAccount, account)
  }

  // ----- the loops -----

  /** A module running against the writer. */
  method Perform(writer: InventoryWriter, calls: seq<Call>)
    requires writer.Valid()
    modifies writer
    ensures writer.Valid() && writer.history == old(writer.history) + calls
  {
    hide Run;
    hide Apply;
    hide ParseSuppression;
    hide Stamp;
    for i := 0 to |calls|
      invariant writer.Valid() && writer.history == old(writer.history) + calls[..i]
    {
      match calls[i] {
        case AddResource(r, tags) =>
          var _ := writer.AddResource(r, tags);
        case AddEdge(e) =>
          writer.AddEdge(e);
        case AddError(n) =>
          writer.AddError(n);
      }
      assert calls[..i + 1] == calls[..i] + [calls[i]];
    }
    assert calls[..|calls|] == calls;
  }

  /** The body of each loop: `try` the module, record the exception it ends with. */
  method Isolated(writer: InventoryWriter, region: string, name: string, outcome: Outcome, ghost done: seq<Step>)
    requires writer.Valid() && writer.history == AllCalls(done)
    modifies writer
    ensures writer.Valid() && writer.history == AllCalls(done + [Step(region, name, outcome)])
  {
    hide Run;
    hide AllCalls;
    AllCallsMore(done, Step(region, name, outcome));
    Perform(writer, outcome.calls);
    if outcome.failure.Some? {
      writer.AddError(ErrorNote(region, name, outcome.failure.value));
    }
  }

  /** `run`: a writer that has seen every module's calls, in the order of the three lists. */
  method RunAll(account: string, given: Option<seq<string>>, listed: seq<string>, r: Registry, version: string)
    returns (writer: InventoryWriter)
    ensures fresh(writer) && writer.Valid()
    ensures writer.provider == "aws" && writer.accountId == account
    ensures writer.history == AllCalls(Steps(Targets(given, listed), r, account))
  {
    hide Run;
    hide AllCalls;
    writer := new InventoryWriter("aws", account, version);
    ghost var done: seq<Step> := [];
    NoSteps();
    var regions := Targets(given, listed);
    for i := 0 to |regions|
      invariant fresh(writer) && writer.Valid() && writer.history == AllCalls(done)
      invariant done == RegionalSteps(regions[..i], r.regional)
    {
      ghost var before := done;
      for k := 0 to |r.regional|
        invariant fresh(writer) && writer.Valid() && writer.history == AllCalls(done)
        invariant done == before + RegionSteps(regions[i], r.regional)[..k]
      {
        var m := r.regional[k];
        Isolated(writer, regions[i], m.name, m.gather(regions[i]), done);
        done := done + [Step(regions[i], m.name, m.gather(regions[i]))];
      }
      assert regions[..i + 1][..i] == regions[..i];
      assert RegionSteps(regions[i], r.regional)[..|r.regional|] == RegionSteps(regions[i], r.regional);
    }
    assert regions[..|regions|] == regions;
    ghost var regional := done;
    for k := 0 to |r.global|
      invariant fresh(writer) && writer.Valid() && writer.history == AllCalls(done)
      invariant done == regional + GlobalSteps(r.global)[..k]
    {
      var m := r.global[k];
      Isolated(writer, "global", m.name, m.gather(), done);
      done := done + [Step("global", m.name, m.gather())];
    }
    assert GlobalSteps(r.global)[..|r.global|] == GlobalSteps(r.global);
    ghost var global := done;
    for k := 0 to |r.withAccount|
      invariant fresh(writer) && writer.Valid() && writer.history == AllCalls(done)
      invariant done == global + AccountSteps(r.withAccount, account)[..k]
    {
      var m := r.withAccount[k];
      Isolated(writer, "global", m.name, m.gather(account), done);
      done := done + [Step("global", m.name, m.gather(account))];
    }
    assert AccountSteps(r.withAccount, account)[..|r.withAccount|] == AccountSteps(r.withAccount, account);
  }

  lemma NoSteps()
    ensures AllCalls([]) == []
  {}

  // ----- isolation -----

  lemma FailureOnlyAddsError(s: Step)
    ensures Accepted(StepCalls(s)) == Accepted(s.outcome.calls)
    ensures EdgesOf(StepCalls(s)) == EdgesOf(s.outcome.calls)
    ensures ErrorsOf(StepCalls(s)) == ErrorsOf(s.outcome.calls) + ErrorsOf(FailureCalls(s))
    ensures |ErrorsOf(FailureCalls(s))| == if s.outcome.failure.Some? then 1 else 0
  {
    PartsAppend(s.outcome.calls, FailureCalls(s));
    if s.outcome.failure.Some? {
      assert Before(FailureCalls(s)) == [];
    }
  }

  /** One module's outcome decides its own stretch of the run and nothing else: whatever the
      modules before and after it did or failed to do, the run's records and edges are theirs,
      then everything this module managed to write before it failed, then theirs again. */
  lemma ModulesAreIsolated(before: seq<Step>, s: Step, after: seq<Step>)
    ensures var w := Run(AllCalls(before + [s] + after));
      && w.records == Accepted(AllCalls(before)) + Accepted(s.outcome.calls) + Accepted(AllCalls(after))
      && w.edges == EdgesOf(AllCalls(before)) + EdgesOf(s.outcome.calls) + EdgesOf(AllCalls(after))
      && w.errors == ErrorsOf(AllCalls(before)) + ErrorsOf(StepCalls(s)) + ErrorsOf(AllCalls(after))
  {
    hide Accepted;
    hide EdgesOf;
    hide ErrorsOf;
    hide AllCalls;
    hide StepCalls;
    hide Run;
    Conservation(AllCalls(before + [s] + after));
    AllCallsAppend(before + [s], after);
    AllCallsMore(before, s);
    PartsAppend(AllCalls(before) + StepCalls(s), AllCalls(after));
    PartsAppend(AllCalls(before), StepCalls(s));
    FailureOnlyAddsError(s);
  }

  function OwnErrors(steps: seq<Step>): nat {
    if steps == [] then 0 else OwnErrors(steps[..|steps| - 1]) + |ErrorsOf(steps[|steps| - 1].outcome.calls)|
  }

  function FailedSteps(steps: seq<Step>): nat {
    if steps == [] then 0
    else FailedSteps(steps[..|steps| - 1]) + if steps[|steps| - 1].outcome.failure.Some? then 1 else 0
  }

  /** The run reports one error for each module that failed, besides those the modules reported
      themselves. */
  lemma {:induction false} OneErrorPerFailure(steps: seq<Step>)
    ensures |Run(AllCalls(steps)).errors| == OwnErrors(steps) + FailedSteps(steps)
  {
    hide ErrorsOf;
    hide StepCalls;
    hide Run;
    hide Accepted;
    hide EdgesOf;
    Conservation(AllCalls(steps));
    if steps == [] {
      NoErrors();
    } else {
      var n := |steps| - 1;
      OneErrorPerFailure(steps[..n]);
      Conservation(AllCalls(steps[..n]));
      PartsAppend(AllCalls(steps[..n]), StepCalls(steps[n]));
      FailureOnlyAddsError(steps[n]);
    }
  }

  lemma NoErrors()
    ensures ErrorsOf([]) == []
  {}

  // ----- every module has its turn -----

  lemma {:induction false} RegionalTurns(regions: seq<string>, modules: seq<Regional>)
    ensures |RegionalSteps(regions, modules)| == |regions| * |modules|
    ensures forall i, k :: 0 <= i < |regions| && 0 <= k < |modules| ==>
      RegionTurn(regions, modules, RegionalSteps(regions, modules), i, k)
  {
    if regions != [] {
      var n, m := |regions| - 1, |modules|;
      var front, last := RegionalSteps(regions[..n], modules), RegionSteps(regions[n], modules);
      RegionalTurns(regions[..n], modules);
      assert |regions| * m == n * m + m;
      forall i, k | 0 <= i < |regions| && 0 <= k < m ensures RegionTurn(regions, modules, front + last, i, k) {
        Place(i, k, n, m);
        if i < n { assert RegionTurn(regions[..n], modules, front, i, k); }
      }
    }
  }

  lemma Place(i: nat, k: nat, n: nat, m: nat)
    requires i <= n && k < m
    ensures i < n ==> i * m + k < n * m
    ensures i == n ==> i * m + k == n * m + k
  {
    if i < n { assert (i + 1) * m <= n * m; }
  }

  /** In region `i` the kth module has its turn. */
  ghost predicate RegionTurn(regions: seq<string>, modules: seq<Regional>, steps: seq<Step>, i: int, k: int) {
    && 0 <= i < |regions| && 0 <= k < |modules| && 0 <= i * |modules| + k < |steps|
    && steps[i * |modules| + k] == Step(regions[i], modules[k].name, modules[k].gather(regions[i]))
  }

  /** Every module of each list has exactly one turn, per region or in all, in the order of the
      lists; the regions are those given, or all the listed ones when none is. */
  lemma StepsExact(given: Option<seq<string>>, listed: seq<string>, r: Registry, account: string)
    ensures var regions := if IsSome(given) then given.value else listed;
      var steps := Steps(Targets(given, listed), r, account);
      var n := |regions| * |r.regional|;
      && |steps| == n + |r.global| + |r.withAccount|
      && (forall i, k :: 0 <= i < |regions| && 0 <= k < |r.regional| ==> RegionTurn(regions, r.regional, steps, i, k))
      && (forall k :: 0 <= k < |r.global| ==> steps[n + k] == Step("global", r.global[k].name, r.global[k].gather()))
      && (forall k :: 0 <= k < |r.withAccount| ==>
            steps[n + |r.global| + k] == Step("global", r.withAccount[k].name, r.withAccount[k].gather(account)))
  {
    hide RegionalSteps;
    var regions := Targets(given, listed);
    RegionalTurns(regions, r.regional);
    var front := RegionalSteps(regions, r.regional);
    forall i, k | 0 <= i < |regions| && 0 <= k < |r.regional|
      ensures RegionTurn(regions, r.regional, Steps(regions, r, account), i, k)
    {
      assert RegionTurn(regions, r.regional, front, i, k);
    }
  }

  ghost predicate IsSome<T(!new)>(xs: Option<seq<T>>) { xs != None && xs != Some([]) }

  /** What a turn leaves: what the module wrote, then its failure, under its name and region. */
  lemma TurnExact(s: Step)
    ensures Accepted(StepCalls(s)) == Accepted(s.outcome.calls) && EdgesOf(StepCalls(s)) == EdgesOf(s.outcome.calls)
    ensures ErrorsOf(StepCalls(s)) == ErrorsOf(s.outcome.calls)
      + match s.outcome.failure { case None => [] case Some(e) => [ErrorNote(s.region, s.name, e)] }
  {
    hide Accepted, EdgesOf;
    FailureOnlyAddsError(s);
    if s.outcome.failure.Some? { assert Before(FailureCalls(s)) == []; }
  }
}
