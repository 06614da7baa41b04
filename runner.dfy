/** The conformance runner: it replays every trace against one ledger state
    started from the trace's first snapshot, compares the actual state and
    error with the expected ones after each step, and counts.

    As the program is written, a state mismatch only withholds the success
    increment; an error mismatch increments the error count and ends the
    whole run with status 1. Init and unrecognised actions run no ledger
    operation, have error "", and are compared like every other step. */
module Runner {
  import opened Ledger
  import opened Trace
  import Bank

  // ---------------------------------------------------------------------------
  // One step

  /** What a step makes the ledger do: an operation built from the picks, or
      nothing (Init and unrecognised tags). */
  datatype Dispatch = NoOperation | Perform(op: Operation)

  function StepDispatch(step: Step): Dispatch {
    var p := step.nondetPicks;
    match StringToAction(step.actionTaken)
    case Init => NoOperation
    case Deposit => Perform(DepositOp(p.depositor, p.amount))
    case Withdraw => Perform(WithdrawOp(p.withdrawer, p.amount))
    case Transfer => Perform(TransferOp(p.sender, p.receiver, p.amount))
    case BuyInvestment => Perform(BuyInvestmentOp(p.buyer, p.amount))
    case SellInvestment => Perform(SellInvestmentOp(p.seller, p.id))
    case Unknown => NoOperation
  }

  /** The actual state and error after the step's action. */
  function ActualOutcome(s: Snapshot, step: Step): Outcome {
    match StepDispatch(step)
    case NoOperation => Outcome(s, NoError)
    case Perform(op) => Apply(s, op)
  }

  datatype StepCheck = StepCheck(state: Snapshot, stateMatches: bool, errorMatches: bool)

  /** One iteration of the step loop: the action, then both comparisons. */
  function CheckStep(s: Snapshot, step: Step): StepCheck {
    var o := ActualOutcome(s, step);
    StepCheck(o.state, CompareBankState(o.state, DecodeState(step.bankState)),
              o.error == ExpectedError(step.error))
  }

  /** The step's state check is exact equality with the decoded expected
      snapshot; its error check compares with the carried value when the tag
      is "Some" and with "" otherwise. */
  lemma CheckStepMeaning(s: Snapshot, step: Step)
    ensures CheckStep(s, step).state == ActualOutcome(s, step).state
    ensures CheckStep(s, step).stateMatches <==> CheckStep(s, step).state == DecodeState(step.bankState)
    ensures CheckStep(s, step).errorMatches <==>
      if step.error.tag == "Some" then ActualOutcome(s, step).error == step.error.value
      else ActualOutcome(s, step).error == NoError
  {
  }

  /** Init and unrecognised steps leave the state alone, report error "",
      and are still compared against the expected state and error. */
  lemma NoOperationStepsAreStillCompared(s: Snapshot, step: Step)
    requires StringToAction(step.actionTaken) == Init || StringToAction(step.actionTaken) == Unknown
    ensures CheckStep(s, step) ==
      StepCheck(s, s == DecodeState(step.bankState), ExpectedError(step.error) == NoError)
  {
  }

  // ---------------------------------------------------------------------------
  // One trace

  /** The actual state of a trace comes from the decoding of its first snapshot. */
  function InitialState(trace: TraceDoc): Snapshot
    requires |trace.states| > 0
  {
    DecodeState(trace.states[0].bankState)
  }

  // The step loop is stated for any per-step check `check`, so that its
  // bookkeeping is proved apart from what a step does; the program's loop is
  // the instance `check == CheckStep`.

  /** The actual state after the first `n` steps: each step checked on the
      state the previous one left, starting from `s0`. */
  function StateAfter(check: (Snapshot, Step) -> StepCheck, s0: Snapshot, steps: seq<Step>, n: nat): Snapshot
    requires n <= |steps|
  {
    if n == 0 then s0 else check(StateAfter(check, s0, steps, n - 1), steps[n - 1]).state
  }

  /** The check of every step, each made on the state the earlier steps left. */
  function ChecksAlong(check: (Snapshot, Step) -> StepCheck, s0: Snapshot, steps: seq<Step>): seq<StepCheck> {
    seq(|steps|, j requires 0 <= j < |steps| => check(StateAfter(check, s0, steps, j), steps[j]))
  }

  /** Two steps with the same action and picks do the same thing. */
  lemma SameActionSameOutcome(s: Snapshot, a: Step, b: Step)
    requires a.actionTaken == b.actionTaken && a.nondetPicks == b.nondetPicks
    ensures ActualOutcome(s, a) == ActualOutcome(s, b)
    ensures CheckStep(s, a).state == CheckStep(s, b).state
  {
    assert StepDispatch(a) == StepDispatch(b);
  }

  /** The actual state depends on the steps' actions and picks only, never on
      their expected snapshots or errors. */
  lemma {:induction false} ActualStateIgnoresExpectations(s0: Snapshot, steps: seq<Step>, other: seq<Step>, n: nat)
    requires n <= |steps| == |other|
    requires forall j :: 0 <= j < |steps| ==>
      steps[j].actionTaken == other[j].actionTaken && steps[j].nondetPicks == other[j].nondetPicks
    ensures StateAfter(CheckStep, s0, steps, n) == StateAfter(CheckStep, s0, other, n)
  {
    if n > 0 {
      ActualStateIgnoresExpectations(s0, steps, other, n - 1);
      SameActionSameOutcome(StateAfter(CheckStep, s0, steps, n - 1), steps[n - 1], other[n - 1]);
    }
  }

  /** How a trace ends: every step's error matched, or the index of the step
      whose error did not. Both carry the success count, which runs on across
      traces. */
  datatype TraceResult = Passed(successes: int) | Failed(step: nat, successes: int)

  /** The step loop from step `i` on, over checks already made: a matching
      state adds a success, a mismatching error stops the loop. */
  function ReplayFrom(checks: seq<StepCheck>, i: nat, successes: int): TraceResult
    requires i <= |checks|
    decreases |checks| - i
  {
    if i == |checks| then Passed(successes)
    else
      var counted := if checks[i].stateMatches then successes + 1 else successes;
      if checks[i].errorMatches then ReplayFrom(checks, i + 1, counted)
      else Failed(i, counted)
  }

  /** The step loop from step `i` on, run on the actual state `s`: each step
      checked on the state the previous one left. */
  function Replay(check: (Snapshot, Step) -> StepCheck, s: Snapshot, steps: seq<Step>, i: nat, successes: int): TraceResult
    requires i <= |steps|
    decreases |steps| - i
  {
    if i == |steps| then Passed(successes)
    else
      var c := check(s, steps[i]);
      var counted := if c.stateMatches then successes + 1 else successes;
      if c.errorMatches then Replay(check, c.state, steps, i + 1, counted)
      else Failed(i, counted)
  }

  /** Running the loop on the actual state is running it over the checks
      made along the steps. */
  lemma {:induction false} ReplayFollowsChecks(check: (Snapshot, Step) -> StepCheck, s0: Snapshot, steps: seq<Step>, i: nat, successes: int)
    requires i <= |steps|
    ensures Replay(check, StateAfter(check, s0, steps, i), steps, i, successes) ==
      ReplayFrom(ChecksAlong(check, s0, steps), i, successes)
    decreases |steps| - i
  {
    if i < |steps| {
      var c := ChecksAlong(check, s0, steps)[i];
      ReplayFollowsChecks(check, s0, steps, i + 1, if c.stateMatches then successes + 1 else successes);
    }
  }

  /** The number of the first `n` checks whose state matched. */
  function StateMatches(checks: seq<StepCheck>, n: nat): (k: int)
    requires n <= |checks|
    ensures 0 <= k <= n
  {
    if n == 0 then 0
    else StateMatches(checks, n - 1) + if checks[n - 1].stateMatches then 1 else 0
  }

  lemma {:induction false} ReplayFromCharacterized(checks: seq<StepCheck>, i: nat, c: int)
    requires i <= |checks|
    requires forall j :: 0 <= j < i ==> checks[j].errorMatches
    ensures var r := ReplayFrom(checks, i, c + StateMatches(checks, i));
      && (r.Passed? <==> forall j :: 0 <= j < |checks| ==> checks[j].errorMatches)
      && (r.Passed? ==> r.successes == c + StateMatches(checks, |checks|))
      && (r.Failed? ==>
            && i <= r.step < |checks|
            && !checks[r.step].errorMatches
            && (forall j :: 0 <= j < r.step ==> checks[j].errorMatches)
            && r.successes == c + StateMatches(checks, r.step + 1))
    decreases |checks| - i
  {
    if i < |checks| && checks[i].errorMatches {
      ReplayFromCharacterized(checks, i + 1, c);
    }
  }

  /** The step loop of one trace passes exactly when every step's error
      matches, having added one success per matching state; otherwise it fails
      at the first step whose error does not match, and not before. A state
      mismatch never stops it. */
  lemma ReplayCharacterized(checks: seq<StepCheck>, c: int)
    ensures var r := ReplayFrom(checks, 0, c);
      && (r.Passed? <==> forall j :: 0 <= j < |checks| ==> checks[j].errorMatches)
      && (r.Passed? ==> r.successes == c + StateMatches(checks, |checks|))
      && (r.Failed? ==>
            && r.step < |checks|
            && !checks[r.step].errorMatches
            && (forall j :: 0 <= j < r.step ==> checks[j].errorMatches)
            && r.successes == c + StateMatches(checks, r.step + 1))
  {
    ReplayFromCharacterized(checks, 0, c);
  }

  // ---------------------------------------------------------------------------
  // The whole run

  /** How `main` ends: after all traces, with status 0 and both counts printed;
      at an error mismatch, with status 1; or when a trace has no states at
      all, which makes decoding `states[0]` throw. */
  datatype Report =
    | Finished(successCount: int, errorCount: int)
    | Mismatch(trace: nat, step: nat, successCount: int, errorCount: int)
    | Aborted(trace: nat)

  /** The checks of a non-empty trace's steps, from its first snapshot. */
  function TraceChecks(trace: TraceDoc): seq<StepCheck>
    requires |trace.states| > 0
  {
    ChecksAlong(CheckStep, InitialState(trace), trace.states)
  }

  /** Step `j` of a trace is checked on the state its first `j` actions
      produced from the first snapshot: its state matches exactly when the
      state after its own action is the decoded snapshot recorded with it,
      and its error matches exactly when that action's error is the expected
      one. */
  lemma TraceChecksMeaning(trace: TraceDoc, j: nat)
    requires j < |trace.states|
    ensures var s := StateAfter(CheckStep, InitialState(trace), trace.states, j);
      var o := ActualOutcome(s, trace.states[j]);
      && TraceChecks(trace)[j].state == o.state
      && o.state == StateAfter(CheckStep, InitialState(trace), trace.states, j + 1)
      && (TraceChecks(trace)[j].stateMatches <==> o.state == DecodeState(trace.states[j].bankState))
      && (TraceChecks(trace)[j].errorMatches <==> o.error == ExpectedError(trace.states[j].error))
  {
    var s := StateAfter(CheckStep, InitialState(trace), trace.states, j);
    CheckStepMeaning(s, trace.states[j]);
  }

  /** What the trace loop needs of one trace: the checks of its steps, or
      that it has no states to decode. */
  datatype TraceDigest = NoStates | Checked(checks: seq<StepCheck>)

  function Digest(trace: TraceDoc): TraceDigest {
    if |trace.states| == 0 then NoStates else Checked(TraceChecks(trace))
  }

  function Digests(traces: seq<TraceDoc>): seq<TraceDigest> {
    seq(|traces|, t requires 0 <= t < |traces| => Digest(traces[t]))
  }

  /** What follows trace `t` once its step loop has produced `r`. */
  function AfterTrace(ds: seq<TraceDigest>, t: nat, r: TraceResult): Report
    requires t < |ds|
    decreases |ds| - t, 0
  {
    match r
    case Passed(n) => RunFrom(ds, t + 1, n)
    case Failed(k, n) => Mismatch(t, k, n, 1)
  }

  /** The trace loop from trace `t` on; the error count is 0 throughout, since
      the first error mismatch ends the run. */
  function RunFrom(ds: seq<TraceDigest>, t: nat, successes: int): Report
    requires t <= |ds|
    decreases |ds| - t, 1
  {
    if t == |ds| then Finished(successes, 0)
    else
      match ds[t]
      case NoStates => Aborted(t)
      case Checked(checks) => AfterTrace(ds, t, ReplayFrom(checks, 0, successes))
  }

  function Run(traces: seq<TraceDoc>): Report {
    RunFrom(Digests(traces), 0, 0)
  }

  /** A trace that has states and whose every step's error matches. */
  predicate Passes(d: TraceDigest) {
    d.Checked? && forall j :: 0 <= j < |d.checks| ==> d.checks[j].errorMatches
  }

  function StepCount(ds: seq<TraceDigest>): nat {
    if ds == [] then 0
    else (if ds[0].Checked? then |ds[0].checks| else 0) + StepCount(ds[1..])
  }

  lemma {:induction false} RunFromCharacterized(ds: seq<TraceDigest>, t: nat, c: int)
    requires t <= |ds|
    ensures var r := RunFrom(ds, t, c);
      && (r.Finished? <==> forall u :: t <= u < |ds| ==> Passes(ds[u]))
      && (r.Finished? ==> r.errorCount == 0 && c <= r.successCount <= c + StepCount(ds[t..]))
      && (r.Mismatch? ==>
            && t <= r.trace < |ds|
            && (forall u :: t <= u < r.trace ==> Passes(ds[u]))
            && ds[r.trace].Checked?
            && r.step < |ds[r.trace].checks|
            && !ds[r.trace].checks[r.step].errorMatches
            && (forall j :: 0 <= j < r.step ==> ds[r.trace].checks[j].errorMatches)
            && r.errorCount == 1)
      && (r.Aborted? ==>
            && t <= r.trace < |ds|
            && (forall u :: t <= u < r.trace ==> Passes(ds[u]))
            && ds[r.trace].NoStates?)
    decreases |ds| - t
  {
    if t < |ds| {
      assert ds[t..][1..] == ds[t + 1..];
      if ds[t].Checked? {
        var checks := ds[t].checks;
        ReplayCharacterized(checks, c);
        var r := ReplayFrom(checks, 0, c);
        if r.Passed? {
          RunFromCharacterized(ds, t + 1, r.successes);
        }
      }
    }
  }

  /** A trace passes when it has states and every step's error matches;
      the states it reaches never enter into this. */
  predicate TracePasses(trace: TraceDoc) {
    Passes(Digest(trace))
  }

  /** The total number of steps of the traces. */
  function TotalSteps(traces: seq<TraceDoc>): nat {
    StepCount(Digests(traces))
  }

  /** The run ends normally exactly when every trace passes; the final report
      then has error count 0 and a success count no larger than the number of
      steps replayed. A mismatch report names the first trace that did not
      pass and, in it, the first step whose error did not match, with error
      count 1. An aborted run names the first trace without states. */
  lemma RunCharacterized(traces: seq<TraceDoc>)
    ensures var r := Run(traces);
      && (r.Finished? <==> forall u :: 0 <= u < |traces| ==> TracePasses(traces[u]))
      && (r.Finished? ==> r.errorCount == 0 && 0 <= r.successCount <= TotalSteps(traces))
      && (r.Mismatch? ==>
            && r.trace < |traces|
            && (forall u :: 0 <= u < r.trace ==> TracePasses(traces[u]))
            && |traces[r.trace].states| > 0
            && r.step < |traces[r.trace].states|
            && !TraceChecks(traces[r.trace])[r.step].errorMatches
            && (forall j :: 0 <= j < r.step ==> TraceChecks(traces[r.trace])[j].errorMatches)
            && r.errorCount == 1)
      && (r.Aborted? ==>
            && r.trace < |traces|
            && (forall u :: 0 <= u < r.trace ==> TracePasses(traces[u]))
            && |traces[r.trace].states| == 0)
  {
    var ds := Digests(traces);
    assert forall u :: 0 <= u < |traces| ==> ds[u] == Digest(traces[u]);
    RunFromCharacterized(ds, 0, 0);
    assert ds[0..] == ds;
  }

  // ---------------------------------------------------------------------------
  // The program

  /** The `switch` of `main`'s step loop: the action the step's tag names,
      with the arguments read from its picks, performed on `bank`. */
  method PerformStep(bank: Bank.BankState, step: Step) returns (error: string)
    modifies bank
    ensures Outcome(bank.Snap(), error) == ActualOutcome(old(bank.Snap()), step)
  {
    var p := step.nondetPicks;
    error := NoError;
    match StringToAction(step.actionTaken)
    case Init =>
    case Deposit =>
      error := bank.Deposit(p.depositor, p.amount);
    case Withdraw =>
      error := bank.Withdraw(p.withdrawer, p.amount);
    case Transfer =>
      error := bank.Transfer(p.sender, p.receiver, p.amount);
    case BuyInvestment =>
      error := bank.BuyInvestment(p.buyer, p.amount);
    case SellInvestment =>
      error := bank.SellInvestment(p.seller, p.id);
    case Unknown =>
      error := NoError;
  }

  /** One turn of `main`'s step loop before the counters: the action on
      `bank`, then the decoding of the expected state and error and the two
      comparisons. */
  method CheckStepOn(bank: Bank.BankState, step: Step) returns (stateMatches: bool, errorMatches: bool)
    modifies bank
    ensures StepCheck(bank.Snap(), stateMatches, errorMatches) == CheckStep(old(bank.Snap()), step)
  {
    var error := PerformStep(bank, step);
    var expected := BankStateFromJson(step.bankState);
    var expectedError := ExpectedError(step.error);
    stateMatches := CompareBankState(bank.Snap(), expected);
    errorMatches := error == expectedError;
  }

  /** The step loop of `main` for one non-empty trace: a fresh BankState
      from the decoded first snapshot, then each step's action and its two
      comparisons, stopping at the first error mismatch. */
  method ReplayTrace(trace: TraceDoc, successes: int) returns (r: TraceResult)
    requires |trace.states| > 0
    ensures r == Replay(CheckStep, InitialState(trace), trace.states, 0, successes)
  {
    var steps := trace.states;
    var initial := BankStateFromJson(steps[0].bankState);
    var bank := new Bank.BankState(initial);
    var successCount := successes;
    var i := 0;
    while i < |steps|
      invariant 0 <= i <= |steps|
      invariant Replay(CheckStep, bank.Snap(), steps, i, successCount) == Replay(CheckStep, initial, steps, 0, successes)
    {
      var stateMatches, errorMatches := CheckStepOn(bank, steps[i]);
      if stateMatches {
        successCount := successCount + 1;
      }
      if !errorMatches {
        return Failed(i, successCount);
      }
      i := i + 1;
    }
    return Passed(successCount);
  }

  /** The trace loop of `main` over the given traces, with its two counters:
      an error mismatch increments the error count and ends the run at once. */
  method Conformance(traces: seq<TraceDoc>) returns (report: Report)
    ensures report == Run(traces)
    ensures report.Finished? ==> report.errorCount == 0 && 0 <= report.successCount <= TotalSteps(traces)
    ensures report.Mismatch? ==> report.errorCount == 1
  {
    RunCharacterized(traces);
    var successCount := 0;
    var errorCount := 0;
    var t := 0;
    ghost var ds := Digests(traces);
    while t < |traces|
      invariant 0 <= t <= |traces|
      invariant errorCount == 0
      invariant RunFrom(ds, t, successCount) == Run(traces)
    {
      if |traces[t].states| == 0 {
        return Aborted(t);
      }
      assert ds[t] == Checked(TraceChecks(traces[t]));
      ReplayFollowsChecks(CheckStep, InitialState(traces[t]), traces[t].states, 0, successCount);
      var r := ReplayTrace(traces[t], successCount);
      successCount := r.successes;
      if r.Failed? {
        errorCount := errorCount + 1;
        return Mismatch(t, r.step, successCount, errorCount);
      }
      t := t + 1;
    }
    return Finished(successCount, errorCount);
  }
}
