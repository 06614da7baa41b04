# Bank ledger and its trace conformance runner

The system is a small bank ledger written in C++ (`bank/bank.hpp`). Its state
holds a balance per account name, the open investments by id, and the next
investment id (`next_id`). Five operations act on that state in place:
deposit, withdraw, transfer, buy an investment, and sell an investment. Each
returns its error message, with "" meaning success. Every balance is read
through `std::map::operator[]`, which inserts a missing account with balance 0.
So even a refused purchase can add an account.

A conformance runner (`bank/test.cpp`) checks the ledger against traces that
a model checker produced. A trace is a list of steps. Each step holds:

- an action tag;
- the nondeterministic picks (the operation's arguments);
- the expected ledger state, with each map written as a list of
  `[key, value]` pairs;
- the expected error, as a tagged optional.

For each trace, the runner:

1. decodes the first state;
2. replays every step on that state;
3. compares the actual state with the expected one, counting a success on a match;
4. compares the actual error with the expected one, stopping the whole run with
   status 1 at the first mismatch.

The project has four modules:

- **`Ledger`** (`ledger.dfy`) gives the five operations as functions on
  values. Each has a contract that lists its error cases and fixes its whole
  new state. The module also proves properties of runs of operations.
- **`Bank`** (`bank.dfy`) holds the program's `BankState` as a class with
  three fields. Each method updates those fields in place and is proved to
  perform exactly the `Ledger` transition.
- **`Trace`** (`trace.dfy`) holds the step documents as already parsed from
  JSON. It also has:
  - the action-tag lookup;
  - the pair-list decoders, as a loop proved against a fold in which the
    last pair wins;
  - the state comparison.
- **`Runner`** (`runner.dfy`) specifies one step, one trace and the whole
  run as functions, and characterises their outcome. It also holds the
  imperative loops of `main`, proved to compute those functions.

Integers are mathematical integers, and strings are `seq<char>`.

Where the program and its written description disagree, the model follows the
program:

- A tag that names no action (`Unknown`) runs no operation, just as `q::init`
  does, and reports error "". The step is still compared and counted like any
  other.
- A state mismatch only withholds the success increment. It never stops the
  run.
- Only an error mismatch ends the run. It ends the whole run with error count
  1, not just the trace.

## Model

| member | source | states |
|---|---|---|
| Ledger.InvestmentEquals | bank/bank.hpp:9-11 | the member-wise comparison holds exactly when the two investment records are equal |
| Ledger.Deposit | bank/bank.hpp:21-27 | a non-positive amount is refused with "Amount should be greater than zero" and leaves the state unchanged; otherwise the depositor's balance (0 if absent, key then inserted) grows by the amount, every other balance, the investments and `next_id` are unchanged, error "" |
| Ledger.Withdraw | bank/bank.hpp:29-32 | never fails, not even on a non-positive amount or an overdraft; the withdrawer's balance (inserted with 0 if absent) drops by the amount, nothing else changes |
| Ledger.Transfer | bank/bank.hpp:34-39 | never fails; both keys end up present; for distinct accounts the sender loses and the receiver gains the amount; a self-transfer keeps the value; every other balance, the investments and `next_id` are unchanged |
| Ledger.BuyInvestment | bank/bank.hpp:41-52 | amount checked first (state unchanged), then balance: "Balance is too low" still inserts a missing buyer with 0; on success the buyer's balance drops by the amount, investment `next_id` is created for the buyer with that amount, `next_id` grows by one, nothing else changes |
| Ledger.SellInvestment | bank/bank.hpp:54-66 | an unknown id, then a seller who is not the owner, is refused with its message and the state unchanged; on success the seller's balance grows by the investment's amount, exactly that id is removed, other investments and `next_id` unchanged |
| Ledger.ApplyKeepsIdsBelowNext | bank/bank.hpp:41-66 | every operation keeps all investment ids below `next_id`, and only a successful purchase changes `next_id`, by exactly one |
| Ledger.RunAssignsFreshIncreasingIds | bank/bank.hpp:49-50 | over any sequence of operations the id invariant is kept, `next_id` never decreases, and the ids handed out are strictly increasing, lie between the first and last `next_id`, and were not in use at the start: an id is never reused, even after its sale |
| Ledger.BuyThenSellRoundTrip | bank/bank.hpp:41-66 | selling the investment a successful purchase just created succeeds and restores the balances and investments exactly; only `next_id` has advanced |
| Ledger.AliceScenario | bank/bank.hpp:21-66 | deposit 100, buy 60, a refused sale by a non-owner, then the owner's sale give the stated states and messages |
| Bank.BankState.constructor | bank/test.cpp:112 | the state object starts with the contents of the decoded first snapshot |
| Bank.BankState.Deposit | bank/bank.hpp:21-27 | the in-place update produces exactly the state and error of `Ledger.Deposit` |
| Bank.BankState.Withdraw | bank/bank.hpp:29-32 | the in-place update produces exactly the state and error of `Ledger.Withdraw` |
| Bank.BankState.Transfer | bank/bank.hpp:34-39 | the two in-place updates produce exactly the state and error of `Ledger.Transfer` |
| Bank.BankState.BuyInvestment | bank/bank.hpp:41-52 | the in-place updates, including the insertion made by the balance check, produce exactly the state and error of `Ledger.BuyInvestment` |
| Bank.BankState.SellInvestment | bank/bank.hpp:54-66 | the in-place updates produce exactly the state and error of `Ledger.SellInvestment` |
| Trace.StringToAction | bank/test.cpp:55-70 | each of the six tags maps to its action, and a tag maps to `Unknown` exactly when it is none of them |
| Trace.FromPairsKeys | bank/test.cpp:77-92 | the decoded map's keys are exactly the keys that occur in the pair list |
| Trace.FromPairsLastWins | bank/test.cpp:77-92 | a key is bound to the value of its last pair in the list |
| Trace.MapFromPairs | bank/test.cpp:77-92 | the assigning loop over the pair list builds exactly the fold of the pairs in order |
| Trace.BankStateFromJson | bank/test.cpp:94-100 | the decoded state is the two decoded maps (keys exactly those listed) and the recorded `next_id` |
| Trace.InvestmentsEqual | bank/test.cpp:45-47 | map comparison by keys and `Investment::operator==` holds exactly when the two maps are equal |
| Trace.CompareBankState | bank/test.cpp:40-53 | true exactly when balances, investments and `next_id` are all equal, that is when the two states are equal |
| Runner.CheckStepMeaning | bank/test.cpp:171-182 | a step's state check is equality with the decoded expected snapshot; its error check compares with the carried value when the tag is "Some" and with "" otherwise |
| Runner.NoOperationStepsAreStillCompared | bank/test.cpp:121-125 | an init step or an unrecognised tag keeps the state, reports error "" and is still compared with the expected state and error |
| Runner.SameActionSameOutcome | bank/test.cpp:116-170 | what a step does to the ledger depends only on its action tag and its picks |
| Runner.ActualStateIgnoresExpectations | bank/test.cpp:112-170 | the actual state after any number of steps never depends on the steps' expected snapshots or errors |
| Runner.ReplayFollowsChecks | bank/test.cpp:114-199 | running the step loop on the actual state gives the same result as running it over the checks made along the trace |
| Runner.ReplayCharacterized | bank/test.cpp:178-192 | a trace passes exactly when every step's error matches, having added one success per matching state; otherwise it stops at the first error mismatch, with the successes of the steps up to and including it |
| Runner.TraceChecksMeaning | bank/test.cpp:112-182 | step `j` of a trace is checked on the state its first `j` actions produced from the first snapshot; its state and error checks hold exactly when the actual state and error are the recorded ones |
| Runner.RunCharacterized | bank/test.cpp:102-207 | the run finishes exactly when every trace passes, with error count 0 and no more successes than steps; a mismatch names the first failing trace and its first error mismatch with error count 1; an abort names the first trace without states |
| Runner.PerformStep | bank/test.cpp:121-170 | the action switch does to the state object exactly what the step's dispatched operation does, with the same error |
| Runner.CheckStepOn | bank/test.cpp:121-182 | one turn of the step loop leaves the state and gives the two comparison results that the step's check defines |
| Runner.ReplayTrace | bank/test.cpp:112-199 | the step loop for one trace, on a fresh state object started from the decoded first snapshot, returns exactly the result of the specified replay |
| Runner.Conformance | bank/test.cpp:102-207 | the trace loop with its counters returns exactly the specified run's report; a normal end has error count 0 and a success count between 0 and the number of steps; a mismatch has error count 1 |

## Left out

- Reading the trace files `traces/out<i>.itf.json` is left out. So is the
  fixed bound of 10000 traces. The runner takes the traces as a sequence. A
  missing or malformed file is not modelled.
- The JSON library is left out. The documents are modelled as already parsed:
  a map as its list of pairs, and every `#bigint` already converted to an
  integer. `int_from_json`'s `stoi` is not modelled, nor is its failure on a
  non-numeric or out-of-range string.
- A step that lacks a pick its action reads, or lacks any field that is read,
  makes the library throw. This is not modelled. Every step carries all its
  picks.
- A trace with no states is modelled as the run aborting (`Report.Aborted`).
  In the program, `states[0]` is then null, and reading `next_id` from it
  throws. No message or exit status is modelled for this case.
- Console output is left out. This covers `mostraBanco`, the per-step
  messages and `acao`, which is only printed. The final counts are in the
  report instead.
- 32-bit `int` arithmetic is left out. Balances, amounts, `next_id` and the
  counters are unbounded integers, so no operation or counter models C++
  overflow.
