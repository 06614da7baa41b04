/** The bank ledger as values: each operation of the ledger maps a state and
    its arguments to the new state and the message it returns ("" is
    success). The class in module Bank performs these transitions in place.

    Every read of a balance goes through std::map::operator[], which inserts a
    missing key with value 0 before it is read or updated; `Get` and `Add`
    below model that, and map equality tells an absent key from a key present
    with balance 0. Integers are unbounded here. */
module Ledger {

  datatype Investment = Investment(owner: string, amount: int)

  /** `Investment::operator==`: equal owners and equal amounts, which is
      exactly equality of the two records. */
  function InvestmentEquals(x: Investment, y: Investment): (r: bool)
    ensures r <==> x == y
  {
    x.owner == y.owner && x.amount == y.amount
  }

  datatype Snapshot = Snapshot(
    balances: map<string, int>,
    investments: map<int, Investment>,
    nextId: int)

  /** The state after an operation and the error message it returned. */
  datatype Outcome = Outcome(state: Snapshot, error: string)

  const NoError: string := ""
  const AmountNotPositive: string := "Amount should be greater than zero"
  const BalanceTooLow: string := "Balance is too low"
  const NoSuchInvestment: string := "No investment with this id"
  const NotOwner: string := "Seller can't sell an investment they don't own"

  /** The value `balances[k]` reads: the stored balance, or 0 for a missing key. */
  function Get(balances: map<string, int>, k: string): int {
    if k in balances then balances[k] else 0
  }

  /** `balances[k] += d`: the key is inserted (with 0) if missing, then incremented. */
  function Add(balances: map<string, int>, k: string, d: int): map<string, int> {
    balances[k := Get(balances, k) + d]
  }

  /** `balances[k] -= d`. */
  function Sub(balances: map<string, int>, k: string, d: int): map<string, int> {
    balances[k := Get(balances, k) - d]
  }

  /** `after` is `before` with key `k` bound to `v` (inserted if it was
      absent) and every other entry as it was. */
  ghost predicate UpdatedAt<K, V>(before: map<K, V>, after: map<K, V>, k: K, v: V) {
    && after.Keys == before.Keys + {k}
    && after[k] == v
    && forall j :: j in before && j != k ==> after[j] == before[j]
  }

  // ---------------------------------------------------------------------------
  // The five operations

  function Deposit(s: Snapshot, depositor: string, amount: int): (r: Outcome)
    ensures amount <= 0 ==> r == Outcome(s, AmountNotPositive)
    ensures amount > 0 ==>
      && r.error == NoError
      && UpdatedAt(s.balances, r.state.balances, depositor, Get(s.balances, depositor) + amount)
      && r.state.investments == s.investments
      && r.state.nextId == s.nextId
  {
    if amount <= 0 then Outcome(s, AmountNotPositive)
    else Outcome(s.(balances := Add(s.balances, depositor, amount)), NoError)
  }

  /** Never fails: neither a non-positive amount nor an overdraft is rejected. */
  function Withdraw(s: Snapshot, withdrawer: string, amount: int): (r: Outcome)
    ensures r.error == NoError
    ensures UpdatedAt(s.balances, r.state.balances, withdrawer, Get(s.balances, withdrawer) - amount)
    ensures r.state.investments == s.investments && r.state.nextId == s.nextId
  {
    Outcome(s.(balances := Sub(s.balances, withdrawer, amount)), NoError)
  }

  /** Never fails. A transfer to oneself keeps the balance's value but still
      inserts the key when it was missing. */
  function Transfer(s: Snapshot, sender: string, receiver: string, amount: int): (r: Outcome)
    ensures r.error == NoError
    ensures r.state.balances.Keys == s.balances.Keys + {sender, receiver}
    ensures sender == receiver ==> r.state.balances[sender] == Get(s.balances, sender)
    ensures sender != receiver ==>
      && r.state.balances[sender] == Get(s.balances, sender) - amount
      && r.state.balances[receiver] == Get(s.balances, receiver) + amount
    ensures forall k :: k in s.balances && k != sender && k != receiver ==>
      r.state.balances[k] == s.balances[k]
    ensures r.state.investments == s.investments && r.state.nextId == s.nextId
  {
    Outcome(s.(balances := Add(Sub(s.balances, sender, amount), receiver, amount)), NoError)
  }

  /** The amount is checked first, then the balance; the balance check reads
      `balances[buyer]` and so inserts a missing buyer with 0 even when the
      purchase is refused. */
  function BuyInvestment(s: Snapshot, buyer: string, amount: int): (r: Outcome)
    ensures amount <= 0 ==> r == Outcome(s, AmountNotPositive)
    ensures amount > 0 && Get(s.balances, buyer) - amount < 0 ==>
      && r.error == BalanceTooLow
      && UpdatedAt(s.balances, r.state.balances, buyer, Get(s.balances, buyer))
      && r.state.investments == s.investments
      && r.state.nextId == s.nextId
    ensures amount > 0 && Get(s.balances, buyer) - amount >= 0 ==>
      && r.error == NoError
      && buyer in s.balances
      && r.state.balances.Keys == s.balances.Keys
      && UpdatedAt(s.balances, r.state.balances, buyer, s.balances[buyer] - amount)
      && UpdatedAt(s.investments, r.state.investments, s.nextId, Investment(buyer, amount))
      && r.state.nextId == s.nextId + 1
  {
    if amount <= 0 then Outcome(s, AmountNotPositive)
    else
      var touched := s.balances[buyer := Get(s.balances, buyer)];
      if Get(s.balances, buyer) - amount < 0 then
        Outcome(s.(balances := touched), BalanceTooLow)
      else
        Outcome(Snapshot(Sub(touched, buyer, amount),
                         s.investments[s.nextId := Investment(buyer, amount)],
                         s.nextId + 1),
                NoError)
  }

  /** Existence is checked before ownership; both failures leave the state as it was. */
  function SellInvestment(s: Snapshot, seller: string, id: int): (r: Outcome)
    ensures id !in s.investments ==> r == Outcome(s, NoSuchInvestment)
    ensures id in s.investments && s.investments[id].owner != seller ==> r == Outcome(s, NotOwner)
    ensures id in s.investments && s.investments[id].owner == seller ==>
      && r.error == NoError
      && UpdatedAt(s.balances, r.state.balances, seller, Get(s.balances, seller) + s.investments[id].amount)
      && r.state.investments.Keys == s.investments.Keys - {id}
      && (forall k :: k in r.state.investments ==> r.state.investments[k] == s.investments[k])
      && r.state.nextId == s.nextId
  {
    if id !in s.investments then Outcome(s, NoSuchInvestment)
    else if s.investments[id].owner != seller then Outcome(s, NotOwner)
    else
      Outcome(Snapshot(Add(s.balances, seller, s.investments[id].amount),
                       s.investments - {id},
                       s.nextId),
              NoError)
  }

  // ---------------------------------------------------------------------------
  // All five as one transition, for statements about runs of operations

  datatype Operation =
    | DepositOp(depositor: string, amount: int)
    | WithdrawOp(withdrawer: string, amount: int)
    | TransferOp(sender: string, receiver: string, amount: int)
    | BuyInvestmentOp(buyer: string, amount: int)
    | SellInvestmentOp(seller: string, id: int)

  function Apply(s: Snapshot, op: Operation): Outcome {
    match op
    case DepositOp(who, n) => Deposit(s, who, n)
    case WithdrawOp(who, n) => Withdraw(s, who, n)
    case TransferOp(from, to, n) => Transfer(s, from, to, n)
    case BuyInvestmentOp(who, n) => BuyInvestment(s, who, n)
    case SellInvestmentOp(who, id) => SellInvestment(s, who, id)
  }

  /** The id invariant of the ledger: `next_id` lies above every id in use. */
  ghost predicate IdsBelowNext(s: Snapshot) {
    forall k :: k in s.investments ==> k < s.nextId
  }

  /** Each operation keeps the id invariant and never lowers `next_id`; only
      a successful purchase moves it, by exactly one. */
  lemma ApplyKeepsIdsBelowNext(s: Snapshot, op: Operation)
    requires IdsBelowNext(s)
    ensures IdsBelowNext(Apply(s, op).state)
    ensures Apply(s, op).state.nextId ==
      if op.BuyInvestmentOp? && Apply(s, op).error == NoError then s.nextId + 1 else s.nextId
  {
  }

  /** The state after running `ops` in order from `s`. */
  function ApplyAll(s: Snapshot, ops: seq<Operation>): Snapshot
    decreases |ops|
  {
    if ops == [] then s else ApplyAll(Apply(s, ops[0]).state, ops[1..])
  }

  /** The ids handed out, in order, by the successful purchases among `ops`. */
  function AssignedIds(s: Snapshot, ops: seq<Operation>): seq<int>
    decreases |ops|
  {
    if ops == [] then []
    else
      var o := Apply(s, ops[0]);
      var rest := AssignedIds(o.state, ops[1..]);
      if ops[0].BuyInvestmentOp? && o.error == NoError then [s.nextId] + rest else rest
  }

  /** Over any run, the id invariant holds throughout, the assigned ids are
      strictly increasing, none was in use when the run began, and all lie
      between the starting and the final `next_id`: an id is never reused,
      even after the investment holding it has been sold. */
  lemma {:induction false} RunAssignsFreshIncreasingIds(s: Snapshot, ops: seq<Operation>)
    requires IdsBelowNext(s)
    ensures IdsBelowNext(ApplyAll(s, ops))
    ensures s.nextId <= ApplyAll(s, ops).nextId
    ensures forall i :: 0 <= i < |AssignedIds(s, ops)| ==>
      s.nextId <= AssignedIds(s, ops)[i] < ApplyAll(s, ops).nextId && AssignedIds(s, ops)[i] !in s.investments
    ensures forall i, j :: 0 <= i < j < |AssignedIds(s, ops)| ==>
      AssignedIds(s, ops)[i] < AssignedIds(s, ops)[j]
    decreases |ops|
  {
    if ops != [] {
      var o := Apply(s, ops[0]);
      ApplyKeepsIdsBelowNext(s, ops[0]);
      RunAssignsFreshIncreasingIds(o.state, ops[1..]);
    }
  }

  /** A successful purchase followed by the sale of the investment it created
      returns the balances and the investments to what they were; only
      `next_id` has moved on, by one. */
  lemma BuyThenSellRoundTrip(s: Snapshot, a: string, n: int)
    requires IdsBelowNext(s)
    requires BuyInvestment(s, a, n).error == NoError
    ensures SellInvestment(BuyInvestment(s, a, n).state, a, s.nextId).error == NoError
    ensures SellInvestment(BuyInvestment(s, a, n).state, a, s.nextId).state ==
      Snapshot(s.balances, s.investments, s.nextId + 1)
  {
    var b := BuyInvestment(s, a, n).state;
    var r := SellInvestment(b, a, s.nextId).state;
    assert s.nextId !in s.investments;
    assert r.balances == s.balances;
    assert r.investments == s.investments;
  }

  /** The worked scenario: deposit 100 for alice, buy 60, a refused sale by
      bob, then alice's sale. */
  lemma AliceScenario()
    ensures
      var s0 := Snapshot(map[], map[], 0);
      var d := Deposit(s0, "alice", 100);
      var b := BuyInvestment(d.state, "alice", 60);
      var bad := SellInvestment(b.state, "bob", 0);
      var ok := SellInvestment(bad.state, "alice", 0);
      && d == Outcome(Snapshot(map["alice" := 100], map[], 0), NoError)
      && b == Outcome(Snapshot(map["alice" := 40], map[0 := Investment("alice", 60)], 1), NoError)
      && bad == Outcome(b.state, NotOwner)
      && ok == Outcome(Snapshot(map["alice" := 100], map[], 1), NoError)
  {
  }
}
