/** What the conformance runner reads from one trace step: the documents as
    already parsed from JSON, the translation of an action tag to an action,
    the decoders from pair lists to maps, and the comparison of two ledger
    states. Integers arrive already parsed from their decimal strings. */
module Trace {
  import opened Ledger

  /** A ledger snapshot as the trace writes it: each map as its list of
      `[key, value]` pairs, in document order. */
  datatype StateDoc = StateDoc(
    balances: seq<(string, int)>,
    investments: seq<(int, Investment)>,
    nextId: int)

  /** The step's expected error, a tagged optional: tag "Some" carries a value. */
  datatype ErrorDoc = ErrorDoc(tag: string, value: string)

  /** The step's nondeterministic picks, one field per parameter name that a
      ledger action reads. */
  datatype Picks = Picks(
    depositor: string, withdrawer: string, sender: string, receiver: string,
    buyer: string, seller: string, amount: int, id: int)

  datatype Step = Step(actionTaken: string, nondetPicks: Picks, bankState: StateDoc, error: ErrorDoc)

  datatype TraceDoc = TraceDoc(states: seq<Step>)

  // ---------------------------------------------------------------------------
  // Action tags

  datatype Action = Init | Deposit | Withdraw | Transfer | BuyInvestment | SellInvestment | Unknown

  /** The lookup table from action tags to actions. */
  const ActionMap: map<string, Action> := map[
    "q::init" := Init,
    "deposit_action" := Deposit,
    "withdraw_action" := Withdraw,
    "transfer_action" := Transfer,
    "buy_investment_action" := BuyInvestment,
    "sell_investment_action" := SellInvestment]

  function StringToAction(tag: string): (a: Action)
    ensures a == Init <==> tag == "q::init"
    ensures a == Deposit <==> tag == "deposit_action"
    ensures a == Withdraw <==> tag == "withdraw_action"
    ensures a == Transfer <==> tag == "transfer_action"
    ensures a == BuyInvestment <==> tag == "buy_investment_action"
    ensures a == SellInvestment <==> tag == "sell_investment_action"
    ensures a == Unknown <==> tag !in {"q::init", "deposit_action", "withdraw_action",
                                       "transfer_action", "buy_investment_action",
                                       "sell_investment_action"}
  {
    if tag in ActionMap then ActionMap[tag] else Unknown
  }

  // ---------------------------------------------------------------------------
  // Decoders

  /** The map that assigning the pairs of `ps` one after another builds, as
      `m[key] = value` does, starting from the empty map. */
  function FromPairs<K, V>(ps: seq<(K, V)>): map<K, V>
    decreases |ps|
  {
    if ps == [] then map[]
    else FromPairs(ps[..|ps| - 1])[ps[|ps| - 1].0 := ps[|ps| - 1].1]
  }

  /** The keys of the decoded map are exactly the keys the list mentions. */
  lemma {:induction false} FromPairsKeys<K, V>(ps: seq<(K, V)>)
    ensures FromPairs(ps).Keys == set i | 0 <= i < |ps| :: ps[i].0
    decreases |ps|
  {
    if ps != [] {
      var init := ps[..|ps| - 1];
      FromPairsKeys(init);
      assert forall i :: 0 <= i < |init| ==> init[i] == ps[i];
      assert (set i | 0 <= i < |ps| :: ps[i].0) == (set i | 0 <= i < |init| :: init[i].0) + {ps[|ps| - 1].0};
    }
  }

  /** A key holds the value of its last pair in the list. */
  lemma {:induction false} FromPairsLastWins<K, V>(ps: seq<(K, V)>, i: nat)
    requires i < |ps|
    requires forall j :: i < j < |ps| ==> ps[j].0 != ps[i].0
    ensures ps[i].0 in FromPairs(ps) && FromPairs(ps)[ps[i].0] == ps[i].1
    decreases |ps|
  {
    if i < |ps| - 1 {
      var init := ps[..|ps| - 1];
      assert init[i] == ps[i];
      FromPairsLastWins(init, i);
    }
  }

  /** `balances_from_json` and `investments_from_json`: one loop over the
      pair list, assigning each pair into an initially empty map. */
  method MapFromPairs<K, V>(pairs: seq<(K, V)>) returns (m: map<K, V>)
    ensures m == FromPairs(pairs)
  {
    m := map[];
    var i := 0;
    while i < |pairs|
      invariant 0 <= i <= |pairs|
      invariant m == FromPairs(pairs[..i])
    {
      assert pairs[..i + 1][..i] == pairs[..i];
      m := m[pairs[i].0 := pairs[i].1];
      i := i + 1;
    }
    assert pairs[..i] == pairs;
  }

  /** The ledger state a snapshot document describes. */
  function DecodeState(doc: StateDoc): Snapshot {
    Snapshot(FromPairs(doc.balances), FromPairs(doc.investments), doc.nextId)
  }

  /** `bank_state_from_json`: both maps decoded from their pair lists (last
      pair wins), `next_id` as recorded. */
  method BankStateFromJson(doc: StateDoc) returns (s: Snapshot)
    ensures s == DecodeState(doc)
    ensures s.balances.Keys == set i | 0 <= i < |doc.balances| :: doc.balances[i].0
    ensures s.investments.Keys == set i | 0 <= i < |doc.investments| :: doc.investments[i].0
    ensures s.nextId == doc.nextId
  {
    var balances := MapFromPairs(doc.balances);
    var investments := MapFromPairs(doc.investments);
    FromPairsKeys(doc.balances);
    FromPairsKeys(doc.investments);
    s := Snapshot(balances, investments, doc.nextId);
  }

  /** The expected error: the carried value when the tag is "Some", else "". */
  function ExpectedError(e: ErrorDoc): string {
    if e.tag == "Some" then e.value else ""
  }

  // ---------------------------------------------------------------------------
  // State comparison

  /** `!=` on `map<int, Investment>` negated: same keys, and the records under
      each key equal by `Investment::operator==`. */
  function InvestmentsEqual(m1: map<int, Investment>, m2: map<int, Investment>): (r: bool)
    ensures r <==> m1 == m2
  {
    if m1.Keys == m2.Keys && forall k :: k in m1 ==> InvestmentEquals(m1[k], m2[k]) then
      assert forall k :: k in m1 ==> k in m2 && m1[k] == m2[k];
      assert forall k :: k in m2 ==> k in m1;
      true
    else false
  }

  /** `compareBankState`: balances, then investments, then `next_id`; equal
      exactly when the two states are the same value. */
  function CompareBankState(bs1: Snapshot, bs2: Snapshot): (r: bool)
    ensures r <==> bs1 == bs2
    ensures r <==> bs1.balances == bs2.balances && bs1.investments == bs2.investments && bs1.nextId == bs2.nextId
  {
    if bs1.balances != bs2.balances then false
    else if !InvestmentsEqual(bs1.investments, bs2.investments) then false
    else if bs1.nextId != bs2.nextId then false
    else true
  }
}
