/** The ledger state as the program holds it: one object whose three fields
    the operations update in place. Each method returns the operation's error
    message ("" is success) and is proved to perform exactly the transition
    that module Ledger defines. */
module Bank {
  import opened Ledger

  class BankState {
    var balances: map<string, int>
    var investments: map<int, Investment>
    var nextId: int

    /** The value of the three fields. */
    function Snap(): Snapshot
      reads this
    {
      Snapshot(balances, investments, nextId)
    }

    /** A state with the given contents, as a decoded trace snapshot gives it. */
    constructor (s: Snapshot)
      ensures Snap() == s
    {
      balances := s.balances;
      investments := s.investments;
      nextId := s.nextId;
    }

    method Deposit(depositor: string, amount: int) returns (error: string)
      modifies this
      ensures Outcome(Snap(), error) == Ledger.Deposit(old(Snap()), depositor, amount)
    {
      if amount <= 0 {
        return AmountNotPositive;
      }
      balances := balances[depositor := Get(balances, depositor) + amount];
      return NoError;
    }

    method Withdraw(withdrawer: string, amount: int) returns (error: string)
      modifies this
      ensures Outcome(Snap(), error) == Ledger.Withdraw(old(Snap()), withdrawer, amount)
    {
      balances := balances[withdrawer := Get(balances, withdrawer) - amount];
      return NoError;
    }

    method Transfer(sender: string, receiver: string, amount: int) returns (error: string)
      modifies this
      ensures Outcome(Snap(), error) == Ledger.Transfer(old(Snap()), sender, receiver, amount)
    {
      balances := balances[sender := Get(balances, sender) - amount];
      balances := balances[receiver := Get(balances, receiver) + amount];
      return NoError;
    }

    method BuyInvestment(buyer: string, amount: int) returns (error: string)
      modifies this
      ensures Outcome(Snap(), error) == Ledger.BuyInvestment(old(Snap()), buyer, amount)
    {
      if amount <= 0 {
        return AmountNotPositive;
      }
      var current := Get(balances, buyer);
      balances := balances[buyer := current];
      if current - amount < 0 {
        return BalanceTooLow;
      }
      balances := balances[buyer := balances[buyer] - amount];
      investments := investments[nextId := Investment(buyer, amount)];
      nextId := nextId + 1;
      return NoError;
    }

    method SellInvestment(seller: string, id: int) returns (error: string)
      modifies this
      ensures Outcome(Snap(), error) == Ledger.SellInvestment(old(Snap()), seller, id)
    {
      if id !in investments {
        return NoSuchInvestment;
      }
      if investments[id].owner != seller {
        return NotOwner;
      }
      balances := balances[seller := Get(balances, seller) + investments[id].amount];
      investments := investments - {id};
      return NoError;
    }
  }
}
