/** The two gateway contracts at work: users call them, and relayers carry their messages
    across. Every call is a step of the bridge machine, so what is proved of its histories
    holds of the contracts. */
module Relays {
  import opened Wrappers
  import opened Ledger
  import opened Gateways
  import opened Bridge

  class TwoChains {
    const l1: L1Gateway
    const l2: L2Gateway
    var tickets: map<nat, Ticket>
    var sequence: nat
    var exits: map<nat, Exit>
    ghost var books: Books

    constructor (self: Account, ledger: Balances, allowance: Balances, owner: Account)
      ensures fresh(l1) && fresh(l2)
      ensures State() == World(L1State(self, ledger, allowance, map[], owner, false, 0, 0),
                               L2State(map[], 0, owner, false), map[], 0, map[], Books(0, 0, 0, 0, 0))
      ensures Get(ledger, self) == 0 ==> Fresh(State())
    {
      l1 := new L1Gateway(self, ledger, allowance, owner);
      l2 := new L2Gateway(owner);
      tickets, sequence, exits, books := map[], 0, map[], Books(0, 0, 0, 0, 0);
    }

    ghost function State(): World
      reads this, l1, l2
    {
      World(l1.State(), l2.State(), tickets, sequence, exits, books)
    }

    method Deposit(from: Account, to: Account, amount: nat, received: nat, extraData: bool)
      returns (id: Option<nat>)
      modifies this, l1
      ensures State() == Next(old(State()), Step.Deposit(from, to, amount, received, extraData))
      ensures id.Some? ==> id.value == old(sequence) && id.value in tickets
      ensures id.None? ==> State() == old(State())
    {
      var ticket := l1.OutboundTransfer(from, to, amount, received, extraData);
      if ticket.None? {
        return None;
      }
      id := Some(sequence);
      tickets := tickets[sequence := ticket.value];
      sequence := sequence + 1;
      books := books.(taken := books.taken + ticket.value.amount);
    }

    /** `processL1ToL2Tx`, for one ticket. */
    method ProcessL1ToL2(id: nat, tokenReady: bool) returns (ok: bool)
      modifies this, l2
      ensures State() == Next(old(State()), RelayDeposit(id, tokenReady))
      ensures ok == (id in old(tickets)) && id !in tickets
    {
      ok := id in tickets;
      if ok {
        var exitNum := l2.exitNum;
        var exit := l2.FinalizeInboundTransfer(tickets[id], tokenReady);
        tickets := tickets - {id};
        if exit.Some? {
          exits := exits[exitNum := exit.value];
        }
      }
    }

    method Withdraw(from: Account, to: Account, amount: nat, tokenReady: bool, extraData: bool)
      returns (exitNum: Option<nat>)
      modifies this, l2
      ensures State() == Next(old(State()), Step.Withdraw(from, to, amount, tokenReady, extraData))
      ensures exitNum.Some? ==> exitNum.value == old(l2.exitNum) && exitNum.value in exits
      ensures exitNum.None? ==> State() == old(State())
    {
      var number := l2.exitNum;
      var exit := l2.OutboundTransfer(from, to, amount, tokenReady, extraData);
      if exit.None? {
        return None;
      }
      exits := exits[number := exit.value];
      exitNum := Some(number);
    }

    /** `processL2ToL1Tx`, for one message; one that reverts can be tried again. */
    method ProcessL2ToL1(exitNum: nat) returns (ok: bool)
      modifies this, l1
      ensures State() == Next(old(State()), RelayExit(exitNum))
      ensures !ok ==> State() == old(State())
      ensures exitNum in old(exits) ==> (ok <==> old(exits)[exitNum].amount <= old(Get(l1.ledger, l1.self)))
    {
      if exitNum !in exits {
        return false;
      }
      var exit := exits[exitNum];
      ghost var kept := if CurrentOwner(l1.State(), (exitNum, exit.to)) == l1.self then exit.amount else 0;
      ok := l1.FinalizeInboundTransfer(exitNum, exit);
      if ok {
        exits := exits - {exitNum};
        books := books.(surplus := books.surplus + kept, taken := books.taken + kept,
                        released := books.released + exit.amount);
      }
    }

    method TransferExit(call: ExitCall) returns (ok: bool)
      modifies l1
      ensures State() == Next(old(State()), RedirectExit(call))
      ensures ok == ExitCallAccepted(old(l1.State()), call)
    {
      ok := l1.TransferExitAndCall(call);
    }

    method BurnLocked(sender: Account) returns (ok: bool)
      modifies this, l1
      ensures State() == Next(old(State()), BurnLockedUSDC(sender))
    {
      var amount := l1.burnAmount;
      ok := l1.BurnLockedUSDC(sender);
      if ok {
        books := books.(burned := books.burned + amount);
      }
    }

    method SetDepositsPaused(sender: Account, paused: bool) returns (ok: bool)
      modifies l1
      ensures State() == Next(old(State()), Step.SetDepositsPaused(sender, paused))
      ensures ok <==> sender == l1.owner && old(l1.depositsPaused) != paused
    {
      if paused {
        ok := l1.PauseDeposits(sender);
      } else {
        ok := l1.UnpauseDeposits(sender);
      }
    }

    method SetWithdrawalsPaused(sender: Account, paused: bool) returns (ok: bool)
      modifies l2
      ensures State() == Next(old(State()), Step.SetWithdrawalsPaused(sender, paused))
      ensures ok <==> sender == l2.owner && old(l2.withdrawalsPaused) != paused
    {
      if paused {
        ok := l2.PauseWithdrawals(sender);
      } else {
        ok := l2.UnpauseWithdrawals(sender);
      }
    }

    method SetBurner(sender: Account, burner: Account) returns (ok: bool)
      modifies l1
      ensures State() == Next(old(State()), Step.SetBurner(sender, burner))
      ensures ok <==> sender == l1.owner
    {
      ok := l1.SetBurner(sender, burner);
    }

    method SetBurnAmount(sender: Account, amount: nat) returns (ok: bool)
      modifies l1
      ensures State() == Next(old(State()), Step.SetBurnAmount(sender, amount))
      ensures ok <==> sender == l1.owner
    {
      ok := l1.SetBurnAmount(sender, amount);
    }

    /** A deposit followed at once by its relay, as the tests do it: the recipient has what
        the escrow gained, or else the depositor has a withdrawal of as much under way. */
    method DepositAndRelay(from: Account, to: Account, amount: nat, received: nat, tokenReady: bool)
      returns (ok: bool)
      modifies this, l1, l2
      ensures State() == if !ok then old(State())
                         else Next(Next(old(State()), Step.Deposit(from, to, amount, received, false)),
                                   RelayDeposit(old(sequence), tokenReady))
      ensures old(Balanced(State())) ==> Balanced(State())
    {
      ghost var before := State();
      var id := Deposit(from, to, amount, received, false);
      ok := id.Some?;
      ghost var between := State();
      if ok {
        var _ := ProcessL1ToL2(id.value, tokenReady);
      }
      if Balanced(before) {
        BalancedStep(before, Step.Deposit(from, to, amount, received, false));
        BalancedStep(between, RelayDeposit(before.sequence, tokenReady));
      }
    }
  }
}
