/** The two token gateways for one token pair: what each entry point does to its own
    chain, and which message it sends to the other. A refused call changes nothing. */
module Gateways {
  import opened Wrappers
  import opened Ledger

  /** A deposit on its way to the child chain. */
  datatype Ticket = Ticket(from: Account, to: Account, amount: nat)

  /** A withdrawal on its way to the parent chain, to the destination it was made with. */
  datatype Exit = Exit(to: Account, amount: nat)

  /** Redirections are stored under a hash of exit number and initial destination; the pair
      itself is the key here. */
  type ExitKey = (nat, Account)

  datatype L1State = L1State(
    self: Account,
    ledger: Balances,
    allowance: Balances,
    redirected: map<ExitKey, Account>,
    owner: Account,
    depositsPaused: bool,
    burner: Account,
    burnAmount: nat)

  datatype L2State = L2State(
    ledger: Balances,
    exitNum: nat,
    owner: Account,
    withdrawalsPaused: bool)

  // ---------------------------------------------------------------- parent chain

  /** Escrow a deposit. The ticket carries what the escrow really gained. */
  function EscrowDeposit(s: L1State, from: Account, to: Account, amount: nat, received: nat,
                         extraData: bool): (L1State, Option<Ticket>)
  {
    if s.depositsPaused || extraData || Get(s.allowance, from) < amount || Get(s.ledger, from) < amount
    then (s, None)
    else
      var ledger := Move(s.ledger, from, s.self, amount, received);
      var prevBalance, postBalance := Get(s.ledger, s.self), Get(ledger, s.self);
      if postBalance < prevBalance then (s, None)
      else (s.(ledger := ledger, allowance := Burn(s.allowance, from, amount)),
            Some(Ticket(from, to, postBalance - prevBalance)))
  }

  /** Who may claim or transfer an exit. */
  function CurrentOwner(s: L1State, key: ExitKey): Account {
    if key in s.redirected then s.redirected[key] else key.1
  }

  /** Pay an arriving withdrawal to the exit's current owner. */
  function PayExit(s: L1State, exitNum: nat, exit: Exit): (L1State, bool) {
    if Get(s.ledger, s.self) < exit.amount then (s, false)
    else
      var dest := CurrentOwner(s, (exitNum, exit.to));
      (s.(ledger := Move(s.ledger, s.self, dest, exit.amount, exit.amount)), true)
  }

  /** A call of `transferExitAndCall`: who sends it, for which exit, to whom, whether new data
      and hook data are given, and how the new destination would take the hook. */
  datatype ExitCall = ExitCall(sender: Account, key: ExitKey, newDest: Account,
                               newData: bool, hookData: bool, isContract: bool, hookSucceeds: bool)

  predicate ExitCallAccepted(s: L1State, call: ExitCall) {
    && call.sender == CurrentOwner(s, call.key)
    && !call.newData
    && (call.hookData ==> call.isContract && call.hookSucceeds)
  }

  function TransferExit(s: L1State, call: ExitCall): L1State {
    if ExitCallAccepted(s, call) then s.(redirected := s.redirected[call.key := call.newDest]) else s
  }

  /** Burn the amount set by the owner from the escrow. */
  function BurnLocked(s: L1State, sender: Account): (L1State, bool) {
    if sender != s.burner || !s.depositsPaused || s.burnAmount == 0 || Get(s.ledger, s.self) < s.burnAmount
    then (s, false)
    else (s.(ledger := Burn(s.ledger, s.self, s.burnAmount), burnAmount := 0), true)
  }

  // ---------------------------------------------------------------- child chain

  /** A deposit arrives: mint it, or send it straight back to the depositor when the token
      at the expected address is missing or is not the right one. */
  function ReceiveDeposit(s: L2State, t: Ticket, tokenReady: bool): (L2State, Option<Exit>) {
    if tokenReady then (s.(ledger := Mint(s.ledger, t.to, t.amount)), None)
    else (s.(exitNum := s.exitNum + 1), Some(Exit(t.from, t.amount)))
  }

  /** A withdrawal: burn now, release on the parent chain later, under the next exit number. */
  function StartWithdrawal(s: L2State, from: Account, to: Account, amount: nat, tokenReady: bool,
                           extraData: bool): (L2State, Option<Exit>)
  {
    if s.withdrawalsPaused || extraData || !tokenReady || Get(s.ledger, from) < amount then (s, None)
    else (s.(ledger := Burn(s.ledger, from, amount), exitNum := s.exitNum + 1), Some(Exit(to, amount)))
  }

  // ---------------------------------------------------------------- what callers get

  /** The accounts outside `named` have what they had. */
  ghost predicate OthersKeep(before: Balances, after: Balances, named: set<Account>) {
    forall a :: a !in named ==> Get(after, a) == Get(before, a)
  }

  /** `amount` has left the escrow for `dest`, and nothing else is different. */
  ghost predicate Paid(before: L1State, after: L1State, dest: Account, amount: nat) {
    && after == before.(ledger := after.ledger)
    && OthersKeep(before.ledger, after.ledger, {dest, before.self})
    && if dest == before.self then Get(after.ledger, dest) == Get(before.ledger, dest)
       else Get(after.ledger, dest) == Get(before.ledger, dest) + amount
            && Get(after.ledger, before.self) == Get(before.ledger, before.self) - amount
  }

  // ------------------------------------------------------------ the contracts themselves

  class L1Gateway {
    const self: Account
    var ledger: Balances
    var allowance: Balances
    var redirected: map<ExitKey, Account>
    var owner: Account
    var depositsPaused: bool
    var burner: Account
    var burnAmount: nat

    constructor (self: Account, ledger: Balances, allowance: Balances, owner: Account)
      ensures State() == L1State(self, ledger, allowance, map[], owner, false, 0, 0)
    {
      this.self, this.ledger, this.allowance, this.owner := self, ledger, allowance, owner;
      redirected, depositsPaused, burner, burnAmount := map[], false, 0, 0;
    }

    ghost function State(): L1State
      reads this
    {
      L1State(self, ledger, allowance, redirected, owner, depositsPaused, burner, burnAmount)
    }

    /** A deposit: refused for exactly these reasons and then without a trace; otherwise the
        ticket promises what the escrow gained, paid for by the depositor alone. */
    method OutboundTransfer(from: Account, to: Account, amount: nat, received: nat, extraData: bool)
      returns (ticket: Option<Ticket>)
      modifies `ledger, `allowance
      ensures ticket.Some? <==>
        && !depositsPaused && !extraData
        && amount <= Get(old(allowance), from) && amount <= Get(old(ledger), from)
        && (from == self ==> amount <= received)
      ensures ticket.None? ==> State() == old(State())
      ensures ticket.Some? ==>
        && ticket.value.from == from && ticket.value.to == to
        && Get(ledger, self) == Get(old(ledger), self) + ticket.value.amount
        && (from != self ==> Get(ledger, from) == Get(old(ledger), from) - amount)
        && OthersKeep(old(ledger), ledger, {from, self})
        && Get(allowance, from) == Get(old(allowance), from) - amount
        && OthersKeep(old(allowance), allowance, {from})
        && (received == amount ==> Total(ledger) == Total(old(ledger)))
      ensures (State(), ticket) == EscrowDeposit(old(State()), from, to, amount, received, extraData)
    {
      if depositsPaused || extraData || Get(allowance, from) < amount || Get(ledger, from) < amount {
        return None;
      }
      var prevBalance := Get(ledger, self);
      var after := Move(ledger, from, self, amount, received);
      if Get(after, self) < prevBalance {
        return None;
      }
      if received == amount {
        TotalMove(ledger, from, self, amount);
      }
      ledger := after;
      allowance := Burn(allowance, from, amount);
      ticket := Some(Ticket(from, to, Get(after, self) - prevBalance));
    }

    /** A withdrawal arrives: its current owner is paid exactly if escrow suffices. */
    method FinalizeInboundTransfer(exitNum: nat, exit: Exit) returns (ok: bool)
      modifies `ledger
      ensures ok <==> exit.amount <= Get(old(ledger), self)
      ensures if !ok then State() == old(State())
              else Paid(old(State()), State(),
                        if (exitNum, exit.to) in redirected then redirected[(exitNum, exit.to)] else exit.to,
                        exit.amount)
      ensures Total(ledger) == Total(old(ledger))
      ensures (State(), ok) == PayExit(old(State()), exitNum, exit)
    {
      var dest := exit.to;
      if (exitNum, exit.to) in redirected {
        dest := redirected[(exitNum, exit.to)];
      }
      ok := exit.amount <= Get(ledger, self);
      if ok {
        TotalMove(ledger, self, dest, exit.amount);
        ledger := Move(ledger, self, dest, exit.amount, exit.amount);
      }
    }

    /** Accepted exactly for whom the exit was last transferred to, or else for its initial
        destination; with data, only if the new destination is a contract that takes it. */
    method TransferExitAndCall(call: ExitCall) returns (ok: bool)
      modifies `redirected
      ensures ok <==>
        && call.sender == (if call.key in old(redirected) then old(redirected)[call.key] else call.key.1)
        && !call.newData && (call.hookData ==> call.isContract && call.hookSucceeds)
      ensures redirected == if ok then old(redirected)[call.key := call.newDest] else old(redirected)
      ensures ok == ExitCallAccepted(old(State()), call)
      ensures State() == TransferExit(old(State()), call)
    {
      var expectedSender := if call.key in redirected then redirected[call.key] else call.key.1;
      if call.sender != expectedSender || call.newData {
        return false;
      }
      var before := redirected;
      redirected := redirected[call.key := call.newDest];
      if call.hookData && !(call.isContract && call.hookSucceeds) {
        redirected := before;
        return false;
      }
      ok := true;
    }

    /** The burner burns the amount set, once: it is cleared, and refused without a trace. */
    method BurnLockedUSDC(sender: Account) returns (ok: bool)
      modifies `ledger, `burnAmount
      ensures ok <==>
        sender == burner && depositsPaused && old(burnAmount) != 0 && old(burnAmount) <= Get(old(ledger), self)
      ensures ok ==>
        && burnAmount == 0 && Get(ledger, self) == Get(old(ledger), self) - old(burnAmount)
        && OthersKeep(old(ledger), ledger, {self}) && Total(ledger) == Total(old(ledger)) - old(burnAmount)
      ensures !ok ==> State() == old(State())
      ensures (State(), ok) == BurnLocked(old(State()), sender)
    {
      if sender != burner || !depositsPaused || burnAmount == 0 {
        return false;
      }
      var amount := burnAmount;
      burnAmount := 0;
      if Get(ledger, self) < amount {
        burnAmount := amount;
        return false;
      }
      TotalBurn(ledger, self, amount);
      ledger := Burn(ledger, self, amount);
      ok := true;
    }

    method PauseDeposits(sender: Account) returns (ok: bool)
      modifies `depositsPaused
      ensures ok <==> sender == owner && !old(depositsPaused)
      ensures depositsPaused == if ok then true else old(depositsPaused)
    {
      ok := sender == owner && !depositsPaused;
      if ok {
        depositsPaused := true;
      }
    }

    method UnpauseDeposits(sender: Account) returns (ok: bool)
      modifies `depositsPaused
      ensures ok <==> sender == owner && old(depositsPaused)
      ensures depositsPaused == if ok then false else old(depositsPaused)
    {
      ok := sender == owner && depositsPaused;
      if ok {
        depositsPaused := false;
      }
    }

    method SetBurner(sender: Account, newBurner: Account) returns (ok: bool)
      modifies `burner
      ensures ok <==> sender == owner
      ensures burner == if ok then newBurner else old(burner)
    {
      ok := sender == owner;
      if ok {
        burner := newBurner;
      }
    }

    method SetBurnAmount(sender: Account, amount: nat) returns (ok: bool)
      modifies `burnAmount
      ensures ok <==> sender == owner
      ensures burnAmount == if ok then amount else old(burnAmount)
    {
      ok := sender == owner;
      if ok {
        burnAmount := amount;
      }
    }
  }

  class L2Gateway {
    var ledger: Balances
    var exitNum: nat
    var owner: Account
    var withdrawalsPaused: bool

    constructor (owner: Account)
      ensures State() == L2State(map[], 0, owner, false)
    {
      this.ledger, this.exitNum, this.owner, withdrawalsPaused := map[], 0, owner, false;
    }

    ghost function State(): L2State
      reads this
    {
      L2State(ledger, exitNum, owner, withdrawalsPaused)
    }

    /** A deposit arrives: the recipient, or else the depositor's withdrawal, gets all of it. */
    method FinalizeInboundTransfer(t: Ticket, tokenReady: bool) returns (exit: Option<Exit>)
      modifies `ledger, `exitNum
      ensures exit.None? <==> tokenReady
      ensures exit.None? ==>
        && Get(ledger, t.to) == Get(old(ledger), t.to) + t.amount && OthersKeep(old(ledger), ledger, {t.to})
        && Total(ledger) == Total(old(ledger)) + t.amount && exitNum == old(exitNum)
      ensures exit.Some? ==>
        exit.value == Exit(t.from, t.amount) && ledger == old(ledger) && exitNum == old(exitNum) + 1
      ensures (State(), exit) == ReceiveDeposit(old(State()), t, tokenReady)
    {
      if !tokenReady {
        exitNum := exitNum + 1;
        return Some(Exit(t.from, t.amount));
      }
      TotalMint(ledger, t.to, t.amount);
      ledger := Mint(ledger, t.to, t.amount);
      exit := None;
    }

    /** A withdrawal: refused for exactly these reasons and then without a trace; otherwise
        what leaves the supply, from the holder alone, is what the exit will release. */
    method OutboundTransfer(from: Account, to: Account, amount: nat, tokenReady: bool, extraData: bool)
      returns (exit: Option<Exit>)
      modifies `ledger, `exitNum
      ensures exit.Some? <==>
        !withdrawalsPaused && !extraData && tokenReady && amount <= Get(old(ledger), from)
      ensures exit.None? ==> State() == old(State())
      ensures exit.Some? ==>
        && exit.value.to == to && Total(ledger) + exit.value.amount == Total(old(ledger))
        && Get(ledger, from) + exit.value.amount == Get(old(ledger), from)
        && OthersKeep(old(ledger), ledger, {from})
        && exit.value.amount == amount && exitNum == old(exitNum) + 1
      ensures (State(), exit) == StartWithdrawal(old(State()), from, to, amount, tokenReady, extraData)
    {
      if withdrawalsPaused || extraData || !tokenReady || Get(ledger, from) < amount {
        return None;
      }
      TotalBurn(ledger, from, amount);
      ledger := Burn(ledger, from, amount);
      exitNum := exitNum + 1;
      exit := Some(Exit(to, amount));
    }

    method PauseWithdrawals(sender: Account) returns (ok: bool)
      modifies `withdrawalsPaused
      ensures ok <==> sender == owner && !old(withdrawalsPaused)
      ensures withdrawalsPaused == if ok then true else old(withdrawalsPaused)
    {
      ok := sender == owner && !withdrawalsPaused;
      if ok {
        withdrawalsPaused := true;
      }
    }

    method UnpauseWithdrawals(sender: Account) returns (ok: bool)
      modifies `withdrawalsPaused
      ensures ok <==> sender == owner && old(withdrawalsPaused)
      ensures withdrawalsPaused == if ok then false else old(withdrawalsPaused)
    {
      ok := sender == owner && withdrawalsPaused;
      if ok {
        withdrawalsPaused := false;
      }
    }
  }
}
