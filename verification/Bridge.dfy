/** The two gateways joined by messages in flight, under every interleaving of users,
    relayers and administrators. */
module Bridge {
  import opened Wrappers
  import opened Ledger
  import opened Gateways

  /** The books of a run: L2 tokens minted by others than the bridge; escrow that no L2 claim
      stands behind (donations, payouts to the gateway itself, L2 tokens burned by holders);
      escrow burned by the migration; and everything the escrow took in and paid out. */
  datatype Books = Books(minted: nat, surplus: nat, burned: nat, taken: nat, released: nat)

  /** Tickets are keyed by sequence number, exits by exit number; each is delivered once. */
  datatype World = World(
    l1: L1State,
    l2: L2State,
    tickets: map<nat, Ticket>,
    sequence: nat,
    exits: map<nat, Exit>,
    books: Books)

  datatype Step =
    | Deposit(from: Account, to: Account, amount: nat, received: nat, extraData: bool)
    | RelayDeposit(id: nat, tokenReady: bool)
    | Withdraw(from: Account, to: Account, amount: nat, tokenReady: bool, extraData: bool)
    | RelayExit(exitNum: nat)
    | RedirectExit(call: ExitCall)
    | TransferL1(from: Account, to: Account, amount: nat)
    | ApproveL1(holder: Account, amount: nat)
    | TransferL2(from: Account, to: Account, amount: nat)
    | MintL2(to: Account, amount: nat)
    | BurnL2(from: Account, amount: nat)
    | SetDepositsPaused(sender: Account, paused: bool)
    | SetWithdrawalsPaused(sender: Account, paused: bool)
    | SetBurner(sender: Account, burner: Account)
    | SetBurnAmount(sender: Account, amount: nat)
    | BurnLockedUSDC(sender: Account)

  function Escrow(w: World): nat { Get(w.l1.ledger, w.l1.self) }

  ghost function Supply(w: World): nat { Total(w.l2.ledger) }

  function TicketAmounts(tickets: map<nat, Ticket>): map<nat, nat> { map i | i in tickets :: tickets[i].amount }

  function ExitAmounts(exits: map<nat, Exit>): map<nat, nat> { map i | i in exits :: exits[i].amount }

  ghost function InTickets(w: World): nat { Total(TicketAmounts(w.tickets)) }

  ghost function InExits(w: World): nat { Total(ExitAmounts(w.exits)) }

  /** Put a withdrawal under way. */
  function Send(w: World, l2: L2State, exit: Exit): World {
    w.(l2 := l2, exits := w.exits[w.l2.exitNum := exit])
  }

  function Next(w: World, step: Step): World {
    match step
    case Deposit(from, to, amount, received, extraData) =>
      var (l1, ticket) := EscrowDeposit(w.l1, from, to, amount, received, extraData);
      if ticket.None? then w
      else w.(l1 := l1, tickets := w.tickets[w.sequence := ticket.value], sequence := w.sequence + 1,
              books := w.books.(taken := w.books.taken + ticket.value.amount))
    case RelayDeposit(id, tokenReady) =>
      if id !in w.tickets then w
      else
        var (l2, exit) := ReceiveDeposit(w.l2, w.tickets[id], tokenReady);
        var w' := w.(tickets := w.tickets - {id});
        if exit.None? then w'.(l2 := l2) else Send(w', l2, exit.value)
    case Withdraw(from, to, amount, tokenReady, extraData) =>
      var (l2, exit) := StartWithdrawal(w.l2, from, to, amount, tokenReady, extraData);
      if exit.None? then w else Send(w, l2, exit.value)
    case RelayExit(exitNum) =>
      if exitNum !in w.exits then w
      else
        var exit := w.exits[exitNum];
        var (l1, ok) := PayExit(w.l1, exitNum, exit);
        if !ok then w
        else
          var kept := if CurrentOwner(w.l1, (exitNum, exit.to)) == w.l1.self then exit.amount else 0;
          w.(l1 := l1, exits := w.exits - {exitNum},
             books := w.books.(surplus := w.books.surplus + kept, taken := w.books.taken + kept,
                               released := w.books.released + exit.amount))
    case RedirectExit(call) => w.(l1 := TransferExit(w.l1, call))
    case TransferL1(from, to, amount) =>
      if from == w.l1.self || Get(w.l1.ledger, from) < amount then w
      else
        var donated := if to == w.l1.self then amount else 0;
        w.(l1 := w.l1.(ledger := Move(w.l1.ledger, from, to, amount, amount)),
           books := w.books.(surplus := w.books.surplus + donated, taken := w.books.taken + donated))
    case ApproveL1(holder, amount) => w.(l1 := w.l1.(allowance := w.l1.allowance[holder := amount]))
    case TransferL2(from, to, amount) =>
      if Get(w.l2.ledger, from) < amount then w
      else w.(l2 := w.l2.(ledger := Move(w.l2.ledger, from, to, amount, amount)))
    case MintL2(to, amount) =>
      w.(l2 := w.l2.(ledger := Mint(w.l2.ledger, to, amount)),
         books := w.books.(minted := w.books.minted + amount))
    case BurnL2(from, amount) =>
      if Get(w.l2.ledger, from) < amount then w
      else w.(l2 := w.l2.(ledger := Burn(w.l2.ledger, from, amount)),
              books := w.books.(surplus := w.books.surplus + amount))
    case SetDepositsPaused(sender, paused) =>
      if sender != w.l1.owner then w else w.(l1 := w.l1.(depositsPaused := paused))
    case SetWithdrawalsPaused(sender, paused) =>
      if sender != w.l2.owner then w else w.(l2 := w.l2.(withdrawalsPaused := paused))
    case SetBurner(sender, burner) =>
      if sender != w.l1.owner then w else w.(l1 := w.l1.(burner := burner))
    case SetBurnAmount(sender, amount) =>
      if sender != w.l1.owner then w else w.(l1 := w.l1.(burnAmount := amount))
    case BurnLockedUSDC(sender) =>
      var (l1, ok) := BurnLocked(w.l1, sender);
      if !ok then w
      else w.(l1 := l1, books := w.books.(burned := w.books.burned + w.l1.burnAmount))
  }

  function Exec(w: World, steps: seq<Step>): World {
    if steps == [] then w else Next(Exec(w, steps[..|steps| - 1]), steps[|steps| - 1])
  }

  // ---------------------------------------------------------------- conservation

  /** Nothing bridged yet. */
  ghost predicate Fresh(w: World) {
    && Escrow(w) == 0 && w.l2.ledger == map[] && w.tickets == map[] && w.exits == map[]
    && w.books == Books(0, 0, 0, 0, 0)
  }

  ghost predicate Balanced(w: World) {
    && (forall i :: i in w.tickets ==> i < w.sequence)
    && (forall i :: i in w.exits ==> i < w.l2.exitNum)
    && Escrow(w) + w.books.minted + w.books.burned
       == Supply(w) + InTickets(w) + InExits(w) + w.books.surplus
    && Escrow(w) + w.books.released + w.books.burned == w.books.taken
  }

  lemma TicketsAdd(tickets: map<nat, Ticket>, id: nat, t: Ticket)
    requires id !in tickets
    ensures Total(TicketAmounts(tickets[id := t])) == Total(TicketAmounts(tickets)) + t.amount
  {
    assert TicketAmounts(tickets[id := t]) == TicketAmounts(tickets)[id := t.amount];
    TotalUpdate(TicketAmounts(tickets), id, t.amount);
  }

  lemma TicketsRemove(tickets: map<nat, Ticket>, id: nat)
    requires id in tickets
    ensures Total(TicketAmounts(tickets - {id})) == Total(TicketAmounts(tickets)) - tickets[id].amount
  {
    TicketsAdd(tickets - {id}, id, tickets[id]);
    assert (tickets - {id})[id := tickets[id]] == tickets;
  }

  lemma ExitsAdd(exits: map<nat, Exit>, id: nat, e: Exit)
    requires id !in exits
    ensures Total(ExitAmounts(exits[id := e])) == Total(ExitAmounts(exits)) + e.amount
  {
    assert ExitAmounts(exits[id := e]) == ExitAmounts(exits)[id := e.amount];
    TotalUpdate(ExitAmounts(exits), id, e.amount);
  }

  lemma ExitsRemove(exits: map<nat, Exit>, id: nat)
    requires id in exits
    ensures Total(ExitAmounts(exits - {id})) == Total(ExitAmounts(exits)) - exits[id].amount
  {
    ExitsAdd(exits - {id}, id, exits[id]);
    assert (exits - {id})[id := exits[id]] == exits;
  }

  lemma BalancedDeposit(w: World, step: Step)
    requires Balanced(w) && step.Deposit?
    ensures Balanced(Next(w, step))
  {
    var (_, ticket) := EscrowDeposit(w.l1, step.from, step.to, step.amount, step.received, step.extraData);
    if ticket.Some? {
      TicketsAdd(w.tickets, w.sequence, ticket.value);
    }
  }

  lemma BalancedRelay(w: World, step: Step)
    requires Balanced(w) && step.RelayDeposit?
    ensures Balanced(Next(w, step))
  {
    if step.id in w.tickets {
      var t := w.tickets[step.id];
      TicketsRemove(w.tickets, step.id);
      if step.tokenReady {
        TotalMint(w.l2.ledger, t.to, t.amount);
      } else {
        ExitsAdd(w.exits, w.l2.exitNum, Exit(t.from, t.amount));
      }
    }
  }

  lemma BalancedWithdraw(w: World, step: Step)
    requires Balanced(w) && step.Withdraw?
    ensures Balanced(Next(w, step))
  {
    if step.amount <= Get(w.l2.ledger, step.from) {
      TotalBurn(w.l2.ledger, step.from, step.amount);
      ExitsAdd(w.exits, w.l2.exitNum, Exit(step.to, step.amount));
    }
  }

  lemma BalancedRelease(w: World, step: Step)
    requires Balanced(w) && step.RelayExit?
    ensures Balanced(Next(w, step))
  {
    if step.exitNum in w.exits {
      ExitsRemove(w.exits, step.exitNum);
    }
  }

  lemma BalancedToken(w: World, step: Step)
    requires Balanced(w) && (step.TransferL2? || step.MintL2? || step.BurnL2?)
    ensures Balanced(Next(w, step))
  {
    match step
    case TransferL2(from, to, amount) =>
      if amount <= Get(w.l2.ledger, from) {
        TotalMove(w.l2.ledger, from, to, amount);
      }
    case MintL2(to, amount) => TotalMint(w.l2.ledger, to, amount);
    case BurnL2(from, amount) =>
      if amount <= Get(w.l2.ledger, from) {
        TotalBurn(w.l2.ledger, from, amount);
      }
  }

  lemma BalancedAdmin(w: World, step: Step)
    requires Balanced(w)
    requires !(step.Deposit? || step.RelayDeposit? || step.Withdraw? || step.RelayExit?)
    requires !(step.TransferL2? || step.MintL2? || step.BurnL2?)
    ensures Balanced(Next(w, step))
  {
  }

  lemma BalancedStep(w: World, step: Step)
    requires Balanced(w)
    ensures Balanced(Next(w, step))
  {
    hide Balanced, Next;
    match step
    case Deposit(_, _, _, _, _) => BalancedDeposit(w, step);
    case RelayDeposit(_, _) => BalancedRelay(w, step);
    case Withdraw(_, _, _, _, _) => BalancedWithdraw(w, step);
    case RelayExit(_) => BalancedRelease(w, step);
    case TransferL2(_, _, _) => BalancedToken(w, step);
    case MintL2(_, _) => BalancedToken(w, step);
    case BurnL2(_, _) => BalancedToken(w, step);
    case _ => BalancedAdmin(w, step);
  }

  /** Over every interleaving, escrow plus what the bridge did not mint and what was burned
      from escrow covers exactly the L2 supply, the deposits and withdrawals in flight, and
      the surplus; and the escrow is what it took in less what it released and burned. */
  lemma {:induction false} Conservation(w: World, steps: seq<Step>)
    requires Balanced(w)
    ensures Balanced(Exec(w, steps))
    decreases |steps|
  {
    if steps == [] {
    } else {
      Conservation(w, steps[..|steps| - 1]);
      BalancedStep(Exec(w, steps[..|steps| - 1]), steps[|steps| - 1]);
    }
  }

  lemma FreshBalanced(w: World)
    requires Fresh(w)
    ensures Balanced(w)
  {
  }
}
