/** The USDC migration: pause both gateways, drain the deposits, burn the supply from escrow. */
module Migration {
  import opened Ledger
  import opened Gateways
  import opened Bridge
  import opened BridgeLaws

  /** Burning the L2 supply from the escrow leaves what withdrawals in flight are owed --
      exactly when deposits in flight and surplus weigh up what others minted or burned. */
  lemma BurnExactIff(w: World, sender: Account)
    requires Balanced(w) && BurnLocked(w.l1, sender).1 && w.l1.burnAmount == Supply(w)
    ensures var r := Next(w, BurnLockedUSDC(sender));
      && r.l2 == w.l2 && r.exits == w.exits && Escrow(r) == Escrow(w) - Supply(w)
      && (Escrow(r) == InExits(r) <==> InTickets(w) + w.books.surplus == w.books.minted + w.books.burned)
  {
  }

  /** What may still happen between setting the burn amount and burning. */
  predicate Quiet(step: Step) {
    match step
    case SetDepositsPaused(_, paused) => paused
    case SetWithdrawalsPaused(_, paused) => paused
    case SetBurnAmount(_, _) => false
    case MintL2(_, _) => false
    case BurnL2(_, _) => false
    case BurnLockedUSDC(_) => false
    case _ => true
  }

  /** Both gateways paused and every pending deposit executed. */
  ghost predicate Drained(w: World) {
    w.l1.depositsPaused && w.l2.withdrawalsPaused && w.tickets == map[]
  }

  lemma DrainedStep(w: World, step: Step)
    requires Drained(w) && Quiet(step)
    ensures var r := Next(w, step);
      && Drained(r) && Supply(r) == Supply(w) && r.l1.burnAmount == w.l1.burnAmount
      && r.books.minted == w.books.minted && r.books.burned == w.books.burned
      && r.l1.self == w.l1.self && (forall e :: e in r.exits ==> e in w.exits && r.exits[e] == w.exits[e])
  {
    if step.TransferL2? && step.amount <= Get(w.l2.ledger, step.from) {
      TotalMove(w.l2.ledger, step.from, step.to, step.amount);
    }
  }

  lemma {:induction false} DrainedStays(w: World, steps: seq<Step>)
    requires Drained(w) && forall i :: 0 <= i < |steps| ==> Quiet(steps[i])
    ensures var r := Exec(w, steps);
      && Drained(r) && Supply(r) == Supply(w) && r.l1.burnAmount == w.l1.burnAmount
      && r.books.minted == w.books.minted && r.books.burned == w.books.burned
    decreases |steps|
  {
    if steps == [] {
    } else {
      DrainedStays(w, steps[..|steps| - 1]);
      DrainedStep(Exec(w, steps[..|steps| - 1]), steps[|steps| - 1]);
    }
  }

  lemma BurnWhenDrained(w: World)
    requires Balanced(w) && Drained(w) && w.l1.burnAmount == Supply(w)
    requires w.books.minted == 0 && w.books.burned == 0
    ensures var r := Next(w, BurnLockedUSDC(w.l1.burner));
      && BurnLocked(w.l1, w.l1.burner).1 == (Supply(w) > 0)
      && r.l2 == w.l2 && Escrow(r) == InExits(r) + w.books.surplus && r.l1.burnAmount == 0
  {
  }

  lemma CoveredExitPayable(w: World, exitNum: nat)
    requires exitNum in w.exits && Escrow(w) >= InExits(w)
    ensures PaidOut(w, Next(w, RelayExit(exitNum)), exitNum)
  {
    PartOfTotal(ExitAmounts(w.exits), exitNum);
  }

  /** Set the burn amount to the L2 supply; then exits are relayed and traded and L2 tokens
      change hands in any way, until the burner burns. */
  function AmountSet(s: World, supply: nat): World { Next(s, SetBurnAmount(s.l1.owner, supply)) }

  function BeforeBurn(s: World, supply: nat, during: seq<Step>): World { Exec(AmountSet(s, supply), during) }

  function AfterBurn(s: World, supply: nat, during: seq<Step>): World {
    Next(BeforeBurn(s, supply, during), BurnLockedUSDC(BeforeBurn(s, supply, during).l1.burner))
  }

  /** The whole migration. From a history in which only the bridge minted, once both gateways
      are paused and no deposit is pending, the burn goes through unless there is nothing to
      burn, no L2 balance moves, and the escrow is left with what withdrawals in flight are
      owed and the gifts ever made to it -- so each withdrawal can still be paid, and escrow
      is precisely what they are owed if and only if there never was a gift. */
  lemma MigrationLeavesWhatIsOwed(w: World, before: seq<Step>, during: seq<Step>)
    requires Fresh(w) && NoMintNoMigration(before) && Drained(Exec(w, before))
    requires forall i :: 0 <= i < |during| ==> Quiet(during[i])
    ensures var s := Exec(w, before);
            var start, end := AmountSet(s, Supply(s)), BeforeBurn(s, Supply(s), during);
            var r := AfterBurn(s, Supply(s), during);
      && BurnLocked(end.l1, end.l1.burner).1 == (Supply(end) > 0)
      && r.l2 == end.l2 && Supply(end) == Supply(s)
      && Escrow(r) == InExits(r) + Gifts(w, before) + Gifts(start, during)
      && (Escrow(r) == InExits(r) <==> NoGifts(w, before) && NoGifts(start, during))
      && forall e :: e in r.exits ==> PaidOut(r, Next(r, RelayExit(e)), e)
  {
    var s := Exec(w, before);
    var start := AmountSet(s, Supply(s));
    FreshSolvent(w);
    SolventForever(w, before);
    AmountSetKeeps(s);
    hide Next, Fresh, Gift, Gifts, NoGifts, PaidOut, AmountSet, Balanced, Drained;
    SurplusIsGifts(w, before);
    BurnAfter(start, during);
    SurplusIsGifts(start, during);
    var r := AfterBurn(s, Supply(s), during);
    forall e | e in r.exits
      ensures PaidOut(r, Next(r, RelayExit(e)), e)
    {
      CoveredExitPayable(r, e);
    }
  }

  lemma AmountSetKeeps(s: World)
    requires Solvent(s) && Drained(s)
    ensures var start := AmountSet(s, Supply(s));
      && Solvent(start) && Drained(start) && start.l1.burnAmount == Supply(start) == Supply(s)
      && start.books == s.books
  {
    BalancedStep(s, SetBurnAmount(s.l1.owner, Supply(s)));
  }

  /** The part from the setting of the amount on. */
  lemma BurnAfter(start: World, during: seq<Step>)
    requires Solvent(start) && Drained(start) && start.l1.burnAmount == Supply(start)
    requires forall i :: 0 <= i < |during| ==> Quiet(during[i])
    ensures var end := Exec(start, during);
            var r := Next(end, BurnLockedUSDC(end.l1.burner));
      && BurnLocked(end.l1, end.l1.burner).1 == (Supply(end) > 0)
      && r.l2 == end.l2 && Supply(end) == Supply(start)
      && Escrow(r) == InExits(r) + end.books.surplus
      && r.l1.burnAmount == 0 && Drained(r) && Balanced(r)
  {
    hide Next, Balanced, Drained;
    Conservation(start, during);
    DrainedStays(start, during);
    BurnWhenDrained(Exec(start, during));
    BalancedStep(Exec(start, during), BurnLockedUSDC(Exec(start, during).l1.burner));
    BurnKeepsDrained(Exec(start, during), Exec(start, during).l1.burner);
  }

  lemma BurnKeepsDrained(w: World, sender: Account)
    requires Drained(w)
    ensures Drained(Next(w, BurnLockedUSDC(sender)))
  {
  }

  // ---------------------------------------------------------------- after the burn

  /** What a history may not do, so that the burn stays the only one and claims stay covered:
      set another amount, or let withdrawals begin again. */
  predicate KeepsBurned(step: Step) {
    !step.SetBurnAmount? && (step.SetWithdrawalsPaused? ==> step.paused)
  }

  /** No burn is possible, no withdrawal can begin, and escrow covers all that is in flight. */
  ghost predicate Burned(w: World) {
    && Balanced(w) && w.l1.burnAmount == 0 && w.l2.withdrawalsPaused
    && Escrow(w) >= InTickets(w) + InExits(w)
  }

  lemma BurnedDeposit(w: World, step: Step)
    requires Burned(w) && step.Deposit?
    ensures Burned(Next(w, step))
  {
    BalancedStep(w, step);
    var (_, ticket) := EscrowDeposit(w.l1, step.from, step.to, step.amount, step.received, step.extraData);
    if ticket.Some? {
      TicketsAdd(w.tickets, w.sequence, ticket.value);
    }
  }

  lemma BurnedRelay(w: World, step: Step)
    requires Burned(w) && step.RelayDeposit?
    ensures Burned(Next(w, step))
  {
    BalancedStep(w, step);
    hide Total;
    if step.id in w.tickets {
      TicketsRemove(w.tickets, step.id);
      if !step.tokenReady {
        ExitsAdd(w.exits, w.l2.exitNum, Exit(w.tickets[step.id].from, w.tickets[step.id].amount));
      }
    }
  }

  lemma BurnedRelease(w: World, step: Step)
    requires Burned(w) && step.RelayExit?
    ensures Burned(Next(w, step))
  {
    BalancedStep(w, step);
    if step.exitNum in w.exits {
      ExitsRemove(w.exits, step.exitNum);
    }
  }

  lemma BurnedOther(w: World, step: Step)
    requires Burned(w) && KeepsBurned(step) && !step.Deposit? && !step.RelayDeposit? && !step.RelayExit?
    ensures Burned(Next(w, step))
  {
    BalancedStep(w, step);
    hide Supply, InTickets, InExits, Balanced;
    var r := Next(w, step);
    assert r.tickets == w.tickets && r.exits == w.exits && Escrow(r) >= Escrow(w);
    SameInFlight(w, r);
  }

  lemma SameInFlight(w: World, r: World)
    requires r.tickets == w.tickets && r.exits == w.exits
    ensures InTickets(r) == InTickets(w) && InExits(r) == InExits(w)
  {
  }

  /** Once burned, no history that keeps it so burns again, and every withdrawal in flight
      can be paid at any time. */
  lemma {:induction false} BurnedOnce(w: World, later: seq<Step>)
    requires Burned(w) && forall i :: 0 <= i < |later| ==> KeepsBurned(later[i])
    ensures var r := Exec(w, later);
      && Burned(r) && r.books.burned == w.books.burned && (forall sender :: !BurnLocked(r.l1, sender).1)
      && forall e :: e in r.exits ==> PaidOut(r, Next(r, RelayExit(e)), e)
    decreases |later|
  {
    if later == [] {
    } else {
      var init, last := later[..|later| - 1], later[|later| - 1];
      BurnedOnce(w, init);
      BurnedStep(Exec(w, init), last);
    }
    var r := Exec(w, later);
    forall e | e in r.exits
      ensures PaidOut(r, Next(r, RelayExit(e)), e)
    {
      CoveredExitPayable(r, e);
    }
  }

  lemma BurnedStep(w: World, step: Step)
    requires Burned(w) && KeepsBurned(step)
    ensures Burned(Next(w, step)) && Next(w, step).books.burned == w.books.burned
  {
    hide Burned;
    BurnsNothing(w, step);
    match step
    case Deposit(_, _, _, _, _) => BurnedDeposit(w, step);
    case RelayDeposit(_, _) => BurnedRelay(w, step);
    case RelayExit(_) => BurnedRelease(w, step);
    case _ => BurnedOther(w, step);
  }

  lemma BurnsNothing(w: World, step: Step)
    requires Burned(w)
    ensures Next(w, step).books.burned == w.books.burned
  {
  }

  /** To burn again takes another amount, whatever else happens. */
  lemma {:induction false} NeverBurnsAgain(w: World, later: seq<Step>)
    requires w.l1.burnAmount == 0 && forall i :: 0 <= i < |later| ==> !later[i].SetBurnAmount?
    ensures var r := Exec(w, later);
      r.l1.burnAmount == 0 && r.books.burned == w.books.burned && forall sender :: !BurnLocked(r.l1, sender).1
    decreases |later|
  {
    if later == [] {
    } else {
      NeverBurnsAgain(w, later[..|later| - 1]);
      NoAmountNoBurn(Exec(w, later[..|later| - 1]), later[|later| - 1]);
    }
  }

  lemma NoAmountNoBurn(w: World, step: Step)
    requires w.l1.burnAmount == 0 && !step.SetBurnAmount?
    ensures Next(w, step).l1.burnAmount == 0 && Next(w, step).books.burned == w.books.burned
  {
  }

  /** Letting withdrawals begin again after the burn does break the cover: the burned supply
      can still be withdrawn, ahead of a withdrawal that was in flight. */
  lemma UnpausingBreaksCover()
    ensures var w := World(L1State(1, map[1 := 5], map[], map[], 9, true, 8, 0), L2State(map[2 := 5], 1, 9, true),
                           map[], 0, map[0 := Exit(3, 5)], Books(0, 0, 5, 10, 0));
            var r := Next(Next(Next(w, SetWithdrawalsPaused(9, false)), Withdraw(2, 2, 5, true, false)), RelayExit(1));
      Burned(w) && 0 in r.exits && Escrow(r) == 0 && Next(r, RelayExit(0)) == r
  {
    hide Total;
    var w := World(L1State(1, map[1 := 5], map[], map[], 9, true, 8, 0), L2State(map[2 := 5], 1, 9, true),
                   map[], 0, map[0 := Exit(3, 5)], Books(0, 0, 5, 10, 0));
    TotalMint(map[], 2, 5);
    TotalOfNothing<Account>();
    TotalOfNothing<nat>();
    assert Mint(map[], 2, 5) == w.l2.ledger;
    ExitsAdd(map[], 0, Exit(3, 5));
    assert TicketAmounts(w.tickets) == map[] && ExitAmounts(map[]) == map[];
    assert map[][0 := Exit(3, 5)] == w.exits;
    var open := Next(w, SetWithdrawalsPaused(9, false));
    assert open == w.(l2 := w.l2.(withdrawalsPaused := false));
    var sent := Next(open, Withdraw(2, 2, 5, true, false));
    assert sent.exits == map[0 := Exit(3, 5), 1 := Exit(2, 5)] && sent.l1 == w.l1;
  }

  lemma TotalOfNothing<K>()
    ensures Total<K>(map[]) == 0
  {
  }

  /** So it is after the migration: one burn, and all that is owed stays payable. */
  lemma MigrationBurnsOnce(w: World, before: seq<Step>, during: seq<Step>, later: seq<Step>)
    requires Fresh(w) && NoMintNoMigration(before) && Drained(Exec(w, before))
    requires forall i :: 0 <= i < |during| ==> Quiet(during[i])
    requires forall i :: 0 <= i < |later| ==> KeepsBurned(later[i])
    ensures var s := Exec(w, before);
            var burned := AfterBurn(s, Supply(s), during);
            var r := Exec(burned, later);
      && r.books.burned == burned.books.burned == Supply(s) && (forall sender :: !BurnLocked(r.l1, sender).1)
      && forall e :: e in r.exits ==> PaidOut(r, Next(r, RelayExit(e)), e)
  {
    var s := Exec(w, before);
    var start := AmountSet(s, Supply(s));
    FreshSolvent(w);
    SolventForever(w, before);
    AmountSetKeeps(s);
    hide Next, Fresh, PaidOut, AmountSet, Balanced, BurnLocked;
    BurnAfter(start, during);
    BurnedAmount(start, during);
    NothingInTickets(AfterBurn(s, Supply(s), during));
    BurnedOnce(AfterBurn(s, Supply(s), during), later);
  }

  lemma NothingInTickets(w: World)
    requires w.tickets == map[]
    ensures InTickets(w) == 0
  {
    assert TicketAmounts(w.tickets) == map[];
  }

  lemma BurnedAmount(start: World, during: seq<Step>)
    requires Solvent(start) && Drained(start) && start.l1.burnAmount == Supply(start)
    requires forall i :: 0 <= i < |during| ==> Quiet(during[i])
    ensures var end := Exec(start, during);
            Next(end, BurnLockedUSDC(end.l1.burner)).books.burned == Supply(start)
  {
    Conservation(start, during);
    DrainedStays(start, during);
    BurnWhenDrained(Exec(start, during));
  }
}
