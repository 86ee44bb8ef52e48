/** What conservation gives users of the bridge. */
module BridgeLaws {
  import opened Ledger
  import opened Gateways
  import opened Bridge

  // ---------------------------------------------------------------- gifts to the escrow

  /** What a step gives to the escrow without a claim against it: tokens sent to the gateway,
      a withdrawal paid out to the gateway itself, bridged tokens burned by a holder. */
  function Gift(w: World, step: Step): nat {
    match step
    case TransferL1(from, to, amount) =>
      if to == w.l1.self && from != w.l1.self && amount <= Get(w.l1.ledger, from) then amount else 0
    case RelayExit(e) =>
      if e !in w.exits || Escrow(w) < w.exits[e].amount then 0
      else if CurrentOwner(w.l1, (e, w.exits[e].to)) == w.l1.self then w.exits[e].amount else 0
    case BurnL2(from, amount) => if amount <= Get(w.l2.ledger, from) then amount else 0
    case _ => 0
  }

  /** All the gifts of a history. */
  function Gifts(w: World, steps: seq<Step>): nat {
    if steps == [] then 0
    else Gifts(w, steps[..|steps| - 1]) + Gift(Exec(w, steps[..|steps| - 1]), steps[|steps| - 1])
  }

  predicate NoGifts(w: World, steps: seq<Step>) {
    forall i :: 0 <= i < |steps| ==> Gift(Exec(w, steps[..i]), steps[i]) == 0
  }

  lemma GiftStep(w: World, step: Step)
    ensures Next(w, step).books.surplus == w.books.surplus + Gift(w, step)
  {
  }

  /** The surplus grows by the gifts, and by nothing else. */
  lemma {:induction false} SurplusIsGifts(w: World, steps: seq<Step>)
    ensures Exec(w, steps).books.surplus == w.books.surplus + Gifts(w, steps)
    ensures Gifts(w, steps) == 0 <==> NoGifts(w, steps)
    decreases |steps|
  {
    if steps == [] {
    } else {
      hide Next, Gift;
      var n := |steps| - 1;
      SurplusIsGifts(w, steps[..n]);
      GiftStep(Exec(w, steps[..n]), steps[n]);
      NoGiftsSnoc(w, steps);
      hide NoGifts;
    }
  }

  lemma NoGiftsSnoc(w: World, steps: seq<Step>)
    requires steps != []
    ensures var n := |steps| - 1;
            NoGifts(w, steps) <==> NoGifts(w, steps[..n]) && Gift(Exec(w, steps[..n]), steps[n]) == 0
  {
    hide Next, Gift;
    var n := |steps| - 1;
    assert forall i :: 0 <= i < n ==> steps[..n][..i] == steps[..i] && steps[..n][i] == steps[i];
    if NoGifts(w, steps) {
      forall i | 0 <= i < n
        ensures Gift(Exec(w, steps[..n][..i]), steps[..n][i]) == 0
      {
        assert Gift(Exec(w, steps[..i]), steps[i]) == 0;
      }
    }
    if NoGifts(w, steps[..n]) && Gift(Exec(w, steps[..n]), steps[n]) == 0 {
      forall i | 0 <= i <= n
        ensures Gift(Exec(w, steps[..i]), steps[i]) == 0
      {
        assert i < n ==> Gift(Exec(w, steps[..n][..i]), steps[..n][i]) == 0;
      }
    }
  }

  // ---------------------------------------------------------------- escrow and claims

  /** Nobody but the bridge mints on L2, and the migration has not burned. */
  predicate NoMintNoMigration(steps: seq<Step>) {
    forall i :: 0 <= i < |steps| ==> !steps[i].MintL2? && !steps[i].BurnLockedUSDC?
  }

  /** A balanced world in which neither has happened. */
  ghost predicate Solvent(w: World) { Balanced(w) && w.books.minted == 0 && w.books.burned == 0 }

  ghost function Claims(w: World): nat { Supply(w) + InTickets(w) + InExits(w) }

  lemma {:induction false} SolventForever(w: World, steps: seq<Step>)
    requires Solvent(w) && NoMintNoMigration(steps)
    ensures Solvent(Exec(w, steps))
    decreases |steps|
  {
    if steps == [] {
    } else {
      SolventForever(w, steps[..|steps| - 1]);
      BalancedStep(Exec(w, steps[..|steps| - 1]), steps[|steps| - 1]);
    }
  }

  lemma FreshSolvent(w: World)
    requires Fresh(w)
    ensures Solvent(w) && w.books == Books(0, 0, 0, 0, 0)
  {
    FreshBalanced(w);
  }

  lemma PartOfTotal<K>(m: map<K, nat>, k: K)
    requires k in m
    ensures m[k] <= Total(m)
  {
  }

  lemma SolventPays(w: World, exitNum: nat)
    requires Solvent(w) && exitNum in w.exits
    ensures w.exits[exitNum].amount <= Escrow(w)
  {
    PartOfTotal(ExitAmounts(w.exits), exitNum);
  }

  /** For a token that only the bridge mints, over every interleaving, escrow is the L2 supply
      plus the deposits and withdrawals in flight plus the gifts made to it. So it always
      covers the claims, and equals them exactly for the histories without a gift. */
  lemma EscrowCoversClaims(w: World, steps: seq<Step>)
    requires Fresh(w) && NoMintNoMigration(steps)
    ensures var r := Exec(w, steps);
      && Escrow(r) == Claims(r) + Gifts(w, steps)
      && (Escrow(r) == Claims(r) <==> NoGifts(w, steps))
  {
    FreshSolvent(w);
    SolventForever(w, steps);
    SurplusIsGifts(w, steps);
  }

  /** A successful payout: this exit is gone, its owner has exactly its amount more, the
      escrow that much less, and nobody else's balance moves on either chain. */
  ghost predicate PaidOut(w: World, w': World, exitNum: nat)
    requires exitNum in w.exits
  {
    var exit := w.exits[exitNum];
    && w' == w.(l1 := w'.l1, exits := w.exits - {exitNum}, books := w'.books)
    && Paid(w.l1, w'.l1, CurrentOwner(w.l1, (exitNum, exit.to)), exit.amount)
  }

  /** An exit is paid exactly when the escrow covers it; otherwise the call changes nothing. */
  lemma PaidIffCovered(w: World, exitNum: nat)
    requires exitNum in w.exits
    ensures if w.exits[exitNum].amount <= Escrow(w) then PaidOut(w, Next(w, RelayExit(exitNum)), exitNum)
            else Next(w, RelayExit(exitNum)) == w
  {
  }

  /** For a token that only the bridge mints, every withdrawal in flight can be paid, in
      whatever order they are relayed. */
  lemma EveryExitPayable(w: World, steps: seq<Step>, exitNum: nat)
    requires Fresh(w) && NoMintNoMigration(steps) && exitNum in Exec(w, steps).exits
    ensures PaidOut(Exec(w, steps), Next(Exec(w, steps), RelayExit(exitNum)), exitNum)
  {
    FreshSolvent(w);
    SolventForever(w, steps);
    SolventPays(Exec(w, steps), exitNum);
    PaidIffCovered(Exec(w, steps), exitNum);
  }

  /** With L2 tokens minted at will, an exit is paid exactly when the escrow still covers it;
      otherwise the call changes nothing. Releases never exceed what the escrow took in. */
  lemma ReleasesAreCollateralised(w: World, steps: seq<Step>, exitNum: nat)
    requires Fresh(w)
    ensures var r := Exec(w, steps);
      && r.books.released <= r.books.taken
      && (exitNum in r.exits ==>
            if r.exits[exitNum].amount <= Escrow(r)
            then PaidOut(r, Next(r, RelayExit(exitNum)), exitNum)
            else Next(r, RelayExit(exitNum)) == r)
  {
    FreshBalanced(w);
    Conservation(w, steps);
    if exitNum in Exec(w, steps).exits {
      PaidIffCovered(Exec(w, steps), exitNum);
    }
  }

  // ---------------------------------------------------------------- messages

  /** Messages are delivered at most once and are never altered on the way: whatever is in
      flight later under an old number was in flight, the same, before; and what was in
      flight stays so until its own relay. */
  lemma {:induction false} MessagesOnce(w: World, steps: seq<Step>)
    requires Balanced(w)
    ensures var r := Exec(w, steps);
      && w.l2.exitNum <= r.l2.exitNum && w.sequence <= r.sequence && Balanced(r)
      && (forall e :: e in r.exits && e < w.l2.exitNum ==> e in w.exits && r.exits[e] == w.exits[e])
      && (forall i :: i in r.tickets && i < w.sequence ==> i in w.tickets && r.tickets[i] == w.tickets[i])
      && (forall e :: e in w.exits && RelayExit(e) !in steps ==> e in r.exits && r.exits[e] == w.exits[e])
      && (forall i :: i in w.tickets && RelayDeposit(i, true) !in steps && RelayDeposit(i, false) !in steps ==>
            i in r.tickets && r.tickets[i] == w.tickets[i])
    decreases |steps|
  {
    if steps == [] {
    } else {
      var init := steps[..|steps| - 1];
      MessagesOnce(w, init);
      assert steps == init + [steps[|steps| - 1]];
      BalancedStep(Exec(w, init), steps[|steps| - 1]);
      TicketsStep(Exec(w, init), steps[|steps| - 1]);
      ExitsStep(Exec(w, init), steps[|steps| - 1]);
      hide Balanced, Next;
    }
  }

  lemma TicketsStep(w: World, step: Step)
    requires Balanced(w)
    ensures var r := Next(w, step);
      && w.sequence <= r.sequence
      && (forall i :: i in r.tickets && i < w.sequence ==> i in w.tickets && r.tickets[i] == w.tickets[i])
      && (forall i :: i in w.tickets && step != RelayDeposit(i, true) && step != RelayDeposit(i, false) ==>
            i in r.tickets && r.tickets[i] == w.tickets[i])
  {
    hide Supply, InTickets, InExits;
    if !(step.Deposit? || step.RelayDeposit?) {
      hide Balanced;
      assert Next(w, step).tickets == w.tickets && Next(w, step).sequence == w.sequence;
    }
  }

  lemma ExitsStep(w: World, step: Step)
    requires Balanced(w)
    ensures var r := Next(w, step);
      && w.l2.exitNum <= r.l2.exitNum
      && (forall e :: e in r.exits && e < w.l2.exitNum ==> e in w.exits && r.exits[e] == w.exits[e])
      && (forall e :: e in w.exits && step != RelayExit(e) ==> e in r.exits && r.exits[e] == w.exits[e])
  {
    hide Supply, InTickets, InExits;
    if !(step.RelayDeposit? || step.Withdraw? || step.RelayExit?) {
      hide Balanced;
      assert Next(w, step).exits == w.exits && Next(w, step).l2.exitNum == w.l2.exitNum;
    }
  }

  // ---------------------------------------------------------------- there and back

  /** The deposit goes through, by someone other than the gateway. */
  predicate Depositable(w: World, from: Account, amount: nat) {
    && from != w.l1.self && !w.l1.depositsPaused
    && amount <= Get(w.l1.ledger, from) && amount <= Get(w.l1.allowance, from)
  }

  /** A deposit whose token is ready ends up with its recipient, and nowhere else: what the
      escrow gained is minted, also when the token takes a fee on the way. */
  lemma DepositArrives(w: World, from: Account, to: Account, amount: nat, received: nat)
    requires Balanced(w) && Depositable(w, from, amount)
    ensures var r := Next(Next(w, Deposit(from, to, amount, received, false)), RelayDeposit(w.sequence, true));
      && r.l1 == w.l1.(ledger := r.l1.ledger, allowance := Burn(w.l1.allowance, from, amount))
      && Get(r.l1.ledger, from) == Get(w.l1.ledger, from) - amount && Escrow(r) == Escrow(w) + received
      && OthersKeep(w.l1.ledger, r.l1.ledger, {from, w.l1.self})
      && r.l2 == w.l2.(ledger := r.l2.ledger) && Get(r.l2.ledger, to) == Get(w.l2.ledger, to) + received
      && OthersKeep(w.l2.ledger, r.l2.ledger, {to})
      && r.tickets == w.tickets && r.exits == w.exits
  {
    var w1 := Next(w, Deposit(from, to, amount, received, false));
    assert w1.tickets == w.tickets[w.sequence := Ticket(from, to, received)];
    assert w1.tickets - {w.sequence} == w.tickets;
  }

  /** A withdrawal that the escrow covers, made by a holder for `to`: it is paid to whoever
      owns the new exit, which is `to` unless `to` has given that exit number away. */
  lemma WithdrawalArrives(w: World, from: Account, to: Account, amount: nat)
    requires w.l2.exitNum !in w.exits && !w.l2.withdrawalsPaused
    requires amount <= Get(w.l2.ledger, from) && amount <= Escrow(w)
    ensures var r := Next(Next(w, Withdraw(from, to, amount, true, false)), RelayExit(w.l2.exitNum));
      && Paid(w.l1, r.l1, CurrentOwner(w.l1, (w.l2.exitNum, to)), amount)
      && r.l2 == w.l2.(ledger := r.l2.ledger, exitNum := w.l2.exitNum + 1)
      && Get(r.l2.ledger, from) == Get(w.l2.ledger, from) - amount
      && OthersKeep(w.l2.ledger, r.l2.ledger, {from})
      && r.tickets == w.tickets && r.exits == w.exits
  {
    var w1 := Next(w, Withdraw(from, to, amount, true, false));
    assert w1.exits == w.exits[w.l2.exitNum := Exit(to, amount)];
    assert w1.exits - {w.l2.exitNum} == w.exits;
  }

  /** The round trip. A deposit that is withdrawn again for the depositor leaves every L2
      balance and every message in flight as it was, and every L1 balance exactly if the
      depositor owns the exit of the withdrawal. */
  lemma RoundTrip(w: World, from: Account, to: Account, amount: nat)
    requires Balanced(w) && Depositable(w, from, amount) && !w.l2.withdrawalsPaused
    ensures var there := Next(Next(w, Deposit(from, to, amount, amount, false)), RelayDeposit(w.sequence, true));
            var back := Next(Next(there, Withdraw(to, from, amount, true, false)), RelayExit(w.l2.exitNum));
      && (OthersKeep(w.l1.ledger, back.l1.ledger, {})
          <==> amount == 0 || CurrentOwner(w.l1, (w.l2.exitNum, from)) == from)
      && OthersKeep(w.l2.ledger, back.l2.ledger, {})
      && back.tickets == w.tickets && back.exits == w.exits
  {
    var there := Next(Next(w, Deposit(from, to, amount, amount, false)), RelayDeposit(w.sequence, true));
    var back := Next(Next(there, Withdraw(to, from, amount, true, false)), RelayExit(w.l2.exitNum));
    DepositArrives(w, from, to, amount, amount);
    assert w.l2.exitNum !in w.exits;
    hide Next, Balanced, CurrentOwner;
    WithdrawalArrives(there, to, from, amount);
    OutAndIn(w.l1, there.l1, back.l1, from, CurrentOwner(there.l1, (w.l2.exitNum, from)), amount);
    SameOwners(w.l1, there.l1, (w.l2.exitNum, from));
  }

  lemma SameOwners(s: L1State, t: L1State, key: ExitKey)
    requires s.redirected == t.redirected
    ensures CurrentOwner(s, key) == CurrentOwner(t, key)
  {
  }

  /** Escrowed by one account and then paid to another: all is as before only if they are
      the same, or it was nothing. */
  lemma OutAndIn(s: L1State, t: L1State, u: L1State, from: Account, dest: Account, amount: nat)
    requires from != s.self && t.self == s.self && amount <= Get(s.ledger, from)
    requires Get(t.ledger, from) == Get(s.ledger, from) - amount
    requires Get(t.ledger, s.self) == Get(s.ledger, s.self) + amount
    requires OthersKeep(s.ledger, t.ledger, {from, s.self}) && Paid(t, u, dest, amount)
    ensures OthersKeep(s.ledger, u.ledger, {}) <==> amount == 0 || dest == from
  {
    if amount > 0 && dest != from {
      assert Get(u.ledger, from) != Get(s.ledger, from);
    }
  }

  lemma BouncedDeposit(w: World, from: Account, to: Account, amount: nat)
    requires Balanced(w) && Depositable(w, from, amount)
    ensures var r := Next(Next(w, Deposit(from, to, amount, amount, false)), RelayDeposit(w.sequence, false));
      && r.l1 == w.l1.(ledger := Move(w.l1.ledger, from, w.l1.self, amount, amount),
                       allowance := Burn(w.l1.allowance, from, amount))
      && r.l2.ledger == w.l2.ledger && r.tickets == w.tickets
      && r.exits == w.exits[w.l2.exitNum := Exit(from, amount)] && w.l2.exitNum !in w.exits
  {
    var w1 := Next(w, Deposit(from, to, amount, amount, false));
    assert w1.tickets == w.tickets[w.sequence := Ticket(from, to, amount)];
    assert w1.tickets - {w.sequence} == w.tickets;
  }

  /** A deposit whose L2 token is missing is sent back: after deposit, relay and release no
      L2 balance has moved, no message is left over and the allowance is spent. Every L1
      balance is what it was if and only if the depositor owns the exit that the bounce
      creates; otherwise its owner has the amount. */
  lemma ForcedWithdrawalReturns(w: World, from: Account, to: Account, amount: nat)
    requires Balanced(w) && Depositable(w, from, amount)
    ensures var r := Next(Next(Next(w, Deposit(from, to, amount, amount, false)),
                                    RelayDeposit(w.sequence, false)), RelayExit(w.l2.exitNum));
            var owner := CurrentOwner(w.l1, (w.l2.exitNum, from));
      && (OthersKeep(w.l1.ledger, r.l1.ledger, {}) <==> amount == 0 || owner == from)
      && (owner != from ==>
            && Get(r.l1.ledger, from) == Get(w.l1.ledger, from) - amount
            && Get(r.l1.ledger, owner) == Get(w.l1.ledger, owner) + amount)
      && r.l2.ledger == w.l2.ledger && r.tickets == w.tickets && r.exits == w.exits
      && Get(r.l1.allowance, from) == Get(w.l1.allowance, from) - amount
  {
    var b := Next(Next(w, Deposit(from, to, amount, amount, false)), RelayDeposit(w.sequence, false));
    var r, e := Next(b, RelayExit(w.l2.exitNum)), w.l2.exitNum;
    BouncedDeposit(w, from, to, amount);
    PaidIffCovered(b, e);
    SameOwners(w.l1, b.l1, (e, from));
    assert w.exits[e := Exit(from, amount)] - {e} == w.exits;
    hide Next, Balanced, CurrentOwner;
    OutAndIn(w.l1, b.l1, r.l1, from, CurrentOwner(w.l1, (e, from)), amount);
  }

  // ---------------------------------------------------------------- tradeable exits

  /** Is the step an accepted transfer of this exit? */
  predicate Transferred(w: World, step: Step, key: ExitKey) {
    step.RedirectExit? && step.call.key == key && ExitCallAccepted(w.l1, step.call)
  }

  /** The accepted transfers of one exit in a history, oldest first. */
  function Transfers(w: World, steps: seq<Step>, key: ExitKey): seq<ExitCall> {
    if steps == [] then []
    else
      var init, last := steps[..|steps| - 1], steps[|steps| - 1];
      Transfers(w, init, key) + if Transferred(Exec(w, init), last, key) then [last.call] else []
  }

  /** Each transfer is made by the one it was last transferred to. */
  predicate ChainOfCustody(owner: Account, calls: seq<ExitCall>) {
    && (calls != [] ==> calls[0].sender == owner)
    && (forall i :: 0 <= i < |calls| - 1 ==> calls[i + 1].sender == calls[i].newDest)
  }

  function LastDest(owner: Account, calls: seq<ExitCall>): Account {
    if calls == [] then owner else calls[|calls| - 1].newDest
  }

  lemma OwnerStep(w: World, step: Step, key: ExitKey)
    ensures CurrentOwner(Next(w, step).l1, key)
         == if Transferred(w, step, key) then step.call.newDest else CurrentOwner(w.l1, key)
  {
    if !step.RedirectExit? {
      assert Next(w, step).l1.redirected == w.l1.redirected;
    }
  }

  /** After any history the owner of an exit is the destination of its last accepted
      transfer; the accepted transfers form a chain of custody that starts with the owner
      at the beginning; and only calls for this very exit play a part. */
  lemma {:induction false} ExitCustody(w: World, steps: seq<Step>, key: ExitKey)
    ensures var calls := Transfers(w, steps, key);
      && CurrentOwner(Exec(w, steps).l1, key) == LastDest(CurrentOwner(w.l1, key), calls)
      && ChainOfCustody(CurrentOwner(w.l1, key), calls)
      && forall i :: 0 <= i < |calls| ==> calls[i].key == key && !calls[i].newData
    decreases |steps|
  {
    if steps == [] {
    } else {
      var init, last := steps[..|steps| - 1], steps[|steps| - 1];
      ExitCustody(w, init, key);
      OwnerStep(Exec(w, init), last, key);
      hide Next, CurrentOwner;
    }
  }

  /** A transfer that is not accepted -- another sender than the owner, new data, or a hook
      that is no contract or fails -- changes nothing at all. Of those accepted only a
      repeated transfer to oneself changes nothing. */
  lemma TransferRefusedIff(w: World, call: ExitCall)
    ensures var toOneself := call.key in w.l1.redirected && call.newDest == call.sender;
            Next(w, RedirectExit(call)) == w <==> (!ExitCallAccepted(w.l1, call) || toOneself)
  {
  }

  /** A withdrawal relayed after any history pays the last destination in the chain of its
      transfers, if the escrow covers it; otherwise nothing happens. */
  lemma PayoutFollowsCustody(w: World, steps: seq<Step>, exitNum: nat)
    requires exitNum in Exec(w, steps).exits
    ensures var r, r' := Exec(w, steps), Next(Exec(w, steps), RelayExit(exitNum));
            var key := (exitNum, r.exits[exitNum].to);
      if r.exits[exitNum].amount <= Escrow(r)
      then PaidOut(r, r', exitNum)
           && Paid(r.l1, r'.l1, LastDest(CurrentOwner(w.l1, key), Transfers(w, steps, key)), r.exits[exitNum].amount)
      else r' == r
  {
    PaidIffCovered(Exec(w, steps), exitNum);
    ExitCustody(w, steps, (exitNum, Exec(w, steps).exits[exitNum].to));
  }

  // ------------------------------------------------------- a bounced deposit, interleaved

  /** Neither relay of ticket `id` is among the steps. */
  predicate NotRelayed(steps: seq<Step>, id: nat) {
    RelayDeposit(id, true) !in steps && RelayDeposit(id, false) !in steps
  }

  /** The world before the relay of a deposit that was followed by `between`. */
  function BeforeBounce(w: World, deposit: Step, between: seq<Step>): World { Exec(Next(w, deposit), between) }

  /** The same after the token was found missing and `after` went by. */
  function AfterBounce(w: World, deposit: Step, between: seq<Step>, after: seq<Step>): World {
    Exec(Next(BeforeBounce(w, deposit, between), RelayDeposit(w.sequence, false)), after)
  }

  /** Whatever else happens between a deposit, its bounce and the release: the exit carries
      exactly what the escrow gained, back to the depositor; its owner is whom the depositor
      last passed it on to; the release pays that owner in full exactly if the escrow covers
      it, and it does when only the bridge mints. */
  lemma BounceInterleaved(w: World, deposit: Step, between: seq<Step>, after: seq<Step>)
    requires Balanced(w) && deposit.Deposit? && !deposit.extraData && Depositable(w, deposit.from, deposit.amount)
    requires NotRelayed(between, w.sequence)
    requires RelayExit(BeforeBounce(w, deposit, between).l2.exitNum) !in after
    ensures var a, c := BeforeBounce(w, deposit, between), AfterBounce(w, deposit, between, after);
            var e, r := a.l2.exitNum, Next(c, RelayExit(a.l2.exitNum));
            var owner := LastDest(CurrentOwner(a.l1, (e, deposit.from)),
                                  Transfers(Next(a, RelayDeposit(w.sequence, false)), after, (e, deposit.from)));
      && e in c.exits && c.exits[e] == Exit(deposit.from, deposit.received)
      && (if deposit.received <= Escrow(c)
          then PaidOut(c, r, e) && Paid(c.l1, r.l1, owner, deposit.received) else r == c)
      && (Solvent(w) && NoMintNoMigration(between) && NoMintNoMigration(after) ==> deposit.received <= Escrow(c))
  {
    var w1, ticket := Next(w, deposit), Ticket(deposit.from, deposit.to, deposit.received);
    assert w1.tickets == w.tickets[w.sequence := ticket];
    BalancedStep(w, deposit);
    MessagesOnce(w1, between);
    var a := Exec(w1, between);
    assert w.sequence in a.tickets && a.tickets[w.sequence] == ticket;
    BounceThen(a, w.sequence, after);
    if Solvent(w) && NoMintNoMigration(between) {
      SolventForever(w1, between);
    }
  }

  /** The part from the bounce on. */
  lemma BounceThen(a: World, id: nat, after: seq<Step>)
    requires Balanced(a) && id in a.tickets && RelayExit(a.l2.exitNum) !in after
    ensures var t, e := a.tickets[id], a.l2.exitNum;
            var b := Next(a, RelayDeposit(id, false));
            var c, r := Exec(b, after), Next(Exec(b, after), RelayExit(e));
            var owner := LastDest(CurrentOwner(a.l1, (e, t.from)), Transfers(b, after, (e, t.from)));
      && e in c.exits && c.exits[e] == Exit(t.from, t.amount)
      && (if t.amount <= Escrow(c) then PaidOut(c, r, e) && Paid(c.l1, r.l1, owner, t.amount) else r == c)
      && (Solvent(a) && NoMintNoMigration(after) ==> t.amount <= Escrow(c))
  {
    var b, e := Next(a, RelayDeposit(id, false)), a.l2.exitNum;
    BalancedStep(a, RelayDeposit(id, false));
    assert b.exits[e] == Exit(a.tickets[id].from, a.tickets[id].amount) && b.l1 == a.l1 && b.books == a.books;
    hide Next, Balanced;
    MessagesOnce(b, after);
    PayoutFollowsCustody(b, after, e);
    if Solvent(b) && NoMintNoMigration(after) {
      SolventForever(b, after);
      SolventPays(Exec(b, after), e);
    }
  }

  // ---------------------------------------------------------------- when they fail

  /** Gateway 1 with nothing in escrow; account 2 has ten tokens and has approved them. */
  function Opening(): World {
    World(L1State(1, map[2 := 10], map[2 := 10], map[], 9, false, 0, 0), L2State(map[], 0, 9, false),
          map[], 0, map[], Books(0, 0, 0, 0, 0))
  }

  lemma NothingClaimed(w: World)
    requires w.l2.ledger == map[2 := 0] || w.l2.ledger == map[]
    requires w.tickets == map[] && w.exits == map[]
    ensures Claims(w) == 0
  {
    assert TicketAmounts(w.tickets) == map[] && ExitAmounts(w.exits) == map[];
    if w.l2.ledger != map[] {
      TotalMint(map[], 2, 0);
    }
  }

  /** The escrow no longer equals the claims after a donation. */
  lemma DonationBreaksEquality()
    ensures Fresh(Opening())
    ensures var r := Next(Opening(), TransferL1(2, 1, 5)); Escrow(r) == 5 && Claims(r) == 0
  {
    hide Claims, Total;
    NothingClaimed(Next(Opening(), TransferL1(2, 1, 5)));
  }

  /** Nor does it after a deposit that its recipient burns. */
  lemma BurningBreaksEquality()
    ensures var minted := Next(Next(Opening(), Deposit(2, 2, 5, 5, false)), RelayDeposit(0, true));
            var r := Next(minted, BurnL2(2, 5));
            Escrow(minted) == 5 && Escrow(r) == 5 && Claims(r) == 0
  {
    hide Claims, Total;
    var sent := Next(Opening(), Deposit(2, 2, 5, 5, false));
    assert sent.tickets == map[0 := Ticket(2, 2, 5)] && sent.l2 == Opening().l2 && Escrow(sent) == 5;
    var minted := Next(sent, RelayDeposit(0, true));
    assert minted.l2.ledger == map[2 := 5] && minted.tickets == map[] && Escrow(minted) == 5;
    NothingClaimed(Next(minted, BurnL2(2, 5)));
  }

  /** A forced withdrawal that does not return: account 2 has given away exit number 0, which
      does not exist yet, and then deposits all it has before the L2 token is there. */
  lemma RedirectedBounceIsLost()
    ensures var w := Next(Opening(), RedirectExit(ExitCall(2, (0, 2), 3, false, false, false, false)));
            var r := Next(Next(Next(w, Deposit(2, 2, 10, 10, false)), RelayDeposit(0, false)), RelayExit(0));
            CurrentOwner(w.l1, (0, 2)) == 3 && Get(r.l1.ledger, 2) == 0 && Get(r.l1.ledger, 3) == 10
  {
    hide *;
    OpeningGivenAway();
    var w := Next(Opening(), RedirectExit(ExitCall(2, (0, 2), 3, false, false, false, false)));
    FreshBalanced(w);
    ForcedWithdrawalReturns(w, 2, 2, 10);
  }

  lemma OpeningGivenAway()
    ensures var w := Next(Opening(), RedirectExit(ExitCall(2, (0, 2), 3, false, false, false, false)));
      && Fresh(w) && Depositable(w, 2, 10) && w.l2.exitNum == 0 && w.sequence == 0
      && CurrentOwner(w.l1, (0, 2)) == 3 && Get(w.l1.ledger, 2) == 10 && Get(w.l1.ledger, 3) == 0
  {
  }
}
