/** Paying for retryables in a fee token, when the inbox may already hold some of it. */
module Retryables {
  import opened Wrappers
  import opened Ledger

  /** What the inbox sends on for a ticket: exactly its fee, or, as the mock does, all it has. */
  datatype Inbox = Exact | Sweeping

  datatype Chain = Chain(kind: Inbox, router: Account, inbox: Account, bridge: Account)

  /** An attempt to create a ticket. `sender` calls the gateway for `user`; `approved` is what
      the payer lets the gateway take; the inbox refuses a fee below `required`. */
  datatype Attempt = Attempt(sender: Account, user: Account, approved: nat, fee: nat, required: nat)

  function Payer(c: Chain, a: Attempt): Account { if a.sender == c.router then a.user else a.sender }

  function Shortfall(c: Chain, native: Balances, fee: nat): nat {
    if Get(native, c.inbox) < fee then fee - Get(native, c.inbox) else 0
  }

  /** The fee token's balances after `_createRetryable`, or None for a revert. */
  function Create(c: Chain, native: Balances, a: Attempt): Option<Balances> {
    var missing := Shortfall(c, native, a.fee);
    if missing > 0 && (a.approved < missing || Get(native, Payer(c, a)) < missing) then None
    else
      var paid := if missing > 0 then Move(native, Payer(c, a), c.inbox, missing, missing) else native;
      var sent := if c.kind.Exact? then a.fee else Get(paid, c.inbox);
      if a.fee < a.required || Get(paid, c.inbox) < sent then None
      else Some(Move(paid, c.inbox, c.bridge, sent, sent))
  }

  /** The fee covers the ticket, and inbox and payer together, within the approval, the fee. */
  predicate Affordable(c: Chain, native: Balances, a: Attempt, payer: Account) {
    && a.required <= a.fee <= Get(native, c.inbox) + Get(native, payer)
    && a.fee <= Get(native, c.inbox) + a.approved
  }

  class FeeGateway {
    const chain: Chain
    var native: Balances

    constructor (chain: Chain, native: Balances)
      ensures this.chain == chain && this.native == native
    {
      this.chain := chain;
      this.native := native;
    }

    /** `_createRetryable`, in `L1OrbitERC20Gateway`; a revert restores the balances. What the
        inbox lacks of the fee comes from the user of a routed call, and from the caller of a
        direct one. */
    method CreateRetryable(a: Attempt) returns (ok: bool)
      modifies this
      ensures a.sender == chain.router && a.user != chain.inbox ==>
        (ok <==> Affordable(chain, old(native), a, a.user))
      ensures a.sender != chain.router && a.sender != chain.inbox ==>
        (ok <==> Affordable(chain, old(native), a, a.sender))
      ensures ok && chain.inbox != chain.bridge ==>
        forall who :: who !in {chain.inbox, chain.bridge} ==>
          Get(native, who) == Get(old(native), who) -
            if who == (if a.sender == chain.router then a.user else a.sender) && Get(old(native), chain.inbox) < a.fee
            then a.fee - Get(old(native), chain.inbox) else 0
      ensures !ok ==> native == old(native)
      ensures ok == Create(chain, old(native), a).Some?
      ensures native == if ok then Create(chain, old(native), a).value else old(native)
    {
      var before := native;
      var inboxBalance := Get(native, chain.inbox);
      if inboxBalance < a.fee {
        var transferFrom := if a.sender == chain.router then a.user else a.sender;
        ok := Transfer(transferFrom, chain.inbox, a.fee - inboxBalance, a.approved);
        if !ok {
          return;
        }
      }
      ok := InboxCreateTicket(a.fee, a.required);
      if !ok {
        native := before;
      }
    }

    method Transfer(from: Account, to: Account, amount: nat, allowance: nat) returns (ok: bool)
      modifies this
      ensures ok == (amount <= allowance && amount <= Get(old(native), from))
      ensures native == if ok then Move(old(native), from, to, amount, amount) else old(native)
    {
      ok := amount <= allowance && amount <= Get(native, from);
      if ok {
        native := Move(native, from, to, amount, amount);
      }
    }

    method InboxCreateTicket(fee: nat, required: nat) returns (ok: bool)
      modifies this
      ensures var sent := if chain.kind.Exact? then fee else Get(old(native), chain.inbox);
              && ok == (required <= fee && sent <= Get(old(native), chain.inbox))
              && native == if ok then Move(old(native), chain.inbox, chain.bridge, sent, sent) else old(native)
    {
      if fee < required {
        return false;
      }
      var sent := fee;
      if chain.kind.Sweeping? {
        sent := Get(native, chain.inbox);
      }
      ok := Transfer(chain.inbox, chain.bridge, sent, sent);
    }
  }

  // ---------------------------------------------------------------- one ticket

  /** The payer makes up exactly what the inbox lacks, and nobody else pays. */
  lemma ShortfallRule(c: Chain, native: Balances, a: Attempt, who: Account)
    requires c.inbox != c.bridge && who !in {c.inbox, c.bridge} && Create(c, native, a).Some?
    ensures Get(Create(c, native, a).value, who)
         == Get(native, who) - (if who == Payer(c, a) then Shortfall(c, native, a.fee) else 0)
  {
  }

  /** Fee tokens are neither made nor lost. */
  lemma CreateConserves(c: Chain, native: Balances, a: Attempt)
    requires Create(c, native, a).Some?
    ensures Total(Create(c, native, a).value) == Total(native)
  {
    var missing := Shortfall(c, native, a.fee);
    var paid := native;
    if missing > 0 {
      TotalMove(native, Payer(c, a), c.inbox, missing);
      paid := Move(native, Payer(c, a), c.inbox, missing, missing);
    }
    TotalMove(paid, c.inbox, c.bridge, if c.kind.Exact? then a.fee else Get(paid, c.inbox));
  }

  /** Whether a ticket is created, said of the balances alone. */
  lemma CreatedIff(c: Chain, native: Balances, a: Attempt)
    requires Payer(c, a) != c.inbox
    ensures Create(c, native, a).Some? <==> Affordable(c, native, a, Payer(c, a))
  {
  }

  // ---------------------------------------------------------------- any sequence of tickets

  /** What a sequence of attempts comes to; those that revert have no effect. */
  datatype Outcome = Outcome(native: Balances, fees: nat, outlay: nat)

  function Run(c: Chain, native: Balances, attempts: seq<Attempt>): Outcome
    decreases |attempts|
  {
    if attempts == [] then Outcome(native, 0, 0)
    else
      match Create(c, native, attempts[0])
      case None => Run(c, native, attempts[1..])
      case Some(after) =>
        var rest := Run(c, after, attempts[1..]);
        Outcome(rest.native, attempts[0].fee + rest.fees, Shortfall(c, native, attempts[0].fee) + rest.outlay)
  }

  predicate Outsiders(c: Chain, attempts: seq<Attempt>) {
    forall i :: 0 <= i < |attempts| ==> Payer(c, attempts[i]) !in {c.inbox, c.bridge}
  }

  function Excess(a: nat, b: nat): nat { if a > b then a - b else 0 }

  /** With an inbox that sends on each fee, the payers together pay what the fees exceed the
      prefunding by, whatever their order; the bridge receives the fees, the inbox keeps what
      is left of the prefunding, and nothing is lost. */
  lemma {:induction false} OutlayTelescopes(c: Chain, native: Balances, attempts: seq<Attempt>)
    requires c.kind.Exact? && c.inbox != c.bridge && Outsiders(c, attempts)
    ensures var end := Run(c, native, attempts);
      && end.outlay == Excess(end.fees, Get(native, c.inbox))
      && Get(end.native, c.inbox) == Excess(Get(native, c.inbox), end.fees)
      && Get(end.native, c.bridge) == Get(native, c.bridge) + end.fees
      && Total(end.native) == Total(native)
    decreases |attempts|
  {
    if attempts == [] {
    } else {
      match Create(c, native, attempts[0])
      case None => OutlayTelescopes(c, native, attempts[1..]);
      case Some(after) =>
        CreateConserves(c, native, attempts[0]);
        OutlayTelescopes(c, after, attempts[1..]);
    }
  }

  /** Each account's loss over a run is the shortfalls of its own tickets. */
  function OutlayOf(c: Chain, native: Balances, attempts: seq<Attempt>, who: Account): nat
    decreases |attempts|
  {
    if attempts == [] then 0
    else
      match Create(c, native, attempts[0])
      case None => OutlayOf(c, native, attempts[1..], who)
      case Some(after) =>
        (if who == Payer(c, attempts[0]) then Shortfall(c, native, attempts[0].fee) else 0)
        + OutlayOf(c, after, attempts[1..], who)
  }

  lemma {:induction false} EachPaysItsOwn(c: Chain, native: Balances, attempts: seq<Attempt>, who: Account)
    requires c.inbox != c.bridge && who !in {c.inbox, c.bridge}
    ensures Get(Run(c, native, attempts).native, who) + OutlayOf(c, native, attempts, who) == Get(native, who)
    decreases |attempts|
  {
    if attempts == [] {
    } else {
      match Create(c, native, attempts[0])
      case None => EachPaysItsOwn(c, native, attempts[1..], who);
      case Some(after) =>
        ShortfallRule(c, native, attempts[0], who);
        EachPaysItsOwn(c, after, attempts[1..], who);
    }
  }

  /** An empty sweeping inbox makes every payer pay the whole fee. */
  lemma {:induction false} SweptClean(c: Chain, native: Balances, attempts: seq<Attempt>)
    requires c.kind.Sweeping? && c.inbox != c.bridge && Outsiders(c, attempts) && Get(native, c.inbox) == 0
    ensures Run(c, native, attempts).outlay == Run(c, native, attempts).fees
    decreases |attempts|
  {
    if attempts == [] {
    } else {
      match Create(c, native, attempts[0])
      case None => SweptClean(c, native, attempts[1..]);
      case Some(after) => SweptClean(c, after, attempts[1..]);
    }
  }

  /** Every attempt is for nothing, or refused at its turn. */
  predicate AllFree(c: Chain, native: Balances, attempts: seq<Attempt>)
    decreases |attempts|
  {
    attempts == []
    || match Create(c, native, attempts[0])
       case None => AllFree(c, native, attempts[1..])
       case Some(after) => attempts[0].fee == 0 && AllFree(c, after, attempts[1..])
  }

  /** The first ticket that is created uses up the prefunding, or all later ones are free. */
  predicate UsesUpOrLast(c: Chain, native: Balances, attempts: seq<Attempt>)
    decreases |attempts|
  {
    attempts == []
    || match Create(c, native, attempts[0])
       case None => UsesUpOrLast(c, native, attempts[1..])
       case Some(after) => Get(native, c.inbox) <= attempts[0].fee || AllFree(c, after, attempts[1..])
  }

  lemma {:induction false} FreeIff(c: Chain, native: Balances, attempts: seq<Attempt>)
    ensures Run(c, native, attempts).fees == 0 <==> AllFree(c, native, attempts)
    decreases |attempts|
  {
    if attempts == [] {
    } else {
      match Create(c, native, attempts[0])
      case None => FreeIff(c, native, attempts[1..]);
      case Some(after) => FreeIff(c, after, attempts[1..]);
    }
  }

  /** With the mock, which sends all it has on with the first ticket, the outlay telescopes
      exactly if that ticket uses up the prefunding, or every later attempt is for nothing or
      refused at its turn. */
  lemma {:induction false} MockTelescopesIff(c: Chain, native: Balances, attempts: seq<Attempt>)
    requires c.kind.Sweeping? && c.inbox != c.bridge && Outsiders(c, attempts)
    ensures var end := Run(c, native, attempts);
      end.outlay == Excess(end.fees, Get(native, c.inbox)) <==> UsesUpOrLast(c, native, attempts)
    decreases |attempts|
  {
    if attempts == [] {
    } else {
      match Create(c, native, attempts[0])
      case None => MockTelescopesIff(c, native, attempts[1..]);
      case Some(after) =>
        SweptClean(c, after, attempts[1..]);
        FreeIff(c, after, attempts[1..]);
    }
  }

  /** A prefunding of ten is swept away by a ticket for four; the next one for four is paid
      in full, though the fees together are below the prefunding. */
  lemma MockSweepsPrefunding()
    ensures var c := Chain(Sweeping, 7, 1, 2);
            var end := Run(c, map[1 := 10, 3 := 4], [Attempt(3, 3, 4, 4, 0), Attempt(3, 3, 4, 4, 0)]);
            end.fees == 8 && end.outlay == 4
  {
    var c, native, a := Chain(Sweeping, 7, 1, 2), map[1 := 10, 3 := 4], Attempt(3, 3, 4, 4, 0);
    assert [a, a][1..] == [a] && [a][1..] == [];
    var after := Create(c, native, a).value;
    assert Get(after, 1) == 0 && Get(after, 3) == 4;
    assert Run(c, after, [a]).fees == 4 && Run(c, after, [a]).outlay == 4;
  }
}
