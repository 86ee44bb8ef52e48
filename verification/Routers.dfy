/** The two gateway routers, and the tickets by which the L2 router mirrors the L1 router. */
module Routers {
  import opened Wrappers
  import opened Addresses

  type Address = nat

  const ZERO: Address := 0
  const DISABLED: Address := 1

  /** An L1 gateway's counterpart is fixed when it is initialised; a call to an address
      without one reverts. `l1Code` and `l2Code` are the contracts of either chain. */
  datatype Env = Env(counterpart: map<Address, Address>, l1Code: set<Address>, l2Code: set<Address>)

  datatype Router = Router(owner: Address, routes: map<Address, Address>, defaultGateway: Address)

  /** The calldata that the L1 router sends to the L2 router. */
  datatype Ticket =
    | SetGateway(tokens: seq<Address>, gateways: seq<Address>)
    | SetDefaultGateway(gateway: Address)

  function RouteOf(r: Router, token: Address): Address {
    if token in r.routes then r.routes[token] else ZERO
  }

  function GetGateway(r: Router, token: Address, code: set<Address>): Address {
    var gateway := if RouteOf(r, token) == ZERO then r.defaultGateway else RouteOf(r, token);
    if gateway == DISABLED || gateway !in code then ZERO else gateway
  }

  /** The gateways written one after the other. */
  function Written(routes: map<Address, Address>, tokens: seq<Address>, gateways: seq<Address>): map<Address, Address>
    requires |tokens| == |gateways|
  {
    if tokens == [] then routes
    else
      var k := |tokens| - 1;
      Written(routes, tokens[..k], gateways[..k])[tokens[k] := gateways[k]]
  }

  /** Each listed token has the gateway given with its last mention, and no other token has
      another route than before. */
  ghost predicate LastWins(before: map<Address, Address>, after: map<Address, Address>,
                           tokens: seq<Address>, gateways: seq<Address>)
    requires |tokens| == |gateways|
  {
    && (forall i :: 0 <= i < |tokens| && LastMention(tokens, i) ==>
          tokens[i] in after && after[tokens[i]] == gateways[i])
    && (forall t :: t !in tokens ==> (t in after <==> t in before) && (t in after ==> after[t] == before[t]))
  }

  predicate LastMention(tokens: seq<Address>, i: nat)
    requires i < |tokens|
  {
    forall j :: i < j < |tokens| ==> tokens[j] != tokens[i]
  }

  lemma {:induction false} WrittenLastWins(routes: map<Address, Address>, tokens: seq<Address>, gateways: seq<Address>)
    requires |tokens| == |gateways|
    ensures LastWins(routes, Written(routes, tokens, gateways), tokens, gateways)
    decreases |tokens|
  {
    hide LastWins, LastMention;
    if tokens == [] {
      LastWinsNone(routes);
    } else {
      var k := |tokens| - 1;
      var before := Written(routes, tokens[..k], gateways[..k]);
      WrittenLastWins(routes, tokens[..k], gateways[..k]);
      LastWinsNext(routes, before, tokens[..k], gateways[..k], tokens[k], gateways[k]);
      assert tokens == tokens[..k] + [tokens[k]] && gateways == gateways[..k] + [gateways[k]];
    }
  }

  lemma LastWinsNone(routes: map<Address, Address>)
    ensures LastWins(routes, routes, [], [])
  {
  }

  lemma LastWinsNext(before: map<Address, Address>, after: map<Address, Address>,
                     tokens: seq<Address>, gateways: seq<Address>, token: Address, gateway: Address)
    requires |tokens| == |gateways| && LastWins(before, after, tokens, gateways)
    ensures LastWins(before, after[token := gateway], tokens + [token], gateways + [gateway])
  {
    var ts, gs, r := tokens + [token], gateways + [gateway], after[token := gateway];
    forall i | 0 <= i < |ts| && LastMention(ts, i)
      ensures ts[i] in r && r[ts[i]] == gs[i]
    {
      if i < |tokens| {
        assert ts[|tokens|] == token;
        assert forall j :: i < j < |tokens| ==> tokens[j] == ts[j];
        assert LastMention(tokens, i);
      }
    }
    forall t | t !in ts
      ensures (t in r <==> t in before) && (t in r ==> r[t] == before[t])
    {
      assert t !in tokens && ts[|tokens|] == token;
    }
  }

  lemma WrittenNone(routes: map<Address, Address>)
    ensures Written(routes, [], []) == routes
  {
  }

  lemma WrittenNext(routes: map<Address, Address>, tokens: seq<Address>, gateways: seq<Address>, i: nat)
    requires |tokens| == |gateways| && i < |tokens|
    ensures Written(routes, tokens[..i + 1], gateways[..i + 1])
         == Written(routes, tokens[..i], gateways[..i])[tokens[i] := gateways[i]]
  {
    assert tokens[..i + 1][..i] == tokens[..i] && gateways[..i + 1][..i] == gateways[..i];
  }

  /** A token with a route of its own is sent there, and nowhere if that is disabled or no
      contract. */
  lemma OwnRouteDecides(r: Router, token: Address, code: set<Address>)
    requires token in r.routes && r.routes[token] != ZERO
    ensures var g := r.routes[token];
            GetGateway(r, token, code) == if g in code && g != DISABLED then g else ZERO
  {
  }

  /** Any other goes to the default, on the same conditions. */
  lemma DefaultDecides(r: Router, token: Address, code: set<Address>)
    requires token in r.routes ==> r.routes[token] == ZERO
    ensures var g := r.defaultGateway;
            GetGateway(r, token, code) == if g in code && g != DISABLED then g else ZERO
  {
  }

  /** The L2 address that stands for an L1 gateway; zero and the disabled marker stand for
      themselves. */
  function Image(env: Env, gateway: Address): Address {
    if gateway in {ZERO, DISABLED} || gateway !in env.counterpart then gateway else env.counterpart[gateway]
  }

  function Images(env: Env, gateways: seq<Address>): (images: seq<Address>)
    ensures |images| == |gateways|
  {
    seq(|gateways|, i requires 0 <= i < |gateways| => Image(env, gateways[i]))
  }

  lemma ImagesAre(env: Env, gateways: seq<Address>, images: seq<Address>)
    requires |images| == |gateways|
    requires forall i :: 0 <= i < |gateways| ==> images[i] == Image(env, gateways[i])
    ensures images == Images(env, gateways)
  {
  }

  /** May the loop get past this entry? `handled` are the pairs for which the gateway's
      address oracle answers. */
  predicate Assignable(env: Env, handled: set<(Address, Address)>, token: Address, gateway: Address) {
    gateway in {ZERO, DISABLED} || ((gateway, token) in handled && gateway in env.counterpart)
  }

  predicate AllAssignable(env: Env, handled: set<(Address, Address)>, tokens: seq<Address>, gateways: seq<Address>)
    requires |tokens| == |gateways|
  {
    forall i :: 0 <= i < |tokens| ==> Assignable(env, handled, tokens[i], gateways[i])
  }

  /** `_setGateways`: the new router and its ticket, or None for a revert. */
  function AssignGateways(env: Env, r: Router, tokens: seq<Address>, gateways: seq<Address>,
                          handled: set<(Address, Address)>, feePaid: bool): Option<(Router, Ticket)>
  {
    if |tokens| != |gateways| || !AllAssignable(env, handled, tokens, gateways) || !feePaid then None
    else Some((r.(routes := Written(r.routes, tokens, gateways)), SetGateway(tokens, Images(env, gateways))))
  }

  /** A call to the L1 router. */
  datatype Call =
    /** The owner assigns gateways. */
    | OwnerSetGateways(sender: Address, tokens: seq<Address>, gateways: seq<Address>,
                       handled: set<(Address, Address)>, feePaid: bool)
    /** A token registers its own gateway. */
    | TokenSetGateway(token: Address, arbEnabled: bool, gateway: Address,
                      handled: set<(Address, Address)>, feePaid: bool)
    | OwnerSetDefault(sender: Address, gateway: Address, feePaid: bool)

  function Serve(env: Env, r: Router, call: Call): Option<(Router, Ticket)> {
    match call
    case OwnerSetGateways(sender, tokens, gateways, handled, feePaid) =>
      if sender != r.owner then None else AssignGateways(env, r, tokens, gateways, handled, feePaid)
    case TokenSetGateway(token, arbEnabled, gateway, handled, feePaid) =>
      var curr := GetGateway(r, token, env.l1Code);
      if !arbEnabled || gateway !in env.l1Code then None
      else if curr != ZERO && curr != r.defaultGateway && curr != gateway then None
      else AssignGateways(env, r, [token], [gateway], handled, feePaid)
    case OwnerSetDefault(sender, gateway, feePaid) =>
      if sender != r.owner || !feePaid || (gateway != ZERO && gateway !in env.counterpart) then None
      else
        var image := if gateway != ZERO then env.counterpart[gateway] else ZERO;
        Some((r.(defaultGateway := gateway), SetDefaultGateway(image)))
  }

  /** What a ticket does to the L2 router. */
  function Deliver(r: Router, t: Ticket): Router {
    match t
    case SetGateway(tokens, gateways) =>
      if |tokens| != |gateways| then r else r.(routes := Written(r.routes, tokens, gateways))
    case SetDefaultGateway(gateway) => r.(defaultGateway := gateway)
  }

  function DeliverAll(r: Router, tickets: seq<Ticket>): Router {
    if tickets == [] then r else Deliver(DeliverAll(r, tickets[..|tickets| - 1]), tickets[|tickets| - 1])
  }

  // ---------------------------------------------------------------- the contracts

  /** A token with a route of its own is sent where it was; any other to the default, if that
      is a contract and not disabled. */
  predicate FollowsDefault(before: Router, after: Router, token: Address, gateway: Address, code: set<Address>) {
    GetGateway(after, token, code) ==
      if RouteOf(before, token) != ZERO then GetGateway(before, token, code)
      else if gateway in code && gateway != DISABLED then gateway else ZERO
  }

  class L1Router {
    var router: Router

    constructor (owner: Address, defaultGateway: Address)
      ensures router == Router(owner, map[], defaultGateway)
    {
      router := Router(owner, map[], defaultGateway);
    }

    /** `_setGateways`. The gateway array is overwritten with the L2 addresses on the way,
        and is then the ticket's payload. A revert restores the storage. */
    method UpdateGateways(env: Env, tokens: array<Address>, gateways: array<Address>,
                          handled: set<(Address, Address)>, feePaid: bool) returns (ticket: Option<Ticket>)
      requires tokens != gateways
      modifies this, gateways
      ensures ticket.Some? <==>
        && tokens.Length == gateways.Length && feePaid
        && forall i :: 0 <= i < tokens.Length ==>
             var g := old(gateways[..])[i];
             g == ZERO || g == DISABLED || ((g, tokens[i]) in handled && g in env.counterpart)
      ensures ticket.None? ==> router == old(router)
      ensures ticket.Some? ==>
        && LastWins(old(router).routes, router.routes, tokens[..], old(gateways[..]))
        && router.defaultGateway == old(router).defaultGateway && router.owner == old(router).owner
        && ticket.value == Ticket.SetGateway(tokens[..], gateways[..])
        && forall i :: 0 <= i < tokens.Length ==>
             var g := old(gateways[..])[i];
             gateways[i] == if g == ZERO || g == DISABLED then g else env.counterpart[g]
      ensures match AssignGateways(env, old(router), tokens[..], old(gateways[..]), handled, feePaid)
              case None => ticket == None && router == old(router)
              case Some((r, t)) => ticket == Some(t) && router == r && gateways[..] == t.gateways
    {
      hide Written, LastWins, Images;
      if tokens.Length != gateways.Length {
        return None;
      }
      var routes := router.routes;
      ghost var given := gateways[..];
      WrittenNone(routes);
      assert tokens[..0] == [] && given[..0] == [];
      var i := 0;
      while i < tokens.Length
        invariant 0 <= i <= tokens.Length && router == old(router)
        invariant routes == Written(router.routes, tokens[..i], given[..i])
        invariant forall j :: 0 <= j < i ==> Assignable(env, handled, tokens[j], given[j])
        invariant forall j :: 0 <= j < i ==> gateways[j] == Image(env, given[j])
        invariant forall j :: i <= j < tokens.Length ==> gateways[j] == given[j]
      {
        WrittenNext(router.routes, tokens[..], given, i);
        assert tokens[..][..i] == tokens[..i] && tokens[..][..i + 1] == tokens[..i + 1];
        routes := routes[tokens[i] := gateways[i]];
        if gateways[i] != ZERO && gateways[i] != DISABLED {
          if (gateways[i], tokens[i]) !in handled || gateways[i] !in env.counterpart {
            assert !Assignable(env, handled, tokens[..][i], given[i]);
            return None;
          }
          gateways[i] := env.counterpart[gateways[i]];
        }
        i := i + 1;
      }
      assert tokens[..i] == tokens[..] && given[..i] == given;
      assert AllAssignable(env, handled, tokens[..], given);
      if !feePaid {
        return None;
      }
      WrittenLastWins(router.routes, tokens[..], given);
      router := router.(routes := routes);
      ImagesAre(env, given, gateways[..]);
      ticket := Some(Ticket.SetGateway(tokens[..], gateways[..]));
    }

    method SetGateways(env: Env, sender: Address, tokens: array<Address>, gateways: array<Address>,
                       handled: set<(Address, Address)>, feePaid: bool) returns (ticket: Option<Ticket>)
      requires tokens != gateways
      modifies this, gateways
      ensures ticket.Some? <==>
        && sender == old(router).owner && tokens.Length == gateways.Length && feePaid
        && forall i :: 0 <= i < tokens.Length ==>
             var g := old(gateways[..])[i];
             g == ZERO || g == DISABLED || ((g, tokens[i]) in handled && g in env.counterpart)
      ensures ticket.Some? ==>
        && LastWins(old(router).routes, router.routes, tokens[..], old(gateways[..]))
        && router.defaultGateway == old(router).defaultGateway && router.owner == old(router).owner
      ensures match Serve(env, old(router), OwnerSetGateways(sender, tokens[..], old(gateways[..]), handled, feePaid))
              case None => ticket == None && router == old(router)
              case Some((r, t)) => ticket == Some(t) && router == r
    {
      if sender != router.owner {
        return None;
      }
      ticket := UpdateGateways(env, tokens, gateways, handled, feePaid);
    }

    /** A token registers its gateway, for itself alone. */
    method SetGateway(env: Env, token: Address, arbEnabled: bool, gateway: Address,
                      handled: set<(Address, Address)>, feePaid: bool) returns (ticket: Option<Ticket>)
      modifies this
      ensures ticket.Some? <==>
        && arbEnabled && gateway in env.l1Code && feePaid
        && GetGateway(old(router), token, env.l1Code) in {ZERO, old(router).defaultGateway, gateway}
        && (gateway == ZERO || gateway == DISABLED || ((gateway, token) in handled && gateway in env.counterpart))
      ensures ticket.Some? ==> router == old(router).(routes := old(router).routes[token := gateway])
      ensures match Serve(env, old(router), TokenSetGateway(token, arbEnabled, gateway, handled, feePaid))
              case None => ticket == None && router == old(router)
              case Some((r, t)) => ticket == Some(t) && router == r
    {
      if !arbEnabled || gateway !in env.l1Code {
        return None;
      }
      var currGateway := GetGateway(router, token, env.l1Code);
      if currGateway != ZERO && currGateway != router.defaultGateway {
        if currGateway != gateway {
          return None;
        }
      }
      var tokenArr, gatewayArr := new Address[1](_ => token), new Address[1](_ => gateway);
      assert tokenArr[..] == [token] && gatewayArr[..] == [gateway];
      ghost var before := router;
      ticket := UpdateGateways(env, tokenArr, gatewayArr, handled, feePaid);
      if ticket.Some? {
        assert LastMention([token], 0);
        assert router.routes == before.routes[token := gateway];
      }
    }

    /** Refused for exactly these reasons and then without a trace. Otherwise exactly the
        tokens without a route of their own go to the new default, and whoever delivers the
        ticket to an L2 router that mirrored this one has it mirror this one again. */
    method SetDefaultGateway(env: Env, sender: Address, gateway: Address, feePaid: bool)
      returns (ticket: Option<Ticket>)
      modifies this
      ensures ticket.Some? <==>
        sender == old(router).owner && feePaid && (gateway == ZERO || gateway in env.counterpart)
      ensures ticket.None? ==> router == old(router)
      ensures ticket.Some? ==> forall token :: FollowsDefault(old(router), router, token, gateway, env.l1Code)
      ensures ticket.Some? && DISABLED !in env.counterpart ==>
        forall l2 :: Mirrors(env, old(router), l2) ==> Mirrors(env, router, Deliver(l2, ticket.value))
      ensures match Serve(env, old(router), OwnerSetDefault(sender, gateway, feePaid))
              case None => ticket == None && router == old(router)
              case Some((r, t)) => ticket == Some(t) && router == r
    {
      if sender != router.owner || (gateway != ZERO && gateway !in env.counterpart) || !feePaid {
        return None;
      }
      var image := ZERO;
      if gateway != ZERO {
        image := env.counterpart[gateway];
      }
      ghost var before := router;
      router := router.(defaultGateway := gateway);
      ticket := Some(Ticket.SetDefaultGateway(image));
      if DISABLED !in env.counterpart {
        forall l2 | Mirrors(env, before, l2)
          ensures Mirrors(env, router, Deliver(l2, ticket.value))
        {
          ServeMirrors(env, before, l2, OwnerSetDefault(sender, gateway, feePaid));
        }
      }
    }
  }

  class L2Router {
    const counterpartGateway: Address
    var router: Router

    constructor (counterpartGateway: Address, defaultGateway: Address)
      ensures this.counterpartGateway == counterpartGateway && router == Router(0, map[], defaultGateway)
    {
      this.counterpartGateway := counterpartGateway;
      router := Router(0, map[], defaultGateway);
    }

    /** Only the aliased L1 router may write. */
    method SetGateway(sender: Address, tokens: seq<Address>, gateways: seq<Address>) returns (ok: bool)
      modifies this
      ensures ok == (sender == Alias(counterpartGateway) && |tokens| == |gateways|)
      ensures if !ok then router == old(router)
              else LastWins(old(router).routes, router.routes, tokens, gateways)
                   && router.defaultGateway == old(router).defaultGateway
      ensures router == if ok then Deliver(old(router), Ticket.SetGateway(tokens, gateways)) else old(router)
    {
      if sender != Alias(counterpartGateway) || |tokens| != |gateways| {
        return false;
      }
      var routes := router.routes;
      var i := 0;
      while i < |tokens|
        invariant 0 <= i <= |tokens| && router == old(router)
        invariant routes == Written(router.routes, tokens[..i], gateways[..i])
      {
        assert tokens[..i + 1][..i] == tokens[..i] && gateways[..i + 1][..i] == gateways[..i];
        routes := routes[tokens[i] := gateways[i]];
        i := i + 1;
      }
      assert tokens[..i] == tokens && gateways[..i] == gateways;
      WrittenLastWins(router.routes, tokens, gateways);
      router := router.(routes := routes);
      ok := true;
    }

    /** Of all L1 senders only the counterpart gets through, and then exactly the tokens
        without a route of their own go to the new default. */
    method SetDefaultGateway(sender: Address, gateway: Address) returns (ok: bool)
      modifies this
      ensures ok == (sender == Alias(counterpartGateway))
      ensures forall from: Address | from < Hex.ADDRESS_SPACE && counterpartGateway < Hex.ADDRESS_SPACE ::
        sender == Alias(from) ==> (ok <==> from == counterpartGateway)
      ensures ok ==> forall token, code :: FollowsDefault(old(router), router, token, gateway, code)
      ensures router == if ok then Deliver(old(router), Ticket.SetDefaultGateway(gateway)) else old(router)
    {
      forall from: Address | from < Hex.ADDRESS_SPACE && counterpartGateway < Hex.ADDRESS_SPACE
        ensures Alias(from) == Alias(counterpartGateway) <==> from == counterpartGateway
      {
        OnlyTheCounterpartPasses(from, counterpartGateway);
      }
      ok := sender == Alias(counterpartGateway);
      if ok {
        router := router.(defaultGateway := gateway);
      }
    }
  }

  /** A relayed message passes the L2 router's check exactly if the L1 router sent it. */
  lemma OnlyTheCounterpartPasses(from: Address, counterpart: Address)
    requires from < Hex.ADDRESS_SPACE && counterpart < Hex.ADDRESS_SPACE
    ensures Alias(from) == Alias(counterpart) <==> from == counterpart
  {
  }

  // ---------------------------------------------------------------- mirroring

  /** Every gateway the router may return to is zero, disabled or has a counterpart. */
  predicate Known(env: Env, gateway: Address) { gateway in {ZERO, DISABLED} || gateway in env.counterpart }

  ghost predicate Mirrors(env: Env, l1: Router, l2: Router) {
    && (forall token :: RouteOf(l2, token) == Image(env, RouteOf(l1, token)))
    && l2.defaultGateway == Image(env, l1.defaultGateway)
    && (forall token :: Known(env, RouteOf(l1, token))) && Known(env, l1.defaultGateway)
  }

  lemma {:induction false} WrittenMirrors(env: Env, l1: map<Address, Address>, l2: map<Address, Address>,
                                          tokens: seq<Address>, gateways: seq<Address>, token: Address)
    requires |tokens| == |gateways|
    requires RouteOf(Router(0, l2, 0), token) == Image(env, RouteOf(Router(0, l1, 0), token))
    requires Known(env, RouteOf(Router(0, l1, 0), token))
    requires forall i :: 0 <= i < |gateways| ==> Known(env, gateways[i])
    ensures var to := RouteOf(Router(0, Written(l1, tokens, gateways), 0), token);
      && RouteOf(Router(0, Written(l2, tokens, Images(env, gateways)), 0), token) == Image(env, to)
      && Known(env, to)
    decreases |tokens|
  {
    if tokens == [] {
    } else {
      var k := |tokens| - 1;
      WrittenMirrors(env, l1, l2, tokens[..k], gateways[..k], token);
      assert Images(env, gateways)[..k] == Images(env, gateways[..k]);
    }
  }

  /** A served call and the delivery of its ticket preserve the mirror. */
  lemma ServeMirrors(env: Env, l1: Router, l2: Router, call: Call)
    requires Mirrors(env, l1, l2) && Serve(env, l1, call).Some?
    requires DISABLED !in env.counterpart
    ensures Mirrors(env, Serve(env, l1, call).value.0, Deliver(l2, Serve(env, l1, call).value.1))
  {
    var (r, t) := Serve(env, l1, call).value;
    if t.SetGateway? {
      var tokens := if call.OwnerSetGateways? then call.tokens else [call.token];
      var gateways := if call.OwnerSetGateways? then call.gateways else [call.gateway];
      assert r.routes == Written(l1.routes, tokens, gateways);
      forall i | 0 <= i < |gateways|
        ensures Known(env, gateways[i])
      {
        assert Assignable(env, call.handled, tokens[i], gateways[i]);
      }
      forall token
        ensures RouteOf(Deliver(l2, t), token) == Image(env, RouteOf(r, token)) && Known(env, RouteOf(r, token))
      {
        assert RouteOf(l2, token) == Image(env, RouteOf(l1, token)) && Known(env, RouteOf(l1, token));
        WrittenMirrors(env, l1.routes, l2.routes, tokens, gateways, token);
      }
    } else {
      forall token
        ensures RouteOf(Deliver(l2, t), token) == Image(env, RouteOf(r, token)) && Known(env, RouteOf(r, token))
      {
        assert RouteOf(l2, token) == Image(env, RouteOf(l1, token)) && Known(env, RouteOf(l1, token));
      }
    }
  }

  /** What the owner assigns and what its delivery brings: on L1 each listed token has the
      gateway of its last mention, and on L2 the counterpart of that gateway. */
  lemma AssignedOnBothSides(env: Env, l1: Router, l2: Router, call: Call, i: nat)
    requires call.OwnerSetGateways? && Serve(env, l1, call).Some?
    requires i < |call.tokens| && LastMention(call.tokens, i)
    ensures |call.gateways| == |call.tokens|
    ensures var r, d := Serve(env, l1, call).value.0, Deliver(l2, Serve(env, l1, call).value.1);
            var token, g := call.tokens[i], call.gateways[i];
      && token in r.routes && r.routes[token] == g && token in d.routes
      && (if g == ZERO || g == DISABLED then d.routes[token] == g
          else g in env.counterpart && d.routes[token] == env.counterpart[g])
  {
    WrittenLastWins(l1.routes, call.tokens, call.gateways);
    WrittenLastWins(l2.routes, call.tokens, Images(env, call.gateways));
    assert Assignable(env, call.handled, call.tokens[i], call.gateways[i]);
  }

  /** The two routers and the tickets between them. `states[k]` is the L1 router after the
      k-th served call, which sent `sent[k - 1]`. */
  datatype Pair = Pair(l2: Router, states: seq<Router>, sent: seq<Ticket>, delivered: nat)

  datatype Step = OnL1(call: Call) | DeliverNext

  predicate WellFormed(p: Pair) { |p.states| == |p.sent| + 1 && p.delivered <= |p.sent| }

  function Next(env: Env, p: Pair, step: Step): (p': Pair)
    requires WellFormed(p)
    ensures WellFormed(p')
  {
    match step
    case OnL1(call) =>
      var served := Serve(env, p.states[|p.sent|], call);
      if served.None? then p
      else p.(states := p.states + [served.value.0], sent := p.sent + [served.value.1])
    case DeliverNext =>
      if p.delivered == |p.sent| then p
      else p.(l2 := Deliver(p.l2, p.sent[p.delivered]), delivered := p.delivered + 1)
  }

  function Exec(env: Env, p: Pair, steps: seq<Step>): (p': Pair)
    requires WellFormed(p)
    ensures WellFormed(p')
  {
    if steps == [] then p else Next(env, Exec(env, p, steps[..|steps| - 1]), steps[|steps| - 1])
  }

  ghost predicate Tracking(env: Env, l2: Router, p: Pair) {
    && WellFormed(p)
    && p.l2 == DeliverAll(l2, p.sent[..p.delivered])
    && forall k :: 0 <= k <= |p.sent| ==> Mirrors(env, p.states[k], DeliverAll(l2, p.sent[..k]))
  }

  lemma TrackingStep(env: Env, l2: Router, p: Pair, step: Step)
    requires Tracking(env, l2, p) && DISABLED !in env.counterpart
    ensures Tracking(env, l2, Next(env, p, step))
  {
    hide Mirrors, Serve, Deliver;
    var p', n := Next(env, p, step), |p.sent|;
    if step.OnL1? && p' != p {
      assert forall k :: 0 <= k <= n ==> p'.sent[..k] == p.sent[..k];
      assert p.sent[..n] == p.sent && p'.sent[..n + 1] == p'.sent;
      ServeMirrors(env, p.states[n], DeliverAll(l2, p.sent), step.call);
      assert DeliverAll(l2, p'.sent) == Deliver(DeliverAll(l2, p.sent), p'.sent[n]);
    } else if step.DeliverNext? && p' != p {
      assert p.sent[..p.delivered + 1][..p.delivered] == p.sent[..p.delivered];
    }
  }

  /** Over every interleaving of L1 calls and in-order deliveries, after the first k tickets
      the L2 router is the counterpart image of the L1 router after its k-th served call. */
  lemma {:induction false} MirrorAfterEachTicket(env: Env, l1: Router, l2: Router, steps: seq<Step>)
    requires Mirrors(env, l1, l2) && DISABLED !in env.counterpart
    ensures var p := Exec(env, Pair(l2, [l1], [], 0), steps);
            Tracking(env, l2, p) && Mirrors(env, p.states[p.delivered], p.l2)
    decreases |steps|
  {
    var start := Pair(l2, [l1], [], 0);
    if steps == [] {
    } else {
      MirrorAfterEachTicket(env, l1, l2, steps[..|steps| - 1]);
      TrackingStep(env, l2, Exec(env, start, steps[..|steps| - 1]), steps[|steps| - 1]);
    }
  }

  /** Gateways are contracts, and so are their counterparts, which are not markers. */
  ghost predicate Connected(env: Env) {
    && ZERO !in env.counterpart && DISABLED !in env.counterpart && ZERO !in env.l2Code
    && forall g :: g in env.counterpart ==>
         g in env.l1Code && env.counterpart[g] in env.l2Code && env.counterpart[g] !in {ZERO, DISABLED}
  }

  /** What the mirror is for: withdrawals of a token are routed to the counterpart of the
      gateway its deposits are routed to, and to none when deposits have none. */
  lemma RoutesCorrespond(env: Env, l1: Router, l2: Router, token: Address)
    requires Connected(env) && ZERO !in env.l1Code && Mirrors(env, l1, l2)
    ensures GetGateway(l2, token, env.l2Code) == Image(env, GetGateway(l1, token, env.l1Code))
  {
  }

  /** What a ticket writes, as a map from tokens to gateways. */
  function Writes(t: Ticket): map<Address, Address> {
    if t.SetGateway? && |t.tokens| == |t.gateways| then Written(map[], t.tokens, t.gateways) else map[]
  }

  predicate Conflict(t: Ticket, u: Ticket) {
    || (t.SetDefaultGateway? && u.SetDefaultGateway? && t.gateway != u.gateway)
    || (exists token :: token in Writes(t) && token in Writes(u) && Writes(t)[token] != Writes(u)[token])
  }

  lemma {:induction false} WrittenIsMerge(routes: map<Address, Address>, tokens: seq<Address>, gateways: seq<Address>)
    requires |tokens| == |gateways|
    ensures Written(routes, tokens, gateways) == routes + Written(map[], tokens, gateways)
    decreases |tokens|
  {
    if tokens == [] {
    } else {
      WrittenIsMerge(routes, tokens[..|tokens| - 1], gateways[..|tokens| - 1]);
    }
  }

  lemma DeliverMerges(r: Router, t: Ticket)
    ensures Deliver(r, t) == Router(r.owner, r.routes + Writes(t),
                                    if t.SetDefaultGateway? then t.gateway else r.defaultGateway)
  {
    if t.SetGateway? && |t.tokens| == |t.gateways| {
      WrittenIsMerge(r.routes, t.tokens, t.gateways);
    } else {
      assert r.routes + map[] == r.routes;
    }
  }

  /** Swapping two tickets leaves the L2 router different exactly if both set the default
      gateway, or a common token, differently. */
  lemma OrderMattersIff(r: Router, t: Ticket, u: Ticket)
    ensures Deliver(Deliver(r, t), u) != Deliver(Deliver(r, u), t) <==> Conflict(t, u)
  {
    DeliverMerges(r, t);
    DeliverMerges(r, u);
    DeliverMerges(Deliver(r, t), u);
    DeliverMerges(Deliver(r, u), t);
    var tu, ut := r.routes + Writes(t) + Writes(u), r.routes + Writes(u) + Writes(t);
    if token :| token in Writes(t) && token in Writes(u) && Writes(t)[token] != Writes(u)[token] {
      assert tu[token] != ut[token];
    } else {
      assert tu == ut;
    }
  }

  /** The last gateway that a sequence of tickets writes for a token. */
  function LastWrite(tickets: seq<Ticket>, token: Address): Option<Address> {
    if tickets == [] then None
    else
      var t := tickets[|tickets| - 1];
      if token in Writes(t) then Some(Writes(t)[token]) else LastWrite(tickets[..|tickets| - 1], token)
  }

  function LastDefault(tickets: seq<Ticket>): Option<Address> {
    if tickets == [] then None
    else
      var t := tickets[|tickets| - 1];
      if t.SetDefaultGateway? then Some(t.gateway) else LastDefault(tickets[..|tickets| - 1])
  }

  lemma {:induction false} DeliverAllIs(r: Router, tickets: seq<Ticket>, token: Address)
    ensures var d, last := DeliverAll(r, tickets), LastWrite(tickets, token);
      && d.owner == r.owner
      && d.defaultGateway == (match LastDefault(tickets) case Some(g) => g case None => r.defaultGateway)
      && (token in d.routes <==> last.Some? || token in r.routes)
      && (token in d.routes ==> d.routes[token] == if last.Some? then last.value else r.routes[token])
    decreases |tickets|
  {
    if tickets == [] {
    } else {
      DeliverAllIs(r, tickets[..|tickets| - 1], token);
      DeliverMerges(DeliverAll(r, tickets[..|tickets| - 1]), tickets[|tickets| - 1]);
    }
  }

  lemma {:induction false} SomeWrite(tickets: seq<Ticket>, token: Address)
    ensures LastWrite(tickets, token).Some? <==> exists t :: t in tickets && token in Writes(t)
    ensures LastDefault(tickets).Some? <==> exists t :: t in tickets && t.SetDefaultGateway?
    decreases |tickets|
  {
    if tickets == [] {
    } else {
      var init, last := tickets[..|tickets| - 1], tickets[|tickets| - 1];
      SomeWrite(init, token);
      assert tickets == init + [last];
    }
  }

  /** The two sequences agree on what is written last. */
  ghost predicate SameLastWrites(ts: seq<Ticket>, us: seq<Ticket>) {
    LastDefault(ts) == LastDefault(us) && forall token :: LastWrite(ts, token) == LastWrite(us, token)
  }

  lemma LookupsAgree(r: Router, ts: seq<Ticket>, us: seq<Ticket>, token: Address)
    requires multiset(ts) == multiset(us)
    ensures var d, e := DeliverAll(r, ts), DeliverAll(r, us);
      && (LastWrite(ts, token) == LastWrite(us, token) <==> SameRoute(d, e, token))
      && (LastDefault(ts) == LastDefault(us) <==> d.defaultGateway == e.defaultGateway)
      && d.owner == e.owner
  {
    SameWriters(ts, us, token);
    DeliverAllIs(r, ts, token);
    DeliverAllIs(r, us, token);
  }

  /** Two orders of the same tickets leave the same L2 router if and only if they agree on
      the last write of every token and on the last default. */
  lemma OrdersAgreeIff(r: Router, ts: seq<Ticket>, us: seq<Ticket>)
    requires multiset(ts) == multiset(us)
    ensures DeliverAll(r, ts) == DeliverAll(r, us) <==> SameLastWrites(ts, us)
  {
    hide DeliverAll, LastWrite, LastDefault;
    var d, e := DeliverAll(r, ts), DeliverAll(r, us);
    LookupsAgree(r, ts, us, ZERO);
    if d == e {
      forall token
        ensures LastWrite(ts, token) == LastWrite(us, token)
      {
        LookupsAgree(r, ts, us, token);
      }
    }
    if SameLastWrites(ts, us) {
      forall token
        ensures SameRoute(d, e, token)
      {
        LookupsAgree(r, ts, us, token);
      }
      SameEverywhere(d, e);
      assert d == e;
    }
  }

  lemma SameEverywhere(d: Router, e: Router)
    requires forall token :: SameRoute(d, e, token)
    ensures d.routes == e.routes
  {
    forall token | token in d.routes || token in e.routes
      ensures token in d.routes && token in e.routes && d.routes[token] == e.routes[token]
    {
      assert SameRoute(d, e, token);
    }
  }

  predicate SameRoute(d: Router, e: Router, token: Address) {
    (token in d.routes <==> token in e.routes) && (token in d.routes ==> d.routes[token] == e.routes[token])
  }

  lemma SameWriters(ts: seq<Ticket>, us: seq<Ticket>, token: Address)
    requires multiset(ts) == multiset(us)
    ensures LastWrite(ts, token).Some? == LastWrite(us, token).Some?
    ensures LastDefault(ts).Some? == LastDefault(us).Some?
  {
    SomeWrite(ts, token);
    SomeWrite(us, token);
    assert forall t :: t in ts <==> t in multiset(us);
    assert forall t :: t in ts <==> t in us;
  }

  /** Two tickets that the L1 router really sends, delivered out of order: the L2 router keeps
      the counterpart of the older default. */
  lemma OutOfOrderBreaksMirror()
    ensures var env := Env(map[10 := 20, 11 := 21], {10, 11}, {20, 21});
            var l1, l2, r2 := Router(7, map[], ZERO), Router(0, map[], ZERO), Router(7, map[], 11);
            var t1, t2 := Ticket.SetDefaultGateway(20), Ticket.SetDefaultGateway(21);
      && Mirrors(env, l1, l2)
      && Serve(env, l1, OwnerSetDefault(7, 10, true)) == Some((Router(7, map[], 10), t1))
      && Serve(env, Router(7, map[], 10), OwnerSetDefault(7, 11, true)) == Some((r2, t2))
      && Mirrors(env, r2, DeliverAll(l2, [t1, t2])) && !Mirrors(env, r2, DeliverAll(l2, [t2, t1]))
  {
    var l2, t1, t2 := Router(0, map[], ZERO), Ticket.SetDefaultGateway(20), Ticket.SetDefaultGateway(21);
    DeliverTwo(l2, t1, t2);
    DeliverTwo(l2, t2, t1);
  }

  lemma DeliverSnoc(r: Router, init: seq<Ticket>, t: Ticket)
    ensures DeliverAll(r, init + [t]) == Deliver(DeliverAll(r, init), t)
  {
    assert (init + [t])[..|init|] == init;
  }

  lemma DeliverTwo(r: Router, t: Ticket, u: Ticket)
    ensures DeliverAll(r, [t, u]) == Deliver(Deliver(r, t), u)
  {
    DeliverSnoc(r, [], t);
    DeliverSnoc(r, [t], u);
    assert [] + [t] == [t] && [t] + [u] == [t, u];
  }

  /** Once a token has a gateway of its own, registering itself again cannot move it. */
  lemma TokenCannotMove(env: Env, r: Router, call: Call)
    requires call.TokenSetGateway? && Serve(env, r, call).Some?
    requires GetGateway(r, call.token, env.l1Code) !in {ZERO, r.defaultGateway}
    ensures forall t :: RouteOf(Serve(env, r, call).value.0, t) == RouteOf(r, t)
  {
    assert [call.token][..0] == [] && [call.gateway][..0] == [];
    assert Written(r.routes, [call.token], [call.gateway]) == r.routes[call.token := call.gateway];
  }
}
