/** Token balances and their totals. */
module Ledger {
  type Account = nat

  /** An account without an entry holds nothing. */
  type Balances = map<Account, nat>

  function Get(b: Balances, a: Account): nat { if a in b then b[a] else 0 }

  /** Take `sent` from one account and give `received` to another, possibly the same. */
  function Move(b: Balances, from: Account, to: Account, sent: nat, received: nat): Balances
    requires sent <= Get(b, from)
  {
    var taken := b[from := Get(b, from) - sent];
    taken[to := Get(taken, to) + received]
  }

  function Mint(b: Balances, to: Account, amount: nat): Balances {
    b[to := Get(b, to) + amount]
  }

  function Burn(b: Balances, from: Account, amount: nat): Balances
    requires amount <= Get(b, from)
  {
    b[from := Get(b, from) - amount]
  }

  ghost function Total<K>(m: map<K, nat>): nat {
    if m == map[] then 0 else var k :| k in m; m[k] + Total(m - {k})
  }

  lemma {:induction false} TotalWithout<K>(m: map<K, nat>, k: K)
    requires k in m
    ensures Total(m) == m[k] + Total(m - {k})
    decreases |m|
  {
    var pick :| pick in m && Total(m) == m[pick] + Total(m - {pick});
    if pick != k {
      TotalWithout(m - {pick}, k);
      TotalWithout(m - {k}, pick);
      assert m - {pick} - {k} == m - {k} - {pick};
    }
  }

  lemma TotalUpdate<K>(m: map<K, nat>, k: K, v: nat)
    ensures Total(m[k := v]) == Total(m) - (if k in m then m[k] else 0) + v
  {
    TotalWithout(m[k := v], k);
    assert m[k := v] - {k} == m - {k};
    if k in m {
      TotalWithout(m, k);
    } else {
      assert m - {k} == m;
    }
  }

  lemma TotalMint(b: Balances, to: Account, amount: nat)
    ensures Total(Mint(b, to, amount)) == Total(b) + amount
  {
    TotalUpdate(b, to, Get(b, to) + amount);
  }

  lemma TotalBurn(b: Balances, from: Account, amount: nat)
    requires amount <= Get(b, from)
    ensures Total(Burn(b, from, amount)) == Total(b) - amount
  {
    TotalUpdate(b, from, Get(b, from) - amount);
  }

  lemma TotalMove(b: Balances, from: Account, to: Account, amount: nat)
    requires amount <= Get(b, from)
    ensures Total(Move(b, from, to, amount, amount)) == Total(b)
  {
    TotalBurn(b, from, amount);
    TotalMint(Burn(b, from, amount), to, amount);
  }
}
