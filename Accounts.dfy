/**
 * Balance maps keyed by account, read with a default of 0 (the storage
 * `ValueQuery` / `unwrap_or(0)` convention), their total, and the
 * debit-then-credit move that both the ERC20 contract and the currency
 * ledger perform.
 */
module Accounts {

  /** Account identifiers (`u64` in the test runtimes). */
  type AccountId = nat

  /** The balance stored for `a`, or 0 when the map has no entry for it. */
  function Get(m: map<AccountId, nat>, a: AccountId): (b: nat)
    ensures a !in m ==> b == 0
    ensures a in m ==> b == m[a]
  {
    if a in m then m[a] else 0
  }

  /** Some key of a non-empty map; fixed, so that Total and its lemmas agree on it. */
  ghost function Pick(m: map<AccountId, nat>): (a: AccountId)
    requires m != map[]
    ensures a in m
  {
    var a :| a in m; a
  }

  /** The sum of all balances in `m`. */
  ghost function Total(m: map<AccountId, nat>): nat
    decreases |m|
  {
    if m == map[] then 0
    else
      var a := Pick(m);
      assert (m - {a}).Keys == m.Keys - {a};
      m[a] + Total(m - {a})
  }

  /** Taking any one entry out of a map takes exactly its balance out of the total. */
  lemma {:induction false} TotalRemove(m: map<AccountId, nat>, a: AccountId)
    requires a in m
    ensures Total(m) == m[a] + Total(m - {a})
    decreases |m|
  {
    var p := Pick(m);
    if p != a {
      assert (m - {p}).Keys == m.Keys - {p};
      assert (m - {a}).Keys == m.Keys - {a};
      TotalRemove(m - {p}, a);
      TotalRemove(m - {a}, p);
      assert m - {p} - {a} == m - {a} - {p};
    }
  }

  /** Overwriting one balance changes the total by exactly the difference. */
  lemma {:induction false} TotalUpdate(m: map<AccountId, nat>, a: AccountId, v: nat)
    ensures Total(m[a := v]) + Get(m, a) == Total(m) + v
  {
    TotalRemove(m[a := v], a);
    if a in m {
      TotalRemove(m, a);
      assert m[a := v] - {a} == m - {a};
    } else {
      assert m[a := v] - {a} == m;
    }
  }

  /** No single account holds more than the total. */
  lemma {:induction false} BalanceBoundedByTotal(m: map<AccountId, nat>, a: AccountId)
    ensures Get(m, a) <= Total(m)
  {
    if a in m {
      TotalRemove(m, a);
    }
  }

  /** Two distinct accounts together never hold more than the total. */
  lemma {:induction false} TwoBalancesBoundedByTotal(m: map<AccountId, nat>, a: AccountId, b: AccountId)
    requires a != b
    ensures Get(m, a) + Get(m, b) <= Total(m)
  {
    if a in m {
      TotalRemove(m, a);
      if b in m {
        TotalRemove(m - {a}, b);
      }
    } else if b in m {
      TotalRemove(m, b);
    }
  }

  /**
   * Debit `v` from `from`, then credit `v` to whatever `to` holds after the
   * debit. When `from == to` the credit reads the debited balance, so the
   * account ends where it started.
   */
  function Move(m: map<AccountId, nat>, from: AccountId, to: AccountId, v: nat): (r: map<AccountId, nat>)
    requires v <= Get(m, from)
    ensures from != to ==> Get(r, from) == Get(m, from) - v && Get(r, to) == Get(m, to) + v
    ensures from == to ==> Get(r, from) == Get(m, from)
    ensures forall a :: a != from && a != to ==> Get(r, a) == Get(m, a)
  {
    var debited := m[from := Get(m, from) - v];
    debited[to := Get(debited, to) + v]
  }

  /** A move never creates or destroys value. */
  lemma MoveConserves(m: map<AccountId, nat>, from: AccountId, to: AccountId, v: nat)
    requires v <= Get(m, from)
    ensures Total(Move(m, from, to, v)) == Total(m)
  {
    var debited := m[from := Get(m, from) - v];
    TotalUpdate(m, from, Get(m, from) - v);
    TotalUpdate(debited, to, Get(debited, to) + v);
  }
}
