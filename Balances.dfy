/**
 * The reservable currency the kitties pallet is configured with, reduced to
 * what the pallet relies on: per-account free and reserved balances,
 * `reserve`, `unreserve` and a `transfer` that keeps the payer alive. The
 * currency library itself is not part of this model; these definitions are
 * the smallest behaviour consistent with how the pallet and its tests use it.
 */
module Balances {
  import opened Wrappers
  import opened Accounts

  datatype CurrencyError = InsufficientBalance | ExistentialDeposit | KeepAliveViolated

  datatype Ledger = Ledger(free: map<AccountId, nat>, reserved: map<AccountId, nat>, existentialDeposit: nat)
  {
    function FreeBalance(who: AccountId): nat {
      Get(free, who)
    }

    function ReservedBalance(who: AccountId): nat {
      Get(reserved, who)
    }

    /** Everything the ledger holds, free and reserved. */
    ghost function Holdings(): nat {
      Total(free) + Total(reserved)
    }
  }

  /** Moves `amount` of `who`'s free balance into reserve; fails when the free balance is short. */
  function Reserve(l: Ledger, who: AccountId, amount: nat): (r: Result<Ledger, CurrencyError>)
    ensures r.Err? <==> l.FreeBalance(who) < amount
    ensures r.Ok? ==> r.value.FreeBalance(who) == l.FreeBalance(who) - amount
    ensures r.Ok? ==> r.value.ReservedBalance(who) == l.ReservedBalance(who) + amount
    ensures r.Ok? ==> forall a :: a != who ==> r.value.FreeBalance(a) == l.FreeBalance(a) && r.value.ReservedBalance(a) == l.ReservedBalance(a)
  {
    if l.FreeBalance(who) < amount then Err(InsufficientBalance)
    else Ok(l.(free := l.free[who := l.FreeBalance(who) - amount],
               reserved := l.reserved[who := l.ReservedBalance(who) + amount]))
  }

  /** Moves up to `amount` of `who`'s reserve back to free balance (as much as is reserved). */
  function Unreserve(l: Ledger, who: AccountId, amount: nat): (r: Ledger)
    ensures r.ReservedBalance(who) == if amount <= l.ReservedBalance(who) then l.ReservedBalance(who) - amount else 0
    ensures r.FreeBalance(who) + r.ReservedBalance(who) == l.FreeBalance(who) + l.ReservedBalance(who)
    ensures forall a :: a != who ==> r.FreeBalance(a) == l.FreeBalance(a) && r.ReservedBalance(a) == l.ReservedBalance(a)
  {
    var actual := if amount <= l.ReservedBalance(who) then amount else l.ReservedBalance(who);
    l.(free := l.free[who := l.FreeBalance(who) + actual],
       reserved := l.reserved[who := l.ReservedBalance(who) - actual])
  }

  /**
   * Transfer of free balance with the keep-alive requirement. A zero amount
   * or a transfer to oneself succeeds at once and changes nothing. Otherwise
   * the payer must hold the amount, the payee must end with at least the
   * existential deposit, and the payer must keep at least the existential
   * deposit (free plus reserved) afterwards.
   */
  function Transfer(l: Ledger, from: AccountId, to: AccountId, amount: nat): (r: Result<Ledger, CurrencyError>)
    ensures r.Ok? <==> amount == 0 || from == to ||
                       (amount <= l.FreeBalance(from)
                        && l.existentialDeposit <= l.FreeBalance(to) + amount + l.ReservedBalance(to)
                        && l.existentialDeposit + amount <= l.FreeBalance(from) + l.ReservedBalance(from))
    ensures r.Ok? && (amount == 0 || from == to) ==> r.value == l
    ensures r.Ok? ==> r.value.reserved == l.reserved && r.value.existentialDeposit == l.existentialDeposit
    ensures r.Ok? && from != to ==> r.value.FreeBalance(from) == l.FreeBalance(from) - amount
    ensures r.Ok? && from != to ==> r.value.FreeBalance(to) == l.FreeBalance(to) + amount
    ensures r.Ok? ==> forall a :: a != from && a != to ==> r.value.FreeBalance(a) == l.FreeBalance(a)
  {
    if amount == 0 || from == to then Ok(l)
    else if l.FreeBalance(from) < amount then Err(InsufficientBalance)
    else if l.FreeBalance(to) + amount + l.ReservedBalance(to) < l.existentialDeposit then Err(ExistentialDeposit)
    else if l.FreeBalance(from) - amount + l.ReservedBalance(from) < l.existentialDeposit then Err(KeepAliveViolated)
    else Ok(l.(free := Move(l.free, from, to, amount)))
  }

  lemma ReserveConserves(l: Ledger, who: AccountId, amount: nat)
    requires Reserve(l, who, amount).Ok?
    ensures Reserve(l, who, amount).value.Holdings() == l.Holdings()
  {
    TotalUpdate(l.free, who, l.FreeBalance(who) - amount);
    TotalUpdate(l.reserved, who, l.ReservedBalance(who) + amount);
  }

  lemma UnreserveConserves(l: Ledger, who: AccountId, amount: nat)
    ensures Unreserve(l, who, amount).Holdings() == l.Holdings()
  {
    var actual := if amount <= l.ReservedBalance(who) then amount else l.ReservedBalance(who);
    TotalUpdate(l.free, who, l.FreeBalance(who) + actual);
    TotalUpdate(l.reserved, who, l.ReservedBalance(who) - actual);
  }

  lemma TransferConserves(l: Ledger, from: AccountId, to: AccountId, amount: nat)
    requires Transfer(l, from, to, amount).Ok?
    ensures Transfer(l, from, to, amount).value.Holdings() == l.Holdings()
  {
    if amount != 0 && from != to {
      MoveConserves(l.free, from, to, amount);
    }
  }
}
