/**
 * The ink! ERC20 contract: a fixed total supply, a balance per account and
 * an allowance per (owner, spender) pair, both read with a default of 0.
 * The transaction caller is a parameter of each message.
 */
module Erc20 {
  import opened Wrappers
  import opened Accounts
  import opened Limits

  type Balance = nat

  datatype Error = InsufficientBalance | InsufficientApproval

  /**
   * The addition `to_balance + value` of `inner_transfer`, done after the
   * debit, stays within `u128` whenever the balances sum to at most
   * `u128::MAX`, including when `from == to`.
   */
  lemma CreditFitsU128(m: map<AccountId, Balance>, from: AccountId, to: AccountId, value: Balance)
    requires Total(m) <= U128_MAX
    requires value <= Get(m, from)
    ensures Get(m[from := Get(m, from) - value], to) + value <= U128_MAX
  {
    if from == to {
      BalanceBoundedByTotal(m, from);
    } else {
      TwoBalancesBoundedByTotal(m, from, to);
    }
  }

  class Erc20 {
    var totalSupply: Balance
    var balances: map<AccountId, Balance>
    var allowances: map<(AccountId, AccountId), Balance>

    /** The balances add up to the total supply, which fits in a `u128`. */
    ghost predicate Valid()
      reads this
    {
      totalSupply <= U128_MAX && Total(balances) == totalSupply
    }

    /** `new`: the whole supply goes to the caller; no allowances. */
    constructor (caller: AccountId, supply: Balance)
      requires supply <= U128_MAX
      ensures Valid()
      ensures totalSupply == supply && balances == map[caller := supply] && allowances == map[]
    {
      var initial := map[caller := supply];
      TotalRemove(initial, caller);
      assert initial - {caller} == map[];
      totalSupply := supply;
      balances := initial;
      allowances := map[];
    }

    /** `total_supply`: under the invariant, the sum of all balances. */
    function TotalSupply(): (s: Balance)
      reads this
      ensures Valid() ==> s == Total(balances)
    {
      totalSupply
    }

    /** `balance_of`: the stored balance, 0 for an unknown account; never above the supply. */
    function BalanceOf(who: AccountId): (b: Balance)
      reads this
      ensures who !in balances ==> b == 0
      ensures who in balances ==> b == balances[who]
      ensures Valid() ==> b <= totalSupply
    {
      BalanceBoundedByTotal(balances, who);
      Get(balances, who)
    }

    /** `allowance`: what `spender` may still move from `owner`, 0 if never approved. */
    function Allowance(owner: AccountId, spender: AccountId): (a: Balance)
      reads this
      ensures (owner, spender) !in allowances ==> a == 0
      ensures (owner, spender) in allowances ==> a == allowances[(owner, spender)]
    {
      if (owner, spender) in allowances then allowances[(owner, spender)] else 0
    }

    /**
     * `inner_transfer`: InsufficientBalance, with nothing written, when
     * `from` holds less than `value`; otherwise the debit-then-credit move,
     * which keeps the total (so the invariant) and whose credit cannot
     * overflow a `u128`.
     */
    method InnerTransfer(from: AccountId, to: AccountId, value: Balance) returns (r: Result<(), Error>)
      requires Valid()
      modifies this
      ensures Valid()
      ensures r == if old(BalanceOf(from)) < value then Err(InsufficientBalance) else Ok(())
      ensures r.Err? ==> unchanged(this)
      ensures r.Ok? ==> balances == Move(old(balances), from, to, value)
      ensures r.Ok? ==> totalSupply == old(totalSupply) && allowances == old(allowances)
    {
      var fromBalance := BalanceOf(from);
      if fromBalance < value {
        return Err(InsufficientBalance);
      }
      CreditFitsU128(balances, from, to, value);
      MoveConserves(balances, from, to, value);
      balances := balances[from := fromBalance - value];
      var toBalance := BalanceOf(to);
      assert toBalance + value <= U128_MAX;
      balances := balances[to := toBalance + value];
      r := Ok(());
    }

    /** `transfer`: an inner transfer from the caller. */
    method Transfer(caller: AccountId, to: AccountId, value: Balance) returns (r: Result<(), Error>)
      requires Valid()
      modifies this
      ensures Valid()
      ensures r == if old(BalanceOf(caller)) < value then Err(InsufficientBalance) else Ok(())
      ensures r.Err? ==> unchanged(this)
      ensures r.Ok? ==> balances == Move(old(balances), caller, to, value)
      ensures r.Ok? ==> totalSupply == old(totalSupply) && allowances == old(allowances)
    {
      r := InnerTransfer(caller, to, value);
    }

    /** `approve`: the caller's allowance for `to` becomes `value`, whatever it was. */
    method Approve(caller: AccountId, to: AccountId, value: Balance) returns (r: Result<(), Error>)
      requires Valid()
      modifies this
      ensures Valid()
      ensures r == Ok(())
      ensures allowances == old(allowances)[(caller, to) := value]
      ensures balances == old(balances) && totalSupply == old(totalSupply)
    {
      allowances := allowances[(caller, to) := value];
      r := Ok(());
    }

    /**
     * `transfer_from`: InsufficientApproval when the caller's allowance
     * from `from` is below `value` (checked first), then InsufficientBalance;
     * either failure writes nothing. On success the move is made and the
     * allowance drops by exactly `value`.
     */
    method TransferFrom(caller: AccountId, from: AccountId, to: AccountId, value: Balance) returns (r: Result<(), Error>)
      requires Valid()
      modifies this
      ensures Valid()
      ensures r == if old(Allowance(from, caller)) < value then Err(InsufficientApproval)
                   else if old(BalanceOf(from)) < value then Err(InsufficientBalance)
                   else Ok(())
      ensures r.Err? ==> unchanged(this)
      ensures r.Ok? ==> balances == Move(old(balances), from, to, value)
      ensures r.Ok? ==> allowances == old(allowances)[(from, caller) := old(Allowance(from, caller)) - value]
      ensures r.Ok? ==> totalSupply == old(totalSupply)
    {
      var allowance := Allowance(from, caller);
      if allowance < value {
        return Err(InsufficientApproval);
      }
      r := InnerTransfer(from, to, value);
      if r.Err? {
        return;
      }
      allowances := allowances[(from, caller) := allowance - value];
      r := Ok(());
    }
  }
}
