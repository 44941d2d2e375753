/**
 * The custody asset: an EIP-20 token reduced to its balance bookkeeping.
 * `transfer(to, amount)` sent by `from` moves `amount` from `from` to `to`,
 * and fails (the whole transaction reverts) when `from` holds less.
 */
module Erc20 {
  import opened Storage

  /** An account identifier; 0 is the zero address. */
  type Address = nat

  const ZeroAddress: Address := 0

  /** The balances after `from` transfers `amount` to `to`, or None when `from` holds too little. */
  function Transferred(balances: map<Address, nat>, from: Address, to: Address, amount: nat)
    : (r: Option<map<Address, nat>>)
    ensures r.Some? <==> amount <= Lookup(balances, from)
    ensures r.Some? && from != to ==>
              && Lookup(r.value, from) + amount == Lookup(balances, from)
              && Lookup(r.value, to) == Lookup(balances, to) + amount
    ensures r.Some? && from == to ==> Lookup(r.value, from) == Lookup(balances, from)
    ensures r.Some? ==> forall a :: a != from && a != to ==> Lookup(r.value, a) == Lookup(balances, a)
  {
    if amount <= Lookup(balances, from) then
      Some(Credit(Debit(balances, from, amount), to, amount))
    else
      None
  }

  /** A token contract: one balance per account. */
  class Token {
    var balances: map<Address, nat>

    constructor ()
      ensures balances == map[]
    {
      balances := map[];
    }

    /** `balanceOf(a)`: an account the token never credited holds nothing. */
    function BalanceOf(a: Address): (balance: nat)
      reads this
      ensures a in balances ==> balance == balances[a]
      ensures a !in balances ==> balance == 0
    {
      Lookup(balances, a)
    }

    /** The mock token's `mint(to, amount)`, used to fund accounts. */
    method Mint(to: Address, amount: nat)
      modifies this
      ensures balances == Credit(old(balances), to, amount)
    {
      balances := Credit(balances, to, amount);
    }

    /** `transfer(to, amount)` sent by `from`; `ok` is false when the token reverts. */
    method Transfer(from: Address, to: Address, amount: nat) returns (ok: bool)
      modifies this
      ensures ok <==> amount <= old(BalanceOf(from))
      ensures balances == if ok then Transferred(old(balances), from, to, amount).value else old(balances)
    {
      var moved := Transferred(balances, from, to, amount);
      if moved.Some? {
        balances := moved.value;
      }
      ok := moved.Some?;
    }
  }
}
