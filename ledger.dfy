/**
 * Per-user claimable balances of a fungible escrow and their total, with
 * the laws that let an escrow keep the conservation invariant
 * "tokens held = escrow balance + outstanding user balances" across a
 * credit or a withdrawal.
 */
module Ledger {
  import opened Types

  /** A user's claimable balance; a user never credited holds 0. */
  function BalanceOf(balances: map<Address, nat>, user: Address): nat
  {
    if user in balances then balances[user] else 0
  }

  /** The sum of all claimable balances. */
  ghost function Total(balances: map<Address, nat>): nat
    decreases |balances|
  {
    if balances == map[] then 0
    else
      var u :| u in balances;
      balances[u] + Total(balances - {u})
  }

  /** The total splits off any one entry, whichever entry the definition chose first. */
  lemma {:induction false} TotalRemove(balances: map<Address, nat>, user: Address)
    requires user in balances
    ensures Total(balances) == balances[user] + Total(balances - {user})
    decreases |balances|
  {
    var u :| u in balances && Total(balances) == balances[u] + Total(balances - {u});
    if u != user {
      var rest := balances - {u};
      assert user in rest;
      TotalRemove(rest, user);
      assert rest - {user} == (balances - {user}) - {u};
      var without := balances - {user};
      assert u in without;
      TotalRemove(without, u);
    }
  }

  /** Setting one user's balance changes the total by exactly the difference. */
  lemma TotalUpdate(balances: map<Address, nat>, user: Address, v: nat)
    ensures Total(balances[user := v]) + BalanceOf(balances, user) == Total(balances) + v
  {
    var updated := balances[user := v];
    TotalRemove(updated, user);
    assert updated - {user} == balances - {user};
    if user in balances {
      TotalRemove(balances, user);
    } else {
      assert balances - {user} == balances;
    }
  }

  /** Crediting `amount` to a user raises the total by `amount`. */
  lemma TotalCredit(balances: map<Address, nat>, user: Address, amount: nat)
    ensures Total(balances[user := BalanceOf(balances, user) + amount]) == Total(balances) + amount
  {
    TotalUpdate(balances, user, BalanceOf(balances, user) + amount);
  }

  /** Withdrawing `amount` from a user's balance lowers the total by `amount`. */
  lemma TotalDebit(balances: map<Address, nat>, user: Address, amount: nat)
    requires amount <= BalanceOf(balances, user)
    ensures Total(balances[user := BalanceOf(balances, user) - amount]) + amount == Total(balances)
  {
    TotalUpdate(balances, user, BalanceOf(balances, user) - amount);
  }

  /** No balance exceeds the total. */
  lemma BalanceWithinTotal(balances: map<Address, nat>, user: Address)
    ensures BalanceOf(balances, user) <= Total(balances)
  {
    if user in balances {
      TotalRemove(balances, user);
    }
  }
}
