/**
 The token contracts as objects: each method updates contract storage step by step and is held to the
 function of the same operation in Tokens. A failing call leaves storage as it was.
 */
module TokenContracts {
  import opened Common
  import opened RayMath
  import opened Totals
  import opened Tokens

  class AToken {
    var balances: map<Address, nat>
    var totalSupplyScaled: int

    constructor ()
      ensures State() == Scaled(map[], 0)
    {
      balances := map[];
      totalSupplyScaled := 0;
    }

    function State(): Scaled
      reads this
    {
      Scaled(balances, totalSupplyScaled)
    }

    /** The host's rollback of a failed call. */
    method Restore(s: Scaled)
      modifies this
      ensures State() == s
    {
      balances := s.of;
      totalSupplyScaled := s.total;
    }

    method MintScaled(user: Address, amount: nat, index: nat) returns (r: Result<(bool, nat, int)>)
      modifies this
      ensures match ATokenMint(old(State()), user, amount, index)
              case Ok(m) => r == Ok((m.first, m.userScaled, m.state.total)) && State() == m.state
              case Err(e) => r == Err(e) && State() == old(State())
    {
      var _ :- CheckInputs(amount, index);
      var raw :- OrElse(RayDivDown(amount, index), InvalidIndex);
      var amountScaled :- FitSigned(raw);
      var current := Get(balances, user);
      var next :- FitSigned(current + amountScaled);
      var total :- AddTotal(totalSupplyScaled, amountScaled);
      var _ :- FitSigned(amount);
      balances := balances[user := next];
      totalSupplyScaled := total;
      return Ok((current == 0, next, totalSupplyScaled));
    }

    method BurnScaled(user: Address, amount: nat, index: nat) returns (r: Result<(bool, int)>)
      modifies this
      ensures match ATokenBurn(old(State()), user, amount, index)
              case Ok(b) => r == Ok((b.userScaled == 0, b.state.total)) && State() == b.state
              case Err(e) => r == Err(e) && State() == old(State())
    {
      var _ :- CheckInputs(amount, index);
      var raw :- OrElse(RayDivUp(amount, index), InvalidIndex);
      var amountScaled :- FitSigned(raw);
      var current := Get(balances, user);
      if amountScaled > current {
        amountScaled := current;
      }
      if amountScaled == 0 {
        return Err(InvalidAmount);
      }
      var total :- SubTotal(totalSupplyScaled, amountScaled);
      var actual :- OrElse(RayMul(amountScaled, index), InvalidIndex);
      var _ :- FitSigned(actual);
      balances := balances[user := current - amountScaled];
      totalSupplyScaled := total;
      return Ok((current - amountScaled == 0, totalSupplyScaled));
    }

    /** Returns the user's remaining shares, the remaining total and the amount paid out. */
    method BurnScaledAndTransferTo(user: Address, amount: nat, index: nat) returns (r: Result<(nat, int, nat)>)
      modifies this
      ensures match ATokenBurnAndTransfer(old(State()), user, amount, index)
              case Ok(p) => r == Ok((p.userScaled, p.state.total, p.actual)) && State() == p.state
              case Err(e) => r == Err(e) && State() == old(State())
    {
      var _ :- CheckInputs(amount, index);
      var raw :- OrElse(RayDivUp(amount, index), InvalidIndex);
      var amountScaled :- FitSigned(raw);
      var current := Get(balances, user);
      if amountScaled > current {
        amountScaled := current;
      }
      if amountScaled == 0 {
        return Err(InvalidAmount);
      }
      var total :- SubTotal(totalSupplyScaled, amountScaled);
      var actual :- OrElse(RayMulDown(amountScaled, index), InvalidIndex);
      if actual > amount {
        actual := amount;
      }
      var _ :- FitSigned(actual);
      balances := balances[user := current - amountScaled];
      totalSupplyScaled := total;
      return Ok((current - amountScaled, totalSupplyScaled, actual));
    }

    /** The debit is written before the receiver's entry is read. */
    method MoveShares(from: Address, to: Address, shares: nat) returns (r: Result<bool>)
      modifies this
      ensures match Move(old(State()), from, to, shares)
              case Ok(s) => r == Ok(s.Of(to) == shares) && State() == s
              case Err(e) => r == Err(e) && State() == old(State())
    {
      var before := balances;
      var held := Get(balances, from);
      if held < shares {
        return Err(InsufficientBalance);
      }
      balances := balances[from := held - shares];
      var received := Get(balances, to);
      var credit := FitSigned(received + shares);
      if credit.Err? {
        balances := before;
        return Err(credit.error);
      }
      balances := balances[to := credit.value];
      return Ok(received == 0);
    }

    method TransferOnLiquidation(from: Address, to: Address, amount: nat, index: nat) returns (r: Result<bool>)
      modifies this
      ensures match Tokens.TransferOnLiquidation(old(State()), from, to, amount, index)
              case Ok(t) => r == Ok(t.0) && State() == t.1
              case Err(e) => r.Err? && State() == old(State())
    {
      var _ :- CheckInputs(amount, index);
      var raw :- OrElse(RayDivDown(amount, index), InvalidIndex);
      var shares :- FitSigned(raw);
      if shares == 0 {
        return Err(InvalidAmount);
      }
      var _ :- FitSigned(amount);
      r := MoveShares(from, to, shares);
    }

    method TransferInternal(from: Address, to: Address, amount: nat, index: nat) returns (r: Result<()>)
      modifies this
      ensures match Transfer(old(State()), from, to, amount, index)
              case Ok(s) => r == Ok(()) && State() == s
              case Err(e) => r == Err(e) && State() == old(State())
    {
      if amount == 0 {
        return Err(InvalidAmount);
      }
      if from == to {
        return Ok(());
      }
      var _ :- CheckInputs(amount, index);
      var raw :- OrElse(RayDivUp(amount, index), InvalidIndex);
      var shares :- FitSigned(raw);
      var _ :- MoveShares(from, to, shares);
      return Ok(());
    }
  }

  class DebtToken {
    var debts: map<Address, nat>
    var totalDebtScaled: int

    constructor ()
      ensures State() == Scaled(map[], 0)
    {
      debts := map[];
      totalDebtScaled := 0;
    }

    function State(): Scaled
      reads this
    {
      Scaled(debts, totalDebtScaled)
    }

    method Restore(s: Scaled)
      modifies this
      ensures State() == s
    {
      debts := s.of;
      totalDebtScaled := s.total;
    }

    method MintScaled(user: Address, amount: nat, index: nat) returns (r: Result<(bool, nat, int)>)
      modifies this
      ensures match DebtMint(old(State()), user, amount, index)
              case Ok(m) => r == Ok((m.first, m.userScaled, m.state.total)) && State() == m.state
              case Err(e) => r == Err(e) && State() == old(State())
    {
      var _ :- CheckInputs(amount, index);
      var amountScaled :- OrElse(RayDivUp(amount, index), InvalidIndex);
      var current := Get(debts, user);
      var next :- FitSigned(current + amountScaled);
      var total :- AddTotal(totalDebtScaled, amountScaled);
      var _ :- FitSigned(amount);
      debts := debts[user := next];
      totalDebtScaled := total;
      return Ok((current == 0, next, totalDebtScaled));
    }

    /** Returns whether the debt is cleared, the remaining total and the user's remaining shares. */
    method BurnScaled(user: Address, amount: nat, index: nat) returns (r: Result<(bool, int, nat)>)
      modifies this
      ensures match DebtBurn(old(State()), user, amount, index)
              case Ok(b) => r == Ok((b.userScaled == 0, b.state.total, b.userScaled)) && State() == b.state
              case Err(e) => r == Err(e) && State() == old(State())
    {
      var _ :- CheckInputs(amount, index);
      var amountScaled :- OrElse(RayDivDown(amount, index), InvalidIndex);
      var current := Get(debts, user);
      if current < amountScaled {
        return Err(InsufficientBalance);
      }
      var final := current - amountScaled;
      if final <= 1 {
        amountScaled := current;
        final := 0;
      }
      var _ :- FitSigned(final);
      var _ :- FitSigned(amountScaled);
      var total :- SubTotal(totalDebtScaled, amountScaled);
      var actual :- OrElse(RayMul(amountScaled, index), InvalidIndex);
      var _ :- FitSigned(actual);
      debts := debts[user := final];
      totalDebtScaled := total;
      return Ok((final == 0, totalDebtScaled, final));
    }
  }
}
