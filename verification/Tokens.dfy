/**
 The two scaled-balance tokens of a reserve. A holder's entry is a share count; multiplied by the
 current index it becomes an amount. Each operation is a function on the stored balances; the
 classes AToken and DebtToken in TokenContracts run them on contract storage.
 */
module Tokens {
  import opened Common
  import opened RayMath
  import opened Totals

  /** Per-user scaled balances and the running total kept beside them (a signed number in storage). */
  datatype Scaled = Scaled(of: map<Address, nat>, total: int) {
    function Of(user: Address): nat {
      Get(of, user)
    }
  }

  /** The running total is exactly the sum of the entries. */
  ghost predicate Backed(s: Scaled) {
    s.total == Sum(s.of)
  }

  datatype Minted = Minted(first: bool, minted: nat, userScaled: nat, state: Scaled)
  datatype Burned = Burned(burned: nat, userScaled: nat, state: Scaled)
  datatype Paid = Paid(burned: nat, userScaled: nat, actual: nat, state: Scaled)

  function OrElse<T>(r: Result<T>, error: Error): Result<T> {
    if r.Ok? then r else Err(error)
  }

  function AddTotal(total: int, n: nat): Result<int> {
    if total + n <= I128_MAX then Ok(total + n) else Err(MathOverflow)
  }

  function SubTotal(total: int, n: nat): Result<int> {
    if total - n + I128_MAX + 1 >= 0 then Ok(total - n) else Err(MathOverflow)
  }

  /** What either token displays: the half-up product, which must fit a signed amount. */
  function BalanceWithIndex(s: Scaled, user: Address, index: nat): Result<nat> {
    var raw :- RayMul(s.Of(user), index);
    FitSigned(raw)
  }

  /** The index-multiplied running total, refused when the stored total is negative. */
  function TotalWithIndex(s: Scaled, index: nat): Result<nat> {
    if s.total < 0 then Err(MathOverflow) else RayMul(s.total, index)
  }

  function CheckInputs(amount: nat, index: nat): Result<()> {
    if amount == 0 then Err(InvalidAmount)
    else if index == 0 then Err(InvalidIndex)
    else Ok(())
  }

  // ------------------------------------------------------------------ aToken

  function ATokenMint(s: Scaled, user: Address, amount: nat, index: nat): Result<Minted> {
    var _ :- CheckInputs(amount, index);
    var raw :- OrElse(RayDivDown(amount, index), InvalidIndex);
    var scaled :- FitSigned(raw);
    var current := s.Of(user);
    var next :- FitSigned(current + scaled);
    var total :- AddTotal(s.total, scaled);
    var _ :- FitSigned(amount);
    Ok(Minted(current == 0, scaled, next, Scaled(s.of[user := next], total)))
  }

  /** The shares a burn of `amount` takes: rounded up, then capped at what the user holds. */
  function CappedShares(s: Scaled, user: Address, amount: nat, index: nat): Result<nat> {
    var _ :- CheckInputs(amount, index);
    var raw :- OrElse(RayDivUp(amount, index), InvalidIndex);
    var scaled :- FitSigned(raw);
    var burned := Min(scaled, s.Of(user));
    if burned == 0 then Err(InvalidAmount) else Ok(burned)
  }

  function ATokenBurn(s: Scaled, user: Address, amount: nat, index: nat): Result<Burned> {
    var burned :- CappedShares(s, user, amount, index);
    var next := s.Of(user) - burned;
    var total :- SubTotal(s.total, burned);
    var actual :- OrElse(RayMul(burned, index), InvalidIndex);
    var _ :- FitSigned(actual);
    Ok(Burned(burned, next, Scaled(s.of[user := next], total)))
  }

  function ATokenBurnAndTransfer(s: Scaled, user: Address, amount: nat, index: nat): Result<Paid> {
    var burned :- CappedShares(s, user, amount, index);
    var next := s.Of(user) - burned;
    var total :- SubTotal(s.total, burned);
    var floored :- OrElse(RayMulDown(burned, index), InvalidIndex);
    var actual := Min(floored, amount);
    var _ :- FitSigned(actual);
    Ok(Paid(burned, next, actual, Scaled(s.of[user := next], total)))
  }

  /** Debit first, then read the receiver's entry again, so that a transfer to oneself nets to zero. */
  function Move(s: Scaled, from: Address, to: Address, shares: nat): Result<Scaled> {
    if s.Of(from) < shares then
      Err(InsufficientBalance)
    else
      var debited := s.of[from := s.Of(from) - shares];
      var credit :- FitSigned(Get(debited, to) + shares);
      Ok(Scaled(debited[to := credit], s.total))
  }

  /** Returns whether this is the receiver's first balance, read after the debit. */
  function TransferOnLiquidation(s: Scaled, from: Address, to: Address, amount: nat, index: nat)
    : Result<(bool, Scaled)>
  {
    var _ :- CheckInputs(amount, index);
    var raw :- OrElse(RayDivDown(amount, index), InvalidIndex);
    var shares :- FitSigned(raw);
    if shares == 0 then
      Err(InvalidAmount)
    else
      var moved :- Move(s, from, to, shares);
      var _ :- FitSigned(amount);
      Ok((moved.Of(to) == shares, moved))
  }

  /** An ordinary transfer; the index is the reserve's current one. A transfer to oneself is a no-op. */
  function Transfer(s: Scaled, from: Address, to: Address, amount: nat, index: nat): Result<Scaled> {
    if amount == 0 then Err(InvalidAmount)
    else if from == to then Ok(s)
    else
      var _ :- CheckInputs(amount, index);
      var raw :- OrElse(RayDivUp(amount, index), InvalidIndex);
      var shares :- FitSigned(raw);
      Move(s, from, to, shares)
  }

  // ------------------------------------------------------------------ debt token

  function DebtMint(s: Scaled, user: Address, amount: nat, index: nat): Result<Minted> {
    var _ :- CheckInputs(amount, index);
    var scaled :- OrElse(RayDivUp(amount, index), InvalidIndex);
    var current := s.Of(user);
    var next :- FitSigned(current + scaled);
    var total :- AddTotal(s.total, scaled);
    var _ :- FitSigned(amount);
    Ok(Minted(current == 0, scaled, next, Scaled(s.of[user := next], total)))
  }

  /** A remainder of at most one share is dust and is burned with the rest. */
  function DebtBurn(s: Scaled, user: Address, amount: nat, index: nat): Result<Burned> {
    var _ :- CheckInputs(amount, index);
    var scaled :- OrElse(RayDivDown(amount, index), InvalidIndex);
    var current := s.Of(user);
    if current < scaled then
      Err(InsufficientBalance)
    else
      var left := current - scaled;
      var next := if left <= 1 then 0 else left;
      var burned := current - next;
      var _ :- FitSigned(next);
      var _ :- FitSigned(burned);
      var total :- SubTotal(s.total, burned);
      var actual :- OrElse(RayMul(burned, index), InvalidIndex);
      var _ :- FitSigned(actual);
      Ok(Burned(burned, next, Scaled(s.of[user := next], total)))
  }

  // ------------------------------------------------------------------ conservation

  /** Only `user` changed, by exactly the change of the total, and the total is still the sum. */
  ghost predicate OneHolderChanged(s: Scaled, s': Scaled, user: Address) {
    && Backed(s')
    && s'.total - s.total == s'.Of(user) - s.Of(user)
    && (forall other :: other != user ==> s'.Of(other) == s.Of(other))
  }

  lemma SetKeepsBacked(s: Scaled, user: Address, next: nat, total: int)
    requires Backed(s) && total == s.total + next - s.Of(user)
    ensures OneHolderChanged(s, Scaled(s.of[user := next], total), user)
  {
    SumUpdate(s.of, user, next);
  }

  lemma MintsKeepBacked(s: Scaled, user: Address, amount: nat, index: nat)
    requires Backed(s)
    ensures var m := ATokenMint(s, user, amount, index); m.Ok? ==> OneHolderChanged(s, m.value.state, user)
    ensures var m := DebtMint(s, user, amount, index); m.Ok? ==> OneHolderChanged(s, m.value.state, user)
  {
    var a := ATokenMint(s, user, amount, index);
    if a.Ok? {
      SetKeepsBacked(s, user, a.value.userScaled, a.value.state.total);
    }
    var d := DebtMint(s, user, amount, index);
    if d.Ok? {
      SetKeepsBacked(s, user, d.value.userScaled, d.value.state.total);
    }
  }

  lemma BurnsKeepBacked(s: Scaled, user: Address, amount: nat, index: nat)
    requires Backed(s)
    ensures var b := ATokenBurn(s, user, amount, index); b.Ok? ==> OneHolderChanged(s, b.value.state, user)
    ensures var p := ATokenBurnAndTransfer(s, user, amount, index); p.Ok? ==> OneHolderChanged(s, p.value.state, user)
    ensures var d := DebtBurn(s, user, amount, index); d.Ok? ==> OneHolderChanged(s, d.value.state, user)
  {
    var b := ATokenBurn(s, user, amount, index);
    if b.Ok? {
      SetKeepsBacked(s, user, b.value.userScaled, b.value.state.total);
    }
    var p := ATokenBurnAndTransfer(s, user, amount, index);
    if p.Ok? {
      SetKeepsBacked(s, user, p.value.userScaled, p.value.state.total);
    }
    var d := DebtBurn(s, user, amount, index);
    if d.Ok? {
      SetKeepsBacked(s, user, d.value.userScaled, d.value.state.total);
    }
  }

  /** A move conserves the total and the pair's combined shares; a move to oneself changes nothing. */
  lemma MoveConserves(s: Scaled, from: Address, to: Address, shares: nat)
    requires Backed(s) && Move(s, from, to, shares).Ok?
    ensures var s' := Move(s, from, to, shares).value;
            && Backed(s') && s'.total == s.total
            && (from == to ==> forall u :: s'.Of(u) == s.Of(u))
            && (from != to ==> s'.Of(from) + shares == s.Of(from) && s'.Of(to) == s.Of(to) + shares)
            && (forall u :: u != from && u != to ==> s'.Of(u) == s.Of(u))
  {
    var debited := s.of[from := s.Of(from) - shares];
    SumUpdate(s.of, from, s.Of(from) - shares);
    SumUpdate(debited, to, Get(debited, to) + shares);
  }

  lemma TransfersKeepBacked(s: Scaled, from: Address, to: Address, amount: nat, index: nat)
    requires Backed(s)
    ensures var t := Transfer(s, from, to, amount, index);
            t.Ok? ==> Backed(t.value) && t.value.total == s.total
    ensures var t := TransferOnLiquidation(s, from, to, amount, index);
            t.Ok? ==> Backed(t.value.1) && t.value.1.total == s.total
  {
    if from != to && Transfer(s, from, to, amount, index).Ok? {
      MoveConserves(s, from, to, DivUp(amount, index));
    }
    if TransferOnLiquidation(s, from, to, amount, index).Ok? {
      MoveConserves(s, from, to, DivDown(amount, index));
    }
  }

  // ------------------------------------------------------------------ what is accepted

  /** A mint is accepted exactly when the amount, the entry and the total it makes are positive signed numbers. */
  lemma MintAccepted(s: Scaled, user: Address, amount: nat, index: nat)
    ensures ATokenMint(s, user, amount, index).Ok? <==>
            && 0 < amount <= I128_MAX && index > 0
            && s.Of(user) + DivDown(amount, index) <= I128_MAX && s.total + DivDown(amount, index) <= I128_MAX
    ensures DebtMint(s, user, amount, index).Ok? <==>
            && 0 < amount <= I128_MAX && index > 0
            && s.Of(user) + DivUp(amount, index) <= I128_MAX && s.total + DivUp(amount, index) <= I128_MAX
    ensures ATokenMint(s, user, amount, index).Ok? ==>
              (ATokenMint(s, user, amount, index).value.first <==> s.Of(user) == 0)
    ensures DebtMint(s, user, amount, index).Ok? ==>
              (DebtMint(s, user, amount, index).value.first <==> s.Of(user) == 0)
  {
    hide DivDown, DivUp;
  }

  /** A debt burn is refused for lack of debt exactly when its floor in shares exceeds the debt. */
  lemma DebtBurnAccepted(s: Scaled, user: Address, amount: nat, index: nat)
    requires Backed(s) && amount > 0 && index > 0
    requires s.Of(user) <= I128_MAX && MulNear(s.Of(user), index) <= I128_MAX
    ensures DebtBurn(s, user, amount, index).Ok? <==> DivDown(amount, index) <= s.Of(user)
  {
    hide DivDown, MulNear;
    SumBoundsEntry(s.of, user);
    if index > 0 && DivDown(amount, index) <= s.Of(user) {
      var left := s.Of(user) - DivDown(amount, index);
      var burned := if left <= 1 then s.Of(user) else DivDown(amount, index);
      MulNearMonotone(burned, s.Of(user), index, index);
    }
  }

  // ------------------------------------------------------------------ rounding directions

  /** A mint of supply never credits more than was paid, and a mint of debt never less than was lent. */
  lemma MintsFavourPool(s: Scaled, user: Address, amount: nat, index: nat)
    ensures var m := ATokenMint(s, user, amount, index);
            m.Ok? ==> m.value.minted * index <= amount * RAY && m.value.minted == m.value.state.total - s.total
    ensures var m := DebtMint(s, user, amount, index);
            m.Ok? ==> m.value.minted * index >= amount * RAY && m.value.minted == m.value.state.total - s.total
  {
  }

  /** A supply burn takes at least the amount's worth, except that it stops at the user's last share. */
  lemma SupplyBurnCovers(s: Scaled, user: Address, amount: nat, index: nat)
    requires ATokenBurn(s, user, amount, index).Ok?
    ensures var b := ATokenBurn(s, user, amount, index).value;
            && b.burned == s.total - b.state.total == s.Of(user) - b.userScaled
            && (b.burned * index >= amount * RAY || b.userScaled == 0)
  {
  }

  /** So a burn of no more than the displayed balance takes all of it but at most half a unit. */
  lemma SupplyBurnLosesHalf(s: Scaled, user: Address, amount: nat, index: nat)
    requires ATokenBurn(s, user, amount, index).Ok?
    requires amount <= MulNear(s.Of(user), index)
    ensures var b := ATokenBurn(s, user, amount, index).value;
            b.burned * index + HALF_RAY >= amount * RAY && b.burned == s.total - b.state.total
  {
    SupplyBurnCovers(s, user, amount, index);
  }

  /**
   A burn that pays out itself takes the ceiling of the amount in shares, or the last share, and pays the floor of
   their worth, or the amount where that is less: never more than the shares are worth, nor more than asked.
   */
  lemma PaidBurnNeverOverpays(s: Scaled, user: Address, amount: nat, index: nat)
    requires ATokenBurnAndTransfer(s, user, amount, index).Ok?
    ensures var p := ATokenBurnAndTransfer(s, user, amount, index).value;
            && p.actual <= amount
            && p.actual * RAY <= p.burned * index
            && (p.actual == amount || p.burned * index < p.actual * RAY + RAY)
            && p.burned == s.total - p.state.total == s.Of(user) - p.userScaled
            && (p.burned * index >= amount * RAY || p.userScaled == 0)
            && p.burned * index < amount * RAY + index
  {
    MulMonotone(ATokenBurnAndTransfer(s, user, amount, index).value.burned, DivUp(amount, index), index, index);
  }

  /** A debt burn is worth what was repaid to within one share. */
  lemma DebtBurnWithinOneShare(s: Scaled, user: Address, amount: nat, index: nat)
    requires DebtBurn(s, user, amount, index).Ok?
    ensures var b := DebtBurn(s, user, amount, index).value;
            && b.burned == s.total - b.state.total == s.Of(user) - b.userScaled
            && b.burned * index <= amount * RAY + index
            && amount * RAY <= b.burned * index + index
  {
    var b := DebtBurn(s, user, amount, index).value;
    var scaled := DivDown(amount, index);
    assert b.burned <= scaled + 1;
    MulMonotone(b.burned, scaled + 1, index, index);
    MulMonotone(scaled, b.burned, index, index);
  }

  // ------------------------------------------------------------------ exits

  /** A burn whose ceiling reaches every share, of a balance that can be displayed, takes them all. */
  lemma EveryShareBurns(s: Scaled, user: Address, amount: nat, index: nat)
    requires Backed(s) && s.Of(user) > 0 && amount > 0 && index > 0
    requires s.Of(user) <= DivUp(amount, index) <= I128_MAX && amount <= I128_MAX
    requires BalanceWithIndex(s, user, index).Ok? && MulDown(s.Of(user), index) <= U128_MAX
    ensures ATokenBurn(s, user, amount, index).Ok?
    ensures ATokenBurn(s, user, amount, index).value.userScaled == 0
    ensures ATokenBurnAndTransfer(s, user, amount, index).Ok?
    ensures ATokenBurnAndTransfer(s, user, amount, index).value.userScaled == 0
  {
    hide MulNear, MulDown, DivUp;
    SumBoundsEntry(s.of, user);
  }

  lemma CoversEveryShare(held: nat, index: nat, shown: nat, up: nat)
    requires index >= RAY
    requires held * index - HALF_RAY < shown <= held * index + HALF_RAY
    requires shown <= up * index < shown + index
    ensures held <= up <= held + 1
  {
    CompareQuotients(held, up, index);
    assert (held + 1) * index == held * index + index;
    CompareQuotients(up, held + 1, index);
  }

  lemma CeilingBelowUnits(units: nat, index: nat, up: nat)
    requires index >= RAY && up * index < units * RAY + index
    ensures up <= units
  {
    MulMonotone(units, units, RAY, index);
    CompareQuotients(up, units, index);
  }

  /** The displayed balance, divided back up, is the balance or one share more. */
  lemma DisplayDividesUp(held: nat, index: nat)
    requires held > 0 && index >= RAY
    ensures held <= DivUp(MulNear(held, index), index) <= held + 1
    ensures DivUp(MulNear(held, index), index) <= MulNear(held, index)
    ensures held <= MulNear(held, index) && MulDown(held, index) <= MulNear(held, index)
  {
    var shown := MulNear(held, index);
    MulNearByRay(held, index);
    CoversEveryShare(held, index, shown * RAY, DivUp(shown, index));
    CeilingBelowUnits(shown, index, DivUp(shown, index));
  }

  /**
   Asking for the whole displayed balance always succeeds and burns every share, whatever the display
   rounded away; so does the burn that pays out itself.
   */
  lemma FullSupplyExit(s: Scaled, user: Address, index: nat, shown: nat)
    requires Backed(s) && s.Of(user) > 0 && index >= RAY
    requires BalanceWithIndex(s, user, index) == Ok(shown)
    ensures ATokenBurn(s, user, shown, index).Ok?
    ensures ATokenBurn(s, user, shown, index).value.userScaled == 0
    ensures ATokenBurnAndTransfer(s, user, shown, index).Ok?
    ensures ATokenBurnAndTransfer(s, user, shown, index).value.userScaled == 0
  {
    hide MulNear, MulDown, DivUp, ATokenBurn, ATokenBurnAndTransfer;
    DisplayDividesUp(s.Of(user), index);
    EveryShareBurns(s, user, shown, index);
  }

  /** A burn that comes within one share of the whole debt clears it. */
  lemma NearlyAllClears(s: Scaled, user: Address, amount: nat, index: nat)
    requires Backed(s) && amount > 0 && index > 0
    requires DivDown(amount, index) <= s.Of(user) <= DivDown(amount, index) + 1
    requires BalanceWithIndex(s, user, index).Ok? && s.Of(user) <= I128_MAX
    ensures DebtBurn(s, user, amount, index).Ok? && DebtBurn(s, user, amount, index).value.userScaled == 0
  {
    hide MulNear, DivDown;
    SumBoundsEntry(s.of, user);
  }

  lemma WithinOneShare(owed: nat, index: nat, shown: nat, scaled: nat)
    requires index >= RAY
    requires owed * index - HALF_RAY < shown <= owed * index + HALF_RAY
    requires scaled * index <= shown < scaled * index + index
    ensures scaled <= owed <= scaled + 1
  {
    CompareQuotients(scaled, owed, index);
    assert (scaled + 1) * index == scaled * index + index;
    CompareQuotients(owed, scaled + 1, index);
  }

  /** The displayed debt, divided back, is the debt or one share less. */
  lemma DisplayDividesBack(owed: nat, index: nat)
    requires owed > 0 && index >= RAY
    ensures DivDown(MulNear(owed, index), index) <= owed <= DivDown(MulNear(owed, index), index) + 1
    ensures MulNear(owed, index) > 0
  {
    var shown := MulNear(owed, index);
    var scaled := DivDown(shown, index);
    MulNearByRay(owed, index);
    WithinOneShare(owed, index, shown * RAY, scaled);
  }

  /** Repaying the whole displayed debt is never refused for lack of debt, and clears every share. */
  lemma FullDebtExit(s: Scaled, user: Address, index: nat, shown: nat)
    requires Backed(s) && s.Of(user) > 0 && index >= RAY
    requires BalanceWithIndex(s, user, index) == Ok(shown)
    ensures DivDown(shown, index) <= s.Of(user) <= DivDown(shown, index) + 1
    ensures DebtBurn(s, user, shown, index).Ok?
    ensures DebtBurn(s, user, shown, index).value.userScaled == 0
  {
    hide DivDown, MulNear, DebtBurn;
    DisplayDividesBack(s.Of(user), index);
    NearlyAllClears(s, user, shown, index);
  }

  /** Fresh supplier: depositing and leaving at one index returns at most the deposit. */
  lemma SupplyRoundTrip(s: Scaled, user: Address, amount: nat, index: nat)
    requires s.Of(user) == 0 && ATokenMint(s, user, amount, index).Ok?
    ensures MulNear(ATokenMint(s, user, amount, index).value.state.Of(user), index) <= amount
  {
  }

  /** And whatever a fresh supplier asks for at that index, what is paid out is at most the deposit. */
  lemma DepositNeverGrows(s: Scaled, user: Address, amount: nat, index: nat, asked: nat)
    requires s.Of(user) == 0 && ATokenMint(s, user, amount, index).Ok?
    requires ATokenBurnAndTransfer(ATokenMint(s, user, amount, index).value.state, user, asked, index).Ok?
    ensures ATokenBurnAndTransfer(ATokenMint(s, user, amount, index).value.state, user, asked,
        index).value.actual <= amount
  {
    var minted := ATokenMint(s, user, amount, index).value;
    var paid := ATokenBurnAndTransfer(minted.state, user, asked, index).value;
    MintsFavourPool(s, user, amount, index);
    PaidBurnNeverOverpays(minted.state, user, asked, index);
    MulMonotone(paid.burned, minted.minted, index, index);
  }

  /** Fresh borrower: borrowing and repaying in full at one index costs at least the loan. */
  lemma BorrowRoundTrip(s: Scaled, user: Address, amount: nat, index: nat)
    requires s.Of(user) == 0 && DebtMint(s, user, amount, index).Ok?
    ensures MulNear(DebtMint(s, user, amount, index).value.state.Of(user), index) >= amount
  {
  }
}
