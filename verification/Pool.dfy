/**
 The pool as a step machine over many reserves and many users: every run of router calls, from an
 empty pool, keeps each reserve sound, solvent up to its audited budget, and free of hidden debt.
 */
module Pools {
  import opened Common
  import opened RayMath
  import opened RateStrategy
  import opened Tokens
  import opened Reserves
  import opened Solvency
  import opened Liquidations
  import opened Swaps
  import opened CrossSolvency

  type Pool = map<nat, Reserve>

  datatype Action =
    | Init(id: nat, now: nat, config: Config)
    | On(id: nat, op: Op)
    | Liquidate(debtId: nat, collateralId: nat, le: LiquidationEnv, liquidator: Address, user: Address,
                cover: nat, asShares: bool)
    | Execute(debtId: nat, collateralId: nat, le: LiquidationEnv, user: Address, auth: Authorization)
    | Swap(fromId: nat, toId: nat, se: SwapEnv, user: Address, amount: nat, minOut: nat)

  /**
   One call on the pool. A liquidation_call or a swap on one asset is refused; a prepared liquidation on one
   asset is not, and fails when its loan is checked.
   */
  function Step(p: Pool, a: Action): Result<Pool> {
    match a
    case Init(id, now, config) => if id in p then Err(InvalidConfiguration) else Ok(p[id := NewReserve(now, config)])
    case On(id, op) =>
      if id !in p then Err(ReserveNotFound) else
      var r :- Apply(p[id], op);
      Ok(p[id := r])
    case Liquidate(d, c, le, liquidator, user, cover, asShares) =>
      if d !in p || c !in p then Err(ReserveNotFound)
      else if d == c then Err(InvalidLiquidation)
      else
        var pair :- LiquidationCall(Pair(p[d], p[c]), le, liquidator, user, cover, asShares);
        Ok(p[d := pair.debt][c := pair.collateral])
    case Execute(d, c, le, user, auth) =>
      if d !in p || c !in p then Err(ReserveNotFound)
      else if d == c then
        var one :- ExecuteOnOne(p[d], le, user, auth);
        Ok(p[d := one])
      else
        var pair :- ExecuteLiquidation(Pair(p[d], p[c]), le, user, auth);
        Ok(p[d := pair.debt][c := pair.collateral])
    case Swap(f, t, se, user, amount, minOut) =>
      if f !in p || t !in p then Err(ReserveNotFound)
      else if f == t then Err(InvalidAmount)
      else
        var pair :- SwapCollateral(p[f], p[t], se, user, amount, minOut);
        Ok(p[f := pair.0][t := pair.1])
  }

  /** A failed call leaves the pool as it was. */
  function Exec(p: Pool, a: Action): Pool {
    var r := Step(p, a);
    if r.Ok? then r.value else p
  }

  function Run(p: Pool, actions: seq<Action>): Pool
    decreases |actions|
  {
    if actions == [] then p else Run(Exec(p, actions[0]), actions[1..])
  }

  // ------------------------------------------------------------------ the audit of a run

  /** What one operation adds to the budget, accrual included, and the rate slack it leaves. */
  function OpAudit(r: Reserve, r': Reserve, a: Audit, op: Op): Audit {
    match op
    case SupplyOp(e, _, _) => AfterOperation(r, r', a, e.now, 0)
    case WithdrawOp(e, _, _) => AfterOperation(r, r', a, e.now, HALF_RAY)
    case BorrowOp(e, _, _) => AfterOperation(r, r', a, e.now, 0)
    case RepayOp(e, _, _) => AfterOperation(r, r', a, e.now, r'.data.borrowIndex)
    case CollectOp(now, _) =>
      var accrued := AfterAccrual(r, a, now);
      Audit(accrued.budget + CollectionCharge(r'.cash < r.cash), accrued.slack)
    case PokeOp(now) => AfterAccrual(r, a, now)
    case _ => a
  }

  lemma StepKeepsReserves(p: Pool, a: Action)
    ensures p.Keys <= Exec(p, a).Keys
  {
  }

  /** The audit of reserve `id` after one successful action. */
  function ActionAudit(p: Pool, id: nat, a: Audit, action: Action): Audit
    requires Step(p, action).Ok?
  {
    StepKeepsReserves(p, action);
    if id !in p then Audit(0, 0)
    else
      var r, r' := p[id], Exec(p, action)[id];
      match action
      case On(i, op) => if i == id then OpAudit(r, r', a, op) else a
      case Liquidate(d, c, le, _, _, _, asShares) =>
        if id == d then AfterOperation(r, r', a, le.now, BurnCharge(r, r'))
        else if id == c then AfterOperation(r, r', a, le.now, SeizureCharge(asShares))
        else a
      case Execute(d, c, le, user, auth) =>
        if id == d then
          AfterOperation(r, r', a, le.now, RAY * LentCover(Pair(p[d], p[c]), le, user, auth) + BurnCharge(r, r'))
        else if id == c then AfterOperation(r, r', a, le.now, 0)
        else a
      case Swap(f, t, se, _, _, _) => if id == f || id == t then AfterOperation(r, r', a, se.now, 0) else a
      case Init(_, _, _) => a
  }

  /** The audited budget of reserve `id` over a whole run. */
  function RunAudit(p: Pool, actions: seq<Action>, id: nat, a: Audit): Audit
    decreases |actions|
  {
    if actions == [] then a
    else
      var a' := if Step(p, actions[0]).Ok? then ActionAudit(p, id, a, actions[0]) else a;
      RunAudit(Exec(p, actions[0]), actions[1..], id, a')
  }

  // ------------------------------------------------------------------ solvency of every run

  lemma ApplyCovered(r: Reserve, a: Audit, op: Op)
    requires Covered(r, a) && Apply(r, op).Ok?
    ensures Covered(Apply(r, op).value, OpAudit(r, Apply(r, op).value, a, op))
  {
    match op
    case SupplyOp(e, user, amount) => SupplyCovered(r, a, e, user, amount);
    case WithdrawOp(e, user, amount) => WithdrawCovered(r, a, e, user, amount);
    case BorrowOp(e, user, amount) => BorrowCovered(r, a, e, user, amount);
    case RepayOp(e, user, amount) => RepayCovered(r, a, e, user, amount);
    case TransferOp(e, from, to, amount) => TransferCovered(r, a, e, from, to, amount);
    case CoverOp(ok, amount) => CoverDeficitCovered(r, a, ok, amount);
    case CollectOp(now, treasurySet) => CollectCovered(r, a, now, treasurySet);
    case PokeOp(now) => PokeCovered(r, a, now);
    case FlagOp(_, _, _, _) =>
    case ConfigureOp(_) =>
    case DonateOp(_) =>
  }

  lemma CoveredIsSound(r: Reserve, a: Audit)
    requires Covered(r, a)
    ensures Sound(r)
  {
  }

  /** One reserve through one action. */
  lemma StepCovered(p: Pool, id: nat, a: Audit, action: Action)
    requires Step(p, action).Ok? && id in Exec(p, action)
    requires id in p ==> Covered(p[id], a)
    ensures Covered(Exec(p, action)[id], ActionAudit(p, id, a, action))
  {
    hide Apply, LiquidationCall, ExecuteLiquidation, ExecuteOnOne, SwapCollateral, NewReserve;
    hide Covered, AfterOperation, OpAudit, LentCover, BurnCharge;
    if id !in p {
      NewReserveCovered(action.now, action.config);
    } else {
      match action
      case Init(_, _, _) =>
      case On(i, op) =>
        if i == id {
          ApplyCovered(p[id], a, op);
        }
      case Liquidate(d, c, le, liquidator, user, cover, asShares) =>
        if id == d {
          LiquidationDebtCovered(Pair(p[d], p[c]), a, le, liquidator, user, cover, asShares);
        } else if id == c {
          LiquidationCollateralCovered(Pair(p[d], p[c]), a, le, liquidator, user, cover, asShares);
        }
      case Execute(d, c, le, user, auth) =>
        if d == c && id == d {
          CoveredIsSound(p[d], a);
          OneAssetNeverExecutes(p[d], le, user, auth);
        } else if id == d {
          ExecuteDebtCovered(Pair(p[d], p[c]), a, le, user, auth);
        } else if id == c {
          ExecuteCollateralCovered(Pair(p[d], p[c]), a, le, user, auth);
        }
      case Swap(f, t, se, user, amount, minOut) =>
        if id == f {
          SwapFromCovered(p[f], p[t], a, se, user, amount, minOut);
        } else if id == t {
          SwapToCovered(p[f], p[t], a, se, user, amount, minOut);
        }
    }
  }

  lemma {:induction false} RunCovered(p: Pool, actions: seq<Action>, id: nat, a: Audit)
    requires id in p ==> Covered(p[id], a)
    requires id !in p ==> a == Audit(0, 0)
    requires id in Run(p, actions)
    ensures Covered(Run(p, actions)[id], RunAudit(p, actions, id, a))
    decreases |actions|
  {
    if actions != [] {
      var p' := Exec(p, actions[0]);
      StepKeepsReserves(p, actions[0]);
      var ok := Step(p, actions[0]).Ok?;
      if ok && id in p' {
        StepCovered(p, id, a, actions[0]);
      }
      var a' := if ok then ActionAudit(p, id, a, actions[0]) else a;
      RunCovered(p', actions[1..], id, a');
    }
  }

  /**
   Solvency over whole runs. From an empty pool, after any sequence of calls by any users at any times,
   a reserve's cash, deficit and debt are worth its suppliers' claims up to the audited rounding budget.
   */
  lemma PoolSolvent(actions: seq<Action>, id: nat)
    requires id in Run(map[], actions)
    ensures var r := Run(map[], actions)[id];
            RAY * (r.cash + r.deficit) + r.debt.total * r.data.borrowIndex
              + RunAudit(map[], actions, id, Audit(0, 0)).budget
            >= r.supply.total * r.data.liquidityIndex
  {
    RunCovered(map[], actions, id, Audit(0, 0));
  }

  // ------------------------------------------------------------------ soundness of every reserve

  /** Any sound reserve is covered by a large enough audit, so coverage lemmas also preserve soundness. */
  lemma SoundIsCovered(r: Reserve) returns (a: Audit)
    requires Sound(r)
    ensures Covered(r, a)
  {
    var margin := Margin(r);
    var charge := r.data.liquidityRate * (r.supply.total * r.data.liquidityIndex);
    var earned := r.data.borrowRate * (r.debt.total * r.data.borrowIndex);
    a := Audit(if margin < 0 then -margin else 0, if charge > earned then charge - earned else 0);
  }

  /** What the indices of a reserve may do over time. */
  ghost predicate IndicesGrew(r: Reserve, r': Reserve) {
    r.data.liquidityIndex <= r'.data.liquidityIndex && r.data.borrowIndex <= r'.data.borrowIndex
  }

  lemma AccrueGrows(r: Reserve, now: nat)
    requires Sound(r) && Accrue(r.data, now).Ok?
    ensures Sound(r.(data := Accrue(r.data, now).value)) && IndicesGrew(r, r.(data := Accrue(r.data, now).value))
  {
    AccrualKeepsOrder(r.data, now);
  }

  lemma RefreshKeepsIndices(r: Reserve, params: ValidParams)
    requires RefreshRates(r, params).Ok?
    ensures RefreshRates(r, params).value.data.liquidityIndex == r.data.liquidityIndex
    ensures RefreshRates(r, params).value.data.borrowIndex == r.data.borrowIndex
  {
  }

  lemma MoveGrows(r: Reserve, now: nat, moved: Reserve, params: ValidParams)
    requires Sound(r) && Accrue(r.data, now).Ok? && moved.data == Accrue(r.data, now).value
    requires RefreshRates(moved, params).Ok?
    ensures IndicesGrew(r, RefreshRates(moved, params).value)
  {
    AccrueGrows(r, now);
    RefreshKeepsIndices(moved, params);
  }

  lemma SupplySideGrows(r: Reserve, op: Op)
    requires Sound(r) && Apply(r, op).Ok? && (op.SupplyOp? || op.WithdrawOp?)
    ensures IndicesGrew(r, Apply(r, op).value)
  {
    if op.SupplyOp? {
      SupplyLoss(r, op.e, op.user, op.amount);
      MoveGrows(r, op.e.now, SupplyMove(r, op.e, op.user, op.amount).value, op.e.params);
    } else {
      WithdrawLoss(r, op.e, op.user, op.amount);
      MoveGrows(r, op.e.now, WithdrawMove(r, op.e, op.user, op.amount).value.0, op.e.params);
    }
  }

  lemma DebtSideGrows(r: Reserve, op: Op)
    requires Sound(r) && Apply(r, op).Ok? && (op.BorrowOp? || op.RepayOp?)
    ensures IndicesGrew(r, Apply(r, op).value)
  {
    if op.BorrowOp? {
      BorrowLoss(r, op.e, op.user, op.amount);
      MoveGrows(r, op.e.now, BorrowMove(r, op.e, op.user, op.amount).value, op.e.params);
    } else {
      RepayLoss(r, op.e, op.user, op.amount);
      MoveGrows(r, op.e.now, RepayMove(r, op.e, op.user, op.amount).value.0, op.e.params);
    }
  }

  lemma ApplyGrows(r: Reserve, op: Op)
    requires Sound(r) && Apply(r, op).Ok?
    ensures IndicesGrew(r, Apply(r, op).value)
  {
    if op.SupplyOp? || op.WithdrawOp? {
      SupplySideGrows(r, op);
    } else if op.BorrowOp? || op.RepayOp? {
      DebtSideGrows(r, op);
    } else if op.CollectOp? {
      AccrueGrows(r, op.now);
    } else if op.PokeOp? {
      AccrueGrows(r, op.now);
    }
  }

  lemma SettleCollateralKeepsDebt(
      r: Reserve, e: LiquidationEnv, user: Address, liquidator: Address, plan: Plan, fee: nat, asShares: bool)
    requires fee <= plan.seized && SettleCollateral(r, e, user, liquidator, plan, fee, asShares).Ok?
    ensures var r' := SettleCollateral(r, e, user, liquidator, plan, fee, asShares).value.0;
            r'.debt == r.debt && r'.borrowBits == r.borrowBits && r'.data == r.data
  {
  }

  lemma SettleDebtKeepsData(r: Reserve, user: Address, plan: Plan)
    requires SettleDebt(r, user, plan).Ok?
    ensures SettleDebt(r, user, plan).value.data == r.data
  {
  }

  /** The moves of either liquidation happen at the accrued indices. */
  lemma LiquidationMovesKeepData(
      p: Pair, e: LiquidationEnv, liquidator: Address, user: Address, cover: nat, asShares: bool)
    requires LiquidationMoves(p, e, liquidator, user, cover, asShares).Ok?
    ensures var moved := LiquidationMoves(p, e, liquidator, user, cover, asShares).value.0;
            moved.debt.data == p.debt.data && moved.collateral.data == p.collateral.data
  {
    var plan := LiquidationMoves(p, e, liquidator, user, cover, asShares).value.1;
    var fee := LiquidationShape(p, e, liquidator, user, cover, asShares);
    SettleDebtKeepsData(p.debt, user, plan);
    SettleCollateralKeepsDebt(p.collateral, e, user, liquidator, plan, fee, asShares);
  }

  lemma FlashMovesKeepData(p: Pair, e: LiquidationEnv, user: Address, auth: Authorization)
    requires FlashMoves(p, e, user, auth).Ok?
    ensures var moved := FlashMoves(p, e, user, auth).value.0;
            moved.debt.data == p.debt.data && moved.collateral.data == p.collateral.data
  {
    FlashShape(p, e, user, auth);
  }

  lemma PairGrows(p: Pair, moved: Pair, now: nat, debtParams: ValidParams, collateralParams: ValidParams)
    requires Sound(p.debt) && Sound(p.collateral)
    requires AccruePair(p, now).Ok? && RefreshPair(moved, debtParams, collateralParams).Ok?
    requires moved.debt.data == AccruePair(p, now).value.debt.data
    requires moved.collateral.data == AccruePair(p, now).value.collateral.data
    ensures var p' := RefreshPair(moved, debtParams, collateralParams).value;
            IndicesGrew(p.debt, p'.debt) && IndicesGrew(p.collateral, p'.collateral)
  {
    AccrueGrows(p.debt, now);
    AccrueGrows(p.collateral, now);
    RefreshKeepsIndices(moved.debt, debtParams);
    RefreshKeepsIndices(moved.collateral, collateralParams);
  }

  /** Neither liquidation lowers an index. */
  lemma LiquidationGrows(
      p: Pair, e: LiquidationEnv, liquidator: Address, user: Address, cover: nat, asShares: bool)
    requires Sound(p.debt) && Sound(p.collateral)
    requires LiquidationCall(p, e, liquidator, user, cover, asShares).Ok?
    ensures var p' := LiquidationCall(p, e, liquidator, user, cover, asShares).value;
            IndicesGrew(p.debt, p'.debt) && IndicesGrew(p.collateral, p'.collateral)
  {
    var q := AccruePair(p, e.now).value;
    LiquidationMovesKeepData(q, e, liquidator, user, cover, asShares);
    PairGrows(p, LiquidationMoves(q, e, liquidator, user, cover, asShares).value.0, e.now, e.debtParams,
              e.collateralParams);
  }

  lemma ExecuteGrows(p: Pair, e: LiquidationEnv, user: Address, auth: Authorization)
    requires Sound(p.debt) && Sound(p.collateral)
    requires ExecuteLiquidation(p, e, user, auth).Ok?
    ensures var p' := ExecuteLiquidation(p, e, user, auth).value;
            IndicesGrew(p.debt, p'.debt) && IndicesGrew(p.collateral, p'.collateral)
  {
    var q := AccruePair(p, e.now).value;
    FlashMovesKeepData(q, e, user, auth);
    PairGrows(p, FlashMoves(q, e, user, auth).value.0, e.now, e.debtParams, e.collateralParams);
  }

  lemma QuietlyGrows(r: Reserve, now: nat)
    requires Sound(r) && AccrueQuietly(r.data, now).Ok?
    ensures IndicesGrew(r, r.(data := AccrueQuietly(r.data, now).value))
  {
    if now > r.data.lastUpdate {
      AccrueGrows(r, now);
    }
  }

  lemma SwapMovesKeepData(from: Reserve, to: Reserve, e: SwapEnv, user: Address, amount: nat, minOut: nat)
    ensures SellMove(from, user, amount).Ok? ==> SellMove(from, user, amount).value.0.data == from.data
    ensures BuyMove(to, e, user, minOut).Ok? ==> BuyMove(to, e, user, minOut).value.data == to.data
  {
  }

  lemma SwapGrows(from: Reserve, to: Reserve, e: SwapEnv, user: Address, amount: nat, minOut: nat)
    requires Sound(from) && Sound(to) && SwapCollateral(from, to, e, user, amount, minOut).Ok?
    ensures var (from', to') := SwapCollateral(from, to, e, user, amount, minOut).value;
            IndicesGrew(from, from') && IndicesGrew(to, to')
  {
    hide AccrueQuietly, SellMove, BuyMove, CheckSwap, RefreshRates, Sound;
    QuietlyGrows(from, e.now);
    QuietlyGrows(to, e.now);
    var sold := from.(data := AccrueQuietly(from.data, e.now).value);
    var bought := to.(data := AccrueQuietly(to.data, e.now).value);
    SwapMovesKeepData(sold, bought, e, user, amount, minOut);
    RefreshKeepsIndices(SellMove(sold, user, amount).value.0, e.fromParams);
    RefreshKeepsIndices(BuyMove(bought, e, user, minOut).value, e.toParams);
  }

  ghost predicate AllSound(p: Pool) {
    forall id :: id in p ==> Sound(p[id])
  }

  /** No action lowers an index. */
  lemma StepGrows(p: Pool, id: nat, action: Action)
    requires AllSound(p) && id in p
    ensures id in Exec(p, action) && IndicesGrew(p[id], Exec(p, action)[id])
  {
    hide ExecuteOnOne, Apply, LiquidationCall, ExecuteLiquidation, SwapCollateral, Sound;
    if Step(p, action).Ok? {
      match action
      case Init(_, _, _) =>
      case On(i, op) =>
        if i == id {
          ApplyGrows(p[id], op);
        }
      case Liquidate(d, c, le, liquidator, user, cover, asShares) =>
        LiquidationGrows(Pair(p[d], p[c]), le, liquidator, user, cover, asShares);
      case Execute(d, c, le, user, auth) =>
        if d == c {
          OneAssetNeverExecutes(p[d], le, user, auth);
        } else {
          ExecuteGrows(Pair(p[d], p[c]), le, user, auth);
        }
      case Swap(f, t, se, user, amount, minOut) =>
        SwapGrows(p[f], p[t], se, user, amount, minOut);
    }
  }

  /** One reserve through one action: books, index order and rate order are kept. */
  lemma StepSound(p: Pool, id: nat, action: Action)
    requires id in Exec(p, action)
    requires id in p ==> Sound(p[id])
    ensures Sound(Exec(p, action)[id])
  {
    if Step(p, action).Ok? {
      if id !in p {
        StepCovered(p, id, Audit(0, 0), action);
      } else {
        var a := SoundIsCovered(p[id]);
        StepCovered(p, id, a, action);
      }
    }
  }

  lemma ExecSound(p: Pool, action: Action)
    requires AllSound(p)
    ensures AllSound(Exec(p, action))
  {
    forall id | id in Exec(p, action)
      ensures Sound(Exec(p, action)[id])
    {
      StepSound(p, id, action);
    }
  }

  /**
   In every run from a sound pool (the empty one is), every reserve has indices of at least one ray with
   the borrow index on top, both running totals equal to the sums of the users' entries, and a supplier
   rate no higher than the borrow rate; and no index is ever lower later than it was earlier.
   */
  lemma {:induction false} RunSound(p: Pool, actions: seq<Action>)
    requires AllSound(p)
    ensures AllSound(Run(p, actions))
    ensures forall id :: id in p ==> id in Run(p, actions) && IndicesGrew(p[id], Run(p, actions)[id])
    decreases |actions|
  {
    if actions != [] {
      var p' := Exec(p, actions[0]);
      ExecSound(p, actions[0]);
      StepKeepsReserves(p, actions[0]);
      forall id | id in p
        ensures IndicesGrew(p[id], p'[id])
      {
        StepGrows(p, id, actions[0]);
      }
      RunSound(p', actions[1..]);
    }
  }

  // ------------------------------------------------------------------ no hidden debt

  /** Users without the borrowing flag owe at most `most` debt shares. */
  ghost predicate HiddenAtMost(r: Reserve, most: nat) {
    forall user :: user !in r.borrowBits ==> r.debt.Of(user) <= most
  }

  /**
   A liquidation_call that is about to leave debt behind a cleared flag: its plan seizes everything, and the
   payment and the write-off round down to two shares less than the borrower owes.
   */
  ghost predicate LeavesHidden(p: Pool, a: Action) {
    && a.Liquidate? && Step(p, a).Ok?
    && var q := AccruePair(Pair(p[a.debtId], p[a.collateralId]), a.le.now).value;
       var plan := MakePlan(q.debt, q.collateral, a.le, a.user, a.cover).value;
       LeavesTwo(plan, q.debt.data.borrowIndex, q.debt.debt.Of(a.user))
  }

  /** A burn touches one user's debt, and never raises it. */
  lemma DebtBurnLowers(s: Scaled, user: Address, amount: nat, index: nat)
    requires DebtBurn(s, user, amount, index).Ok?
    ensures forall u :: DebtBurn(s, user, amount, index).value.state.Of(u) <= s.Of(u)
    ensures forall u :: u != user ==> DebtBurn(s, user, amount, index).value.state.Of(u) == s.Of(u)
  {
  }

  lemma RepayHides(r: Reserve, e: Env, user: Address, amount: nat, most: nat)
    requires Sound(r) && HiddenAtMost(r, most) && RepayMove(r, e, user, amount).Ok?
    ensures HiddenAtMost(RepayMove(r, e, user, amount).value.0, most)
  {
    AccrualKeepsOrder(r.data, e.now);
    var (moved, pay) := RepayMove(r, e, user, amount).value;
    var index := moved.data.borrowIndex;
    DebtBurnLowers(r.debt, user, pay, index);
    var shown := BalanceWithIndex(r.debt, user, index).value;
    if shown == pay {
      FullDebtExit(r.debt, user, index, shown);
    }
  }

  /** A settled liquidation hides nothing, except the two shares that its burns may leave. */
  lemma SettleDebtHides(r: Reserve, user: Address, plan: Plan, most: nat)
    requires Backed(r.debt) && r.data.borrowIndex >= RAY && HiddenAtMost(r, most)
    requires CachedDebt(r, user) == Ok(plan.debtBalance) && SettleDebt(r, user, plan).Ok?
    requires LeavesTwo(plan, r.data.borrowIndex, r.debt.Of(user)) ==> most >= 2
    ensures HiddenAtMost(SettleDebt(r, user, plan).value, most)
  {
    var index := r.data.borrowIndex;
    var first := DebtBurn(r.debt, user, plan.cover, index).value;
    DebtBurnLowers(r.debt, user, plan.cover, index);
    if plan.cover < plan.debtBalance && plan.capped {
      DebtBurnLowers(first.state, user, plan.debtBalance - plan.cover, index);
      CappedAccountsForDebt(r, user, plan);
      CappedLeavesDebtIff(r, user, plan);
    } else if plan.cover == plan.debtBalance && r.debt.Of(user) > 0 && user in r.borrowBits {
      FullDebtExit(r.debt, user, index, plan.debtBalance);
    }
  }

  /** The prepared variant reads the remainder off the shares, so it never hides any. */
  lemma FlashSettleHides(r: Reserve, user: Address, cover: nat, capped: bool, most: nat)
    requires Backed(r.debt) && r.data.borrowIndex >= RAY && HiddenAtMost(r, most)
    requires FlashSettleDebt(r, user, cover, capped).Ok?
    ensures HiddenAtMost(FlashSettleDebt(r, user, cover, capped).value.0, most)
  {
    var index := r.data.borrowIndex;
    var burned := DebtBurn(r.debt, user, cover, index).value;
    DebtBurnLowers(r.debt, user, cover, index);
    BurnsKeepBacked(r.debt, user, cover, index);
    MulNearByRay(burned.userScaled, index);
    var left := MulNear(burned.userScaled, index);
    if capped && left > 0 {
      FullDebtExit(burned.state, user, index, left);
      DebtBurnLowers(burned.state, user, left, index);
    }
  }

  lemma BorrowHides(r: Reserve, e: Env, user: Address, amount: nat, most: nat)
    requires HiddenAtMost(r, most) && BorrowMove(r, e, user, amount).Ok?
    ensures HiddenAtMost(BorrowMove(r, e, user, amount).value, most)
  {
    var moved := BorrowMove(r, e, user, amount).value;
    assert forall u :: u != user ==> moved.debt.Of(u) == r.debt.Of(u);
  }

  /** Only borrowing and repaying touch the debt side of a single reserve. */
  lemma OpKeepsDebt(r: Reserve, op: Op)
    requires Apply(r, op).Ok? && !op.BorrowOp? && !op.RepayOp?
    ensures Apply(r, op).value.debt == r.debt && Apply(r, op).value.borrowBits == r.borrowBits
  {
    hide Accrue, CalculateRates, MulNear, ATokenMint, ATokenBurn, Transfer;
  }

  lemma ApplyHides(r: Reserve, op: Op, most: nat)
    requires Sound(r) && HiddenAtMost(r, most) && Apply(r, op).Ok?
    ensures HiddenAtMost(Apply(r, op).value, most)
  {
    if op.RepayOp? {
      RepayHides(r, op.e, op.user, op.amount, most);
    } else if op.BorrowOp? {
      BorrowHides(r, op.e, op.user, op.amount, most);
    } else {
      OpKeepsDebt(r, op);
    }
  }

  lemma LiquidationHides(
      p: Pair, e: LiquidationEnv, liquidator: Address, user: Address, cover: nat, asShares: bool, most: nat)
    requires Sound(p.debt) && HiddenAtMost(p.debt, most)
    requires LiquidationCall(p, e, liquidator, user, cover, asShares).Ok?
    requires var q := AccruePair(p, e.now).value;
             var plan := MakePlan(q.debt, q.collateral, e, user, cover).value;
             LeavesTwo(plan, q.debt.data.borrowIndex, q.debt.debt.Of(user)) ==> most >= 2
    ensures var p' := LiquidationCall(p, e, liquidator, user, cover, asShares).value;
            && HiddenAtMost(p'.debt, most)
            && p'.collateral.debt == p.collateral.debt && p'.collateral.borrowBits == p.collateral.borrowBits
  {
    hide Accrue, MakePlan, SettleDebt, SettleCollateral, FeeInCollateral, CheckLeftovers, CheckLiquidation, LeavesTwo;
    var q := AccruePair(p, e.now).value;
    AccrueGrows(p.debt, e.now);
    var (moved, plan) := LiquidationMoves(q, e, liquidator, user, cover, asShares).value;
    var fee := LiquidationShape(q, e, liquidator, user, cover, asShares);
    PlanQuotesBalances(q.debt, q.collateral, e, user, cover);
    SettleDebtHides(q.debt, user, plan, most);
    SettleCollateralKeepsDebt(q.collateral, e, user, liquidator, plan, fee, asShares);
  }

  lemma FlashCollateralKeepsDebt(r: Reserve, user: Address, seized: nat)
    requires FlashSettleCollateral(r, user, seized).Ok?
    ensures FlashSettleCollateral(r, user, seized).value.0.debt == r.debt
    ensures FlashSettleCollateral(r, user, seized).value.0.borrowBits == r.borrowBits
  {
  }

  /** A refresh keeps everything but the two rates. */
  lemma RefreshKeepsBooks(r: Reserve, params: ValidParams)
    requires RefreshRates(r, params).Ok?
    ensures var r' := RefreshRates(r, params).value;
            r'.supply == r.supply && r'.debt == r.debt && r'.borrowBits == r.borrowBits
  {
  }

  lemma ExecuteHides(p: Pair, e: LiquidationEnv, user: Address, auth: Authorization, most: nat)
    requires Sound(p.debt) && HiddenAtMost(p.debt, most)
    requires ExecuteLiquidation(p, e, user, auth).Ok?
    ensures var p' := ExecuteLiquidation(p, e, user, auth).value;
            && HiddenAtMost(p'.debt, most)
            && p'.collateral.debt == p.collateral.debt && p'.collateral.borrowBits == p.collateral.borrowBits
  {
    var q := AccruePair(p, e.now).value;
    AccrueGrows(p.debt, e.now);
    FlashShape(q, e, user, auth);
    var (moved, plan) := FlashMoves(q, e, user, auth).value;
    FlashSettleHides(q.debt, user, plan.cover, plan.capped, most);
    FlashCollateralKeepsDebt(q.collateral, user, plan.seized);
    RefreshKeepsBooks(moved.debt, e.debtParams);
    RefreshKeepsBooks(moved.collateral, e.collateralParams);
  }

  lemma SwapKeepsDebt(from: Reserve, to: Reserve, e: SwapEnv, user: Address, amount: nat, minOut: nat)
    requires SwapCollateral(from, to, e, user, amount, minOut).Ok?
    ensures var (from', to') := SwapCollateral(from, to, e, user, amount, minOut).value;
            && from'.debt == from.debt && from'.borrowBits == from.borrowBits
            && to'.debt == to.debt && to'.borrowBits == to.borrowBits
  {
  }

  ghost predicate AllHiddenAtMost(p: Pool, most: nat) {
    forall id :: id in p ==> HiddenAtMost(p[id], most)
  }

  lemma StepHides(p: Pool, id: nat, action: Action, most: nat)
    requires Step(p, action).Ok? && id in Exec(p, action) && AllSound(p)
    requires AllHiddenAtMost(p, most)
    requires LeavesHidden(p, action) ==> most >= 2
    ensures HiddenAtMost(Exec(p, action)[id], most)
  {
    hide Apply, LiquidationCall, ExecuteLiquidation, ExecuteOnOne, SwapCollateral;
    hide MakePlan, AccruePair, Sound, LeavesTwo;
    match action
    case Init(_, _, _) =>
    case On(i, op) =>
      ApplyHides(p[i], op, most);
    case Liquidate(d, c, le, liquidator, user, cover, asShares) =>
      LiquidationHides(Pair(p[d], p[c]), le, liquidator, user, cover, asShares, most);
    case Execute(d, c, le, user, auth) =>
      if d == c {
        OneAssetNeverExecutes(p[d], le, user, auth);
      } else {
        ExecuteHides(Pair(p[d], p[c]), le, user, auth, most);
      }
    case Swap(f, t, se, user, amount, minOut) =>
      SwapKeepsDebt(p[f], p[t], se, user, amount, minOut);
  }

  lemma SettlementLeavesTwo(r: Reserve, user: Address, plan: Plan)
    requires Backed(r.debt) && r.data.borrowIndex >= RAY
    requires CachedDebt(r, user) == Ok(plan.debtBalance) && SettleDebt(r, user, plan).Ok?
    requires LeavesTwo(plan, r.data.borrowIndex, r.debt.Of(user))
    ensures SettleDebt(r, user, plan).value.debt.Of(user) == 2 && user !in SettleDebt(r, user, plan).value.borrowBits
  {
    CappedAccountsForDebt(r, user, plan);
    CappedLeavesDebtIff(r, user, plan);
  }

  /** A liquidation that leaves debt behind does clear its flag: exactly two shares stay hidden. */
  lemma LiquidationLeavesTwo(
      p: Pair, e: LiquidationEnv, liquidator: Address, user: Address, cover: nat, asShares: bool)
    requires Sound(p.debt) && LiquidationCall(p, e, liquidator, user, cover, asShares).Ok?
    requires var q := AccruePair(p, e.now).value;
             var plan := MakePlan(q.debt, q.collateral, e, user, cover).value;
             LeavesTwo(plan, q.debt.data.borrowIndex, q.debt.debt.Of(user))
    ensures var r' := LiquidationCall(p, e, liquidator, user, cover, asShares).value.debt;
            r'.debt.Of(user) == 2 && user !in r'.borrowBits
  {
    hide Accrue, MakePlan, SettleDebt, SettleCollateral, FeeInCollateral, CheckLeftovers, CheckLiquidation, LeavesTwo;
    var q := AccruePair(p, e.now).value;
    AccrueGrows(p.debt, e.now);
    var (moved, plan) := LiquidationMoves(q, e, liquidator, user, cover, asShares).value;
    var fee := LiquidationShape(q, e, liquidator, user, cover, asShares);
    PlanQuotesBalances(q.debt, q.collateral, e, user, cover);
    SettlementLeavesTwo(q.debt, user, plan);
    RefreshKeepsBooks(moved.debt, e.debtParams);
  }

  /** From a pool without hidden debt, one call leaves some exactly when it is such a liquidation. */
  lemma HidesExactlyWhen(p: Pool, action: Action)
    requires AllSound(p) && AllHiddenAtMost(p, 0)
    ensures AllHiddenAtMost(Exec(p, action), 0) <==> !LeavesHidden(p, action)
  {
    if LeavesHidden(p, action) {
      hide LiquidationCall, MakePlan, AccruePair, Sound, LeavesTwo;
      var pair := Pair(p[action.debtId], p[action.collateralId]);
      LiquidationLeavesTwo(
        pair, action.le, action.liquidator, action.user, action.cover, action.asShares);
      assert !HiddenAtMost(Exec(p, action)[action.debtId], 0);
    } else if Step(p, action).Ok? {
      hide Step, LeavesHidden;
      forall id | id in Exec(p, action)
        ensures HiddenAtMost(Exec(p, action)[id], 0)
      {
        StepHides(p, id, action, 0);
      }
    }
  }

  ghost predicate NeverLeavesHidden(p: Pool, actions: seq<Action>)
    decreases |actions|
  {
    actions != [] ==> !LeavesHidden(p, actions[0]) && NeverLeavesHidden(Exec(p, actions[0]), actions[1..])
  }

  /** No debt is hidden before, between or after the calls of a run. */
  ghost predicate AlwaysInSight(p: Pool, actions: seq<Action>)
    decreases |actions|
  {
    AllHiddenAtMost(p, 0) && (actions != [] ==> AlwaysInSight(Exec(p, actions[0]), actions[1..]))
  }

  /** Over whole runs: no state of a run hides debt exactly when no call of it leaves any behind. */
  lemma {:induction false} RunHidesExactlyWhen(p: Pool, actions: seq<Action>)
    requires AllSound(p) && AllHiddenAtMost(p, 0)
    ensures AlwaysInSight(p, actions) <==> NeverLeavesHidden(p, actions)
    decreases |actions|
  {
    if actions != [] {
      hide AllHiddenAtMost, AllSound, LeavesHidden;
      HidesExactlyWhen(p, actions[0]);
      ExecSound(p, actions[0]);
      if AllHiddenAtMost(Exec(p, actions[0]), 0) {
        RunHidesExactlyWhen(Exec(p, actions[0]), actions[1..]);
      }
    }
  }

  /** A bound on hidden debt shares is carried along any run, a bound below two along runs that leave none behind. */
  lemma {:induction false} RunHides(p: Pool, actions: seq<Action>, most: nat)
    requires AllSound(p) && AllHiddenAtMost(p, most)
    requires most >= 2 || NeverLeavesHidden(p, actions)
    ensures AllHiddenAtMost(Run(p, actions), most)
    decreases |actions|
  {
    if actions != [] {
      var p' := Exec(p, actions[0]);
      ExecSound(p, actions[0]);
      forall id | id in p'
        ensures HiddenAtMost(p'[id], most)
      {
        if Step(p, actions[0]).Ok? {
          StepHides(p, id, actions[0], most);
        }
      }
      RunHides(p', actions[1..], most);
    }
  }

  /**
   Hidden debt over whole runs from an empty pool: a user whose borrowing flag is clear owes at most two debt
   shares in any run, and none at all unless some liquidation_call of the run left two.
   */
  lemma NoHiddenDebt(actions: seq<Action>, id: nat, user: Address)
    requires id in Run(map[], actions) && user !in Run(map[], actions)[id].borrowBits
    ensures Run(map[], actions)[id].debt.Of(user) <= 2
    ensures NeverLeavesHidden(map[], actions) ==> Run(map[], actions)[id].debt.Of(user) == 0
  {
    RunHides(map[], actions, 2);
    if NeverLeavesHidden(map[], actions) {
      RunHides(map[], actions, 0);
    }
  }
}
