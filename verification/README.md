# Verification of the Kinetic lending pool

This project models the reserve ledger of the lending pool and what hangs on it, and proves why it stays
consistent although every operation rounds. Amounts are units of an asset, indices and rates are rays
(10^27), token balances are shares that an index turns into amounts. A `Result` stands for a call: the host
rolls a failed call back, so a failing operation leaves no trace.

| File | What it holds |
|---|---|
| `Common`, `Totals` | results and error codes; sums over maps |
| `RayMath`, `Interest`, `RateStrategy` | rounding products and quotients, interest factors, the kinked rate curve |
| `Tokens`, `TokenContracts` | the two scaled-balance tokens, as functions and as the contracts' storage |
| `Reserve`, `Swap`, `Liquidation` | the router's operations as functions of stored state |
| `Ledger` | the same operations as steps on contract storage, with the host's rollback |
| `Effects`, `SwapEffects`, `LiquidationEffects` | what each call does in amounts, who may make it, and what alone refuses it |
| `Solvency`, `CrossSolvency`, `Pool` | what each operation may lose, and the theorems over whole runs |
| `Lending`, `Remnant` | runs from the empty pool: a loan, one that ends with hidden debt, one that loses a cover |
| `Account`, `AccountCaches`, `AccountMeaning` | the account computation with its caches, their transparency, and what its numbers mean |
| `Health`, `SwapHealth`, `PoolHealth` | the shortcut health checks against that computation, and the pool they guard |
| `ReserveConfig`, `UserBitmap` | the packed words against a record and against sets of flags |
| `Incentives`, `IncentiveRuns`, `Rewards` | one reward stream, its conservation over runs, and the contract with its claims |
| `FlashLoan` | flash loans over any list of assets and any receiver |

Main results:

* **Solvency.** `Pools.PoolSolvent` bounds, for every run, how far a reserve's cash, deficit and debt can fall
  short of its suppliers' claims. The budget is computed call by call by `Pools.RunAudit`: half a unit for a
  withdrawal or a seizure in cash, one borrow index for a repayment or a liquidation, a second one where a
  remainder is written off, one unit for a collection that pays, and for every accrual the term
  `Solvency.AccrualLoss`. One charge is not rounding: `execute_liquidation` burns a debt that its reserve is
  never paid for, because the cover lent by the aToken stays with the router and the transfer back
  (contracts/kinetic-router/src/flash_loan.rs:499-516) only restores the aToken's balance. The budget contains
  that cover (`CrossSolvency.LentCover`); `CrossSolvency.FlashDebtLoss` bounds the loss from both sides for every
  call, and `Remnants.LostCoverHappens` is a run in which it is paid. The accrual term uses a slack,
  `Solvency.FreshSlack`, because the rounded supplier rate may promise a little more than borrowers pay; a call
  that stores indices without refreshing rates lets the slack grow (`Solvency.GrownSlack`).
* **Order of the indices.** `Pools.RunSound`. What they grow by is `Effects.AccrualEffect`, over the two-sided
  series bound `Interest.CompoundIsSeries` and the curve of `RateStrategy.RatesAreShares`.
* **Hidden debt.** `Pools.NoHiddenDebt`: a capped `liquidation_call` clears the borrowing flag although its two
  floor burns may leave exactly two debt shares. `Pools.HidesExactlyWhen` and `Pools.RunHidesExactlyWhen` say
  when, in terms of the plan and the shares before the call, and `Remnants.HiddenDebtHappens` is a run from the
  empty pool that ends so, with a loan that the borrow check accepts and the health factor that the account
  computation finds (`Remnants.LoanIsReached`). Every other call keeps hidden debt at zero.
* **What each call does.** The lemmas of `Effects`, `SwapEffects` and `LiquidationEffects` bound what every
  operation moves from both sides, say which checks an accepted call has passed and when each flag changes, and
  the `...GoesThrough` and `...Accepted` lemmas say that nothing else refuses it. An uncapped `liquidation_call`
  takes the repayment with its bonus to the last unit (`LiquidationEffects.UncappedTakesBonus`). A capped one is
  refused when its payment leaves one share of a remainder that is written off
  (`LiquidationEffects.SettleDebtAccepted`, with `LiquidationEffects.LastShareIsRefused` for an instance): the
  token clears the last share with the payment, and the write-off finds nothing to burn.
* **Caches.** `AccountCaches.CachesTransparent`. The one way a cached call fails where the uncached one does not
  is an oracle batch that it alone needs: an extra asset without a price, or more than 64 assets at once.
* **Health checks.** `Health.LtvTestImpliesHealth`, `Health.WithdrawVerdict`, `SwapHealth.SwapVerdict`. What the
  swap check accepts is healthy for the account computation if and only if the collateral is worth anything
  (`SwapHealth.SwapCheckIsHealth`): `SwapHealth.DustIsAccepted` is an account of dust that the single-loop check
  accepts and whose health factor is zero. `PoolHealth.AcceptedWithdrawalIsHealthy` and
  `PoolHealth.AcceptedBorrowIsHealthy` tie the verdicts to the pool they guard.
* **Rewards.** `IncentiveRuns.LazyRewardsConserveEmission` from above and
  `IncentiveRuns.StandingRewardsReachEmission` from below; `Rewards.ClaimsConserve`, `Rewards.ClaimAllConserves`.
* **Flash loans.** `FlashLoans.FlashLoanSafe`, and `FlashLoans.HonestLoanCompletes` for the other direction.
* **Packed state.** `ReserveConfig.SettersRefine`, `ReserveConfig.RunKeepsLimits`, and the loops of `UserBitmap`.

Conventions. Numbers of 128 bits are natural numbers with explicit checks where the contracts check or trap;
256-bit intermediates are unbounded. Signed totals that are converted to unsigned ones trap when negative.
Underlying tokens move exact amounts. The treasury, the tokens, the router and the users are different
addresses. Time is a parameter of each call; a clock behind the last update is refused where the contracts
refuse it. Three flags carry what a call meets outside the ledger: `externalsOk` (access lists, oracle and token
calls), `healthOk` (the account's health check, modelled in `Health` and `SwapHealth`) and `roomOk` (the
per-user reserve limit). The theorems hold for every value of them. `claim_all_rewards` asks a token for an
unsigned total where the token answers a signed one; whether such a call yields the total or counts as zero is
a parameter (`answers`), and the results hold either way.

`dafny verify dfyconfig.toml` checks the whole project.

## Model

| member | source | states |
|---|---|---|
| `Pools.PoolSolvent` | contracts/kinetic-router/src/operations.rs:11-588 | Solvency over whole runs: after any sequence of supply, withdraw, borrow, repay, transfer, swap, both liquidations, deficit cover, collateral switch, collection and index storing by anyone at any time, cash, deficit and debt cover suppliers up to an explicit budget of rounding and of covers lent to prepared liquidations |
| `Pools.RunCovered` | contracts/kinetic-router/src/calculation.rs:443-503 | The same from any covered pool, with the budget the audit computes call by call |
| `Pools.StepCovered` | contracts/kinetic-router/src/operations.rs:191-254 | One call costs a reserve no more than its stated loss: half a unit per withdrawal or seizure in cash, a borrow index per repayment or liquidation, a second one when it writes off a remainder, one unit when a collection pays, the cover lent to execute_liquidation, and the accrual term |
| `Pools.RunSound` | contracts/kinetic-router/src/calculation.rs:443-503 | In every run both indices are at least one ray and never decrease, the borrow index stays on top, the rates stay ordered, and each token total equals the sum of its entries |
| `Pools.StepSound` | contracts/kinetic-router/src/calculation.rs:1000-1028 | One call keeps all of that for one reserve, failing calls included |
| `Pools.StepGrows` | contracts/kinetic-router/src/calculation.rs:443-503 | No call lowers an index |
| `Pools.RunHides` | contracts/kinetic-router/src/liquidation.rs:571-662 | A bound of two or more on hidden debt shares is carried along every run, and a smaller bound along every run in which no liquidation_call leaves two behind |
| `Pools.NoHiddenDebt` | contracts/kinetic-router/src/operations.rs:415-428 | A clear borrowing flag means at most two debt shares in every run, and none unless some liquidation_call of the run left two |
| `Pools.RunHidesExactlyWhen` | contracts/kinetic-router/src/liquidation.rs:571-662 | No state of a run from a pool without hidden debt hides any exactly when no liquidation_call of the run leaves debt behind |
| `Pools.HidesExactlyWhen` | contracts/kinetic-router/src/liquidation.rs:571-662 | From a pool without hidden debt one call leaves some exactly when it is a liquidation_call that seizes everything and whose payment and write-off round down to two shares less than is owed |
| `Pools.StepHides` | contracts/kinetic-router/src/operations.rs:563-570 | One call keeps the bound; only a liquidation_call that leaves two shares needs a bound of two |
| `Pools.RepayHides` | contracts/kinetic-router/src/operations.rs:485-588 | A repayment clears the flag only when no debt shares are left |
| `Pools.SettleDebtHides` | contracts/kinetic-router/src/liquidation.rs:571-662 | The debt side of liquidation_call keeps hidden debt at zero unless its two burns fall two shares short |
| `Pools.FlashSettleHides` | contracts/kinetic-router/src/router.rs:997-1090 | The prepared liquidation, its bad-debt branch included, never hides debt |
| `RateStrategy.BorrowRateOnCurve` | contracts/interest-rate-strategy/src/contract.rs:71-107 | The borrow rate lies on the two straight lines of the curve, from above and from below, to within the roundings of a share and a product |
| `RateStrategy.UtilizationIsShare` | contracts/interest-rate-strategy/src/contract.rs:59-69 | Utilisation is debt over total to within half a unit in the last digit, zero for an empty reserve |
| `RateStrategy.ValidMeans` | contracts/interest-rate-strategy/src/validation.rs:12-54 | Parameters are accepted exactly when the kink is strictly inside, the slopes rise, and base and slopes stay within the component and total limits |
| `RateStrategy.RatesAreShares` | contracts/interest-rate-strategy/src/contract.rs:43-135 | The borrow rate is the curve at the share of debt, and the supplier rate is the borrow rate times that share less the reserve factor, to within one unit in the last digit either way |
| `RateStrategy.BorrowRateMonotone` | contracts/interest-rate-strategy/src/contract.rs:71-107 | The borrow rate never falls as utilisation rises, across the kink included |
| `RateStrategy.BorrowRateBounded` | contracts/interest-rate-strategy/src/contract.rs:71-107 | For validated parameters the rate is defined at every utilisation and stays between the base and base plus both slopes, at most 20 rays, with the kink at base plus the first slope |
| `RateStrategy.UtilizationAtMostRay` | contracts/interest-rate-strategy/src/contract.rs:59-69 | The rounded utilisation exists exactly when the sum fits and is at most one ray |
| `RateStrategy.UtilizationMonotone` | contracts/interest-rate-strategy/src/contract.rs:59-69 | A larger debt share never rounds to a smaller utilisation |
| `RateStrategy.RatesDefined` | contracts/interest-rate-strategy/src/contract.rs:43-135 | Rates exist exactly when the reserve factor is a percentage and the total fits; suppliers never earn more than the borrow rate |
| `RateStrategy.RatesMonotone` | contracts/interest-rate-strategy/src/contract.rs:43-135 | More debt over less idle liquidity never lowers the borrow rate |
| `RateStrategy.SuppliersEarnWhatBorrowersPay` | contracts/kinetic-router/src/calculation.rs:945-995 | The supplier rate on the larger of supply and debt is at most the borrow rate on the debt plus 10.5 units per unit of liquidity |
| `Interest.CompoundIsSeries` | contracts/shared/src/utils.rs:151-218 | For every rate and span the compound factor is one ray plus the three terms of the binomial series, from above and from below, up to a stated number of units |
| `Interest.LinearIsSimple` | contracts/shared/src/utils.rs:220-232 | The linear factor is one ray plus simple interest, rounded down |
| `Interest.CompoundAtLeastLinear` | contracts/shared/src/utils.rs:151-218 | And it is at least linear interest at the same rate |
| `Interest.LinearBelowCompound` | contracts/shared/src/utils.rs:151-232 | At a supplier rate below the borrow rate the linear factor never exceeds the compound one |
| `RayMath.MulNear` | contracts/shared/src/utils.rs:37-50 | Half-up product: within half a ray of the exact one |
| `RayMath.MulDown` | contracts/shared/src/utils.rs:52-60 | Floor product: below the exact one by less than a ray |
| `RayMath.DivNear` | contracts/shared/src/utils.rs:62-77 | Half-up quotient: within half a divisor of the exact one |
| `RayMath.DivDown` | contracts/shared/src/utils.rs:79-93 | Floor quotient |
| `RayMath.DivUp` | contracts/shared/src/utils.rs:95-110 | Ceiling quotient |
| `RayMath.PercentMulUp` | contracts/shared/src/utils.rs:131-137 | The ceiling of a percentage, when the product fits |
| `RayMath.PercentMul` | contracts/shared/src/utils.rs:122-129 | A percentage rounded half up |
| `RayMath.MulNearMonotone` | contracts/shared/src/utils.rs:37-50 | The half-up product is monotone in both factors |
| `RayMath.DivNearMonotone` | contracts/shared/src/utils.rs:62-77 | The half-up quotient keeps the order of fractions |
| `Tokens.MintsKeepBacked` | contracts/a-token/src/contract.rs:225-241 | A mint of either token keeps the total equal to the sum of entries and changes one holder |
| `Tokens.BurnsKeepBacked` | contracts/a-token/src/contract.rs:275-299 | So does every burn, with its cap or its dust clearing |
| `Tokens.TransfersKeepBacked` | contracts/a-token/src/contract.rs:493-516 | Ordinary and liquidation transfers keep the total and its equality with the entries, transfers to oneself included |
| `Tokens.MoveConserves` | contracts/a-token/src/contract.rs:627-670 | A move debits and credits the same shares; to oneself it changes nothing |
| `Tokens.MintsFavourPool` | contracts/a-token/src/contract.rs:215-223 | Supply mints credit no more than was paid, debt mints no less than was lent |
| `Tokens.MintAccepted` | contracts/debt-token/src/contract.rs:153-203 | Either mint is refused exactly for an amount out of range or a balance or total that would leave its type; a deposit may round to no share |
| `Tokens.SupplyBurnCovers` | contracts/a-token/src/contract.rs:275-291 | A burn takes at least the amount in shares unless it takes the last one |
| `Tokens.SupplyBurnLosesHalf` | contracts/a-token/src/contract.rs:275-291 | A burn of at most the displayed balance loses at most half a unit |
| `Tokens.PaidBurnNeverOverpays` | contracts/a-token/src/contract.rs:377-466 | A burn that pays out takes the ceiling of the request in shares, or the last one, and pays the floor of their worth or the request, whichever is less |
| `Tokens.DebtBurnWithinOneShare` | contracts/debt-token/src/contract.rs:226-248 | A repayment burns its worth to within one share either way, dust clearing included |
| `Tokens.DebtBurnAccepted` | contracts/debt-token/src/contract.rs:226-248 | A repayment is refused exactly when its floor in shares is more than is owed |
| `Tokens.FullSupplyExit` | contracts/a-token/src/contract.rs:275-291 | Burning the displayed balance succeeds and leaves no shares, for both burns |
| `Tokens.FullDebtExit` | contracts/debt-token/src/contract.rs:226-248 | Repaying the displayed debt succeeds, is never refused for lack of debt, and leaves no shares |
| `Tokens.SupplyRoundTrip` | contracts/kinetic-router/src/operations.rs:181-185 | A fresh deposit displays at most the deposit at the same index |
| `Tokens.DepositNeverGrows` | contracts/a-token/src/contract.rs:377-466 | Whatever a fresh supplier asks for at the same index, at most the deposit is paid out |
| `Tokens.BorrowRoundTrip` | contracts/kinetic-router/src/operations.rs:498-499 | A fresh loan displays at least the loan at the same index |
| `TokenContracts.AToken.MintScaled` | contracts/a-token/src/contract.rs:204-252 | Storage after a mint is the specified one; on failure it is untouched |
| `TokenContracts.AToken.BurnScaled` | contracts/a-token/src/contract.rs:254-314 | The same for the capped burn |
| `TokenContracts.AToken.BurnScaledAndTransferTo` | contracts/a-token/src/contract.rs:377-466 | The same for the burn that pays out, with the amount it pays |
| `TokenContracts.AToken.TransferOnLiquidation` | contracts/a-token/src/contract.rs:471-528 | The same for a liquidation transfer, including one to oneself |
| `TokenContracts.AToken.TransferInternal` | contracts/a-token/src/contract.rs:579-682 | The same for an ordinary transfer |
| `TokenContracts.DebtToken.MintScaled` | contracts/debt-token/src/contract.rs:153-203 | The same for a debt mint |
| `TokenContracts.DebtToken.BurnScaled` | contracts/debt-token/src/contract.rs:205-274 | The same for a debt burn with its dust rule |
| `Solvency.AccrualKeepsOrder` | contracts/kinetic-router/src/calculation.rs:443-503 | Accrual raises both indices, keeps their order and changes nothing else |
| `Solvency.AccrualCovered` | contracts/kinetic-router/src/calculation.rs:443-503 | Accrual at the stored rates costs at most half a unit per share, one debt unit and the rate slack over time |
| `Solvency.RefreshCovered` | contracts/kinetic-router/src/calculation.rs:1000-1028 | Fresh rates overcharge by at most a term linear in total liquidity |
| `Solvency.SupplyLoss` | contracts/kinetic-router/src/operations.rs:11-131 | A supply never lowers the margin |
| `Solvency.SupplyCovered` | contracts/kinetic-router/src/operations.rs:11-131 | The whole call, accrual and rates included, keeps coverage without loss |
| `Solvency.WithdrawLoss` | contracts/kinetic-router/src/operations.rs:132-284 | A withdrawal lowers the margin by at most half a unit |
| `Solvency.WithdrawCovered` | contracts/kinetic-router/src/operations.rs:132-284 | The whole call keeps coverage with that loss |
| `Solvency.BorrowLoss` | contracts/kinetic-router/src/operations.rs:285-449 | A borrow never lowers the margin |
| `Solvency.BorrowCovered` | contracts/kinetic-router/src/operations.rs:285-449 | The whole call keeps coverage without loss |
| `Solvency.RepayLoss` | contracts/kinetic-router/src/operations.rs:450-588 | A repayment lowers the margin by at most one borrow index |
| `Solvency.RepayCovered` | contracts/kinetic-router/src/operations.rs:450-588 | The whole call keeps coverage with that loss |
| `Solvency.TransferCovered` | contracts/kinetic-router/src/router.rs:1840-1888 | A transfer of shares with its flag updates keeps coverage |
| `Solvency.CoverDeficitCovered` | contracts/kinetic-router/src/treasury.rs:95-140 | Covering a deficit moves it into cash one for one |
| `Solvency.CollectCovered` | contracts/kinetic-router/src/treasury.rs:5-93 | A collection that pays leaves the margin above minus one unit; one that pays nothing costs nothing |
| `Solvency.PokeCovered` | contracts/kinetic-router/src/calculation.rs:1031-1060 | Calls that only store accrued indices keep coverage |
| `Solvency.NewReserveCovered` | contracts/kinetic-router/src/reserve.rs:85-112 | A new reserve starts covered with an empty budget |
| `Effects.AccrualEffect` | contracts/kinetic-router/src/calculation.rs:443-503 | Time adds simple interest at the supplier rate to the liquidity index and the compound series at the borrow rate to the borrow index, each to the nearest unit, and changes nothing else |
| `Effects.SupplyEffect` | contracts/kinetic-router/src/operations.rs:11-131 | An accepted supply met every check, adds exactly its amount to cash, credits the floor in shares to the supplier alone, sets the flag on a first deposit of at least the minimum, and respects the cap |
| `Effects.SupplyGoesThrough` | contracts/kinetic-router/src/operations.rs:11-131 | An open reserve, room under the cap and numbers that fit are all a supply needs |
| `Effects.WithdrawEffect` | contracts/kinetic-router/src/operations.rs:132-284 | An accepted withdrawal by a user with the collateral flag passed the health check; it pays exactly the request or the whole display, burns its ceiling in shares or the last one, and clears the flag exactly when the whole display was asked for |
| `Effects.WithdrawGoesThrough` | contracts/kinetic-router/src/operations.rs:132-284 | With the reserve open, the cash there and the account healthy, a withdrawal of any part of the displayed balance is not refused |
| `Effects.BorrowEffect` | contracts/kinetic-router/src/operations.rs:285-449 | An accepted borrow met every check, the health check included; it pays exactly the loan, charges its ceiling in shares, sets the flag, respects the borrow cap and the debt ceiling, and leaves at least the minimum debt |
| `Effects.BorrowGoesThrough` | contracts/kinetic-router/src/operations.rs:285-449 | An open reserve, cash, a healthy account, room under both limits and enough remaining debt are all a borrow needs |
| `Effects.RepayEffect` | contracts/kinetic-router/src/operations.rs:450-588 | A repayment takes the offer or the displayed debt, burns within one share of its worth, clears the flag exactly when the display is paid, and leaves no remainder under the minimum |
| `Effects.FullRepayGoesThrough` | contracts/kinetic-router/src/operations.rs:450-588 | Whoever owes a displayable debt may repay all of it, which leaves no share |
| `Effects.PartialRepayGoesThrough` | contracts/kinetic-router/src/operations.rs:485-588 | A smaller repayment goes through when what is left is at least the minimum |
| `Effects.TransferEffect` | contracts/a-token/src/contract.rs:579-682 | A transfer takes the ceiling of the amount in shares from the sender and gives it to the receiver, moves nothing else, clears the sender's flag exactly when no share is left, sets the receiver's, and needs a healthy sender |
| `Effects.TransferGoesThrough` | contracts/kinetic-router/src/router.rs:1840-1888 | Enough shares, a healthy account and room at the receiver are all a transfer needs |
| `Effects.CoverEffect` | contracts/kinetic-router/src/treasury.rs:95-140 | A deficit cover is accepted exactly when offer and deficit are positive, and moves the smaller of them from deficit to cash |
| `Effects.CollectEffect` | contracts/kinetic-router/src/treasury.rs:5-93 | A collection that pays leaves exactly idle liquidity and deficit in cash; one that pays nothing had no more than that |
| `Effects.CollectAccepted` | contracts/kinetic-router/src/treasury.rs:5-93 | A collection is refused exactly when displayed debt exceeds displayed supply, or when there is something to pay and no treasury |
| `Effects.FlagEffect` | contracts/kinetic-router/src/router.rs:1256-1305 | The collateral switch writes one flag, and drops it exactly for a healthy account |
| `Effects.SupplyCapHolds` | contracts/kinetic-router/src/validation.rs:331-365 | An accepted deposit keeps the displayed total with interest at most the cap |
| `Effects.BorrowLimitsHold` | contracts/kinetic-router/src/validation.rs:367-414 | An accepted loan keeps the displayed debt with interest at most the cap and the ceiling |
| `LiquidationEffects.CloseFactorBounds` | contracts/kinetic-router/src/liquidation.rs:12-47 | Unless a side is small or the health factor is low, at most half of the debt value may be covered |
| `LiquidationEffects.PlanMeans` | contracts/kinetic-router/src/liquidation.rs:124-297 | The plan of liquidation_call: an unhealthy account, live prices, active unpaused reserves and the close factor; displayed balances; the dust clamp; what is wanted; and what the collateral allows |
| `LiquidationEffects.CheckAccepted` | contracts/kinetic-router/src/liquidation.rs:124-230 | Whenever the values fit, a liquidation passes the checks exactly for an unhealthy account with live prices, open reserves and a cover within the close factor |
| `LiquidationEffects.SeizureIsBonus` | contracts/kinetic-router/src/calculation.rs:849-936 | The collateral computed for a repayment is worth no more than the repayment and its bonus, and one unit more would be |
| `LiquidationEffects.UncappedTakesBonus` | contracts/kinetic-router/src/liquidation.rs:200-297 | So an uncapped liquidation_call seizes exactly that amount |
| `LiquidationEffects.SettleDebtAccepted` | contracts/kinetic-router/src/liquidation.rs:571-662 | The debt side is refused exactly when a partial payment leaves less than the minimum debt, or when a capped payment leaves one share although what is written off rounds to at least one |
| `LiquidationEffects.LastShareIsRefused` | contracts/debt-token/src/contract.rs:226-248 | A concrete debt of two shares whose capped liquidation is refused that way |
| `LiquidationEffects.LiquidationDebtEffect` | contracts/kinetic-router/src/liquidation.rs:299-662 | End to end, the debt reserve takes the payment, burns it within one share from the borrower alone, and records as deficit exactly what is written off |
| `LiquidationEffects.LiquidationCollateralEffect` | contracts/kinetic-router/src/liquidation.rs:380-569 | End to end, the collateral reserve loses the seizure in cash or only moves shares, and the borrower loses its ceiling, or the floors of net seizure and fee |
| `LiquidationEffects.LeavesEnough` | contracts/kinetic-router/src/liquidation.rs:631-662 | A liquidation_call leaves nothing on one side or enough for another one on both |
| `LiquidationEffects.LiquidationGoesThrough` | contracts/kinetic-router/src/liquidation.rs:124-709 | Plan, fee, both sides, leftovers and fresh rates are all a liquidation_call needs |
| `LiquidationEffects.SeizeAsCashGoesThrough` | contracts/kinetic-router/src/liquidation.rs:488-569 | Seizing any part of the displayed balance as cash goes through when the cash is there |
| `LiquidationEffects.SeizeAsSharesGoesThrough` | contracts/kinetic-router/src/liquidation.rs:380-487 | Seizing as shares goes through when the borrower holds them, both floors are positive, balances fit and the liquidator has room |
| `LiquidationEffects.FeeMeans` | contracts/kinetic-router/src/liquidation.rs:352-377 | The protocol fee is its percentage of the repayment, rounded up, in whole units of collateral, and less than the seizure |
| `LiquidationEffects.SeizeAsSharesFlags` | contracts/kinetic-router/src/liquidation.rs:380-487 | A seizure as shares gives a liquidator or a treasury that held nothing its flag, and touches nobody else's |
| `LiquidationEffects.FlashPlanMeans` | contracts/kinetic-router/src/router.rs:777-930 | The plan of execute_liquidation: the same checks, with the authorized seizure as an upper bound and a cover the reserve can lend |
| `LiquidationEffects.FlashPlanAccepted` | contracts/kinetic-router/src/router.rs:777-930 | A prepared plan is accepted exactly when its cover is there to lend and it seizes something |
| `LiquidationEffects.ExecutionEffect` | contracts/kinetic-router/src/router.rs:700-1110 | End to end, execute_liquidation leaves the lending reserve's cash as it was, pays out the floor of the burned collateral, and leaves no debt when the collateral does not suffice |
| `SwapEffects.SwapEffect` | contracts/kinetic-router/src/swap.rs:38-372 | An accepted swap left a healthy account, and both reserves are what its two sides make them |
| `SwapEffects.SellEffect` | contracts/kinetic-router/src/swap.rs:95-145 | The sale burns the ceiling of the request, pays the floor of its worth, and drops the flag exactly with the last share |
| `SwapEffects.BuyEffect` | contracts/kinetic-router/src/swap.rs:259-326 | The purchase takes the proceeds less the fee into cash, credits their floor in shares, sets the flag and respects the cap |
| `SwapEffects.SellGoesThrough` | contracts/kinetic-router/src/swap.rs:95-145 | A sale of any part of the displayed balance, or of all of it, goes through when the cash is there |
| `SwapEffects.BuyGoesThrough` | contracts/kinetic-router/src/swap.rs:259-326 | Proceeds of at least the minimum go through when the fee leaves something, the numbers fit and there is room under the cap |
| `LiquidationEffects.SeizureWithinBonus` | contracts/kinetic-router/src/calculation.rs:849-936 | The collateral computed for a repayment is worth at most the repayment plus the bonus |
| `LiquidationEffects.SeizeAsCashEffect` | contracts/kinetic-router/src/liquidation.rs:488-557 | Seizing in cash pays out the seized amount, less the fee only when there is no treasury, and burns its ceiling |
| `LiquidationEffects.SeizeAsSharesEffect` | contracts/kinetic-router/src/liquidation.rs:380-487 | Seizing as shares leaves cash and total alone, and every holder ends with what it had less what it gave as borrower plus what it got as liquidator or treasury, whether or not these are different |
| `Lending.LendingHappens` | contracts/kinetic-router/src/operations.rs:11-449 | Under every validated curve two deposits and a loan go through, and the borrow check accepts the borrower's account as it stands in the pool |
| `Lending.LoanIsAccepted` | contracts/kinetic-router/src/validation.rs:160-219 | The borrow check accepts every loan worth at most three quarters of a single pledge lent against at 75 percent |
| `Ledgers.ReserveLedger.UpdateState` | contracts/kinetic-router/src/calculation.rs:443-503 | Stores the accrued indices, or nothing |
| `Ledgers.ReserveLedger.UpdateInterestRatesAndStore` | contracts/kinetic-router/src/calculation.rs:1000-1028 | Stores the recomputed rates and nothing else, or nothing |
| `Ledgers.ReserveLedger.Supply` | contracts/kinetic-router/src/operations.rs:11-131 | Cash, shares, flag and rates after a supply are those the theorems speak of; a failure changes nothing |
| `Ledgers.ReserveLedger.Withdraw` | contracts/kinetic-router/src/operations.rs:132-284 | The same for a withdrawal, with the amount paid |
| `Ledgers.ReserveLedger.Borrow` | contracts/kinetic-router/src/operations.rs:285-449 | The same for a borrow |
| `Ledgers.ReserveLedger.Repay` | contracts/kinetic-router/src/operations.rs:450-588 | The same for a repayment, with the amount taken |
| `Ledgers.ReserveLedger.TransferShares` | contracts/kinetic-router/src/router.rs:1840-1888 | The same for a transfer and the two users' collateral flags |
| `Ledgers.ReserveLedger.SetUserUseReserveAsColl` | contracts/kinetic-router/src/router.rs:1256-1305 | The same for the collateral switch, which takes the flag back when the account is not healthy without it |
| `Ledgers.ReserveLedger.CoverDeficit` | contracts/kinetic-router/src/treasury.rs:95-140 | The same for a deficit cover, capped at the deficit |
| `Ledgers.ReserveLedger.CollectProtocolReserves` | contracts/kinetic-router/src/treasury.rs:5-93 | The same for a collection |
| `Ledgers.ReserveLedger.Invoke` | contracts/kinetic-router/src/operations.rs:11-588 | Any single-reserve call either takes the specified effect or rolls back whole |
| `Ledgers.SettleDebtStep` | contracts/kinetic-router/src/liquidation.rs:299-662 | Liquidation's debt side: repayment, write-off, deficit and flag |
| `Ledgers.SettleCollateralStep` | contracts/kinetic-router/src/liquidation.rs:380-569 | Liquidation's collateral side, as shares or as cash, with the fee and the flag |
| `Ledgers.InvokeLiquidation` | contracts/kinetic-router/src/liquidation.rs:124-709 | liquidation_call on two reserves takes the specified effect or rolls back whole |
| `Ledgers.FlashDebtStep` | contracts/kinetic-router/src/router.rs:997-1090 | The prepared variant's debt burn, bad-debt burn, deficit and flag |
| `Ledgers.FlashCollateralStep` | contracts/kinetic-router/src/flash_loan.rs:387-413 | The prepared variant's collateral burn and flag |
| `Ledgers.InvokeExecution` | contracts/kinetic-router/src/router.rs:700-1110 | execute_liquidation takes the specified effect or rolls back whole; with one asset in both roles it always fails |
| `Ledgers.InvokeSwap` | contracts/kinetic-router/src/swap.rs:38-372 | swap_collateral on two reserves takes the specified effect or rolls back whole |
| `Liquidations.CapIsProRata` | contracts/kinetic-router/src/liquidation.rs:277-297 | The capped repayment is at most the request and covers its pro-rata share of the seized collateral, by less than one unit over |
| `Liquidations.CappedAccountsForDebt` | contracts/kinetic-router/src/liquidation.rs:571-617 | A capped liquidation_call settles the whole displayed debt: repayment plus new deficit is the larger of the debt and the repayment, zero or exactly two debt shares remain, and the flag is cleared unless the repayment exceeds the debt |
| `Liquidations.CappedLeavesDebtIff` | contracts/kinetic-router/src/liquidation.rs:571-617 | Debt shares survive exactly when both amounts round down to shares that fall two short |
| `Remnants.LoanIsReached` | contracts/kinetic-router/src/validation.rs:160-219 | The common start of the two concrete runs: deposits, a loan the borrow check accepts, and a year later exactly the health factor that both liquidations are given |
| `Remnants.HiddenDebtHappens` | contracts/kinetic-router/src/liquidation.rs:571-662 | From there a liquidation_call ends with two debt shares behind a clear flag and totals that still count them |
| `Remnants.LiquidationLeavesRemnant` | contracts/kinetic-router/src/liquidation.rs:124-709 | Its liquidation_call succeeds on the whole, repays 7, writes off 7 and leaves two of the twelve shares |
| `Liquidations.TwoBurnsLeaveTwo` | contracts/debt-token/src/contract.rs:226-248 | Two floor burns that add up to the displayed debt leave at most two shares |
| `CrossSolvency.LiquidationDebtCovered` | contracts/kinetic-router/src/liquidation.rs:299-662 | The debt reserve of a liquidation_call loses at most one borrow index, and a second one only when it writes off a remainder |
| `CrossSolvency.LiquidationCollateralCovered` | contracts/kinetic-router/src/liquidation.rs:380-569 | The collateral reserve loses at most half a unit in cash and nothing in shares |
| `CrossSolvency.FlashDebtLoss` | contracts/kinetic-router/src/flash_loan.rs:369-385 | The debt burned by execute_liquidation costs its reserve the cover, to within one borrow index per burn either way, because no cash comes in for it |
| `CrossSolvency.ExecuteDebtCovered` | contracts/kinetic-router/src/flash_loan.rs:499-516 | The whole call keeps the lending reserve covered with that loss |
| `Remnants.ExecutionLosesCover` | contracts/kinetic-router/src/flash_loan.rs:369-385 | A concrete execute_liquidation that succeeds: the margin of its reserve falls from above zero by the cover of 7, far beyond the burn charges |
| `Remnants.LostCoverHappens` | contracts/kinetic-router/src/flash_loan.rs:499-516 | The run from the empty pool that ends so: no debt left, and cash and deficit more than five units short of the suppliers' claims |
| `CrossSolvency.OneAssetNeverExecutes` | contracts/kinetic-router/src/flash_loan.rs:237-254 | execute_liquidation with one asset in both roles never succeeds: the seizure leaves the aToken below its starting balance |
| `CrossSolvency.ExecuteCollateralCovered` | contracts/kinetic-router/src/flash_loan.rs:387-413 | The collateral reserve of execute_liquidation loses nothing |
| `CrossSolvency.PlanQuotesBalances` | contracts/kinetic-router/src/liquidation.rs:200-297 | The plan quotes the displayed balances, seizes no more than is held and repays no more than asked |
| `CrossSolvency.SwapFromCovered` | contracts/kinetic-router/src/swap.rs:95-145 | The sold reserve of a swap loses nothing |
| `CrossSolvency.SwapToCovered` | contracts/kinetic-router/src/swap.rs:259-326 | The bought reserve of a swap loses nothing |
| `Accounts.CalculateUserAccountData` | contracts/kinetic-router/src/calculation.rs:99-441 | The loops over ids, prices and positions, with every cache, compute exactly the specified account or error |
| `Accounts.VisitPosition` | contracts/kinetic-router/src/calculation.rs:216-365 | One turn of the main loop, its balance cache included |
| `Accounts.CollectPositions` | contracts/kinetic-router/src/calculation.rs:117-167 | Active ids below the high-water mark become positions and, without repeats of the extras, assets to price |
| `Accounts.ResolvePrices` | contracts/kinetic-router/src/calculation.rs:169-198 | Only the missing prices are fetched, and merged into the known ones |
| `AccountCaches.UnifiedIsPlain` | contracts/kinetic-router/src/calculation.rs:99-441 | With agreeing caches a call succeeds exactly when the oracle can price the rest and the cacheless reference succeeds, with the reference's account and weighted sum |
| `AccountCaches.CachesTransparent` | contracts/kinetic-router/src/calculation.rs:99-441 | Any partial caches and extra assets give the account of the uncached call; the only new failure is an oracle batch it did not need |
| `AccountCaches.CachesNeverFailAlone` | contracts/kinetic-router/src/calculation.rs:169-198 | Without extra assets agreeing caches never make a call fail |
| `AccountCaches.BalancesFeedBack` | contracts/kinetic-router/src/calculation.rs:206-232 | The returned balance cache, fed back with the same flags, changes nothing |
| `AccountCaches.PricesTransparent` | contracts/kinetic-router/src/price.rs:37-85 | Whatever is known, every position is valued at the oracle price |
| `AccountCaches.ListingsTransparent` | contracts/kinetic-router/src/calculation.rs:132-147 | Partial reserve caches give the stored positions |
| `AccountCaches.VisitTransparent` | contracts/kinetic-router/src/calculation.rs:216-365 | A cached balance counts only where its flag is set, and what is remembered agrees again |
| `AccountMeaning.SumsAreTotals` | contracts/kinetic-router/src/calculation.rs:216-365 | The account's four sums are totals over its positions of floored values of displayed balances |
| `AccountMeaning.FinishMeans` | contracts/kinetic-router/src/calculation.rs:367-441 | Averages, health factor and what may still be borrowed are the stated quotients of those totals, from both sides |
| `AccountMeaning.OracleBatch` | contracts/kinetic-router/src/price.rs:37-85 | The oracle answers exactly a batch of at most 64 priced assets, each with its price |
| `PoolHealth.AcceptedWithdrawalIsHealthy` | contracts/kinetic-router/src/validation.rs:228-323 | In a world that reads the pool, a withdrawal accepted on the check's verdict leaves no debt or a recomputed ratio of at least the minimum, up to one unit of the weighted sum |
| `PoolHealth.AcceptedBorrowIsHealthy` | contracts/kinetic-router/src/validation.rs:160-219 | The same for a borrow and the account with the loan |
| `Health.LtvTestImpliesHealth` | contracts/kinetic-router/src/validation.rs:160-219 | With thresholds at least the loan-to-values, any accepted borrow of nonzero value leaves a health factor of at least one, whatever minimum is configured |
| `Health.AccountOrdered` | contracts/kinetic-router/src/calculation.rs:367-389 | The floored average loan-to-value never exceeds the ceiled average threshold |
| `Health.WithdrawSumWithinOne` | contracts/kinetic-router/src/validation.rs:286-323 | The withdrawal check keeps the recomputed weighted sum or one more, over the recomputed debt |
| `Health.WithdrawVerdict` | contracts/kinetic-router/src/validation.rs:228-323 | The check is the health test on the recomputed sum or on one more: what passes recomputed passes unless that one overflows, what it accepts misses the recomputed test only when one short and by a bounded amount, and without debt or flag everything passes |
| `Health.ReducedScan` | contracts/kinetic-router/src/calculation.rs:216-365 | Rerunning the loop on a reduced balance changes one turn and shifts the sums by a constant |
| `Health.ScaledRatioAtLeastOne` | contracts/kinetic-router/src/calculation.rs:31-52 | The doubly floored health factor is at least one exactly when collateral times threshold covers the debt |
| `SwapHealth.ValidateSwapHealthFactor` | contracts/kinetic-router/src/calculation.rs:585-842 | The single-loop check computes exactly the specified verdict |
| `SwapHealth.TurnsAreScan` | contracts/kinetic-router/src/calculation.rs:665-825 | On the same reserves, prices and balances its sums are the account's weighted sum and debt |
| `SwapHealth.SwapVerdict` | contracts/kinetic-router/src/calculation.rs:585-842 | For every account that can be valued, the check accepts an indebted swap exactly when all its assets are priced in one batch, no active id lacks a reserve, and the weighted collateral covers the debt by no more than a ratio can hold |
| `SwapHealth.DebtlessSwap` | contracts/kinetic-router/src/calculation.rs:598-613 | Without a debt it only wants a price for what is bought |
| `SwapHealth.SwapCheckIsHealth` | contracts/kinetic-router/src/calculation.rs:585-842 | What it accepts with debt has a health factor of at least one exactly when the collateral is worth more than nothing |
| `SwapHealth.DustIsAccepted` | contracts/kinetic-router/src/calculation.rs:740-842 | A concrete account of dust that it accepts with a health factor of zero |
| `UserBitmap.MaskIsAnyBorrowing` | contracts/shared/src/utils.rs:509-514 | The borrowing mask is nonzero exactly when some id is borrowing |
| `UserBitmap.WriteEvenFlags` | contracts/shared/src/utils.rs:482-491 | Setting a collateral flag changes that flag of that id only |
| `UserBitmap.WriteOddFlags` | contracts/shared/src/utils.rs:493-502 | Setting a borrowing flag changes that flag of that id only |
| `UserBitmap.UserConfiguration.SetUsingAsCollateral` | contracts/shared/src/utils.rs:482-491 | The setter as called; an id beyond 63 writes nothing |
| `UserBitmap.UserConfiguration.SetBorrowing` | contracts/shared/src/utils.rs:493-502 | The same for borrowing |
| `UserBitmap.UserConfiguration.IsUsingAsCollateral` | contracts/shared/src/utils.rs:470-474 | Reads the flag; an id beyond 63 is unset |
| `UserBitmap.UserConfiguration.IsBorrowing` | contracts/shared/src/utils.rs:476-480 | Reads the flag; an id beyond 63 is unset |
| `UserBitmap.UserConfiguration.HasAnyBorrowing` | contracts/shared/src/utils.rs:509-514 | True exactly when some id is borrowing |
| `UserBitmap.UserConfiguration.CountActiveReserves` | contracts/shared/src/utils.rs:516-532 | The early-exit loop counts exactly the ids with a flag set |
| `UserBitmap.UserConfiguration.GetActiveReserveIds` | contracts/shared/src/utils.rs:534-549 | The early-exit loop lists exactly those ids, strictly increasing |
| `ReserveConfig.SettersRefine` | contracts/shared/src/utils.rs:368-462 | Over every sequence of setter calls, with any arguments, the two words read as the record updated field by field |
| `ReserveConfig.AssignRefines` | contracts/shared/src/utils.rs:368-462 | Each setter changes its own field of the record only, cut to its width where the setter does not check |
| `ReserveConfig.PackReadsBack` | contracts/kinetic-router/src/reserve.rs:68-89 | init_reserve packs words that read back as its parameters, every field of them |
| `ReserveConfig.Pack` | contracts/kinetic-router/src/reserve.rs:68-85 | The packing statements build exactly those words |
| `ReserveConfig.RunKeepsLimits` | contracts/kinetic-router/src/reserve.rs:265-346 | In every run of inits, replacements, cap and minimum setters and drops each stored configuration keeps ltv + 50 <= threshold <= 10000, bonus and factor <= 10000, decimals <= 38 |
| `ReserveConfig.ApplyKeepsLimits` | contracts/kinetic-router/src/reserve.rs:149-262 | One such call keeps the limits of every reserve |
| `ReserveConfig.ReserveConfiguration.SetLtv` | contracts/shared/src/utils.rs:380-388 | Refuses values above 10000, otherwise the record has the new value and nothing else changed |
| `ReserveConfig.ReserveConfiguration.SetLiquidationThreshold` | contracts/shared/src/utils.rs:392-399 | The same for the threshold |
| `ReserveConfig.ReserveConfiguration.SetLiquidationBonus` | contracts/shared/src/utils.rs:403-410 | The same for the bonus |
| `ReserveConfig.ReserveConfiguration.SetReserveFactor` | contracts/shared/src/utils.rs:412-415 | The record has the factor cut to fourteen bits and nothing else changed |
| `ReserveConfig.ReserveConfiguration.SetMinRemainingDebt` | contracts/shared/src/utils.rs:418-421 | The record has the new minimum and nothing else changed |
| `ReserveConfig.ReserveConfiguration.SetBorrowCap` | contracts/shared/src/utils.rs:368-371 | The record has the borrow cap cut to 64 bits and nothing else changed |
| `ReserveConfig.ReserveConfiguration.SetSupplyCap` | contracts/shared/src/utils.rs:373-376 | The record has the supply cap cut to 64 bits and nothing else changed |
| `ReserveConfig.ReserveConfiguration.SetActive` | contracts/shared/src/utils.rs:423-429 | The record has the active flag as given and nothing else changed |
| `ReserveConfig.ReserveConfiguration.SetFrozen` | contracts/shared/src/utils.rs:431-437 | The record has the frozen flag as given and nothing else changed |
| `ReserveConfig.ReserveConfiguration.SetBorrowingEnabled` | contracts/shared/src/utils.rs:439-445 | The record has the borrowing flag as given and nothing else changed |
| `ReserveConfig.ReserveConfiguration.SetPaused` | contracts/shared/src/utils.rs:447-453 | The record has the paused flag as given and nothing else changed |
| `ReserveConfig.ReserveConfiguration.SetFlashloanEnabled` | contracts/shared/src/utils.rs:455-461 | The record has the flash-loan flag as given and nothing else changed |
| `IncentiveRuns.LazyRewardsConserveEmission` | contracts/incentives/src/contract.rs:112-172 | Over every run of one active stream, accrued plus claimed never exceeds what the clock emitted, plus half a unit per user update and half a share total over a ray per index update |
| `IncentiveRuns.EffectiveTelescopes` | contracts/incentives/src/calculation.rs:28-66 | Effective time is the advance of a clock that stops at the distribution's end, so updates telescope |
| `IncentiveRuns.StandingRewardsReachEmission` | contracts/incentives/src/contract.rs:112-172 | And emission is paid out: while reported balances stand still, accrued plus claimed plus pending rises by at least what the clock emitted, less the same kind of roundings |
| `IncentiveRuns.ReportPays` | contracts/incentives/src/contract.rs:119-165 | A report credits the index rise since the last one on the smaller balance, to within half a unit either way, and touches nobody else |
| `IncentiveRuns.ReportAccepted` | contracts/incentives/src/contract.rs:112-172 | A report in a run is refused exactly when the index cannot advance, would have gone back, or the new rewards do not fit; a token's first and last shares are reported like any others |
| `IncentiveRuns.ClaimAccepted` | contracts/incentives/src/contract.rs:279-318 | A claim is paid exactly when it is accrued, takes that much from its claimant and nothing from anyone else |
| `IncentiveRuns.IndexWorth` | contracts/incentives/src/calculation.rs:68-96 | An index update is worth what was emitted meanwhile, to within half a unit over the shares either way; without shares or for an inactive stream the index stays |
| `IncentiveRuns.UpdateAccepted` | contracts/incentives/src/calculation.rs:68-96 | An index update fails exactly when what is emitted, its share or the new index leaves its type |
| `IncentiveRuns.UserUpdateWorth` | contracts/incentives/src/contract.rs:136-165 | A report on the smaller of old and new balance adds at most the index rise over the counted shares and half a unit |
| `IncentiveRuns.TransferWithinEmission` | contracts/a-token/src/contract.rs:668-674 | A transfer keeps the bound because the sender is reported before the receiver |
| `IncentiveRuns.SettledWithinEmission` | contracts/incentives/src/contract.rs:417-461 | A settlement before a claim keeps the bound, whether or not the token answered |
| `IncentiveRuns.SettleIsReport` | contracts/incentives/src/contract.rs:435-461 | A settlement is a report of the balance already stored |
| `Rewards.RewardsController.HandleAction` | contracts/incentives/src/contract.rs:71-190 | The report loop stores exactly the updated streams, or nothing when one of them overflows |
| `Rewards.ActionReachesItsStreams` | contracts/incentives/src/contract.rs:90-186 | An action updates each active stream of its asset and kind once, and no other |
| `Rewards.RewardsController.ClaimRewards` | contracts/incentives/src/contract.rs:207-351 | The nested loops with their early exits take and transfer exactly the specified amount, or nothing |
| `Rewards.ClaimsConserve` | contracts/incentives/src/contract.rs:223-349 | What is transferred is exactly the drop of the caller's accrued total, and the requested amount when assets are distinct |
| `Rewards.ClaimAccepted` | contracts/incentives/src/contract.rs:207-351 | A claim on distinct assets is refused exactly for a pause, more than has accrued, or numbers out of range |
| `Rewards.DrainClaims` | contracts/incentives/src/contract.rs:268-327 | Along any list of entries the claim is the smaller of the goal and the distinct total |
| `Rewards.DrainIsPrivate` | contracts/incentives/src/contract.rs:279-318 | A claim touches nothing but the caller's accrued amounts |
| `Rewards.ClaimableCounts` | contracts/incentives/src/contract.rs:224-245 | The first phase counts repeated assets twice, distinct ones exactly |
| `Rewards.RewardsController.ClaimAllRewards` | contracts/incentives/src/contract.rs:369-515 | The triple loop and the batched transfers pay exactly the specified amounts, or nothing |
| `Rewards.ClaimAllConserves` | contracts/incentives/src/contract.rs:404-514 | Each reward token is paid the sum over its distinct streams of old and newly settled rewards, all of which end at zero, repeated assets included |
| `Rewards.ClaimAllReaches` | contracts/incentives/src/contract.rs:385-404 | A stream is emptied exactly when its asset is named, or when none is and the contract lists it, for both kinds and every registered reward token; every other stream stays |
| `Rewards.ClaimAllAccepted` | contracts/incentives/src/contract.rs:369-514 | When the settlements fit, it fails exactly for a pause, too many assets, or a payment out of range |
| `Rewards.EmptyPaysOldAndNew` | contracts/incentives/src/contract.rs:431-483 | One stream pays the old accrued amount plus what the settlement adds |
| `Rewards.EmptyTwice` | contracts/incentives/src/contract.rs:431-483 | Visiting a stream again in the same call pays nothing and changes nothing |
| `FlashLoans.FlashLender.Execute` | contracts/kinetic-router/src/flash_loan.rs:36-171 | The three loops around the receiver's code leave exactly the specified balances, or nothing |
| `FlashLoans.FlashLoanSafe` | contracts/kinetic-router/src/flash_loan.rs:58-171 | For any asset list and any receiver every lent reserve ends no lower than it began, and the settlement pays the treasury exactly the ceiled premiums and moves nothing else |
| `FlashLoans.LendingGives` | contracts/kinetic-router/src/flash_loan.rs:109-115 | The receiver gets every loan, each aToken gives exactly its own, and nobody else's balance moves |
| `FlashLoans.CompletedSucceeded` | contracts/kinetic-router/src/flash_loan.rs:117-150 | No loan completes whose receiver reported failure |
| `FlashLoans.HonestLoanCompletes` | contracts/kinetic-router/src/flash_loan.rs:36-171 | A receiver that leaves the loan and its premium behind completes the loan, whatever else it does |
| `FlashLoans.PlansAreAllowed` | contracts/kinetic-router/src/flash_loan.rs:64-97 | Only reserves that lend, are active, not paused and hold the amount are lent from |
| `FlashLoans.SettlementKeeps` | contracts/kinetic-router/src/flash_loan.rs:237-254 | Repeated assets do not let an earlier premium pay for a later repayment |
| `FlashLoans.PlansRemember` | contracts/kinetic-router/src/flash_loan.rs:58-107 | Starting balances are all read before anything is lent, and premiums are ceilings |

## Left out

- Pools.NoHiddenDebt: states at most two shares instead of none in runs in which a liquidation_call leaves two, because that is what the code does.
- CrossSolvency.OneAssetNeverExecutes: takes for granted that a swap pays its proceeds to the router, as it is told to, and not to the aToken; so the one-asset branch of contracts/kinetic-router/src/router.rs:1130 is never reached.
- CrossSolvency.ExecuteDebtCovered: what the router holds after execute_liquidation, the lent cover included, is not counted as the reserve's.
- IncentiveRuns.LazyRewardsConserveEmission: one active stream at one rate, every report succeeding; a token ignores a failed report, and a stream that is switched off keeps stale snapshots.
- SwapHealth.SwapVerdict: takes for granted that the account computation succeeds, as SwapHealth.SwapCheckIsHealth does; the inline check can decide where the account's unweighted values overflow.
- SwapHealth.SwapCheckIsHealth: speaks of accepted swaps whose account computation itself succeeds; the inline check can pass where the account's unweighted values overflow.
- FlashLoans.FlashLoanSafe: assumes that a reserve keeps its aToken while the receiver runs; the treasury's income inside the receiver's own code is not counted.
- Accounts.CalculateUserAccountData: the oracle is a map of fresh prices and its precision a parameter; the oracle's cascade, cache, staleness rules and circuit breaker are not part of this model.
- Cross-contract plumbing: authorization entries, events, storage lifetimes, upgrades and re-entrancy locks.
- Exchange quoting and swap adapters: a swap's output is any amount; only its minimum is checked.
- Roles, whitelists, blacklists and pool-wide pause beyond one flag each; admin transfer and the configurator.
- Incentive administration: configuring streams, changing emission or end, removing tokens, funding, pausing.
- Token allowances, metadata and the plain token; the treasury contract; the liquidation engine and helpers.
- The two-step liquidation's callback cash, its authorization expiry, nonces and price drift checks.
- Views that only read, except where they store accrued indices.
- A 15-reserve limit per user: it is a flag (`roomOk`), since some calls set flags without checking it.
- Interest rate mode, referral codes and other ignored arguments.
