# Settlement of the Vinium adapters, verified

A Dafny 4.11 model of the contracts that move user funds through flash loans and swaps in the Vinium
lending protocol, with proofs that every branch ends a transaction owing and holding exactly the right
amounts. Around that core it covers the WETH gateway, the registry of markets, the quote and slippage
arithmetic, the ParaSwap calldata patch, library linking and one byte conversion.

## How it is modelled

- **Ledger** (`Ledger.dfy`). All balances and allowances of all tokens are two maps in one object. A
  contract states the *net* change of every balance of every holder, as a sum of gains and losses, so
  that nothing is assumed about which accounts coincide; what a body moves and moves back does not
  appear in it.
- **Reverts** (`Evm.dfy`). A call returns `Pass` or `Revert`, and the method that stands for a whole
  transaction restores the ledger on `Revert`. Contracts speak of completed calls: pool, router,
  Augustus and recipients may reject any call for reasons of their own.
- **Arithmetic** is checked 256-bit arithmetic, with the unchecked power of ten wrapping around.
- **Environment** (`Pool.dfy`, `Router.dfy`, `Augustus` in `ParaSwap.dfy`, `Weth9` in `Gateway.dfy`).
  The pool follows `LendingPool.sol` at a fixed index. The router trades through one pair per two
  assets of a path, each an account of its own. Router and liquidation choose their amounts freely
  within what they are asked for. Augustus sets every balance, allowance and price to anything.
  What oracle prices make of an amount is in `Oracle.dfy`.
- **Adapters** (`UniswapBase.dfy`, `LiquiditySwap.dfy`, `Repay.dfy`, `FlashLiquidation.dfy`,
  `ParaSwap.dfy`) are classes whose methods follow the Solidity functions; a base contract is a field
  instead of a parent. `FlashLoan` in each is the pool's `flashLoan` with that adapter as receiver.
- **Runs** (`Runs.dfy`, `Gateway.dfy`, `Registry.dfy`) are arbitrary sequences of such transactions.

## What the proofs found

- The balances of the swap and liquidation adapters survive a flash loan unchanged exactly when every
  loan is in mode 0. In a borrow mode the pool does not pull, and amount and premium stay with the
  adapter (`LiquiditySwap.UniswapLiquiditySwapAdapter.FlashLoan`,
  `FlashLiquidation.FlashLiquidationAdapter.FlashLoan`, `Pool.UnchangedIff`; an instance with the
  repay adapter is `Repay.UniswapRepayAdapter.BorrowedLoanStays`).
- The flash repayment never checks how many loans there are. It serves the first, while the pool pulls
  the premiums of all. With no part of a quote left over, the adapter loses nothing exactly when the
  loans in a borrow mode leave it as much of each asset as the premiums of the other loans
  (`Repay.UniswapRepayAdapter.FlashLoan`). Where such a list settles, and it can once an earlier borrow
  has left an allowance behind, the adapter pays a premium out of what it holds
  (`Repay.UniswapRepayAdapter.SettleRepayment`, with `SecondPremiumIsLost` and `TwoLoansSettle` as an
  instance).
- The multi-asset swap can be settled exactly when no asset is borrowed twice and none is the target of
  a later swap: each turn of the loop resets the pool's allowance on its own two assets
  (`LiquiditySwap.RepayableIff`, with `BorrowingTwiceIsTangled` and `TargetBorrowedBeforeIsTangled` as
  instances). If some loans are in a borrow mode, the condition is `LiquiditySwap.StandableIff`.
- With the protocol's own pool, `withdrawETH` to the WETH contract leaves WETH with the gateway, and
  `depositETH` on behalf of the gateway leaves viTokens with it; for a gateway that holds no WETH these
  are the only two cases (`Gateway.WETHGateway.LeavesNothingBehind`, with `WithdrawalComesBack` and
  `DepositStays` as instances).
- The gateway does not check the pool that its caller names, so its conservation holds for the genuine
  pool only. Unless it sends or spends tokens itself, any other contract leaves a deposit or repayment
  with the gateway as WETH and has a withdrawal or borrow paid from WETH that the gateway holds
  (`LeavesNothingBehind`, with `DepositElsewhereStays` and `BorrowElsewhereSpendsHoldings` as
  instances). Ether never stays, whatever the pool (`EtherNeverStays`), and a gateway that holds
  nothing has nothing to pay from.
- `repayETH` offers the pool all the value but wraps only the payback amount. Without WETH of its own it
  completes only if the value or the debt is at most the requested amount
  (`Gateway.WETHGateway.RepaymentIsMatched`); with some, it pays the difference from what it holds
  (`RepaymentSpendsHoldings`).
- A best purchase quote is refused when the direct path is answered with zero, even if the path through
  WETH has a positive answer (`UniswapBase.BaseUniswapAdapter.GetAmountsInAndPath`, with
  `ZeroAnswerIsPreferred` as an instance); the comment in the source promises the minimum. The pairs of
  Uniswap V2 round a purchase up by one unit and never answer zero; a router that does is the
  repository's own `MockUniswapV2Router02.sol`, lines 93-105, for a pair without a set amount.

## Model

| member | source | states |
|---|---|---|
| Runs.Desk.Run | contracts/adapters/UniswapLiquiditySwapAdapter.sol:57-241 | over every run of flash-loan and direct transactions with the three adapters, in any order and with other balances, allowances, prices and quotes changing in between: no adapter loses an underlying or a viToken if every flash repayment meets the premiums of its loans; if moreover all loans are repaid and the router charges what it quotes to the repayments, every adapter ends with exactly what it started with; the states in between and what each transaction came to are given |
| Runs.Desk.SwapByLoan | contracts/adapters/UniswapLiquiditySwapAdapter.sol:57-102 | one flash-loan swap leaves the balances of all three adapters no smaller, and unchanged when every loan is in mode 0 |
| Runs.Desk.SwapDirectly | contracts/adapters/UniswapLiquiditySwapAdapter.sol:130-177 | a direct swap leaves the balances of all three adapters unchanged |
| Runs.Desk.RepayByLoan | contracts/adapters/UniswapRepayAdapter.sol:51-75 | a flash repayment with any list of loans leaves them no smaller if the premiums of its loans are met, and unchanged if moreover all are in mode 0 and the router charges what it quotes |
| Runs.Desk.RepayDirectly | contracts/adapters/UniswapRepayAdapter.sol:91-151 | a direct repayment leaves them no smaller, and unchanged if the router charges what it quotes |
| Runs.Desk.LiquidateByLoan | contracts/adapters/FlashLiquidationAdapter.sol:64-89 | a flash liquidation leaves them no smaller, and unchanged when the loan is in mode 0 |
| Runs.Desk.OrdinarilyExact | contracts/adapters/UniswapRepayAdapter.sol:51-231 | the transactions that leave every adapter with exactly what it had: direct swaps, swaps and liquidations in mode 0, and repayments of a single loan or without one, if the router charges its quotes |
| Runs.Desk.Step | contracts/adapters/UniswapLiquiditySwapAdapter.sol:57-241 | one transaction reverts without a trace or has the effect on every balance that its adapter reports; what the rest of the world does takes effect |
| Runs.SingleLoanPays | contracts/adapters/UniswapRepayAdapter.sol:51-75 | a flash repayment of a single loan meets the premiums, whatever its mode |
| Runs.SwapsSpareOthers | contracts/adapters/UniswapLiquiditySwapAdapter.sol:81-99 | a list of swaps, of any length, changes no balance of an account that is neither the adapter, the user, a pair nor a reserve |
| Runs.BookedSparesOthers | contracts/protocol/lendingpool/LendingPool.sol:484-565 | a flash loan changes no underlying or viToken balance of an account that is neither its receiver nor touched by the callback |
| LiquiditySwap.UniswapLiquiditySwapAdapter.FlashLoan | contracts/adapters/UniswapLiquiditySwapAdapter.sol:57-102 | a transaction that reverts leaves no trace; one that completes swapped, loan by loan, exactly the loan where swap-all is not asked for, for at least the minimum and along the path asked for; it changes the user's deposits by what was taken from and deposited in each asset, and leaves the adapter with what it held plus exactly amount and premium of the loans in a borrow mode, so unchanged if and only if every loan is repaid; it completes only if the last swap that touched the asset of a loan to be repaid borrowed it, for a debt that covers all that is due, which for repaid loans means that no asset is borrowed twice or is the target of a later swap; the pool's allowances at the end are given |
| LiquiditySwap.UniswapLiquiditySwapAdapter.SettleSwaps | contracts/protocol/lendingpool/LendingPool.sol:515-564 | from the state in which the callback leaves the adapter: the settlement completes only under that condition, and under it only a rejected borrow or a credit overflow can stop it; if all loans are to be repaid, it completes if and only if they are untangled, unless a credit overflows |
| LiquiditySwap.StandableIff | contracts/adapters/UniswapLiquiditySwapAdapter.sol:228-240 | whatever the modes, the allowances that the swaps leave cover what is due if and only if that condition on loans and targets holds |
| LiquiditySwap.StandableIffUntangled | contracts/adapters/UniswapLiquiditySwapAdapter.sol:228-240 | if all loans are to be repaid, the condition is that no asset is borrowed twice and none is the target of a later swap |
| LiquiditySwap.BorrowingTwiceMayStand | contracts/adapters/UniswapLiquiditySwapAdapter.sol:239-240 | an asset borrowed twice, the second time in a borrow mode, that can be settled |
| LiquiditySwap.UniswapLiquiditySwapAdapter.ExecuteOperation | contracts/adapters/UniswapLiquiditySwapAdapter.sol:57-102 | swap i is the one loan i and its parameters ask for given the deposits that the earlier swaps left, every balance changes by the sum of the net effects, and the allowance left to the pool on each asset is decided by the last swap that touched it |
| LiquiditySwap.UniswapLiquiditySwapAdapter.SwapOneMore | contracts/adapters/UniswapLiquiditySwapAdapter.sol:81-99 | one turn of the loop keeps these three facts |
| LiquiditySwap.UniswapLiquiditySwapAdapter.SwapLiquidity | contracts/adapters/UniswapLiquiditySwapAdapter.sol:200-241 | without swap-all exactly the loan is swapped, with it the loan or the deposit less the premium, whichever is smaller; the user's deposit in the source falls by that and the premium and the one in the target grows by what the market paid; the adapter keeps the premium and nothing else; the final allowances are given exactly |
| LiquiditySwap.UniswapLiquiditySwapAdapter.SwapIntoDeposit | contracts/adapters/UniswapLiquiditySwapAdapter.sol:220-231 | what is swapped is deposited for the user to the last unit and both allowances end at zero |
| LiquiditySwap.UniswapLiquiditySwapAdapter.SwapAndDeposit | contracts/adapters/UniswapLiquiditySwapAdapter.sol:130-177 | the same for the direct form: at most the amount is swapped for at least the minimum, a single swap takes the smaller of amount and deposit, every balance changes by the net effects of the swaps, the adapter holds exactly what it held, and a revert leaves no trace |
| LiquiditySwap.UniswapLiquiditySwapAdapter.SwapAndDepositBody | contracts/adapters/UniswapLiquiditySwapAdapter.sol:130-177 | each swap takes the smaller of the amount and the deposit that the earlier swaps left; a missing useEthPath entry reverts |
| LiquiditySwap.UniswapLiquiditySwapAdapter.MoveDeposit | contracts/adapters/UniswapLiquiditySwapAdapter.sol:148-176 | pull, swap and deposit of one asset change the balances as a flash-loan swap without premium does |
| LiquiditySwap.AdapterGainsPremiums | contracts/adapters/UniswapLiquiditySwapAdapter.sol:81-99 | for every list of swaps, with repeated assets and targets that are also sources, the effect on the adapter is the sum of the premiums of each asset and nothing in any other token |
| LiquiditySwap.UserDeposits | contracts/adapters/UniswapLiquiditySwapAdapter.sol:81-99 | for every list of swaps the user's deposit in each asset changes by what was deposited less what was taken with the premiums |
| LiquiditySwap.OthersUntouched | contracts/adapters/UniswapLiquiditySwapAdapter.sol:81-99 | no list of swaps touches the user's underlying assets or anybody else's deposits |
| LiquiditySwap.OneSwapMoves | contracts/adapters/UniswapLiquiditySwapAdapter.sol:200-241 | the four balances that one swap between two assets moves for user and reserves |
| LiquiditySwap.RepayableIff | contracts/adapters/UniswapLiquiditySwapAdapter.sol:228-240 | the allowances left by the loop cover all repayments if and only if no asset is borrowed twice and none is the target of a later swap |
| LiquiditySwap.UntangledStandsExactly | contracts/adapters/UniswapLiquiditySwapAdapter.sol:239-240 | under that condition the pool may take of every source exactly its amount plus premium |
| LiquiditySwap.BorrowingTwiceIsTangled | contracts/adapters/UniswapLiquiditySwapAdapter.sol:239-240 | a concrete pair of loans of one asset for which the repayments are not covered |
| LiquiditySwap.TargetBorrowedBeforeIsTangled | contracts/adapters/UniswapLiquiditySwapAdapter.sol:228-231 | a concrete swap into an asset that an earlier swap borrowed, which leaves that debt without allowance |
| LiquiditySwap.SwapAllEmpties | contracts/adapters/UniswapLiquiditySwapAdapter.sol:215-218 | with swap-all and two assets the deposit in the source ends at zero if and only if it is at most amount plus premium |
| LiquiditySwap.NothingOwed | contracts/adapters/UniswapLiquiditySwapAdapter.sol:233-240 | an asset has nothing owed on it exactly when it is no source |
| LiquiditySwap.ServedSums | contracts/adapters/UniswapLiquiditySwapAdapter.sol:81-99 | what the pool will ask back of each asset is the sum of the debts of the swaps from it |
| LiquiditySwap.UniswapLiquiditySwapAdapter.StandingOneMore | contracts/adapters/UniswapLiquiditySwapAdapter.sol:229-240 | a swap sets the pool's allowance on its source to the debt and on its target to zero, and leaves everyone else's alone |
| LiquiditySwap.UniswapLiquiditySwapAdapter.AboutToSettle | contracts/protocol/lendingpool/LendingPool.sol:515-539 | whatever the modes, the pool finds balance and allowance for all that is due if and only if the loans are standable |
| LiquiditySwap.UniswapLiquiditySwapAdapter.BookedForAdapter | contracts/adapters/UniswapLiquiditySwapAdapter.sol:57-102 | loans, premiums, swaps and repayments cancel for the adapter, up to the loans that were not repaid |
| Repay.UniswapRepayAdapter.FlashLoan | contracts/adapters/UniswapRepayAdapter.sol:51-75 | for every list of loans, of which the callback serves the first: the user's debt of the mode asked for falls by the smaller of loan and debt and the collateral by what was pulled, within the proportional share of the cap; each balance of the adapter changes by exactly what is kept of the loans in a borrow mode, less the premiums of all loans but the first, plus what the market left of its quote; with nothing left of the quote the adapter loses nothing if and only if the loans kept cover those premiums per asset; every balance of everyone and the pool's allowances are given |
| Repay.UniswapRepayAdapter.SettleRepayment | contracts/protocol/lendingpool/LendingPool.sol:515-564 | from the state in which the callback leaves the adapter: the settlement completes only if balances and allowances cover what is due of every asset, where only the debt of the first loan has a fresh allowance, and then only a rejected borrow or a credit overflow can stop it; a single loan to be repaid always goes through |
| Repay.FirstIsSettleable | contracts/adapters/UniswapRepayAdapter.sol:228-230 | if all loans but the first are in a borrow mode, the pool finds what it needs |
| Repay.PremiumsMetIff | contracts/adapters/UniswapRepayAdapter.sol:51-75 | the condition on the loans under which the adapter loses nothing, exact when nothing is left of the quote |
| Repay.UniswapRepayAdapter.BorrowedLoanStays | contracts/adapters/UniswapRepayAdapter.sol:51-75 | a concrete transaction with a loan in a borrow mode: amount, premium and an allowance of both stay with the adapter |
| Repay.UniswapRepayAdapter.SecondPremiumIsLost | contracts/adapters/UniswapRepayAdapter.sol:51-75 | a concrete transaction on the state that this leaves, with two loans to be repaid: the adapter ends with less than it started with, by the premium of the second |
| Repay.UniswapRepayAdapter.TwoLoansSettle | contracts/protocol/lendingpool/LendingPool.sol:515-539 | and the pool finds everything it needs to settle it |
| Repay.UniswapRepayAdapter.ExecuteOperation | contracts/adapters/UniswapRepayAdapter.sol:51-75 | the callback works on the first loan, with the pool as caller, and leaves the pool an allowance of amount plus premium on its asset and every other one as it was |
| Repay.UniswapRepayAdapter.SwapAndRepayLoan | contracts/adapters/UniswapRepayAdapter.sol:165-231 | however little the pool accepts, the adapter gains the premium in the debt asset, for one asset and for two; the collateral pulled is the router's quote for what was accepted plus premium |
| Repay.UniswapRepayAdapter.RepayAndMeasure | contracts/adapters/UniswapRepayAdapter.sol:178-183 | the repaid amount measured by balances is the smaller of the loan and the debt |
| Repay.UniswapRepayAdapter.TakeCollateral | contracts/adapters/UniswapRepayAdapter.sol:185-226 | the collateral side in both branches, at the quoted amount, within the cap and within the oracle bound |
| Repay.UniswapRepayAdapter.PullAndBuy | contracts/adapters/UniswapRepayAdapter.sol:192-216 | exactly the router's quote is pulled, at most the cap, and the needed amount is bought with at most that |
| Repay.UniswapRepayAdapter.SwapAndRepay | contracts/adapters/UniswapRepayAdapter.sol:91-151 | the direct form repays the smaller of the request and the debt in the mode asked for, stable or variable, and leaves the other debt alone; the user pays the router's quote, at most the proportional share of the cap, or with one asset what was repaid; the adapter keeps only what the market left of its quote; a revert leaves no trace |
| Repay.UniswapRepayAdapter.SwapAndRepayBody | contracts/adapters/UniswapRepayAdapter.sol:91-151 | and the pool's allowance is used up |
| Repay.ScaledCap | contracts/adapters/UniswapRepayAdapter.sol:186-189 | the cap is the largest whole amount not above the proportional share, so pulled times requested is at most cap times repaid |
| Repay.AdapterKeepsLeftover | contracts/adapters/UniswapRepayAdapter.sol:176-230 | net of all steps the adapter has the premium and the unspent part of the quote, and nothing in any other token |
| Repay.UserPays | contracts/adapters/UniswapRepayAdapter.sol:176-226 | the user's viTokens fall by what is pulled, the debt of the mode by what is repaid, and the other debt stays |
| Repay.ReservesTrade | contracts/adapters/UniswapRepayAdapter.sol:176-226 | with two assets the debt reserve gets what is repaid and the collateral reserve gives what is pulled |
| Repay.StableDebtIsRepaid | contracts/adapters/UniswapRepayAdapter.sol:103-150 | a concrete stable debt repaid beside a variable one |
| Repay.UniswapRepayAdapter.AboutToSettle | contracts/protocol/lendingpool/LendingPool.sol:515-539 | the pool finds balance and allowance for all that is due if and only if the loans are settleable from the state before the transaction |
| Repay.UniswapRepayAdapter.BookedForAdapter | contracts/adapters/UniswapRepayAdapter.sol:165-231 | what the whole transaction changes in the adapter's balances, for every list of loans |
| FlashLiquidation.FlashLiquidationAdapter.FlashLoan | contracts/adapters/FlashLiquidationAdapter.sol:64-89 | whole transaction, one asset or two: the liquidator ends with exactly the collateral released less what repayment cost, that is what the router took, or with one asset what was taken and the premium; the user loses the collateral released and is relieved of the debt taken, variable first, and none of his underlying moves; the adapter holds what it held plus a loan turned into a borrow, so unchanged if and only if the loan was repaid; what pool and router may still take is given; a revert leaves no trace |
| FlashLiquidation.FlashLiquidationAdapter.SettleLiquidation | contracts/protocol/lendingpool/LendingPool.sol:515-564 | from the state in which the callback leaves the adapter, whatever the liquidation took: a loan to be repaid is settled unless a credit overflows |
| FlashLiquidation.FlashLiquidationAdapter.ExecuteOperation | contracts/adapters/FlashLiquidationAdapter.sol:64-89 | one loan of the borrowed asset, with the pool as caller |
| FlashLiquidation.FlashLiquidationAdapter.LiquidateAndSwap | contracts/adapters/FlashLiquidationAdapter.sol:102-161 | in both branches all of the gain that repayment does not cost goes to the liquidator and none of the user's underlying moves; the adapter gains exactly the premium and nothing of the collateral, the pool may take loan plus premium, and with two assets the router keeps an allowance of the liquidator's share; with two assets a liquidation that took more than the loan reverts |
| FlashLiquidation.FlashLiquidationAdapter.LiquidateAndMeasure | contracts/adapters/FlashLiquidationAdapter.sol:112-139 | gain and unspent loan are differences of the adapter's own balances and equal what the pool released and left |
| FlashLiquidation.AdapterGainsPremium | contracts/adapters/FlashLiquidationAdapter.sol:102-161 | net of all steps the adapter has the premium in the borrowed asset and nothing in any other token |
| FlashLiquidation.LiquidatorGains | contracts/adapters/FlashLiquidationAdapter.sol:157-160 | the liquidator's underlying grows by what repayment leaves of the collateral and by nothing else |
| FlashLiquidation.UserIsLiquidated | contracts/adapters/FlashLiquidationAdapter.sol:112-139 | the user loses the collateral released and the debt taken, and no underlying |
| FlashLiquidation.FlashLiquidationAdapter.AboutToSettle | contracts/protocol/lendingpool/LendingPool.sol:515-539 | the pool finds balance and allowance for the repayment whatever the liquidation took |
| FlashLiquidation.FlashLiquidationAdapter.BookedForAdapter | contracts/adapters/FlashLiquidationAdapter.sol:64-89 | the whole transaction for the adapter's balances |
| ParaSwap.ParaSwapLiquiditySwapAdapter.FlashLoan | contracts/adapters/ParaSwapLiquiditySwapAdapter.sol:42-85 | whatever Augustus does: a completed transaction sold exactly the loan, or all of the deposit that the premium leaves, received at least the minimum and a fair amount, and from the state in which Augustus left it moves the user's two deposits by that; it leaves the adapter's source unchanged if and only if the loan was repaid, and its target unchanged; the amount sold can be read back from the calldata and the rest of it is unchanged; every balance at the end and the pool's allowances are given; a revert restores everything |
| ParaSwap.ParaSwapLiquiditySwapAdapter.SettleSale | contracts/protocol/lendingpool/LendingPool.sol:515-564 | from the state in which the callback leaves the adapter: a loan to be repaid is settled unless a credit overflows, and settling restores the source up to a loan turned into a borrow |
| ParaSwap.ParaSwapLiquiditySwapAdapter.SoldBefore | contracts/protocol/lendingpool/LendingPool.sol:495-508 | what Augustus made of the adapter's balances, measured from before the loan was paid out |
| ParaSwap.ParaSwapLiquiditySwapAdapter.ExecuteOperation | contracts/adapters/ParaSwapLiquiditySwapAdapter.sol:42-85 | one loan with the pool as caller; the amount sold is the loan, or all the deposit that the premium leaves |
| ParaSwap.ParaSwapLiquiditySwapAdapter.SwapLiquidity | contracts/adapters/ParaSwapLiquiditySwapAdapter.sol:156-207 | if it returns, the source is its entry balance plus premium, the target unchanged, the deposit is the measured gain and at least the minimum, the allowance is loan plus premium; with one asset it never returns |
| ParaSwap.ParaSwapLiquiditySwapAdapter.SwapAndDeposit | contracts/adapters/ParaSwapLiquiditySwapAdapter.sol:100-141 | the direct form sells the amount, or all of the deposit, leaves both balances of the adapter unchanged and deposits the measured gain for the user; with one asset it never completes |
| ParaSwap.ParaSwapLiquiditySwapAdapter.SwapAndDepositBody | contracts/adapters/ParaSwapLiquiditySwapAdapter.sol:100-141 | the same before the rollback of a failure |
| ParaSwap.ParaSwapLiquiditySwapAdapter.AdapterAfter | contracts/adapters/ParaSwapLiquiditySwapAdapter.sol:192-206 | the steps after Augustus restore the source with the premium on top and pass on the target's gain |
| ParaSwap.DepositsMove | contracts/adapters/ParaSwapLiquiditySwapAdapter.sol:192-206 | the user's deposit in the source falls by what was sold and the premium, and the one in the target grows by what was received |
| ParaSwap.ParaSwapLiquiditySwapAdapter.AfterSettling | contracts/protocol/lendingpool/LendingPool.sol:515-539 | the settlement takes back the loan and the premium and nothing else |
| ParaSwap.BaseParaSwapSellAdapter.SellOnParaSwap | contracts/adapters/BaseParaSwapSellAdapter.sol:42-108 | relying on nothing but the two measured balances: the source dropped by exactly the amount, the target rose by what is returned, at least the minimum and within the oracle bound at the prices before the call; the calldata was patched |
| ParaSwap.BaseParaSwapSellAdapter.CheckSlippage | contracts/adapters/BaseParaSwapSellAdapter.sol:53-67 | passes exactly for at most 77 decimals, no overflow and a minimum of at least the rounded 70%; whoever receives the minimum then received a fair amount |
| ParaSwap.BaseParaSwapSellAdapter.BoundAtPrices | contracts/adapters/BaseParaSwapSellAdapter.sol:53-67 | concrete prices and decimals at the boundary of what the check accepts |
| ParaSwap.BaseParaSwapSellAdapter.GetDecimals | contracts/adapters/BaseParaSwapAdapter.sol:67-72 | passes exactly for at most 77 decimals, and then ten to that power is exact in 256 bits |
| ParaSwap.BaseParaSwapSellAdapter.PullViTokenAndWithdraw | contracts/adapters/BaseParaSwapAdapter.sol:90-118 | viTokens become exactly as much of the underlying |
| ParaSwap.BaseParaSwapSellAdapter.DepositReceived | contracts/adapters/ParaSwapLiquiditySwapAdapter.sol:138-140 | what was received is deposited and the allowance used up |
| Calldata.PatchAmount | contracts/adapters/BaseParaSwapSellAdapter.sol:77-89 | the in-place patch passes exactly for offset zero or 4 <= offset <= length - 32; the 32 bytes at the offset then read as the amount and all others are unchanged |
| Calldata.PatchedReadsBack | contracts/adapters/BaseParaSwapSellAdapter.sol:77-89 | reading the word back gives the amount, the selector and all bytes outside the word are unchanged, and writing back what was read restores the buffer |
| Calldata.DecodesBack | contracts/adapters/BaseParaSwapSellAdapter.sol:86-88 | decoding an encoded number gives it back |
| Calldata.EncodesBack | contracts/adapters/BaseParaSwapSellAdapter.sol:86-88 | encoding decoded bytes gives them back |
| Calldata.MostSignificantFirst | contracts/adapters/BaseParaSwapSellAdapter.sol:86-88 | the first byte of a word counts most |
| Calldata.WordFits | contracts/adapters/BaseParaSwapSellAdapter.sol:86-88 | 32 bytes are exactly 256 bits |
| UniswapBase.BaseUniswapAdapter.SwapExactTokensForTokens | contracts/adapters/BaseUniswapAdapter.sol:132-178 | exactly the amount leaves, at least the minimum arrives, the router keeps no allowance, and the sale is within 30% of the oracle-fair amount up to two roundings |
| UniswapBase.BaseUniswapAdapter.SwapTokensForExactTokens | contracts/adapters/BaseUniswapAdapter.sol:190-236 | exactly the amount arrives for at most the maximum, below 130% of the oracle-fair amount, and at the quoted price from a router that keeps its quotes; the router keeps the allowance it did not use, or all of an unlimited one of WETH |
| UniswapBase.BaseUniswapAdapter.CheckSale | contracts/adapters/BaseUniswapAdapter.sol:139-150 | the check of a sale passes exactly when nothing overflows and the minimum is above the rounded 70% of the fair amount; whoever receives the minimum then received a fair amount |
| UniswapBase.BaseUniswapAdapter.CheckPurchase | contracts/adapters/BaseUniswapAdapter.sol:196-207 | the check of a purchase passes exactly when nothing overflows and the maximum is below the rounded 130% of the fair amount |
| UniswapBase.BoundsAtPrices | contracts/adapters/BaseUniswapAdapter.sol:139-150 | concrete prices and decimals at the boundary of what the two checks accept |
| UniswapBase.PathOf | contracts/adapters/BaseUniswapAdapter.sol:156-164 | three assets with WETH in the middle exactly if that is asked for |
| UniswapBase.FeeIsPremium | contracts/protocol/lendingpool/LendingPool.sol:505 | the fee that quotes allow for is the premium that the pool charges, 9 in 10000 |
| UniswapBase.BaseUniswapAdapter.PullViToken | contracts/adapters/BaseUniswapAdapter.sol:271-295 | viTokens of the user become exactly as much of the underlying, also for the amount 2^256 - 1 that the pool reads as everything |
| UniswapBase.BaseUniswapAdapter.GetAmountsOutAndPath | contracts/adapters/BaseUniswapAdapter.sol:360-396 | the largest answer over all candidate paths and the path it is for, the direct one on a tie |
| UniswapBase.BaseUniswapAdapter.CandidatePaths | contracts/adapters/BaseUniswapAdapter.sol:360-396 | the direct path is always asked for, and the one through WETH unless it would begin or end with WETH |
| UniswapBase.BaseUniswapAdapter.GetAmountsOutData | contracts/adapters/BaseUniswapAdapter.sol:337-415 | a returned quote is positive, is the router's answer for the returned path and is the maximum over all answers; if nothing overflows it returns exactly when some answer is positive |
| UniswapBase.BaseUniswapAdapter.GetAmountsInAndPath | contracts/adapters/BaseUniswapAdapter.sol:483-524 | the smallest positive answer and its path; positive exactly when some answer is and the direct path is not answered with zero |
| UniswapBase.BaseUniswapAdapter.ZeroAnswerIsPreferred | contracts/adapters/BaseUniswapAdapter.sol:516-523 | router answers with which the path through WETH offers a price and the quote is refused |
| UniswapBase.BaseUniswapAdapter.AnyAnswerIsEnough | contracts/adapters/BaseUniswapAdapter.sol:516-523 | one positive answer is enough for a quote, if it is the direct one or there is no direct one |
| UniswapBase.BaseUniswapAdapter.QuotesFit | contracts/adapters/BaseUniswapAdapter.sol:398-414 | concrete prices at which both quotes can be computed |
| UniswapBase.BaseUniswapAdapter.GetAmountsInData | contracts/adapters/BaseUniswapAdapter.sol:428-474 | the returned quote is the smallest positive answer with the fee on top; if nothing overflows it returns exactly under that condition |
| UniswapBase.BaseUniswapAdapter.GetAmountsIn | contracts/adapters/BaseUniswapAdapter.sol:533-553 | the router's answer for the path of the swap; reverts exactly when there is none |
| UniswapBase.BaseUniswapAdapter.CalcUsdValue | contracts/adapters/BaseUniswapAdapter.sol:315-324 | passes exactly when nothing overflows and the unit is not zero |
| UniswapBase.BaseUniswapAdapter.UsdAtPrices | contracts/adapters/BaseUniswapAdapter.sol:315-324 | a concrete value in dollars |
| UniswapBase.BaseUniswapAdapter.RelativePrice | contracts/adapters/BaseUniswapAdapter.sol:401-403 | the price is the floor of the quotient in 18 decimals; passes exactly when nothing overflows and the divisor is not zero |
| UniswapBase.BaseUniswapAdapter.PriceAtUnits | contracts/adapters/BaseUniswapAdapter.sol:401-403 | a concrete relative price between assets of different units |
| UniswapBase.BaseUniswapAdapter.LessFee | contracts/adapters/BaseUniswapAdapter.sol:343 | takes the fee off, and overflows exactly when nine times the amount does |
| UniswapBase.BaseUniswapAdapter.WithFee | contracts/adapters/BaseUniswapAdapter.sol:456-457 | adds the fee, and overflows exactly when nine times the amount does |
| Pricing.ExpectedAmount | contracts/adapters/BaseUniswapAdapter.sol:145-148 | the rounded share of the floor of the oracle-fair amount; passes exactly when no intermediate result overflows and the denominator is not zero |
| Pricing.ExactInBound | contracts/adapters/BaseUniswapAdapter.sol:145-150 | 10000 * received * D > 7000 * N - 1999 * D through both roundings |
| Pricing.ExactOutBound | contracts/adapters/BaseUniswapAdapter.sol:202-207 | 10000 * paid * D < 13000 * N through both roundings |
| Pricing.ParaSwapBound | contracts/adapters/BaseParaSwapSellAdapter.sol:60-66 | 10000 * received * D > 7000 * N - 11999 * D, one unit weaker because equality is accepted |
| Pricing.PercentMulOverflows | contracts/protocol/libraries/math/PercentageMath.sol:24-35 | the guard of the half-up percentage rejects exactly the products that leave 256 bits |
| Pricing.RoundsHalfUp | contracts/protocol/libraries/math/PercentageMath.sol:24-35 | the share is the nearest whole number, and the larger one of two that are as near |
| Oracle.WorthAtPrices | contracts/adapters/BaseUniswapAdapter.sol:145-148 | what five whole units are worth in an asset with other decimals and another price, and which sales and purchases are fair |
| Pricing.DecimalsFit | contracts/adapters/BaseParaSwapAdapter.sol:67-72 | 77 is exactly the largest exponent of ten that fits |
| Pricing.FeesInvert | contracts/adapters/BaseUniswapAdapter.sol:343-357 | the two same-asset quotes invert each other up to the fee on the fee plus one, and neither overshoots |
| Pricing.FeesMonotone | contracts/adapters/BaseUniswapAdapter.sol:343-357 | both same-asset quotes grow with the amount |
| Pricing.NineTenThousandths | contracts/adapters/BaseUniswapAdapter.sol:343-357 | the fee in numbers |
| Ledger.Chain.Transfer | contracts/dependencies/openzeppelin/contracts/ERC20.sol:234-247 | passes exactly when the balance suffices and the credit fits, which for WETH means below 2^256 - 1; moves exactly the amount, also to oneself |
| Ledger.Chain.TransferFrom | contracts/dependencies/openzeppelin/contracts/ERC20.sol:159-171 | passes exactly when balance and allowance suffice and the credit fits; the allowance drops by the amount, except that an everlasting token such as WETH never uses up one of 2^256 - 1 |
| Ledger.Chain.Approve | contracts/dependencies/openzeppelin/contracts/ERC20.sol:302-312 | overwrites one allowance |
| Ledger.Chain.SafeApprove | contracts/dependencies/openzeppelin/contracts/SafeERC20.sol:39-49 | passes exactly between zero and non-zero |
| Ledger.Chain.ResetAndApprove | contracts/adapters/BaseUniswapAdapter.sol:152-154 | approving zero first cannot fail and leaves exactly the new allowance |
| Ledger.Chain.Mint | contracts/dependencies/openzeppelin/contracts/ERC20.sol:258-266 | credits exactly the amount |
| Ledger.Chain.Burn | contracts/dependencies/openzeppelin/contracts/ERC20.sol:279-287 | debits exactly the amount, if it is there |
| Pool.LendingPool.Deposit | contracts/protocol/lendingpool/LendingPool.sol:105-130 | exactly the amount moves to the reserve and viTokens are minted for it; zero is rejected |
| Pool.LendingPool.Withdraw | contracts/protocol/lendingpool/LendingPool.sol:143-185 | viTokens of the caller are burnt for exactly as much of the underlying; 2^256 - 1 means all |
| Pool.LendingPool.Repay | contracts/protocol/lendingpool/LendingPool.sol:237-292 | takes the smaller of amount and the debt of the mode, which falls by it while the other debt stays, and rejects a zero debt, a zero amount and mode 0 |
| Pool.LendingPool.Borrow | contracts/protocol/lendingpool/LendingPool.sol:872-946 | gives a debt of the mode, and none of the other, to the one named and the underlying to the caller |
| Pool.DebtsAreApart | contracts/protocol/lendingpool/LendingPool.sol:258-277 | mode 1 is the stable debt, and every other mode the variable one |
| Pool.LendingPool.LiquidationCall | contracts/protocol/lendingpool/LendingPoolCollateralManager.sol:81-246 | takes at most debtToCover, burning variable debt first, and releases collateral of the user |
| Pool.LendingPool.Lend | contracts/protocol/lendingpool/LendingPool.sol:495-508 | every loan moves from its reserve to the receiver, and premiums are nine ten-thousandths rounded down |
| Pool.LendingPool.Settle | contracts/protocol/lendingpool/LendingPool.sol:515-564 | a loan in mode 0 is pulled with its premium, any other becomes a debt and is not zero; it passes only if balance and allowance cover all that is due, and then only a refused borrow, an overflowing credit or an overflowing debt can stop it; an unlimited allowance of WETH is not used up |
| Pool.LendingPool.Reclaim | contracts/protocol/lendingpool/LendingPool.sol:515-555 | the same for one loan |
| Pool.LoansBalance | contracts/protocol/lendingpool/LendingPool.sol:495-564 | per asset, lent plus premiums is due plus kept |
| Pool.FirstAndRest | contracts/protocol/lendingpool/LendingPool.sol:495-564 | sums over loans, seen from the first one, which is the one a flash repayment serves |
| Pool.UnchangedIff | contracts/protocol/lendingpool/LendingPool.sol:515-555 | a receiver left with what was not repaid is unchanged if and only if every loan was to be repaid, as nobody can borrow nothing |
| Pool.RepaidKeepsNothing | contracts/protocol/lendingpool/LendingPool.sol:522-539 | repaid loans leave nothing with the receiver |
| Pool.BookedThrough | contracts/protocol/lendingpool/LendingPool.sol:484-565 | the three phases of a flash loan compose to one statement about every balance |
| Router.UniswapRouter.Execute | contracts/interfaces/IUniswapV2Router02.sol:4-19 | a trade moves its amounts from the caller through the pairs of its path to the recipient, and uses up as much of the allowance |
| Router.EachPairTrades | contracts/interfaces/IUniswapV2Router02.sol:4-19 | each pair of a path gains what comes in and loses what goes out |
| Router.UniswapRouter.SwapExactTokensForTokens | contracts/interfaces/IUniswapV2Router02.sol:5-11 | trades along the given path, moves exactly the amount in and what it reports, at least the minimum |
| Router.UniswapRouter.SwapTokensForExactTokens | contracts/interfaces/IUniswapV2Router02.sol:13-19 | trades along the given path, moves exactly the amount out and what it reports, at most the maximum; a router that keeps its quotes charges what it answers now |
| Registry.FirstSeenListsAll | contracts/protocol/configuration/LendingPoolAddressesProviderRegistry.sol:45-51 | the list has no duplicates, contains exactly the providers ever registered, and is as long as their set |
| Registry.SlotsAreStable | contracts/protocol/configuration/LendingPoolAddressesProviderRegistry.sol:76-86 | over every run the list only grows at its end |
| Registry.RegisteredIsListed | contracts/protocol/configuration/LendingPoolAddressesProviderRegistry.sol:45-61 | every provider with a non-zero id is in the list |
| Registry.ActiveShowsRegistered | contracts/protocol/configuration/LendingPoolAddressesProviderRegistry.sol:24-38 | the non-zero entries handed out are exactly the registered non-zero providers, each once, in the slot of its first registration |
| Registry.ActiveSlotIsStable | contracts/protocol/configuration/LendingPoolAddressesProviderRegistry.sol:24-38 | a provider shows up in the same slot in any two lists handed out over a run, also after being unregistered and registered again |
| Registry.LastChangeDecides | contracts/protocol/configuration/LendingPoolAddressesProviderRegistry.sol:45-61 | a registration sets the id of its provider, an unregistration clears it, and neither touches another one |
| Registry.UnregisteredStaysOut | contracts/protocol/configuration/LendingPoolAddressesProviderRegistry.sol:57-61 | an unregistered provider has no id and is not handed out until it is registered again |
| Registry.LendingPoolAddressesProviderRegistry.GetAddressesProvidersList | contracts/protocol/configuration/LendingPoolAddressesProviderRegistry.sol:24-38 | the loop returns the list that the history of changes determines, which shows a provider exactly if its id is not zero |
| Registry.LendingPoolAddressesProviderRegistry.RegisterAddressesProvider | contracts/protocol/configuration/LendingPoolAddressesProviderRegistry.sol:45-51 | takes effect exactly for a non-zero id, and then sets the id of the provider and no other; map and list stay those of the history |
| Registry.LendingPoolAddressesProviderRegistry.UnregisterAddressesProvider | contracts/protocol/configuration/LendingPoolAddressesProviderRegistry.sol:57-61 | takes effect exactly for a registered provider, and then sets its id to zero and no other; map and list stay those of the history |
| Registry.LendingPoolAddressesProviderRegistry.GetAddressesProviderIdByAddress | contracts/protocol/configuration/LendingPoolAddressesProviderRegistry.sol:67-74 | returns the id that the last change left |
| Registry.LendingPoolAddressesProviderRegistry.AddToAddressesProvidersList | contracts/protocol/configuration/LendingPoolAddressesProviderRegistry.sol:76-86 | appends a provider that is not listed and changes nothing otherwise |
| Registry.LendingPoolAddressesProviderRegistry.constructor | contracts/protocol/configuration/LendingPoolAddressesProviderRegistry.sol:16-18 | starts with no history |
| Gateway.WETHGateway.Run | contracts/misc/WETHGateway.sol:41-133 | every run of calls that name any pool, with other balances and allowances changing in between, is a trace of steps each of which completes as stated or changes nothing; the gateway's Ether is the same after it; if all calls name the genuine pool and have clean destinations, its viTokens are too and its WETH never grows, so without WETH at the start it holds what it held; an unlimited allowance stays unlimited |
| Gateway.WETHGateway.EtherNeverStays | contracts/misc/WETHGateway.sol:41-133 | over every run, whatever contracts the callers name as pool, the gateway's Ether is unchanged |
| Gateway.WETHGateway.CleanRun | contracts/misc/WETHGateway.sol:41-133 | over every run with the genuine pool and clean destinations the gateway's viTokens are unchanged and its WETH never grows |
| Gateway.WETHGateway.HarmlessRun | contracts/misc/WETHGateway.sol:41-133 | over every run in which each call is harmless when it is made, and contracts named as pool send and spend nothing, all that the gateway holds is unchanged |
| Gateway.WETHGateway.RunAddsUp | contracts/misc/WETHGateway.sol:41-133 | over every run the gateway's balance of each token is the one at the start plus what each completed call adds, which the arguments and the state before the call determine |
| Gateway.WETHGateway.LeavesNothingBehind | contracts/misc/WETHGateway.sol:41-133 | whatever the gateway holds and whatever pool the caller names: a completed call keeps its Ether, and with a pool that sends and spends nothing leaves its Ether, WETH and viTokens unchanged if and only if either the pool is genuine, a deposit is not made for the gateway itself, a withdrawal is not sent to the WETH contract and a repayment takes what was wrapped, or the pool is not genuine and nothing passes through or it comes back from the WETH contract; with the genuine pool and clean destinations a repayment can only take WETH from the gateway |
| Gateway.WETHGateway.RepaymentIsMatched | contracts/misc/WETHGateway.sol:84-109 | a gateway without WETH completes a repayment to the genuine pool only if value or debt is at most the amount, and the pool then takes exactly what was wrapped |
| Gateway.WETHGateway.DepositsPlainly | contracts/misc/WETHGateway.sol:41-75 | with the genuine pool: a deposit takes the value from the caller and gives it as viTokens to the beneficiary, a withdrawal takes the viTokens and gives the Ether |
| Gateway.WETHGateway.DebtsPlainly | contracts/misc/WETHGateway.sol:84-133 | with the genuine pool: a repayment takes the smaller of value and debt off the debt of the mode and leaves the other, and a borrow opens a debt of the mode |
| Gateway.WETHGateway.WithdrawalComesBack | contracts/misc/WETHGateway.sol:56-75 | a concrete withdrawal to the WETH contract that leaves WETH with the gateway |
| Gateway.WETHGateway.DepositStays | contracts/misc/WETHGateway.sol:41-48 | a concrete deposit on behalf of the gateway that leaves viTokens with it |
| Gateway.WETHGateway.RepaymentSpendsHoldings | contracts/misc/WETHGateway.sol:84-109 | a concrete repayment of 1 in which the pool takes 6, of which 5 are what the gateway held |
| Gateway.WETHGateway.DepositElsewhereStays | contracts/misc/WETHGateway.sol:41-48 | a concrete deposit into a contract that is not the pool, which leaves its WETH with the gateway |
| Gateway.WETHGateway.BorrowElsewhereSpendsHoldings | contracts/misc/WETHGateway.sol:118-133 | a concrete borrow from a contract that is not the pool, which is paid from what the gateway held |
| Gateway.WETHGateway.WithdrawalElsewhereKeepsViTokens | contracts/misc/WETHGateway.sol:61-75 | a concrete withdrawal from a contract that names the real viToken, which stays with the gateway |
| Gateway.WETHGateway.NetOfActions | contracts/misc/WETHGateway.sol:41-133 | what a list of actions adds to the gateway's balance, in numbers |
| Gateway.WETHGateway.Perform | contracts/misc/WETHGateway.sol:41-133 | a contract that the caller names changes what the gateway holds by what it sends and by what it spends of an allowance, and by nothing else |
| Gateway.WETHGateway.TakeViTokens | contracts/misc/WETHGateway.sol:61-72 | the viToken that the named pool answers, real or not, is told to move the amount to the gateway |
| Gateway.WETHGateway.UnwrapFor | contracts/misc/WETHGateway.sol:73-74 | WETH of the gateway becomes Ether of the recipient |
| Gateway.WETHGateway.Call | contracts/misc/WETHGateway.sol:41-133 | with the genuine pool every balance of every holder after a completed call of any kind, with any other every balance of the gateway; exactly when the gateway's holdings stay what they were; a revert leaves no trace |
| Gateway.WETHGateway.CallBody | contracts/misc/WETHGateway.sol:41-133 | the four entry points, each with its own effect, for the pool that the caller names |
| Gateway.WETHGateway.DepositETH | contracts/misc/WETHGateway.sol:41-48 | with the genuine pool the caller's Ether ends as WETH in the reserve and viTokens of the beneficiary; with any other the gateway holds as much more WETH |
| Gateway.WETHGateway.WithdrawETH | contracts/misc/WETHGateway.sol:56-75 | with the genuine pool the caller's viTokens end as Ether of the recipient, and only the WETH contract as recipient leaves WETH behind; with any other the recipient is paid from the WETH that the gateway holds or is sent, and real viTokens taken stay with it |
| Gateway.WETHGateway.RepayETH | contracts/misc/WETHGateway.sol:84-109 | with the genuine pool the caller pays the payback amount, the pool takes the smaller of value and debt, and the gateway's WETH changes by the difference; with any other the gateway holds the payback amount more |
| Gateway.WETHGateway.WrapAndRepay | contracts/misc/WETHGateway.sol:103-105 | the payback amount is wrapped while the pool is offered all the value |
| Gateway.WETHGateway.BorrowETH | contracts/misc/WETHGateway.sol:118-133 | with the genuine pool the caller gets the debt and the Ether, and nothing stays; with any other the caller is paid from the WETH that the gateway holds or is sent |
| Gateway.WETHGateway.SafeTransferETH | contracts/misc/WETHGateway.sol:140-143 | a transfer to the gateway reverts, one to the WETH contract comes back as WETH |
| Gateway.WETHGateway.AuthorizeLendingPool | contracts/misc/WETHGateway.sol:30-32 | sets the unlimited allowance of the pool given |
| Gateway.Weth9.Deposit | contracts/mocks/dependencies/weth/WETH9.sol:35-38 | Ether becomes as much WETH of the sender |
| Gateway.Weth9.Withdraw | contracts/mocks/dependencies/weth/WETH9.sol:40-45 | WETH of the sender becomes as much Ether |
| Linker.LinkBytecode | helpers/contracts-helpers.ts:124-145 | for fixups of 20 bytes inside the code of which no two overlap unless they are the same: every fixup of every supplied library in the link references holds the address, and every character in none of them is unchanged, also those of libraries that are not supplied |
| Linker.InFiles | helpers/contracts-helpers.ts:129-142 | the patches made are exactly the fixups of the supplied libraries |
| Linker.LinkFiles | helpers/contracts-helpers.ts:129-145 | the loop over the files |
| Linker.LinkFile | helpers/contracts-helpers.ts:129-142 | libraries that are not supplied are skipped |
| Linker.PatchFixups | helpers/contracts-helpers.ts:136-141 | the innermost loop |
| Linker.ApplyAllLinks | helpers/contracts-helpers.ts:136-141 | length preserved, each fixup equal to its address, all other characters unchanged |
| Linker.OrderDoesNotMatter | helpers/contracts-helpers.ts:128-143 | any two processing orders of the same proper patches that do not overlap, also with repetitions, give the same code |
| Linker.LinkedIsUnique | helpers/contracts-helpers.ts:136-141 | what a linked code is leaves no freedom |
| Linker.ApplyAllConcat | helpers/contracts-helpers.ts:128-143 | patching in two batches is patching with both |
| Bytes32.Bytes32ToString | contracts/misc/UiPoolDataProviderV2.sol:213-223 | both loops stop at the same index, and the result is the text of the word |
| Bytes32.TextIsLongest | contracts/misc/UiPoolDataProviderV2.sol:213-223 | a prefix has no zero exactly when it is no longer than the text |
| Bytes32.TextOfPadded | contracts/misc/UiPoolDataProviderV2.sol:213-223 | padding and reading back gives the text exactly when it has no zero |
| Bytes32.PaddedText | contracts/misc/UiPoolDataProviderV2.sol:213-223 | padding the result restores the word exactly when nothing non-zero follows its first zero |
| Bytes32.TextLength | contracts/misc/UiPoolDataProviderV2.sol:214-217 | the index of the first zero, or the length |

## Left out

- LiquiditySwap.UniswapLiquiditySwapAdapter.SwapLiquidity: permit signatures (EIP-2612) are not modelled, so the allowance on the user's viTokens must already be given; the same holds for every other member that pulls viTokens.
- Ledger.Chain.TransferFrom: tokens other than WETH count every allowance down, as the repository's `ERC20.sol` does. A balance of WETH never reaches 2^256 - 1, because there is not as much Ether.
- Router.UniswapRouter.SwapExactTokensForTokens: the pairs choose the amounts of a trade freely within the minimum or maximum, because their reserves, prices and fees are not modelled; the same holds for SwapTokensForExactTokens. Deadlines are left out.
- Pool.LendingPool.LiquidationCall: how much is taken and released is left open, so the liquidation bonus, the close factor and the health factor are not modelled.
- Runs.Desk.Run: the ParaSwap adapter is not part of the run, because Augustus may change every balance that its two checks do not cover; each of its transactions is covered by `ParaSwap.ParaSwapLiquiditySwapAdapter.FlashLoan` and `SwapAndDeposit`. Whether a router charges what it quotes is fixed for the run.
- Interest accrual, index rounding in viToken transfers, reserve flags and caps: the pool is taken at a fixed index and may reject at will. The settlement of a loan in mode 0 is the exception: it fails only for balance, allowance or overflow, while `cumulateToLiquidityIndex` also reverts without viToken supply or when the index overflows.
- The zero-address checks of the tokens, tokens with fees or rebasing, and tokens that return false.
- Reentrancy, gas, events, ownership checks and ABI decoding of `params`.
- `rescueTokens`, `emergencyTokenTransfer` and `emergencyEtherTransfer`: the owner's escape hatches move balances on purpose.
- Gateway.WETHGateway.Call: a contract that the caller names as pool may do anything to other holders, but does not call the gateway again; of such a call only the gateway's balances are stated. There is one genuine pool.
- The other UI data providers, incentives, oracles, deployment scripts and market configurations: field copying and constants.
