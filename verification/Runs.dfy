/** Whole runs: any sequence of transactions with the three Uniswap adapters, and anything in between. */
module Runs {
  import opened Evm
  import opened Ledger
  import opened Pool
  import opened Router
  import LiquiditySwap
  import Repay
  import FlashLiquidation

  datatype Tx =
    | SwapByLoan(initiator: Account, assets: seq<Asset>, amounts: seq<uint256>, modes: seq<nat>, onBehalfOf: Account,
        swapParams: LiquiditySwap.SwapParams)
    | SwapDirectly(initiator: Account, assetsFrom: seq<Asset>, assetsTo: seq<Asset>, amounts: seq<uint256>,
        minReceived: seq<uint256>, ethPaths: seq<bool>)
    | RepayByLoan(initiator: Account, assets: seq<Asset>, amounts: seq<uint256>, modes: seq<nat>, onBehalfOf: Account,
        repayParams: Repay.RepayParams)
    | RepayDirectly(initiator: Account, collateral: Asset, debt: Asset, collateralAmount: uint256,
        debtRepayAmount: uint256, mode: nat, useEthPath: bool)
    | LiquidateByLoan(initiator: Account, assets: seq<Asset>, amounts: seq<uint256>, modes: seq<nat>,
        onBehalfOf: Account, liquidationParams: FlashLiquidation.LiquidationParams)
    // what the rest of the world may do between them
    | OtherBalance(token: Token, holder: Account, balance: uint256)
    | OtherAllowance(token: Token, owner: Account, spender: Account, allowance: uint256)
    | NewPrice(asset: Asset, price: uint256)
    | NewQuotes(router: UniswapRouter, amountsOut: Quotes, amountsIn: Quotes)

  /** What a transaction came to: it reverts, or it completes with what its adapter reports. */
  datatype Receipt =
    | Reverted
    | SwappedByLoan(loans: seq<Loan>, swaps: seq<LiquiditySwap.Swap>)
    | SwappedDirectly(swaps: seq<LiquiditySwap.Swap>)
    | RepaidByLoan(loans: seq<Loan>, repayment: Repay.Repayment)
    | RepaidDirectly(repayment: Repay.Repayment)
    | LiquidatedByLoan(loans: seq<Loan>, liquidation: FlashLiquidation.Liquidation)
    | NoReceipt // of what the rest of the world does

  /** No adapter acts for itself, and the rest of the world does not write its balances. */
  ghost predicate Outside(tx: Tx, adapters: set<Account>, routers: set<UniswapRouter>) {
    match tx
    case OtherBalance(_, holder, _) => holder !in adapters
    case OtherAllowance(_, owner, _, _) => owner !in adapters
    case NewPrice(_, _) => true
    case NewQuotes(router, out, into) => router in routers && Shaped(out) && Shaped(into)
    case LiquidateByLoan(initiator, _, _, _, _, params) => initiator !in adapters && params.user !in adapters
    case _ => tx.initiator !in adapters
  }

  predicate ByLoan(tx: Tx) {
    tx.SwapByLoan? || tx.RepayByLoan? || tx.LiquidateByLoan?
  }

  /** Every flash loan is to be repaid; none is turned into a borrow. */
  predicate Repaying(tx: Tx) {
    ByLoan(tx) ==> forall i :: 0 <= i < |tx.modes| ==> tx.modes[i] == 0
  }

  /**
   A flash repayment serves one loan: any premiums that the others cost are made up for by loans that
   are not repaid. A list that the pool rejects meets this, and so does a single loan.
   */
  ghost predicate PaysForAll(tx: Tx) {
    tx.RepayByLoan? && |tx.assets| == |tx.amounts| <= |tx.modes| ==>
      Repay.PremiumsMet(LoansOf(tx.assets, tx.amounts, tx.modes))
  }

  lemma SingleLoanPays(tx: Tx)
    requires tx.RepayByLoan? && |tx.assets| == 1
    ensures PaysForAll(tx)
  {
  }

  ghost predicate Same(b: Balances, b': Balances, adapters: set<Account>) {
    forall x, h :: h in adapters ==>
      At(b', Underlying(x), h) == At(b, Underlying(x), h) && At(b', ViToken(x), h) == At(b, ViToken(x), h)
  }

  ghost predicate NoLess(b: Balances, b': Balances, adapters: set<Account>) {
    forall x, h :: h in adapters ==>
      At(b', Underlying(x), h) >= At(b, Underlying(x), h) && At(b', ViToken(x), h) >= At(b, ViToken(x), h)
  }

  /** A swap touches nobody but its adapter, its user, the pairs and the reserves. */
  lemma {:induction false} SwapsSpareOthers(ss: seq<LiquiditySwap.Swap>, self: Account, user: Account,
                                            t: Token, h: Account)
    requires h.Wallet? && h != self && h != user
    ensures LiquiditySwap.Effects(ss, self, user, t, h) == 0
  {
    if |ss| == 0 {
    } else {
      SwapsSpareOthers(ss[..|ss| - 1], self, user, t, h);
    }
  }

  ghost predicate Bystander(effect: (Token, Account) -> int, h: Account) {
    forall x :: effect(Underlying(x), h) == 0 && effect(ViToken(x), h) == 0
  }

  /** A loan changes nothing for an account that neither receives it nor takes part in the callback. */
  lemma BookedSparesOthers(b: Balances, b': Balances, receiver: Account, onBehalfOf: Account, loans: seq<Loan>,
                           effect: (Token, Account) -> int, adapters: set<Account>)
    requires Booked(b, b', receiver, onBehalfOf, loans, effect)
    requires forall h :: h in adapters && h != receiver ==> h.Wallet? && Bystander(effect, h)
    ensures Same(b, b', adapters - {receiver})
  {
    hide At, Lent, Due, Borrowed;
    forall x, h | h in adapters - {receiver}
      ensures At(b', Underlying(x), h) == At(b, Underlying(x), h) && At(b', ViToken(x), h) == At(b, ViToken(x), h)
    {
      assert Bystander(effect, h);
      NoDebtTokenIsViToken(loans, x);
    }
  }

  lemma SwapsSpareAdapters(adapter: LiquiditySwap.UniswapLiquiditySwapAdapter, swaps: seq<LiquiditySwap.Swap>,
                           user: Account, h: Account)
    requires h.Wallet? && h != adapter.base.self && h != user
    ensures Bystander(adapter.EffectOf(swaps, user), h)
  {
    hide LiquiditySwap.Effects;
    forall x
      ensures adapter.EffectOf(swaps, user)(Underlying(x), h) == 0
      ensures adapter.EffectOf(swaps, user)(ViToken(x), h) == 0
    {
      SwapsSpareOthers(swaps, adapter.base.self, user, Underlying(x), h);
      SwapsSpareOthers(swaps, adapter.base.self, user, ViToken(x), h);
    }
  }

  lemma CarriedSparesOthers(b: Balances, b': Balances, receiver: Account, effect: (Token, Account) -> int,
                            adapters: set<Account>)
    requires Carried(b, b', effect)
    requires forall h :: h in adapters && h != receiver ==> Bystander(effect, h)
    ensures Same(b, b', adapters - {receiver})
  {
    hide At;
    forall x, h | h in adapters - {receiver}
      ensures At(b', Underlying(x), h) == At(b, Underlying(x), h) && At(b', ViToken(x), h) == At(b, ViToken(x), h)
    {
      assert Bystander(effect, h);
    }
  }

  lemma RepaymentSparesAdapters(adapter: Repay.UniswapRepayAdapter, r: Repay.Repayment, user: Account, h: Account)
    requires h.Wallet? && h != adapter.base.self && h != user
    ensures Bystander(adapter.EffectOf(r, user), h)
  {
  }

  lemma LiquidationSparesAdapters(adapter: FlashLiquidation.FlashLiquidationAdapter, l: FlashLiquidation.Liquidation,
                                  user: Account, h: Account)
    requires h.Wallet? && h != adapter.base.self && h != user && h != l.user
    ensures Bystander(adapter.EffectOf(l, user), h)
  {
  }

  lemma OwnBalanceSame(b: Balances, b': Balances, self: Account)
    requires forall t :: At(b', t, self) == At(b, t, self)
    ensures NoLess(b, b', {self}) && Same(b, b', {self})
  {
  }

  /** What a flash repayment changes is no loss if all premiums are met, and nothing if all is repaid and quotes are kept. */
  lemma OwnBalanceAfterRepayment(b: Balances, b': Balances, self: Account, loans: seq<Loan>, r: Repay.Repayment)
    requires |loans| > 0 && Repay.Consistent(r)
    requires forall x ::
               && At(b', Underlying(x), self) == At(b, Underlying(x), self) + Repay.Change(loans, r, x)
               && At(b', ViToken(x), self) == At(b, ViToken(x), self)
    ensures Repay.PremiumsMet(loans) ==> NoLess(b, b', {self})
    ensures Repay.PremiumsMet(loans) && AllRepaid(loans) && (forall x :: Repay.Unspent(r, x) == 0) ==> Same(b, b', {self})
  {
    hide At, Kept, Premiums, Repay.Unspent;
    Repay.PremiumsMetIff(loans, r);
    if AllRepaid(loans) {
      forall x ensures Kept(loans, x) == 0 {
        RepaidKeepsNothing(loans, x);
      }
    }
  }

  /** An adapter that keeps what was not repaid loses nothing, and keeps nothing if all was repaid. */
  lemma OwnBalance(b: Balances, b': Balances, self: Account, loans: seq<Loan>)
    requires forall x ::
               && At(b', Underlying(x), self) == At(b, Underlying(x), self) + Kept(loans, x)
               && At(b', ViToken(x), self) == At(b, ViToken(x), self)
    ensures NoLess(b, b', {self})
    ensures AllRepaid(loans) ==> Same(b, b', {self})
  {
    hide At, Kept;
    if AllRepaid(loans) {
      forall x ensures Kept(loans, x) == 0 {
        RepaidKeepsNothing(loans, x);
      }
    }
  }

  /** The closing balances of the adapter at work, and everyone else's, make those of the desk. */
  lemma Together(b: Balances, b': Balances, self: Account, adapters: set<Account>)
    requires Same(b, b', adapters - {self})
    requires NoLess(b, b', {self})
    ensures NoLess(b, b', adapters)
    ensures Same(b, b', {self}) ==> Same(b, b', adapters)
  {
    hide At;
    forall x, h | h in adapters
      ensures At(b', Underlying(x), h) >= At(b, Underlying(x), h) && At(b', ViToken(x), h) >= At(b, ViToken(x), h)
      ensures Same(b, b', {self}) ==>
                At(b', Underlying(x), h) == At(b, Underlying(x), h) && At(b', ViToken(x), h) == At(b, ViToken(x), h)
    {
      if h == self {
        assert h in {self};
      } else {
        assert h in adapters - {self};
      }
    }
  }

  lemma SameThenSame(b0: Balances, b: Balances, b': Balances, adapters: set<Account>)
    ensures Same(b0, b, adapters) && Same(b, b', adapters) ==> Same(b0, b', adapters)
    ensures NoLess(b0, b, adapters) && NoLess(b, b', adapters) ==> NoLess(b0, b', adapters)
  {
    hide At;
  }

  lemma SameMeans(b: Balances, b': Balances, adapters: set<Account>)
    ensures NoLess(b, b', adapters) ==>
              forall x, h :: h in adapters ==>
                               && At(b', Underlying(x), h) >= At(b, Underlying(x), h)
                               && At(b', ViToken(x), h) >= At(b, ViToken(x), h)
    ensures Same(b, b', adapters) ==>
              forall x, h :: h in adapters ==>
                               && At(b', Underlying(x), h) == At(b, Underlying(x), h)
                               && At(b', ViToken(x), h) == At(b, ViToken(x), h)
  {
    hide At;
  }

  class Desk {
    const swapper: LiquiditySwap.UniswapLiquiditySwapAdapter
    const repayer: Repay.UniswapRepayAdapter
    const liquidator: FlashLiquidation.FlashLiquidationAdapter
    const chain: Chain

    constructor (swapper: LiquiditySwap.UniswapLiquiditySwapAdapter, repayer: Repay.UniswapRepayAdapter,
                 liquidator: FlashLiquidation.FlashLiquidationAdapter)
      ensures this.swapper == swapper && this.repayer == repayer && this.liquidator == liquidator
      ensures chain == swapper.base.chain
    {
      this.swapper, this.repayer, this.liquidator := swapper, repayer, liquidator;
      chain := swapper.base.chain;
    }

    function Adapters(): set<Account> {
      {swapper.base.self, repayer.base.self, liquidator.base.self}
    }

    function Routers(): set<UniswapRouter> {
      {swapper.base.router, repayer.base.router, liquidator.base.router}
    }

    ghost predicate WellShaped()
      reads Routers()
    {
      forall router :: router in Routers() ==> router.WellShaped()
    }

    /** The adapters share the ledger and are distinct accounts. */
    ghost predicate Wired() {
      && swapper.base.Wired() && repayer.base.Wired() && liquidator.base.Wired()
      && swapper.base.chain == repayer.base.chain == liquidator.base.chain == chain
      && swapper.base.self != repayer.base.self
      && swapper.base.self != liquidator.base.self
      && repayer.base.self != liquidator.base.self
    }

    /** The balances after a transaction, from those before it. */
    ghost predicate Done(tx: Tx, receipt: Receipt, b: Balances, b': Balances) {
      match tx
      case OtherBalance(token, holder, n) => b' == b[(token, holder) := n]
      case OtherAllowance(_, _, _, _) => b' == b
      case NewPrice(_, _) => b' == b
      case NewQuotes(_, _, _) => b' == b
      case SwapByLoan(initiator, assets, amounts, modes, onBehalfOf, params) =>
        if receipt.SwappedByLoan?
        then
          && LoansFor(receipt.loans, assets, amounts, modes)
          && |receipt.swaps| == |assets| == |params.assetToSwapToList|
          && Booked(b, b', swapper.base.self, onBehalfOf, receipt.loans, swapper.EffectOf(receipt.swaps, initiator))
          && LiquiditySwap.Sources(receipt.swaps) == assets
          && LiquiditySwap.Targets(receipt.swaps) == params.assetToSwapToList
        else receipt == Reverted && b' == b
      case SwapDirectly(initiator, assetsFrom, assetsTo, _, _, _) =>
        if receipt.SwappedDirectly?
        then
          && Carried(b, b', swapper.EffectOf(receipt.swaps, initiator))
          && LiquiditySwap.Sources(receipt.swaps) == assetsFrom
          && LiquiditySwap.Targets(receipt.swaps) == assetsTo
        else receipt == Reverted && b' == b
      case RepayByLoan(initiator, assets, amounts, modes, onBehalfOf, params) =>
        if receipt.RepaidByLoan?
        then
          && LoansFor(receipt.loans, assets, amounts, modes)
          && Repay.Serves(receipt.repayment, receipt.loans)
          && receipt.repayment.collateral == params.collateralAsset && receipt.repayment.mode == params.rateMode
          && Booked(b, b', repayer.base.self, onBehalfOf, receipt.loans, repayer.EffectOf(receipt.repayment, initiator))
        else receipt == Reverted && b' == b
      case RepayDirectly(initiator, collateral, debt, _, amount, mode, _) =>
        if receipt.RepaidDirectly?
        then
          && receipt.repayment.collateral == collateral && receipt.repayment.debt == debt
          && receipt.repayment.amount == amount && receipt.repayment.mode == mode
          && Carried(b, b', repayer.EffectOf(receipt.repayment, initiator))
        else receipt == Reverted && b' == b
      case LiquidateByLoan(initiator, assets, amounts, modes, onBehalfOf, params) =>
        if receipt.LiquidatedByLoan?
        then
          && LoansFor(receipt.loans, assets, amounts, modes)
          && receipt.liquidation.collateral == params.collateralAsset
          && receipt.liquidation.borrowed == params.borrowedAsset && receipt.liquidation.user == params.user
          && Booked(b, b', liquidator.base.self, onBehalfOf, receipt.loans,
                    liquidator.EffectOf(receipt.liquidation, initiator))
        else receipt == Reverted && b' == b
    }

    method SwapByLoan(tx: Tx) returns (ghost receipt: Receipt)
      requires Wired() && tx.SwapByLoan? && Outside(tx, Adapters(), Routers())
      modifies chain`balances, chain`allowances
      ensures Done(tx, receipt, old(chain.balances), chain.balances)
      ensures NoLess(old(chain.balances), chain.balances, Adapters())
      ensures Repaying(tx) ==> Same(old(chain.balances), chain.balances, Adapters())
    {
      hide At, Booked, Kept, NoLess, Same, Bystander, LiquiditySwap.Standable, LiquiditySwap.Untangled;
      hide LiquiditySwap.UniswapLiquiditySwapAdapter.UsesUp, LiquiditySwap.UniswapLiquiditySwapAdapter.Followed;
      ghost var before, base := chain.balances, swapper.base;
      var o, loans, swaps := swapper.FlashLoan(tx.initiator, tx.assets, tx.amounts, tx.modes, tx.onBehalfOf,
        tx.swapParams);
      receipt := Reverted;
      if o.Pass? {
        receipt := SwappedByLoan(loans, swaps);
        forall h | h in Adapters() && h != base.self ensures Bystander(swapper.EffectOf(swaps, tx.initiator), h) {
          SwapsSpareAdapters(swapper, swaps, tx.initiator, h);
        }
        BookedSparesOthers(before, chain.balances, base.self, tx.onBehalfOf, loans, swapper.EffectOf(swaps, tx.initiator),
          Adapters());
        OwnBalance(before, chain.balances, base.self, loans);
        Together(before, chain.balances, base.self, Adapters());
        assert Repaying(tx) ==> AllRepaid(loans);
      } else {
        Untouched(before, Adapters());
      }
    }

    method SwapDirectly(tx: Tx) returns (ghost receipt: Receipt)
      requires Wired() && tx.SwapDirectly? && Outside(tx, Adapters(), Routers())
      modifies chain`balances, chain`allowances
      ensures Done(tx, receipt, old(chain.balances), chain.balances)
      ensures NoLess(old(chain.balances), chain.balances, Adapters())
      ensures Same(old(chain.balances), chain.balances, Adapters())
    {
      hide At, Carried, NoLess, Same, Bystander, LiquiditySwap.DepositedIn, LiquiditySwap.TakenFrom;
      hide LiquiditySwap.UniswapLiquiditySwapAdapter.Followed;
      ghost var before, base := chain.balances, swapper.base;
      var o, swaps := swapper.SwapAndDeposit(tx.initiator, tx.assetsFrom, tx.assetsTo, tx.amounts, tx.minReceived,
        tx.ethPaths);
      receipt := Reverted;
      if o.Pass? {
        receipt := SwappedDirectly(swaps);
        forall h | h in Adapters() && h != base.self ensures Bystander(swapper.EffectOf(swaps, tx.initiator), h) {
          SwapsSpareAdapters(swapper, swaps, tx.initiator, h);
        }
        CarriedSparesOthers(before, chain.balances, base.self, swapper.EffectOf(swaps, tx.initiator), Adapters());
        OwnBalanceSame(before, chain.balances, base.self);
        Together(before, chain.balances, base.self, Adapters());
      } else {
        Untouched(before, Adapters());
      }
    }

    method RepayByLoan(tx: Tx) returns (ghost receipt: Receipt)
      requires Wired() && repayer.base.router.WellShaped() && tx.RepayByLoan? && Outside(tx, Adapters(), Routers())
      modifies chain`balances, chain`allowances
      ensures Done(tx, receipt, old(chain.balances), chain.balances)
      ensures PaysForAll(tx) ==> NoLess(old(chain.balances), chain.balances, Adapters())
      ensures PaysForAll(tx) && Repaying(tx) && repayer.base.router.keepsQuotes ==>
                Same(old(chain.balances), chain.balances, Adapters())
    {
      hide At, Booked, Kept, NoLess, Same, Bystander, Repay.Change, Repay.WithinCap, Repay.PremiumsMet, Repay.Settleable;
      hide Repay.Standing;
      ghost var before, base := chain.balances, repayer.base;
      var o, loans, r := repayer.FlashLoan(tx.initiator, tx.assets, tx.amounts, tx.modes, tx.onBehalfOf, tx.repayParams);
      receipt := Reverted;
      if o.Pass? {
        receipt := RepaidByLoan(loans, r);
        forall h | h in Adapters() && h != base.self ensures Bystander(repayer.EffectOf(r, tx.initiator), h) {
          RepaymentSparesAdapters(repayer, r, tx.initiator, h);
        }
        BookedSparesOthers(before, chain.balances, base.self, tx.onBehalfOf, loans, repayer.EffectOf(r, tx.initiator),
          Adapters());
        OwnBalanceAfterRepayment(before, chain.balances, base.self, loans, r);
        if PaysForAll(tx) {
          Together(before, chain.balances, base.self, Adapters());
        }
        assert Repaying(tx) ==> AllRepaid(loans);
      } else {
        Untouched(before, Adapters());
      }
    }

    method RepayDirectly(tx: Tx) returns (ghost receipt: Receipt)
      requires Wired() && repayer.base.router.WellShaped() && tx.RepayDirectly? && Outside(tx, Adapters(), Routers())
      modifies chain`balances, chain`allowances
      ensures Done(tx, receipt, old(chain.balances), chain.balances)
      ensures NoLess(old(chain.balances), chain.balances, Adapters())
      ensures repayer.base.router.keepsQuotes ==> Same(old(chain.balances), chain.balances, Adapters())
    {
      hide Repay.WithinCap, Repay.Effect;
      ghost var before, base := chain.balances, repayer.base;
      var o, r := repayer.SwapAndRepay(tx.initiator, tx.collateral, tx.debt, tx.collateralAmount, tx.debtRepayAmount,
        tx.mode, tx.useEthPath);
      hide At, Kept, Bystander;
      receipt := Reverted;
      if o.Pass? {
        receipt := RepaidDirectly(r);
        forall h | h in Adapters() && h != base.self ensures Bystander(repayer.EffectOf(r, tx.initiator), h) {
          RepaymentSparesAdapters(repayer, r, tx.initiator, h);
        }
        CarriedSparesOthers(before, chain.balances, base.self, repayer.EffectOf(r, tx.initiator), Adapters());
        Together(before, chain.balances, base.self, Adapters());
      } else {
        Untouched(before, Adapters());
      }
    }

    method LiquidateByLoan(tx: Tx) returns (ghost receipt: Receipt)
      requires Wired() && tx.LiquidateByLoan? && Outside(tx, Adapters(), Routers())
      modifies chain`balances, chain`allowances
      ensures Done(tx, receipt, old(chain.balances), chain.balances)
      ensures NoLess(old(chain.balances), chain.balances, Adapters())
      ensures Repaying(tx) ==> Same(old(chain.balances), chain.balances, Adapters())
    {
      hide At, Booked, Kept, NoLess, Same, Bystander, FlashLiquidation.Consistent;
      ghost var before, base := chain.balances, liquidator.base;
      var o, loans, l := liquidator.FlashLoan(tx.initiator, tx.assets, tx.amounts, tx.modes, tx.onBehalfOf,
        tx.liquidationParams);
      receipt := Reverted;
      if o.Pass? {
        receipt := LiquidatedByLoan(loans, l);
        forall h | h in Adapters() && h != base.self ensures Bystander(liquidator.EffectOf(l, tx.initiator), h) {
          LiquidationSparesAdapters(liquidator, l, tx.initiator, h);
        }
        BookedSparesOthers(before, chain.balances, base.self, tx.onBehalfOf, loans, liquidator.EffectOf(l, tx.initiator),
          Adapters());
        OwnBalance(before, chain.balances, base.self, loans);
        Together(before, chain.balances, base.self, Adapters());
        assert Repaying(tx) ==> AllRepaid(loans);
      } else {
        Untouched(before, Adapters());
      }
    }

    /** Everything that is not a transaction of an adapter. */
    method Elsewhere(tx: Tx)
      requires Wired() && Outside(tx, Adapters(), Routers())
      requires tx.OtherBalance? || tx.OtherAllowance? || tx.NewPrice? || tx.NewQuotes?
      requires WellShaped()
      modifies chain, Routers()
      ensures chain.balances ==
              if tx.OtherBalance? then old(chain.balances)[(tx.token, tx.holder) := tx.balance] else old(chain.balances)
      ensures chain.allowances ==
              if tx.OtherAllowance? then old(chain.allowances)[(tx.token, tx.owner, tx.spender) := tx.allowance]
              else old(chain.allowances)
      ensures chain.prices == if tx.NewPrice? then old(chain.prices)[tx.asset := tx.price] else old(chain.prices)
      ensures tx.NewQuotes? ==> tx.router.amountsOut == tx.amountsOut && tx.router.amountsIn == tx.amountsIn
      ensures WellShaped()
      ensures NoLess(old(chain.balances), chain.balances, Adapters())
      ensures Same(old(chain.balances), chain.balances, Adapters())
    {
      match tx {
        case OtherBalance(token, holder, balance) => chain.balances := chain.balances[(token, holder) := balance];
        case OtherAllowance(token, owner, spender, n) => chain.allowances := chain.allowances[(token, owner, spender) := n];
        case NewPrice(asset, price) => chain.prices := chain.prices[asset := price];
        case NewQuotes(router, out, into) => router.amountsOut, router.amountsIn := out, into;
      }
    }

    /** One transaction, whichever it is. */
    method Step(tx: Tx) returns (ghost receipt: Receipt)
      requires Wired() && WellShaped() && Outside(tx, Adapters(), Routers())
      modifies chain, Routers()
      ensures Done(tx, receipt, old(chain.balances), chain.balances)
      ensures tx.OtherAllowance? ==>
                chain.allowances == old(chain.allowances)[(tx.token, tx.owner, tx.spender) := tx.allowance]
      ensures tx.NewPrice? ==> chain.prices == old(chain.prices)[tx.asset := tx.price]
      ensures tx.NewQuotes? ==> tx.router.amountsOut == tx.amountsOut && tx.router.amountsIn == tx.amountsIn
      ensures WellShaped()
      ensures PaysForAll(tx) ==> NoLess(old(chain.balances), chain.balances, Adapters())
      ensures Exact(tx) ==> Same(old(chain.balances), chain.balances, Adapters())
    {
      hide At, NoLess, Same, Outside, Booked, Carried;
      receipt := NoReceipt;
      match tx {
        case SwapByLoan(_, _, _, _, _, _) => receipt := SwapByLoan(tx);
        case SwapDirectly(_, _, _, _, _, _) => receipt := SwapDirectly(tx);
        case RepayByLoan(_, _, _, _, _, _) => receipt := RepayByLoan(tx);
        case RepayDirectly(_, _, _, _, _, _, _) => receipt := RepayDirectly(tx);
        case LiquidateByLoan(_, _, _, _, _, _) => receipt := LiquidateByLoan(tx);
        case _ => Elsewhere(tx);
      }
    }

    /** All premiums are met, all loans are repaid, and the market charges what it quotes to those who ask. */
    ghost predicate Exact(tx: Tx) {
      PaysForAll(tx) && Repaying(tx) && (tx.RepayByLoan? || tx.RepayDirectly? ==> repayer.base.router.keepsQuotes)
    }

    /** The transactions that leave every adapter with exactly what it had. */
    lemma OrdinarilyExact(tx: Tx)
      ensures tx.SwapDirectly? ==> Exact(tx)
      ensures (tx.SwapByLoan? || tx.LiquidateByLoan?) && (forall m :: m in tx.modes ==> m == 0) ==> Exact(tx)
      ensures repayer.base.router.keepsQuotes && tx.RepayDirectly? ==> Exact(tx)
      ensures repayer.base.router.keepsQuotes && tx.RepayByLoan? && |tx.assets| == 1 && tx.modes == [0] ==> Exact(tx)
      ensures !ByLoan(tx) && !tx.RepayDirectly? ==> Exact(tx)
    {
      if ByLoan(tx) {
        assert forall i :: 0 <= i < |tx.modes| ==> tx.modes[i] in tx.modes;
      }
      if tx.RepayByLoan? && |tx.assets| == 1 {
        SingleLoanPays(tx);
      }
    }

    /**
     Over every run in which flash repayments meet the premiums of their loans, no adapter ever loses a
     token; if moreover all loans are repaid and the market charges what it quotes, every adapter ends
     with exactly what it started with, whatever that was.
     */
    method Run(txs: seq<Tx>) returns (ghost receipts: seq<Receipt>, ghost states: seq<Balances>)
      requires Wired() && WellShaped()
      requires forall tx :: tx in txs ==> Outside(tx, Adapters(), Routers())
      modifies chain, Routers()
      ensures |receipts| == |txs| && |states| == |txs| + 1
      ensures states[0] == old(chain.balances) && states[|txs|] == chain.balances
      ensures forall i :: 0 <= i < |txs| ==> Done(txs[i], receipts[i], states[i], states[i + 1])
      ensures (forall tx :: tx in txs ==> PaysForAll(tx)) ==>
                forall x, h :: h in Adapters() ==>
                                 && At(chain.balances, Underlying(x), h) >= At(old(chain.balances), Underlying(x), h)
                                 && At(chain.balances, ViToken(x), h) >= At(old(chain.balances), ViToken(x), h)
      ensures (forall tx :: tx in txs ==> Exact(tx)) ==>
                forall x, h :: h in Adapters() ==>
                                 && At(chain.balances, Underlying(x), h) == At(old(chain.balances), Underlying(x), h)
                                 && At(chain.balances, ViToken(x), h) == At(old(chain.balances), ViToken(x), h)
    {
      hide At, NoLess, Same, Outside, PaysForAll, Exact, Done;
      receipts, states := [], [chain.balances];
      Untouched(chain.balances, Adapters());
      for i := 0 to |txs|
        invariant WellShaped()
        invariant |receipts| == i && |states| == i + 1
        invariant states[0] == old(chain.balances) && states[i] == chain.balances
        invariant forall k :: 0 <= k < i ==> Done(txs[k], receipts[k], states[k], states[k + 1])
        invariant (forall tx :: tx in txs[..i] ==> PaysForAll(tx)) ==>
            NoLess(old(chain.balances), chain.balances, Adapters())
        invariant (forall tx :: tx in txs[..i] ==> Exact(tx)) ==>
            Same(old(chain.balances), chain.balances, Adapters())
      {
        ghost var before := chain.balances;
        assert txs[i] in txs;
        ghost var receipt := Step(txs[i]);
        receipts, states := receipts + [receipt], states + [chain.balances];
        SameThenSame(old(chain.balances), before, chain.balances, Adapters());
        assert txs[..i + 1] == txs[..i] + [txs[i]];
      }
      assert txs[..|txs|] == txs;
      SameMeans(old(chain.balances), chain.balances, Adapters());
    }
  }

  lemma Untouched(b: Balances, adapters: set<Account>)
    ensures NoLess(b, b, adapters) && Same(b, b, adapters)
  {
  }
}
