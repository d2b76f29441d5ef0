/** `FlashLiquidationAdapter`: liquidates a position with a flash loan and pays it back from the collateral. */
module FlashLiquidation {
  import opened Evm
  import opened Ledger
  import opened Pool
  import opened UniswapBase
  import opened Router

  datatype LiquidationParams = LiquidationParams(
    collateralAsset: Asset,
    borrowedAsset: Asset,
    user: Account,
    debtToCover: uint256,
    useEthPath: bool)

  /**
   One completed liquidation: the pool took `taken` of the borrowed asset and released `seized` of
   the collateral; the trade, if there was one, took some of it for some of the borrowed asset; the
   rest went to the liquidator.
   */
  datatype Liquidation = Liquidation(
    collateral: Asset,
    borrowed: Asset,
    user: Account,
    loan: uint256,
    premium: uint256,
    taken: uint256,
    seized: uint256,
    variable: uint256,
    trade: Trade,
    remaining: uint256)

  /** The liquidator's profit is what the repayment of the loan leaves of the collateral. */
  predicate Consistent(l: Liquidation) {
    && l.variable <= l.taken
    && if l.collateral == l.borrowed
       then l.trade == NO_TRADE && l.remaining + l.taken + l.premium == l.seized
       else l.taken <= l.loan && l.trade.amountOut == l.taken + l.premium && l.remaining + l.trade.amountIn == l.seized
  }

  /** What a liquidation adds to every balance: the adapter is left with the premium alone. */
  function Effect(l: Liquidation, self: Account, initiator: Account, t: Token, h: Account): int {
    Gain(t, h, Underlying(l.borrowed), self, l.premium)
    + Gain(t, h, Underlying(l.collateral), initiator, l.remaining)
    + MarketFlow(l.trade, t, h)
    + Loss(t, h, Underlying(l.collateral), Reserve(l.collateral), l.seized)
    + Gain(t, h, Underlying(l.borrowed), Reserve(l.borrowed), l.taken)
    + Loss(t, h, ViToken(l.collateral), l.user, l.seized)
    + Loss(t, h, VariableDebt(l.borrowed), l.user, l.variable)
    + Loss(t, h, StableDebt(l.borrowed), l.user, l.taken - l.variable)
  }

  lemma AdapterGainsPremium(l: Liquidation, self: Account, initiator: Account)
    requires self.Wallet? && self != initiator && self != l.user
    ensures forall t :: Effect(l, self, initiator, t, self) == if t == Underlying(l.borrowed) then l.premium else 0
  {
  }

  /** The liquidator gets what the repayment of the loan leaves of the collateral, and nothing else. */
  lemma LiquidatorGains(l: Liquidation, self: Account, initiator: Account)
    requires Consistent(l) && initiator.Wallet? && initiator != self
    ensures Effect(l, self, initiator, Underlying(l.collateral), initiator) ==
            if l.collateral != l.borrowed then l.seized - l.trade.amountIn else l.seized - l.taken - l.premium
    ensures forall x :: x != l.collateral ==> Effect(l, self, initiator, Underlying(x), initiator) == 0
  {
  }

  /** The user is relieved of debt and loses collateral, but no underlying moves. */
  lemma UserIsLiquidated(l: Liquidation, self: Account, initiator: Account)
    ensures Effect(l, self, initiator, ViToken(l.collateral), l.user) == -(l.seized as int)
    ensures Effect(l, self, initiator, VariableDebt(l.borrowed), l.user) == -(l.variable as int)
    ensures Effect(l, self, initiator, StableDebt(l.borrowed), l.user) == l.variable - l.taken
    ensures l.user.Wallet? && l.user != self && l.user != initiator ==>
              forall x :: Effect(l, self, initiator, Underlying(x), l.user) == 0
  {
  }

  class FlashLiquidationAdapter {
    const base: BaseUniswapAdapter

    constructor (base: BaseUniswapAdapter)
      ensures this.base == base
    {
      this.base := base;
    }

    ghost function EffectOf(l: Liquidation, initiator: Account): (Token, Account) -> int {
      (t, h) => Effect(l, base.self, initiator, t, h)
    }

    /**
     Liquidates and measures: what the adapter gained of the collateral, and what is left of the
     loan, are differences of its own balances, so tokens it held before are never spent.
     */
    method LiquidateAndMeasure(l: Liquidation, debtToCover: uint256)
      returns (o: Outcome, l': Liquidation, gained: uint256, unspent: uint256)
      requires base.Wired()
      modifies base.chain`balances, base.chain`allowances
      ensures o.Pass? ==>
                && l' == l.(taken := l'.taken, seized := l'.seized, variable := l'.variable)
                && l'.taken <= debtToCover
                && l'.variable as int == Min(l'.taken, At(old(base.chain.balances), VariableDebt(l.borrowed), l.user))
                && (Underlying(l.collateral) in base.chain.everlasting ==> l'.seized < MAX_UINT256)
                && if l.collateral == l.borrowed
                   then gained as int == l'.seized - l'.taken
                   else gained == l'.seized && unspent as int == l.loan - l'.taken
      ensures o.Pass? ==> forall t, h ::
                            At(base.chain.balances, t, h) == At(old(base.chain.balances), t, h)
                            + Loss(t, h, VariableDebt(l.borrowed), l.user, l'.variable)
                            + Loss(t, h, StableDebt(l.borrowed), l.user, l'.taken - l'.variable)
                            + Loss(t, h, ViToken(l.collateral), l.user, l'.seized)
                            + Loss(t, h, Underlying(l.collateral), Reserve(l.collateral), l'.seized)
                            + Gain(t, h, Underlying(l.collateral), base.self, l'.seized)
                            + Loss(t, h, Underlying(l.borrowed), base.self, l'.taken)
                            + Gain(t, h, Underlying(l.borrowed), Reserve(l.borrowed), l'.taken)
    {
      var chain, self := base.chain, base.self;
      l', gained, unspent := l, 0, 0;
      var leftovers: uint256 := 0;
      var initCollateralBalance := At(chain.balances, Underlying(l.collateral), self);
      if l.collateral != l.borrowed {
        leftovers :- Sub(At(chain.balances, Underlying(l.borrowed), self), l.loan);
      }
      chain.Approve(Underlying(l.borrowed), self, base.pool.self, debtToCover);
      var taken, seized, variable :- base.pool.LiquidationCall(l.collateral, l.borrowed, l.user, debtToCover, self);
      gained :- Sub(At(chain.balances, Underlying(l.collateral), self), initCollateralBalance);
      if l.collateral != l.borrowed {
        unspent :- Sub(At(chain.balances, Underlying(l.borrowed), self), leftovers);
      }
      l' := l.(taken := taken, seized := seized, variable := variable);
      o := Pass;
    }

    /**
     The pool may take the debt less what was due already, and with two assets the router keeps an
     allowance of what it did not use of the gain.
     */
    ghost predicate LeavesStanding(a: Allowances, l: Liquidation, due: nat) {
      && Allowed(a, Underlying(l.borrowed), base.self, base.pool.self) as int ==
         Left(Underlying(l.borrowed) in base.chain.everlasting, l.loan + l.premium, due)
      && (l.collateral != l.borrowed ==>
            Allowed(a, Underlying(l.collateral), base.self, base.router.self) == l.remaining)
    }

    method LiquidateAndSwap(collateral: Asset, borrowed: Asset, user: Account, debtToCover: uint256, useEthPath: bool,
                            flashBorrowedAmount: uint256, premium: uint256, initiator: Account)
      returns (o: Outcome, l: Liquidation)
      requires base.Wired()
      modifies base.chain`balances, base.chain`allowances
      ensures o.Pass? && initiator.Wallet? && initiator != base.self ==>
                At(base.chain.balances, Underlying(collateral), initiator) as int ==
                At(old(base.chain.balances), Underlying(collateral), initiator)
                + (if collateral != borrowed then l.seized - l.trade.amountIn else l.seized - l.taken - l.premium)
      ensures o.Pass? && user.Wallet? && user != base.self && user != initiator ==> forall x ::
                At(base.chain.balances, Underlying(x), user) == At(old(base.chain.balances), Underlying(x), user)
      ensures o.Pass? ==> At(base.chain.balances, ViToken(collateral), user) as int ==
                          At(old(base.chain.balances), ViToken(collateral), user) - l.seized
      ensures o.Pass? ==>
                var owed := At(old(base.chain.balances), VariableDebt(borrowed), user);
                && l.variable <= l.taken && l.variable <= owed && (l.variable == l.taken || l.variable == owed)
                && At(base.chain.balances, VariableDebt(borrowed), user) as int == owed - l.variable
                && At(base.chain.balances, StableDebt(borrowed), user) as int ==
                   At(old(base.chain.balances), StableDebt(borrowed), user) - (l.taken - l.variable)
      ensures o.Pass? ==>
                && l.collateral == collateral && l.borrowed == borrowed && l.user == user
                && l.loan == flashBorrowedAmount && l.premium == premium
                && Consistent(l)
                && l.taken <= debtToCover
                && l.variable as int == Min(l.taken, At(old(base.chain.balances), VariableDebt(borrowed), user))
                && (collateral != borrowed ==>
                      && l.trade.path == PathOf(collateral, borrowed, useEthPath, base.weth)
                      && BoughtFairly(base.chain, collateral, borrowed, l.trade.amountIn, l.trade.amountOut))
      ensures o.Pass? ==> forall t, h ::
                            At(base.chain.balances, t, h) == At(old(base.chain.balances), t, h)
                            + Effect(l, base.self, initiator, t, h)
      ensures o.Pass? ==> LeavesStanding(base.chain.allowances, l, 0)
    {
      hide At, Effect, LeavesStanding, BoughtFairly;
      ghost var start := base.chain.balances;
      o, l := LiquidateAndSwapBody(collateral, borrowed, user, debtToCover, useEthPath, flashBorrowedAmount, premium,
        initiator);
      if o.Pass? {
        SharesOut(start, base.chain.balances, l, initiator);
      }
    }

    /** Who gains and who loses what, balance by balance. */
    lemma SharesOut(b: Balances, b': Balances, l: Liquidation, initiator: Account)
      requires Consistent(l)
      requires forall t, h :: At(b', t, h) == At(b, t, h) + Effect(l, base.self, initiator, t, h)
      ensures initiator.Wallet? && initiator != base.self ==>
                At(b', Underlying(l.collateral), initiator) as int ==
                At(b, Underlying(l.collateral), initiator)
                + (if l.collateral != l.borrowed then l.seized - l.trade.amountIn else l.seized - l.taken - l.premium)
      ensures l.user.Wallet? && l.user != base.self && l.user != initiator ==>
                forall x :: At(b', Underlying(x), l.user) == At(b, Underlying(x), l.user)
      ensures At(b', ViToken(l.collateral), l.user) as int == At(b, ViToken(l.collateral), l.user) - l.seized
      ensures At(b', VariableDebt(l.borrowed), l.user) as int == At(b, VariableDebt(l.borrowed), l.user) - l.variable
      ensures At(b', StableDebt(l.borrowed), l.user) as int ==
              At(b, StableDebt(l.borrowed), l.user) - (l.taken - l.variable)
    {
      hide At;
      UserIsLiquidated(l, base.self, initiator);
      if initiator.Wallet? && initiator != base.self {
        LiquidatorGains(l, base.self, initiator);
      }
      hide Effect;
    }

    /** The same over the whole transaction, unless the loan is turned into a debt of the user. */
    lemma SharesOutByLoan(b: Balances, b': Balances, l: Liquidation, initiator: Account, loans: seq<Loan>,
                          onBehalfOf: Account)
      requires Consistent(l)
      requires Booked(b, b', base.self, onBehalfOf, loans, EffectOf(l, initiator))
      ensures initiator.Wallet? && initiator != base.self ==>
                At(b', Underlying(l.collateral), initiator) as int ==
                At(b, Underlying(l.collateral), initiator)
                + (if l.collateral != l.borrowed then l.seized - l.trade.amountIn else l.seized - l.taken - l.premium)
      ensures l.user.Wallet? && l.user != base.self && l.user != initiator ==>
                forall x :: At(b', Underlying(x), l.user) == At(b, Underlying(x), l.user)
      ensures At(b', ViToken(l.collateral), l.user) as int == At(b, ViToken(l.collateral), l.user) - l.seized
      ensures onBehalfOf != l.user || AllRepaid(loans) ==>
                && At(b', VariableDebt(l.borrowed), l.user) as int ==
                   At(b, VariableDebt(l.borrowed), l.user) - l.variable
                && At(b', StableDebt(l.borrowed), l.user) as int ==
                   At(b, StableDebt(l.borrowed), l.user) - (l.taken - l.variable)
    {
      hide At;
      UserIsLiquidated(l, base.self, initiator);
      if initiator.Wallet? && initiator != base.self {
        LiquidatorGains(l, base.self, initiator);
      }
      NoDebtTokenIsViToken(loans, l.collateral);
      if AllRepaid(loans) {
        RepaidOpensNoDebt(loans, VariableDebt(l.borrowed));
        RepaidOpensNoDebt(loans, StableDebt(l.borrowed));
      }
      hide Effect, Borrowed, Lent, Due;
    }

    method LiquidateAndSwapBody(collateral: Asset, borrowed: Asset, user: Account, debtToCover: uint256, useEthPath: bool,
                                flashBorrowedAmount: uint256, premium: uint256, initiator: Account)
      returns (o: Outcome, l: Liquidation)
      requires base.Wired()
      modifies base.chain`balances, base.chain`allowances
      ensures o.Pass? ==>
                && l.collateral == collateral && l.borrowed == borrowed && l.user == user
                && l.loan == flashBorrowedAmount && l.premium == premium
                && Consistent(l)
                && l.taken <= debtToCover
                && l.variable as int == Min(l.taken, At(old(base.chain.balances), VariableDebt(borrowed), user))
                && (collateral != borrowed ==>
                      && l.trade.path == PathOf(collateral, borrowed, useEthPath, base.weth)
                      && BoughtFairly(base.chain, collateral, borrowed, l.trade.amountIn, l.trade.amountOut))
      ensures o.Pass? ==> forall t, h ::
                            At(base.chain.balances, t, h) == At(old(base.chain.balances), t, h)
                            + Effect(l, base.self, initiator, t, h)
      ensures o.Pass? ==> LeavesStanding(base.chain.allowances, l, 0)
    {
      hide Gain, At, MarketFlow, PurchaseBound, BoughtFairly;
      l := Liquidation(collateral, borrowed, user, flashBorrowedAmount, premium, 0, 0, 0, NO_TRADE, 0);
      var flashLoanDebt :- Add(flashBorrowedAmount, premium);
      var gained, unspent;
      l, gained, unspent :- LiquidateAndMeasure(l, debtToCover);
      if collateral != borrowed {
        var missing := flashLoanDebt - unspent; // checked, but what is unspent is within the loan
        var trade :- base.SwapTokensForExactTokens(collateral, borrowed, gained, missing, useEthPath);
        var remaining := gained - trade.amountIn; // checked, but the router respects the maximum
        l := l.(trade := trade, remaining := remaining);
        GainAdds(Underlying(borrowed), base.self, l.taken, premium);
      } else {
        NoTradeNoFlow();
        var remaining :- Sub(gained, premium);
        l := l.(remaining := remaining);
        GainAdds(Underlying(borrowed), base.self, l.taken, premium);
        GainAdds(Underlying(borrowed), base.self, l.taken + premium, remaining);
      }
      GainAdds(Underlying(collateral), base.self, l.trade.amountIn, l.remaining);
      NoGain();
      base.chain.Approve(Underlying(borrowed), base.self, base.pool.self, flashLoanDebt);
      if l.remaining > 0 {
        :- base.chain.Transfer(Underlying(collateral), base.self, initiator, l.remaining);
      }
      o := Pass;
    }

    method ExecuteOperation(sender: Account, assets: seq<Asset>, amounts: seq<uint256>, premiums: seq<uint256>,
                            initiator: Account, params: LiquidationParams)
      returns (o: Outcome, l: Liquidation)
      requires base.Wired()
      modifies base.chain`balances, base.chain`allowances
      ensures o.Pass? ==>
                && sender == base.pool.self
                && |assets| == 1 <= |amounts|
                && 1 <= |premiums|
                && Asked(l, assets[0], amounts[0], premiums[0], params)
                && l.variable as int ==
                   Min(l.taken, At(old(base.chain.balances), VariableDebt(params.borrowedAsset), params.user))
      ensures o.Pass? ==> Carried(old(base.chain.balances), base.chain.balances, EffectOf(l, initiator))
      ensures o.Pass? ==> LeavesStanding(base.chain.allowances, l, 0)
    {
      hide LeavesStanding;
      l := Liquidation(0, 0, initiator, 0, 0, 0, 0, 0, NO_TRADE, 0);
      :- Need(sender == base.pool.self, Unauthorized);
      :- Need(|assets| == 1 && assets[0] == params.borrowedAsset, InconsistentParams);
      :- Need(1 <= |amounts| && 1 <= |premiums|, OutOfBounds);
      l :- LiquidateAndSwap(params.collateralAsset, params.borrowedAsset, params.user, params.debtToCover,
        params.useEthPath, amounts[0], premiums[0], initiator);
      o := Pass;
    }

    ghost predicate Asked(l: Liquidation, asset: Asset, amount: uint256, premium: uint256, params: LiquidationParams)
      reads base.chain`prices
    {
      && (l.collateral != l.borrowed ==>
            && l.trade.path == PathOf(l.collateral, l.borrowed, params.useEthPath, base.weth)
            && BoughtFairly(base.chain, l.collateral, l.borrowed, l.trade.amountIn, l.trade.amountOut))
      && l.borrowed == asset == params.borrowedAsset
      && l.loan == amount && l.premium == premium
      && l.collateral == params.collateralAsset
      && l.user == params.user
      && l.taken <= params.debtToCover
      && Consistent(l)
    }

    ghost predicate Executed(loans: seq<Loan>, l: Liquidation, assets: seq<Asset>, amounts: seq<uint256>,
                             modes: seq<nat>, params: LiquidationParams)
      reads base.chain`prices
    {
      && LoansFor(loans, assets, amounts, modes)
      && |loans| == 1
      && Asked(l, assets[0], amounts[0], loans[0].premium, params)
    }

    /** The pool finds the loan and the premium with the adapter, whatever the liquidation took. */
    lemma AboutToSettle(start: Balances, lent: Balances, b: Balances, a: Allowances, loans: seq<Loan>, l: Liquidation,
                        params: LiquidationParams, initiator: Account)
      requires base.Wired() && initiator != base.self && params.user != base.self
      requires |loans| == 1 && Asked(l, loans[0].asset, loans[0].amount, loans[0].premium, params)
      requires LentOut(start, lent, base.self, loans)
      requires Carried(lent, b, EffectOf(l, initiator))
      requires LeavesStanding(a, l, 0)
      ensures Covered(b, a, base.self, base.pool.self, loans) && Claimable(loans)
    {
    }

    lemma BookedForAdapter(b: Balances, b': Balances, loans: seq<Loan>, l: Liquidation, initiator: Account,
                           onBehalfOf: Account)
      requires base.Wired() && initiator != base.self && l.user != base.self
      requires |loans| == 1
      requires loans[0].asset == l.borrowed && loans[0].amount == l.loan && loans[0].premium == l.premium
      requires Booked(b, b', base.self, onBehalfOf, loans, EffectOf(l, initiator))
      ensures forall x ::
                && At(b', Underlying(x), base.self) == At(b, Underlying(x), base.self) + Kept(loans, x)
                && At(b', ViToken(x), base.self) == At(b, ViToken(x), base.self)
    {
      hide At;
      AdapterGainsPremium(l, base.self, initiator);
      forall x
        ensures At(b', Underlying(x), base.self) == At(b, Underlying(x), base.self) + Kept(loans, x)
        ensures At(b', ViToken(x), base.self) == At(b, ViToken(x), base.self)
      {
        OneLoan(loans, x);
        NoDebtTokenIsViToken(loans, x);
      }
    }

    method FlashLoanBody(initiator: Account, assets: seq<Asset>, amounts: seq<uint256>, modes: seq<nat>,
                         onBehalfOf: Account, params: LiquidationParams)
      returns (o: Outcome, loans: seq<Loan>, l: Liquidation)
      requires base.Wired() && initiator != base.self && params.user != base.self
      modifies base.chain`balances, base.chain`allowances
      ensures o.Pass? ==>
                l.variable as int ==
                Min(l.taken, At(old(base.chain.balances), VariableDebt(params.borrowedAsset), params.user))
      ensures o.Pass? ==>
                && Executed(loans, l, assets, amounts, modes, params)
                && Booked(old(base.chain.balances), base.chain.balances, base.self, onBehalfOf, loans,
                          EffectOf(l, initiator))
                && BorrowsArePositive(loans)
                && LeavesStanding(base.chain.allowances, l, loans[0].Due())
    {
      loans, l := [], Liquidation(0, 0, initiator, 0, 0, 0, 0, 0, NO_TRADE, 0);
      hide Allowed, AllRepaid, Asked, LentOut, Carried, Booked, LeavesStanding, BorrowsArePositive;
      ghost var start := base.chain.balances;
      loans :- base.pool.Lend(base.self, assets, amounts, modes);
      ghost var lent := base.chain.balances;
      l :- ExecuteOperation(base.pool.self, assets, amounts, PremiumsOf(loans), initiator, params);
      o := SettleLiquidation(loans, l, params, initiator, onBehalfOf, start, lent);
    }

    /**
     The end of `flashLoan`, from where the callback leaves the adapter: nothing stops the repayment,
     and only a borrow may be rejected.
     */
    method SettleLiquidation(loans: seq<Loan>, l: Liquidation, params: LiquidationParams, initiator: Account,
                             onBehalfOf: Account, ghost start: Balances, ghost lent: Balances)
      returns (o: Outcome)
      requires base.Wired() && initiator != base.self && params.user != base.self
      requires |loans| == 1 && Asked(l, loans[0].asset, loans[0].amount, loans[0].premium, params)
      requires LentOut(start, lent, base.self, loans)
      requires Carried(lent, base.chain.balances, EffectOf(l, initiator))
      requires LeavesStanding(base.chain.allowances, l, 0)
      modifies base.chain`balances, base.chain`allowances
      ensures o.Pass? ==> Booked(start, base.chain.balances, base.self, onBehalfOf, loans, EffectOf(l, initiator))
      ensures o.Pass? ==> BorrowsArePositive(loans) && LeavesStanding(base.chain.allowances, l, loans[0].Due())
      ensures GoesThrough(o, loans)
      ensures (forall loan :: loan in loans ==> loan.mode == 0) ==> o.Pass? || o.reason == CreditOverflow
    {
      ghost var served := base.chain.balances;
      AboutToSettle(start, lent, served, base.chain.allowances, loans, l, params, initiator);
      assert loans[0].Due() == Due(loans, l.borrowed) by {
        OneLoan(loans, l.borrowed);
      }
      hide Covered, Claimable, Asked, LentOut, Carried, Booked, Settled, Due;
      o := base.pool.Settle(base.self, loans, onBehalfOf);
      if o.Pass? {
        BookedThrough(start, lent, served, base.chain.balances, base.self, onBehalfOf, loans, EffectOf(l, initiator));
      }
    }

    /**
     The whole transaction, for one asset or for two. When it completes with the loan repaid, the
     adapter holds exactly what it held before.
     */
    method FlashLoan(initiator: Account, assets: seq<Asset>, amounts: seq<uint256>, modes: seq<nat>,
                     onBehalfOf: Account, params: LiquidationParams)
      returns (o: Outcome, loans: seq<Loan>, l: Liquidation)
      requires base.Wired() && initiator != base.self && params.user != base.self
      modifies base.chain`balances, base.chain`allowances
      ensures o.Pass? && (forall loan :: loan in loans ==> loan.mode == 0) && l.loan + l.premium < MAX_UINT256 ==>
                Allowed(base.chain.allowances, Underlying(params.borrowedAsset), base.self, base.pool.self) == 0
      ensures o.Pass? && (forall loan :: loan in loans ==> loan.mode != 0) ==>
                Allowed(base.chain.allowances, Underlying(params.borrowedAsset), base.self, base.pool.self) as int ==
                l.loan + l.premium
      ensures o.Pass? ==> l.taken <= params.debtToCover
      ensures o.Pass? && params.collateralAsset != params.borrowedAsset ==>
                && 0 < |amounts| && l.taken <= amounts[0]
                && l.trade.amountOut == l.taken + l.premium && l.trade.amountIn <= l.seized
                && (params.useEthPath <==> |l.trade.path| == 3)
      ensures o.Pass? && initiator.Wallet? && initiator != base.self ==>
                At(base.chain.balances, Underlying(params.collateralAsset), initiator) as int ==
                At(old(base.chain.balances), Underlying(params.collateralAsset), initiator)
                + (if params.collateralAsset != params.borrowedAsset then l.seized - l.trade.amountIn
                   else l.seized - l.taken - l.premium)
      ensures o.Pass? && params.user.Wallet? && params.user != base.self && params.user != initiator ==> forall x ::
                At(base.chain.balances, Underlying(x), params.user) ==
                At(old(base.chain.balances), Underlying(x), params.user)
      ensures o.Pass? ==> At(base.chain.balances, ViToken(params.collateralAsset), params.user) as int ==
                          At(old(base.chain.balances), ViToken(params.collateralAsset), params.user) - l.seized
      ensures o.Pass? && (onBehalfOf != params.user || forall loan :: loan in loans ==> loan.mode == 0) ==>
                var owed := At(old(base.chain.balances), VariableDebt(params.borrowedAsset), params.user);
                && l.variable <= l.taken && l.variable <= owed && (l.variable == l.taken || l.variable == owed)
                && At(base.chain.balances, VariableDebt(params.borrowedAsset), params.user) as int == owed - l.variable
                && At(base.chain.balances, StableDebt(params.borrowedAsset), params.user) as int ==
                   At(old(base.chain.balances), StableDebt(params.borrowedAsset), params.user) - (l.taken - l.variable)
      ensures o.Revert? ==> base.chain.balances == old(base.chain.balances)
      ensures o.Revert? ==> base.chain.allowances == old(base.chain.allowances)
      ensures o.Pass? ==>
                && Executed(loans, l, assets, amounts, modes, params)
                && Booked(old(base.chain.balances), base.chain.balances, base.self, onBehalfOf, loans,
                          EffectOf(l, initiator))
      ensures o.Pass? ==> forall x ::
                            && At(base.chain.balances, Underlying(x), base.self) ==
                               At(old(base.chain.balances), Underlying(x), base.self) + Kept(loans, x)
                            && At(base.chain.balances, ViToken(x), base.self) ==
                               At(old(base.chain.balances), ViToken(x), base.self)
      ensures o.Pass? ==>
                ((forall x :: At(base.chain.balances, Underlying(x), base.self) ==
                              At(old(base.chain.balances), Underlying(x), base.self)) <==> AllRepaid(loans))
      ensures o.Pass? ==> LeavesStanding(base.chain.allowances, l, loans[0].Due())
    {
      hide At, Booked, Kept, BorrowsArePositive, BoughtFairly;
      var balances, allowances := base.chain.balances, base.chain.allowances;
      o, loans, l := FlashLoanBody(initiator, assets, amounts, modes, onBehalfOf, params);
      if o.Revert? {
        base.chain.balances, base.chain.allowances := balances, allowances;
      } else {
        BookedForAdapter(balances, base.chain.balances, loans, l, initiator, onBehalfOf);
        UnchangedIff(balances, base.chain.balances, base.self, loans);
        assert loans[0] in loans;
        SharesOutByLoan(balances, base.chain.balances, l, initiator, loans, onBehalfOf);
      }
    }
  }
}
