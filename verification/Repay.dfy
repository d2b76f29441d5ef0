/** `UniswapRepayAdapter`: repays a user's debt with the user's collateral. */
module Repay {
  import opened Evm
  import opened Ledger
  import opened Pool
  import opened UniswapBase
  import opened Router

  datatype RepayParams = RepayParams(collateralAsset: Asset, collateralAmount: uint256, rateMode: nat, useEthPath: bool)

  /**
   One completed repayment: `repaid` of the debt were paid off with `pulled` of the collateral; the
   trade, if there was one, took some of that and gave some of the debt asset.
   */
  datatype Repayment = Repayment(
    collateral: Asset,
    debt: Asset,
    mode: nat,
    amount: uint256,
    premium: uint256,
    repaid: uint256,
    pulled: uint256,
    trade: Trade)

  /** With one asset nothing is swapped; with two the market provides what was repaid and the premium. */
  predicate Consistent(r: Repayment) {
    && r.repaid <= r.amount
    && if r.collateral == r.debt
       then r.trade == NO_TRADE && r.pulled == r.repaid + r.premium
       else r.trade.amountIn <= r.pulled && r.trade.amountOut == r.repaid + r.premium
  }

  /** The collateral pulled is at most the share of the cap that was really repaid. */
  predicate WithinCap(r: Repayment, collateralAmount: nat) {
    r.collateral != r.debt ==> r.pulled * r.amount <= collateralAmount * r.repaid
  }

  /** What a repayment adds to every balance. */
  function Effect(r: Repayment, self: Account, user: Account, t: Token, h: Account): int {
    Gain(t, h, Underlying(r.collateral), self, r.pulled - r.trade.amountIn)
    + Gain(t, h, Underlying(r.debt), self, r.trade.amountOut - r.repaid)
    + MarketFlow(r.trade, t, h)
    + Loss(t, h, Underlying(r.collateral), Reserve(r.collateral), r.pulled)
    + Gain(t, h, Underlying(r.debt), Reserve(r.debt), r.repaid)
    + Loss(t, h, ViToken(r.collateral), user, r.pulled)
    + Loss(t, h, DebtToken(r.debt, r.mode), user, r.repaid)
  }

  /** What the market left of a quote. */
  function Unspent(r: Repayment, x: Asset): int {
    if x == r.collateral && r.collateral != r.debt then r.pulled - r.trade.amountIn else 0
  }

  /** What stays with the adapter: that, and the premium. */
  function Leftover(r: Repayment, x: Asset): int {
    (if x == r.debt then r.premium else 0) + Unspent(r, x)
  }

  /** What the pool may take once the callback is done: the debt of the loan that was served. */
  function Standing(r: Repayment, x: Asset, initial: nat): nat {
    if x == r.debt then r.amount + r.premium else initial
  }

  // ---- several loans, of which the callback serves the first

  predicate Serves(r: Repayment, loans: seq<Loan>) {
    && |loans| > 0
    && loans[0].asset == r.debt && loans[0].amount == r.amount && loans[0].premium == r.premium
  }

  /** What the adapter's balance of `x` changes by when such loans are settled. */
  function Change(loans: seq<Loan>, r: Repayment, x: Asset): int
    requires |loans| > 0
  {
    Kept(loans, x) - Premiums(loans[1..], x) + Unspent(r, x)
  }

  /** The premiums of the other loans are made up for by loans that are not repaid. */
  ghost predicate PremiumsMet(loans: seq<Loan>) {
    |loans| > 0 ==> forall x :: Premiums(loans[1..], x) <= Kept(loans, x)
  }

  /** With nothing unspent that condition is exact; what is unspent can only help. */
  lemma PremiumsMetIff(loans: seq<Loan>, r: Repayment)
    requires |loans| > 0 && Consistent(r)
    ensures PremiumsMet(loans) ==> forall x :: 0 <= Change(loans, r, x)
    ensures (forall x :: Unspent(r, x) == 0) && (forall x :: 0 <= Change(loans, r, x)) ==> PremiumsMet(loans)
  {
    hide Kept, Premiums, Unspent;
    forall x ensures 0 <= Unspent(r, x) {
      UnspentIsNat(r, x);
    }
    if (forall x :: Unspent(r, x) == 0) && (forall x :: 0 <= Change(loans, r, x)) {
      forall x ensures Premiums(loans[1..], x) <= Kept(loans, x) {
        assert 0 <= Change(loans, r, x);
      }
    }
  }

  lemma UnspentIsNat(r: Repayment, x: Asset)
    requires Consistent(r)
    ensures 0 <= Unspent(r, x)
  {
  }

  /**
   What the pool needs to find, given the balances and allowances before the transaction: beyond the
   debt of the first loan, only an allowance that was there before can pay.
   */
  ghost predicate Settleable(loans: seq<Loan>, r: Repayment, b: Balances, a: Allowances, self: Account, pool: Account) {
    forall x ::
      && Due(loans, x) <= At(b, Underlying(x), self) + Lent(loans, x) + Leftover(r, x)
      && Due(loans, x) <= Standing(r, x, Allowed(a, Underlying(x), self, pool))
  }

  /** If all the other loans are turned into borrows, the pool needs nothing else. */
  lemma FirstIsSettleable(loans: seq<Loan>, r: Repayment, b: Balances, a: Allowances, self: Account, pool: Account)
    requires Serves(r, loans) && Consistent(r)
    requires forall l :: l in loans[1..] ==> l.mode != 0
    ensures Settleable(loans, r, b, a, self, pool)
  {
    forall x
      ensures Due(loans, x) <= At(b, Underlying(x), self) + Lent(loans, x) + Leftover(r, x)
      ensures Due(loans, x) <= Standing(r, x, Allowed(a, Underlying(x), self, pool))
    {
      FirstAndRest(loans, x);
      BorrowedAreNotDue(loans[1..], x);
      UnspentIsNat(r, x);
    }
  }

  lemma AdapterKeepsLeftover(r: Repayment, self: Account, user: Account)
    requires Consistent(r) && self.Wallet? && self != user
    ensures forall x :: Effect(r, self, user, Underlying(x), self) == Leftover(r, x)
    ensures forall t: Token :: !t.Underlying? ==> Effect(r, self, user, t, self) == 0
  {
  }

  /** What the user pays and is relieved of, balance by balance. */
  lemma UserPays(r: Repayment, self: Account, user: Account)
    requires r.mode == 1 || r.mode == 2
    ensures Effect(r, self, user, ViToken(r.collateral), user) == -(r.pulled as int)
    ensures Effect(r, self, user, StableDebt(r.debt), user) == if r.mode == 1 then -(r.repaid as int) else 0
    ensures Effect(r, self, user, VariableDebt(r.debt), user) == if r.mode == 2 then -(r.repaid as int) else 0
  {
  }

  /** With two assets, what the reserves get and give. */
  lemma ReservesTrade(r: Repayment, self: Account, user: Account)
    requires r.collateral != r.debt && self.Wallet?
    ensures Effect(r, self, user, Underlying(r.debt), Reserve(r.debt)) == r.repaid
    ensures Effect(r, self, user, Underlying(r.collateral), Reserve(r.collateral)) == -(r.pulled as int)
  {
  }

  /** The cap on the collateral, scaled down by `repaid / amount` when only part was repaid. */
  method ScaledCap(collateralAmount: uint256, repaid: uint256, amount: uint256) returns (o: Outcome, cap: uint256)
    requires repaid <= amount
    ensures o.Pass? ==> cap * amount <= collateralAmount * repaid
    ensures o.Pass? && 0 < amount ==> collateralAmount * repaid < (cap + 1) * amount
  {
    cap := collateralAmount;
    if repaid < amount {
      var product :- Mul(cap, repaid);
      cap :- Div(product, amount);
      FloorBounds(product, amount);
    }
    assert (cap + 1) * amount == cap * amount + amount;
    o := Pass;
  }

  lemma CapScales(pulled: nat, cap: nat, amount: nat)
    requires pulled <= cap
    ensures pulled * amount <= cap * amount
  {
  }

  // ---- an instance

  const TWO_LOANS := [Loan(1, 10000, 9, 0), Loan(2, 10000, 9, 0)]
  const FIRST_REPAID := Repayment(1, 1, VARIABLE, 10000, 9, 10000, 10009, NO_TRADE)

  lemma TwoLoansSums()
    ensures forall x :: Lent(TWO_LOANS, x) == if x == 1 || x == 2 then 10000 else 0
    ensures forall x :: Due(TWO_LOANS, x) == if x == 1 || x == 2 then 10009 else 0
    ensures forall t :: Borrowed(TWO_LOANS, t) == 0
  {
    forall x
      ensures Lent(TWO_LOANS, x) == if x == 1 || x == 2 then 10000 else 0
      ensures Due(TWO_LOANS, x) == if x == 1 || x == 2 then 10009 else 0
    {
      FirstAndRest(TWO_LOANS, x);
      OneLoan(TWO_LOANS[1..], x);
    }
    assert TWO_LOANS[..1] == [Loan(1, 10000, 9, 0)];
    forall t ensures Borrowed(TWO_LOANS, t) == 0 {
      OneLoanBorrowed(TWO_LOANS[..1], t);
    }
  }

  /** A stable debt of 100 is repaid with as much of the same asset, and the variable debt beside it stays. */
  lemma StableDebtIsRepaid(self: Account, user: Account, t: Token, h: Account)
    requires self.Wallet? && user.Wallet? && self != user
    ensures
      var r := Repayment(1, 1, 1, 100, 0, 100, 100, NO_TRADE);
      var b: Balances := map[(StableDebt(1), user) := 100, (VariableDebt(1), user) := 40, (ViToken(1), user) := 100];
      var b': Balances := map[(VariableDebt(1), user) := 40];
      Consistent(r) && At(b', t, h) == At(b, t, h) + Effect(r, self, user, t, h)
  {
  }

  class UniswapRepayAdapter {
    const base: BaseUniswapAdapter

    constructor (base: BaseUniswapAdapter)
      ensures this.base == base
    {
      this.base := base;
    }

    ghost function EffectOf(r: Repayment, user: Account): (Token, Account) -> int {
      (t, h) => Effect(r, base.self, user, t, h)
    }

    /** What was pulled is the router's quote, and what was paid of it is within the oracle's bound. */
    ghost predicate Priced(r: Repayment, useEthPath: bool)
      reads base.chain`prices, base.router
      requires base.router.WellShaped()
    {
      r.collateral != r.debt ==>
        && r.trade.amountOut == r.repaid + r.premium
        && r.trade.path == PathOf(r.collateral, r.debt, useEthPath, base.weth)
        && (var key := (r.trade.amountOut, r.trade.path);
            key in base.router.amountsIn && r.pulled == base.router.amountsIn[key][0])
        && (base.router.keepsQuotes ==> r.trade.amountIn == r.pulled)
        && BoughtFairly(base.chain, r.collateral, r.debt, r.trade.amountIn, r.trade.amountOut)
    }

    /** The collateral side: pull exactly what the router quotes for `needed`, and swap it. */
    method PullAndBuy(collateral: Asset, debt: Asset, needed: uint256, cap: uint256, user: Account, useEthPath: bool)
      returns (o: Outcome, pulled: uint256, trade: Trade)
      requires base.Wired() && base.router.WellShaped()
      modifies base.chain`balances, base.chain`allowances
      ensures o.Pass? ==>
                && trade.path == PathOf(collateral, debt, useEthPath, base.weth)
                && trade.amountIn <= pulled <= cap
                && (base.router.keepsQuotes ==> trade.amountIn == pulled)
                && trade.amountOut == needed
                && var key := (needed, PathOf(collateral, debt, useEthPath, base.weth));
                key in base.router.amountsIn && pulled == base.router.amountsIn[key][0]
      ensures o.Pass? ==> BoughtFairly(base.chain, collateral, debt, trade.amountIn, needed)
      ensures o.Pass? ==> forall t, h ::
                            At(base.chain.balances, t, h) == At(old(base.chain.balances), t, h)
                            + Gain(t, h, Underlying(collateral), base.self, pulled - trade.amountIn)
                            + Gain(t, h, Underlying(debt), base.self, needed)
                            + MarketFlow(trade, t, h)
                            + Loss(t, h, Underlying(collateral), Reserve(collateral), pulled)
                            + Loss(t, h, ViToken(collateral), user, pulled)
      ensures o.Pass? ==>
                && pulled <= Allowed(old(base.chain.allowances), ViToken(collateral), user, base.self)
                && base.chain.allowances == old(base.chain.allowances)
                  [(ViToken(collateral), user, base.self) :=
                    Allowed(old(base.chain.allowances), ViToken(collateral), user, base.self) - pulled]
                  [(Underlying(collateral), base.self, base.router.self) := pulled - trade.amountIn]
    {
      hide Gain, At, MarketFlow, PurchaseBound, BoughtFairly;
      pulled, trade := 0, NO_TRADE;
      pulled :- base.GetAmountsIn(collateral, debt, needed, useEthPath);
      :- Need(pulled <= cap, Slippage);
      :- base.PullViToken(collateral, user, pulled);
      trade :- base.SwapTokensForExactTokens(collateral, debt, pulled, needed, useEthPath);
      GainAdds(Underlying(collateral), base.self, pulled - trade.amountIn, trade.amountIn);
      o := Pass;
    }

    /** Takes from the user what pays for `repaid` of the debt and the premium. */
    method TakeCollateral(r: Repayment, collateralAmount: uint256, user: Account, useEthPath: bool)
      returns (o: Outcome, r': Repayment)
      requires base.Wired() && base.router.WellShaped()
      requires r.repaid <= r.amount
      modifies base.chain`balances, base.chain`allowances
      ensures o.Pass? ==>
                && r' == r.(pulled := r'.pulled, trade := r'.trade)
                && Consistent(r')
                && WithinCap(r', collateralAmount)
                && Priced(r', useEthPath)
      ensures o.Pass? ==> forall t, h ::
                            At(base.chain.balances, t, h) == At(old(base.chain.balances), t, h)
                            + Gain(t, h, Underlying(r.collateral), base.self, r'.pulled - r'.trade.amountIn)
                            + Gain(t, h, Underlying(r.debt), base.self, r'.trade.amountOut)
                            + MarketFlow(r'.trade, t, h)
                            + Loss(t, h, Underlying(r.collateral), Reserve(r.collateral), r'.pulled)
                            + Loss(t, h, ViToken(r.collateral), user, r'.pulled)
      ensures o.Pass? ==> forall x ::
                            Allowed(base.chain.allowances, Underlying(x), base.self, base.pool.self) ==
                            Allowed(old(base.chain.allowances), Underlying(x), base.self, base.pool.self)
    {
      hide Gain, At, MarketFlow, PurchaseBound, BoughtFairly;
      r' := r;
      var needed :- Add(r.repaid, r.premium);
      if r.collateral != r.debt {
        var cap :- ScaledCap(collateralAmount, r.repaid, r.amount);
        var pulled, trade :- PullAndBuy(r.collateral, r.debt, needed, cap, user, useEthPath);
        CapScales(pulled, cap, r.amount);
        r' := r.(pulled := pulled, trade := trade);
      } else {
        :- base.PullViToken(r.collateral, user, needed);
        r' := r.(pulled := needed, trade := NO_TRADE);
        NoGain();
        NoTradeNoFlow();
      }
      o := Pass;
    }

    /** The loan callback: repay first, then take the collateral that pays the loan back. */
    method SwapAndRepayLoan(collateral: Asset, debt: Asset, amount: uint256, collateralAmount: uint256, mode: nat,
                            initiator: Account, premium: uint256, useEthPath: bool)
      returns (o: Outcome, r: Repayment)
      requires base.Wired() && base.router.WellShaped()
      modifies base.chain`balances, base.chain`allowances
      ensures o.Pass? ==>
                && r.collateral == collateral && r.debt == debt && r.mode == mode
                && r.amount == amount && r.premium == premium
                && Consistent(r)
                && WithinCap(r, collateralAmount)
                && (mode == STABLE || mode == VARIABLE)
                && 0 < r.repaid as int == Min(amount, At(old(base.chain.balances), DebtToken(debt, mode), initiator))
                && Priced(r, useEthPath)
      ensures o.Pass? ==> forall t, h ::
                            At(base.chain.balances, t, h) == At(old(base.chain.balances), t, h)
                            + Effect(r, base.self, initiator, t, h)
      ensures o.Pass? ==>
                LeavesStanding(old(base.chain.allowances), base.chain.allowances, r)
    {
      var chain, self := base.chain, base.self;
      r := Repayment(collateral, debt, mode, amount, premium, 0, 0, NO_TRADE);
      chain.ResetAndApprove(Underlying(debt), self, base.pool.self, amount);
      var repaidAmount :- RepayAndMeasure(debt, amount, mode, initiator);
      hide Gain, At, MarketFlow, WithinCap, Priced;
      r :- TakeCollateral(r.(repaid := repaidAmount), collateralAmount, initiator, useEthPath);
      GainAdds(Underlying(debt), self, r.trade.amountOut - r.repaid, r.repaid);
      var flashLoanDebt :- Add(amount, premium);
      chain.ResetAndApprove(Underlying(debt), self, base.pool.self, flashLoanDebt);
      o := Pass;
    }

    ghost predicate LeavesStanding(a: Allowances, a': Allowances, r: Repayment) {
      forall x :: Allowed(a', Underlying(x), base.self, base.pool.self) as nat ==
                  Standing(r, x, Allowed(a, Underlying(x), base.self, base.pool.self))
    }

    /** What the pool accepted, as the change of the adapter's own balance. */
    method RepayAndMeasure(debt: Asset, amount: uint256, mode: nat, user: Account) returns (o: Outcome, repaid: uint256)
      requires base.Wired()
      modifies base.chain`balances, base.chain`allowances
      ensures o.Pass? ==> mode == STABLE || mode == VARIABLE
      ensures o.Pass? ==> 0 < repaid as int == Min(amount, At(old(base.chain.balances), DebtToken(debt, mode), user))
      ensures o.Pass? ==> forall t, h ::
                            At(base.chain.balances, t, h) == At(old(base.chain.balances), t, h)
                            + Loss(t, h, DebtToken(debt, mode), user, repaid)
                            + Loss(t, h, Underlying(debt), base.self, repaid)
                            + Gain(t, h, Underlying(debt), Reserve(debt), repaid)
      ensures o.Pass? ==> forall x :: x != debt ==>
                                        Allowed(base.chain.allowances, Underlying(x), base.self, base.pool.self) ==
                                        Allowed(old(base.chain.allowances), Underlying(x), base.self, base.pool.self)
    {
      repaid := At(base.chain.balances, Underlying(debt), base.self);
      var accepted :- base.pool.Repay(debt, amount, mode, user, base.self);
      repaid := repaid - At(base.chain.balances, Underlying(debt), base.self); // checked, but the balance only fell
      assert repaid == accepted;
      o := Pass;
    }

    method ExecuteOperation(sender: Account, assets: seq<Asset>, amounts: seq<uint256>, premiums: seq<uint256>,
                            initiator: Account, params: RepayParams)
      returns (o: Outcome, r: Repayment)
      requires base.Wired() && base.router.WellShaped()
      modifies base.chain`balances, base.chain`allowances
      ensures o.Pass? ==>
                && sender == base.pool.self
                && 0 < |assets| && 0 < |amounts| && 0 < |premiums|
                && r.debt == assets[0] && r.amount == amounts[0] && r.premium == premiums[0]
                && Consistent(r)
                && Asked(r, assets[0], amounts[0], premiums[0], params)
                && RepaidOf(r, old(base.chain.balances), initiator)
      ensures o.Pass? ==> Carried(old(base.chain.balances), base.chain.balances, EffectOf(r, initiator))
      ensures o.Pass? ==>
                LeavesStanding(old(base.chain.allowances), base.chain.allowances, r)
    {
      hide LeavesStanding;
      r := Repayment(0, 0, 0, 0, 0, 0, 0, NO_TRADE);
      :- Need(sender == base.pool.self, Unauthorized);
      :- Need(0 < |assets| && 0 < |amounts| && 0 < |premiums|, OutOfBounds);
      r :- SwapAndRepayLoan(params.collateralAsset, assets[0], amounts[0], params.collateralAmount, params.rateMode,
        initiator, premiums[0], params.useEthPath);
      o := Pass;
    }

    /** As much as the user owed is repaid, up to what was asked. */
    ghost predicate RepaidOf(r: Repayment, b: Balances, user: Account) {
      && (r.mode == STABLE || r.mode == VARIABLE)
      && 0 < r.repaid as int == Min(r.amount, At(b, DebtToken(r.debt, r.mode), user))
    }

    ghost predicate Asked(r: Repayment, debt: Asset, amount: uint256, premium: uint256, params: RepayParams)
      reads base.chain`prices, base.router
      requires base.router.WellShaped()
    {
      && Priced(r, params.useEthPath)
      && r.debt == debt && r.amount == amount && r.premium == premium
      && r.collateral == params.collateralAsset && r.mode == params.rateMode
      && Consistent(r)
      && WithinCap(r, params.collateralAmount)
    }

    method FlashLoanBody(initiator: Account, assets: seq<Asset>, amounts: seq<uint256>, modes: seq<nat>,
                         onBehalfOf: Account, params: RepayParams)
      returns (o: Outcome, loans: seq<Loan>, r: Repayment)
      requires base.Wired() && base.router.WellShaped() && initiator != base.self
      modifies base.chain`balances, base.chain`allowances
      ensures o.Pass? ==>
                && Executed(loans, r, assets, amounts, modes, params, old(base.chain.balances), initiator)
                && Closed(old(base.chain.balances), old(base.chain.allowances), loans, r, initiator, onBehalfOf)
    {
      loans, r := [], Repayment(0, 0, 0, 0, 0, 0, 0, NO_TRADE);
      hide At, Allowed, Asked, Consistent, RepaidOf, LeavesStanding, Settleable, LentOut, Carried, Booked, Closed;
      ghost var start, initial := base.chain.balances, base.chain.allowances;
      loans :- base.pool.Lend(base.self, assets, amounts, modes);
      ghost var lent := base.chain.balances;
      r :- ExecuteOperation(base.pool.self, assets, amounts, PremiumsOf(loans), initiator, params);
      RepaidBefore(r, start, lent, loans, initiator);
      assert Executed(loans, r, assets, amounts, modes, params, start, initiator);
      assert Serves(r, loans);
      hide Executed;
      o := SettleRepayment(loans, r, initiator, onBehalfOf, start, lent, initial);
    }

    /** Balances and allowances after the transaction, from those before it. */
    ghost predicate Closed(b: Balances, a: Allowances, loans: seq<Loan>, r: Repayment, initiator: Account,
                           onBehalfOf: Account)
      reads base.chain
    {
      && Booked(b, base.chain.balances, base.self, onBehalfOf, loans, EffectOf(r, initiator))
      && Settleable(loans, r, b, a, base.self, base.pool.self)
      && forall x :: Allowed(base.chain.allowances, Underlying(x), base.self, base.pool.self) as int ==
                     Left(Underlying(x) in base.chain.everlasting,
                          Standing(r, x, Allowed(a, Underlying(x), base.self, base.pool.self)), Due(loans, x))
    }

    /**
     The end of `flashLoan`, from where the callback leaves the adapter. It completes only if the loans
     are settleable, and if they are, nothing but a rejected borrow can stop it.
     */
    method SettleRepayment(loans: seq<Loan>, r: Repayment, initiator: Account, onBehalfOf: Account,
                           ghost start: Balances, ghost lent: Balances, ghost initial: Allowances)
      returns (o: Outcome)
      requires base.Wired() && initiator != base.self
      requires Serves(r, loans) && Consistent(r)
      requires LentOut(start, lent, base.self, loans)
      requires Carried(lent, base.chain.balances, EffectOf(r, initiator))
      requires LeavesStanding(initial, base.chain.allowances, r)
      modifies base.chain`balances, base.chain`allowances
      ensures o.Pass? ==> Closed(start, initial, loans, r, initiator, onBehalfOf)
      ensures Settleable(loans, r, start, initial, base.self, base.pool.self) && Claimable(loans) ==> GoesThrough(o, loans)
      ensures |loans| == 1 && AllRepaid(loans) ==> o.Pass? || o.reason == CreditOverflow
    {
      hide At, Lent, Due, Borrowed, Settleable, LentOut, Carried, Booked, Covered, Claimable, Effect, Settled, AllRepaid;
      ghost var served, standing := base.chain.balances, base.chain.allowances;
      assert forall x :: Allowed(standing, Underlying(x), base.self, base.pool.self) as nat ==
                         Standing(r, x, Allowed(initial, Underlying(x), base.self, base.pool.self));
      AboutToSettle(start, lent, served, initial, standing, loans, r, initiator);
      if |loans| == 1 {
        FirstIsSettleable(loans, r, start, initial, base.self, base.pool.self);
      }
      hide Allowed, Standing, LeavesStanding, Consistent;
      o := base.pool.Settle(base.self, loans, onBehalfOf);
      if o.Pass? {
        BookedThrough(start, lent, served, base.chain.balances, base.self, onBehalfOf, loans, EffectOf(r, initiator));
      }
    }

    /** Paying out the loans moves no debt tokens. */
    lemma RepaidBefore(r: Repayment, b: Balances, lent: Balances, loans: seq<Loan>, initiator: Account)
      requires LentOut(b, lent, base.self, loans)
      requires RepaidOf(r, lent, initiator)
      ensures RepaidOf(r, b, initiator)
    {
    }

    /** The pool finds what it needs exactly if the loans are settleable. */
    lemma AboutToSettle(start: Balances, lent: Balances, b: Balances, initial: Allowances, a: Allowances,
                        loans: seq<Loan>, r: Repayment, initiator: Account)
      requires base.Wired() && initiator != base.self
      requires Serves(r, loans) && Consistent(r)
      requires LentOut(start, lent, base.self, loans)
      requires Carried(lent, b, EffectOf(r, initiator))
      requires LeavesStanding(initial, a, r)
      ensures |loans| == 1 ==> Claimable(loans)
      ensures Covered(b, a, base.self, base.pool.self, loans) <==>
              Settleable(loans, r, start, initial, base.self, base.pool.self)
    {
      assert r.amount + r.premium == Allowed(a, Underlying(r.debt), base.self, base.pool.self);
      hide At, Lent, Due, Standing, Leftover;
      AdapterKeepsLeftover(r, base.self, initiator);
      assert forall x :: At(b, Underlying(x), base.self) as int ==
                         At(start, Underlying(x), base.self) + Lent(loans, x) + Leftover(r, x);
    }

    ghost predicate Executed(loans: seq<Loan>, r: Repayment, assets: seq<Asset>, amounts: seq<uint256>, modes: seq<nat>,
                             params: RepayParams, b: Balances, initiator: Account)
      reads base.chain`prices, base.router
      requires base.router.WellShaped()
    {
      && LoansFor(loans, assets, amounts, modes)
      && 0 < |loans|
      && Asked(r, assets[0], amounts[0], loans[0].premium, params)
      && RepaidOf(r, b, initiator)
    }

    /**
     The whole transaction, for any list of loans: the callback serves the first one, and what the
     adapter's balances change by is given exactly.
     */
    method FlashLoan(initiator: Account, assets: seq<Asset>, amounts: seq<uint256>, modes: seq<nat>,
                     onBehalfOf: Account, params: RepayParams)
      returns (o: Outcome, loans: seq<Loan>, r: Repayment)
      requires base.Wired() && base.router.WellShaped() && initiator != base.self
      modifies base.chain`balances, base.chain`allowances
      ensures o.Pass? ==> 0 < |assets| && 0 < |amounts| && r.premium as int == amounts[0] as int * 9 / 10000
      ensures o.Pass? ==> params.rateMode == 1 || params.rateMode == 2
      ensures o.Pass? && params.rateMode == 1 && (onBehalfOf != initiator || forall l :: l in loans ==> l.mode == 0) ==>
                var owed := At(old(base.chain.balances), StableDebt(assets[0]), initiator);
                && r.repaid <= amounts[0] && r.repaid <= owed && (r.repaid == amounts[0] || r.repaid == owed)
                && At(base.chain.balances, StableDebt(assets[0]), initiator) as int == owed - r.repaid
                && At(base.chain.balances, VariableDebt(assets[0]), initiator) ==
                   At(old(base.chain.balances), VariableDebt(assets[0]), initiator)
      ensures o.Pass? && params.rateMode == 2 && (onBehalfOf != initiator || forall l :: l in loans ==> l.mode == 0) ==>
                var owed := At(old(base.chain.balances), VariableDebt(assets[0]), initiator);
                && r.repaid <= amounts[0] && r.repaid <= owed && (r.repaid == amounts[0] || r.repaid == owed)
                && At(base.chain.balances, VariableDebt(assets[0]), initiator) as int == owed - r.repaid
                && At(base.chain.balances, StableDebt(assets[0]), initiator) ==
                   At(old(base.chain.balances), StableDebt(assets[0]), initiator)
      ensures o.Pass? ==> At(base.chain.balances, ViToken(params.collateralAsset), initiator) as int ==
                          At(old(base.chain.balances), ViToken(params.collateralAsset), initiator) - r.pulled
      ensures o.Pass? && params.collateralAsset == assets[0] ==> r.pulled == r.repaid + r.premium
      ensures o.Pass? && params.collateralAsset != assets[0] ==>
                && r.pulled * amounts[0] <= params.collateralAmount * r.repaid
                && r.trade.amountIn <= r.pulled && r.trade.amountOut == r.repaid + r.premium
                && (params.useEthPath <==> |r.trade.path| == 3)
      ensures o.Revert? ==> base.chain.balances == old(base.chain.balances)
      ensures o.Revert? ==> base.chain.allowances == old(base.chain.allowances)
      ensures o.Pass? ==>
                && Executed(loans, r, assets, amounts, modes, params, old(base.chain.balances), initiator)
                && Closed(old(base.chain.balances), old(base.chain.allowances), loans, r, initiator, onBehalfOf)
      ensures o.Pass? ==> forall x ::
                            && At(base.chain.balances, Underlying(x), base.self) ==
                               At(old(base.chain.balances), Underlying(x), base.self) + Change(loans, r, x)
                            && At(base.chain.balances, ViToken(x), base.self) ==
                               At(old(base.chain.balances), ViToken(x), base.self)
      ensures o.Pass? && PremiumsMet(loans) ==> LosesNothing(old(base.chain.balances), base.chain.balances)
      ensures o.Pass? && (forall x :: Unspent(r, x) == 0) ==>
                (LosesNothing(old(base.chain.balances), base.chain.balances) <==> PremiumsMet(loans))
    {
      hide At, Closed, RepaidOf, Change, Priced, WithinCap, PremiumsMet, Unspent;
      var balances, allowances := base.chain.balances, base.chain.allowances;
      o, loans, r := FlashLoanBody(initiator, assets, amounts, modes, onBehalfOf, params);
      if o.Revert? {
        base.chain.balances, base.chain.allowances := balances, allowances;
      } else {
        PaidWhenClosed(balances, allowances, loans, r, initiator, onBehalfOf);
        PricedPlainly(r, params.collateralAmount, params.useEthPath);
        ClosedForAdapter(balances, allowances, loans, r, initiator, onBehalfOf);
        PremiumsMetIff(loans, r);
        assert LosesNothing(balances, base.chain.balances) <==> forall x :: 0 <= Change(loans, r, x);
      }
    }

    /**
     A loan in a borrow mode, against a deposit in a third asset: it repays the debt that it opens, and
     amount and premium stay with the adapter.
     */
    lemma BorrowedLoanStays(user: Account)
      requires base.Wired() && user.Wallet? && user != base.self
      ensures
        var loans := [Loan(2, 10000, 9, 2)];
        var r := Repayment(2, 2, VARIABLE, 10000, 9, 10000, 10009, NO_TRADE);
        var b: Balances := map[(Underlying(2), Reserve(2)) := 10009, (ViToken(2), user) := 10009,
                               (ViToken(3), user) := 90000, (VariableDebt(2), user) := 10000];
        var b': Balances := map[(Underlying(2), base.self) := 10009, (ViToken(3), user) := 90000,
                                (VariableDebt(2), user) := 10000];
        && Consistent(r) && Serves(r, loans)
        && Settleable(loans, r, b, map[], base.self, base.pool.self)
        && Booked(b, b', base.self, user, loans, EffectOf(r, user))
        && Standing(r, 2, 0) - Due(loans, 2) == 10009
    {
      var loans := [Loan(2, 10000, 9, 2)];
      var r := Repayment(2, 2, VARIABLE, 10000, 9, 10000, 10009, NO_TRADE);
      FirstIsSettleable(loans, r, map[(Underlying(2), Reserve(2)) := 10009, (ViToken(2), user) := 10009,
                                      (ViToken(3), user) := 90000, (VariableDebt(2), user) := 10000], map[], base.self,
        base.pool.self);
      forall x ensures Lent(loans, x) == (if x == 2 then 10000 else 0) && Due(loans, x) == 0 {
        OneLoan(loans, x);
      }
      forall t ensures Borrowed(loans, t) == if t == VariableDebt(2) then 10000 else 0 {
        OneLoanBorrowed(loans, t);
      }
      NoTradeNoFlow();
      hide Lent, Due, Borrowed, Settleable, MarketFlow;
    }

    /** What this leaves with the adapter, and another user who has a debt in asset 1, and what follows on `TWO_LOANS`. */
    function Before(user: Account): Balances {
      map[(Underlying(2), base.self) := 10009, (Underlying(1), Reserve(1)) := 10009,
          (Underlying(2), Reserve(2)) := 10000, (ViToken(1), user) := 10009, (VariableDebt(1), user) := 10000]
    }

    function After(): Balances {
      map[(Underlying(2), base.self) := 10000, (Underlying(1), Reserve(1)) := 10009, (Underlying(2), Reserve(2)) := 10009]
    }

    lemma TwoLoansSettle(user: Account)
      ensures Serves(FIRST_REPAID, TWO_LOANS) && Consistent(FIRST_REPAID)
      ensures
        var a: Allowances := map[(Underlying(2), base.self, base.pool.self) := 10009];
        Settleable(TWO_LOANS, FIRST_REPAID, Before(user), a, base.self, base.pool.self)
    {
      TwoLoansSums();
      hide Lent, Due;
    }

    lemma UnderlyingBooked(user: Account, x: Asset, h: Account)
      requires base.Wired() && user.Wallet? && user != base.self
      ensures At(After(), Underlying(x), h) ==
              At(Before(user), Underlying(x), h) + Effect(FIRST_REPAID, base.self, user, Underlying(x), h)
              + (if h == Reserve(x) && (x == 1 || x == 2) then 9 else 0)
              - (if h == base.self && (x == 1 || x == 2) then 9 else 0)
    {
    }

    lemma OthersBooked(user: Account, t: Token, h: Account)
      requires base.Wired() && user.Wallet? && user != base.self && !t.Underlying?
      ensures At(After(), t, h) == At(Before(user), t, h) + Effect(FIRST_REPAID, base.self, user, t, h)
    {
    }

    /**
     Both loans are to be repaid: the pool takes the second one's debt from what the first transaction
     left, and the adapter ends with 9 units less of it than it started with.
     */
    lemma SecondPremiumIsLost(user: Account)
      requires base.Wired() && user.Wallet? && user != base.self
      ensures Booked(Before(user), After(), base.self, user, TWO_LOANS, EffectOf(FIRST_REPAID, user))
      ensures At(After(), Underlying(2), base.self) == At(Before(user), Underlying(2), base.self) - 9
      ensures !PremiumsMet(TWO_LOANS)
    {
      TwoLoansSums();
      OneLoan(TWO_LOANS[1..], 2);
      RepaidKeepsNothing(TWO_LOANS, 2);
      assert Kept(TWO_LOANS, 2) < Premiums(TWO_LOANS[1..], 2);
      UnderlyingBooked(user, 2, base.self);
      hide At, Lent, Due, Borrowed, Kept, Premiums, Effect, Before, After;
      forall x, h
        ensures At(After(), Underlying(x), h) ==
                At(Before(user), Underlying(x), h) + EffectOf(FIRST_REPAID, user)(Underlying(x), h)
                + (if h == base.self then Lent(TWO_LOANS, x) - Due(TWO_LOANS, x) else 0)
                - (if h == Reserve(x) then Lent(TWO_LOANS, x) - Due(TWO_LOANS, x) else 0)
      {
        UnderlyingBooked(user, x, h);
      }
      forall t: Token, h | !t.Underlying?
        ensures At(After(), t, h) == At(Before(user), t, h) + EffectOf(FIRST_REPAID, user)(t, h)
      {
        OthersBooked(user, t, h);
      }
    }

    ghost predicate LosesNothing(b: Balances, b': Balances) {
      forall x :: At(b', Underlying(x), base.self) >= At(b, Underlying(x), base.self)
    }

    lemma PaidWhenClosed(b: Balances, a: Allowances, loans: seq<Loan>, r: Repayment, user: Account, onBehalfOf: Account)
      requires RepaidOf(r, b, user)
      requires Closed(b, a, loans, r, user, onBehalfOf)
      ensures r.mode == 1 || r.mode == 2
      ensures At(base.chain.balances, ViToken(r.collateral), user) as int == At(b, ViToken(r.collateral), user) - r.pulled
      ensures onBehalfOf != user || AllRepaid(loans) ==> PaidOff(r, b, base.chain.balances, user)
    {
      PaidByLoan(r, b, base.chain.balances, user, loans, onBehalfOf);
    }

    lemma ClosedForAdapter(b: Balances, a: Allowances, loans: seq<Loan>, r: Repayment, initiator: Account,
                           onBehalfOf: Account)
      requires base.Wired() && initiator != base.self
      requires Serves(r, loans) && Consistent(r)
      requires Closed(b, a, loans, r, initiator, onBehalfOf)
      ensures forall x ::
                && At(base.chain.balances, Underlying(x), base.self) ==
                   At(b, Underlying(x), base.self) + Change(loans, r, x)
                && At(base.chain.balances, ViToken(x), base.self) == At(b, ViToken(x), base.self)
    {
      BookedForAdapter(b, base.chain.balances, loans, r, initiator, onBehalfOf);
    }

    lemma BookedForAdapter(b: Balances, b': Balances, loans: seq<Loan>, r: Repayment, initiator: Account,
                           onBehalfOf: Account)
      requires base.Wired() && initiator != base.self
      requires Serves(r, loans) && Consistent(r)
      requires Booked(b, b', base.self, onBehalfOf, loans, EffectOf(r, initiator))
      ensures forall x ::
                && At(b', Underlying(x), base.self) == At(b, Underlying(x), base.self) + Change(loans, r, x)
                && At(b', ViToken(x), base.self) == At(b, ViToken(x), base.self)
    {
      hide At, Lent, Due, Kept, Premiums;
      AdapterKeepsLeftover(r, base.self, initiator);
      forall x
        ensures At(b', Underlying(x), base.self) == At(b, Underlying(x), base.self) + Change(loans, r, x)
        ensures At(b', ViToken(x), base.self) == At(b, ViToken(x), base.self)
      {
        FirstAndRest(loans, x);
        LoansBalance(loans, x);
        NoDebtTokenIsViToken(loans, x);
      }
    }

    /** The direct form, without a flash loan: the collateral is pulled and swapped first. */
    method SwapAndRepayBody(user: Account, collateral: Asset, debt: Asset, collateralAmount: uint256,
                            debtRepayAmount: uint256, mode: nat, useEthPath: bool)
      returns (o: Outcome, r: Repayment)
      requires base.Wired() && base.router.WellShaped()
      modifies base.chain`balances, base.chain`allowances
      ensures o.Pass? ==>
                && Asked(r, debt, debtRepayAmount, 0, RepayParams(collateral, collateralAmount, mode, useEthPath))
                && RepaidOf(r, old(base.chain.balances), user)
      ensures o.Pass? ==> forall t, h ::
                            At(base.chain.balances, t, h) == At(old(base.chain.balances), t, h)
                            + Effect(r, base.self, user, t, h)
      ensures o.Pass? ==> Allowed(base.chain.allowances, Underlying(debt), base.self, base.pool.self) == 0
    {
      hide Gain, At, MarketFlow, Priced, WithinCap;
      r := Repayment(collateral, debt, mode, debtRepayAmount, 0, 0, 0, NO_TRADE);
      :- Need(mode <= 2, InvalidMode);
      var currentDebt := At(base.chain.balances, DebtToken(debt, mode), user);
      var amountToRepay := if debtRepayAmount <= currentDebt then debtRepayAmount else currentDebt;
      r :- TakeCollateral(r.(repaid := amountToRepay), collateralAmount, user, useEthPath);
      assert At(base.chain.balances, DebtToken(debt, mode), user) == currentDebt by {
        OnlyUnderlyingAndViTokens(r, base.self, user);
      }
      base.chain.ResetAndApprove(Underlying(debt), base.self, base.pool.self, amountToRepay);
      var repaid :- base.pool.Repay(debt, amountToRepay, mode, user, base.self);
      GainAdds(Underlying(debt), base.self, r.trade.amountOut - r.repaid, r.repaid);
      o := Pass;
    }

    method SwapAndRepay(user: Account, collateral: Asset, debt: Asset, collateralAmount: uint256,
                        debtRepayAmount: uint256, mode: nat, useEthPath: bool)
      returns (o: Outcome, r: Repayment)
      requires base.Wired() && base.router.WellShaped() && user != base.self
      modifies base.chain`balances, base.chain`allowances
      ensures o.Pass? ==> r.premium == 0
      ensures o.Pass? ==> mode == 1 || mode == 2
      ensures o.Pass? && mode == 1 ==>
                var owed := At(old(base.chain.balances), StableDebt(debt), user);
                && r.repaid <= debtRepayAmount && r.repaid <= owed && (r.repaid == debtRepayAmount || r.repaid == owed)
                && At(base.chain.balances, StableDebt(debt), user) as int == owed - r.repaid
                && At(base.chain.balances, VariableDebt(debt), user) ==
                   At(old(base.chain.balances), VariableDebt(debt), user)
      ensures o.Pass? && mode == 2 ==>
                var owed := At(old(base.chain.balances), VariableDebt(debt), user);
                && r.repaid <= debtRepayAmount && r.repaid <= owed && (r.repaid == debtRepayAmount || r.repaid == owed)
                && At(base.chain.balances, VariableDebt(debt), user) as int == owed - r.repaid
                && At(base.chain.balances, StableDebt(debt), user) ==
                   At(old(base.chain.balances), StableDebt(debt), user)
      ensures o.Pass? ==> At(base.chain.balances, ViToken(collateral), user) as int ==
                          At(old(base.chain.balances), ViToken(collateral), user) - r.pulled
      ensures o.Pass? && collateral == debt ==> r.pulled == r.repaid + r.premium
      ensures o.Pass? && collateral != debt ==>
                && r.pulled * debtRepayAmount <= collateralAmount * r.repaid
                && r.trade.amountIn <= r.pulled && r.trade.amountOut == r.repaid + r.premium
                && (useEthPath <==> |r.trade.path| == 3)
      ensures o.Revert? ==> base.chain.balances == old(base.chain.balances)
      ensures o.Revert? ==> base.chain.allowances == old(base.chain.allowances)
      ensures o.Pass? ==>
                && Asked(r, debt, debtRepayAmount, 0, RepayParams(collateral, collateralAmount, mode, useEthPath))
                && RepaidOf(r, old(base.chain.balances), user)
      ensures o.Pass? ==> forall t, h ::
                            At(base.chain.balances, t, h) == At(old(base.chain.balances), t, h)
                            + Effect(r, base.self, user, t, h)
      ensures o.Pass? ==> forall t: Token ::
                            At(base.chain.balances, t, base.self) == At(old(base.chain.balances), t, base.self)
                            + (if t.Underlying? then Leftover(r, t.asset) else 0)
    {
      hide At, Effect, RepaidOf, Priced, Leftover;
      var balances, allowances := base.chain.balances, base.chain.allowances;
      o, r := SwapAndRepayBody(user, collateral, debt, collateralAmount, debtRepayAmount, mode, useEthPath);
      if o.Revert? {
        base.chain.balances, base.chain.allowances := balances, allowances;
      } else {
        AdapterKeepsLeftover(r, base.self, user);
        PaidPlainly(r, balances, base.chain.balances, user);
        PricedPlainly(r, collateralAmount, useEthPath);
      }
    }

    /** What the user's balances become, in the two modes. */
    lemma PaidPlainly(r: Repayment, b: Balances, b': Balances, user: Account)
      requires RepaidOf(r, b, user)
      requires forall t, h :: At(b', t, h) == At(b, t, h) + Effect(r, base.self, user, t, h)
      ensures r.mode == 1 || r.mode == 2
      ensures PaidOff(r, b, b', user)
    {
      hide At;
      DebtsAreApart(r.debt);
      UserPays(r, base.self, user);
      hide Effect;
    }

    ghost predicate PaidOff(r: Repayment, b: Balances, b': Balances, user: Account) {
      && (r.mode == 1 ==>
            var owed := At(b, StableDebt(r.debt), user);
            && r.repaid <= r.amount && r.repaid <= owed && (r.repaid == r.amount || r.repaid == owed)
            && At(b', StableDebt(r.debt), user) as int == owed - r.repaid
            && At(b', VariableDebt(r.debt), user) == At(b, VariableDebt(r.debt), user))
      && (r.mode == 2 ==>
            var owed := At(b, VariableDebt(r.debt), user);
            && r.repaid <= r.amount && r.repaid <= owed && (r.repaid == r.amount || r.repaid == owed)
            && At(b', VariableDebt(r.debt), user) as int == owed - r.repaid
            && At(b', StableDebt(r.debt), user) == At(b, StableDebt(r.debt), user))
      && At(b', ViToken(r.collateral), user) as int == At(b, ViToken(r.collateral), user) - r.pulled
    }

    lemma PricedPlainly(r: Repayment, collateralAmount: nat, useEthPath: bool)
      requires base.router.WellShaped()
      requires Consistent(r) && WithinCap(r, collateralAmount) && Priced(r, useEthPath)
      ensures r.collateral == r.debt ==> r.pulled == r.repaid + r.premium
      ensures r.collateral != r.debt ==>
                && r.pulled * r.amount <= collateralAmount * r.repaid
                && r.trade.amountIn <= r.pulled && r.trade.amountOut == r.repaid + r.premium
                && (useEthPath <==> |r.trade.path| == 3)
    {
      hide BoughtFairly;
    }

    /** The same after a flash loan, unless it leaves the user with a new debt. */
    lemma PaidByLoan(r: Repayment, b: Balances, b': Balances, user: Account, loans: seq<Loan>, onBehalfOf: Account)
      requires RepaidOf(r, b, user)
      requires Booked(b, b', base.self, onBehalfOf, loans, EffectOf(r, user))
      ensures At(b', ViToken(r.collateral), user) as int == At(b, ViToken(r.collateral), user) - r.pulled
      ensures onBehalfOf != user || AllRepaid(loans) ==> PaidOff(r, b, b', user)
    {
      hide At;
      DebtsAreApart(r.debt);
      UserPays(r, base.self, user);
      NoDebtTokenIsViToken(loans, r.collateral);
      if AllRepaid(loans) {
        RepaidOpensNoDebt(loans, StableDebt(r.debt));
        RepaidOpensNoDebt(loans, VariableDebt(r.debt));
      }
      hide Effect, Borrowed, Lent, Due;
    }
  }

  lemma OnlyUnderlyingAndViTokens(r: Repayment, self: Account, user: Account)
    ensures
      var t, h := DebtToken(r.debt, r.mode), user;
      0 == Gain(t, h, Underlying(r.collateral), self, r.pulled - r.trade.amountIn)
           + Gain(t, h, Underlying(r.debt), self, r.trade.amountOut)
           + MarketFlow(r.trade, t, h)
           + Loss(t, h, Underlying(r.collateral), Reserve(r.collateral), r.pulled)
           + Loss(t, h, ViToken(r.collateral), user, r.pulled)
  {
  }
}
