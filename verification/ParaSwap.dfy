/** `ParaSwapLiquiditySwapAdapter`: swaps deposits through a call whose effect nobody vouches for. */
module ParaSwap {
  import opened Evm
  import opened Ledger
  import opened Pricing
  import opened Oracle
  import opened Pool
  import opened Calldata

  /** ParaSwap's contract: an arbitrary call, which may do anything to any balance and allowance. */
  class Augustus {
    const chain: Chain

    constructor (chain: Chain)
      ensures this.chain == chain
    {
      this.chain := chain;
    }

    method Call(data: seq<byte>) returns (success: bool)
      modifies chain
    {
      chain.balances, chain.allowances, chain.prices := *, *, *;
      success := *;
    }
  }

  /** A sale is fair at the prices before it, up to the roundings of a check that accepts equality. */
  ghost predicate SoldFairly(chain: Chain, p: Prices, from: Asset, to: Asset, sold: nat, received: nat) {
    SoldWithin(chain, p, from, to, sold, received, 11999)
  }

  class BaseParaSwapSellAdapter {
    const chain: Chain
    const pool: LendingPool
    const self: Account

    constructor (chain: Chain, pool: LendingPool, self: Account)
      requires pool.chain == chain && self.Wallet? && self != pool.self
      requires forall t :: t in chain.everlasting ==> t.Underlying?
      ensures this.chain == chain && this.pool == pool && this.self == self
      ensures Wired()
    {
      this.chain, this.pool, this.self := chain, pool, self;
    }

    ghost predicate Wired() {
      && pool.chain == chain
      && self.Wallet?
      && self != pool.self
      && forall t :: t in chain.everlasting ==> t.Underlying?
    }

    method GetDecimals(asset: Asset) returns (o: Outcome, decimals: nat)
      ensures o.Pass? <==> chain.Decimals(asset) <= 77
      ensures o.Pass? ==> decimals == chain.Decimals(asset) && Exp10(decimals) == Pow10(decimals)
    {
      decimals := chain.Decimals(asset);
      DecimalsFit(decimals);
      :- Need(decimals <= 77, TooManyDecimals);
      o := Pass;
    }

    /** What the slippage check accepts: a minimum of at least 70% of the fair amount. */
    ghost predicate SaleBound(from: Asset, to: Asset, amount: nat, minReceived: nat)
      reads chain`prices
    {
      && chain.Decimals(from) <= 77 && chain.Decimals(to) <= 77
      && ShareFits(chain, chain.prices, from, to, amount, 7000)
      && ShareOf(chain, chain.prices, from, to, amount, 7000) <= minReceived
    }

    /** The check at concrete prices: 70% exactly is accepted. */
    lemma BoundAtPrices()
      requires chain.Decimals(1) == 6 && chain.Decimals(2) == 18
      requires chain.Price(1) == 2000 && chain.Price(2) == 1000
      ensures SaleBound(1, 2, 5_000_000, 7_000_000_000_000_000_000)
      ensures !SaleBound(1, 2, 5_000_000, 6_999_999_999_999_999_999)
    {
      WorthAtPrices(chain, chain.prices);
      hide ShareFits, ShareOf;
    }

    method CheckSlippage(from: Asset, to: Asset, amountToSwap: uint256, minReceived: uint256) returns (o: Outcome)
      ensures o.Pass? <==> SaleBound(from, to, amountToSwap, minReceived)
      ensures o.Pass? ==> forall received: nat :: minReceived <= received ==>
                                                    SoldFairly(chain, chain.prices, from, to, amountToSwap, received)
    {
      var fromDecimals :- GetDecimals(from);
      var toDecimals :- GetDecimals(to);
      var expected :- ExpectedAmount(amountToSwap, chain.Price(from), Exp10(toDecimals), chain.Price(to),
        Exp10(fromDecimals), PERCENTAGE_FACTOR - MAX_SLIPPAGE_PERCENT);
      :- Need(expected <= minReceived, Slippage);
      forall received: nat | minReceived <= received
        ensures SoldFairly(chain, chain.prices, from, to, amountToSwap, received)
      {
        ParaSwapBound(FairNumerator(chain, chain.prices, from, to, amountToSwap),
          FairDenominator(chain, chain.prices, from, to), received);
      }
      o := Pass;
    }

    /**
     Sells through Augustus. Only the adapter's own two balances are trusted afterwards: the source
     must have dropped by the amount, and what the target gained is what was received.
     */
    method SellOnParaSwap(offset: uint256, swapCalldata: array<byte>, augustus: Augustus, from: Asset, to: Asset,
                          amountToSwap: uint256, minReceived: uint256)
      returns (o: Outcome, received: uint256)
      requires Wired() && augustus.chain == chain
      modifies chain, swapCalldata
      ensures o.Pass? ==>
                && amountToSwap <= At(old(chain.balances), Underlying(from), self)
                && At(chain.balances, Underlying(from), self) ==
                   At(old(chain.balances), Underlying(from), self) - amountToSwap
                && At(chain.balances, Underlying(to), self) == At(old(chain.balances), Underlying(to), self) + received
                && minReceived <= received
                && old(SaleBound(from, to, amountToSwap, minReceived))
                && SoldFairly(chain, old(chain.prices), from, to, amountToSwap, received)
      ensures o.Pass? ==>
                && (offset != 0 ==> InRange(swapCalldata.Length, offset))
                && swapCalldata[..] == if offset == 0 then old(swapCalldata[..])
                                       else Patched(old(swapCalldata[..]), offset, amountToSwap)
    {
      hide SoldFairly, SaleBound;
      received := 0;
      var registered: bool := *;
      :- Need(registered, Rejected);
      :- CheckSlippage(from, to, amountToSwap, minReceived);

      var fromBefore := At(chain.balances, Underlying(from), self);
      :- Need(fromBefore >= amountToSwap, BalanceTooLow);
      var toBefore := At(chain.balances, Underlying(to), self);
      var proxy: Account := *;
      chain.ResetAndApprove(Underlying(from), self, proxy, amountToSwap);
      :- PatchAmount(swapCalldata, offset, amountToSwap);
      var success := augustus.Call(swapCalldata[..]);
      :- Need(success, Rejected);

      :- Need(At(chain.balances, Underlying(from), self) == fromBefore - amountToSwap, BalanceTooLow);
      received :- Sub(At(chain.balances, Underlying(to), self), toBefore);
      :- Need(received >= minReceived, Slippage);
      o := Pass;
    }

    method PullViTokenAndWithdraw(asset: Asset, user: Account, amount: uint256) returns (o: Outcome)
      requires Wired()
      modifies chain`balances, chain`allowances
      ensures o.Pass? ==> 0 < amount <= At(old(chain.balances), ViToken(asset), user)
      ensures o.Pass? ==> forall t, h ::
                            At(chain.balances, t, h) == At(old(chain.balances), t, h)
                            + Loss(t, h, ViToken(asset), user, amount)
                            + Loss(t, h, Underlying(asset), Reserve(asset), amount)
                            + Gain(t, h, Underlying(asset), self, amount)
      ensures o.Pass? && user != self ==> forall x ::
                                            At(chain.balances, Underlying(x), self) as int ==
                                            At(old(chain.balances), Underlying(x), self) + (if x == asset then amount else 0)
      ensures o.Pass? ==> forall x ::
                            Allowed(chain.allowances, Underlying(x), self, pool.self) ==
                            Allowed(old(chain.allowances), Underlying(x), self, pool.self)
    {
      o := Pass;
      :- chain.TransferFrom(ViToken(asset), self, user, self, amount);
      var withdrawn :- pool.Withdraw(asset, amount, self, self);
      o := Need(withdrawn == amount, Rejected);
    }

    /** Deposits what was received; the allowance is used up. */
    method DepositReceived(asset: Asset, received: uint256, user: Account) returns (o: Outcome)
      requires Wired()
      modifies chain`balances, chain`allowances
      ensures o.Pass? ==> 0 < received
      ensures o.Pass? ==> forall t, h ::
                            At(chain.balances, t, h) == At(old(chain.balances), t, h)
                            + Loss(t, h, Underlying(asset), self, received)
                            + Gain(t, h, Underlying(asset), Reserve(asset), received)
                            + Gain(t, h, ViToken(asset), user, received)
      ensures o.Pass? ==> forall x ::
                            At(chain.balances, Underlying(x), self) as int ==
                            At(old(chain.balances), Underlying(x), self) - (if x == asset then received else 0)
      ensures o.Pass? ==> Allowed(chain.allowances, Underlying(asset), self, pool.self) == 0
    {
      o := Pass;
      chain.ResetAndApprove(Underlying(asset), self, pool.self, received);
      :- pool.Deposit(asset, received, user, self);
    }
  }

  /** One completed swap. */
  datatype Sale = Sale(from: Asset, to: Asset, loan: uint256, premium: uint256, swapped: uint256, received: uint256)

  /** What the adapter does to the balances once Augustus has returned. */
  function Aftermath(s: Sale, self: Account, user: Account, t: Token, h: Account): int {
    Gain(t, h, Underlying(s.from), self, s.swapped + s.premium)
    + Loss(t, h, Underlying(s.from), Reserve(s.from), s.swapped + s.premium)
    + Loss(t, h, ViToken(s.from), user, s.swapped + s.premium)
    + Loss(t, h, Underlying(s.to), self, s.received)
    + Gain(t, h, Underlying(s.to), Reserve(s.to), s.received)
    + Gain(t, h, ViToken(s.to), user, s.received)
  }

  /** The user's two deposits, once Augustus has returned. */
  lemma DepositsMove(s: Sale, self: Account, user: Account)
    requires s.from != s.to
    ensures Aftermath(s, self, user, ViToken(s.from), user) == -(s.swapped + s.premium)
    ensures Aftermath(s, self, user, ViToken(s.to), user) == s.received
  {
  }

  class ParaSwapLiquiditySwapAdapter {
    const base: BaseParaSwapSellAdapter

    constructor (base: BaseParaSwapSellAdapter)
      ensures this.base == base
    {
      this.base := base;
    }

    ghost function AftermathOf(s: Sale, user: Account): (Token, Account) -> int {
      (t, h) => Aftermath(s, base.self, user, t, h)
    }

    /**
     What Augustus made of the adapter's two balances: `mid` is the state in which it left them, and
     `lent` of the source came on top of those in `b` before it was called.
     */
    ghost predicate Sold(b: Balances, mid: Balances, lent: nat, prices: Prices, s: Sale, minReceived: uint256) {
      && s.from != s.to
      && s.swapped <= s.loan
      && 0 < s.received && minReceived <= s.received
      && SoldFairly(base.chain, prices, s.from, s.to, s.swapped, s.received)
      && At(mid, Underlying(s.from), base.self) as int == At(b, Underlying(s.from), base.self) + lent - s.swapped
      && At(mid, Underlying(s.to), base.self) == At(b, Underlying(s.to), base.self) + s.received
    }

    /** The calldata that Augustus was called with. */
    ghost predicate Sent(data: seq<byte>, data': seq<byte>, offset: uint256, swapped: uint256) {
      && (offset != 0 ==> InRange(|data|, offset))
      && data' == if offset == 0 then data else Patched(data, offset, swapped)
    }

    lemma SentPlainly(data: seq<byte>, data': seq<byte>, offset: uint256, swapped: uint256)
      requires Sent(data, data', offset, swapped)
      ensures offset == 0 ==> data' == data
      ensures offset != 0 ==>
                && 4 <= offset <= |data| - 32 && |data'| == |data|
                && FromBigEndian(data'[offset..offset + 32]) == swapped
                && data'[..offset] == data[..offset] && data'[offset + 32..] == data[offset + 32..]
    {
      if offset != 0 {
        PatchedReadsBack(data, offset, swapped);
      }
    }

    /** The target's gain is passed on in full, and the source is restored with the premium on top. */
    lemma AdapterAfter(b: Balances, mid: Balances, b': Balances, prices: Prices, s: Sale, minReceived: uint256,
                       user: Account)
      requires base.Wired() && user != base.self
      requires Sold(b, mid, 0, prices, s, minReceived)
      requires Carried(mid, b', AftermathOf(s, user))
      ensures At(b', Underlying(s.from), base.self) == At(b, Underlying(s.from), base.self) + s.premium
      ensures At(b', Underlying(s.to), base.self) == At(b, Underlying(s.to), base.self)
    {
      hide At;
    }

    method SwapLiquidity(offset: uint256, swapCalldata: array<byte>, augustus: Augustus, loan: uint256, premium: uint256,
                         initiator: Account, from: Asset, to: Asset, minReceived: uint256)
      returns (o: Outcome, s: Sale, mid: Balances)
      requires base.Wired() && augustus.chain == base.chain && initiator != base.self
      modifies base.chain, swapCalldata
      ensures o.Pass? ==>
                && s.from == from && s.to == to && s.loan == loan && s.premium == premium
                && Amounts(s, offset != 0, At(old(base.chain.balances), ViToken(from), initiator))
                && Sent(old(swapCalldata[..]), swapCalldata[..], offset, s.swapped)
      ensures o.Pass? ==>
                && Sold(old(base.chain.balances), mid, 0, old(base.chain.prices), s, minReceived)
                && Carried(mid, base.chain.balances, AftermathOf(s, initiator))
      ensures o.Pass? ==>
                && At(base.chain.balances, Underlying(from), base.self) ==
                   At(old(base.chain.balances), Underlying(from), base.self) + premium
                && At(base.chain.balances, Underlying(to), base.self) ==
                   At(old(base.chain.balances), Underlying(to), base.self)
      ensures o.Pass? ==>
                && LeavesStanding(base.chain.allowances, s, 0)
      ensures from == to ==> o.Revert?
    {
      hide Gain, SoldFairly, Patched, InRange;
      var chain := base.chain;
      s, mid := Sale(from, to, loan, premium, loan, 0), chain.balances;
      ghost var start, prices := chain.balances, chain.prices;
      var deposit := At(chain.balances, ViToken(from), initiator);
      if offset != 0 {
        var depositToSwap :- Sub(deposit, premium);
        :- Need(depositToSwap <= loan, InvalidAmount);
        s := s.(swapped := depositToSwap);
      } else {
        var needed :- Add(loan, premium);
        :- Need(deposit >= needed, BalanceTooLow);
      }
      var received :- base.SellOnParaSwap(offset, swapCalldata, augustus, from, to, s.swapped, minReceived);
      s := s.(received := received);
      mid := chain.balances;
      hide At;
      :- base.DepositReceived(to, received, initiator);
      var pulled := s.swapped + premium; // checked, but at most the deposit
      :- base.PullViTokenAndWithdraw(from, initiator, pulled);
      var flashLoanDebt :- Add(loan, premium);
      chain.ResetAndApprove(Underlying(from), base.self, base.pool.self, flashLoanDebt);
      o := Pass;
      AdapterAfter(start, mid, chain.balances, prices, s, minReceived, initiator);
    }

    /** All of the deposit that the premium leaves, or exactly the loan. */
    ghost predicate Amounts(s: Sale, swapAll: bool, deposit: uint256) {
      && s.swapped <= s.loan
      && if swapAll then s.swapped + s.premium == deposit else s.swapped == s.loan && s.loan + s.premium <= deposit
    }

    method ExecuteOperation(sender: Account, assets: seq<Asset>, amounts: seq<uint256>, premiums: seq<uint256>,
                            initiator: Account, to: Asset, minReceived: uint256, offset: uint256,
                            swapCalldata: array<byte>, augustus: Augustus)
      returns (o: Outcome, s: Sale, mid: Balances)
      requires base.Wired() && augustus.chain == base.chain && initiator != base.self
      modifies base.chain, swapCalldata
      ensures o.Pass? ==>
                && sender == base.pool.self
                && |assets| == |amounts| == |premiums| == 1
                && s.from == assets[0] && s.to == to && s.loan == amounts[0] && s.premium == premiums[0]
                && Amounts(s, offset != 0, At(old(base.chain.balances), ViToken(s.from), initiator))
                && Sent(old(swapCalldata[..]), swapCalldata[..], offset, s.swapped)
                && Sold(old(base.chain.balances), mid, 0, old(base.chain.prices), s, minReceived)
                && Carried(mid, base.chain.balances, AftermathOf(s, initiator))
      ensures o.Pass? ==>
                && At(base.chain.balances, Underlying(s.from), base.self) ==
                   At(old(base.chain.balances), Underlying(s.from), base.self) + s.premium
                && At(base.chain.balances, Underlying(s.to), base.self) ==
                   At(old(base.chain.balances), Underlying(s.to), base.self)
                && LeavesStanding(base.chain.allowances, s, 0)
    {
      hide LeavesStanding;
      hide At, Sold, Sent, Amounts, Carried;
      s, mid := Sale(0, 0, 0, 0, 0, 0), base.chain.balances;
      :- Need(sender == base.pool.self, Unauthorized);
      :- Need(|assets| == 1 && |amounts| == 1 && |premiums| == 1, InconsistentParams);
      s, mid :- SwapLiquidity(offset, swapCalldata, augustus, amounts[0], premiums[0], initiator, assets[0], to,
        minReceived);
      o := Pass;
    }

    /** The loan that was asked for was swapped as asked for, by a user whose balances were `b`. */
    ghost predicate Executed(loans: seq<Loan>, s: Sale, assets: seq<Asset>, amounts: seq<uint256>, modes: seq<nat>,
                             to: Asset, swapAll: bool, b: Balances, initiator: Account)
    {
      && LoansFor(loans, assets, amounts, modes)
      && Serves(s, loans)
      && s.to == to
      && Amounts(s, swapAll, At(b, ViToken(s.from), initiator))
    }

    predicate Serves(s: Sale, loans: seq<Loan>) {
      && |loans| == 1
      && loans[0].asset == s.from && loans[0].amount == s.loan && loans[0].premium == s.premium
    }

    /** Every balance at the end, from those in which Augustus left them. */
    ghost predicate Finished(mid: Balances, b': Balances, s: Sale, user: Account, loans: seq<Loan>, onBehalfOf: Account) {
      && (forall x, h ::
            At(b', Underlying(x), h) == At(mid, Underlying(x), h) + Aftermath(s, base.self, user, Underlying(x), h)
            - (if h == base.self then Due(loans, x) else 0)
            + (if h == Reserve(x) then Due(loans, x) else 0))
      && (forall t: Token, h ::
            !t.Underlying? ==>
              At(b', t, h) == At(mid, t, h) + Aftermath(s, base.self, user, t, h)
              + (if h == onBehalfOf then Borrowed(loans, t) else 0))
    }

    lemma FinishedPlainly(mid: Balances, b': Balances, s: Sale, user: Account, loans: seq<Loan>, onBehalfOf: Account)
      requires s.from != s.to
      requires Finished(mid, b', s, user, loans, onBehalfOf)
      ensures At(b', ViToken(s.from), user) as int == At(mid, ViToken(s.from), user) - (s.swapped + s.premium)
      ensures At(b', ViToken(s.to), user) == At(mid, ViToken(s.to), user) + s.received
    {
      hide At;
      DepositsMove(s, base.self, user);
      NoDebtTokenIsViToken(loans, s.from);
      NoDebtTokenIsViToken(loans, s.to);
      hide Aftermath, Borrowed, Due;
    }

    /** Paying out the loan moves no viTokens and none of the target. */
    lemma SoldBefore(start: Balances, lent: Balances, mid: Balances, prices: Prices, s: Sale, minReceived: uint256,
                     loans: seq<Loan>, initiator: Account)
      requires base.Wired() && Serves(s, loans)
      requires LentOut(start, lent, base.self, loans)
      requires Sold(lent, mid, 0, prices, s, minReceived)
      ensures Sold(start, mid, s.loan, prices, s, minReceived)
      ensures At(start, ViToken(s.from), initiator) == At(lent, ViToken(s.from), initiator)
    {
      OneLoan(loans, s.from);
      OneLoan(loans, s.to);
      hide At, SoldFairly, Lent;
    }

    lemma AboutToSettle(start: Balances, lent: Balances, b: Balances, a: Allowances, loans: seq<Loan>, s: Sale)
      requires base.Wired()
      requires Serves(s, loans)
      requires LentOut(start, lent, base.self, loans)
      requires At(b, Underlying(s.from), base.self) == At(lent, Underlying(s.from), base.self) + s.premium
      requires LeavesStanding(a, s, 0)
      ensures Covered(b, a, base.self, base.pool.self, loans) && Claimable(loans)
    {
    }

    lemma AfterSettling(start: Balances, lent: Balances, served: Balances, b': Balances, onBehalfOf: Account,
                        loans: seq<Loan>, s: Sale)
      requires base.Wired()
      requires Serves(s, loans) && s.from != s.to
      requires LentOut(start, lent, base.self, loans)
      requires At(served, Underlying(s.from), base.self) == At(lent, Underlying(s.from), base.self) + s.premium
      requires At(served, Underlying(s.to), base.self) == At(lent, Underlying(s.to), base.self)
      requires Settled(served, b', base.self, onBehalfOf, loans)
      ensures At(b', Underlying(s.from), base.self) == At(start, Underlying(s.from), base.self) + loans[0].Kept()
      ensures At(b', Underlying(s.to), base.self) == At(start, Underlying(s.to), base.self)
    {
      OneLoan(loans, s.from);
      OneLoan(loans, s.to);
      hide At;
    }

    lemma FinishedThrough(mid: Balances, served: Balances, b': Balances, s: Sale, user: Account, loans: seq<Loan>,
                          onBehalfOf: Account)
      requires Carried(mid, served, AftermathOf(s, user))
      requires Settled(served, b', base.self, onBehalfOf, loans)
      ensures Finished(mid, b', s, user, loans, onBehalfOf)
    {
      hide At, Aftermath, Due, Borrowed;
    }

    /**
     The end of `flashLoan`, from where the callback leaves the adapter: nothing stops the repayment,
     and only a borrow may be rejected.
     */
    method SettleSale(loans: seq<Loan>, s: Sale, initiator: Account, onBehalfOf: Account, ghost start: Balances,
                      ghost lent: Balances, ghost mid: Balances)
      returns (o: Outcome)
      requires base.Wired()
      requires Serves(s, loans) && s.from != s.to
      requires LentOut(start, lent, base.self, loans)
      requires Carried(mid, base.chain.balances, AftermathOf(s, initiator))
      requires At(base.chain.balances, Underlying(s.from), base.self) ==
               At(lent, Underlying(s.from), base.self) + s.premium
      requires At(base.chain.balances, Underlying(s.to), base.self) == At(lent, Underlying(s.to), base.self)
      requires LeavesStanding(base.chain.allowances, s, 0)
      modifies base.chain`balances, base.chain`allowances
      ensures GoesThrough(o, loans)
      ensures (forall loan :: loan in loans ==> loan.mode == 0) ==> o.Pass? || o.reason == CreditOverflow
      ensures o.Pass? ==>
                && Finished(mid, base.chain.balances, s, initiator, loans, onBehalfOf)
                && RestoredFor(s, start, base.chain.balances, loans)
                && LeavesStanding(base.chain.allowances, s, loans[0].Due())
    {
      ghost var served := base.chain.balances;
      AboutToSettle(start, lent, served, base.chain.allowances, loans, s);
      OneLoan(loans, s.from);
      OneLoan(loans, s.to);
      hide At, LentOut, Carried, Finished, Settled, Covered, Claimable, Due;
      o := base.pool.Settle(base.self, loans, onBehalfOf);
      if o.Pass? {
        AfterSettling(start, lent, served, base.chain.balances, onBehalfOf, loans, s);
        FinishedThrough(mid, served, base.chain.balances, s, initiator, loans, onBehalfOf);
      }
    }

    /** The pool may take the debt less what was due already, and nothing of the target. */
    ghost predicate LeavesStanding(a: Allowances, s: Sale, due: nat) {
      && Allowed(a, Underlying(s.from), base.self, base.pool.self) as int ==
         Left(Underlying(s.from) in base.chain.everlasting, s.loan + s.premium, due)
      && Allowed(a, Underlying(s.to), base.self, base.pool.self) == 0
    }

    /**
     The adapter's source is what it was, up to a loan turned into a borrow, so unchanged exactly if the
     loan was repaid; and its target is what it was.
     */
    ghost predicate RestoredFor(s: Sale, b: Balances, b': Balances, loans: seq<Loan>)
      requires Serves(s, loans)
    {
      && At(b', Underlying(s.from), base.self) == At(b, Underlying(s.from), base.self) + loans[0].Kept()
      && (At(b', Underlying(s.from), base.self) == At(b, Underlying(s.from), base.self) <==> AllRepaid(loans))
      && At(b', Underlying(s.to), base.self) == At(b, Underlying(s.to), base.self)
    }

    method FlashLoanBody(initiator: Account, assets: seq<Asset>, amounts: seq<uint256>, modes: seq<nat>,
                         onBehalfOf: Account, to: Asset, minReceived: uint256, offset: uint256,
                         swapCalldata: array<byte>, augustus: Augustus)
      returns (o: Outcome, loans: seq<Loan>, s: Sale, mid: Balances)
      requires base.Wired() && augustus.chain == base.chain && initiator != base.self
      modifies base.chain, swapCalldata
      ensures o.Pass? ==>
                && Executed(loans, s, assets, amounts, modes, to, offset != 0, old(base.chain.balances), initiator)
                && Sent(old(swapCalldata[..]), swapCalldata[..], offset, s.swapped)
                && Sold(old(base.chain.balances), mid, s.loan, old(base.chain.prices), s, minReceived)
                && Finished(mid, base.chain.balances, s, initiator, loans, onBehalfOf)
                && RestoredFor(s, old(base.chain.balances), base.chain.balances, loans)
                && LeavesStanding(base.chain.allowances, s, loans[0].Due())
    {
      loans, s, mid := [], Sale(0, 0, 0, 0, 0, 0), base.chain.balances;
      hide At, Allowed, SoldFairly, Sent, LentOut, Carried, Finished, AllRepaid, RestoredFor, LeavesStanding;
      ghost var start, prices := base.chain.balances, base.chain.prices;
      loans :- base.pool.Lend(base.self, assets, amounts, modes);
      ghost var lent := base.chain.balances;
      s, mid :- ExecuteOperation(base.pool.self, assets, amounts, PremiumsOf(loans), initiator, to, minReceived, offset,
        swapCalldata, augustus);
      SoldBefore(start, lent, mid, prices, s, minReceived, loans, initiator);
      o := SettleSale(loans, s, initiator, onBehalfOf, start, lent, mid);
    }

    /** The whole transaction, whatever Augustus did inside it. */
    method FlashLoan(initiator: Account, assets: seq<Asset>, amounts: seq<uint256>, modes: seq<nat>,
                     onBehalfOf: Account, to: Asset, minReceived: uint256, offset: uint256,
                     swapCalldata: array<byte>, augustus: Augustus)
      returns (o: Outcome, loans: seq<Loan>, s: Sale, mid: Balances)
      requires base.Wired() && augustus.chain == base.chain && initiator != base.self
      modifies base.chain, swapCalldata
      ensures o.Pass? && (forall loan :: loan in loans ==> loan.mode == 0) && s.loan + s.premium < MAX_UINT256 ==>
                Allowed(base.chain.allowances, Underlying(s.from), base.self, base.pool.self) == 0
      ensures o.Pass? && (forall loan :: loan in loans ==> loan.mode != 0) ==>
                Allowed(base.chain.allowances, Underlying(s.from), base.self, base.pool.self) as int == s.loan + s.premium
      ensures o.Pass? ==>
                && 0 < |assets| && 0 < |amounts| && assets[0] != to
                && s.from == assets[0] && s.to == to && s.premium as int == amounts[0] as int * 9 / 10000
                && 0 < s.received && minReceived <= s.received
      ensures o.Pass? ==>
                var deposit := At(old(base.chain.balances), ViToken(assets[0]), initiator);
                && s.swapped <= amounts[0] && s.swapped + s.premium <= deposit
                && (if offset == 0 then s.swapped == amounts[0] else s.swapped + s.premium == deposit)
      ensures o.Pass? ==>
                && At(base.chain.balances, ViToken(assets[0]), initiator) as int ==
                   At(mid, ViToken(assets[0]), initiator) - (s.swapped + s.premium)
                && At(base.chain.balances, ViToken(to), initiator) == At(mid, ViToken(to), initiator) + s.received
      ensures o.Pass? && (forall loan :: loan in loans ==> loan.mode == 0) ==>
                At(base.chain.balances, Underlying(assets[0]), base.self) ==
                At(old(base.chain.balances), Underlying(assets[0]), base.self)
      ensures o.Pass? ==> At(base.chain.balances, Underlying(to), base.self) ==
                          At(old(base.chain.balances), Underlying(to), base.self)
      ensures o.Pass? && offset == 0 ==> swapCalldata[..] == old(swapCalldata[..])
      ensures o.Pass? && offset != 0 ==>
                && 4 <= offset <= swapCalldata.Length - 32
                && FromBigEndian(swapCalldata[offset..offset + 32]) == s.swapped
                && swapCalldata[..offset] == old(swapCalldata[..offset])
                && swapCalldata[offset + 32..] == old(swapCalldata[offset + 32..])
      ensures o.Revert? ==> base.chain.balances == old(base.chain.balances)
      ensures o.Revert? ==> base.chain.allowances == old(base.chain.allowances)
      ensures o.Revert? ==> base.chain.prices == old(base.chain.prices)
      ensures o.Pass? ==>
                && Executed(loans, s, assets, amounts, modes, to, offset != 0, old(base.chain.balances), initiator)
                && Sent(old(swapCalldata[..]), swapCalldata[..], offset, s.swapped)
                && Sold(old(base.chain.balances), mid, s.loan, old(base.chain.prices), s, minReceived)
                && Finished(mid, base.chain.balances, s, initiator, loans, onBehalfOf)
                && RestoredFor(s, old(base.chain.balances), base.chain.balances, loans)
                && LeavesStanding(base.chain.allowances, s, loans[0].Due())
    {
      hide At, Sent, Finished, SoldFairly;
      ghost var data := swapCalldata[..];
      var balances, allowances, prices := base.chain.balances, base.chain.allowances, base.chain.prices;
      o, loans, s, mid := FlashLoanBody(initiator, assets, amounts, modes, onBehalfOf, to, minReceived, offset,
        swapCalldata, augustus);
      if o.Revert? {
        base.chain.balances, base.chain.allowances, base.chain.prices := balances, allowances, prices;
      } else {
        assert loans[0] in loans;
        SentPlainly(data, swapCalldata[..], offset, s.swapped);
        FinishedPlainly(mid, base.chain.balances, s, initiator, loans, onBehalfOf);
      }
    }

    /**
     The user's deposit was sold and the proceeds deposited; the adapter's two balances are what they
     were. `mid` is the state in which Augustus left the balances.
     */
    ghost predicate SoldDirectly(b: Balances, mid: Balances, b': Balances, prices: Prices, from: Asset,
                                 to: Asset, amount: uint256, minReceived: uint256, swapAll: bool, swapped: uint256,
                                 received: uint256, user: Account)
    {
      && from != to
      && 0 < swapped <= amount
      && swapped <= At(b, ViToken(from), user)
      && swapped == (if swapAll then At(b, ViToken(from), user) else amount)
      && 0 < received && minReceived <= received
      && SoldFairly(base.chain, prices, from, to, swapped, received)
      && At(b', Underlying(from), base.self) == At(b, Underlying(from), base.self)
      && At(b', Underlying(to), base.self) == At(b, Underlying(to), base.self)
      && (forall t, h :: At(b', t, h) == At(mid, t, h)
            + Loss(t, h, Underlying(to), base.self, received)
            + Gain(t, h, Underlying(to), Reserve(to), received)
            + Gain(t, h, ViToken(to), user, received))
    }

    method SwapAndDepositBody(user: Account, from: Asset, to: Asset, amount: uint256, minReceived: uint256,
                              offset: uint256, swapCalldata: array<byte>, augustus: Augustus)
      returns (o: Outcome, swapped: uint256, received: uint256, mid: Balances)
      requires base.Wired() && augustus.chain == base.chain && user != base.self
      modifies base.chain, swapCalldata
      ensures o.Pass? ==>
                && SoldDirectly(old(base.chain.balances), mid, base.chain.balances, old(base.chain.prices), from, to, amount,
                                minReceived, offset != 0, swapped, received, user)
                && Sent(old(swapCalldata[..]), swapCalldata[..], offset, swapped)
                && Allowed(base.chain.allowances, Underlying(to), base.self, base.pool.self) == 0
    {
      hide Gain, At, SoldFairly, Patched, InRange;
      swapped, received, mid := amount, 0, base.chain.balances;
      if offset != 0 {
        var balance := At(base.chain.balances, ViToken(from), user);
        :- Need(balance <= amount, InvalidAmount);
        swapped := balance;
      }
      :- base.PullViTokenAndWithdraw(from, user, swapped);
      received :- base.SellOnParaSwap(offset, swapCalldata, augustus, from, to, swapped, minReceived);
      mid := base.chain.balances;
      :- base.DepositReceived(to, received, user);
      o := Pass;
    }

    /** The direct form; a same-asset swap never completes. */
    method SwapAndDeposit(user: Account, from: Asset, to: Asset, amount: uint256, minReceived: uint256,
                          offset: uint256, swapCalldata: array<byte>, augustus: Augustus)
      returns (o: Outcome, swapped: uint256, received: uint256, mid: Balances)
      requires base.Wired() && augustus.chain == base.chain && user != base.self
      modifies base.chain, swapCalldata
      ensures o.Pass? ==>
                var deposit := At(old(base.chain.balances), ViToken(from), user);
                && from != to
                && swapped <= amount && swapped <= deposit
                && swapped == (if offset == 0 then amount else deposit)
                && 0 < received && minReceived <= received
      ensures o.Pass? ==> At(base.chain.balances, ViToken(to), user) == At(mid, ViToken(to), user) + received
      ensures o.Pass? ==>
                && At(base.chain.balances, Underlying(from), base.self) ==
                   At(old(base.chain.balances), Underlying(from), base.self)
                && At(base.chain.balances, Underlying(to), base.self) ==
                   At(old(base.chain.balances), Underlying(to), base.self)
      ensures o.Pass? && offset == 0 ==> swapCalldata[..] == old(swapCalldata[..])
      ensures o.Pass? && offset != 0 ==>
                && 4 <= offset <= swapCalldata.Length - 32
                && FromBigEndian(swapCalldata[offset..offset + 32]) == swapped
                && swapCalldata[..offset] == old(swapCalldata[..offset])
                && swapCalldata[offset + 32..] == old(swapCalldata[offset + 32..])
      ensures o.Revert? ==> base.chain.balances == old(base.chain.balances)
      ensures o.Revert? ==> base.chain.allowances == old(base.chain.allowances)
      ensures o.Revert? ==> base.chain.prices == old(base.chain.prices)
      ensures o.Pass? ==>
                && SoldDirectly(old(base.chain.balances), mid, base.chain.balances, old(base.chain.prices), from, to, amount,
                                minReceived, offset != 0, swapped, received, user)
                && Sent(old(swapCalldata[..]), swapCalldata[..], offset, swapped)
                && Allowed(base.chain.allowances, Underlying(to), base.self, base.pool.self) == 0
    {
      hide At, Sent, SoldFairly;
      ghost var data := swapCalldata[..];
      var balances, allowances, prices := base.chain.balances, base.chain.allowances, base.chain.prices;
      o, swapped, received, mid := SwapAndDepositBody(user, from, to, amount, minReceived, offset, swapCalldata, augustus);
      if o.Revert? {
        base.chain.balances, base.chain.allowances, base.chain.prices := balances, allowances, prices;
      } else {
        SentPlainly(data, swapCalldata[..], offset, swapped);
      }
    }
  }
}
