/** What the three Uniswap adapters share: bounded swaps, pulling viTokens, and quotes. */
module UniswapBase {
  import opened Evm
  import opened Ledger
  import opened Pricing
  import opened Oracle
  import opened Router
  import Pool

  function PathOf(from: Asset, to: Asset, useEthPath: bool, weth: Asset): (p: Path)
    ensures 2 <= |p| <= 3 && p[0] == from && p[|p| - 1] == to
    ensures |p| == 3 <==> useEthPath
    ensures useEthPath ==> p[1] == weth
  {
    if useEthPath then [from, weth, to] else [from, to]
  }

  /** What the slippage check of a sale accepts: a minimum above 70% of the fair amount. */
  ghost predicate SaleBound(chain: Chain, from: Asset, to: Asset, amount: nat, minOut: nat)
    reads chain`prices
  {
    && ShareFits(chain, chain.prices, from, to, amount, 7000)
    && ShareOf(chain, chain.prices, from, to, amount, 7000) < minOut
  }

  /** What the check of a purchase accepts: a maximum below 130% of the fair amount. */
  ghost predicate PurchaseBound(chain: Chain, from: Asset, to: Asset, maxIn: nat, amountOut: nat)
    reads chain`prices
  {
    && ShareFits(chain, chain.prices, to, from, amountOut, 13000)
    && maxIn < ShareOf(chain, chain.prices, to, from, amountOut, 13000)
  }

  /** A sale is fair at the current prices up to the two roundings of the check. */
  ghost predicate SoldFairly(chain: Chain, from: Asset, to: Asset, sold: nat, received: nat)
    reads chain`prices
  {
    SoldWithin(chain, chain.prices, from, to, sold, received, 1999)
  }

  ghost predicate BoughtFairly(chain: Chain, from: Asset, to: Asset, paid: nat, bought: nat)
    reads chain`prices
  {
    BoughtWithin(chain, chain.prices, from, to, paid, bought)
  }

  /** The two checks at concrete prices, at the boundary of what they accept. */
  lemma BoundsAtPrices(chain: Chain)
    requires chain.Decimals(1) == 6 && chain.Decimals(2) == 18
    requires chain.Price(1) == 2000 && chain.Price(2) == 1000
    ensures SaleBound(chain, 1, 2, 5_000_000, 7_000_000_000_000_000_001)
    ensures !SaleBound(chain, 1, 2, 5_000_000, 7_000_000_000_000_000_000)
    ensures PurchaseBound(chain, 1, 2, 6_499_999, 10_000_000_000_000_000_000)
    ensures !PurchaseBound(chain, 1, 2, 6_500_000, 10_000_000_000_000_000_000)
  {
    WorthAtPrices(chain, chain.prices);
    hide ShareFits, ShareOf;
  }

  /** The fee that quotes allow for is the premium that the pool charges. */
  lemma FeeIsPremium(asset: Asset, amount: uint256, mode: nat)
    ensures Pool.LoansOf([asset], [amount], [mode])[0].premium == FeeOf(amount)
    ensures amount == 10000 ==> FeeOf(amount) == 9
  {
  }

  datatype AmountCalc = AmountCalc(
    calculatedAmount: uint256,
    relativePrice: uint256,
    amountInUsd: uint256,
    amountOutUsd: uint256,
    path: Path)

  class BaseUniswapAdapter {
    const chain: Chain
    const pool: Pool.LendingPool
    const router: UniswapRouter
    const self: Account
    const weth: Asset

    constructor (chain: Chain, pool: Pool.LendingPool, router: UniswapRouter, self: Account, weth: Asset)
      requires pool.chain == chain && router.chain == chain
      requires self.Wallet? && pool.self != router.self && self != pool.self && self != router.self
      requires forall t :: t in chain.everlasting ==> t.Underlying?
      ensures this.chain == chain && this.pool == pool && this.router == router && this.self == self && this.weth == weth
      ensures Wired()
    {
      this.chain, this.pool, this.router, this.self, this.weth := chain, pool, router, self, weth;
    }

    /** How the contracts are deployed; only underlying assets may have allowances that are never used up. */
    ghost predicate Wired() {
      && pool.chain == chain
      && router.chain == chain
      && self.Wallet?
      && pool.self != router.self
      && self != pool.self
      && self != router.self
      && forall t :: t in chain.everlasting ==> t.Underlying?
    }

    method CheckSale(from: Asset, to: Asset, amount: uint256, minOut: uint256) returns (o: Outcome)
      ensures o.Pass? <==> SaleBound(chain, from, to, amount, minOut)
      ensures o.Pass? ==> forall received: nat :: minOut <= received ==> SoldFairly(chain, from, to, amount, received)
    {
      var expected :- ExpectedAmount(amount, chain.Price(from), Exp10(chain.Decimals(to)), chain.Price(to),
        Exp10(chain.Decimals(from)), PERCENTAGE_FACTOR - MAX_SLIPPAGE_PERCENT);
      :- Need(expected < minOut, Slippage);
      forall received: nat | minOut <= received ensures SoldFairly(chain, from, to, amount, received) {
        ExactInBound(FairNumerator(chain, chain.prices, from, to, amount), FairDenominator(chain, chain.prices, from, to),
          received);
      }
      o := Pass;
    }

    method CheckPurchase(from: Asset, to: Asset, maxIn: uint256, amountOut: uint256) returns (o: Outcome)
      ensures o.Pass? <==> PurchaseBound(chain, from, to, maxIn, amountOut)
      ensures o.Pass? ==> forall paid: nat :: paid <= maxIn ==> BoughtFairly(chain, from, to, paid, amountOut)
    {
      var expected :- ExpectedAmount(amountOut, chain.Price(to), Exp10(chain.Decimals(from)), chain.Price(from),
        Exp10(chain.Decimals(to)), PERCENTAGE_FACTOR + MAX_SLIPPAGE_PERCENT);
      :- Need(maxIn < expected, Slippage);
      forall paid: nat | paid <= maxIn ensures BoughtFairly(chain, from, to, paid, amountOut) {
        ExactOutBound(FairNumerator(chain, chain.prices, to, from, amountOut),
          FairDenominator(chain, chain.prices, to, from), maxIn, paid);
      }
      o := Pass;
    }

    method SwapExactTokensForTokens(from: Asset, to: Asset, amount: uint256, minOut: uint256, useEthPath: bool)
      returns (o: Outcome, trade: Trade)
      requires Wired()
      modifies chain`balances, chain`allowances
      ensures o.Pass? ==>
                && trade.path == PathOf(from, to, useEthPath, weth)
                && trade.amountIn == amount
                && minOut <= trade.amountOut
                && SaleBound(chain, from, to, amount, minOut)
      ensures o.Pass? ==> SoldFairly(chain, from, to, amount, trade.amountOut)
      ensures o.Pass? ==> forall t, h ::
                            At(chain.balances, t, h) == At(old(chain.balances), t, h)
                            + Loss(t, h, Underlying(from), self, amount)
                            + MarketFlow(trade, t, h)
                            + Gain(t, h, Underlying(to), self, trade.amountOut)
      ensures o.Pass? ==>
                chain.allowances == old(chain.allowances)[(Underlying(from), self, router.self) := 0]
    {
      hide Gain, At, MarketFlow, SaleBound, SoldFairly;
      trade := NO_TRADE;
      :- CheckSale(from, to, amount, minOut);
      chain.ResetAndApprove(Underlying(from), self, router.self, amount);
      trade :- router.SwapExactTokensForTokens(amount, minOut, PathOf(from, to, useEthPath, weth), self, self);
      assert chain.allowances == old(chain.allowances)[(Underlying(from), self, router.self) := 0];
      o := Pass;
    }

    method SwapTokensForExactTokens(from: Asset, to: Asset, maxIn: uint256, amountOut: uint256, useEthPath: bool)
      returns (o: Outcome, trade: Trade)
      requires Wired()
      modifies chain`balances, chain`allowances
      ensures o.Pass? ==>
                && trade.path == PathOf(from, to, useEthPath, weth)
                && trade.amountIn <= maxIn
                && trade.amountOut == amountOut
                && PurchaseBound(chain, from, to, maxIn, amountOut)
      ensures o.Pass? && router.keepsQuotes ==> router.AsQuoted(trade)
      ensures o.Pass? ==> BoughtFairly(chain, from, to, trade.amountIn, amountOut)
      ensures o.Pass? ==> forall t, h ::
                            At(chain.balances, t, h) == At(old(chain.balances), t, h)
                            + Loss(t, h, Underlying(from), self, trade.amountIn)
                            + MarketFlow(trade, t, h)
                            + Gain(t, h, Underlying(to), self, amountOut)
      ensures o.Pass? ==>
                chain.allowances == old(chain.allowances)[(Underlying(from), self, router.self) :=
                  Left(Underlying(from) in chain.everlasting, maxIn, trade.amountIn)]
    {
      hide Gain, At, MarketFlow, PurchaseBound, BoughtFairly;
      trade := NO_TRADE;
      :- CheckPurchase(from, to, maxIn, amountOut);
      chain.ResetAndApprove(Underlying(from), self, router.self, maxIn);
      trade :- router.SwapTokensForExactTokens(amountOut, maxIn, PathOf(from, to, useEthPath, weth), self, self);
      assert chain.allowances == old(chain.allowances)[(Underlying(from), self, router.self) :=
          Left(Underlying(from) in chain.everlasting, maxIn, trade.amountIn)];
      o := Pass;
    }

    /** Takes viTokens from `user` and turns them into exactly as much of the underlying. */
    method PullViToken(asset: Asset, user: Account, amount: uint256) returns (o: Outcome)
      requires Wired()
      modifies chain`balances, chain`allowances
      ensures o.Pass? ==> 0 < amount <= At(old(chain.balances), ViToken(asset), user)
      ensures o.Pass? && Underlying(asset) in chain.everlasting ==> amount < MAX_UINT256
      ensures o.Pass? ==> forall t, h ::
                            At(chain.balances, t, h) == At(old(chain.balances), t, h)
                            + Loss(t, h, ViToken(asset), user, amount)
                            + Loss(t, h, Underlying(asset), Reserve(asset), amount)
                            + Gain(t, h, Underlying(asset), self, amount)
      ensures o.Pass? ==>
                && amount <= Allowed(old(chain.allowances), ViToken(asset), user, self)
                && chain.allowances == old(chain.allowances)[(ViToken(asset), user, self) :=
                  Allowed(old(chain.allowances), ViToken(asset), user, self) - amount]
    {
      o := Pass;
      :- chain.TransferFrom(ViToken(asset), self, user, self, amount);
      assert amount <= At(chain.balances, ViToken(asset), self);
      var withdrawn :- pool.Withdraw(asset, amount, self, self);
      assert withdrawn == amount;
    }

    // ---- quotes

    /** The paths that a quote between two distinct assets considers. */
    ghost predicate Candidate(path: Path, reserveIn: Asset, reserveOut: Asset) {
      || path == [reserveIn, reserveOut]
      || (reserveIn != weth && reserveOut != weth && path == [reserveIn, weth, reserveOut])
    }

    /** There is always the direct path; the one through WETH is there unless it would begin or end with it. */
    lemma CandidatePaths(reserveIn: Asset, reserveOut: Asset)
      ensures Candidate([reserveIn, reserveOut], reserveIn, reserveOut)
      ensures Candidate([reserveIn, weth, reserveOut], reserveIn, reserveOut) <==> reserveIn != weth && reserveOut != weth
      ensures forall path :: Candidate(path, reserveIn, reserveOut) ==>
                               path == [reserveIn, reserveOut] || path == [reserveIn, weth, reserveOut]
    {
      assert [reserveIn, weth, reserveOut] != [reserveIn, reserveOut];
    }

    /** In USD, by way of the price in Ether: each division rounds down. */
    ghost function UsdValue(reserve: Asset, amount: nat): int
      reads chain`prices
    {
      var unit := Exp10(chain.Decimals(reserve));
      if unit == 0 then 0 else amount * chain.Price(reserve) / unit * chain.Price(USD_ADDRESS) / WAD
    }

    /** No product on the way to the value in USD leaves 256 bits, and the unit of the asset is not zero. */
    ghost predicate UsdFits(reserve: Asset, amount: nat)
      reads chain`prices
    {
      var unit := Exp10(chain.Decimals(reserve));
      && 0 < unit
      && amount * chain.Price(reserve) < TWO_256
      && amount * chain.Price(reserve) / unit * chain.Price(USD_ADDRESS) < TWO_256
    }

    /** 5 whole units at 2 Ether each are 10 Ether, and at 3 dollars an Ether 30 dollars. */
    lemma UsdAtPrices()
      requires chain.Decimals(1) == 6
      requires chain.Price(1) == 2_000_000_000_000_000_000 && chain.Price(USD_ADDRESS) == 3_000_000_000_000_000_000
      ensures UsdFits(1, 5_000_000) && UsdValue(1, 5_000_000) == 30_000_000_000_000_000_000
    {
      Units();
      hide Exp10;
    }

    method CalcUsdValue(reserve: Asset, amount: uint256, decimals: nat) returns (o: Outcome, value: uint256)
      requires decimals == chain.Decimals(reserve)
      ensures o.Pass? <==> UsdFits(reserve, amount)
      ensures o.Pass? ==> value as int == UsdValue(reserve, amount)
    {
      value := 0;
      var inEth :- Mul(amount, chain.Price(reserve));
      inEth :- Div(inEth, Exp10(decimals));
      value :- Mul(inEth, chain.Price(USD_ADDRESS));
      DivBounds(value, WAD);
      value := value / WAD;
      o := Pass;
    }

    /** `price` is what `given` units are worth in `got` units of the other asset, in 18 decimals, rounded down. */
    ghost predicate PriceOf(price: nat, given: nat, givenUnit: nat, got: nat, gotUnit: nat) {
      var d := got * gotUnit;
      price * d <= given * WAD * givenUnit < price * d + d
    }

    /** 3 whole units of one asset for 2 of the other are 1.5, whatever the units. */
    lemma PriceAtUnits(price: nat)
      ensures PriceOf(price, 300, 10, 20, 100) <==> price == 1_500_000_000_000_000_000
      ensures PriceFits(300, 10, 20, 100) && !PriceFits(300, 10, 0, 100)
    {
    }

    ghost predicate PriceFits(given: nat, givenUnit: nat, got: nat, gotUnit: nat) {
      && given * WAD < TWO_256
      && given * WAD * givenUnit < TWO_256
      && 0 < got * gotUnit < TWO_256
    }

    method RelativePrice(given: uint256, givenUnit: uint256, got: uint256, gotUnit: uint256)
      returns (o: Outcome, price: uint256)
      ensures o.Pass? <==> PriceFits(given, givenUnit, got, gotUnit)
      ensures o.Pass? ==> 0 < got && PriceOf(price, given, givenUnit, got, gotUnit)
    {
      price := 0;
      var scaled :- Mul(given, WAD);
      scaled :- Mul(scaled, givenUnit);
      var divisor :- Mul(got, gotUnit);
      price :- Div(scaled, divisor);
      FloorBounds(scaled, divisor);
      o := Pass;
    }

    /** The best of the router's answers, and the path it is for. */
    method GetAmountsOutAndPath(reserveIn: Asset, reserveOut: Asset, amountIn: uint256)
      returns (bestAmountOut: uint256, path: Path)
      requires router.WellShaped()
      ensures bestAmountOut > 0 ==>
                && Candidate(path, reserveIn, reserveOut)
                && (amountIn, path) in router.amountsOut
                && Last(router.amountsOut[(amountIn, path)]) == bestAmountOut
      ensures forall p :: Candidate(p, reserveIn, reserveOut) && (amountIn, p) in router.amountsOut ==>
                            && Last(router.amountsOut[(amountIn, p)]) <= bestAmountOut
                            && (0 < bestAmountOut == Last(router.amountsOut[(amountIn, p)]) ==> |path| <= |p|)
    {
      var simplePath := [reserveIn, reserveOut];
      var pathWithWeth := [0, 0, 0];
      var amountsWithWeth: seq<uint256> := [0, 0, 0];
      if reserveIn != weth && reserveOut != weth {
        pathWithWeth := [reserveIn, weth, reserveOut];
        if (amountIn, pathWithWeth) in router.amountsOut {
          amountsWithWeth := router.amountsOut[(amountIn, pathWithWeth)];
        }
      }

      var amountsWithoutWeth: seq<uint256> := [0, 0];
      bestAmountOut := amountsWithWeth[2];
      if (amountIn, simplePath) in router.amountsOut {
        amountsWithoutWeth := router.amountsOut[(amountIn, simplePath)];
        bestAmountOut := if amountsWithWeth[2] > amountsWithoutWeth[1] then amountsWithWeth[2] else amountsWithoutWeth[1];
      }
      path := if bestAmountOut == 0 then [0, 0]
              else if bestAmountOut == amountsWithoutWeth[1] then simplePath
              else pathWithWeth;
    }

    /** Every candidate answer to a sale of `amountIn` can be priced in 256 bits. */
    ghost predicate SaleFits(reserveIn: Asset, reserveOut: Asset, amountIn: nat)
      reads chain`prices, router
      requires router.WellShaped()
    {
      && amountIn * FEE < TWO_256
      && UsdFits(reserveIn, amountIn)
      && forall p :: Candidate(p, reserveIn, reserveOut) && (NetOut(amountIn), p) in router.amountsOut
                     && Last(router.amountsOut[(NetOut(amountIn), p)]) > 0 ==>
                       var out := Last(router.amountsOut[(NetOut(amountIn), p)]);
                       && UsdFits(reserveOut, out)
                       && PriceFits(NetOut(amountIn), Exp10(chain.Decimals(reserveOut)), out, Exp10(chain.Decimals(reserveIn)))
    }

    method LessFee(amount: uint256) returns (o: Outcome, net: uint256)
      ensures o.Pass? <==> amount * FEE < TWO_256
      ensures o.Pass? ==> net == NetOut(amount)
    {
      net := 0;
      var fee :- Mul(amount, FEE);
      net := amount - fee / 10000; // checked, but the fee is at most the amount
      o := Pass;
    }

    /** The best quote for selling `amountIn`, net of the flash loan fee. */
    method GetAmountsOutData(reserveIn: Asset, reserveOut: Asset, amountIn: uint256)
      returns (o: Outcome, quote: AmountCalc)
      requires router.WellShaped()
      ensures o.Pass? ==> quote.calculatedAmount > 0 || reserveIn == reserveOut
      ensures reserveIn != reserveOut && SaleFits(reserveIn, reserveOut, amountIn) ==>
                (o.Pass? <==> exists p :: Candidate(p, reserveIn, reserveOut) && (NetOut(amountIn), p) in router.amountsOut
                                          && Last(router.amountsOut[(NetOut(amountIn), p)]) > 0)
      ensures o.Pass? && reserveIn == reserveOut ==>
                amountIn > 0 && quote.path == [reserveIn] && quote.calculatedAmount == NetOut(amountIn)
      ensures o.Pass? && reserveIn != reserveOut ==>
                && Candidate(quote.path, reserveIn, reserveOut)
                && (NetOut(amountIn), quote.path) in router.amountsOut
                && Last(router.amountsOut[(NetOut(amountIn), quote.path)]) == quote.calculatedAmount
      ensures o.Pass? && reserveIn != reserveOut ==>
                forall p :: Candidate(p, reserveIn, reserveOut) && (NetOut(amountIn), p) in router.amountsOut ==>
                              && Last(router.amountsOut[(NetOut(amountIn), p)]) <= quote.calculatedAmount
                              && (Last(router.amountsOut[(NetOut(amountIn), p)]) == quote.calculatedAmount ==>
                                    |quote.path| <= |p|)
      ensures o.Pass? ==>
                && quote.amountInUsd as int == UsdValue(reserveIn, amountIn)
                && quote.amountOutUsd as int == UsdValue(reserveOut, quote.calculatedAmount)
                && if reserveIn == reserveOut
                   then PriceOf(quote.relativePrice, NetOut(amountIn), 1, amountIn, 1)
                   else PriceOf(quote.relativePrice, NetOut(amountIn), Exp10(chain.Decimals(reserveOut)),
                                quote.calculatedAmount, Exp10(chain.Decimals(reserveIn)))
    {
      hide PriceOf, PriceFits, UsdValue, UsdFits;
      quote := AmountCalc(0, 0, 0, 0, []);
      var finalAmountIn :- LessFee(amountIn);
      var price;
      if reserveIn == reserveOut {
        var decimals := chain.Decimals(reserveIn);
        price :- RelativePrice(finalAmountIn, 1, amountIn, 1);
        var before :- CalcUsdValue(reserveIn, amountIn, decimals);
        var after :- CalcUsdValue(reserveIn, finalAmountIn, decimals);
        return Pass, AmountCalc(finalAmountIn, price, before, after, [reserveIn]);
      }

      var bestAmountOut, path := GetAmountsOutAndPath(reserveIn, reserveOut, finalAmountIn);
      var decimalsIn, decimalsOut := chain.Decimals(reserveIn), chain.Decimals(reserveOut);
      price :- RelativePrice(finalAmountIn, Exp10(decimalsOut), bestAmountOut, Exp10(decimalsIn));
      var inUsd :- CalcUsdValue(reserveIn, amountIn, decimalsIn);
      var outUsd :- CalcUsdValue(reserveOut, bestAmountOut, decimalsOut);
      return Pass, AmountCalc(bestAmountOut, price, inUsd, outUsd, path);
    }

    /**
     Some path is answered with a positive amount, and the direct path is not answered with zero: that
     answer would be preferred, although it is of no use.
     */
    ghost predicate Answered(reserveIn: Asset, reserveOut: Asset, amountOut: nat)
      reads router
      requires router.WellShaped()
    {
      && (exists p :: Candidate(p, reserveIn, reserveOut) && (amountOut, p) in router.amountsIn
                      && router.amountsIn[(amountOut, p)][0] > 0)
      && ((amountOut, [reserveIn, reserveOut]) in router.amountsIn ==>
            router.amountsIn[(amountOut, [reserveIn, reserveOut])][0] > 0)
    }

    /** Every candidate answer to a purchase of `amountOut` can be priced in 256 bits. */
    ghost predicate PurchaseFits(reserveIn: Asset, reserveOut: Asset, amountOut: nat)
      reads chain`prices, router
      requires router.WellShaped()
    {
      && UsdFits(reserveOut, amountOut)
      && forall p :: Candidate(p, reserveIn, reserveOut) && (amountOut, p) in router.amountsIn
                     && router.amountsIn[(amountOut, p)][0] > 0 ==>
                       var answer := router.amountsIn[(amountOut, p)][0];
                       && answer * FEE < TWO_256
                       && UsdFits(reserveIn, GrossIn(answer))
                       && PriceFits(amountOut, Exp10(chain.Decimals(reserveIn)), GrossIn(answer),
                                    Exp10(chain.Decimals(reserveOut)))
    }

    /** The cheaper of the router's answers, and the path it is for; a zero answer through WETH is no answer. */
    method GetAmountsInAndPath(reserveIn: Asset, reserveOut: Asset, amountOut: uint256)
      returns (amounts: seq<uint256>, path: Path)
      requires router.WellShaped()
      ensures |amounts| >= 2
      ensures amounts[0] > 0 ==>
                && Candidate(path, reserveIn, reserveOut)
                && (amountOut, path) in router.amountsIn
                && router.amountsIn[(amountOut, path)] == amounts
                && forall p :: Candidate(p, reserveIn, reserveOut) && (amountOut, p) in router.amountsIn
                               && router.amountsIn[(amountOut, p)][0] > 0 ==>
                                 && amounts[0] <= router.amountsIn[(amountOut, p)][0]
                                 && (amounts[0] == router.amountsIn[(amountOut, p)][0] ==> |path| <= |p|)
      ensures amounts[0] > 0 <==> Answered(reserveIn, reserveOut, amountOut)
    {
      var simplePath := [reserveIn, reserveOut];
      var pathWithWeth := [0, 0, 0];
      var amountsWithWeth: seq<uint256> := [0, 0, 0];
      if reserveIn != weth && reserveOut != weth {
        pathWithWeth := [reserveIn, weth, reserveOut];
        if (amountOut, pathWithWeth) in router.amountsIn {
          amountsWithWeth := router.amountsIn[(amountOut, pathWithWeth)];
        }
      }
      if (amountOut, simplePath) in router.amountsIn {
        var amountsWithoutWeth := router.amountsIn[(amountOut, simplePath)];
        if amountsWithWeth[0] < amountsWithoutWeth[0] && amountsWithWeth[0] != 0 {
          return amountsWithWeth, pathWithWeth;
        }
        return amountsWithoutWeth, simplePath;
      }
      return amountsWithWeth, pathWithWeth;
    }

    /** A direct answer is enough, and so is one through WETH if there is no direct one. */
    lemma AnyAnswerIsEnough(reserveIn: Asset, reserveOut: Asset, amountOut: uint256)
      requires router.WellShaped()
      ensures
        var direct, detour := (amountOut, [reserveIn, reserveOut]), (amountOut, [reserveIn, weth, reserveOut]);
        && (direct in router.amountsIn && router.amountsIn[direct][0] > 0 ==> Answered(reserveIn, reserveOut, amountOut))
        && (reserveIn != weth && reserveOut != weth && direct !in router.amountsIn ==>
              detour in router.amountsIn && router.amountsIn[detour][0] > 0 ==> Answered(reserveIn, reserveOut, amountOut))
    {
      CandidatePaths(reserveIn, reserveOut);
    }

    /** Quotes at concrete prices that can be priced in 256 bits. */
    lemma QuotesFit()
      requires router.WellShaped() && weth != 1 && weth != 2
      requires router.amountsOut == map[(9991, [1, 2]) := [9991, 500]]
      requires router.amountsIn == map[(500, [1, 2]) := [600, 500]]
      requires chain.Decimals(1) == 18 && chain.Decimals(2) == 6
      requires chain.Price(1) == 10 && chain.Price(2) == 20 && chain.Price(USD_ADDRESS) == WAD
      ensures SaleFits(1, 2, 10000) && PurchaseFits(1, 2, 500)
    {
      Units();
      hide Exp10;
    }

    /** With these answers the path through WETH offers 5 units, and the quote is refused all the same. */
    lemma ZeroAnswerIsPreferred()
      requires router.WellShaped() && weth != 1 && weth != 2
      requires router.amountsIn == map[(100, [1, 2]) := [0, 100], (100, [1, weth, 2]) := [5, 7, 100]]
      ensures Candidate([1, weth, 2], 1, 2) && router.amountsIn[(100, [1, weth, 2])][0] == 5
      ensures !Answered(1, 2, 100)
    {
      assert (100, [1, 2]) in router.amountsIn && (100, [1, weth, 2]) in router.amountsIn;
    }

    method WithFee(amount: uint256) returns (o: Outcome, gross: uint256)
      ensures o.Pass? <==> amount * FEE < TWO_256
      ensures o.Pass? ==> gross == GrossIn(amount)
    {
      gross := 0;
      var fee :- Mul(amount, FEE);
      gross := amount + fee / 10000; // the addition is checked too, but cannot overflow
      o := Pass;
    }

    /** The best quote for buying `amountOut`, with the flash loan fee on top. */
    method GetAmountsInData(reserveIn: Asset, reserveOut: Asset, amountOut: uint256)
      returns (o: Outcome, quote: AmountCalc)
      requires router.WellShaped()
      ensures o.Pass? ==> quote.calculatedAmount > 0
      ensures reserveIn != reserveOut && PurchaseFits(reserveIn, reserveOut, amountOut) ==>
                (o.Pass? <==> Answered(reserveIn, reserveOut, amountOut))
      ensures o.Pass? && reserveIn == reserveOut ==>
                quote.path == [reserveIn] && quote.calculatedAmount == GrossIn(amountOut)
      ensures o.Pass? && reserveIn != reserveOut ==>
                && Candidate(quote.path, reserveIn, reserveOut)
                && (amountOut, quote.path) in router.amountsIn
                && router.amountsIn[(amountOut, quote.path)][0] > 0
                && quote.calculatedAmount == GrossIn(router.amountsIn[(amountOut, quote.path)][0])
                && forall p :: Candidate(p, reserveIn, reserveOut) && (amountOut, p) in router.amountsIn
                               && router.amountsIn[(amountOut, p)][0] > 0 ==>
                                 quote.calculatedAmount <= GrossIn(router.amountsIn[(amountOut, p)][0])
      ensures o.Pass? ==>
                && quote.amountInUsd as int == UsdValue(reserveIn, quote.calculatedAmount)
                && quote.amountOutUsd as int == UsdValue(reserveOut, amountOut)
                && if reserveIn == reserveOut
                   then PriceOf(quote.relativePrice, amountOut, 1, quote.calculatedAmount, 1)
                   else PriceOf(quote.relativePrice, amountOut, Exp10(chain.Decimals(reserveIn)),
                                quote.calculatedAmount, Exp10(chain.Decimals(reserveOut)))
    {
      hide PriceOf, PriceFits, UsdValue, UsdFits;
      quote := AmountCalc(0, 0, 0, 0, []);
      var price;
      if reserveIn == reserveOut {
        var amountIn :- WithFee(amountOut);
        var decimals := chain.Decimals(reserveIn);
        price :- RelativePrice(amountOut, 1, amountIn, 1);
        var before :- CalcUsdValue(reserveIn, amountIn, decimals);
        var after :- CalcUsdValue(reserveIn, amountOut, decimals);
        return Pass, AmountCalc(amountIn, price, before, after, [reserveIn]);
      }

      var amounts, path := GetAmountsInAndPath(reserveIn, reserveOut, amountOut);
      var finalAmountIn :- WithFee(amounts[0]);
      var decimalsIn, decimalsOut := chain.Decimals(reserveIn), chain.Decimals(reserveOut);
      price :- RelativePrice(amountOut, Exp10(decimalsIn), finalAmountIn, Exp10(decimalsOut));
      var inUsd :- CalcUsdValue(reserveIn, finalAmountIn, decimalsIn);
      var outUsd :- CalcUsdValue(reserveOut, amountOut, decimalsOut);
      return Pass, AmountCalc(finalAmountIn, price, inUsd, outUsd, path);
    }

    /** The router's answer for the path that the swap will take. */
    method GetAmountsIn(reserveIn: Asset, reserveOut: Asset, amountOut: uint256, useEthPath: bool)
      returns (o: Outcome, amountIn: uint256)
      requires router.WellShaped()
      ensures
        var key := (amountOut, PathOf(reserveIn, reserveOut, useEthPath, weth));
        && (o.Pass? <==> key in router.amountsIn)
        && (o.Pass? ==> amountIn == router.amountsIn[key][0])
    {
      amountIn := 0;
      var key := (amountOut, PathOf(reserveIn, reserveOut, useEthPath, weth));
      :- Need(key in router.amountsIn, Rejected);
      return Pass, router.amountsIn[key][0];
    }
  }

  const USD_ADDRESS: Asset := 0x10F7Fc1F91Ba351f9C629c5947AD69bD03C05b96
  const WAD: uint256 := 1_000_000_000_000_000_000

  function Last(amounts: seq<uint256>): uint256
    requires |amounts| > 0
  {
    amounts[|amounts| - 1]
  }
}
