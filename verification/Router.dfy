/**
 The Uniswap router as its callers see it. It trades along a path of pairs, reports what it moves and
 respects the minimum and the maximum it is given; the pairs decide on the amounts.
 */
module Router {
  import opened Evm
  import opened Ledger

  type Path = seq<Asset>

  /** One completed trade: `hop` is what passed between the two pairs of a path with three assets. */
  datatype Trade = Trade(path: Path, amountIn: uint256, hop: uint256, amountOut: uint256)

  const NO_TRADE := Trade([], 0, 0, 0)

  /** The pair of two assets, whatever their order. */
  function PairOf(a: Asset, b: Asset): Account {
    if a <= b then Pair(a, b) else Pair(b, a)
  }

  /** What a trade adds to the balances of the pairs along its path. */
  function MarketFlow(d: Trade, t: Token, h: Account): int {
    var n := |d.path|;
    if n < 2 then 0
    else
      Gain(t, h, Underlying(d.path[0]), PairOf(d.path[0], d.path[1]), d.amountIn)
      + Loss(t, h, Underlying(d.path[n - 1]), PairOf(d.path[n - 2], d.path[n - 1]), d.amountOut)
      + if n != 3 then 0
        else Loss(t, h, Underlying(d.path[1]), PairOf(d.path[0], d.path[1]), d.hop)
             + Gain(t, h, Underlying(d.path[1]), PairOf(d.path[1], d.path[2]), d.hop)
  }

  lemma NoTradeNoFlow()
    ensures forall t, h :: MarketFlow(NO_TRADE, t, h) == 0
  {
  }

  /** Through two pairs: each one gains what comes in and loses what goes out. */
  lemma EachPairTrades(a: Asset, b: Asset, c: Asset, amountIn: uint256, hop: uint256, amountOut: uint256)
    requires a < b < c
    ensures
      var there := Trade([a, b, c], amountIn, hop, amountOut);
      && MarketFlow(there, Underlying(a), Pair(a, b)) == amountIn
      && MarketFlow(there, Underlying(b), Pair(a, b)) == -(hop as int)
      && MarketFlow(there, Underlying(b), Pair(b, c)) == hop
      && MarketFlow(there, Underlying(c), Pair(b, c)) == -(amountOut as int)
    ensures
      var back := Trade([c, a], amountIn, hop, amountOut);
      && MarketFlow(back, Underlying(c), Pair(a, c)) == amountIn
      && MarketFlow(back, Underlying(a), Pair(a, c)) == -(amountOut as int)
      && MarketFlow(back, Underlying(b), Pair(a, c)) == 0
  {
  }

  type Quotes = map<(uint256, Path), seq<uint256>>

  /** An answer has one amount per asset of the path. */
  ghost predicate Shaped(q: Quotes) {
    forall k :: k in q ==> |q[k]| == |k.1|
  }

  class UniswapRouter {
    const chain: Chain
    const self: Account
    // whether a purchase costs what the view function answers for it
    const keepsQuotes: bool
    // the answers of the view functions in the current state of the pairs; no answer is a revert
    var amountsOut: Quotes
    var amountsIn: Quotes

    constructor (chain: Chain, self: Account, keepsQuotes: bool)
      ensures this.chain == chain && this.self == self && this.keepsQuotes == keepsQuotes
      ensures WellShaped()
    {
      this.chain, this.self, this.keepsQuotes := chain, self, keepsQuotes;
      amountsOut, amountsIn := map[], map[];
    }

    ghost predicate WellShaped()
      reads this
    {
      Shaped(amountsOut) && Shaped(amountsIn)
    }

    /** The trade has used up as much of the caller's allowance. */
    ghost predicate Paid(a: Allowances, a': Allowances, trade: Trade, caller: Account)
      requires |trade.path| > 0
    {
      var t, everlasting := Underlying(trade.path[0]), Underlying(trade.path[0]) in chain.everlasting;
      && Spendable(a, everlasting, t, caller, self, trade.amountIn)
      && a' == Spent(a, everlasting, t, caller, self, trade.amountIn)
    }

    /** The purchase cost what is answered for it now. */
    ghost predicate AsQuoted(trade: Trade)
      reads this
    {
      var key := (trade.amountOut, trade.path);
      key in amountsIn && amountsIn[key] != [] ==> trade.amountIn == amountsIn[key][0]
    }

    /** Moves the amounts of a trade: from the caller to the first pair, along the path, and to `to`. */
    method Execute(trade: Trade, to: Account, caller: Account) returns (o: Outcome)
      requires 2 <= |trade.path| <= 3
      modifies chain`balances, chain`allowances
      ensures o.Pass? ==> forall t, h ::
                            At(chain.balances, t, h) == At(old(chain.balances), t, h)
                            + Loss(t, h, Underlying(trade.path[0]), caller, trade.amountIn)
                            + MarketFlow(trade, t, h)
                            + Gain(t, h, Underlying(trade.path[|trade.path| - 1]), to, trade.amountOut)
      ensures o.Pass? ==> Paid(old(chain.allowances), chain.allowances, trade, caller)
    {
      hide Gain, At, PairOf;
      o := Pass;
      var p, last := trade.path, |trade.path| - 1;
      :- Need(forall i :: 0 <= i < last ==> p[i] != p[i + 1], Rejected);
      :- chain.TransferFrom(Underlying(p[0]), self, caller, PairOf(p[0], p[1]), trade.amountIn);
      if last == 2 {
        :- chain.Transfer(Underlying(p[1]), PairOf(p[0], p[1]), PairOf(p[1], p[2]), trade.hop);
      }
      :- chain.Transfer(Underlying(p[last]), PairOf(p[last - 1], p[last]), to, trade.amountOut);
    }

    method SwapExactTokensForTokens(amountIn: uint256, minOut: uint256, path: Path, to: Account, caller: Account)
      returns (o: Outcome, trade: Trade)
      requires 2 <= |path| <= 3
      modifies chain`balances, chain`allowances
      ensures o.Pass? ==> trade.path == path && trade.amountIn == amountIn && minOut <= trade.amountOut
      ensures o.Pass? ==> forall t, h ::
                            At(chain.balances, t, h) == At(old(chain.balances), t, h)
                            + Loss(t, h, Underlying(path[0]), caller, amountIn)
                            + MarketFlow(trade, t, h)
                            + Gain(t, h, Underlying(path[|path| - 1]), to, trade.amountOut)
      ensures o.Pass? ==> Paid(old(chain.allowances), chain.allowances, trade, caller)
    {
      hide Gain, At, MarketFlow;
      var hop, received: uint256 := *, *;
      trade := Trade(path, amountIn, hop, received);
      :- Need(received >= minOut, Slippage);
      o := Execute(trade, to, caller);
    }

    method SwapTokensForExactTokens(amountOut: uint256, maxIn: uint256, path: Path, to: Account, caller: Account)
      returns (o: Outcome, trade: Trade)
      requires 2 <= |path| <= 3
      modifies chain`balances, chain`allowances
      ensures o.Pass? ==> trade.path == path && trade.amountIn <= maxIn && trade.amountOut == amountOut
      ensures o.Pass? && keepsQuotes ==> AsQuoted(trade)
      ensures o.Pass? ==> forall t, h ::
                            At(chain.balances, t, h) == At(old(chain.balances), t, h)
                            + Loss(t, h, Underlying(path[0]), caller, trade.amountIn)
                            + MarketFlow(trade, t, h)
                            + Gain(t, h, Underlying(path[|path| - 1]), to, amountOut)
      ensures o.Pass? ==> Paid(old(chain.allowances), chain.allowances, trade, caller)
    {
      hide Gain, At, MarketFlow;
      var hop, paid: uint256 := *, *;
      if keepsQuotes && (amountOut, path) in amountsIn && amountsIn[(amountOut, path)] != [] {
        paid := amountsIn[(amountOut, path)][0];
      }
      trade := Trade(path, paid, hop, amountOut);
      :- Need(paid <= maxIn, Slippage);
      o := Execute(trade, to, caller);
    }
  }
}
