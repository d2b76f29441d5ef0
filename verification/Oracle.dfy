/** What an asset is worth in another one at the oracle's prices, and which sales are fair at them. */
module Oracle {
  import opened Ledger
  import opened Pricing

  /**
   At the prices `p`, `amount` of `from` is worth FairNumerator / FairDenominator of `to`. A unit is
   `10**decimals`, which `Exp10` computes as the contracts do.
   */
  ghost function FairNumerator(chain: Chain, p: Prices, from: Asset, to: Asset, amount: nat): nat {
    amount * (PriceIn(p, from) * Exp10(chain.Decimals(to)))
  }

  ghost function FairDenominator(chain: Chain, p: Prices, from: Asset, to: Asset): nat {
    PriceIn(p, to) * Exp10(chain.Decimals(from))
  }

  /** The share of the fair amount can be computed in 256 bits. */
  ghost predicate ShareFits(chain: Chain, p: Prices, from: Asset, to: Asset, amount: nat, percentage: nat) {
    ExpectedFits(amount, PriceIn(p, from), Exp10(chain.Decimals(to)), PriceIn(p, to), Exp10(chain.Decimals(from)),
                 percentage)
  }

  ghost function ShareOf(chain: Chain, p: Prices, from: Asset, to: Asset, amount: nat, percentage: nat): nat
    requires ShareFits(chain, p, from, to, amount, percentage)
  {
    RoundedShare(Fair(amount, PriceIn(p, from), Exp10(chain.Decimals(to)), PriceIn(p, to), Exp10(chain.Decimals(from))),
                 percentage)
  }

  /** A sale brings in at least 70% of the fair amount, up to `rounding` ten-thousandths of a unit. */
  ghost predicate SoldWithin(chain: Chain, p: Prices, from: Asset, to: Asset, sold: nat, received: nat, rounding: nat) {
    var d := FairDenominator(chain, p, from, to);
    d > 0 && 10000 * received * d > 7000 * FairNumerator(chain, p, from, to, sold) - rounding * d
  }

  /** A purchase costs less than 130% of the fair amount. */
  ghost predicate BoughtWithin(chain: Chain, p: Prices, from: Asset, to: Asset, paid: nat, bought: nat) {
    var d := FairDenominator(chain, p, to, from);
    d > 0 && 10000 * paid * d < 13000 * FairNumerator(chain, p, to, from, bought)
  }

  /**
   Five whole units of an asset with 6 decimals, at a price of 2000, are worth ten whole units of one
   with 18 decimals at a price of 1000: 7 of them are 70%, and 6.5 of the first are 130%.
   */
  lemma WorthAtPrices(chain: Chain, p: Prices)
    requires chain.Decimals(1) == 6 && chain.Decimals(2) == 18
    requires PriceIn(p, 1) == 2000 && PriceIn(p, 2) == 1000
    ensures ShareFits(chain, p, 1, 2, 5_000_000, 7000)
    ensures ShareOf(chain, p, 1, 2, 5_000_000, 7000) == 7_000_000_000_000_000_000
    ensures ShareFits(chain, p, 2, 1, 10_000_000_000_000_000_000, 13000)
    ensures ShareOf(chain, p, 2, 1, 10_000_000_000_000_000_000, 13000) == 6_500_000
    ensures SoldWithin(chain, p, 1, 2, 5_000_000, 7_000_000_000_000_000_000, 1999)
    ensures !SoldWithin(chain, p, 1, 2, 5_000_000, 6_999_999_999_999_999_998, 11999)
    ensures BoughtWithin(chain, p, 1, 2, 6_499_999, 10_000_000_000_000_000_000)
    ensures !BoughtWithin(chain, p, 1, 2, 6_500_000, 10_000_000_000_000_000_000)
  {
    Units();
    hide Exp10;
  }
}
