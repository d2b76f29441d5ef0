/**
 The token state that a transaction reads and writes: every balance and every allowance of every
 token. Underlying assets, viTokens, debt tokens and the native currency share the one ledger.
 */
module Ledger {
  import opened Evm

  type Asset = nat

  /**
   A holder: a plain address, the viToken contract of a reserve, where its liquidity is kept, or a
   Uniswap pair of two assets.
   */
  datatype Account = Wallet(address: nat) | Reserve(asset: Asset) | Pair(low: Asset, high: Asset)

  datatype Token =
    | Underlying(asset: Asset)
    | ViToken(asset: Asset)
    | StableDebt(asset: Asset)
    | VariableDebt(asset: Asset)
    | Ether

  type Balances = map<(Token, Account), uint256>
  type Allowances = map<(Token, Account, Account), uint256>
  type Prices = map<Asset, uint256>

  function At(b: Balances, t: Token, h: Account): uint256 {
    if (t, h) in b then b[(t, h)] else 0
  }

  function Allowed(a: Allowances, t: Token, owner: Account, spender: Account): uint256 {
    if (t, owner, spender) in a then a[(t, owner, spender)] else 0
  }

  function PriceIn(p: Prices, a: Asset): uint256 {
    if a in p then p[a] else 0
  }

  // ---- spending an allowance

  /**
   Whether `spender` may move `n`. With an `everlasting` token, such as Wrapped Ether, holders need no
   allowance for themselves, and there is never as much as 2^256 - 1 of it to move.
   */
  predicate Spendable(a: Allowances, everlasting: bool, t: Token, owner: Account, spender: Account, n: uint256) {
    (everlasting ==> n < MAX_UINT256) && Permitted(a, everlasting, t, owner, spender, n)
  }

  predicate Permitted(a: Allowances, everlasting: bool, t: Token, owner: Account, spender: Account, n: uint256) {
    (everlasting && owner == spender) || n <= Allowed(a, t, owner, spender)
  }

  /** What is left of an allowance once `n` of it was spent. */
  function Left(everlasting: bool, allowance: int, n: int): int {
    if everlasting && allowance == MAX_UINT256 then allowance else allowance - n
  }

  /** The allowances once `n` was spent; an everlasting one of 2^256 - 1 is never used up. */
  function Spent(a: Allowances, everlasting: bool, t: Token, owner: Account, spender: Account, n: uint256): Allowances
    requires Spendable(a, everlasting, t, owner, spender, n)
  {
    var before := Allowed(a, t, owner, spender);
    if everlasting && (owner == spender || before == MAX_UINT256) then a
    else a[(t, owner, spender) := before - n]
  }

  /** What an entry of `n` for holder `h0` of token `t0` adds to the balance of `h` in `t`. */
  function Gain(t: Token, h: Account, t0: Token, h0: Account, n: int): int {
    if t == t0 && h == h0 then n else 0
  }

  function Loss(t: Token, h: Account, t0: Token, h0: Account, n: int): int {
    -Gain(t, h, t0, h0, n)
  }

  lemma GainAdds(t0: Token, h0: Account, m: int, n: int)
    ensures forall t, h :: Gain(t, h, t0, h0, m + n) == Gain(t, h, t0, h0, m) + Gain(t, h, t0, h0, n)
  {
  }

  lemma NoGain()
    ensures forall t, h, t0, h0 :: Gain(t, h, t0, h0, 0) == 0
  {
  }

  class Chain {
    var balances: Balances
    var allowances: Allowances
    var prices: Prices
    const decimals: map<Asset, nat>
    const everlasting: set<Token>

    constructor (decimals: map<Asset, nat>, everlasting: set<Token>)
      ensures this.decimals == decimals && this.everlasting == everlasting
    {
      this.decimals, this.everlasting := decimals, everlasting;
      balances, allowances, prices := map[], map[], map[];
    }

    function Price(a: Asset): uint256
      reads this`prices
    {
      PriceIn(prices, a)
    }

    function Decimals(a: Asset): nat {
      if a in decimals then decimals[a] else 0
    }

    /** No balance reaches this: Wrapped Ether is backed by Ether, of which there is not as much as 2^256 - 1. */
    function Cap(t: Token): int {
      if t in everlasting then MAX_UINT256 else TWO_256
    }

    method Transfer(t: Token, from: Account, to: Account, n: uint256) returns (o: Outcome)
      modifies this`balances
      ensures o.Pass? <==> n <= At(old(balances), t, from)
                           && At(old(balances), t, to) + (if from == to then 0 else n) < Cap(t)
      ensures o.Pass? && t in everlasting ==> n < MAX_UINT256
      ensures o.Revert? ==> balances == old(balances)
      ensures o.Revert? ==> o.reason == if n <= At(old(balances), t, from) then CreditOverflow else BalanceTooLow
      ensures o.Pass? ==> forall t', h ::
                            At(balances, t', h) == At(old(balances), t', h) + Loss(t', h, t, from, n) + Gain(t', h, t, to, n)
    {
      var source := At(balances, t, from);
      :- Need(n <= source, BalanceTooLow);
      var debited := balances[(t, from) := source - n];
      var target := At(debited, t, to);
      :- Need(target + n < Cap(t), CreditOverflow);
      balances := debited[(t, to) := target + n];
      o := Pass;
    }

    method TransferFrom(t: Token, spender: Account, from: Account, to: Account, n: uint256) returns (o: Outcome)
      modifies this`balances, this`allowances
      ensures o.Pass? <==>
        && n <= At(old(balances), t, from)
        && At(old(balances), t, to) + (if from == to then 0 else n) < Cap(t)
        && Spendable(old(allowances), t in everlasting, t, from, spender, n)
      ensures
        var enough := && n <= At(old(balances), t, from)
                      && Permitted(old(allowances), t in everlasting, t, from, spender, n);
        o.Revert? && enough ==> o.reason == CreditOverflow
      ensures o.Pass? ==> forall t', h ::
                            At(balances, t', h) == At(old(balances), t', h) + Loss(t', h, t, from, n) + Gain(t', h, t, to, n)
      ensures o.Pass? ==> allowances == Spent(old(allowances), t in everlasting, t, from, spender, n)
    {
      hide At, Gain;
      o := Pass;
      :- Transfer(t, from, to, n);
      var allowance := Allowed(allowances, t, from, spender);
      if t !in everlasting || (from != spender && allowance != MAX_UINT256) {
        :- Need(n <= allowance, AllowanceTooLow);
        allowances := allowances[(t, from, spender) := allowance - n];
      }
    }

    method Approve(t: Token, owner: Account, spender: Account, n: uint256)
      modifies this`allowances
      ensures allowances == old(allowances)[(t, owner, spender) := n]
    {
      allowances := allowances[(t, owner, spender) := n];
    }

    /** `SafeERC20.safeApprove`: only between zero and non-zero. */
    method SafeApprove(t: Token, owner: Account, spender: Account, n: uint256) returns (o: Outcome)
      modifies this`allowances
      ensures o.Pass? <==> n == 0 || Allowed(old(allowances), t, owner, spender) == 0
      ensures o.Pass? ==> allowances == old(allowances)[(t, owner, spender) := n]
    {
      o := Pass;
      :- Need(n == 0 || Allowed(allowances, t, owner, spender) == 0, NonZeroAllowance);
      Approve(t, owner, spender, n);
    }

    /** The approval idiom of the adapters: first to zero, then to the amount. Neither call can fail. */
    method ResetAndApprove(t: Token, owner: Account, spender: Account, n: uint256)
      modifies this`allowances
      ensures allowances == old(allowances)[(t, owner, spender) := n]
    {
      var zeroed := SafeApprove(t, owner, spender, 0);
      var granted := SafeApprove(t, owner, spender, n);
      assert zeroed.Pass? && granted.Pass?;
    }

    method Mint(t: Token, to: Account, n: uint256) returns (o: Outcome)
      modifies this`balances
      ensures o.Revert? ==> o.reason == CreditOverflow
      ensures o.Pass? ==> forall t', h :: At(balances, t', h) == At(old(balances), t', h) + Gain(t', h, t, to, n)
    {
      var target := At(balances, t, to);
      :- Need(target + n < Cap(t), CreditOverflow);
      balances := balances[(t, to) := target + n];
      o := Pass;
    }

    method Burn(t: Token, from: Account, n: uint256) returns (o: Outcome)
      modifies this`balances
      ensures o.Pass? ==> n <= At(old(balances), t, from)
      ensures o.Pass? ==> forall t', h :: At(balances, t', h) == At(old(balances), t', h) + Loss(t', h, t, from, n)
    {
      var source := At(balances, t, from);
      :- Need(n <= source, BalanceTooLow);
      balances := balances[(t, from) := source - n];
      o := Pass;
    }
  }
}
