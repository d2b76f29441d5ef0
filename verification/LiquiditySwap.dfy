/** `UniswapLiquiditySwapAdapter`: moves a user's deposits from one reserve to another. */
module LiquiditySwap {
  import opened Evm
  import opened Ledger
  import opened UniswapBase
  import opened Router
  import opened Pool

  /** One completed swap, with the trade that was made for it. */
  datatype Swap = Swap(from: Asset, to: Asset, amount: uint256, premium: uint256, trade: Trade) {
    function Debt(): nat {
      amount + premium
    }
  }

  datatype SwapParams = SwapParams(
    assetToSwapToList: seq<Asset>,
    minAmountsToReceive: seq<uint256>,
    swapAllBalance: seq<bool>,
    useEthPath: seq<bool>)

  /**
   What one swap adds to every balance. The adapter passes on all it receives and keeps the premium;
   the user's deposit moves from one reserve to the other.
   */
  function Effect(s: Swap, self: Account, user: Account, t: Token, h: Account): int {
    Gain(t, h, Underlying(s.from), self, s.premium)
    + MarketFlow(s.trade, t, h)
    + Loss(t, h, Underlying(s.from), Reserve(s.from), s.trade.amountIn + s.premium)
    + Gain(t, h, Underlying(s.to), Reserve(s.to), s.trade.amountOut)
    + Loss(t, h, ViToken(s.from), user, s.trade.amountIn + s.premium)
    + Gain(t, h, ViToken(s.to), user, s.trade.amountOut)
  }

  function Effects(ss: seq<Swap>, self: Account, user: Account, t: Token, h: Account): int {
    if |ss| == 0 then 0
    else Effects(ss[..|ss| - 1], self, user, t, h) + Effect(ss[|ss| - 1], self, user, t, h)
  }

  lemma NoEffects(self: Account, user: Account)
    ensures forall t, h :: Effects([], self, user, t, h) == 0
  {
  }

  lemma EffectsSnoc(ss: seq<Swap>, s: Swap, self: Account, user: Account)
    ensures forall t, h :: Effects(ss + [s], self, user, t, h) ==
                           Effects(ss, self, user, t, h) + Effect(s, self, user, t, h)
  {
  }

  /** What is left of the pool's allowance on `x` after the swaps: the last one that touched `x` decides. */
  function Standing(ss: seq<Swap>, x: Asset, initial: nat): nat {
    if |ss| == 0 then initial
    else
      var s := ss[|ss| - 1];
      if s.from == x then s.Debt()
      else if s.to == x then 0
      else Standing(ss[..|ss| - 1], x, initial)
  }

  lemma StandingSnoc(ss: seq<Swap>, s: Swap)
    ensures forall x, initial :: Standing(ss + [s], x, initial) ==
                                 if s.from == x then s.Debt() else if s.to == x then 0 else Standing(ss, x, initial)
  {
  }

  /** How much of the loan is swapped: all that the user can pay back, when that is asked for and less. */
  predicate AmountRule(swapped: uint256, swapAll: bool, balance: int, amount: uint256, premium: uint256) {
    && (swapAll ==> premium <= balance)
    && swapped as int == if swapAll && balance - premium <= amount then balance - premium else amount
  }

  // ---- what the swaps leave with the adapter, and what the pool will ask back

  function PremiumsOn(ss: seq<Swap>, x: Asset): nat {
    if |ss| == 0 then 0
    else PremiumsOn(ss[..|ss| - 1], x) + (if ss[|ss| - 1].from == x then ss[|ss| - 1].premium else 0)
  }

  function Owed(ss: seq<Swap>, x: Asset): nat {
    if |ss| == 0 then 0
    else Owed(ss[..|ss| - 1], x) + (if ss[|ss| - 1].from == x then ss[|ss| - 1].Debt() else 0)
  }

  /** Whatever the assets, the swaps raise the adapter's balances by the premiums and nothing else. */
  lemma {:induction false} AdapterGainsPremiums(ss: seq<Swap>, self: Account, user: Account, t: Token)
    requires self.Wallet? && self != user
    ensures Effects(ss, self, user, t, self) == if t.Underlying? then PremiumsOn(ss, t.asset) else 0
  {
    if |ss| == 0 {
    } else {
      AdapterGainsPremiums(ss[..|ss| - 1], self, user, t);
    }
  }

  // ---- what the swaps mean for the user's deposits

  function TakenFrom(ss: seq<Swap>, x: Asset): nat {
    if |ss| == 0 then 0
    else
      var s := ss[|ss| - 1];
      TakenFrom(ss[..|ss| - 1], x) + (if s.from == x then s.trade.amountIn + s.premium else 0)
  }

  function DepositedIn(ss: seq<Swap>, x: Asset): nat {
    if |ss| == 0 then 0
    else
      var s := ss[|ss| - 1];
      DepositedIn(ss[..|ss| - 1], x) + (if s.to == x then s.trade.amountOut else 0)
  }

  lemma {:induction false} UserDeposits(ss: seq<Swap>, self: Account, user: Account, x: Asset)
    ensures Effects(ss, self, user, ViToken(x), user) == DepositedIn(ss, x) - TakenFrom(ss, x)
  {
    if |ss| == 0 {
    } else {
      UserDeposits(ss[..|ss| - 1], self, user, x);
    }
  }

  /** Neither the user's underlying assets nor other people's deposits are touched. */
  lemma {:induction false} OthersUntouched(ss: seq<Swap>, self: Account, user: Account, x: Asset, h: Account)
    ensures user.Wallet? && user != self ==> Effects(ss, self, user, Underlying(x), user) == 0
    ensures h != user ==> Effects(ss, self, user, ViToken(x), h) == 0
  {
    if |ss| == 0 {
    } else {
      OthersUntouched(ss[..|ss| - 1], self, user, x, h);
    }
  }

  /** One swap between two assets, with the balances it moves one by one. */
  lemma OneSwapMoves(s: Swap, self: Account, user: Account)
    requires s.from != s.to && self.Wallet?
    ensures Effect(s, self, user, ViToken(s.from), user) == -(s.trade.amountIn + s.premium)
    ensures Effect(s, self, user, ViToken(s.to), user) == s.trade.amountOut
    ensures Effect(s, self, user, Underlying(s.from), Reserve(s.from)) == -(s.trade.amountIn + s.premium)
    ensures Effect(s, self, user, Underlying(s.to), Reserve(s.to)) == s.trade.amountOut
  {
  }

  lemma OneSwapSums(s: Swap)
    requires s.from != s.to
    ensures TakenFrom([s], s.from) == s.trade.amountIn + s.premium && DepositedIn([s], s.from) == 0
    ensures TakenFrom([s], s.to) == 0 && DepositedIn([s], s.to) == s.trade.amountOut
  {
  }

  /** Swapping all leaves the user without a deposit in the source, when the loan was large enough. */
  lemma SwapAllEmpties(s: Swap, self: Account, user: Account, deposit: nat)
    requires s.from != s.to
    requires AmountRule(s.trade.amountIn, true, deposit, s.amount, s.premium)
    ensures deposit <= s.Debt() <==> deposit + Effect(s, self, user, ViToken(s.from), user) == 0
    ensures s.Debt() <= deposit ==> s.trade.amountIn == s.amount
  {
  }

  /** No asset is borrowed twice, and none is the target of a later swap. */
  ghost predicate Untangled(from: seq<Asset>, to: seq<Asset>)
    requires |from| <= |to|
  {
    forall i, j :: 0 <= i < j < |from| ==> from[i] != from[j] && from[i] != to[j]
  }

  function Sources(ss: seq<Swap>): (r: seq<Asset>)
    ensures |r| == |ss|
  {
    seq(|ss|, i requires 0 <= i < |ss| => ss[i].from)
  }

  function Targets(ss: seq<Swap>): (r: seq<Asset>)
    ensures |r| == |ss|
  {
    seq(|ss|, i requires 0 <= i < |ss| => ss[i].to)
  }

  lemma {:induction false} NothingOwed(ss: seq<Swap>, x: Asset)
    requires forall s :: s in ss ==> 0 < s.Debt()
    ensures Owed(ss, x) == 0 <==> x !in Sources(ss)
  {
    if |ss| == 0 {
    } else {
      var front, last := ss[..|ss| - 1], ss[|ss| - 1];
      NothingOwed(front, x);
      assert Sources(ss) == Sources(front) + [last.from];
    }
  }

  ghost predicate Repayable(ss: seq<Swap>, initial: Asset -> nat) {
    forall x :: Owed(ss, x) <= Standing(ss, x, initial(x))
  }

  /**
   The allowances that the loop leaves cover all repayments exactly when the loans are untangled:
   each swap resets the pool's allowance on its own source and target.
   */
  lemma {:induction false} RepayableIff(ss: seq<Swap>, initial: Asset -> nat)
    requires forall s :: s in ss ==> 0 < s.Debt()
    ensures Repayable(ss, initial) <==> Untangled(Sources(ss), Targets(ss))
  {
    if |ss| == 0 {
    } else {
      var front, last := ss[..|ss| - 1], ss[|ss| - 1];
      RepayableIff(front, initial);
      assert Sources(ss) == Sources(front) + [last.from];
      assert Targets(ss) == Targets(front) + [last.to];
      NothingOwed(front, last.from);
      NothingOwed(front, last.to);
      if Repayable(ss, initial) {
        RepayableFront(ss, initial);
        UntangledSnoc(Sources(front), Targets(front), last.from, last.to);
      }
      if Untangled(Sources(ss), Targets(ss)) {
        UntangledSnoc(Sources(front), Targets(front), last.from, last.to);
        forall x ensures Owed(ss, x) <= Standing(ss, x, initial(x)) {
          assert Owed(front, x) <= Standing(front, x, initial(x));
        }
      }
    }
  }

  lemma UntangledSnoc(from: seq<Asset>, to: seq<Asset>, x: Asset, y: Asset)
    requires |from| == |to|
    ensures Untangled(from + [x], to + [y]) <==> Untangled(from, to) && x !in from && y !in from
  {
    var from', to' := from + [x], to + [y];
    if Untangled(from', to') {
      forall i, j | 0 <= i < j < |from| ensures from[i] != from[j] && from[i] != to[j] {
        assert from'[i] != from'[j] && from'[i] != to'[j];
      }
      forall i | 0 <= i < |from| ensures from[i] != x && from[i] != y {
        assert from'[i] != from'[|from|] && from'[i] != to'[|from|];
      }
    }
  }

  lemma RepayableFront(ss: seq<Swap>, initial: Asset -> nat)
    requires |ss| > 0 && Repayable(ss, initial)
    ensures
      var front, last := ss[..|ss| - 1], ss[|ss| - 1];
      Repayable(front, initial) && Owed(front, last.from) == 0 && Owed(front, last.to) == 0
  {
  }

  /** Borrowing the same asset twice: the second approval replaces the first, and one debt stays uncovered. */
  lemma BorrowingTwiceIsTangled(initial: Asset -> nat)
    ensures
      var ss := [Swap(1, 2, 1000, 1, Trade([1, 2], 1000, 0, 990)), Swap(1, 3, 1000, 1, Trade([1, 3], 1000, 0, 980))];
      Owed(ss, 1) == 2002 && Standing(ss, 1, initial(1)) == 1001 && !Repayable(ss, initial)
  {
  }

  /** A target that was a source before: the approval of the deposit wipes out that of the repayment. */
  lemma TargetBorrowedBeforeIsTangled(initial: Asset -> nat)
    ensures
      var ss := [Swap(1, 2, 1000, 1, Trade([1, 2], 1000, 0, 990)), Swap(3, 1, 1000, 1, Trade([3, 1], 1000, 0, 980))];
      Owed(ss, 1) == 1001 && Standing(ss, 1, initial(1)) == 0 && !Repayable(ss, initial)
  {
  }

  /** Of untangled loans, every one finds an allowance of exactly its own debt. */
  lemma {:induction false} UntangledStandsExactly(ss: seq<Swap>, initial: nat, i: nat)
    requires Untangled(Sources(ss), Targets(ss)) && i < |ss|
    ensures Standing(ss, ss[i].from, initial) == ss[i].Debt()
  {
    var front, last := ss[..|ss| - 1], ss[|ss| - 1];
    if i == |front| {
    } else {
      assert Sources(ss)[i] != Sources(ss)[|front|] && Sources(ss)[i] != Targets(ss)[|front|];
      assert Sources(front) == Sources(ss)[..|front|] && Targets(front) == Targets(ss)[..|front|];
      UntangledStandsExactly(front, initial, i);
    }
  }

  /** Each loan became one swap. */
  ghost predicate Served(loans: seq<Loan>, ss: seq<Swap>) {
    && |loans| == |ss|
    && forall i :: 0 <= i < |ss| ==>
                     && loans[i].asset == ss[i].from
                     && loans[i].amount == ss[i].amount
                     && loans[i].premium == ss[i].premium
  }

  lemma {:induction false} ServedSums(loans: seq<Loan>, ss: seq<Swap>, x: Asset)
    requires Served(loans, ss)
    ensures Premiums(loans, x) == PremiumsOn(ss, x)
    ensures Due(loans, x) <= Owed(ss, x)
    ensures (forall l :: l in loans ==> l.mode == 0) ==> Due(loans, x) == Owed(ss, x)
  {
    if |ss| == 0 {
    } else {
      ServedSums(loans[..|ss| - 1], ss[..|ss| - 1], x);
    }
  }

  // ---- loans of which only some are to be repaid

  /** Swap `k` from `x` is the last one that touched `x`. */
  ghost predicate LastFrom(loans: seq<Loan>, to: seq<Asset>, k: int, x: Asset)
    requires |loans| <= |to|
  {
    && 0 <= k < |loans|
    && loans[k].asset == x
    && forall j :: k < j < |loans| ==> loans[j].asset != x && to[j] != x
  }

  /**
   For every loan to be repaid, the last swap that touched its asset had it as source, for a debt that
   covers all that is due.
   */
  ghost predicate Standable(loans: seq<Loan>, to: seq<Asset>)
    requires |loans| <= |to|
  {
    forall i :: 0 <= i < |loans| && loans[i].mode == 0 ==>
                  exists k :: LastFrom(loans, to, k, loans[i].asset) && Due(loans, loans[i].asset) <= loans[k].Debt()
  }

  ghost predicate LastTouch(ss: seq<Swap>, x: Asset, k: nat) {
    && k < |ss|
    && (ss[k].from == x || ss[k].to == x)
    && forall j :: k < j < |ss| ==> ss[j].from != x && ss[j].to != x
  }

  lemma {:induction false} StandingDecided(ss: seq<Swap>, x: Asset, k: nat, initial: nat)
    requires LastTouch(ss, x, k)
    ensures Standing(ss, x, initial) == if ss[k].from == x then ss[k].Debt() else 0
  {
    if k == |ss| - 1 {
    } else {
      StandingDecided(ss[..|ss| - 1], x, k, initial);
    }
  }

  lemma {:induction false} FindLastTouch(ss: seq<Swap>, x: Asset, i: nat) returns (k: nat)
    requires i < |ss| && ss[i].from == x
    ensures LastTouch(ss, x, k)
  {
    var last := |ss| - 1;
    if ss[last].from == x || ss[last].to == x {
      k := last;
    } else {
      k := FindLastTouch(ss[..last], x, i);
    }
  }

  /** Whatever the modes, the allowances cover what is due exactly under that condition on the loans and targets. */
  lemma StandableIff(loans: seq<Loan>, ss: seq<Swap>, initial: Asset -> nat)
    requires Served(loans, ss)
    requires forall s :: s in ss ==> 0 < s.Debt()
    ensures (forall x :: Due(loans, x) <= Standing(ss, x, initial(x))) <==> Standable(loans, Targets(ss))
  {
    hide Due, Standing;
    if forall x :: Due(loans, x) <= Standing(ss, x, initial(x)) {
      forall i | 0 <= i < |loans| && loans[i].mode == 0
        ensures exists k :: LastFrom(loans, Targets(ss), k, loans[i].asset)
                            && Due(loans, loans[i].asset) <= loans[k].Debt()
      {
        var x := loans[i].asset;
        var k := FindLastTouch(ss, x, i);
        StandingDecided(ss, x, k, initial(x));
        DueAtLeast(loans, i);
        assert ss[i] in ss && Due(loans, x) <= Standing(ss, x, initial(x));
        assert LastFrom(loans, Targets(ss), k, x);
      }
    }
    if Standable(loans, Targets(ss)) {
      forall x ensures Due(loans, x) <= Standing(ss, x, initial(x)) {
        if 0 < Due(loans, x) {
          var i := DueForSome(loans, x);
          var k :| LastFrom(loans, Targets(ss), k, x) && Due(loans, x) <= loans[k].Debt();
          StandingDecided(ss, x, k, initial(x));
        }
      }
    }
  }

  /** If all loans are to be repaid, the condition is that they are untangled. */
  lemma StandableIffUntangled(loans: seq<Loan>, ss: seq<Swap>)
    requires Served(loans, ss) && AllRepaid(loans)
    requires forall s :: s in ss ==> 0 < s.Debt()
    ensures Standable(loans, Targets(ss)) <==> Untangled(Sources(ss), Targets(ss))
  {
    hide Due, Owed, Standing, Untangled, Standable;
    var initial := (_: Asset) => 0 as nat;
    forall x ensures Due(loans, x) == Owed(ss, x) {
      ServedSums(loans, ss, x);
    }
    StandableIff(loans, ss, initial);
    RepayableIff(ss, initial);
    if Standable(loans, Targets(ss)) {
      forall x ensures Owed(ss, x) <= Standing(ss, x, initial(x)) {
        assert Due(loans, x) <= Standing(ss, x, initial(x));
      }
    }
    if Repayable(ss, initial) {
      forall x ensures Due(loans, x) <= Standing(ss, x, initial(x)) {
        assert Owed(ss, x) <= Standing(ss, x, initial(x));
      }
    }
  }

  /** Borrowing an asset twice can stand, if the later loan of it is not repaid and its allowance covers the earlier one. */
  lemma BorrowingTwiceMayStand()
    ensures
      var loans := [Loan(1, 1000, 1, 0), Loan(1, 5000, 5, 2)];
      Standable(loans, [2, 3]) && !Untangled([1, 1], [2, 3])
  {
    var loans := [Loan(1, 1000, 1, 0), Loan(1, 5000, 5, 2)];
    FirstAndRest(loans, 1);
    OneLoan(loans[1..], 1);
    assert LastFrom(loans, [2, 3], 1, 1);
    var from := [1, 1];
    assert from[0] == from[1];
  }

  class UniswapLiquiditySwapAdapter {
    const base: BaseUniswapAdapter

    constructor (base: BaseUniswapAdapter)
      ensures this.base == base
    {
      this.base := base;
    }

    ghost function EffectOf(ss: seq<Swap>, user: Account): (Token, Account) -> int {
      (t, h) => Total(ss, user, t, h)
    }

    ghost function Total(ss: seq<Swap>, user: Account, t: Token, h: Account): int {
      Effects(ss, base.self, user, t, h)
    }

    /** Swaps what the adapter holds and deposits the proceeds for `user`; the adapter keeps nothing. */
    method SwapIntoDeposit(from: Asset, to: Asset, amount: uint256, minReceived: uint256, user: Account, useEthPath: bool)
      returns (o: Outcome, trade: Trade)
      requires base.Wired()
      modifies base.chain`balances, base.chain`allowances
      ensures o.Pass? ==>
                && trade.path == PathOf(from, to, useEthPath, base.weth)
                && trade.amountIn == amount
                && 0 < trade.amountOut && minReceived <= trade.amountOut
      ensures o.Pass? ==> SoldFairly(base.chain, from, to, amount, trade.amountOut)
      ensures o.Pass? ==> forall t, h ::
                            At(base.chain.balances, t, h) == At(old(base.chain.balances), t, h)
                            + Loss(t, h, Underlying(from), base.self, amount)
                            + MarketFlow(trade, t, h)
                            + Gain(t, h, Underlying(to), Reserve(to), trade.amountOut)
                            + Gain(t, h, ViToken(to), user, trade.amountOut)
      ensures o.Pass? ==> base.chain.allowances ==
                          old(base.chain.allowances)
                            [(Underlying(from), base.self, base.router.self) := 0]
                            [(Underlying(to), base.self, base.pool.self) := 0]
    {
      hide Gain, At, MarketFlow, SaleBound, SoldFairly;
      trade :- base.SwapExactTokensForTokens(from, to, amount, minReceived, useEthPath);
      base.chain.ResetAndApprove(Underlying(to), base.self, base.pool.self, trade.amountOut);
      :- base.pool.Deposit(to, trade.amountOut, user, base.self);
      o := Pass;
      assert base.chain.allowances ==
          old(base.chain.allowances)
            [(Underlying(from), base.self, base.router.self) := 0]
            [(Underlying(to), base.self, base.pool.self) := 0];
    }

    /** The swap is what was asked for, by a user whose deposit in the source was `deposit`. */
    ghost predicate Meets(s: Swap, from: Asset, to: Asset, amount: uint256, premium: uint256, minReceived: uint256,
                          swapAll: bool, useEthPath: bool, deposit: int)
      reads base.chain`prices
    {
      && s.from == from && s.to == to && s.amount == amount && s.premium == premium
      && s.trade.path == PathOf(from, to, useEthPath, base.weth)
      && AmountRule(s.trade.amountIn, swapAll, deposit, amount, premium)
      && 0 < s.trade.amountOut && minReceived <= s.trade.amountOut
      && 0 < s.trade.amountIn + s.premium
      && s.Debt() < TWO_256
      && SoldFairly(base.chain, from, to, s.trade.amountIn, s.trade.amountOut)
    }

    method SwapLiquidity(from: Asset, to: Asset, amount: uint256, premium: uint256, initiator: Account,
                         minReceived: uint256, swapAll: bool, useEthPath: bool)
      returns (o: Outcome, s: Swap)
      requires base.Wired()
      modifies base.chain`balances, base.chain`allowances
      ensures o.Pass? ==> Meets(s, from, to, amount, premium, minReceived, swapAll, useEthPath,
                                At(old(base.chain.balances), ViToken(from), initiator))
      ensures o.Pass? ==> forall t, h ::
                            At(base.chain.balances, t, h) == At(old(base.chain.balances), t, h)
                            + Effect(s, base.self, initiator, t, h)
      ensures o.Pass? ==> AllowancesAfter(old(base.chain.allowances), base.chain.allowances, s, initiator)
      ensures o.Pass? && !swapAll ==> s.trade.amountIn == amount
      ensures o.Pass? && swapAll ==>
                var deposit := At(old(base.chain.balances), ViToken(from), initiator);
                && s.trade.amountIn <= amount && s.trade.amountIn + premium <= deposit
                && (s.trade.amountIn == amount || s.trade.amountIn + premium == deposit)
      ensures o.Pass? && from != to ==>
                && At(base.chain.balances, ViToken(from), initiator) as int ==
                   At(old(base.chain.balances), ViToken(from), initiator) - (s.trade.amountIn + premium)
                && At(base.chain.balances, ViToken(to), initiator) ==
                   At(old(base.chain.balances), ViToken(to), initiator) + s.trade.amountOut
    {
      hide At, Effect, Meets, AllowancesAfter;
      ghost var start := base.chain.balances;
      o, s := SwapLiquidityBody(from, to, amount, premium, initiator, minReceived, swapAll, useEthPath);
      if o.Pass? {
        MeetsPlainly(s, from, to, amount, premium, minReceived, swapAll, useEthPath, At(start, ViToken(from), initiator));
        MovesDeposits(start, base.chain.balances, s, initiator);
      }
    }

    method SwapLiquidityBody(from: Asset, to: Asset, amount: uint256, premium: uint256, initiator: Account,
                             minReceived: uint256, swapAll: bool, useEthPath: bool)
      returns (o: Outcome, s: Swap)
      requires base.Wired()
      modifies base.chain`balances, base.chain`allowances
      ensures o.Pass? ==> Meets(s, from, to, amount, premium, minReceived, swapAll, useEthPath,
                                At(old(base.chain.balances), ViToken(from), initiator))
      ensures o.Pass? ==> forall t, h ::
                            At(base.chain.balances, t, h) == At(old(base.chain.balances), t, h)
                            + Effect(s, base.self, initiator, t, h)
      ensures o.Pass? ==> AllowancesAfter(old(base.chain.allowances), base.chain.allowances, s, initiator)
    {
      hide Gain, At, MarketFlow, SaleBound, SoldFairly;
      var chain, pool, self := base.chain, base.pool, base.self;
      s := Swap(from, to, amount, premium, NO_TRADE);
      var balance := At(chain.balances, ViToken(from), initiator);
      var amountToSwap := amount;
      if swapAll {
        var rest :- Sub(balance, premium);
        if rest <= amount {
          amountToSwap := rest;
        }
      }
      var trade :- SwapIntoDeposit(from, to, amountToSwap, minReceived, initiator, useEthPath);

      var flashLoanDebt :- Add(amount, premium);
      var amountToPull := amountToSwap + premium; // checked, but at most the debt
      :- base.PullViToken(from, initiator, amountToPull);
      chain.ResetAndApprove(Underlying(from), self, pool.self, flashLoanDebt);

      s := Swap(from, to, amount, premium, trade);
      GainAdds(Underlying(from), self, amountToSwap, premium);
      o := Pass;
    }

    lemma MovesDeposits(b: Balances, b': Balances, s: Swap, user: Account)
      requires base.Wired()
      requires forall t, h :: At(b', t, h) == At(b, t, h) + Effect(s, base.self, user, t, h)
      ensures s.from != s.to ==>
                && At(b', ViToken(s.from), user) as int == At(b, ViToken(s.from), user) - (s.trade.amountIn + s.premium)
                && At(b', ViToken(s.to), user) == At(b, ViToken(s.to), user) + s.trade.amountOut
    {
      hide At;
      if s.from != s.to {
        OneSwapMoves(s, base.self, user);
      }
    }

    /** The loan callback: one swap per loan, in the order of the loans. */
    method ExecuteOperation(sender: Account, assets: seq<Asset>, amounts: seq<uint256>, premiums: seq<uint256>,
                            initiator: Account, params: SwapParams)
      returns (o: Outcome, swaps: seq<Swap>)
      requires base.Wired()
      modifies base.chain`balances, base.chain`allowances
      ensures o.Pass? ==>
                && sender == base.pool.self
                && |swaps| == |assets| <= |amounts|
                && |assets| <= |premiums|
                && |assets| == |params.assetToSwapToList| == |params.minAmountsToReceive|
                && |assets| == |params.swapAllBalance| == |params.useEthPath|
      ensures o.Pass? ==> Followed(swaps, assets, amounts, premiums, params, old(base.chain.balances), initiator)
      ensures o.Pass? ==> Carried(old(base.chain.balances), base.chain.balances, EffectOf(swaps, initiator))
      ensures o.Pass? ==> LeavesStanding(old(base.chain.allowances), base.chain.allowances, swaps, initiator)
    {
      swaps := [];
      :- Need(sender == base.pool.self, Unauthorized);
      :- Need(&& |assets| == |params.assetToSwapToList| == |params.minAmountsToReceive|
              && |assets| == |params.swapAllBalance| == |params.useEthPath|, InconsistentParams);
      :- Need(|assets| <= |amounts| && |assets| <= |premiums|, OutOfBounds);
      NoEffects(base.self, initiator);
      ghost var b, a := base.chain.balances, base.chain.allowances;
      assert Carried(b, b, EffectOf([], initiator));
      hide Followed, Carried, LeavesStanding;
      FollowedNone(assets, amounts, premiums, params, b, initiator);
      StandingNone(a, initiator);
      for i := 0 to |assets|
        invariant |swaps| == i
        invariant Followed(swaps, assets, amounts, premiums, params, b, initiator)
        invariant Carried(b, base.chain.balances, EffectOf(swaps, initiator))
        invariant LeavesStanding(a, base.chain.allowances, swaps, initiator)
      {
        swaps :- SwapOneMore(swaps, assets, amounts, premiums, initiator, params, b, a);
      }
      o := Pass;
    }

    /** One turn of the loop: the next loan is swapped, and what held of the swaps so far holds of one more. */
    method SwapOneMore(swaps: seq<Swap>, assets: seq<Asset>, amounts: seq<uint256>, premiums: seq<uint256>,
                       initiator: Account, params: SwapParams, ghost b: Balances, ghost a: Allowances)
      returns (o: Outcome, swaps': seq<Swap>)
      requires base.Wired()
      requires Followed(swaps, assets, amounts, premiums, params, b, initiator)
      requires |swaps| < |assets| == |params.useEthPath| && |assets| <= |amounts| && |assets| <= |premiums|
      requires |assets| == |params.assetToSwapToList| == |params.minAmountsToReceive| == |params.swapAllBalance|
      requires Carried(b, base.chain.balances, EffectOf(swaps, initiator))
      requires LeavesStanding(a, base.chain.allowances, swaps, initiator)
      modifies base.chain`balances, base.chain`allowances
      ensures o.Pass? ==>
                && |swaps'| == |swaps| + 1
                && Followed(swaps', assets, amounts, premiums, params, b, initiator)
                && Carried(b, base.chain.balances, EffectOf(swaps', initiator))
                && LeavesStanding(a, base.chain.allowances, swaps', initiator)
    {
      hide At, Effect, Effects, Meets, Followed, AllowancesAfter, Carried, LeavesStanding;
      var i := |swaps|;
      swaps' := swaps;
      ghost var b0, a0 := base.chain.balances, base.chain.allowances;
      CarriedTo(b, b0, swaps, initiator, ViToken(assets[i]), initiator);
      var s :- SwapLiquidity(assets[i], params.assetToSwapToList[i], amounts[i], premiums[i], initiator,
        params.minAmountsToReceive[i], params.swapAllBalance[i], params.useEthPath[i]);
      CarriedSnoc(b, b0, base.chain.balances, swaps, s, initiator);
      StandingOneMore(a, a0, base.chain.allowances, swaps, s, initiator);
      FollowedOneMore(swaps, s, assets, amounts, premiums, params, b, initiator);
      swaps' := swaps + [s];
      o := Pass;
    }

    lemma CarriedTo(b: Balances, b': Balances, swaps: seq<Swap>, user: Account, t: Token, h: Account)
      requires Carried(b, b', EffectOf(swaps, user))
      ensures At(b', t, h) == At(b, t, h) + Total(swaps, user, t, h)
    {
    }

    lemma CarriedSnoc(b: Balances, b0: Balances, b': Balances, swaps: seq<Swap>, s: Swap, user: Account)
      requires Carried(b, b0, EffectOf(swaps, user))
      requires forall t, h :: At(b', t, h) == At(b0, t, h) + Effect(s, base.self, user, t, h)
      ensures Carried(b, b', EffectOf(swaps + [s], user))
    {
      hide At, Effect, Effects;
      EffectsSnoc(swaps, s, base.self, user);
    }

    /** Every swap is what its loan and its parameters ask for, given the swaps before it. */
    ghost predicate Followed(swaps: seq<Swap>, assets: seq<Asset>, amounts: seq<uint256>, premiums: seq<uint256>,
                             params: SwapParams, b: Balances, initiator: Account)
      reads base.chain`prices
    {
      && |swaps| <= |assets| <= |amounts|
      && |assets| <= |premiums|
      && |assets| == |params.assetToSwapToList| == |params.minAmountsToReceive| == |params.swapAllBalance|
      && |swaps| <= |params.useEthPath|
      && forall i :: 0 <= i < |swaps| ==>
                       Meets(swaps[i], assets[i], params.assetToSwapToList[i], amounts[i], premiums[i],
                             params.minAmountsToReceive[i], params.swapAllBalance[i], params.useEthPath[i],
                             At(b, ViToken(assets[i]), initiator)
                               + Total(swaps[..i], initiator, ViToken(assets[i]), initiator))
    }

    lemma FollowedNone(assets: seq<Asset>, amounts: seq<uint256>, premiums: seq<uint256>, params: SwapParams,
                       b: Balances, initiator: Account)
      requires |assets| <= |amounts| && |assets| <= |premiums|
      requires |assets| == |params.assetToSwapToList| == |params.minAmountsToReceive| == |params.swapAllBalance|
      ensures Followed([], assets, amounts, premiums, params, b, initiator)
    {
    }

    lemma FollowedOneMore(swaps: seq<Swap>, s: Swap, assets: seq<Asset>, amounts: seq<uint256>, premiums: seq<uint256>,
                          params: SwapParams, b: Balances, initiator: Account)
      requires Followed(swaps, assets, amounts, premiums, params, b, initiator)
      requires |swaps| < |assets| && |swaps| < |params.useEthPath|
      requires
        var i := |swaps|;
        Meets(s, assets[i], params.assetToSwapToList[i], amounts[i], premiums[i], params.minAmountsToReceive[i],
              params.swapAllBalance[i], params.useEthPath[i],
              At(b, ViToken(assets[i]), initiator) + Total(swaps, initiator, ViToken(assets[i]), initiator))
      ensures Followed(swaps + [s], assets, amounts, premiums, params, b, initiator)
    {
      hide At, Effects, Meets;
      var longer := swaps + [s];
      assert forall k :: 0 <= k < |swaps| ==> longer[..k] == swaps[..k];
      assert longer[..|swaps|] == swaps;
    }

    lemma FollowedAll(swaps: seq<Swap>, assets: seq<Asset>, amounts: seq<uint256>, premiums: seq<uint256>,
                      params: SwapParams, b: Balances, initiator: Account)
      requires Followed(swaps, assets, amounts, premiums, params, b, initiator) && |swaps| == |assets|
      ensures forall s :: s in swaps ==> 0 < s.Debt() < TWO_256
      ensures forall i :: 0 <= i < |swaps| ==>
                            && swaps[i].from == assets[i]
                            && swaps[i].amount == amounts[i]
                            && swaps[i].premium == premiums[i]
      ensures Sources(swaps) == assets && Targets(swaps) == params.assetToSwapToList
    {
      hide At, SoldFairly, Effects;
    }

    /** After a swap the pool may take exactly the debt, and nothing of the target. */
    ghost predicate AllowancesAfter(a: Allowances, a': Allowances, s: Swap, user: Account) {
      var viAllowance := Allowed(a, ViToken(s.from), user, base.self);
      && s.trade.amountIn + s.premium <= viAllowance
      && s.Debt() < TWO_256
      && a' == a[(Underlying(s.from), base.self, base.router.self) := 0]
        [(Underlying(s.to), base.self, base.pool.self) := 0]
        [(ViToken(s.from), user, base.self) := viAllowance - (s.trade.amountIn + s.premium)]
        [(Underlying(s.from), base.self, base.pool.self) := s.Debt()]
    }

    /** What the pool may take of each asset after the swaps; nobody else's allowances have changed. */
    ghost predicate LeavesStanding(a: Allowances, a': Allowances, swaps: seq<Swap>, user: Account) {
      && (forall x ::
            Allowed(a', Underlying(x), base.self, base.pool.self) ==
            Standing(swaps, x, Allowed(a, Underlying(x), base.self, base.pool.self)))
      && OthersKeepAllowances(a, a', user)
    }

    lemma StandingNone(a: Allowances, user: Account)
      ensures LeavesStanding(a, a, [], user)
    {
    }

    lemma StandingOneMore(a: Allowances, a0: Allowances, a': Allowances, swaps: seq<Swap>, s: Swap, user: Account)
      requires base.Wired()
      requires LeavesStanding(a, a0, swaps, user)
      requires AllowancesAfter(a0, a', s, user)
      ensures LeavesStanding(a, a', swaps + [s], user)
    {
      StandingSnoc(swaps, s);
      hide Standing;
    }

    /** Only the adapter's own allowances and the one it spends change. */
    ghost predicate OthersKeepAllowances(a: Allowances, a': Allowances, user: Account) {
      forall t: Token, owner, spender :: owner != base.self && !(t.ViToken? && owner == user && spender == base.self) ==>
        Allowed(a', t, owner, spender) == Allowed(a, t, owner, spender)
    }

    /** The pool's `flashLoan` with this adapter as receiver, up to and including the repayment. */
    method FlashLoanBody(initiator: Account, assets: seq<Asset>, amounts: seq<uint256>, modes: seq<nat>,
                         onBehalfOf: Account, params: SwapParams)
      returns (o: Outcome, loans: seq<Loan>, swaps: seq<Swap>)
      requires base.Wired() && initiator != base.self
      modifies base.chain`balances, base.chain`allowances
      ensures o.Pass? ==>
                && |swaps| == |assets| == |amounts| == |params.assetToSwapToList| == |params.minAmountsToReceive|
                && |assets| == |params.swapAllBalance| <= |params.useEthPath|
                && forall i :: 0 <= i < |swaps| ==>
                                 && swaps[i].from == assets[i]
                                 && swaps[i].to == params.assetToSwapToList[i]
                                 && swaps[i].premium as int == amounts[i] as int * 9 / 10000
                                 && swaps[i].trade.amountIn <= amounts[i]
                                 && (!params.swapAllBalance[i] ==> swaps[i].trade.amountIn == amounts[i])
                                 && params.minAmountsToReceive[i] <= swaps[i].trade.amountOut
                                 && (params.useEthPath[i] <==> |swaps[i].trade.path| == 3)
      ensures o.Pass? ==> forall x ::
                            At(base.chain.balances, ViToken(x), initiator) as int ==
                            At(old(base.chain.balances), ViToken(x), initiator)
                            + DepositedIn(swaps, x) - TakenFrom(swaps, x)
      ensures o.Pass? && |assets| == 1 && assets[0] != params.assetToSwapToList[0] ==>
                var s, from, to := swaps[0], ViToken(assets[0]), ViToken(params.assetToSwapToList[0]);
                && At(base.chain.balances, from, initiator) as int ==
                   At(old(base.chain.balances), from, initiator) - (s.trade.amountIn + s.premium)
                && At(base.chain.balances, to, initiator) ==
                   At(old(base.chain.balances), to, initiator) + s.trade.amountOut
      ensures o.Pass? && AllRepaid(loans) ==> Untangled(assets, params.assetToSwapToList)
      ensures o.Pass? ==>
                && Executed(loans, swaps, assets, amounts, modes, params, old(base.chain.balances), initiator)
                && Booked(old(base.chain.balances), base.chain.balances, base.self, onBehalfOf, loans,
                          EffectOf(swaps, initiator))
                && UsesUp(old(base.chain.allowances), base.chain.allowances, swaps, loans)
                && Standable(loans, params.assetToSwapToList)
                && BorrowsArePositive(loans)
    {
      loans, swaps := [], [];
      hide At, Allowed, Effects, Lent, Due, Borrowed, Standing, Covered, Untangled, Standable, Followed, LeavesStanding;
      hide Booked, LentOut, Carried, AllRepaid, UsesUp, DepositedIn, TakenFrom, BorrowsArePositive;
      ghost var start := base.chain.balances;
      loans :- base.pool.Lend(base.self, assets, amounts, modes);
      ghost var lent, initial := base.chain.balances, base.chain.allowances;
      var premiums := PremiumsOf(loans);
      swaps :- ExecuteOperation(base.pool.self, assets, amounts, premiums, initiator, params);
      FollowedAll(swaps, assets, amounts, premiums, params, lent, initiator);
      FollowedBefore(start, lent, loans, swaps, assets, amounts, params, initiator);
      o := SettleSwaps(loans, swaps, initiator, onBehalfOf, start, lent, initial);
      if o.Pass? {
        FollowedPlainly(swaps, assets, amounts, premiums, params, start, initiator);
        DepositsAfter(start, base.chain.balances, loans, swaps, initiator, onBehalfOf);
        if |swaps| == 1 && swaps[0].from != swaps[0].to {
          SingleDeposits(start, base.chain.balances, swaps, initiator);
        }
      }
    }

    /**
     The end of `flashLoan`, from where the callback leaves the adapter. It completes only if the loans
     are standable, and if they are, nothing but a rejected borrow can stop it.
     */
    method SettleSwaps(loans: seq<Loan>, swaps: seq<Swap>, initiator: Account, onBehalfOf: Account,
                       ghost start: Balances, ghost lent: Balances, ghost initial: Allowances)
      returns (o: Outcome)
      requires base.Wired() && initiator != base.self
      requires Served(loans, swaps) && forall s :: s in swaps ==> 0 < s.Debt() < TWO_256
      requires LentOut(start, lent, base.self, loans)
      requires Carried(lent, base.chain.balances, EffectOf(swaps, initiator))
      requires LeavesStanding(initial, base.chain.allowances, swaps, initiator)
      modifies base.chain`balances, base.chain`allowances
      ensures o.Pass? ==> Booked(start, base.chain.balances, base.self, onBehalfOf, loans, EffectOf(swaps, initiator))
      ensures o.Pass? ==> BorrowsArePositive(loans)
      ensures o.Pass? ==> UsesUp(initial, base.chain.allowances, swaps, loans)
      ensures o.Pass? ==> Standable(loans, Targets(swaps))
      ensures Standable(loans, Targets(swaps)) ==> GoesThrough(o, loans)
      ensures AllRepaid(loans) ==>
                && (o.Pass? ==> Untangled(Sources(swaps), Targets(swaps)))
                && (Untangled(Sources(swaps), Targets(swaps)) ==> o.Pass? || o.reason == CreditOverflow)
    {
      assert forall x :: Allowed(base.chain.allowances, Underlying(x), base.self, base.pool.self) ==
                         Standing(swaps, x, Allowed(initial, Underlying(x), base.self, base.pool.self));
      hide At, Allowed, Effects, Lent, Due, Borrowed, Standing, Covered, Untangled, Standable, LeavesStanding;
      hide Booked, LentOut, Carried, AllRepaid;
      ghost var served := base.chain.balances;
      AboutToSettle(start, lent, served, initial, base.chain.allowances, loans, swaps, initiator);
      DebtsFit(loans, swaps);
      if AllRepaid(loans) {
        StandableIffUntangled(loans, swaps);
      }
      o := base.pool.Settle(base.self, loans, onBehalfOf);
      if o.Pass? {
        BookedThrough(start, lent, served, base.chain.balances, base.self, onBehalfOf, loans, EffectOf(swaps, initiator));
      }
    }

    /** What the pool may still take at the end: what the swaps left standing, less what was due. */
    ghost predicate UsesUp(a: Allowances, a': Allowances, swaps: seq<Swap>, loans: seq<Loan>) {
      forall x :: Allowed(a', Underlying(x), base.self, base.pool.self) as int ==
                  Left(Underlying(x) in base.chain.everlasting,
                       Standing(swaps, x, Allowed(a, Underlying(x), base.self, base.pool.self)), Due(loans, x))
    }

    /** The pool finds what it needs exactly if the loans are standable. */
    lemma AboutToSettle(start: Balances, lent: Balances, b: Balances, initial: Allowances, a: Allowances, loans: seq<Loan>,
                        swaps: seq<Swap>, initiator: Account)
      requires base.Wired() && initiator != base.self
      requires Served(loans, swaps)
      requires forall s :: s in swaps ==> 0 < s.Debt()
      requires LentOut(start, lent, base.self, loans)
      requires Carried(lent, b, EffectOf(swaps, initiator))
      requires LeavesStanding(initial, a, swaps, initiator)
      ensures Covered(b, a, base.self, base.pool.self, loans) <==> Standable(loans, Targets(swaps))
    {
      var before := (x: Asset) => Allowed(initial, Underlying(x), base.self, base.pool.self) as nat;
      StandableIff(loans, swaps, before);
      forall x ensures Due(loans, x) <= At(b, Underlying(x), base.self) {
        AdapterGainsPremiums(swaps, base.self, initiator, Underlying(x));
        ServedSums(loans, swaps, x);
        LoansBalance(loans, x);
        assert Lent(loans, x) <= At(lent, Underlying(x), base.self);
      }
      hide Standing, Due, Effects, Standable;
      if Covered(b, a, base.self, base.pool.self, loans) {
        forall x ensures Due(loans, x) <= Standing(swaps, x, before(x)) {
          assert Due(loans, x) <= Allowed(a, Underlying(x), base.self, base.pool.self);
        }
      }
      if forall x :: Due(loans, x) <= Standing(swaps, x, before(x)) {
        forall x ensures Due(loans, x) <= Allowed(a, Underlying(x), base.self, base.pool.self) {
          assert Due(loans, x) <= Standing(swaps, x, before(x));
        }
      }
    }

    lemma DebtsFit(loans: seq<Loan>, swaps: seq<Swap>)
      requires Served(loans, swaps)
      requires forall s :: s in swaps ==> s.Debt() < TWO_256
      ensures Claimable(loans)
    {
      assert forall i :: 0 <= i < |loans| ==>
                           loans[i] in loans && swaps[i] in swaps && loans[i].Debt() == swaps[i].Debt();
    }

    /** The callback ran to its end: the loans are those asked for, and the swaps follow them. */
    ghost predicate Executed(loans: seq<Loan>, swaps: seq<Swap>, assets: seq<Asset>, amounts: seq<uint256>,
                             modes: seq<nat>, params: SwapParams, b: Balances, initiator: Account)
      reads base.chain`prices
    {
      && LoansFor(loans, assets, amounts, modes)
      && |swaps| == |assets| == |params.assetToSwapToList|
      && Followed(swaps, assets, amounts, PremiumsOf(loans), params, b, initiator)
    }

    /** Paying out the loans moves no viTokens. */
    lemma FollowedBefore(start: Balances, lent: Balances, loans: seq<Loan>, swaps: seq<Swap>, assets: seq<Asset>,
                         amounts: seq<uint256>, params: SwapParams, initiator: Account)
      requires LentOut(start, lent, base.self, loans)
      requires Followed(swaps, assets, amounts, PremiumsOf(loans), params, lent, initiator)
      ensures Followed(swaps, assets, amounts, PremiumsOf(loans), params, start, initiator)
    {
      hide At, Meets, Effects;
    }

    /**
     The whole transaction: it either completes or leaves no trace. When it completes, the adapter
     holds what it held before plus what the loans in a borrow mode left with it.
     */
    method FlashLoan(initiator: Account, assets: seq<Asset>, amounts: seq<uint256>, modes: seq<nat>,
                     onBehalfOf: Account, params: SwapParams)
      returns (o: Outcome, loans: seq<Loan>, swaps: seq<Swap>)
      requires base.Wired() && initiator != base.self
      modifies base.chain`balances, base.chain`allowances
      ensures o.Pass? ==>
                && |swaps| == |assets| == |amounts| == |params.assetToSwapToList| == |params.minAmountsToReceive|
                && |assets| == |params.swapAllBalance| <= |params.useEthPath|
                && forall i :: 0 <= i < |swaps| ==>
                                 && swaps[i].from == assets[i]
                                 && swaps[i].to == params.assetToSwapToList[i]
                                 && swaps[i].premium as int == amounts[i] as int * 9 / 10000
                                 && swaps[i].trade.amountIn <= amounts[i]
                                 && (!params.swapAllBalance[i] ==> swaps[i].trade.amountIn == amounts[i])
                                 && params.minAmountsToReceive[i] <= swaps[i].trade.amountOut
                                 && (params.useEthPath[i] <==> |swaps[i].trade.path| == 3)
      ensures o.Pass? ==> forall x ::
                            At(base.chain.balances, ViToken(x), initiator) as int ==
                            At(old(base.chain.balances), ViToken(x), initiator)
                            + DepositedIn(swaps, x) - TakenFrom(swaps, x)
      ensures o.Pass? && |assets| == 1 && assets[0] != params.assetToSwapToList[0] ==>
                var s, from, to := swaps[0], ViToken(assets[0]), ViToken(params.assetToSwapToList[0]);
                && At(base.chain.balances, from, initiator) as int ==
                   At(old(base.chain.balances), from, initiator) - (s.trade.amountIn + s.premium)
                && At(base.chain.balances, to, initiator) ==
                   At(old(base.chain.balances), to, initiator) + s.trade.amountOut
      ensures o.Pass? && AllRepaid(loans) ==> Untangled(assets, params.assetToSwapToList)
      ensures o.Revert? ==> base.chain.balances == old(base.chain.balances)
      ensures o.Revert? ==> base.chain.allowances == old(base.chain.allowances)
      ensures o.Pass? ==>
                && Executed(loans, swaps, assets, amounts, modes, params, old(base.chain.balances), initiator)
                && Booked(old(base.chain.balances), base.chain.balances, base.self, onBehalfOf, loans,
                          EffectOf(swaps, initiator))
      ensures o.Pass? ==> forall x ::
                            && At(base.chain.balances, Underlying(x), base.self) ==
                               At(old(base.chain.balances), Underlying(x), base.self) + Kept(loans, x)
                            && At(base.chain.balances, ViToken(x), base.self) ==
                               At(old(base.chain.balances), ViToken(x), base.self)
      ensures o.Pass? ==>
                ((forall x :: At(base.chain.balances, Underlying(x), base.self) ==
                              At(old(base.chain.balances), Underlying(x), base.self)) <==> AllRepaid(loans))
      ensures o.Pass? ==>
                && UsesUp(old(base.chain.allowances), base.chain.allowances, swaps, loans)
                && Standable(loans, params.assetToSwapToList)
    {
      hide At, Followed, Booked, Kept, Untangled, Standable, AllRepaid, UsesUp, BorrowsArePositive, DepositedIn, TakenFrom;
      var balances, allowances := base.chain.balances, base.chain.allowances;
      o, loans, swaps := FlashLoanBody(initiator, assets, amounts, modes, onBehalfOf, params);
      if o.Revert? {
        base.chain.balances, base.chain.allowances := balances, allowances;
      } else {
        FollowedAll(swaps, assets, amounts, PremiumsOf(loans), params, balances, initiator);
        BookedForAdapter(balances, base.chain.balances, loans, swaps, initiator, onBehalfOf);
        UnchangedIff(balances, base.chain.balances, base.self, loans);
        if AllRepaid(loans) {
          StandableIffUntangled(loans, swaps);
        }
      }
    }

    lemma MeetsPlainly(s: Swap, from: Asset, to: Asset, amount: uint256, premium: uint256, minReceived: uint256,
                       swapAll: bool, useEthPath: bool, deposit: int)
      requires Meets(s, from, to, amount, premium, minReceived, swapAll, useEthPath, deposit)
      ensures s.from == from && s.to == to && s.premium == premium
      ensures s.trade.amountIn <= amount && (!swapAll ==> s.trade.amountIn == amount)
      ensures minReceived <= s.trade.amountOut && (useEthPath <==> |s.trade.path| == 3)
      ensures swapAll ==> s.trade.amountIn + premium <= deposit
                          && (s.trade.amountIn == amount || s.trade.amountIn + premium == deposit)
    {
      hide SoldFairly;
    }

    lemma FollowedPlainly(swaps: seq<Swap>, assets: seq<Asset>, amounts: seq<uint256>, premiums: seq<uint256>,
                          params: SwapParams, b: Balances, initiator: Account)
      requires Followed(swaps, assets, amounts, premiums, params, b, initiator)
      requires |swaps| == |assets|
      ensures |assets| <= |amounts| && |assets| <= |premiums| && |assets| <= |params.useEthPath|
      ensures |assets| == |params.assetToSwapToList| == |params.minAmountsToReceive| == |params.swapAllBalance|
      ensures forall i :: 0 <= i < |swaps| ==>
                            && swaps[i].from == assets[i]
                            && swaps[i].to == params.assetToSwapToList[i]
                            && swaps[i].premium == premiums[i]
                            && swaps[i].trade.amountIn <= amounts[i]
                            && (!params.swapAllBalance[i] ==> swaps[i].trade.amountIn == amounts[i])
                            && params.minAmountsToReceive[i] <= swaps[i].trade.amountOut
                            && (params.useEthPath[i] <==> |swaps[i].trade.path| == 3)
    {
      hide At, Effects, Meets;
      forall i | 0 <= i < |swaps|
        ensures swaps[i].from == assets[i] && swaps[i].to == params.assetToSwapToList[i]
        ensures swaps[i].premium == premiums[i] && swaps[i].trade.amountIn <= amounts[i]
        ensures !params.swapAllBalance[i] ==> swaps[i].trade.amountIn == amounts[i]
        ensures params.minAmountsToReceive[i] <= swaps[i].trade.amountOut
        ensures params.useEthPath[i] <==> |swaps[i].trade.path| == 3
      {
        MeetsPlainly(swaps[i], assets[i], params.assetToSwapToList[i], amounts[i], premiums[i],
          params.minAmountsToReceive[i], params.swapAllBalance[i], params.useEthPath[i],
          At(b, ViToken(assets[i]), initiator) + Total(swaps[..i], initiator, ViToken(assets[i]), initiator));
      }
    }

    /** A single swap changes the two deposits by what it took and brought in. */
    lemma SingleDeposits(b: Balances, b': Balances, swaps: seq<Swap>, user: Account)
      requires |swaps| == 1 && swaps[0].from != swaps[0].to
      requires forall x :: At(b', ViToken(x), user) as int ==
                           At(b, ViToken(x), user) + DepositedIn(swaps, x) - TakenFrom(swaps, x)
      ensures
        var s := swaps[0];
        && At(b', ViToken(s.from), user) as int == At(b, ViToken(s.from), user) - (s.trade.amountIn + s.premium)
        && At(b', ViToken(s.to), user) == At(b, ViToken(s.to), user) + s.trade.amountOut
    {
      hide At;
      assert swaps == [swaps[0]];
      OneSwapSums(swaps[0]);
      hide DepositedIn, TakenFrom;
    }

    lemma DepositsAfter(b: Balances, b': Balances, loans: seq<Loan>, swaps: seq<Swap>, initiator: Account,
                        onBehalfOf: Account)
      requires Booked(b, b', base.self, onBehalfOf, loans, EffectOf(swaps, initiator))
      ensures forall x :: At(b', ViToken(x), initiator) as int ==
                          At(b, ViToken(x), initiator) + DepositedIn(swaps, x) - TakenFrom(swaps, x)
    {
      hide At;
      forall x
        ensures At(b', ViToken(x), initiator) as int ==
                At(b, ViToken(x), initiator) + DepositedIn(swaps, x) - TakenFrom(swaps, x)
      {
        UserDeposits(swaps, base.self, initiator, x);
        NoDebtTokenIsViToken(loans, x);
      }
    }

    lemma BookedForAdapter(b: Balances, b': Balances, loans: seq<Loan>, swaps: seq<Swap>, initiator: Account,
                           onBehalfOf: Account)
      requires base.Wired() && initiator != base.self
      requires Served(loans, swaps)
      requires Booked(b, b', base.self, onBehalfOf, loans, EffectOf(swaps, initiator))
      ensures forall x ::
                && At(b', Underlying(x), base.self) == At(b, Underlying(x), base.self) + Kept(loans, x)
                && At(b', ViToken(x), base.self) == At(b, ViToken(x), base.self)
    {
      forall x
        ensures At(b', Underlying(x), base.self) == At(b, Underlying(x), base.self) + Kept(loans, x)
        ensures At(b', ViToken(x), base.self) == At(b, ViToken(x), base.self)
      {
        AdapterGainsPremiums(swaps, base.self, initiator, Underlying(x));
        AdapterGainsPremiums(swaps, base.self, initiator, ViToken(x));
        ServedSums(loans, swaps, x);
        LoansBalance(loans, x);
        NoDebtTokenIsViToken(loans, x);
      }
    }

    /** The direct form asks for all of the deposit up to the amount, without a premium. */
    function DirectParams(assetsTo: seq<Asset>, minReceived: seq<uint256>, useEthPath: seq<bool>): SwapParams {
      SwapParams(assetsTo, minReceived, seq(|assetsTo|, _ => true), useEthPath)
    }

    function NoPremiums(n: nat): seq<uint256> {
      seq(n, _ => 0)
    }

    method MoveDeposit(user: Account, from: Asset, to: Asset, amount: uint256, minReceived: uint256, useEthPath: bool)
      returns (o: Outcome, s: Swap)
      requires base.Wired()
      modifies base.chain`balances, base.chain`allowances
      ensures o.Pass? ==> Meets(s, from, to, amount, 0, minReceived, true, useEthPath,
                                At(old(base.chain.balances), ViToken(from), user))
      ensures o.Pass? ==> forall t, h ::
                            At(base.chain.balances, t, h) == At(old(base.chain.balances), t, h)
                            + Effect(s, base.self, user, t, h)
    {
      hide Gain, At, MarketFlow, SaleBound, SoldFairly;
      s := Swap(from, to, amount, 0, NO_TRADE);
      var balance := At(base.chain.balances, ViToken(from), user);
      var amountToSwap := if amount > balance then balance else amount;
      :- base.PullViToken(from, user, amountToSwap);
      var trade :- SwapIntoDeposit(from, to, amountToSwap, minReceived, user, useEthPath);
      NoGain();
      s := Swap(from, to, amount, 0, trade);
      o := Pass;
    }

    method SwapAndDepositBody(user: Account, assetsFrom: seq<Asset>, assetsTo: seq<Asset>, amounts: seq<uint256>,
                              minReceived: seq<uint256>, useEthPath: seq<bool>)
      returns (o: Outcome, swaps: seq<Swap>)
      requires base.Wired()
      modifies base.chain`balances, base.chain`allowances
      ensures o.Pass? ==>
                && |swaps| == |assetsFrom| == |assetsTo| == |amounts| == |minReceived| <= |useEthPath|
                && Followed(swaps, assetsFrom, amounts, NoPremiums(|assetsFrom|),
                            DirectParams(assetsTo, minReceived, useEthPath), old(base.chain.balances), user)
      ensures o.Pass? ==> Carried(old(base.chain.balances), base.chain.balances, EffectOf(swaps, user))
    {
      swaps := [];
      :- Need(|assetsFrom| == |assetsTo| == |amounts| == |minReceived|, InconsistentParams);
      NoEffects(base.self, user);
      ghost var b := base.chain.balances;
      assert Carried(b, b, EffectOf([], user));
      ghost var premiums, params := NoPremiums(|assetsFrom|), DirectParams(assetsTo, minReceived, useEthPath);
      hide Gain, At, Effect, Effects, Meets, Followed, Carried;
      FollowedNone(assetsFrom, amounts, premiums, params, b, user);
      for i := 0 to |assetsFrom|
        invariant |swaps| == i <= |useEthPath|
        invariant Followed(swaps, assetsFrom, amounts, premiums, params, b, user)
        invariant Carried(b, base.chain.balances, EffectOf(swaps, user))
      {
        :- Need(i < |useEthPath|, OutOfBounds);
        ghost var b0 := base.chain.balances;
        var s :- MoveDeposit(user, assetsFrom[i], assetsTo[i], amounts[i], minReceived[i], useEthPath[i]);
        CarriedTo(b, b0, swaps, user, ViToken(assetsFrom[i]), user);
        CarriedSnoc(b, b0, base.chain.balances, swaps, s, user);
        FollowedOneMore(swaps, s, assetsFrom, amounts, premiums, params, b, user);
        swaps := swaps + [s];
      }
      o := Pass;
    }

    /** The direct form, without a flash loan: the adapter's balances are what they were. */
    method SwapAndDeposit(user: Account, assetsFrom: seq<Asset>, assetsTo: seq<Asset>, amounts: seq<uint256>,
                          minReceived: seq<uint256>, useEthPath: seq<bool>)
      returns (o: Outcome, swaps: seq<Swap>)
      requires base.Wired() && user != base.self
      modifies base.chain`balances, base.chain`allowances
      ensures o.Revert? ==> base.chain.balances == old(base.chain.balances)
      ensures o.Revert? ==> base.chain.allowances == old(base.chain.allowances)
      ensures o.Pass? ==>
                && |swaps| == |assetsFrom| == |assetsTo| == |amounts| == |minReceived| <= |useEthPath|
                && Followed(swaps, assetsFrom, amounts, NoPremiums(|assetsFrom|),
                            DirectParams(assetsTo, minReceived, useEthPath), old(base.chain.balances), user)
      ensures o.Pass? ==> Carried(old(base.chain.balances), base.chain.balances, EffectOf(swaps, user))
      ensures o.Pass? ==> forall t :: At(base.chain.balances, t, base.self) == At(old(base.chain.balances), t, base.self)
      ensures o.Pass? ==> forall i :: 0 <= i < |swaps| ==>
                                        && swaps[i].from == assetsFrom[i] && swaps[i].to == assetsTo[i]
                                        && swaps[i].premium == 0
                                        && swaps[i].trade.amountIn <= amounts[i]
                                        && minReceived[i] <= swaps[i].trade.amountOut
                                        && (useEthPath[i] <==> |swaps[i].trade.path| == 3)
      ensures o.Pass? ==> forall x ::
                            At(base.chain.balances, ViToken(x), user) as int ==
                            At(old(base.chain.balances), ViToken(x), user) + DepositedIn(swaps, x) - TakenFrom(swaps, x)
      ensures o.Pass? && |assetsFrom| == 1 && assetsFrom[0] != assetsTo[0] ==>
                var sold, deposit := swaps[0].trade.amountIn, At(old(base.chain.balances), ViToken(assetsFrom[0]), user);
                && sold <= deposit && (sold == amounts[0] || sold == deposit)
                && At(base.chain.balances, ViToken(assetsFrom[0]), user) as int == deposit - sold
                && At(base.chain.balances, ViToken(assetsTo[0]), user) ==
                   At(old(base.chain.balances), ViToken(assetsTo[0]), user) + swaps[0].trade.amountOut
    {
      hide Followed, At;
      var balances, allowances := base.chain.balances, base.chain.allowances;
      o, swaps := SwapAndDepositBody(user, assetsFrom, assetsTo, amounts, minReceived, useEthPath);
      if o.Revert? {
        base.chain.balances, base.chain.allowances := balances, allowances;
      } else {
        FollowedAll(swaps, assetsFrom, amounts, NoPremiums(|assetsFrom|), DirectParams(assetsTo, minReceived, useEthPath),
          balances, user);
        forall t ensures At(base.chain.balances, t, base.self) == At(balances, t, base.self) {
          AdapterGainsPremiums(swaps, base.self, user, t);
          if t.Underlying? {
            PremiumFree(swaps, t.asset);
          }
        }
        DirectDeposits(balances, base.chain.balances, swaps, user);
        FollowedPlainly(swaps, assetsFrom, amounts, NoPremiums(|assetsFrom|), DirectParams(assetsTo, minReceived, useEthPath),
          balances, user);
        hide DepositedIn, TakenFrom, PremiumsOn, Effects, Carried;
        if |swaps| == 1 && swaps[0].from != swaps[0].to {
          SingleDirect(balances, swaps, assetsFrom, amounts, NoPremiums(1), DirectParams(assetsTo, minReceived, useEthPath),
            user);
          SingleDeposits(balances, base.chain.balances, swaps, user);
        }
      }
    }

    lemma DirectDeposits(b: Balances, b': Balances, swaps: seq<Swap>, user: Account)
      requires Carried(b, b', EffectOf(swaps, user))
      ensures forall x :: At(b', ViToken(x), user) as int ==
                          At(b, ViToken(x), user) + DepositedIn(swaps, x) - TakenFrom(swaps, x)
    {
      hide At;
      forall x
        ensures At(b', ViToken(x), user) as int ==
                At(b, ViToken(x), user) + DepositedIn(swaps, x) - TakenFrom(swaps, x)
      {
        UserDeposits(swaps, base.self, user, x);
      }
    }

    /** A single direct swap sells all of the deposit up to the amount. */
    lemma SingleDirect(b: Balances, swaps: seq<Swap>, assetsFrom: seq<Asset>, amounts: seq<uint256>,
                       premiums: seq<uint256>, params: SwapParams, user: Account)
      requires |swaps| == |assetsFrom| == 1 && |premiums| == 1 && premiums[0] == 0
      requires Followed(swaps, assetsFrom, amounts, premiums, params, b, user) && params.swapAllBalance[0]
      ensures
        var sold, deposit := swaps[0].trade.amountIn, At(b, ViToken(assetsFrom[0]), user);
        sold <= deposit && (sold == amounts[0] || sold == deposit)
    {
      assert swaps[..0] == [];
      NoEffects(base.self, user);
      hide At, Effects, Meets;
      MeetsPlainly(swaps[0], assetsFrom[0], params.assetToSwapToList[0], amounts[0], 0, params.minAmountsToReceive[0], true,
        params.useEthPath[0], At(b, ViToken(assetsFrom[0]), user));
    }

    lemma {:induction false} PremiumFree(ss: seq<Swap>, x: Asset)
      requires forall i :: 0 <= i < |ss| ==> ss[i].premium == 0
      ensures PremiumsOn(ss, x) == 0
    {
      if |ss| == 0 {
      } else {
        PremiumFree(ss[..|ss| - 1], x);
      }
    }
  }
}
