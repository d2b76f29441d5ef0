/**
 The lending pool as its callers see it: deposits, withdrawals, repayments, liquidations and flash
 loans move exactly the amounts below. Interest is not modelled: a viToken is worth one unit of
 its underlying. Checks that depend on state outside the model (pauses, reserve flags, health
 factors, caps) are free to reject any call.
 */
module Pool {
  import opened Evm
  import opened Ledger

  const STABLE := 1
  const VARIABLE := 2

  const FLASHLOAN_PREMIUM_TOTAL: nat := 9

  datatype Loan = Loan(asset: Asset, amount: uint256, premium: uint256, mode: nat) {
    function Debt(): nat {
      amount + premium
    }

    /** What the pool pulls back when the transaction ends. */
    function Due(): nat {
      if mode == 0 then Debt() else 0
    }

    /** What it leaves with the receiver instead, against a debt of `onBehalfOf`. */
    function Kept(): nat {
      if mode == 0 then 0 else Debt()
    }
  }

  /** The loans that the pool's caller asks for. */
  function LoansOf(assets: seq<Asset>, amounts: seq<uint256>, modes: seq<nat>): seq<Loan>
    requires |assets| == |amounts| <= |modes|
  {
    seq(|assets|, i requires 0 <= i < |assets| =>
      Loan(assets[i], amounts[i], amounts[i] * FLASHLOAN_PREMIUM_TOTAL / 10000, modes[i]))
  }

  ghost predicate LoansFor(loans: seq<Loan>, assets: seq<Asset>, amounts: seq<uint256>, modes: seq<nat>) {
    |assets| == |amounts| <= |modes| && loans == LoansOf(assets, amounts, modes)
  }

  function PremiumsOf(loans: seq<Loan>): seq<uint256> {
    seq(|loans|, i requires 0 <= i < |loans| => loans[i].premium)
  }

  function DebtToken(asset: Asset, mode: nat): Token {
    if mode == STABLE then StableDebt(asset) else VariableDebt(asset)
  }

  /** The two debts are kept apart, and what is not stable is variable. */
  lemma DebtsAreApart(asset: Asset)
    ensures DebtToken(asset, 1) == StableDebt(asset) && DebtToken(asset, 2) == VariableDebt(asset)
    ensures DebtToken(asset, 0) == VariableDebt(asset)
  {
  }

  // ---- sums over a list of loans

  function Lent(loans: seq<Loan>, x: Asset): nat {
    if |loans| == 0 then 0
    else Lent(loans[..|loans| - 1], x) + (if loans[|loans| - 1].asset == x then loans[|loans| - 1].amount else 0)
  }

  function Due(loans: seq<Loan>, x: Asset): nat {
    if |loans| == 0 then 0
    else Due(loans[..|loans| - 1], x) + (if loans[|loans| - 1].asset == x then loans[|loans| - 1].Due() else 0)
  }

  function Kept(loans: seq<Loan>, x: Asset): nat {
    if |loans| == 0 then 0
    else Kept(loans[..|loans| - 1], x) + (if loans[|loans| - 1].asset == x then loans[|loans| - 1].Kept() else 0)
  }

  function Premiums(loans: seq<Loan>, x: Asset): nat {
    if |loans| == 0 then 0
    else Premiums(loans[..|loans| - 1], x) + (if loans[|loans| - 1].asset == x then loans[|loans| - 1].premium else 0)
  }

  /** The debt tokens that loans in a borrow mode leave with `onBehalfOf`. */
  function Borrowed(loans: seq<Loan>, t: Token): nat {
    if |loans| == 0 then 0
    else
      var l := loans[|loans| - 1];
      Borrowed(loans[..|loans| - 1], t) + (if l.mode != 0 && t == DebtToken(l.asset, l.mode) then l.amount else 0)
  }

  lemma {:induction false} DueIsMonotone(loans: seq<Loan>, k: nat, x: Asset)
    requires k <= |loans|
    ensures Due(loans[..k], x) <= Due(loans, x)
  {
    if k == |loans| {
      assert loans[..k] == loans;
    } else {
      assert loans[..|loans| - 1][..k] == loans[..k];
      DueIsMonotone(loans[..|loans| - 1], k, x);
    }
  }

  lemma NothingDue(loans: seq<Loan>)
    ensures forall x :: Due(loans[..0], x) == 0
    ensures forall t :: Borrowed(loans[..0], t) == 0
  {
  }

  lemma OneMoreDue(loans: seq<Loan>, i: nat)
    requires i < |loans|
    ensures forall x :: Due(loans[..i + 1], x) == Due(loans[..i], x) + (if loans[i].asset == x then loans[i].Due() else 0)
    ensures forall t ::
        Borrowed(loans[..i + 1], t) ==
        Borrowed(loans[..i], t)
        + (if loans[i].mode != 0 && t == DebtToken(loans[i].asset, loans[i].mode) then loans[i].amount else 0)
  {
    assert loans[..i + 1][..i] == loans[..i];
  }

  /** Every unit lent or charged is either pulled back or kept. */
  lemma {:induction false} LoansBalance(loans: seq<Loan>, x: Asset)
    ensures Lent(loans, x) + Premiums(loans, x) == Due(loans, x) + Kept(loans, x)
  {
    if |loans| == 0 {
    } else {
      LoansBalance(loans[..|loans| - 1], x);
    }
  }

  lemma {:induction false} FirstAndRest(loans: seq<Loan>, x: Asset)
    requires |loans| > 0
    ensures
      var first, rest := loans[0], loans[1..];
      && Premiums(loans, x) == (if first.asset == x then first.premium else 0) + Premiums(rest, x)
      && Due(loans, x) == (if first.asset == x then first.Due() else 0) + Due(rest, x)
      && Lent(loans, x) == (if first.asset == x then first.amount else 0) + Lent(rest, x)
  {
    var last := |loans| - 1;
    if last == 0 {
    } else {
      FirstAndRest(loans[..last], x);
      assert loans[1..][..last - 1] == loans[..last][1..];
    }
  }

  lemma {:induction false} BorrowedAreNotDue(loans: seq<Loan>, x: Asset)
    requires forall l :: l in loans ==> l.mode != 0
    ensures Due(loans, x) == 0
  {
    if |loans| == 0 {
    } else {
      assert loans[|loans| - 1] in loans;
      BorrowedAreNotDue(loans[..|loans| - 1], x);
    }
  }

  ghost predicate AllRepaid(loans: seq<Loan>) {
    forall l :: l in loans ==> l.mode == 0
  }

  ghost predicate Claimable(loans: seq<Loan>) {
    forall i :: 0 <= i < |loans| ==> loans[i].Debt() < TWO_256
  }

  /** How a settlement ends that finds all it needs: only a borrow may still be rejected. */
  ghost predicate GoesThrough(o: Outcome, loans: seq<Loan>) {
    o.Pass? || o.reason == CreditOverflow || (BorrowRefused(o) && !AllRepaid(loans))
  }

  predicate BorrowRefused(o: Outcome) {
    o.Revert? && (o.reason == Rejected || o.reason == InvalidAmount)
  }

  /** Nobody can borrow nothing. */
  ghost predicate BorrowsArePositive(loans: seq<Loan>) {
    forall l :: l in loans && l.mode != 0 ==> 0 < l.amount
  }

  lemma {:induction false} KeptAtLeast(loans: seq<Loan>, i: nat)
    requires i < |loans|
    ensures loans[i].Kept() <= Kept(loans, loans[i].asset)
  {
    if i == |loans| - 1 {
    } else {
      KeptAtLeast(loans[..|loans| - 1], i);
    }
  }

  lemma {:induction false} DueAtLeast(loans: seq<Loan>, i: nat)
    requires i < |loans|
    ensures loans[i].Due() <= Due(loans, loans[i].asset)
  {
    if i == |loans| - 1 {
    } else {
      DueAtLeast(loans[..|loans| - 1], i);
    }
  }

  lemma {:induction false} DueForSome(loans: seq<Loan>, x: Asset) returns (i: nat)
    requires 0 < Due(loans, x)
    ensures i < |loans| && loans[i].asset == x && loans[i].mode == 0
  {
    var last := |loans| - 1;
    if loans[last].asset == x && loans[last].mode == 0 {
      i := last;
    } else {
      i := DueForSome(loans[..last], x);
    }
  }

  lemma {:induction false} RepaidKeepsNothing(loans: seq<Loan>, x: Asset)
    requires AllRepaid(loans)
    ensures Kept(loans, x) == 0
  {
    if |loans| == 0 {
    } else {
      assert loans[|loans| - 1] in loans;
      RepaidKeepsNothing(loans[..|loans| - 1], x);
    }
  }

  lemma {:induction false} RepaidOpensNoDebt(loans: seq<Loan>, t: Token)
    requires AllRepaid(loans)
    ensures Borrowed(loans, t) == 0
  {
    if |loans| == 0 {
    } else {
      assert loans[|loans| - 1] in loans;
      RepaidOpensNoDebt(loans[..|loans| - 1], t);
    }
  }

  /** A receiver left with what was not repaid is left with nothing exactly when every loan was to be repaid. */
  lemma UnchangedIff(b: Balances, b': Balances, receiver: Account, loans: seq<Loan>)
    requires BorrowsArePositive(loans)
    requires forall x :: At(b', Underlying(x), receiver) == At(b, Underlying(x), receiver) + Kept(loans, x)
    ensures (forall x :: At(b', Underlying(x), receiver) == At(b, Underlying(x), receiver)) <==> AllRepaid(loans)
  {
    hide At;
    if AllRepaid(loans) {
      forall x ensures At(b', Underlying(x), receiver) == At(b, Underlying(x), receiver) {
        RepaidKeepsNothing(loans, x);
      }
    } else {
      var i :| 0 <= i < |loans| && loans[i].mode != 0;
      assert loans[i] in loans;
      KeptAtLeast(loans, i);
      assert At(b', Underlying(loans[i].asset), receiver) != At(b, Underlying(loans[i].asset), receiver);
    }
  }

  lemma {:induction false} NoDebtTokenIsViToken(loans: seq<Loan>, x: Asset)
    ensures Borrowed(loans, ViToken(x)) == 0
  {
    if |loans| == 0 {
    } else {
      NoDebtTokenIsViToken(loans[..|loans| - 1], x);
    }
  }

  lemma OneLoan(loans: seq<Loan>, x: Asset)
    requires |loans| == 1
    ensures Lent(loans, x) == if x == loans[0].asset then loans[0].amount else 0
    ensures Due(loans, x) == if x == loans[0].asset then loans[0].Due() else 0
    ensures Kept(loans, x) == if x == loans[0].asset then loans[0].Kept() else 0
    ensures Premiums(loans, x) == if x == loans[0].asset then loans[0].premium else 0
  {
  }

  lemma OneLoanBorrowed(loans: seq<Loan>, t: Token)
    requires |loans| == 1
    ensures
      var l := loans[0];
      Borrowed(loans, t) == if l.mode != 0 && t == DebtToken(l.asset, l.mode) then l.amount else 0
  {
  }

  class LendingPool {
    const chain: Chain
    const self: Account

    constructor (chain: Chain, self: Account)
      ensures this.chain == chain && this.self == self
    {
      this.chain, this.self := chain, self;
    }

    method Deposit(asset: Asset, amount: uint256, onBehalfOf: Account, caller: Account) returns (o: Outcome)
      modifies chain`balances, chain`allowances
      ensures o.Pass? ==> 0 < amount
      ensures o.Pass? ==> forall t, h ::
                            At(chain.balances, t, h) == At(old(chain.balances), t, h)
                            + Loss(t, h, Underlying(asset), caller, amount)
                            + Gain(t, h, Underlying(asset), Reserve(asset), amount)
                            + Gain(t, h, ViToken(asset), onBehalfOf, amount)
      ensures o.Pass? ==>
                var t, everlasting := Underlying(asset), Underlying(asset) in chain.everlasting;
                && Spendable(old(chain.allowances), everlasting, t, caller, self, amount)
                && chain.allowances == Spent(old(chain.allowances), everlasting, t, caller, self, amount)
    {
      var accepted: bool := *;
      :- Need(accepted, Rejected);
      :- Need(amount != 0, InvalidAmount);
      :- chain.TransferFrom(Underlying(asset), self, caller, Reserve(asset), amount);
      :- chain.Mint(ViToken(asset), onBehalfOf, amount);
      o := Pass;
    }

    method Withdraw(asset: Asset, amount: uint256, to: Account, caller: Account)
      returns (o: Outcome, withdrawn: uint256)
      modifies chain`balances
      ensures o.Pass? ==>
                && withdrawn == (if amount == MAX_UINT256 then At(old(chain.balances), ViToken(asset), caller) else amount)
                && 0 < withdrawn <= At(old(chain.balances), ViToken(asset), caller)
                && (Underlying(asset) in chain.everlasting ==> withdrawn < MAX_UINT256)
      ensures o.Pass? ==> forall t, h ::
                            At(chain.balances, t, h) == At(old(chain.balances), t, h)
                            + Loss(t, h, ViToken(asset), caller, withdrawn)
                            + Loss(t, h, Underlying(asset), Reserve(asset), withdrawn)
                            + Gain(t, h, Underlying(asset), to, withdrawn)
    {
      hide Gain, At;
      withdrawn := 0;
      var accepted: bool := *;
      :- Need(accepted, Rejected);
      var balance := At(chain.balances, ViToken(asset), caller);
      withdrawn := if amount == MAX_UINT256 then balance else amount;
      :- Need(withdrawn != 0, InvalidAmount);
      :- Need(withdrawn <= balance, BalanceTooLow);
      :- chain.Burn(ViToken(asset), caller, withdrawn);
      :- chain.Transfer(Underlying(asset), Reserve(asset), to, withdrawn);
      o := Pass;
    }

    method Repay(asset: Asset, amount: uint256, mode: nat, onBehalfOf: Account, caller: Account)
      returns (o: Outcome, repaid: uint256)
      modifies chain`balances, chain`allowances
      ensures o.Pass? ==>
                && (mode == STABLE || mode == VARIABLE)
                && 0 < repaid == Min(amount, At(old(chain.balances), DebtToken(asset, mode), onBehalfOf))
                && repaid <= At(old(chain.balances), Underlying(asset), caller)
      ensures o.Pass? && mode == 1 ==>
                var debt, debt' := At(old(chain.balances), StableDebt(asset), onBehalfOf),
                    At(chain.balances, StableDebt(asset), onBehalfOf);
                && repaid <= amount && repaid <= debt && (repaid == amount || repaid == debt)
                && debt' as int == debt - repaid
                && At(chain.balances, VariableDebt(asset), onBehalfOf) ==
                   At(old(chain.balances), VariableDebt(asset), onBehalfOf)
      ensures o.Pass? && mode == 2 ==>
                var debt, debt' := At(old(chain.balances), VariableDebt(asset), onBehalfOf),
                    At(chain.balances, VariableDebt(asset), onBehalfOf);
                && repaid <= amount && repaid <= debt && (repaid == amount || repaid == debt)
                && debt' as int == debt - repaid
                && At(chain.balances, StableDebt(asset), onBehalfOf) ==
                   At(old(chain.balances), StableDebt(asset), onBehalfOf)
      ensures o.Pass? ==> forall t, h ::
                            At(chain.balances, t, h) == At(old(chain.balances), t, h)
                            + Loss(t, h, DebtToken(asset, mode), onBehalfOf, repaid)
                            + Loss(t, h, Underlying(asset), caller, repaid)
                            + Gain(t, h, Underlying(asset), Reserve(asset), repaid)
      ensures o.Pass? ==>
                var t, everlasting := Underlying(asset), Underlying(asset) in chain.everlasting;
                && Spendable(old(chain.allowances), everlasting, t, caller, self, repaid)
                && chain.allowances == Spent(old(chain.allowances), everlasting, t, caller, self, repaid)
    {
      hide Gain, At, DebtToken;
      ghost var b := chain.balances;
      repaid := 0;
      var accepted: bool := *;
      :- Need(accepted, Rejected);
      :- Need(mode <= 2, InvalidMode);
      :- Need(amount > 0, InvalidAmount);
      var debt := At(chain.balances, DebtToken(asset, mode), onBehalfOf);
      :- Need(mode != 0 && debt > 0, NoDebt);
      :- Need(amount != MAX_UINT256 || caller == onBehalfOf, InvalidAmount);
      repaid := if amount < debt then amount else debt;
      :- chain.Burn(DebtToken(asset, mode), onBehalfOf, repaid);
      BurningSparesOthers(asset, mode, onBehalfOf, repaid);
      :- chain.TransferFrom(Underlying(asset), self, caller, Reserve(asset), repaid);
      DebtsAreApart(asset);
      OnlyTheDebtFalls(b, chain.balances, asset, mode, onBehalfOf, caller, repaid);
      o := Pass;
    }

    lemma OnlyTheDebtGrows(b: Balances, b': Balances, asset: Asset, mode: nat, onBehalfOf: Account, caller: Account, n: nat)
      requires mode == 1 || mode == 2
      requires forall t, h ::
                 At(b', t, h) == At(b, t, h) + Gain(t, h, DebtToken(asset, mode), onBehalfOf, n)
                                 + Loss(t, h, Underlying(asset), Reserve(asset), n) + Gain(t, h, Underlying(asset), caller, n)
      ensures At(b', StableDebt(asset), onBehalfOf) as int ==
              At(b, StableDebt(asset), onBehalfOf) + (if mode == 1 then n else 0)
      ensures At(b', VariableDebt(asset), onBehalfOf) as int ==
              At(b, VariableDebt(asset), onBehalfOf) + (if mode == 2 then n else 0)
    {
      hide At;
    }

    lemma BurningSparesOthers(asset: Asset, mode: nat, onBehalfOf: Account, n: nat)
      ensures forall x, h :: Loss(Underlying(x), h, DebtToken(asset, mode), onBehalfOf, n) == 0
    {
    }

    lemma OnlyTheDebtFalls(b: Balances, b': Balances, asset: Asset, mode: nat, onBehalfOf: Account, caller: Account, n: nat)
      requires forall t, h ::
                 At(b', t, h) == At(b, t, h) + Loss(t, h, DebtToken(asset, mode), onBehalfOf, n)
                                 + Loss(t, h, Underlying(asset), caller, n) + Gain(t, h, Underlying(asset), Reserve(asset), n)
      ensures
        var stable, variable := StableDebt(asset), VariableDebt(asset);
        if mode == 1
        then At(b', stable, onBehalfOf) as int == At(b, stable, onBehalfOf) - n
             && At(b', variable, onBehalfOf) == At(b, variable, onBehalfOf)
        else At(b', variable, onBehalfOf) as int == At(b, variable, onBehalfOf) - n
             && At(b', stable, onBehalfOf) == At(b, stable, onBehalfOf)
    {
      hide At;
    }

    method Borrow(asset: Asset, amount: uint256, mode: nat, onBehalfOf: Account, caller: Account) returns (o: Outcome)
      modifies chain`balances
      ensures o.Pass? ==> (mode == STABLE || mode == VARIABLE) && 0 < amount
      ensures o.Pass? ==> forall t, h ::
                            At(chain.balances, t, h) == At(old(chain.balances), t, h)
                            + Gain(t, h, DebtToken(asset, mode), onBehalfOf, amount)
                            + Loss(t, h, Underlying(asset), Reserve(asset), amount)
                            + Gain(t, h, Underlying(asset), caller, amount)
      ensures o.Pass? ==>
                && At(chain.balances, StableDebt(asset), onBehalfOf) as int ==
                   At(old(chain.balances), StableDebt(asset), onBehalfOf) + (if mode == 1 then amount else 0)
                && At(chain.balances, VariableDebt(asset), onBehalfOf) as int ==
                   At(old(chain.balances), VariableDebt(asset), onBehalfOf) + (if mode == 2 then amount else 0)
    {
      hide Gain, At, DebtToken;
      ghost var b := chain.balances;
      var accepted: bool := *;
      :- Need(accepted, Rejected);
      :- Need(amount != 0, InvalidAmount);
      :- Need(mode == STABLE || mode == VARIABLE, InvalidMode);
      :- chain.Mint(DebtToken(asset, mode), onBehalfOf, amount);
      :- chain.Transfer(Underlying(asset), Reserve(asset), caller, amount);
      OnlyTheDebtGrows(b, chain.balances, asset, mode, onBehalfOf, caller, amount);
      o := Pass;
    }

    /** Takes some of the debt asset from the caller and releases some collateral of `user` to it. */
    method LiquidationCall(collateral: Asset, debt: Asset, user: Account, debtToCover: uint256, caller: Account)
      returns (o: Outcome, taken: uint256, seized: uint256, variable: uint256)
      modifies chain`balances, chain`allowances
      ensures o.Pass? ==>
                && taken <= debtToCover
                && (Underlying(collateral) in chain.everlasting ==> seized < MAX_UINT256)
                && variable == Min(taken, At(old(chain.balances), VariableDebt(debt), user))
      ensures o.Pass? ==> forall t, h ::
                            At(chain.balances, t, h) == At(old(chain.balances), t, h)
                            + Loss(t, h, VariableDebt(debt), user, variable)
                            + Loss(t, h, StableDebt(debt), user, taken - variable)
                            + Loss(t, h, ViToken(collateral), user, seized)
                            + Loss(t, h, Underlying(collateral), Reserve(collateral), seized)
                            + Gain(t, h, Underlying(collateral), caller, seized)
                            + Loss(t, h, Underlying(debt), caller, taken)
                            + Gain(t, h, Underlying(debt), Reserve(debt), taken)
      ensures o.Pass? ==>
                var t, everlasting := Underlying(debt), Underlying(debt) in chain.everlasting;
                && Spendable(old(chain.allowances), everlasting, t, caller, self, taken)
                && chain.allowances == Spent(old(chain.allowances), everlasting, t, caller, self, taken)
    {
      hide Gain, At;
      taken, seized, variable := *, *, 0;
      var accepted: bool := *;
      :- Need(accepted && taken <= debtToCover, Rejected);
      var owed := At(chain.balances, VariableDebt(debt), user);
      variable := if owed >= taken then taken else owed;
      :- chain.Burn(VariableDebt(debt), user, variable);
      :- chain.Burn(StableDebt(debt), user, taken - variable);
      :- chain.Burn(ViToken(collateral), user, seized);
      :- chain.Transfer(Underlying(collateral), Reserve(collateral), caller, seized);
      :- chain.TransferFrom(Underlying(debt), self, caller, Reserve(debt), taken);
      o := Pass;
    }

    /** The first half of `flashLoan`: premiums are fixed and the loans are paid out. */
    method Lend(receiver: Account, assets: seq<Asset>, amounts: seq<uint256>, modes: seq<nat>)
      returns (o: Outcome, loans: seq<Loan>)
      requires receiver.Wallet?
      modifies chain`balances
      ensures o.Pass? ==> LoansFor(loans, assets, amounts, modes)
      ensures o.Pass? ==> LentOut(old(chain.balances), chain.balances, receiver, loans)
    {
      loans := [];
      var accepted: bool := *;
      :- Need(accepted, Rejected);
      :- Need(|assets| == |amounts|, InconsistentParams);
      :- Need(|assets| <= |modes|, OutOfBounds);
      assert forall x :: Lent([], x) == 0;
      for i := 0 to |assets|
        invariant |loans| == i
        invariant forall k :: 0 <= k < i ==>
                                && loans[k].asset == assets[k]
                                && loans[k].amount == amounts[k]
                                && loans[k].mode == modes[k]
                                && loans[k].premium == amounts[k] * FLASHLOAN_PREMIUM_TOTAL / 10000
        invariant forall x, h ::
            At(chain.balances, Underlying(x), h) == At(old(chain.balances), Underlying(x), h)
            + (if h == receiver then Lent(loans, x) else 0)
            - (if h == Reserve(x) then Lent(loans, x) else 0)
        invariant forall t: Token, h :: !t.Underlying? ==> At(chain.balances, t, h) == At(old(chain.balances), t, h)
      {
        var fee :- Mul(amounts[i], FLASHLOAN_PREMIUM_TOTAL);
        var loan := Loan(assets[i], amounts[i], fee / 10000, modes[i]);
        :- chain.Transfer(Underlying(assets[i]), Reserve(assets[i]), receiver, amounts[i]);
        assert (loans + [loan])[..i] == loans;
        loans := loans + [loan];
      }
      o := Pass;
    }

    /**
     The second half of `flashLoan`: a loan in mode 0 is pulled back with its premium, a loan in a
     borrow mode opens a debt instead and moves no underlying.
     */
    method Settle(receiver: Account, loans: seq<Loan>, onBehalfOf: Account) returns (o: Outcome)
      requires receiver.Wallet? && receiver != self
      modifies chain`balances, chain`allowances
      ensures o.Pass? ==> Settled(old(chain.balances), chain.balances, receiver, onBehalfOf, loans)
      ensures o.Pass? ==> Drawn(old(chain.allowances), chain.allowances, receiver, loans)
      ensures o.Pass? ==> Covered(old(chain.balances), old(chain.allowances), receiver, self, loans)
      ensures o.Pass? ==> BorrowsArePositive(loans)
      ensures Covered(old(chain.balances), old(chain.allowances), receiver, self, loans) && Claimable(loans) ==>
                GoesThrough(o, loans)
    {
      ghost var b, a := chain.balances, chain.allowances;
      SettledNone(b, a, receiver, onBehalfOf, loans);
      hide At, Allowed, Due, Borrowed, Settled, Drawn, Reclaimed, DrawnOnce, Covered;
      for i := 0 to |loans|
        invariant BorrowsArePositive(loans[..i])
        invariant Settled(b, chain.balances, receiver, onBehalfOf, loans[..i])
        invariant Drawn(a, chain.allowances, receiver, loans[..i])
      {
        assert loans[i] in loans;
        StillCovered(b, a, chain.balances, chain.allowances, receiver, onBehalfOf, loans, i);
        ghost var b0, a0 := chain.balances, chain.allowances;
        :- Reclaim(receiver, loans[i], onBehalfOf);
        SettledOneMore(b, b0, chain.balances, receiver, onBehalfOf, loans, i);
        DrawnOneMore(a, a0, chain.allowances, receiver, loans, i);
      }
      assert loans[..|loans|] == loans;
      CoveredBefore(b, a, chain.balances, chain.allowances, receiver, onBehalfOf, loans);
      o := Pass;
    }

    /** What is due was spent of the receiver's allowances, and nothing of anybody else's. */
    ghost predicate Drawn(a: Allowances, a': Allowances, receiver: Account, loans: seq<Loan>) {
      forall t, owner, spender ::
        Allowed(a', t, owner, spender) ==
        Left(t in chain.everlasting, Allowed(a, t, owner, spender),
             if t.Underlying? && owner == receiver && spender == self then Due(loans, t.asset) else 0)
    }

    ghost predicate DrawnOnce(a: Allowances, a': Allowances, receiver: Account, l: Loan) {
      forall t, owner, spender ::
        Allowed(a', t, owner, spender) ==
        Left(t in chain.everlasting, Allowed(a, t, owner, spender),
             if t == Underlying(l.asset) && owner == receiver && spender == self then l.Due() else 0)
    }

    lemma SettledNone(b: Balances, a: Allowances, receiver: Account, onBehalfOf: Account, loans: seq<Loan>)
      ensures Settled(b, b, receiver, onBehalfOf, loans[..0])
      ensures Drawn(a, a, receiver, loans[..0])
    {
      NothingDue(loans);
    }

    lemma SettledOneMore(b: Balances, b0: Balances, b': Balances, receiver: Account, onBehalfOf: Account,
                         loans: seq<Loan>, i: nat)
      requires i < |loans|
      requires Settled(b, b0, receiver, onBehalfOf, loans[..i])
      requires Reclaimed(b0, b', receiver, onBehalfOf, loans[i])
      ensures Settled(b, b', receiver, onBehalfOf, loans[..i + 1])
    {
      hide At, Due, Borrowed;
      OneMoreDue(loans, i);
    }

    lemma DrawnOneMore(a: Allowances, a0: Allowances, a': Allowances, receiver: Account, loans: seq<Loan>, i: nat)
      requires i < |loans|
      requires Drawn(a, a0, receiver, loans[..i])
      requires DrawnOnce(a0, a', receiver, loans[i])
      ensures Drawn(a, a', receiver, loans[..i + 1])
    {
      hide Allowed, Due;
      OneMoreDue(loans, i);
    }

    /** What was enough for all loans is enough for the next one. */
    lemma StillCovered(b: Balances, a: Allowances, b0: Balances, a0: Allowances, receiver: Account, onBehalfOf: Account,
                       loans: seq<Loan>, i: nat)
      requires receiver.Wallet? && i < |loans|
      requires Settled(b, b0, receiver, onBehalfOf, loans[..i])
      requires Drawn(a, a0, receiver, loans[..i])
      ensures Covered(b, a, receiver, self, loans) ==>
                && loans[i].Due() <= At(b0, Underlying(loans[i].asset), receiver)
                && loans[i].Due() <= Allowed(a0, Underlying(loans[i].asset), receiver, self)
    {
      hide At, Allowed, Due;
      OneMoreDue(loans, i);
      DueIsMonotone(loans, i + 1, loans[i].asset);
    }

    /** Whatever was pulled had been there. */
    lemma CoveredBefore(b: Balances, a: Allowances, b': Balances, a': Allowances, receiver: Account, onBehalfOf: Account,
                        loans: seq<Loan>)
      requires receiver.Wallet?
      requires Settled(b, b', receiver, onBehalfOf, loans)
      requires Drawn(a, a', receiver, loans)
      ensures Covered(b, a, receiver, self, loans)
    {
      hide At, Allowed, Due;
      forall x
        ensures Due(loans, x) <= At(b, Underlying(x), receiver) && Due(loans, x) <= Allowed(a, Underlying(x), receiver, self)
      {
        assert At(b', Underlying(x), receiver) as int == At(b, Underlying(x), receiver) - Due(loans, x);
        assert Allowed(a', Underlying(x), receiver, self) as int ==
               Left(Underlying(x) in chain.everlasting, Allowed(a, Underlying(x), receiver, self), Due(loans, x));
      }
    }

    method Reclaim(receiver: Account, l: Loan, onBehalfOf: Account) returns (o: Outcome)
      requires receiver.Wallet? && receiver != self
      modifies chain`balances, chain`allowances
      ensures o.Pass? ==> Reclaimed(old(chain.balances), chain.balances, receiver, onBehalfOf, l)
      ensures o.Pass? ==> DrawnOnce(old(chain.allowances), chain.allowances, receiver, l)
      ensures
        var enough := && l.Due() <= At(old(chain.balances), Underlying(l.asset), receiver)
                      && l.Due() <= Allowed(old(chain.allowances), Underlying(l.asset), receiver, self);
        && (o.Pass? ==> enough)
        && (enough && l.Debt() < TWO_256 ==> o.Pass? || o.reason == CreditOverflow || (l.mode != 0 && BorrowRefused(o)))
      ensures o.Pass? && l.mode != 0 ==> 0 < l.amount
    {
      hide At, Allowed, Gain, Reclaimed, DrawnOnce, Spent;
      ghost var b, a := chain.balances, chain.allowances;
      var debt :- Add(l.amount, l.premium);
      if l.mode == 0 {
        :- chain.TransferFrom(Underlying(l.asset), self, receiver, Reserve(l.asset), debt);
        PulledIsReclaimed(b, chain.balances, receiver, onBehalfOf, l);
        SpentIsDrawn(a, receiver, l);
      } else {
        var accepted: bool := *;
        :- Need(accepted && l.mode <= 2, Rejected);
        :- Need(l.amount != 0, InvalidAmount);
        :- chain.Mint(DebtToken(l.asset, l.mode), onBehalfOf, l.amount);
        OpenedIsReclaimed(b, chain.balances, receiver, onBehalfOf, l);
        NothingIsDrawn(a, receiver, l);
      }
      o := Pass;
    }

    lemma PulledIsReclaimed(b: Balances, b': Balances, receiver: Account, onBehalfOf: Account, l: Loan)
      requires l.mode == 0
      requires forall t, h ::
                 At(b', t, h) == At(b, t, h) + Loss(t, h, Underlying(l.asset), receiver, l.Debt())
                                 + Gain(t, h, Underlying(l.asset), Reserve(l.asset), l.Debt())
      ensures Reclaimed(b, b', receiver, onBehalfOf, l)
    {
      hide At;
    }

    lemma OpenedIsReclaimed(b: Balances, b': Balances, receiver: Account, onBehalfOf: Account, l: Loan)
      requires l.mode != 0
      requires forall t, h :: At(b', t, h) == At(b, t, h) + Gain(t, h, DebtToken(l.asset, l.mode), onBehalfOf, l.amount)
      ensures Reclaimed(b, b', receiver, onBehalfOf, l)
    {
      hide At;
    }

    lemma SpentIsDrawn(a: Allowances, receiver: Account, l: Loan)
      requires l.mode == 0 && receiver != self && l.Debt() < TWO_256
      requires Spendable(a, Underlying(l.asset) in chain.everlasting, Underlying(l.asset), receiver, self, l.Debt())
      ensures
        var a' := Spent(a, Underlying(l.asset) in chain.everlasting, Underlying(l.asset), receiver, self, l.Debt());
        DrawnOnce(a, a', receiver, l)
    {
    }

    lemma NothingIsDrawn(a: Allowances, receiver: Account, l: Loan)
      requires l.mode != 0
      ensures DrawnOnce(a, a, receiver, l)
    {
      hide Allowed;
    }
  }

  // ---- a flash loan transaction as a whole

  /** The loans moved from their reserves to the receiver. */
  ghost predicate LentOut(b: Balances, b': Balances, receiver: Account, loans: seq<Loan>) {
    && (forall x, h ::
          At(b', Underlying(x), h) == At(b, Underlying(x), h)
          + (if h == receiver then Lent(loans, x) else 0)
          - (if h == Reserve(x) then Lent(loans, x) else 0))
    && (forall t: Token, h :: !t.Underlying? ==> At(b', t, h) == At(b, t, h))
  }

  ghost predicate Carried(b: Balances, b': Balances, effect: (Token, Account) -> int) {
    forall t, h :: At(b', t, h) == At(b, t, h) + effect(t, h)
  }

  /** What is due moved back, and borrowed loans became debts of `onBehalfOf`. */
  ghost predicate Settled(b: Balances, b': Balances, receiver: Account, onBehalfOf: Account, loans: seq<Loan>) {
    && (forall x, h ::
          At(b', Underlying(x), h) == At(b, Underlying(x), h)
          - (if h == receiver then Due(loans, x) else 0)
          + (if h == Reserve(x) then Due(loans, x) else 0))
    && (forall t: Token, h ::
          !t.Underlying? ==> At(b', t, h) == At(b, t, h) + (if h == onBehalfOf then Borrowed(loans, t) else 0))
  }

  /** The same for one loan. */
  ghost predicate Reclaimed(b: Balances, b': Balances, receiver: Account, onBehalfOf: Account, l: Loan) {
    && (forall x, h ::
          At(b', Underlying(x), h) == At(b, Underlying(x), h)
          - (if h == receiver && x == l.asset then l.Due() else 0)
          + (if h == Reserve(x) && x == l.asset then l.Due() else 0))
    && (forall t: Token, h ::
          !t.Underlying? ==>
            At(b', t, h) == At(b, t, h)
            + (if h == onBehalfOf && l.mode != 0 && t == DebtToken(l.asset, l.mode) then l.amount else 0))
  }

  /** Every balance after a flash loan whose callback had the given effect, from those before it. */
  ghost predicate Booked(b: Balances, b': Balances, receiver: Account, onBehalfOf: Account, loans: seq<Loan>,
                         effect: (Token, Account) -> int)
  {
    && (forall x, h ::
          At(b', Underlying(x), h) == At(b, Underlying(x), h) + effect(Underlying(x), h)
          + (if h == receiver then Lent(loans, x) - Due(loans, x) else 0)
          - (if h == Reserve(x) then Lent(loans, x) - Due(loans, x) else 0))
    && (forall t: Token, h ::
          !t.Underlying? ==>
            At(b', t, h) == At(b, t, h) + effect(t, h) + (if h == onBehalfOf then Borrowed(loans, t) else 0))
  }

  lemma BookedThrough(b: Balances, lent: Balances, served: Balances, b': Balances, receiver: Account,
                      onBehalfOf: Account, loans: seq<Loan>, effect: (Token, Account) -> int)
    requires LentOut(b, lent, receiver, loans)
    requires Carried(lent, served, effect)
    requires Settled(served, b', receiver, onBehalfOf, loans)
    ensures Booked(b, b', receiver, onBehalfOf, loans, effect)
  {
    hide At, Lent, Due, Borrowed;
  }

  /** The receiver holds, and lets the pool take, everything that is due. */
  ghost predicate Covered(b: Balances, a: Allowances, receiver: Account, pool: Account, loans: seq<Loan>) {
    forall x :: Due(loans, x) <= At(b, Underlying(x), receiver) && Due(loans, x) <= Allowed(a, Underlying(x), receiver, pool)
  }
}
