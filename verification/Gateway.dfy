/** `WETHGateway`: lets users deal in Ether with the pool's WETH reserve. */
module Gateway {
  import opened Evm
  import opened Ledger
  import opened Pool

  /** The Wrapped Ether contract, as far as it deals in Ether. */
  class Weth9 {
    const chain: Chain
    const asset: Asset
    const self: Account

    constructor (chain: Chain, asset: Asset, self: Account)
      ensures this.chain == chain && this.asset == asset && this.self == self
    {
      this.chain, this.asset, this.self := chain, asset, self;
    }

    function Weth(): Token {
      Underlying(asset)
    }

    method Deposit(caller: Account, wad: uint256) returns (o: Outcome)
      modifies chain`balances
      ensures o.Pass? ==> forall t, h ::
                            At(chain.balances, t, h) == At(old(chain.balances), t, h)
                            + Loss(t, h, Ether, caller, wad)
                            + Gain(t, h, Ether, self, wad)
                            + Gain(t, h, Weth(), caller, wad)
    {
      o := Pass;
      :- chain.Transfer(Ether, caller, self, wad);
      :- chain.Mint(Weth(), caller, wad);
    }

    method Withdraw(caller: Account, wad: uint256) returns (o: Outcome)
      modifies chain`balances
      ensures o.Pass? ==> wad <= At(old(chain.balances), Weth(), caller)
      ensures o.Pass? ==> forall t, h ::
                            At(chain.balances, t, h) == At(old(chain.balances), t, h)
                            + Loss(t, h, Weth(), caller, wad)
                            + Loss(t, h, Ether, self, wad)
                            + Gain(t, h, Ether, caller, wad)
    {
      o := Pass;
      :- chain.Burn(Weth(), caller, wad);
      :- chain.Transfer(Ether, self, caller, wad);
    }
  }

  /**
   What a contract outside the model may do when it is called: it writes any balance and allowance that
   is not the gateway's, sends tokens to the gateway, and spends what the gateway allows somebody.
   Ether reaches the gateway only from the WETH contract.
   */
  datatype Action =
    | Write(token: Token, holder: Account, balance: uint256)
    | Grant(token: Token, owner: Account, spender: Account, allowance: uint256)
    | Send(token: Token, from: Account, amount: uint256)
    | Spend(token: Token, spender: Account, to: Account, amount: uint256)

  /**
   The pool that a caller names: the protocol's own, or any other contract. Of the latter the model has
   what it answers (a viToken, which may be the real one, or else the balance that its own viToken
   answers, and the two debts) and what it and its viToken do when they are told to move something.
   */
  datatype NamedPool =
    | Genuine
    | Counterfeit(realToken: bool, deposit: uint256, stableDebt: uint256, variableDebt: uint256,
        onTransfer: seq<Action>, onCall: seq<Action>)

  datatype GatewayCall =
    | DepositETH(lendingPool: NamedPool, caller: Account, value: uint256, onBehalfOf: Account)
    | WithdrawETH(lendingPool: NamedPool, caller: Account, amount: uint256, to: Account)
    | RepayETH(lendingPool: NamedPool, caller: Account, value: uint256, amount: uint256, mode: nat, onBehalfOf: Account)
    | BorrowETH(lendingPool: NamedPool, caller: Account, amount: uint256, mode: nat)

  /** A call of the gateway, or what the rest of the world does between them. */
  datatype Event =
    | Called(call: GatewayCall)
    | OtherBalance(token: Token, holder: Account, balance: uint256)
    | OtherAllowance(token: Token, owner: Account, spender: Account, allowance: uint256)

  class WETHGateway {
    const weth: Weth9
    const pool: LendingPool
    const chain: Chain
    const self: Account

    constructor (weth: Weth9, pool: LendingPool, self: Account)
      requires pool.chain == weth.chain && weth.Weth() in weth.chain.everlasting
      requires self.Wallet? && self != weth.self && self != pool.self
      ensures this.weth == weth && this.pool == pool && this.self == self
      ensures Wired()
    {
      this.weth, this.pool, this.self := weth, pool, self;
      chain := weth.chain;
    }

    ghost predicate Wired() {
      && chain == weth.chain == pool.chain
      && weth.Weth() in chain.everlasting
      && self.Wallet?
      && self != weth.self
      && self != pool.self
    }

    method AuthorizeLendingPool(lendingPool: Account)
      requires Wired()
      modifies chain`allowances
      ensures chain.allowances == old(chain.allowances)[(weth.Weth(), self, lendingPool) := MAX_UINT256]
    {
      chain.Approve(weth.Weth(), self, lendingPool, MAX_UINT256);
    }

    /**
     A plain call with value. The gateway itself accepts Ether only from the WETH contract, and the
     WETH contract answers Ether with freshly minted WETH for the sender.
     */
    method SafeTransferETH(to: Account, value: uint256) returns (o: Outcome)
      requires Wired()
      modifies chain`balances
      ensures to == self ==> o.Revert?
      ensures o.Pass? ==> forall t, h ::
                            At(chain.balances, t, h) == At(old(chain.balances), t, h)
                            + Loss(t, h, Ether, self, value)
                            + Gain(t, h, Ether, to, value)
                            + (if to == weth.self then Gain(t, h, weth.Weth(), self, value) else 0)
    {
      o := Pass;
      :- Need(to != self, Unauthorized);
      if to == weth.self {
        :- weth.Deposit(self, value);
      } else {
        var accepted: bool := *;
        :- Need(accepted, Rejected);
        :- chain.Transfer(Ether, self, to, value);
      }
    }

    /** An unlimited allowance of the pool stays unlimited. */
    ghost predicate Unlimited(a: Allowances, a': Allowances) {
      Allowed(a, weth.Weth(), self, pool.self) == MAX_UINT256 ==> Allowed(a', weth.Weth(), self, pool.self) == MAX_UINT256
    }

    // ---- contracts outside the model

    /** What an action adds to the gateway's balance. */
    function Share(a: Action, t: Token): int {
      match a
      case Send(token, _, amount) => if t == token != Ether then amount else 0
      case Spend(token, _, to, amount) => if t == token != Ether && to != self then -(amount as int) else 0
      case _ => 0
    }

    function Net(script: seq<Action>, t: Token): int {
      if |script| == 0 then 0 else Net(script[..|script| - 1], t) + Share(script[|script| - 1], t)
    }

    /** The gateway's balances have changed by what the actions add to them. */
    ghost predicate Visited(b: Balances, b': Balances, script: seq<Action>) {
      forall t :: At(b', t, self) == At(b, t, self) + Net(script, t)
    }

    method Perform(script: seq<Action>) returns (o: Outcome)
      requires Wired()
      modifies chain`balances, chain`allowances
      ensures o.Pass? ==> Visited(old(chain.balances), chain.balances, script)
      ensures o.Pass? ==> Unlimited(old(chain.allowances), chain.allowances)
    {
      o := Pass;
      for i := 0 to |script|
        invariant Visited(old(chain.balances), chain.balances, script[..i])
        invariant Unlimited(old(chain.allowances), chain.allowances)
      {
        assert script[..i + 1][..i] == script[..i];
        :- Act(script[i]);
      }
      assert script[..|script|] == script;
    }

    method Act(a: Action) returns (o: Outcome)
      requires Wired()
      modifies chain`balances, chain`allowances
      ensures o.Pass? ==> forall t :: At(chain.balances, t, self) == At(old(chain.balances), t, self) + Share(a, t)
      ensures o.Pass? ==> Unlimited(old(chain.allowances), chain.allowances)
    {
      o := Pass;
      match a {
        case Write(token, holder, balance) =>
          :- Need(holder != self, Rejected);
          chain.balances := chain.balances[(token, holder) := balance];
        case Grant(token, owner, spender, allowance) =>
          :- Need(owner != self, Rejected);
          chain.Approve(token, owner, spender, allowance);
        case Send(token, from, amount) =>
          :- Need(token != Ether && from != self, Rejected);
          :- chain.Transfer(token, from, self, amount);
        case Spend(token, spender, to, amount) =>
          :- Need(token != Ether && spender != self, Rejected);
          :- chain.TransferFrom(token, spender, self, to, amount);
      }
    }

    /** The viToken that the pool names is the one of the WETH reserve. */
    predicate UsesRealToken(p: NamedPool) {
      p.Genuine? || p.realToken
    }

    function DepositAnswered(p: NamedPool, b: Balances, user: Account): uint256 {
      if UsesRealToken(p) then At(b, ViToken(weth.asset), user) else p.deposit
    }

    function DebtAnswered(p: NamedPool, b: Balances, mode: nat, user: Account): uint256 {
      if p.Genuine? then At(b, DebtToken(weth.asset, mode), user)
      else if mode == STABLE then p.stableDebt
      else p.variableDebt
    }

    // ---- the four entry points

    method DepositETH(lendingPool: NamedPool, caller: Account, value: uint256, onBehalfOf: Account) returns (o: Outcome)
      requires Wired() && caller != self
      modifies chain`balances, chain`allowances
      ensures o.Pass? && lendingPool.Genuine? ==> 0 < value
      ensures o.Pass? && lendingPool.Genuine? ==> forall t, h ::
                  At(chain.balances, t, h) == At(old(chain.balances), t, h)
                  + Loss(t, h, Ether, caller, value)
                  + Gain(t, h, Ether, weth.self, value)
                  + Gain(t, h, weth.Weth(), Reserve(weth.asset), value)
                  + Gain(t, h, ViToken(weth.asset), onBehalfOf, value)
      ensures o.Pass? && lendingPool.Counterfeit? ==> forall t ::
                  At(chain.balances, t, self) as int == At(old(chain.balances), t, self)
                  + (if t == weth.Weth() then value else 0) + Net(lendingPool.onCall, t)
      ensures o.Pass? ==> Unlimited(old(chain.allowances), chain.allowances)
    {
      o := Pass;
      :- TakeAndWrap(caller, value, value);
      hide Gain, At;
      NoGain();
      if lendingPool.Genuine? {
        :- pool.Deposit(weth.asset, value, onBehalfOf, self);
      } else {
        :- Perform(lendingPool.onCall);
      }
    }

    /** The Ether reaches `to`; with the genuine pool anything stays only if that is the WETH contract. */
    method WithdrawETH(lendingPool: NamedPool, caller: Account, amount: uint256, to: Account)
      returns (o: Outcome, withdrawn: uint256)
      requires Wired() && caller != self
      modifies chain`balances, chain`allowances
      ensures o.Pass? ==>
                && to != self
                && withdrawn == (if amount == MAX_UINT256 then DepositAnswered(lendingPool, old(chain.balances), caller)
                                 else amount)
                && (UsesRealToken(lendingPool) ==> withdrawn <= At(old(chain.balances), ViToken(weth.asset), caller))
      ensures o.Pass? && lendingPool.Genuine? ==> 0 < withdrawn
      ensures o.Pass? && lendingPool.Genuine? ==> forall t, h ::
                  At(chain.balances, t, h) == At(old(chain.balances), t, h)
                  + Loss(t, h, ViToken(weth.asset), caller, withdrawn)
                  + Loss(t, h, weth.Weth(), Reserve(weth.asset), withdrawn)
                  + Loss(t, h, Ether, weth.self, withdrawn)
                  + Gain(t, h, Ether, to, withdrawn)
                  + (if to == weth.self then Gain(t, h, weth.Weth(), self, withdrawn) else 0)
      ensures o.Pass? && lendingPool.Counterfeit? ==> forall t ::
                  At(chain.balances, t, self) as int == At(old(chain.balances), t, self)
                  + HeldFromTransfer(lendingPool, withdrawn, t) + Net(lendingPool.onCall, t)
                  - (if t == weth.Weth() && to != weth.self then withdrawn else 0)
      ensures o.Pass? && lendingPool.Counterfeit? ==>
                withdrawn <= At(old(chain.balances), weth.Weth(), self)
                             + HeldFromTransfer(lendingPool, withdrawn, weth.Weth()) + Net(lendingPool.onCall, weth.Weth())
      ensures o.Pass? ==> Unlimited(old(chain.allowances), chain.allowances)
    {
      var userBalance := DepositAnswered(lendingPool, chain.balances, caller);
      withdrawn := amount;
      if amount == MAX_UINT256 {
        withdrawn := userBalance;
      }
      :- TakeViTokens(lendingPool, caller, withdrawn);
      :- WithdrawFrom(lendingPool, withdrawn);
      :- UnwrapFor(to, withdrawn);
      o := Pass;
    }

    /** What the gateway holds more when a pool that is not genuine lets it have viTokens. */
    function HeldFromTransfer(p: NamedPool, n: uint256, t: Token): int {
      if UsesRealToken(p) then (if t == ViToken(weth.asset) then n else 0) else Net(p.onTransfer, t)
    }

    method TakeViTokens(p: NamedPool, caller: Account, n: uint256) returns (o: Outcome)
      requires Wired() && caller != self
      modifies chain`balances, chain`allowances
      ensures o.Pass? && UsesRealToken(p) ==> n <= At(old(chain.balances), ViToken(weth.asset), caller)
      ensures o.Pass? && UsesRealToken(p) ==> n <= At(chain.balances, ViToken(weth.asset), self)
      ensures o.Pass? && UsesRealToken(p) ==> forall t, h ::
                  At(chain.balances, t, h) == At(old(chain.balances), t, h)
                  + Loss(t, h, ViToken(weth.asset), caller, n) + Gain(t, h, ViToken(weth.asset), self, n)
      ensures o.Pass? ==> forall t :: p.Counterfeit? ==>
                  At(chain.balances, t, self) == At(old(chain.balances), t, self) + HeldFromTransfer(p, n, t)
      ensures o.Pass? ==> Unlimited(old(chain.allowances), chain.allowances)
    {
      if UsesRealToken(p) {
        :- chain.TransferFrom(ViToken(weth.asset), self, caller, self, n);
      } else {
        :- Perform(p.onTransfer);
      }
      o := Pass;
    }

    method WithdrawFrom(p: NamedPool, n: uint256) returns (o: Outcome)
      requires Wired()
      requires p.Genuine? ==> n <= At(chain.balances, ViToken(weth.asset), self)
      modifies chain`balances, chain`allowances
      ensures o.Pass? && p.Genuine? ==> 0 < n
      ensures o.Pass? && p.Genuine? ==> forall t, h ::
                  At(chain.balances, t, h) == At(old(chain.balances), t, h)
                  + Loss(t, h, ViToken(weth.asset), self, n)
                  + Loss(t, h, weth.Weth(), Reserve(weth.asset), n)
                  + Gain(t, h, weth.Weth(), self, n)
      ensures o.Pass? && p.Counterfeit? ==> Visited(old(chain.balances), chain.balances, p.onCall)
      ensures o.Pass? ==> Unlimited(old(chain.allowances), chain.allowances)
    {
      hide Gain, At;
      if p.Genuine? {
        var burnt :- pool.Withdraw(weth.asset, n, self, self);
        assert burnt == n;
      } else {
        :- Perform(p.onCall);
      }
      o := Pass;
    }

    /** WETH of the gateway becomes Ether of `to`, or WETH of the gateway again if that is the WETH contract. */
    method UnwrapFor(to: Account, n: uint256) returns (o: Outcome)
      requires Wired()
      modifies chain`balances
      ensures o.Pass? ==> to != self && n <= At(old(chain.balances), weth.Weth(), self)
      ensures o.Pass? ==> forall t, h ::
                            At(chain.balances, t, h) == At(old(chain.balances), t, h)
                            + Loss(t, h, weth.Weth(), self, n)
                            + Loss(t, h, Ether, weth.self, n)
                            + Gain(t, h, Ether, to, n)
                            + (if to == weth.self then Gain(t, h, weth.Weth(), self, n) else 0)
      ensures o.Pass? ==> forall t ::
                            At(chain.balances, t, self) as int == At(old(chain.balances), t, self)
                            - (if t == weth.Weth() && to != weth.self then n else 0)
    {
      o := Pass;
      :- weth.Withdraw(self, n);
      :- SafeTransferETH(to, n);
    }

    /** The pool is offered all the value, but the gateway has wrapped only the payback amount of it. */
    method RepayETH(lendingPool: NamedPool, caller: Account, value: uint256, amount: uint256, mode: nat,
                    onBehalfOf: Account)
      returns (o: Outcome, payback: uint256, taken: uint256)
      requires Wired() && caller != self && caller != weth.self
      modifies chain`balances, chain`allowances
      ensures o.Pass? ==>
                && payback as int == Min(amount, DebtAnswered(lendingPool, old(chain.balances), mode, onBehalfOf))
                && payback <= value
      ensures o.Pass? && lendingPool.Genuine? ==>
                && taken as int == Min(value, At(old(chain.balances), DebtToken(weth.asset, mode), onBehalfOf))
                && taken <= At(old(chain.balances), weth.Weth(), self) + payback
      ensures o.Pass? && lendingPool.Genuine? ==> forall t, h ::
                  At(chain.balances, t, h) == At(old(chain.balances), t, h)
                  + Loss(t, h, Ether, caller, payback)
                  + Gain(t, h, Ether, weth.self, payback)
                  + Gain(t, h, weth.Weth(), self, payback - taken)
                  + Gain(t, h, weth.Weth(), Reserve(weth.asset), taken)
                  + Loss(t, h, DebtToken(weth.asset, mode), onBehalfOf, taken)
      ensures o.Pass? && lendingPool.Counterfeit? ==> forall t ::
                  At(chain.balances, t, self) as int == At(old(chain.balances), t, self)
                  + (if t == weth.Weth() then payback else 0) + Net(lendingPool.onCall, t)
      ensures o.Pass? ==> Unlimited(old(chain.allowances), chain.allowances)
    {
      payback, taken := 0, 0;
      :- Need(mode <= 2, InvalidMode);
      payback := DebtAnswered(lendingPool, chain.balances, mode, onBehalfOf);
      if amount < payback {
        payback := amount;
      }
      :- Need(value >= payback, InvalidAmount);
      hide Gain, At, Net, Unlimited, DebtAnswered;
      taken :- WrapAndRepay(lendingPool, caller, value, payback, mode, onBehalfOf);
      GainAdds(Ether, caller, value - payback, payback);
      :- Refund(caller, value - payback);
      o := Pass;
    }

    method Refund(to: Account, dust: uint256) returns (o: Outcome)
      requires Wired() && to != weth.self
      modifies chain`balances
      ensures o.Pass? ==> forall t, h ::
                            At(chain.balances, t, h) == At(old(chain.balances), t, h)
                            + Loss(t, h, Ether, self, dust)
                            + Gain(t, h, Ether, to, dust)
      ensures o.Pass? && to != self ==> forall t ::
                            At(chain.balances, t, self) as int == At(old(chain.balances), t, self)
                            - (if t == Ether then dust else 0)
    {
      o := Pass;
      if dust > 0 {
        :- SafeTransferETH(to, dust);
      }
    }

    method WrapAndRepay(lendingPool: NamedPool, caller: Account, value: uint256, wrapped: uint256, mode: nat,
                        onBehalfOf: Account)
      returns (o: Outcome, taken: uint256)
      requires Wired() && wrapped <= value && caller != self
      modifies chain`balances, chain`allowances
      ensures o.Pass? && lendingPool.Genuine? ==>
                && taken as int == Min(value, At(old(chain.balances), DebtToken(weth.asset, mode), onBehalfOf))
                && taken <= At(old(chain.balances), weth.Weth(), self) + wrapped
      ensures o.Pass? && lendingPool.Genuine? ==> forall t, h ::
                  At(chain.balances, t, h) == At(old(chain.balances), t, h)
                  + Loss(t, h, Ether, caller, value)
                  + Gain(t, h, Ether, self, value - wrapped)
                  + Gain(t, h, Ether, weth.self, wrapped)
                  + Gain(t, h, weth.Weth(), self, wrapped - taken)
                  + Gain(t, h, weth.Weth(), Reserve(weth.asset), taken)
                  + Loss(t, h, DebtToken(weth.asset, mode), onBehalfOf, taken)
      ensures o.Pass? && lendingPool.Counterfeit? ==> forall t ::
                  At(chain.balances, t, self) as int == At(old(chain.balances), t, self)
                  + (if t == Ether then value - wrapped else 0)
                  + (if t == weth.Weth() then wrapped else 0) + Net(lendingPool.onCall, t)
      ensures o.Pass? ==> Unlimited(old(chain.allowances), chain.allowances)
    {
      hide Gain, At;
      taken := 0;
      :- TakeAndWrap(caller, value, wrapped);
      if lendingPool.Genuine? {
        taken :- pool.Repay(weth.asset, value, mode, onBehalfOf, self);
        GainAdds(weth.Weth(), self, wrapped - taken, taken);
      } else {
        :- Perform(lendingPool.onCall);
      }
      o := Pass;
    }

    /** The value sent with a call arrives, and part of it is wrapped. */
    method TakeAndWrap(caller: Account, value: uint256, wrapped: uint256) returns (o: Outcome)
      requires Wired() && wrapped <= value
      modifies chain`balances
      ensures o.Pass? ==> forall t, h ::
                            At(chain.balances, t, h) == At(old(chain.balances), t, h)
                            + Loss(t, h, Ether, caller, value)
                            + Gain(t, h, Ether, self, value - wrapped)
                            + Gain(t, h, Ether, weth.self, wrapped)
                            + Gain(t, h, weth.Weth(), self, wrapped)
      ensures o.Pass? ==> forall t, h ::
                            t != Ether && t != weth.Weth() ==> At(chain.balances, t, h) == At(old(chain.balances), t, h)
      ensures o.Pass? ==> At(chain.balances, weth.Weth(), self) == At(old(chain.balances), weth.Weth(), self) + wrapped
      ensures o.Pass? && caller != self ==> forall t ::
                            At(chain.balances, t, self) as int == At(old(chain.balances), t, self)
                            + (if t == Ether then value - wrapped else 0) + (if t == weth.Weth() then wrapped else 0)
    {
      o := Pass;
      :- chain.Transfer(Ether, caller, self, value);
      :- weth.Deposit(self, wrapped);
    }

    method BorrowETH(lendingPool: NamedPool, caller: Account, amount: uint256, mode: nat) returns (o: Outcome)
      requires Wired() && caller != self && caller != weth.self
      modifies chain`balances, chain`allowances
      ensures o.Pass? && lendingPool.Genuine? ==> forall t, h ::
                  At(chain.balances, t, h) == At(old(chain.balances), t, h)
                  + Gain(t, h, DebtToken(weth.asset, mode), caller, amount)
                  + Loss(t, h, weth.Weth(), Reserve(weth.asset), amount)
                  + Loss(t, h, Ether, weth.self, amount)
                  + Gain(t, h, Ether, caller, amount)
      ensures o.Pass? && lendingPool.Counterfeit? ==> forall t ::
                  At(chain.balances, t, self) as int == At(old(chain.balances), t, self)
                  + Net(lendingPool.onCall, t) - (if t == weth.Weth() then amount else 0)
      ensures o.Pass? && lendingPool.Counterfeit? ==>
                amount <= At(old(chain.balances), weth.Weth(), self) + Net(lendingPool.onCall, weth.Weth())
      ensures o.Pass? ==> Unlimited(old(chain.allowances), chain.allowances)
    {
      hide Gain, At;
      if lendingPool.Genuine? {
        :- pool.Borrow(weth.asset, amount, mode, caller, self);
      } else {
        :- Perform(lendingPool.onCall);
      }
      :- UnwrapFor(caller, amount);
      o := Pass;
    }

    // ---- what a call leaves behind

    /** Callers are neither the gateway nor the WETH contract, which make no such calls. */
    predicate Foreign(c: GatewayCall) {
      c.caller != self && c.caller != weth.self
    }

    /** The two destinations that make a call to the genuine pool leave something with the gateway. */
    predicate Clean(c: GatewayCall) {
      match c
      case DepositETH(_, _, _, onBehalfOf) => onBehalfOf != self
      case WithdrawETH(_, _, _, to) => to != weth.self
      case _ => true
    }

    /** The pool is offered the value of a repayment, but takes no more of it than was asked for. */
    ghost predicate Matched(c: GatewayCall, b: Balances) {
      c.RepayETH? ==>
        var debt := DebtAnswered(c.lendingPool, b, c.mode, c.onBehalfOf);
        Min(c.value, debt) == Min(c.amount, debt)
    }

    /** Nothing passes through the gateway, or it comes back as WETH without any viTokens having moved. */
    ghost predicate Idle(c: GatewayCall, b: Balances) {
      Moved(c, b) == 0 || (c.WithdrawETH? && c.to == weth.self && !UsesRealToken(c.lendingPool))
    }

    /** When a call leaves the gateway's holdings alone, provided that the pool named sends and spends nothing. */
    ghost predicate Harmless(c: GatewayCall, b: Balances) {
      if c.lendingPool.Genuine? then Clean(c) && Matched(c, b) else Idle(c, b)
    }

    /** The contracts named neither send anything to the gateway nor spend what it allows them. */
    ghost predicate Quiet(p: NamedPool) {
      p.Counterfeit? ==>
        forall t :: t == weth.Weth() || t == ViToken(weth.asset) ==> Net(p.onTransfer, t) == 0 && Net(p.onCall, t) == 0
    }

    /** The gateway's Ether, WETH and viTokens. */
    ghost predicate SameHoldings(b: Balances, b': Balances) {
      && SameButWeth(b, b')
      && At(b', weth.Weth(), self) == At(b, weth.Weth(), self)
    }

    ghost predicate SameButWeth(b: Balances, b': Balances) {
      && At(b', Ether, self) == At(b, Ether, self)
      && At(b', ViToken(weth.asset), self) == At(b, ViToken(weth.asset), self)
    }

    /** What passes through the gateway. */
    function Moved(c: GatewayCall, b: Balances): uint256 {
      match c
      case DepositETH(_, _, value, _) => value
      case WithdrawETH(p, caller, amount, _) => if amount == MAX_UINT256 then DepositAnswered(p, b, caller) else amount
      case RepayETH(p, _, _, amount, mode, onBehalfOf) => Min(amount, DebtAnswered(p, b, mode, onBehalfOf))
      case BorrowETH(_, _, amount, _) => amount
    }

    /** What the genuine pool takes of a repayment. */
    function Taken(c: GatewayCall, b: Balances): uint256 {
      if c.RepayETH? then Min(c.value, DebtAnswered(c.lendingPool, b, c.mode, c.onBehalfOf)) else 0
    }

    /** What must hold for a call to complete. */
    ghost predicate Admitted(c: GatewayCall, b: Balances) {
      var moved, held := Moved(c, b), At(b, weth.Weth(), self) as int;
      match c
      case DepositETH(p, _, _, _) => p.Genuine? ==> 0 < moved
      case WithdrawETH(p, caller, _, to) =>
        && to != self
        && (UsesRealToken(p) ==> moved <= At(b, ViToken(weth.asset), caller))
        && if p.Genuine? then 0 < moved
           else moved <= held + HeldFromTransfer(p, moved, weth.Weth()) + Net(p.onCall, weth.Weth())
      case RepayETH(p, _, value, _, _, _) => moved <= value && (p.Genuine? ==> Taken(c, b) <= held + moved)
      case BorrowETH(p, _, _, _) => p.Counterfeit? ==> moved <= held + Net(p.onCall, weth.Weth())
    }

    /** What a completed call to the genuine pool adds to every balance. */
    function Effect(c: GatewayCall, moved: uint256, taken: uint256, t: Token, h: Account): int {
      match c
      case DepositETH(_, caller, _, onBehalfOf) =>
        Loss(t, h, Ether, caller, moved) + Gain(t, h, Ether, weth.self, moved)
        + Gain(t, h, weth.Weth(), Reserve(weth.asset), moved)
        + Gain(t, h, ViToken(weth.asset), onBehalfOf, moved)
      case WithdrawETH(_, caller, _, to) =>
        Loss(t, h, ViToken(weth.asset), caller, moved)
        + Loss(t, h, weth.Weth(), Reserve(weth.asset), moved)
        + Loss(t, h, Ether, weth.self, moved) + Gain(t, h, Ether, to, moved)
        + (if to == weth.self then Gain(t, h, weth.Weth(), self, moved) else 0)
      case RepayETH(_, caller, _, _, mode, onBehalfOf) =>
        Loss(t, h, Ether, caller, moved) + Gain(t, h, Ether, weth.self, moved)
        + Gain(t, h, weth.Weth(), self, moved - taken)
        + Gain(t, h, weth.Weth(), Reserve(weth.asset), taken)
        + Loss(t, h, DebtToken(weth.asset, mode), onBehalfOf, taken)
      case BorrowETH(_, caller, _, mode) =>
        Gain(t, h, DebtToken(weth.asset, mode), caller, moved)
        + Loss(t, h, weth.Weth(), Reserve(weth.asset), moved)
        + Loss(t, h, Ether, weth.self, moved) + Gain(t, h, Ether, caller, moved)
    }

    /** What a completed call to another contract adds to what the gateway holds. */
    function HeldAfter(c: GatewayCall, moved: uint256, t: Token): int
      requires c.lendingPool.Counterfeit?
    {
      Net(c.lendingPool.onCall, t)
      + match c
        case DepositETH(_, _, _, _) => if t == weth.Weth() then moved else 0
        case WithdrawETH(p, _, _, to) =>
          HeldFromTransfer(p, moved, t) - (if t == weth.Weth() && to != weth.self then moved else 0)
        case RepayETH(_, _, _, _, _, _) => if t == weth.Weth() then moved else 0
        case BorrowETH(_, _, _, _) => if t == weth.Weth() then -(moved as int) else 0
    }

    /** What a completed call adds to the gateway's balance, whatever the pool. */
    function Change(c: GatewayCall, b: Balances, t: Token): int {
      if c.lendingPool.Genuine? then Effect(c, Moved(c, b), Taken(c, b), t, self) else HeldAfter(c, Moved(c, b), t)
    }

    /** Every balance, if the pool is genuine; and every balance of the gateway, if it is not. */
    ghost predicate Took(c: GatewayCall, b: Balances, b': Balances) {
      && Admitted(c, b)
      && if c.lendingPool.Genuine?
         then forall t, h :: At(b', t, h) == At(b, t, h) + Effect(c, Moved(c, b), Taken(c, b), t, h)
         else forall t :: At(b', t, self) == At(b, t, self) + HeldAfter(c, Moved(c, b), t)
    }

    lemma ChangeOf(c: GatewayCall, b: Balances, b': Balances, t: Token)
      requires Took(c, b, b')
      ensures At(b', t, self) == At(b, t, self) + Change(c, b, t)
    {
    }

    lemma {:induction false} NoEtherSent(script: seq<Action>)
      ensures Net(script, Ether) == 0
    {
      if |script| == 0 {
      } else {
        NoEtherSent(script[..|script| - 1]);
      }
    }

    /**
     Whatever the gateway holds and whatever the pool, a call keeps the gateway's Ether, and leaves all it
     holds unchanged exactly when it is harmless. With the genuine pool the rest is due to the
     destination, or to a repayment that spends WETH that the gateway held before.
     */
    lemma LeavesNothingBehind(c: GatewayCall, b: Balances, b': Balances)
      requires Wired() && Foreign(c)
      requires Took(c, b, b')
      ensures At(b', Ether, self) == At(b, Ether, self)
      ensures Quiet(c.lendingPool) ==> (SameHoldings(b, b') <==> Harmless(c, b))
      ensures c.lendingPool.Genuine? && Clean(c) ==>
                && SameButWeth(b, b')
                && At(b', weth.Weth(), self) as int ==
                   At(b, weth.Weth(), self) - (if c.RepayETH? then Taken(c, b) - Moved(c, b) else 0)
                && At(b', weth.Weth(), self) <= At(b, weth.Weth(), self)
    {
      ChangeOf(c, b, b', Ether);
      ChangeOf(c, b, b', weth.Weth());
      ChangeOf(c, b, b', ViToken(weth.asset));
      if c.lendingPool.Counterfeit? {
        NoEtherSent(c.lendingPool.onCall);
        NoEtherSent(c.lendingPool.onTransfer);
      }
      hide At, Net;
    }

    /** Without WETH of its own, the gateway completes no repayment to the genuine pool that takes more than was wrapped. */
    lemma RepaymentIsMatched(c: GatewayCall, b: Balances, b': Balances)
      requires Wired() && Foreign(c) && c.lendingPool.Genuine?
      requires Took(c, b, b')
      requires At(b, weth.Weth(), self) == 0
      ensures Matched(c, b)
      ensures SameHoldings(b, b') <==> Clean(c)
      ensures c.RepayETH? ==>
                && Taken(c, b) == Moved(c, b)
                && (c.value <= c.amount || At(b, DebtToken(weth.asset, c.mode), c.onBehalfOf) <= c.amount)
    {
      LeavesNothingBehind(c, b, b');
    }

    /** Who pays and who is paid when the pool is genuine, balance by balance; below also mode by mode. */
    lemma DepositsPlainly(c: GatewayCall, b: Balances, b': Balances)
      requires Wired() && Foreign(c) && c.caller.Wallet? && c.lendingPool.Genuine?
      requires Took(c, b, b')
      ensures c.DepositETH? ==>
                && At(b', Ether, c.caller) as int == At(b, Ether, c.caller) - c.value
                && At(b', ViToken(weth.asset), c.onBehalfOf) == At(b, ViToken(weth.asset), c.onBehalfOf) + c.value
      ensures c.WithdrawETH? ==>
                var deposit := At(b, ViToken(weth.asset), c.caller);
                var n := if c.amount == MAX_UINT256 then deposit else c.amount;
                && 0 < n <= deposit
                && At(b', ViToken(weth.asset), c.caller) == deposit - n
                && (c.to != weth.self ==> At(b', Ether, c.to) == At(b, Ether, c.to) + n)
    {
      hide At, Net;
    }

    lemma DebtsPlainly(c: GatewayCall, b: Balances, b': Balances)
      requires Wired() && Foreign(c) && c.caller.Wallet? && c.lendingPool.Genuine?
      requires Took(c, b, b')
      ensures c.RepayETH? ==>
                var debt := if c.mode == 1 then StableDebt(weth.asset) else VariableDebt(weth.asset);
                var other := if c.mode == 1 then VariableDebt(weth.asset) else StableDebt(weth.asset);
                var owed, owed' := At(b, debt, c.onBehalfOf), At(b', debt, c.onBehalfOf);
                && owed' == (if c.value <= owed then owed - c.value else 0)
                && At(b', other, c.onBehalfOf) == At(b, other, c.onBehalfOf)
                && At(b', Ether, c.caller) as int ==
                   At(b, Ether, c.caller) - (if c.amount <= owed then c.amount else owed)
      ensures c.BorrowETH? && (c.mode == 1 || c.mode == 2) ==>
                && At(b', Ether, c.caller) == At(b, Ether, c.caller) + c.amount
                && At(b', StableDebt(weth.asset), c.caller) as int ==
                   At(b, StableDebt(weth.asset), c.caller) + (if c.mode == 1 then c.amount else 0)
                && At(b', VariableDebt(weth.asset), c.caller) as int ==
                   At(b, VariableDebt(weth.asset), c.caller) + (if c.mode == 2 then c.amount else 0)
    {
      hide At, Net;
    }

    // ---- instances

    /** What is sent counts, what is spent on others is taken off, and what is spent on the gateway itself stays. */
    lemma NetOfActions(x: Token, other: Account)
      requires x != Ether && other != self
      ensures Net([Send(x, other, 7)], x) == 7
      ensures Net([Send(x, other, 7), Spend(x, other, other, 5), Spend(x, other, self, 2), Write(x, other, 9)], x) == 2
    {
      var script := [Send(x, other, 7), Spend(x, other, other, 5), Spend(x, other, self, 2), Write(x, other, 9)];
      assert script[..3] == [Send(x, other, 7), Spend(x, other, other, 5), Spend(x, other, self, 2)];
      assert script[..3][..2] == [Send(x, other, 7), Spend(x, other, other, 5)];
      assert script[..3][..2][..1] == [Send(x, other, 7)];
      assert Net(script[..3][..2][..1], x) == 7;
      assert Net(script[..3][..2], x) == 2;
      assert Net(script[..3], x) == 2;
    }

    /** A withdrawal from a contract that names the real viToken leaves that token with the gateway. */
    lemma WithdrawalElsewhereKeepsViTokens(caller: Account)
      requires Wired() && caller != self && caller != weth.self
      ensures
        var c := GatewayCall.WithdrawETH(Counterfeit(true, 0, 0, 0, [], []), caller, 5, caller);
        var b: Balances := map[(ViToken(weth.asset), caller) := 5, (weth.Weth(), self) := 5, (Ether, weth.self) := 5];
        var b': Balances := map[(ViToken(weth.asset), self) := 5, (Ether, caller) := 5];
        Took(c, b, b') && !SameHoldings(b, b')
    {
    }

    /** A withdrawal to the WETH contract comes back as WETH. */
    lemma WithdrawalComesBack(caller: Account)
      requires Wired() && caller != self && caller != weth.self
      ensures
        var c := GatewayCall.WithdrawETH(Genuine, caller, 5, weth.self);
        var b: Balances := map[(ViToken(weth.asset), caller) := 5, (weth.Weth(), Reserve(weth.asset)) := 5,
                               (Ether, weth.self) := 5];
        var b': Balances := map[(weth.Weth(), self) := 5, (Ether, weth.self) := 5];
        Took(c, b, b') && !SameHoldings(b, b')
    {
    }

    /** A deposit on behalf of the gateway leaves the viTokens with it. */
    lemma DepositStays(caller: Account)
      requires Wired() && caller != self && caller != weth.self
      ensures
        var b: Balances := map[(Ether, caller) := 5];
        var b': Balances := map[(Ether, weth.self) := 5, (weth.Weth(), Reserve(weth.asset)) := 5,
                                (ViToken(weth.asset), self) := 5];
        Took(GatewayCall.DepositETH(Genuine, caller, 5, self), b, b') && !SameHoldings(b, b')
    {
    }

    /** The WETH that stayed pays for somebody's debt: 6 are taken although only 1 was asked for and wrapped. */
    lemma RepaymentSpendsHoldings(caller: Account)
      requires Wired() && caller != self && caller != weth.self
      ensures
        var c := GatewayCall.RepayETH(Genuine, caller, 10, 1, VARIABLE, caller);
        var b: Balances := map[(weth.Weth(), self) := 5, (Ether, caller) := 10, (VariableDebt(weth.asset), caller) := 6];
        var b': Balances := map[(Ether, caller) := 9, (Ether, weth.self) := 1, (weth.Weth(), Reserve(weth.asset)) := 6];
        Took(c, b, b') && Moved(c, b) == 1 && Taken(c, b) == 6 && !SameHoldings(b, b')
    {
    }

    /** A deposit for oneself into a contract that does nothing: destination and amounts are fine, the WETH stays. */
    lemma DepositElsewhereStays(caller: Account)
      requires Wired() && caller != self && caller != weth.self
      ensures
        var c := GatewayCall.DepositETH(Counterfeit(false, 0, 0, 0, [], []), caller, 5, caller);
        var b: Balances := map[(Ether, caller) := 5];
        var b': Balances := map[(Ether, weth.self) := 5, (weth.Weth(), self) := 5];
        Took(c, b, b') && Clean(c) && Matched(c, b) && !SameHoldings(b, b')
    {
    }

    /** A borrow from a contract that does nothing is paid out of the WETH that the gateway held before. */
    lemma BorrowElsewhereSpendsHoldings(caller: Account)
      requires Wired() && caller != self && caller != weth.self
      ensures
        var c := GatewayCall.BorrowETH(Counterfeit(false, 0, 0, 0, [], []), caller, 5, VARIABLE);
        var b: Balances := map[(weth.Weth(), self) := 5, (Ether, weth.self) := 5];
        var b': Balances := map[(Ether, caller) := 5];
        Took(c, b, b') && Clean(c) && Matched(c, b) && !SameHoldings(b, b')
    {
    }

    // ---- transactions

    method CallBody(c: GatewayCall) returns (o: Outcome)
      requires Wired() && Foreign(c)
      modifies chain`balances, chain`allowances
      ensures o.Pass? ==> Took(c, old(chain.balances), chain.balances)
      ensures o.Pass? ==> Unlimited(old(chain.allowances), chain.allowances)
    {
      hide Gain, At, Net;
      var moved, taken;
      match c {
        case DepositETH(lendingPool, caller, value, onBehalfOf) =>
          o := DepositETH(lendingPool, caller, value, onBehalfOf);
        case WithdrawETH(lendingPool, caller, amount, to) =>
          o, moved := WithdrawETH(lendingPool, caller, amount, to);
        case RepayETH(lendingPool, caller, value, amount, mode, onBehalfOf) =>
          o, moved, taken := RepayETH(lendingPool, caller, value, amount, mode, onBehalfOf);
        case BorrowETH(lendingPool, caller, amount, mode) =>
          o := BorrowETH(lendingPool, caller, amount, mode);
      }
    }

    /** One call as a transaction; a revert leaves no trace. */
    method Call(c: GatewayCall) returns (o: Outcome)
      requires Wired() && Foreign(c)
      modifies chain`balances, chain`allowances
      ensures o.Revert? ==> chain.balances == old(chain.balances) && chain.allowances == old(chain.allowances)
      ensures o.Pass? ==> Took(c, old(chain.balances), chain.balances)
      ensures At(chain.balances, Ether, self) == At(old(chain.balances), Ether, self)
      ensures o.Pass? && Quiet(c.lendingPool) ==>
                (SameHoldings(old(chain.balances), chain.balances) <==> Harmless(c, old(chain.balances)))
      ensures Unlimited(old(chain.allowances), chain.allowances)
    {
      hide At, Took, Harmless, SameHoldings, Quiet;
      var balances, allowances := chain.balances, chain.allowances;
      o := CallBody(c);
      if o.Revert? {
        chain.balances, chain.allowances := balances, allowances;
      } else {
        LeavesNothingBehind(c, balances, chain.balances);
      }
    }

    // ---- runs

    /** Callers are as above, and nobody else writes the gateway's balances and allowances. */
    predicate Outside(e: Event) {
      match e
      case Called(c) => Foreign(c)
      case OtherBalance(_, holder, _) => holder != self
      case OtherAllowance(_, owner, _, _) => owner != self
    }

    /** A call completes or changes nothing. */
    ghost predicate Step(e: Event, b: Balances, b': Balances) {
      match e
      case Called(c) => b' == b || Took(c, b, b')
      case OtherBalance(token, holder, n) => b' == b[(token, holder) := n]
      case OtherAllowance(_, _, _, _) => b' == b
    }

    /** The balances before the first event and after each of them. */
    ghost predicate Trace(events: seq<Event>, states: seq<Balances>) {
      && |states| == |events| + 1
      && (forall i :: 0 <= i < |events| ==> Outside(events[i]))
      && forall i :: 0 <= i < |events| ==> Step(events[i], states[i], states[i + 1])
    }

    method Run(events: seq<Event>) returns (ghost states: seq<Balances>)
      requires Wired()
      requires forall e :: e in events ==> Outside(e)
      modifies chain`balances, chain`allowances
      ensures Trace(events, states) && states[0] == old(chain.balances) && states[|events|] == chain.balances
      ensures (forall e :: e in events && e.Called? ==> e.call.lendingPool.Genuine? && Clean(e.call)) ==>
                && SameButWeth(old(chain.balances), chain.balances)
                && At(chain.balances, weth.Weth(), self) <= At(old(chain.balances), weth.Weth(), self)
                && (At(old(chain.balances), weth.Weth(), self) == 0 ==> SameHoldings(old(chain.balances), chain.balances))
      ensures At(chain.balances, Ether, self) == At(old(chain.balances), Ether, self)
      ensures Unlimited(old(chain.allowances), chain.allowances)
    {
      hide At, Took, Harmless, Outside;
      states := [chain.balances];
      for i := 0 to |events|
        invariant Trace(events[..i], states) && states[0] == old(chain.balances) && states[i] == chain.balances
        invariant Unlimited(old(chain.allowances), chain.allowances)
      {
        assert events[i] in events;
        Happen(events[i]);
        TraceSnoc(events[..i], states, events[i], chain.balances);
        states := states + [chain.balances];
        assert events[..i + 1] == events[..i] + [events[i]];
      }
      assert events[..|events|] == events;
      EtherNeverStays(events, states);
      if forall e :: e in events && e.Called? ==> e.call.lendingPool.Genuine? && Clean(e.call) {
        CleanRun(events, states);
      }
    }

    method Happen(e: Event)
      requires Wired() && Outside(e)
      modifies chain`balances, chain`allowances
      ensures Step(e, old(chain.balances), chain.balances)
      ensures Unlimited(old(chain.allowances), chain.allowances)
    {
      hide Took;
      match e {
        case Called(c) =>
          var o := Call(c);
        case OtherBalance(token, holder, n) => chain.balances := chain.balances[(token, holder) := n];
        case OtherAllowance(token, owner, spender, n) =>
          chain.allowances := chain.allowances[(token, owner, spender) := n];
      }
    }

    lemma TraceSnoc(events: seq<Event>, states: seq<Balances>, e: Event, b: Balances)
      requires Trace(events, states) && Outside(e) && Step(e, states[|events|], b)
      ensures Trace(events + [e], states + [b])
    {
      hide Step, Outside;
    }

    lemma TraceFront(events: seq<Event>, states: seq<Balances>)
      requires |events| > 0 && Trace(events, states)
      ensures
        var n := |events| - 1;
        && Trace(events[..n], states[..n + 1])
        && Outside(events[n]) && Step(events[n], states[n], states[n + 1])
    {
      hide Step, Outside;
    }

    lemma OthersSpareHoldings(e: Event, b: Balances, b': Balances)
      requires !e.Called? && Outside(e) && Step(e, b, b')
      ensures forall t :: At(b', t, self) == At(b, t, self)
    {
    }

    /** Whatever pools the callers name, the gateway's Ether is the same after every run. */
    lemma {:induction false} EtherNeverStays(events: seq<Event>, states: seq<Balances>)
      requires Wired() && Trace(events, states)
      ensures At(states[|events|], Ether, self) == At(states[0], Ether, self)
    {
      hide At, Took;
      var n := |events| - 1;
      if |events| == 0 {
      } else {
        TraceFront(events, states);
        EtherNeverStays(events[..n], states[..n + 1]);
        if events[n].Called? && states[n + 1] != states[n] {
          LeavesNothingBehind(events[n].call, states[n], states[n + 1]);
        } else if !events[n].Called? {
          OthersSpareHoldings(events[n], states[n], states[n + 1]);
        }
      }
    }

    /** With the genuine pool and clean destinations nothing stays, and WETH that was held can only be spent. */
    lemma {:induction false} CleanRun(events: seq<Event>, states: seq<Balances>)
      requires Wired() && Trace(events, states)
      requires forall e :: e in events && e.Called? ==> e.call.lendingPool.Genuine? && Clean(e.call)
      ensures SameButWeth(states[0], states[|events|])
      ensures At(states[|events|], weth.Weth(), self) <= At(states[0], weth.Weth(), self)
    {
      hide At, Took, Clean;
      var n := |events| - 1;
      if |events| == 0 {
      } else {
        TraceFront(events, states);
        CleanRun(events[..n], states[..n + 1]);
        if events[n].Called? && states[n + 1] != states[n] {
          assert events[n] in events;
          LeavesNothingBehind(events[n].call, states[n], states[n + 1]);
        } else if !events[n].Called? {
          OthersSpareHoldings(events[n], states[n], states[n + 1]);
        }
      }
    }

    /** Every call of the run names contracts that send and spend nothing, and was harmless when it was made. */
    ghost predicate AllHarmless(events: seq<Event>, states: seq<Balances>)
      requires |states| == |events| + 1
    {
      forall i :: 0 <= i < |events| && events[i].Called? ==>
                    Quiet(events[i].call.lendingPool) && Harmless(events[i].call, states[i])
    }

    /** Such a run leaves all that the gateway holds unchanged. */
    lemma {:induction false} HarmlessRun(events: seq<Event>, states: seq<Balances>)
      requires Wired() && Trace(events, states)
      requires AllHarmless(events, states)
      ensures SameHoldings(states[0], states[|events|])
    {
      hide At, Took, Harmless, Quiet;
      var n := |events| - 1;
      if |events| == 0 {
      } else {
        TraceFront(events, states);
        HarmlessRun(events[..n], states[..n + 1]);
        if events[n].Called? && states[n + 1] != states[n] {
          LeavesNothingBehind(events[n].call, states[n], states[n + 1]);
        } else if !events[n].Called? {
          OthersSpareHoldings(events[n], states[n], states[n + 1]);
        }
      }
    }

    /** The sum of what the completed calls of a run add to the gateway's balance. */
    function Changes(events: seq<Event>, states: seq<Balances>, t: Token): int
      requires |states| == |events| + 1
    {
      var n := |events| - 1;
      if |events| == 0 then 0
      else
        Changes(events[..n], states[..n + 1], t)
        + if events[n].Called? && states[n + 1] != states[n] then Change(events[n].call, states[n], t) else 0
    }

    /** Every unit that the gateway holds after any run is accounted for by the calls. */
    lemma {:induction false} RunAddsUp(events: seq<Event>, states: seq<Balances>, t: Token)
      requires Wired() && Trace(events, states)
      ensures At(states[|events|], t, self) as int == At(states[0], t, self) + Changes(events, states, t)
    {
      hide At, Took, Change;
      var n := |events| - 1;
      if |events| == 0 {
      } else {
        TraceFront(events, states);
        RunAddsUp(events[..n], states[..n + 1], t);
        if events[n].Called? && states[n + 1] != states[n] {
          ChangeOf(events[n].call, states[n], states[n + 1], t);
        } else if !events[n].Called? {
          OthersSpareHoldings(events[n], states[n], states[n + 1]);
        }
      }
    }
  }
}
