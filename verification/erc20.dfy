/**
  The base token: the internal `_transfer`, `_mint`, `_burn` and `_approve`,
  and the public `transfer`, `approve`, `transferFrom`, `increaseAllowance`
  and `decreaseAllowance`.  Each is a transaction: it returns the new ledger,
  or the reason it aborted, in which case the caller keeps the old ledger.
 */
module ERC20 {
  import opened Wrappers
  import opened LedgerCore

  /** `_transfer`: moves `amount` from `sender` to `recipient`.  The sender
      is debited before the recipient's balance is read, so a transfer to
      oneself leaves the balance as it was (the source reads the recipient's
      balance first; see `AsWritten.MoveAsWritten`). */
  function MoveTokens(l: Ledger, sender: Option<Account>, recipient: Option<Account>, amount: Amount): (r: Result<Ledger, Error>)
    ensures sender.None? ==> r == Failure(TransferFromNull)
    ensures sender.Some? && recipient.None? ==> r == Failure(TransferToNull)
    ensures sender.Some? && recipient.Some? && BalanceOf(l, sender.value) < amount ==> r == Failure(TransferExceedsBalance)
    ensures r.Success? <==> sender.Some? && recipient.Some? && amount <= BalanceOf(l, sender.value)
    ensures r.Success? ==> Shifted(l, r.value, sender, recipient, amount)
    ensures r.Success? && sender == recipient ==> forall a :: BalanceOf(r.value, a) == BalanceOf(l, a)
    ensures r.Success? ==> r.value.allowances == l.allowances && r.value.totalSupply == l.totalSupply
    ensures r.Success? ==> SameMetadata(l, r.value)
    ensures r.Success? ==> r.value.events == l.events + Emitted(l, [TransferEvent(sender, recipient, amount)])
  {
    if sender.None? then Failure(TransferFromNull)
    else if recipient.None? then Failure(TransferToNull)
    else
      var senderBalance := BalanceOf(l, sender.value);
      if senderBalance < amount then Failure(TransferExceedsBalance)
      else
        var debited := l.balances[sender.value := senderBalance - amount];
        var credited := debited[recipient.value := Get(debited, recipient.value) + amount];
        Success(Emit(l.(balances := credited), TransferEvent(sender, recipient, amount)))
  }

  /** `_mint`: creates `amount` tokens for `account`, raising the total
      supply by the same amount (the source discards the raised supply; see
      `AsWritten.MintAsWritten`). */
  function MintTokens(l: Ledger, account: Option<Account>, amount: Amount): (r: Result<Ledger, Error>)
    ensures r.Failure? <==> account.None?
    ensures r.Failure? ==> r.error == MintToNull
    ensures r.Success? ==> Shifted(l, r.value, None, account, amount)
    ensures r.Success? ==> r.value.totalSupply == l.totalSupply + amount
    ensures r.Success? ==> r.value.allowances == l.allowances && SameMetadata(l, r.value)
    ensures r.Success? ==> r.value.events == l.events + Emitted(l, [TransferEvent(None, account, amount)])
  {
    if account.None? then Failure(MintToNull)
    else
      var credited := l.balances[account.value := BalanceOf(l, account.value) + amount];
      Success(Emit(l.(balances := credited, totalSupply := l.totalSupply + amount),
                   TransferEvent(None, account, amount)))
  }

  /** `_burn`: destroys `amount` of `account`'s tokens, lowering the total
      supply by the same amount.  An unsigned subtraction below zero aborts,
      which on a valid ledger the balance check already rules out. */
  function BurnTokens(l: Ledger, account: Option<Account>, amount: Amount): (r: Result<Ledger, Error>)
    ensures account.None? ==> r == Failure(BurnFromNull)
    ensures account.Some? && BalanceOf(l, account.value) < amount ==> r == Failure(BurnExceedsBalance)
    ensures r.Success? <==> account.Some? && amount <= BalanceOf(l, account.value) && amount <= l.totalSupply
    ensures Valid(l) ==> (r.Success? <==> account.Some? && amount <= BalanceOf(l, account.value))
    ensures r.Success? ==> Shifted(l, r.value, account, None, amount)
    ensures r.Success? ==> r.value.totalSupply + amount == l.totalSupply
    ensures r.Success? ==> r.value.allowances == l.allowances && SameMetadata(l, r.value)
    ensures r.Success? ==> r.value.events == l.events + Emitted(l, [TransferEvent(account, None, amount)])
  {
    if account.None? then Failure(BurnFromNull)
    else
      var accountBalance := BalanceOf(l, account.value);
      if accountBalance < amount then Failure(BurnExceedsBalance)
      else if l.totalSupply < amount then Failure(NegativeSubtraction)
      else
        var debited := l.balances[account.value := accountBalance - amount];
        Success(Emit(l.(balances := debited, totalSupply := l.totalSupply - amount),
                     TransferEvent(account, None, amount)))
  }

  /** `_approve`: sets, rather than adds to, the allowance of `spender` over
      `owner`'s tokens.  The inner map is created on the first write (the
      source writes into a throw-away map; see `AsWritten.ApproveAsWritten`). */
  function SetAllowance(l: Ledger, owner: Option<Account>, spender: Option<Account>, amount: Amount): (r: Result<Ledger, Error>)
    ensures owner.None? ==> r == Failure(ApproveFromNull)
    ensures owner.Some? && spender.None? ==> r == Failure(ApproveToNull)
    ensures r.Success? <==> owner.Some? && spender.Some?
    ensures r.Success? ==> Overwritten(l, r.value, owner.value, spender.value, amount)
    ensures r.Success? ==> r.value.balances == l.balances && r.value.totalSupply == l.totalSupply
    ensures r.Success? ==> SameMetadata(l, r.value)
    ensures r.Success? ==> r.value.events == l.events + Emitted(l, [ApprovalEvent(owner.value, spender.value, amount)])
  {
    if owner.None? then Failure(ApproveFromNull)
    else if spender.None? then Failure(ApproveToNull)
    else
      var o, s := owner.value, spender.value;
      var inner := if o in l.allowances then l.allowances[o] else map[];
      Success(Emit(l.(allowances := l.allowances[o := inner[s := amount]]), ApprovalEvent(o, s, amount)))
  }

  /** `transfer`: moves `amount` from the caller to `recipient`; success
      is the `true` the source returns. */
  function Transfer(l: Ledger, caller: Account, recipient: Option<Account>, amount: Amount): (r: Result<Ledger, Error>)
    ensures recipient.None? ==> r == Failure(TransferToNull)
    ensures r.Success? <==> recipient.Some? && amount <= BalanceOf(l, caller)
    ensures recipient.Some? && r.Failure? ==> r.error == TransferExceedsBalance
    ensures r.Success? ==> Shifted(l, r.value, Some(caller), recipient, amount)
    ensures r.Success? ==> r.value.allowances == l.allowances && r.value.totalSupply == l.totalSupply
    ensures r.Success? ==> SameMetadata(l, r.value)
    ensures r.Success? ==> r.value.events == l.events + Emitted(l, [TransferEvent(Some(caller), recipient, amount)])
  {
    MoveTokens(l, Some(caller), recipient, amount)
  }

  /** `approve`: the caller sets `spender`'s allowance to `amount`,
      whatever it was before. */
  function Approve(l: Ledger, caller: Account, spender: Option<Account>, amount: Amount): (r: Result<Ledger, Error>)
    ensures r.Failure? <==> spender.None?
    ensures r.Failure? ==> r.error == ApproveToNull
    ensures r.Success? ==> Overwritten(l, r.value, caller, spender.value, amount)
    ensures r.Success? ==> r.value.balances == l.balances && r.value.totalSupply == l.totalSupply
    ensures r.Success? ==> SameMetadata(l, r.value)
    ensures r.Success? ==> r.value.events == l.events + Emitted(l, [ApprovalEvent(caller, spender.value, amount)])
  {
    SetAllowance(l, Some(caller), spender, amount)
  }

  /** `transferFrom`: moves `amount` from `sender` to `recipient` and takes
      `amount` out of the allowance `sender` granted the caller, atomically.
      The source debits the caller instead of `sender`; see
      `AsWritten.TransferFromAsWritten`. */
  function TransferFrom(l: Ledger, caller: Account, sender: Option<Account>, recipient: Option<Account>, amount: Amount): (r: Result<Ledger, Error>)
    ensures MoveTokens(l, sender, recipient, amount).Failure? ==> r == MoveTokens(l, sender, recipient, amount)
    ensures sender.Some? && recipient.Some? && amount <= BalanceOf(l, sender.value) && Allowance(l, sender.value, caller) < amount
            ==> r == Failure(TransferExceedsAllowance)
    ensures r.Success? <==>
            && sender.Some? && recipient.Some?
            && amount <= BalanceOf(l, sender.value)
            && amount <= Allowance(l, sender.value, caller)
    ensures r.Success? ==> Shifted(l, r.value, sender, recipient, amount)
    ensures r.Success? ==> Overwritten(l, r.value, sender.value, caller, Allowance(l, sender.value, caller) - amount)
    ensures r.Success? ==> r.value.totalSupply == l.totalSupply && SameMetadata(l, r.value)
    ensures r.Success? ==> r.value.events == l.events + Emitted(l, [
              TransferEvent(sender, recipient, amount),
              ApprovalEvent(sender.value, caller, Allowance(l, sender.value, caller) - amount)])
  {
    var moved :- MoveTokens(l, sender, recipient, amount);
    var current := Allowance(moved, sender.value, caller);
    if current < amount then Failure(TransferExceedsAllowance)
    else SetAllowance(moved, sender, Some(caller), current - amount)
  }

  /** The allowance the caller has granted `spender`, reading zero for a
      null spender as the source's default-valued lookup does. */
  function CurrentAllowance(l: Ledger, caller: Account, spender: Option<Account>): Amount
  {
    if spender.Some? then Allowance(l, caller, spender.value) else 0
  }

  /** `increaseAllowance`: adds `addedValue` to the allowance the caller
      has granted `spender`. */
  function IncreaseAllowance(l: Ledger, caller: Account, spender: Option<Account>, addedValue: Amount): (r: Result<Ledger, Error>)
    ensures r.Failure? <==> spender.None?
    ensures r.Failure? ==> r.error == ApproveToNull
    ensures r.Success? ==> Overwritten(l, r.value, caller, spender.value, Allowance(l, caller, spender.value) + addedValue)
    ensures r.Success? ==> r.value.balances == l.balances && r.value.totalSupply == l.totalSupply
    ensures r.Success? ==> SameMetadata(l, r.value)
    ensures r.Success? ==> r.value.events == l.events + Emitted(l, [
              ApprovalEvent(caller, spender.value, Allowance(l, caller, spender.value) + addedValue)])
  {
    SetAllowance(l, Some(caller), spender, CurrentAllowance(l, caller, spender) + addedValue)
  }

  /** `decreaseAllowance`: takes `subtractedValue` off the allowance the
      caller has granted `spender`, aborting rather than going below zero.
      The underflow check comes before the null check on `spender`. */
  function DecreaseAllowance(l: Ledger, caller: Account, spender: Option<Account>, subtractedValue: Amount): (r: Result<Ledger, Error>)
    ensures spender.Some? ==> (r.Success? <==> subtractedValue <= Allowance(l, caller, spender.value))
    ensures spender.Some? && Allowance(l, caller, spender.value) < subtractedValue ==> r == Failure(DecreasedBelowZero)
    ensures spender.None? ==> r == Failure(if subtractedValue == 0 then ApproveToNull else DecreasedBelowZero)
    ensures r.Success? ==> Overwritten(l, r.value, caller, spender.value, Allowance(l, caller, spender.value) - subtractedValue)
    ensures r.Success? ==> r.value.balances == l.balances && r.value.totalSupply == l.totalSupply
    ensures r.Success? ==> SameMetadata(l, r.value)
    ensures r.Success? ==> r.value.events == l.events + Emitted(l, [
              ApprovalEvent(caller, spender.value, Allowance(l, caller, spender.value) - subtractedValue)])
  {
    var current := CurrentAllowance(l, caller, spender);
    if current < subtractedValue then Failure(DecreasedBelowZero)
    else SetAllowance(l, Some(caller), spender, current - subtractedValue)
  }

  // ---------------------------------------------------------------------
  // Supply invariant

  /** `_transfer` keeps the total supply equal to the sum of balances. */
  lemma MoveTokensValid(l: Ledger, sender: Option<Account>, recipient: Option<Account>, amount: Amount)
    requires Valid(l)
    ensures MoveTokens(l, sender, recipient, amount).Success? ==> Valid(MoveTokens(l, sender, recipient, amount).value)
  {
    if MoveTokens(l, sender, recipient, amount).Success? {
      var from, to := sender.value, recipient.value;
      var debited := l.balances[from := BalanceOf(l, from) - amount];
      SumUpdate(l.balances, from, BalanceOf(l, from) - amount);
      SumUpdate(debited, to, Get(debited, to) + amount);
    }
  }

  /** `_mint` raises the sum of balances exactly as it raises the supply. */
  lemma MintTokensValid(l: Ledger, account: Option<Account>, amount: Amount)
    requires Valid(l)
    ensures MintTokens(l, account, amount).Success? ==> Valid(MintTokens(l, account, amount).value)
  {
    if account.Some? {
      SumUpdate(l.balances, account.value, BalanceOf(l, account.value) + amount);
    }
  }

  /** `_burn` lowers the sum of balances exactly as it lowers the supply. */
  lemma BurnTokensValid(l: Ledger, account: Option<Account>, amount: Amount)
    requires Valid(l)
    ensures BurnTokens(l, account, amount).Success? ==> Valid(BurnTokens(l, account, amount).value)
  {
    if BurnTokens(l, account, amount).Success? {
      SumUpdate(l.balances, account.value, BalanceOf(l, account.value) - amount);
    }
  }

  /** `_mint` followed by `_burn` of the same amount from the same account
      restores every balance and the supply. */
  lemma MintThenBurnRestores(l: Ledger, account: Account, amount: Amount)
    ensures MintTokens(l, Some(account), amount).Success?
    ensures var minted := MintTokens(l, Some(account), amount).value;
            var burnt := BurnTokens(minted, Some(account), amount);
            && burnt.Success?
            && burnt.value.totalSupply == l.totalSupply
            && (forall a :: BalanceOf(burnt.value, a) == BalanceOf(l, a))
            && burnt.value.allowances == l.allowances
  {
  }

  /** A transfer followed by the reverse transfer restores every balance. */
  lemma TransferThenReturnRestores(l: Ledger, a: Account, b: Account, amount: Amount)
    requires amount <= BalanceOf(l, a)
    ensures Transfer(l, a, Some(b), amount).Success?
    ensures var there := Transfer(l, a, Some(b), amount).value;
            var back := Transfer(there, b, Some(a), amount);
            && back.Success?
            && (forall x :: BalanceOf(back.value, x) == BalanceOf(l, x))
  {
  }

  /** A Transfer of value zero is legal: it succeeds between any two
      accounts and leaves every balance as it was. */
  lemma ZeroTransferSucceeds(l: Ledger, caller: Account, recipient: Account)
    ensures Transfer(l, caller, Some(recipient), 0).Success?
    ensures forall a :: BalanceOf(Transfer(l, caller, Some(recipient), 0).value, a) == BalanceOf(l, a)
  {
  }

  /** `approve` is an overwrite: approving twice is approving the second
      amount once. */
  lemma ApproveOverwrites(l: Ledger, caller: Account, spender: Account, first: Amount, second: Amount)
    ensures Approve(l, caller, Some(spender), first).Success?
    ensures var once := Approve(l, caller, Some(spender), second).value;
            var twice := Approve(Approve(l, caller, Some(spender), first).value, caller, Some(spender), second).value;
            SameAllowances(once, twice) && once.balances == twice.balances
  {
  }

  /** `increaseAllowance` followed by `decreaseAllowance` of the same value
      succeeds and restores every allowance. */
  lemma IncreaseThenDecreaseRestores(l: Ledger, caller: Account, spender: Account, delta: Amount)
    ensures IncreaseAllowance(l, caller, Some(spender), delta).Success?
    ensures var up := IncreaseAllowance(l, caller, Some(spender), delta).value;
            var down := DecreaseAllowance(up, caller, Some(spender), delta);
            && down.Success?
            && SameAllowances(l, down.value)
            && down.value.balances == l.balances
  {
  }

  // ---------------------------------------------------------------------
  // Sequences of public calls

  /** A call of the public surface; `caller` is what the host supplies. */
  datatype Call =
    | TransferCall(caller: Account, recipient: Option<Account>, amount: Amount)
    | ApproveCall(caller: Account, spender: Option<Account>, amount: Amount)
    | TransferFromCall(caller: Account, sender: Option<Account>, recipient: Option<Account>, amount: Amount)
    | IncreaseAllowanceCall(caller: Account, spender: Option<Account>, amount: Amount)
    | DecreaseAllowanceCall(caller: Account, spender: Option<Account>, amount: Amount)

  function Step(l: Ledger, c: Call): Result<Ledger, Error>
  {
    match c
    case TransferCall(caller, recipient, amount) => Transfer(l, caller, recipient, amount)
    case ApproveCall(caller, spender, amount) => Approve(l, caller, spender, amount)
    case TransferFromCall(caller, sender, recipient, amount) => TransferFrom(l, caller, sender, recipient, amount)
    case IncreaseAllowanceCall(caller, spender, amount) => IncreaseAllowance(l, caller, spender, amount)
    case DecreaseAllowanceCall(caller, spender, amount) => DecreaseAllowance(l, caller, spender, amount)
  }

  /** A transaction commits its new state on success; an abort leaves the
      ledger untouched. */
  function Commit(l: Ledger, r: Result<Ledger, Error>): Ledger
  {
    if r.Success? then r.value else l
  }

  /** The ledger after the calls have run in order. */
  function Run(l: Ledger, calls: seq<Call>): Ledger
    decreases |calls|
  {
    if calls == [] then l else Run(Commit(l, Step(l, calls[0])), calls[1..])
  }

  /** Whether `c` is one of the calls the interface lets change the
      allowance of `spender` over `owner`'s tokens. */
  predicate Touches(c: Call, owner: Account, spender: Account)
  {
    match c
    case TransferCall(_, _, _) => false
    case ApproveCall(caller, s, _) => caller == owner && s == Some(spender)
    case TransferFromCall(caller, sender, _, _) => sender == Some(owner) && caller == spender
    case IncreaseAllowanceCall(caller, s, _) => caller == owner && s == Some(spender)
    case DecreaseAllowanceCall(caller, s, _) => caller == owner && s == Some(spender)
  }

  /** Every public call keeps the supply invariant, the total supply and
      the metadata. */
  lemma StepValid(l: Ledger, c: Call)
    requires Valid(l)
    ensures var next := Commit(l, Step(l, c));
            Valid(next) && next.totalSupply == l.totalSupply && SameMetadata(l, next)
  {
    match c
    case TransferCall(caller, recipient, amount) =>
      MoveTokensValid(l, Some(caller), recipient, amount);
    case TransferFromCall(caller, sender, recipient, amount) =>
      MoveTokensValid(l, sender, recipient, amount);
    case _ =>
  }

  /** The public surface never changes the total supply: tokens come into
      existence only through `_mint`.  The supply invariant holds
      throughout. */
  lemma {:induction false} RunValid(l: Ledger, calls: seq<Call>)
    requires Valid(l)
    ensures Valid(Run(l, calls))
    ensures Run(l, calls).totalSupply == l.totalSupply
    ensures SameMetadata(l, Run(l, calls))
    decreases |calls|
  {
    if calls != [] {
      StepValid(l, calls[0]);
      RunValid(Commit(l, Step(l, calls[0])), calls[1..]);
    }
  }

  /** A call that is not an approve, an increase, a decrease or a
      `transferFrom` on the pair leaves that allowance alone. */
  lemma StepFramesAllowance(l: Ledger, c: Call, owner: Account, spender: Account)
    requires !Touches(c, owner, spender)
    ensures Allowance(Commit(l, Step(l, c)), owner, spender) == Allowance(l, owner, spender)
  {
  }

  /** An allowance changes only through the calls that touch its pair. */
  lemma {:induction false} RunFramesAllowance(l: Ledger, calls: seq<Call>, owner: Account, spender: Account)
    requires forall i :: 0 <= i < |calls| ==> !Touches(calls[i], owner, spender)
    ensures Allowance(Run(l, calls), owner, spender) == Allowance(l, owner, spender)
    decreases |calls|
  {
    if calls != [] {
      StepFramesAllowance(l, calls[0], owner, spender);
      RunFramesAllowance(Commit(l, Step(l, calls[0])), calls[1..], owner, spender);
    }
  }

  /** An allowance is zero until one of the calls that touch it is made. */
  lemma AllowanceZeroUntilSet(name: string, symbol: string, generateEvents: bool, calls: seq<Call>, owner: Account, spender: Account)
    requires forall i :: 0 <= i < |calls| ==> !Touches(calls[i], owner, spender)
    ensures Allowance(Run(New(name, symbol, generateEvents), calls), owner, spender) == 0
  {
    RunFramesAllowance(New(name, symbol, generateEvents), calls, owner, spender);
  }
}
