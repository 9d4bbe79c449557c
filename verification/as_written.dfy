/**
  The token as its code is literally written, at each place where the
  code departs from what its own documentation promises.  Each definition
  here changes only the one defect it is about and takes everything else
  from the corrected model, and each comes with a lemma exhibiting an input
  on which the literal code breaks the documented behaviour.  The defects
  mask one another in the literal program: with the supply field never
  assigned, every mint and burn aborts (`SupplyStaysUnassigned`), so no
  account ever holds a positive balance; and with no allowance ever
  stored, every `allowance` and `transferFrom` aborts.  The inputs below
  for the transfer and capped-mint defects therefore assume the other
  defects corrected.  The rest of the model uses the corrected
  definitions.
 */
module AsWritten {
  import opened Wrappers
  import opened LedgerCore
  import ERC20
  import Capped

  // ---------------------------------------------------------------------
  // The total supply is never initialised, and `_mint` discards the sum.

  /** The balances and the raw supply field, which is `null` (`None`)
      until something assigns it. */
  datatype RawLedger = RawLedger(totalSupply: Option<Amount>, balances: map<Account, Amount>)

  /** Construction leaves the supply field unassigned. */
  function NewAsWritten(): (l: RawLedger)
    ensures l.totalSupply.None? && l.balances == map[]
  {
    RawLedger(None, map[])
  }

  /** `_mint` as written: the addition is called on the supply field, so a
      `null` field aborts the call, and its result is thrown away, so the
      supply never changes. */
  function MintAsWritten(l: RawLedger, account: Option<Account>, amount: Amount): (r: Result<RawLedger, Error>)
    ensures account.None? ==> r == Failure(MintToNull)
    ensures account.Some? && l.totalSupply.None? ==> r == Failure(NullDereference)
    ensures r.Success? ==> r.value.totalSupply == l.totalSupply
    ensures r.Success? ==> Get(r.value.balances, account.value) == Get(l.balances, account.value) + amount
  {
    if account.None? then Failure(MintToNull)
    else if l.totalSupply.None? then Failure(NullDereference)
    else Success(l.(balances := l.balances[account.value := Get(l.balances, account.value) + amount]))
  }

  /** The fixed-supply constructor as written aborts for every owner and
      every supply: its mint reaches the unassigned supply field. */
  lemma FixedSupplyAsWrittenAborts(owner: Option<Account>, initialSupply: Amount)
    ensures MintAsWritten(NewAsWritten(), owner, initialSupply).Failure?
  {
  }

  /** Even with the field assigned, a mint of a positive amount leaves the
      supply short of the sum of balances. */
  lemma MintAsWrittenBreaksSupply(l: RawLedger, account: Account, amount: Amount)
    requires l.totalSupply == Some(Sum(l.balances))
    requires amount > 0
    ensures MintAsWritten(l, Some(account), amount).Success?
    ensures var m := MintAsWritten(l, Some(account), amount).value;
            m.totalSupply.value + amount == Sum(m.balances)
  {
    SumUpdate(l.balances, account, Get(l.balances, account) + amount);
  }

  /** `_burn` as written: after the balance check, the subtraction is
      called on the supply field, so a `null` field aborts the call.  This is
      the only place the field is ever assigned. */
  function BurnAsWritten(l: RawLedger, account: Option<Account>, amount: Amount): (r: Result<RawLedger, Error>)
    ensures account.None? ==> r == Failure(BurnFromNull)
    ensures account.Some? && l.totalSupply.None? ==> r.Failure?
    ensures r.Success? ==> r.value.totalSupply.Some? && r.value.totalSupply.value + amount == l.totalSupply.value
    ensures r.Success? ==> Get(r.value.balances, account.value) + amount == Get(l.balances, account.value)
  {
    if account.None? then Failure(BurnFromNull)
    else
      var accountBalance := Get(l.balances, account.value);
      if accountBalance < amount then Failure(BurnExceedsBalance)
      else if l.totalSupply.None? then Failure(NullDereference)
      else if l.totalSupply.value < amount then Failure(NegativeSubtraction)
      else Success(RawLedger(Some(l.totalSupply.value - amount),
                             l.balances[account.value := accountBalance - amount]))
  }

  /** The literal calls that touch the supply field. */
  datatype SupplyCall =
    | MintCall(account: Option<Account>, amount: Amount)
    | BurnCall(account: Option<Account>, amount: Amount)

  function StepAsWritten(l: RawLedger, c: SupplyCall): Result<RawLedger, Error>
  {
    match c
    case MintCall(account, amount) => MintAsWritten(l, account, amount)
    case BurnCall(account, amount) => BurnAsWritten(l, account, amount)
  }

  /** A transaction commits its new state on success; an abort leaves the
      raw ledger untouched. */
  function CommitAsWritten(l: RawLedger, r: Result<RawLedger, Error>): RawLedger
  {
    if r.Success? then r.value else l
  }

  /** The raw ledger after the literal mints and burns, each committing or
      aborting on its own. */
  function RunAsWritten(l: RawLedger, calls: seq<SupplyCall>): RawLedger
    decreases |calls|
  {
    if calls == [] then l else RunAsWritten(CommitAsWritten(l, StepAsWritten(l, calls[0])), calls[1..])
  }

  /** With the supply field unassigned, every literal mint and burn aborts,
      so the field is never assigned and no balance is ever created: from
      construction, no sequence of mints and burns changes anything. */
  lemma {:induction false} SupplyStaysUnassigned(l: RawLedger, calls: seq<SupplyCall>)
    requires l.totalSupply.None?
    ensures RunAsWritten(l, calls) == l
    decreases |calls|
  {
    if calls != [] {
      assert StepAsWritten(l, calls[0]).Failure?;
      SupplyStaysUnassigned(l, calls[1..]);
    }
  }

  // ---------------------------------------------------------------------
  // `_transfer` reads the recipient's balance before debiting the sender.

  /** `_transfer` as written: the recipient is credited on top of the
      balance it had before the sender was debited. */
  function MoveAsWritten(l: Ledger, sender: Option<Account>, recipient: Option<Account>, amount: Amount): (r: Result<Ledger, Error>)
    ensures r.Success? <==> sender.Some? && recipient.Some? && amount <= BalanceOf(l, sender.value)
    ensures r.Success? ==> BalanceOf(r.value, recipient.value) == BalanceOf(l, recipient.value) + amount
  {
    if sender.None? then Failure(TransferFromNull)
    else if recipient.None? then Failure(TransferToNull)
    else
      var senderBalance := BalanceOf(l, sender.value);
      var recipientBalance := BalanceOf(l, recipient.value);
      if senderBalance < amount then Failure(TransferExceedsBalance)
      else
        var debited := l.balances[sender.value := senderBalance - amount];
        Success(Emit(l.(balances := debited[recipient.value := recipientBalance + amount]),
                     TransferEvent(sender, recipient, amount)))
  }

  /** A transfer to oneself as written creates `amount` new tokens: the
      balance grows and the supply no longer matches the balances. */
  lemma SelfTransferAsWrittenMints(l: Ledger, a: Account, amount: Amount)
    requires Valid(l)
    requires 0 < amount <= BalanceOf(l, a)
    ensures MoveAsWritten(l, Some(a), Some(a), amount).Success?
    ensures var m := MoveAsWritten(l, Some(a), Some(a), amount).value;
            BalanceOf(m, a) == BalanceOf(l, a) + amount && !Valid(m)
  {
    var debited := l.balances[a := BalanceOf(l, a) - amount];
    SumUpdate(l.balances, a, BalanceOf(l, a) - amount);
    SumUpdate(debited, a, BalanceOf(l, a) + amount);
  }

  // ---------------------------------------------------------------------
  // `transferFrom` debits the caller instead of `sender`.

  /** `transferFrom` as written: the tokens move from the caller, while
      the allowance consumed is the one `sender` granted the caller. */
  function TransferFromAsWritten(l: Ledger, caller: Account, sender: Option<Account>, recipient: Option<Account>, amount: Amount): (r: Result<Ledger, Error>)
    ensures recipient.Some? && BalanceOf(l, caller) < amount ==> r == Failure(TransferExceedsBalance)
    ensures r.Success? ==> Shifted(l, r.value, Some(caller), recipient, amount)
  {
    var moved :- ERC20.MoveTokens(l, Some(caller), recipient, amount);
    var current := if sender.Some? then Allowance(moved, sender.value, caller) else 0;
    if current < amount then Failure(TransferExceedsAllowance)
    else ERC20.SetAllowance(moved, sender, Some(caller), current - amount)
  }

  /** With the supply defects corrected, so that the spender can hold
      tokens, and with allowances stored: when the spender holds tokens of
      its own, the literal `transferFrom` spends them and leaves `sender`'s
      balance untouched, although it consumes `sender`'s allowance. */
  lemma TransferFromAsWrittenDebitsCaller(l: Ledger, caller: Account, sender: Account, recipient: Account, amount: Amount)
    requires sender != caller && sender != recipient && caller != recipient
    requires 0 < amount <= BalanceOf(l, caller)
    requires amount <= Allowance(l, sender, caller)
    ensures TransferFromAsWritten(l, caller, Some(sender), Some(recipient), amount).Success?
    ensures var m := TransferFromAsWritten(l, caller, Some(sender), Some(recipient), amount).value;
            && BalanceOf(m, sender) == BalanceOf(l, sender)
            && BalanceOf(m, caller) + amount == BalanceOf(l, caller)
            && Allowance(m, sender, caller) + amount == Allowance(l, sender, caller)
  {
  }

  // ---------------------------------------------------------------------
  // Allowances: `get` on an absent owner, and writes into a throw-away map.

  /** `allowance` as written: the outer lookup yields `null` for an owner
      with no entry, and the inner lookup then aborts. */
  function AllowanceAsWritten(l: Ledger, owner: Account, spender: Account): (r: Result<Amount, Error>)
    ensures r.Failure? <==> owner !in l.allowances
    ensures r.Success? ==> r.value == Allowance(l, owner, spender)
  {
    if owner in l.allowances then Success(Get(l.allowances[owner], spender)) else Failure(NullDereference)
  }

  /** `_approve` as written: for an owner with no entry the write goes into
      a new inner map that is never stored. */
  function ApproveAsWritten(l: Ledger, owner: Option<Account>, spender: Option<Account>, amount: Amount): (r: Result<Ledger, Error>)
    ensures r.Success? <==> owner.Some? && spender.Some?
    ensures r.Success? ==> r.value.allowances.Keys == l.allowances.Keys
  {
    if owner.None? then Failure(ApproveFromNull)
    else if spender.None? then Failure(ApproveToNull)
    else
      var o, s := owner.value, spender.value;
      var inner: map<Account, Amount> := if o in l.allowances then l.allowances[o] else map[];
      var stored := if o in l.allowances then l.allowances[o := inner[s := amount]] else l.allowances;
      Success(Emit(l.(allowances := stored), ApprovalEvent(o, s, amount)))
  }

  /** Since nothing ever adds an owner to the outer map, an approval on a
      newly constructed token is lost, and asking for the allowance afterwards
      aborts. */
  lemma ApprovalAsWrittenIsLost(name: string, symbol: string, generateEvents: bool, owner: Account, spender: Account, amount: Amount)
    ensures ApproveAsWritten(New(name, symbol, generateEvents), Some(owner), Some(spender), amount).Success?
    ensures var m := ApproveAsWritten(New(name, symbol, generateEvents), Some(owner), Some(spender), amount).value;
            m.allowances == map[] && AllowanceAsWritten(m, owner, spender).Failure?
  {
  }

  // ---------------------------------------------------------------------
  // The capped mint compares the wrong way round.

  /** The capped `_mint` as written: it goes ahead only when the new supply
      reaches or passes the cap. */
  function CappedMintAsWritten(c: Capped.CappedLedger, account: Option<Account>, amount: Amount): (r: Result<Capped.CappedLedger, Error>)
    ensures c.token.totalSupply + amount < c.cap ==> r == Failure(CapExceeded)
    ensures account.Some? && c.token.totalSupply + amount >= c.cap ==> r.Success?
  {
    if c.token.totalSupply + amount < c.cap then Failure(CapExceeded)
    else
      var minted :- ERC20.MintTokens(c.token, account, amount);
      Success(c.(token := minted))
  }

  /** With the supply field assigned, so that a newly constructed token's
      supply reads 0: on such a token with cap 1000 the literal capped mint
      refuses to mint a single token. */
  lemma CappedMintAsWrittenRefusesFirstToken(account: Account)
    ensures CappedMintAsWritten(Capped.New("Gold", "GLD", 1000, false), Some(account), 1) == Failure(CapExceeded)
  {
  }

  /** With both supply defects corrected: once the supply stands at the
      cap, whatever the cap, the literal capped mint accepts any further
      positive amount and takes the supply past the cap. */
  lemma CappedMintAsWrittenOvershootsCap(c: Capped.CappedLedger, account: Account, amount: Amount)
    requires c.token.totalSupply == c.cap
    requires amount > 0
    ensures CappedMintAsWritten(c, Some(account), amount).Success?
    ensures CappedMintAsWritten(c, Some(account), amount).value.token.totalSupply > c.cap
  {
  }
}
