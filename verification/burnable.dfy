/**
  The burnable extension: holders may destroy their own tokens, and a
  spender may destroy tokens it has been allowed to spend.
 */
module Burnable {
  import opened Wrappers
  import opened LedgerCore
  import ERC20

  /** `burn`: the caller destroys `amount` of its own tokens. */
  function Burn(l: Ledger, caller: Account, amount: Amount): (r: Result<Ledger, Error>)
    ensures r == ERC20.BurnTokens(l, Some(caller), amount)
    ensures BalanceOf(l, caller) < amount ==> r == Failure(BurnExceedsBalance)
    ensures Valid(l) ==> (r.Success? <==> amount <= BalanceOf(l, caller))
    ensures r.Success? ==> Shifted(l, r.value, Some(caller), None, amount)
    ensures r.Success? ==> r.value.totalSupply + amount == l.totalSupply
    ensures r.Success? ==> r.value.allowances == l.allowances && SameMetadata(l, r.value)
  {
    ERC20.BurnTokens(l, Some(caller), amount)
  }

  /** `burnFrom`: the caller destroys `amount` of `account`'s tokens and
      the allowance `account` granted the caller drops by `amount`.  The
      allowance is written before the burn, but the two commit or abort
      together. */
  function BurnFrom(l: Ledger, caller: Account, account: Option<Account>, amount: Amount): (r: Result<Ledger, Error>)
    ensures account.Some? && Allowance(l, account.value, caller) < amount ==> r == Failure(BurnExceedsAllowance)
    ensures account.None? ==> r == Failure(if amount == 0 then ApproveFromNull else BurnExceedsAllowance)
    ensures account.Some? && amount <= Allowance(l, account.value, caller) && BalanceOf(l, account.value) < amount
            ==> r == Failure(BurnExceedsBalance)
    ensures Valid(l) ==>
              (r.Success? <==>
                 && account.Some?
                 && amount <= Allowance(l, account.value, caller)
                 && amount <= BalanceOf(l, account.value))
    ensures r.Success? ==> Shifted(l, r.value, account, None, amount)
    ensures r.Success? ==> r.value.totalSupply + amount == l.totalSupply
    ensures r.Success? ==> Overwritten(l, r.value, account.value, caller, Allowance(l, account.value, caller) - amount)
    ensures r.Success? ==> SameMetadata(l, r.value)
    ensures r.Success? ==> r.value.events == l.events + Emitted(l, [
              ApprovalEvent(account.value, caller, Allowance(l, account.value, caller) - amount),
              TransferEvent(account, None, amount)])
  {
    var current := if account.Some? then Allowance(l, account.value, caller) else 0;
    if current < amount then Failure(BurnExceedsAllowance)
    else
      var approved :- ERC20.SetAllowance(l, account, Some(caller), current - amount);
      ERC20.BurnTokens(approved, account, amount)
  }

  /** `burnFrom` keeps the supply invariant. */
  lemma BurnFromValid(l: Ledger, caller: Account, account: Option<Account>, amount: Amount)
    requires Valid(l)
    ensures BurnFrom(l, caller, account, amount).Success? ==> Valid(BurnFrom(l, caller, account, amount).value)
  {
    if BurnFrom(l, caller, account, amount).Success? {
      var current := Allowance(l, account.value, caller);
      var approved := ERC20.SetAllowance(l, account, Some(caller), current - amount).value;
      ERC20.BurnTokensValid(approved, account, amount);
    }
  }

  /** A call on a burnable token: the base surface, or one of the two burns. */
  datatype Call =
    | Public(call: ERC20.Call)
    | BurnCall(caller: Account, amount: Amount)
    | BurnFromCall(caller: Account, account: Option<Account>, amount: Amount)

  function Step(l: Ledger, c: Call): Result<Ledger, Error>
  {
    match c
    case Public(call) => ERC20.Step(l, call)
    case BurnCall(caller, amount) => Burn(l, caller, amount)
    case BurnFromCall(caller, account, amount) => BurnFrom(l, caller, account, amount)
  }

  /** The ledger after the calls have run in order, each committing or
      aborting on its own. */
  function Run(l: Ledger, calls: seq<Call>): Ledger
    decreases |calls|
  {
    if calls == [] then l else Run(ERC20.Commit(l, Step(l, calls[0])), calls[1..])
  }

  /** Every call of a burnable token keeps the supply invariant and never
      raises the total supply. */
  lemma StepValid(l: Ledger, c: Call)
    requires Valid(l)
    ensures var next := ERC20.Commit(l, Step(l, c));
            Valid(next) && next.totalSupply <= l.totalSupply && SameMetadata(l, next)
  {
    match c
    case Public(call) => ERC20.StepValid(l, call);
    case BurnCall(caller, amount) => ERC20.BurnTokensValid(l, Some(caller), amount);
    case BurnFromCall(caller, account, amount) => BurnFromValid(l, caller, account, amount);
  }

  /** Any sequence of calls keeps the supply invariant and can only lower
      the total supply: a burnable token has no public way to mint. */
  lemma {:induction false} RunValid(l: Ledger, calls: seq<Call>)
    requires Valid(l)
    ensures Valid(Run(l, calls))
    ensures Run(l, calls).totalSupply <= l.totalSupply
    ensures SameMetadata(l, Run(l, calls))
    decreases |calls|
  {
    if calls != [] {
      StepValid(l, calls[0]);
      RunValid(ERC20.Commit(l, Step(l, calls[0])), calls[1..]);
    }
  }
}
