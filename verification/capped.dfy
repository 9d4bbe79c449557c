/**
  The capped extension: an immutable ceiling on the total supply, enforced
  whenever tokens are minted.
 */
module Capped {
  import opened Wrappers
  import opened LedgerCore
  import ERC20

  /** A capped token: the base ledger and the cap fixed at construction. */
  datatype CappedLedger = CappedLedger(token: Ledger, cap: Amount)

  /** The constructor: a newly constructed token whose event switch is passed through
      unchanged, and the cap. */
  function New(name: string, symbol: string, cap: Amount, generateEvents: bool): (c: CappedLedger)
    ensures c.cap == cap
    ensures c.token.generateEvents == generateEvents
    ensures c.token == LedgerCore.New(name, symbol, generateEvents)
  {
    CappedLedger(LedgerCore.New(name, symbol, generateEvents), cap)
  }

  /** The three-argument constructor: events are switched off. */
  function NewWithoutEvents(name: string, symbol: string, cap: Amount): (c: CappedLedger)
    ensures c.cap == cap && !c.token.generateEvents
    ensures c.token.totalSupply == 0 && c.token.events == []
    ensures c.token == LedgerCore.New(name, symbol, false)
    ensures c.token.name == name && c.token.symbol == symbol
    ensures forall a :: BalanceOf(c.token, a) == 0
    ensures forall o, s :: Allowance(c.token, o, s) == 0
    ensures Valid(c.token)
  {
    New(name, symbol, cap, false)
  }

  /** `cap()`: the ceiling fixed at construction. */
  function Cap(c: CappedLedger): Amount
  {
    c.cap
  }

  /** The overriding `_mint`: rejected when the new supply would exceed the
      cap (reaching it exactly is allowed), otherwise exactly the base
      `_mint`.  The cap is checked before the account.  The source's
      comparison is the other way round; see `AsWritten.CappedMintAsWritten`. */
  function Mint(c: CappedLedger, account: Option<Account>, amount: Amount): (r: Result<CappedLedger, Error>)
    ensures c.token.totalSupply + amount > c.cap ==> r == Failure(CapExceeded)
    ensures c.token.totalSupply + amount <= c.cap && account.None? ==> r == Failure(MintToNull)
    ensures r.Success? <==> account.Some? && c.token.totalSupply + amount <= c.cap
    ensures r.Success? ==> r.value.cap == c.cap && r.value.token.totalSupply <= c.cap
    ensures r.Success? ==> ERC20.MintTokens(c.token, account, amount) == Success(r.value.token)
  {
    if c.token.totalSupply + amount > Cap(c) then Failure(CapExceeded)
    else
      var minted :- ERC20.MintTokens(c.token, account, amount);
      Success(c.(token := minted))
  }

  /** What a capped token may be asked to do: the base public surface, and
      the internal mint and burn a derived token builds on. */
  datatype Call =
    | Public(call: ERC20.Call)
    | MintCall(account: Option<Account>, amount: Amount)
    | BurnCall(account: Option<Account>, amount: Amount)

  function Step(c: CappedLedger, call: Call): Result<CappedLedger, Error>
  {
    match call
    case Public(p) =>
      var t :- ERC20.Step(c.token, p);
      Success(c.(token := t))
    case MintCall(account, amount) => Mint(c, account, amount)
    case BurnCall(account, amount) =>
      var t :- ERC20.BurnTokens(c.token, account, amount);
      Success(c.(token := t))
  }

  /** A transaction commits its new state on success; an abort leaves the
      capped ledger untouched. */
  function Commit(c: CappedLedger, r: Result<CappedLedger, Error>): CappedLedger
  {
    if r.Success? then r.value else c
  }

  /** The capped ledger after the calls have run in order, each committing
      or aborting on its own. */
  function Run(c: CappedLedger, calls: seq<Call>): CappedLedger
    decreases |calls|
  {
    if calls == [] then c else Run(Commit(c, Step(c, calls[0])), calls[1..])
  }

  /** A capped token within its cap stays within it, keeps its supply
      invariant, and never changes its cap. */
  ghost predicate WithinCap(c: CappedLedger)
  {
    Valid(c.token) && c.token.totalSupply <= c.cap
  }

  lemma StepWithinCap(c: CappedLedger, call: Call)
    requires WithinCap(c)
    ensures var r := Step(c, call);
            r.Success? ==> WithinCap(r.value) && r.value.cap == c.cap
  {
    match call
    case Public(p) => ERC20.StepValid(c.token, p);
    case MintCall(account, amount) => ERC20.MintTokensValid(c.token, account, amount);
    case BurnCall(account, amount) => ERC20.BurnTokensValid(c.token, account, amount);
  }

  lemma {:induction false} RunWithinCap(c: CappedLedger, calls: seq<Call>)
    requires WithinCap(c)
    ensures WithinCap(Run(c, calls))
    ensures Cap(Run(c, calls)) == Cap(c)
    decreases |calls|
  {
    if calls != [] {
      StepWithinCap(c, calls[0]);
      RunWithinCap(Commit(c, Step(c, calls[0])), calls[1..]);
    }
  }

  /** Starting from a newly constructed token, no sequence of mints, burns, transfers
      and approvals takes the supply past the cap, and the cap stays what
      the constructor set. */
  lemma SupplyNeverExceedsCap(name: string, symbol: string, cap: Amount, generateEvents: bool, calls: seq<Call>)
    ensures Run(New(name, symbol, cap, generateEvents), calls).token.totalSupply <= cap
    ensures Cap(Run(New(name, symbol, cap, generateEvents), calls)) == cap
  {
    RunWithinCap(New(name, symbol, cap, generateEvents), calls);
  }
}
