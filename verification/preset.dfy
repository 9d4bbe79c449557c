/**
  The fixed-supply preset: a burnable token whose constructor mints the
  whole supply to one owner.
 */
module Preset {
  import opened Wrappers
  import opened LedgerCore
  import ERC20
  import Burnable

  /** The constructor: a newly constructed token, then `_mint(owner, initialSupply)`.
      It aborts when `owner` is null. */
  function FixedSupply(name: string, symbol: string, initialSupply: Amount, owner: Option<Account>, generateEvents: bool): (r: Result<Ledger, Error>)
    ensures r.Failure? <==> owner.None?
    ensures r.Failure? ==> r.error == MintToNull
    ensures r.Success? ==> Valid(r.value)
    ensures r.Success? ==> r.value.totalSupply == initialSupply
    ensures r.Success? ==> BalanceOf(r.value, owner.value) == initialSupply
    ensures r.Success? ==> forall a :: a != owner.value ==> BalanceOf(r.value, a) == 0
    ensures r.Success? ==> forall o, s :: Allowance(r.value, o, s) == 0
    ensures r.Success? ==> r.value.name == name && r.value.symbol == symbol && r.value.generateEvents == generateEvents
    ensures r.Success? ==> r.value.events == (if generateEvents then [TransferEvent(None, owner, initialSupply)] else [])
  {
    ERC20.MintTokensValid(New(name, symbol, generateEvents), owner, initialSupply);
    ERC20.MintTokens(New(name, symbol, generateEvents), owner, initialSupply)
  }

  /** The four-argument constructor: events are switched off, so the log
      starts empty. */
  function FixedSupplyWithoutEvents(name: string, symbol: string, initialSupply: Amount, owner: Option<Account>): (r: Result<Ledger, Error>)
    ensures r.Failure? <==> owner.None?
    ensures r.Success? ==> r.value.totalSupply == initialSupply && BalanceOf(r.value, owner.value) == initialSupply
    ensures r.Success? ==> !r.value.generateEvents && r.value.events == []
  {
    FixedSupply(name, symbol, initialSupply, owner, false)
  }

  /** Whatever is called after construction, the supply stays at most the
      initial supply and always equals the sum of balances. */
  lemma SupplyNeverGrows(name: string, symbol: string, initialSupply: Amount, owner: Account, generateEvents: bool, calls: seq<Burnable.Call>)
    ensures FixedSupply(name, symbol, initialSupply, Some(owner), generateEvents).Success?
    ensures var l := Burnable.Run(FixedSupply(name, symbol, initialSupply, Some(owner), generateEvents).value, calls);
            Valid(l) && l.totalSupply <= initialSupply
  {
    Burnable.RunValid(FixedSupply(name, symbol, initialSupply, Some(owner), generateEvents).value, calls);
  }
}
