/**
  The state of an ERC-20 token: balances, two-level allowances, the total
  supply, the immutable metadata and the log of emitted events, together with
  the read-only views of that state and the supply invariant
  `totalSupply == sum of all balances`.
 */
module LedgerCore {
  import opened Wrappers

  /** An account as the host identifies it.  A nullable `Contract` of the
      source is an `Option<Account>`, with `None` standing for `null`. */
  datatype Account = Account(id: nat)

  /** `UnsignedBigInteger`: unbounded and never negative. */
  type Amount = nat

  /** The two event records of the token interface.  A mint has no `from`,
      a burn has no `to`, an ordinary transfer has both. */
  datatype Event =
    | TransferEvent(from: Option<Account>, to: Option<Account>, value: Amount)
    | ApprovalEvent(owner: Account, approved: Account, value: Amount)

  /** Why a transaction aborted: one constructor per failing requirement. */
  datatype Error =
    | TransferFromNull          // `_transfer` with a null sender
    | TransferToNull            // `_transfer` with a null recipient
    | TransferExceedsBalance    // `_transfer` debiting more than the sender holds
    | TransferExceedsAllowance  // `transferFrom` spending more than approved
    | DecreasedBelowZero        // `decreaseAllowance` below zero
    | MintToNull                // `_mint` to a null account
    | BurnFromNull              // `_burn` from a null account
    | BurnExceedsBalance        // `_burn` of more than the account holds
    | BurnExceedsAllowance      // `burnFrom` of more than approved
    | ApproveFromNull           // `_approve` with a null owner
    | ApproveToNull             // `_approve` with a null spender
    | CapExceeded               // capped `_mint` beyond the cap
    | NegativeSubtraction       // an unsigned subtraction that would go below zero
    | NullDereference           // a method called on a null reference (as-written code only)

  /** The storage of one token instance.  `name`, `symbol` and
      `generateEvents` are set by the constructor and never written again;
      `events` is the append-only log of what the event gate let through. */
  datatype Ledger = Ledger(
    name: string,
    symbol: string,
    generateEvents: bool,
    balances: map<Account, Amount>,
    allowances: map<Account, map<Account, Amount>>,
    totalSupply: Amount,
    events: seq<Event>)

  /** The value stored for `a`, or zero when there is no entry. */
  function Get(m: map<Account, Amount>, a: Account): Amount
  {
    if a in m then m[a] else 0
  }

  /** Sum of all amounts in a balance map. */
  ghost function Sum(m: map<Account, Amount>): Amount
    decreases |m.Keys|
  {
    if m == map[] then 0
    else
      var k :| k in m;
      assert m.Keys == (m - {k}).Keys + {k};
      m[k] + Sum(m - {k})
  }

  /** The supply invariant: the total supply is the sum of all balances. */
  ghost predicate Valid(l: Ledger)
  {
    l.totalSupply == Sum(l.balances)
  }

  /** `balanceOf`: an account without an entry holds zero.  Reading never
      creates an entry. */
  function BalanceOf(l: Ledger, a: Account): (r: Amount)
    ensures a !in l.balances ==> r == 0
    ensures Valid(l) ==> r <= l.totalSupply
  {
    if a in l.balances then SumAtLeast(l.balances, a); l.balances[a] else 0
  }

  /** `allowance`: zero for an owner or a spender without an entry, at
      either level of the nested map.  Reading never creates an entry. */
  function Allowance(l: Ledger, owner: Account, spender: Account): (r: Amount)
    ensures owner !in l.allowances ==> r == 0
    ensures owner in l.allowances && spender !in l.allowances[owner] ==> r == 0
  {
    if owner in l.allowances then Get(l.allowances[owner], spender) else 0
  }

  /** A newly constructed token: zero supply, no balances, no allowances, no events.
      The supply starts at zero although the source never initialises it. */
  function New(name: string, symbol: string, generateEvents: bool): (l: Ledger)
    ensures l.name == name && l.symbol == symbol && l.generateEvents == generateEvents
    ensures l.totalSupply == 0 && l.events == []
    ensures forall a :: BalanceOf(l, a) == 0
    ensures forall o, s :: Allowance(l, o, s) == 0
    ensures Valid(l)
  {
    Ledger(name, symbol, generateEvents, map[], map[], 0, [])
  }

  /** The two-argument constructor: events are switched off. */
  function NewWithoutEvents(name: string, symbol: string): (l: Ledger)
    ensures l.name == name && l.symbol == symbol && !l.generateEvents
    ensures l.totalSupply == 0 && l.events == []
    ensures forall a :: BalanceOf(l, a) == 0
    ensures forall o, s :: Allowance(l, o, s) == 0
    ensures Valid(l)
  {
    New(name, symbol, false)
  }

  /** The records that reach the log when `es` are raised on `l`: all of
      them when events are enabled, none otherwise. */
  function Emitted(l: Ledger, es: seq<Event>): seq<Event>
  {
    if l.generateEvents then es else []
  }

  /** The event gate: `e` is appended only when events are enabled, and
      nothing but the log changes. */
  function Emit(l: Ledger, e: Event): (r: Ledger)
    ensures l.generateEvents ==> r.events == l.events + [e]
    ensures !l.generateEvents ==> r.events == l.events
    ensures r.(events := l.events) == l
  {
    if l.generateEvents then l.(events := l.events + [e]) else l
  }

  /** Name, symbol and the event switch agree. */
  ghost predicate SameMetadata(a: Ledger, b: Ledger)
  {
    a.name == b.name && a.symbol == b.symbol && a.generateEvents == b.generateEvents
  }

  /** Every allowance reads the same in both states. */
  ghost predicate SameAllowances(a: Ledger, b: Ledger)
  {
    forall o, s :: Allowance(a, o, s) == Allowance(b, o, s)
  }

  /** `after` differs from `before` by `amount` tokens leaving `from` and
      arriving at `to` (either end may be absent: a mint or a burn); every
      other balance reads the same.  This is what a Transfer record says. */
  ghost predicate Shifted(before: Ledger, after: Ledger, from: Option<Account>, to: Option<Account>, amount: Amount)
  {
    forall a ::
      BalanceOf(after, a) + (if from == Some(a) then amount else 0)
      == BalanceOf(before, a) + (if to == Some(a) then amount else 0)
  }

  /** `after` sets the allowance of `spender` over `owner`'s tokens to
      `amount` and leaves every other pair as it reads in `before`. */
  ghost predicate Overwritten(before: Ledger, after: Ledger, owner: Account, spender: Account, amount: Amount)
  {
    && Allowance(after, owner, spender) == amount
    && forall o, s :: (o != owner || s != spender) ==> Allowance(after, o, s) == Allowance(before, o, s)
  }

  /** Removing one key takes exactly its amount out of the sum. */
  lemma {:induction false} SumRemove(m: map<Account, Amount>, k: Account)
    requires k in m
    ensures Sum(m) == m[k] + Sum(m - {k})
    decreases |m.Keys|
  {
    var j :| j in m && Sum(m) == m[j] + Sum(m - {j});
    if j != k {
      assert m.Keys == (m - {j}).Keys + {j};
      assert m.Keys == (m - {k}).Keys + {k};
      SumRemove(m - {j}, k);
      SumRemove(m - {k}, j);
      assert m - {j} - {k} == m - {k} - {j};
    }
  }

  /** No single balance exceeds the sum of all balances. */
  lemma {:induction false} SumAtLeast(m: map<Account, Amount>, k: Account)
    ensures Get(m, k) <= Sum(m)
  {
    if k in m {
      SumRemove(m, k);
    }
  }

  /** Overwriting one entry changes the sum by the difference between the
      new and the old amount. */
  lemma SumUpdate(m: map<Account, Amount>, k: Account, v: Amount)
    ensures Sum(m[k := v]) + Get(m, k) == Sum(m) + v
  {
    var m' := m[k := v];
    SumRemove(m', k);
    assert m' - {k} == m - {k};
    if k in m {
      SumRemove(m, k);
    } else {
      assert m - {k} == m;
    }
  }
}
