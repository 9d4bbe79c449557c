# ERC-20 token ledger for the Takamaka/Hotmoka runtime — Dafny model

This project models the fungible-token ledger of NFT-Lab's Hotmoka ERC-20
library. The ledger follows the Methods and Events parts of the
Specification section of EIP-20. The model covers:

- the base contract `ERC20`;
- its interface `IERC20`;
- the `ERC20Capped` and `ERC20Burnable` extensions;
- the `ERC20PresetFixedSupply` preset.

The token's storage is one immutable `Ledger` value. It holds:

- balances `Account → Amount`;
- nested allowances `owner → spender → Amount`;
- the total supply;
- the name, the symbol and the `generateEvents` switch;
- the append-only log of `Transfer`/`Approval` records that the event gate let through.

`UnsignedBigInteger` is `nat`. A nullable `Contract` is `Option<Account>`,
with `None` for `null`.

Every operation is a pure transition. It returns `Success(newLedger)` or
`Failure(reason)`, with one reason per failing requirement. A failing
requirement aborts the whole Takamaka transaction. So a failure carries no
state, and `ERC20.Commit` keeps the old ledger. "On failure nothing changes"
therefore holds by construction. The calling account, which the host
supplies, is an explicit `caller` parameter.

The global invariant is `LedgerCore.Valid`: `totalSupply == Sum(balances)`.
Every internal operation keeps it (`ERC20.MoveTokensValid`,
`ERC20.MintTokensValid`, `ERC20.BurnTokensValid`). So do arbitrary
sequences of public calls on:

- the base token (`ERC20.RunValid`);
- a burnable token (`Burnable.RunValid`);
- a capped token (`Capped.RunWithinCap`).

## Modules

| file | module | models |
|---|---|---|
| wrappers.dfy | `Wrappers` | `Option`, `Result` |
| ledger_core.dfy | `LedgerCore` | the state, the view functions, the constructors, the event gate, the sum over balances |
| erc20.dfy | `ERC20` | `_transfer`, `_mint`, `_burn`, `_approve` and the public calls of `ERC20.java` |
| burnable.dfy | `Burnable` | `burn`, `burnFrom` |
| capped.dfy | `Capped` | the cap, `cap()`, the guarded `_mint` |
| preset.dfy | `Preset` | the two fixed-supply constructors |
| as_written.dfy | `AsWritten` | the literal code at each place listed under "Findings" |

## Code versus documentation

In six places the code does not do what its own doc comments, and EIP-20,
say it does. The model follows the documented behaviour:

1. The total supply starts at 0.
2. `_mint` adds the minted amount to the total supply.
3. `transferFrom` debits `sender`.
4. `_transfer` debits the sender before it reads the recipient's balance.
5. Allowances read as zero when absent, and `_approve` creates the inner map on the first write.
6. The capped mint admits `totalSupply + amount <= cap`.

`AsWritten` models the code exactly as written at each of these places,
and proves what goes wrong there (see "Findings"). Each as-written member
changes only the defect it is about and takes everything else from the
corrected model. In the literal program the defects mask one another:

- The supply field is never assigned, so every mint and every burn aborts
  (`AsWritten.SupplyStaysUnassigned`). No account ever holds a positive
  balance, and a transfer can only ever move zero.
- No allowance is ever stored, so every `allowance` call aborts. Every
  `transferFrom` aborts too. A positive amount fails the caller's balance
  check in `_transfer` (lines 188-189 of `ERC20.java`), because the caller
  holds nothing. Only a zero amount reaches the allowance lookup at line 109.

Only `AsWritten.FixedSupplyAsWrittenAborts`, `AsWritten.SupplyStaysUnassigned`
and the allowance members describe the literal program as it stands. The
other as-written members describe what their line would do once the defects
that mask it are corrected:

- the discarded supply increment (line 212) assumes the supply field assigned (line 38);
- the self-transfer and the capped overshoot assume both supply defects corrected;
- the capped refusal of a first token assumes the supply field assigned;
- `transferFrom` assumes the supply and allowance-storage defects corrected.

In the literal program each of these paths aborts earlier.

## Model

| member | source | states |
|---|---|---|
| LedgerCore.BalanceOf | src/main/java/io/nfteam/nftlab/hotmoka/erc20/ERC20.java:76-78 | An account with no entry holds zero. On a ledger satisfying the supply invariant, no balance exceeds the total supply. |
| LedgerCore.Allowance | src/main/java/io/nfteam/nftlab/hotmoka/erc20/IERC20.java:31-39 | A missing owner or a missing spender entry reads as zero, at either level of the nested map. |
| LedgerCore.New | src/main/java/io/nfteam/nftlab/hotmoka/erc20/ERC20.java:50-54 | A new token keeps the given name, symbol and event switch. It starts with zero supply, every balance and allowance zero, an empty log, and the supply invariant holding. |
| LedgerCore.NewWithoutEvents | src/main/java/io/nfteam/nftlab/hotmoka/erc20/ERC20.java:44-48 | The two-argument constructor gives a new, empty token with events switched off, whose supply equals the sum of its balances. |
| LedgerCore.Emit | src/main/java/io/nfteam/nftlab/hotmoka/erc20/ERC20.java:298-302 | The event gate appends the record exactly when events are enabled. Nothing other than the log changes. |
| ERC20.MoveTokens | src/main/java/io/nfteam/nftlab/hotmoka/erc20/ERC20.java:179-197 | A null sender, then a null recipient, then an insufficient balance each abort with their own reason. It succeeds exactly when none applies. On success the sender loses `amount` and the recipient gains it, and every other balance, every allowance, the supply and the metadata are unchanged. A self-transfer leaves every balance as it was. Exactly one Transfer record is logged if events are on. |
| ERC20.MintTokens | src/main/java/io/nfteam/nftlab/hotmoka/erc20/ERC20.java:208-218 | It fails exactly when the account is null. Otherwise the account's balance and the total supply both rise by `amount`, allowances are untouched, and one Transfer record with no `from` is logged if events are on. |
| ERC20.BurnTokens | src/main/java/io/nfteam/nftlab/hotmoka/erc20/ERC20.java:228-242 | A null account, then an insufficient balance, abort. On a valid ledger it succeeds exactly when neither applies. On success the balance and the supply both drop by `amount`, allowances are untouched, and one Transfer record with no `to` is logged if events are on. |
| ERC20.SetAllowance | src/main/java/io/nfteam/nftlab/hotmoka/erc20/ERC20.java:256-263 | A null owner, then a null spender, abort. Otherwise the pair's allowance becomes `amount` whatever it was, and every other pair, every balance and the supply read as before. One Approval record is logged if events are on. |
| ERC20.Transfer | src/main/java/io/nfteam/nftlab/hotmoka/erc20/IERC20.java:22-29 | It succeeds exactly when the recipient is non-null and the caller holds at least `amount`. It then moves `amount` from the caller to the recipient and changes nothing else. |
| ERC20.Approve | src/main/java/io/nfteam/nftlab/hotmoka/erc20/IERC20.java:41-55 | It succeeds exactly when the spender is non-null. It then sets, rather than adds to, the spender's allowance over the caller's tokens, and leaves every other pair and all balances alone. |
| ERC20.TransferFrom | src/main/java/io/nfteam/nftlab/hotmoka/erc20/IERC20.java:57-66 | It succeeds exactly when both ends are non-null, `sender` holds `amount`, and `sender` has allowed the caller at least `amount`. On success it moves `amount` from `sender` to the recipient and lowers that allowance by exactly `amount`. Balance and allowance change together or not at all. A Transfer record then an Approval record are logged. |
| ERC20.IncreaseAllowance | src/main/java/io/nfteam/nftlab/hotmoka/erc20/ERC20.java:130-139 | It fails only for a null spender. Otherwise the caller's allowance to the spender becomes its old value plus `addedValue`, and nothing else changes. |
| ERC20.DecreaseAllowance | src/main/java/io/nfteam/nftlab/hotmoka/erc20/ERC20.java:155-164 | It succeeds exactly when the spender is non-null and the allowance covers `subtractedValue`. Otherwise it aborts with no change. On success the allowance drops by exactly `subtractedValue`. |
| ERC20.MoveTokensValid | src/main/java/io/nfteam/nftlab/hotmoka/erc20/ERC20.java:185-192 | A transfer keeps total supply equal to the sum of balances. |
| ERC20.MintTokensValid | src/main/java/io/nfteam/nftlab/hotmoka/erc20/ERC20.java:208-218 | A mint keeps total supply equal to the sum of balances. |
| ERC20.BurnTokensValid | src/main/java/io/nfteam/nftlab/hotmoka/erc20/ERC20.java:228-242 | A burn keeps total supply equal to the sum of balances. |
| ERC20.MintThenBurnRestores | src/main/java/io/nfteam/nftlab/hotmoka/erc20/ERC20.java:199-242 | Minting then burning the same amount for the same account always succeeds, and restores every balance, the supply and the allowances. |
| ERC20.TransferThenReturnRestores | src/main/java/io/nfteam/nftlab/hotmoka/erc20/ERC20.java:166-197 | A transfer followed by the reverse transfer of the same amount succeeds and restores every balance. |
| ERC20.ZeroTransferSucceeds | src/main/java/io/nfteam/nftlab/hotmoka/erc20/IERC20.java:68-73 | A transfer of value zero between any two accounts succeeds and leaves every balance as it was. |
| ERC20.ApproveOverwrites | src/main/java/io/nfteam/nftlab/hotmoka/erc20/IERC20.java:41-42 | Approving a first amount and then a second gives the same allowances and balances as approving only the second. |
| ERC20.IncreaseThenDecreaseRestores | src/main/java/io/nfteam/nftlab/hotmoka/erc20/ERC20.java:117-164 | `increaseAllowance(s, x)` followed by `decreaseAllowance(s, x)` succeeds and restores every allowance and every balance. |
| ERC20.StepValid | src/main/java/io/nfteam/nftlab/hotmoka/erc20/ERC20.java:80-164 | Every public call keeps the supply invariant, the total supply and the metadata. |
| ERC20.RunValid | src/main/java/io/nfteam/nftlab/hotmoka/erc20/ERC20.java:11-12 | The base contract has no public way to create tokens. Any sequence of public calls keeps the total supply fixed and the supply invariant true. |
| ERC20.StepFramesAllowance | src/main/java/io/nfteam/nftlab/hotmoka/erc20/IERC20.java:36 | A call that is not an approve, increase, decrease or `transferFrom` on a pair leaves that pair's allowance unchanged. |
| ERC20.RunFramesAllowance | src/main/java/io/nfteam/nftlab/hotmoka/erc20/IERC20.java:36 | Over any sequence of calls, an allowance changes only through calls that touch its pair. |
| ERC20.AllowanceZeroUntilSet | src/main/java/io/nfteam/nftlab/hotmoka/erc20/IERC20.java:32-34 | On a new token, an allowance stays zero until some call touches its pair. |
| Burnable.Burn | src/main/java/io/nfteam/nftlab/hotmoka/erc20/extensions/ERC20Burnable.java:18-25 | `burn` is exactly `_burn` on the caller. On a valid ledger it succeeds exactly when the caller holds `amount`. It lowers that balance and the supply by `amount`, and leaves every other balance and every allowance alone. |
| Burnable.BurnFrom | src/main/java/io/nfteam/nftlab/hotmoka/erc20/extensions/ERC20Burnable.java:27-40 | An insufficient allowance aborts first, then an insufficient balance. On a valid ledger it succeeds exactly when both suffice. On success the allowance drops by exactly `amount`, and the account's balance and the supply drop by `amount`. Every other pair and balance is unchanged. The allowance is never lowered when the burn fails. An Approval record then a Transfer record are logged. |
| Burnable.BurnFromValid | src/main/java/io/nfteam/nftlab/hotmoka/erc20/extensions/ERC20Burnable.java:35-40 | `burnFrom` keeps total supply equal to the sum of balances. |
| Burnable.StepValid | src/main/java/io/nfteam/nftlab/hotmoka/erc20/extensions/ERC20Burnable.java:18-40 | Every call of a burnable token keeps the supply invariant and never raises the supply. |
| Burnable.RunValid | src/main/java/io/nfteam/nftlab/hotmoka/erc20/extensions/ERC20Burnable.java:18-40 | Any sequence of calls on a burnable token keeps the supply invariant and can only lower the supply. |
| Capped.New | src/main/java/io/nfteam/nftlab/hotmoka/erc20/extensions/ERC20Capped.java:23-30 | The four-argument constructor stores the cap and passes the event switch through unchanged to a new, empty token. |
| Capped.NewWithoutEvents | src/main/java/io/nfteam/nftlab/hotmoka/erc20/extensions/ERC20Capped.java:14-21 | The three-argument constructor stores the cap and builds the same empty, valid token as the two-argument `ERC20` constructor, with events off. |
| Capped.Mint | src/main/java/io/nfteam/nftlab/hotmoka/erc20/extensions/ERC20Capped.java:41-49 | Exceeding the cap aborts before the null check. Reaching the cap exactly is allowed. An accepted mint has exactly the effect of the base `_mint`, keeps the cap, and leaves the supply at most the cap. |
| Capped.StepWithinCap | src/main/java/io/nfteam/nftlab/hotmoka/erc20/extensions/ERC20Capped.java:44-49 | Every call on a capped token within its cap keeps it within the cap, keeps the supply invariant, and keeps the cap. |
| Capped.RunWithinCap | src/main/java/io/nfteam/nftlab/hotmoka/erc20/extensions/ERC20Capped.java:12-39 | Any sequence of calls keeps a capped token within its cap, and `cap()` returns the same value before and after. |
| Capped.SupplyNeverExceedsCap | src/main/java/io/nfteam/nftlab/hotmoka/erc20/extensions/ERC20Capped.java:44-49 | From construction, no sequence of mints, burns, transfers and approvals takes the supply past the cap, and the cap is what the constructor set. |
| Preset.FixedSupply | src/main/java/io/nfteam/nftlab/hotmoka/erc20/presets/ERC20PresetFixedSupply.java:23-35 | Construction fails exactly when the owner is null. Otherwise the supply is `initialSupply`, the owner holds all of it, every other balance and every allowance is zero, and the invariant holds. The log is exactly one mint record when events are on, and empty otherwise. |
| Preset.FixedSupplyWithoutEvents | src/main/java/io/nfteam/nftlab/hotmoka/erc20/presets/ERC20PresetFixedSupply.java:10-21 | The four-argument form mints `initialSupply` to the owner with events off and an empty log. |
| Preset.SupplyNeverGrows | src/main/java/io/nfteam/nftlab/hotmoka/erc20/presets/ERC20PresetFixedSupply.java:8 | After construction, no sequence of calls on the burnable token raises the supply above `initialSupply` or breaks the supply invariant. |
| AsWritten.NewAsWritten | src/main/java/io/nfteam/nftlab/hotmoka/erc20/ERC20.java:38 | As written, the supply field is never assigned at construction. |
| AsWritten.MintAsWritten | src/main/java/io/nfteam/nftlab/hotmoka/erc20/ERC20.java:208-218 | As written, `_mint` aborts on an unassigned supply field. When it succeeds, the account's balance rises but the supply is unchanged. |
| AsWritten.FixedSupplyAsWrittenAborts | src/main/java/io/nfteam/nftlab/hotmoka/erc20/presets/ERC20PresetFixedSupply.java:17-21 | As written, the preset constructor aborts for every owner and every supply. |
| AsWritten.BurnAsWritten | src/main/java/io/nfteam/nftlab/hotmoka/erc20/ERC20.java:228-242 | As written, `_burn` aborts on an unassigned supply field. This is the only place the field is ever assigned. When the burn succeeds, the balance and the supply both fall by `amount`. |
| AsWritten.SupplyStaysUnassigned | src/main/java/io/nfteam/nftlab/hotmoka/erc20/ERC20.java:38 | As written, while the supply field is unassigned, no sequence of mints and burns changes anything. Starting from construction, the field is never assigned and no balance is ever created. |
| AsWritten.MintAsWrittenBreaksSupply | src/main/java/io/nfteam/nftlab/hotmoka/erc20/ERC20.java:212 | As written at this line, with the supply field assigned (the line-38 defect corrected), a positive mint leaves the supply short of the sum of balances by exactly the minted amount. In the literal program the field is never assigned and the mint aborts first. |
| AsWritten.MoveAsWritten | src/main/java/io/nfteam/nftlab/hotmoka/erc20/ERC20.java:185-192 | As written, the recipient ends with its old balance plus `amount`, even when it is also the sender. |
| AsWritten.SelfTransferAsWrittenMints | src/main/java/io/nfteam/nftlab/hotmoka/erc20/ERC20.java:186-192 | As written at this line, with the supply defects corrected so that the account can hold tokens, a positive self-transfer raises the balance by `amount` and breaks the supply invariant. In the literal program no balance is ever positive, so this transfer aborts first. |
| AsWritten.TransferFromAsWritten | src/main/java/io/nfteam/nftlab/hotmoka/erc20/ERC20.java:105-115 | As written, `transferFrom` moves the tokens out of the caller's balance, so a caller holding less than the amount is refused at the balance check in `_transfer` (lines 188-189) whatever the sender holds. |
| AsWritten.TransferFromAsWrittenDebitsCaller | src/main/java/io/nfteam/nftlab/hotmoka/erc20/ERC20.java:106 | As written at this line, with the supply and allowance-storage defects corrected, `transferFrom` leaves `sender`'s balance untouched. It spends the caller's tokens while consuming `sender`'s allowance. In the literal program the caller holds nothing, so a positive-amount call aborts at the balance check in `_transfer` (lines 188-189); only a zero-amount call reaches the allowance lookup at line 109, which aborts. |
| AsWritten.AllowanceAsWritten | src/main/java/io/nfteam/nftlab/hotmoka/erc20/ERC20.java:90-92 | As written, `allowance` aborts exactly when the owner has no entry in the outer map. |
| AsWritten.ApproveAsWritten | src/main/java/io/nfteam/nftlab/hotmoka/erc20/ERC20.java:256-263 | As written, `_approve` never adds an owner to the outer map. |
| AsWritten.ApprovalAsWrittenIsLost | src/main/java/io/nfteam/nftlab/hotmoka/erc20/ERC20.java:260 | As written, an approval on a new token leaves the allowance map empty, and `allowance` then aborts. |
| AsWritten.CappedMintAsWritten | src/main/java/io/nfteam/nftlab/hotmoka/erc20/extensions/ERC20Capped.java:44-49 | As written at this line, the capped mint rejects any mint that stays below the cap. With the supply defects corrected, it accepts every mint to a non-null account that reaches or passes the cap. In the literal program the supply read aborts first. |
| AsWritten.CappedMintAsWrittenRefusesFirstToken | src/main/java/io/nfteam/nftlab/hotmoka/erc20/extensions/ERC20Capped.java:47 | As written at this line, with the supply field assigned (the line-38 defect corrected, so a new token's supply is 0), a newly constructed token with cap 1000 cannot mint a single token. In the literal program the supply read returns null and the addition aborts before the comparison. |
| AsWritten.CappedMintAsWrittenOvershootsCap | src/main/java/io/nfteam/nftlab/hotmoka/erc20/extensions/ERC20Capped.java:47 | As written at this line, with the supply defects corrected, a token whose supply stands at its cap, whatever the cap, accepts any further positive mint, which takes the supply past the cap. |

## Left out

- The Takamaka runtime is not modelled: `caller()`, `@FromContract`, `@View`, the `Contract` base class, gas and transactions. The caller is a parameter. An abort is a `Failure` result.
- `StorageTreeMap` persistence and the internals of `UnsignedBigInteger` are not modelled. Dafny `map` and `nat` stand in for them. An unsigned subtraction below zero aborts with `NegativeSubtraction`.
- Delivery of events through `Takamaka.event` is left out. The model keeps only the appended `events` log.
- `_beforeTokenTransfer` and `_afterTokenTransfer` are private and empty, so nothing can observe them. They are left out.
- `ERC20PresetMinterPauser`, which a doc comment of `ERC20.java` mentions, is not part of this model. It is not in the repository.
- The approve race described in `IERC20.java` is a transaction-ordering concern. The host serialises calls, so it is left out.
- `name()`, `symbol()` and `totalSupply()` have no separate functions. They are the `name`, `symbol` and `totalSupply` fields of `Ledger`.
- `cap()` is `Capped.Cap`. It only reads the stored field, so it has no contract of its own. `Capped.RunWithinCap` states that it never changes.
- The `ERC20Burnable` constructors only forward to the `ERC20` ones, so `LedgerCore.New` and `LedgerCore.NewWithoutEvents` model them.
- How a storage map treats a `null` key is not modelled. `allowance(null, x)` and `increaseAllowance(null, v)` read zero, and the null check in `_approve` then aborts the call.
- `Capped.Call` offers `_mint` and `_burn` as calls. They are how a token derived from `ERC20Capped` would reach them. The capped extension itself exposes no public mint or burn.

## Findings

The line-38 row and the allowance row hold of the literal program as it
stands. The defects mask one another, so the inputs of the other rows assume
the masking defects corrected, as the Code versus documentation section
above explains. The line-212 row assumes the supply field assigned, and the
others assume more. Each row says what it assumes, and where the literal
program aborts instead.

| source | as written | input that shows it | evidently intended | confidence | as-written member | corrected member |
|---|---|---|---|---|---|---|
| src/main/java/io/nfteam/nftlab/hotmoka/erc20/ERC20.java:38 | The supply field is never assigned, and `_mint` calls `add` on it. Every mint therefore aborts. | `new ERC20PresetFixedSupply("Gold", "GLD", 1000, A)` aborts, so the preset can never be constructed. | The supply starts at zero, and the preset mints 1000 to A. | high (not executed) | AsWritten.FixedSupplyAsWrittenAborts | Preset.FixedSupply |
| src/main/java/io/nfteam/nftlab/hotmoka/erc20/ERC20.java:212 | `_totalSupply.add(amount)` discards its result. | Assuming the supply field assigned 0 (the line-38 defect corrected): `_mint(A, 1)` leaves the supply at 0 while A holds 1. As written, the field is never assigned and the mint aborts at the addition. | The supply rises by the minted amount. | high (not executed) | AsWritten.MintAsWrittenBreaksSupply | ERC20.MintTokensValid |
| src/main/java/io/nfteam/nftlab/hotmoka/erc20/ERC20.java:186-192 | The recipient's balance is read before the sender is debited. | Assuming the two supply defects (lines 38 and 212) corrected so that A can hold tokens: A holds 10, and after `A.transfer(A, 5)` A holds 15 while the supply is still 10. As written, A never holds tokens and the transfer aborts. | A self-transfer leaves the balance as it was. | high (not executed) | AsWritten.SelfTransferAsWrittenMints | ERC20.MoveTokens |
| src/main/java/io/nfteam/nftlab/hotmoka/erc20/ERC20.java:106 | `transferFrom` debits `caller()` rather than `sender`. | Assuming the supply defects (lines 38 and 212) and the allowance-storage defect (line 260) corrected: A and C hold 100 each, and A allowed C 50. `C.transferFrom(A, D, 50)` leaves A at 100 and C at 50. As written, C holds nothing, so the call aborts at the balance check in `_transfer` (lines 188-189). Only a zero-amount call reaches the allowance lookup on line 109. | `sender` (A) is debited. | high (not executed) | AsWritten.TransferFromAsWrittenDebitsCaller | ERC20.TransferFrom |
| src/main/java/io/nfteam/nftlab/hotmoka/erc20/ERC20.java:260 | For an owner with no entry, `_approve` writes into a default map that is never stored. `allowance` uses `get` and aborts on such an owner. | On a new token, `A.approve(C, 150)` is followed by `allowance(A, C)`. The approve stores nothing, and the read aborts. | `allowance(A, C)` is 150. | high (not executed) | AsWritten.ApprovalAsWrittenIsLost | ERC20.Approve |
| src/main/java/io/nfteam/nftlab/hotmoka/erc20/extensions/ERC20Capped.java:47 | The guard requires `totalSupply + amount >= cap`. | Assuming the supply field assigned (line 38): with cap 1000 and supply 0, minting 1 is refused. Assuming both supply defects (lines 38 and 212) corrected: with supply 1000, minting 1 is accepted, and the supply becomes 1001. As written, the supply read returns null and the addition aborts before any comparison. | Admit the mint when `totalSupply + amount <= cap`. | high (not executed) | AsWritten.CappedMintAsWrittenOvershootsCap | Capped.SupplyNeverExceedsCap |
