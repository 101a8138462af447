# Kenshi (KNS) token ledger in Dafny

This project models Kenshi, a fixed-supply ERC-20 token, as its test suite
`test/KNS.js` pins it down. The ledger holds three things:

- a balance per account;
- an allowance per (holder, spender) pair;
- one owner slot, which gates the administrative calls.

The deployer receives the whole supply (10^27 in the tests) and becomes the
owner. Name, symbol and decimals stay fixed after that: "Kenshi", "KNS" and
18. The operations are the ones in the "Methods" part of EIP-20 (ERC-20 Token
Standard): `transfer`, `approve` and `transferFrom`. To these the token adds
`increaseAllowance` and `decreaseAllowance`, the ownership calls
`transferOwnership` and `renounceOwnership`, and `recoverERC20`, which sends
tokens held at the ledger's own address to a recipient.

The contract's Solidity source is not available. The model is inferred from
the test's assertions and from the revert messages it expects. Those are
OpenZeppelin's ERC20/Ownable messages, so the model follows that library's
checks and their order:

- `transfer` checks the source, then the destination, then the balance.
- `approve` checks the holder, then the spender.
- `decreaseAllowance` checks for underflow, then the checks of `approve`.
- `transferFrom` checks the allowance, then the checks of `approve` while it
  writes the reduced allowance back, then the checks of `transfer`.

The project has three modules:

- `Ledger` (ledger.dfy) gives the state as a value (`State`), one transition
  function per operation that returns the next state or the error
  (`Result`), the invariant `Valid`, and the lemmas. `Valid` says the
  balances add up to the supply, the zero account holds nothing, and the zero
  account has granted no allowance.
- `Token` (token.dfy) is the deployed ledger as a class: `Kenshi`, with
  mutable `balances`, `allowances` and `owner` fields and constant metadata.
  Each method takes the sending account as `caller`. Each is proved to keep
  `Valid()` and to make exactly the transition of its `Ledger` function.
  `Ledger.Commit` states the atomicity: a failed call leaves every field as
  it was.
- `KenshiTest` (scenarios.dfy) replays each test case against a fresh
  `Kenshi` object. Each method's `ensures` states what that test checks.

Because every method of `Kenshi` requires and ensures `Valid()`, the
invariant holds after any sequence of calls. In particular, the balances
always add up to the constant `totalSupply`.

A `transferFrom` could reject a zero source before reading the allowance.
That order would differ from OpenZeppelin's only for a zero source with a
nonzero amount. No allowance from the zero account can exist, so under
OpenZeppelin's order that call fails with "insufficient allowance"
(`Ledger.TransferFromZeroSource`). Both orders give "approve from the zero
address" for amount 0, the case the test exercises.

## Model

| member | source | states |
|---|---|---|
| `Ledger.InitialState` | test/KNS.js:86-98 | after deployment the deployer owns the ledger and holds the whole supply, every other balance and every allowance is 0, and the invariant holds |
| `Ledger.BalanceAtMostSupply` | test/KNS.js:75-84 | in every valid state no balance exceeds the total supply, which fits in a uint256 |
| `Ledger.NoAllowanceFromZero` | test/KNS.js:33-49 | in every valid state the zero account has granted no allowance |
| `Ledger.TransferSpec` | test/KNS.js:7-31 | a transfer fails exactly for a zero source, a zero destination, or an amount above the source balance, with that error; otherwise it debits the source and credits the destination by exactly the amount, and leaves a self-transfer, every other account, the allowances and the owner unchanged |
| `Ledger.TransferPreservesValid` | test/KNS.js:75-84 | a successful transfer keeps the balances summing to the total supply, and keeps the rest of the invariant |
| `Ledger.ApproveSpec` | test/KNS.js:51-61 | approve fails exactly for a zero holder or a zero spender; otherwise it sets that allowance to exactly the amount (overwrite) and changes no other allowance, balance or owner |
| `Ledger.ApprovePreservesValid` | test/KNS.js:143-153 | a successful approve keeps the invariant |
| `Ledger.IncreaseAllowanceSpec` | test/KNS.js:155-158 | increaseAllowance fails only through approve's zero-address checks, and succeeds exactly when holder and spender are live; on success the allowance grows by exactly the added value and nothing else changes |
| `Ledger.DecreaseAllowanceSpec` | test/KNS.js:63-73 | decreaseAllowance fails with DecreasedBelowZero exactly when the value exceeds the allowance, checked before the zero-address checks; it succeeds exactly when the value fits and holder and spender are live; on success the allowance shrinks by exactly that value and nothing else changes |
| `Ledger.AllowanceRoundTrip` | test/KNS.js:143-164 | approve X, then increase by Y, then decrease by Y, gives back exactly the state approve X produced; the allowance reads X, then X + Y, then X |
| `Ledger.IncreaseAllowancePreservesValid` | test/KNS.js:155-158 | a successful increaseAllowance keeps the invariant |
| `Ledger.DecreaseAllowancePreservesValid` | test/KNS.js:160-163 | a successful decreaseAllowance keeps the invariant |
| `Ledger.TransferFromSpec` | test/KNS.js:131-141 | transferFrom's errors come in this order: InsufficientAllowance when the amount exceeds the allowance, then ApproveFromZero, then ApproveToZero, then TransferToZero, then TransferExceedsBalance, and it succeeds exactly when none of these applies; on success the caller's allowance drops by exactly the amount, the source is debited and the destination credited by exactly the amount (a self-transfer leaves the balance as it was), and no other allowance, balance or the owner changes |
| `Ledger.TransferFromZeroSource` | test/KNS.js:40-48 | in every valid state transferFrom with the zero source fails: with ApproveFromZero for amount 0, and with InsufficientAllowance for any other amount |
| `Ledger.TransferFromPreservesValid` | test/KNS.js:166-178 | a successful transferFrom keeps the invariant |
| `Ledger.OwnershipSpec` | test/KNS.js:115-129 | transferOwnership and renounceOwnership fail with Unauthorized exactly when the caller is not the owner; transferOwnership to the zero address fails with NewOwnerIsZero; transferOwnership succeeds exactly for the owner naming a live account, renounceOwnership exactly for the owner; on success only the owner slot changes, to the new owner or to zero |
| `Ledger.RenouncedIsFinal` | test/KNS.js:125-128 | once the owner slot is zero, every administrative call by a live account fails with Unauthorized |
| `Ledger.OwnershipPreservesValid` | test/KNS.js:115-129 | ownership changes keep the invariant |
| `Ledger.RecoverOwnTokensSpec` | test/KNS.js:180-191 | recovery fails with Unauthorized exactly for a non-owner; for the owner it is the transfer from the ledger's own account with that transfer's errors; it succeeds exactly when the owner names a live recipient and the ledger's account holds enough, and it moves exactly the amount from that account to the recipient |
| `Ledger.RecoverOwnTokensPreservesValid` | test/KNS.js:180-191 | a successful recovery keeps the invariant |
| `Token.Kenshi.constructor` | test/KNS.js:86-98 | the new ledger is valid, is in the initial state of its deployer and supply, and carries the name "Kenshi", the symbol "KNS" and 18 decimals |
| `Token.Kenshi.BalanceOf` | test/KNS.js:83 | balanceOf never reports more than the total supply |
| `Token.Kenshi.Allowance` | test/KNS.js:151-162 | allowance reports the recorded allowance, and in a valid ledger the zero account has granted none |
| `Token.Kenshi.Move` | test/KNS.js:7-31 | the shared balance move updates the fields exactly as `Ledger.Transfer` says, or leaves them unchanged on failure; the invariant is kept |
| `Token.Kenshi.SetAllowance` | test/KNS.js:51-61 | the shared allowance write updates the fields exactly as `Ledger.Approve` says, or leaves them unchanged on failure; the invariant is kept |
| `Token.Kenshi.Transfer` | test/KNS.js:14-18 | transfer makes the `Ledger.Transfer` transition from the caller, or reverts with its error and no change |
| `Token.Kenshi.Approve` | test/KNS.js:150-153 | approve makes the `Ledger.Approve` transition for the caller, or reverts with its error and no change |
| `Token.Kenshi.IncreaseAllowance` | test/KNS.js:155-158 | increaseAllowance makes the `Ledger.IncreaseAllowance` transition, or reverts with its error and no change |
| `Token.Kenshi.DecreaseAllowance` | test/KNS.js:160-163 | decreaseAllowance makes the `Ledger.DecreaseAllowance` transition, or reverts with its error and no change |
| `Token.Kenshi.TransferFrom` | test/KNS.js:166-178 | transferFrom makes the `Ledger.TransferFrom` transition; when the move fails after the allowance was spent, the spending is undone too |
| `Token.Kenshi.TransferOwnership` | test/KNS.js:122-123 | transferOwnership makes the `Ledger.TransferOwnership` transition, or reverts with its error and no change |
| `Token.Kenshi.RenounceOwnership` | test/KNS.js:125-128 | renounceOwnership makes the `Ledger.RenounceOwnership` transition, or reverts with its error and no change |
| `Token.Kenshi.RecoverERC20` | test/KNS.js:187-190 | recovery of the ledger's own tokens makes the `Ledger.RecoverOwnTokens` transition from the ledger's address, or reverts with its error and no change |
| `KenshiTest.TransferMoreThanOwned` | test/KNS.js:7-19 | after receiving 1, sending 2 fails with TransferExceedsBalance; the sender still holds 1 and the recipient 0 |
| `KenshiTest.TransferToZeroAddress` | test/KNS.js:21-31 | sending to the zero address fails with TransferToZero; the deployer keeps the whole supply and the zero account holds nothing |
| `KenshiTest.TransferFromZeroAddress` | test/KNS.js:33-49 | transferFrom from the zero address with amount 0 fails with ApproveFromZero and leaves the balances unchanged |
| `KenshiTest.ApproveZeroAddress` | test/KNS.js:51-61 | approving the zero address fails with ApproveToZero and grants nothing |
| `KenshiTest.DecreaseAllowanceUnderflow` | test/KNS.js:63-73 | decreasing a zero allowance by 1 fails with DecreasedBelowZero and the allowance stays 0 |
| `KenshiTest.BalancesReported` | test/KNS.js:75-84 | after the deployer sends 100, the recipient's balance is 100 and the deployer's is the supply minus 100 |
| `KenshiTest.BaseInfo` | test/KNS.js:86-98 | after deployment the owner is the deployer, decimals is 18, the symbol is "KNS", the name is "Kenshi", and the total supply is 10^27, all held by the deployer |
| `KenshiTest.OwnershipTransfer` | test/KNS.js:115-129 | after transferOwnership(addr1) the owner is addr1; after addr1 renounces, the owner is the zero address |
| `KenshiTest.TransferFromWithoutAllowance` | test/KNS.js:131-141 | transferFrom with no allowance fails with InsufficientAllowance and moves nothing |
| `KenshiTest.ApprovalAndAllowance` | test/KNS.js:143-164 | the allowance reads 100000000000 after approve, 200000000000 after the increase, and 100000000000 after the decrease |
| `KenshiTest.TransferFromWithAllowance` | test/KNS.js:166-178 | with an allowance of 100000000000 the spender's transferFrom of 1 succeeds; the spender receives 1 and the allowance drops to 99999999999 |
| `KenshiTest.RecoverTokens` | test/KNS.js:180-191 | after 100000000000 tokens are sent to the ledger's address and recovered to addr1, addr1 holds 100000000000 and the ledger's address holds 0 |

## Left out

- Native-currency payments to the ledger (test/KNS.js:100-113): rejecting them is an EVM fallback rule and involves no ledger state.
- Transfer and Approval events: they leave no state the tests read.
- `recoverERC20` for a foreign token: the call goes into another contract whose code is not available. Only the ledger's own token is modelled (`RecoverOwnTokens`, `Kenshi.RecoverERC20`).
- Deployment and RPC mechanics (contract factories, signers, waiting on transactions). The sending account is an explicit `caller` parameter, and the ledger's own address is a constructor argument (`address`).
- Ledger.IncreaseAllowance: requires the new allowance to fit in a uint256 instead of modelling the checked-arithmetic revert on overflow. The same bound is a precondition of Ledger.IncreaseAllowanceSpec, Ledger.IncreaseAllowancePreservesValid and Token.Kenshi.IncreaseAllowance.
- Token.Kenshi.constructor: requires a nonzero deployer rather than modelling a revert for minting to the zero address. An EVM deployer is never the zero address.
- Ledger.SpendAllowance: OpenZeppelin's ERC20, whose messages the tests expect, leaves an allowance of 2^256 − 1 unchanged on `transferFrom`. The model decrements that allowance like any other.
- Integer widths: balances are unbounded `nat`s. `Valid` keeps every balance at most the supply, and the supply is at most 2^256 − 1, so no uint256 wrap-around can occur.
