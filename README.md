# Kitties, proof of existence and ERC20, modelled in Dafny

This project models four tutorial components: three Substrate pallets and
one ink! contract. Each is a state machine over key-value storage. Every
call checks its error conditions in a fixed order and then writes its
effect.

- **Kitties pallet, 2021-10** (module `Kitties`). This is an NFT ledger:
  - a `u64` id counter (`KittiesCount`);
  - the kitty records (`Kitties`: dna, optional asking price, gender, owner);
  - an `Owner` index from id to account;
  - a per-account bounded list of owned ids (`KittiesOwned`, capped at `MaxKittyOwned`).

  It provides `mint`, `create_kitty` (which reserves a fee), `set_price`,
  `transfer`, `transfer_kitty_to` (`swap_remove` from the old list, bounded
  push to the new one), `buy_kitty`, `breed_dna`, `breed_kitty` and the
  genesis `build`. The class `Kitties.Pallet` keeps the storage invariant
  `Kitties.Consistent`:
  - ids `0 .. KittiesCount-1` are exactly the kitties;
  - `Owner[id]` is the record's owner;
  - each owned list is duplicate-free and within the cap;
  - an id is listed under an account exactly when that account owns it.

  Every call preserves this invariant. Every failing call leaves the
  pallet's storage unchanged. The one exception is `create_kitty`: its fee
  reservation is kept when the mint that follows it fails.
- **Kitties pallet, 2021-07** (module `EarlyKitties`). This is the earlier
  `u32` version with `create`, `transfer` and `breed`. Its contracts show
  three policy differences from the 2021-10 pallet:
  - `breed` rejects two equal ids;
  - `breed` does not ask the caller to own the parents;
  - `transfer` allows a transfer to oneself.
- **Proof of existence** (module `Poe`). This is a map from claim bytes to
  (owner, block number), with `create_claim`, `revoke_claim` and
  `transfer_claim`.
- **ERC20 contract** (module `Erc20`). It holds a total supply, balances and
  allowances, with `new`, `total_supply`, `balance_of`, `allowance`,
  `transfer`, `approve`, `transfer_from` and `inner_transfer`. The balances
  always add up to the total supply. That is why the unchecked `u128`
  addition in `inner_transfer` cannot overflow.

Shared modules:
- `Wrappers`: `Option` and `Result`.
- `Genome`: the 16-byte dna and the per-bit breeding blend used by both
  kitties pallets.
- `Accounts`: default-0 balance maps, their sum, and the debit-then-credit
  move.
- `Balances`: a small reservable currency used by the kitties pallet.
- `OwnedList`: `position` and `swap_remove` on the owned-id lists.

The caller (`ensure_signed`), the current block number and the host's
random values are explicit parameters.

The module `Scenarios` replays the call sequences of the kitties and
proof-of-existence unit tests against their mock configurations. Each outcome
a test expects is an assertion that the contracts above must imply, for any
host randomness. A few scenarios take steps beyond a test; their doc comments
say which. The 2021-07 kitties pallet and the ERC20 contract ship no tests,
so their scenarios are call sequences of this model's own.

## Model

| member | source | states |
|---|---|---|
| Kitties.GenderFromByte | substrate-poe-monthly-2021-10/pallets/kitties/src/lib.rs:293-299 | the gender is Male exactly when the random byte is even (low bit 0) |
| Kitties.ListedExactlyUnderOwner | substrate-poe-monthly-2021-10/pallets/kitties/src/lib.rs:99-126 | under the storage invariant every kitty is in exactly one account's owned list, its owner's, and `Owner[id]` names that same account |
| Kitties.MintListsSound | substrate-poe-monthly-2021-10/pallets/kitties/src/lib.rs:336-346 | after a mint, every id in every owned list is a stored kitty owned by that list's account |
| Kitties.MintListsComplete | substrate-poe-monthly-2021-10/pallets/kitties/src/lib.rs:336-346 | after a mint, every stored kitty, the new one included, is in its owner's list |
| Kitties.MintListsBounded | substrate-poe-monthly-2021-10/pallets/kitties/src/lib.rs:341-343 | when the owner's list has room, appending the fresh id keeps every list within the cap and duplicate-free |
| Kitties.MintKeepsConsistent | substrate-poe-monthly-2021-10/pallets/kitties/src/lib.rs:336-348 | storing a new record under id = count, indexing its owner and appending the id to the owner's list keeps the invariant when the counter and the list have room |
| Kitties.RepriceKeepsConsistent | substrate-poe-monthly-2021-10/pallets/kitties/src/lib.rs:219-222 | changing only a record's price keeps the invariant |
| Kitties.RemovedFromOwner | substrate-poe-monthly-2021-10/pallets/kitties/src/lib.rs:368-375 | swap-removing a kitty from its owner's list takes out exactly that id, shortens that list by one, keeps it duplicate-free and leaves every other list alone |
| Kitties.MoveListsSound | substrate-poe-monthly-2021-10/pallets/kitties/src/lib.rs:362-384 | after a move, every id in every owned list is a stored kitty owned by that list's account |
| Kitties.MoveListsComplete | substrate-poe-monthly-2021-10/pallets/kitties/src/lib.rs:362-384 | after a move, every stored kitty is in its owner's list, the moved one in the receiver's |
| Kitties.MoveListsBounded | substrate-poe-monthly-2021-10/pallets/kitties/src/lib.rs:380-382 | when the receiver's list has room after the removal, every list stays within the cap and duplicate-free |
| Kitties.MoveKeepsConsistent | substrate-poe-monthly-2021-10/pallets/kitties/src/lib.rs:362-384 | the new owner in the record (price cleared) and in `Owner`, a swap-remove from the old owner's list and a push onto the new owner's list together keep the invariant whenever the push fits |
| Kitties.Pallet.constructor | substrate-poe-monthly-2021-10/pallets/kitties/src/lib.rs:92-126 | empty storage with count 0 satisfies the invariant |
| Kitties.Pallet.IsKittyOwner | substrate-poe-monthly-2021-10/pallets/kitties/src/lib.rs:352-360 | KittyNotExist exactly for an unknown id; otherwise true exactly when the record's owner is the account |
| Kitties.Pallet.Mint | substrate-poe-monthly-2021-10/pallets/kitties/src/lib.rs:323-350 | KittiesCountOverflow at `u64::MAX`, then ExceedMaxKittyOwned when the owner's list is full, with nothing written; on success the id is the old count, the count rises by one, the record has no price and the given (or random) dna and gender, `Owner[id]` is the owner, the id is appended to the owner's list, and the invariant holds |
| Kitties.Pallet.CreateKitty | substrate-poe-monthly-2021-10/pallets/kitties/src/lib.rs:201-210 | NotEnoughBalance with nothing changed when the fee cannot be reserved; otherwise the fee is reserved and then the mint's outcome is returned (the fee stays reserved if the mint fails) |
| Kitties.Pallet.SetPrice | substrate-poe-monthly-2021-10/pallets/kitties/src/lib.rs:213-225 | KittyNotExist, then NotKittyOwner; on success only that record's price changes (None allowed) |
| Kitties.Pallet.Reprice | substrate-poe-monthly-2021-10/pallets/kitties/src/lib.rs:219-222 | the write of `set_price`: only that record's price changes and the invariant holds |
| Kitties.Pallet.Settle | substrate-poe-monthly-2021-10/pallets/kitties/src/lib.rs:265-268 | the writes of `buy_kitty` once its checks pass: the seller is paid, the kitty moves to the buyer with no price, the buyer's fee is unreserved, and the invariant holds |
| Kitties.Pallet.Transfer | substrate-poe-monthly-2021-10/pallets/kitties/src/lib.rs:228-244 | errors in order KittyNotExist, NotKittyOwner, TransferToSelf, ExceedMaxKittyOwned (the receiver must be strictly under the cap); on success the kitty moves to the receiver, price cleared, lists reassigned, invariant kept |
| Kitties.Pallet.TransferKittyTo | substrate-poe-monthly-2021-10/pallets/kitties/src/lib.rs:362-384 | KittyNotExist or ExceedMaxKittyOwned with nothing written (transactional); on success the record, `Owner` and both lists change as the move describes, and nothing else |
| Kitties.Pallet.BuyKitty | substrate-poe-monthly-2021-10/pallets/kitties/src/lib.rs:246-271 | errors in order KittyNotExist, BuyerIsKittyOwner, KittyNotForSale, KittyBidPriceTooLow (a bid equal to the ask passes), NotEnoughBalance, ExceedMaxKittyOwned, currency failure, each leaving everything unchanged; on success the bid is paid to the seller, the kitty moves to the buyer and the fee is unreserved on the buyer's account |
| Kitties.Pallet.BreedDna | substrate-poe-monthly-2021-10/pallets/kitties/src/lib.rs:309-321 | KittyNotExist exactly when a parent is missing; otherwise the random mask overwritten in place equals the per-bit blend of the parents' dna |
| Kitties.Pallet.BreedKitty | substrate-poe-monthly-2021-10/pallets/kitties/src/lib.rs:274-286 | the caller must own both parents (existence then ownership, parent 1 first), then the mint checks; on success the child with the blended dna and no price is minted to the caller, no fee is reserved, the invariant holds |
| Kitties.Pallet.BuildOne | substrate-poe-monthly-2021-10/pallets/kitties/src/lib.rs:146-148 | one genesis entry has `mint`'s outcome: when the counter is below `u64::MAX` and the account's list has room, the entry's record is stored under the next id and appended to the account's list; otherwise storage is unchanged. The invariant holds |
| Kitties.Pallet.Build | substrate-poe-monthly-2021-10/pallets/kitties/src/lib.rs:145-149 | the final storage is the left-to-right fold of that mint-or-skip step over the genesis entries, and the invariant holds |
| Kitties.GenesisFoldKeepsConsistent | substrate-poe-monthly-2021-10/pallets/kitties/src/lib.rs:145-149 | the genesis fold keeps the storage invariant |
| Kitties.GenesisFoldGrows | substrate-poe-monthly-2021-10/pallets/kitties/src/lib.rs:145-149 | the genesis fold keeps every existing kitty, adds at most one kitty per entry, keeps ids below the counter, and every added kitty is the record of some entry |
| Kitties.GenesisFoldMintsEveryEntry | substrate-poe-monthly-2021-10/pallets/kitties/src/lib.rs:145-149 | when the counter and every list have room for all entries, every entry is minted, entry `j` under id `count + j` |
| Kitties.GenesisFoldListsGrowBy | substrate-poe-monthly-2021-10/pallets/kitties/src/lib.rs:145-149 | the genesis fold adds at most one id per entry to any account's list |
| Genome.BlendByteUnderMask | substrate-poe-monthly-2021-10/pallets/kitties/src/lib.rs:318 | under a one-bit mask, the blended byte has that bit exactly when the selected parent has it: parent 1 where the selector's bit is set, parent 2 otherwise |
| Genome.BlendByteBits | substrate-poe-monthly-2021-10/pallets/kitties/src/lib.rs:318 | bit k of `(m & x) \| (!m & y)` is set exactly when bit k of `x` is set (mask bit k is 1) or bit k of `y` is set (mask bit k is 0) |
| Genome.BlendSelectsParentBits | substrate-poe-monthly-2021-10/pallets/kitties/src/lib.rs:316-319 | every bit of every child byte comes from the same bit of parent 1 or parent 2, as the mask bit selects |
| Genome.BlendSameParents | substrate-poe-monthly-2021-10/pallets/kitties/src/lib.rs:316-319 | two parents with the same dna give a child with that dna, whatever the mask |
| Genome.BlendExtremeMasks | substrate-kitties-monthly-2021-07/pallets/kitties/src/lib.rs:166-169 | an all-ones selector copies parent 1 and an all-zeros selector copies parent 2 |
| OwnedList.Position | substrate-poe-monthly-2021-10/pallets/kitties/src/lib.rs:370 | None exactly when the id is not in the list; otherwise the first index holding it |
| OwnedList.SwapRemoveAt | substrate-poe-monthly-2021-10/pallets/kitties/src/lib.rs:371 | `swap_remove(i)` shortens the list by one, keeps every other slot, and moves the last element into slot `i` |
| OwnedList.SwapRemoveMembers | substrate-poe-monthly-2021-10/pallets/kitties/src/lib.rs:369-372 | on a duplicate-free list, swap-remove removes exactly the element at `i` and the list stays duplicate-free |
| OwnedList.AppendFresh | substrate-poe-monthly-2021-10/pallets/kitties/src/lib.rs:380-382 | pushing an id the list does not hold keeps it duplicate-free |
| Balances.Reserve | substrate-poe-monthly-2021-10/pallets/kitties/src/lib.rs:204 | fails exactly when the free balance is below the amount; otherwise moves the amount from that account's free balance to its reserve, and no other account changes |
| Balances.Unreserve | substrate-poe-monthly-2021-10/pallets/kitties/src/lib.rs:268 | returns up to the amount from reserve to free balance (all of the reserve if it is smaller), keeping the account's sum; no other account changes |
| Balances.Transfer | substrate-poe-monthly-2021-10/pallets/kitties/src/lib.rs:266 | a zero amount or a transfer to oneself succeeds and changes nothing; otherwise it succeeds exactly when the payer holds the amount, the payee's total reaches the existential deposit and the payer's total stays at or above it; then the payer loses and the payee gains the amount, every other account and all reserves are untouched |
| Balances.ReserveConserves | substrate-poe-monthly-2021-10/pallets/kitties/src/lib.rs:204 | reserving keeps the ledger's total, free plus reserved |
| Balances.UnreserveConserves | substrate-poe-monthly-2021-10/pallets/kitties/src/lib.rs:268 | unreserving keeps the ledger's total, free plus reserved |
| Balances.TransferConserves | substrate-poe-monthly-2021-10/pallets/kitties/src/lib.rs:266 | a currency transfer keeps the ledger's total |
| EarlyKitties.Pallet.constructor | substrate-kitties-monthly-2021-07/pallets/kitties/src/lib.rs:53-79 | the counter is unset and both maps are empty, which satisfies the invariant |
| EarlyKitties.Pallet.NextId | substrate-kitties-monthly-2021-07/pallets/kitties/src/lib.rs:103-109 | the new id is the stored count (0 while it is unset), and there is none when the count is `u32::MAX` |
| EarlyKitties.Pallet.Create | substrate-kitties-monthly-2021-07/pallets/kitties/src/lib.rs:96-123 | KittiesCountOverflow with nothing written at `u32::MAX`; otherwise the fresh id gets the random dna and the caller as owner, and the count becomes id + 1 |
| EarlyKitties.Pallet.Transfer | substrate-kitties-monthly-2021-07/pallets/kitties/src/lib.rs:126-143 | succeeds exactly when the stored owner is the caller (an unknown id gives NotOwner); only `Owner[id]` changes, and a transfer to oneself is allowed |
| EarlyKitties.Pallet.Breed | substrate-kitties-monthly-2021-07/pallets/kitties/src/lib.rs:146-180 | SameKittyIndex first, then InvalidKittyIndex for a missing parent, then the overflow, all without writes and without any ownership check; on success the child under the next id has the blended dna and the caller as owner, and the count is id + 1 |
| Poe.SizeCheckAsWritten | substrate-poe-monthly-2021-10/pallets/poe/src/lib.rs:101 | the size check with the length truncated to `u32`; it agrees with `len <= MaxVecLen` on every length that fits in a `u32` |
| Poe.AsWrittenAdmitsOversizedClaim | substrate-poe-monthly-2021-10/pallets/poe/src/lib.rs:101 | a 2^32-byte claim passes the as-written check against a bound of 2 but fails the intended one |
| Poe.AsWrittenAdmitsWrappedLengths | substrate-poe-monthly-2021-10/pallets/poe/src/lib.rs:101 | every length 2^32 + j with j at most the bound passes the as-written check and fails the intended one |
| Poe.SizeChecksAgreeBelowWrap | substrate-poe-monthly-2021-10/pallets/poe/src/lib.rs:101 | the two checks give the same answer on every length that fits in a `u32` |
| Poe.Pallet.constructor | substrate-poe-monthly-2021-10/pallets/poe/src/lib.rs:46-57 | the store starts empty, which satisfies the invariant |
| Poe.Pallet.CreateClaim | substrate-poe-monthly-2021-10/pallets/poe/src/lib.rs:94-115 | ClaimSizeOutOfBound first (a length equal to the bound passes), then ProofAlreadyExist, both without writes; on success the claim maps to (sender, current block); no stored claim is ever longer than the bound |
| Poe.Pallet.RevokeClaim | substrate-poe-monthly-2021-10/pallets/poe/src/lib.rs:119-135 | ClaimNotExist, then NotClaimOwner, both without writes; on success exactly that claim is removed |
| Poe.Pallet.TransferClaim | substrate-poe-monthly-2021-10/pallets/poe/src/lib.rs:139-166 | ClaimNotExist, NotClaimOwner, then NotDestination for a transfer to oneself, all without writes; on success the claim maps to (dest, current block) |
| Accounts.BalanceBoundedByTotal | erc20/lib.rs:73-75 | no account holds more than the sum of all balances |
| Accounts.Move | erc20/lib.rs:128-135 | with distinct accounts the payer loses and the payee gains the amount; when the two accounts are the same the balance is unchanged; every other balance is unchanged |
| Accounts.MoveConserves | erc20/lib.rs:133-135 | a move keeps the sum of all balances |
| Erc20.CreditFitsU128 | erc20/lib.rs:133-135 | when the balances sum to at most `u128::MAX`, the addition `to_balance + value` after the debit stays within `u128`, also when `from == to` |
| Erc20.Erc20.constructor | erc20/lib.rs:49-65 | the caller holds the whole supply, every other balance and every allowance is 0, and the balances sum to the supply |
| Erc20.Erc20.TotalSupply | erc20/lib.rs:68-70 | the total supply is the sum of all balances |
| Erc20.Erc20.BalanceOf | erc20/lib.rs:73-75 | the stored balance, 0 for an unknown account, never above the total supply |
| Erc20.Erc20.Allowance | erc20/lib.rs:78-80 | the stored allowance of the pair, 0 if it was never approved |
| Erc20.Erc20.InnerTransfer | erc20/lib.rs:122-145 | InsufficientBalance with nothing written when `from` holds less than `value`; otherwise the balances become the move, allowances and supply stay, and the sum of balances still equals the supply |
| Erc20.Erc20.Transfer | erc20/lib.rs:83-86 | an inner transfer from the caller, with the same outcome and effect |
| Erc20.Erc20.Approve | erc20/lib.rs:89-101 | always succeeds and overwrites the (caller, spender) allowance, whatever it was; balances unchanged |
| Erc20.Erc20.TransferFrom | erc20/lib.rs:104-119 | InsufficientApproval first, then InsufficientBalance, both without writes (the allowance is untouched); on success the move is made and the allowance drops by exactly the value |

## Left out

- Host randomness and hashing are not modelled. In the 2021-10 kitties pallet `gen_dna` hashes the random seed with `blake2_128`, while `gen_gender` takes the first byte of the random seed unhashed (lib.rs:293-298). The 2021-07 `random_value` hashes with `blake2_128`. Their results are parameters: `Kitties.Randomness` and the 2021-07 selector.
- The currency library is not part of this model. `Balances` is the smallest ledger with which the pallet's reserve, unreserve, free-balance check and keep-alive transfer make sense. Its own error kinds reach the pallet as one `CurrencyTransferFailed`.
- Balances.Transfer: locks and vesting on the payer's balance, an overflow of the payee's balance and the account reference counts are not modelled; the currency pallet is not part of this model.
- Kitties.Pallet.BuyKitty: the amount `unreserve` reports goes only into the event, so it is not stated.
- Events (`deposit_event`, `emit_event`), weights, logging, origin checking, storage hashers and the ink! `Lazy`/`HashMap` storage types are not modelled. The caller is an explicit parameter.
- `create_kitty` is not transactional. The model follows the code literally: the fee stays reserved when the following mint fails.
- One kitties test (`substrate-poe-monthly-2021-10/pallets/kitties/src/tests.rs:14-25`) expects `InvalidKittyIndex` from a call where the code can only return `ExceedMaxKittyOwned`. The model follows the code.
- The pallets compare `(len as u32) < MaxKittyOwned` for the owned lists. The model compares the full length. The two agree because the invariant keeps every list within `MaxKittyOwned`, which is at most `u32::MAX`.
- ERC20 balances are unbounded naturals rather than `u128`. `Erc20.CreditFitsU128` proves that the only unchecked addition stays in range, so no wrap-around arises.
- The React front end and the mock runtime are not modelled.

## Findings

| source | as written | input that shows it | evidently intended | confidence | as-written member | corrected member |
|---|---|---|---|---|---|---|
| substrate-poe-monthly-2021-10/pallets/poe/src/lib.rs:101 | `(claim.len() as u32) <= MaxVecLen` truncates the length to its low 32 bits before comparing | a claim of 2^32 bytes with `MaxVecLen = 2`: the truncated length is 0, so the check passes | reject every claim longer than `MaxVecLen` | low: such a claim is far beyond any realistic extrinsic size; not executed | Poe.AsWrittenAdmitsOversizedClaim | Poe.Pallet.CreateClaim |
