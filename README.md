# Kitty registry and proof-of-existence registry, in Dafny

This project models two pallets (runtime modules) of a Substrate node template.

- **Kitties** keeps three storages. `KittiesCount` is the next index, unset until the first kitty exists. `Kitties` maps an index to a kitty's 16 bytes of DNA. `Owner` maps an index to the owning account.
  - `create_kitty` allocates an index and stores a random DNA owned by the caller.
  - `transfer_kitty` lets the owner hand a kitty to another account.
  - `breed_kitty` mixes the DNA of two distinct existing kitties, bit by bit under a random 16-byte selector, into a new kitty owned by the caller.
- **PoE** (proof of existence) keeps one storage, `Proofs`. It maps a claim (a byte string) to its owner and to the block number in which the claim was created.
  - `create_claim` enforces a length limit (`StringLimit`) and refuses an existing claim.
  - `revoke_claim` lets the owner remove a claim.
  - `transfer_claim` lets the owner hand a claim on, keeping its block number.

Each pallet is in three files:

- `*_model.dfy` describes the storage as a value. Each call is a function from the old storage to `Ok(Effect(new storage, event))` or to `Err(error)`. The function's contract states in order the error conditions the call can hit and, on success, exactly what is written.
- `*_pallet.dfy` has a class whose fields are the storages and the event log. Its methods are the dispatchable calls, written imperatively as in the source: checks first, then `insert`/`remove`/`put`. Each method is proved to report and commit exactly what the model function says (`Applied`). On failure it provably writes nothing (`unchanged(this)`). Each method also keeps the registry invariant. The DNA-mixing loop of `breed_kitty` is the method `MixDna`, over a 16-byte array.
- `*_proofs.dfy` proves properties that span many calls. The invariants survive any sequence of calls, with each call applied or refused. The kitty counter equals the number of kitties. A kitty's DNA never changes once stored. Transfers undo each other. `revoke_claim` undoes `create_claim`.

`support.dfy` holds the shared `Option`, `Result` and `Outcome` types and the predicate `AgreeExcept` ("every other key is unchanged").

Host services are parameters:

- The signed caller is a plain argument.
- `random_value(who)` is a function argument `randomValue: A -> Dna` of the class methods. The model functions receive the 16 bytes it returned.
- The current block number is an argument of `create_claim`.
- `StringLimit` is a constant field, fixed when the registry is constructed.

`KittyIndex` is a newtype bounded by `MAX = 0xFFFF_FFFF` (`u32`, the width the test runtime uses, `pallets/kitties/src/tests.rs:19`; the pallet itself keeps `KittyIndex` generic). `kitty_id + 1` is therefore checked by the verifier: the allocation refuses at `MAX`, so the increment cannot overflow.

Some behaviour of the code worth stating explicitly:

- The breeding event is `KittyBreed(parent1, parent2)`; it does not carry the new index.
- `transfer_kitty` checks existence in `Kitties` and then that `Owner` holds exactly `Some(caller)`. A kitty without an owner record therefore fails with `NotKittyOwner`.
- `breed_kitty` does not require the caller to own either parent.
- The transfer and breeding calls read `Kitties` directly. `Kitties` is a value-query map of `Option<Kitty>`, and every write stores `Some`. So a missing key and a `None` value are the same thing, and the model uses plain map membership.

## Model

| member | source | states |
|---|---|---|
| KittyModel.AllocateIndex | pallets/kitties/src/lib.rs:75-81 | The index is the counter's value, or 0 while the counter is unset. The call fails with `KittiesCountOverflow` exactly when the counter equals `MAX`. A granted index is below `MAX`, so `id + 1` never overflows. |
| KittyModel.CreateKitty | pallets/kitties/src/lib.rs:70-91 | Fails only when the counter is at `MAX`, and then with `KittiesCountOverflow`. On success the kitty is stored at the allocated index and owned by the caller, and the counter becomes index + 1. Every other index keeps its entries. The event is `KittyCreated(caller, id)`. The invariant is preserved. |
| KittyModel.TransferKitty | pallets/kitties/src/lib.rs:94-110 | Fails with `KittyNotExist` when there is no kitty, and with `NotKittyOwner` when the caller is not the recorded owner. It succeeds exactly when both checks pass; self-transfer is allowed. On success only `Owner[id]` changes, and it becomes the new owner; the counter and all DNA stay the same. The event is `KittyTransfer`. The invariant is preserved. |
| KittyModel.MixBit | pallets/kitties/src/lib.rs:140 | On any single bit, the selector-masked combination of the two parent bytes is `a`'s bit where `s`'s bit is set and `b`'s bit where it is clear. |
| KittyModel.MixByte | pallets/kitties/src/lib.rs:140 | Every bit of a mixed byte comes from the first parent where the selector bit is 1 and from the second where it is 0. Equal parents give back the parent byte unchanged. |
| KittyModel.MixedDna | pallets/kitties/src/lib.rs:137-141 | For each of the 16 bytes and each of the 8 bits, the child bit is parent 1's where the selector bit is 1 and parent 2's where it is 0. Where the parents agree, the child agrees, whatever the selector. Identical parents give an identical child. |
| KittyModel.BreedKitty | pallets/kitties/src/lib.rs:113-150 | Equal parent ids fail with `SameParentIndex`, whether or not they exist. A missing parent then fails with `KittyNotExist`, before the overflow check. Only after that does a counter at `MAX` fail with `KittiesCountOverflow`. The call succeeds exactly when none of these apply. On success the child is stored and owned as in creation, with the mixed DNA of the two parents. The event is `KittyBreed(id1, id2)`. The invariant is preserved. |
| KittyPallet.MixDna | pallets/kitties/src/lib.rs:137-141 | The `for i in 0..16` loop filling a zeroed 16-byte array yields exactly `MixedDna(selector, dna1, dna2)`. |
| KittyPallet.KittyRegistry.constructor | pallets/kitties/src/lib.rs:35-45 | The three storages start empty, with the counter unset, and satisfy the invariant. |
| KittyPallet.KittyRegistry.CreateKitty | pallets/kitties/src/lib.rs:70-91 | Draws the DNA from `randomValue(caller)` after the overflow check. Reports the same outcome as `KittyModel.CreateKitty` and commits its storage and event. A failure leaves every field unchanged. The invariant is preserved. |
| KittyPallet.KittyRegistry.TransferKitty | pallets/kitties/src/lib.rs:94-110 | Reports the same outcome as `KittyModel.TransferKitty` and commits its storage and event. A failure leaves every field unchanged. The invariant is preserved. |
| KittyPallet.KittyRegistry.BreedKitty | pallets/kitties/src/lib.rs:113-150 | Checks in source order and mixes the DNA with the `MixDna` loop. Reports the same outcome as `KittyModel.BreedKitty` and commits its storage and event. A failure leaves every field unchanged. The invariant is preserved. |
| KittyProofs.InvCounts | pallets/kitties/src/lib.rs:85-87 | Under the invariant, the number of kitties and the number of owner records both equal the counter. |
| KittyProofs.AfterKeepsInv | pallets/kitties/src/lib.rs:67-151 | Every call, successful or refused, keeps the invariant. The invariant says that kitties and owner records exist for the same indices, namely those below the counter. |
| KittyProofs.RunKeepsInv | pallets/kitties/src/lib.rs:67-151 | The invariant holds after any sequence of calls from a state where it holds. |
| KittyProofs.RunCounts | pallets/kitties/src/lib.rs:67-151 | From empty storage, after any history, the counter equals the number of kitties and the number of owners. |
| KittyProofs.AfterKeepsKitties | pallets/kitties/src/lib.rs:85-87 | Under the invariant, one call never lowers the counter. It never overwrites a stored kitty, because the allocated index is always fresh. |
| KittyProofs.RunKeepsKitties | pallets/kitties/src/lib.rs:67-151 | From a state satisfying the invariant (so from empty storage), over any history, indices only grow and a stored kitty's DNA never changes. |
| KittyProofs.TransferRoundTrip | pallets/kitties/src/lib.rs:101-105 | A transfer followed by the transfer back succeeds and restores the exact storage. |
| KittyProofs.SelfTransfer | pallets/kitties/src/lib.rs:101-105 | The owner's transfer to itself succeeds and changes nothing. |
| KittyProofs.Scenario | pallets/kitties/src/tests.rs:5-13 | From empty storage: creation stores kitty 0 with the drawn DNA, owned by the caller, with counter `Some(1)`. A second creation stores kitty 1 with its DNA, with counter `Some(2)`. Breeding them gives kitty 2, with DNA mixed from 0 and 1. The owner can transfer kitty 2, and a non-owner then fails with `NotKittyOwner`. Breeding with a missing parent fails with `KittyNotExist`. |
| KittyProofs.CreateAtMax | pallets/kitties/src/tests.rs:16-26 | With the counter at `MAX`, creation fails with `KittiesCountOverflow` and leaves the storage unchanged. |
| PoeModel.CreateClaim | pallets/poe/src/lib.rs:63-79 | A claim longer than the limit fails with `ClaimTooLong`; this check comes first. An existing claim then fails with `ProofAlreadyExist`. The call succeeds exactly otherwise. On success the claim maps to `(sender, now)`, every other claim is unchanged, and the event is `ClaimCreated`. Claims within the limit stay within it. |
| PoeModel.RevokeClaim | pallets/poe/src/lib.rs:82-95 | An absent claim fails with `ClaimNotExists`. A claim owned by someone else fails with `NotClaimOwner`. The call succeeds exactly when the sender owns the claim. On success the claim is removed, every other claim is unchanged, and the event is `ClaimRevoke`. The length bound is preserved. |
| PoeModel.TransferClaim | pallets/poe/src/lib.rs:98-112 | Makes the same two checks in the same order as revocation. On success the claim maps to `(receiver, original block)` and every other claim is unchanged. The set of claims does not change, and the event is `ClaimTransfer`. |
| PoePallet.ClaimRegistry.constructor | pallets/poe/src/lib.rs:31-38 | Starts with no proofs under the given `StringLimit`, satisfying the length bound. |
| PoePallet.ClaimRegistry.CreateClaim | pallets/poe/src/lib.rs:63-79 | Reports the same outcome as `PoeModel.CreateClaim` and commits its storage and event. A failure leaves every field unchanged. The length bound is kept. |
| PoePallet.ClaimRegistry.RevokeClaim | pallets/poe/src/lib.rs:82-95 | Reports the same outcome as `PoeModel.RevokeClaim` and commits its storage and event. A failure leaves every field unchanged. The length bound is kept. |
| PoePallet.ClaimRegistry.TransferClaim | pallets/poe/src/lib.rs:98-112 | Reports the same outcome as `PoeModel.TransferClaim` and commits its storage and event. A failure leaves every field unchanged. The length bound is kept. |
| PoeProofs.AfterKeepsKeysWithin | pallets/poe/src/lib.rs:69-72 | Every call, successful or refused, keeps every stored claim within `StringLimit`. |
| PoeProofs.RunKeepsKeysWithin | pallets/poe/src/lib.rs:69-72 | No sequence of calls stores a claim longer than `StringLimit`. |
| PoeProofs.RunFromEmpty | pallets/poe/src/lib.rs:69-72 | From empty storage, every claim stored after any history fits the limit. |
| PoeProofs.CreateThenRevoke | pallets/poe/src/lib.rs:72-92 | A successful creation followed by the creator's revocation succeeds and restores the exact storage. |
| PoeProofs.TransferRoundTrip | pallets/poe/src/lib.rs:105-109 | A transfer followed by the transfer back succeeds and restores the exact storage. |
| PoeProofs.TransfersKeepBlock | pallets/poe/src/lib.rs:105-109 | Along any chain of owner-to-owner transfers, the claim ends with the last owner and its original block number. |

## Left out

- `random_value`'s body is left out. It hashes the randomness seed, the caller and the extrinsic index with Blake2-128 over their SCALE encoding, which are foreign calls and cryptography. It is an arbitrary function from account to 16 bytes, supplied by the caller of the class methods.
- `ensure_signed` is host authentication. The caller is a plain argument, so the `BadOrigin` failure is not modelled.
- The pallet macros, `#[pallet::weight]`, hooks, storage hashers, getters and the `Config` trait plumbing are framework code. The generic `KittyIndex` is fixed to a bound of `u32::MAX`, and `BlockNumber` and the account type are type parameters.
- `StringLimit` is a `u32` cast to `usize`. The model uses an unbounded `nat`, since the cast cannot lose information on the targets the runtime builds for.
- The closure passed to `try_mutate` in `transfer_claim` always returns `Ok`, so its error path cannot occur. It is modelled as a plain insert.
- Transactional rollback by the host is not modelled: in both pallets every check precedes every write, and the model proves that failures write nothing.
- Event metadata is not modelled. Events are an append-only log field of each registry.
