/**
 * The proof-of-existence registry as values: the `Proofs` storage, its three
 * calls as functions from the old storage to the new one (or to the error
 * that aborts the call), and the invariant that every stored claim fits the
 * configured length limit.
 */
module PoeModel {
  import opened Support

  /** A claim: the raw bytes whose existence is recorded (`Vec<u8>`). */
  type Claim = seq<bv8>

  /** What `Proofs` stores for a claim: its owner and the block it was created in. */
  datatype Proof<A, B> = Proof(owner: A, block: B)

  /** The `Proofs` storage; a claim not in the map has no proof. */
  type Proofs<A, B> = map<Claim, Proof<A, B>>

  datatype Error = ProofAlreadyExist | ClaimNotExists | NotClaimOwner | ClaimTooLong

  datatype Event<A> =
    | ClaimCreated(creator: A, claim: Claim)
    | ClaimRevoke(revoker: A, claim: Claim)
    | ClaimTransfer(from: A, claim: Claim, to: A)

  /** A successful call: the storage it commits and the event it deposits. */
  datatype Effect<A, B> = Effect(proofs: Proofs<A, B>, event: Event<A>)

  /** Every stored claim is at most `limit` bytes long. */
  ghost predicate KeysWithin<A, B>(proofs: Proofs<A, B>, limit: nat)
  {
    forall c :: c in proofs ==> |c| <= limit
  }

  /** The proof of `claim` exists and belongs to `who`. */
  predicate OwnedBy<A(==), B>(proofs: Proofs<A, B>, claim: Claim, who: A)
  {
    claim in proofs && proofs[claim].owner == who
  }

  /**
   * `create_claim` by `sender` in block `now`, under the length limit `limit`:
   * the length check comes first, then the existence check.
   */
  function CreateClaim<A, B>(proofs: Proofs<A, B>, limit: nat, sender: A, claim: Claim, now: B)
    : (r: Result<Effect<A, B>, Error>)
    ensures |claim| > limit ==> r == Err(ClaimTooLong)
    ensures |claim| <= limit && claim in proofs ==> r == Err(ProofAlreadyExist)
    ensures r.Ok? <==> |claim| <= limit && claim !in proofs
    ensures r.Ok? ==> && claim in r.value.proofs
                      && r.value.proofs[claim] == Proof(sender, now)
                      && AgreeExcept(proofs, r.value.proofs, claim)
                      && r.value.event == ClaimCreated(sender, claim)
    ensures r.Ok? && KeysWithin(proofs, limit) ==> KeysWithin(r.value.proofs, limit)
  {
    if |claim| > limit then Err(ClaimTooLong)
    else if claim in proofs then Err(ProofAlreadyExist)
    else Ok(Effect(proofs[claim := Proof(sender, now)], ClaimCreated(sender, claim)))
  }

  /** `revoke_claim` by `sender`: the proof must exist and be the sender's. */
  function RevokeClaim<A(==), B>(proofs: Proofs<A, B>, sender: A, claim: Claim)
    : (r: Result<Effect<A, B>, Error>)
    ensures claim !in proofs ==> r == Err(ClaimNotExists)
    ensures claim in proofs && proofs[claim].owner != sender ==> r == Err(NotClaimOwner)
    ensures r.Ok? <==> OwnedBy(proofs, claim, sender)
    ensures r.Ok? ==> && claim !in r.value.proofs
                      && AgreeExcept(proofs, r.value.proofs, claim)
                      && r.value.event == ClaimRevoke(sender, claim)
    ensures r.Ok? ==> forall limit: nat :: KeysWithin(proofs, limit) ==> KeysWithin(r.value.proofs, limit)
  {
    if claim !in proofs then Err(ClaimNotExists)
    else if proofs[claim].owner != sender then Err(NotClaimOwner)
    else Ok(Effect(proofs - {claim}, ClaimRevoke(sender, claim)))
  }

  /**
   * `transfer_claim` from `sender` to `receiver`: the same two checks as
   * `revoke_claim`; the proof keeps the block it was created in.
   */
  function TransferClaim<A(==), B>(proofs: Proofs<A, B>, sender: A, claim: Claim, receiver: A)
    : (r: Result<Effect<A, B>, Error>)
    ensures claim !in proofs ==> r == Err(ClaimNotExists)
    ensures claim in proofs && proofs[claim].owner != sender ==> r == Err(NotClaimOwner)
    ensures r.Ok? <==> OwnedBy(proofs, claim, sender)
    ensures r.Ok? ==> && claim in r.value.proofs
                      && r.value.proofs[claim] == Proof(receiver, proofs[claim].block)
                      && AgreeExcept(proofs, r.value.proofs, claim)
                      && r.value.event == ClaimTransfer(sender, claim, receiver)
    ensures r.Ok? ==> r.value.proofs.Keys == proofs.Keys
  {
    if claim !in proofs then Err(ClaimNotExists)
    else if proofs[claim].owner != sender then Err(NotClaimOwner)
    else
      var block := proofs[claim].block;
      Ok(Effect(proofs[claim := Proof(receiver, block)], ClaimTransfer(sender, claim, receiver)))
  }

  /** A dispatchable call; `now` is the block number `create_claim` reads. */
  datatype Call<A, B> =
    | Create(sender: A, claim: Claim, now: B)
    | Revoke(sender: A, claim: Claim)
    | Transfer(sender: A, claim: Claim, receiver: A)

  function Dispatch<A(==), B>(proofs: Proofs<A, B>, limit: nat, c: Call<A, B>): Result<Effect<A, B>, Error>
  {
    match c
    case Create(sender, claim, now) => CreateClaim(proofs, limit, sender, claim, now)
    case Revoke(sender, claim) => RevokeClaim(proofs, sender, claim)
    case Transfer(sender, claim, receiver) => TransferClaim(proofs, sender, claim, receiver)
  }

  /** The storage after a call: the committed one, or the old one if the call failed. */
  function After<A(==), B>(proofs: Proofs<A, B>, limit: nat, c: Call<A, B>): Proofs<A, B>
  {
    match Dispatch(proofs, limit, c)
    case Ok(e) => e.proofs
    case Err(_) => proofs
  }

  /** The storage after a sequence of calls, applied one at a time in order. */
  function Run<A(==), B>(proofs: Proofs<A, B>, limit: nat, calls: seq<Call<A, B>>): Proofs<A, B>
    decreases |calls|
  {
    if calls == [] then proofs else Run(After(proofs, limit, calls[0]), limit, calls[1..])
  }
}
