/**
 * The proof-of-existence pallet as it runs: the `Proofs` storage as a field
 * updated in place, the event log, and the three dispatchable calls, each
 * proved to commit what the matching function of `PoeModel` describes and
 * to write nothing when it fails.
 */
module PoePallet {
  import opened Support
  import opened PoeModel

  class ClaimRegistry<A(==), B> {
    /** `StringLimit`: the longest claim accepted, in bytes. */
    const stringLimit: nat
    /** `Proofs`. */
    var proofs: Proofs<A, B>
    /** The events deposited so far, oldest first. */
    var events: seq<Event<A>>

    /**
     * Every stored claim fits the limit. No call assumes it; the constructor
     * establishes it and every call preserves it.
     */
    ghost predicate ClaimsFitLimit()
      reads this
    {
      KeysWithin(proofs, stringLimit)
    }

    constructor (limit: nat)
      ensures stringLimit == limit && proofs == map[] && events == [] && ClaimsFitLimit()
    {
      stringLimit := limit;
      proofs := map[];
      events := [];
    }

    /**
     * The call reported `r` and committed `spec`: on an error, the same error
     * and no write at all; on success, the new storage and one more event.
     */
    twostate predicate Applied(new spec: Result<Effect<A, B>, Error>, new r: Outcome<Error>)
      reads this
    {
      match spec
      case Err(e) => r == Fail(e) && proofs == old(proofs) && events == old(events)
      case Ok(eff) => r == Pass && proofs == eff.proofs && events == old(events) + [eff.event]
    }

    /** `create_claim` by `sender`; `now` is the current block number. */
    method CreateClaim(sender: A, claim: Claim, now: B) returns (r: Outcome<Error>)
      modifies this
      ensures Applied(PoeModel.CreateClaim(old(proofs), stringLimit, sender, claim, now), r)
      ensures r.Fail? ==> unchanged(this)
      ensures old(ClaimsFitLimit()) ==> ClaimsFitLimit()
    {
      if |claim| > stringLimit {
        return Fail(ClaimTooLong);
      }
      if claim in proofs {
        return Fail(ProofAlreadyExist);
      }

      proofs := proofs[claim := Proof(sender, now)];

      events := events + [ClaimCreated(sender, claim)];
      r := Pass;
    }

    /** `revoke_claim` by `sender`. */
    method RevokeClaim(sender: A, claim: Claim) returns (r: Outcome<Error>)
      modifies this
      ensures Applied(PoeModel.RevokeClaim(old(proofs), sender, claim), r)
      ensures r.Fail? ==> unchanged(this)
      ensures old(ClaimsFitLimit()) ==> ClaimsFitLimit()
    {
      if claim !in proofs {
        return Fail(ClaimNotExists);
      }
      var owner := proofs[claim].owner;
      if owner != sender {
        return Fail(NotClaimOwner);
      }

      proofs := proofs - {claim};

      events := events + [ClaimRevoke(sender, claim)];
      r := Pass;
    }

    /** `transfer_claim` from `sender` to `receiver`. */
    method TransferClaim(sender: A, claim: Claim, receiver: A) returns (r: Outcome<Error>)
      modifies this
      ensures Applied(PoeModel.TransferClaim(old(proofs), sender, claim, receiver), r)
      ensures r.Fail? ==> unchanged(this)
      ensures old(ClaimsFitLimit()) ==> ClaimsFitLimit()
    {
      if claim !in proofs {
        return Fail(ClaimNotExists);
      }
      var Proof(owner, blockNumber) := proofs[claim];
      if owner != sender {
        return Fail(NotClaimOwner);
      }

      proofs := proofs[claim := Proof(receiver, blockNumber)];

      events := events + [ClaimTransfer(sender, claim, receiver)];
      r := Pass;
    }
  }
}
