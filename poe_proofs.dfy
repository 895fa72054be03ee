/**
 * What the proof-of-existence registry guarantees over histories of calls:
 * no stored claim ever exceeds the limit, revoking undoes creating, and
 * transferring back undoes transferring.
 */
module PoeProofs {
  import opened Support
  import opened PoeModel

  /** Every call, whether it succeeds or fails, keeps every stored claim within the limit. */
  lemma AfterKeepsKeysWithin<A, B>(proofs: Proofs<A, B>, limit: nat, c: Call<A, B>)
    requires KeysWithin(proofs, limit)
    ensures KeysWithin(After(proofs, limit, c), limit)
  {
  }

  /** No history of calls stores a claim longer than the limit. */
  lemma {:induction false} RunKeepsKeysWithin<A, B>(proofs: Proofs<A, B>, limit: nat, calls: seq<Call<A, B>>)
    requires KeysWithin(proofs, limit)
    ensures KeysWithin(Run(proofs, limit, calls), limit)
    decreases |calls|
  {
    if calls != [] {
      AfterKeepsKeysWithin(proofs, limit, calls[0]);
      RunKeepsKeysWithin(After(proofs, limit, calls[0]), limit, calls[1..]);
    }
  }

  /** Starting empty, every stored claim of every history fits the limit. */
  lemma RunFromEmpty<A, B>(limit: nat, calls: seq<Call<A, B>>)
    ensures forall c :: c in Run(map[], limit, calls) ==> |c| <= limit
  {
    RunKeepsKeysWithin(map[], limit, calls);
  }

  /** A claim its creator revokes straight away leaves the storage as it was. */
  lemma CreateThenRevoke<A, B>(proofs: Proofs<A, B>, limit: nat, sender: A, claim: Claim, now: B)
    requires CreateClaim(proofs, limit, sender, claim, now).Ok?
    ensures var p := CreateClaim(proofs, limit, sender, claim, now).value.proofs;
      RevokeClaim(p, sender, claim) == Ok(Effect(proofs, ClaimRevoke(sender, claim)))
  {
    var p := CreateClaim(proofs, limit, sender, claim, now).value.proofs;
    assert p - {claim} == proofs;
  }

  /** Transferring a claim and transferring it straight back restores the storage. */
  lemma TransferRoundTrip<A, B>(proofs: Proofs<A, B>, a: A, b: A, claim: Claim)
    requires TransferClaim(proofs, a, claim, b).Ok?
    ensures var p := TransferClaim(proofs, a, claim, b).value.proofs;
      TransferClaim(p, b, claim, a).Ok? && TransferClaim(p, b, claim, a).value.proofs == proofs
  {
  }

  /** A transferred claim keeps its creation block over any number of transfers. */
  lemma {:induction false} TransfersKeepBlock<A, B>(proofs: Proofs<A, B>, claim: Claim, chain: seq<A>)
    requires claim in proofs && |chain| >= 1 && proofs[claim].owner == chain[0]
    ensures var p := TransferChain(proofs, claim, chain);
      claim in p && p[claim] == Proof(chain[|chain| - 1], proofs[claim].block)
    decreases |chain|
  {
    if |chain| > 1 {
      var p := TransferClaim(proofs, chain[0], claim, chain[1]).value.proofs;
      TransfersKeepBlock(p, claim, chain[1..]);
    }
  }

  /** The claim handed along `chain`: each owner in turn transfers it to the next. */
  function TransferChain<A(==), B>(proofs: Proofs<A, B>, claim: Claim, chain: seq<A>): Proofs<A, B>
    requires claim in proofs && |chain| >= 1 && proofs[claim].owner == chain[0]
    decreases |chain|
  {
    if |chain| == 1 then proofs
    else
      var p := TransferClaim(proofs, chain[0], claim, chain[1]).value.proofs;
      TransferChain(p, claim, chain[1..])
  }
}
