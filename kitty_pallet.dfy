/**
 * The kitty pallet as it runs: the three storages as fields updated in place,
 * the event log, and the three dispatchable calls. Each call is proved to
 * commit exactly what the matching function of `KittyModel` describes, and to
 * write nothing when it fails.
 */
module KittyPallet {
  import opened Support
  import opened KittyModel

  /** The loop of `breed_kitty` that fills `new_dna` byte by byte. */
  method MixDna(selector: Dna, dna1: Dna, dna2: Dna) returns (child: Dna)
    ensures child == MixedDna(selector, dna1, dna2)
  {
    var newDna := new bv8[16](_ => 0);
    for i := 0 to |dna1|
      invariant forall k :: 0 <= k < i ==> newDna[k] == MixByte(selector[k], dna1[k], dna2[k])
    {
      newDna[i] := (selector[i] & dna1[i]) | (!selector[i] & dna2[i]);
    }
    child := newDna[..];
  }

  class KittyRegistry<A(==)> {
    /** `KittiesCount`: unset until the first kitty is stored. */
    var kittiesCount: Option<KittyIndex>
    /** `Kitties`. */
    var kitties: map<KittyIndex, Kitty>
    /** `Owner`. */
    var owner: map<KittyIndex, A>
    /** The events deposited so far, oldest first. */
    var events: seq<Event<A>>

    /** The three storages as one value. */
    function State(): KittyState<A>
      reads this
    {
      KittyState(kittiesCount, kitties, owner)
    }

    constructor ()
      ensures State() == Empty() && Inv(State()) && events == []
    {
      kittiesCount := None;
      kitties := map[];
      owner := map[];
      events := [];
    }

    /**
     * The call reported `r` and committed `spec`: on an error, the same error
     * and no write at all; on success, the new storage and one more event.
     */
    twostate predicate Applied(new spec: Result<Effect<A>, Error>, new r: Outcome<Error>)
      reads this
    {
      match spec
      case Err(e) => r == Fail(e) && State() == old(State()) && events == old(events)
      case Ok(eff) => r == Pass && State() == eff.state && events == old(events) + [eff.event]
    }

    /** `create_kitty` called by `who`; `randomValue` stands for `random_value`. */
    method CreateKitty(who: A, randomValue: A -> Dna) returns (r: Outcome<Error>)
      modifies this
      ensures Applied(KittyModel.CreateKitty(old(State()), who, randomValue(who)), r)
      ensures r.Fail? ==> unchanged(this)
      ensures Inv(old(State())) ==> Inv(State())
    {
      var alloc := AllocateIndex(kittiesCount);
      if alloc.Err? {
        return Fail(alloc.error);
      }
      var kittyId := alloc.value;

      var dna := randomValue(who);

      kitties := kitties[kittyId := Kitty(dna)];
      owner := owner[kittyId := who];
      kittiesCount := Some(kittyId + 1);

      events := events + [KittyCreated(who, kittyId)];
      r := Pass;
    }

    /** `transfer_kitty` called by `who`. */
    method TransferKitty(who: A, newOwner: A, kittyId: KittyIndex) returns (r: Outcome<Error>)
      modifies this
      ensures Applied(KittyModel.TransferKitty(old(State()), who, newOwner, kittyId), r)
      ensures r.Fail? ==> unchanged(this)
      ensures Inv(old(State())) ==> Inv(State())
    {
      if kittyId !in kitties {
        return Fail(KittyNotExist);
      }
      if !(kittyId in owner && owner[kittyId] == who) {
        return Fail(NotKittyOwner);
      }

      owner := owner[kittyId := newOwner];

      events := events + [KittyTransfer(who, newOwner, kittyId)];
      r := Pass;
    }

    /** `breed_kitty` called by `who`; `randomValue` stands for `random_value`. */
    method BreedKitty(who: A, kittyId1: KittyIndex, kittyId2: KittyIndex, randomValue: A -> Dna)
      returns (r: Outcome<Error>)
      modifies this
      ensures Applied(KittyModel.BreedKitty(old(State()), who, kittyId1, kittyId2, randomValue(who)), r)
      ensures r.Fail? ==> unchanged(this)
      ensures Inv(old(State())) ==> Inv(State())
    {
      if kittyId1 == kittyId2 {
        return Fail(SameParentIndex);
      }

      if kittyId1 !in kitties {
        return Fail(KittyNotExist);
      }
      var kitty1 := kitties[kittyId1];
      if kittyId2 !in kitties {
        return Fail(KittyNotExist);
      }
      var kitty2 := kitties[kittyId2];

      var alloc := AllocateIndex(kittiesCount);
      if alloc.Err? {
        return Fail(alloc.error);
      }
      var kittyId := alloc.value;

      var selector := randomValue(who);
      var newDna := MixDna(selector, kitty1.dna, kitty2.dna);

      kitties := kitties[kittyId := Kitty(newDna)];
      owner := owner[kittyId := who];
      kittiesCount := Some(kittyId + 1);

      events := events + [KittyBreed(kittyId1, kittyId2)];
      r := Pass;
    }
  }
}
