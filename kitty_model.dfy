/**
 * The kitty registry as values: its three storages, the three transitions as
 * functions from the old storage to the new one (or to the error that aborts
 * the call), the DNA mixing used by breeding, and the registry invariant.
 */
module KittyModel {
  import opened Support

  /** `KittyIndex`: generic in the pallet; the test runtime (tests.rs:19) instantiates it with `u32`. */
  newtype KittyIndex = i: int | 0 <= i <= 0xFFFF_FFFF

  /** `KittyIndex::max_value()`. */
  const MAX: KittyIndex := 0xFFFF_FFFF

  /** A kitty's 16 bytes of DNA (`[u8; 16]`). */
  type Dna = s: seq<bv8> | |s| == 16
    witness [0, 0, 0, 0, 0, 0, 0, 0, 0, 0, 0, 0, 0, 0, 0, 0]

  datatype Kitty = Kitty(dna: Dna)

  datatype Error = KittiesCountOverflow | NotKittyOwner | KittyNotExist | SameParentIndex

  datatype Event<A> =
    | KittyCreated(creator: A, id: KittyIndex)
    | KittyTransfer(from: A, to: A, id: KittyIndex)
    | KittyBreed(parent1: KittyIndex, parent2: KittyIndex)

  /**
   * The storages `KittiesCount`, `Kitties` and `Owner`. `Kitties` and `Owner`
   * are value-query maps of options, so a missing key reads as `None`; here a
   * missing key is exactly that `None`.
   */
  datatype KittyState<A> = KittyState(
    count: Option<KittyIndex>,
    kitties: map<KittyIndex, Kitty>,
    owner: map<KittyIndex, A>)

  /** A successful transition: the storage it commits and the event it deposits. */
  datatype Effect<A> = Effect(state: KittyState<A>, event: Event<A>)

  /** The storage before any kitty exists. */
  function Empty<A>(): KittyState<A>
  {
    KittyState(None, map[], map[])
  }

  /** The index the next kitty gets: the counter, or 0 while it is unset. */
  function NextId(count: Option<KittyIndex>): KittyIndex
  {
    match count
    case None => 0
    case Some(id) => id
  }

  /** `Owner::get(id) == Some(who)`. */
  predicate OwnedBy<A(==)>(st: KittyState<A>, id: KittyIndex, who: A)
  {
    id in st.owner && st.owner[id] == who
  }

  /**
   * The registry invariant: the kitties and the owner records exist for the
   * same indices, and those are exactly the indices below the counter.
   */
  ghost predicate Inv<A>(st: KittyState<A>)
  {
    && (forall id :: id in st.kitties <==> id < NextId(st.count))
    && (forall id :: id in st.owner <==> id < NextId(st.count))
  }

  /**
   * `st'` is `st` with a new kitty stored at the allocated index, owned by
   * `who`, and the counter moved one past it; no other entry changes.
   */
  ghost predicate Created<A>(st: KittyState<A>, st': KittyState<A>, who: A, kitty: Kitty)
  {
    var id := NextId(st.count);
    && id < MAX
    && st'.count == Some(id + 1)
    && id in st'.kitties && st'.kitties[id] == kitty
    && id in st'.owner && st'.owner[id] == who
    && AgreeExcept(st.kitties, st'.kitties, id)
    && AgreeExcept(st.owner, st'.owner, id)
  }

  /**
   * Index allocation shared by `create_kitty` and `breed_kitty`: the counter's
   * value, or 0 when unset, refused when the counter is at the maximum. A
   * granted index is below the maximum, so one past it is still an index.
   */
  function AllocateIndex(count: Option<KittyIndex>): (r: Result<KittyIndex, Error>)
    ensures r.Err? <==> count == Some(MAX)
    ensures r.Err? ==> r.error == KittiesCountOverflow
    ensures r.Ok? ==> r.value == NextId(count) && r.value < MAX
  {
    match count
    case Some(id) => if id == MAX then Err(KittiesCountOverflow) else Ok(id)
    case None => Ok(0)
  }

  /** Stores `kitty` at `id` owned by `who` and sets the counter to `id + 1`. */
  function Insert<A>(st: KittyState<A>, id: KittyIndex, kitty: Kitty, who: A): KittyState<A>
    requires id < MAX
  {
    KittyState(Some(id + 1), st.kitties[id := kitty], st.owner[id := who])
  }

  /** `create_kitty`, with `dna` the value `random_value(who)` returned. */
  function CreateKitty<A>(st: KittyState<A>, who: A, dna: Dna): (r: Result<Effect<A>, Error>)
    ensures r.Err? <==> st.count == Some(MAX)
    ensures r.Err? ==> r.error == KittiesCountOverflow
    ensures r.Ok? ==> Created(st, r.value.state, who, Kitty(dna))
    ensures r.Ok? ==> r.value.event == KittyCreated(who, NextId(st.count))
    ensures r.Ok? && Inv(st) ==> Inv(r.value.state)
  {
    match AllocateIndex(st.count)
    case Err(e) => Err(e)
    case Ok(id) => Ok(Effect(Insert(st, id, Kitty(dna), who), KittyCreated(who, id)))
  }

  /** `transfer_kitty`: the kitty must exist and be owned by `who`. */
  function TransferKitty<A(==)>(st: KittyState<A>, who: A, newOwner: A, id: KittyIndex): (r: Result<Effect<A>, Error>)
    ensures id !in st.kitties ==> r == Err(KittyNotExist)
    ensures id in st.kitties && !OwnedBy(st, id, who) ==> r == Err(NotKittyOwner)
    ensures r.Ok? <==> id in st.kitties && OwnedBy(st, id, who)
    ensures r.Ok? ==> && r.value.state.count == st.count
                      && r.value.state.kitties == st.kitties
                      && OwnedBy(r.value.state, id, newOwner)
                      && AgreeExcept(st.owner, r.value.state.owner, id)
    ensures r.Ok? ==> r.value.event == KittyTransfer(who, newOwner, id)
    ensures r.Ok? && Inv(st) ==> Inv(r.value.state)
  {
    if id !in st.kitties then Err(KittyNotExist)
    else if !OwnedBy(st, id, who) then Err(NotKittyOwner)
    else Ok(Effect(st.(owner := st.owner[id := newOwner]), KittyTransfer(who, newOwner, id)))
  }

  /** The byte whose only set bit is bit `j`, bit 0 being the least significant. */
  function Mask(j: nat): bv8
    requires j < 8
  {
    match j
    case 0 => 0x01 case 1 => 0x02 case 2 => 0x04 case 3 => 0x08
    case 4 => 0x10 case 5 => 0x20 case 6 => 0x40 case _ => 0x80
  }

  /** Bit `j` of byte `x`. */
  predicate Bit(x: bv8, j: nat)
    requires j < 8
  {
    x & Mask(j) != 0
  }

  /**
   * One byte of a child: every bit is the first parent's where the selector
   * bit is set and the second parent's where it is clear.
   */
  function MixByte(s: bv8, a: bv8, b: bv8): (c: bv8)
    ensures forall j: nat | j < 8 :: Bit(c, j) == if Bit(s, j) then Bit(a, j) else Bit(b, j)
    ensures a == b ==> c == a
  {
    var c := (s & a) | (!s & b);
    assert forall j: nat | j < 8 :: Bit(c, j) == if Bit(s, j) then Bit(a, j) else Bit(b, j) by {
      forall j: nat | j < 8 ensures Bit(c, j) == if Bit(s, j) then Bit(a, j) else Bit(b, j) {
        MixBit(s, a, b, j);
      }
    }
    c
  }

  /** The mixing formula on a single bit position. */
  lemma MixBit(s: bv8, a: bv8, b: bv8, j: nat)
    requires j < 8
    ensures Bit((s & a) | (!s & b), j) == if Bit(s, j) then Bit(a, j) else Bit(b, j)
  {
  }

  /** The child's DNA: each byte mixed under the matching selector byte. */
  function MixedDna(selector: Dna, dna1: Dna, dna2: Dna): (child: Dna)
    ensures forall i: nat, j: nat | i < 16 && j < 8 ::
      Bit(child[i], j) == if Bit(selector[i], j) then Bit(dna1[i], j) else Bit(dna2[i], j)
    ensures forall i: nat, j: nat | i < 16 && j < 8 && Bit(dna1[i], j) == Bit(dna2[i], j) ::
      Bit(child[i], j) == Bit(dna1[i], j)
    ensures dna1 == dna2 ==> child == dna1
  {
    seq(16, i requires 0 <= i < 16 => MixByte(selector[i], dna1[i], dna2[i]))
  }

  /**
   * `breed_kitty`, with `selector` the value `random_value(who)` returned:
   * distinct parents first, then both parents present, then allocation.
   * Owning the parents is not required.
   */
  function BreedKitty<A>(st: KittyState<A>, who: A, id1: KittyIndex, id2: KittyIndex, selector: Dna): (r: Result<Effect<A>, Error>)
    ensures id1 == id2 ==> r == Err(SameParentIndex)
    ensures id1 != id2 && (id1 !in st.kitties || id2 !in st.kitties) ==> r == Err(KittyNotExist)
    ensures id1 != id2 && id1 in st.kitties && id2 in st.kitties && st.count == Some(MAX) ==>
      r == Err(KittiesCountOverflow)
    ensures r.Ok? <==> id1 != id2 && id1 in st.kitties && id2 in st.kitties && st.count != Some(MAX)
    ensures r.Ok? ==> Created(st, r.value.state, who,
      Kitty(MixedDna(selector, st.kitties[id1].dna, st.kitties[id2].dna)))
    ensures r.Ok? ==> r.value.event == KittyBreed(id1, id2)
    ensures r.Ok? && Inv(st) ==> Inv(r.value.state)
  {
    if id1 == id2 then Err(SameParentIndex)
    else if id1 !in st.kitties || id2 !in st.kitties then Err(KittyNotExist)
    else match AllocateIndex(st.count)
      case Err(e) => Err(e)
      case Ok(id) =>
        var child := Kitty(MixedDna(selector, st.kitties[id1].dna, st.kitties[id2].dna));
        Ok(Effect(Insert(st, id, child, who), KittyBreed(id1, id2)))
  }

  /** A dispatchable call, with the entropy `random_value` gave it. */
  datatype Call<A> =
    | Create(who: A, dna: Dna)
    | Transfer(who: A, newOwner: A, id: KittyIndex)
    | Breed(who: A, id1: KittyIndex, id2: KittyIndex, selector: Dna)

  function Dispatch<A(==)>(st: KittyState<A>, c: Call<A>): Result<Effect<A>, Error>
  {
    match c
    case Create(who, dna) => CreateKitty(st, who, dna)
    case Transfer(who, newOwner, id) => TransferKitty(st, who, newOwner, id)
    case Breed(who, id1, id2, selector) => BreedKitty(st, who, id1, id2, selector)
  }

  /** The storage after a call: the committed state, or the old one if the call failed. */
  function After<A(==)>(st: KittyState<A>, c: Call<A>): KittyState<A>
  {
    match Dispatch(st, c)
    case Ok(e) => e.state
    case Err(_) => st
  }

  /** The storage after a sequence of calls, applied one at a time in order. */
  function Run<A(==)>(st: KittyState<A>, calls: seq<Call<A>>): KittyState<A>
    decreases |calls|
  {
    if calls == [] then st else Run(After(st, calls[0]), calls[1..])
  }
}
