/**
 * What the kitty registry guarantees over whole histories of calls: the
 * invariant holds forever, the counter is the number of kitties, stored DNA
 * never changes, transfers undo each other, and the documented scenario.
 */
module KittyProofs {
  import opened Support
  import opened KittyModel

  /** The indices below `n`. */
  function Below(n: KittyIndex): (s: set<KittyIndex>)
    ensures forall id :: id in s <==> id < n
    ensures |s| == n as int
    decreases n
  {
    if n == 0 then {} else Below(n - 1) + {n - 1}
  }

  /** Under the invariant, the counter is the number of kitties and of owner records. */
  lemma InvCounts<A>(st: KittyState<A>)
    requires Inv(st)
    ensures |st.kitties| == |st.owner| == NextId(st.count) as int
  {
    var ids := Below(NextId(st.count));
    assert st.kitties.Keys == ids;
    assert st.owner.Keys == ids;
  }

  /** Every call, whether it succeeds or fails, keeps the invariant. */
  lemma AfterKeepsInv<A>(st: KittyState<A>, c: Call<A>)
    requires Inv(st)
    ensures Inv(After(st, c))
  {
  }

  /** The invariant holds after any sequence of calls from a state where it holds. */
  lemma {:induction false} RunKeepsInv<A>(st: KittyState<A>, calls: seq<Call<A>>)
    requires Inv(st)
    ensures Inv(Run(st, calls))
    decreases |calls|
  {
    if calls != [] {
      AfterKeepsInv(st, calls[0]);
      RunKeepsInv(After(st, calls[0]), calls[1..]);
    }
  }

  /** From the empty storage, any history leaves as many kitties as the counter says. */
  lemma RunCounts<A>(calls: seq<Call<A>>)
    ensures var st := Run(Empty(), calls);
      |st.kitties| == |st.owner| == NextId(st.count) as int
  {
    RunKeepsInv(Empty(), calls);
    InvCounts(Run(Empty(), calls));
  }

  /**
   * Under the invariant one call never lowers the counter and never touches
   * a stored kitty: a new kitty goes to a fresh index.
   */
  lemma AfterKeepsKitties<A>(st: KittyState<A>, c: Call<A>)
    requires Inv(st)
    ensures NextId(st.count) <= NextId(After(st, c).count)
    ensures forall id :: id in st.kitties ==>
      id in After(st, c).kitties && After(st, c).kitties[id] == st.kitties[id]
  {
  }

  /** Indices only grow and a kitty's DNA never changes once stored, over any history. */
  lemma {:induction false} RunKeepsKitties<A>(st: KittyState<A>, calls: seq<Call<A>>)
    requires Inv(st)
    ensures NextId(st.count) <= NextId(Run(st, calls).count)
    ensures forall id :: id in st.kitties ==>
      id in Run(st, calls).kitties && Run(st, calls).kitties[id] == st.kitties[id]
    decreases |calls|
  {
    if calls != [] {
      var st' := After(st, calls[0]);
      AfterKeepsKitties(st, calls[0]);
      AfterKeepsInv(st, calls[0]);
      RunKeepsKitties(st', calls[1..]);
    }
  }

  /** Transferring a kitty and transferring it straight back restores the storage. */
  lemma TransferRoundTrip<A>(st: KittyState<A>, a: A, b: A, id: KittyIndex)
    requires TransferKitty(st, a, b, id).Ok?
    ensures var st' := TransferKitty(st, a, b, id).value.state;
      TransferKitty(st', b, a, id).Ok? && TransferKitty(st', b, a, id).value.state == st
  {
  }

  /** The owner may transfer a kitty to itself; nothing changes. */
  lemma SelfTransfer<A>(st: KittyState<A>, who: A, id: KittyIndex)
    requires id in st.kitties && OwnedBy(st, id, who)
    ensures TransferKitty(st, who, who, id).Ok? && TransferKitty(st, who, who, id).value.state == st
  {
  }

  /**
   * Two creations by alice store kitties 0 and 1, owned by her; breeding them gives kitty 2,
   * mixed from them; alice can give it to bob, carol then cannot move it, and
   * breeding with a missing parent fails.
   */
  lemma Scenario(d0: Dna, d1: Dna, sel: Dna)
    ensures
      var alice, bob, carol := 1, 2, 3;
      var s0: KittyState<int> := Empty();
      var s1 := CreateKitty(s0, alice, d0);
      s1.Ok? && s1.value.state.count == Some(1) && OwnedBy(s1.value.state, 0, alice) &&
      0 in s1.value.state.kitties && s1.value.state.kitties[0] == Kitty(d0) &&
      var s2 := CreateKitty(s1.value.state, alice, d1);
      s2.Ok? && s2.value.state.count == Some(2) && OwnedBy(s2.value.state, 1, alice) &&
      1 in s2.value.state.kitties && s2.value.state.kitties[1] == Kitty(d1) &&
      var s3 := BreedKitty(s2.value.state, alice, 0, 1, sel);
      s3.Ok? && s3.value.state.count == Some(3) && OwnedBy(s3.value.state, 2, alice) &&
      2 in s3.value.state.kitties && s3.value.state.kitties[2] == Kitty(MixedDna(sel, d0, d1)) &&
      var s4 := TransferKitty(s3.value.state, alice, bob, 2);
      s4.Ok? && OwnedBy(s4.value.state, 2, bob) &&
      TransferKitty(s4.value.state, carol, bob, 2) == Err(NotKittyOwner) &&
      BreedKitty(s4.value.state, alice, 5, 1, sel) == Err(KittyNotExist)
  {
  }

  /** Creation with the counter at the maximum refuses and allocates nothing. */
  lemma CreateAtMax<A>(st: KittyState<A>, who: A, dna: Dna)
    requires st.count == Some(MAX)
    ensures CreateKitty(st, who, dna) == Err(KittiesCountOverflow)
    ensures After(st, Create(who, dna)) == st
  {
  }
}
