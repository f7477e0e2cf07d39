/** Slots at hashed addresses behave like slots with names. */
module Storage {
  import opened Field
  import opened ShortStrings
  import opened Hashes

  ghost function Inputs(used: set<Slot>): set<(Tag, seq<Felt>)> {
    set s | s in used :: SlotInput(s)
  }

  /** Where the hash has no collision, neither have addresses: whatever the slots are for. */
  lemma AddressesApart(env: Env, used: set<Slot>, a: Slot, b: Slot)
    requires Uncollided(env, Inputs(used)) && a in used && b in used
    ensures Address(env, a) == Address(env, b) <==> a == b
  {
    if Address(env, a) == Address(env, b) {
      assert SlotInput(a) in Inputs(used) && SlotInput(b) in Inputs(used);
      SlotInputInjective(a, b);
    }
  }

  /** The raw store holds at each used slot's address exactly what the named store holds at the slot. */
  ghost predicate Holds<V(!new)>(env: Env, used: set<Slot>, raw: map<Felt, V>, named: map<Slot, V>) {
    forall s {:trigger s in used} :: s in used ==>
      && (Address(env, s) in raw <==> s in named)
      && (s in named ==> raw[Address(env, s)] == named[s])
  }

  /** A write to one address is a write to one slot: nobody else's slot changes. */
  lemma WriteHolds<V(!new)>(env: Env, used: set<Slot>, raw: map<Felt, V>, named: map<Slot, V>, s: Slot, v: V)
    requires Uncollided(env, Inputs(used)) && Holds(env, used, raw, named) && s in used
    ensures Holds(env, used, raw[Address(env, s) := v], named[s := v])
  {
    forall x | x in used
      ensures Address(env, x) == Address(env, s) <==> x == s
    {
      AddressesApart(env, used, x, s);
    }
  }
}
