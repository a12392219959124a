/** The simulation's state record and the two quantities derived from it:
    the mass number and the ionic charge, and the sign-based classification
    of the atom as a cation, an anion or an atom without ionic charge. */
module Atom {

  /** The counts of protons, neutrons and electrons of the simulated atom. */
  datatype AtomState = AtomState(protons: nat, neutrons: nat, electrons: nat)

  /** The state the simulation starts in: one proton, no neutron, two electrons. */
  const InitialState: AtomState := AtomState(1, 0, 2)

  /** The three outcomes of the if / else-if / else chain on the charge. */
  datatype Classification = Cation | Anion | Neutral

  /** Number of nucleons: protons plus neutrons. */
  function MassNumber(s: AtomState): (m: nat)
    ensures s.protons <= m && s.neutrons <= m
    ensures m == 0 <==> s.protons == 0 && s.neutrons == 0
  {
    s.protons + s.neutrons
  }

  /** Net charge in elementary charges: protons minus electrons. */
  function IonicCharge(s: AtomState): (q: int)
    ensures -(s.electrons as int) <= q <= s.protons
    ensures q > 0 <==> s.protons > s.electrons
    ensures q < 0 <==> s.electrons > s.protons
    ensures q == 0 <==> s.protons == s.electrons
  {
    s.protons - s.electrons
  }

  /** The branch the source takes: positive charge first, then negative,
      otherwise no ionic charge. */
  function Classify(s: AtomState): (c: Classification)
    ensures c == Cation <==> s.protons > s.electrons
    ensures c == Anion <==> s.electrons > s.protons
    ensures c == Neutral <==> s.protons == s.electrons
  {
    var charge := IonicCharge(s);
    if charge > 0 then Cation
    else if charge < 0 then Anion
    else Neutral
  }

  /** The sign of the charge decides the classification, in both directions. */
  lemma ClassifyBySign(s: AtomState)
    ensures Classify(s) == Cation <==> IonicCharge(s) > 0
    ensures Classify(s) == Anion <==> IonicCharge(s) < 0
    ensures Classify(s) == Neutral <==> IonicCharge(s) == 0
  {
  }

  /** Exactly one of the three branches applies to every state: the
      classification is the one whose test on the charge holds, and the
      tests of the other two branches fail. */
  lemma ClassifyExactlyOne(s: AtomState)
    ensures Classify(s) == Cation ==> IonicCharge(s) > 0 && !(IonicCharge(s) < 0) && IonicCharge(s) != 0
    ensures Classify(s) == Anion ==> IonicCharge(s) < 0 && !(IonicCharge(s) > 0) && IonicCharge(s) != 0
    ensures Classify(s) == Neutral ==> IonicCharge(s) == 0 && !(IonicCharge(s) > 0) && !(IonicCharge(s) < 0)
  {
  }

  /** The mass number is the sum of protons and neutrons and does not depend
      on the electrons. */
  lemma MassNumberIgnoresElectrons(s: AtomState, e: nat)
    ensures MassNumber(s) == s.protons + s.neutrons
    ensures MassNumber(s.(electrons := e)) == MassNumber(s)
  {
  }

  /** The ionic charge is protons minus electrons and does not depend on the
      neutrons; neither does the classification. */
  lemma IonicChargeIgnoresNeutrons(s: AtomState, n: nat)
    ensures IonicCharge(s) == s.protons - s.electrons
    ensures IonicCharge(s.(neutrons := n)) == IonicCharge(s)
    ensures Classify(s.(neutrons := n)) == Classify(s)
  {
  }

  /** The initial state is a singly charged anion of mass number 1. */
  lemma InitialStateIsAnion()
    ensures MassNumber(InitialState) == 1
    ensures IonicCharge(InitialState) == -1
    ensures Classify(InitialState) == Anion
  {
  }
}
