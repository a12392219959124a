# Atom simulation: charge and mass logic

A model of the integer logic in `script.js` of the atom simulation. The
simulation keeps a state record with the numbers of protons, neutrons and
electrons of one atom (initially 1, 0 and 2). From it the script computes the
mass number (protons plus neutrons) and the ionic charge (protons minus
electrons). It then logs one of three outcomes by the sign of the charge:
"Cation" followed by the charge, "Anion" followed by the charge, or
"No Ionic Charge".

The project has three modules:

- `Atom` (`atom.dfy`): the state record `AtomState`, the initial state,
  `MassNumber`, `IonicCharge` and the three-way `Classify`. It also holds the
  lemmas that the classification is decided by the sign of the charge, that
  exactly one branch applies, and that the mass number ignores the electrons
  while the charge ignores the neutrons.
- `Decimal` (`decimal.dfy`): the text JavaScript produces when an integral
  number is concatenated to a string. That text is an optional minus sign
  followed by decimal digits with no leading zero. A reference reader
  `ParseInt` is defined beside it, and the rendering is proved to read back
  to the number rendered.
- `Report` (`report.dfy`): the console lines returned as a `seq<string>`
  instead of being printed. It also has readers that recover the
  classification and the printed charge from those lines, and lemmas that
  tie them to `Classify` and `IonicCharge`.

## Model

| member | source | states |
|---|---|---|
| `Atom.MassNumber` | script.js:8 | the mass number is at least the proton count and at least the neutron count, and it is zero exactly when both are zero |
| `Atom.IonicCharge` | script.js:9 | the charge lies between minus the electron count and the proton count; it is positive, negative or zero exactly when protons exceed, fall short of or equal electrons |
| `Atom.Classify` | script.js:11-19 | the result is Cation iff protons > electrons, Anion iff electrons > protons, and Neutral ("No Ionic Charge") iff protons = electrons |
| `Atom.ClassifyBySign` | script.js:9-19 | Cation iff the ionic charge is positive, Anion iff it is negative, Neutral iff it is zero |
| `Atom.ClassifyExactlyOne` | script.js:11-19 | exactly one of Cation, Anion and Neutral is the classification, and it is the branch whose test on the ionic charge (> 0, < 0, otherwise) holds while the other two tests fail |
| `Atom.MassNumberIgnoresElectrons` | script.js:8 | the mass number equals protons + neutrons, and changing the electron count leaves it unchanged |
| `Atom.IonicChargeIgnoresNeutrons` | script.js:9 | the ionic charge equals protons − electrons, and changing the neutron count changes neither the charge nor the classification |
| `Atom.InitialStateIsAnion` | script.js:2-16 | for the initial state (1 proton, 0 neutrons, 2 electrons) the mass number is 1, the charge is −1 and the atom is an anion |
| `Decimal.NatToDecimal` | script.js:13 | a natural number is written as at least one decimal digit, with no leading zero, and with a single digit exactly when it is below 10 |
| `Decimal.IntToDecimal` | script.js:13 | the text of an integer starts with a minus sign exactly when it is negative; the rest is decimal digits with no leading zero (a lone "0" only for zero) |
| `Decimal.NatToDecimalRoundTrip` | script.js:13 | the value of the digits written for n is n |
| `Decimal.IntToDecimalRoundTrip` | script.js:13 | reading back the text written for any integer gives that integer |
| `Decimal.IntToDecimalInjective` | script.js:13 | distinct integers are written as distinct text |
| `Report.Messages` | script.js:11-19 | the first line read back names the state's classification ("Cation", "Anion" or "No Ionic Charge"), and a second line is logged exactly when the atom is an ion, so a neutral atom gets the one line alone |
| `Report.ReportedChargeIsIonicCharge` | script.js:9-16 | the charge read back from the second line is the ionic charge computed from the state for a cation or an anion; nothing is reported for a neutral atom |
| `Report.ReportedChargeSign` | script.js:11-18 | a cation is reported with a strictly positive charge, an anion with a strictly negative one, a neutral atom with none |
| `Report.InitialStateMessages` | script.js:2-16 | for the initial state the console shows exactly "Anion" then "Ionic Charge: -1" |

## Left out

- Console output: the `console.log` calls are modelled as the returned line sequence `Report.Messages`, not as I/O.
- JavaScript number semantics: the counts are unbounded integers (`nat`, `int`), not IEEE-754 doubles.
- `Decimal.IntToDecimal` does not model JavaScript's exponent notation for magnitudes of 10^21 and above ("1e+21"), because atom particle counts never come near that size.
- The implicit global variables `massNumber` and `ionicCharge` are function results here.
- The electron-shell distribution, the nucleon sphere packing, the 3D scene, the GUI and the animation are not part of this model. None of them appears in `script.js`.
