/** The lines the simulation writes to the console after computing the
    charge, returned as a sequence of strings instead of being printed,
    together with readers that recover the classification and the charge
    from those lines. */
module Report {
  import opened Atom
  import opened Decimal

  const CationLine: string := "Cation"
  const AnionLine: string := "Anion"
  const NeutralLine: string := "No Ionic Charge"
  const ChargePrefix: string := "Ionic Charge: "

  /** The console lines, in order, for the given state: the name of the
      branch taken on the sign of the ionic charge, with the charge appended
      for an ion. */
  function Messages(s: AtomState): (lines: seq<string>)
    ensures ReadClassification(lines) == Some(Classify(s))
    ensures |lines| == 2 <==> Classify(s) != Neutral
    ensures |lines| == 1 <==> Classify(s) == Neutral
  {
    match Classify(s)
    case Cation => [CationLine, ChargePrefix + IntToDecimal(IonicCharge(s))]
    case Anion => [AnionLine, ChargePrefix + IntToDecimal(IonicCharge(s))]
    case Neutral => [NeutralLine]
  }

  /** The classification named by the first console line, if any. */
  function ReadClassification(lines: seq<string>): (c: Option<Classification>)
    ensures c.Some? ==> |lines| >= 1
  {
    if |lines| == 0 then None
    else if lines[0] == CationLine then Some(Cation)
    else if lines[0] == AnionLine then Some(Anion)
    else if lines[0] == NeutralLine then Some(Neutral)
    else None
  }

  /** The charge printed on the second console line, if there is one. */
  function ReportedCharge(lines: seq<string>): (q: Option<int>)
    ensures q.Some? ==> |lines| >= 2
  {
    if |lines| >= 2 && |lines[1]| >= |ChargePrefix| && lines[1][..|ChargePrefix|] == ChargePrefix
    then ParseInt(lines[1][|ChargePrefix|..])
    else None
  }

  /** The charge printed for an ion is the ionic charge itself; nothing is
      printed as a charge for a neutral atom. */
  lemma ReportedChargeIsIonicCharge(s: AtomState)
    ensures ReportedCharge(Messages(s)) ==
            if Classify(s) == Neutral then None else Some(IonicCharge(s))
  {
    var lines := Messages(s);
    var charge := IonicCharge(s);
    if charge != 0 {
      var text := IntToDecimal(charge);
      assert lines[1] == ChargePrefix + text;
      assert lines[1][..|ChargePrefix|] == ChargePrefix;
      assert lines[1][|ChargePrefix|..] == text;
      IntToDecimalRoundTrip(charge);
    }
  }

  /** A cation is reported with a strictly positive charge, an anion with a
      strictly negative one. */
  lemma ReportedChargeSign(s: AtomState)
    ensures Classify(s) == Cation ==>
              ReportedCharge(Messages(s)).Some? && ReportedCharge(Messages(s)).value > 0
    ensures Classify(s) == Anion ==>
              ReportedCharge(Messages(s)).Some? && ReportedCharge(Messages(s)).value < 0
    ensures Classify(s) == Neutral ==> ReportedCharge(Messages(s)).None?
  {
    ReportedChargeIsIonicCharge(s);
  }

  /** For the initial state the console shows an anion of charge -1. */
  lemma InitialStateMessages()
    ensures Messages(InitialState) == ["Anion", "Ionic Charge: -1"]
  {
    assert DigitChar(1) == '1';
    assert IntToDecimal(-1) == "-1";
    assert IonicCharge(InitialState) == -1;
    assert ChargePrefix + "-1" == "Ionic Charge: -1";
  }
}
