/** The absolute exclusion rules of predict_eligibility: four medical
    conditions, checked in a fixed priority order, each of which alone makes a
    donor ineligible whatever the classifier would say. */
module Exclusion {
  import opened Schema

  datatype Rule = Carrier | SickleCell | Cardiac | LowHemoglobin

  /** Position of a rule in the checking order (1 is checked first). */
  function Priority(rule: Rule): nat {
    match rule
    case Carrier => 1
    case SickleCell => 2
    case Cardiac => 3
    case LowHemoglobin => 4
  }

  /** The haemoglobin test as the code writes it: a conjunction per sex,
      comparing the genre string literally. */
  predicate HemoglobinLow(genre: string, level: real) {
    (genre == "Homme" && level < 13.0) || (genre == "Femme" && level < 12.0)
  }

  /** The minimum haemoglobin level (g/dL) for each sex; no threshold applies
      to any other genre string. */
  function Threshold(genre: string): Option<real> {
    if genre == "Homme" then Some(13.0)
    else if genre == "Femme" then Some(12.0)
    else None
  }

  /** Whether a rule's condition holds of a donor. */
  predicate Fires(rule: Rule, d: DonorInput) {
    match rule
    case Carrier => d.porteurVihHbsHcv
    case SickleCell => d.drepanocytaire
    case Cardiac => d.cardiaque
    case LowHemoglobin => HemoglobinLow(d.genre, d.tauxHemoglobine)
  }

  /** The text a rule puts in the factors and the reason. */
  function Reason(rule: Rule): string {
    match rule
    case Carrier => "Porteur de VIH, hépatite B ou C"
    case SickleCell => "Drépanocytaire"
    case Cardiac => "Problèmes cardiaques"
    case LowHemoglobin => "Taux d'hémoglobine insuffisant"
  }

  /** The fixed confidence of a rule's verdict. */
  function RuleConfidence(rule: Rule): real {
    if rule == LowHemoglobin then 95.0 else 100.0
  }

  /** The chain of early returns: the rule that decides the donor's case,
      which is the first one in priority order whose condition holds. */
  function FirstRule(d: DonorInput): (r: Option<Rule>)
    ensures r.None? ==> forall rule :: !Fires(rule, d)
    ensures r.Some? ==> Fires(r.value, d)
    ensures r.Some? ==> forall q :: Priority(q) < Priority(r.value) ==> !Fires(q, d)
  {
    if d.porteurVihHbsHcv then Some(Carrier)
    else if d.drepanocytaire then Some(SickleCell)
    else if d.cardiaque then Some(Cardiac)
    else if HemoglobinLow(d.genre, d.tauxHemoglobine) then Some(LowHemoglobin)
    else None
  }

  /** The verdict a firing rule returns. */
  function RuleVerdict(rule: Rule): (v: Verdict)
    ensures v.prediction == NotEligible
    ensures v.reason == Some(Reason(rule)) && v.factors == [v.reason.value]
    ensures v.confidence == RuleConfidence(rule)
  {
    Verdict(NotEligible, RuleConfidence(rule), [Reason(rule)], Some(Reason(rule)))
  }

  /** The pre-check: the verdict of the first rule that fires, if any. */
  function PreCheck(d: DonorInput): (v: Option<Verdict>)
    ensures v.None? ==> forall rule :: !Fires(rule, d)
    ensures v.Some? ==> exists rule :: && Fires(rule, d) && v.value == RuleVerdict(rule)
                                      && (forall q :: Priority(q) < Priority(rule) ==> !Fires(q, d))
  {
    match FirstRule(d)
    case Some(rule) => Some(RuleVerdict(rule))
    case None => None
  }

  /** A donor with no absolute contraindication: no carrier, sickle-cell or
      cardiac flag, and a haemoglobin level that meets the sex's threshold. */
  predicate NoContraindication(d: DonorInput) {
    && !d.porteurVihHbsHcv
    && !d.drepanocytaire
    && !d.cardiaque
    && (Threshold(d.genre).Some? ==> d.tauxHemoglobine >= Threshold(d.genre).value)
  }

  /** The code's two-clause test and the threshold table agree. */
  lemma HemoglobinLowMeansBelowThreshold(genre: string, level: real)
    ensures HemoglobinLow(genre, level) <==> Threshold(genre).Some? && level < Threshold(genre).value
  {
    assert "Homme" != "Femme";
  }

  /** The haemoglobin boundaries: a man is excluded iff below 13.0, a woman iff
      below 12.0, and a genre that is neither string is never excluded. */
  lemma HemoglobinBoundaries(genre: string, level: real)
    ensures genre == "Homme" ==> (HemoglobinLow(genre, level) <==> level < 13.0)
    ensures genre == "Femme" ==> (HemoglobinLow(genre, level) <==> level < 12.0)
    ensures genre != "Homme" && genre != "Femme" ==> !HemoglobinLow(genre, level)
  {
    HemoglobinLowMeansBelowThreshold(genre, level);
  }

  /** Exactly the donors with no contraindication pass the pre-check. */
  lemma PreCheckPassesIffNoContraindication(d: DonorInput)
    ensures PreCheck(d).None? <==> NoContraindication(d)
  {
    HemoglobinLowMeansBelowThreshold(d.genre, d.tauxHemoglobine);
    if NoContraindication(d) {
      forall rule ensures !Fires(rule, d) {
      }
    } else {
      if !d.porteurVihHbsHcv && !d.drepanocytaire && !d.cardiaque {
        assert Fires(LowHemoglobin, d);
      }
    }
  }

  /** A carrier of HIV, hepatitis B or C is rejected with confidence 100 and
      that reason alone, whatever the rest of the record says. */
  lemma CarrierOverridesEverything(d: DonorInput)
    requires d.porteurVihHbsHcv
    ensures PreCheck(d) == Some(Verdict(NotEligible, 100.0,
      ["Porteur de VIH, hépatite B ou C"], Some("Porteur de VIH, hépatite B ou C")))
  {
  }

  /** The verdict of the pre-check names one reason, that of the first firing
      rule in priority order; a lower-priority rule that also fires is not
      mentioned. */
  lemma SingleFactorOfHighestPriority(d: DonorInput, rule: Rule, other: Rule)
    requires Fires(rule, d) && Fires(other, d) && Priority(rule) < Priority(other)
    ensures PreCheck(d).Some?
    ensures Reason(other) !in PreCheck(d).value.factors
    ensures |PreCheck(d).value.factors| == 1
  {
    var first := FirstRule(d).value;
    assert Priority(first) <= Priority(rule);
    assert first != other;
    assert PreCheck(d).value.factors == [Reason(first)];
  }

  /** The priority example: a carrier with sickle-cell disease gets the
      carrier's reason. */
  lemma CarrierBeforeSickleCell(d: DonorInput)
    requires d.porteurVihHbsHcv && d.drepanocytaire
    ensures PreCheck(d).Some? && PreCheck(d).value.reason == Some(Reason(Carrier))
  {
  }

  /** Concrete boundary values: 13.0 and 12.0 pass, 12.99 and 11.99 do not. */
  lemma HemoglobinBoundaryExamples()
    ensures !HemoglobinLow("Homme", 13.0) && HemoglobinLow("Homme", 12.99)
    ensures !HemoglobinLow("Femme", 12.0) && HemoglobinLow("Femme", 11.99)
    ensures !HemoglobinLow("Autre", 7.0)
  {
    assert "Homme" != "Femme";
  }

  /** A validated request has a genre with a threshold, so for it the
      haemoglobin rule fires exactly below that threshold. */
  lemma ValidDonorHemoglobinRule(d: DonorInput)
    requires ValidDonor(d)
    ensures Threshold(d.genre).Some?
    ensures Fires(LowHemoglobin, d) <==> d.tauxHemoglobine < Threshold(d.genre).value
  {
    HemoglobinLowMeansBelowThreshold(d.genre, d.tauxHemoglobine);
  }
}
