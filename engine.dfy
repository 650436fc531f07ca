/** The decision engine predict_eligibility: ensure the model is there, run
    the absolute exclusion rules, normalise the request, ask the classifier,
    collect the comorbidity factors of a negative answer, and re-check the
    exclusion rules against a positive one. */
module Engine {
  import opened Schema
  import opened Exclusion
  import opened Normalizer

  /** What the classifier does with a one-row input: predict a class with
      the probabilities of class 0 (not eligible) and class 1 (eligible), or
      raise. */
  datatype Prediction = Predicted(cls: int, pNotEligible: real, pEligible: real) | Raised

  /** Rank of a comorbidity factor in the order the engine appends them. */
  function FactorRank(f: string): nat {
    if f == "Diabète" then 0
    else if f == "Hypertension" then 1
    else if f == "Asthme" then 2
    else 3
  }

  /** The comorbidities a negative model answer reports: diabetes,
      hypertension and asthma, each exactly when its flag is set, in that
      order. */
  function ModelFactors(d: DonorInput): (fs: seq<string>)
    ensures "Diabète" in fs <==> d.diabetique
    ensures "Hypertension" in fs <==> d.hypertendu
    ensures "Asthme" in fs <==> d.asthmatique
    ensures |fs| <= 3 && forall i :: 0 <= i < |fs| ==> FactorRank(fs[i]) < 3
    ensures forall i, j :: 0 <= i < j < |fs| ==> FactorRank(fs[i]) < FactorRank(fs[j])
  {
    (if d.diabetique then ["Diabète"] else [])
    + (if d.hypertendu then ["Hypertension"] else [])
    + (if d.asthmatique then ["Asthme"] else [])
  }

  /** The main reason drawn from a list of factors: its first element, if any. */
  function FirstOf(fs: seq<string>): (r: Option<string>)
    ensures r.None? <==> fs == []
    ensures r.Some? ==> r.value == fs[0]
  {
    if fs == [] then None else Some(fs[0])
  }

  /** The main reason of a negative model answer follows the comorbidities
      in order of precedence: diabetes, then hypertension, then asthma. */
  lemma ModelReasonPrecedence(d: DonorInput)
    ensures FirstOf(ModelFactors(d)) == Some("Diabète") <==> d.diabetique
    ensures FirstOf(ModelFactors(d)) == Some("Hypertension") <==> !d.diabetique && d.hypertendu
    ensures FirstOf(ModelFactors(d)) == Some("Asthme") <==> !d.diabetique && !d.hypertendu && d.asthmatique
    ensures FirstOf(ModelFactors(d)) == None <==> !d.diabetique && !d.hypertendu && !d.asthmatique
  {
    var fs := ModelFactors(d);
    assert FactorRank("Diabète") == 0 && FactorRank("Hypertension") == 1 && FactorRank("Asthme") == 2;
    if d.diabetique {
      assert fs[0] == "Diabète";
    } else if d.hypertendu {
      assert fs[0] == "Hypertension";
    } else if d.asthmatique {
      assert fs == ["Asthme"];
    } else {
      assert fs == [];
    }
  }

  /** The factor collection of a negative model answer: diabetes,
      hypertension and asthma are appended in that order when their flag is
      set, and the first one collected becomes the main reason. */
  method CollectFactors(d: DonorInput) returns (factors: seq<string>, reason: Option<string>)
    ensures factors == ModelFactors(d)
    ensures reason == FirstOf(factors)
  {
    factors := [];
    reason := None;
    if d.diabetique {
      factors := factors + ["Diabète"];
    }
    assert factors == if d.diabetique then ["Diabète"] else [];
    if d.hypertendu {
      factors := factors + ["Hypertension"];
    }
    if d.asthmatique {
      factors := factors + ["Asthme"];
    }
    if factors != [] {
      reason := Some(factors[0]);
    }
  }

  /** The final safety check of a positive model answer: the exclusion
      rules, in the priority order of the pre-check, replace the verdict by
      the first firing rule's own; when none fires the verdict stands. */
  method SafetyOverride(d: DonorInput, v: Verdict) returns (w: Verdict)
    ensures FirstRule(d).Some? ==> w == RuleVerdict(FirstRule(d).value)
    ensures FirstRule(d).None? ==> w == v
  {
    w := v;
    if d.porteurVihHbsHcv {
      w := Verdict(NotEligible, 100.0, ["Porteur de VIH, hépatite B ou C"], Some("Porteur de VIH, hépatite B ou C"));
    } else if d.drepanocytaire || d.cardiaque {
      if d.drepanocytaire {
        w := Verdict(NotEligible, 100.0, ["Drépanocytaire"], Some("Drépanocytaire"));
      } else {
        w := Verdict(NotEligible, 100.0, ["Problèmes cardiaques"], Some("Problèmes cardiaques"));
      }
    } else if HemoglobinLow(d.genre, d.tauxHemoglobine) {
      w := Verdict(NotEligible, 95.0, ["Taux d'hémoglobine insuffisant"], Some("Taux d'hémoglobine insuffisant"));
    }
  }

  /** The verdict drawn from the classifier's answer: class 1 is "eligible"
      with the probability of class 1 as confidence, any other class is "not
      eligible" with the probability of class 0 and the comorbidity factors,
      and a positive answer is then put through the safety override. The
      request dictionary always holds the flags, genre and haemoglobin level
      of the record, so the lookups of the source read the record's fields
      here. */
  method Interpret(d: DonorInput, p: Prediction) returns (r: Result<Verdict>)
    ensures p.Raised? ==> r == Err(PredictionFailed)
    ensures p.Predicted? && p.cls != 1 ==>
      r == Ok(Verdict(NotEligible, p.pNotEligible * 100.0, ModelFactors(d), FirstOf(ModelFactors(d))))
    ensures p.Predicted? && p.cls == 1 && FirstRule(d).Some? ==> r == Ok(RuleVerdict(FirstRule(d).value))
    ensures p.Predicted? && p.cls == 1 && FirstRule(d).None? ==> r == Ok(Verdict(Eligible, p.pEligible * 100.0, [], None))
    ensures r.Ok? && r.value.prediction == Eligible ==> NoContraindication(d)
  {
    if p.Raised? {
      r := Err(PredictionFailed);
      return;
    }
    var v: Verdict;
    if p.cls == 1 {
      v := Verdict(Eligible, p.pEligible * 100.0, [], None);
    } else {
      var factors, reason := CollectFactors(d);
      v := Verdict(NotEligible, p.pNotEligible * 100.0, factors, reason);
    }
    if v.prediction == Eligible {
      v := SafetyOverride(d, v);
    }
    r := Ok(v);
    if v.prediction == Eligible {
      PreCheckPassesIffNoContraindication(d);
    }
  }

  /** The classifier stage: normalise the request, ask the classifier and
      interpret its answer. `fed` is the input the classifier receives. */
  method Classify(d: DonorInput, required: Option<seq<string>>, clf: Features -> Prediction)
    returns (r: Result<Verdict>, fed: Features)
    ensures IsNormalized(d, required, fed)
    ensures clf(fed).Raised? ==> r == Err(PredictionFailed)
    ensures clf(fed).Predicted? && clf(fed).cls != 1 ==>
      r == Ok(Verdict(NotEligible, clf(fed).pNotEligible * 100.0, ModelFactors(d), FirstOf(ModelFactors(d))))
    ensures clf(fed).Predicted? && clf(fed).cls == 1 && FirstRule(d).Some? ==>
      r == Ok(RuleVerdict(FirstRule(d).value))
    ensures clf(fed).Predicted? && clf(fed).cls == 1 && FirstRule(d).None? ==>
      r == Ok(Verdict(Eligible, clf(fed).pEligible * 100.0, [], None))
    ensures r.Ok? && r.value.prediction == Eligible ==> NoContraindication(d)
  {
    fed := Normalize(d, required);
    r := Interpret(d, clf(fed));
  }

  /** predict_eligibility as written. `modelLoaded` says whether a model is
      loaded or load_model succeeds; `required` is the declared schema.
      `fed` is the input handed to the classifier, None when it is not
      called. */
  method PredictEligibility(d: DonorInput, modelLoaded: bool, required: Option<seq<string>>, clf: Features -> Prediction)
    returns (r: Result<Verdict>, fed: Option<Features>)
    ensures !modelLoaded ==> r == Err(ModelUnavailable) && fed.None?
    ensures modelLoaded && FirstRule(d).Some? ==> r == Ok(RuleVerdict(FirstRule(d).value)) && fed.None?
    ensures modelLoaded && FirstRule(d).None? ==> fed.Some? && IsNormalized(d, required, fed.value)
    ensures modelLoaded && FirstRule(d).None? && clf(fed.value).Raised? ==> r == Err(PredictionFailed)
    ensures modelLoaded && FirstRule(d).None? && clf(fed.value).Predicted? && clf(fed.value).cls == 1 ==>
      r == Ok(Verdict(Eligible, clf(fed.value).pEligible * 100.0, [], None))
    ensures modelLoaded && FirstRule(d).None? && clf(fed.value).Predicted? && clf(fed.value).cls != 1 ==>
      r == Ok(Verdict(NotEligible, clf(fed.value).pNotEligible * 100.0, ModelFactors(d), FirstOf(ModelFactors(d))))
    ensures r.Ok? && r.value.prediction == Eligible ==> NoContraindication(d) && r.value.factors == [] && r.value.reason.None?
  {
    if !modelLoaded {
      r, fed := Err(ModelUnavailable), None;
      return;
    }
    var pre := PreCheck(d);
    if pre.Some? {
      r, fed := Ok(pre.value), None;
      return;
    }
    var vector;
    r, vector := Classify(d, required, clf);
    fed := Some(vector);
  }

  /** predict_eligibility with the exclusion rules run before the model
      check, so that a rule's verdict never depends on the model. */
  method PredictEligibilityRulesFirst(d: DonorInput, modelLoaded: bool, required: Option<seq<string>>, clf: Features -> Prediction)
    returns (r: Result<Verdict>, fed: Option<Features>)
    ensures FirstRule(d).Some? ==> r == Ok(RuleVerdict(FirstRule(d).value)) && fed.None?
    ensures FirstRule(d).None? && !modelLoaded ==> r == Err(ModelUnavailable) && fed.None?
    ensures FirstRule(d).None? && modelLoaded ==> fed.Some? && IsNormalized(d, required, fed.value)
    ensures FirstRule(d).None? && modelLoaded && clf(fed.value).Raised? ==> r == Err(PredictionFailed)
    ensures FirstRule(d).None? && modelLoaded && clf(fed.value).Predicted? && clf(fed.value).cls == 1 ==>
      r == Ok(Verdict(Eligible, clf(fed.value).pEligible * 100.0, [], None))
    ensures FirstRule(d).None? && modelLoaded && clf(fed.value).Predicted? && clf(fed.value).cls != 1 ==>
      r == Ok(Verdict(NotEligible, clf(fed.value).pNotEligible * 100.0, ModelFactors(d), FirstOf(ModelFactors(d))))
    ensures r.Ok? && r.value.prediction == Eligible ==> NoContraindication(d) && r.value.factors == [] && r.value.reason.None?
    ensures r == Err(ModelUnavailable) <==> !modelLoaded && NoContraindication(d)
  {
    PreCheckPassesIffNoContraindication(d);
    var pre := PreCheck(d);
    if pre.Some? {
      r, fed := Ok(pre.value), None;
      return;
    }
    if !modelLoaded {
      r, fed := Err(ModelUnavailable), None;
      return;
    }
    var vector;
    r, vector := Classify(d, required, clf);
    fed := Some(vector);
  }

  /** A donor who carries HIV, hepatitis B or C, with every other field ordinary. */
  function CarrierDonor(): (d: DonorInput)
    ensures d.porteurVihHbsHcv && ValidDonor(d)
  {
    DonorInput(30, "Homme", Some("Secondaire"), Some("Célibataire"), None, None, Some("Autre"), "Non",
      None, None, true, false, false, false, false, false, 14.5, false, false, false)
  }

  /** The carrier is refused by rule in the corrected order, but the code as
      written answers "model unavailable" to the same request when no model
      can be loaded. */
  method LoadOrderCounterexample(clf: Features -> Prediction)
    returns (asWritten: Result<Verdict>, rulesFirst: Result<Verdict>)
    ensures asWritten == Err(ModelUnavailable)
    ensures rulesFirst == Ok(Verdict(NotEligible, 100.0,
      ["Porteur de VIH, hépatite B ou C"], Some("Porteur de VIH, hépatite B ou C")))
  {
    var d := CarrierDonor();
    var fed;
    asWritten, fed := PredictEligibility(d, false, Some(DEFAULT_REQUIRED_COLUMNS), clf);
    rulesFirst, fed := PredictEligibilityRulesFirst(d, false, Some(DEFAULT_REQUIRED_COLUMNS), clf);
  }

  /** Two calls with the same request, model state and classifier give the
      same verdict and feed the classifier the same input. */
  method DecideTwice(d: DonorInput, modelLoaded: bool, required: Option<seq<string>>, clf: Features -> Prediction)
    returns (first: Result<Verdict>, second: Result<Verdict>, fed1: Option<Features>, fed2: Option<Features>)
    ensures first == second && fed1 == fed2
  {
    first, fed1 := PredictEligibility(d, modelLoaded, required, clf);
    second, fed2 := PredictEligibility(d, modelLoaded, required, clf);
    if fed1.Some? {
      NormalizedUnique(d, required, fed1.value, fed2.value);
    }
  }

  /** A man of 35 with no medical flag, haemoglobin 14.5, who has given before. */
  function CleanDonor(): (d: DonorInput)
    ensures ValidDonor(d) && NoContraindication(d)
  {
    DonorInput(35, "Homme", None, None, None, None, None, "Oui",
      None, None, false, false, false, false, false, false, 14.5, false, false, false)
  }

  /** With a model loaded, the clean donor passes the pre-check, the
      classifier sees experience_don = 1 and groupe_age = "26-35", and the
      verdict is the model's own, with no override. */
  method CleanDonorScenario(clf: Features -> Prediction) returns (r: Result<Verdict>, fed: Option<Features>)
    ensures fed.Some? && "experience_don" in fed.value && "groupe_age" in fed.value
    ensures fed.value["experience_don"] == Int(1) && fed.value["groupe_age"] == Str("26-35")
    ensures clf(fed.value).Predicted? && clf(fed.value).cls == 1 ==>
      r == Ok(Verdict(Eligible, clf(fed.value).pEligible * 100.0, [], None))
    ensures clf(fed.value).Predicted? && clf(fed.value).cls != 1 ==>
      r == Ok(Verdict(NotEligible, clf(fed.value).pNotEligible * 100.0, [], None))
  {
    var d := CleanDonor();
    PreCheckPassesIffNoContraindication(d);
    r, fed := PredictEligibility(d, true, Some(DEFAULT_REQUIRED_COLUMNS), clf);
    NormalizedDerived(d, Some(DEFAULT_REQUIRED_COLUMNS), fed.value);
  }

  /** With a model loaded, the same donor with a heart condition is refused
      by rule with confidence 100, and the classifier is not called. */
  method CardiacScenario(clf: Features -> Prediction) returns (r: Result<Verdict>, fed: Option<Features>)
    ensures r == Ok(Verdict(NotEligible, 100.0, ["Problèmes cardiaques"], Some("Problèmes cardiaques")))
    ensures fed.None?
  {
    var d := CleanDonor().(cardiaque := true);
    r, fed := PredictEligibility(d, true, Some(DEFAULT_REQUIRED_COLUMNS), clf);
  }

  /** In the corrected order the cardiac donor gets the same refusal whether
      or not a model is available. */
  method CardiacScenarioRulesFirst(modelLoaded: bool, clf: Features -> Prediction) returns (r: Result<Verdict>, fed: Option<Features>)
    ensures r == Ok(Verdict(NotEligible, 100.0, ["Problèmes cardiaques"], Some("Problèmes cardiaques")))
    ensures fed.None?
  {
    var d := CleanDonor().(cardiaque := true);
    r, fed := PredictEligibilityRulesFirst(d, modelLoaded, Some(DEFAULT_REQUIRED_COLUMNS), clf);
  }

  /** The clean donor with no loadable model gets "model unavailable". */
  method UnavailableScenario(clf: Features -> Prediction) returns (r: Result<Verdict>, fed: Option<Features>)
    ensures r == Err(ModelUnavailable) && fed.None?
  {
    var d := CleanDonor();
    r, fed := PredictEligibility(d, false, Some(DEFAULT_REQUIRED_COLUMNS), clf);
  }
}
