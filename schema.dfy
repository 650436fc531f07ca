/** The records that flow through the blood-donation eligibility engine of
    main.py: the donor request (DonneurInput), the dictionary values built from
    it, the verdict (PredictionOutput) and the two service errors. */
module Schema {

  datatype Option<+T> = None | Some(value: T)

  /** A value held in one of the engine's Python dictionaries: a string (or a
      str-valued enum member), an int, a float, a bool, or None. */
  datatype Value = Str(s: string) | Int(i: int) | Real(r: real) | Bool(b: bool) | Null

  /** A column map: the request as a dictionary, or the classifier's one-row input. */
  type Features = map<string, Value>

  /** The donor request, one field per attribute of DonneurInput. The optional
      fields carry a default when the request omits them; None stands for an
      explicit null. */
  datatype DonorInput = DonorInput(
    age: int,
    genre: string,
    niveauEtude: Option<string>,
    situationMatrimoniale: Option<string>,
    profession: Option<string>,
    nationalite: Option<string>,
    religion: Option<string>,
    dejaDonne: string,
    arrondissement: Option<string>,
    quartier: Option<string>,
    porteurVihHbsHcv: bool,
    diabetique: bool,
    hypertendu: bool,
    asthmatique: bool,
    drepanocytaire: bool,
    cardiaque: bool,
    tauxHemoglobine: real,
    transfusion: bool,
    tatoue: bool,
    scarifie: bool)

  predicate OptionalIn(o: Option<string>, allowed: set<string>) {
    o.None? || o.value in allowed
  }

  /** What the request validation admits: the age and haemoglobin ranges and
      the enumerated values of the enum-typed fields. */
  predicate ValidDonor(d: DonorInput) {
    && 18 <= d.age <= 70
    && 7.0 <= d.tauxHemoglobine <= 20.0
    && d.genre in {"Homme", "Femme"}
    && d.dejaDonne in {"Oui", "Non"}
    && OptionalIn(d.niveauEtude, {"Non précisé", "Primaire", "Secondaire", "Universitaire"})
    && OptionalIn(d.situationMatrimoniale, {"Non précisé", "Célibataire", "Marié(e)", "Divorcé(e)", "Veuf/Veuve"})
    && OptionalIn(d.religion, {"Non précisé", "Chrétien(ne)", "Musulman(e)", "Autre"})
  }

  function OptStr(o: Option<string>): Value {
    match o
    case Some(s) => Str(s)
    case None => Null
  }

  /** The attribute names of the request. */
  const API_FIELDS: seq<string> := [
    "age", "genre", "niveau_etude", "situation_matrimoniale", "profession", "nationalite",
    "religion", "deja_donne", "arrondissement", "quartier", "taux_hemoglobine",
    "porteur_vih_hbs_hcv", "diabetique", "hypertendu", "asthmatique", "drepanocytaire",
    "cardiaque", "transfusion", "tatoue", "scarifie"
  ]

  /** The nine medical and behavioural flags of a donor, in the order of
      API_FIELDS[11..]. */
  function FlagsOf(d: DonorInput): (flags: seq<bool>)
    ensures |flags| == 9
  {
    [d.porteurVihHbsHcv, d.diabetique, d.hypertendu, d.asthmatique, d.drepanocytaire,
     d.cardiaque, d.transfusion, d.tatoue, d.scarifie]
  }

  /** The value of each attribute, in the order of API_FIELDS. */
  function ApiValues(d: DonorInput): (vs: seq<Value>)
    ensures |vs| == |API_FIELDS|
    ensures forall j :: 0 <= j < 9 ==> vs[11 + j] == Bool(FlagsOf(d)[j])
  {
    var flags := FlagsOf(d);
    [Int(d.age), Str(d.genre), OptStr(d.niveauEtude), OptStr(d.situationMatrimoniale),
     OptStr(d.profession), OptStr(d.nationalite), OptStr(d.religion), Str(d.dejaDonne),
     OptStr(d.arrondissement), OptStr(d.quartier), Real(d.tauxHemoglobine)]
    + seq(9, j requires 0 <= j < 9 => Bool(flags[j]))
  }

  lemma ApiFieldsDistinct()
    ensures forall i, j :: 0 <= i < j < |API_FIELDS| ==> API_FIELDS[i] != API_FIELDS[j]
  {
  }

  /** The request as the dictionary the engine receives: every attribute of
      the record, under its name, with its value. */
  function AsDict(d: DonorInput): (m: Features)
    ensures forall i :: 0 <= i < |API_FIELDS| ==> API_FIELDS[i] in m && m[API_FIELDS[i]] == ApiValues(d)[i]
  {
    ApiFieldsDistinct();
    map i | 0 <= i < |API_FIELDS| :: API_FIELDS[i] := ApiValues(d)[i]
  }

  /** The three attributes the normaliser reads by name to derive columns. */
  lemma DerivedLookups(d: DonorInput)
    ensures "deja_donne" in AsDict(d) && AsDict(d)["deja_donne"] == Str(d.dejaDonne)
    ensures "arrondissement" in AsDict(d) && AsDict(d)["arrondissement"] == OptStr(d.arrondissement)
    ensures "quartier" in AsDict(d) && AsDict(d)["quartier"] == OptStr(d.quartier)
  {
    var m := AsDict(d);
    assert API_FIELDS[7] == "deja_donne" && m[API_FIELDS[7]] == ApiValues(d)[7];
    assert API_FIELDS[8] == "arrondissement" && m[API_FIELDS[8]] == ApiValues(d)[8];
    assert API_FIELDS[9] == "quartier" && m[API_FIELDS[9]] == ApiValues(d)[9];
  }

  /** Python's dict.get(key, default). */
  function Get(m: Features, key: string, default: Value): (v: Value)
    ensures key in m ==> v == m[key]
    ensures key !in m ==> v == default
  {
    if key in m then m[key] else default
  }

  /** Python truthiness of a value. */
  predicate Truthy(v: Value) {
    match v
    case Str(s) => s != ""
    case Int(i) => i != 0
    case Real(r) => r != 0.0
    case Bool(b) => b
    case Null => false
  }

  /** A flag read from the request is truthy exactly when it is True, and
      None, 0 and the empty string are falsy. */
  lemma TruthyValues()
    ensures forall b :: Truthy(Bool(b)) <==> b
    ensures !Truthy(Null) && !Truthy(Int(0)) && !Truthy(Str("")) && Truthy(Int(1))
  {
  }

  /** The two labels of PredictionOutput.prediction. */
  datatype Label = Eligible | NotEligible {
    function Text(): string {
      match this
      case Eligible => "Éligible"
      case NotEligible => "Non éligible"
    }
  }

  /** PredictionOutput: label, confidence in percent, the factors shown to the
      user and the main reason for ineligibility. */
  datatype Verdict = Verdict(prediction: Label, confidence: real, factors: seq<string>, reason: Option<string>)

  /** The two HTTP 500 failures predict_eligibility raises. */
  datatype Error = ModelUnavailable | PredictionFailed

  /** The two labels are told apart by their text, so comparing the text,
      as the post-check does, is comparing the labels. */
  lemma LabelTextInjective()
    ensures forall a: Label, b: Label :: a.Text() == b.Text() ==> a == b
    ensures Eligible.Text() == "Éligible" && NotEligible.Text() == "Non éligible"
  {
    assert "Éligible"[0] != "Non éligible"[0];
  }

  datatype Result<+T> = Ok(value: T) | Err(error: Error)
}
