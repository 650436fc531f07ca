/** The feature normaliser of predict_eligibility: it turns the request
    dictionary into the one-row input of the classifier. It renames eleven
    fields, derives the donation experience, the cleaned location and the age
    bracket, encodes nine flags as 0/1 and, when the loaded model declares its
    columns, fills every declared column that is still missing. */
module Normalizer {
  import opened Schema

  /** Request attribute and classifier column, in the order of the mapping. */
  const FEATURE_MAPPING: seq<(string, string)> := [
    ("age", "age"),
    ("genre", "Genre"),
    ("niveau_etude", "Niveau d'etude"),
    ("situation_matrimoniale", "Situation Matrimoniale (SM)"),
    ("profession", "Profession"),
    ("nationalite", "Nationalité"),
    ("religion", "Religion"),
    ("deja_donne", "A-t-il (elle) déjà donné le sang"),
    ("arrondissement", "Arrondissement de résidence"),
    ("quartier", "Quartier de Résidence"),
    ("taux_hemoglobine", "Taux d'hémoglobine")
  ]

  /** The nine medical and behavioural flags, copied under their own names. */
  const FLAG_FIELDS: seq<string> := [
    "porteur_vih_hbs_hcv", "diabetique", "hypertendu", "asthmatique",
    "drepanocytaire", "cardiaque", "transfusion", "tatoue", "scarifie"
  ]

  /** The columns a gap is filled with "" rather than 0. */
  const CATEGORICAL_COLUMNS: seq<string> := [
    "Niveau d'etude", "Genre", "Situation Matrimoniale (SM)", "Profession",
    "Arrondissement de résidence", "Quartier de Résidence", "Nationalité", "Religion",
    "A-t-il (elle) déjà donné le sang", "groupe_age", "arrondissement_clean", "quartier_clean"
  ]

  /** The fixed schema the model loader falls back to when no metadata file exists. */
  const DEFAULT_REQUIRED_COLUMNS: seq<string> := [
    "age", "experience_don", "Niveau d'etude", "Genre", "Situation Matrimoniale (SM)",
    "Profession", "Arrondissement de résidence", "Quartier de Résidence", "Nationalité",
    "Religion", "A-t-il (elle) déjà donné le sang", "Taux d'hémoglobine", "groupe_age",
    "arrondissement_clean", "quartier_clean"
  ]

  /** Every column the normaliser writes before the gap fill, in writing
      order: the eleven renamed fields, the four derived ones, the nine flags. */
  const BASE_COLUMNS: seq<string> := [
    "age", "Genre", "Niveau d'etude", "Situation Matrimoniale (SM)", "Profession",
    "Nationalité", "Religion", "A-t-il (elle) déjà donné le sang",
    "Arrondissement de résidence", "Quartier de Résidence", "Taux d'hémoglobine",
    "experience_don", "arrondissement_clean", "quartier_clean", "groupe_age",
    "porteur_vih_hbs_hcv", "diabetique", "hypertendu", "asthmatique",
    "drepanocytaire", "cardiaque", "transfusion", "tatoue", "scarifie"
  ]

  /** The mapping renames API_FIELDS[i] to BASE_COLUMNS[i], and the flags
      are API_FIELDS[11..] under the same names, which are BASE_COLUMNS[15..]. */
  lemma ColumnLayout()
    ensures |FEATURE_MAPPING| == 11 && |FLAG_FIELDS| == 9 && |BASE_COLUMNS| == 24
    ensures forall i :: 0 <= i < 11 ==> FEATURE_MAPPING[i].0 == API_FIELDS[i] && FEATURE_MAPPING[i].1 == BASE_COLUMNS[i]
    ensures forall j :: 0 <= j < 9 ==> FLAG_FIELDS[j] == API_FIELDS[11 + j] && FLAG_FIELDS[j] == BASE_COLUMNS[15 + j]
  {
  }

  /** No base column repeats, so no step overwrites another step's column. */
  lemma BaseColumnsDistinct()
    ensures forall i, j :: 0 <= i < j < |BASE_COLUMNS| ==> BASE_COLUMNS[i] != BASE_COLUMNS[j]
  {
  }

  /** No two attributes are renamed to the same column. */
  lemma MappedColumnsDistinct()
    ensures forall i, j :: 0 <= i < j < |FEATURE_MAPPING| ==> FEATURE_MAPPING[i].1 != FEATURE_MAPPING[j].1
  {
  }

  function BaseColumnSet(): set<string> {
    set c | c in BASE_COLUMNS
  }

  // ---------------------------------------------------------------- age bracket

  /** The seven age-bracket labels, youngest first. */
  const AGE_GROUPS: seq<string> := ["<18", "18-25", "26-35", "36-45", "46-55", "56-65", ">65"]

  /** The bracket bounds, as a reference independent of the if/elif cascade. */
  predicate InBracket(bracket: string, age: int) {
    if bracket == "<18" then age < 18
    else if bracket == "18-25" then 18 <= age <= 25
    else if bracket == "26-35" then 26 <= age <= 35
    else if bracket == "36-45" then 36 <= age <= 45
    else if bracket == "46-55" then 46 <= age <= 55
    else if bracket == "56-65" then 56 <= age <= 65
    else if bracket == ">65" then 65 < age
    else false
  }

  /** The if/elif cascade: every age falls in exactly one labelled bracket. */
  function AgeGroup(age: int): (g: string)
    ensures g in AGE_GROUPS
    ensures InBracket(g, age)
  {
    if age < 18 then "<18"
    else if age <= 25 then "18-25"
    else if age <= 35 then "26-35"
    else if age <= 45 then "36-45"
    else if age <= 55 then "46-55"
    else if age <= 65 then "56-65"
    else ">65"
  }

  /** Index of a bracket label among AGE_GROUPS. */
  function Rank(bracket: string): nat
    requires bracket in AGE_GROUPS
  {
    if bracket == "<18" then 0
    else if bracket == "18-25" then 1
    else if bracket == "26-35" then 2
    else if bracket == "36-45" then 3
    else if bracket == "46-55" then 4
    else if bracket == "56-65" then 5
    else 6
  }

  /** The brackets do not overlap: the label an age belongs to is AgeGroup's. */
  lemma AgeGroupIsTheOnlyBracket(bracket: string, age: int)
    requires bracket in AGE_GROUPS && InBracket(bracket, age)
    ensures bracket == AgeGroup(age)
  {
    var i :| 0 <= i < |AGE_GROUPS| && AGE_GROUPS[i] == bracket;
    assert i == 0 || i == 1 || i == 2 || i == 3 || i == 4 || i == 5 || i == 6;
  }

  /** An older donor never falls in a younger bracket. */
  lemma AgeGroupMonotone(age: int, older: int)
    requires age <= older
    ensures Rank(AgeGroup(age)) <= Rank(AgeGroup(older))
  {
  }

  /** Within the request's 18-70 range the "<18" bracket is never produced. */
  lemma ValidAgeIsAdult(age: int)
    requires 18 <= age <= 70
    ensures AgeGroup(age) != "<18"
  {
  }

  lemma AgeGroupExamples()
    ensures AgeGroup(35) == "26-35" && AgeGroup(18) == "18-25" && AgeGroup(26) == "26-35"
    ensures AgeGroup(65) == "56-65" && AgeGroup(66) == ">65" && AgeGroup(17) == "<18"
  {
  }

  // ---------------------------------------------------------------- encodings

  function EncodeFlag(b: bool): (v: Value)
    ensures v.Int? && (v.i == 1 <==> b) && (v.i == 0 <==> !b)
  {
    Int(if b then 1 else 0)
  }

  /** What a gap in a declared column is filled with. */
  function FillValue(col: string): (v: Value)
    ensures col in CATEGORICAL_COLUMNS ==> v == Str("")
    ensures col !in CATEGORICAL_COLUMNS ==> v == Int(0)
  {
    if col in CATEGORICAL_COLUMNS then Str("") else Int(0)
  }

  /** `if required_columns:` -- None and the empty list both switch the fill off. */
  predicate FillActive(required: Option<seq<string>>) {
    required.Some? && |required.value| > 0
  }

  /** The columns the fill must guarantee. */
  function RequiredSet(required: Option<seq<string>>): (s: set<string>)
    ensures FillActive(required) ==> forall c :: c in required.value ==> c in s
    ensures !FillActive(required) ==> s == {}
  {
    if FillActive(required) then set c | c in required.value else {}
  }

  // ---------------------------------------------------------------- the steps

  /** The renaming loop: each attribute of the table present in the request
      is copied under its column, and nothing else is written. The engine
      runs it over FEATURE_MAPPING, whose columns are distinct. */
  method MapFields(input: Features, table: seq<(string, string)>) returns (nd: Features)
    requires forall i, j :: 0 <= i < j < |table| ==> table[i].1 != table[j].1
    ensures forall i :: 0 <= i < |table| ==> (table[i].1 in nd <==> table[i].0 in input)
    ensures forall i :: 0 <= i < |table| && table[i].0 in input ==> nd[table[i].1] == input[table[i].0]
    ensures forall c :: c in nd ==> exists i :: 0 <= i < |table| && c == table[i].1
  {
    nd := map[];
    var i := 0;
    while i < |table|
      invariant 0 <= i <= |table|
      invariant forall j :: 0 <= j < i ==> (table[j].1 in nd <==> table[j].0 in input)
      invariant forall j :: 0 <= j < i && table[j].0 in input ==> nd[table[j].1] == input[table[j].0]
      invariant forall c :: c in nd ==> exists j :: 0 <= j < i && c == table[j].1
    {
      var (apiField, column) := table[i];
      if apiField in input {
        nd := nd[column := input[apiField]];
      }
      i := i + 1;
    }
  }

  /** The flag loop: each listed flag becomes 1 if the request's value is
      truthy (an absent flag counts as False) and 0 otherwise; other columns
      keep their values. The engine runs it over FLAG_FIELDS. */
  method EncodeFlags(input: Features, nd0: Features, flags: seq<string>) returns (nd: Features)
    ensures nd.Keys == nd0.Keys + set j | 0 <= j < |flags| :: flags[j]
    ensures forall j :: 0 <= j < |flags| ==>
      nd[flags[j]] == EncodeFlag(Truthy(Get(input, flags[j], Bool(false))))
    ensures forall c :: c in nd0 && c !in flags ==> nd[c] == nd0[c]
  {
    nd := nd0;
    var i := 0;
    while i < |flags|
      invariant 0 <= i <= |flags|
      invariant nd.Keys == nd0.Keys + set j | 0 <= j < i :: flags[j]
      invariant forall j :: 0 <= j < i ==>
        nd[flags[j]] == EncodeFlag(Truthy(Get(input, flags[j], Bool(false))))
      invariant forall c :: c in nd0 && c !in flags ==> nd[c] == nd0[c]
    {
      var condition := flags[i];
      nd := nd[condition := EncodeFlag(Truthy(Get(input, condition, Bool(false))))];
      i := i + 1;
    }
  }

  /** The gap fill: every column the model declares that is not yet present
      is added with its fill value; present columns keep their values and no
      column is removed. */
  method FillMissing(nd0: Features, required: Option<seq<string>>) returns (nd: Features)
    ensures nd.Keys == nd0.Keys + RequiredSet(required)
    ensures forall c :: c in nd0 ==> nd[c] == nd0[c]
    ensures forall c :: c in nd && c !in nd0 ==> nd[c] == FillValue(c)
  {
    nd := nd0;
    if FillActive(required) {
      var missing := (set c | c in required.value) - nd0.Keys;
      while missing != {}
        invariant missing <= RequiredSet(required) - nd0.Keys
        invariant nd.Keys == nd0.Keys + (RequiredSet(required) - nd0.Keys - missing)
        invariant forall c :: c in nd0 ==> nd[c] == nd0[c]
        invariant forall c :: c in nd && c !in nd0 ==> nd[c] == FillValue(c)
        decreases missing
      {
        var column :| column in missing;
        nd := nd[column := FillValue(column)];
        missing := missing - {column};
      }
    }
  }

  // ---------------------------------------------------------------- the whole normaliser

  /** The value each base column must hold for a donor, in the order of
      BASE_COLUMNS: the request's own value for the eleven renamed columns,
      then the four derived values, then the nine flags as 0/1. */
  function BaseValues(d: DonorInput): (vs: seq<Value>)
    ensures |vs| == |BASE_COLUMNS|
    ensures forall i :: 0 <= i < 11 ==> vs[i] == ApiValues(d)[i]
    ensures vs[11] == EncodeFlag(d.dejaDonne == "Oui") && vs[14] == Str(AgeGroup(d.age))
    ensures vs[12] == OptStr(d.arrondissement) && vs[13] == OptStr(d.quartier)
    ensures forall j :: 0 <= j < 9 ==> vs[15 + j] == EncodeFlag(FlagsOf(d)[j])
  {
    var flags := FlagsOf(d);
    ApiValues(d)[..11]
    + [EncodeFlag(d.dejaDonne == "Oui"), OptStr(d.arrondissement), OptStr(d.quartier), Str(AgeGroup(d.age))]
    + seq(9, j requires 0 <= j < 9 => EncodeFlag(flags[j]))
  }

  /** The classifier input a donor's request must produce: the base columns
      with the values the record dictates, plus the declared columns the
      fill adds with their fill values, and nothing else. */
  ghost predicate IsNormalized(d: DonorInput, required: Option<seq<string>>, nd: Features) {
    && (forall i :: 0 <= i < |BASE_COLUMNS| ==> BASE_COLUMNS[i] in nd && nd[BASE_COLUMNS[i]] == BaseValues(d)[i])
    && (forall c :: c in RequiredSet(required) ==> c in nd)
    && (forall c :: c in nd ==> c in BaseColumnSet() || (c in RequiredSet(required) && nd[c] == FillValue(c)))
  }

  /** The first k base columns, and only those, hold their values. */
  ghost predicate HoldsPrefix(nd: Features, k: nat, cols: seq<string>, vals: seq<Value>)
    requires k <= |cols| == |vals|
  {
    && nd.Keys == (set i | 0 <= i < k :: cols[i])
    && forall i :: 0 <= i < k ==> nd[cols[i]] == vals[i]
  }

  /** Writing the next column's value extends the prefix by one. */
  lemma ExtendPrefix(nd: Features, k: nat, cols: seq<string>, vals: seq<Value>)
    requires k < |cols| == |vals|
    requires forall i :: 0 <= i < k ==> cols[i] != cols[k]
    requires HoldsPrefix(nd, k, cols, vals)
    ensures HoldsPrefix(nd[cols[k] := vals[k]], k + 1, cols, vals)
  {
    var nd' := nd[cols[k] := vals[k]];
    assert (set i | 0 <= i < k + 1 :: cols[i]) == (set i | 0 <= i < k :: cols[i]) + {cols[k]};
  }

  /** After the renaming loop on a full request the first eleven base columns hold their values. */
  lemma RenamedPrefix(d: DonorInput, renamed: Features)
    requires forall i :: 0 <= i < |FEATURE_MAPPING| ==>
      (FEATURE_MAPPING[i].1 in renamed <==> FEATURE_MAPPING[i].0 in AsDict(d))
    requires forall i :: 0 <= i < |FEATURE_MAPPING| && FEATURE_MAPPING[i].0 in AsDict(d) ==>
      renamed[FEATURE_MAPPING[i].1] == AsDict(d)[FEATURE_MAPPING[i].0]
    requires forall c :: c in renamed ==> exists i :: 0 <= i < |FEATURE_MAPPING| && c == FEATURE_MAPPING[i].1
    ensures HoldsPrefix(renamed, 11, BASE_COLUMNS, BaseValues(d))
  {
    ColumnLayout();
    var input := AsDict(d);
    PrefixFromTable(renamed, FEATURE_MAPPING, input, BASE_COLUMNS, BaseValues(d));
  }

  /** A map written from a table of (source, column) pairs, all of whose
      sources are present, holds the first |table| columns. */
  lemma PrefixFromTable(nd: Features, table: seq<(string, string)>, input: Features, cols: seq<string>, vals: seq<Value>)
    requires |table| <= |cols| == |vals|
    requires forall i :: 0 <= i < |table| ==> table[i].1 == cols[i]
    requires forall i :: 0 <= i < |table| ==> table[i].0 in input && input[table[i].0] == vals[i]
    requires forall i :: 0 <= i < |table| ==> (table[i].1 in nd <==> table[i].0 in input)
    requires forall i :: 0 <= i < |table| && table[i].0 in input ==> nd[table[i].1] == input[table[i].0]
    requires forall c :: c in nd ==> exists i :: 0 <= i < |table| && c == table[i].1
    ensures HoldsPrefix(nd, |table|, cols, vals)
  {
    forall c | c in nd ensures exists i :: 0 <= i < |table| && c == cols[i] {
      var i :| 0 <= i < |table| && c == table[i].1;
    }
  }

  /** The donation experience is base column 11. */
  lemma DerivedExperience(d: DonorInput)
    ensures BASE_COLUMNS[11] == "experience_don" && BaseValues(d)[11] == EncodeFlag(Get(AsDict(d), "deja_donne", Null) == Str("Oui"))
  {
    DerivedLookups(d);
  }

  /** The age bracket is base column 14. */
  lemma DerivedAge(d: DonorInput)
    ensures BASE_COLUMNS[14] == "groupe_age" && BaseValues(d)[14] == Str(AgeGroup(d.age))
  {
    var vs := BaseValues(d);
  }

  /** The cleaned district is base column 12, copied verbatim. */
  lemma DerivedDistrict(d: DonorInput)
    ensures BASE_COLUMNS[12] == "arrondissement_clean" && BaseValues(d)[12] == Get(AsDict(d), "arrondissement", Str("Non précisé"))
  {
    DerivedLookups(d);
  }

  /** The cleaned neighbourhood is base column 13, copied verbatim. */
  lemma DerivedNeighbourhood(d: DonorInput)
    ensures BASE_COLUMNS[13] == "quartier_clean" && BaseValues(d)[13] == Get(AsDict(d), "quartier", Str("Non précisé"))
  {
    DerivedLookups(d);
  }

  /** Each flag, read from the request dictionary and encoded, is the value
      of its base column. */
  lemma FlagColumns(d: DonorInput)
    ensures forall j :: 0 <= j < |FLAG_FIELDS| ==>
      EncodeFlag(Truthy(Get(AsDict(d), FLAG_FIELDS[j], Bool(false)))) == BaseValues(d)[15 + j]
  {
    ColumnLayout();
    var input := AsDict(d);
    forall j | 0 <= j < 9
      ensures EncodeFlag(Truthy(Get(input, FLAG_FIELDS[j], Bool(false)))) == BaseValues(d)[15 + j]
    {
      assert Get(input, API_FIELDS[11 + j], Bool(false)) == Bool(FlagsOf(d)[j]);
    }
  }

  /** The flag loop over FLAG_FIELDS completes the base columns. */
  lemma FlagsComplete(d: DonorInput, nd0: Features, nd: Features)
    requires HoldsPrefix(nd0, 15, BASE_COLUMNS, BaseValues(d))
    requires nd.Keys == nd0.Keys + set j | 0 <= j < |FLAG_FIELDS| :: FLAG_FIELDS[j]
    requires forall j :: 0 <= j < |FLAG_FIELDS| ==>
      nd[FLAG_FIELDS[j]] == EncodeFlag(Truthy(Get(AsDict(d), FLAG_FIELDS[j], Bool(false))))
    requires forall c :: c in nd0 && c !in FLAG_FIELDS ==> nd[c] == nd0[c]
    ensures HoldsPrefix(nd, 24, BASE_COLUMNS, BaseValues(d))
  {
    ColumnLayout();
    BaseColumnsDistinct();
    FlagColumns(d);
    PrefixCompletedBySuffix(nd0, nd, 15, BASE_COLUMNS, BaseValues(d), FLAG_FIELDS);
  }

  /** Writing the remaining columns, listed as a suffix, onto a prefix holds
      all columns. */
  lemma PrefixCompletedBySuffix(nd0: Features, nd: Features, k: nat, cols: seq<string>, vals: seq<Value>, rest: seq<string>)
    requires |cols| == |vals| == k + |rest|
    requires forall j :: 0 <= j < |rest| ==> rest[j] == cols[k + j]
    requires forall i, j :: 0 <= i < j < |cols| ==> cols[i] != cols[j]
    requires HoldsPrefix(nd0, k, cols, vals)
    requires nd.Keys == nd0.Keys + set j | 0 <= j < |rest| :: rest[j]
    requires forall j :: 0 <= j < |rest| ==> nd[rest[j]] == vals[k + j]
    requires forall c :: c in nd0 && c !in rest ==> nd[c] == nd0[c]
    ensures HoldsPrefix(nd, |cols|, cols, vals)
  {
    forall i | 0 <= i < k ensures cols[i] !in rest {
      forall j | 0 <= j < |rest| ensures cols[i] != rest[j] {
        assert rest[j] == cols[k + j];
      }
    }
    assert (set i | 0 <= i < |cols| :: cols[i])
      == (set i | 0 <= i < k :: cols[i]) + (set j | 0 <= j < |rest| :: rest[j]) by {
      var all := set i | 0 <= i < |cols| :: cols[i];
      var suffix := set j | 0 <= j < |rest| :: rest[j];
      forall c | c in suffix ensures c in all {
        var j :| 0 <= j < |rest| && c == rest[j];
        assert c == cols[k + j];
      }
      forall c | c in all ensures c in (set i | 0 <= i < k :: cols[i]) + suffix {
        var i :| 0 <= i < |cols| && c == cols[i];
        if i >= k { assert c == rest[i - k]; }
      }
    }
    forall i | 0 <= i < |cols| ensures nd[cols[i]] == vals[i] {
      if i < k {
        assert cols[i] in nd0;
      } else {
        assert cols[i] == rest[i - k];
      }
    }
  }

  /** The gap fill turns the complete base columns into a normalised input. */
  lemma FilledIsNormalized(d: DonorInput, required: Option<seq<string>>, nd0: Features, nd: Features)
    requires HoldsPrefix(nd0, 24, BASE_COLUMNS, BaseValues(d))
    requires nd.Keys == nd0.Keys + RequiredSet(required)
    requires forall c :: c in nd0 ==> nd[c] == nd0[c]
    requires forall c :: c in nd && c !in nd0 ==> nd[c] == FillValue(c)
    ensures IsNormalized(d, required, nd)
  {
    assert |BASE_COLUMNS| == 24;
    assert nd0.Keys == BaseColumnSet() by {
      forall c | c in BaseColumnSet() ensures c in nd0 {
        var i :| 0 <= i < 24 && BASE_COLUMNS[i] == c;
      }
    }
  }

  /** The first part of the normaliser: the renaming loop, then the donation
      experience, the cleaned district and neighbourhood, and the age
      bracket, which fill the first fifteen base columns. */
  method RenameAndDerive(d: DonorInput) returns (nd: Features)
    ensures HoldsPrefix(nd, 15, BASE_COLUMNS, BaseValues(d))
  {
    var input := AsDict(d);
    MappedColumnsDistinct();
    nd := MapFields(input, FEATURE_MAPPING);
    RenamedPrefix(d, nd);
    DerivedExperience(d);
    DerivedAge(d);
    DerivedDistrict(d);
    DerivedNeighbourhood(d);
    BaseColumnsDistinct();
    ghost var vals := BaseValues(d);
    ExtendPrefix(nd, 11, BASE_COLUMNS, vals);
    nd := nd["experience_don" := EncodeFlag(Get(input, "deja_donne", Null) == Str("Oui"))];
    ExtendPrefix(nd, 12, BASE_COLUMNS, vals);
    nd := nd["arrondissement_clean" := Get(input, "arrondissement", Str("Non précisé"))];
    ExtendPrefix(nd, 13, BASE_COLUMNS, vals);
    nd := nd["quartier_clean" := Get(input, "quartier", Str("Non précisé"))];
    ExtendPrefix(nd, 14, BASE_COLUMNS, vals);
    // The request always holds its integer age, so the 35 default of the source is never used.
    nd := nd["groupe_age" := Str(AgeGroup(d.age))];
  }

  /** The normaliser, step by step as predict_eligibility builds the
      dictionary and the one-row frame. */
  method Normalize(d: DonorInput, required: Option<seq<string>>) returns (nd: Features)
    ensures IsNormalized(d, required, nd)
  {
    var derived := RenameAndDerive(d);
    var base := EncodeFlags(AsDict(d), derived, FLAG_FIELDS);
    FlagsComplete(d, derived, base);
    nd := FillMissing(base, required);
    FilledIsNormalized(d, required, base, nd);
  }

  /** The classifier input is determined by the request and the schema:
      two vectors that both meet IsNormalized are equal. */
  lemma NormalizedUnique(d: DonorInput, required: Option<seq<string>>, a: Features, b: Features)
    requires IsNormalized(d, required, a) && IsNormalized(d, required, b)
    ensures a == b
  {
    forall c | c in a ensures a[c] == b[c] {
      if c in BaseColumnSet() {
        var i :| 0 <= i < |BASE_COLUMNS| && BASE_COLUMNS[i] == c;
      }
    }
  }

  /** The loader's default schema lists the fifteen renamed and derived
      base columns, in another order. */
  const DEFAULT_POSITIONS: seq<nat> := [0, 11, 2, 1, 3, 4, 8, 9, 5, 6, 7, 10, 14, 12, 13]

  lemma DefaultColumnsAreBase()
    ensures forall c :: c in DEFAULT_REQUIRED_COLUMNS ==> c in BaseColumnSet()
  {
    assert |DEFAULT_REQUIRED_COLUMNS| == |DEFAULT_POSITIONS| == 15;
    assert forall k :: 0 <= k < 15 ==> DEFAULT_POSITIONS[k] < |BASE_COLUMNS| && DEFAULT_REQUIRED_COLUMNS[k] == BASE_COLUMNS[DEFAULT_POSITIONS[k]];
    var all := BaseColumnSet();
    forall c | c in DEFAULT_REQUIRED_COLUMNS ensures c in all {
      var k :| 0 <= k < 15 && DEFAULT_REQUIRED_COLUMNS[k] == c;
      assert BASE_COLUMNS[DEFAULT_POSITIONS[k]] in BASE_COLUMNS;
    }
  }

  /** Under the default schema the gap fill adds nothing: the classifier
      sees exactly the twenty-four base columns. */
  lemma DefaultSchemaNeedsNoFill(d: DonorInput, nd: Features)
    requires IsNormalized(d, Some(DEFAULT_REQUIRED_COLUMNS), nd)
    ensures nd.Keys == BaseColumnSet()
  {
    DefaultColumnsAreBase();
    assert RequiredSet(Some(DEFAULT_REQUIRED_COLUMNS)) <= BaseColumnSet();
  }

  /** Without a schema, or with an empty one, nothing is filled either. */
  lemma NoSchemaNeedsNoFill(d: DonorInput, required: Option<seq<string>>, nd: Features)
    requires !FillActive(required) && IsNormalized(d, required, nd)
    ensures nd.Keys == BaseColumnSet()
  {
  }

  /** With a schema every declared column is present, and a declared column
      the normaliser does not produce holds its fill value. */
  lemma SchemaColumnsPresent(d: DonorInput, required: Option<seq<string>>, nd: Features)
    requires FillActive(required) && IsNormalized(d, required, nd)
    ensures forall c :: c in required.value ==> c in nd
    ensures forall c :: c in required.value && c !in BaseColumnSet() ==> nd[c] == FillValue(c)
  {
  }

  /** In a normalised vector each renamed column holds the request's value
      of its attribute. */
  lemma NormalizedRenamed(d: DonorInput, required: Option<seq<string>>, nd: Features)
    requires IsNormalized(d, required, nd)
    ensures forall i :: 0 <= i < |FEATURE_MAPPING| ==>
      FEATURE_MAPPING[i].0 in AsDict(d) && FEATURE_MAPPING[i].1 in nd && nd[FEATURE_MAPPING[i].1] == AsDict(d)[FEATURE_MAPPING[i].0]
  {
    ColumnLayout();
    forall i | 0 <= i < |FEATURE_MAPPING|
      ensures FEATURE_MAPPING[i].1 in nd && nd[FEATURE_MAPPING[i].1] == AsDict(d)[FEATURE_MAPPING[i].0]
    {
      assert BASE_COLUMNS[i] in nd && nd[BASE_COLUMNS[i]] == BaseValues(d)[i];
    }
  }

  /** In a normalised vector the donation experience is 1 exactly when the
      donor has given before, and the age bracket is AgeGroup's. */
  lemma NormalizedDerived(d: DonorInput, required: Option<seq<string>>, nd: Features)
    requires IsNormalized(d, required, nd)
    ensures "experience_don" in nd && nd["experience_don"] == EncodeFlag(d.dejaDonne == "Oui")
    ensures "groupe_age" in nd && nd["groupe_age"] == Str(AgeGroup(d.age))
  {
    DerivedExperience(d);
    DerivedAge(d);
    assert BASE_COLUMNS[11] in nd && nd[BASE_COLUMNS[11]] == BaseValues(d)[11];
    assert BASE_COLUMNS[14] in nd && nd[BASE_COLUMNS[14]] == BaseValues(d)[14];
  }

  /** In a normalised vector each of the nine flags is 1 exactly when the
      donor's flag is set. */
  lemma NormalizedFlags(d: DonorInput, required: Option<seq<string>>, nd: Features)
    requires IsNormalized(d, required, nd)
    ensures forall j :: 0 <= j < |FLAG_FIELDS| ==> FLAG_FIELDS[j] in nd && nd[FLAG_FIELDS[j]] == EncodeFlag(FlagsOf(d)[j])
  {
    ColumnLayout();
    forall j | 0 <= j < |FLAG_FIELDS|
      ensures FLAG_FIELDS[j] in nd && nd[FLAG_FIELDS[j]] == EncodeFlag(FlagsOf(d)[j])
    {
      assert BASE_COLUMNS[15 + j] in nd && nd[BASE_COLUMNS[15 + j]] == BaseValues(d)[15 + j];
    }
  }
}
