# Blood-donation eligibility engine

This project models `predict_eligibility` from the eligibility API in `main.py`. For one donor request it first applies four absolute exclusion rules in a fixed priority order:

1. carrier of HIV, hepatitis B or C;
2. sickle-cell disease;
3. heart condition;
4. a haemoglobin level below the sex-specific threshold.

The first rule that fires returns a fixed "Non éligible" verdict. When no rule fires, the request is normalised into the one-row input of a trained classifier:

- eleven fields are renamed;
- the donation experience, the cleaned location and the age bracket are derived;
- nine flags are encoded as 0/1;
- the columns the model declares are gap-filled.

The classifier's answer then becomes a verdict. A negative answer collects the diabetes, hypertension and asthma factors. A positive answer is put through a final safety check that re-applies the exclusion rules.

The project has four modules, one per file:

- `Schema` (`schema.dfy`) — the request record `DonorInput`, its dictionary view `AsDict`, the verdict (`PredictionOutput`) and the two service errors.
- `Exclusion` (`exclusion.dfy`) — the rule chain as pure functions. This includes the rule that decides (`FirstRule`), the pre-check and the haemoglobin boundaries.
- `Normalizer` (`normalizer.dfy`) — the normaliser.
  - It is written as methods that update the dictionary step by step, as the source does: the renaming loop, the four derived columns, the flag loop and the gap-fill loop.
  - The methods are proved against the ghost predicate `IsNormalized`. It gives the value every base column must hold and the fill value of every other declared column, and rules out any other column.
- `Engine` (`engine.dfy`) — the classifier stage (`Interpret`, `CollectFactors`, `SafetyOverride`, `Classify`) and the whole decision (`PredictEligibility`).
  - Also here are the corrected order of the two first steps (`PredictEligibilityRulesFirst`, see Findings) and three concrete scenarios.

The classifier is a parameter `clf: Features -> Prediction`. It returns the predicted class with the probabilities of class 0 and class 1, or `Raised` when the call throws.

Model availability is a boolean parameter. It stands for "model already loaded, or `load_model()` returned True". The declared schema `required_columns` is an `Option<seq<string>>` parameter.

The engine also returns the input it handed to the classifier, as `fed`, which is `None` when the classifier was not called. This makes "the classifier is not called when a rule fires" a postcondition.

## Model

| member | source | states |
|---|---|---|
| Schema.AsDict | main.py:488 | definition: the request dictionary `donneur.dict()` holds every attribute of the record, under its name, with its value |
| Schema.Get | main.py:379-381 | definition: `dict.get(key, default)`: the stored value when the key is present, the default otherwise |
| Schema.DerivedLookups | main.py:379-381 | the dictionary holds `deja_donne`, `arrondissement` and `quartier` with the record's values, so the `.get` defaults are never used |
| Schema.TruthyValues | main.py:404 | Python truthiness of a request value (`Schema.Truthy`): a flag is truthy exactly when it is True; None, 0 and "" are falsy |
| Schema.LabelTextInjective | main.py:424-427 | the labels print as "Éligible" and "Non éligible", and distinct labels have distinct texts, so the post-check's test `result == "Éligible"` (main.py:444) is a test on the label |
| Exclusion.ValidDonorHemoglobinRule | main.py:103-127 | for a request that passes validation (`Schema.ValidDonor`: age 18-70, haemoglobin 7.0-20.0, enumerated genre and the other enum fields), the genre has a threshold and the haemoglobin rule fires exactly below it |
| Exclusion.FirstRule | main.py:308-351 | the deciding rule fires; every rule of higher priority does not fire; when none is returned, no rule fires |
| Exclusion.RuleVerdict | main.py:308-351 | definition: a rule's verdict is "Non éligible" with that rule's confidence (100, or 95 for haemoglobin), its reason, and factors equal to the one-element list of that reason |
| Exclusion.PreCheck | main.py:303-351 | the pre-check passes only when no rule fires, and otherwise returns the verdict of a firing rule no higher-priority rule of which fires |
| Exclusion.HemoglobinLowMeansBelowThreshold | main.py:340-343 | the two-clause haemoglobin test holds exactly when the genre has a threshold (Homme 13.0, Femme 12.0) and the level is below it |
| Exclusion.HemoglobinBoundaries | main.py:340-351 | Homme is excluded iff the level is < 13.0, Femme iff it is < 12.0, and any other genre string is never excluded |
| Exclusion.HemoglobinBoundaryExamples | main.py:340-351 | 13.0 (Homme) and 12.0 (Femme) pass, 12.99 and 11.99 are excluded, and "Autre" at 7.0 is not excluded |
| Exclusion.PreCheckPassesIffNoContraindication | main.py:308-351 | the pre-check passes if and only if there is no carrier, sickle-cell or cardiac flag and the haemoglobin meets the sex's threshold |
| Exclusion.CarrierOverridesEverything | main.py:308-316 | a carrier gets "Non éligible", confidence 100.0, factors `["Porteur de VIH, hépatite B ou C"]` and that reason, whatever the other fields |
| Exclusion.SingleFactorOfHighestPriority | main.py:308-351 | when two rules fire, the verdict has one factor, and the lower-priority rule's reason is not among the factors |
| Exclusion.CarrierBeforeSickleCell | main.py:308-327 | a carrier with sickle-cell disease gets the carrier's reason |
| Normalizer.AgeGroup | main.py:384-399 | every age gets one of the seven labels, and the age lies within that label's bounds |
| Normalizer.AgeGroupIsTheOnlyBracket | main.py:384-399 | the brackets do not overlap: a label whose bounds contain the age is AgeGroup's label |
| Normalizer.AgeGroupMonotone | main.py:384-399 | an older donor never falls in a younger bracket |
| Normalizer.ValidAgeIsAdult | main.py:103 | within the request's 18-70 range, "<18" is never produced |
| Normalizer.AgeGroupExamples | main.py:384-399 | 35 gives "26-35", 18 gives "18-25", 65 gives "56-65", 66 gives ">65" and 17 gives "<18" |
| Normalizer.EncodeFlag | main.py:379 | definition: a condition becomes 1 if it holds and 0 if it does not |
| Normalizer.FillValue | main.py:413-416 | definition: a gap in one of the twelve categorical columns is filled with "", and any other gap with 0 |
| Normalizer.RequiredSet | main.py:410-411 | with a non-empty schema every declared column must be present; with None or an empty list nothing is required |
| Normalizer.MapFields | main.py:374-376 | the renaming loop: a column is written iff its attribute is in the request, it holds the attribute's value, and no other column is written |
| Normalizer.EncodeFlags | main.py:402-404 | the flag loop: each flag column is 1 iff the request's value is truthy, an absent flag counts as False, and the other columns are unchanged |
| Normalizer.FillMissing | main.py:410-416 | the gap fill: keys become the old keys plus the declared columns; present columns keep their values; added ones get their fill value; nothing is removed |
| Normalizer.RenameAndDerive | main.py:371-399 | after the renaming and the four derived columns, exactly the first fifteen base columns are present with the values the record dictates |
| Normalizer.Normalize | main.py:356-416 | the normaliser produces a vector that meets IsNormalized: the 24 base columns with the record's values, the declared columns with their fill values, nothing else |
| Normalizer.NormalizedUnique | main.py:356-416 | normalisation is deterministic: two vectors that are both normalised for the same request and schema are equal |
| Normalizer.NormalizedRenamed | main.py:356-376 | in a normalised vector every renamed column holds the request's value of its attribute |
| Normalizer.NormalizedDerived | main.py:379-399 | in a normalised vector `experience_don` is 1 iff `deja_donne` is "Oui" (else 0), and `groupe_age` is the donor's bracket |
| Normalizer.NormalizedFlags | main.py:402-404 | in a normalised vector each of the nine flag columns is 1 iff the donor's flag is set |
| Normalizer.DefaultColumnsAreBase | main.py:265-281 | every column of the loader's fallback schema is one the normaliser writes itself |
| Normalizer.DefaultSchemaNeedsNoFill | main.py:410-416 | under the fallback schema the gap fill adds nothing |
| Normalizer.NoSchemaNeedsNoFill | main.py:410 | with no schema, or an empty one, the vector has exactly the base columns |
| Normalizer.SchemaColumnsPresent | main.py:410-416 | with a schema, every declared column is present, and one the normaliser does not write holds its fill value |
| Engine.ModelFactors | main.py:430-436 | "Diabète", "Hypertension" and "Asthme" are each reported iff their flag is set, in that order, at most three of them |
| Engine.FirstOf | main.py:438-440 | definition: the main reason is the first factor, or none when there are no factors |
| Engine.ModelReasonPrecedence | main.py:430-440 | the main reason of a negative model answer is diabetes if set, else hypertension if set, else asthma if set, else none, in both directions |
| Engine.CollectFactors | main.py:430-440 | the appends produce exactly ModelFactors, and the reason is their first element |
| Engine.SafetyOverride | main.py:444-466 | the post-check replaces the verdict with the first firing rule's verdict, in the pre-check's priority order, and leaves it unchanged when no rule fires |
| Engine.Interpret | main.py:419-466 | a raising classifier gives PredictionFailed; a class other than 1 gives "Non éligible" with probability 0 × 100 and the model factors; class 1 gives the first firing rule's verdict, or "Éligible" with probability 1 × 100 and no factors; "Éligible" implies no contraindication |
| Engine.Classify | main.py:353-477 | the classifier receives the normalised vector, and the verdict is Interpret's verdict for the classifier's answer on that vector |
| Engine.PredictEligibility | main.py:295-477 | no model gives ModelUnavailable; a firing rule gives its verdict without calling the classifier; otherwise the classifier gets the normalised vector and its answer decides, with no override; "Éligible" implies no contraindication and no factors |
| Engine.PredictEligibilityRulesFirst | main.py:303-351 | corrected order: a firing rule decides whether or not a model is available; ModelUnavailable occurs iff no model is available and there is no contraindication |
| Engine.LoadOrderCounterexample | main.py:299-301 | a carrier with no loadable model gets ModelUnavailable from the code as written, and the carrier verdict from the corrected order |
| Engine.DecideTwice | main.py:295-477 | two calls with the same request, model state and classifier give the same result and feed the classifier the same input |
| Engine.CleanDonorScenario | main.py:379-399 | as written, with a model loaded: a clean 35-year-old man who has given before reaches the classifier with `experience_don` = 1 and `groupe_age` = "26-35", and gets the model's verdict with no factors |
| Engine.CardiacScenario | main.py:329-337 | as written, with a model loaded: the same donor with a heart condition gets "Non éligible", 100.0 and "Problèmes cardiaques", and the classifier is not called |
| Engine.CardiacScenarioRulesFirst | main.py:329-337 | corrected order: the cardiac donor gets the same refusal whether or not a model is available (as written, with no model, the result is ModelUnavailable) |
| Engine.UnavailableScenario | main.py:299-301 | as written: the clean donor with no loadable model gets ModelUnavailable |

## Left out

- `load_model` (main.py:229-292) is not part of this model: its filesystem checks, glob, joblib and JSON reads and global updates are I/O. Its outcome is the `modelLoaded` parameter, and the schema it installs is the `required` parameter.
  - As written, line 246 assigns `MODEL_PATH` inside the function without a `global` declaration, which makes the name local to the whole function.
  - Line 234 then raises UnboundLocalError, which line 290 catches, so the function returns False.
  - This concerns the loader only; the engine is modelled for both outcomes.
- The trained classifier (`model.predict`, `predict_proba`, main.py:419-420) is foreign code: a function parameter.
  - The two probabilities are plain reals. Nothing constrains them to a distribution, so the confidence is not proved to lie in 0-100.
  - A non-integer class label that Python would compare equal to 1 is not modelled.
- The pandas DataFrame (main.py:407) is the column map `Features`; column order and dtypes are not modelled.
- Engine.Classify: `PredictionFailed` stands only for a classifier that raises. The broad `except` at main.py:475-477 can also catch failures of the DataFrame code, which the model has none of.
- Engine.Interpret, Exclusion.PreCheck: the `.get(key, default)` lookups of the flags, `genre` and `taux_hemoglobine` read the record's fields directly.
  - The request dictionary is `donneur.dict()`, which always holds every attribute (Schema.AsDict), so the defaults `False`, `''` and `0` are unreachable.
  - For the same reason the age default 35 of main.py:384 is never used.
- Request validation by Pydantic (main.py:101-130) is the predicate `Schema.ValidDonor`. No operation requires it, because the engine does not rely on it. Enum members are their string values.
- Normalizer.Normalize keeps every column it writes even when the schema does not declare it, as the code does. Under the fallback schema, for example, the nine flag columns reach the classifier beside the fifteen declared ones. Columns outside the schema are not dropped.
- The FastAPI application, its routes, the startup hook and the HTTP status codes are transport. `HTTPException` becomes the `Error` result.
- Haemoglobin levels and probabilities are mathematical reals, not IEEE doubles.
- The post-check of main.py:442-466 is modelled (Engine.SafetyOverride). Inside predict_eligibility it never changes a verdict: the pre-check has already returned for every donor it would override, which Engine.PredictEligibility's postconditions state.

## Findings

| source | as written | input that shows it | evidently intended | confidence | as-written member | corrected member |
|---|---|---|---|---|---|---|
| main.py:299-301 | the model is loaded (and its absence reported as HTTP 500 "Modèle non disponible") before the absolute exclusion rules of main.py:308-351 run | a carrier of HIV/hepatitis (Engine.CarrierDonor) while no model can be loaded: the result is ModelUnavailable instead of the fixed "Non éligible" verdict of confidence 100 | the absolute rules need no model; they decide first, and ModelUnavailable is only raised when no rule produced a verdict | medium, not executed | Engine.LoadOrderCounterexample | Engine.PredictEligibilityRulesFirst |
