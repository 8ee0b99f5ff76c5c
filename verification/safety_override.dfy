/**
 * main_combined.py `predict_risk_logic`: a safety override that answers
 * "High Risk" on critical vitals, a critical keyword or the embedding-based
 * emergency check, before the triage model is consulted. The embedding check
 * and the pickled model and encoder are opaque inputs.
 */
module SafetyOverride {
  import opened Wrappers
  import opened PyStr
  import Inference

  /** The /triage request body; every field but Symptoms may be null. */
  datatype TriageRequest = TriageRequest(
    name: Option<string>, age: Option<int>, gender: Option<string>,
    systolic: Option<int>, diastolic: Option<int>, heartRate: Option<int>,
    temperature: Option<real>, symptoms: string)

  /** The request with every optional field left at its declared default. */
  function DefaultRequest(symptoms: string): TriageRequest {
    TriageRequest(Some("Anonymous"), Some(30), Some("Male"), Some(120), Some(80), Some(72), Some(37.0), symptoms)
  }

  /** Python truthiness of an optional number: None and zero are false. */
  predicate IntTruthy(x: Option<int>) {
    x.Some? && x.value != 0
  }

  predicate RealTruthy(x: Option<real>) {
    x.Some? && x.value != 0.0
  }

  /** The critical-vitals flag; a vital that is None or 0 is skipped. */
  predicate CriticalVitals(r: TriageRequest) {
    || (IntTruthy(r.heartRate) && (r.heartRate.value > 120 || r.heartRate.value < 40))
    || (IntTruthy(r.systolic) && (r.systolic.value > 180 || r.systolic.value < 90))
    || (RealTruthy(r.temperature) && r.temperature.value > 39.5)
  }

  const CriticalKeywords: seq<string> := [
    "chest pain", "cardiac", "heart attack", "unconscious",
    "difficulty breathing", "shortness of breath", "severe bleeding",
    "stroke", "paralysis", "sudden vision loss", "severe headache", "high fever"]

  /** The critical-keyword flag: some keyword is a substring of the lower-cased symptoms. */
  predicate CriticalSymptoms(symptoms: string) {
    ContainsAny(Lower(symptoms), CriticalKeywords)
  }

  /** The numeric model input `[Age, mean_bp, Heart_Rate, Temperature]`; the optional fields pass through as they are. */
  datatype NumericRow = NumericRow(age: Option<int>, meanBp: real, heartRate: Option<int>, temperature: Option<real>)

  /** The categorical model input `[Gender, Symptoms]`. */
  datatype CategoricalRow = CategoricalRow(gender: Option<string>, symptoms: string)

  /** The encoder's `transform`; None when it raises. */
  type Encoder = CategoricalRow -> Option<seq<real>>

  /** The model's `predict` on the stacked features; None when it raises. */
  type TriageModel = (NumericRow, seq<real>) -> Option<string>

  /** The answers of `predict_risk_logic`. */
  datatype RiskAnswer = HighRisk | ModelNotLoaded | PredictionError | Predicted(tier: string)

  /** The string the endpoint returns for each answer. */
  function Wire(a: RiskAnswer): string {
    match a
    case HighRisk => "High Risk"
    case ModelNotLoaded => "Model not loaded"
    case PredictionError => "Error"
    case Predicted(tier) => tier
  }

  /** Some flag of the override is set. */
  predicate Overridden(r: TriageRequest, embeddingEmergency: bool) {
    CriticalVitals(r) || CriticalSymptoms(r.symptoms) || embeddingEmergency
  }

  /**
   * `predict_risk_logic`: the override first; then "Model not loaded"
   * without model or encoder; then the model on the numeric row (with the
   * mean arterial pressure) and the encoded categories, any failure on the
   * way giving "Error" (a missing blood pressure fails the MAP formula).
   */
  function PredictRiskLogic(r: TriageRequest, embeddingEmergency: bool, model: Option<TriageModel>, encoder: Option<Encoder>): (a: RiskAnswer)
    ensures a.HighRisk? <==> Overridden(r, embeddingEmergency)
    ensures !Overridden(r, embeddingEmergency) && (model.None? || encoder.None?) ==> a == ModelNotLoaded
    ensures a.Predicted? ==> model.Some? && encoder.Some? && r.systolic.Some? && r.diastolic.Some?
  {
    if Overridden(r, embeddingEmergency) then HighRisk
    else if model.None? || encoder.None? then ModelNotLoaded
    else if r.systolic.None? || r.diastolic.None? then PredictionError
    else
      var row := NumericRow(r.age, Inference.MeanArterialPressure(r.systolic.value, r.diastolic.value), r.heartRate, r.temperature);
      match encoder.value(CategoricalRow(r.gender, r.symptoms))
      case None => PredictionError
      case Some(encoded) =>
        match model.value(row, encoded)
        case None => PredictionError
        case Some(tier) => Predicted(tier)
  }

  /** A vital inside its band. */
  predicate Calm(r: TriageRequest) {
    && (r.heartRate.None? || 40 <= r.heartRate.value <= 120 || r.heartRate.value == 0)
    && (r.systolic.None? || 90 <= r.systolic.value <= 180 || r.systolic.value == 0)
    && (r.temperature.None? || r.temperature.value <= 39.5)
  }

  /** The vitals flag is set exactly when some given, non-zero vital leaves its band. */
  lemma CriticalVitalsIffOutOfBand(r: TriageRequest)
    ensures CriticalVitals(r) <==> !Calm(r)
  {
  }

  /** Vitals that are all None or 0 never set the flag, however far from normal a zero is. */
  lemma FalsyVitalsNeverTrigger(r: TriageRequest)
    requires r.heartRate.None? || r.heartRate.value == 0
    requires r.systolic.None? || r.systolic.value == 0
    requires r.temperature.None? || r.temperature.value == 0.0
    ensures !CriticalVitals(r)
  {
  }

  /** The default vitals are calm, so a default request is overridden only by its words. */
  lemma DefaultsAreCalm(symptoms: string, embeddingEmergency: bool)
    ensures !CriticalVitals(DefaultRequest(symptoms))
    ensures Overridden(DefaultRequest(symptoms), embeddingEmergency) <==>
      CriticalSymptoms(symptoms) || embeddingEmergency
  {
  }

  /** The keyword check ignores letter case. */
  lemma KeywordsIgnoreCase(s: string, t: string)
    requires Lower(s) == Lower(t)
    ensures CriticalSymptoms(s) == CriticalSymptoms(t)
    ensures CriticalSymptoms(Lower(s)) == CriticalSymptoms(s)
  {
    LowerIdempotent(s);
  }

  /** "Sudden CHEST PAIN" names a critical keyword, so it is "High Risk" whatever the vitals and models. */
  lemma ChestPainIsHighRisk(r: TriageRequest, embeddingEmergency: bool, model: Option<TriageModel>, encoder: Option<Encoder>)
    requires r.symptoms == "Sudden CHEST PAIN"
    ensures Wire(PredictRiskLogic(r, embeddingEmergency, model, encoder)) == "High Risk"
  {
    var l := Lower(r.symptoms);
    assert l[7..17] == "chest pain" by {
      assert r.symptoms[7..17] == "CHEST PAIN";
      forall i | 0 <= i < 10 ensures l[7..17][i] == LowerChar("CHEST PAIN"[i]) {
        assert l[7 + i] == LowerChar(r.symptoms[7 + i]);
      }
    }
    assert OccursAt(l, CriticalKeywords[0], 7);
  }

  /** Without a flag, a missing blood pressure makes the loaded model path answer "Error". */
  lemma MissingPressureIsError(r: TriageRequest, model: Option<TriageModel>, encoder: Option<Encoder>)
    requires !Overridden(r, false) && model.Some? && encoder.Some?
    requires r.systolic.None? || r.diastolic.None?
    ensures PredictRiskLogic(r, false, model, encoder) == PredictionError
  {
  }

  /**
   * Without a flag and with both artifacts loaded and working, the answer
   * is the model's label on the row whose blood-pressure feature is the mean
   * arterial pressure, which lies between the two pressures whichever is
   * the larger: the pair is not validated.
   */
  lemma ModelSeesMeanPressure(r: TriageRequest, model: TriageModel, encoder: Encoder, encoded: seq<real>, tier: string)
    requires !Overridden(r, false) && r.systolic.Some? && r.diastolic.Some?
    requires encoder(CategoricalRow(r.gender, r.symptoms)) == Some(encoded)
    requires model(NumericRow(r.age, Inference.MeanArterialPressure(r.systolic.value, r.diastolic.value), r.heartRate, r.temperature), encoded) == Some(tier)
    ensures PredictRiskLogic(r, false, Some(model), Some(encoder)) == Predicted(tier)
    ensures var s, d := r.systolic.value, r.diastolic.value;
      var m := Inference.MeanArterialPressure(s, d);
      && (d <= s ==> d as real <= m <= s as real)
      && (s <= d ==> s as real <= m <= d as real)
  {
  }
}
