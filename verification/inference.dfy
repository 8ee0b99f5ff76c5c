/**
 * inference.py: the fallback risk rule, the keyword department routing,
 * the "force High" override in front of the risk model, and the batch loop
 * that labels every row of the patient table.
 */
module Inference {
  import opened Wrappers
  import opened PyStr

  /** Risk tiers; Rank gives their order Low < Medium < High. */
  datatype Risk = Low | Medium | High

  function Rank(r: Risk): nat {
    match r
    case Low => 0
    case Medium => 1
    case High => 2
  }

  /** One row of the patient table, with the columns `predict_risk` reads. */
  datatype Patient = Patient(
    id: int, age: int, gender: string,
    systolic: int, diastolic: int, heartRate: int, temperature: real,
    symptoms: string, conditions: string)

  /** `assign_risk_rule`: a High cascade, then a Medium cascade, else Low. */
  function AssignRiskRule(p: Patient): Risk {
    if p.systolic > 140 || p.diastolic > 90 || p.temperature > 38.0 || p.heartRate > 140 then High
    else if p.systolic > 130 || p.diastolic > 85 || p.temperature > 37.5 then Medium
    else Low
  }

  /** The rule's three tiers, each as an if-and-only-if. */
  lemma RiskRuleTiers(p: Patient)
    ensures AssignRiskRule(p) == High <==>
      p.systolic > 140 || p.diastolic > 90 || p.temperature > 38.0 || p.heartRate > 140
    ensures AssignRiskRule(p) == Medium <==>
      !(p.systolic > 140 || p.diastolic > 90 || p.temperature > 38.0 || p.heartRate > 140)
      && (p.systolic > 130 || p.diastolic > 85 || p.temperature > 37.5)
    ensures AssignRiskRule(p) == Low <==>
      p.systolic <= 130 && p.diastolic <= 85 && p.temperature <= 37.5 && p.heartRate <= 140
  {
  }

  /** Raising any vitals never lowers the tier the rule returns. */
  lemma RiskRuleMonotone(p: Patient, q: Patient)
    requires p.systolic <= q.systolic && p.diastolic <= q.diastolic
    requires p.temperature <= q.temperature && p.heartRate <= q.heartRate
    ensures Rank(AssignRiskRule(p)) <= Rank(AssignRiskRule(q))
  {
  }

  /** Mean arterial pressure `(systolic + 2 * diastolic) / 3`, with true division. */
  function MeanArterialPressure(systolic: int, diastolic: int): (m: real)
    ensures diastolic <= systolic ==> diastolic as real <= m <= systolic as real
    ensures diastolic < systolic ==> diastolic as real < m < systolic as real
    ensures systolic == diastolic ==> m == systolic as real
    ensures systolic <= diastolic ==> systolic as real <= m <= diastolic as real
  {
    (systolic as real + 2.0 * diastolic as real) / 3.0
  }

  /** The numeric features `[Age, mean_bp, Heart_Rate, Temperature]`. */
  datatype NumericFeatures = NumericFeatures(age: int, meanBp: real, heartRate: int, temperature: real)

  /** The categorical features `[Gender, Symptoms, Pre_Existing_Conditions]`. */
  datatype CategoricalFeatures = CategoricalFeatures(gender: string, symptoms: string, conditions: string)

  /**
   * The unpickled risk model and encoder, None when their file is missing.
   * The model sees the numeric features next to the encoded categorical ones.
   */
  datatype Artifacts = Artifacts(
    model: Option<(NumericFeatures, seq<real>) -> Risk>,
    encoder: Option<CategoricalFeatures -> seq<real>>)

  /** Extreme vitals that force High before anything else is consulted. */
  predicate ForcedHigh(p: Patient) {
    p.temperature > 103.0 || p.heartRate > 140
  }

  /** `predict_risk`: override, then the rule when an artifact is missing, else the model. */
  function PredictRisk(p: Patient, a: Artifacts): Risk {
    if ForcedHigh(p) then High
    else if a.model.None? || a.encoder.None? then AssignRiskRule(p)
    else
      var numeric := NumericFeatures(p.age, MeanArterialPressure(p.systolic, p.diastolic), p.heartRate, p.temperature);
      a.model.value(numeric, a.encoder.value(CategoricalFeatures(p.gender, p.symptoms, p.conditions)))
  }

  /** The override answers High whatever the artifacts are. */
  lemma OverrideIsHigh(p: Patient, a: Artifacts)
    requires ForcedHigh(p)
    ensures PredictRisk(p, a) == High
  {
  }

  /**
   * Without the model or the encoder, prediction is the rule on every
   * patient: both override conditions already make the rule answer High.
   */
  lemma FallbackIsRule(p: Patient, a: Artifacts)
    requires a.model.None? || a.encoder.None?
    ensures PredictRisk(p, a) == AssignRiskRule(p)
    ensures ForcedHigh(p) ==> AssignRiskRule(p) == High
  {
  }

  /** With both artifacts and no override, the model decides, fed the mean arterial pressure. */
  lemma ModelDecides(p: Patient, a: Artifacts)
    requires !ForcedHigh(p) && a.model.Some? && a.encoder.Some?
    ensures PredictRisk(p, a) == a.model.value(
      NumericFeatures(p.age, MeanArterialPressure(p.systolic, p.diastolic), p.heartRate, p.temperature),
      a.encoder.value(CategoricalFeatures(p.gender, p.symptoms, p.conditions)))
  {
  }

  /** The keyword cascade of `assign_department`; None when no keyword matches. */
  function KeywordDepartment(symptoms: string): Option<string> {
    var s := Lower(symptoms);
    if Contains(s, "chest") || Contains(s, "heart") then Some("Cardiology")
    else if Contains(s, "headache") || Contains(s, "dizziness") then Some("Neurology")
    else if Contains(s, "fever") || Contains(s, "cough") then Some("General Medicine")
    else None
  }

  /** The list `random.choice` draws from when no keyword matches. */
  const FallbackDepartments: seq<string> := ["General Medicine", "Emergency", "Neurology"]

  /** Every department the routing can return: the keyword's, or any of the fallback list. */
  function DepartmentOutcomes(symptoms: string, fallback: seq<string>): set<string> {
    match KeywordDepartment(symptoms)
    case Some(d) => {d}
    case None => set i | 0 <= i < |fallback| :: fallback[i]
  }

  /** `assign_department`; the random pick is a nondeterministic choice. */
  method AssignDepartment(symptoms: string) returns (d: string)
    ensures d in DepartmentOutcomes(symptoms, FallbackDepartments)
    ensures KeywordDepartment(symptoms).Some? ==> d == KeywordDepartment(symptoms).value
    ensures d in FallbackDepartments || d == "Cardiology"
  {
    match KeywordDepartment(symptoms) {
      case Some(k) =>
        d := k;
      case None =>
        var i :| 0 <= i < |FallbackDepartments|;
        d := FallbackDepartments[i];
    }
  }

  /** The precedence chest/heart, then headache/dizziness, then fever/cough, each as an if-and-only-if. */
  lemma KeywordPrecedence(symptoms: string)
    ensures var s := Lower(symptoms);
      var cardio := Contains(s, "chest") || Contains(s, "heart");
      var neuro := Contains(s, "headache") || Contains(s, "dizziness");
      var general := Contains(s, "fever") || Contains(s, "cough");
      && (KeywordDepartment(symptoms) == Some("Cardiology") <==> cardio)
      && (KeywordDepartment(symptoms) == Some("Neurology") <==> !cardio && neuro)
      && (KeywordDepartment(symptoms) == Some("General Medicine") <==> !cardio && !neuro && general)
      && (KeywordDepartment(symptoms).None? <==> !cardio && !neuro && !general)
  {
  }

  /** A cardiac keyword decides Cardiology whatever other words appear. */
  lemma CardiacKeywordWins(symptoms: string)
    requires Contains(Lower(symptoms), "chest") || Contains(Lower(symptoms), "heart")
    ensures DepartmentOutcomes(symptoms, FallbackDepartments) == {"Cardiology"}
  {
  }

  /** With no keyword, any of the three fallback departments may come out. */
  lemma FallbackOutcomes(symptoms: string)
    requires KeywordDepartment(symptoms).None?
    ensures DepartmentOutcomes(symptoms, FallbackDepartments) == {"General Medicine", "Emergency", "Neurology"}
  {
    var fs := FallbackDepartments;
    assert fs[0] == "General Medicine" && fs[1] == "Emergency" && fs[2] == "Neurology";
  }

  /** The keyword routing ignores letter case. */
  lemma RoutingIgnoresCase(s: string, t: string)
    requires Lower(s) == Lower(t)
    ensures KeywordDepartment(s) == KeywordDepartment(t)
    ensures KeywordDepartment(Lower(s)) == KeywordDepartment(s)
  {
    LowerIdempotent(s);
  }

  /**
   * The module-level loop over the table: every row gets its predicted
   * risk and a department from its routing outcomes, in row order.
   */
  method RunInference(rows: seq<Patient>, a: Artifacts) returns (risks: seq<Risk>, departments: seq<string>)
    ensures |risks| == |rows| && |departments| == |rows|
    ensures forall i :: 0 <= i < |rows| ==> risks[i] == PredictRisk(rows[i], a)
    ensures forall i :: 0 <= i < |rows| ==>
      departments[i] in DepartmentOutcomes(rows[i].symptoms, FallbackDepartments)
  {
    risks, departments := [], [];
    for i := 0 to |rows|
      invariant |risks| == i && |departments| == i
      invariant forall j :: 0 <= j < i ==> risks[j] == PredictRisk(rows[j], a)
      invariant forall j :: 0 <= j < i ==>
        departments[j] in DepartmentOutcomes(rows[j].symptoms, FallbackDepartments)
    {
      var risk := PredictRisk(rows[i], a);
      var department := AssignDepartment(rows[i].symptoms);
      risks := risks + [risk];
      departments := departments + [department];
    }
  }
}
