/**
 * test_inference.py: the same override and fallback as inference.py, but
 * the model is fed a one-row frame aligned to the training columns, and a
 * fixed sample patient is checked. Its `assign_risk_rule` and
 * `assign_department` repeat inference.py's line for line, so the model
 * uses Inference.AssignRiskRule and Inference.AssignDepartment for both.
 */
module TestInference {
  import opened Wrappers
  import opened PyDict
  import opened PyStr
  import opened Inference

  /** A one-row data frame: column name and value, in column order. */
  type Frame = seq<Pair<real>>

  /** `joblib.load` results: the model and the training columns, None when missing. */
  datatype Artifacts = Artifacts(model: Option<Frame -> Risk>, columns: Option<seq<string>>)

  /** The value a training column ends up with: the row's own, or 0 when the row lacks it. */
  function ValueOrZero(frame: Frame, c: string): real {
    match Get(frame, c)
    case Some(v) => v
    case None => 0.0
  }

  /** The frame the model sees: the training columns, in training order. */
  function Aligned(frame: Frame, columns: seq<string>): Frame {
    seq(|columns|, i requires 0 <= i < |columns| => Pair(columns[i], ValueOrZero(frame, columns[i])))
  }

  /** What column c holds once the missing training columns are added. */
  function FilledValue(frame: Frame, columns: seq<string>, c: string): Option<real> {
    if c in Keys(frame) then Get(frame, c)
    else if c in columns then Some(0.0)
    else None
  }

  /**
   * `for col in columns: if col not in df.columns: df[col] = 0`.
   * Existing columns keep their place and value; each missing training
   * column is appended with value 0; nothing else is added.
   */
  method AddMissingColumns(frame: Frame, columns: seq<string>) returns (filled: Frame)
    ensures Keys(frame) <= Keys(filled)
    ensures forall c :: c in columns ==> c in Keys(filled)
    ensures forall c :: Get(filled, c) == FilledValue(frame, columns, c)
  {
    filled := frame;
    forall c ensures Get(filled, c) == FilledValue(frame, columns[..0], c) {
      GetNone(frame, c);
    }
    for i := 0 to |columns|
      invariant Keys(frame) <= Keys(filled)
      invariant forall c :: Get(filled, c) == FilledValue(frame, columns[..i], c)
    {
      assert columns[..i + 1] == columns[..i] + [columns[i]];
      GetNone(filled, columns[i]);
      if columns[i] !in Keys(filled) {
        PutKeys(filled, columns[i], 0.0);
        forall c ensures Get(Put(filled, columns[i], 0.0), c) == if c == columns[i] then Some(0.0) else Get(filled, c) {
          PutGet(filled, columns[i], 0.0, c);
        }
        filled := Put(filled, columns[i], 0.0);
      }
    }
    assert columns[..|columns|] == columns;
    forall c | c in columns ensures c in Keys(filled) {
      assert Get(filled, c) == FilledValue(frame, columns, c);
      GetNone(filled, c);
    }
  }

  /** `df = df[columns]`: keep the training columns only, in training order. */
  function Project(frame: Frame, columns: seq<string>): (r: Frame)
    requires forall c :: c in columns ==> Get(frame, c).Some?
  {
    seq(|columns|, i requires 0 <= i < |columns| => Pair(columns[i], Get(frame, columns[i]).value))
  }

  /**
   * Alignment followed by projection: exactly the training columns, in
   * training order; present columns keep their value, missing ones are 0,
   * extra columns are dropped.
   */
  method AlignToTraining(frame: Frame, columns: seq<string>) returns (aligned: Frame)
    ensures Keys(aligned) == columns
    ensures forall i :: 0 <= i < |columns| ==> aligned[i].val == ValueOrZero(frame, columns[i])
    ensures aligned == Aligned(frame, columns)
  {
    var filled := AddMissingColumns(frame, columns);
    forall c {
      GetNone(frame, c);
    }
    aligned := Project(filled, columns);
  }

  /**
   * `predict_risk`: the override, then the rule when the model or the
   * column list is missing, else the model on the aligned one-hot row
   * (`dummies` is what `pd.get_dummies` makes of the patient).
   */
  method PredictRisk(p: Patient, a: Artifacts, dummies: Frame) returns (r: Risk)
    ensures ForcedHigh(p) ==> r == High
    ensures !ForcedHigh(p) && (a.model.None? || a.columns.None?) ==> r == AssignRiskRule(p)
    ensures !ForcedHigh(p) && a.model.Some? && a.columns.Some? ==>
      r == a.model.value(Aligned(dummies, a.columns.value))
    ensures a.model.None? || a.columns.None? ==> r == AssignRiskRule(p)
  {
    if p.temperature > 103.0 || p.heartRate > 140 {
      return High;
    }
    if a.model.None? || a.columns.None? {
      return AssignRiskRule(p);
    }
    var aligned := AlignToTraining(dummies, a.columns.value);
    r := a.model.value(aligned);
  }

  /** The example patient: heart rate 145 and "Chest pain". */
  const SamplePatient: Patient :=
    Patient(1, 75, "Male", 120, 80, 145, 37.0, "Chest pain", "Hypertension")

  /** The sample patient is routed to Cardiology only. */
  lemma SampleRouting()
    ensures KeywordDepartment(SamplePatient.symptoms) == Some("Cardiology")
  {
    assert OccursAt(Lower("Chest pain"), "chest", 0);
  }

  /** The sample check: High risk and Cardiology, whatever artifacts are loaded. */
  method CheckSamplePatient(a: Artifacts, dummies: Frame) returns (risk: Risk, department: string)
    ensures risk == High
    ensures department == "Cardiology"
  {
    risk := PredictRisk(SamplePatient, a, dummies);
    SampleRouting();
    department := AssignDepartment(SamplePatient.symptoms);
  }
}
