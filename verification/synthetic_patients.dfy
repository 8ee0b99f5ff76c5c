/**
 * generate_synthetic_patients_large.py: the loop that draws random
 * patients and labels each with a risk tier and a department. Each random
 * draw is a nondeterministic choice within the range the script passes to
 * `random`.
 */
module SyntheticPatients {
  import opened Wrappers
  import opened PyStr
  import opened Inference

  const NumPatients: nat := 50000

  const SymptomNames: seq<string> :=
    ["Fever", "Cough", "Chest Pain", "Headache", "Dizziness", "Shortness of Breath", "Nausea"]

  const PreExistingConditions: seq<string> :=
    ["None", "Hypertension", "Diabetes", "Asthma", "Heart Disease"]

  /** The list the department label falls back to; unlike inference.py it includes Cardiology. */
  const Departments: seq<string> := ["General Medicine", "Cardiology", "Neurology", "Emergency"]

  /** One generated row, in the column order of the CSV it is written to. */
  datatype Record = Record(
    id: int, age: int, gender: string, symptoms: string,
    systolic: int, diastolic: int, heartRate: int, temperature: real,
    condition: string, risk: Risk, department: string)

  /** The script's risk label: the rule of inference.py without the heart-rate test. */
  function LabelRisk(systolic: int, diastolic: int, temperature: real): Risk {
    if systolic > 140 || diastolic > 90 || temperature > 38.0 then High
    else if systolic > 130 || diastolic > 85 || temperature > 37.5 then Medium
    else Low
  }

  /** A temperature rounded to one decimal place. */
  predicate IsTenths(x: real) {
    (x * 10.0).Floor as real == x * 10.0
  }

  /** A comma-join of one to three distinct names from the symptom list. */
  predicate DrawnSymptoms(s: string) {
    var parts := Split(s, ',');
    && 1 <= |parts| <= 3
    && (forall i :: 0 <= i < |parts| ==> parts[i] in SymptomNames)
    && (forall i, j :: 0 <= i < j < |parts| ==> parts[i] != parts[j])
  }

  /** What every generated row satisfies. */
  predicate WellFormed(r: Record) {
    && 1 <= r.age <= 100
    && r.gender in ["M", "F"]
    && DrawnSymptoms(r.symptoms)
    && 90 <= r.systolic <= 180
    && 60 <= r.diastolic <= 120
    && 60 <= r.heartRate <= 110
    && 36.0 <= r.temperature <= 40.0 && IsTenths(r.temperature)
    && r.condition in PreExistingConditions
    && r.risk == LabelRisk(r.systolic, r.diastolic, r.temperature)
    && r.department in DepartmentOutcomes(r.symptoms, Departments)
  }

  /** The row as the inference scripts read it back. */
  function AsPatient(r: Record): Patient {
    Patient(r.id, r.age, r.gender, r.systolic, r.diastolic, r.heartRate, r.temperature, r.symptoms, r.condition)
  }

  /** The symptom names are distinct and none holds the comma used to join them. */
  lemma SymptomNamesClean()
    ensures forall i :: 0 <= i < |SymptomNames| ==> ',' !in SymptomNames[i]
    ensures forall i, j :: 0 <= i < j < |SymptomNames| ==> SymptomNames[i] != SymptomNames[j]
  {
    var ns := SymptomNames;
    assert ns[0][0] == 'F' && ns[1][0] == 'C' && ns[2][0] == 'C' && ns[3][0] == 'H';
    assert ns[4][0] == 'D' && ns[5][0] == 'S' && ns[6][0] == 'N';
    assert ns[1][1] == 'o' && ns[2][1] == 'h';
  }

  /** Names picked at distinct indices of the symptom list form a valid draw once joined. */
  lemma JoinedDrawIsValid(picks: seq<int>)
    requires 1 <= |picks| <= 3
    requires forall i :: 0 <= i < |picks| ==> 0 <= picks[i] < |SymptomNames|
    requires forall i, j :: 0 <= i < j < |picks| ==> picks[i] != picks[j]
    ensures DrawnSymptoms(Join(seq(|picks|, i requires 0 <= i < |picks| => SymptomNames[picks[i]]), ','))
  {
    var names := seq(|picks|, i requires 0 <= i < |picks| => SymptomNames[picks[i]]);
    SymptomNamesClean();
    SplitJoin(names, ',');
    forall i, j | 0 <= i < j < |names| ensures names[i] != names[j] {
      if picks[i] < picks[j] {
        assert SymptomNames[picks[i]] != SymptomNames[picks[j]];
      } else {
        assert SymptomNames[picks[j]] != SymptomNames[picks[i]];
      }
    }
  }

  /** An index of the symptom list not drawn yet. */
  predicate NewPick(c: int, drawn: seq<int>) {
    0 <= c < |SymptomNames| && c !in drawn
  }

  /** Draws `random.sample(symptoms_list, random.randint(1, 3))` and joins it with commas. */
  method DrawSymptoms() returns (s: string)
    ensures DrawnSymptoms(s)
  {
    var k :| 1 <= k <= 3;
    var a :| 0 <= a < |SymptomNames|;
    assert NewPick(if a == 0 then 1 else 0, [a]);
    var b :| NewPick(b, [a]);
    assert NewPick(b, [a]) && b !in [a];
    var w := if a != 0 && b != 0 then 0 else if a != 1 && b != 1 then 1 else 2;
    assert NewPick(w, [a, b]);
    var c :| NewPick(c, [a, b]);
    assert NewPick(c, [a, b]) && c !in [a, b];
    assert b != a && c != a && c != b;
    var all := [a, b, c];
    assert forall i, j :: 0 <= i < j < 3 ==> all[i] != all[j];
    var picks := all[..k];
    JoinedDrawIsValid(picks);
    s := Join(seq(k, i requires 0 <= i < k => SymptomNames[picks[i]]), ',');
  }

  /** One iteration of the generation loop. */
  method GenerateRecord(id: int) returns (r: Record)
    ensures r.id == id && WellFormed(r)
  {
    var age :| 1 <= age <= 100;
    var g :| 0 <= g < 2;
    var gender := ["M", "F"][g];
    var symptoms := DrawSymptoms();
    var systolic :| 90 <= systolic <= 180;
    var diastolic :| 60 <= diastolic <= 120;
    var heartRate :| 60 <= heartRate <= 110;
    var tenths :| 360 <= tenths <= 400;
    var temperature := tenths as real / 10.0;
    assert temperature * 10.0 == tenths as real;
    var ci :| 0 <= ci < |PreExistingConditions|;
    var condition := PreExistingConditions[ci];
    var risk := LabelRisk(systolic, diastolic, temperature);
    var department: string;
    match KeywordDepartment(symptoms) {
      case Some(d) =>
        department := d;
      case None =>
        var i :| 0 <= i < |Departments|;
        department := Departments[i];
    }
    r := Record(id, age, gender, symptoms, systolic, diastolic, heartRate, temperature,
                condition, risk, department);
  }

  /** The whole loop: rows numbered from 1, each well formed. */
  method GenerateDataset(n: nat) returns (data: seq<Record>)
    ensures |data| == n
    ensures forall i :: 0 <= i < n ==> data[i].id == i + 1 && WellFormed(data[i])
  {
    data := [];
    for i := 1 to n + 1
      invariant |data| == i - 1
      invariant forall j :: 0 <= j < |data| ==> data[j].id == j + 1 && WellFormed(data[j])
    {
      var r := GenerateRecord(i);
      data := data + [r];
    }
  }

  /** Wherever the heart rate is at most 140, the label is inference.py's rule. */
  lemma LabelIsRiskRule(r: Record)
    requires r.heartRate <= 140
    ensures LabelRisk(r.systolic, r.diastolic, r.temperature) == AssignRiskRule(AsPatient(r))
  {
  }

  /**
   * On every generated row the label equals inference.py's rule, and the
   * "force High" override never fires (heart rate at most 110, temperature
   * at most 40), so a loaded risk model is always consulted.
   */
  lemma GeneratedRowsAgreeWithRule(r: Record, a: Artifacts)
    requires WellFormed(r)
    ensures r.risk == AssignRiskRule(AsPatient(r))
    ensures !ForcedHigh(AsPatient(r))
    ensures a.model.None? || a.encoder.None? ==> PredictRisk(AsPatient(r), a) == r.risk
  {
    LabelIsRiskRule(r);
  }

  /** A string without the first letter of k does not contain k. */
  lemma MissingFirstLetter(s: string, k: string)
    requires |k| > 0 && k[0] !in s
    ensures !Contains(s, k)
  {
    forall i | 0 <= i <= |s| - |k| ensures !OccursAt(s, k, i) {
      assert s[i] in s;
      assert s[i..i + |k|][0] != k[0];
    }
  }

  /**
   * A row whose only symptom is "Nausea" matches no keyword, so its label
   * may be any of the four departments, Cardiology included.
   */
  lemma NauseaMayBeLabelledCardiology()
    ensures DrawnSymptoms("Nausea")
    ensures "Cardiology" in DepartmentOutcomes("Nausea", Departments)
  {
    SplitFree("Nausea", ',');
    NauseaMatchesNoKeyword();
    assert Departments[1] == "Cardiology";
  }

  lemma NauseaMatchesNoKeyword()
    ensures KeywordDepartment("Nausea").None?
  {
    var s := Lower("Nausea");
    assert s == "nausea";
    MissingFirstLetter(s, "chest");
    MissingFirstLetter(s, "heart");
    MissingFirstLetter(s, "headache");
    MissingFirstLetter(s, "dizziness");
    MissingFirstLetter(s, "fever");
    MissingFirstLetter(s, "cough");
  }
}
