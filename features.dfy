/**
 * The input vector of app.py: the nine form values in the order the trainer
 * fitted the classifier on (the `feature_cols` list of train_model.py).
 *
 * numpy promotes the mixed list of integers and one float to floating point,
 * so every entry is a `real`; the integer vitals are copied exactly. BMI is
 * carried through unchanged and nothing is computed with it.
 */
module Features {

  import opened Wrappers

  /** The values the form collects: four integer sliders, the BMI slider and four checkboxes. */
  datatype FormInput = FormInput(
    age: int,
    bloodPressure: int,
    glucoseLevel: int,
    heartRate: int,
    bmi: real,
    fever: bool,
    cough: bool,
    fatigue: bool,
    pain: bool)

  /** The trainer's column order, which the classifier expects. */
  const FEATURE_COLUMNS: seq<string> := [
    "age",
    "blood_pressure",
    "glucose_level",
    "heart_rate",
    "bmi",
    "symptom_fever",
    "symptom_cough",
    "symptom_fatigue",
    "symptom_pain"
  ]

  /** A checkbox as a number: 1 when checked, 0 otherwise. */
  function SymptomValue(checked: bool): (v: int)
    ensures v == 0 || v == 1
    ensures v == 1 <==> checked
  {
    if checked then 1 else 0
  }

  /** The value the form gives for a named trainer column, if it is one of them. */
  function ColumnValue(f: FormInput, name: string): Option<real>
  {
    if name == "age" then Some(f.age as real)
    else if name == "blood_pressure" then Some(f.bloodPressure as real)
    else if name == "glucose_level" then Some(f.glucoseLevel as real)
    else if name == "heart_rate" then Some(f.heartRate as real)
    else if name == "bmi" then Some(f.bmi)
    else if name == "symptom_fever" then Some(SymptomValue(f.fever) as real)
    else if name == "symptom_cough" then Some(SymptomValue(f.cough) as real)
    else if name == "symptom_fatigue" then Some(SymptomValue(f.fatigue) as real)
    else if name == "symptom_pain" then Some(SymptomValue(f.pain) as real)
    else None
  }

  /**
   * The single row handed to the classifier. Position i holds the value of
   * the i-th trainer column, and the four symptom entries are 0 or 1.
   */
  function InputVector(f: FormInput): (v: seq<real>)
    ensures |v| == |FEATURE_COLUMNS| == 9
    ensures forall i :: 0 <= i < |v| ==> ColumnValue(f, FEATURE_COLUMNS[i]) == Some(v[i])
    ensures forall i :: 5 <= i < |v| ==> v[i] == 0.0 || v[i] == 1.0
  {
    [f.age as real,
     f.bloodPressure as real,
     f.glucoseLevel as real,
     f.heartRate as real,
     f.bmi,
     SymptomValue(f.fever) as real,
     SymptomValue(f.cough) as real,
     SymptomValue(f.fatigue) as real,
     SymptomValue(f.pain) as real]
  }

  /** Reads a form back from a row: the inverse of `InputVector` on well-formed rows. */
  function FormOf(v: seq<real>): Option<FormInput>
  {
    if |v| == 9 then
      Some(FormInput(v[0].Floor, v[1].Floor, v[2].Floor, v[3].Floor, v[4],
                     v[5] == 1.0, v[6] == 1.0, v[7] == 1.0, v[8] == 1.0))
    else None
  }

  /** No form value is lost or moved: the row determines the form it came from. */
  lemma FormOfInputVector(f: FormInput)
    ensures FormOf(InputVector(f)) == Some(f)
  {
  }

  /** Distinct forms give distinct rows. */
  lemma InputVectorInjective(f: FormInput, g: FormInput)
    requires InputVector(f) == InputVector(g)
    ensures f == g
  {
    FormOfInputVector(f);
    FormOfInputVector(g);
  }

  /** The column names are pairwise distinct, so a position names exactly one column. */
  lemma ColumnsDistinct()
    ensures forall i, j :: 0 <= i < j < |FEATURE_COLUMNS| ==> FEATURE_COLUMNS[i] != FEATURE_COLUMNS[j]
  {
  }

  /** The ranges the form's sliders allow. */
  predicate WithinSliderRanges(f: FormInput)
  {
    && 10 <= f.age <= 90
    && 90 <= f.bloodPressure <= 200
    && 70 <= f.glucoseLevel <= 250
    && 50 <= f.heartRate <= 140
    && 15.0 <= f.bmi <= 40.0
  }

  /** The lowest and highest value of each column as the form can produce it, in column order. */
  const COLUMN_RANGES: seq<(real, real)> := [
    (10.0, 90.0), (90.0, 200.0), (70.0, 250.0), (50.0, 140.0), (15.0, 40.0),
    (0.0, 1.0), (0.0, 1.0), (0.0, 1.0), (0.0, 1.0)
  ]

  /** A row built from slider values lies entry by entry inside the column's range. */
  lemma InputVectorWithinRanges(f: FormInput)
    requires WithinSliderRanges(f)
    ensures |COLUMN_RANGES| == |InputVector(f)|
    ensures forall i :: 0 <= i < |COLUMN_RANGES| ==>
              COLUMN_RANGES[i].0 <= InputVector(f)[i] <= COLUMN_RANGES[i].1
  {
  }

  /** The worked example: (45, 130, 110, 75, 26.0, fever, no cough, fatigue, no pain). */
  lemma ExampleVector()
    ensures InputVector(FormInput(45, 130, 110, 75, 26.0, true, false, true, false))
         == [45.0, 130.0, 110.0, 75.0, 26.0, 1.0, 0.0, 1.0, 0.0]
  {
  }
}
