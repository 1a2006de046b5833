/**
 * The rule-based recommendation lookup of app.py (get_recommendations).
 *
 * The source builds a dictionary from five diagnosis labels to advisory
 * records and answers with `.get(label, default)`. `RecommendationTable` and
 * `GetRecommendations` model exactly that; `Diagnosis`, `Label` and `Classify`
 * give the closed set of known labels as an enumeration, and the lemmas tie
 * the two views together.
 */
module Recommendations {

  import opened Wrappers

  /** An advisory record: three ordered lists of human-readable advice. */
  datatype Advice = Advice(medicines: seq<string>, diet: seq<string>, lifestyle: seq<string>)

  /** The five labels the table knows. */
  datatype Diagnosis = Diabetes | Hypertension | HeartDisease | Flu | Normal

  /** The dictionary key of each known diagnosis. */
  function Label(d: Diagnosis): string
  {
    match d
    case Diabetes => "Diabetes"
    case Hypertension => "Hypertension"
    case HeartDisease => "Heart Disease"
    case Flu => "Flu"
    case Normal => "Normal"
  }

  /** The set of dictionary keys. */
  const KNOWN_LABELS: set<string> := {"Diabetes", "Hypertension", "Heart Disease", "Flu", "Normal"}

  /** Recognises a key exactly (case-sensitive, no trimming). */
  function Classify(s: string): (r: Option<Diagnosis>)
    ensures r.Some? ==> Label(r.value) == s
    ensures r.None? ==> forall d: Diagnosis :: Label(d) != s
  {
    if s == "Diabetes" then Some(Diabetes)
    else if s == "Hypertension" then Some(Hypertension)
    else if s == "Heart Disease" then Some(HeartDisease)
    else if s == "Flu" then Some(Flu)
    else if s == "Normal" then Some(Normal)
    else None
  }

  /** The advisory record written in the table for each known diagnosis. */
  function Table(d: Diagnosis): Advice
  {
    match d
    case Diabetes =>
      Advice(
        ["Metformin (as prescribed by doctor)",
         "Insulin therapy (if advised by doctor)"],
        ["Avoid sugary drinks and sweets",
         "Eat more whole grains, vegetables, and high-fiber foods",
         "Control portion sizes, avoid overeating"],
        ["Walk at least 30 minutes daily",
         "Regular checkup for blood sugar levels",
         "Maintain healthy body weight"])
    case Hypertension =>
      Advice(
        ["ACE inhibitors / ARBs (doctor prescribed)",
         "Beta-blockers or calcium channel blockers (if prescribed)"],
        ["Low-salt (low-sodium) diet",
         "Avoid junk food and deep-fried items",
         "Increase intake of fruits and green leafy vegetables"],
        ["Regular blood pressure monitoring",
         "Reduce stress, practice yoga/meditation",
         "Avoid smoking and alcohol"])
    case HeartDisease =>
      Advice(
        ["Antiplatelet drugs (like aspirin if prescribed)",
         "Statins to control cholesterol (doctor prescribed)"],
        ["Low-fat, heart-healthy diet",
         "Avoid red meat and trans fats",
         "Eat more omega-3 rich foods (fish, flaxseeds)"],
        ["Regular moderate exercise (as per cardiologist guidance)",
         "Avoid smoking completely",
         "Manage stress properly"])
    case Flu =>
      Advice(
        ["Paracetamol for fever (as per dosage)",
         "Cough syrup (if prescribed)",
         "Plenty of fluids and rest"],
        ["Warm fluids like soup and herbal tea",
         "Avoid cold drinks and junk food",
         "Eat light, easy-to-digest food"],
        ["Take proper rest and sleep",
         "Avoid going out to prevent spreading infection",
         "Maintain hygiene and use mask if coughing"])
    case Normal =>
      Advice(
        ["No specific medicine required"],
        ["Maintain a balanced diet with fruits and vegetables",
         "Avoid excessive sugar, salt, and fast food"],
        ["Regular exercise (30 mins/day)",
         "Regular yearly health checkup",
         "Stay hydrated and sleep 7\U{2013}8 hours"])
  }

  /** The record returned for any label the table does not hold. */
  const DEFAULT_ADVICE: Advice :=
    Advice(
      ["Consult a registered medical practitioner."],
      ["Follow a simple, balanced home-cooked diet."],
      ["Maintain regular exercise and sleep schedule."])

  /** The dictionary built afresh on every call; it is never mutated. */
  function RecommendationTable(): (m: map<string, Advice>)
    ensures m.Keys == KNOWN_LABELS
  {
    map[Label(Diabetes) := Table(Diabetes),
        Label(Hypertension) := Table(Hypertension),
        Label(HeartDisease) := Table(HeartDisease),
        Label(Flu) := Table(Flu),
        Label(Normal) := Table(Normal)]
  }

  /** Every list of a record is non-empty. */
  predicate Complete(a: Advice)
  {
    |a.medicines| > 0 && |a.diet| > 0 && |a.lifestyle| > 0
  }

  /**
   * `get_recommendations(diagnosis)`: the table's record for the label, or
   * the default record. The label is the string form of the prediction.
   */
  function GetRecommendations(diagnosis: string): (r: Advice)
    ensures Complete(r)
    ensures diagnosis in KNOWN_LABELS ==> r == Table(Classify(diagnosis).value)
    ensures diagnosis !in KNOWN_LABELS ==> r == DEFAULT_ADVICE
  {
    var table := RecommendationTable();
    if diagnosis in table then table[diagnosis] else DEFAULT_ADVICE
  }

  /** A label is a key exactly when the classifier recognises it. */
  lemma KnownIffClassified(s: string)
    ensures s in KNOWN_LABELS <==> Classify(s).Some?
  {
  }

  /** Classifying the key of a diagnosis gives that diagnosis back. */
  lemma ClassifyLabel(d: Diagnosis)
    ensures Classify(Label(d)) == Some(d)
  {
  }

  /** Each known label yields exactly the lists written for it in the table. */
  lemma KnownLabelLookup(d: Diagnosis)
    ensures GetRecommendations(Label(d)) == Table(d)
  {
    ClassifyLabel(d);
  }

  /** The dictionary lookup agrees with the enumeration view of the table. */
  lemma LookupAgreesWithClassifier(s: string)
    ensures GetRecommendations(s) == match Classify(s)
                                     case Some(d) => Table(d)
                                     case None => DEFAULT_ADVICE
  {
    KnownIffClassified(s);
  }

  /** The default record is returned if and only if the label is not a key. */
  lemma DefaultIffUnknown(s: string)
    ensures GetRecommendations(s) == DEFAULT_ADVICE <==> s !in KNOWN_LABELS
  {
  }

  /** Matching is case-sensitive: a lower-case label falls back to the default. */
  lemma LowerCaseLabelFallsBack()
    ensures GetRecommendations("diabetes") == DEFAULT_ADVICE
  {
  }
}
