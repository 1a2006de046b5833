/**
 * One press of the Predict button in app.py: assemble the row, ask the
 * classifier for a label, look the label up and render the result block.
 * The trained classifier is a parameter: a total function from a row to a label.
 */
module App {

  import opened Recommendations
  import opened Features
  import opened Rendering

  /** The label the classifier gives for a form: it sees the row in the trainer's column order. */
  function Prediction(f: FormInput, classifier: seq<real> -> string): string
  {
    classifier(InputVector(f))
  }

  /**
   * The lines shown for a form: the classifier sees the row in the trainer's
   * column order, the label is shown verbatim, and the bullets are exactly the
   * recommended items for that label.
   */
  function Predict(f: FormInput, classifier: seq<real> -> string): (lines: seq<Line>)
    ensures var advice := GetRecommendations(Prediction(f, classifier));
            && |lines| == 5 + |AllItems(advice)|
            && lines[0] == PredictedLine(Prediction(f, classifier))
            && BulletItems(lines) == AllItems(advice)
  {
    var predicted := Prediction(f, classifier);
    var advice := GetRecommendations(predicted);
    PageItemsInOrder(predicted, advice);
    Page(predicted, advice)
  }

  /**
   * With a classifier that always answers "Diabetes", every form yields the
   * Diabetes label line and the Diabetes lists written in the table.
   */
  lemma AlwaysDiabetes(f: FormInput)
    ensures Predict(f, _ => "Diabetes")[0] == PredictedLine("Diabetes")
    ensures BulletItems(Predict(f, _ => "Diabetes")) == AllItems(Table(Diabetes))
  {
    KnownLabelLookup(Diabetes);
  }

  /** An unknown label still produces the full block, with the default advice. */
  lemma UnknownLabelGetsDefault(f: FormInput, classifier: seq<real> -> string)
    requires classifier(InputVector(f)) !in KNOWN_LABELS
    ensures BulletItems(Predict(f, classifier)) == AllItems(DEFAULT_ADVICE)
  {
  }
}
