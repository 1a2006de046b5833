# Healthcare recommendation demo: Dafny model of its request path

The repository is a small demo. A trainer script fits a random-forest
classifier on patient vitals. A web form (`app.py`) collects nine values,
asks the classifier for a diagnosis label, looks the label up in a fixed
table of advice, and prints the advice. This project models the part of
`app.py` that is the program's own logic. It also proves what that logic
promises.

- **Recommendation lookup** (`recommendations.dfy`, module `Recommendations`).
  `get_recommendations` builds a dictionary from five labels ("Diabetes",
  "Hypertension", "Heart Disease", "Flu", "Normal") to an `Advice` record
  of three ordered string lists. It answers with `.get(label, default)`.
  `RecommendationTable` and `GetRecommendations` model that map and that lookup.
  `Diagnosis`, `Label` and `Classify` give the closed label set as an enumeration.
  The lemmas show that the two views agree, that matching is exact and
  case-sensitive, and that the default is returned exactly for unknown labels.
  The lookup is a Dafny function that reads no state, so the same label
  always yields the same record.
- **Input vector** (`features.dfy`, module `Features`). The four checkboxes
  become 0 or 1. The nine values are then placed in the trainer's column
  order (`FEATURE_COLUMNS`, the trainer's `feature_cols` list). numpy turns
  the mixed list into floating point, so the row is a `seq<real>`. The
  integer vitals are copied exactly, and BMI is passed through unchanged.
  `ColumnValue` is an independent by-name reference for the columns.
  `FormOf` is an inverse that reads a form back from its row.
- **Rendering** (`rendering.dfy`, module `Rendering`). Each output call
  becomes a `Line`, tagged by the widget that shows it. The result block is:
  the predicted-label line, three headed sections of `"- " + item` bullets
  (medicines, then diet, then lifestyle), and then the disclaimer.
  `BulletItems` reads the items back from a list of lines. The lemmas
  prove that the block lists exactly the record's items, in order.
- **One press of Predict** (`app.dfy`, module `App`). The trained
  classifier is passed in as a function from a row to a label. `Predict`
  chains the row, the label, the lookup and the rendering.
- `wrappers.dfy` holds the `Option` type.

Two points about the code that the model makes explicit:
- The result line puts 🩺 before the label and wraps the label in
  `**…**` (app.py:175). `Rendering.PredictedLine` models that.
- The feature list loaded at app.py:13 is never read. The row order is
  hard-coded at app.py:160-170, and `Features.InputVector` proves it
  matches the trainer's column list (train_model.py:12-22).

## Model

| member | source | states |
|---|---|---|
| Recommendations.Classify | app.py:24-104 | a label is recognised only when it is exactly one of the five dictionary keys, and it maps to the diagnosis with that key; any other string is recognised as none |
| Recommendations.RecommendationTable | app.py:24-104 | the dictionary has exactly the five keys "Diabetes", "Hypertension", "Heart Disease", "Flu", "Normal" |
| Recommendations.GetRecommendations | app.py:21-111 | every record returned has three non-empty lists; a key gets its table entry; any other label gets the default record |
| Recommendations.KnownIffClassified | app.py:107 | a string is a dictionary key if and only if the enumeration recognises it |
| Recommendations.ClassifyLabel | app.py:24-104 | the key of each diagnosis is recognised as that diagnosis (round trip label -> diagnosis) |
| Recommendations.KnownLabelLookup | app.py:25-104 | each of the five labels yields exactly the medicines, diet and lifestyle lists written for it, in order |
| Recommendations.LookupAgreesWithClassifier | app.py:107-111 | the dictionary lookup with default equals the enumeration view: the table's entry when the label is recognised, the default otherwise |
| Recommendations.DefaultIffUnknown | app.py:106-111 | the default record is returned if and only if the label is not one of the five keys |
| Recommendations.LowerCaseLabelFallsBack | app.py:107 | matching is case-sensitive: "diabetes" gets the default record |
| Features.SymptomValue | app.py:151-154 | a checkbox encodes as 0 or 1, and as 1 exactly when it is checked |
| Features.InputVector | app.py:159-170 | the row has 9 entries; entry i is the form's value for the i-th trainer column; the four symptom entries are 0 or 1 |
| Features.ColumnsDistinct | train_model.py:12-22 | the trainer's nine column names are pairwise distinct, so each position names one column |
| Features.FormOfInputVector | app.py:160-170 | the row loses nothing: reading it back gives the original form |
| Features.InputVectorInjective | app.py:160-170 | distinct forms give distinct rows |
| Features.InputVectorWithinRanges | app.py:135-154 | a form within the slider bounds gives a row whose every entry lies in its column's range, with the symptom entries in [0, 1] |
| Features.ExampleVector | app.py:160-170 | (45, 130, 110, 75, 26.0, fever, no cough, fatigue, no pain) becomes [45, 130, 110, 75, 26.0, 1, 0, 1, 0] |
| Rendering.Bullets | app.py:181-182 | one written line per item, line i being "- " followed by item i |
| Rendering.Section | app.py:180-182 | a section is its heading line, then at position 1 + i the bullet "- " + item i for every item |
| Rendering.RenderAdvice | app.py:180-190 | medicine heading and bullets, then diet heading and bullets, then lifestyle heading and bullets, each item at its computed position |
| Rendering.Page | app.py:175-195 | the block starts with the predicted-label line, ends with the disclaimer, and holds the rendered advice in between |
| Rendering.BulletItemsOfBullets | app.py:181-190 | reading the bullets back gives the item list unchanged |
| Rendering.SectionItems | app.py:180-190 | a heading line adds no item to its section |
| Rendering.RenderedItemsInOrder | app.py:180-190 | the advice sections list every medicine item, then every diet item, then every lifestyle item, each once and in list order |
| Rendering.PageItemsInOrder | app.py:175-195 | the label and disclaimer lines add no items; the page lists exactly the record's items in order |
| App.Predict | app.py:158-190 | the block's first line shows the classifier's label for the row in trainer order, and its bullets are exactly the recommended items for that label |
| App.AlwaysDiabetes | app.py:173-190 | with a classifier that always answers "Diabetes", every form shows that label and the literal Diabetes lists |
| App.UnknownLabelGetsDefault | app.py:173-178 | a label outside the table still produces the full block, with the default advice |

## Left out

- Loading the model and the feature list from disk, and the process-wide cache around that (app.py:10-16): file I/O and framework caching.
- The classifier's `predict` call (app.py:173): an opaque library model. It is a parameter of `App.Predict`, a total function from a row to a label.
- `str(diagnosis)` (app.py:22) on non-string predictions: the label is taken as a string, on which `str` is the identity.
- The page setup, title, introduction text, subheadings, columns, sliders, checkboxes and button (app.py:117-158): UI calls. The slider bounds appear only as the `Features.WithinSliderRanges` hypothesis. `App.Predict` models the press of the button; the page without a press shows no result block.
- Floating-point representation of the row: entries are exact reals. The integer vitals in slider range are exact in binary floating point, and BMI is never computed with.
- All of train_model.py except its column list: CSV reading, the train/test split, fitting, metrics and saving are library calls.
