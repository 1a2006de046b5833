/**
 * What a press of the Predict button puts on the page, as an ordered list of
 * output calls (app.py, after the prediction): the predicted label, a heading
 * and one bullet per item for medicines, then diet, then lifestyle, and the
 * closing disclaimer.
 */
module Rendering {

  import opened Recommendations

  /** One output call, tagged by the kind of widget that shows it. */
  datatype Line =
    | Success(text: string)   // st.success
    | Markdown(text: string)  // st.markdown
    | Write(text: string)     // st.write
    | Info(text: string)      // st.info

  const MEDICINE_HEADING: string := "### \U{1F48A} Medicine Suggestions"
  const DIET_HEADING: string := "### \U{1F957} Diet Recommendations"
  const LIFESTYLE_HEADING: string := "### \U{1F331} Lifestyle Suggestions"
  const DISCLAIMER: string :=
    "\U{26A0}\U{FE0F} Disclaimer: This is a student project and should not be used for real medical decisions. "
    + "Always consult a certified doctor for diagnosis and treatment."

  /** The line announcing the classifier's label, shown in bold. */
  function PredictedLine(prediction: string): Line
  {
    Success("\U{1FA7A} Predicted Condition: **" + prediction + "**")
  }

  /** The bullet text of one advice item. */
  function Bullet(item: string): string
  {
    "- " + item
  }

  /** One written bullet per item, in list order. */
  function Bullets(items: seq<string>): (lines: seq<Line>)
    ensures |lines| == |items|
    ensures forall i :: 0 <= i < |items| ==> lines[i] == Write(Bullet(items[i]))
  {
    if items == [] then [] else [Write(Bullet(items[0]))] + Bullets(items[1..])
  }

  /** A heading followed by one bullet per item. */
  function Section(heading: string, items: seq<string>): (lines: seq<Line>)
    ensures |lines| == 1 + |items|
    ensures lines[0] == Markdown(heading)
    ensures forall i :: 0 <= i < |items| ==> lines[1 + i] == Write(Bullet(items[i]))
  {
    [Markdown(heading)] + Bullets(items)
  }

  /** The three headed sections of an advisory record: medicines, then diet, then lifestyle. */
  function RenderAdvice(a: Advice): (lines: seq<Line>)
    ensures |lines| == 3 + |a.medicines| + |a.diet| + |a.lifestyle|
    ensures lines[0] == Markdown(MEDICINE_HEADING)
    ensures forall i :: 0 <= i < |a.medicines| ==> lines[1 + i] == Write(Bullet(a.medicines[i]))
    ensures lines[1 + |a.medicines|] == Markdown(DIET_HEADING)
    ensures forall i :: 0 <= i < |a.diet| ==>
              lines[2 + |a.medicines| + i] == Write(Bullet(a.diet[i]))
    ensures lines[2 + |a.medicines| + |a.diet|] == Markdown(LIFESTYLE_HEADING)
    ensures forall i :: 0 <= i < |a.lifestyle| ==>
              lines[3 + |a.medicines| + |a.diet| + i] == Write(Bullet(a.lifestyle[i]))
  {
    Section(MEDICINE_HEADING, a.medicines)
    + Section(DIET_HEADING, a.diet)
    + Section(LIFESTYLE_HEADING, a.lifestyle)
  }

  /** The whole result block: label, advice sections, disclaimer. */
  function Page(prediction: string, a: Advice): (lines: seq<Line>)
    ensures |lines| == 5 + |a.medicines| + |a.diet| + |a.lifestyle|
    ensures lines[0] == PredictedLine(prediction)
    ensures lines[1..|lines| - 1] == RenderAdvice(a)
    ensures lines[|lines| - 1] == Info(DISCLAIMER)
  {
    [PredictedLine(prediction)] + RenderAdvice(a) + [Info(DISCLAIMER)]
  }

  /** Reads the advice items back from the bullets of a page, skipping every other line. */
  function BulletItems(lines: seq<Line>): seq<string>
  {
    if lines == [] then []
    else
      var rest := BulletItems(lines[1..]);
      var l := lines[0];
      if l.Write? && |l.text| >= 2 && l.text[..2] == "- " then [l.text[2..]] + rest else rest
  }

  /** The items of a record, in the order the page shows them. */
  function AllItems(a: Advice): seq<string>
  {
    a.medicines + a.diet + a.lifestyle
  }

  /** A line that is not a written bullet contributes no item. */
  lemma NonWriteAddsNothing(l: Line)
    requires !l.Write?
    ensures BulletItems([l]) == []
  {
    assert [l][1..] == [];
  }

  lemma {:induction false} BulletItemsAppend(xs: seq<Line>, ys: seq<Line>)
    ensures BulletItems(xs + ys) == BulletItems(xs) + BulletItems(ys)
  {
    if xs == [] {
      assert xs + ys == ys;
    } else {
      assert (xs + ys)[1..] == xs[1..] + ys;
      BulletItemsAppend(xs[1..], ys);
    }
  }

  /** Bulleting a list and reading the bullets back gives the list. */
  lemma {:induction false} BulletItemsOfBullets(items: seq<string>)
    ensures BulletItems(Bullets(items)) == items
  {
    if items != [] {
      var b := Bullets(items);
      assert b == [Write(Bullet(items[0]))] + Bullets(items[1..]);
      assert Bullet(items[0])[..2] == "- " && Bullet(items[0])[2..] == items[0];
      BulletItemsAppend([Write(Bullet(items[0]))], Bullets(items[1..]));
      BulletItemsOfBullets(items[1..]);
    }
  }

  /** The bullets of a section are its items; the heading adds none. */
  lemma {:induction false} SectionItems(heading: string, items: seq<string>)
    ensures BulletItems(Section(heading, items)) == items
  {
    NonWriteAddsNothing(Markdown(heading));
    BulletItemsAppend([Markdown(heading)], Bullets(items));
    BulletItemsOfBullets(items);
  }

  /**
   * The bullets of the advice sections list every medicine item, then every
   * diet item, then every lifestyle item, each once and in list order.
   */
  lemma {:induction false} RenderedItemsInOrder(a: Advice)
    ensures BulletItems(RenderAdvice(a)) == AllItems(a)
  {
    var sm := Section(MEDICINE_HEADING, a.medicines);
    var sd := Section(DIET_HEADING, a.diet);
    var sl := Section(LIFESTYLE_HEADING, a.lifestyle);
    SectionItems(MEDICINE_HEADING, a.medicines);
    SectionItems(DIET_HEADING, a.diet);
    SectionItems(LIFESTYLE_HEADING, a.lifestyle);
    BulletItemsAppend(sm, sd);
    BulletItemsAppend(sm + sd, sl);
  }

  /** On a full page the label and disclaimer lines add no bullet items. */
  lemma {:induction false} PageItemsInOrder(prediction: string, a: Advice)
    ensures BulletItems(Page(prediction, a)) == AllItems(a)
  {
    var head, tail := [PredictedLine(prediction)], [Info(DISCLAIMER)];
    NonWriteAddsNothing(head[0]);
    NonWriteAddsNothing(tail[0]);
    BulletItemsAppend(head, RenderAdvice(a));
    BulletItemsAppend(head + RenderAdvice(a), tail);
    RenderedItemsInOrder(a);
  }
}
