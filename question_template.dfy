/**
 * What the two builders of the question-generation prompt share: the
 * `{timeFrame}` placeholder, its global replacement by the lowercased time
 * frame, and the frame of the prompt (the prediction and the conversation
 * behind their labels, then the filled instructions).
 */
module QuestionTemplate {
  import opened Text
  import opened Records

  const Placeholder := "{timeFrame}"
  const PredictionLabel := "\nTarot Prediction: "
  const PromptGap := "\n\n"

  /** The lowercased name of a time frame, as it replaces the placeholder. */
  function LowerName(t: TimeFrame): (r: string)
    ensures r == "past" || r == "present" || r == "future"
    ensures ToLower(TimeFrameName(t)) == r
  {
    match t
    case Past => assert ToLower("PAST") == "past"; "past"
    case Present => assert ToLower("PRESENT") == "present"; "present"
    case Future => assert ToLower("FUTURE") == "future"; "future"
  }

  /** `template.replace(/{timeFrame}/g, timeFrame.toLowerCase())`. */
  function Fill(template: string, timeFrame: string): string {
    ReplaceAll(template, Placeholder, ToLower(timeFrame))
  }

  /**
   * Every placeholder is replaced by the lowercased time frame and the rest
   * of the template is kept: the filled text is the template's pieces
   * between placeholders, none of which holds one, joined by the
   * replacement.
   */
  lemma FillReplacesEveryPlaceholder(template: string, timeFrame: string)
    ensures Fill(template, timeFrame) == Join(Split(template, Placeholder), ToLower(timeFrame))
    ensures forall i :: 0 <= i < |Split(template, Placeholder)| ==> !Occurs(Placeholder, Split(template, Placeholder)[i])
  {
    ReplaceAllIsSplitJoin(template, Placeholder, ToLower(timeFrame));
    SplitPiecesAreFree(template, Placeholder);
  }

  /** A time frame that is already lowercased fills the template as its original does. */
  lemma FillLowersOnce(template: string, timeFrame: string)
    ensures Fill(template, ToLower(timeFrame)) == Fill(template, timeFrame)
  {
    ToLowerIdempotent(timeFrame);
  }

  /** Filled with the name of any time frame, no placeholder remains. */
  lemma FilledTemplateHasNoPlaceholder(template: string, t: TimeFrame)
    ensures !Occurs(Placeholder, Fill(template, TimeFrameName(t)))
  {
    var rep := LowerName(t);
    assert Placeholder[1..] == "timeFrame}";
    assert Placeholder[0] !in rep && rep[0] !in Placeholder[1..];
    ReplaceAllRemovesPattern(template, Placeholder, rep);
  }

  /** The template literal: the prediction and the conversation, verbatim behind their labels, then the filled instructions. */
  function Frame(prediction: string, conversationLabel: string, conversation: string, filled: string): (r: string)
    ensures |r| == |PredictionLabel| + |prediction| + |conversationLabel| + |conversation| + |PromptGap| + |filled|
    ensures StartsWith(r, PredictionLabel)
    ensures var p := |PredictionLabel| + |prediction|;
      && r[|PredictionLabel|..p] == prediction
      && r[p..p + |conversationLabel|] == conversationLabel
      && r[p + |conversationLabel|..p + |conversationLabel| + |conversation|] == conversation
    ensures EndsWith(r, PromptGap + filled)
  {
    PredictionLabel + prediction + conversationLabel + conversation + PromptGap + filled
  }

  /** The framed prompt as three lines, each behind a line break. */
  lemma FrameLines(prediction: string, conversationLabel: string, conversation: string, filled: string)
    requires conversationLabel != [] && conversationLabel[0] == '\n'
    ensures Frame(prediction, conversationLabel, conversation, filled)
         == "\n" + (PredictionLabel[1..] + prediction)
          + ("\n" + (conversationLabel[1..] + conversation))
          + ("\n" + (PromptGap[1..] + filled))
  {
    assert conversationLabel == "\n" + conversationLabel[1..];
    assert PredictionLabel == "\n" + PredictionLabel[1..] && PromptGap == "\n" + PromptGap[1..];
  }

  /** Three lines without the placeholder, each behind a line break, do not hold it together. */
  lemma LinesHaveNoPlaceholder(x: string, y: string, z: string)
    requires !Occurs(Placeholder, x) && !Occurs(Placeholder, y) && !Occurs(Placeholder, z)
    ensures !Occurs(Placeholder, "\n" + x + ("\n" + y) + ("\n" + z))
  {
    NoOccurrenceAfterFreePrefix(Placeholder, "\n", x);
    NoOccurrenceAfterFreePrefix(Placeholder, "\n", y);
    NoOccurrenceAfterFreePrefix(Placeholder, "\n", z);
    NoOccurrenceBeforeFreeChar(Placeholder, "\n" + x, "\n" + y);
    NoOccurrenceBeforeFreeChar(Placeholder, "\n" + x + ("\n" + y), "\n" + z);
  }

  /**
   * A placeholder can only be in the framed prompt if it is in one of the
   * three texts put into it, since every label starts a new line and holds
   * no brace.
   */
  lemma FrameHasNoPlaceholder(prediction: string, conversationLabel: string, conversation: string, filled: string)
    requires conversationLabel != [] && conversationLabel[0] == '\n' && '{' !in conversationLabel
    requires !Occurs(Placeholder, prediction) && !Occurs(Placeholder, conversation) && !Occurs(Placeholder, filled)
    ensures !Occurs(Placeholder, Frame(prediction, conversationLabel, conversation, filled))
  {
    assert '{' !in PredictionLabel[1..] && '{' !in PromptGap[1..];
    assert forall c :: c in conversationLabel[1..] ==> c in conversationLabel;
    NoOccurrenceAfterFreePrefix(Placeholder, PredictionLabel[1..], prediction);
    NoOccurrenceAfterFreePrefix(Placeholder, conversationLabel[1..], conversation);
    NoOccurrenceAfterFreePrefix(Placeholder, PromptGap[1..], filled);
    LinesHaveNoPlaceholder(PredictionLabel[1..] + prediction, conversationLabel[1..] + conversation, PromptGap[1..] + filled);
    FrameLines(prediction, conversationLabel, conversation, filled);
  }

  /** The prompt of a builder: the frame around the filled instructions. */
  function Build(prediction: string, conversationLabel: string, conversation: string, template: string, timeFrame: string): string {
    Frame(prediction, conversationLabel, conversation, Fill(template, timeFrame))
  }

  /** Building with a time frame that is already lowercased builds the same prompt. */
  lemma BuildLowersOnce(prediction: string, conversationLabel: string, conversation: string, template: string, timeFrame: string)
    ensures Build(prediction, conversationLabel, conversation, template, ToLower(timeFrame))
         == Build(prediction, conversationLabel, conversation, template, timeFrame)
  {
    FillLowersOnce(template, timeFrame);
  }

  /**
   * The prompt is the prediction and the conversation, verbatim, behind
   * their labels and in that order, then the instructions with every
   * placeholder replaced by the lowercased time frame and the text between
   * placeholders unchanged.
   */
  lemma BuildShape(prediction: string, conversationLabel: string, conversation: string, template: string, timeFrame: string)
    ensures var r := Build(prediction, conversationLabel, conversation, template, timeFrame);
      var p := |PredictionLabel| + |prediction|;
      && StartsWith(r, PredictionLabel)
      && r[|PredictionLabel|..p] == prediction
      && r[p..p + |conversationLabel|] == conversationLabel
      && r[p + |conversationLabel|..p + |conversationLabel| + |conversation|] == conversation
      && EndsWith(r, PromptGap + Join(Split(template, Placeholder), ToLower(timeFrame)))
  {
    FillReplacesEveryPlaceholder(template, timeFrame);
  }

  /**
   * For every time frame the prompt holds no `{timeFrame}` placeholder,
   * unless the prediction or the conversation brought one in.
   */
  lemma BuildHasNoPlaceholder(prediction: string, conversationLabel: string, conversation: string, template: string, t: TimeFrame)
    requires conversationLabel != [] && conversationLabel[0] == '\n' && '{' !in conversationLabel
    requires !Occurs(Placeholder, prediction) && !Occurs(Placeholder, conversation)
    ensures !Occurs(Placeholder, Build(prediction, conversationLabel, conversation, template, TimeFrameName(t)))
  {
    FilledTemplateHasNoPlaceholder(template, t);
    FrameHasNoPlaceholder(prediction, conversationLabel, conversation, Fill(template, TimeFrameName(t)));
  }
}
