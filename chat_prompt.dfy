/**
 * The prompt builder of the chat function: the reading's question, hand text
 * and prediction placed in front of fixed instructions that still carry their
 * own `{question}`, `{cards}` and `{prediction}` placeholders, which the
 * builder never fills in.
 */
module ChatPrompt {
  import opened Text

  /** The instructions up to the first placeholder. */
  const Opening: string := "You are Celeste, a friendly AI Tarot reader and fortune teller. Provide insightful feedback and further predictions based on the existing conversation and tarot reading:\n\nQuestion: \""

  const QuestionPlaceholder := "{question}"
  const CardsPlaceholder := "{cards}"
  const PredictionPlaceholder := "{prediction}"

  /** The instructions from the last placeholder on. */
  const Guidelines: string := "\n\nGuidelines:\n1. Use a warm, conversational tone.\n2. Keep responses concise (2-3 sentences).\n3. Acknowledge the user's input before continuing.\n4. Provide new insights or details that expand on the original prediction.\n5. Relate your feedback to specific cards or aspects of the user's question.\n6. Make your predictions sound accurate and relevant to the user's situation.\n7. Do not repeat information already discussed in the conversation.\n8. Focus on giving the user a deeper understanding of their reading.\n\nAim for a personal and insightful dialogue that builds upon the existing prediction."

  /** The fixed instructions, with the placeholders where they stand. */
  const SystemPrompt: string := Opening + PlaceholderLines + Guidelines

  const QuestionLabel := "\nQuestion: "
  const CardsLabel := "\nCards: "
  const PredictionLabel := "\nPrediction: "
  const PromptGap := "\n\n"

  /**
   * The template literal of the prompt builder, over any instructions: the
   * question, the hand text and the prediction, each verbatim behind its
   * label and in this order, then the instructions closing the prompt.
   */
  function Compose(question: string, cards: string, prediction: string, instructions: string): (r: string)
    ensures |r| == |QuestionLabel| + |question| + |CardsLabel| + |cards| + |PredictionLabel| + |prediction|
                   + |PromptGap| + |instructions|
    ensures StartsWith(r, QuestionLabel)
    ensures var q := |QuestionLabel| + |question|;
      var c := q + |CardsLabel| + |cards|;
      && r[|QuestionLabel|..q] == question
      && r[q..q + |CardsLabel|] == CardsLabel
      && r[q + |CardsLabel|..c] == cards
      && r[c..c + |PredictionLabel|] == PredictionLabel
      && r[c + |PredictionLabel|..c + |PredictionLabel| + |prediction|] == prediction
    ensures EndsWith(r, PromptGap + instructions)
  {
    QuestionLabel + question + CardsLabel + cards + PredictionLabel + prediction + PromptGap + instructions
  }

  /** The prompt the chat function's builder produces (`generateDynamicPrompt`). */
  function GenerateDynamicPrompt(question: string, cards: string, prediction: string): string
  {
    Compose(question, cards, prediction, SystemPrompt)
  }

  /** The instructions between the opening and the guidelines. */
  const PlaceholderLines := QuestionPlaceholder + "\"\nCards: " + CardsPlaceholder + "\nPrediction: " + PredictionPlaceholder

  /** Where the three placeholders stand inside instructions of this shape. */
  lemma PlaceholdersBetween(opening: string, guidelines: string)
    ensures var s := opening + PlaceholderLines + guidelines;
      && MatchesAt(QuestionPlaceholder, s, |opening|)
      && MatchesAt(CardsPlaceholder, s, |opening| + 19)
      && MatchesAt(PredictionPlaceholder, s, |opening| + 39)
  {
    var s := opening + PlaceholderLines + guidelines;
    assert s[|opening|..|opening| + |PlaceholderLines|] == PlaceholderLines;
    assert PlaceholderLines[..10] == QuestionPlaceholder;
    assert PlaceholderLines[19..26] == CardsPlaceholder;
    assert PlaceholderLines[39..51] == PredictionPlaceholder;
  }

  /** Where the three placeholders stand inside the instructions. */
  lemma SystemPromptPlaceholders()
    ensures MatchesAt(QuestionPlaceholder, SystemPrompt, |Opening|)
    ensures MatchesAt(CardsPlaceholder, SystemPrompt, |Opening| + 19)
    ensures MatchesAt(PredictionPlaceholder, SystemPrompt, |Opening| + 39)
  {
    PlaceholdersBetween(Opening, Guidelines);
  }

  /** A text sitting inside the instructions sits, shifted, inside every prompt built on them. */
  lemma InstructionsKept(question: string, cards: string, prediction: string, instructions: string, pat: string, i: int)
    requires MatchesAt(pat, instructions, i)
    ensures var r := Compose(question, cards, prediction, instructions);
      MatchesAt(pat, r, |r| - |instructions| + i)
  {
    var r := Compose(question, cards, prediction, instructions);
    var k := |r| - |instructions|;
    assert r[k..] == instructions;
    assert r[k + i..k + i + |pat|] == instructions[i..i + |pat|];
  }

  /**
   * The builder fills in none of the placeholders: each of `{question}`,
   * `{cards}` and `{prediction}` still occurs in the prompt, whatever the
   * arguments.
   */
  lemma PlaceholdersAreNotSubstituted(question: string, cards: string, prediction: string)
    ensures Occurs(QuestionPlaceholder, GenerateDynamicPrompt(question, cards, prediction))
    ensures Occurs(CardsPlaceholder, GenerateDynamicPrompt(question, cards, prediction))
    ensures Occurs(PredictionPlaceholder, GenerateDynamicPrompt(question, cards, prediction))
  {
    var r := GenerateDynamicPrompt(question, cards, prediction);
    SystemPromptPlaceholders();
    InstructionsKept(question, cards, prediction, SystemPrompt, QuestionPlaceholder, |Opening|);
    InstructionsKept(question, cards, prediction, SystemPrompt, CardsPlaceholder, |Opening| + 19);
    InstructionsKept(question, cards, prediction, SystemPrompt, PredictionPlaceholder, |Opening| + 39);
    OccursAt(QuestionPlaceholder, r);
    OccursAt(CardsPlaceholder, r);
    OccursAt(PredictionPlaceholder, r);
  }

  /** What follows the hand text's label. */
  function CardsPart(cards: string, prediction: string): string {
    "Cards: " + cards + PredictionLabel + prediction + PromptGap
  }

  /** What follows the question label: the question, a line break and the rest. */
  lemma ComposeAfterLabel(q: string, c: string, p: string, instructions: string)
    ensures Compose(q, c, p, instructions)[|QuestionLabel|..] == q + ['\n'] + (CardsPart(c, p) + instructions)
  {
    assert Compose(q, c, p, instructions) == QuestionLabel + (q + ['\n'] + (CardsPart(c, p) + instructions));
  }

  /** Two texts that agree once the same suffix is added agree. */
  lemma SameSuffix(a: string, b: string, s: string)
    requires a + s == b + s
    ensures a == b
  {
    assert |a| == |b|;
    assert a == (a + s)[..|a|];
    assert b == (b + s)[..|b|];
  }

  /** A single-line hand text and the prediction can be read back from what follows the question. */
  lemma CardsPartInjective(c1: string, p1: string, c2: string, p2: string)
    requires '\n' !in c1 && '\n' !in c2
    requires CardsPart(c1, p1) == CardsPart(c2, p2)
    ensures c1 == c2 && p1 == p2
  {
    var rest1 := "Prediction: " + p1 + PromptGap;
    var rest2 := "Prediction: " + p2 + PromptGap;
    assert CardsPart(c1, p1)[7..] == c1 + ['\n'] + rest1;
    assert CardsPart(c2, p2)[7..] == c2 + ['\n'] + rest2;
    BeforeFirstSplit(c1, '\n', rest1);
    BeforeFirstSplit(c2, '\n', rest2);
    assert rest1[12..|rest1| - 2] == p1;
    assert rest2[12..|rest2| - 2] == p2;
  }

  /**
   * A single-line question and hand text, and the prediction, can be read
   * back from the prompt: two prompts over the same instructions agree only
   * when all three arguments do.
   */
  lemma ComposeInjective(q1: string, c1: string, p1: string, q2: string, c2: string, p2: string, instructions: string)
    requires '\n' !in q1 && '\n' !in q2 && '\n' !in c1 && '\n' !in c2
    requires Compose(q1, c1, p1, instructions) == Compose(q2, c2, p2, instructions)
    ensures q1 == q2 && c1 == c2 && p1 == p2
  {
    ComposeAfterLabel(q1, c1, p1, instructions);
    ComposeAfterLabel(q2, c2, p2, instructions);
    BeforeFirstSplit(q1, '\n', CardsPart(c1, p1) + instructions);
    BeforeFirstSplit(q2, '\n', CardsPart(c2, p2) + instructions);
    SameSuffix(CardsPart(c1, p1), CardsPart(c2, p2), instructions);
    CardsPartInjective(c1, p1, c2, p2);
  }

  /** The chat prompt determines its single-line question and hand text, and its prediction. */
  lemma GenerateDynamicPromptInjective(q1: string, c1: string, p1: string, q2: string, c2: string, p2: string)
    requires '\n' !in q1 && '\n' !in q2 && '\n' !in c1 && '\n' !in c2
    requires GenerateDynamicPrompt(q1, c1, p1) == GenerateDynamicPrompt(q2, c2, p2)
    ensures q1 == q2 && c1 == c2 && p1 == p2
  {
    ComposeInjective(q1, c1, p1, q2, c2, p2, SystemPrompt);
  }
}
