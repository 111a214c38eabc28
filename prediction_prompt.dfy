/**
 * The prompt builder of the prediction function: the question and the hand
 * text placed in front of the fixed instructions.
 */
module PredictionPrompt {
  import opened Text

  /** The fixed instructions for the model. */
  const SystemPrompt: string :=
    "You are a friendly and insightful tarot reader. Provide detailed predictions based on a Past, Present, Future spread, directly relating them to the user's question. Your interpretation for each card drawn should include:\n\nRespond with a JSON object containing 'prediction' (with 'past', 'present', and 'future' fields), 'firstMessage', and 'summary' fields.\n\nprediction: the name and suit of the card. and a detailed description of how the card's energy affects the user's situation, keeping interpretations somewhat general and open to various specific manifestations.\nsummary: provide a brief, direct summary that answers the user's question concisely without mentioning the cards. This summary should offer clear, general advice based on the overall reading.\n\nExample input:\nQuestion: Will I get PR (Permanent Residency) soon?\nCards: The High Priestess (Past), The Chariot (Present), Temperance (Future)\n\nExample output:\n{\n  \"prediction\": {\n    \"past\": \"The High Priestess appeared in your past position, symbolizing intuition and hidden knowledge. This energy suggests that your journey towards PR may have begun in subtle ways before you were fully aware of it. You might have felt drawn to certain experiences or knowledge that are now proving valuable in your PR process. There's a sense that your subconscious was guiding you, preparing you for this path even when you weren't actively pursuing it. This could manifest in various ways, from an interest in different cultures to developing skills that are now relevant to your PR application.\",\n    \"present\": \"Your present is represented by The Chariot, symbolizing willpower and determination. This indicates that you're currently in a phase of active pursuit and focused energy regarding your PR goals. You're likely taking concrete steps towards your objective, facing challenges head-on, and maintaining a strong drive despite any obstacles. This could involve juggling multiple responsibilities, pushing yourself out of your comfort zone, or taking on new initiatives that align with your PR aspirations. The Chariot suggests that your current efforts are significant and that you're channeling your energy effectively towards your goal.\",\n    \"future\": \"Temperance appears in your future position, symbolizing balance and patience. This suggests that the coming phase of your PR journey will require a harmonious blend of action and patience. You may find yourself in situations where you need to make measured decisions, balancing different aspects of your life or application process. Temperance indicates that success will come through maintaining equilibrium, possibly between your PR efforts and other life commitments. It also hints at a need for patience, suggesting that while progress is being made, it may not always be as rapid as you might wish.\"\n  },\n  \"firstMessage\": \"The High Priestess in your past suggests that intuition has played a role in your PR journey. Have you noticed any past interests or experiences unexpectedly becoming relevant to your current situation?\",\n  \"summary\": \"Your PR journey shows promise, but it may require more time and patience than you initially expected. Your past experiences have subtly prepared you, and your current determined efforts are significant. Success seems likely if you maintain your focus while also cultivating balance and patience in the process. Continue your efforts, but be prepared for a journey that may extend over the next year or two.\"\n}"

  const QuestionLabel := "\nQuestion: "
  const CardsLabel := "\nCards: "
  const PromptGap := "\n\n"

  /**
   * The template literal of the prompt builder, over any instructions: the
   * question, then the hand text, each verbatim behind its label, and the
   * instructions closing the prompt.
   */
  function Compose(question: string, cards: string, instructions: string): (r: string)
    ensures |r| == |QuestionLabel| + |question| + |CardsLabel| + |cards| + |PromptGap| + |instructions|
    ensures StartsWith(r, QuestionLabel)
    ensures var q := |QuestionLabel|;
      && r[q..q + |question|] == question
      && r[q + |question|..q + |question| + |CardsLabel|] == CardsLabel
      && r[q + |question| + |CardsLabel|..q + |question| + |CardsLabel| + |cards|] == cards
    ensures EndsWith(r, PromptGap + instructions)
  {
    QuestionLabel + question + CardsLabel + cards + PromptGap + instructions
  }

  /** The prompt the prediction function's builder produces (`generateDynamicPrompt`). */
  function GenerateDynamicPrompt(question: string, cards: string): string
  {
    Compose(question, cards, SystemPrompt)
  }

  /** What follows the question label: the question, a line break and the rest. */
  lemma ComposeAfterLabel(q: string, c: string, instructions: string)
    ensures Compose(q, c, instructions)[|QuestionLabel|..]
         == q + ['\n'] + (CardsLine(c) + instructions)
  {
    assert Compose(q, c, instructions) == QuestionLabel + (q + ['\n'] + (CardsLine(c) + instructions));
  }

  /** The line holding the hand text, and the gap behind it. */
  function CardsLine(c: string): (r: string)
    ensures |r| == |c| + 9 && r[..7] == "Cards: " && r[7..|r| - 2] == c
  {
    "Cards: " + c + PromptGap
  }

  /** The rest behind the question determines the hand text. */
  lemma CardsLineInjective(c1: string, c2: string, instructions: string)
    requires CardsLine(c1) + instructions == CardsLine(c2) + instructions
    ensures c1 == c2
  {
    var r1 := CardsLine(c1);
    var r2 := CardsLine(c2);
    assert |r1| == |r2|;
    assert r1 == (r1 + instructions)[..|r1|];
    assert r2 == (r2 + instructions)[..|r2|];
  }

  /**
   * A single-line question and the hand text can be read back from the
   * prompt: two prompts over the same instructions agree only when both
   * arguments do.
   */
  lemma ComposeInjective(q1: string, c1: string, q2: string, c2: string, instructions: string)
    requires '\n' !in q1 && '\n' !in q2
    requires Compose(q1, c1, instructions) == Compose(q2, c2, instructions)
    ensures q1 == q2 && c1 == c2
  {
    ComposeAfterLabel(q1, c1, instructions);
    ComposeAfterLabel(q2, c2, instructions);
    BeforeFirstSplit(q1, '\n', CardsLine(c1) + instructions);
    BeforeFirstSplit(q2, '\n', CardsLine(c2) + instructions);
    CardsLineInjective(c1, c2, instructions);
  }

  /** The prediction prompt determines its single-line question and its hand text. */
  lemma GenerateDynamicPromptInjective(q1: string, c1: string, q2: string, c2: string)
    requires '\n' !in q1 && '\n' !in q2
    requires GenerateDynamicPrompt(q1, c1) == GenerateDynamicPrompt(q2, c2)
    ensures q1 == q2 && c1 == c2
  {
    ComposeInjective(q1, c1, q2, c2, SystemPrompt);
  }
}
