/**
 * The question-generation prompt builder kept beside the function (the
 * variant that labels the conversation "Previous Conversation"): the
 * prediction and the conversation placed in front of the instructions, whose
 * `{timeFrame}` placeholders are filled with the lowercased time frame.
 */
module QuestionPrompt {
  import opened Text
  import opened Records
  import opened QuestionTemplate

  /** The instructions, with their `{timeFrame}` placeholders. */
  const StaticPrompt: string := "You are a tarot reader's assistant. Your task is to generate a thought-provoking question based on a tarot card prediction and previous conversation. The question should be about the {timeFrame} and include three distinct answer options.\n\nGuidelines:\n1. The question must directly relate to the tarot card's interpretation.\n2. Reflect realistic scenarios or decisions relevant to the user's situation.\n3. Provide three distinct and meaningful answer options.\n4. Include emojis in both the question and options for visual engagement.\n\nHere's an example:\nexpected input:\n{\n  \"prediction\": {\n    \"past\": \"The High Priestess appeared in your past position, symbolizing intuition and hidden knowledge. This energy suggests that your journey towards PR may have begun in subtle ways before you were fully aware of it.\",\n    \"present\": \"Your present is represented by The Chariot, symbolizing willpower and determination. This indicates that you're currently in a phase of active pursuit and focused energy regarding your PR goals.\",\n    \"future\": \"Temperance appears in your future position, symbolizing balance and patience. This suggests that the coming phase of your PR journey will require a harmonious blend of action and patience.\"\n  },\n  \"previousConversation\": [\n    {\"role\": \"user\", \"content\": \"I'm worried about my PR application. Can you give me more details about the future card?\"},\n    {\"role\": \"assistant\", \"content\": \"The Temperance card in your future position suggests a need for balance and patience in your PR journey. It indicates that while progress is being made, it may not always be as rapid as you might wish. This card encourages you to find harmony between different aspects of your life and the application process.\"}\n  ],\n  \"timeFrame\": \"FUTURE\"\n}\n\nexpected output:\n{\n  \"question\": \"As Temperance guides your future PR journey, how will you maintain balance while pursuing your goals? ⚖️🏃‍♂️\",\n  \"options\": [\n    \"Set strict boundaries between work and personal life 🧘‍♀️\",\n    \"Prioritize tasks flexibly, adjusting as needed 🔄\",\n    \"Seek mentorship to navigate challenges efficiently 🧭\"\n  ]\n}\n\nNow, based on the provided prediction and conversation, generate a question about the {timeFrame} with three options for answers. Respond only with the JSON object, ensuring it's valid JSON format."

  const ConversationLabel := "\n\nPrevious Conversation: "

  /** `generateDynamicPrompt`. */
  function GenerateDynamicPrompt(prediction: string, previousConversation: string, timeFrame: string): string {
    Build(prediction, ConversationLabel, previousConversation, StaticPrompt, timeFrame)
  }

  /**
   * The prompt is the prediction and the conversation, verbatim, behind
   * their labels and in that order, then the instructions with every
   * placeholder replaced by the lowercased time frame and the text between
   * placeholders unchanged.
   */
  lemma PromptShape(prediction: string, previousConversation: string, timeFrame: string)
    ensures var r := GenerateDynamicPrompt(prediction, previousConversation, timeFrame);
      var p := |PredictionLabel| + |prediction|;
      && StartsWith(r, PredictionLabel)
      && r[|PredictionLabel|..p] == prediction
      && r[p..p + |ConversationLabel|] == ConversationLabel
      && r[p + |ConversationLabel|..p + |ConversationLabel| + |previousConversation|] == previousConversation
      && EndsWith(r, PromptGap + Join(Split(StaticPrompt, Placeholder), ToLower(timeFrame)))
  {
    BuildShape(prediction, ConversationLabel, previousConversation, StaticPrompt, timeFrame);
  }

  /**
   * For every time frame the prompt holds no `{timeFrame}` placeholder,
   * unless the prediction or the conversation brought one in.
   */
  lemma NoPlaceholderRemains(prediction: string, previousConversation: string, t: TimeFrame)
    requires !Occurs(Placeholder, prediction) && !Occurs(Placeholder, previousConversation)
    ensures !Occurs(Placeholder, GenerateDynamicPrompt(prediction, previousConversation, TimeFrameName(t)))
  {
    BuildHasNoPlaceholder(prediction, ConversationLabel, previousConversation, StaticPrompt, t);
  }
}
