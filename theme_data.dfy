/**
 * The static question catalogue of the question form: six themes, each with
 * its list of example questions.
 */
module ThemeData {
  /** A theme as the selector shows it. */
  datatype Theme = Theme(emoji: string, name: string)

  const Themes: seq<Theme> := [
    Theme("💼", "Career"),
    Theme("❤️", "Relationships"),
    Theme("🌱", "Personal Growth"),
    Theme("💰", "Finance"),
    Theme("🏡", "Home & Family"),
    Theme("🧘", "Spirituality")
  ]

  // Each question is written as its first character followed by the rest of
  // its text, so that the verifier sees the first characters.

  const CareerQuestions: seq<string> := [
    "🚀" + " What does my career path look like in the next six months?",
    "💼" + " How can I improve my leadership skills at work?",
    "🌟" + " What hidden talents should I leverage in my career?",
    "🎯" + " What steps should I take to achieve my professional goals?",
    "🤝" + " How can I build better relationships with my colleagues?",
    "📚" + " What new skills should I learn to advance in my field?"
  ]

  const RelationshipQuestions: seq<string> := [
    "❤" + "️ How can I improve my current relationship?",
    "💕" + " What qualities should I look for in a potential partner?",
    "🗣" + "️ How can I communicate better with my loved ones?",
    "🤗" + " What can I do to strengthen my friendships?",
    "💑" + " How can I maintain a healthy work-life balance?",
    "🚩" + " What red flags should I be aware of in my relationships?",
    "🛏" + "️ When will I get laid?"
  ]

  const PersonalGrowthQuestions: seq<string> := [
    "🌱" + " What should I focus on for personal growth?",
    "🧠" + " How can I overcome my limiting beliefs?",
    "🏋" + "️ What habits should I develop to improve my well-being?",
    "📚" + " What area of knowledge should I explore next?",
    "🎭" + " How can I become more authentic in my daily life?",
    "🧘" + " What practices can help me achieve inner peace?"
  ]

  const FinanceQuestions: seq<string> := [
    "💰" + " What energies surround my financial situation?",
    "💼" + " How can I increase my income in the next year?",
    "💳" + " What steps should I take to improve my financial stability?",
    "🏦" + " Is it a good time to make a major investment?",
    "📊" + " How can I better manage my expenses?",
    "🎯" + " What financial goals should I set for myself?"
  ]

  const HomeFamilyQuestions: seq<string> := [
    "🏡" + " Is it the right time to make a major life change?",
    "👨" + "‍👩‍👧‍👦 How can I strengthen my family bonds?",
    "🏠" + " What can I do to create a more harmonious home environment?",
    "🌱" + " How can I support my children's growth and development?",
    "👵" + "👴 How can I better care for my aging parents?",
    "🐾" + " Is it a good time to add a pet to our family?"
  ]

  const SpiritualityQuestions: seq<string> := [
    "🧘" + " What can I do to improve my spiritual well-being?",
    "🌟" + " How can I connect more deeply with my inner self?",
    "🙏" + " What spiritual practices would benefit me most?",
    "🌈" + " How can I align my actions with my spiritual beliefs?",
    "🕯" + "️ What steps can I take to find more meaning in life?",
    "🌎" + " How can I contribute positively to the world around me?"
  ]

  /** The example questions of each theme, keyed by the theme's name. */
  const QuestionsByTheme: map<string, seq<string>> := map[
    "Career" := CareerQuestions,
    "Relationships" := RelationshipQuestions,
    "Personal Growth" := PersonalGrowthQuestions,
    "Finance" := FinanceQuestions,
    "Home & Family" := HomeFamilyQuestions,
    "Spirituality" := SpiritualityQuestions
  ]

  /** No entry is listed twice. */
  predicate Distinct<T(==)>(s: seq<T>) {
    forall i, j :: 0 <= i < j < |s| ==> s[i] != s[j]
  }

  /** The first character of every question. */
  function Heads(s: seq<string>): (r: string)
    requires forall i :: 0 <= i < |s| ==> s[i] != []
    ensures |r| == |s| && forall i :: 0 <= i < |s| ==> r[i] == s[i][0]
  {
    seq(|s|, i requires 0 <= i < |s| => s[i][0])
  }

  /** Questions that start with pairwise different characters are pairwise different. */
  lemma DistinctHeadsAreDistinct(s: seq<string>)
    requires forall i :: 0 <= i < |s| ==> s[i] != []
    requires Distinct(Heads(s))
    ensures Distinct(s)
  {
    var h := Heads(s);
    forall i, j | 0 <= i < j < |s| ensures s[i] != s[j] {
      assert h[i] != h[j];
    }
  }

  lemma CareerQuestionsDistinct()
    ensures Distinct(CareerQuestions)
  {
    assert Heads(CareerQuestions) == "🚀💼🌟🎯🤝📚";
    DistinctHeadsAreDistinct(CareerQuestions);
  }

  lemma RelationshipQuestionsDistinct()
    ensures Distinct(RelationshipQuestions)
  {
    assert Heads(RelationshipQuestions) == "❤💕🗣🤗💑🚩🛏";
    DistinctHeadsAreDistinct(RelationshipQuestions);
  }

  lemma PersonalGrowthQuestionsDistinct()
    ensures Distinct(PersonalGrowthQuestions)
  {
    assert Heads(PersonalGrowthQuestions) == "🌱🧠🏋📚🎭🧘";
    DistinctHeadsAreDistinct(PersonalGrowthQuestions);
  }

  lemma FinanceQuestionsDistinct()
    ensures Distinct(FinanceQuestions)
  {
    assert Heads(FinanceQuestions) == "💰💼💳🏦📊🎯";
    DistinctHeadsAreDistinct(FinanceQuestions);
  }

  lemma HomeFamilyQuestionsDistinct()
    ensures Distinct(HomeFamilyQuestions)
  {
    assert Heads(HomeFamilyQuestions) == "🏡👨🏠🌱👵🐾";
    DistinctHeadsAreDistinct(HomeFamilyQuestions);
  }

  lemma SpiritualityQuestionsDistinct()
    ensures Distinct(SpiritualityQuestions)
  {
    assert Heads(SpiritualityQuestions) == "🧘🌟🙏🌈🕯🌎";
    DistinctHeadsAreDistinct(SpiritualityQuestions);
  }

  /** Every theme the selector offers has at least four questions, none listed twice. */
  lemma CatalogueFacts()
    ensures forall i :: 0 <= i < |Themes| ==> Themes[i].name in QuestionsByTheme
    ensures |QuestionsByTheme| == |Themes|
    ensures forall t :: t in QuestionsByTheme ==> |QuestionsByTheme[t]| >= 4 && Distinct(QuestionsByTheme[t])
  {
    CareerQuestionsDistinct();
    RelationshipQuestionsDistinct();
    PersonalGrowthQuestionsDistinct();
    FinanceQuestionsDistinct();
    HomeFamilyQuestionsDistinct();
    SpiritualityQuestionsDistinct();
  }
}
