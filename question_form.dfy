/**
 * The question form: a reducer over the question, the chosen theme and the
 * example questions on display; the submit guard; and "refresh", which
 * shuffles the chosen theme's shared question list in place and then shows
 * its first four entries.
 */
module QuestionForm {
  import opened Text
  import opened Wrappers
  import opened ThemeData

  datatype State = State(question: string, selectedTheme: string, displayedQuestions: seq<string>)

  datatype Action =
    | SetQuestion(question: string)
    | SetTheme(theme: string)
    | SetDisplayedQuestions(questions: seq<string>)

  /** The state field an action writes. */
  datatype Field = QuestionField | ThemeField | DisplayedField

  function Target(a: Action): Field
  {
    match a
    case SetQuestion(_) => QuestionField
    case SetTheme(_) => ThemeField
    case SetDisplayedQuestions(_) => DisplayedField
  }

  /** `s` and `t` agree on every field other than `f`. */
  predicate AgreeOutside(s: State, t: State, f: Field) {
    && (f != QuestionField ==> s.question == t.question)
    && (f != ThemeField ==> s.selectedTheme == t.selectedTheme)
    && (f != DisplayedField ==> s.displayedQuestions == t.displayedQuestions)
  }

  /** The field `a` writes holds `a`'s payload in `s`. */
  predicate Holds(s: State, a: Action) {
    match a
    case SetQuestion(q) => s.question == q
    case SetTheme(t) => s.selectedTheme == t
    case SetDisplayedQuestions(d) => s.displayedQuestions == d
  }

  const InitialState := State("", "", [])

  /** Each action writes its payload into its own field and leaves the other two alone. */
  function Reducer(state: State, action: Action): (r: State)
    ensures Holds(r, action) && AgreeOutside(r, state, Target(action))
  {
    match action
    case SetQuestion(q) => state.(question := q)
    case SetTheme(t) => state.(selectedTheme := t)
    case SetDisplayedQuestions(d) => state.(displayedQuestions := d)
  }

  /** A state is determined by the field an action writes and the others. */
  lemma {:induction false} StateOfParts(s: State, t: State, a: Action)
    requires Holds(s, a) && Holds(t, a) && AgreeOutside(s, t, Target(a))
    ensures s == t
  {
  }

  /** Dispatching the same action twice is dispatching it once. */
  lemma ReducerIdempotent(state: State, a: Action)
    ensures Reducer(Reducer(state, a), a) == Reducer(state, a)
  {
    StateOfParts(Reducer(Reducer(state, a), a), Reducer(state, a), a);
  }

  /** Actions on different fields commute. */
  lemma ReducerCommutes(state: State, a: Action, b: Action)
    requires Target(a) != Target(b)
    ensures Reducer(Reducer(state, a), b) == Reducer(Reducer(state, b), a)
  {
  }

  /** Of two actions on the same field, the later one wins. */
  lemma ReducerLastWriteWins(state: State, a: Action, b: Action)
    requires Target(a) == Target(b)
    ensures Reducer(Reducer(state, a), b) == Reducer(state, b)
  {
  }

  /** The initial state holds no question, no theme and no example questions. */
  lemma InitialStateIsEmpty()
    ensures InitialState.question == [] && InitialState.selectedTheme == [] && InitialState.displayedQuestions == []
  {
  }

  /** A list without repeats counts every value at most once. */
  lemma {:induction false} DistinctCountsOnce(s: seq<string>, x: string)
    requires Distinct(s)
    ensures multiset(s)[x] <= 1
  {
    if s != [] {
      var init := s[..|s| - 1];
      assert s == init + [s[|s| - 1]];
      assert Distinct(init) by {
        forall i, j | 0 <= i < j < |init| ensures init[i] != init[j] {
          assert init[i] == s[i] && init[j] == s[j];
        }
      }
      DistinctCountsOnce(init, x);
      if x == s[|s| - 1] {
        assert x !in init by {
          forall i | 0 <= i < |init| ensures init[i] != x {
            assert init[i] == s[i];
          }
        }
      }
    }
  }

  /** `s.slice(0, n)`: the first `n` entries, or all of them when there are fewer. */
  function Slice(s: seq<string>, n: nat): (r: seq<string>)
    ensures |r| == if |s| < n then |s| else n
    ensures r == s[..|r|]
  {
    if |s| < n then s else s[..n]
  }

  /** A value at two positions is counted at least twice. */
  lemma TwoPositionsCountTwice(t: seq<string>, i: nat, j: nat)
    requires i < j < |t| && t[i] == t[j]
    ensures multiset(t)[t[i]] >= 2
  {
    assert t == t[..j] + [t[j]] + t[j + 1..];
    assert t[..j][i] == t[i];
  }

  /** A reordering of a list without repeats has none either. */
  lemma PermutationKeepsDistinct(s: seq<string>, t: seq<string>)
    requires Distinct(s) && multiset(s) == multiset(t)
    ensures Distinct(t)
  {
    forall i, j | 0 <= i < j < |t| ensures t[i] != t[j] {
      DistinctCountsOnce(s, t[i]);
      if t[i] == t[j] {
        TwoPositionsCountTwice(t, i, j);
      }
    }
  }

  /** A prefix of a list without repeats has none either. */
  lemma PrefixKeepsDistinct(s: seq<string>, n: nat)
    requires Distinct(s) && n <= |s|
    ensures Distinct(s[..n])
  {
    assert forall i :: 0 <= i < n ==> s[..n][i] == s[i];
  }

  /**
   * `Array.prototype.sort` with the random comparator `() => 0.5 - Math.random()`:
   * the order it produces is given as the exchanges it performs; an exchange
   * naming a position outside the list does nothing.
   */
  method RandomSort(a: array<string>, swaps: seq<(int, int)>)
    modifies a
    ensures multiset(a[..]) == multiset(old(a[..]))
  {
    var k := 0;
    while k < |swaps|
      invariant 0 <= k <= |swaps|
      invariant multiset(a[..]) == multiset(old(a[..]))
    {
      var (i, j) := swaps[k];
      if 0 <= i < a.Length && 0 <= j < a.Length {
        a[i], a[j] := a[j], a[i];
      }
      k := k + 1;
    }
  }

  /** Every theme's list has at least four questions and no repeats. */
  predicate WellStocked(catalogue: map<string, seq<string>>) {
    forall t :: t in catalogue ==> |catalogue[t]| >= 4 && Distinct(catalogue[t])
  }

  /** Each theme's list sits in an array of its own. */
  predicate Unshared(lists: map<string, array<string>>) {
    forall t, u :: t in lists && u in lists && t != u ==> lists[t] != lists[u]
  }

  /** The question catalogue is well stocked. */
  lemma CatalogueIsWellStocked()
    ensures WellStocked(QuestionsByTheme)
  {
    CatalogueFacts();
    forall t | t in QuestionsByTheme ensures Distinct(QuestionsByTheme[t]) {
      assert Distinct(QuestionsByTheme[t]);
    }
  }

  class QuestionFormView {
    var state: State
    /** The theme question lists, shared by every refresh and shuffled in place. */
    const questionsByTheme: map<string, array<string>>
    /** The lists as first loaded. */
    ghost const catalogue: map<string, seq<string>>

    /** Each list is a reordering of its theme's questions, each in its own array. */
    ghost predicate Valid()
      reads this, questionsByTheme.Values
    {
      && questionsByTheme.Keys == catalogue.Keys
      && WellStocked(catalogue)
      && Unshared(questionsByTheme)
      && (forall t :: t in questionsByTheme ==> multiset(questionsByTheme[t][..]) == multiset(catalogue[t]))
    }

    /** A fresh form over the exported theme lists. */
    constructor (lists: map<string, array<string>>)
      requires lists.Keys == QuestionsByTheme.Keys && Unshared(lists)
      requires forall t :: t in lists ==> lists[t][..] == QuestionsByTheme[t]
      ensures Valid() && state == InitialState
      ensures questionsByTheme == lists && catalogue == QuestionsByTheme
    {
      state := InitialState;
      questionsByTheme := lists;
      catalogue := QuestionsByTheme;
      CatalogueIsWellStocked();
    }

    /** Typing in the question box: `SET_QUESTION` with the box's value. */
    method HandleQuestionChange(value: string)
      modifies this
      ensures state == Reducer(old(state), SetQuestion(value))
    {
      state := Reducer(state, SetQuestion(value));
    }

    /** Choosing a theme: `SET_THEME`. */
    method HandleThemeChange(theme: string)
      modifies this
      ensures state == Reducer(old(state), SetTheme(theme))
    {
      state := Reducer(state, SetTheme(theme));
    }

    /** Picking an example question: `SET_QUESTION` with that question. */
    method HandleQuestionSelect(question: string)
      modifies this
      ensures state == Reducer(old(state), SetQuestion(question))
    {
      state := Reducer(state, SetQuestion(question));
    }

    /**
     * Submitting: `onSubmit` receives the question as typed (untrimmed)
     * exactly when it holds a non-whitespace character.
     */
    method HandleSubmit() returns (submitted: Option<string>)
      ensures submitted.Some? <==> !IsBlank(state.question)
      ensures submitted.Some? ==> submitted.value == state.question
    {
      if Trim(state.question) != "" {
        submitted := Some(state.question);
      } else {
        submitted := None;
      }
    }

    /**
     * Refresh the example questions: with a theme chosen, its list is
     * shuffled in place (`swaps` stands for the random comparator) and its
     * first four entries are displayed. Without a theme nothing happens; a
     * theme the catalogue lacks fails the lookup (the result is whether the
     * list was refreshed).
     */
    method RefreshQuestions(swaps: seq<(int, int)>) returns (refreshed: bool)
      requires Valid()
      modifies this, questionsByTheme.Values
      ensures Valid()
      ensures refreshed <==> old(state.selectedTheme) != "" && old(state.selectedTheme) in questionsByTheme
      ensures !refreshed ==> state == old(state)
      ensures forall t :: t in questionsByTheme && (!refreshed || t != old(state.selectedTheme)) ==>
        questionsByTheme[t][..] == old(questionsByTheme[t][..])
      ensures refreshed ==>
        var list := questionsByTheme[old(state.selectedTheme)];
        && multiset(list[..]) == multiset(old(list[..]))
        && state == old(state).(displayedQuestions := Slice(list[..], 4))
      ensures refreshed ==>
        && |state.displayedQuestions| == 4
        && Distinct(state.displayedQuestions)
        && forall q :: q in state.displayedQuestions ==> q in catalogue[old(state.selectedTheme)]
    {
      var theme := state.selectedTheme;
      if theme == "" || theme !in questionsByTheme {
        return false;
      }
      var list := questionsByTheme[theme];
      RandomSort(list, swaps);
      var len := list.Length;
      var n := if len < 4 then len else 4;
      state := Reducer(state, SetDisplayedQuestions(Slice(list[..], 4)));
      refreshed := true;
      PermutationKeepsDistinct(catalogue[theme], list[..]);
      PrefixKeepsDistinct(list[..], n);
      assert |multiset(list[..])| == |multiset(catalogue[theme])|;
      forall q | q in list[..n] ensures q in catalogue[theme] {
        assert q in multiset(list[..]);
      }
    }
  }
}
