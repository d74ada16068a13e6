/**
 * `app/quiz/ai-character/page.tsx`: the personality quiz. Eight questions
 * of four weighted options feed a running score record; after the last
 * answer the page shows a result and asks for personal information, whose
 * validation gates the persona request (the oracle `generate`).
 */
module QuizPage {
  import opened Options
  import opened Traits

  /** One answer option: its id and the weights it adds to the scores. */
  datatype Choice = Choice(id: string, weights: Scores)

  datatype Question = Question(id: int, choices: seq<Choice>)

  /** The option id the page uses: the question number followed by `a`..`d`. */
  function OptionId(questionId: int, c: nat): (id: string)
    requires 1 <= questionId <= 9 && c < 4
    ensures |id| == 2
  {
    [('0' as int + questionId) as char, ('a' as int + c) as char]
  }

  /** The weights of option `c` of question `k` (both 0-based), in source order. */
  function OptionWeights(k: nat, c: nat): Scores
    requires k < 8 && c < 4
  {
    match k
    case 0 => (match c case 0 => Scores(3, 0, 0, 1) case 1 => Scores(0, 3, 0, 0)
                       case 2 => Scores(0, 0, 3, 0) case _ => Scores(1, 0, 0, 3))
    case 1 => (match c case 0 => Scores(3, 1, 0, 0) case 1 => Scores(0, 3, 1, 0)
                       case 2 => Scores(0, 0, 3, 0) case _ => Scores(0, 0, 0, 3))
    case 2 => (match c case 0 => Scores(3, 0, 0, 1) case 1 => Scores(0, 3, 0, 0)
                       case 2 => Scores(0, 0, 3, 0) case _ => Scores(0, 0, 0, 3))
    case 3 => (match c case 0 => Scores(3, 0, 0, 1) case 1 => Scores(0, 3, 0, 0)
                       case 2 => Scores(0, 0, 3, 0) case _ => Scores(1, 0, 0, 3))
    case 4 => (match c case 0 => Scores(3, 0, 0, 0) case 1 => Scores(0, 3, 0, 0)
                       case 2 => Scores(0, 0, 3, 0) case _ => Scores(0, 0, 0, 3))
    case 5 => (match c case 0 => Scores(3, 0, 0, 1) case 1 => Scores(0, 3, 1, 0)
                       case 2 => Scores(0, 0, 3, 0) case _ => Scores(1, 0, 0, 3))
    case 6 => (match c case 0 => Scores(3, 1, 0, 0) case 1 => Scores(0, 3, 0, 0)
                       case 2 => Scores(0, 0, 3, 0) case _ => Scores(0, 0, 0, 3))
    case _ => (match c case 0 => Scores(3, 0, 0, 0) case 1 => Scores(0, 3, 1, 0)
                       case 2 => Scores(0, 0, 3, 0) case _ => Scores(1, 0, 0, 3))
  }

  /** Question `k` (0-based) of the bank, without its wording: ids "1a".."8d" and weights in source order. */
  function Bank(k: nat): (q: Question)
    requires k < 8
    ensures q.id == k + 1 && |q.choices| == 4
    ensures forall c :: 0 <= c < 4 ==> q.choices[c] == Choice(OptionId(k + 1, c), OptionWeights(k, c))
  {
    Question(k + 1, seq(4, c requires 0 <= c < 4 => Choice(OptionId(k + 1, c), OptionWeights(k, c))))
  }

  /** `questions`: the eight questions in order. */
  function Questions(): (qs: seq<Question>)
    ensures |qs| == 8
    ensures forall k :: 0 <= k < 8 ==> qs[k] == Bank(k)
  {
    seq(8, k requires 0 <= k < 8 => Bank(k))
  }

  /** Exactly one weight is 3 and every other weight is 0 or 1. */
  predicate WellWeighted(w: Scores)
  {
    && (forall t :: Score(w, t) == 3 || Score(w, t) == 0 || Score(w, t) == 1)
    && (exists t :: Score(w, t) == 3 && forall u :: u != t ==> Score(w, u) != 3)
  }

  /** Option `c` of question `k` carries exactly one 3, on the trait it stands for. */
  lemma {:induction false} BankShape(k: int, c: int)
    requires 0 <= k < |Questions()| && 0 <= c < |Questions()[k].choices|
    ensures |Questions()| == 8 && |Questions()[k].choices| == 4 && Questions()[k].id == k + 1
    ensures WellWeighted(Questions()[k].choices[c].weights)
  {
    var w := Questions()[k].choices[c].weights;
    var t := if c == 0 then Analytical else if c == 1 then Creative else if c == 2 then Social else Practical;
    assert Score(w, t) == 3 && forall u :: u != t ==> Score(w, u) != 3;
  }

  /** `questions.find((q) => q.id === id)`. */
  function FindQuestion(qs: seq<Question>, id: int): (r: Option<Question>)
    ensures r.Some? ==> r.value in qs && r.value.id == id
    ensures r.None? <==> forall k :: 0 <= k < |qs| ==> qs[k].id != id
  {
    if |qs| == 0 then None
    else if qs[0].id == id then Some(qs[0])
    else FindQuestion(qs[1..], id)
  }

  /** `find` returns the FIRST question with the id. */
  lemma {:induction false} FindQuestionFirst(qs: seq<Question>, id: int, k: int)
    requires 0 <= k < |qs| && qs[k].id == id
    requires forall j :: 0 <= j < k ==> qs[j].id != id
    ensures FindQuestion(qs, id) == Some(qs[k])
  {
    if k > 0 {
      FindQuestionFirst(qs[1..], id, k - 1);
    }
  }

  /** `question.options.find((o) => o.id === id)`. */
  function FindChoice(cs: seq<Choice>, id: string): (r: Option<Choice>)
    ensures r.Some? ==> r.value in cs && r.value.id == id
    ensures r.None? <==> forall k :: 0 <= k < |cs| ==> cs[k].id != id
  {
    if |cs| == 0 then None
    else if cs[0].id == id then Some(cs[0])
    else FindChoice(cs[1..], id)
  }

  /** `find` returns the FIRST option with the id. */
  lemma {:induction false} FindChoiceFirst(cs: seq<Choice>, id: string, k: int)
    requires 0 <= k < |cs| && cs[k].id == id
    requires forall j :: 0 <= j < k ==> cs[j].id != id
    ensures FindChoice(cs, id) == Some(cs[k])
  {
    if k > 0 {
      FindChoiceFirst(cs[1..], id, k - 1);
    }
  }

  /** The weights an answer adds, if the question and the option exist. */
  function Weights(questionId: int, optionId: string): Option<Scores>
  {
    var q := FindQuestion(Questions(), questionId);
    if q.None? then None
    else
      var o := FindChoice(q.value.choices, optionId);
      if o.None? then None else Some(o.value.weights)
  }

  /** The lookups of `handleAnswer`: the question by id, then the option by id within it. */
  method ChosenWeights(questionId: int, optionId: string) returns (weights: Option<Scores>)
    ensures weights == Weights(questionId, optionId)
  {
    var question := FindQuestion(Questions(), questionId);
    var option: Option<Choice> := None;
    if question.Some? {
      option := FindChoice(question.value.choices, optionId);
    }
    weights := if option.Some? then Some(option.value.weights) else None;
  }

  /** One answer event: the chosen weights are added; an unknown answer adds nothing. */
  function Tally(s: Scores, questionId: int, optionId: string): Scores
  {
    var w := Weights(questionId, optionId);
    if w.Some? then Add(s, w.value) else s
  }

  /** The scores after a sequence of answer events: a left fold of `Tally`. */
  function Fold(s: Scores, events: seq<(int, string)>): Scores
    decreases |events|
  {
    if |events| == 0 then s
    else Fold(Tally(s, events[0].0, events[0].1), events[1..])
  }

  lemma {:induction false} FoldAppend(s: Scores, events: seq<(int, string)>, e: (int, string))
    ensures Fold(s, events + [e]) == Tally(Fold(s, events), e.0, e.1)
    decreases |events|
  {
    if |events| > 0 {
      assert (events + [e])[1..] == events[1..] + [e];
      FoldAppend(Tally(s, events[0].0, events[0].1), events[1..], e);
    }
  }

  /** Scores are never recomputed from the answers: answering the same option again adds its weights again. */
  lemma {:induction false} ReanswerAddsAgain(s: Scores, questionId: int, optionId: string)
    requires Weights(questionId, optionId).Some?
    ensures var w := Weights(questionId, optionId).value;
      Tally(Tally(s, questionId, optionId), questionId, optionId) == Add(Add(s, w), w)
      && forall t :: Score(Tally(Tally(s, questionId, optionId), questionId, optionId), t) == Score(s, t) + 2 * Score(w, t)
  {
  }

  /** A result card of the page (its description and icon left out). */
  datatype QuizResult = QuizResult(title: string, character: string, color: string)

  /** `results`, in trait order. */
  function ResultFor(t: Trait): (r: QuizResult)
  {
    match t
    case Analytical => QuizResult("The Analytical Mind", "UmbrA", "blue")
    case Creative => QuizResult("The Creative Spirit", "NyX", "purple")
    case Social => QuizResult("The Social Connector", "Mae Buni", "pink")
    case Practical => QuizResult("The Practical Achiever", "Wile E. Crypto", "green")
  }

  /** Different traits show different result cards. */
  lemma {:induction false} ResultsDistinct(t: Trait, u: Trait)
    ensures ResultFor(t) == ResultFor(u) <==> t == u
  {
    if t != u {
      assert ResultFor(t).color[0] != ResultFor(u).color[0] || ResultFor(t).color != ResultFor(u).color;
    }
  }

  /** `calculateResult` on a score record: the first maximal trait's card. */
  function CalculateResult(s: Scores): (r: QuizResult)
    ensures exists t :: r == ResultFor(t) && Score(s, t) == MaxScore(s) && forall u :: Rank(u) < Rank(t) ==> Score(s, u) < Score(s, t)
  {
    ResultFor(FirstMaxDominant(s))
  }

  datatype Stage = QuizStage | PersonalInfoStage | GeneratingStage | ResultStage

  datatype PersonalInfo = PersonalInfo(name: string, interests: seq<string>, communication: string, strengths: seq<string>)

  const EMPTY_INFO := PersonalInfo("", [], "", [])
  const NAME_MISSING := "Please enter your name"
  const INTERESTS_MISSING := "Please select at least one interest"
  const COMMUNICATION_MISSING := "Please select your communication style"
  const STRENGTHS_MISSING := "Please select at least one strength"
  const GENERATION_FAILED := "Failed to generate your AI persona. Please try again."

  /** The first check of `handlePersonalInfoSubmit` that fails, in source order. */
  function ValidationError(info: PersonalInfo): (e: Option<string>)
    ensures e.None? <==> info.name != "" && |info.interests| > 0 && info.communication != "" && |info.strengths| > 0
    ensures info.name == "" ==> e == Some(NAME_MISSING)
    ensures info.name != "" && |info.interests| == 0 ==> e == Some(INTERESTS_MISSING)
    ensures info.name != "" && |info.interests| > 0 && info.communication == "" ==> e == Some(COMMUNICATION_MISSING)
    ensures info.name != "" && |info.interests| > 0 && info.communication != "" && |info.strengths| == 0 ==>
      e == Some(STRENGTHS_MISSING)
  {
    if info.name == "" then Some(NAME_MISSING)
    else if |info.interests| == 0 then Some(INTERESTS_MISSING)
    else if info.communication == "" then Some(COMMUNICATION_MISSING)
    else if |info.strengths| == 0 then Some(STRENGTHS_MISSING)
    else None
  }

  /** `xs.filter((i) => i !== x)`. */
  function Without(xs: seq<string>, x: string): (r: seq<string>)
    ensures forall y :: y in r <==> y in xs && y != x
    ensures x !in xs ==> r == xs
    ensures |r| <= |xs|
  {
    if |xs| == 0 then []
    else if xs[0] == x then Without(xs[1..], x)
    else [xs[0]] + Without(xs[1..], x)
  }

  lemma {:induction false} WithoutAppend(a: seq<string>, b: seq<string>, x: string)
    ensures Without(a + b, x) == Without(a, x) + Without(b, x)
  {
    if |a| > 0 {
      assert (a + b)[1..] == a[1..] + b;
      WithoutAppend(a[1..], b, x);
    } else {
      assert a + b == b;
    }
  }

  /** The interest and strength toggles: remove every copy when present, else append at the end. */
  function Toggle(xs: seq<string>, x: string): (r: seq<string>)
    ensures x in r <==> x !in xs
    ensures forall y :: y != x ==> (y in r <==> y in xs)
  {
    if x in xs then Without(xs, x) else xs + [x]
  }

  predicate NoDuplicates(xs: seq<string>)
  {
    forall i, j :: 0 <= i < j < |xs| ==> xs[i] != xs[j]
  }

  lemma {:induction false} WithoutNoDuplicates(xs: seq<string>, x: string)
    requires NoDuplicates(xs)
    ensures NoDuplicates(Without(xs, x))
  {
    if |xs| > 0 {
      assert NoDuplicates(xs[1..]);
      WithoutNoDuplicates(xs[1..], x);
      if xs[0] != x {
        assert xs[0] !in xs[1..];
        assert xs[0] !in Without(xs[1..], x);
      }
    }
  }

  /**
   * Toggling keeps a list duplicate-free; toggling the same value twice
   * restores a list that lacked it, and moves a present value to the end.
   */
  lemma {:induction false} ToggleTwice(xs: seq<string>, x: string)
    requires NoDuplicates(xs)
    ensures NoDuplicates(Toggle(xs, x))
    ensures x !in xs ==> Toggle(Toggle(xs, x), x) == xs
    ensures x in xs ==> Toggle(Toggle(xs, x), x) == Without(xs, x) + [x]
  {
    if x in xs {
      WithoutNoDuplicates(xs, x);
    } else {
      WithoutAppend(xs, [x], x);
      assert Without([x], x) == [];
      assert Without(xs + [x], x) == xs;
    }
  }

  class AICharacterQuizPage {
    var currentQuestion: int
    var answers: map<int, string>
    var scores: Scores
    var result: Option<QuizResult>
    var showResult: bool
    var personalInfo: PersonalInfo
    var stage: Stage
    var generatedPersona: Option<Persona>
    var error: Option<string>

    /** Every field at its initial value. */
    predicate Initial()
      reads this
    {
      && currentQuestion == 0 && answers == map[] && scores == ZERO && result == None && !showResult
      && personalInfo == EMPTY_INFO && stage == QuizStage && generatedPersona == None && error == None
    }

    constructor ()
      ensures Initial()
    {
      currentQuestion := 0;
      answers := map[];
      scores := ZERO;
      result := None;
      showResult := false;
      personalInfo := EMPTY_INFO;
      stage := QuizStage;
      generatedPersona := None;
      error := None;
    }

    /**
     * `handleAnswer`: records the answer, adds the option's weights, and
     * either advances or, on the last question, shows the result and moves
     * on. The result is computed from the scores as they were BEFORE this
     * answer was added, as the code is written.
     */
    method HandleAnswer(questionId: int, optionId: string)
      modifies this
      ensures answers == old(answers)[questionId := optionId]
      ensures scores == Tally(old(scores), questionId, optionId)
      ensures old(currentQuestion) < |Questions()| - 1 ==>
        currentQuestion == old(currentQuestion) + 1 && result == old(result) && stage == old(stage)
      ensures old(currentQuestion) >= |Questions()| - 1 ==>
        && currentQuestion == old(currentQuestion)
        && result == Some(CalculateResult(old(scores)))
        && stage == PersonalInfoStage
      ensures showResult == old(showResult) && personalInfo == old(personalInfo)
      ensures generatedPersona == old(generatedPersona) && error == old(error)
    {
      var before := scores;
      answers := answers[questionId := optionId];
      var weights := ChosenWeights(questionId, optionId);
      if weights.Some? {
        scores := Add(scores, weights.value);
      }
      if currentQuestion < |Questions()| - 1 {
        currentQuestion := currentQuestion + 1;
      } else {
        result := Some(CalculateResult(before));
        stage := PersonalInfoStage;
      }
    }

    /** `handleInterestChange`. */
    method HandleInterestChange(interest: string)
      modifies this
      ensures personalInfo == old(personalInfo).(interests := Toggle(old(personalInfo).interests, interest))
      ensures currentQuestion == old(currentQuestion) && answers == old(answers) && scores == old(scores)
      ensures result == old(result) && showResult == old(showResult) && stage == old(stage)
      ensures generatedPersona == old(generatedPersona) && error == old(error)
    {
      var newInterests := if interest in personalInfo.interests then Without(personalInfo.interests, interest)
                          else personalInfo.interests + [interest];
      personalInfo := personalInfo.(interests := newInterests);
    }

    /** `handleStrengthChange`. */
    method HandleStrengthChange(strength: string)
      modifies this
      ensures personalInfo == old(personalInfo).(strengths := Toggle(old(personalInfo).strengths, strength))
      ensures currentQuestion == old(currentQuestion) && answers == old(answers) && scores == old(scores)
      ensures result == old(result) && showResult == old(showResult) && stage == old(stage)
      ensures generatedPersona == old(generatedPersona) && error == old(error)
    {
      var newStrengths := if strength in personalInfo.strengths then Without(personalInfo.strengths, strength)
                          else personalInfo.strengths + [strength];
      personalInfo := personalInfo.(strengths := newStrengths);
    }

    /**
     * `handlePersonalInfoSubmit`: the first failing check sets its message
     * and changes nothing else; otherwise the persona request is made, and
     * on success the persona is shown and handed to `storePersona` with the
     * `reduce` dominant trait (`stored`); on failure the form comes back
     * with an error.
     */
    method HandlePersonalInfoSubmit(generate: (Scores, PersonalInfo) -> Option<Persona>)
      returns (stored: Option<(Persona, Trait)>)
      modifies this
      ensures ValidationError(old(personalInfo)).Some? ==>
        error == ValidationError(old(personalInfo)) && stage == old(stage) && stored == None
        && generatedPersona == old(generatedPersona) && showResult == old(showResult)
      ensures ValidationError(old(personalInfo)).None? && generate(old(scores), old(personalInfo)).Some? ==>
        var p := generate(old(scores), old(personalInfo)).value;
        && error == None && stage == ResultStage && showResult && generatedPersona == Some(p)
        && stored == Some((p, ReduceDominant(old(scores))))
      ensures ValidationError(old(personalInfo)).None? && generate(old(scores), old(personalInfo)).None? ==>
        error == Some(GENERATION_FAILED) && stage == PersonalInfoStage && stored == None
        && generatedPersona == old(generatedPersona) && showResult == old(showResult)
      ensures currentQuestion == old(currentQuestion) && answers == old(answers) && scores == old(scores)
      ensures result == old(result) && personalInfo == old(personalInfo)
    {
      stored := None;
      if personalInfo.name == "" {
        error := Some(NAME_MISSING);
        return;
      }
      if |personalInfo.interests| == 0 {
        error := Some(INTERESTS_MISSING);
        return;
      }
      if personalInfo.communication == "" {
        error := Some(COMMUNICATION_MISSING);
        return;
      }
      if |personalInfo.strengths| == 0 {
        error := Some(STRENGTHS_MISSING);
        return;
      }
      error := None;
      stage := GeneratingStage;
      var response := generate(scores, personalInfo);
      if response.Some? {
        generatedPersona := response;
        stage := ResultStage;
        showResult := true;
        var dominantTrait := ReduceDominant(scores);
        stored := Some((response.value, dominantTrait));
      } else {
        error := Some(GENERATION_FAILED);
        stage := PersonalInfoStage;
      }
    }

    /** `resetQuiz`. */
    method ResetQuiz()
      modifies this
      ensures Initial()
    {
      currentQuestion := 0;
      answers := map[];
      scores := ZERO;
      result := None;
      showResult := false;
      personalInfo := EMPTY_INFO;
      generatedPersona := None;
      error := None;
      stage := QuizStage;
    }
  }

  /** The first seven answers of the trace below: 1a, 2a, 3a, 4c, 5c, 6c, 7c. */
  const SEVEN_ANSWERS: seq<(int, string)> := [(1, "1a"), (2, "2a"), (3, "3a"), (4, "4c"), (5, "5c"), (6, "6c"), (7, "7c")]

  /**
   * As written, the result shown after the last answer ignores that
   * answer: after 1a, 2a, 3a, 4c, 5c, 6c, 7c the scores are {9, 1, 12, 2}
   * and the page shows the Social Connector, although answering 8a makes
   * them {12, 1, 12, 2}, whose first maximum is analytical.
   */
  lemma StaleResultIgnoresLastAnswer()
    ensures Fold(ZERO, SEVEN_ANSWERS) == Scores(9, 1, 12, 2)
    ensures Tally(Scores(9, 1, 12, 2), 8, "8a") == Scores(12, 1, 12, 2)
    ensures CalculateResult(Scores(9, 1, 12, 2)) == ResultFor(Social)
    ensures CorrectedResult(Scores(9, 1, 12, 2), 8, "8a") == ResultFor(Analytical)
    ensures CalculateResult(Scores(9, 1, 12, 2)) != CorrectedResult(Scores(9, 1, 12, 2), 8, "8a")
  {
    SevenAnswersScores();
    TraceWeights();
    assert FirstMaxDominant(Scores(9, 1, 12, 2)) == Social;
    assert FirstMaxDominant(Scores(12, 1, 12, 2)) == Analytical;
    ResultsDistinct(Social, Analytical);
  }

  /** The scores the seven answers leave, one answer at a time from the last. */
  lemma SevenAnswersScores()
    ensures Fold(ZERO, SEVEN_ANSWERS) == Scores(9, 1, 12, 2)
  {
    TraceWeights();
    FoldCons(Scores(9, 1, 9, 2), (7, "7c"), []);
    FoldCons(Scores(9, 1, 6, 2), (6, "6c"), [(7, "7c")]);
    FoldCons(Scores(9, 1, 3, 2), (5, "5c"), [(6, "6c"), (7, "7c")]);
    FoldCons(Scores(9, 1, 0, 2), (4, "4c"), [(5, "5c"), (6, "6c"), (7, "7c")]);
    FoldCons(Scores(6, 1, 0, 1), (3, "3a"), [(4, "4c"), (5, "5c"), (6, "6c"), (7, "7c")]);
    FoldCons(Scores(3, 0, 0, 1), (2, "2a"), [(3, "3a"), (4, "4c"), (5, "5c"), (6, "6c"), (7, "7c")]);
    FoldCons(ZERO, (1, "1a"), [(2, "2a"), (3, "3a"), (4, "4c"), (5, "5c"), (6, "6c"), (7, "7c")]);
  }

  /** The weights of the eight answers of the trace. */
  lemma TraceWeights()
    ensures Weights(1, "1a") == Some(Scores(3, 0, 0, 1))
    ensures Weights(2, "2a") == Some(Scores(3, 1, 0, 0))
    ensures Weights(3, "3a") == Some(Scores(3, 0, 0, 1))
    ensures Weights(4, "4c") == Some(Scores(0, 0, 3, 0))
    ensures Weights(5, "5c") == Some(Scores(0, 0, 3, 0))
    ensures Weights(6, "6c") == Some(Scores(0, 0, 3, 0))
    ensures Weights(7, "7c") == Some(Scores(0, 0, 3, 0))
    ensures Weights(8, "8a") == Some(Scores(3, 0, 0, 0))
  {
    WeightsOf(0, 0);
    assert OptionId(1, 0) == "1a";
    WeightsOf(1, 0);
    assert OptionId(2, 0) == "2a";
    WeightsOf(2, 0);
    assert OptionId(3, 0) == "3a";
    WeightsOf(3, 2);
    assert OptionId(4, 2) == "4c";
    WeightsOf(4, 2);
    assert OptionId(5, 2) == "5c";
    WeightsOf(5, 2);
    assert OptionId(6, 2) == "6c";
    WeightsOf(6, 2);
    assert OptionId(7, 2) == "7c";
    WeightsOf(7, 0);
    assert OptionId(8, 0) == "8a";
  }

  /** Folding a run that starts with answer `e`. */
  lemma {:induction false} FoldCons(s: Scores, e: (int, string), rest: seq<(int, string)>)
    ensures Fold(s, [e] + rest) == Fold(Tally(s, e.0, e.1), rest)
  {
    assert ([e] + rest)[1..] == rest;
  }

  /** Answering option `c` of question `k` adds exactly that option's weights. */
  lemma {:induction false} WeightsOf(k: int, c: int)
    requires 0 <= k < 8 && 0 <= c < 4
    ensures Weights(k + 1, OptionId(k + 1, c)) == Some(OptionWeights(k, c))
  {
    var qs := Questions();
    assert qs[k] == Bank(k);
    FindQuestionFirst(qs, k + 1, k);
    var cs := Bank(k).choices;
    assert forall j :: 0 <= j < c ==> cs[j].id[1] != cs[c].id[1];
    FindChoiceFirst(cs, cs[c].id, c);
  }

  /**
   * The evidently intended result of the last answer: `calculateResult`
   * applied to the scores that include it.
   */
  function CorrectedResult(before: Scores, questionId: int, optionId: string): (r: QuizResult)
    ensures var after := Tally(before, questionId, optionId);
      exists t :: r == ResultFor(t) && Score(after, t) == MaxScore(after)
        && forall u :: Rank(u) < Rank(t) ==> Score(after, u) < Score(after, t)
  {
    CalculateResult(Tally(before, questionId, optionId))
  }

  /** The corrected result agrees with the scores a full run of answers leaves. */
  lemma {:induction false} CorrectedResultOfRun(events: seq<(int, string)>, last: (int, string))
    ensures CorrectedResult(Fold(ZERO, events), last.0, last.1) == CalculateResult(Fold(ZERO, events + [last]))
  {
    FoldAppend(ZERO, events, last);
  }
}
