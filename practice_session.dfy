/**
 * The practice session screen of src/screens/PracticeSession.tsx: one
 * single-answer question at a time, answer checking by trimming and
 * lower-casing, a score counter, the three-step hint ladder and the summary
 * handed to navigation after the last question.
 *
 * Each event handler is a method; a handler that the screen only offers
 * under some condition (the Submit button, the answer input, the hint
 * buttons and tokens) requires that condition.
 */
module PracticeSession {
  import opened Wrappers
  import opened JsText
  import opened AppState

  datatype Question = Question(id: int, question: string, correctAnswer: string, hintTitles: seq<string>)

  datatype Feedback = Correct | Incorrect

  /** The question list of the screen, with the answers and hint titles it ships. */
  const PracticeQuestions: seq<Question> := [
    Question(1, "Calculate 1/2 + 1/3", "5/6",
             ["Hint 1: Check denominators", "Hint 2: Find LCM", "Hint 3: Convert & add"]),
    Question(2, "Solve: 3x - 7 = 11", "x = 6",
             ["Hint 1: Isolate variable", "Hint 2: Simplify", "Hint 3: Divide by 3"]),
    Question(3, "What is 20% of 150?", "30",
             ["Hint 1: Convert percent", "Hint 2: Multiply", "Hint 3: Calculate"])
  ]

  /** Every question carries three hints. */
  const HintCount: nat := 3

  /** handleSubmit's test: the trimmed, lower-cased answer equals the
      lower-cased correct answer. */
  predicate AnswerMatches(answer: string, correctAnswer: string) {
    ToLower(Trim(answer)) == ToLower(correctAnswer)
  }

  /** Outer whitespace of the answer is forgiven. */
  lemma PaddedAnswerIsCorrect()
    ensures AnswerMatches(" 5/6 \t", "5/6") && Trim(" 5/6 \t") != ""
  {
    TrimSurrounded(" ", "5/6", " \t");
    assert " " + "5/6" + " \t" == " 5/6 \t";
  }

  /** Case is ignored on both sides. */
  lemma UpperCaseAnswerIsCorrect()
    ensures AnswerMatches("X = 6", "x = 6") && Trim("X = 6") != ""
  {
    TrimUnpadded("X = 6");
    LowerOfUpperX();
    ToLowerNoUpper("x = 6");
  }

  lemma LowerOfUpperX()
    ensures ToLower("X = 6") == "x = 6"
  {
    assert LowerChar('X') == 'x';
    assert "X = 6" == ['X'] + " = 6";
    ToLowerNoUpper(" = 6");
  }

  lemma PlainAnswerIsCorrect()
    ensures AnswerMatches("30", "30") && Trim("30") != ""
  {
    TrimUnpadded("30");
  }

  /** Whitespace inside the answer is not forgiven. */
  lemma InnerSpacesMatter()
    ensures !AnswerMatches("x=6", "x = 6")
  {
    TrimUnpadded("x=6");
    LengthsDiffer("x=6", "x = 6");
  }

  /** Nor is whitespace the correct answer does not have. */
  lemma InsertedSpaceMatters()
    ensures !AnswerMatches("3 0", "30")
  {
    TrimUnpadded("3 0");
    LengthsDiffer("3 0", "30");
  }

  lemma LengthsDiffer(answer: string, correctAnswer: string)
    requires Trim(answer) == answer && |answer| != |correctAnswer|
    ensures !AnswerMatches(answer, correctAnswer)
  {
    assert |ToLower(Trim(answer))| == |answer|;
    assert |ToLower(correctAnswer)| == |correctAnswer|;
  }

  /** Whitespace around an answer never changes the verdict. */
  lemma AnswerMatchesIgnoresPadding(pre: string, answer: string, post: string, correctAnswer: string)
    requires AllWhitespace(pre) && AllWhitespace(post)
    requires answer != [] && !IsWhitespace(answer[0]) && !IsWhitespace(answer[|answer| - 1])
    ensures AnswerMatches(pre + answer + post, correctAnswer) == AnswerMatches(answer, correctAnswer)
  {
    TrimSurrounded(pre, answer, post);
    TrimSurrounded([], answer, []);
    assert [] + answer + [] == answer;
  }

  /** The summary advanceToNext emits after the last question: there are no
      per-question results, and the total is the number of questions. */
  function FinishedSummary(sessionId: string, score: int, hintsUsed: int): (s: Summary)
    ensures s.sessionId == sessionId && s.score == score && s.total == |PracticeQuestions| == 3
    ensures s.hintsUsed == hintsUsed && s.questionResults == None && s.english == None
  {
    Summary(sessionId, score, |PracticeQuestions|, hintsUsed, None, None, None)
  }

  class Session {
    var currentQuestion: nat
    var answer: string
    var feedback: Option<Feedback>
    var showFeedbackToast: bool
    var score: int
    var hintsUsed: int
    var showVisualCoach: bool
    var currentHint: int
    var unlockedHints: int
    /** `session-${Date.now()}`, fixed when the screen mounts. */
    const sessionId: string

    /** The score counts at most one scored submit per question seen so far;
        the hint ladder keeps 0 <= currentHint < unlockedHints <= 3. */
    ghost predicate Valid()
      reads this
    {
      && currentQuestion < |PracticeQuestions|
      && 0 <= score <= currentQuestion + (if feedback == None then 0 else 1)
      && hintsUsed >= 0
      && 0 <= currentHint < unlockedHints <= HintCount
    }

    constructor (sessionId: string)
      ensures Valid()
      ensures this.sessionId == sessionId
      ensures currentQuestion == 0 && answer == "" && feedback == None && !showFeedbackToast
      ensures score == 0 && hintsUsed == 0 && !showVisualCoach
      ensures currentHint == 0 && unlockedHints == 1
    {
      this.sessionId := sessionId;
      currentQuestion := 0;
      answer := "";
      feedback := None;
      showFeedbackToast := false;
      score := 0;
      hintsUsed := 0;
      showVisualCoach := false;
      currentHint := 0;
      unlockedHints := 1;
    }

    /** The answer input is disabled once feedback is set. */
    predicate InputEnabled()
      reads this
    {
      feedback == None
    }

    /** The Submit button exists only before feedback and is disabled while
        the trimmed answer is empty. */
    predicate CanSubmit(): (r: bool)
      reads this
      ensures r ==> InputEnabled()
      ensures r <==> InputEnabled() && !AllWhitespace(answer)
    {
      feedback == None && Trim(answer) != ""
    }

    /** The answer input's onChange. */
    method UpdateAnswer(value: string)
      requires Valid() && InputEnabled()
      modifies this
      ensures Valid()
      ensures answer == value
      ensures currentQuestion == old(currentQuestion) && feedback == old(feedback) && score == old(score)
      ensures hintsUsed == old(hintsUsed) && currentHint == old(currentHint) && unlockedHints == old(unlockedHints)
      ensures showFeedbackToast == old(showFeedbackToast) && showVisualCoach == old(showVisualCoach)
    {
      answer := value;
    }

    /** handleSubmit: set the feedback and count a correct answer. */
    method Submit()
      requires Valid() && CanSubmit()
      modifies this
      ensures Valid()
      ensures var correct := AnswerMatches(old(answer), PracticeQuestions[currentQuestion].correctAnswer);
              && feedback == Some(if correct then Correct else Incorrect)
              && score == (if correct then old(score) + 1 else old(score))
      ensures showFeedbackToast
      ensures !CanSubmit() && !InputEnabled()
      ensures currentQuestion == old(currentQuestion) && answer == old(answer) && hintsUsed == old(hintsUsed)
      ensures currentHint == old(currentHint) && unlockedHints == old(unlockedHints)
      ensures showVisualCoach == old(showVisualCoach)
    {
      var isCorrect := AnswerMatches(answer, PracticeQuestions[currentQuestion].correctAnswer);
      feedback := Some(if isCorrect then Correct else Incorrect);
      showFeedbackToast := true;
      if isCorrect {
        score := score + 1;
      }
    }

    /** handleDismissToast. */
    method DismissToast()
      requires Valid()
      modifies this
      ensures Valid()
      ensures !showFeedbackToast
      ensures currentQuestion == old(currentQuestion) && answer == old(answer) && feedback == old(feedback)
      ensures score == old(score) && hintsUsed == old(hintsUsed) && showVisualCoach == old(showVisualCoach)
      ensures currentHint == old(currentHint) && unlockedHints == old(unlockedHints)
    {
      showFeedbackToast := false;
    }

    /** handleShowHint: each request costs one hint, whatever hint is shown.
        Its buttons are offered before feedback, and after incorrect feedback
        once the toast is closed. */
    method ShowHint()
      requires Valid()
      requires feedback == None || (feedback == Some(Incorrect) && !showFeedbackToast)
      modifies this
      ensures Valid()
      ensures hintsUsed == old(hintsUsed) + 1 && showVisualCoach
      ensures currentHint == old(currentHint) && unlockedHints == old(unlockedHints)
      ensures currentQuestion == old(currentQuestion) && answer == old(answer) && feedback == old(feedback)
      ensures score == old(score) && showFeedbackToast == old(showFeedbackToast)
    {
      hintsUsed := hintsUsed + 1;
      showVisualCoach := true;
    }

    /** handleToastShowHint: the same request made from the open toast after
        incorrect feedback, which it closes. */
    method ToastShowHint()
      requires Valid()
      requires showFeedbackToast && feedback == Some(Incorrect)
      modifies this
      ensures Valid()
      ensures hintsUsed == old(hintsUsed) + 1 && showVisualCoach && !showFeedbackToast
      ensures currentHint == old(currentHint) && unlockedHints == old(unlockedHints)
      ensures currentQuestion == old(currentQuestion) && answer == old(answer) && feedback == old(feedback)
      ensures score == old(score)
    {
      showFeedbackToast := false;
      hintsUsed := hintsUsed + 1;
      showVisualCoach := true;
    }

    /** The hint sheet's close button. */
    method CloseVisualCoach()
      requires Valid()
      modifies this`showVisualCoach
      ensures Valid() && !showVisualCoach
    {
      showVisualCoach := false;
    }

    /** handleNextHint: move to the next hint and unlock it; nothing happens
        on the last hint. The request counter is not touched. The button is
        inside the hint sheet, which is rendered only while it is open. */
    method NextHint()
      requires Valid() && showVisualCoach
      modifies this
      ensures Valid()
      ensures old(currentHint) == HintCount - 1 ==> currentHint == old(currentHint) && unlockedHints == old(unlockedHints)
      ensures old(currentHint) < HintCount - 1 ==>
              currentHint == old(currentHint) + 1 && unlockedHints == Max(old(unlockedHints), old(currentHint) + 2)
      ensures unlockedHints >= old(unlockedHints)
      ensures hintsUsed == old(hintsUsed) && score == old(score) && feedback == old(feedback)
      ensures currentQuestion == old(currentQuestion) && answer == old(answer)
      ensures showVisualCoach == old(showVisualCoach) && showFeedbackToast == old(showFeedbackToast)
    {
      if currentHint < HintCount - 1 {
        unlockedHints := Max(unlockedHints, currentHint + 2);
        currentHint := currentHint + 1;
      }
    }

    /** handleSelectHint: show an already unlocked hint; a locked one is
        ignored. The tokens are inside the open hint sheet. */
    method SelectHint(index: int)
      requires Valid() && showVisualCoach
      requires 0 <= index < HintCount
      modifies this
      ensures Valid()
      ensures currentHint == (if index < old(unlockedHints) then index else old(currentHint))
      ensures unlockedHints == old(unlockedHints) && hintsUsed == old(hintsUsed) && score == old(score)
      ensures currentQuestion == old(currentQuestion) && answer == old(answer) && feedback == old(feedback)
      ensures showVisualCoach == old(showVisualCoach) && showFeedbackToast == old(showFeedbackToast)
    {
      if index < unlockedHints {
        currentHint := index;
      }
    }

    /** advanceToNext: on a question before the last, reset the per-question
        fields and move on, carrying score and hint count; on the last,
        emit the session summary and change nothing. */
    method AdvanceToNext() returns (summary: Option<Summary>)
      requires Valid()
      modifies this
      ensures Valid()
      ensures old(currentQuestion) < |PracticeQuestions| - 1 ==>
              && summary == None
              && currentQuestion == old(currentQuestion) + 1
              && answer == "" && feedback == None && !showFeedbackToast
              && currentHint == 0 && unlockedHints == 1
              && score == old(score) && hintsUsed == old(hintsUsed)
              && showVisualCoach == old(showVisualCoach)
      ensures old(currentQuestion) == |PracticeQuestions| - 1 ==>
              && summary == Some(FinishedSummary(sessionId, old(score), old(hintsUsed)))
              && currentQuestion == old(currentQuestion) && answer == old(answer) && feedback == old(feedback)
              && showFeedbackToast == old(showFeedbackToast) && score == old(score) && hintsUsed == old(hintsUsed)
              && currentHint == old(currentHint) && unlockedHints == old(unlockedHints)
              && showVisualCoach == old(showVisualCoach)
      ensures summary.Some? ==> 0 <= summary.value.score <= summary.value.total
    {
      if currentQuestion < |PracticeQuestions| - 1 {
        currentQuestion := currentQuestion + 1;
        answer := "";
        feedback := None;
        showFeedbackToast := false;
        currentHint := 0;
        unlockedHints := 1;
        summary := None;
      } else {
        summary := Some(FinishedSummary(sessionId, score, hintsUsed));
      }
    }

    /** The feedback toast's dismiss button, or its timer after a correct
        answer: close the toast, and advance only after correct feedback.
        Dismissing incorrect feedback never advances. */
    method ToastDismissed() returns (summary: Option<Summary>)
      requires Valid()
      modifies this
      ensures Valid()
      ensures !showFeedbackToast && showVisualCoach == old(showVisualCoach)
      ensures old(feedback) != Some(Correct) ==>
              && summary == None && currentQuestion == old(currentQuestion) && feedback == old(feedback)
              && answer == old(answer) && score == old(score) && hintsUsed == old(hintsUsed)
              && currentHint == old(currentHint) && unlockedHints == old(unlockedHints)
      ensures old(feedback) == Some(Correct) && old(currentQuestion) < |PracticeQuestions| - 1 ==>
              && summary == None && currentQuestion == old(currentQuestion) + 1 && feedback == None
              && answer == "" && currentHint == 0 && unlockedHints == 1
              && score == old(score) && hintsUsed == old(hintsUsed)
      ensures old(feedback) == Some(Correct) && old(currentQuestion) == |PracticeQuestions| - 1 ==>
              && summary == Some(FinishedSummary(sessionId, old(score), old(hintsUsed)))
              && currentQuestion == old(currentQuestion) && answer == old(answer) && feedback == old(feedback)
              && score == old(score) && hintsUsed == old(hintsUsed)
              && currentHint == old(currentHint) && unlockedHints == old(unlockedHints)
    {
      showFeedbackToast := false;
      summary := None;
      if feedback == Some(Correct) {
        summary := AdvanceToNext();
        showFeedbackToast := false;
      }
    }

    /** The "Next Question" button, shown after incorrect feedback once the toast is closed. */
    predicate CanPressNext(): (r: bool)
      reads this
      ensures r ==> !InputEnabled() && !CanSubmit()
    {
      feedback == Some(Incorrect) && !showFeedbackToast
    }
  }

  /** Typing a right answer, submitting it and letting the toast go. */
  method AnswerRight(s: Session, answer: string) returns (summary: Option<Summary>)
    requires s.Valid() && s.InputEnabled()
    requires Trim(answer) != "" && AnswerMatches(answer, PracticeQuestions[s.currentQuestion].correctAnswer)
    modifies s
    ensures s.Valid()
    ensures old(s.currentQuestion) < |PracticeQuestions| - 1 ==>
            summary == None && s.currentQuestion == old(s.currentQuestion) + 1 && s.InputEnabled()
            && s.score == old(s.score) + 1 && s.hintsUsed == old(s.hintsUsed)
    ensures old(s.currentQuestion) == |PracticeQuestions| - 1 ==>
            summary == Some(FinishedSummary(s.sessionId, old(s.score) + 1, old(s.hintsUsed)))
  {
    TypeRight(s, answer);
    summary := s.ToastDismissed();
  }

  /** Typing a right answer and submitting it. */
  method TypeRight(s: Session, answer: string)
    requires s.Valid() && s.InputEnabled()
    requires Trim(answer) != "" && AnswerMatches(answer, PracticeQuestions[s.currentQuestion].correctAnswer)
    modifies s
    ensures s.Valid() && s.feedback == Some(Correct)
    ensures s.currentQuestion == old(s.currentQuestion)
    ensures s.score == old(s.score) + 1 && s.hintsUsed == old(s.hintsUsed)
  {
    s.UpdateAnswer(answer);
    assert AnswerMatches(s.answer, PracticeQuestions[s.currentQuestion].correctAnswer);
    s.Submit();
  }

  /** A run through the whole screen: answer every question right, with one
      hint request on the first; the summary reports 3 of 3 and one hint. */
  method PerfectRun() returns (summary: Option<Summary>)
    ensures summary.Some? && summary.value.score == 3 && summary.value.total == 3
    ensures summary.value.hintsUsed == 1 && summary.value.sessionId == "session-1"
  {
    var s := new Session("session-1");
    s.ShowHint();
    s.NextHint();
    s.SelectHint(0);
    summary := FirstRight(s);
    summary := SecondRight(s);
    summary := LastRight(s);
  }

  method FirstRight(s: Session) returns (summary: Option<Summary>)
    requires s.Valid() && s.InputEnabled() && s.currentQuestion == 0
    modifies s
    ensures s.Valid() && s.InputEnabled() && s.currentQuestion == 1
    ensures s.score == old(s.score) + 1 && s.hintsUsed == old(s.hintsUsed)
  {
    PaddedAnswerIsCorrect();
    summary := AnswerRight(s, " 5/6 \t");
  }

  method SecondRight(s: Session) returns (summary: Option<Summary>)
    requires s.Valid() && s.InputEnabled() && s.currentQuestion == 1
    modifies s
    ensures s.Valid() && s.InputEnabled() && s.currentQuestion == 2
    ensures s.score == old(s.score) + 1 && s.hintsUsed == old(s.hintsUsed)
  {
    UpperCaseAnswerIsCorrect();
    summary := AnswerRight(s, "X = 6");
  }

  method LastRight(s: Session) returns (summary: Option<Summary>)
    requires s.Valid() && s.InputEnabled() && s.currentQuestion == 2
    modifies s
    ensures summary == Some(FinishedSummary(s.sessionId, old(s.score) + 1, old(s.hintsUsed)))
  {
    PlainAnswerIsCorrect();
    summary := AnswerRight(s, "30");
  }
}
