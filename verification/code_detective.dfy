/**
 * "Code Detective": a four-question quiz in which the player predicts what
 * a snippet prints. Each correct answer is worth five points, reported to
 * the page through `onScoreUpdate` (recorded, in call order, in
 * `scoreUpdates`); the last correct answer ends the game.
 */
module CodeDetective {
  import opened JsString
  import opened Optional

  datatype Question = Question(code: string, question: string, answer: string, explanation: string)

  /** Points for one correct answer. */
  const Points := 5

  const Prompt := "What will this code output?"

  /** `codeQuestions`, in play order; every expected answer is non-empty and has no whitespace at either end. */
  function Questions(): (qs: seq<Question>)
    ensures |qs| == 4
    ensures forall k :: 0 <= k < |qs| ==> qs[k].question == Prompt && Trimmed(qs[k].answer)
  {
    [ Question("let x = 5;\nlet y = 3;\nconsole.log(x + y);", Prompt, "8",
        "x (5) + y (3) = 8"),
      Question("let name = \"JavaScript\";\nconsole.log(name.length);", Prompt, "10",
        "The string 'JavaScript' has 10 characters"),
      Question("let numbers = [1, 2, 3, 4, 5];\nconsole.log(numbers[2]);", Prompt, "3",
        "Array index 2 contains the value 3 (arrays start at index 0)"),
      Question("function greet(name) {\n  return \"Hello, \" + name + \"!\";\n}\nconsole.log(greet(\"World\"));",
        Prompt, "Hello, World!",
        "The function concatenates 'Hello, ' + 'World' + '!' = 'Hello, World!'") ]
  }

  /**
   * The rule of `checkAnswer`: the answer, lower-cased then trimmed, against
   * the expected answer lower-cased. Trimming and lower-casing commute, so
   * the rule reads either way round.
   */
  function AnswerMatches(userAnswer: string, expected: string): (accepted: bool)
    ensures accepted <==> ToLower(Trim(userAnswer)) == ToLower(expected)
  {
    TrimLowerCommute(userAnswer);
    Trim(ToLower(userAnswer)) == ToLower(expected)
  }

  /**
   * The expected answer is not trimmed: if it ended in whitespace, no
   * answer at all would match it.
   */
  lemma UntrimmedExpectedNeverMatches(userAnswer: string, expected: string)
    requires |expected| > 0 && IsWhitespace(expected[|expected| - 1])
    ensures !AnswerMatches(userAnswer, expected)
  {
    var e := ToLower(expected);
    assert IsWhitespace(e[|e| - 1]);
  }

  /**
   * Every question's own answer, typed in any letter case, with any
   * whitespace before it and any whitespace after it, is accepted.
   */
  lemma {:induction false} AnswerAccepted(k: nat, pre: string, typed: string, post: string)
    requires k < |Questions()|
    requires forall i :: 0 <= i < |pre| ==> IsWhitespace(pre[i])
    requires forall i :: 0 <= i < |post| ==> IsWhitespace(post[i])
    requires ToLower(typed) == ToLower(Questions()[k].answer)
    ensures AnswerMatches(pre + typed + post, Questions()[k].answer)
  {
    var a := Questions()[k].answer;
    assert Trimmed(a);
    assert Trimmed(typed) by {
      assert ToLower(typed)[0] == LowerChar(a[0]);
    }
    TrimPadded(pre, typed, post);
  }

  class GameSection {
    /** `codeQuestions`; fixed when the component is created. */
    const questions: seq<Question>
    var gameStarted: bool
    var currentQuestion: nat
    var score: int
    var userAnswer: string
    /** The points passed to `onScoreUpdate`, in call order. */
    var scoreUpdates: seq<int>

    /**
     * The question index is always in range, the score is a multiple of
     * five, while a game runs it is five points per question already
     * answered, a stopped quiz shows either no points or the full score, and
     * every report to the page is five points.
     */
    ghost predicate Valid()
      reads this
    {
      && |questions| == |Questions()| && currentQuestion < |questions|
      && score >= 0 && score % Points == 0
      && (gameStarted ==> score == Points * currentQuestion)
      && (!gameStarted ==> score == 0 || score == Points * |questions|)
      && forall i :: 0 <= i < |scoreUpdates| ==> scoreUpdates[i] == Points
    }

    constructor ()
      ensures Valid() && questions == Questions()
      ensures !gameStarted && currentQuestion == 0 && score == 0 && userAnswer == "" && scoreUpdates == []
    {
      questions := Questions();
      gameStarted := false;
      currentQuestion := 0;
      score := 0;
      userAnswer := "";
      scoreUpdates := [];
    }

    /** Typing in the answer box, which is only shown while a game runs. */
    method SetUserAnswer(text: string)
      requires Valid() && gameStarted
      modifies this
      ensures Valid() && userAnswer == text
      ensures gameStarted == old(gameStarted) && currentQuestion == old(currentQuestion)
      ensures score == old(score) && scoreUpdates == old(scoreUpdates)
    {
      userAnswer := text;
    }

    /** `startGame`. */
    method StartGame()
      requires Valid()
      modifies this
      ensures Valid()
      ensures gameStarted && currentQuestion == 0 && score == 0 && userAnswer == ""
      ensures scoreUpdates == old(scoreUpdates)
    {
      gameStarted := true;
      currentQuestion := 0;
      score := 0;
      userAnswer := "";
    }

    /** `resetGame`: the same as `startGame` except that the game is left stopped. */
    method ResetGame()
      requires Valid()
      modifies this
      ensures Valid()
      ensures !gameStarted && currentQuestion == 0 && score == 0 && userAnswer == ""
      ensures scoreUpdates == old(scoreUpdates)
    {
      gameStarted := false;
      currentQuestion := 0;
      score := 0;
      userAnswer := "";
    }

    /**
     * `checkAnswer`, with its delayed follow-up taken as part of the same
     * step. `report` is the total announced by the "Game Complete" message,
     * when there is one.
     */
    method CheckAnswer() returns (correct: bool, report: Option<int>)
      requires Valid() && gameStarted
      modifies this
      ensures Valid()
      ensures correct == AnswerMatches(old(userAnswer), questions[old(currentQuestion)].answer)
      ensures correct ==> score == old(score) + Points && scoreUpdates == old(scoreUpdates) + [Points]
      ensures !correct ==>
        && score == old(score) && currentQuestion == old(currentQuestion)
        && gameStarted == old(gameStarted) && userAnswer == old(userAnswer)
        && scoreUpdates == old(scoreUpdates) && report == None
      ensures correct && old(currentQuestion) < |questions| - 1 ==>
        && currentQuestion == old(currentQuestion) + 1 && userAnswer == ""
        && gameStarted == old(gameStarted) && report == None
      ensures correct && old(currentQuestion) == |questions| - 1 ==>
        && !gameStarted && currentQuestion == old(currentQuestion) && userAnswer == old(userAnswer)
        && report == Some(old(score) + Points) && report == Some(score)
      ensures correct && old(currentQuestion) == |questions| - 1 ==>
        report == Some(Points * |questions|)
    {
      var currentQ := questions[currentQuestion];
      correct := AnswerMatches(userAnswer, currentQ.answer);
      report := None;
      if correct {
        var points := Points;
        var reported := score + points;
        score := score + points;
        scoreUpdates := scoreUpdates + [points];
        if currentQuestion < |questions| - 1 {
          currentQuestion := currentQuestion + 1;
          userAnswer := "";
        } else {
          report := Some(reported);
          gameStarted := false;
        }
      }
    }

    /** The "Submit" button and the Enter key, shown only while a game runs: only a non-blank answer is checked. */
    method Submit() returns (submitted: bool, correct: bool, report: Option<int>)
      requires Valid() && gameStarted
      modifies this
      ensures Valid()
      ensures submitted <==> exists i :: 0 <= i < |old(userAnswer)| && !IsWhitespace(old(userAnswer)[i])
      ensures !submitted ==>
        && !correct && report == None
        && score == old(score) && currentQuestion == old(currentQuestion)
        && gameStarted == old(gameStarted) && userAnswer == old(userAnswer)
        && scoreUpdates == old(scoreUpdates)
      ensures submitted ==> correct == AnswerMatches(old(userAnswer), questions[old(currentQuestion)].answer)
      ensures submitted && correct ==> score == old(score) + Points && scoreUpdates == old(scoreUpdates) + [Points]
      ensures submitted && !correct ==>
        && score == old(score) && currentQuestion == old(currentQuestion)
        && gameStarted == old(gameStarted) && userAnswer == old(userAnswer)
        && scoreUpdates == old(scoreUpdates) && report == None
      ensures submitted && correct && old(currentQuestion) < |questions| - 1 ==>
        && currentQuestion == old(currentQuestion) + 1 && userAnswer == ""
        && gameStarted == old(gameStarted) && report == None
      ensures submitted && correct && old(currentQuestion) == |questions| - 1 ==>
        && !gameStarted && currentQuestion == old(currentQuestion) && userAnswer == old(userAnswer)
        && report == Some(old(score) + Points) && report == Some(score)
      ensures submitted && correct && old(currentQuestion) == |questions| - 1 ==>
        report == Some(Points * |questions|)
    {
      submitted := !IsBlank(userAnswer);
      correct, report := false, None;
      if submitted {
        correct, report := CheckAnswer();
      }
    }
  }
}
