/**
 * A lesson card: a difficulty badge whose colour depends on the lesson's
 * difficulty, a dialog with a code runner, and a completion flag that,
 * while the card stays mounted, only ever becomes true. Calls to the `onComplete` callback are recorded, in
 * order, in `completions`.
 */
module Lessons {
  import opened JsString
  import Editor

  datatype Lesson = Lesson(id: int, title: string, description: string, difficulty: string, completed: bool, code: string)

  const BeginnerClasses := "bg-green-100 text-green-800"
  const IntermediateClasses := "bg-yellow-100 text-yellow-800"
  const AdvancedClasses := "bg-red-100 text-red-800"
  const OtherClasses := "bg-gray-100 text-gray-800"

  const ReviewLabel := "Review Lesson"
  const StartLabel := "Start Learning"

  /** `getDifficultyColor`: the badge classes for a difficulty, compared after lower-casing. */
  function DifficultyColor(difficulty: string): (classes: string)
    ensures classes in [BeginnerClasses, IntermediateClasses, AdvancedClasses, OtherClasses]
  {
    var key := ToLower(difficulty);
    if key == "beginner" then BeginnerClasses
    else if key == "intermediate" then IntermediateClasses
    else if key == "advanced" then AdvancedClasses
    else OtherClasses
  }

  /** The mapping, in both directions: each class string belongs to exactly one lower-cased name (or to none of them). */
  lemma DifficultyByName(difficulty: string)
    ensures DifficultyColor(difficulty) == BeginnerClasses <==> ToLower(difficulty) == "beginner"
    ensures DifficultyColor(difficulty) == IntermediateClasses <==> ToLower(difficulty) == "intermediate"
    ensures DifficultyColor(difficulty) == AdvancedClasses <==> ToLower(difficulty) == "advanced"
    ensures DifficultyColor(difficulty) == OtherClasses <==>
      ToLower(difficulty) !in ["beginner", "intermediate", "advanced"]
  {
    assert BeginnerClasses[3] == 'g' && IntermediateClasses[3] == 'y';
    assert AdvancedClasses[3] == 'r' && OtherClasses[4] == 'r';
  }

  /** Lower-casing the difficulty first changes nothing: letter case never decides the badge. */
  lemma DifficultyIgnoresCase(difficulty: string)
    ensures DifficultyColor(ToLower(difficulty)) == DifficultyColor(difficulty)
  {
    ToLowerIdempotent(difficulty);
  }

  /** The lesson data spells the difficulty "Beginner"; lower-cased, it is the first case of the switch. */
  lemma BeginnerLowered()
    ensures ToLower("Beginner") == "beginner"
  {
    var t := ToLower("Beginner");
    assert t[0] == 'b';
  }

  lemma UpperBeginnerLowered()
    ensures ToLower("BEGINNER") == "beginner"
  {
    var t := ToLower("BEGINNER");
    assert t[1] == 'e' && t[2] == 'g';
  }

  /** "Beginner" and "BEGINNER" both get the green classes; an unknown difficulty gets the gray ones. */
  lemma DifficultyExamples()
    ensures DifficultyColor("Beginner") == DifficultyColor("BEGINNER") == BeginnerClasses
    ensures DifficultyColor("Expert") == OtherClasses
  {
    BeginnerLowered();
    UpperBeginnerLowered();
    var e := ToLower("Expert");
    assert e[1] == 'x';
  }

  class LessonCard {
    const lesson: Lesson
    var isCompleted: bool
    var isOpen: bool
    /** The ids passed to `onComplete`, in call order. */
    var completions: seq<int>

    constructor (lesson: Lesson)
      ensures this.lesson == lesson
      ensures isCompleted == lesson.completed && !isOpen && completions == []
    {
      this.lesson := lesson;
      isCompleted := lesson.completed;
      isOpen := false;
      completions := [];
    }

    /** Opening or closing the dialog (the card's button, dismissing the dialog, "Continue Later"). */
    method SetOpen(open: bool)
      modifies this
      ensures isOpen == open
      ensures isCompleted == old(isCompleted) && completions == old(completions)
      ensures old(ButtonLabel()) == ReviewLabel ==> ButtonLabel() == ReviewLabel
    {
      isOpen := open;
    }

    /**
     * `handleComplete`: marks the lesson done, reports its id once, and closes
     * the dialog. It has no guard of its own, so a second call reports the id
     * again; "Mark Complete" and `OnRunSuccess` reach it only while the lesson
     * is not completed.
     */
    method HandleComplete()
      modifies this
      ensures isCompleted && !isOpen
      ensures completions == old(completions) + [lesson.id]
      ensures old(ButtonLabel()) == ReviewLabel ==> ButtonLabel() == ReviewLabel
    {
      isCompleted := true;
      completions := completions + [lesson.id];
      isOpen := false;
    }

    /** The `onRunSuccess` handler: completes the lesson unless it is already completed. */
    method OnRunSuccess()
      modifies this
      ensures old(isCompleted) ==>
        isCompleted && isOpen == old(isOpen) && completions == old(completions)
      ensures !old(isCompleted) ==>
        isCompleted && !isOpen && completions == old(completions) + [lesson.id]
      ensures old(ButtonLabel()) == ReviewLabel ==> ButtonLabel() == ReviewLabel
    {
      if !isCompleted {
        HandleComplete();
      }
    }

    /**
     * Running the code in the card's dialog: the editor runs the script and,
     * when it reports success, this card's `onRunSuccess` handler runs.
     */
    method RunLessonCode(editor: Editor.CodeEditor, trace: Editor.Trace) returns (ranSuccessfully: bool)
      modifies this, editor, editor.console
      ensures ranSuccessfully == Editor.RunSucceeded(trace)
      ensures editor.output == Editor.RunOutput(trace) && editor.console.log == old(editor.console.log)
      ensures isCompleted == (old(isCompleted) || ranSuccessfully)
      ensures completions ==
        if !old(isCompleted) && ranSuccessfully then old(completions) + [lesson.id] else old(completions)
      ensures isOpen == if !old(isCompleted) && ranSuccessfully then false else old(isOpen)
      ensures editor.code == old(editor.code) && !editor.isRunning
      ensures editor.console.printed == old(editor.console.printed)
      ensures editor.runSuccessCalls == old(editor.runSuccessCalls) + (if ranSuccessfully then 1 else 0)
      ensures old(ButtonLabel()) == ReviewLabel ==> ButtonLabel() == ReviewLabel
    {
      ranSuccessfully := editor.RunCode(trace);
      if ranSuccessfully {
        OnRunSuccess();
      }
    }

    /**
     * The card's button reads "Review Lesson" exactly when the lesson is
     * completed; every handler keeps a "Review Lesson" button as it is.
     */
    function ButtonLabel(): (caption: string)
      reads this
      ensures caption in [ReviewLabel, StartLabel]
      ensures caption == ReviewLabel <==> isCompleted
    {
      if isCompleted then ReviewLabel else StartLabel
    }

    /** "Mark Complete" (with "Continue Later") is offered exactly while the card invites a first read. */
    function OffersMarkComplete(): (offered: bool)
      reads this
      ensures offered <==> ButtonLabel() == StartLabel
    {
      !isCompleted
    }
  }
}
