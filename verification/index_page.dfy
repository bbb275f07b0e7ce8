/**
 * The page that hosts the lessons, the practice editor and the games. Its
 * own logic is one integer, the learner's progress in percent, raised by two
 * kinds of completion event and capped at 100.
 */
module IndexPage {
  import Lessons
  import CodeDetective

  const MaxProgress := 100
  /** Progress points for one completed lesson. */
  const LessonPoints := 10

  /** `Math.min(prev + k, 100)`: the raised progress, capped at 100. */
  function Raise(prev: int, k: int): (next: int)
    ensures next <= MaxProgress && next <= prev + k
    ensures next == prev + k || next == MaxProgress
  {
    if prev + k < MaxProgress then prev + k else MaxProgress
  }

  /** The events that change progress: a lesson card's `onComplete`, and the game's `onScoreUpdate`. */
  datatype ProgressEvent = LessonCompleted(id: int) | ScoreUpdated(score: int)

  /** What an event adds to progress before capping. */
  function Increment(e: ProgressEvent): int {
    match e
    case LessonCompleted(_) => LessonPoints
    case ScoreUpdated(score) => score
  }

  /** The progress after one event. */
  function Apply(progress: int, e: ProgressEvent): int {
    Raise(progress, Increment(e))
  }

  /** The progress after a sequence of events, applied in order. */
  function Replay(progress: int, events: seq<ProgressEvent>): int
    decreases |events|
  {
    if events == [] then progress else Replay(Apply(progress, events[0]), events[1..])
  }

  /** The sum of the increments of a sequence of events. */
  function TotalIncrement(events: seq<ProgressEvent>): int {
    if events == [] then 0 else Increment(events[0]) + TotalIncrement(events[1..])
  }

  predicate NonNegative(events: seq<ProgressEvent>) {
    forall i :: 0 <= i < |events| ==> Increment(events[i]) >= 0
  }

  /**
   * With non-negative increments the caps do not interact: any sequence of
   * events ends where one capped raise by their total would.
   */
  lemma {:induction false} ReplayClosedForm(progress: int, events: seq<ProgressEvent>)
    requires progress <= MaxProgress
    requires NonNegative(events)
    ensures Replay(progress, events) == Raise(progress, TotalIncrement(events))
    decreases |events|
  {
    if events != [] {
      assert NonNegative(events[1..]) by {
        forall i | 0 <= i < |events[1..]| ensures Increment(events[1..][i]) >= 0 {
          assert events[1..][i] == events[i + 1];
        }
      }
      assert Increment(events[0]) >= 0;
      ReplayClosedForm(Apply(progress, events[0]), events[1..]);
      TotalIncrementNonNegative(events[1..]);
    }
  }

  lemma {:induction false} TotalIncrementNonNegative(events: seq<ProgressEvent>)
    requires NonNegative(events)
    ensures TotalIncrement(events) >= 0
  {
    if events != [] {
      assert NonNegative(events[1..]) by {
        forall i | 0 <= i < |events[1..]| ensures Increment(events[1..][i]) >= 0 {
          assert events[1..][i] == events[i + 1];
        }
      }
      assert Increment(events[0]) >= 0;
      TotalIncrementNonNegative(events[1..]);
    }
  }

  /**
   * Progress that starts in [0, 100] stays in [0, 100] and never decreases
   * under non-negative events; once it is 100 it stays 100.
   */
  lemma ReplayBounded(progress: int, events: seq<ProgressEvent>)
    requires 0 <= progress <= MaxProgress
    requires NonNegative(events)
    ensures progress <= Replay(progress, events) <= MaxProgress
    ensures progress == MaxProgress ==> Replay(progress, events) == MaxProgress
  {
    ReplayClosedForm(progress, events);
    TotalIncrementNonNegative(events);
  }

  /** A higher starting progress never ends lower. */
  lemma ReplayMonotone(p: int, q: int, events: seq<ProgressEvent>)
    requires p <= q <= MaxProgress
    requires NonNegative(events)
    ensures Replay(p, events) <= Replay(q, events)
  {
    ReplayClosedForm(p, events);
    ReplayClosedForm(q, events);
  }

  /** A negative score is not excluded by the callback: it lowers progress. */
  lemma NegativeScoreLowers()
    ensures Apply(50, ScoreUpdated(-5)) == 45
  {
  }

  /** The events produced by a run of `onScoreUpdate` calls with the given points. */
  function ScoreEvents(updates: seq<int>): (events: seq<ProgressEvent>)
    ensures |events| == |updates|
    ensures forall i :: 0 <= i < |updates| ==> events[i] == ScoreUpdated(updates[i])
  {
    if updates == [] then [] else [ScoreUpdated(updates[0])] + ScoreEvents(updates[1..])
  }

  /**
   * The game only ever reports five points, so however many reports reach
   * the page, progress that starts in [0, 100] stays there and never drops.
   */
  lemma GameKeepsProgressInRange(progress: int, updates: seq<int>)
    requires 0 <= progress <= MaxProgress
    requires forall i :: 0 <= i < |updates| ==> updates[i] == CodeDetective.Points
    ensures progress <= Replay(progress, ScoreEvents(updates)) <= MaxProgress
  {
    ReplayBounded(progress, ScoreEvents(updates));
  }

  /** The lessons listed on the page, in display order. */
  function InitialLessons(): (lessons: seq<Lessons.Lesson>)
    ensures |lessons| == 3
    ensures forall i :: 0 <= i < |lessons| ==> lessons[i].id == i + 1 && !lessons[i].completed
  {
    [ Lessons.Lesson(1, "Variables & Data Types", "Learn about let, const, and var declarations",
        "Beginner", false, VariablesCode),
      Lessons.Lesson(2, "Functions & Methods", "Create reusable code blocks",
        "Beginner", false, FunctionsCode),
      Lessons.Lesson(3, "Arrays & Loops", "Handle collections of data",
        "Intermediate", false, ArraysCode) ]
  }

  const VariablesCode := @"// Welcome to JavaScript Variables!
let playerName = ""CodeWarrior"";
const maxHealth = 100;
var score = 0;

console.log(""Player:"", playerName);
console.log(""Health:"", maxHealth);
console.log(""Score:"", score);"

  const FunctionsCode := @"// Functions are like magic spells!
function castSpell(spellName, damage) {
  return `✨ ${spellName} deals ${damage} damage!`;
}

const fireball = castSpell(""Fireball"", 25);
console.log(fireball);

// Arrow functions are shorter spells
const heal = (amount) => `❤️ Healed for ${amount} HP`;
console.log(heal(15));"

  const ArraysCode := @"// Arrays are like treasure chests!
const treasures = [""💎"", ""🏆"", ""💰"", ""⭐"", ""🎁""];

// For loop - traditional way
for (let i = 0; i < treasures.length; i++) {
  console.log(`Found treasure ${i + 1}: ${treasures[i]}`);
}

// forEach - modern way
treasures.forEach((treasure, index) => {
  console.log(`Treasure ${index + 1}: ${treasure}`);
});"

  class Index {
    var activeTab: string
    var userProgress: int
    const lessons: seq<Lessons.Lesson>

    constructor ()
      ensures activeTab == "learn" && userProgress == 0 && lessons == InitialLessons()
    {
      activeTab := "learn";
      userProgress := 0;
      lessons := InitialLessons();
    }

    /** Switching tabs leaves progress alone. */
    method SetActiveTab(tab: string)
      modifies this
      ensures activeTab == tab && userProgress == old(userProgress)
    {
      activeTab := tab;
    }

    /** A lesson card's `onComplete`: ten more points, capped at 100. */
    method OnLessonComplete(id: int)
      modifies this
      ensures userProgress == Apply(old(userProgress), LessonCompleted(id))
      ensures 0 <= old(userProgress) <= MaxProgress ==> old(userProgress) <= userProgress <= MaxProgress
      ensures activeTab == old(activeTab)
    {
      userProgress := Raise(userProgress, LessonPoints);
    }

    /** The game's `onScoreUpdate`: the reported points, capped at 100. */
    method OnScoreUpdate(score: int)
      modifies this
      ensures userProgress == Apply(old(userProgress), ScoreUpdated(score))
      ensures 0 <= score && 0 <= old(userProgress) <= MaxProgress ==> old(userProgress) <= userProgress <= MaxProgress
      ensures activeTab == old(activeTab)
    {
      userProgress := Raise(userProgress, score);
    }
  }
}
