/**
 * The progress bar's caption: a total classifier from a progress value to
 * one of six encouragement messages, chosen by the first threshold that
 * matches.
 */
module ProgressBar {

  const ReadyMessage := "Ready to start your JavaScript journey!"
  const GettingStartedMessage := "Getting started - great job!"
  const GoodProgressMessage := "Making good progress!"
  const WizardMessage := "You're becoming a JS wizard!"
  const AlmostThereMessage := "Almost there, coding master!"
  const MasteredMessage := "Congratulations! You've mastered the basics!"

  /** The six captions, in the order a learner meets them. */
  const Messages: seq<string> :=
    [ReadyMessage, GettingStartedMessage, GoodProgressMessage, WizardMessage, AlmostThereMessage, MasteredMessage]

  /** `getProgressMessage`: the first matching threshold wins; every input gets a caption. */
  function ProgressMessage(progress: int): (msg: string)
    ensures msg in Messages
  {
    if progress == 0 then ReadyMessage
    else if progress < 25 then GettingStartedMessage
    else if progress < 50 then GoodProgressMessage
    else if progress < 75 then WizardMessage
    else if progress < 100 then AlmostThereMessage
    else MasteredMessage
  }

  /** The position of a caption in `Messages` (0 for anything else). */
  function Stage(msg: string): (k: nat)
    ensures k < |Messages|
    ensures msg in Messages ==> Messages[k] == msg
  {
    if msg == GettingStartedMessage then 1
    else if msg == GoodProgressMessage then 2
    else if msg == WizardMessage then 3
    else if msg == AlmostThereMessage then 4
    else if msg == MasteredMessage then 5
    else 0
  }

  /** The six captions are pairwise different, so each input gets exactly one of them. */
  lemma MessagesDistinct()
    ensures forall i, j :: 0 <= i < j < |Messages| ==> Messages[i] != Messages[j]
  {
    assert ReadyMessage[0] == 'R' && GettingStartedMessage[0] == 'G' && GoodProgressMessage[0] == 'M';
    assert WizardMessage[0] == 'Y' && AlmostThereMessage[0] == 'A' && MasteredMessage[0] == 'C';
  }

  /**
   * The caption of every progress value, by range: 0 alone is "ready",
   * every other value below 25 (negative ones included) is "getting
   * started", then [25,50), [50,75), [75,100) and everything from 100 up.
   */
  lemma MessageByRange(progress: int)
    ensures ProgressMessage(progress) == ReadyMessage <==> progress == 0
    ensures ProgressMessage(progress) == GettingStartedMessage <==> progress != 0 && progress < 25
    ensures ProgressMessage(progress) == GoodProgressMessage <==> 25 <= progress < 50
    ensures ProgressMessage(progress) == WizardMessage <==> 50 <= progress < 75
    ensures ProgressMessage(progress) == AlmostThereMessage <==> 75 <= progress < 100
    ensures ProgressMessage(progress) == MasteredMessage <==> progress >= 100
  {
    MessagesDistinct();
  }

  /** On non-negative progress the caption never moves back a stage as progress grows. */
  lemma MessageMonotone(p: int, q: int)
    requires 0 <= p <= q
    ensures Stage(ProgressMessage(p)) <= Stage(ProgressMessage(q))
  {
    MessagesDistinct();
  }

  /** Below zero the order breaks: -1 is "getting started" while 0 is still "ready". */
  lemma NegativeProgressOutranksZero()
    ensures Stage(ProgressMessage(-1)) > Stage(ProgressMessage(0))
  {
    MessagesDistinct();
  }
}
