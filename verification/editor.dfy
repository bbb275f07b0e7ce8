/**
 * The code runner: a text area holding a script, a "Run" button that
 * evaluates the script while the global `console.log` is redirected into a
 * capture buffer, and a "Reset" button. Evaluation itself is a host facility
 * and is not modelled: a `Trace` says what the evaluation did, namely the
 * `console.log` calls it made (each as the string forms of its arguments)
 * and whether it then completed or threw.
 */
module Editor {
  import opened JsString

  /** A value thrown by the script: an `Error` with its message, or anything else. */
  datatype Thrown = ErrorObject(message: string) | OtherValue

  datatype Ending = Completed | Threw(thrown: Thrown)

  /** What evaluating one script did: its `console.log` calls in order, then how it ended. */
  datatype Trace = Trace(calls: seq<seq<string>>, ending: Ending)

  const ErrorMarker := "❌"
  const ErrorPrefix := "❌ Error: "
  const UnknownErrorMessage := "Unknown error occurred"

  /** One captured line: the string forms of the arguments joined by a single space. */
  function FormatLogLine(args: seq<string>): string {
    Join(args, ' ')
  }

  /** When no argument contains a space, splitting a captured line at spaces gives the arguments back. */
  lemma LogLineSplitsBack(args: seq<string>)
    requires |args| >= 1
    requires forall i :: 0 <= i < |args| ==> ' ' !in args[i]
    ensures Split(FormatLogLine(args), ' ') == args
  {
    SplitJoin(args, ' ');
  }

  /** The capture buffer after the given calls: one line per call, in call order. */
  function CapturedLines(calls: seq<seq<string>>): (lines: seq<string>)
    ensures |lines| == |calls|
    ensures forall i :: 0 <= i < |calls| ==> lines[i] == FormatLogLine(calls[i])
  {
    if calls == [] then [] else CapturedLines(calls[..|calls| - 1]) + [FormatLogLine(calls[|calls| - 1])]
  }

  /**
   * The message shown for a thrown value: an `Error`'s own message, or a
   * fixed text for anything else. The text shown cannot tell a non-`Error`
   * throw from an `Error` whose message is that same fixed text.
   */
  function ErrorMessage(thrown: Thrown): (message: string)
    ensures message == UnknownErrorMessage <==> thrown == OtherValue || thrown == ErrorObject(UnknownErrorMessage)
  {
    match thrown
    case ErrorObject(message) => message
    case OtherValue => UnknownErrorMessage
  }

  /**
   * What `runCode` leaves in `output`: exactly the captured lines, one per
   * call and in call order, when the script completed; or a single error
   * line when it threw.
   */
  function RunOutput(t: Trace): (output: seq<string>)
    ensures t.ending.Completed? ==>
      |output| == |t.calls| && forall i :: 0 <= i < |t.calls| ==> output[i] == FormatLogLine(t.calls[i])
    ensures t.ending.Threw? ==>
      |output| == 1 && ErrorPrefix <= output[0] && output[0][|ErrorPrefix|..] == ErrorMessage(t.ending.thrown)
  {
    match t.ending
    case Completed => CapturedLines(t.calls)
    case Threw(thrown) => [ErrorPrefix + ErrorMessage(thrown)]
  }

  /** Whether `runCode` calls `onRunSuccess`: exactly when the script completed after at least one `console.log` call. */
  function RunSucceeded(t: Trace): (succeeded: bool)
    ensures succeeded <==> t.ending == Completed && |t.calls| > 0
  {
    t.ending.Completed? && |CapturedLines(t.calls)| > 0
  }

  /** The green check mark next to "Console Output": some output, whose first line does not start with the error marker. */
  function ShowsSuccessMark(output: seq<string>): (shown: bool)
    ensures shown <==> |output| > 0 && (output[0] == [] || output[0][0] != ErrorMarker[0])
  {
    |output| > 0 && !(ErrorMarker <= output[0])
  }

  /** The lines captured before a throw are discarded: the output does not depend on them. */
  lemma ThrowDiscardsCapture(calls1: seq<seq<string>>, calls2: seq<seq<string>>, thrown: Thrown)
    ensures RunOutput(Trace(calls1, Threw(thrown))) == RunOutput(Trace(calls2, Threw(thrown)))
  {
  }

  /** A thrown value that is not an `Error` is reported as an unknown error. */
  lemma NonErrorThrow(calls: seq<seq<string>>)
    ensures RunOutput(Trace(calls, Threw(OtherValue))) == ["❌ Error: Unknown error occurred"]
  {
    assert ErrorPrefix + UnknownErrorMessage == "❌ Error: Unknown error occurred";
  }

  /**
   * The check mark is shown after a run exactly when the run completed,
   * logged something, and its first line does not itself begin with the
   * error marker.
   */
  lemma SuccessMarkAfterRun(t: Trace)
    ensures ShowsSuccessMark(RunOutput(t)) <==>
      t.ending.Completed? && |t.calls| > 0 && !(ErrorMarker <= FormatLogLine(t.calls[0]))
  {
    if t.ending.Threw? {
      var line := ErrorPrefix + ErrorMessage(t.ending.thrown);
      assert line[..|ErrorMarker|] == ErrorMarker;
    }
  }

  /** The check mark is only ever shown after a run that called `onRunSuccess`. */
  lemma SuccessMarkImpliesSucceeded(t: Trace)
    ensures ShowsSuccessMark(RunOutput(t)) ==> RunSucceeded(t)
  {
    SuccessMarkAfterRun(t);
  }

  /** The converse fails: a script whose first line starts with the marker succeeds without the check mark. */
  lemma MarkHiddenOnMarkerOutput()
    ensures RunSucceeded(Trace([["❌"]], Completed))
    ensures !ShowsSuccessMark(RunOutput(Trace([["❌"]], Completed)))
  {
    var lines := CapturedLines([["❌"]]);
    assert lines[0] == "❌";
  }

  /** The global logger: the browser's own, or a capture function appending to a buffer. */
  datatype Logger = Native | Capturing(buffer: seq<string>)

  /** The global `console`; `printed` is what reached the browser's own logger. */
  class Console {
    var log: Logger
    var printed: seq<seq<string>>

    constructor ()
      ensures log == Native && printed == []
    {
      log := Native;
      printed := [];
    }

    /** A `console.log(...args)` call, dispatched to whichever logger is installed. */
    method Log(args: seq<string>)
      modifies this
      ensures old(log).Native? ==> log == Native && printed == old(printed) + [args]
      ensures old(log).Capturing? ==>
        log == Capturing(old(log).buffer + [FormatLogLine(args)]) && printed == old(printed)
    {
      match log {
        case Native =>
          printed := printed + [args];
        case Capturing(buffer) =>
          log := Capturing(buffer + [FormatLogLine(args)]);
      }
    }
  }

  class CodeEditor {
    const initialCode: string
    const console: Console
    var code: string
    var output: seq<string>
    var isRunning: bool
    /** How many times `onRunSuccess` has been called. */
    var runSuccessCalls: nat

    constructor (initialCode: string, console: Console)
      ensures this.initialCode == initialCode && this.console == console
      ensures code == initialCode && output == [] && !isRunning && runSuccessCalls == 0
    {
      this.initialCode := initialCode;
      this.console := console;
      code := initialCode;
      output := [];
      isRunning := false;
      runSuccessCalls := 0;
    }

    /** Typing in the text area. */
    method SetCode(text: string)
      modifies this
      ensures code == text
      ensures output == old(output) && isRunning == old(isRunning) && runSuccessCalls == old(runSuccessCalls)
    {
      code := text;
    }

    /** The "Run" button is enabled when no run is in flight and the script has a non-whitespace character. */
    function CanRun(): (enabled: bool)
      reads this
      ensures enabled <==> !isRunning && exists i :: 0 <= i < |code| && !IsWhitespace(code[i])
    {
      !isRunning && !IsBlank(code)
    }

    /**
     * `runCode`: installs a capture logger, lets the script make its
     * `console.log` calls, then sets `output` from the capture or the thrown
     * value, and restores the original logger whatever happened. Returns
     * whether `onRunSuccess` was called.
     */
    method RunCode(trace: Trace) returns (ranSuccessfully: bool)
      modifies this, console
      ensures console.log == old(console.log) && console.printed == old(console.printed)
      ensures !isRunning && code == old(code)
      ensures output == RunOutput(trace)
      ensures ranSuccessfully == RunSucceeded(trace)
      ensures runSuccessCalls == old(runSuccessCalls) + (if ranSuccessfully then 1 else 0)
    {
      isRunning := true;
      output := [];
      var originalConsole := console.log;
      console.log := Capturing([]);
      ranSuccessfully := false;

      var i := 0;
      while i < |trace.calls|
        invariant 0 <= i <= |trace.calls|
        invariant console.log == Capturing(CapturedLines(trace.calls[..i]))
        invariant console.printed == old(console.printed)
        invariant code == old(code) && runSuccessCalls == old(runSuccessCalls)
      {
        console.Log(trace.calls[i]);
        assert trace.calls[..i + 1][..i] == trace.calls[..i];
        i := i + 1;
      }
      assert trace.calls[..i] == trace.calls;
      var capturedLogs := console.log.buffer;

      match trace.ending {
        case Completed =>
          output := capturedLogs;
          if |capturedLogs| > 0 {
            runSuccessCalls := runSuccessCalls + 1;
            ranSuccessfully := true;
          }
        case Threw(thrown) =>
          output := [ErrorPrefix + ErrorMessage(thrown)];
      }

      console.log := originalConsole;
      isRunning := false;
    }

    /** `resetCode`: back to the initial script with an empty output; nothing is run. */
    method ResetCode()
      modifies this
      ensures code == initialCode && output == []
      ensures isRunning == old(isRunning) && runSuccessCalls == old(runSuccessCalls)
    {
      code := initialCode;
      output := [];
    }
  }
}
