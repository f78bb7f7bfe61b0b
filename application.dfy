/**
 * The application shell: the run sequence with its early exits, the error
 * exit with its error-dialog text, and the collection of logged errors shown
 * when the engine fails to start.
 */
module Applications {
  import opened Wrappers

  const EXIT_SUCCESS: int := 0
  const EXIT_FAILURE: int := 1

  const DEFAULT_ERROR_TEXT: string := "Application has been terminated due to unexpected error."

  /** Log message levels. */
  datatype LogLevel = LOG_TRACE | LOG_DEBUG | LOG_INFO | LOG_WARNING | LOG_ERROR

  /** The position of the first occurrence of `c` in `s`, if any (`String::Find`). */
  function FindFirst(s: string, c: char): (r: Option<nat>)
    ensures r.Some? ==> r.value < |s| && s[r.value] == c && c !in s[..r.value]
    ensures r.None? <==> c !in s
  {
    if s == [] then None
    else if s[0] == c then Some(0)
    else
      var rest := FindFirst(s[1..], c);
      if rest.Some? then
        assert s[..rest.value + 1] == [s[0]] + s[1..][..rest.value];
        Some(rest.value + 1)
      else None
  }

  /** The tail of `s` from `pos`, or the empty string when `pos` is past the end. */
  function Substring(s: string, pos: nat): (r: string)
    ensures pos < |s| ==> r == s[pos..]
    ensures pos >= |s| ==> r == ""
  {
    if pos < |s| then s[pos..] else ""
  }

  /**
   * A logged error with its timestamp stripped: the text from two characters
   * after the first ']' (nothing when that is past the end), or the whole
   * message when it has no ']'.
   */
  function StripTimestamp(message: string): (r: string)
    ensures ']' !in message ==> r == message
    ensures ']' in message ==> exists p :: 0 <= p < |message| && message[p] == ']' && ']' !in message[..p]
                                  && r == (if p + 2 < |message| then message[p + 2..] else "")
    ensures |r| <= |message|
  {
    var bracketPos := FindFirst(message, ']');
    if bracketPos.Some? then Substring(message, bracketPos.value + 2) else message
  }

  /**
   * The text of the error dialog of an error exit: the message if it is not
   * empty, else the collected startup errors, else the default text. It is
   * never empty.
   */
  function ErrorDialogText(message: string, startupErrors: string): (r: string)
    ensures r != ""
    ensures message != "" ==> r == message
    ensures message == "" && startupErrors != "" ==> r == startupErrors
    ensures message == "" && startupErrors == "" ==> r == DEFAULT_ERROR_TEXT
  {
    if |message| == 0 then (if |startupErrors| > 0 then startupErrors else DEFAULT_ERROR_TEXT) else message
  }

  /**
   * What the application's overridable steps and the engine leave behind.
   * Each stage lists the messages it logs at error level, in order (the log
   * handler ignores every other level): `Setup`, the engine's `Initialize`,
   * `Start`, and the frame loop with `Stop`. `Setup` and `Start` may end with
   * an error exit carrying a message; otherwise they leave an exit code.
   */
  datatype Steps = Steps(
    setupErrors: seq<string>, setupErrorExit: Option<string>, exitAfterSetup: int,
    initializeErrors: seq<string>, initializeOk: bool,
    startErrors: seq<string>, startErrorExit: Option<string>, exitAfterStart: int,
    loopErrors: seq<string>, exitAfterStop: int)
  {
    /** The exit code after `Setup`: `EXIT_FAILURE` after an error exit. */
    function SetupExit(): int { if setupErrorExit.Some? then EXIT_FAILURE else exitAfterSetup }

    /** The exit code after `Start`: `EXIT_FAILURE` after an error exit. */
    function StartExit(): int { if startErrorExit.Some? then EXIT_FAILURE else exitAfterStart }
  }

  /** How far a run got. */
  datatype RunStage = NotRun | AfterSetup | InitializeFailed | AfterStart | Completed

  class Application {
    var exitCode: int
    var startupErrors: string
    /** The texts of the error dialogs shown, oldest first. */
    var dialogs: seq<string>
    /** Whether the engine has been asked to exit. */
    var engineExiting: bool
    var stage: RunStage

    constructor ()
      ensures exitCode == EXIT_SUCCESS && startupErrors == "" && dialogs == [] && !engineExiting && stage == NotRun
    {
      exitCode := EXIT_SUCCESS;
      startupErrors := "";
      dialogs := [];
      engineExiting := false;
      stage := NotRun;
    }

    /**
     * Run the application: stop right after `Setup` or `Start` with the exit
     * code they left when it is non-zero, make an error exit when the engine
     * fails to initialise, else run to the end and return the final exit code.
     * Every error logged on the way is collected, so an error exit with an
     * empty message shows the errors logged so far.
     */
    method Run(steps: Steps) returns (r: int)
      modifies this
      ensures r == exitCode
      ensures var e := old(startupErrors) + CollectedErrors(steps.setupErrors);
              steps.SetupExit() != 0 ==>
                r == steps.SetupExit() && stage == AfterSetup && startupErrors == e
                && dialogs == old(dialogs) + (if steps.setupErrorExit.Some? then [ErrorDialogText(steps.setupErrorExit.value, e)] else [])
      ensures var e := old(startupErrors) + CollectedErrors(steps.setupErrors) + CollectedErrors(steps.initializeErrors);
              steps.SetupExit() == 0 && !steps.initializeOk ==>
                r == EXIT_FAILURE && stage == InitializeFailed && startupErrors == e
                && dialogs == old(dialogs) + [ErrorDialogText("", e)]
      ensures var e := old(startupErrors) + CollectedErrors(steps.setupErrors) + CollectedErrors(steps.initializeErrors)
                       + CollectedErrors(steps.startErrors);
              steps.SetupExit() == 0 && steps.initializeOk && steps.StartExit() != 0 ==>
                r == steps.StartExit() && stage == AfterStart && startupErrors == e
                && dialogs == old(dialogs) + (if steps.startErrorExit.Some? then [ErrorDialogText(steps.startErrorExit.value, e)] else [])
      ensures var e := old(startupErrors) + CollectedErrors(steps.setupErrors) + CollectedErrors(steps.initializeErrors)
                       + CollectedErrors(steps.startErrors) + CollectedErrors(steps.loopErrors);
              steps.SetupExit() == 0 && steps.initializeOk && steps.StartExit() == 0 ==>
                r == steps.exitAfterStop && stage == Completed && startupErrors == e && dialogs == old(dialogs)
    {
      LogErrors(this, steps.setupErrors);
      exitCode := steps.exitAfterSetup;
      if steps.setupErrorExit.Some? {
        ErrorExit(steps.setupErrorExit.value);
      }
      stage := AfterSetup;
      if exitCode != 0 {
        return exitCode;
      }
      LogErrors(this, steps.initializeErrors);
      if !steps.initializeOk {
        stage := InitializeFailed;
        ErrorExit("");
        return exitCode;
      }
      LogErrors(this, steps.startErrors);
      exitCode := steps.exitAfterStart;
      if steps.startErrorExit.Some? {
        ErrorExit(steps.startErrorExit.value);
      }
      stage := AfterStart;
      if exitCode != 0 {
        return exitCode;
      }
      LogErrors(this, steps.loopErrors);
      exitCode := steps.exitAfterStop;
      stage := Completed;
      return exitCode;
    }

    /** Ask the engine to exit, fail with `EXIT_FAILURE` and show the error dialog. */
    method ErrorExit(message: string)
      modifies this`engineExiting, this`exitCode, this`dialogs
      ensures engineExiting && exitCode == EXIT_FAILURE
      ensures dialogs == old(dialogs) + [ErrorDialogText(message, startupErrors)]
    {
      engineExiting := true;
      exitCode := EXIT_FAILURE;
      dialogs := dialogs + [ErrorDialogText(message, startupErrors)];
    }

    /** Collect an error-level log message, without its timestamp, one per line. */
    method HandleLogMessage(message: string, level: LogLevel)
      modifies this`startupErrors
      ensures level != LOG_ERROR ==> startupErrors == old(startupErrors)
      ensures level == LOG_ERROR ==> startupErrors == old(startupErrors) + StripTimestamp(message) + "\n"
    {
      if level == LOG_ERROR {
        var error := message;
        var bracketPos := FindFirst(error, ']');
        if bracketPos.Some? {
          error := Substring(error, bracketPos.value + 2);
        }
        startupErrors := startupErrors + error + "\n";
      }
    }
  }

  /** The collected errors are the stripped messages, each followed by a newline. */
  function CollectedErrors(messages: seq<string>): (r: string)
    ensures |r| >= |messages|
    ensures messages != [] ==> r[|r| - 1] == '\n'
    ensures |messages| == 1 ==> r == StripTimestamp(messages[0]) + "\n"
  {
    if messages == [] then "" else CollectedErrors(messages[..|messages| - 1]) + StripTimestamp(messages[|messages| - 1]) + "\n"
  }

  /**
   * The log handler at work during a run: logging error messages one after
   * another collects exactly the stripped messages.
   */
  method LogErrors(app: Application, messages: seq<string>)
    modifies app`startupErrors
    ensures app.startupErrors == old(app.startupErrors) + CollectedErrors(messages)
  {
    var i := 0;
    while i < |messages|
      invariant 0 <= i <= |messages|
      invariant app.startupErrors == old(app.startupErrors) + CollectedErrors(messages[..i])
    {
      ghost var prefix := messages[..i + 1];
      assert prefix[..|prefix| - 1] == messages[..i] && prefix[|prefix| - 1] == messages[i];
      assert CollectedErrors(prefix) == CollectedErrors(messages[..i]) + StripTimestamp(messages[i]) + "\n";
      app.HandleLogMessage(messages[i], LOG_ERROR);
      i := i + 1;
    }
    assert messages[..i] == messages;
  }
}
