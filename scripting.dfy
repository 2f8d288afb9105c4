/** Running a script (utils/scripting.py): the outcome of the `osascript` process becomes
    the script's output or a `JXAScriptError` message, and `evaluate_javascript` wraps a
    script so that OmniFocus evaluates it and its result comes back as JSON text. */
module Scripting {
  import opened Text

  /** How `subprocess.run` ended: the process exited, or the call raised. */
  datatype ProcessOutcome =
    | Exited(returncode: int, stdout: string, stderr: string)
    | TimeoutExpired
    | FileNotFound                   // `osascript` is not on this system
    | OtherException(text: string)   // any other exception, `text` being `str(e)`

  /** The process a call starts: argument vector and timeout in, outcome out. */
  type Runner = (seq<string>, int) -> ProcessOutcome

  /** An exception raised inside the `try` block of `run_jxa_script`. */
  datatype Raised = ScriptFailed(message: string) | Timeout | NotFound | Other(text: string)

  /** What the `try` block does: return a value or raise. */
  datatype TryResult = Returned(value: string) | Threw(exception: Raised)

  /** What `run_jxa_script` does: return the output or raise `JXAScriptError(message)`. */
  datatype RunResult = Output(text: string) | JXAScriptError(message: string)

  const DefaultTimeout: int := 30

  const FailedPrefix: string := "AppleScript failed: "
  const UnknownError: string := "Unknown AppleScript error"
  const ExecutionErrorPrefix: string := "AppleScript execution error: "
  const TimedOutPrefix: string := "AppleScript timed out after "
  const SecondsSuffix: string := " seconds"
  const NotFoundMessage: string := "osascript not found - AppleScript not available on this system"

  /** The argument vector of the `osascript` process; the script is its last argument. */
  function Command(script: string): (argv: seq<string>)
    ensures |argv| == 5 && argv[..4] == ["osascript", "-l", "JavaScript", "-e"] && argv[4] == script
  {
    ["osascript", "-l", "JavaScript", "-e", script]
  }

  /** The `try` block once the process has ended: only a zero exit returns, and it returns
      stdout without surrounding whitespace; a non-zero exit raises `"AppleScript failed: "`
      and each exception of `subprocess.run` propagates as itself. */
  function TryBlock(o: ProcessOutcome): (r: TryResult)
    ensures r.Returned? <==> o.Exited? && o.returncode == 0
    ensures r.Returned? ==> r.value == Strip(o.stdout)
    ensures r.Threw? ==> (r.exception.ScriptFailed? <==> o.Exited?)
    ensures r.Threw? && r.exception.ScriptFailed? ==> StartsWith(r.exception.message, FailedPrefix)
    ensures r.Threw? ==> (r.exception.Timeout? <==> o.TimeoutExpired?) && (r.exception.NotFound? <==> o.FileNotFound?)
  {
    match o
    case Exited(code, out, err) =>
      if code != 0 then
        var errorMsg := if err != "" then Strip(err) else UnknownError;
        Threw(ScriptFailed(FailedPrefix + errorMsg))
      else
        Returned(if out != "" then Strip(out) else "")
    case TimeoutExpired => Threw(Timeout)
    case FileNotFound => Threw(NotFound)
    case OtherException(t) => Threw(Other(t))
  }

  /** The three `except` clauses, tried in order. The `JXAScriptError` raised for a non-zero
      exit is not a timeout nor a missing file, so the last clause catches it again. */
  function Handle(e: Raised, timeout: int): (message: string)
    ensures e.ScriptFailed? || e.Other? ==> StartsWith(message, ExecutionErrorPrefix)
    ensures e.Timeout? ==> StartsWith(message, TimedOutPrefix)
    ensures e.NotFound? ==> message == NotFoundMessage
    ensures e.ScriptFailed? && StartsWith(e.message, FailedPrefix) ==>
              StartsWith(message, ExecutionErrorPrefix + FailedPrefix)
  {
    assert e.ScriptFailed? && StartsWith(e.message, FailedPrefix) ==>
             ExecutionErrorPrefix + e.message
             == ExecutionErrorPrefix + FailedPrefix + e.message[|FailedPrefix|..];
    match e
    case Timeout => TimedOutPrefix + IntToDecimal(timeout) + SecondsSuffix
    case NotFound => NotFoundMessage
    case ScriptFailed(m) => ExecutionErrorPrefix + m
    case Other(t) => ExecutionErrorPrefix + t
  }

  /** `run_jxa_script` once the process has ended with outcome `o`: only a zero exit yields
      output, and the output is stdout without surrounding whitespace (empty stdout gives
      the empty string). */
  function Classify(o: ProcessOutcome, timeout: int): (r: RunResult)
    ensures r.Output? <==> o.Exited? && o.returncode == 0
    ensures r.Output? ==> r.text == Strip(o.stdout)
    ensures r.JXAScriptError? ==>
              StartsWith(r.message, ExecutionErrorPrefix) || StartsWith(r.message, TimedOutPrefix)
              || r.message == NotFoundMessage
    ensures r.JXAScriptError? && o.Exited? ==> StartsWith(r.message, ExecutionErrorPrefix + FailedPrefix)
  {
    match TryBlock(o)
    case Returned(v) => Output(v)
    case Threw(e) => JXAScriptError(Handle(e, timeout))
  }

  /** `run_jxa_script(script, timeout)`: every error message comes from one of the three
      `except` clauses, and a failed exit carries both prefixes. */
  function RunJxaScript(script: string, timeout: int, run: Runner): (r: RunResult)
    ensures var o := run(Command(script), timeout);
            r.Output? <==> o.Exited? && o.returncode == 0
    ensures r.JXAScriptError? ==>
              StartsWith(r.message, ExecutionErrorPrefix) || StartsWith(r.message, TimedOutPrefix)
              || r.message == NotFoundMessage
    ensures var o := run(Command(script), timeout);
            r.JXAScriptError? && o.Exited? ==> StartsWith(r.message, ExecutionErrorPrefix + FailedPrefix)
  {
    Classify(run(Command(script), timeout), timeout)
  }

  /** A non-zero exit is reported with both prefixes, `"AppleScript execution error: "`
      then `"AppleScript failed: "`, because the first `JXAScriptError` is caught and
      wrapped again; the stripped stderr follows, or a fixed text when stderr is empty. */
  lemma NonZeroExitMessage(code: int, out: string, err: string, timeout: int)
    requires code != 0
    ensures Classify(Exited(code, out, err), timeout)
         == JXAScriptError(ExecutionErrorPrefix + (FailedPrefix + (if err == "" then UnknownError else Strip(err))))
  {
  }

  /** A stderr of whitespace alone is not empty, so it yields an empty diagnostic rather
      than the fixed text. */
  lemma WhitespaceStderrGivesEmptyDiagnostic(code: int, out: string, err: string, timeout: int)
    requires code != 0 && err != "" && AllSpace(err)
    ensures Classify(Exited(code, out, err), timeout) == JXAScriptError(ExecutionErrorPrefix + FailedPrefix)
  {
    NonZeroExitMessage(code, out, err, timeout);
    assert FailedPrefix + [] == FailedPrefix;
  }

  /** A timeout names the configured number of seconds. */
  lemma TimeoutMessage(timeout: nat)
    ensures Classify(TimeoutExpired, timeout)
         == JXAScriptError(TimedOutPrefix + NatToDecimal(timeout) + SecondsSuffix)
  {
  }

  /** The number in the timeout message reads back as the timeout. */
  lemma TimeoutMessageNamesDuration(timeout: nat)
    ensures var m := Classify(TimeoutExpired, timeout).message;
            var digits := m[|TimedOutPrefix|..|m| - |SecondsSuffix|];
            (forall i :: 0 <= i < |digits| ==> '0' <= digits[i] <= '9') && DecimalValue(digits) == timeout
  {
    var m := Classify(TimeoutExpired, timeout).message;
    var d := NatToDecimal(timeout);
    assert m == TimedOutPrefix + d + SecondsSuffix;
    assert m[|TimedOutPrefix|..|m| - |SecondsSuffix|] == d;
    DecimalRoundTrip(timeout);
  }

  /** A missing `osascript` gives one fixed message. */
  lemma MissingInterpreterMessage(timeout: int)
    ensures Classify(FileNotFound, timeout) == JXAScriptError(NotFoundMessage)
  {
  }

  /** Any other exception is wrapped with its text preserved. */
  lemma OtherExceptionMessage(text: string, timeout: int)
    ensures Classify(OtherException(text), timeout) == JXAScriptError(ExecutionErrorPrefix + text)
  {
  }

  /** The successful run the tests mock: stdout `"Hello World\n"` gives `"Hello World"`. */
  lemma HelloWorld(timeout: int)
    ensures Classify(Exited(0, "Hello World\n", ""), timeout) == Output("Hello World")
  {
    StripWrapped([], "Hello World", "\n");
    assert [] + "Hello World" + "\n" == "Hello World\n";
  }

  // ---------------------------------------------------------------------------------
  // evaluate_javascript
  // ---------------------------------------------------------------------------------

  const WrapperPrefix: string := "let script = `"
  const WrapperTail: string :=
    ";\n(() => {\n   return JSON.stringify(Application(\"OmniFocus\").evaluateJavascript(script));\n})();"

  /** The outer program: the script placed verbatim between backticks. */
  function WrapperProgram(script: string): (r: string)
    ensures |r| == |WrapperPrefix| + |script| + 1 + |WrapperTail|
    ensures r[..|WrapperPrefix|] == WrapperPrefix
    ensures r[|WrapperPrefix|..|WrapperPrefix| + |script|] == script
    ensures r[|WrapperPrefix| + |script|] == '`'
    ensures r[|WrapperPrefix| + |script| + 1..] == WrapperTail
  {
    WrapperPrefix + script + "`" + WrapperTail
  }

  /** A character that stands for itself inside a JavaScript template literal, in the
      subset the reader below knows: no backtick, backslash or dollar sign, and no carriage
      return, which a template literal turns into a line feed. */
  predicate TemplatePlainChar(c: char) {
    c != '`' && c != '\\' && c != '$' && c != '\r'
  }

  predicate TemplatePlain(s: string) {
    forall i :: 0 <= i < |s| ==> TemplatePlainChar(s[i])
  }

  /** Reads the rest of a template literal whose opening backtick has been consumed: its
      text and what follows the closing backtick. Escapes, substitutions and carriage
      returns are outside what it reads. */
  function ReadTemplateTail(s: string): (r: Option<(string, string)>)
    ensures r.Some? ==> |r.value.1| < |s|
  {
    if |s| == 0 || s[0] == '\\' || s[0] == '$' || s[0] == '\r' then None
    else if s[0] == '`' then Some(("", s[1..]))
    else
      match ReadTemplateTail(s[1..])
      case None => None
      case Some((t, rest)) => Some(([s[0]] + t, rest))
  }

  lemma {:induction false} ReadTemplatePlain(v: string, rest: string)
    requires TemplatePlain(v)
    ensures ReadTemplateTail(v + "`" + rest) == Some((v, rest))
  {
    if v != [] {
      assert (v + "`" + rest)[1..] == v[1..] + "`" + rest;
      ReadTemplatePlain(v[1..], rest);
      assert [v[0]] + v[1..] == v;
    } else {
      assert v + "`" + rest == "`" + rest;
    }
  }

  /** A script with no backtick, backslash, dollar sign or carriage return reaches
      OmniFocus unchanged: the
      template literal holds exactly the script, and the outer program goes on as written. */
  lemma WrapperCarriesScript(script: string)
    requires TemplatePlain(script)
    ensures ReadTemplateTail(WrapperProgram(script)[|WrapperPrefix|..]) == Some((script, WrapperTail))
  {
    assert WrapperProgram(script)[|WrapperPrefix|..] == script + "`" + WrapperTail;
    ReadTemplatePlain(script, WrapperTail);
  }

  /** Nothing is escaped: a backtick in the script closes the literal there, and the rest of
      the script becomes code of the outer program. */
  lemma BacktickEndsScriptEarly(prefix: string, suffix: string)
    requires TemplatePlain(prefix)
    ensures ReadTemplateTail(WrapperProgram(prefix + "`" + suffix)[|WrapperPrefix|..])
         == Some((prefix, suffix + "`" + WrapperTail))
  {
    var script := prefix + "`" + suffix;
    assert WrapperProgram(script)[|WrapperPrefix|..] == prefix + "`" + (suffix + "`" + WrapperTail);
    ReadTemplatePlain(prefix, suffix + "`" + WrapperTail);
  }

  /** What `evaluate_javascript` returns: `{}` for empty output, the value `json.loads`
      decodes from `json` otherwise, or the runner's error. */
  datatype Evaluation = EmptyObject | Decoded(json: string) | Failed(message: string)

  /** `evaluate_javascript(script)`: runs the outer program with the default timeout. */
  function EvaluateJavascript(script: string, run: Runner): (r: Evaluation)
    ensures r.Decoded? ==> r.json != "" && !IsSpace(r.json[0]) && !IsSpace(r.json[|r.json| - 1])
    ensures var o := run(Command(WrapperProgram(script)), DefaultTimeout);
            r.Decoded? ==> o.Exited? && o.returncode == 0 && r.json == Strip(o.stdout)
    ensures var e := RunJxaScript(WrapperProgram(script), DefaultTimeout, run);
            (r.Failed? <==> e.JXAScriptError?) && (r.Failed? ==> r.message == e.message)
  {
    var o := run(Command(WrapperProgram(script)), DefaultTimeout);
    assert RunJxaScript(WrapperProgram(script), DefaultTimeout, run) == Classify(o, DefaultTimeout);
    match Classify(o, DefaultTimeout)
    case JXAScriptError(m) => Failed(m)
    case Output(out) => if out != "" then Decoded(out) else EmptyObject
  }

  /** The result is `{}` exactly when `osascript` exits with status zero and prints
      nothing but whitespace. */
  lemma EmptyOutputIsEmptyObject(script: string, run: Runner)
    ensures var o := run(Command(WrapperProgram(script)), DefaultTimeout);
            (EvaluateJavascript(script, run) == EmptyObject) <==> (o.Exited? && o.returncode == 0 && AllSpace(o.stdout))
  {
  }

  /** `evaluate_javascript` passes the wrapped script to `osascript` with the 30-second
      default, so a timeout is reported as 30 seconds. */
  lemma EvaluateTimeoutMessage(script: string, run: Runner)
    requires run(Command(WrapperProgram(script)), DefaultTimeout) == TimeoutExpired
    ensures EvaluateJavascript(script, run) == Failed(TimedOutPrefix + "30" + SecondsSuffix)
  {
    assert RunJxaScript(WrapperProgram(script), DefaultTimeout, run) == JXAScriptError(Handle(Timeout, 30));
    assert IntToDecimal(30) == "30";
  }
}
