/** The agent gateway of src/ai.py: prompt sanitisation, the command line
    of the external agent, and the classification of its outcome. The
    process itself is an oracle `run` from argument vector to outcome. */
module Gateway {
  import opened Wrappers
  import opened PyStr

  const EMPTY_PROMPT_MESSAGE: string := "Please send a non-empty message."
  const AGENT_ERROR_MESSAGE: string := "Sorry, I encountered an error. Please try again later."
  /** Model used when CURSOR_MODEL is not set. */
  const DEFAULT_MODEL: string := "Composer 1.5"

  /** What `subprocess.run` gives back: the process exited with a status
      and its two captured streams, or it ran past the 1800-second timeout
      (`TimeoutExpired`, which nothing in the relay catches). */
  datatype ProcessOutcome =
    | Exited(returncode: int, stdout: string, stderr: string)
    | TimedOut

  /** The exceptions `generate_response` lets out: `EmptyPromptError`,
      `AgentError` (with the process's stderr), and the uncaught timeout. */
  datatype AgentFailure =
    | EmptyPrompt(message: string)
    | AgentFault(message: string, stderr: string)
    | ProcessTimeout

  /** The result of one `generate_response` call. */
  datatype Response = Reply(text: string) | Failed(error: AgentFailure)

  /** The characters the sanitiser deletes: 0x00-0x08, 0x0B, 0x0C,
      0x0E-0x1F and 0x7F. Tab, line feed and carriage return stay. */
  predicate IsControl(c: char) {
    var n := c as int;
    n <= 0x08 || n == 0x0B || n == 0x0C || (0x0E <= n <= 0x1F) || n == 0x7F
  }

  /** A character that survives both control removal and stripping. */
  predicate Visible(c: char) {
    !IsControl(c) && !IsWhitespace(c)
  }

  predicate HasVisible(s: string) {
    exists i :: 0 <= i < |s| && Visible(s[i])
  }

  /** The regular-expression substitution that deletes every control
      character and keeps every other character, in order. */
  function RemoveControls(s: string): (r: string)
    ensures |r| <= |s|
    ensures forall c :: c in r <==> c in s && !IsControl(c)
    ensures (forall i :: 0 <= i < |s| ==> !IsControl(s[i])) ==> r == s
  {
    if s == [] then []
    else (if IsControl(s[0]) then [] else [s[0]]) + RemoveControls(s[1..])
  }

  /** Control removal works piece by piece: it commutes with concatenation. */
  lemma {:induction false} RemoveControlsConcat(a: string, b: string)
    ensures RemoveControls(a + b) == RemoveControls(a) + RemoveControls(b)
  {
    if a != [] {
      assert (a + b)[1..] == a[1..] + b;
      RemoveControlsConcat(a[1..], b);
    } else {
      assert a + b == b;
    }
  }

  /** `_sanitize_prompt`: None, "" and whitespace-only prompts give "";
      otherwise control characters are deleted and the result stripped. */
  function SanitizePrompt(prompt: Option<string>): (r: string)
    ensures r == Strip(RemoveControls(OrEmpty(prompt)))
    ensures forall i :: 0 <= i < |r| ==> !IsControl(r[i])
    ensures r == "" <==> !HasVisible(OrEmpty(prompt))
  {
    var p := OrEmpty(prompt);
    RemoveControlsBlank(p);
    if p == "" || Strip(p) == "" then "" else Strip(RemoveControls(p))
  }

  /** Stripping the filtered text leaves nothing exactly when the text has
      no visible character; in particular the early return of the
      sanitiser for whitespace-only text agrees with the general path. */
  lemma RemoveControlsBlank(p: string)
    ensures Strip(RemoveControls(p)) == "" <==> !HasVisible(p)
    ensures AllWhitespace(p) ==> !HasVisible(p)
  {
    var r := RemoveControls(p);
    if !AllWhitespace(r) {
      var j :| 0 <= j < |r| && !IsWhitespace(r[j]);
      assert r[j] in p;
      var i :| 0 <= i < |p| && p[i] == r[j];
      assert Visible(p[i]);
    }
  }

  /** Sanitising twice is sanitising once. */
  lemma SanitizeIdempotent(prompt: Option<string>)
    ensures SanitizePrompt(Some(SanitizePrompt(prompt))) == SanitizePrompt(prompt)
  {
    var r := SanitizePrompt(prompt);
    assert RemoveControls(r) == r;
    StripIdempotent(RemoveControls(OrEmpty(prompt)));
  }

  /** Text without control characters and without surrounding whitespace
      (non-ASCII text, interior tabs and line breaks included) passes the
      sanitiser unchanged. */
  lemma SanitizeKeepsCleanText(p: string)
    requires forall i :: 0 <= i < |p| ==> !IsControl(p[i])
    requires p == [] || (!IsWhitespace(p[0]) && !IsWhitespace(p[|p| - 1]))
    ensures SanitizePrompt(Some(p)) == p
  {
    StripOfTrimmed(p);
  }

  /** A run made only of control characters is deleted completely. */
  lemma {:induction false} RemoveControlsOnlyControls(junk: string)
    requires forall i :: 0 <= i < |junk| ==> IsControl(junk[i])
    ensures RemoveControls(junk) == []
  {
    if junk != [] {
      RemoveControlsOnlyControls(junk[1..]);
    }
  }

  /** Control characters between two pieces of text vanish, joining the
      pieces (as `hello` NUL BEL `world` becomes `helloworld`). */
  lemma SanitizeJoinsAcrossControls(a: string, junk: string, b: string)
    requires forall i :: 0 <= i < |a| ==> !IsControl(a[i])
    requires forall i :: 0 <= i < |b| ==> !IsControl(b[i])
    requires forall i :: 0 <= i < |junk| ==> IsControl(junk[i])
    ensures SanitizePrompt(Some(a + junk + b)) == Strip(a + b)
  {
    RemoveControlsOnlyControls(junk);
    calc {
      RemoveControls(a + junk + b);
      { RemoveControlsConcat(a + junk, b); }
      RemoveControls(a + junk) + RemoveControls(b);
      { RemoveControlsConcat(a, junk); }
      RemoveControls(a) + [] + b;
      { assert RemoveControls(a) + [] == RemoveControls(a); }
      a + b;
    }
  }

  /** `os.getenv("CURSOR_MODEL", "Composer 1.5")`. */
  function ModelName(env: Option<string>): (model: string)
    ensures env.None? ==> model == DEFAULT_MODEL
    ensures env.Some? ==> model == env.value
  {
    match env
    case None => DEFAULT_MODEL
    case Some(m) => m
  }

  /** The argument vector of the agent process: fixed flags, the model,
      and the sanitised prompt as one final argument (no shell involved). */
  function AgentArgv(model: string, prompt: string): (argv: seq<string>)
    ensures |argv| == 9 && argv[0] == "agent" && argv[|argv| - 1] == prompt
    ensures argv[1..4] == ["-p", "--force", "--mode=agent"]
    ensures argv[4..6] == ["--model", model]
    ensures argv[6..8] == ["--output-format", "json"]
  {
    ["agent", "-p", "--force", "--mode=agent", "--model", model, "--output-format", "json", prompt]
  }

  /** `generate_response`: reject a prompt that sanitises to "", otherwise
      run the agent on the sanitised prompt; exit status 0 gives stdout
      verbatim, any other status an `AgentError` carrying stderr. */
  function GenerateResponse(prompt: string, model: string, run: seq<string> -> ProcessOutcome): (r: Response)
    ensures var s := SanitizePrompt(Some(prompt));
      && (s == "" <==> r.Failed? && r.error.EmptyPrompt?)
      && (s == "" ==> r.error.message == EMPTY_PROMPT_MESSAGE)
    ensures var s := SanitizePrompt(Some(prompt)); var o := run(AgentArgv(model, s));
      && (s != "" && o.Exited? && o.returncode == 0 ==> r == Reply(o.stdout))
      && (s != "" && o.Exited? && o.returncode != 0 ==> r == Failed(AgentFault(AGENT_ERROR_MESSAGE, o.stderr)))
      && (s != "" && o.TimedOut? ==> r == Failed(ProcessTimeout))
  {
    var sanitized := SanitizePrompt(Some(prompt));
    if sanitized == "" then
      Failed(EmptyPrompt(EMPTY_PROMPT_MESSAGE))
    else
      match run(AgentArgv(model, sanitized))
      case TimedOut => Failed(ProcessTimeout)
      case Exited(code, out, err) =>
        if code == 0 then Reply(out) else Failed(AgentFault(AGENT_ERROR_MESSAGE, err))
  }

  /** A prompt that sanitises to "" never reaches the process: the response
      is the same whatever the process would have done. */
  lemma EmptyPromptNeverRuns(prompt: string, model: string, run1: seq<string> -> ProcessOutcome, run2: seq<string> -> ProcessOutcome)
    requires SanitizePrompt(Some(prompt)) == ""
    ensures GenerateResponse(prompt, model, run1) == GenerateResponse(prompt, model, run2)
  {
  }

  /** The empty-prompt error arises exactly for prompts with no visible
      character, and whitespace-only prompts are among them. */
  lemma EmptyPromptIff(prompt: string, model: string, run: seq<string> -> ProcessOutcome)
    ensures GenerateResponse(prompt, model, run) == Failed(EmptyPrompt(EMPTY_PROMPT_MESSAGE)) <==> !HasVisible(prompt)
    ensures AllWhitespace(prompt) ==> GenerateResponse(prompt, model, run).Failed?
  {
    RemoveControlsBlank(prompt);
  }
}
