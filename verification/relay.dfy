/** The relay of src/comm_service.py: `agent_run` (prior memory plus the
    new prompt go to the agent; a successful exchange is remembered) and
    the decisions of the message handler `on_message` (own messages
    ignored, `/cwd` commands answered locally, everything else relayed).
    The agent is the oracle `generate_response`; `os.path.isabs` and
    `os.path.isdir` are oracles on paths. */
module Relay {
  import opened Wrappers
  import opened PyStr
  import opened Gateway
  import opened Memory

  /** The prompt handed to the agent: the prompt alone when memory is
      empty, else the entries one per line, a blank line, and the prompt. */
  function CombinedPrompt(prior: seq<string>, prompt: string): (combined: string)
    ensures prior == [] ==> combined == prompt
    ensures |prompt| <= |combined| && combined[|combined| - |prompt|..] == prompt
    ensures prior != [] ==> StartsWith(combined, prior[0])
  {
    if prior == [] then prompt else Join("\n", prior) + "\n\n" + prompt
  }

  lemma HasVisibleConcat(a: string, b: string)
    ensures HasVisible(a + b) <==> HasVisible(a) || HasVisible(b)
  {
    if HasVisible(a + b) {
      var i :| 0 <= i < |a + b| && Visible((a + b)[i]);
      if i >= |a| { assert (a + b)[i] == b[i - |a|]; }
    }
    if HasVisible(b) {
      var i :| 0 <= i < |b| && Visible(b[i]);
      assert (a + b)[|a| + i] == b[i];
    }
    if HasVisible(a) {
      var i :| 0 <= i < |a| && Visible(a[i]);
      assert (a + b)[i] == a[i];
    }
  }

  /** Joining with an invisible separator has a visible character exactly
      when some part has one. */
  lemma {:induction false} HasVisibleJoin(sep: string, parts: seq<string>)
    requires !HasVisible(sep)
    ensures HasVisible(Join(sep, parts)) <==> exists i :: 0 <= i < |parts| && HasVisible(parts[i])
  {
    if |parts| > 1 {
      HasVisibleJoin(sep, parts[1..]);
      HasVisibleConcat(parts[0] + sep, Join(sep, parts[1..]));
      HasVisibleConcat(parts[0], sep);
      if exists i :: 0 <= i < |parts| && HasVisible(parts[i]) {
        var i :| 0 <= i < |parts| && HasVisible(parts[i]);
        if i > 0 { assert parts[1..][i - 1] == parts[i]; }
      }
      if exists i :: 0 <= i < |parts[1..]| && HasVisible(parts[1..][i]) {
        var i :| 0 <= i < |parts[1..]| && HasVisible(parts[1..][i]);
        assert parts[i + 1] == parts[1..][i];
      }
    }
  }

  /** The combined prompt is empty after sanitising exactly when neither
      the prompt nor any memory entry has a visible character. So an empty
      user prompt is rejected with `EmptyPromptError` when memory is empty,
      and passes whenever memory holds an entry with visible text. */
  lemma CombinedPromptBlankIff(prior: seq<string>, prompt: string)
    ensures SanitizePrompt(Some(CombinedPrompt(prior, prompt))) == ""
        <==> !HasVisible(prompt) && forall i :: 0 <= i < |prior| ==> !HasVisible(prior[i])
  {
    if prior != [] {
      assert !HasVisible("\n");
      assert !HasVisible("\n\n");
      HasVisibleJoin("\n", prior);
      HasVisibleConcat(Join("\n", prior) + "\n\n", prompt);
      HasVisibleConcat(Join("\n", prior), "\n\n");
    }
  }

  /** The memory entry recorded for one exchange. */
  function Exchange(prompt: string, reply: string): (entry: string)
    ensures StartsWith(entry, "User: " + prompt)
  {
    "User: " + prompt + "\n\n Agent: " + reply + "\n\n"
  }

  /** What `add_memory` keeps of an exchange: it is never blank (so it is
      always stored), starts with the prompt, and ends with the reply
      less its trailing whitespace. */
  lemma StoredExchange(prompt: string, reply: string)
    ensures var e := Strip(Exchange(prompt, reply));
      && IsEntry(e) && HasVisible(e)
      && (!AllWhitespace(reply) ==> e == "User: " + prompt + "\n\n Agent: " + StripRight(reply))
      && (AllWhitespace(reply) ==> e == "User: " + prompt + "\n\n Agent:")
  {
    var x := Exchange(prompt, reply);
    assert x[0] == 'U';
    StripOfLeadingText(x);
    assert Visible(Strip(x)[0]);
    if !AllWhitespace(reply) {
      ExchangeWithText(prompt, reply);
    } else {
      ExchangeWithBlank(prompt, reply);
    }
  }

  lemma ExchangeWithText(prompt: string, reply: string)
    requires !AllWhitespace(reply)
    ensures StripRight(Exchange(prompt, reply)) == "User: " + prompt + "\n\n Agent: " + StripRight(reply)
  {
    var front := "User: " + prompt + "\n\n Agent: ";
    assert Exchange(prompt, reply) == front + reply + "\n\n";
    StripRightAppendWhitespace(front + reply, "\n\n");
    StripRightConcat(front, reply);
  }

  lemma ExchangeWithBlank(prompt: string, reply: string)
    requires AllWhitespace(reply)
    ensures StripRight(Exchange(prompt, reply)) == "User: " + prompt + "\n\n Agent:"
  {
    var head := "User: " + prompt + "\n\n Agent:";
    var tail := " " + reply + "\n\n";
    assert Exchange(prompt, reply) == head + tail;
    forall j | 0 <= j < |tail| ensures IsWhitespace(tail[j]) {
      if 0 < j <= |reply| { assert tail[j] == reply[j - 1]; }
    }
    StripRightAppendWhitespace(head, tail);
    assert head[|head| - 1] == ':';
    TrimEndAt(head, 0, |head|, |head|);
  }

  datatype RunResult = RunResult(queue: seq<string>, response: Response)

  /** `agent_run` on memory `q`: the agent sees the combined prompt; an
      agent error leaves memory as it was and is passed on; a reply is
      remembered as one exchange (which may compact memory, and whose
      summariser may itself fail) and returned unchanged. */
  function AfterAgentRun(q: seq<string>, prompt: string, agent: string -> Response): (r: RunResult)
    ensures var first := agent(CombinedPrompt(q, prompt));
      && (first.Failed? ==> r == RunResult(q, first))
      && (first.Reply? ==> r.queue == AfterAdd(q, Some(Exchange(prompt, first.text)), agent).queue)
      && (r.response.Reply? ==> r.response == first)
    ensures var first := agent(CombinedPrompt(q, prompt));
      first.Reply? ==> var added := AfterAdd(q, Some(Exchange(prompt, first.text)), agent);
        && (added.outcome.Returned? ==> r.response == first)
        && (added.outcome.Raised? ==> r.response == Failed(added.outcome.error))
  {
    var first := agent(CombinedPrompt(q, prompt));
    match first
    case Failed(_) => RunResult(q, first)
    case Reply(text) =>
      var added := AfterAdd(q, Some(Exchange(prompt, text)), agent);
      match added.outcome
      case Returned => RunResult(added.queue, first)
      case Raised(e) => RunResult(added.queue, Failed(e))
  }

  /** With fewer than five entries, a successful run appends exactly one
      entry: the exchange with the original, uncombined prompt. */
  lemma AgentRunAppendsExchange(q: seq<string>, prompt: string, agent: string -> Response)
    requires |q| < MAX_MESSAGES_BEFORE_SUMMARY
    requires agent(CombinedPrompt(q, prompt)).Reply?
    ensures var text := agent(CombinedPrompt(q, prompt)).text;
      AfterAgentRun(q, prompt, agent) == RunResult(q + [Strip(Exchange(prompt, text))], Reply(text))
  {
    StoredExchange(prompt, agent(CombinedPrompt(q, prompt)).text);
  }

  /** The exchange passed to `add_memory` after a reply is never blank, so
      `add_memory` never skips it. */
  lemma AgentRunRecordsReply(q: seq<string>, prompt: string, agent: string -> Response)
    requires agent(CombinedPrompt(q, prompt)).Reply?
    ensures var text := agent(CombinedPrompt(q, prompt)).text;
      Strip(OrEmpty(Some(Exchange(prompt, text)))) != ""
  {
    StoredExchange(prompt, agent(CombinedPrompt(q, prompt)).text);
  }

  /** With the real gateway as the agent, `agent_run` fails with
      `EmptyPromptError` exactly when neither the prompt nor any memory
      entry has a visible character: an empty prompt is rejected when
      memory is empty (or invisible), and relayed otherwise. The summary
      request never meets that error. */
  lemma EmptyPromptOnlyWithBlankMemory(q: seq<string>, prompt: string, model: string, run: seq<string> -> ProcessOutcome)
    ensures AfterAgentRun(q, prompt, p => GenerateResponse(p, model, run)).response == Failed(EmptyPrompt(EMPTY_PROMPT_MESSAGE))
        <==> !HasVisible(prompt) && forall i :: 0 <= i < |q| ==> !HasVisible(q[i])
  {
    var agent := p => GenerateResponse(p, model, run);
    CombinedPromptBlankIff(q, prompt);
    var first := agent(CombinedPrompt(q, prompt));
    if first.Reply? {
      var msg := Strip(OrEmpty(Some(Exchange(prompt, first.text))));
      SummaryPromptNeverEmpty(q + [msg]);
    }
  }

  const USAGE_REPLY: string := "Usage: /cwd /absolute/path"
  const NOT_ABSOLUTE_REPLY: string := "Path must be absolute."
  const NOT_DIRECTORY_REPLY: string := "Path does not exist or is not a directory."

  function DirectorySetReply(path: string): string {
    "Working directory set to: " + path
  }

  /** What `on_message` decides before doing any I/O. */
  datatype Decision =
    | Ignore
    | CwdUsage
    | CwdNotAbsolute
    | CwdNotDirectory
    | CwdSet(path: string)
    | RunAgent(prompt: string)

  /** The argument of a `/cwd` command: the text after the command word
      and the whitespace following it, stripped. */
  function CwdArgument(content: string): string {
    Strip(content[SkipWhitespace(content, SkipWord(content, 0))..])
  }

  /** `on_message`'s tests: the bot's own messages are dropped; a message
      starting with `/cwd` is checked for a non-blank, absolute path to an
      existing directory; anything else goes to the agent as it is. */
  function Decide(fromSelf: bool, content: string, isAbs: string -> bool, isDir: string -> bool): (d: Decision)
    ensures fromSelf <==> d == Ignore
    ensures !fromSelf && !StartsWith(content, "/cwd") ==> d == RunAgent(content)
    ensures !fromSelf && StartsWith(content, "/cwd") ==> var arg := CwdArgument(content);
      && (arg == "" ==> d == CwdUsage)
      && (arg != "" && !isAbs(arg) ==> d == CwdNotAbsolute)
      && (arg != "" && isAbs(arg) && !isDir(arg) ==> d == CwdNotDirectory)
      && (arg != "" && isAbs(arg) && isDir(arg) ==> d == CwdSet(arg))
  {
    if fromSelf then
      Ignore
    else if StartsWith(content, "/cwd") then
      CwdSplitArgument(content);
      var parts := SplitOnce(content);
      if |parts| < 2 || Strip(parts[1]) == "" then
        CwdUsage
      else
        var newPath := Strip(parts[1]);
        if !isAbs(newPath) then CwdNotAbsolute
        else if !isDir(newPath) then CwdNotDirectory
        else CwdSet(newPath)
    else
      RunAgent(content)
  }

  /** `content.split(maxsplit=1)` finds the `/cwd` argument. */
  lemma CwdSplitArgument(content: string)
    requires StartsWith(content, "/cwd")
    ensures var parts := SplitOnce(content);
      && (|parts| < 2 ==> CwdArgument(content) == "")
      && (|parts| == 2 ==> Strip(parts[1]) == CwdArgument(content))
  {
    assert content[0] == '/';
    SkipWhitespaceAt(content, 0, 0);
  }

  /** What the handler does in the end: nothing, send one reply, persist a
      new working directory and confirm it, or let an exception escape
      (the agent's timeout, which the handler does not catch). */
  datatype Effect =
    | NoReply
    | Sent(text: string)
    | DirectorySet(path: string, text: string)
    | Unhandled(error: AgentFailure)

  datatype MessageResult = MessageResult(queue: seq<string>, effect: Effect)

  /** The handler's `try`/`except`: the reply, or the text of an
      `EmptyPromptError` or `AgentError`; anything else escapes. */
  function ReplyEffect(response: Response): (effect: Effect)
    ensures response.Reply? ==> effect == Sent(response.text)
    ensures response.Failed? && !response.error.ProcessTimeout? ==> effect == Sent(response.error.message)
    ensures response.Failed? && response.error.ProcessTimeout? ==> effect == Unhandled(ProcessTimeout)
  {
    match response
    case Reply(text) => Sent(text)
    case Failed(EmptyPrompt(message)) => Sent(message)
    case Failed(AgentFault(message, _)) => Sent(message)
    case Failed(ProcessTimeout) => Unhandled(ProcessTimeout)
  }

  /** The reply to every decision that does not involve the agent. */
  function LocalEffect(d: Decision): (effect: Effect)
    requires !d.RunAgent?
    ensures d.Ignore? <==> effect == NoReply
    ensures d.CwdUsage? ==> effect == Sent("Usage: /cwd /absolute/path")
    ensures d.CwdNotAbsolute? ==> effect == Sent("Path must be absolute.")
    ensures d.CwdNotDirectory? ==> effect == Sent("Path does not exist or is not a directory.")
    ensures d.CwdSet? ==> effect == DirectorySet(d.path, "Working directory set to: " + d.path)
  {
    match d
    case Ignore => NoReply
    case CwdUsage => Sent(USAGE_REPLY)
    case CwdNotAbsolute => Sent(NOT_ABSOLUTE_REPLY)
    case CwdNotDirectory => Sent(NOT_DIRECTORY_REPLY)
    case CwdSet(path) => DirectorySet(path, DirectorySetReply(path))
  }

  /** `on_message` on memory `q`. */
  function AfterMessage(q: seq<string>, fromSelf: bool, content: string, isAbs: string -> bool, isDir: string -> bool, agent: string -> Response): (r: MessageResult)
    ensures fromSelf ==> r == MessageResult(q, NoReply)
    ensures !Decide(fromSelf, content, isAbs, isDir).RunAgent? ==> r.queue == q
    ensures Decide(fromSelf, content, isAbs, isDir).RunAgent? ==> r.queue == AfterAgentRun(q, content, agent).queue
    ensures r.effect.Unhandled? ==> r.effect.error == ProcessTimeout
    ensures var d := Decide(fromSelf, content, isAbs, isDir);
      && (d.RunAgent? ==> r.effect == ReplyEffect(AfterAgentRun(q, content, agent).response))
      && (!d.RunAgent? ==> r.effect == LocalEffect(d))
  {
    var d := Decide(fromSelf, content, isAbs, isDir);
    match d
    case RunAgent(prompt) =>
      var run := AfterAgentRun(q, prompt, agent);
      MessageResult(run.queue, ReplyEffect(run.response))
    case _ => MessageResult(q, LocalEffect(d))
  }

  /** The bot's own messages and all `/cwd` commands are handled without
      the agent: the outcome is the same whatever the agent would answer,
      and memory is untouched. */
  lemma LocalDecisionsBypassAgent(q: seq<string>, fromSelf: bool, content: string, isAbs: string -> bool, isDir: string -> bool, agent1: string -> Response, agent2: string -> Response)
    requires fromSelf || StartsWith(content, "/cwd")
    ensures AfterMessage(q, fromSelf, content, isAbs, isDir, agent1) == AfterMessage(q, fromSelf, content, isAbs, isDir, agent2)
    ensures AfterMessage(q, fromSelf, content, isAbs, isDir, agent1).queue == q
  {
    var d := Decide(fromSelf, content, isAbs, isDir);
    assert !d.RunAgent?;
    assert AfterMessage(q, fromSelf, content, isAbs, isDir, agent1) == MessageResult(q, LocalEffect(d));
    assert AfterMessage(q, fromSelf, content, isAbs, isDir, agent2) == MessageResult(q, LocalEffect(d));
  }

  /** When the agent raises `EmptyPromptError` or `AgentError`, its text
      is sent and nothing is added to memory. */
  lemma AgentErrorReported(q: seq<string>, content: string, isAbs: string -> bool, isDir: string -> bool, agent: string -> Response)
    requires !StartsWith(content, "/cwd")
    requires var first := agent(CombinedPrompt(q, content)); first.Failed? && !first.error.ProcessTimeout?
    ensures AfterMessage(q, false, content, isAbs, isDir, agent)
         == MessageResult(q, Sent(agent(CombinedPrompt(q, content)).error.message))
  {
  }

  /** `agent_run`. */
  method AgentRun(store: MemoryStore, prompt: string, agent: string -> Response) returns (response: Response)
    modifies store
    ensures RunResult(store.queue, response) == AfterAgentRun(old(store.queue), prompt, agent)
    ensures old(store.Valid()) ==> store.Valid()
  {
    var prior := store.ListMessages();
    response := agent(CombinedPrompt(prior, prompt));
    if response.Reply? {
      var outcome := store.AddMemory(Some(Exchange(prompt, response.text)), agent);
      if outcome.Raised? {
        // The summariser's exception escapes `agent_run`; the reply is lost.
        response := Failed(outcome.error);
      }
    }
  }

  /** `on_message`. */
  method OnMessage(store: MemoryStore, fromSelf: bool, content: string, isAbs: string -> bool, isDir: string -> bool, agent: string -> Response) returns (effect: Effect)
    modifies store
    ensures MessageResult(store.queue, effect) == AfterMessage(old(store.queue), fromSelf, content, isAbs, isDir, agent)
    ensures old(store.Valid()) ==> store.Valid()
  {
    var d := Decide(fromSelf, content, isAbs, isDir);
    if d.RunAgent? {
      var response := AgentRun(store, d.prompt, agent);
      effect := ReplyEffect(response);
    } else {
      effect := LocalEffect(d);
    }
  }
}
