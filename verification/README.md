# fullauto relay core in Dafny

fullauto relays Discord messages to a command-line coding agent and keeps
a short conversation memory. This project models the sequential logic
inside that glue and proves properties about it:

- **Memory store** (`memory.dfy`, module `Memory`). This models
  `src/memory.py`. A FIFO of text entries is compacted through the agent
  once it holds more than five entries.
  - The store is the class `MemoryStore`, whose `queue: seq<string>`
    field is reassigned by `Put`, `GetNowait`, `Get`, `Drain`,
    `AddMemory`, `ListMessages` and `ResetMemory`.
  - `AddMemory` is proved against the function `AfterAdd`. The lemmas
    about compaction, bounds and ordering are stated on `AfterAdd`.
- **Agent gateway** (`gateway.dfy`, module `Gateway`). This models
  `src/ai.py`.
  - The prompt sanitiser deletes control characters and strips.
  - The agent's argument vector is fixed.
  - The process outcome is classified into a reply, `EmptyPromptError`,
    `AgentError`, or the uncaught timeout.
  - The process is an oracle from argument vector to outcome.
- **Cron translation** (`cron.dfy`, module `Cron`). This models
  `parse_cron_expression` of `src/main.py`. A five-field crontab line
  becomes APScheduler trigger keywords.
  - Crontab weekday numbers (0 is Sunday, as in the crontab utility of
    POSIX.1-2017) become APScheduler numbers (0 is Monday).
- **Relay** (`relay.dfy`, module `Relay`). This models `agent_run` and
  `on_message` of `src/comm_service.py`.
  - `agent_run` combines prior memory with the prompt, asks the agent,
    and remembers the exchange.
  - `on_message` ignores the bot's own messages, answers `/cwd` commands
    locally, and relays everything else.
  - `os.path.isabs` and `os.path.isdir` are oracles on paths.
- **Python string built-ins** (`pystr.dfy`, module `PyStr`). These are
  `str.isspace`, `strip`, `split()`, `split(maxsplit=1)`, `join`,
  `isdigit`/`int`, and `x or ""`. Whitespace is Python's `isspace` set.
- `wrappers.dfy` holds `Option` and `Result`.

In `Memory` and `Relay`, the agent (`generate_response`) is a function
from prompt to `Response`. A `Response` is a reply text or one of the
failures `generate_response` lets out.

Where the code and its documentation disagree, the model follows the code:

- Compaction happens when the queue holds *more than* five entries
  (`src/memory.py:98`). The module docstring's example compacts at five.
- `generate_response` raises `EmptyPromptError` and `AgentError`
  (`src/ai.py:32`, `src/ai.py:54`). It does not return the messages as
  strings.
- The summariser call in `add_memory` is not guarded.
  - If it raises, the drained entries are lost and the exception
    propagates (`Memory.CompactRaises`).
  - In `agent_run` this means a successful reply can be turned into an
    error after memory has been emptied (`Relay.AfterAgentRun`).
- The 1800-second timeout of the agent process is not caught by
  `agent_run` or `on_message`. It escapes `on_message`
  (`Relay.Effect.Unhandled`). Only the scheduler's `run_task`
  (`src/main.py:53-54`) catches it, and that function is not part of
  this model.
- Memory can hold an entry with no visible character (a summary made only
  of control characters). So the exact condition for `EmptyPromptError` in
  `agent_run` is "neither the prompt nor any memory entry has a visible
  character" (`Relay.EmptyPromptOnlyWithBlankMemory`). It is not simply "memory is
  empty".
- `on_message` tests `startswith("/cwd")`, so `/cwdx /tmp` is also treated
  as a `/cwd` command whose argument is `/tmp` (`Relay.Decide`).

## Model

| member | source | states |
|---|---|---|
| PyStr.OrEmpty | src/memory.py:92 | `None` becomes `""`, a string is kept |
| PyStr.Strip | src/memory.py:92 | the stripped text is empty exactly when the input is all whitespace, and otherwise starts and ends with a non-whitespace character |
| PyStr.StripRemovesOnlyWhitespace | src/ai.py:24 | `strip()` returns a contiguous piece of its input with only whitespace before and after it |
| PyStr.StripIdempotent | src/ai.py:24 | stripping twice equals stripping once |
| PyStr.Split | src/main.py:63 | `split()` yields only non-empty whitespace-free words, and none at all exactly for all-whitespace text |
| PyStr.SplitIsRuns | src/main.py:63 | the words of `split()` are the maximal non-whitespace runs in order: there are as many words as word starts, word `j` is the whole run at the `(j+1)`-th word start, and together they are the non-whitespace characters in order |
| PyStr.SplitOnce | src/comm_service.py:56 | `split(maxsplit=1)` yields at most two parts, each non-empty and not starting with whitespace |
| PyStr.Join | src/comm_service.py:32 | joining no parts gives `""`, one part gives that part, and more parts give a result starting with the first part |
| PyStr.JoinSnoc | src/memory.py:81 | joining one more part appends the separator and that part at the end, so order is kept |
| PyStr.DigitsValue | src/main.py:82 | `int()` of a single digit is that digit's value |
| Gateway.RemoveControls | src/ai.py:23 | the filtered text keeps exactly the non-control characters of the input, never grows, and is the input itself when it has no control character |
| Gateway.RemoveControlsConcat | src/ai.py:23 | control removal distributes over concatenation, so the kept characters stay in their order |
| Gateway.RemoveControlsOnlyControls | src/ai.py:23 | a run of control characters is deleted entirely |
| Gateway.SanitizePrompt | src/ai.py:13-25 | the result is strip of the control-filtered prompt (`None` as `""`), holds no control character, and is `""` exactly when the prompt has no visible character |
| Gateway.RemoveControlsBlank | src/ai.py:20-24 | the early return for blank prompts agrees with filtering then stripping; both give `""` exactly for prompts without a visible character |
| Gateway.SanitizeIdempotent | src/ai.py:13-25 | sanitising a sanitised prompt changes nothing |
| Gateway.SanitizeKeepsCleanText | src/ai.py:23-25 | text without control characters or surrounding whitespace passes unchanged, including non-ASCII text and interior tabs and line breaks |
| Gateway.SanitizeJoinsAcrossControls | src/ai.py:23-25 | control characters between two clean pieces vanish and the pieces are joined, then stripped |
| Gateway.ModelName | src/ai.py:34 | `CURSOR_MODEL` if set, else `Composer 1.5` |
| Gateway.AgentArgv | src/ai.py:35-41 | the argument vector is exactly the nine fixed elements with the model at index 5 and the sanitised prompt last |
| Gateway.GenerateResponse | src/ai.py:29-54 | `EmptyPromptError` with the fixed message exactly when the sanitised prompt is empty; otherwise exit 0 gives stdout verbatim, any other status `AgentError` with the fixed message and the process's stderr, and a timeout escapes |
| Gateway.EmptyPromptNeverRuns | src/ai.py:30-32 | an empty sanitised prompt gives the same response whatever the process would do, so no process is run |
| Gateway.EmptyPromptIff | src/ai.py:20-32 | the empty-prompt error arises exactly for prompts without a visible character, whitespace-only prompts among them |
| Memory.Bulleted | src/memory.py:81 | one `- entry` line per entry, in order |
| Memory.SummaryPrompt | src/memory.py:79-87 | the summary prompt starts with the fixed instruction |
| Memory.SummaryPromptSnoc | src/memory.py:81-86 | one more entry appends one more `\n- entry` line at the end, so the bullets follow queue order |
| Memory.SummaryPromptNeverEmpty | src/memory.py:82-87 | the summary prompt always passes the gateway's empty-prompt check |
| Memory.LastN | src/memory.py:114 | `items[-n:]` is the suffix of length `min(n, len(items))`, or the whole list when `n` is 0, as in Python |
| Memory.EntryIffStripped | src/memory.py:92 | a stored entry is exactly a non-empty string that `strip()` leaves alone |
| Memory.AfterAdd | src/memory.py:90-119 | a blank message changes nothing; below the limit the stripped message is appended; a normal return leaves 1 to 5 entries; a raised error leaves none and carries the summariser's error, raised only when compaction ran; starting from at most 5 entries the result has at most 5 |
| Memory.Compacted | src/memory.py:98-115 | compaction raises exactly when the summariser fails, with the summariser's error, and then leaves nothing; otherwise it leaves 1 to 5 entries |
| Memory.BlankMessageIgnored | src/memory.py:92-94 | a `None`, empty or whitespace-only message leaves the queue unchanged, whatever the summariser would answer |
| Memory.AppendBelowLimit | src/memory.py:92-98 | up to the fifth entry the stripped message is appended after the unchanged earlier entries, and the summariser is not consulted |
| Memory.CompactToSummary | src/memory.py:108-111 | with a non-blank summary the queue becomes exactly the stripped summary |
| Memory.CompactFallback | src/memory.py:112-115 | with a blank summary the queue becomes the last five drained entries in their original order |
| Memory.CompactRaises | src/memory.py:100-108 | a failing summariser leaves the queue empty and its error propagates |
| Memory.AddKeepsEntries | src/memory.py:92-115 | if every entry is non-empty and stripped before an add, that stays true after it |
| Memory.AddAllBelowLimit | src/memory.py:90-98 | stripped messages added one by one, up to five in total, are appended in order whatever the summariser would answer |
| Memory.SixthAddCompacts | src/memory.py:97-115 | five entries then a sixth, added to empty memory, leave the summary alone if it is not blank, else the second to the sixth entry |
| Memory.MemoryStore.constructor | src/memory.py:53-55 | a new store is empty |
| Memory.MemoryStore.Put | src/memory.py:97 | `put` appends at the tail |
| Memory.MemoryStore.GetNowait | src/memory.py:103 | `get_nowait` removes and returns the head, or reports an empty queue and changes nothing |
| Memory.MemoryStore.Get | src/memory.py:134 | `get` on a non-empty queue removes and returns the head |
| Memory.MemoryStore.Drain | src/memory.py:100-105 | the drain loop returns every entry in FIFO order and empties the queue |
| Memory.MemoryStore.AddMemory | src/memory.py:90-119 | the new queue and the outcome are `AfterAdd` of the old queue, and the entry invariant is kept |
| Memory.MemoryStore.Compact | src/memory.py:98-119 | the drain, summary and requeue leave the queue and outcome given by `Compacted` of the old queue |
| Memory.MemoryStore.GetMessageCount | src/memory.py:122-125 | the count is the queue's length |
| Memory.MemoryStore.ListMessages | src/memory.py:128-139 | returns all entries in FIFO order and leaves the queue as it was |
| Memory.MemoryStore.ResetMemory | src/memory.py:142-151 | the queue is empty afterwards |
| Memory.ListIsIdempotent | src/memory.py:128-139 | two listings in a row return the same entries and leave the queue unchanged |
| Cron.ToSchedulerWeekday | src/main.py:84 | `(d + 6) % 7` is in 0..6 and names, in APScheduler numbering, the weekday that crontab number `d` names |
| Cron.ToSchedulerWeekdayBijective | src/main.py:57-61 | the conversion is one-to-one on 0..6 |
| Cron.WeekdayValue | src/main.py:79-88 | a numeric weekday becomes the converted number in 0..6; any other text passes through verbatim |
| Cron.SetUnlessStar | src/main.py:71-72 | a field adds its keyword exactly when it is not `*`, and other keywords are unchanged |
| Cron.TriggerKwargs | src/main.py:69-90 | the keys are among the five names; each keyword is present exactly when its field is not `*`, with the field's text or, for the weekday, its converted value |
| Cron.ParseCronExpression | src/main.py:56-90 | a `ValueError` with the fixed message exactly when the stripped line does not split into five fields; otherwise the keywords follow the five fields in order |
| Cron.WeekdayPreserved | src/main.py:81-85 | a numeric weekday field yields a `day_of_week` in 0..6 naming the same day |
| Relay.CombinedPrompt | src/comm_service.py:29-32 | with empty memory the combined prompt is the prompt; otherwise it starts with the first entry and ends with the prompt |
| Relay.HasVisibleJoin | src/comm_service.py:32 | a line-feed join has a visible character exactly when some entry has one |
| Relay.CombinedPromptBlankIff | src/comm_service.py:29-33 | the combined prompt sanitises to `""` exactly when neither the prompt nor any memory entry has a visible character |
| Relay.Exchange | src/comm_service.py:34 | the recorded text starts with `User: ` followed by the prompt |
| Relay.StoredExchange | src/comm_service.py:34 | the stored exchange is never blank, and is the prompt and the reply with trailing whitespace removed |
| Relay.AfterAgentRun | src/comm_service.py:26-36 | an agent error leaves memory unchanged and is passed on; after a reply, memory is `add_memory` of the exchange, and the reply is returned unchanged when `add_memory` returns, or replaced by the summariser's error when it raises |
| Relay.AgentRunAppendsExchange | src/comm_service.py:29-36 | below the limit, a successful run appends exactly one entry built from the uncombined prompt and returns the reply |
| Relay.AgentRunRecordsReply | src/comm_service.py:33-34 | the exchange passed to `add_memory` after a reply is never blank, so `add_memory` never skips it |
| Relay.EmptyPromptOnlyWithBlankMemory | src/comm_service.py:29-33 | with the gateway as the agent, `agent_run` fails with `EmptyPromptError` exactly when neither the prompt nor any memory entry has a visible character; the summary request never meets that error |
| Relay.Decide | src/comm_service.py:46-70 | own messages are ignored; non-`/cwd` messages go to the agent verbatim; `/cwd` gives usage, not-absolute, not-a-directory or set, in that order of checks, on the stripped argument |
| Relay.CwdSplitArgument | src/comm_service.py:55-60 | the second part of `split(maxsplit=1)`, stripped, is the `/cwd` argument, and a missing part means an empty argument |
| Relay.LocalEffect | src/comm_service.py:55-70 | own messages send nothing; the `/cwd` outcomes send `Usage: /cwd /absolute/path`, `Path must be absolute.`, `Path does not exist or is not a directory.`, or persist the path and send `Working directory set to: ` followed by it |
| Relay.ReplyEffect | src/comm_service.py:72-78 | a reply is sent; `EmptyPromptError` and `AgentError` send their message; a timeout escapes |
| Relay.AfterMessage | src/comm_service.py:46-78 | own messages have no effect; a relayed message changes memory as `agent_run` does and sends its reply or error text; every other decision sends its fixed reply and leaves memory unchanged; only a timeout escapes |
| Relay.LocalDecisionsBypassAgent | src/comm_service.py:48-70 | own messages and `/cwd` commands have the same outcome whatever the agent would answer, and leave memory unchanged |
| Relay.AgentErrorReported | src/comm_service.py:72-78 | when the agent raises `EmptyPromptError` or `AgentError`, its message is sent and memory is unchanged |
| Relay.AgentRun | src/comm_service.py:26-36 | the store and the result are `AfterAgentRun` of the old memory, and the entry invariant is kept |
| Relay.OnMessage | src/comm_service.py:46-78 | the store and the effect are `AfterMessage` of the old memory, and the entry invariant is kept |

## Left out

- The `fcntl` lock and `persistqueue`'s disk storage in `src/memory.py` are not modelled. The queue is an in-memory sequence and each operation runs alone, so concurrency and durability are not modelled either.
- `subprocess.run` is replaced by an outcome oracle. Its working directory and any failure to launch the `agent` binary are not modelled.
- Logging (`src/logs.py` and every logger call) is left out.
- Discord wiring is not modelled: the client, reactions, `typing()`, `asyncio.to_thread`, `on_ready`, `listen_to_discord` and `start_discord_client` (with their token checks). Discord's own limits on reply length or empty replies are also not modelled.
- Persisting the `/cwd` path (`set_repo_path`, `get_repo_path`) is not modelled; `src/config_store.py` is not part of this model. The handler assigns `ai.repo_path`, which `generate_response` never reads, so the path does not reach the agent. The model returns the path that would be persisted.
- `src/main.py` other than `parse_cron_expression` is not modelled: the Typer commands, the scheduler setup and task file loading.
- `src/schema.py` is not a member. Its default messages and the `stderr` field are folded into `Gateway.AgentFailure`.
- `stderr or ""` needs no case of its own, because with `text=True` the captured stderr is always a string.
- `Gateway.GenerateResponse`: the agent is a deterministic function of the prompt, and `Memory`/`Relay` use one agent for both the reply and the summary.
- `PyStr.DigitsValue`: `isdigit` and `int` are modelled for ASCII digits only. Other Unicode digits are treated as non-digits and passed through as text. For decimal digits such as `"٣"`, Python would convert the number. For digits that are not decimal, such as `"²"`, `isdigit()` is true but `int()` raises a `ValueError` out of `parse_cron_expression`. The model has no such error path.
- `Memory.MemoryStore.Compact`: the source's early return when the drain yields nothing is omitted. It cannot be taken, because compaction only starts with more than five entries.
