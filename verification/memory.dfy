/** The conversation memory of src/memory.py: a FIFO of text entries that
    is compacted through the agent once it holds more than five entries.
    The agent (`generate_response`) is an oracle from prompt to response. */
module Memory {
  import opened Wrappers
  import opened PyStr
  import opened Gateway

  const MAX_MESSAGES_BEFORE_SUMMARY: nat := 5

  const SUMMARY_INSTRUCTION: string :=
    "Summarize the following messages "
    + "into one short, concise summary paragraph. "
    + "Keep only the main facts and decisions. Output only the summary text, no preamble.\n\n"

  /** Each drained entry as a bullet line `- entry`. */
  function Bulleted(messages: seq<string>): (lines: seq<string>)
    ensures |lines| == |messages|
    ensures forall i :: 0 <= i < |messages| ==> lines[i] == "- " + messages[i]
  {
    if messages == [] then [] else ["- " + messages[0]] + Bulleted(messages[1..])
  }

  /** The prompt `_summarize_messages` sends: the fixed instruction, then
      the bullet lines joined by line feeds. */
  function SummaryPrompt(messages: seq<string>): (prompt: string)
    ensures StartsWith(prompt, SUMMARY_INSTRUCTION)
  {
    SUMMARY_INSTRUCTION + Join("\n", Bulleted(messages))
  }

  /** The bullets keep queue order: one more entry adds one more line at
      the end of the prompt. */
  lemma SummaryPromptSnoc(messages: seq<string>, m: string)
    requires messages != []
    ensures SummaryPrompt(messages + [m]) == SummaryPrompt(messages) + "\n- " + m
  {
    assert Bulleted(messages + [m]) == Bulleted(messages) + ["- " + m];
    JoinSnoc("\n", Bulleted(messages), "- " + m);
  }

  /** The summary prompt always has a visible character, so compaction
      never meets the empty-prompt error of the gateway. */
  lemma SummaryPromptNeverEmpty(messages: seq<string>)
    ensures HasVisible(SummaryPrompt(messages))
    ensures SanitizePrompt(Some(SummaryPrompt(messages))) != ""
  {
    var p := SummaryPrompt(messages);
    assert p[0] == 'S';
    assert Visible(p[0]);
  }

  /** `items[-n:]`: the last `n` items, or all of them if there are fewer;
      as in Python, `items[-0:]` is the whole list. */
  function LastN(items: seq<string>, n: nat): (r: seq<string>)
    ensures |r| == if n == 0 || |items| < n then |items| else n
    ensures r == items[|items| - |r|..]
  {
    if n == 0 || |items| <= n then items else items[|items| - n..]
  }

  /** A stored entry: non-empty, with no whitespace at either end. */
  predicate IsEntry(e: string) {
    e != [] && !IsWhitespace(e[0]) && !IsWhitespace(e[|e| - 1])
  }

  /** Entries are exactly the non-empty texts that `strip()` leaves alone. */
  lemma EntryIffStripped(e: string)
    ensures IsEntry(e) <==> e != "" && Strip(e) == e
  {
    if IsEntry(e) {
      StripOfTrimmed(e);
    }
  }

  /** How `add_memory` ends: it returns normally, or the summariser's
      exception propagates out of it. */
  datatype AddOutcome = Returned | Raised(error: AgentFailure)

  datatype AddResult = AddResult(queue: seq<string>, outcome: AddOutcome)

  /** The queue after `add_memory(message)` on queue `q`. A blank message
      changes nothing; otherwise the stripped message is appended and, if
      the queue then holds more than five entries, the whole queue is
      drained and summarised: a non-blank summary becomes the only entry, a
      blank one puts back the last five drained entries, and a failing
      summariser leaves the queue empty and raises. */
  function AfterAdd(q: seq<string>, message: Option<string>, agent: string -> Response): (r: AddResult)
    ensures var msg := Strip(OrEmpty(message));
      && (msg == "" ==> r == AddResult(q, Returned))
      && (msg != "" && |q| < MAX_MESSAGES_BEFORE_SUMMARY ==> r == AddResult(q + [msg], Returned))
      && (msg != "" && r.outcome.Returned? ==> 1 <= |r.queue| <= MAX_MESSAGES_BEFORE_SUMMARY)
      && (r.outcome.Raised? ==> r.queue == [])
      && (r.outcome.Raised? ==>
            msg != "" && |q| >= MAX_MESSAGES_BEFORE_SUMMARY
            && agent(SummaryPrompt(q + [msg])) == Failed(r.outcome.error))
    ensures |q| <= MAX_MESSAGES_BEFORE_SUMMARY ==> |r.queue| <= MAX_MESSAGES_BEFORE_SUMMARY
  {
    var msg := Strip(OrEmpty(message));
    if msg == "" then
      AddResult(q, Returned)
    else
      var items := q + [msg];
      if |items| <= MAX_MESSAGES_BEFORE_SUMMARY then AddResult(items, Returned)
      else Compacted(items, agent)
  }

  /** The compaction step on the drained entries `items`: the summary
      alone if it is not blank, else the last five entries; a failing
      summariser leaves nothing and raises. */
  function Compacted(items: seq<string>, agent: string -> Response): (r: AddResult)
    requires |items| > MAX_MESSAGES_BEFORE_SUMMARY
    ensures r.outcome.Raised? <==> agent(SummaryPrompt(items)).Failed?
    ensures r.outcome.Raised? ==> r.queue == [] && agent(SummaryPrompt(items)) == Failed(r.outcome.error)
    ensures r.outcome.Returned? ==> 1 <= |r.queue| <= MAX_MESSAGES_BEFORE_SUMMARY
  {
    match agent(SummaryPrompt(items))
    case Failed(e) => AddResult([], Raised(e))
    case Reply(text) =>
      var summary := Strip(text);
      if summary != "" then AddResult([summary], Returned)
      else AddResult(LastN(items, MAX_MESSAGES_BEFORE_SUMMARY), Returned)
  }

  /** Adding a blank message (None, "" or whitespace only) changes nothing
      and does not consult the summariser. */
  lemma BlankMessageIgnored(q: seq<string>, message: Option<string>, agent1: string -> Response, agent2: string -> Response)
    requires Strip(OrEmpty(message)) == ""
    ensures AfterAdd(q, message, agent1) == AfterAdd(q, message, agent2) == AddResult(q, Returned)
  {
  }

  /** Up to the fifth entry no compaction happens: the stripped message is
      appended, earlier entries keep their places, and the summariser is
      not consulted. */
  lemma AppendBelowLimit(q: seq<string>, message: Option<string>, agent1: string -> Response, agent2: string -> Response)
    requires Strip(OrEmpty(message)) != "" && |q| < MAX_MESSAGES_BEFORE_SUMMARY
    ensures AfterAdd(q, message, agent1) == AfterAdd(q, message, agent2)
    ensures AfterAdd(q, message, agent1).queue == q + [Strip(OrEmpty(message))]
  {
  }

  /** Compaction with a non-blank summary leaves exactly that summary,
      stripped. */
  lemma CompactToSummary(q: seq<string>, message: Option<string>, agent: string -> Response)
    requires Strip(OrEmpty(message)) != "" && |q| >= MAX_MESSAGES_BEFORE_SUMMARY
    requires var reply := agent(SummaryPrompt(q + [Strip(OrEmpty(message))]));
      reply.Reply? && Strip(reply.text) != ""
    ensures AfterAdd(q, message, agent)
         == AddResult([Strip(agent(SummaryPrompt(q + [Strip(OrEmpty(message))])).text)], Returned)
  {
  }

  /** Compaction with a blank summary keeps the last five drained entries
      in their original order. */
  lemma CompactFallback(q: seq<string>, message: Option<string>, agent: string -> Response)
    requires Strip(OrEmpty(message)) != "" && |q| >= MAX_MESSAGES_BEFORE_SUMMARY
    requires var reply := agent(SummaryPrompt(q + [Strip(OrEmpty(message))]));
      reply.Reply? && Strip(reply.text) == ""
    ensures var items := q + [Strip(OrEmpty(message))];
      AfterAdd(q, message, agent) == AddResult(items[|items| - MAX_MESSAGES_BEFORE_SUMMARY..], Returned)
    ensures |AfterAdd(q, message, agent).queue| == MAX_MESSAGES_BEFORE_SUMMARY
  {
  }

  /** A summariser that raises empties the queue: the drained entries are
      not put back, and the error propagates. */
  lemma CompactRaises(q: seq<string>, message: Option<string>, agent: string -> Response)
    requires Strip(OrEmpty(message)) != "" && |q| >= MAX_MESSAGES_BEFORE_SUMMARY
    requires agent(SummaryPrompt(q + [Strip(OrEmpty(message))])).Failed?
    ensures AfterAdd(q, message, agent)
         == AddResult([], Raised(agent(SummaryPrompt(q + [Strip(OrEmpty(message))])).error))
  {
  }

  /** Every stored entry stays non-empty and stripped. */
  lemma AddKeepsEntries(q: seq<string>, message: Option<string>, agent: string -> Response)
    requires forall i :: 0 <= i < |q| ==> IsEntry(q[i])
    ensures var r := AfterAdd(q, message, agent).queue;
      forall i :: 0 <= i < |r| ==> IsEntry(r[i])
  {
    var msg := Strip(OrEmpty(message));
    if msg != "" {
      var items := q + [msg];
      forall i | 0 <= i < |items| ensures IsEntry(items[i]) {
        if i < |q| { assert items[i] == q[i]; }
      }
    }
  }

  /** The queue after `add_memory` is called on each message in turn. */
  function AddAll(q: seq<string>, messages: seq<string>, agent: string -> Response): seq<string>
    decreases |messages|
  {
    if messages == [] then q
    else AfterAdd(AddAll(q, messages[..|messages| - 1], agent), Some(messages[|messages| - 1]), agent).queue
  }

  /** While the total stays at five or fewer, adding entries only appends
      them, in order, whatever the summariser would answer. */
  lemma {:induction false} AddAllBelowLimit(q: seq<string>, messages: seq<string>, agent: string -> Response)
    requires |q| + |messages| <= MAX_MESSAGES_BEFORE_SUMMARY
    requires forall i :: 0 <= i < |messages| ==> IsEntry(messages[i])
    ensures AddAll(q, messages, agent) == q + messages
    decreases |messages|
  {
    if messages != [] {
      var init := messages[..|messages| - 1];
      var last := messages[|messages| - 1];
      AddAllBelowLimit(q, init, agent);
      assert AddAll(q, messages, agent) == (q + init) + [last] by {
        EntryIffStripped(last);
        AppendBelowLimit(q + init, Some(last), agent, agent);
      }
      assert (q + init) + [last] == q + messages by {
        DropLast(messages);
      }
    }
  }

  lemma DropLast(s: seq<string>)
    requires s != []
    ensures s[..|s| - 1] + [s[|s| - 1]] == s
  {
  }

  lemma Snoc(s: seq<string>, x: string)
    requires s != []
    ensures var t := s + [x];
      t[..|t| - 1] == s && t[|t| - 1] == x && t[1..] == s[1..] + [x]
  {
  }

  /** Six entries added to empty memory: the sixth triggers one summary
      request over all six, in order; a non-blank summary replaces them,
      a blank one leaves the last five. */
  lemma SixthAddCompacts(first: seq<string>, sixth: string, agent: string -> Response)
    requires |first| == MAX_MESSAGES_BEFORE_SUMMARY
    requires forall i :: 0 <= i < |first| ==> IsEntry(first[i])
    requires IsEntry(sixth)
    requires agent(SummaryPrompt(first + [sixth])).Reply?
    ensures var summary := Strip(agent(SummaryPrompt(first + [sixth])).text);
      && (summary != "" ==> AddAll([], first + [sixth], agent) == [summary])
      && (summary == "" ==> AddAll([], first + [sixth], agent) == first[1..] + [sixth])
  {
    Snoc(first, sixth);
    AddAllBelowLimit([], first, agent);
    assert [] + first == first;
    EntryIffStripped(sixth);
    assert Strip(OrEmpty(Some(sixth))) == sixth;
  }

  /** The store itself: the queue that the source keeps on disk, here a
      sequence field that each operation reassigns. */
  class MemoryStore {
    var queue: seq<string>

    /** Every entry is non-empty and stripped. */
    ghost predicate Valid()
      reads this
    {
      forall i :: 0 <= i < |queue| ==> IsEntry(queue[i])
    }

    constructor ()
      ensures queue == [] && Valid()
    {
      queue := [];
    }

    /** `queue.put(item)`. */
    method Put(item: string)
      modifies this
      ensures queue == old(queue) + [item]
    {
      queue := queue + [item];
    }

    /** `queue.get_nowait()`: the head, or None where the source's
        `Empty` exception ends a drain loop. */
    method GetNowait() returns (item: Option<string>)
      modifies this
      ensures old(queue) == [] ==> item == None && queue == []
      ensures old(queue) != [] ==> item == Some(old(queue)[0]) && queue == old(queue)[1..]
    {
      if queue == [] {
        item := None;
      } else {
        item := Some(queue[0]);
        queue := queue[1..];
      }
    }

    /** `queue.get()` on a queue known to be non-empty. */
    method Get() returns (item: string)
      requires queue != []
      modifies this
      ensures item == old(queue)[0] && queue == old(queue)[1..]
    {
      item := queue[0];
      queue := queue[1..];
    }

    /** Drains the queue, returning its entries in FIFO order. */
    method Drain() returns (items: seq<string>)
      modifies this
      ensures items == old(queue) && queue == []
    {
      items := [];
      while true
        invariant items + queue == old(queue)
        decreases |queue|
      {
        var item := GetNowait();
        if item.None? {
          break;
        }
        items := items + [item.value];
      }
    }

    /** `add_memory`. */
    method AddMemory(message: Option<string>, agent: string -> Response) returns (outcome: AddOutcome)
      modifies this
      ensures AddResult(queue, outcome) == AfterAdd(old(queue), message, agent)
      ensures old(Valid()) ==> Valid()
    {
      if Valid() {
        AddKeepsEntries(queue, message, agent);
      }
      outcome := Returned;
      var msg := Strip(OrEmpty(message));
      if msg == "" {
        return;
      }
      Put(msg);
      if |queue| > MAX_MESSAGES_BEFORE_SUMMARY {
        outcome := Compact(agent);
      }
    }

    /** The compaction branch of `add_memory`: drain everything, ask for a
        summary, and put back the summary or the last five entries. The
        queue is not empty here, so the source's early return for an empty
        drain cannot be taken. */
    method Compact(agent: string -> Response) returns (outcome: AddOutcome)
      requires |queue| > MAX_MESSAGES_BEFORE_SUMMARY
      modifies this
      ensures AddResult(queue, outcome) == Compacted(old(queue), agent)
    {
      outcome := Returned;
      var items := Drain();
      match agent(SummaryPrompt(items))
      case Failed(e) =>
        // Not caught in the source: the drained entries are lost.
        outcome := Raised(e);
      case Reply(text) =>
        var summary := Strip(text);
        if summary != "" {
          Put(summary);
        } else {
          var keep := LastN(items, MAX_MESSAGES_BEFORE_SUMMARY);
          for k := 0 to |keep|
            invariant queue == keep[..k]
          {
            Put(keep[k]);
          }
        }
    }

    method GetMessageCount() returns (count: nat)
      ensures count == |queue|
    {
      count := |queue|;
    }

    /** `list_messages`: takes out `count` entries and puts them back in
        the same order, so the queue is left as it was. */
    method ListMessages() returns (messages: seq<string>)
      modifies this
      ensures messages == old(queue) && queue == old(queue)
    {
      messages := [];
      var count := |queue|;
      for i := 0 to count
        invariant |messages| == i && messages + queue == old(queue)
      {
        var item := Get();
        messages := messages + [item];
      }
      for k := 0 to |messages|
        invariant queue == messages[..k]
      {
        Put(messages[k]);
      }
    }

    /** `reset_memory`: drains every entry. */
    method ResetMemory()
      modifies this
      ensures queue == []
    {
      while true
        decreases |queue|
      {
        var item := GetNowait();
        if item.None? {
          break;
        }
      }
    }
  }

  /** Listing twice in a row gives the same entries and leaves the queue,
      and so its count, as it was. */
  method ListIsIdempotent(store: MemoryStore) returns (first: seq<string>, second: seq<string>)
    modifies store
    ensures first == second == old(store.queue) && store.queue == old(store.queue)
  {
    first := store.ListMessages();
    second := store.ListMessages();
  }
}
