/** The conversation history: appending with truncation, and the two ways
    the variants cut a context out of it for the completion service. */
module History {
  import opened Records

  /** `_add_to_history` truncates once the history is longer than this. */
  const HistoryLimit := 50
  /** How many of the most recent messages survive a truncation. */
  const TailKept := 30
  /** `_get_context_messages` sends at most this many messages. */
  const ContextSize := 20
  /** The other variant looks at this many of the most recent messages. */
  const DialogueWindow := 10

  /** The history after `_add_to_history`: the message is appended and, if the
      history is then longer than the limit, only its first message and its
      last `TailKept` messages are kept. */
  function AppendTruncated(h: seq<Message>, m: Message): (r: seq<Message>)
    ensures |h| < HistoryLimit ==> r == h + [m]
    ensures |h| >= HistoryLimit ==>
              |r| == TailKept + 1 && r[1..] == (h + [m])[|h| + 1 - TailKept..]
    ensures r[|r| - 1] == m
    ensures |h| > 0 ==> |r| >= 2 && r[|r| - 2] == h[|h| - 1]
    ensures |h| > 0 ==> r[0] == h[0]
    ensures |h| <= HistoryLimit ==> |r| <= HistoryLimit
  {
    var g := h + [m];
    if |g| > HistoryLimit then g[..1] + g[|g| - TailKept..] else g
  }

  /** Whether or not one more message is appended, the entry that was last
      is still last or second to last. */
  lemma AppendKeepsLast(h: seq<Message>, x: Message, after: seq<Message>, m: Message)
    requires |h| >= 1 && h[|h| - 1] == x
    requires after == h || after == AppendTruncated(h, m)
    ensures |after| >= 1 && (after[|after| - 1] == x || (|after| >= 2 && after[|after| - 2] == x))
  {
  }

  /** The history after appending each message in turn. */
  function AppendAll(h: seq<Message>, ms: seq<Message>): seq<Message>
    decreases |ms|
  {
    if ms == [] then h else AppendAll(AppendTruncated(h, ms[0]), ms[1..])
  }

  /** However many messages are appended, a history that starts within the
      limit stays within it and keeps its first message (the system prompt). */
  lemma {:induction false} AppendAllBounded(h: seq<Message>, ms: seq<Message>)
    requires |h| <= HistoryLimit
    ensures |AppendAll(h, ms)| <= HistoryLimit
    ensures |h| > 0 ==> |AppendAll(h, ms)| > 0 && AppendAll(h, ms)[0] == h[0]
    decreases |ms|
  {
    if ms != [] {
      AppendAllBounded(AppendTruncated(h, ms[0]), ms[1..]);
    }
  }

  /** `_get_context_messages`: the last `ContextSize` history entries, in
      order, without their timestamps. */
  function ContextWindow(h: seq<Message>): (r: seq<ChatMessage>)
    ensures |r| == if |h| < ContextSize then |h| else ContextSize
    ensures forall k :: 0 <= k < |r| ==> r[k] == Chat(h[|h| - |r| + k])
  {
    var recent := LastN(h, ContextSize);
    ChatViewOfSlice(h, recent);
    ChatView(recent)
  }

  lemma ChatViewOfSlice(h: seq<Message>, recent: seq<Message>)
    requires |recent| <= |h|
    requires forall k :: 0 <= k < |recent| ==> recent[k] == h[|h| - |recent| + k]
    ensures forall k :: 0 <= k < |recent| ==> ChatView(recent)[k] == Chat(h[|h| - |recent| + k])
  {
  }

  /** The window is the view of the most recent entries of the history. */
  lemma ContextWindowIsRecentView(h: seq<Message>)
    ensures var w := ContextWindow(h);
            |w| <= |h| && w == ChatView(h[|h| - |w|..])
  {
    var w := ContextWindow(h);
    var recent := h[|h| - |w|..];
    var v := ChatView(recent);
    forall k | 0 <= k < |w|
      ensures w[k] == v[k]
    {
      assert recent[k] == h[|h| - |w| + k];
    }
  }

  /** The window ends with the most recent message. */
  lemma ContextWindowEndsWithLatest(h: seq<Message>, m: Message)
    ensures var w := ContextWindow(AppendTruncated(h, m));
            |w| > 0 && w[|w| - 1] == Chat(m)
  {
  }

  predicate IsDialogue(m: Message) {
    m.role == User || m.role == Assistant
  }

  /** The user and assistant entries among the last `DialogueWindow` history
      entries, in order, without their timestamps. */
  function DialogueTail(h: seq<Message>): (r: seq<ChatMessage>)
    ensures |r| <= DialogueWindow
    ensures forall k :: 0 <= k < |r| ==> r[k].role == User || r[k].role == Assistant
  {
    ChatView(Filter(LastN(h, DialogueWindow), IsDialogue))
  }

  /** The payload of the other variant's `respond`: one system message with
      the prompt, then the dialogue entries among the last ten. */
  function Payload(prompt: string, h: seq<Message>): (r: seq<ChatMessage>)
    ensures 1 <= |r| <= DialogueWindow + 1
    ensures r[0] == ChatMessage(System, prompt)
    ensures forall k :: 1 <= k < |r| ==> r[k].role != System
  {
    [ChatMessage(System, prompt)] + DialogueTail(h)
  }

  /** A dialogue message just appended is the last message of the payload:
      the user turn is sent along with the request it triggers. */
  lemma PayloadEndsWithLatest(prompt: string, h: seq<Message>, m: Message)
    requires IsDialogue(m)
    ensures var p := Payload(prompt, h + [m]);
            p[|p| - 1] == Chat(m)
  {
    var g := h + [m];
    var tail := LastN(g, DialogueWindow);
    assert tail == tail[..|tail| - 1] + [m];
    FilterAppend(tail[..|tail| - 1], [m], IsDialogue);
    assert Filter([m], IsDialogue) == [m];
  }

  /** Extending the scanned prefix by one entry extends the projected
      dialogue by that entry when it is a dialogue entry. */
  lemma DialogueStep(recent: seq<Message>, i: nat)
    requires i < |recent|
    ensures ChatView(Filter(recent[..i + 1], IsDialogue))
            == ChatView(Filter(recent[..i], IsDialogue)) + (if IsDialogue(recent[i]) then [Chat(recent[i])] else [])
  {
    var m := recent[i];
    var kept := Filter(recent[..i], IsDialogue);
    assert recent[..i + 1] == recent[..i] + [m];
    FilterAppend(recent[..i], [m], IsDialogue);
    if IsDialogue(m) {
      assert Filter([m], IsDialogue) == [m];
      ChatViewAppend(kept, [m]);
    } else {
      assert Filter([m], IsDialogue) == [];
      assert kept + [] == kept;
    }
  }

  /** The loop of `respond` that builds the payload message by message. */
  method BuildPayload(prompt: string, h: seq<Message>) returns (messages: seq<ChatMessage>)
    ensures messages == Payload(prompt, h)
  {
    var recent := LastN(h, DialogueWindow);
    messages := [ChatMessage(System, prompt)];
    for i := 0 to |recent|
      invariant messages == [ChatMessage(System, prompt)] + ChatView(Filter(recent[..i], IsDialogue))
    {
      var m := recent[i];
      DialogueStep(recent, i);
      if m.role == User || m.role == Assistant {
        AppendAssoc([ChatMessage(System, prompt)], ChatView(Filter(recent[..i], IsDialogue)), [Chat(m)]);
        messages := messages + [ChatMessage(m.role, m.content)];
      }
    }
    assert recent[..|recent|] == recent;
  }
}
