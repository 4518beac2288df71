/** The first variant of `PersonalAssistant` (personal_assistant.py): a
    conversation history truncated on every append, a task list, preferences
    that `set_preference` may change but not extend, and a `respond` that
    first tries the built-in commands and only then asks the completion
    service. */
module Assistant {
  import opened Text
  import opened Records
  import opened TaskList
  import opened History
  import opened Commands

  const MaxLengthKey := "max_response_length"

  /** The preferences a new assistant starts with. `set_preference` only
      changes keys already present; a loaded session can add keys. */
  const DefaultPreferences: map<string, Value> := map[
    "response_style" := Str("friendly"),
    MaxLengthKey := Num(200),
    "remember_context" := Flag(true),
    "task_reminders" := Flag(true)
  ]

  const NotCaught := "I didn't catch that. Could you please say something?"
  const WhatTask := "What task would you like me to add?"
  const TasksCleared := "All tasks have been cleared."
  const HistoryCleared := "\U{1F9F9} Conversation history cleared. Starting fresh!"
  const NoTasks := "You don't have any tasks yet. Would you like to add some?"
  const ApologyOpening := "I apologize, but I encountered an error: "
  const ApologyClosing := ". Please try again."
  const NoConversation := "No conversation to summarize yet."

  /** The fixed prose of the prompts, abbreviated: only the parts around
      the values they mention are kept. */
  const PromptOpening := ", a highly intelligent and helpful personal AI assistant. You are talking to "
  const PromptTraits := ". You should be: ... Current date and time: "
  const PromptGuidance := " If the user asks you to add a task, extract the task details and confirm. ..."

  /** The system prompt `_update_system_prompt` writes. */
  function UpdatedPrompt(name: string, userName: string, display: string): (p: string)
    ensures Contains(p, userName)
  {
    var before := "You are " + name + PromptOpening;
    ContainsMiddle(before, userName, PromptTraits + display);
    assert before + userName + (PromptTraits + display) == before + userName + PromptTraits + display;
    before + userName + PromptTraits + display
  }

  /** The system prompt of a new assistant: the updated prompt followed by
      guidance about tasks. */
  function InitialPrompt(name: string, userName: string, display: string): (p: string)
    ensures Contains(p, userName)
  {
    ContainsPrefix(UpdatedPrompt(name, userName, display), PromptGuidance, userName);
    UpdatedPrompt(name, userName, display) + PromptGuidance
  }

  /** The answer to a failed call: the error text in a fixed frame. */
  function Apology(error: string): (r: string)
    ensures Contains(r, error)
  {
    ContainsMiddle(ApologyOpening, error, ApologyClosing);
    ApologyOpening + error + ApologyClosing
  }

  function TaskAdded(description: string, priority: string): string {
    "\U{2705} Task added: '" + description + "' (Priority: " + priority + ")"
  }

  function Greeting(name: string): string {
    "Nice to meet you, " + name + "! I'll remember your name."
  }

  function CompletedReply(description: string): string {
    "\U{1F389} Task completed: '" + description + "'"
  }

  function NotFound(id: int): string {
    "Task with ID " + IntToString(id) + " not found."
  }

  function PreferenceUpdated(key: string, value: Value): string {
    "Preference updated: " + key + " = " + ValueText(value)
  }

  function UnknownPreference(key: string): string {
    "Unknown preference: " + key
  }

  /** The file name `save_session` picks when it is given none. */
  function DefaultFileName(clock: Clock): string {
    "session_" + clock.compact + ".json"
  }

  function SaveReply(filename: string, saved: Outcome): (r: string)
    ensures r != []
  {
    match saved
    case Pass => "\U{1F4BE} Session saved to: " + filename
    case Fail(e) => "\U{274C} Error saving session: " + e
  }

  /** The opening of the reply when loading fails. */
  const LoadFailed := "\U{274C} Error loading session: "

  /** The stored preferences are there but are no mapping, so the final
      `update` of `load_session` raises. */
  predicate PreferencesRejected(rec: SessionRecord) {
    rec.preferences.Some? && rec.preferences.value.NotMapping?
  }

  /** The reply of `load_session`: the error text when reading the file or
      merging its preferences raised, the file name otherwise. */
  function LoadReply(filename: string, read: Read): (r: string)
    ensures StartsWith(r, LoadFailed) <==> read.Unreadable? || PreferencesRejected(read.record)
    ensures read.Unreadable? ==> Contains(r, read.error)
    ensures read.Parsed? && PreferencesRejected(read.record) ==> Contains(r, read.record.preferences.value.error)
  {
    match read
    case Unreadable(e) =>
      ContainsSuffix(LoadFailed, e, e);
      LoadFailed + e
    case Parsed(rec) =>
      if PreferencesRejected(rec) then
        ContainsSuffix(LoadFailed, rec.preferences.value.error, rec.preferences.value.error);
        LoadFailed + rec.preferences.value.error
      else
        var r := "\U{1F4C2} Session loaded from: " + filename;
        assert r[0] != LoadFailed[0];
        r
  }

  // ---------------------------------------------------------------------
  // The task listing of `get_tasks`

  function StatusGlyph(status: string): char {
    if status == Completed then '\U{2705}' else '\U{23F3}'
  }

  function PriorityGlyph(priority: string): char {
    if priority == "high" then '\U{1F534}'
    else if priority == DefaultPriority then '\U{1F7E1}'
    else '\U{1F7E2}'
  }

  /** One line of the listing: status, priority, id and description. */
  function TaskLine(t: Task): (r: string)
    ensures |r| > 0 && (r[0] == '\U{2705}' || r[0] == '\U{23F3}')
  {
    [StatusGlyph(t.status)] + " " + [PriorityGlyph(t.priority)] + " "
      + IntToString(t.id) + ". " + t.description + "\n"
  }

  /** The lines of the listing, one per task, in list order. */
  function Lines(tasks: seq<Task>): (r: string)
    ensures tasks != [] ==> |r| > 0 && (r[0] == '\U{2705}' || r[0] == '\U{23F3}')
  {
    if tasks == [] then ""
    else Lines(tasks[..|tasks| - 1]) + TaskLine(tasks[|tasks| - 1])
  }

  lemma LinesExtend(tasks: seq<Task>, i: nat)
    requires i < |tasks|
    ensures Lines(tasks[..i + 1]) == Lines(tasks[..i]) + TaskLine(tasks[i])
  {
    assert tasks[..i + 1][..i] == tasks[..i];
  }

  /** Every task has its line in the listing. */
  lemma {:induction false} LinesContains(tasks: seq<Task>, k: nat)
    requires k < |tasks|
    ensures Contains(Lines(tasks), TaskLine(tasks[k]))
    decreases |tasks|
  {
    var init := tasks[..|tasks| - 1];
    if k == |tasks| - 1 {
      ContainsSuffix(Lines(init), TaskLine(tasks[k]), TaskLine(tasks[k]));
      ContainsMiddle([], TaskLine(tasks[k]), []);
      assert [] + TaskLine(tasks[k]) + [] == TaskLine(tasks[k]);
    } else {
      LinesContains(init, k);
      assert init[k] == tasks[k];
      ContainsPrefix(Lines(init), TaskLine(tasks[|tasks| - 1]), TaskLine(tasks[k]));
    }
  }

  function Header(count: nat): (r: string)
    ensures |r| > 0 && r[0] == '\U{1F4CB}'
  {
    "\U{1F4CB} Your Tasks (" + IntToString(count) + " total):\n\n"
  }

  /** What `get_tasks` returns: with no tasks a fixed message, otherwise the
      header followed by one line per task, without the trailing whitespace
      (the final newline, and any whitespace the last description ends
      with). The header and the first character of the first line are never
      cut off. */
  function TaskListing(tasks: seq<Task>): (r: string)
    ensures tasks == [] ==> r == NoTasks
    ensures tasks != [] ==> TrimmedEnd(Header(|tasks|) + Lines(tasks), r, |Header(|tasks|)|)
  {
    if tasks == [] then NoTasks
    else
      StripAfterVisibleHead(Header(|tasks|), Lines(tasks));
      Strip(Header(|tasks|) + Lines(tasks))
  }

  /** Every task shows in the reply of `get_tasks`: its line is there,
      except for whitespace at its end (only the last line loses any). */
  lemma ListingShowsEveryTask(tasks: seq<Task>, k: nat)
    requires k < |tasks|
    ensures Contains(TaskListing(tasks), Strip(TaskLine(tasks[k])))
  {
    LinesContains(tasks, k);
    TrimmedKeepsContained(Header(|tasks|), Lines(tasks), TaskListing(tasks), TaskLine(tasks[k]));
  }


  // ---------------------------------------------------------------------
  // The figures of `get_conversation_summary`

  datatype Figures = Figures(total: nat, users: nat, replies: nat, active: nat, done: nat)

  /** The counts the summary reports. User and assistant messages are among
      all messages, and pending and completed tasks are disjoint. */
  function SummaryFigures(history: seq<Message>, tasks: seq<Task>): (f: Figures)
    ensures f.total == |history|
    ensures f.users == CountRole(history, User) && f.replies == CountRole(history, Assistant)
    ensures f.active == CountStatus(tasks, Pending) && f.done == CountStatus(tasks, Completed)
    ensures f.users + f.replies <= f.total
    ensures f.active + f.done <= |tasks|
  {
    RoleCountsPartition(history);
    StatusCountsBounded(tasks, Pending, Completed);
    Figures(|history|, CountRole(history, User), CountRole(history, Assistant),
            CountStatus(tasks, Pending), CountStatus(tasks, Completed))
  }

  /** The summary text without the blank line before it and the indentation
      after it. */
  function SummaryBody(f: Figures): string {
    "\U{1F4CA} Conversation Summary:\n"
    + "- Total messages: " + NatToString(f.total) + "\n"
    + "- Your messages: " + NatToString(f.users) + "\n"
    + "- My responses: " + NatToString(f.replies) + "\n"
    + "- Active tasks: " + NatToString(f.active) + "\n"
    + "- Completed tasks: " + NatToString(f.done)
  }

  /** `get_conversation_summary`: nothing to summarise while the history
      holds at most the system prompt; otherwise the stripped report, which
      is the report without its padding. */
  function ConversationSummary(history: seq<Message>, tasks: seq<Task>): (r: string)
    ensures |history| <= 1 ==> r == NoConversation
    ensures |history| > 1 ==> r == SummaryBody(SummaryFigures(history, tasks))
  {
    if |history| <= 1 then NoConversation
    else
      var body := SummaryBody(SummaryFigures(history, tasks));
      var done := NatToString(SummaryFigures(history, tasks).done);
      assert body[|body| - 1] == done[|done| - 1];
      StripPadded("\n", body, "\n        ");
      Strip("\n" + body + "\n        ")
  }

  // ---------------------------------------------------------------------
  // The state and its transitions, as values

  /** Everything the first variant keeps. */
  datatype Session = Session(
    name: string,
    userName: string,
    systemPrompt: string,
    history: seq<Message>,
    tasks: seq<Task>,
    preferences: map<string, Value>)

  /** The preference keys of a new assistant are never lost. */
  predicate HasDefaultKeys(s: Session) {
    DefaultPreferences.Keys <= s.preferences.Keys
  }

  /** `_update_system_prompt`: a fresh prompt for the current user name,
      also written into the first history entry when that is a system
      message. */
  function Renamed(s: Session, clock: Clock): (r: Session)
    ensures Contains(r.systemPrompt, s.userName)
    ensures |r.history| == |s.history|
    ensures forall k :: 1 <= k < |s.history| ==> r.history[k] == s.history[k]
    ensures |s.history| > 0 ==>
              r.history[0] == if s.history[0].role == System then s.history[0].(content := r.systemPrompt)
                              else s.history[0]
    ensures r.name == s.name && r.userName == s.userName
    ensures r.tasks == s.tasks && r.preferences == s.preferences
  {
    var prompt := UpdatedPrompt(s.name, s.userName, clock.display);
    var h := s.history;
    s.(systemPrompt := prompt,
       history := if |h| > 0 && h[0].role == System then h[0 := h[0].(content := prompt)] else h)
  }

  /** A state after a command: the new state, and the reply (`None` when the
      text is no command). */
  datatype Step = Step(after: Session, reply: Option<string>)

  /** The effect of `_parse_command` once the command is known. */
  function ApplyCommand(s: Session, cmd: Command, clock: Clock, saved: Outcome): (r: Step)
    ensures r.reply.Some? <==> cmd != NoCommand
    ensures r.reply.Some? ==> r.reply.value != []
    ensures r.after.name == s.name && r.after.preferences == s.preferences
    ensures cmd.AddTask? ==>
              r.after.tasks == s.tasks + [NewTask(s.tasks, cmd.description, DefaultPriority, clock.iso)]
    ensures cmd.ClearTasks? ==> r.after.tasks == []
    ensures !cmd.AddTask? && !cmd.ClearTasks? ==> r.after.tasks == s.tasks
    ensures cmd.SetName? ==> r.after.userName == cmd.name && Contains(r.after.systemPrompt, cmd.name)
    ensures !cmd.SetName? ==> r.after.userName == s.userName && r.after.systemPrompt == s.systemPrompt
    ensures cmd.ClearHistory? ==> r.after.history == [Message(System, s.systemPrompt, clock.iso)]
    ensures !cmd.ClearHistory? ==> |r.after.history| == |s.history|
    ensures !cmd.ClearHistory? ==> forall k :: 1 <= k < |s.history| ==> r.after.history[k] == s.history[k]
    ensures !cmd.ClearHistory? && |s.history| > 0 ==> r.after.history[0].role == s.history[0].role
    ensures !cmd.ClearHistory? && |s.history| > 0 && s.history[|s.history| - 1].role != System ==>
              r.after.history[|s.history| - 1] == s.history[|s.history| - 1]
  {
    match cmd
    case AddTask(d) =>
      Step(s.(tasks := s.tasks + [NewTask(s.tasks, d, DefaultPriority, clock.iso)]),
           Some(TaskAdded(d, DefaultPriority)))
    case AskForTask => Step(s, Some(WhatTask))
    case ShowTasks => Step(s, Some(TaskListing(s.tasks)))
    case ClearTasks => Step(s.(tasks := []), Some(TasksCleared))
    case ClearHistory =>
      Step(s.(history := [Message(System, s.systemPrompt, clock.iso)]), Some(HistoryCleared))
    case SaveSession => Step(s, Some(SaveReply(DefaultFileName(clock), saved)))
    case SetName(n) => Step(Renamed(s.(userName := n), clock), Some(Greeting(n)))
    case NoCommand => Step(s, None)
  }

  /** The state once the user's text is in the history. */
  function AfterUserTurn(s: Session, input: string, clock: Clock): Session {
    s.(history := AppendTruncated(s.history, Message(User, input, clock.iso)))
  }

  /** The request `respond` sends: the most recent entries of the history
      (at most `ContextSize`), in order, as role and content, and the
      configured maximum length. */
  function RequestFor(s: Session): (r: Request)
    requires MaxLengthKey in s.preferences
    ensures r.model == ModelName && r.maxTokens == s.preferences[MaxLengthKey]
    ensures |r.messages| == if |s.history| < ContextSize then |s.history| else ContextSize
    ensures r.messages == ChatView(s.history[|s.history| - |r.messages|..])
  {
    ContextWindowIsRecentView(s.history);
    Request(ModelName, ContextWindow(s.history), s.preferences[MaxLengthKey])
  }

  /** The new state and the reply of one `respond` call. */
  datatype Exchange = Exchange(after: Session, reply: string)

  /** `respond` on text that is not blank, once `_parse_command` has
      recognised `cmd` in it: the text joins the history, a command is
      carried out and answered, and anything else goes to the completion
      service, whose answer joins the history when there is one. */
  function Converse(s: Session, input: string, cmd: Command, clock: Clock, complete: Completion, saved: Outcome): (r: Exchange)
    requires MaxLengthKey in s.preferences
    ensures r.after.preferences == s.preferences
    ensures var h := ApplyCommand(AfterUserTurn(s, input, clock), cmd, clock, saved).after.history;
            r.after.history == h || r.after.history == AppendTruncated(h, Message(Assistant, r.reply, clock.iso))
  {
    var step := ApplyCommand(AfterUserTurn(s, input, clock), cmd, clock, saved);
    if step.reply.Some? && step.reply.value != [] then Exchange(step.after, step.reply.value)
    else
      match complete(RequestFor(step.after))
      case Success(text) =>
        Exchange(step.after.(history := AppendTruncated(step.after.history, Message(Assistant, text, clock.iso))), text)
      case Failure(e) => Exchange(step.after, Apology(e))
  }

  /** `respond`: blank text is refused, anything else is a conversation
      turn for the command found in it. */
  function RespondStep(s: Session, input: string, clock: Clock, complete: Completion, saved: Outcome): (r: Exchange)
    requires MaxLengthKey in s.preferences
    ensures r.after.preferences == s.preferences
  {
    if IsBlank(input) then Exchange(s, NotCaught)
    else Converse(s, input, Classify(input), clock, complete, saved)
  }

  /** Blank text gets the fixed answer and changes nothing. */
  lemma BlankInputChangesNothing(s: Session, input: string, clock: Clock, complete: Completion, saved: Outcome)
    requires MaxLengthKey in s.preferences
    requires forall k :: 0 <= k < |input| ==> IsSpace(input[k])
    ensures RespondStep(s, input, clock, complete, saved) == Exchange(s, NotCaught)
  {
    StripBlank(input);
  }

  /** A command is answered without the completion service: the outcome is
      the same whatever the service would have said. */
  lemma CommandIgnoresService(s: Session, input: string, cmd: Command, clock: Clock, one: Completion, other: Completion, saved: Outcome)
    requires MaxLengthKey in s.preferences
    requires cmd != NoCommand
    ensures Converse(s, input, cmd, clock, one, saved) == Converse(s, input, cmd, clock, other, saved)
  {
  }

  /** A "clear history" command leaves only the system prompt. */
  lemma ClearHistoryLeavesPrompt(s: Session, input: string, clock: Clock, complete: Completion, saved: Outcome)
    requires MaxLengthKey in s.preferences
    ensures Converse(s, input, ClearHistory, clock, complete, saved).after.history
            == [Message(System, s.systemPrompt, clock.iso)]
  {
  }

  /** A command other than "clear history" keeps the user's entry last. */
  lemma CommandKeepsUserTurn(s: Session, input: string, cmd: Command, clock: Clock, saved: Outcome)
    requires !cmd.ClearHistory?
    ensures var h := ApplyCommand(AfterUserTurn(s, input, clock), cmd, clock, saved).after.history;
            |h| >= 1 && h[|h| - 1] == Message(User, input, clock.iso)
  {
    var s1 := AfterUserTurn(s, input, clock);
    assert |s1.history| >= 1 && s1.history[|s1.history| - 1] == Message(User, input, clock.iso);
  }

  /** Every other turn keeps the user's text as the last or the last but
      one history entry. */
  lemma UserTurnKept(s: Session, input: string, cmd: Command, clock: Clock, complete: Completion, saved: Outcome)
    requires MaxLengthKey in s.preferences
    requires !cmd.ClearHistory?
    ensures var h := Converse(s, input, cmd, clock, complete, saved).after.history;
            var user := Message(User, input, clock.iso);
            |h| >= 1 && (h[|h| - 1] == user || (|h| >= 2 && h[|h| - 2] == user))
  {
    var user := Message(User, input, clock.iso);
    var s1 := AfterUserTurn(s, input, clock);
    var step := ApplyCommand(s1, cmd, clock, saved);
    var h1 := step.after.history;
    CommandKeepsUserTurn(s, input, cmd, clock, saved);
    var r := Converse(s, input, cmd, clock, complete, saved);
    AppendKeepsLast(h1, user, r.after.history, Message(Assistant, r.reply, clock.iso));
  }

  /** A turn ends the history with an assistant entry exactly when the text
      is no command and the service answered. */
  lemma AssistantTurnIffAnswered(s: Session, input: string, cmd: Command, clock: Clock, complete: Completion, saved: Outcome)
    requires MaxLengthKey in s.preferences
    ensures var h := Converse(s, input, cmd, clock, complete, saved).after.history;
            |h| >= 1 && h[|h| - 1].role == Assistant <==>
              cmd.NoCommand? && complete(RequestFor(AfterUserTurn(s, input, clock))).Success?
  {
    var s1 := AfterUserTurn(s, input, clock);
    assert |s1.history| >= 1 && s1.history[|s1.history| - 1].role == User;
  }

  /** When the service fails, the answer carries the error text and only the
      user turn was added. */
  lemma FailureReplyCarriesError(s: Session, input: string, clock: Clock, complete: Completion, saved: Outcome, error: string)
    requires MaxLengthKey in s.preferences
    requires complete(RequestFor(AfterUserTurn(s, input, clock))) == Failure(error)
    ensures var r := Converse(s, input, NoCommand, clock, complete, saved);
            Contains(r.reply, error) && r.after == AfterUserTurn(s, input, clock)
  {
    var step := ApplyCommand(AfterUserTurn(s, input, clock), NoCommand, clock, saved);
    assert step.after == AfterUserTurn(s, input, clock) && step.reply.None?;
  }

  /** A conversation turn leaves the tasks, the user name and the prompt
      alone. */
  lemma ConversationKeepsTasks(s: Session, input: string, clock: Clock, complete: Completion, saved: Outcome)
    requires MaxLengthKey in s.preferences
    ensures var r := Converse(s, input, NoCommand, clock, complete, saved).after;
            r.tasks == s.tasks && r.userName == s.userName && r.systemPrompt == s.systemPrompt
  {
  }

  /** A history within the limit stays within it across a turn. */
  lemma TurnKeepsHistoryBound(s: Session, input: string, cmd: Command, clock: Clock, complete: Completion, saved: Outcome)
    requires MaxLengthKey in s.preferences
    requires |s.history| <= HistoryLimit
    ensures |Converse(s, input, cmd, clock, complete, saved).after.history| <= HistoryLimit
  {
  }

  /** The state part of `load_session`: history and tasks are replaced (by
      empty lists when the file lacks them), the user name is kept when the
      file has none, and the stored preferences are merged over the current
      ones. These steps run in that order, so stored preferences that are no
      mapping leave the preferences as they were, while the rest has already
      changed. The system prompt is not rebuilt. */
  function Restore(s: Session, rec: SessionRecord): (r: Session)
    ensures r.userName == rec.userName.GetOr(s.userName)
    ensures r.history == rec.history.GetOr([]) && r.tasks == rec.tasks.GetOr([])
    ensures r.preferences.Keys == s.preferences.Keys + Entries(rec.preferences).Keys
    ensures forall k :: k in Entries(rec.preferences) ==> r.preferences[k] == Entries(rec.preferences)[k]
    ensures forall k :: k in s.preferences && k !in Entries(rec.preferences) ==>
              r.preferences[k] == s.preferences[k]
    ensures PreferencesRejected(rec) ==> r.preferences == s.preferences
    ensures r.name == s.name && r.systemPrompt == s.systemPrompt
    ensures HasDefaultKeys(s) ==> HasDefaultKeys(r)
  {
    s.(userName := rec.userName.GetOr(s.userName),
       history := rec.history.GetOr([]),
       tasks := rec.tasks.GetOr([]),
       preferences := s.preferences + Entries(rec.preferences))
  }

  // ---------------------------------------------------------------------
  // The class

  class PersonalAssistant {
    const name: string
    var userName: string
    var systemPrompt: string
    var history: seq<Message>
    var tasks: seq<Task>
    var preferences: map<string, Value>

    function State(): Session
      reads this
    {
      Session(name, userName, systemPrompt, history, tasks, preferences)
    }

    /** The preference keys of a new assistant are all present. */
    predicate Valid()
      reads this
    {
      HasDefaultKeys(State())
    }

    /** `__init__`: the default preferences, no tasks, and a history holding
        only the system prompt. */
    constructor(name: string, userName: string, clock: Clock)
      ensures Valid()
      ensures State() == Session(name, userName, InitialPrompt(name, userName, clock.display),
                                 [Message(System, InitialPrompt(name, userName, clock.display), clock.iso)],
                                 [], DefaultPreferences)
    {
      this.name := name;
      this.userName := userName;
      var prompt := InitialPrompt(name, userName, clock.display);
      systemPrompt := prompt;
      history := [Message(System, prompt, clock.iso)];
      tasks := [];
      preferences := DefaultPreferences;
    }

    /** `_add_to_history`. */
    method AddToHistory(role: Role, content: string, clock: Clock)
      modifies this
      ensures State() == old(State()).(history := AppendTruncated(old(history), Message(role, content, clock.iso)))
    {
      history := history + [Message(role, content, clock.iso)];
      if |history| > HistoryLimit {
        history := history[..1] + history[|history| - TailKept..];
      }
    }

    /** `_update_system_prompt`. */
    method UpdateSystemPrompt(clock: Clock)
      modifies this
      ensures State() == Renamed(old(State()), clock)
    {
      systemPrompt := UpdatedPrompt(name, userName, clock.display);
      if |history| > 0 && history[0].role == System {
        history := history[0 := history[0].(content := systemPrompt)];
      }
    }

    /** `clear_history`. */
    method ClearHistory(clock: Clock) returns (reply: string)
      modifies this
      ensures State() == old(State()).(history := [Message(System, old(systemPrompt), clock.iso)])
      ensures reply == HistoryCleared
    {
      history := [Message(System, systemPrompt, clock.iso)];
      reply := HistoryCleared;
    }

    /** `add_task`: one pending task at the end, numbered one past the
        length of the list. */
    method AddTask(description: string, priority: string, clock: Clock) returns (reply: string)
      modifies this
      ensures State() == old(State()).(tasks := old(tasks) + [NewTask(old(tasks), description, priority, clock.iso)])
      ensures reply == TaskAdded(description, priority)
    {
      var task := Task(|tasks| + 1, description, priority, Pending, clock.iso, None);
      tasks := tasks + [task];
      reply := TaskAdded(description, priority);
    }

    /** `get_tasks`: the listing is built line by line. */
    method GetTasks() returns (reply: string)
      ensures reply == TaskListing(tasks)
    {
      var ts := tasks;
      if ts == [] {
        return NoTasks;
      }
      var listing := Header(|ts|);
      for i := 0 to |ts|
        invariant listing == Header(|ts|) + Lines(ts[..i])
      {
        LinesExtend(ts, i);
        AppendAssoc(Header(|ts|), Lines(ts[..i]), TaskLine(ts[i]));
        listing := listing + TaskLine(ts[i]);
      }
      assert ts[..|ts|] == ts;
      reply := Strip(listing);
    }

    /** `complete_task`: the first task with the id is marked completed and
        named in the reply; without such a task nothing changes. */
    method CompleteTask(id: int, clock: Clock) returns (reply: string)
      modifies this
      ensures State() == old(State()).(tasks := CompleteFirst(old(tasks), id, clock.iso))
      ensures FirstWithId(old(tasks), id).None? ==> reply == NotFound(id)
      ensures FirstWithId(old(tasks), id).Some? ==>
                reply == CompletedReply(old(tasks)[FirstWithId(old(tasks), id).value].description)
    {
      var i := 0;
      while i < |tasks|
        invariant 0 <= i <= |tasks|
        invariant tasks == old(tasks)
        invariant forall j :: 0 <= j < i ==> tasks[j].id != id
      {
        if tasks[i].id == id {
          tasks := tasks[i := MarkCompleted(tasks[i], clock.iso)];
          return CompletedReply(tasks[i].description);
        }
        i := i + 1;
      }
      reply := NotFound(id);
    }

    /** `set_preference`: only keys that already exist can be set. */
    method SetPreference(key: string, value: Value) returns (reply: string)
      modifies this
      ensures key in old(preferences) ==>
                State() == old(State()).(preferences := old(preferences)[key := value])
                && reply == PreferenceUpdated(key, value)
      ensures key !in old(preferences) ==> State() == old(State()) && reply == UnknownPreference(key)
      ensures preferences.Keys == old(preferences).Keys
    {
      if key in preferences {
        preferences := preferences[key := value];
        reply := PreferenceUpdated(key, value);
      } else {
        reply := UnknownPreference(key);
      }
    }

    /** `save_session`: the state is written out unchanged; an empty file
        name stands for the default one. */
    method SaveSession(filename: string, clock: Clock, saved: Outcome) returns (reply: string)
      ensures reply == SaveReply(if filename == [] then DefaultFileName(clock) else filename, saved)
    {
      var target := filename;
      if target == [] {
        target := DefaultFileName(clock);
      }
      reply := SaveReply(target, saved);
    }

    /** `load_session`, given what reading the file produced. */
    method LoadSession(filename: string, read: Read) returns (reply: string)
      modifies this
      ensures read.Parsed? ==> State() == Restore(old(State()), read.record)
      ensures read.Unreadable? ==> State() == old(State())
      ensures reply == LoadReply(filename, read)
    {
      if read.Parsed? {
        var rec := read.record;
        userName := rec.userName.GetOr(userName);
        history := rec.history.GetOr([]);
        tasks := rec.tasks.GetOr([]);
        preferences := preferences + Entries(rec.preferences);
      }
      reply := LoadReply(filename, read);
    }

    /** `_parse_command`. */
    method ParseCommand(input: string, clock: Clock, saved: Outcome) returns (result: Option<string>)
      modifies this
      ensures Step(State(), result) == ApplyCommand(old(State()), Classify(input), clock, saved)
    {
      match Classify(input)
      case AddTask(d) =>
        var reply := AddTask(d, DefaultPriority, clock);
        result := Some(reply);
      case AskForTask =>
        result := Some(WhatTask);
      case ShowTasks =>
        var reply := GetTasks();
        result := Some(reply);
      case ClearTasks =>
        tasks := [];
        result := Some(TasksCleared);
      case ClearHistory =>
        var reply := ClearHistory(clock);
        result := Some(reply);
      case SaveSession =>
        var reply := SaveSession([], clock, saved);
        result := Some(reply);
      case SetName(n) =>
        userName := n;
        UpdateSystemPrompt(clock);
        result := Some(Greeting(n));
      case NoCommand =>
        result := None;
    }

    /** `respond`, with the completion service as `complete` and the outcome
        of a save the text may ask for as `saved`. */
    method Respond(input: string, clock: Clock, complete: Completion, saved: Outcome) returns (reply: string)
      requires Valid()
      modifies this
      ensures Valid()
      ensures Exchange(State(), reply) == RespondStep(old(State()), input, clock, complete, saved)
    {
      if IsBlank(input) {
        return NotCaught;
      }
      AddToHistory(User, input, clock);
      var commandResult := ParseCommand(input, clock, saved);
      if commandResult.Some? && commandResult.value != [] {
        return commandResult.value;
      }
      var request := Request(ModelName, ContextWindow(history), preferences[MaxLengthKey]);
      match complete(request)
      case Success(text) =>
        AddToHistory(Assistant, text, clock);
        reply := text;
      case Failure(e) =>
        reply := Apology(e);
    }
  }
}
