/** The second variant (src/personal_assistant.py): an assistant whose whole
    state is kept in one file per user name, rewritten after every change.
    Its history is never truncated, each request carries a system prompt
    built afresh plus the user and assistant entries among the last ten
    history entries, and any failure inside `respond` becomes an apology. */
module PersistentAssistant {
  import opened Text
  import opened Records
  import opened TaskList
  import opened History
  import opened Cli

  /** `max_tokens` of every request. */
  const MaxTokens := 500

  const TaskDeleted := "Task deleted."
  const TaskMissing := "Task not found."
  const SessionCleared := "Session cleared."
  const NoHistoryYet := "No conversation history yet."
  const InvalidId := "Please provide a valid task ID."
  const Farewell := "Goodbye!"
  const SummaryHead := "Conversation: "
  const SummaryMiddle := " messages exchanged, "
  const SummaryTail := " tasks managed"

  // The prose of the system prompt and of the help text, shortened: only
  // where the name, the user name and the task count go is kept.
  const PromptRole := ", a helpful personal AI assistant.\nUser's name: "
  const PromptCount := "\nCurrent tasks: "
  const PromptClosing := " pending\nBe conversational, helpful, ..."
  const HelpText := "\nCommands:\n- add task [description] - Add a new task\n..."

  /** Everything the second variant keeps. */
  datatype Memory = Memory(
    name: string,
    userName: string,
    history: seq<Message>,
    tasks: seq<Task>,
    preferences: map<string, Value>)

  // ---------------------------------------------------------------------
  // Replies

  function Apology(error: string): (r: string)
    ensures Contains(r, error)
  {
    ContainsSuffix("Sorry, I encountered an error: ", error, error);
    ContainsMiddle([], error, []);
    assert [] + error + [] == error;
    "Sorry, I encountered an error: " + error
  }

  function Added(description: string): string {
    "Task added: " + description
  }

  function PreferenceSet(key: string, value: Value): string {
    "Preference set: " + key + " = " + ValueText(value)
  }

  function NoneFound(status: string): string {
    "No " + status + " tasks found."
  }

  /** What the loop prints for an answer of the assistant. */
  function Said(name: string, text: string): string {
    "\U{1F916} " + name + ": " + text
  }

  // ---------------------------------------------------------------------
  // The system prompt

  /** The system prompt of `respond`: the assistant's name, the user's name
      and the number of tasks, all of which the prompt calls pending. */
  function PromptFor(name: string, userName: string, count: nat): (p: string)
    ensures Contains(p, userName) && Contains(p, NatToString(count))
  {
    var head := "You are " + name + PromptRole;
    ContainsBoth(head, userName, PromptCount, NatToString(count), PromptClosing);
    head + userName + PromptCount + NatToString(count) + PromptClosing
  }

  // ---------------------------------------------------------------------
  // `respond`

  /** The request `respond` sends once the user's text has joined the
      history: the prompt, which names the user, first; then recent
      dialogue ending with the user's text; at most `MaxTokens` tokens. */
  function RequestOf(m: Memory, input: string, clock: Clock): (r: Request)
    ensures r.model == ModelName && r.maxTokens == Num(MaxTokens)
    ensures 2 <= |r.messages| <= DialogueWindow + 1
    ensures r.messages[0].role == System && Contains(r.messages[0].content, m.userName)
    ensures forall k :: 1 <= k < |r.messages| ==> r.messages[k].role != System
    ensures r.messages[|r.messages| - 1] == ChatMessage(User, input)
  {
    var user := Message(User, input, clock.iso);
    var prompt := PromptFor(m.name, m.userName, |m.tasks|);
    PayloadEndsWithLatest(prompt, m.history, user);
    Request(ModelName, Payload(prompt, m.history + [user]), Num(MaxTokens))
  }

  datatype Exchange = Exchange(after: Memory, reply: string)

  /** `respond`, with the completion service as `complete` and the outcome
      of the save that follows an answer as `persisted`. The user's text
      always joins the history; the answer joins it when the service gave
      one, even if saving then fails. */
  function Conversation(m: Memory, input: string, clock: Clock, complete: Completion, persisted: Outcome): (r: Exchange)
    ensures var n := |m.history|;
            && n + 1 <= |r.after.history| <= n + 2
            && r.after.history[..n + 1] == m.history + [Message(User, input, clock.iso)]
    ensures r.after.name == m.name && r.after.userName == m.userName
    ensures r.after.tasks == m.tasks && r.after.preferences == m.preferences
  {
    var h := m.history + [Message(User, input, clock.iso)];
    match complete(RequestOf(m, input, clock))
    case Failure(e) => Exchange(m.(history := h), Apology(e))
    case Success(text) =>
      var h2 := h + [Message(Assistant, text, clock.iso)];
      assert h2[..|m.history| + 1] == h;
      match persisted
      case Pass => Exchange(m.(history := h2), text)
      case Fail(e) => Exchange(m.(history := h2), Apology(e))
  }

  /** The history ends with an assistant entry exactly when the service
      answered; otherwise it ends with the user's text. */
  lemma AnsweredIffServiceSucceeded(m: Memory, input: string, clock: Clock, complete: Completion, persisted: Outcome)
    ensures var h := Conversation(m, input, clock, complete, persisted).after.history;
            && (h[|h| - 1].role == Assistant <==> complete(RequestOf(m, input, clock)).Success?)
            && (|h| == |m.history| + 2 <==> complete(RequestOf(m, input, clock)).Success?)
  {
    var r := Conversation(m, input, clock, complete, persisted);
    if complete(RequestOf(m, input, clock)).Failure? {
      assert r.after.history == m.history + [Message(User, input, clock.iso)];
    }
  }

  /** The reply is the answer itself exactly when the service answered and
      the save succeeded; every failure is reported with its text. */
  lemma ReplyReportsFailures(m: Memory, input: string, clock: Clock, complete: Completion, persisted: Outcome)
    ensures var r := Conversation(m, input, clock, complete, persisted);
            var call := complete(RequestOf(m, input, clock));
            && (call.Failure? ==> Contains(r.reply, call.error))
            && (call.Success? && persisted.Fail? ==> Contains(r.reply, persisted.error))
            && (call.Success? && persisted.Pass? ==> r.reply == call.text)
  {
  }

  /** Nothing is ever dropped from the history: after any sequence of turns
      the history starts with everything it held before. */
  lemma {:induction false} TurnsOnlyAppend(m: Memory, inputs: seq<string>, clock: Clock, complete: Completion, persisted: Outcome)
    ensures var r := Turns(m, inputs, clock, complete, persisted);
            |r.history| >= |m.history| + |inputs| && r.history[..|m.history|] == m.history
    decreases |inputs|
  {
    if inputs != [] {
      var next := Conversation(m, inputs[0], clock, complete, persisted).after;
      assert next.history[..|m.history|] == m.history;
      TurnsOnlyAppend(next, inputs[1..], clock, complete, persisted);
      var r := Turns(next, inputs[1..], clock, complete, persisted);
      assert r.history[..|m.history|] == r.history[..|next.history|][..|m.history|];
    }
  }

  /** The state after one turn per input, in order. */
  function Turns(m: Memory, inputs: seq<string>, clock: Clock, complete: Completion, persisted: Outcome): Memory
    decreases |inputs|
  {
    if inputs == [] then m
    else Turns(Conversation(m, inputs[0], clock, complete, persisted).after, inputs[1..], clock, complete, persisted)
  }

  // ---------------------------------------------------------------------
  // `get_tasks`

  /** `[task for task in self.tasks if task["status"] == status]`. */
  function WithStatus(tasks: seq<Task>, status: string): seq<Task> {
    Filter(tasks, (t: Task) => t.status == status)
  }

  /** One line of the report: bullet, id in brackets, description, priority
      in parentheses. */
  function ReportLine(t: Task): (r: string)
    ensures |r| > 0 && r[0] == '\U{2022}'
  {
    "\U{2022} [" + IntToString(t.id) + "] " + t.description + " (" + t.priority + ")"
  }

  function ReportLines(tasks: seq<Task>): (r: seq<string>)
    ensures |r| == |tasks|
    ensures forall k :: 0 <= k < |tasks| ==> r[k] == ReportLine(tasks[k])
  {
    seq(|tasks|, k requires 0 <= k < |tasks| => ReportLine(tasks[k]))
  }

  lemma ReportLinesExtend(tasks: seq<Task>, i: nat)
    requires i < |tasks|
    ensures ReportLines(tasks[..i + 1]) == ReportLines(tasks[..i]) + [ReportLine(tasks[i])]
  {
  }

  /** `get_tasks(status)`: a fixed sentence exactly when no task has the
      status, otherwise the lines of those tasks joined by newlines. */
  function TaskReport(tasks: seq<Task>, status: string): (r: string)
    ensures WithStatus(tasks, status) == [] <==> r == NoneFound(status)
  {
    var matching := WithStatus(tasks, status);
    if matching == [] then NoneFound(status)
    else
      var r := Join(ReportLines(matching), "\n");
      assert r[0] == '\U{2022}' && NoneFound(status)[0] == 'N';
      r
  }

  /** Every task with the status has its line in the report. */
  lemma ReportListsEveryMatch(tasks: seq<Task>, status: string, k: nat)
    requires k < |tasks| && tasks[k].status == status
    ensures Contains(TaskReport(tasks, status), ReportLine(tasks[k]))
  {
    var matching := WithStatus(tasks, status);
    assert tasks[k] in matching;
    var j :| 0 <= j < |matching| && matching[j] == tasks[k];
    JoinContains(ReportLines(matching), "\n", j);
  }

  // ---------------------------------------------------------------------
  // `complete_task`, `get_conversation_summary`, `clear_session`

  /** The reply of `complete_task`: the description of the first task with
      the id, or a fixed sentence when there is none. */
  function CompletionReply(tasks: seq<Task>, id: int): (r: string)
    ensures FirstWithId(tasks, id).None? <==> r == TaskMissing
  {
    match FirstWithId(tasks, id)
    case Some(i) => assert ("Task completed: " + tasks[i].description)[5] == 'c'; "Task completed: " + tasks[i].description
    case None => TaskMissing
  }

  /** `get_conversation_summary`: a fixed sentence exactly when the history
      is empty, otherwise the number of user entries and of tasks. */
  function Summary(history: seq<Message>, tasks: seq<Task>): (r: string)
    ensures history == [] <==> r == NoHistoryYet
    ensures history != [] ==> Contains(r, NatToString(CountRole(history, User))) && Contains(r, NatToString(|tasks|))
  {
    if history == [] then NoHistoryYet
    else
      var users := NatToString(CountRole(history, User));
      var count := NatToString(|tasks|);
      ContainsBoth(SummaryHead, users, SummaryMiddle, count, SummaryTail);
      assert NoHistoryYet[0] != SummaryHead[0];
      SummaryHead + users + SummaryMiddle + count + SummaryTail
  }

  /** `clear_session`: history, tasks and preferences are emptied. */
  function Cleared(m: Memory): (r: Memory)
    ensures r.history == [] && r.tasks == [] && r.preferences == map[]
    ensures r.name == m.name && r.userName == m.userName
  {
    m.(history := [], tasks := [], preferences := map[])
  }

  // ---------------------------------------------------------------------
  // The session file

  /** What `save_session` writes: history, tasks and preferences. The user
      name is not written; it names the file instead. The time of writing is
      left out. */
  function SavedRecord(m: Memory): (r: SessionRecord)
    ensures r.userName.None?
    ensures r.history == Some(m.history) && r.tasks == Some(m.tasks) && r.preferences == Some(Mapping(m.preferences))
  {
    SessionRecord(None, Some(m.history), Some(m.tasks), Some(Mapping(m.preferences)))
  }

  /** `load_session`, given what looking for and reading the user's file
      produced (`None` when there is no file). A file that cannot be read
      changes nothing; otherwise each of history, tasks and preferences is
      replaced, by an empty one when the file lacks it (or, for the
      preferences, holds something other than a mapping). */
  function Loaded(m: Memory, stored: Option<Read>): (r: Memory)
    ensures r.name == m.name && r.userName == m.userName
    ensures stored.None? || stored.value.Unreadable? ==> r == m
    ensures stored.Some? && stored.value.Parsed? ==>
              var rec := stored.value.record;
              && r.history == rec.history.GetOr([])
              && r.tasks == rec.tasks.GetOr([])
              && r.preferences == Entries(rec.preferences)
  {
    match stored
    case None => m
    case Some(Unreadable(_)) => m
    case Some(Parsed(rec)) =>
      m.(history := rec.history.GetOr([]), tasks := rec.tasks.GetOr([]),
         preferences := Entries(rec.preferences))
  }

  /** Loading what was saved for the same user restores the whole state,
      whatever the loading assistant held before. */
  lemma LoadAfterSave(m: Memory, other: Memory)
    requires other.name == m.name && other.userName == m.userName
    ensures Loaded(other, Some(Parsed(SavedRecord(m)))) == m
  {
  }

  // ---------------------------------------------------------------------
  // The terminal loop

  /** What the loop prints for one line, the state after it, and whether it
      goes on reading. */
  datatype Printed = Printed(after: Memory, line: string, goOn: bool)

  /** One pass of the loop in `__main__`, on the line as typed. Only
      conversation reaches the completion service; all other actions use
      the assistant's own operations. */
  function Dispatch(m: Memory, raw: string, clock: Clock, complete: Completion, persisted: Outcome): (r: Printed)
    ensures !r.goOn <==> Route(raw).Quit?
    ensures !Route(raw).Talk? && !Route(raw).Add? && !Route(raw).Complete? && !Route(raw).Clear? ==> r.after == m
  {
    match Route(raw)
    case Quit => Printed(m, Said(m.name, Farewell), false)
    case ShowHelp => Printed(m, HelpText, true)
    case Add(d) =>
      Printed(m.(tasks := m.tasks + [NewTask(m.tasks, d, DefaultPriority, clock.iso)]), Said(m.name, Added(d)), true)
    case Show => Printed(m, Said(m.name, TaskReport(m.tasks, Pending)), true)
    case Complete(id) =>
      Printed(m.(tasks := CompleteFirst(m.tasks, id, clock.iso)), Said(m.name, CompletionReply(m.tasks, id)), true)
    case BadId => Printed(m, Said(m.name, InvalidId), true)
    case Clear => Printed(Cleared(m), Said(m.name, SessionCleared), true)
    case Summarise => Printed(m, Said(m.name, Summary(m.history, m.tasks)), true)
    case Talk(text) =>
      var x := Conversation(m, text, clock, complete, persisted);
      Printed(x.after, Said(m.name, x.reply), true)
  }

  /** A line the loop handles itself is answered the same whatever the
      completion service would say. */
  lemma OnlyTalkReachesService(m: Memory, raw: string, clock: Clock, one: Completion, other: Completion, persisted: Outcome)
    requires !Route(raw).Talk?
    ensures Dispatch(m, raw, clock, one, persisted) == Dispatch(m, raw, clock, other, persisted)
  {
    match Route(raw)
    case Quit =>
    case ShowHelp =>
    case Add(_) =>
    case Show =>
    case Complete(_) =>
    case BadId =>
    case Clear =>
    case Summarise =>
  }

  /** "add task " and a description appends one pending task with exactly
      that description and the next id. */
  lemma AddTaskLineAppends(m: Memory, line: string, description: string, clock: Clock, complete: Completion, persisted: Outcome)
    requires line == "add task " + description
    requires description != [] && !IsSpace(description[|description| - 1])
    ensures var r := Dispatch(m, line, clock, complete, persisted);
            && r.after.tasks == m.tasks + [NewTask(m.tasks, description, DefaultPriority, clock.iso)]
            && r.after.history == m.history && r.goOn
  {
    RouteAddTask(line, description);
  }

  /** "complete task " and a rendered id completes the first task with that
      id, or reports that there is none. */
  lemma CompleteTaskLineCompletes(m: Memory, line: string, id: int, clock: Clock, complete: Completion, persisted: Outcome)
    requires line == "complete task " + IntToString(id)
    ensures var r := Dispatch(m, line, clock, complete, persisted);
            && r.after.tasks == CompleteFirst(m.tasks, id, clock.iso)
            && (FirstWithId(m.tasks, id).None? <==> r.line == Said(m.name, TaskMissing))
  {
    RouteCompleteTask(line, id);
    var reply := CompletionReply(m.tasks, id);
    if reply != TaskMissing {
      assert Said(m.name, reply)[|Said(m.name, reply)| - |reply|..] == reply;
      assert Said(m.name, TaskMissing)[|Said(m.name, TaskMissing)| - |TaskMissing|..] == TaskMissing;
    }
  }

  // ---------------------------------------------------------------------
  // The class

  class PersonalAssistant {
    const name: string
    const userName: string
    var history: seq<Message>
    var tasks: seq<Task>
    var preferences: map<string, Value>

    function State(): Memory
      reads this
    {
      Memory(name, userName, history, tasks, preferences)
    }

    /** `__init__` (whose default names are "Dhee" and "User"):
        empty state, then `load_session`. */
    constructor(name: string, userName: string, stored: Option<Read>)
      ensures State() == Loaded(Memory(name, userName, [], [], map[]), stored)
    {
      this.name := name;
      this.userName := userName;
      history := [];
      tasks := [];
      preferences := map[];
      new;
      LoadSession(stored);
    }

    /** `load_session`. */
    method LoadSession(stored: Option<Read>)
      modifies this
      ensures State() == Loaded(old(State()), stored)
    {
      if stored.Some? && stored.value.Parsed? {
        var rec := stored.value.record;
        history := rec.history.GetOr([]);
        tasks := rec.tasks.GetOr([]);
        preferences := Entries(rec.preferences);
      }
    }

    /** `save_session`: the record written; the state is unchanged. */
    method SaveSession() returns (record: SessionRecord)
      ensures record == SavedRecord(State())
    {
      record := SessionRecord(None, Some(history), Some(tasks), Some(Mapping(preferences)));
    }

    /** `respond`. */
    method Respond(input: string, clock: Clock, complete: Completion, persisted: Outcome) returns (reply: string)
      modifies this
      ensures Exchange(State(), reply) == Conversation(old(State()), input, clock, complete, persisted)
    {
      history := history + [Message(User, input, clock.iso)];
      var messages := BuildPayload(PromptFor(name, userName, |tasks|), history);
      match complete(Request(ModelName, messages, Num(MaxTokens)))
      case Failure(e) =>
        reply := Apology(e);
      case Success(text) =>
        history := history + [Message(Assistant, text, clock.iso)];
        match persisted
        case Pass => reply := text;
        case Fail(e) => reply := Apology(e);
    }

    /** `add_task`: one pending task at the end, numbered one past the
        length of the list. */
    method AddTask(description: string, priority: string, clock: Clock) returns (reply: string)
      modifies this
      ensures State() == old(State()).(tasks := old(tasks) + [NewTask(old(tasks), description, priority, clock.iso)])
      ensures reply == Added(description)
    {
      tasks := tasks + [Task(|tasks| + 1, description, priority, Pending, clock.iso, None)];
      reply := Added(description);
    }

    /** `get_tasks`: the matching tasks' lines are collected one by one. */
    method GetTasks(status: string) returns (reply: string)
      ensures reply == TaskReport(tasks, status)
    {
      var matching := WithStatus(tasks, status);
      if matching == [] {
        return NoneFound(status);
      }
      var lines: seq<string> := [];
      for i := 0 to |matching|
        invariant lines == ReportLines(matching[..i])
      {
        ReportLinesExtend(matching, i);
        lines := lines + [ReportLine(matching[i])];
      }
      assert matching[..|matching|] == matching;
      reply := Join(lines, "\n");
    }

    /** `complete_task`: the first task with the id is marked completed;
        without such a task nothing changes. */
    method CompleteTask(id: int, clock: Clock) returns (reply: string)
      modifies this
      ensures State() == old(State()).(tasks := CompleteFirst(old(tasks), id, clock.iso))
      ensures reply == CompletionReply(old(tasks), id)
    {
      var i := 0;
      while i < |tasks|
        invariant 0 <= i <= |tasks|
        invariant tasks == old(tasks)
        invariant forall j :: 0 <= j < i ==> tasks[j].id != id
      {
        if tasks[i].id == id {
          tasks := tasks[i := MarkCompleted(tasks[i], clock.iso)];
          return "Task completed: " + tasks[i].description;
        }
        i := i + 1;
      }
      reply := TaskMissing;
    }

    /** `delete_task`: every task with the id goes, the rest keep their
        order. */
    method DeleteTask(id: int) returns (reply: string)
      modifies this
      ensures State() == old(State()).(tasks := WithoutId(old(tasks), id))
      ensures reply == TaskDeleted
    {
      tasks := WithoutId(tasks, id);
      reply := TaskDeleted;
    }

    /** `set_preference`: any key may be set. */
    method SetPreference(key: string, value: Value) returns (reply: string)
      modifies this
      ensures State() == old(State()).(preferences := old(preferences)[key := value])
      ensures reply == PreferenceSet(key, value)
    {
      preferences := preferences[key := value];
      reply := PreferenceSet(key, value);
    }

    /** `get_conversation_summary`. */
    method GetConversationSummary() returns (reply: string)
      ensures reply == Summary(history, tasks)
    {
      if history == [] {
        return NoHistoryYet;
      }
      reply := Summary(history, tasks);
    }

    /** `clear_session`. */
    method ClearSession() returns (reply: string)
      modifies this
      ensures State() == Cleared(old(State()))
      ensures reply == SessionCleared
    {
      history := [];
      tasks := [];
      preferences := map[];
      reply := SessionCleared;
    }

    /** One pass of the loop in `__main__`. */
    method Handle(raw: string, clock: Clock, complete: Completion, persisted: Outcome) returns (line: string, goOn: bool)
      modifies this
      ensures Printed(State(), line, goOn) == Dispatch(old(State()), raw, clock, complete, persisted)
    {
      goOn := true;
      match Route(raw)
      case Quit =>
        line := Said(name, Farewell);
        goOn := false;
      case ShowHelp =>
        line := HelpText;
      case Add(d) =>
        var reply := AddTask(d, DefaultPriority, clock);
        line := Said(name, reply);
      case Show =>
        var reply := GetTasks(Pending);
        line := Said(name, reply);
      case Complete(id) =>
        var reply := CompleteTask(id, clock);
        line := Said(name, reply);
      case BadId =>
        line := Said(name, InvalidId);
      case Clear =>
        var reply := ClearSession();
        line := Said(name, reply);
      case Summarise =>
        var reply := GetConversationSummary();
        line := Said(name, reply);
      case Talk(text) =>
        var reply := Respond(text, clock, complete, persisted);
        line := Said(name, reply);
    }
  }
}
