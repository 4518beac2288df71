# Personal assistant session state, in Dafny

This project models the session state of a chat-based personal assistant.
The assistant keeps four things: a conversation history, a task list, a
preference map and the user's name. It answers each line of user text in
one of two ways:

- it carries out a command on that state itself;
- or it forwards the conversation to a remote chat-completion service.

The repository has two divergent versions of the `PersonalAssistant` class,
and each is modelled as its own class:

- `personal_assistant.py`, the first variant, is modelled in `assistant.dfy`.
  - It recognises commands anywhere in the text. The match is
    case-insensitive and the first match wins.
  - It truncates the history after every append.
  - It sends the last twenty history entries as context.
  - `set_preference` only changes keys already present; loading a session
    can add keys.
- `src/personal_assistant.py`, the second variant, is modelled in
  `persistent_assistant.dfy` and `cli.dfy`.
  - It keeps one session file per user.
  - It never truncates the history.
  - It sends one system message, plus the user and assistant entries among
    the last ten history entries.
  - It lists tasks filtered by status.
  - It can delete tasks.
  - It accepts any preference key.
  - Its terminal loop dispatches on a few case-sensitive prefixes.

Shared pieces live in their own modules:

- `text.dfy`: the Python string operations the source relies on:
  - `strip` (over the full Unicode whitespace set);
  - `lower` and `title`;
  - the `in` substring test;
  - `replace(p, "")`;
  - `str(n)`.
- `records.dfy`: the record types (messages, tasks, preference values,
  stored sessions) and the service boundary.
- `tasklist.dfy`: the task-list operations both variants share.
- `history.dfy`: truncation, the context window and the payload.
- `commands.dfy`: the command decision of the first variant.

**How the outside world is modelled.**

- The completion service is a function parameter from requests to
  `Success(text)` or `Failure(error)`.
- The clock is a parameter holding one reading in the three renderings the
  source uses.
- A file write is a parameter: its outcome, `Pass` or `Fail(error)`.
- A file read is a parameter: `Parsed(record)` or `Unreadable(error)`.
- Each class method states its new state as a function of the old one.
- The properties the source promises are proved as lemmas about those
  functions.

**Behaviours of the code the model keeps on purpose:**

- Task ids are one more than the length of the list. After a deletion two
  tasks can share an id (`TaskList.IdsCollideAfterDelete`).
- The first variant looks for command phrases in the lower-cased text, but
  removes "add task" from the text as typed. "Add Task x" therefore keeps the
  capitalised phrase in the description
  (`Commands.CapitalisedPhraseStaysInDescription`).
- Any text that mentions "add task" is a task command, wherever the phrase
  sits (`Commands.AddTaskPhraseWins`). The phrase is removed from inside the
  text, so "please add task to my schedule" adds the task
  "please  to my schedule".
- The second variant's system prompt calls the number of all tasks
  "pending", including completed ones. The model follows the code.
- The second variant's summary counts the user messages and calls them
  "messages exchanged". The total it computes is never used.
- The first variant's `load_session` is not atomic. It replaces the user
  name, history and tasks before it merges the stored preferences. Stored
  preferences that are no mapping make that merge raise: the reply is the
  error, yet the other three fields have already changed
  (`Assistant.Restore`, `Assistant.LoadReply`).

## Model

| member | source | states |
|---|---|---|
| Assistant.PersonalAssistant.constructor | personal_assistant.py:144-180 | A new assistant has the four default preferences and no tasks. Its history holds only the system prompt, which names the user. |
| Assistant.InitialPrompt | personal_assistant.py:159-172 | The initial system prompt mentions the user's name. |
| Assistant.UpdatedPrompt | personal_assistant.py:369-378 | The rebuilt system prompt mentions the current user name. |
| History.AppendTruncated | personal_assistant.py:355-363 | An append below the limit just appends. Past 50 entries, the result is the first entry followed by the last 30 (31 entries). The new message is last, and a history within 50 stays within 50. |
| History.AppendAllBounded | personal_assistant.py:355-363 | Across any number of appends the history stays within 50 entries and keeps its first entry. |
| Assistant.PersonalAssistant.AddToHistory | personal_assistant.py:355-363 | The method's new history is the truncated append; nothing else changes. |
| History.ContextWindow | personal_assistant.py:365-367 | The window has min(20, length) entries: the final history entries in order, reduced to role and content. |
| History.ContextWindowEndsWithLatest | personal_assistant.py:365-367 | After an append, the window ends with the appended message. |
| Assistant.Renamed | personal_assistant.py:369-381 | The new prompt names the user. The first history entry, if it is a system entry, becomes that entry with the new prompt as content; otherwise it is unchanged. All other entries and fields are unchanged. |
| Assistant.PersonalAssistant.UpdateSystemPrompt | personal_assistant.py:369-381 | The method's new state is the renamed state. |
| Assistant.PersonalAssistant.ClearHistory | personal_assistant.py:346-353 | The history becomes a single system entry holding the current prompt; the reply is the fixed sentence. |
| TaskList.NewTask | personal_assistant.py:246-253 | The new task's id is the old length plus one. It has the given description and priority, is pending and is not completed. |
| TaskList.AddKeepsIdsSequential | personal_assistant.py:245-256 | Without deletions, ids stay 1, 2, 3, ... in list order. |
| Assistant.PersonalAssistant.AddTask | personal_assistant.py:245-256 | Exactly one task is appended at the end; earlier tasks and all other fields are unchanged. |
| Assistant.TaskLine | personal_assistant.py:264-268 | Each listing line starts with the completed or the pending glyph. |
| Assistant.LinesContains | personal_assistant.py:264-268 | Every task has its line in the listing. |
| Assistant.TaskListing | personal_assistant.py:258-270 | With no tasks the reply is the fixed sentence. Otherwise it is a prefix of the header plus one line per task, longer than the header, that ends with a visible character and is followed only by whitespace: only trailing whitespace is removed. |
| Assistant.ListingShowsEveryTask | personal_assistant.py:258-270 | Every task's line, up to its own trailing whitespace, is contained in the reply. |
| Assistant.PersonalAssistant.GetTasks | personal_assistant.py:258-270 | The loop that builds the listing produces exactly `TaskListing` of the tasks. |
| TaskList.FirstWithId | personal_assistant.py:272-274 | Finds the first position with the id. No earlier task has it, and the result is None exactly when no task has it. |
| TaskList.CompleteFirst | personal_assistant.py:272-279 | Only the first task with the id changes: it becomes completed at the given time. With no match the list is unchanged, and the ids are untouched. |
| TaskList.CompleteTwice | personal_assistant.py:272-277 | Completing an id twice has the effect of completing it once, at the later time. |
| Assistant.PersonalAssistant.CompleteTask | personal_assistant.py:272-279 | The scanning loop's new task list is `CompleteFirst`. The reply names the completed task, or says the id was not found. |
| Assistant.PersonalAssistant.SetPreference | personal_assistant.py:281-286 | An existing key takes the value. An unknown key changes nothing and gets the "Unknown preference" reply. The key set never changes. |
| Assistant.SummaryFigures | personal_assistant.py:292-301 | The counts are the role and status counts. User plus assistant messages are at most the total, and pending plus completed tasks at most the task count. |
| Records.RoleCountsPartition | personal_assistant.py:292-293 | The counts of the three roles add up to the history length. |
| Records.StatusCountsBounded | personal_assistant.py:300-301 | Two distinct statuses select at most all tasks together. |
| Assistant.ConversationSummary | personal_assistant.py:288-304 | With at most the system entry there is nothing to summarise. Otherwise the reply is the report with its padding stripped. |
| Assistant.SaveReply | personal_assistant.py:320-328 | The save reply is never empty: it names the file, or carries the error. |
| Assistant.PersonalAssistant.SaveSession | personal_assistant.py:306-328 | The state is unchanged. An empty file name stands for the timestamped default name. |
| Assistant.Restore | personal_assistant.py:336-339 | History and tasks are replaced, by empty lists when the file lacks them. The user name is kept when the file has none. Stored preferences are merged over the current ones, and other keys keep their values. Stored preferences that are no mapping leave the preferences unchanged, though the other fields were replaced. The default keys survive. |
| Assistant.LoadReply | personal_assistant.py:330-344 | The reply is an error exactly when the file could not be read or its preferences are no mapping; the error text is then in the reply. |
| Assistant.PersonalAssistant.LoadSession | personal_assistant.py:330-344 | A parsed file gives the `Restore` state, even when the preferences are rejected. An unreadable file changes nothing. The reply is `LoadReply`. |
| Commands.FirstMatch | personal_assistant.py:213-243 | Returns the first table row, from a start row on, with a phrase in the text. It returns None exactly when no row matches. |
| Commands.Classify | personal_assistant.py:213-243 | An add-task command carries a non-empty stripped description, and a name command a non-empty name. |
| Commands.ClassifyIsFirstMatch | personal_assistant.py:213-243 | The chain of tests is the first-match rule over the fixed table. There is no command exactly when no row matches, or when the name row matches with an empty name. |
| Commands.AddTaskPhraseWins | personal_assistant.py:216-221 | Any text whose lower-cased form mentions "add task" adds the remainder as a task, or asks for one when nothing remains. |
| Commands.AddTaskLine | personal_assistant.py:216-221 | "add task " plus a description adds that description; with nothing after it, the reply asks for one. |
| Commands.CapitalisedPhraseStaysInDescription | personal_assistant.py:216-217 | "Add Task ..." is a task command, and its description is the whole line, capitalised phrase included. |
| Assistant.ApplyCommand | personal_assistant.py:213-243 | There is a reply exactly when there is a command, and it is never empty. Only the add and clear-tasks commands change the tasks. Only the name command changes the user name and prompt. Only clear-history replaces the history. |
| Assistant.PersonalAssistant.ParseCommand | personal_assistant.py:213-243 | The method's new state and reply are those of `ApplyCommand` for the classified text. |
| Assistant.RequestFor | personal_assistant.py:196-202 | The request names the model and the configured maximum length. Its messages are the last min(20, length) history entries, in order, as role and content. |
| Assistant.Converse | personal_assistant.py:190-211 | The preferences are unchanged. The history is the one after the user entry and the command, with at most the reply appended as an assistant entry. |
| Assistant.RespondStep | personal_assistant.py:186-211 | `respond` as a state transition: the preferences are never changed. |
| Assistant.BlankInputChangesNothing | personal_assistant.py:187-188 | Whitespace-only text gets the fixed reply and leaves the whole state unchanged. |
| Assistant.CommandIgnoresService | personal_assistant.py:192-194 | A recognised command is answered the same whatever the completion service would say. |
| Assistant.ClearHistoryLeavesPrompt | personal_assistant.py:230-231 | A clear-history command leaves only the system prompt in the history. |
| Assistant.UserTurnKept | personal_assistant.py:190-207 | Unless the text clears the history, the user's text is the last or next-to-last history entry after the turn. |
| Assistant.AssistantTurnIffAnswered | personal_assistant.py:190-207 | The history ends with an assistant entry exactly when the text is no command and the service answered. |
| Assistant.FailureReplyCarriesError | personal_assistant.py:209-211 | When the service fails, the reply contains the error text and only the user turn was added. |
| Assistant.ConversationKeepsTasks | personal_assistant.py:196-207 | A conversation turn leaves tasks, user name and prompt unchanged. |
| Assistant.TurnKeepsHistoryBound | personal_assistant.py:355-363 | A history within 50 entries stays within 50 across a whole turn. |
| Assistant.PersonalAssistant.Respond | personal_assistant.py:186-211 | The method's new state and reply are `RespondStep`, and the default preference keys survive. |
| TaskList.WithoutId | src/personal_assistant.py:110-113 | Every task with the id goes and every other task stays; with no match the list is unchanged. |
| TaskList.WithoutIdKeepsOrder | src/personal_assistant.py:110-113 | Deleting from a concatenation deletes from each part, so the remaining order is kept. |
| TaskList.IdsCollideAfterDelete | src/personal_assistant.py:77-113 | Add two tasks, delete the first, add one more: two tasks now have id 2. |
| PersistentAssistant.PersonalAssistant.DeleteTask | src/personal_assistant.py:110-113 | The new task list is `WithoutId`; nothing else changes. |
| PersistentAssistant.PromptFor | src/personal_assistant.py:39-45 | The prompt mentions the user's name and the number of tasks. |
| History.Payload | src/personal_assistant.py:47-54 | The payload is one system message with the prompt, then only user and assistant entries. It has at most 11 messages. |
| History.DialogueTail | src/personal_assistant.py:49-54 | The dialogue part has at most ten entries, all user or assistant entries. |
| History.PayloadEndsWithLatest | src/personal_assistant.py:47-54 | A user or assistant entry just appended is the last message of the payload. |
| History.BuildPayload | src/personal_assistant.py:47-54 | The loop that builds the message list produces exactly `Payload`. |
| PersistentAssistant.Conversation | src/personal_assistant.py:31-75 | The history grows by one or two entries and always begins with the old history plus the user entry. Tasks, preferences and names are unchanged. |
| PersistentAssistant.RequestOf | src/personal_assistant.py:33-61 | The request names the model and 500 tokens. It has 2 to 11 messages: first a system prompt naming the user, then no other system message, and last the user's text. |
| PersistentAssistant.AnsweredIffServiceSucceeded | src/personal_assistant.py:56-69 | The history ends with an assistant entry, and grew by two, exactly when the service answered. |
| PersistentAssistant.ReplyReportsFailures | src/personal_assistant.py:63-75 | A service failure or a failed save yields a reply containing the error. Otherwise the reply is the answer itself. |
| PersistentAssistant.TurnsOnlyAppend | src/personal_assistant.py:31-75 | Over any sequence of turns the history only grows: at least one entry per turn, with the old history kept as a prefix. |
| PersistentAssistant.PersonalAssistant.Respond | src/personal_assistant.py:31-75 | The method's new state and reply are `Conversation`. |
| PersistentAssistant.PersonalAssistant.AddTask | src/personal_assistant.py:77-88 | Exactly one pending, uncompleted task is appended, with id equal to the old length plus one. |
| PersistentAssistant.ReportLine | src/personal_assistant.py:97 | Each report line starts with the bullet. |
| PersistentAssistant.TaskReport | src/personal_assistant.py:90-99 | The reply is "No {status} tasks found." exactly when no task has the status. Otherwise it is the lines of the matching tasks, in list order, joined by newlines. |
| PersistentAssistant.ReportListsEveryMatch | src/personal_assistant.py:90-99 | Every task with the status has its line in the report. |
| PersistentAssistant.PersonalAssistant.GetTasks | src/personal_assistant.py:90-99 | The loop that collects the lines produces exactly `TaskReport`. |
| PersistentAssistant.CompletionReply | src/personal_assistant.py:101-108 | The reply is "Task not found." exactly when no task has the id. |
| PersistentAssistant.PersonalAssistant.CompleteTask | src/personal_assistant.py:101-108 | The scanning loop's new task list is `CompleteFirst`: only the first match changes. |
| PersistentAssistant.PersonalAssistant.SetPreference | src/personal_assistant.py:115-118 | Any key, new or old, takes the value; all other keys are unchanged. |
| PersistentAssistant.Summary | src/personal_assistant.py:120-127 | The reply is the fixed sentence exactly when the history is empty. Otherwise it contains the user-message count and the task count. |
| PersistentAssistant.PersonalAssistant.GetConversationSummary | src/personal_assistant.py:120-127 | The reply is `Summary` of the history and tasks. |
| PersistentAssistant.Cleared | src/personal_assistant.py:154-159 | History, tasks and preferences are empty; the names are kept. |
| PersistentAssistant.PersonalAssistant.ClearSession | src/personal_assistant.py:154-159 | The method's new state is `Cleared`. |
| PersistentAssistant.SavedRecord | src/personal_assistant.py:129-139 | The file holds history, tasks and preferences, but not the user name. |
| PersistentAssistant.PersonalAssistant.SaveSession | src/personal_assistant.py:129-139 | The record written is `SavedRecord` of the state. |
| PersistentAssistant.Loaded | src/personal_assistant.py:141-152 | A missing or unreadable file changes nothing. Otherwise history, tasks and preferences are replaced, by empty ones when absent, and the user name is never loaded. |
| PersistentAssistant.PersonalAssistant.LoadSession | src/personal_assistant.py:141-152 | The method's new state is `Loaded`. |
| PersistentAssistant.LoadAfterSave | src/personal_assistant.py:129-152 | Loading what was saved for the same user restores the whole state. |
| PersistentAssistant.PersonalAssistant.constructor | src/personal_assistant.py:12-29 | A new assistant starts empty and then loads the user's file. |
| Cli.NumeralValue | src/personal_assistant.py:189 | A numeral must start and end with a digit. A plain run of digits reads as its decimal value. |
| Cli.ParseInt | src/personal_assistant.py:189 | Accepted text, once stripped, is at most a sign then digits and underscores, and ends with a digit. Stripped text of digits only reads as its decimal value. |
| Cli.ParseIntOfIntToString | src/personal_assistant.py:189 | `int(str(n)) == n` for every integer. |
| Cli.NonNumberRejected | src/personal_assistant.py:188-192 | Text that starts with neither a digit nor a sign is no integer. |
| Cli.Route | src/personal_assistant.py:168-197 | An add action carries the stripped line after "add task ", a completion needs the "complete task " prefix, and conversation carries the stripped line. |
| Cli.RouteAddTask | src/personal_assistant.py:182-184 | "add task " plus a description adds exactly that description. |
| Cli.RouteCompletePrefix | src/personal_assistant.py:187-192 | A stripped line starting with "complete task " completes the id its rest reads as, or reports an invalid id. |
| Cli.RouteCompleteTask | src/personal_assistant.py:187-190 | "complete task " plus a rendered id completes that id. |
| Cli.RouteCompleteNonNumber | src/personal_assistant.py:187-192 | "complete task " plus text that cannot start a number gets the invalid-id reply. |
| PersistentAssistant.Dispatch | src/personal_assistant.py:167-198 | The loop stops exactly on a quit word. Only conversation, add, complete and clear lines change the state. |
| PersistentAssistant.OnlyTalkReachesService | src/personal_assistant.py:168-198 | A line the loop handles itself is answered the same whatever the service would say. |
| PersistentAssistant.AddTaskLineAppends | src/personal_assistant.py:182-184 | An "add task " line appends one task with that description and the next id, leaves the history alone, and keeps the loop going. |
| PersistentAssistant.CompleteTaskLineCompletes | src/personal_assistant.py:187-190 | A "complete task N" line completes the first task with id N. It prints "Task not found." exactly when there is none. |
| PersistentAssistant.PersonalAssistant.Handle | src/personal_assistant.py:167-198 | The method's printed line, new state and continue flag are `Dispatch`. |

## Left out

- The remote completion service is a parameter. The model does not cover the client object, the API key check, `temperature`, or the service returning no content.
- Timestamps are opaque strings. A call reads the clock once, although the source reads it again for each entry it writes.
- The prose of the system prompts and of the help text is shortened. Only the places where the names and the task count go are kept.
- File writing and reading are their outcomes. Paths, directory creation, JSON encoding and the `last_updated`/`saved_at` fields are not modelled.
- PersistentAssistant.PersonalAssistant.AddTask: the save that follows is assumed to succeed. The same holds for the second variant's `complete_task`, `delete_task`, `set_preference` and `clear_session`; a failure there would raise out of the method. Only the save inside `respond` can fail in the model.
- `lower`, `title` and `int` follow ASCII letters and digits. Python also maps other Unicode letters and accepts other Unicode digits.
- Preference values are strings, integers or booleans, as the defaults are. The source also stores any other value that `set_preference` is given or that a session file holds (floats, null, lists, objects).
- Loaded history entries and tasks are well-typed records: three roles, integer ids, string fields. A malformed session file, which the source would only fail on later with a `KeyError` or `TypeError`, is not modelled.
- Stored preferences are a JSON object or another value that `dict.update` refuses. A list of key-value pairs, which `dict.update` would accept, is treated as refused.
- PersistentAssistant.Loaded: stored preferences that are no JSON object are taken as no preferences. The second variant assigns such a value as it is, so its later preference calls would fail on it; the model's preferences are always a map.
- The welcome message that the first variant's constructor prints is not modelled.
- Both interactive loops are not modelled as loops. Reading lines and printing are I/O; one pass of the second variant's loop is modelled as `Handle`.
- The first variant's `interactive_session` and the web applications are not part of this model, nor are the configuration module, the demo script and the multi-agent script.
- The `due_date` field of the first variant's tasks is not modelled.
