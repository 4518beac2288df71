/** The decision part of `_parse_command`: which command a line of user text
    is, tried in a fixed order on the lower-cased text, first match wins. */
module Commands {
  import opened Text
  import opened Records

  /** The command families, in the order they are tried. */
  datatype Intent = AddTaskIntent | ShowTasksIntent | ClearTasksIntent
                  | ClearHistoryIntent | SaveSessionIntent | NameIntent

  /** The trigger phrases of each family, in the order they are tried. */
  const CommandTable: seq<(Intent, seq<string>)> := [
    (AddTaskIntent, ["add task", "new task"]),
    (ShowTasksIntent, ["show tasks", "my tasks", "list tasks"]),
    (ClearTasksIntent, ["clear tasks"]),
    (ClearHistoryIntent, ["clear history", "clear conversation"]),
    (SaveSessionIntent, ["save session"]),
    (NameIntent, ["my name is"])
  ]

  /** Some phrase of the list occurs in the text. */
  predicate MentionsAny(text: string, phrases: seq<string>) {
    exists k :: 0 <= k < |phrases| && Contains(text, phrases[k])
  }

  /** The first row of the table, from row `from` on, one of whose phrases
      occurs in the text. */
  function FirstMatch(text: string, table: seq<(Intent, seq<string>)>, from: nat): (r: Option<nat>)
    requires from <= |table|
    ensures r.Some? ==> from <= r.value < |table| && MentionsAny(text, table[r.value].1)
    ensures r.Some? ==> forall j :: from <= j < r.value ==> !MentionsAny(text, table[j].1)
    ensures r.None? <==> forall j :: from <= j < |table| ==> !MentionsAny(text, table[j].1)
    decreases |table| - from
  {
    if from == |table| then None
    else if MentionsAny(text, table[from].1) then Some(from)
    else FirstMatch(text, table, from + 1)
  }

  /** What `_parse_command` does with a line of text. */
  datatype Command =
    | AddTask(description: string)
    | AskForTask
    | ShowTasks
    | ClearTasks
    | ClearHistory
    | SaveSession
    | SetName(name: string)
    | NoCommand
  {
    /** The family a command belongs to; `NoCommand` belongs to none. */
    function Family(): Option<Intent> {
      match this
      case AddTask(_) => Some(AddTaskIntent)
      case AskForTask => Some(AddTaskIntent)
      case ShowTasks => Some(ShowTasksIntent)
      case ClearTasks => Some(ClearTasksIntent)
      case ClearHistory => Some(ClearHistoryIntent)
      case SaveSession => Some(SaveSessionIntent)
      case SetName(_) => Some(NameIntent)
      case NoCommand => None
    }
  }

  /** The description an "add task" line carries: the phrases are removed
      from the text as typed, so only their lower-case spellings go. */
  function TaskText(input: string): string {
    Strip(Remove(Remove(input, "add task"), "new task"))
  }

  /** The name a "my name is" line carries, in title case. */
  function NameText(input: string): string {
    Title(Strip(Remove(Lower(input), "my name is")))
  }

  /** The chain of tests of `_parse_command`, in source order. The phrases are
      looked for in the lower-cased text. */
  function Classify(input: string): (c: Command)
    ensures c.AddTask? ==> c.description != [] && !IsSpace(c.description[0])
                           && !IsSpace(c.description[|c.description| - 1])
    ensures c.SetName? ==> c.name != []
  {
    var low := Lower(input);
    if Contains(low, "add task") || Contains(low, "new task") then
      var text := TaskText(input);
      if text != [] then AddTask(text) else AskForTask
    else if Contains(low, "show tasks") || Contains(low, "my tasks") || Contains(low, "list tasks") then
      ShowTasks
    else if Contains(low, "clear tasks") then
      ClearTasks
    else if Contains(low, "clear history") || Contains(low, "clear conversation") then
      ClearHistory
    else if Contains(low, "save session") then
      SaveSession
    else if Contains(low, "my name is") then
      var name := NameText(input);
      if name != [] then SetName(name) else NoCommand
    else
      NoCommand
  }

  lemma MentionsRows(low: string)
    ensures MentionsAny(low, CommandTable[0].1) <==> Contains(low, "add task") || Contains(low, "new task")
    ensures MentionsAny(low, CommandTable[1].1) <==>
            Contains(low, "show tasks") || Contains(low, "my tasks") || Contains(low, "list tasks")
    ensures MentionsAny(low, CommandTable[2].1) <==> Contains(low, "clear tasks")
    ensures MentionsAny(low, CommandTable[3].1) <==> Contains(low, "clear history") || Contains(low, "clear conversation")
    ensures MentionsAny(low, CommandTable[4].1) <==> Contains(low, "save session")
    ensures MentionsAny(low, CommandTable[5].1) <==> Contains(low, "my name is")
  {
    var t := CommandTable;
    assert t[0].1[0] == "add task" && t[0].1[1] == "new task";
    assert t[1].1[0] == "show tasks" && t[1].1[1] == "my tasks" && t[1].1[2] == "list tasks";
    assert t[2].1[0] == "clear tasks";
    assert t[3].1[0] == "clear history" && t[3].1[1] == "clear conversation";
    assert t[4].1[0] == "save session";
    assert t[5].1[0] == "my name is";
  }

  /** Which row the first-match rule picks, in terms of the phrase tests. */
  lemma FirstMatchRows(low: string)
    ensures var m := FirstMatch(low, CommandTable, 0);
            && (Contains(low, "add task") || Contains(low, "new task") ==> m == Some(0))
            && (!(Contains(low, "add task") || Contains(low, "new task")) ==>
                && (Contains(low, "show tasks") || Contains(low, "my tasks") || Contains(low, "list tasks") ==> m == Some(1))
                && (!(Contains(low, "show tasks") || Contains(low, "my tasks") || Contains(low, "list tasks")) ==>
                    && (Contains(low, "clear tasks") ==> m == Some(2))
                    && (!Contains(low, "clear tasks") ==>
                        && (Contains(low, "clear history") || Contains(low, "clear conversation") ==> m == Some(3))
                        && (!(Contains(low, "clear history") || Contains(low, "clear conversation")) ==>
                            && (Contains(low, "save session") ==> m == Some(4))
                            && (!Contains(low, "save session") ==>
                                && (Contains(low, "my name is") ==> m == Some(5))
                                && (!Contains(low, "my name is") ==> m == None))))))
  {
    var t := CommandTable;
    MentionsRows(low);
    var m := FirstMatch(low, t, 0);
    if !MentionsAny(low, t[0].1) {
      assert m == FirstMatch(low, t, 1);
      if !MentionsAny(low, t[1].1) {
        assert m == FirstMatch(low, t, 2);
        if !MentionsAny(low, t[2].1) {
          assert m == FirstMatch(low, t, 3);
          if !MentionsAny(low, t[3].1) {
            assert m == FirstMatch(low, t, 4);
            if !MentionsAny(low, t[4].1) {
              assert m == FirstMatch(low, t, 5);
              if !MentionsAny(low, t[5].1) {
                assert m == FirstMatch(low, t, 6);
              }
            }
          }
        }
      }
    }
  }

  /** The chain of tests is the first-match rule over the table: a command's
      family is the first row with a phrase in the lower-cased text, and there
      is no command exactly when no row matches or the name is empty. */
  lemma ClassifyIsFirstMatch(input: string)
    ensures var c := Classify(input);
            var m := FirstMatch(Lower(input), CommandTable, 0);
            && (c.Family().Some? ==> m.Some? && CommandTable[m.value].0 == c.Family().value)
            && (c == NoCommand <==> m.None? || (m == Some(5) && NameText(input) == []))
  {
    FirstMatchRows(Lower(input));
    var t := CommandTable;
    assert t[0].0 == AddTaskIntent && t[1].0 == ShowTasksIntent && t[2].0 == ClearTasksIntent;
    assert t[3].0 == ClearHistoryIntent && t[4].0 == SaveSessionIntent && t[5].0 == NameIntent;
    match Classify(input)
    case AddTask(_) =>
    case AskForTask =>
    case ShowTasks =>
    case ClearTasks =>
    case ClearHistory =>
    case SaveSession =>
    case SetName(_) =>
    case NoCommand =>
  }

  /** Any line whose lower-cased text mentions "add task" is an add-task
      command, wherever the phrase sits: it adds the stripped remainder as a
      task, or asks for a description when nothing remains. Such a line never
      reaches the completion service. */
  lemma AddTaskPhraseWins(input: string)
    requires Contains(Lower(input), "add task")
    ensures Classify(input) == (if TaskText(input) == [] then AskForTask else AddTask(TaskText(input)))
  {
  }

  /** A line starting with "add task" mentions the phrase. */
  lemma LowerOfPhraseLine(input: string, d: string)
    requires input == "add task " + d
    ensures Contains(Lower(input), "add task")
  {
    var low := Lower(input);
    assert low[..8] == "add task";
  }

  /** After a leading "add task", the description is the rest, stripped. */
  lemma TaskTextAfterPhrase(input: string, d: string)
    requires input == "add task " + d
    requires !Contains(" " + d, "add task") && !Contains(" " + d, "new task")
    ensures TaskText(input) == Strip(" " + d)
  {
    assert input[..8] == "add task" && input[8..] == " " + d;
    assert Remove(input, "add task") == " " + d;
  }

  /** "add task " followed by a description adds that description; "add task"
      with nothing after it asks for one. */
  lemma AddTaskLine(input: string, d: string)
    requires input == "add task " + d
    requires !Contains(" " + d, "add task") && !Contains(" " + d, "new task")
    requires d == [] || (!IsSpace(d[0]) && !IsSpace(d[|d| - 1]))
    ensures Classify(input) == (if d == [] then AskForTask else AddTask(d))
  {
    LowerOfPhraseLine(input, d);
    AddTaskPhraseWins(input);
    TaskTextAfterPhrase(input, d);
    if d == [] {
      StripBlank(" ");
    } else {
      StripPadded(" ", d, []);
      assert " " + d + [] == " " + d;
    }
  }

  /** A line starting with a capitalised "Add Task" mentions the phrase once
      lower-cased. */
  lemma LowerOfCapitalisedLine(input: string, d: string)
    requires input == "Add Task" + d
    ensures Contains(Lower(input), "add task")
  {
    var low := Lower(input);
    assert low[..8] == "add task";
  }

  /** A line that starts with a capitalised "Add Task" is still an add-task
      command (the test is on the lower-cased text), but the phrase is not
      removed from the description (the removal is on the text as typed). */
  lemma CapitalisedPhraseStaysInDescription(input: string, d: string)
    requires input == "Add Task" + d
    requires !Contains(input, "add task") && !Contains(input, "new task")
    requires d == [] || !IsSpace(d[|d| - 1])
    ensures Classify(input) == AddTask(input)
  {
    LowerOfCapitalisedLine(input, d);
    AddTaskPhraseWins(input);
    assert input[0] == 'A';
    StripPadded([], input, []);
    assert [] + input + [] == input;
  }
}
