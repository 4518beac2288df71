/** The values both assistant variants keep in memory: role-tagged messages,
    task records, preference values, the stored-session record and the
    boundary to the remote chat-completion service. */
module Records {
  import opened Text

  datatype Option<+T> = None | Some(value: T) {
    function GetOr(default: T): T {
      match this
      case Some(v) => v
      case None => default
    }
  }

  /** A reading of the clock, as `datetime.now().isoformat()` renders it;
      the model never looks inside it. */
  type Timestamp = string

  /** One reading of the clock in the three renderings the source uses:
      `isoformat()`, `'%Y-%m-%d %H:%M:%S'` and `'%Y%m%d_%H%M%S'`. */
  datatype Clock = Clock(iso: Timestamp, display: string, compact: string)

  datatype Role = System | User | Assistant

  /** One entry of the conversation history. */
  datatype Message = Message(role: Role, content: string, timestamp: Timestamp)

  /** A history entry as it is sent to the completion service: role and
      content, no timestamp. */
  datatype ChatMessage = ChatMessage(role: Role, content: string)

  /** A preference value. The defaults are strings, integers and booleans;
      the model keeps to these kinds, although the source stores any value
      it is given or loads. */
  datatype Value = Str(s: string) | Num(n: int) | Flag(b: bool)

  /** Python's `str(value)` for a preference value. */
  function ValueText(v: Value): (r: string)
    ensures v.Str? ==> r == v.s
    ensures v.Num? ==> r == IntToString(v.n)
    ensures v.Flag? ==> r == (if v.b then "True" else "False")
  {
    match v
    case Str(s) => s
    case Num(n) => IntToString(n)
    case Flag(b) => if b then "True" else "False"
  }

  /** A task record. `completed` is absent until the task is completed
      (`completed_at` in one variant, `completed` in the other). */
  datatype Task = Task(
    id: int,
    description: string,
    priority: string,
    status: string,
    created: Timestamp,
    completed: Option<Timestamp>)

  /** What a session file yields once parsed: each field is present or not,
      as `session_data.get(key, default)` sees it. */
  datatype SessionRecord = SessionRecord(
    userName: Option<string>,
    history: Option<seq<Message>>,
    tasks: Option<seq<Task>>,
    preferences: Option<StoredPreferences>)

  /** A stored preferences value: a JSON object, or any other JSON value
      (null, a number, a string, a list), which `dict.update` refuses with
      the given error text. */
  datatype StoredPreferences = Mapping(entries: map<string, Value>) | NotMapping(error: string)

  /** The entries a stored preferences value contributes: none when it is
      missing or not a mapping. */
  function Entries(p: Option<StoredPreferences>): (r: map<string, Value>)
    ensures p.Some? && p.value.Mapping? ==> r == p.value.entries
    ensures p.None? || p.value.NotMapping? ==> r == map[]
  {
    match p
    case Some(Mapping(entries)) => entries
    case _ => map[]
  }

  /** The model both variants ask the completion service for. */
  const ModelName := "llama-3.1-8b-instant"

  /** One request to the completion service. */
  datatype Request = Request(model: string, messages: seq<ChatMessage>, maxTokens: Value)

  /** The answer of the completion service: the generated text, or the
      description of the exception the client raised. */
  datatype CallResult = Success(text: string) | Failure(error: string)

  /** The completion service, as an oracle the caller supplies. */
  type Completion = Request -> CallResult

  /** The outcome of a file write: done, or the exception text. */
  datatype Outcome = Pass | Fail(error: string)

  /** The outcome of reading and parsing a session file: the record, or the
      exception text. */
  datatype Read = Parsed(record: SessionRecord) | Unreadable(error: string)

  /** A list comprehension `[x for x in s if keep(x)]`. */
  function Filter<T>(s: seq<T>, keep: T -> bool): (r: seq<T>)
    ensures |r| <= |s|
    ensures forall k :: 0 <= k < |r| ==> keep(r[k]) && r[k] in s
    ensures forall k :: 0 <= k < |s| && keep(s[k]) ==> s[k] in r
  {
    if s == [] then []
    else (if keep(s[0]) then [s[0]] else []) + Filter(s[1..], keep)
  }

  /** Filtering commutes with concatenation: the kept elements stay in the
      order in which they appear. */
  lemma {:induction false} FilterAppend<T>(a: seq<T>, b: seq<T>, keep: T -> bool)
    ensures Filter(a + b, keep) == Filter(a, keep) + Filter(b, keep)
  {
    if a == [] {
      assert a + b == b;
    } else {
      assert (a + b)[1..] == a[1..] + b;
      FilterAppend(a[1..], b, keep);
    }
  }

  /** A filter that drops nothing is the identity. */
  lemma {:induction false} FilterKeepsAll<T>(s: seq<T>, keep: T -> bool)
    ensures (forall k :: 0 <= k < |s| ==> keep(s[k])) ==> Filter(s, keep) == s
  {
    if s != [] {
      FilterKeepsAll(s[1..], keep);
    }
  }

  /** Python's `s[-n:]`: the last `n` elements, or all of them. */
  function LastN<T>(s: seq<T>, n: nat): (r: seq<T>)
    ensures |r| == if |s| < n then |s| else n
    ensures forall k :: 0 <= k < |r| ==> r[k] == s[|s| - |r| + k]
  {
    if |s| <= n then s else s[|s| - n..]
  }

  function Chat(m: Message): ChatMessage {
    ChatMessage(m.role, m.content)
  }

  /** `[{"role": m["role"], "content": m["content"]} for m in ms]`. */
  function ChatView(ms: seq<Message>): (r: seq<ChatMessage>)
    ensures |r| == |ms|
    ensures forall k :: 0 <= k < |ms| ==> r[k] == Chat(ms[k])
  {
    seq(|ms|, k requires 0 <= k < |ms| => Chat(ms[k]))
  }

  /** Projecting a concatenation projects each part. */
  lemma ChatViewAppend(a: seq<Message>, b: seq<Message>)
    ensures ChatView(a + b) == ChatView(a) + ChatView(b)
  {
  }

  lemma AppendAssoc<T>(a: seq<T>, b: seq<T>, c: seq<T>)
    ensures a + b + c == a + (b + c)
  {
  }

  /** The number of history entries with the given role. */
  function CountRole(h: seq<Message>, role: Role): (n: nat)
    ensures n <= |h|
  {
    |Filter(h, (m: Message) => m.role == role)|
  }

  /** Every message has one of the three roles, so the per-role counts add up
      to the length of the history. */
  lemma {:induction false} RoleCountsPartition(h: seq<Message>)
    ensures CountRole(h, System) + CountRole(h, User) + CountRole(h, Assistant) == |h|
  {
    if h != [] {
      assert h == [h[0]] + h[1..];
      FilterAppend([h[0]], h[1..], (m: Message) => m.role == System);
      FilterAppend([h[0]], h[1..], (m: Message) => m.role == User);
      FilterAppend([h[0]], h[1..], (m: Message) => m.role == Assistant);
      RoleCountsPartition(h[1..]);
    }
  }

  /** The number of tasks with the given status. */
  function CountStatus(tasks: seq<Task>, status: string): (n: nat)
    ensures n <= |tasks|
  {
    |Filter(tasks, (t: Task) => t.status == status)|
  }

  /** Distinct statuses select disjoint tasks, so their counts add up to at
      most the number of tasks. */
  lemma {:induction false} StatusCountsBounded(tasks: seq<Task>, a: string, b: string)
    requires a != b
    ensures CountStatus(tasks, a) + CountStatus(tasks, b) <= |tasks|
  {
    if tasks != [] {
      assert tasks == [tasks[0]] + tasks[1..];
      FilterAppend([tasks[0]], tasks[1..], (t: Task) => t.status == a);
      FilterAppend([tasks[0]], tasks[1..], (t: Task) => t.status == b);
      StatusCountsBounded(tasks[1..], a, b);
    }
  }
}
