/**
 * The assistant's own tools (ai_agent.py): the tool table it registers,
 * the reply it builds around one agent run, and the three task tools that
 * work directly on the `tasks` table shared with the REST routes.
 *
 * The language model and the agent loop that picks tools belong to
 * LangChain and are not modelled: an agent run enters `ProcessMessage` as
 * its outcome.
 */
module Agent {
  import opened Common
  import opened Text
  import opened Ranking
  import opened Tasks

  // ---------------------------------------------------------------------
  // Tool table (`_create_tools`)

  datatype ToolKind = GetWeather | CreateTask | ListTasks | CompleteTask | GetCurrentTime

  function ToolName(k: ToolKind): string
  {
    match k
    case GetWeather => "get_weather"
    case CreateTask => "create_task"
    case ListTasks => "list_tasks"
    case CompleteTask => "complete_task"
    case GetCurrentTime => "get_current_time"
  }

  /** The tools in the order they are registered. */
  const Registered: seq<ToolKind> := [GetWeather, CreateTask, ListTasks, CompleteTask, GetCurrentTime]

  /** The agent picks a tool by name, so no two registered tools share a
      name, and every tool is registered. */
  lemma RegisteredNamesDistinct()
    ensures forall i, j :: 0 <= i < j < |Registered| ==> ToolName(Registered[i]) != ToolName(Registered[j])
    ensures forall k: ToolKind :: k in Registered
  {
    forall k: ToolKind
      ensures k in Registered
    {
      match k
      case GetWeather => assert Registered[0] == k;
      case CreateTask => assert Registered[1] == k;
      case ListTasks => assert Registered[2] == k;
      case CompleteTask => assert Registered[3] == k;
      case GetCurrentTime => assert Registered[4] == k;
    }
  }

  // ---------------------------------------------------------------------
  // `process_message`

  /** What one agent run did: produced a result, whose `output` key may be
      missing, or raised an exception with a message. */
  datatype AgentRun = Answered(output: Option<string>) | Raised(message: string)

  /** The dictionary `process_message` returns. */
  datatype ChatResult = ChatResult(response: string, conversationId: string, success: bool, error: Option<string>)

  const FallbackAnswer := "I'm not sure how to help with that."
  const ErrorAnswer := "I encountered an error processing your request. Please try again."

  /** `conversation_id or "new"`. */
  function ConversationOr(conversationId: Option<string>): (c: string)
    ensures conversationId.Some? && conversationId.value != "" ==> c == conversationId.value
    ensures conversationId.None? || conversationId.value == "" ==> c == "new"
  {
    match conversationId
    case Some(c) => if c != "" then c else "new"
    case None => "new"
  }

  /** `process_message`: always a result; it succeeds exactly when the run
      did, and a failed run reports the exception's text. */
  function ProcessMessage(run: AgentRun, conversationId: Option<string>): (r: ChatResult)
    ensures r.success <==> run.Answered?
    ensures r.conversationId == ConversationOr(conversationId) && r.conversationId != ""
    ensures run.Raised? ==> r.response == ErrorAnswer && r.error == Some(run.message)
    ensures run.Answered? && run.output.Some? ==> r.response == run.output.value && r.error.None?
    ensures run.Answered? && run.output.None? ==> r.response == FallbackAnswer && r.error.None?
  {
    match run
    case Answered(output) =>
      ChatResult(match output { case Some(o) => o case None => FallbackAnswer },
                 ConversationOr(conversationId), true, None)
    case Raised(message) =>
      ChatResult(ErrorAnswer, ConversationOr(conversationId), false, Some(message))
  }

  // ---------------------------------------------------------------------
  // `_create_task`

  /** `task_description[:100]`. */
  function TitleOf(description: string): (title: string)
    ensures |title| == Min(100, |description|)
    ensures title <= description
  {
    description[..Min(100, |description|)]
  }

  /** `_create_task`: one new pending, medium-priority task without tags,
      titled by the first 100 characters of the text and described by all
      of it. */
  method CreateTaskTool(table: TaskTable, description: string, now: int) returns (reply: string)
    requires table.Valid()
    modifies table
    ensures table.Valid()
    ensures exists id :: (id !in old(table.tasks) &&
      table.tasks == old(table.tasks)[id := Task(id, TitleOf(description), Some(description), Pending, Medium, None, [], now, now)])
    ensures reply == "Task created successfully: '" + description + "'"
  {
    var t := table.Insert(TitleOf(description), Some(description), Pending, Medium, None, [], now);
    reply := "Task created successfully: '" + description + "'";
  }

  // ---------------------------------------------------------------------
  // `_list_tasks`

  const NoPendingText := "You have no pending tasks."
  const PendingHeader := "Your pending tasks:\n"

  ghost function PendingIds(table: map<nat, Task>): set<nat>
  {
    set k | k in table && table[k].status == Pending
  }

  /** `f"{i}. {task.title}\n"`. */
  function Line(i: nat, t: Task): string
  {
    NatToString(i) + ". " + t.title + "\n"
  }

  /** One line per task, numbered from `first`. */
  function Numbered(ts: seq<Task>, first: nat): string
    decreases |ts|
  {
    if ts == [] then ""
    else Numbered(ts[..|ts| - 1], first) + Line(first + |ts| - 1, ts[|ts| - 1])
  }

  /** `_list_tasks`: up to ten pending tasks, numbered from 1, or the
      fixed text when there are none. */
  method ListTasksTool(table: TaskTable) returns (reply: string, shown: seq<Task>)
    requires table.Valid()
    ensures |shown| == Min(10, |PendingIds(table.tasks)|)
    ensures forall i :: 0 <= i < |shown| ==>
      shown[i].id in table.tasks && table.tasks[shown[i].id] == shown[i] && shown[i].status == Pending
    ensures forall i, j :: 0 <= i < j < |shown| ==> shown[i].id != shown[j].id
    ensures shown == [] ==> reply == NoPendingText
    ensures shown != [] ==> reply == PendingHeader + Numbered(shown, 1)
  {
    shown := PendingRows(table.tasks);
    reply := FormatListing(shown);
  }

  /** The query `status == "pending" LIMIT 10`. */
  method PendingRows(rows: map<nat, Task>) returns (shown: seq<Task>)
    requires forall k :: k in rows ==> rows[k].id == k
    ensures |shown| == Min(10, |PendingIds(rows)|)
    ensures forall i :: 0 <= i < |shown| ==>
      shown[i].id in rows && rows[shown[i].id] == shown[i] && shown[i].status == Pending
    ensures forall i, j :: 0 <= i < j < |shown| ==> shown[i].id != shown[j].id
  {
    var pending := set k | k in rows && rows[k].status == Pending;
    assert pending == PendingIds(rows);
    IdOrder(pending);
    var ids := TakeSorted(pending, (a: nat, b: nat) => a < b, Min(10, |pending|));
    shown := seq(|ids|, i requires 0 <= i < |ids| => rows[ids[i]]);
    forall i | 0 <= i < |shown|
      ensures shown[i].id == ids[i]
    {
      assert ids[i] in rows;
    }
  }

  /** The reply text: the fixed sentence for no rows, else the header and
      one numbered line per row. */
  method FormatListing(shown: seq<Task>) returns (reply: string)
    ensures shown == [] ==> reply == NoPendingText
    ensures shown != [] ==> reply == PendingHeader + Numbered(shown, 1)
  {
    if shown == [] {
      return NoPendingText;
    }
    reply := PendingHeader;
    for i := 0 to |shown|
      invariant reply == PendingHeader + Numbered(shown[..i], 1)
    {
      assert shown[..i + 1][..i] == shown[..i];
      assert Numbered(shown[..i + 1], 1) == Numbered(shown[..i], 1) + Line(i + 1, shown[i]);
      reply := reply + Line(i + 1, shown[i]);
    }
    assert shown[..|shown|] == shown;
  }

  /** Ids in increasing order, the order the model lists rows that the
      query leaves unordered. */
  lemma IdOrder(ids: set<nat>)
    ensures StrictOrder((a: nat, b: nat) => a < b, ids)
  {
  }

  // ---------------------------------------------------------------------
  // `_complete_task`

  /** `Task.title.ilike('%' + identifier + '%')`: the title contains the
      identifier, ignoring letter case. */
  predicate TitleMatches(t: Task, identifier: string)
  {
    Contains(Lower(t.title), Lower(identifier))
  }

  predicate Completable(t: Task, identifier: string)
  {
    t.status == Pending && TitleMatches(t, identifier)
  }

  /** `_complete_task`: marks one pending task whose title matches as
      completed, or changes nothing when none matches. */
  method CompleteTaskTool(table: TaskTable, identifier: string, now: int) returns (reply: string, completed: Option<nat>)
    requires table.Valid()
    modifies table
    ensures table.Valid()
    ensures completed.None? <==> forall k :: k in old(table.tasks) ==> !Completable(old(table.tasks)[k], identifier)
    ensures completed.None? ==>
      table.tasks == old(table.tasks) && reply == "No pending task found matching '" + identifier + "'"
    ensures completed.Some? ==>
      var k := completed.value;
      && k in old(table.tasks) && Completable(old(table.tasks)[k], identifier)
      && table.tasks == old(table.tasks)[k := old(table.tasks)[k].(status := Completed, updatedAt := now)]
      && reply == "Task completed: '" + old(table.tasks)[k].title + "'"
  {
    var rows := table.tasks;
    var matching := set k | k in rows && Completable(rows[k], identifier);
    if matching == {} {
      assert forall k :: k in rows ==> k !in matching;
      return "No pending task found matching '" + identifier + "'", None;
    }
    var k :| k in matching;
    var task := rows[k].(status := Completed, updatedAt := now);
    table.tasks := rows[k := task];
    reply := "Task completed: '" + task.title + "'";
    completed := Some(k);
  }

  const CompleteErrorPrefix := "Error completing task: "

  /** `_complete_task` as written. `SessionLocal` keeps SQLAlchemy's
      `expire_on_commit`, so `db.commit()` expires the task's attributes and
      `db.close()` detaches it; reading `task.title` for the reply then
      raises, and the `except` turns that into an error reply although the
      completion was committed. The exception's text, which names the
      instance's address, is the parameter `detached`. */
  method CompleteTaskAsWritten(table: TaskTable, identifier: string, now: int, detached: string)
    returns (reply: string, completed: Option<nat>)
    requires table.Valid()
    modifies table
    ensures table.Valid()
    ensures completed.None? <==> forall k :: k in old(table.tasks) ==> !Completable(old(table.tasks)[k], identifier)
    ensures completed.None? ==>
      table.tasks == old(table.tasks) && reply == "No pending task found matching '" + identifier + "'"
    ensures completed.Some? ==>
      var k := completed.value;
      && k in old(table.tasks) && Completable(old(table.tasks)[k], identifier)
      && table.tasks == old(table.tasks)[k := old(table.tasks)[k].(status := Completed, updatedAt := now)]
      && reply == CompleteErrorPrefix + detached
  {
    reply, completed := CompleteTaskTool(table, identifier, now);
    if completed.Some? {
      reply := CompleteErrorPrefix + detached;
    }
  }

  /** As written, a committed completion is never reported as one: the
      error reply differs from every "Task completed" reply. */
  lemma CompletionReportedAsError(detached: string, title: string)
    ensures CompleteErrorPrefix + detached != "Task completed: '" + title + "'"
  {
    assert (CompleteErrorPrefix + detached)[0] == 'E';
    assert ("Task completed: '" + title + "'")[0] == 'T';
  }

  // ---------------------------------------------------------------------
  // Properties

  /** The listing's first line after the header is task number 1. */
  lemma {:induction false} NumberedFromOne(ts: seq<Task>)
    requires ts != []
    ensures StartsWith(Numbered(ts, 1), "1. " + ts[0].title + "\n")
    decreases |ts|
  {
    if |ts| == 1 {
      assert ts[..0] == [];
      assert Numbered(ts, 1) == Line(1, ts[0]) == "1. " + ts[0].title + "\n";
      StartsWithSelf(Numbered(ts, 1));
    } else {
      var init := ts[..|ts| - 1];
      NumberedFromOne(init);
      assert init[0] == ts[0];
      var line := Line(|ts|, ts[|ts| - 1]);
      assert Numbered(ts, 1) == Numbered(init, 1) + line;
      StartsWithAppend(Numbered(init, 1), "1. " + ts[0].title + "\n", line);
    }
  }

  lemma {:induction false} StartsWithSelf(s: string)
    ensures StartsWith(s, s)
    decreases |s|
  {
    if s != [] {
      StartsWithSelf(s[1..]);
    }
  }

  lemma {:induction false} StartsWithAppend(s: string, p: string, tail: string)
    requires StartsWith(s, p)
    ensures StartsWith(s + tail, p)
    decreases |p|
  {
    if p != [] {
      assert (s + tail)[1..] == s[1..] + tail;
      StartsWithAppend(s[1..], p[1..], tail);
    }
  }

  /** The two replies of `_list_tasks` can be told apart: the fixed text
      is given exactly when nothing is pending. */
  lemma ListReplyIff(table: map<nat, Task>, shown: seq<Task>)
    requires |shown| == Min(10, |PendingIds(table)|)
    ensures shown == [] <==> PendingIds(table) == {}
    ensures NoPendingText != PendingHeader + Numbered(shown, 1)
  {
    var pending := PendingIds(table);
    assert pending == {} <==> |pending| == 0;
    var listing := PendingHeader + Numbered(shown, 1);
    assert listing[3] == PendingHeader[3] == 'r';
    assert NoPendingText[3] == ' ';
  }

  /** Completing a task touches no other task and leaves the completed
      one's title, description, priority, tags and creation time as they
      were. */
  lemma CompleteTouchesOne(table: map<nat, Task>, k: nat, now: int, other: nat)
    requires k in table && other in table && other != k
    ensures var after := table[k := table[k].(status := Completed, updatedAt := now)];
      && after[other] == table[other]
      && after[k].title == table[k].title && after[k].description == table[k].description
      && after[k].priority == table[k].priority && after[k].tags == table[k].tags
      && after[k].createdAt == table[k].createdAt && after[k].status == Completed
  {
  }
}
