/**
 * The task table and its REST routes (routes/tasks.py): create, list,
 * fetch, partially update and delete tasks kept in the `tasks` table.
 *
 * The table is a map from id to task, a field of `TaskTable` that each
 * route reads or replaces. A new row takes the id SQLite gives a rowid
 * table without AUTOINCREMENT: one more than the largest id present, or 1
 * for an empty table. Timestamps are integers supplied by the caller in
 * place of `datetime.utcnow()`.
 */
module Tasks {
  import opened Common
  import opened Text
  import opened Ranking

  /** `TaskStatus`; the table column holds `StatusValue` of it. */
  datatype Status = Pending | InProgress | Completed | Cancelled

  /** `TaskPriority`; the table column holds `PriorityValue` of it. */
  datatype Priority = Low | Medium | High

  function StatusValue(s: Status): string
  {
    match s
    case Pending => "pending"
    case InProgress => "in_progress"
    case Completed => "completed"
    case Cancelled => "cancelled"
  }

  function PriorityValue(p: Priority): string
  {
    match p
    case Low => "low"
    case Medium => "medium"
    case High => "high"
  }

  /** A row of the `tasks` table. */
  datatype Task = Task(
    id: nat,
    title: string,
    description: Option<string>,
    status: Status,
    priority: Priority,
    dueDate: Option<int>,
    tags: seq<string>,
    createdAt: int,
    updatedAt: int)

  /** The body of `POST /` (`TaskCreate`). */
  datatype TaskCreate = TaskCreate(
    title: string,
    description: Option<string>,
    priority: Priority,
    dueDate: Option<int>,
    tags: Option<seq<string>>)

  /** `task.tags or []`. */
  function TagsOrEmpty(tags: Option<seq<string>>): seq<string>
  {
    match tags
    case None => []
    case Some(t) => t
  }

  /** A field of an update request: left unset, or set to a value. */
  datatype Patch<T> = Keep | Put(value: T)

  /** The body of `PUT /{task_id}` (`TaskUpdate`), field by field. */
  datatype TaskUpdate = TaskUpdate(
    title: Patch<string>,
    description: Patch<Option<string>>,
    status: Patch<Status>,
    priority: Patch<Priority>,
    dueDate: Patch<Option<int>>,
    tags: Patch<seq<string>>)

  /** One entry of `model_dump(exclude_unset=True)`. */
  datatype Field =
    | TitleField(title: string)
    | DescriptionField(description: Option<string>)
    | StatusField(status: Status)
    | PriorityField(priority: Priority)
    | DueDateField(dueDate: Option<int>)
    | TagsField(tags: seq<string>)

  /** The fields explicitly set in an update request, in declaration order. */
  function UpdateData(u: TaskUpdate): seq<Field>
  {
    TitleEntry(u.title) + DescriptionEntry(u.description) + StatusEntry(u.status)
    + PriorityEntry(u.priority) + DueDateEntry(u.dueDate) + TagsEntry(u.tags)
  }

  function TitleEntry(p: Patch<string>): seq<Field>
  {
    match p case Keep => [] case Put(v) => [TitleField(v)]
  }

  function DescriptionEntry(p: Patch<Option<string>>): seq<Field>
  {
    match p case Keep => [] case Put(v) => [DescriptionField(v)]
  }

  function StatusEntry(p: Patch<Status>): seq<Field>
  {
    match p case Keep => [] case Put(v) => [StatusField(v)]
  }

  function PriorityEntry(p: Patch<Priority>): seq<Field>
  {
    match p case Keep => [] case Put(v) => [PriorityField(v)]
  }

  function DueDateEntry(p: Patch<Option<int>>): seq<Field>
  {
    match p case Keep => [] case Put(v) => [DueDateField(v)]
  }

  function TagsEntry(p: Patch<seq<string>>): seq<Field>
  {
    match p case Keep => [] case Put(v) => [TagsField(v)]
  }

  /** `setattr(task, field, value)` for one entry. */
  function SetField(t: Task, f: Field): Task
  {
    match f
    case TitleField(v) => t.(title := v)
    case DescriptionField(v) => t.(description := v)
    case StatusField(v) => t.(status := v)
    case PriorityField(v) => t.(priority := v)
    case DueDateField(v) => t.(dueDate := v)
    case TagsField(v) => t.(tags := v)
  }

  /** The entries applied one after another, first to last. */
  function SetFields(t: Task, fs: seq<Field>): Task
    decreases |fs|
  {
    if fs == [] then t else SetField(SetFields(t, fs[..|fs| - 1]), fs[|fs| - 1])
  }

  function PatchOr<T>(p: Patch<T>, current: T): T
  {
    match p
    case Keep => current
    case Put(v) => v
  }

  /** What a partial update means: every field set in the request takes
      its new value, every other field keeps its old one. */
  function Patched(t: Task, u: TaskUpdate): Task
  {
    Task(t.id,
         PatchOr(u.title, t.title),
         PatchOr(u.description, t.description),
         PatchOr(u.status, t.status),
         PatchOr(u.priority, t.priority),
         PatchOr(u.dueDate, t.dueDate),
         PatchOr(u.tags, t.tags),
         t.createdAt,
         t.updatedAt)
  }

  /** The `detail` of the 404 answer. */
  function NotFoundDetail(id: int): string
  {
    "Task with id " + IntToString(id) + " not found"
  }

  /** The rows `GET /` keeps: all of them, or those whose status column
      equals a non-empty `status` query parameter. */
  predicate Selected(t: Task, status: Option<string>)
  {
    status.None? || status.value == "" || StatusValue(t.status) == status.value
  }

  ghost function SelectedIds(table: map<nat, Task>, status: Option<string>): set<nat>
  {
    set k | k in table && Selected(table[k], status)
  }

  /** `ts` is what `ORDER BY created_at DESC LIMIT` returns: `n` distinct
      selected rows, newest first, and no selected row left out is newer
      than one listed. */
  ghost predicate NewestFirst(table: map<nat, Task>, status: Option<string>, ts: seq<Task>, n: nat)
  {
    && |ts| == n
    && (forall i :: 0 <= i < |ts| ==> ts[i].id in table && table[ts[i].id] == ts[i] && Selected(ts[i], status))
    && (forall i, j :: 0 <= i < j < |ts| ==> ts[i].id != ts[j].id)
    && (forall i, j :: 0 <= i < j < |ts| ==> ts[i].createdAt >= ts[j].createdAt)
    && (forall k, i :: (k in table && Selected(table[k], status) && 0 <= i < |ts|
                        && (forall j :: 0 <= j < |ts| ==> ts[j].id != k)) ==>
          table[k].createdAt <= ts[i].createdAt)
  }

  /** The id SQLite gives the next row: one more than the largest id. */
  method NextId(ids: set<nat>) returns (id: nat)
    ensures id >= 1 && id !in ids
    ensures forall k :: k in ids ==> k < id
    ensures id == 1 || id - 1 in ids
  {
    var top := 0;
    var unseen := ids;
    while unseen != {}
      invariant unseen <= ids
      invariant top == 0 || top in ids
      invariant forall k :: k in ids && k !in unseen ==> k <= top
      decreases |unseen|
    {
      var k :| k in unseen;
      if k > top {
        top := k;
      }
      unseen := unseen - {k};
    }
    id := top + 1;
  }

  class TaskTable {
    var tasks: map<nat, Task>

    /** Every task sits under its own id. */
    ghost predicate Valid()
      reads this
    {
      forall k :: k in tasks ==> tasks[k].id == k
    }

    constructor ()
      ensures Valid() && tasks == map[]
    {
      tasks := map[];
    }

    /** `db.add` and `db.commit` of a new row: it gets the next id and
        both timestamps set to `now`. */
    method Insert(title: string, description: Option<string>, status: Status, priority: Priority,
                  dueDate: Option<int>, tags: seq<string>, now: int) returns (t: Task)
      requires Valid()
      modifies this
      ensures Valid()
      ensures t == Task(t.id, title, description, status, priority, dueDate, tags, now, now)
      ensures t.id !in old(tasks) && tasks == old(tasks)[t.id := t]
      ensures forall k :: k in old(tasks) ==> k < t.id
      ensures t.id == 1 || t.id - 1 in old(tasks)
    {
      var id := NextId(tasks.Keys);
      t := Task(id, title, description, status, priority, dueDate, tags, now, now);
      tasks := tasks[id := t];
    }

    /** `create_task`: a new pending task with the requested priority and
        the tags, or none. */
    method CreateTask(req: TaskCreate, now: int) returns (t: Task)
      requires Valid()
      requires 1 <= |req.title| <= 200
      modifies this
      ensures Valid()
      ensures t.id !in old(tasks) && tasks == old(tasks)[t.id := t]
      ensures forall k :: k in old(tasks) ==> k < t.id
      ensures t.title == req.title && t.description == req.description && t.dueDate == req.dueDate
      ensures t.status == Pending && t.priority == req.priority
      ensures t.tags == TagsOrEmpty(req.tags)
      ensures t.createdAt == now && t.updatedAt == now
    {
      t := Insert(req.title, req.description, Pending, req.priority, req.dueDate, TagsOrEmpty(req.tags), now);
    }

    /** `get_tasks`: the newest `limit` tasks, of the given status when one
        is given. */
    method GetTasks(status: Option<string>, limit: int) returns (ts: seq<Task>)
      requires Valid()
      ensures NewestFirst(tasks, status, ts, Cap(limit, |SelectedIds(tasks, status)|))
    {
      var table := tasks;
      var ranks := map k | k in table && Selected(table[k], status) :: table[k].createdAt;
      assert ranks.Keys == SelectedIds(table, status);
      var ids := TopByRank(ranks, Cap(limit, |ranks|));
      ts := seq(|ids|, i requires 0 <= i < |ids| => table[ids[i]]);
      NewestFirstOf(table, status, ranks, ids, ts);
    }

    /** `get_task`. */
    method GetTask(id: int) returns (r: Result<Task>)
      requires Valid()
      ensures r.Ok? <==> id in tasks
      ensures r.Ok? ==> r.value == tasks[id] && r.value.id == id
      ensures r.Err? ==> r.error == NotFoundDetail(id)
    {
      if id !in tasks {
        return Err(NotFoundDetail(id));
      }
      r := Ok(tasks[id]);
    }

    /** `update_task`: sets the fields given in the request, one by one,
        then refreshes `updated_at`; an unknown id changes nothing. A title,
        when given, has 1 to 200 characters, as the request schema demands. */
    method UpdateTask(id: int, u: TaskUpdate, now: int) returns (r: Result<Task>)
      requires Valid()
      requires u.title.Put? ==> 1 <= |u.title.value| <= 200
      modifies this
      ensures Valid()
      ensures id !in old(tasks) ==> tasks == old(tasks) && r == Err(NotFoundDetail(id))
      ensures id in old(tasks) ==>
        var t := Patched(old(tasks)[id], u).(updatedAt := now);
        tasks == old(tasks)[id := t] && r == Ok(t)
    {
      if id !in tasks {
        return Err(NotFoundDetail(id));
      }
      var task := tasks[id];
      var data := UpdateData(u);
      for i := 0 to |data|
        invariant task == SetFields(tasks[id], data[..i])
      {
        assert data[..i + 1][..i] == data[..i];
        task := SetField(task, data[i]);
      }
      assert data[..|data|] == data;
      UpdateDataApplies(tasks[id], u);
      task := task.(updatedAt := now);
      tasks := tasks[id := task];
      r := Ok(task);
    }

    /** `delete_task`: removes exactly that task; an unknown id changes
        nothing. */
    method DeleteTask(id: int) returns (r: Result<()>)
      requires Valid()
      modifies this
      ensures Valid()
      ensures id !in old(tasks) ==> tasks == old(tasks) && r == Err(NotFoundDetail(id))
      ensures id in old(tasks) ==> tasks == old(tasks) - {id} && r == Ok(())
    {
      if id !in tasks {
        return Err(NotFoundDetail(id));
      }
      tasks := tasks - {id};
      r := Ok(());
    }
  }

  // ---------------------------------------------------------------------
  // Properties

  /** The rows stored under a newest-first selection of ids form the
      answer of `GET /`. */
  lemma NewestFirstOf(table: map<nat, Task>, status: Option<string>, ranks: map<nat, int>,
                      ids: seq<nat>, ts: seq<Task>)
    requires forall k :: k in table ==> table[k].id == k
    requires ranks == map k | k in table && Selected(table[k], status) :: table[k].createdAt
    requires NoDuplicates(ids)
    requires forall i :: 0 <= i < |ids| ==> ids[i] in ranks
    requires forall i, j :: 0 <= i < j < |ids| ==> ranks[ids[i]] >= ranks[ids[j]]
    requires forall k, i :: k in ranks && k !in ids && 0 <= i < |ids| ==> ranks[k] <= ranks[ids[i]]
    requires |ts| == |ids| && forall i :: 0 <= i < |ts| ==> ts[i] == table[ids[i]]
    ensures NewestFirst(table, status, ts, |ids|)
  {
    forall i | 0 <= i < |ts|
      ensures ts[i].id == ids[i]
    {
      assert ids[i] in table;
    }
    forall k, i | k in table && Selected(table[k], status) && 0 <= i < |ts|
      && (forall j :: 0 <= j < |ts| ==> ts[j].id != k)
      ensures table[k].createdAt <= ts[i].createdAt
    {
      forall j | 0 <= j < |ids|
        ensures ids[j] != k
      {
        assert ts[j].id != k;
      }
      assert k in ranks && k !in ids;
      assert ranks[k] == table[k].createdAt && ranks[ids[i]] == ts[i].createdAt;
    }
  }

  /** Applying `a` and then `b` is applying `a + b`. */
  lemma {:induction false} SetFieldsAppend(t: Task, a: seq<Field>, b: seq<Field>)
    ensures SetFields(t, a + b) == SetFields(SetFields(t, a), b)
    decreases |b|
  {
    if b == [] {
      assert a + b == a;
    } else {
      var b' := b[..|b| - 1];
      assert (a + b)[..|a + b| - 1] == a + b';
      SetFieldsAppend(t, a, b');
    }
  }

  /** Setting the request's fields one by one gives the partial update:
      the set fields change, and nothing else does. */
  lemma UpdateDataApplies(t: Task, u: TaskUpdate)
    ensures SetFields(t, UpdateData(u)) == Patched(t, u)
  {
    var f1 := TitleEntry(u.title);
    var f2 := f1 + DescriptionEntry(u.description);
    var f3 := f2 + StatusEntry(u.status);
    var f4 := f3 + PriorityEntry(u.priority);
    var f5 := f4 + DueDateEntry(u.dueDate);
    var f6 := f5 + TagsEntry(u.tags);
    var t1 := t.(title := PatchOr(u.title, t.title));
    var t2 := t1.(description := PatchOr(u.description, t.description));
    var t3 := t2.(status := PatchOr(u.status, t.status));
    var t4 := t3.(priority := PatchOr(u.priority, t.priority));
    var t5 := t4.(dueDate := PatchOr(u.dueDate, t.dueDate));
    var t6 := t5.(tags := PatchOr(u.tags, t.tags));
    assert SetFields(t, f1) == t1 by { SetFieldsOne(t, f1); }
    assert SetFields(t, f2) == t2 by {
      SetFieldsAppend(t, f1, DescriptionEntry(u.description));
      SetFieldsOne(t1, DescriptionEntry(u.description));
    }
    assert SetFields(t, f3) == t3 by {
      SetFieldsAppend(t, f2, StatusEntry(u.status));
      SetFieldsOne(t2, StatusEntry(u.status));
    }
    assert SetFields(t, f4) == t4 by {
      SetFieldsAppend(t, f3, PriorityEntry(u.priority));
      SetFieldsOne(t3, PriorityEntry(u.priority));
    }
    assert SetFields(t, f5) == t5 by {
      SetFieldsAppend(t, f4, DueDateEntry(u.dueDate));
      SetFieldsOne(t4, DueDateEntry(u.dueDate));
    }
    assert SetFields(t, f6) == t6 by {
      SetFieldsAppend(t, f5, TagsEntry(u.tags));
      SetFieldsOne(t5, TagsEntry(u.tags));
    }
  }

  /** Zero or one entry. */
  lemma SetFieldsOne(t: Task, fs: seq<Field>)
    requires |fs| <= 1
    ensures SetFields(t, fs) == if fs == [] then t else SetField(t, fs[0])
  {
    if fs != [] {
      assert fs[..0] == [];
    }
  }

  /** The status column and the priority column each tell their enum
      members apart. */
  lemma ValuesDistinct(s1: Status, s2: Status, p1: Priority, p2: Priority)
    ensures StatusValue(s1) == StatusValue(s2) ==> s1 == s2
    ensures PriorityValue(p1) == PriorityValue(p2) ==> p1 == p2
  {
  }

  /** Filtering on a status value selects exactly the tasks of that status. */
  lemma FilterByStatus(t: Task, s: Status)
    ensures Selected(t, Some(StatusValue(s))) <==> t.status == s
  {
    ValuesDistinct(t.status, s, Low, Low);
  }
}
