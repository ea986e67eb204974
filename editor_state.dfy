/** The editor's state snapshot and the messages it exchanges with the host. */
module EditorState {
  import opened Wrappers
  import opened KanbnTask
  import opened TaskDraft
  import Entries

  /** The message the host posts to the panel; `kind` is its `type`, `columns` the entries of
      `index.columns` (column name, task ids) in key order. */
  datatype Inbound = Inbound(
    kind: string,
    task: Nullable<Task>,
    tasks: Option<seq<Task>>,
    columnName: string,
    columns: seq<(string, seq<string>)>,
    customFields: seq<CustomField>,
    dateFormat: string)

  /** The messages the panel posts to the host. */
  datatype Outbound =
    | UpdateMe
    | Create(taskData: Draft, customFields: seq<CustomField>)
    | Update(taskId: Option<string>, taskData: Draft, customFields: seq<CustomField>)
    | Delete(taskId: Option<string>, taskData: Draft)
    | Archive(taskId: Option<string>, taskData: Draft)

  /** The component's `state`. `name` and `sprints` exist only in the default snapshot: a
      snapshot built from a host message has neither (None). */
  datatype State = State(
    kind: string,
    name: Option<string>,
    customFields: seq<CustomField>,
    dateFormat: string,
    task: Nullable<Task>,
    tasks: map<string, Task>,
    columnName: string,
    columnNames: seq<string>,
    sprints: Option<seq<Json>>,
    taskData: Draft,
    editingDescription: bool,
    editingComment: int)

  /** The snapshot used when nothing was persisted; `now` is the clock when the panel starts. */
  function DefaultState(now: int): (s: State)
    ensures s.task == Null && s.tasks == map[] && s.taskData == DefaultDraft(now)
    ensures !s.editingDescription && s.editingComment == -1
  {
    State("", Some(""), [], "", Null, map[], "", [], Some([]), DefaultDraft(now), false, -1)
  }

  function TaskPairs(tasks: seq<Task>): (pairs: seq<(string, Task)>)
    ensures |pairs| == |tasks|
    ensures forall i :: 0 <= i < |tasks| ==> pairs[i] == (tasks[i].id, tasks[i])
  {
    seq(|tasks|, i requires 0 <= i < |tasks| => (tasks[i].id, tasks[i]))
  }

  /** The task index: tasks keyed by id; of several tasks with one id the last wins. */
  function TaskIndex(tasks: seq<Task>): (index: map<string, Task>)
    ensures forall id :: id in index <==> exists i :: 0 <= i < |tasks| && tasks[i].id == id
    ensures forall id :: id in index ==> index[id].id == id && index[id] in tasks
    ensures forall i :: 0 <= i < |tasks| && (forall j :: i < j < |tasks| ==> tasks[j].id != tasks[i].id) ==>
              tasks[i].id in index && index[tasks[i].id] == tasks[i]
  {
    var pairs := TaskPairs(tasks);
    var index := Entries.FromEntries(pairs);
    forall id ensures id in index <==> exists i :: 0 <= i < |tasks| && tasks[i].id == id {
      Entries.KeyOfEntries(pairs, id);
      if exists i :: 0 <= i < |tasks| && tasks[i].id == id {
        var i :| 0 <= i < |tasks| && tasks[i].id == id;
        assert pairs[i].0 == id;
      }
    }
    forall id | id in index ensures index[id].id == id && index[id] in tasks {
      Entries.EntryOfKey(pairs, id);
      var i :| Entries.IsLast(pairs, i) && pairs[i].0 == id;
      Entries.LastEntryWins(pairs, i);
    }
    forall i | 0 <= i < |tasks| && (forall j :: i < j < |tasks| ==> tasks[j].id != tasks[i].id)
      ensures tasks[i].id in index && index[tasks[i].id] == tasks[i]
    {
      assert Entries.IsLast(pairs, i);
      Entries.LastEntryWins(pairs, i);
    }
    index
  }

  /** `Object.keys(index.columns)`. */
  function ColumnKeys(columns: seq<(string, seq<string>)>): (keys: seq<string>)
    ensures |keys| == |columns|
    ensures forall i :: 0 <= i < |columns| ==> keys[i] == columns[i].0
  {
    seq(|columns|, i requires 0 <= i < |columns| => columns[i].0)
  }

  /** The snapshot a host message produces: everything from the message, except the two
      edit flags, which the caller supplies. */
  function Snapshot(msg: Inbound, editingDescription: bool, editingComment: int,
                    formatDate: FormatDate, now: int): State
  {
    State(msg.kind, None, msg.customFields, msg.dateFormat, msg.task, TaskIndex(msg.tasks.GetOr([])),
          msg.columnName, ColumnKeys(msg.columns), None,
          DeriveDraft(msg.task, msg.columnName, msg.customFields, formatDate, now),
          editingDescription, editingComment)
  }

  /** `state.task?.id`. */
  function TaskId(task: Nullable<Task>): (id: Option<string>)
    ensures id.Some? <==> task.Present?
  {
    if task.Present? then Some(task.value.id) else None
  }

  /** The message a submit posts: an update when a task is loaded (`state.task !== null`, which
      holds for an undefined task too), a create otherwise. */
  function SubmitMessage(s: State, values: Draft): (m: Outbound)
    ensures m.Update? <==> s.task != Null
    ensures m.Create? <==> s.task == Null
    ensures m.Update? ==> m.taskId == TaskId(s.task)
    ensures m.taskData == values && m.customFields == s.customFields
  {
    if s.task != Null then Update(TaskId(s.task), values, s.customFields)
    else Create(values, s.customFields)
  }
}
