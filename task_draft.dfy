/** The editable draft of a task (the form's values) and the expression that derives it
    from the task the host sent, including the board's custom fields. */
module TaskDraft {
  import opened Wrappers
  import opened KanbnTask
  import Entries

  /** The pattern every date in the draft is formatted with. */
  const DateMask := "yyyy-mm-dd"

  /** A custom field as the board declares it; `kind` is its `type` ('string', 'number', 'boolean' or 'date'). */
  datatype CustomField = CustomField(name: string, kind: string)

  /** `formatDate(value, mask)` of the dateformat library, whose body is not part of this model. */
  type FormatDate = (Json, string) -> string

  /** The draft's metadata: dates already formatted for the date inputs, custom fields by name. */
  datatype DraftMeta = DraftMeta(
    created: Stamp,
    updated: Option<string>,  // None is `null`
    started: string,
    due: string,
    completed: string,
    assignee: string,
    tags: seq<string>,
    custom: map<string, Json>)

  /** The draft (`taskData`, and the form values built from it). */
  datatype Draft = Draft(
    id: string,
    name: string,
    description: string,
    column: string,
    progress: real,
    metadata: DraftMeta,
    relations: seq<Relation>,
    subTasks: seq<SubTask>,
    comments: seq<Comment>)

  /** The draft the editor starts with when nothing was persisted; `now` is the clock at start. */
  function DefaultDraft(now: int): Draft {
    Draft("", "", "", "", 0.0, DraftMeta(Clock(now), None, "", "", "", "", [], map[]), [], [], [])
  }

  /** A declared date, formatted when present and `''` when absent. */
  function EditableDate(date: Option<string>, formatDate: FormatDate): string {
    if date.Some? then formatDate(JStr(date.value), DateMask) else ""
  }

  /** The draft value of one custom field. */
  function CustomValue(task: Nullable<Task>, field: CustomField, formatDate: FormatDate): Json {
    if task.Present? && MetaEntry(task.value.metadata, field.name).Some? then
      var v := MetaEntry(task.value.metadata, field.name).value;
      if field.kind == "date" then JStr(formatDate(v, DateMask)) else v
    else JNull
  }

  /** The pairs `[name, value]`, one per custom field in declaration order. */
  function CustomPairs(task: Nullable<Task>, fields: seq<CustomField>, formatDate: FormatDate): (pairs: seq<(string, Json)>)
    ensures |pairs| == |fields|
    ensures forall i :: 0 <= i < |fields| ==> pairs[i] == (fields[i].name, CustomValue(task, fields[i], formatDate))
  {
    seq(|fields|, i requires 0 <= i < |fields| => (fields[i].name, CustomValue(task, fields[i], formatDate)))
  }

  /** The draft derived from a message: `task` may be absent, the column is always the message's. */
  function DeriveDraft(task: Nullable<Task>, columnName: string, fields: seq<CustomField>,
                       formatDate: FormatDate, now: int): Draft
  {
    var custom := Entries.FromEntries(CustomPairs(task, fields, formatDate));
    if task.Present? then
      var t := task.value;
      Draft(t.id, t.name, t.description, columnName, t.progress.GetOr(0.0),
            DraftMeta(Text(t.metadata.created), t.metadata.updated,
                      EditableDate(t.metadata.started, formatDate),
                      EditableDate(t.metadata.due, formatDate),
                      EditableDate(t.metadata.completed, formatDate),
                      t.metadata.assignee.GetOr(""), t.metadata.tags.GetOr([]), custom),
            t.relations, t.subTasks, t.comments)
    else
      Draft("", "", "", columnName, 0.0, DraftMeta(Clock(now), None, "", "", "", "", [], custom), [], [], [])
  }

  /** The draft has one custom entry per declared field name and no other. */
  lemma CustomKeys(task: Nullable<Task>, columnName: string, fields: seq<CustomField>, formatDate: FormatDate, now: int)
    ensures var d := DeriveDraft(task, columnName, fields, formatDate, now);
      d.column == columnName &&
      forall name :: name in d.metadata.custom <==> exists i :: 0 <= i < |fields| && fields[i].name == name
  {
    var pairs := CustomPairs(task, fields, formatDate);
    forall name ensures name in Entries.FromEntries(pairs) <==> exists i :: 0 <= i < |fields| && fields[i].name == name {
      Entries.KeyOfEntries(pairs, name);
      if exists i :: 0 <= i < |fields| && fields[i].name == name {
        var i :| 0 <= i < |fields| && fields[i].name == name;
        assert pairs[i].0 == name;
      }
    }
  }

  /** A custom field's draft value: the metadata entry when the task is present and has the key
      (formatted for 'date' fields), otherwise `null` and never the field's nominal default. */
  lemma CustomFieldValue(task: Nullable<Task>, columnName: string, fields: seq<CustomField>,
                         formatDate: FormatDate, now: int, i: int)
    requires 0 <= i < |fields|
    requires forall j :: i < j < |fields| ==> fields[j].name != fields[i].name
    ensures var custom := DeriveDraft(task, columnName, fields, formatDate, now).metadata.custom;
      var name := fields[i].name;
      name in custom &&
      (if task.Present? && MetaEntry(task.value.metadata, name).Some? then
         custom[name] == (if fields[i].kind == "date"
                          then JStr(formatDate(MetaEntry(task.value.metadata, name).value, DateMask))
                          else MetaEntry(task.value.metadata, name).value)
       else custom[name] == JNull)
  {
    var pairs := CustomPairs(task, fields, formatDate);
    assert Entries.IsLast(pairs, i);
    Entries.LastEntryWins(pairs, i);
  }

  /** Without a task every custom field is `null` and every other field takes its default. */
  lemma NoTaskDraft(task: Nullable<Task>, columnName: string, fields: seq<CustomField>, formatDate: FormatDate, now: int)
    requires task.IsNullish()
    ensures var d := DeriveDraft(task, columnName, fields, formatDate, now);
      d.id == "" && d.name == "" && d.description == "" && d.column == columnName && d.progress == 0.0 &&
      d.metadata.started == "" && d.metadata.due == "" && d.metadata.completed == "" &&
      d.metadata.assignee == "" && d.metadata.updated == None && d.metadata.created == Clock(now) &&
      d.metadata.tags == [] && d.relations == [] && d.subTasks == [] && d.comments == [] &&
      forall name :: name in d.metadata.custom ==> d.metadata.custom[name] == JNull
  {
    var pairs := CustomPairs(task, fields, formatDate);
    forall name | name in Entries.FromEntries(pairs) ensures Entries.FromEntries(pairs)[name] == JNull {
      Entries.EntryOfKey(pairs, name);
      var i :| Entries.IsLast(pairs, i) && pairs[i].0 == name;
      Entries.LastEntryWins(pairs, i);
    }
  }

  /** With a task the draft carries the task's own content, its dates formatted for the inputs. */
  lemma LoadedDraft(t: Task, columnName: string, fields: seq<CustomField>, formatDate: FormatDate, now: int)
    ensures var d := DeriveDraft(Present(t), columnName, fields, formatDate, now);
      d.id == t.id && d.name == t.name && d.description == t.description && d.column == columnName &&
      d.progress == (if t.progress.Some? then t.progress.value else 0.0) &&
      d.metadata.created == Text(t.metadata.created) && d.metadata.updated == t.metadata.updated &&
      d.metadata.started == EditableDate(t.metadata.started, formatDate) &&
      d.metadata.due == (if t.metadata.due.Some? then formatDate(JStr(t.metadata.due.value), DateMask) else "") &&
      d.metadata.completed == EditableDate(t.metadata.completed, formatDate) &&
      d.metadata.assignee == t.metadata.assignee.GetOr("") &&
      d.metadata.tags == (if t.metadata.tags.Some? then t.metadata.tags.value else []) &&
      d.relations == t.relations && d.subTasks == t.subTasks && d.comments == t.comments
  {
  }

  /** `push('')` on the tag list (the "Add tag" button). */
  function PushTag(values: Draft): (r: Draft)
    ensures r.metadata.tags == values.metadata.tags + [""]
    ensures r.(metadata := values.metadata) == values
    ensures r.metadata.(tags := values.metadata.tags) == values.metadata
  {
    values.(metadata := values.metadata.(tags := values.metadata.tags + [""]))
  }

  /** `push({ completed: false, text: '' })` on the sub-task list. */
  function PushSubTask(values: Draft): (r: Draft)
    ensures r.subTasks == values.subTasks + [SubTask("", false)]
    ensures r.(subTasks := values.subTasks) == values
  {
    values.(subTasks := values.subTasks + [SubTask("", false)])
  }

  /** `push({ type: '', task: '' })` on the relation list. */
  function PushRelation(values: Draft): (r: Draft)
    ensures r.relations == values.relations + [Relation("", "")]
    ensures r.(relations := values.relations) == values
  {
    values.(relations := values.relations + [Relation("", "")])
  }

  /** `push({ text: '', date: new Date(), author: '' })` on the comment list, `now` being the clock. */
  function PushComment(values: Draft, now: int): (r: Draft)
    ensures r.comments == values.comments + [Comment("", Clock(now), "")]
    ensures r.(comments := values.comments) == values
  {
    values.(comments := values.comments + [Comment("", Clock(now), "")])
  }

  /** `checkOverdue`: a due date is overdue when present and it parses to an instant before `now`;
      `parse` is `Date.parse`, None standing for NaN. */
  function CheckOverdue(due: Option<string>, parse: string -> Option<int>, now: int): (overdue: bool)
    ensures due.None? ==> !overdue
    ensures due.Some? ==> (overdue <==> parse(due.value).Some? && parse(due.value).value < now)
  {
    if due.Some? then
      var t := parse(due.value);
      t.Some? && t.value < now
    else false
  }

  /** Once overdue, a task stays overdue as the clock advances. */
  lemma OverdueStaysOverdue(due: Option<string>, parse: string -> Option<int>, now: int, later: int)
    requires CheckOverdue(due, parse, now) && now <= later
    ensures CheckOverdue(due, parse, later)
  {
  }
}
