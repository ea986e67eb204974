/** The task record the host sends, after the declaration in src/KanbnTask.d.ts. */
module KanbnTask {
  import opened Wrappers

  /** A loosely typed metadata value, as a custom field may hold any of them. */
  datatype Json = JNull | JBool(b: bool) | JNum(x: real) | JStr(s: string) | JArr(items: seq<Json>)

  /** A timestamp: the host's text, or a `Date` taken from the clock (milliseconds). */
  datatype Stamp = Text(text: string) | Clock(ms: int)

  /** The metadata bag: its declared properties, then the board's custom fields by name. */
  datatype Metadata = Metadata(
    created: string,
    updated: Option<string>,
    started: Option<string>,
    due: Option<string>,
    completed: Option<string>,
    assignee: Option<string>,  // the `assigned` property (`assigned` is a Dafny keyword)
    tags: Option<seq<string>>,
    custom: map<string, Json>)

  /** A relation; `kind` is the declaration's `type` property. */
  datatype Relation = Relation(kind: string, task: string)

  datatype SubTask = SubTask(text: string, completed: bool)

  datatype Comment = Comment(author: string, date: Stamp, text: string)

  datatype Task = Task(
    uuid: Option<string>,
    id: string,
    name: string,
    description: string,
    column: string,
    workload: Option<real>,
    remainingWorkload: Option<real>,
    progress: Option<real>,
    metadata: Metadata,
    relations: seq<Relation>,
    subTasks: seq<SubTask>,
    comments: seq<Comment>)

  function TextEntry(o: Option<string>): Option<Json> {
    if o.Some? then Some(JStr(o.value)) else None
  }

  function TagsEntry(o: Option<seq<string>>): Option<Json> {
    if o.Some? then Some(JArr(seq(|o.value|, i requires 0 <= i < |o.value| => JStr(o.value[i])))) else None
  }

  /** `key in m ? m[key] : undefined`: the declared properties answer first, then the custom ones. */
  function MetaEntry(m: Metadata, key: string): Option<Json> {
    if key == "created" then Some(JStr(m.created))
    else if key == "updated" then TextEntry(m.updated)
    else if key == "started" then TextEntry(m.started)
    else if key == "due" then TextEntry(m.due)
    else if key == "completed" then TextEntry(m.completed)
    else if key == "assigned" then TextEntry(m.assignee)
    else if key == "tags" then TagsEntry(m.tags)
    else if key in m.custom then Some(m.custom[key])
    else None
  }
}
