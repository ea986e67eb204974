/** The form's validation: the rules, the report they produce, and what the report means. */
module FormValidation {
  import opened Wrappers
  import opened KanbnTask
  import opened TaskDraft
  import opened EditorState

  const RequiredMsg := "Task name is required."
  const DuplicateMsg := "There is already a task with the same name or id."
  const TagMsg := "Tag cannot be empty."
  const SubTaskMsg := "Sub-task text cannot be empty."
  const CommentMsg := "Comment text cannot be empty."

  /** The error object of a sub-task or comment, `{ text: message }`. */
  datatype TextError = TextError(text: string)

  /** The errors record: a name message (`''` when none) and three sparse arrays, a hole
      (None) wherever an entry has no error. */
  datatype ValidationErrors = ValidationErrors(
    name: string,
    tags: seq<Option<string>>,
    subTasks: seq<Option<TextError>>,
    comments: seq<Option<TextError>>)

  /** What `validate` returns: `{}`, or the whole errors record. */
  datatype Report = NoErrors | Errors(errors: ValidationErrors)

  /** `a[i] = v` on a JavaScript array: the array grows to i + 1 when needed, leaving holes. */
  function Put<T>(a: seq<Option<T>>, i: nat, v: T): (r: seq<Option<T>>)
    ensures |r| == if i < |a| then |a| else i + 1
    ensures r[i] == Some(v)
    ensures forall j :: 0 <= j < |r| && j != i ==> r[j] == if j < |a| then a[j] else None
  {
    if i < |a| then a[i := Some(v)] else a + seq(i - |a|, _ => None) + [Some(v)]
  }

  /** The array left by storing `msg` at every flagged index of an empty array. */
  function Slots<T>(flags: seq<bool>, msg: T): (r: seq<Option<T>>)
    ensures |r| <= |flags|
    ensures forall j :: 0 <= j < |r| ==> r[j] == if flags[j] then Some(msg) else None
    ensures forall j :: |r| <= j < |flags| ==> !flags[j]
    ensures r != [] ==> r[|r| - 1] == Some(msg)
    decreases |flags|
  {
    if flags == [] then []
    else
      var n := |flags| - 1;
      var prev := Slots(flags[..n], msg);
      if flags[n] then Put(prev, n, msg) else prev
  }

  /** Which strings are empty. */
  function Blanks(xs: seq<string>): (flags: seq<bool>)
    ensures |flags| == |xs|
    ensures forall i :: 0 <= i < |xs| ==> flags[i] == (xs[i] == "")
  {
    seq(|xs|, i requires 0 <= i < |xs| => xs[i] == "")
  }

  function SubTaskTexts(subTasks: seq<SubTask>): (texts: seq<string>)
    ensures |texts| == |subTasks|
    ensures forall i :: 0 <= i < |subTasks| ==> texts[i] == subTasks[i].text
  {
    seq(|subTasks|, i requires 0 <= i < |subTasks| => subTasks[i].text)
  }

  function CommentTexts(comments: seq<Comment>): (texts: seq<string>)
    ensures |texts| == |comments|
    ensures forall i :: 0 <= i < |comments| ==> texts[i] == comments[i].text
  {
    seq(|comments|, i requires 0 <= i < |comments| => comments[i].text)
  }

  /** The uuid a clashing task must differ from: the loaded task's, or `''` when none is loaded. */
  function OwnUuid(task: Nullable<Task>): Option<string> {
    if task.Present? then task.value.uuid else Some("")
  }

  /** The duplicate rule. It looks up the stored draft's id, not the id of the values validated. */
  predicate DuplicateId(s: State) {
    s.taskData.id in s.tasks && s.tasks[s.taskData.id].uuid != OwnUuid(s.task)
  }

  /** The errors recorded for a list: exactly one entry `msg` at each index whose text is blank,
      holes elsewhere, and nothing past the last blank. */
  ghost predicate ErrorsAtBlanks<T>(errs: seq<Option<T>>, texts: seq<string>, msg: T) {
    && |errs| <= |texts|
    && (forall i :: 0 <= i < |texts| ==> (texts[i] == "" <==> i < |errs| && errs[i] == Some(msg)))
    && (forall i :: 0 <= i < |errs| ==> errs[i] == Some(msg) || errs[i] == None)
    && (errs == [] <==> forall i :: 0 <= i < |texts| ==> texts[i] != "")
    && (errs != [] ==> errs[|errs| - 1] == Some(msg))
  }

  /** Flagging the blank texts records errors at exactly the blank indices. */
  lemma SlotsAtBlanks<T>(texts: seq<string>, msg: T)
    ensures ErrorsAtBlanks(Slots(Blanks(texts), msg), texts, msg)
  {
  }

  /** `validate(values)` against the snapshot `s`. */
  function Validation(s: State, values: Draft): Report
  {
    var name := if DuplicateId(s) then DuplicateMsg else if values.id == "" then RequiredMsg else "";
    var tags := Slots(Blanks(values.metadata.tags), TagMsg);
    var subTasks := Slots(Blanks(SubTaskTexts(values.subTasks)), TextError(SubTaskMsg));
    var comments := Slots(Blanks(CommentTexts(values.comments)), TextError(CommentMsg));
    if name != "" || tags != [] || subTasks != [] || comments != [] then
      Errors(ValidationErrors(name, tags, subTasks, comments))
    else NoErrors
  }

  /** The report is `{}` exactly when no rule fires; otherwise it carries the name message the
      rules pick and an error at exactly the blank tags, sub-tasks and comments. */
  lemma ValidationMeaning(s: State, values: Draft)
    ensures var r := Validation(s, values);
      r == NoErrors <==>
      && values.id != ""
      && !DuplicateId(s)
      && (forall i :: 0 <= i < |values.metadata.tags| ==> values.metadata.tags[i] != "")
      && (forall i :: 0 <= i < |values.subTasks| ==> values.subTasks[i].text != "")
      && (forall i :: 0 <= i < |values.comments| ==> values.comments[i].text != "")
    ensures var r := Validation(s, values);
      r.Errors? ==>
      && r.errors.name == (if DuplicateId(s) then DuplicateMsg else if values.id == "" then RequiredMsg else "")
      && ErrorsAtBlanks(r.errors.tags, values.metadata.tags, TagMsg)
      && ErrorsAtBlanks(r.errors.subTasks, SubTaskTexts(values.subTasks), TextError(SubTaskMsg))
      && ErrorsAtBlanks(r.errors.comments, CommentTexts(values.comments), TextError(CommentMsg))
  {
    SlotsAtBlanks(values.metadata.tags, TagMsg);
    SlotsAtBlanks(SubTaskTexts(values.subTasks), TextError(SubTaskMsg));
    SlotsAtBlanks(CommentTexts(values.comments), TextError(CommentMsg));
  }

  /** The required message stays in the report exactly when the id is empty and there is no clash. */
  lemma NameMessages(s: State, values: Draft)
    ensures values.id == "" ==> Validation(s, values).Errors?
    ensures DuplicateId(s) ==> Validation(s, values) == Errors(Validation(s, values).errors) &&
                               Validation(s, values).errors.name == DuplicateMsg
    ensures Validation(s, values).Errors? ==>
      (Validation(s, values).errors.name == RequiredMsg <==> values.id == "" && !DuplicateId(s))
  {
    ValidationMeaning(s, values);
  }

  /** A freshly added blank tag, sub-task or comment fails validation at its own index. */
  lemma PushedBlankFails(s: State, values: Draft, now: int)
    ensures var r := Validation(s, PushTag(values)); var n := |values.metadata.tags|;
      r.Errors? && n < |r.errors.tags| && r.errors.tags[n] == Some(TagMsg)
    ensures var r := Validation(s, PushSubTask(values)); var n := |values.subTasks|;
      r.Errors? && n < |r.errors.subTasks| && r.errors.subTasks[n] == Some(TextError(SubTaskMsg))
    ensures var r := Validation(s, PushComment(values, now)); var n := |values.comments|;
      r.Errors? && n < |r.errors.comments| && r.errors.comments[n] == Some(TextError(CommentMsg))
  {
    ValidationMeaning(s, PushTag(values));
    ValidationMeaning(s, PushSubTask(values));
    ValidationMeaning(s, PushComment(values, now));
  }

  /** Relations are not validated: adding a blank one leaves the report as it was. */
  lemma PushedRelationIgnored(s: State, values: Draft)
    ensures Validation(s, PushRelation(values)) == Validation(s, values)
  {
  }

  /** Right after a message that loads task `t`, the draft does not clash with `t` itself,
      provided every listed task with `t`'s id (there may be none) carries `t`'s uuid. */
  lemma LoadedTaskIsNoDuplicate(msg: Inbound, editingDescription: bool, editingComment: int,
                                 formatDate: FormatDate, now: int)
    requires msg.task.Present?
    requires forall u :: u in msg.tasks.GetOr([]) && u.id == msg.task.value.id ==> u.uuid == msg.task.value.uuid
    ensures !DuplicateId(Snapshot(msg, editingDescription, editingComment, formatDate, now))
  {
  }
}
