/** The task editor's controller: the snapshot it keeps, the copy it persists through
    `vscode.setState`, and the messages it posts through `vscode.postMessage`. */
module Controller {
  import opened Wrappers
  import opened TaskDraft
  import opened EditorState
  import opened FormValidation

  class TaskEditor {
    /** The component's current `state`. */
    var state: State
    /** What `vscode.setState` last stored; None until something is stored. */
    var persisted: Option<State>
    /** Every message posted to the host, oldest first. */
    var outbox: seq<Outbound>
    /** The state as it was when the panel mounted: `processMessage` is memoised with no
        dependencies, so it reads its edit flags from here and never from the latest state. */
    const mounted: State

    /** The persisted copy is the current state, or nothing was stored yet and the state is
        still the one the panel mounted with. */
    ghost predicate Valid()
      reads this
    {
      persisted == Some(state) || (persisted == None && state == mounted)
    }

    /** The panel starts from what `vscode.getState()` returns, or from the default snapshot. */
    constructor (restored: Option<State>, now: int)
      ensures Valid()
      ensures state == mounted == (if restored.Some? then restored.value else DefaultState(now))
      ensures persisted == restored && outbox == []
    {
      var initial := if restored.Some? then restored.value else DefaultState(now);
      state := initial;
      mounted := initial;
      persisted := restored;
      outbox := [];
    }

    /** On mount the panel asks the host for the current task and board. */
    method Mount()
      requires Valid()
      modifies this`outbox
      ensures Valid()
      ensures outbox == old(outbox) + [UpdateMe]
    {
      outbox := outbox + [UpdateMe];
    }

    /** A host message replaces the whole snapshot and persists it. */
    method ProcessMessage(msg: Inbound, formatDate: FormatDate, now: int)
      modifies this`state, this`persisted
      ensures Valid() && persisted == Some(state)
      ensures state == Snapshot(msg, mounted.editingDescription, mounted.editingComment, formatDate, now)
      ensures state.task == msg.task && state.kind == msg.kind && state.columnName == msg.columnName
      ensures state.customFields == msg.customFields && state.dateFormat == msg.dateFormat
      ensures state.tasks == TaskIndex(msg.tasks.GetOr([])) && state.columnNames == ColumnKeys(msg.columns)
      ensures state.editingDescription == mounted.editingDescription
      ensures state.editingComment == mounted.editingComment
      ensures state.taskData == DeriveDraft(msg.task, msg.columnName, msg.customFields, formatDate, now)
    {
      var newState := Snapshot(msg, mounted.editingDescription, mounted.editingComment, formatDate, now);
      persisted := Some(newState);
      state := newState;
    }

    /** Replaces the draft, and nothing else, and persists the result. */
    method SetTaskData(taskData: Draft)
      modifies this`state, this`persisted
      ensures Valid() && persisted == Some(state)
      ensures state == old(state).(taskData := taskData)
    {
      state := state.(taskData := taskData);
      persisted := Some(state);
    }

    /** Replaces the description edit flag, and nothing else, and persists the result. */
    method SetEditingDescription(editingDescription: bool)
      modifies this`state, this`persisted
      ensures Valid() && persisted == Some(state)
      ensures state == old(state).(editingDescription := editingDescription)
    {
      state := state.(editingDescription := editingDescription);
      persisted := Some(state);
    }

    /** Replaces the index of the comment being edited, and nothing else, and persists the result. */
    method SetEditingComment(editingComment: int)
      modifies this`state, this`persisted
      ensures Valid() && persisted == Some(state)
      ensures state == old(state).(editingComment := editingComment)
    {
      state := state.(editingComment := editingComment);
      persisted := Some(state);
    }

    /** The description's Edit/Preview button. */
    method ToggleDescription()
      modifies this`state, this`persisted
      ensures Valid() && persisted == Some(state)
      ensures state == old(state).(editingDescription := !old(state.editingDescription))
    {
      SetEditingDescription(!state.editingDescription);
    }

    /** A comment's Edit/View button. */
    method ToggleComment(index: int)
      modifies this`state, this`persisted
      ensures Valid() && persisted == Some(state)
      ensures state == old(state).(editingComment := CommentToggle(old(state.editingComment), index))
    {
      SetEditingComment(CommentToggle(state.editingComment, index));
    }

    /** The "Add comment" button: a blank comment is pushed on the form values and opened for editing. */
    method AddComment(values: Draft, now: int) returns (newValues: Draft)
      modifies this`state, this`persisted
      ensures Valid() && persisted == Some(state)
      ensures newValues == PushComment(values, now)
      ensures state == old(state).(editingComment := |values.comments|)
      ensures state.editingComment == |newValues.comments| - 1
    {
      newValues := PushComment(values, now);
      SetEditingComment(|values.comments|);
    }

    /** A change of the name field: the stored draft takes the new name and its slug, and the
        form values take the slug; `paramCase` is the kanbn library's slug function. */
    method HandleUpdateName(value: string, paramCase: string -> string, values: Draft) returns (newValues: Draft)
      modifies this`state, this`persisted
      ensures Valid() && persisted == Some(state)
      ensures state == old(state).(taskData := old(state.taskData).(id := paramCase(value), name := value))
      ensures newValues == values.(id := paramCase(value))
    {
      var id := paramCase(value);
      SetTaskData(state.taskData.(id := id, name := value));
      newValues := values.(id := id);
    }

    /** Posts a create or an update with the values, then adopts them as the draft. */
    method HandleSubmit(values: Draft)
      modifies this
      ensures Valid() && persisted == Some(state)
      ensures outbox == old(outbox) + [SubmitMessage(old(state), values)]
      ensures state == old(state).(taskData := values)
    {
      outbox := outbox + [SubmitMessage(state, values)];
      SetTaskData(values);
    }

    /** Posts a delete for the loaded task with the values; the state stays as it is. */
    method HandleRemoveTask(values: Draft)
      requires Valid()
      modifies this`outbox
      ensures Valid()
      ensures outbox == old(outbox) + [Delete(TaskId(state.task), values)]
    {
      outbox := outbox + [Delete(TaskId(state.task), values)];
    }

    /** Posts an archive for the loaded task with the values; the state stays as it is. */
    method HandleArchiveTask(values: Draft)
      requires Valid()
      modifies this`outbox
      ensures Valid()
      ensures outbox == old(outbox) + [Archive(TaskId(state.task), values)]
    {
      outbox := outbox + [Archive(TaskId(state.task), values)];
    }

    /** `validate(values)`, reading the current snapshot. */
    method Validate(values: Draft) returns (report: Report)
      ensures report == Validation(state, values)
    {
      var hasErrors := false;
      var name := "";
      if values.id == "" {
        name := RequiredMsg;
        hasErrors := true;
      }
      if state.taskData.id in state.tasks && state.tasks[state.taskData.id].uuid != OwnUuid(state.task) {
        name := DuplicateMsg;
        hasErrors := true;
      }

      var tagErrors := MarkBlanks(values.metadata.tags, TagMsg);
      hasErrors := hasErrors || tagErrors != [];
      var subTaskErrors := MarkBlanks(SubTaskTexts(values.subTasks), TextError(SubTaskMsg));
      hasErrors := hasErrors || subTaskErrors != [];
      var commentErrors := MarkBlanks(CommentTexts(values.comments), TextError(CommentMsg));
      hasErrors := hasErrors || commentErrors != [];

      report := if hasErrors then Errors(ValidationErrors(name, tagErrors, subTaskErrors, commentErrors)) else NoErrors;
    }

    /** Formik's submit: the values are validated, and only an empty report lets the submit through. */
    method SubmitForm(values: Draft) returns (report: Report)
      modifies this
      ensures report == Validation(old(state), values)
      ensures report == NoErrors ==>
        Valid() && persisted == Some(state) &&
        outbox == old(outbox) + [SubmitMessage(old(state), values)] && state == old(state).(taskData := values)
      ensures report != NoErrors ==>
        outbox == old(outbox) && state == old(state) && persisted == old(persisted)
    {
      report := Validate(values);
      if report == NoErrors {
        HandleSubmit(values);
      }
    }
  }

  /** One of `validate`'s loops: `errors[i] = msg` for every index i whose text is blank. */
  method MarkBlanks<T>(texts: seq<string>, msg: T) returns (errors: seq<Option<T>>)
    ensures errors == Slots(Blanks(texts), msg)
    ensures ErrorsAtBlanks(errors, texts, msg)
  {
    errors := [];
    var i := 0;
    while i < |texts|
      invariant 0 <= i <= |texts|
      invariant errors == Slots(Blanks(texts)[..i], msg)
    {
      assert Blanks(texts)[..i + 1][..i] == Blanks(texts)[..i];
      if texts[i] == "" {
        errors := Put(errors, i, msg);
      }
      i := i + 1;
    }
    assert Blanks(texts)[..i] == Blanks(texts);
  }

  /** The comment index a comment's Edit/View button selects: the comment itself, or -1
      (none) when it is the one being edited. */
  function CommentToggle(editing: int, index: int): (r: int)
    ensures r == index || r == -1
    ensures index != -1 ==> (r == index <==> editing != index)
  {
    if editing != index then index else -1
  }
}
