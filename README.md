# Kanbn task editor: controller and validation

This project models the controller behind the task editor panel of the Kanbn extension for VS Code
(`src/TaskEditor.tsx`), without its rendering. The panel keeps one `state` snapshot. A message from
the host replaces that snapshot wholesale and re-derives the editable draft (`taskData`) from the
task it carries, including the board's custom fields. Local edits replace one field of the snapshot.
Every change is mirrored into the copy kept by `vscode.setState`. Submit, delete and archive each post
one message to the host, and mounting the panel posts `kanbn.updateMe`. Before a submit goes through,
`validate` checks five rules: an empty name, a clashing id, an empty tag, an empty sub-task text and
an empty comment text.

Modules:

- `Wrappers` (wrappers.dfy): optional and nullable properties.
- `KanbnTask` (kanbn_task.dfy): the task record of `src/KanbnTask.d.ts`.
- `Entries` (entries.dfy): `Object.fromEntries`, where a later pair overwrites an earlier one.
- `TaskDraft` (task_draft.dfy): the draft, its derivation from a task, the "add" buttons' pushes and
  `checkOverdue`.
- `EditorState` (editor_state.dfy): the snapshot, the default snapshot, the inbound and outbound
  messages, and the snapshot a host message produces.
- `FormValidation` (validation.dfy): `validate` as a function, with the meaning of its report.
- `Controller` (controller.dfy): the class `TaskEditor`. Its fields are `state`, `persisted` (the
  `vscode.setState` copy), `outbox` (the posted messages) and `mounted` (the state at mount).
  Its methods are the handlers, plus `Validate`, whose loops are proved against the validation function.

Host collaborators are parameters:

- `paramCase` (kanbn's slug function) and `formatDate` (the dateformat library) are function-valued
  parameters.
- `Date.parse` is a function that returns None for NaN.
- `new Date()` is an integer `now` in milliseconds.

Behaviour of the code worth knowing:

- A host message takes its two edit flags from the state captured at mount, not from the latest
  state: `processMessage` is memoised with no dependencies (src/TaskEditor.tsx:117-118, 152), so it
  reads them from `TaskEditor.mounted`. A toggle made since mount is undone by the next host message.
- When any rule fires, `validate` returns the whole errors record (src/TaskEditor.tsx:243-250, 292):
  `name` is `''` when the name is fine, and the three arrays are sparse, with holes where there is no
  error and a length of one past the last error.
- The clash rule looks up `state.taskData.id`, not `values.id` (src/TaskEditor.tsx:259). It compares
  uuids with the loaded task's uuid, or with `''` when no task is loaded.
- A snapshot built from a host message has no `name` and no `sprints` property. Both exist only in the
  default snapshot.
- `state.task` can be `null`, `undefined` or a task. `editing` tests `!== null`, so an undefined task
  counts as editing and is submitted as `kanbn.update` with no `taskId`. The draft derivation and the
  clash rule test `!= null`, so they treat an undefined task as absent.

## Model

| member | source | states |
|---|---|---|
| `Entries.KeyOfEntries` | src/TaskEditor.tsx:109 | the object built by `Object.fromEntries` has exactly the keys of its pairs |
| `Entries.LastEntryWins` | src/TaskEditor.tsx:109 | under each key sits the value of the last pair with that key |
| `Entries.EntryOfKey` | src/TaskEditor.tsx:134-144 | every key of the object comes from a pair that is the last one with that key |
| `EditorState.TaskIndex` | src/TaskEditor.tsx:109 | the task index has a key for each listed task id and no other. Each entry is a listed task with that id, and the last task with a given id wins |
| `EditorState.ColumnKeys` | src/TaskEditor.tsx:113 | the column names are the keys of `index.columns`, in order |
| `EditorState.DefaultState` | src/TaskEditor.tsx:74-105 | the default snapshot has no task, an empty index, the default draft, the description not in edit mode and no comment selected (-1) |
| `EditorState.TaskId` | src/TaskEditor.tsx:198 | `state.task?.id` is defined exactly when a task is present |
| `EditorState.SubmitMessage` | src/TaskEditor.tsx:194-208 | a submit posts `kanbn.update` exactly when `state.task !== null`, with `taskId = state.task?.id`, and `kanbn.create` otherwise. Both carry the values and the snapshot's custom fields |
| `TaskDraft.CustomKeys` | src/TaskEditor.tsx:120-149 | the draft's column is the message's `columnName`. Its custom entries are keyed by exactly the declared field names |
| `TaskDraft.CustomFieldValue` | src/TaskEditor.tsx:134-143 | a custom field's draft value is the task's metadata entry only when a task is present and has that key. It goes through `formatDate(…, 'yyyy-mm-dd')` for a 'date' field. Otherwise the value is `null`, never a default. The last field with a given name wins |
| `TaskDraft.NoTaskDraft` | src/TaskEditor.tsx:119-149 | without a task the draft has: empty id, name and description; progress 0; empty dates; `created` from the clock; `updated` null; no tags, relations, sub-tasks or comments; and every custom field null |
| `TaskDraft.LoadedDraft` | src/TaskEditor.tsx:120-149 | with a task, the draft copies the task's id, name, description, progress (0 when absent), created, updated, assignee (`''` when absent), tags (empty when absent), relations, sub-tasks and comments. Its started, due and completed dates are formatted (`''` when absent), and its column comes from the message |
| `TaskDraft.PushTag` | src/TaskEditor.tsx:827 | "Add tag" appends one empty tag and leaves the rest of the draft unchanged |
| `TaskDraft.PushSubTask` | src/TaskEditor.tsx:469 | "Add sub-task" appends one blank, uncompleted sub-task and leaves the rest of the draft unchanged |
| `TaskDraft.PushRelation` | src/TaskEditor.tsx:528 | "Add relation" appends one blank relation and leaves the rest of the draft unchanged |
| `TaskDraft.PushComment` | src/TaskEditor.tsx:624 | "Add comment" appends one blank comment stamped with the clock and leaves the rest of the draft unchanged |
| `TaskDraft.CheckOverdue` | src/TaskEditor.tsx:233-238 | an absent due date is never overdue. A present one is overdue exactly when it parses to an instant before now |
| `TaskDraft.OverdueStaysOverdue` | src/TaskEditor.tsx:233-238 | a task that is overdue stays overdue as the clock advances |
| `FormValidation.Put` | src/TaskEditor.tsx:267 | `a[i] = v` on a JavaScript array: slot i holds v, earlier slots keep their values, new slots below i are holes, and the length becomes at least i + 1 |
| `FormValidation.Slots` | src/TaskEditor.tsx:265-270 | storing a message at each flagged index of an empty array sets exactly the flagged slots. It leaves holes elsewhere, and the array ends at the last flagged index |
| `FormValidation.ValidationMeaning` | src/TaskEditor.tsx:241-293 | the report of `validate` is `{}` exactly when no rule fires. Otherwise: the name message is the clash message when the stored id clashes, else the required message when `values.id === ''`, else `''`. Each of tags, sub-tasks and comments has an error at exactly the indices whose text is empty, and nowhere else |
| `FormValidation.NameMessages` | src/TaskEditor.tsx:252-262 | an empty id always yields a report. A clash always yields the clash message, overwriting the required one. The required message remains exactly when the id is empty and there is no clash |
| `FormValidation.PushedBlankFails` | src/TaskEditor.tsx:265-290 | a freshly added blank tag, sub-task or comment fails validation at its own index |
| `FormValidation.PushedRelationIgnored` | src/TaskEditor.tsx:241-293 | adding a blank relation does not change the report |
| `FormValidation.LoadedTaskIsNoDuplicate` | src/TaskEditor.tsx:259 | right after a message that loads task t, the clash rule does not fire when every listed task with t's id (if any) has t's uuid |
| `Controller.TaskEditor.constructor` | src/TaskEditor.tsx:74-105 | the panel starts from the persisted snapshot, or from the default one, and records it as the mount-time state |
| `Controller.TaskEditor.Mount` | src/TaskEditor.tsx:295-299 | mounting posts `kanbn.updateMe` and changes nothing else |
| `Controller.TaskEditor.ProcessMessage` | src/TaskEditor.tsx:107-152 | a host message replaces the snapshot. Task, type, column name, custom fields and date format come from the message. The index is keyed by id, the column names are the column keys, and the draft is re-derived. The edit flags are the mount-time ones. Exactly the new snapshot is persisted |
| `Controller.TaskEditor.SetTaskData` | src/TaskEditor.tsx:161-165 | only the draft changes, and the persisted copy equals the new state |
| `Controller.TaskEditor.SetEditingDescription` | src/TaskEditor.tsx:167-171 | only the description edit flag changes, and the persisted copy equals the new state |
| `Controller.TaskEditor.SetEditingComment` | src/TaskEditor.tsx:172-176 | only the edited comment index changes, and the persisted copy equals the new state |
| `Controller.TaskEditor.ToggleDescription` | src/TaskEditor.tsx:393-395 | the description button flips the edit flag |
| `Controller.TaskEditor.ToggleComment` | src/TaskEditor.tsx:582-584 | a comment's button selects that comment, or deselects it (-1) when it was selected |
| `Controller.CommentToggle` | src/TaskEditor.tsx:583 | the toggle yields the index or -1. For a real index it yields the index exactly when that comment was not already selected |
| `Controller.TaskEditor.AddComment` | src/TaskEditor.tsx:623-626 | "Add comment" pushes a blank comment onto the values and selects it, at the old comment count |
| `Controller.TaskEditor.HandleUpdateName` | src/TaskEditor.tsx:179-191 | the stored draft takes `id = paramCase(value)` and `name = value`, the rest unchanged. The form values take the same id |
| `Controller.TaskEditor.HandleSubmit` | src/TaskEditor.tsx:194-212 | exactly one message is posted (update or create, as `SubmitMessage` says), and the draft becomes the submitted values |
| `Controller.TaskEditor.HandleRemoveTask` | src/TaskEditor.tsx:215-221 | exactly one `kanbn.delete` is posted, with the loaded task's id and the values. The state is unchanged |
| `Controller.TaskEditor.HandleArchiveTask` | src/TaskEditor.tsx:224-230 | exactly one `kanbn.archive` is posted, with the loaded task's id and the values. The state is unchanged |
| `Controller.TaskEditor.Validate` | src/TaskEditor.tsx:241-293 | the imperative `validate` returns exactly the report the validation function describes |
| `Controller.MarkBlanks` | src/TaskEditor.tsx:264-290 | one validation loop records the message at exactly the indices whose text is empty |
| `Controller.TaskEditor.SubmitForm` | src/TaskEditor.tsx:303-309 | a submit goes through (one message, draft adopted) exactly when validation returns `{}`. Otherwise nothing changes |

## Left out

- Rendering: the JSX, the Markdown, KaTeX and syntax-highlighting components, and the date line under the title (src/TaskEditor.tsx:44-71, 301-842). They are presentation only.
- Formik internals: `handleChange`, `dirty`, `resetForm`, `setSubmitting`, and the list "remove" buttons (FieldArray `remove`). `SubmitForm` models only Formik's rule that `onSubmit` runs after `validate` returns `{}`.
- `paramCase` and `formatDate` are opaque parameters. The model claims nothing about slug idempotence, date formats, or a date custom field reproducing its text after a display round trip. `formatDate` throwing on an invalid date is not modelled: it is treated as total.
- `Date.parse` and `new Date()` are parameters, so the host clock and date parsing are not modelled.
- The progress-bar width clamp (src/TaskEditor.tsx:729) is floating-point presentation. Numbers in general are `real`, without IEEE semantics.
- The window message listener (src/TaskEditor.tsx:154-159): a host message is a call to `ProcessMessage`.
- The `vscode` transport: posting is modelled as appending to `outbox`, and `setState` as assigning `persisted`. The JSON serialisation that `setState` applies (a `Date` becoming a string) is not modelled.
- TaskDraft.DeriveDraft: a custom field whose name equals a declared metadata property (`created`, `due`, `tags`, …) overwrites that property in the source's draft. The model keeps custom entries in their own map, so that overwrite is missing. Lookups on the task's metadata do see the declared properties first (`MetaEntry`).
- JavaScript's `in` also sees inherited properties (for example `constructor`). The model looks up own properties only.
- EditorState.ColumnKeys: `Object.keys` lists integer-like keys first and never repeats a key. `columns` is taken to be in key-enumeration order already, and the model does not exclude repeated column names, which a JavaScript object cannot hold.
- Controller.TaskEditor.Validate: the three loops of `validate` share one helper, `MarkBlanks`, that runs over the list's texts. `hasErrors` is updated after each loop rather than inside it, which gives the same value.
