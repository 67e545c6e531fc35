# Task board core in Dafny

A model of the logic behind a single-page task board. Users create projects with a title, a description and a team size. New projects are `Active`. Dragging a project onto the other list moves it to `Finished` (or back).

The model has five modules:

- `States` is the project store (`ProjectState`). It is a class holding the ordered list of projects and the ordered list of listeners. A ghost trace records every listener call as a pair of the listener's position and the snapshot it received.
  - `AddProject` appends an `Active` project and notifies.
  - `MoveProject` changes the status of the first project with the id. It notifies only when that status actually changes.
  - `MoveProjectUnguarded` is the copy of `moveProject` in `src/app.ts`. It has no such guard.
  - The methods are proved against pure functions (`FindIndex`, `WithStatus`, `Moves`, `Broadcast`). Lemmas prove idempotence and "nothing else changes" about those functions, and that id uniqueness is kept when the supplied id is fresh.
- `Validation` is the field validator: an early-return chain of five rules. It is proved equal to "report the first failing rule of the ordered rule list". Lemmas characterise it for string and for numeric values.
- `InputComponent` is the project form.
  - `ValidateUserInput` accepts exactly when title, description and people are all acceptable.
  - The alert lemmas fix which check's message is shown.
  - `GatherUserInput` returns the trimmed values.
  - The `ProjectInput` class's `SubmitHandler` calls the store once, and only on valid input.
- `ListComponent` covers the two lists.
  - It maps a list to the status a drop requests and decides whether a drag-over is accepted.
  - The status filter keeps order and partitions every snapshot between the two lists.
  - The `ProjectList` class's listener body and drop handler are modelled as methods.
- `Builtins` holds the JavaScript pieces the rest relies on:
  - `Option`;
  - `String.prototype.trim`, over the full ECMAScript white-space and line-terminator set;
  - the decimal text of an integer.

`src/app.ts` repeats most of the modular sources. The model keeps one definition of each repeated part:

| part | in `src/app.ts` | same as |
|---|---|---|
| store | lines 47-100 | `src/states/project.ts` |
| `validate` | lines 122-170 | `src/utils/validation.ts` |
| form logic | lines 371-445 | `src/components/project-input.ts` |
| list logic | lines 288-330 | `src/components/project-list.ts` |

The one difference is `moveProject`, which lacks the same-status guard at `src/app.ts:88`. It is modelled separately as `MoveProjectUnguarded`. The drop handler in `src/app.ts` (line 303) calls that unguarded `moveProject`, so there a drop onto the list a project is already in still notifies every listener; `ProjectList.DropHandler` models the guarded call of `src/components/project-list.ts`.

Notes on the source:

- `moveProject` returns nothing.
- Ids come from `Math.random().toString()` and are not guaranteed unique. Uniqueness is stated as a predicate, and it is preserved when a fresh id is supplied.
- The store accepts any title and any people count. Only the form checks them.

## Model

| member | source | states |
|---|---|---|
| Builtins.Trim | src/utils/validation.ts:19 | the trimmed text is empty exactly when the text is only white space; it never starts or ends with white space; text without white space at either end is left as it is |
| Builtins.TrimIsSlice | src/utils/validation.ts:19 | the trimmed text is the start of what follows the leading white space of the text |
| Builtins.TrimDropsWhitespace | src/utils/validation.ts:19 | everything trimming removes, before and after the part it keeps, is white space |
| Builtins.IntToString | src/utils/validation.ts:19 | a number's text is never empty and neither starts nor ends with white space; its digits, without leading zeros, denote the number |
| Builtins.IntToStringTrimmed | src/utils/validation.ts:19 | trimming a number's text changes nothing, so `required` never rejects a number |
| Validation.Validate | src/utils/validation.ts:16-64 | valid exactly when no rule rejects the input; a valid result has no message and an invalid one always has one |
| Validation.ValidateReportsFirstViolation | src/utils/validation.ts:18-63 | the early-return chain equals reporting the first failing rule in the order required, minLength, maxLength, minValue, maxValue, with that rule's message |
| Validation.ValidateString | src/utils/validation.ts:18-43 | for a string only the required and length rules apply; required means not only white space; both length bounds are inclusive |
| Validation.ValidateNumber | src/utils/validation.ts:45-61 | for a number only the value rules apply, with inclusive bounds; required never rejects it |
| States.Broadcast | src/states/project.ts:55-59 | one round of notification calls each listener exactly once, in registration order, with the same snapshot |
| States.FindIndex | src/states/project.ts:46 | the position of the first project with the id, or none exactly when no project has it |
| States.WithStatus | src/states/project.ts:46-49 | the found project gets the new status in the same position with its other fields kept; every other project and every id is unchanged; an unknown id changes nothing |
| States.MovesIffChanges | src/states/project.ts:48 | the same-status guard fires exactly when the status write would change the list |
| States.MoveIdempotent | src/states/project.ts:48 | a second move to the same status changes nothing and passes no guard |
| States.AddKeepsUniqueIds | src/states/project.ts:32-43 | appending a project with a fresh id keeps ids unique, and a later move finds the new project |
| States.MoveKeepsUniqueIds | src/states/project.ts:45-52 | a move keeps ids unique |
| States.ProjectState.constructor | src/states/project.ts:15-21 | a new store has no projects, no listeners and has notified no one |
| States.ProjectState.AddListener | src/states/project.ts:10-12 | the listener is appended, so it is called after all earlier ones; nothing else changes |
| States.ProjectState.AddProject | src/states/project.ts:32-43 | the list grows by one `Active` project with the given fields at the end; each listener is then called once, in order, with the new list |
| States.ProjectState.MoveProject | src/states/project.ts:45-52 | the list becomes the status-updated list; listeners are called once each exactly when a project with the id had a different status, and otherwise nobody is |
| States.ProjectState.MoveProjectUnguarded | src/app.ts:85-92 | same list update; every listener is called whenever the id is known, even if the status was already equal |
| States.ProjectState.InvokeStateChangeListeners | src/states/project.ts:55-59 | appends one call per listener, in registration order, each with a copy of the current list |
| States.MoveProjectTwice | src/states/project.ts:45-52 | two moves in a row leave the same list and the same notifications as one |
| States.MoveProjectUnguardedTwice | src/app.ts:88-91 | without the guard two moves give the same list as one, keep the listeners, and for a known id add two full rounds of notification, each calling every listener in order with the moved list; an unknown id notifies nobody |
| States.ProjectStateHolder.constructor | src/states/project.ts:17 | before the first call there is no instance |
| States.ProjectStateHolder.GetInstance | src/states/project.ts:23-30 | returns the existing instance if there is one, otherwise a fresh empty store that becomes the instance |
| States.GetInstanceTwice | src/app.ts:63-70 | two calls return the same store |
| InputComponent.TitleValidity | src/components/project-input.ts:43-48 | the title check (required, minimum length 3) reports a blank title as required, then a title under 3 characters as too short, and otherwise passes |
| InputComponent.DescriptionValidity | src/components/project-input.ts:50-55 | the description check (required, minimum length 5) reports a blank description as required, then one under 5 characters as too short, and otherwise passes |
| InputComponent.PeopleValidity | src/components/project-input.ts:57-63 | the people check (required, 1 to 5) never reports a number as blank; it reports below 1 as under the minimum, above 5 as over the maximum, and otherwise passes |
| InputComponent.ValidateUserInput | src/components/project-input.ts:42-84 | accepts exactly when the title is not blank and has length at least 3, the description is not blank and has length at least 5, and people is from 1 to 5 |
| InputComponent.TitleAlert | src/components/project-input.ts:65-69 | a blank or short title decides the alert (required before length) whatever the other fields hold |
| InputComponent.DescriptionAlert | src/components/project-input.ts:71-75 | with a good title, a blank or short description decides the alert whatever people holds |
| InputComponent.PeopleAlert | src/components/project-input.ts:77-81 | with good text fields, people below 1 or above 5 gives the minimum or maximum message |
| InputComponent.GatherUserInput | src/components/project-input.ts:30-40 | returns a value exactly when validation accepts, and then the trimmed title, the trimmed description and people; the trimmed texts are non-empty |
| InputComponent.LengthCheckedBeforeTrim | src/components/project-input.ts:34-38 | lengths are checked on the untrimmed text: a 3-character title with a leading space passes and is returned with 2 characters |
| InputComponent.ProjectInput.constructor | src/components/project-input.ts:14-22 | the form holds the values entered in its three fields |
| InputComponent.ProjectInput.ResetForm | src/components/project-input.ts:86-90 | all three fields are cleared |
| InputComponent.ProjectInput.SubmitHandler | src/components/project-input.ts:92-104 | on valid input one `Active` project with the gathered values is added, listeners are notified and the form is cleared; on invalid input the store and the form are unchanged and the first failure's alert is returned |
| ListComponent.DropStatus | src/components/project-list.ts:33 | the active list requests `Active` and the finished list `Finished` |
| ListComponent.AcceptsDrag | src/components/project-list.ts:23-27 | a drop is enabled exactly when there is drag data whose first type is `text/plain` |
| ListComponent.Relevant | src/components/project-list.ts:51-57 | the filtered list holds only projects of the snapshot whose status matches the list |
| ListComponent.RelevantComplete | src/components/project-list.ts:51-57 | every project of the snapshot whose status matches the list is kept |
| ListComponent.RelevantKeepsOrder | src/components/project-list.ts:51 | filtering keeps snapshot order: the filter of a concatenation is the concatenation of the filters |
| ListComponent.ListsPartitionSnapshot | src/app.ts:319-325 | the active and finished lists together hold each project of the snapshot exactly as often as it appears |
| ListComponent.ListsDisjoint | src/components/project-list.ts:51-57 | no project is in both the active and the finished list |
| ListComponent.DropLandsInTargetList | src/components/project-list.ts:30-36 | after a drop, the moved project is in the target list's filter and not in the other list's |
| ListComponent.ProjectList.constructor | src/components/project-list.ts:13-18 | a new list shows no projects and has registered its listener last with the store, changing nothing else there |
| ListComponent.ProjectList.Configure | src/components/project-list.ts:44-50 | registers the list's listener last with the store and changes nothing else |
| ListComponent.ProjectList.OnStateChange | src/components/project-list.ts:50-60 | after a notification the list holds exactly the snapshot's projects with its status |
| ListComponent.ProjectList.DropHandler | src/components/project-list.ts:30-36 | forwards the dragged id unchanged, with the list's status, to the guarded move |

## Left out

- DOM and templating are not modelled: the component base class and `attach`, `renderContent`, `renderProjects` and its loop, `querySelector`, `classList` (the `droppable` affordance and the drag-leave handler), `innerHTML`, `preventDefault` and `console.log`. These are browser side effects.
- `alert` is not called. `SubmitHandler` returns the message instead.
- `src/decorators/autobind.ts` and `AutobindThis` only rebind the receiver, and there is nothing to state about them.
- `src/components/project-item.ts` is not part of this model. It only renders and sets the drag data. Its drag payload is the project id tagged `text/plain`, which is what `DropHandler` and `AcceptsDrag` take.
- Id generation (`Math.random().toString()`) is a parameter of `AddProject`. Uniqueness is not guaranteed by the code. It is only proved preserved when the supplied id is fresh.
- Object identity is not modelled. Projects are values in a sequence. In the source, the store, every snapshot and every list's `assignedProjects` share the same project objects, so a status change is also visible through older snapshots. The snapshot copy (`slice()`) is a sequence value here, so a listener cannot change the store through it.
- Listener callbacks are opaque handles with a recorded trace. Their bodies, other than the list filter, are not modelled. A listener that throws would stop the notification loop and propagate; in the model every round completes.
- Listeners are assumed not to call back into the store. The source copies the list afresh for each listener (`src/states/project.ts:57`), so a listener that changed the store would change what later listeners receive. `Broadcast` gives every listener of a round the same snapshot. The program's only listener, the list filter, does not call back.
- JavaScript numbers are integers here. `NaN` (which passes the min/max checks), fractions, and reading the people field's text with unary plus are not modelled. The form's people field holds the number directly. Clearing it stores 0, which is what unary plus gives for the empty text.
- Builtins.IntToString: gives plain decimal digits for every integer, while JavaScript writes numbers of magnitude 10^21 or more in exponent form (`String(1e21)` is `"1e+21"`). This only changes message texts for bounds that large.
- String lengths count code points, not UTF-16 code units. They differ only for characters outside the Basic Multilingual Plane.
- The static `instance` field is modelled as a holder object with `GetInstance`. The module-level `projectState` constant (`src/states/project.ts:62`) is not modelled: `SubmitHandler`, `ProjectList`'s constructor, `Configure` and `DropHandler` take the store as a parameter, and nothing ties that store to the holder's instance.
- The bootstrap that creates the form and the two lists (`src/app.ts:448-450`) is not modelled.
