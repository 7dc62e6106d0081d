# To-do list store of the to-do-list app

The app keeps every list in one module-level array, `taskData`, seeded from
bundled JSON. Each list has a numeric `key`, a `title`, a `date` (`''` until
one is picked) and, once a first task is added, a `tasks` array. Each task has
a `key`, a `text` and a `completed` flag. The handlers of the List and Task
screens change it. `addList` and `addTask` update it in place (`push`, and a
write to a list's `tasks` field), as does `handleConfirm` (a write to a list's
`date`). `deleteList` reassigns `taskData` to a filtered copy (App.js:137), and
`deleteTask` reassigns a list's `tasks` field to a filtered copy
(App.js:268-270). The Calendar screen only reads the store (App.js:355).
This project models that store and those handlers:

- `js_array.dfy` (module `JsArray`): `Array.prototype.find` and
  `Array.prototype.filter`, the two library calls every handler that looks up a list is built on,
  with lemmas on how they behave.
- `js_string.dfy` (module `JsString`): `String.prototype.trim`, which makes a
  title or task text blank, and `slice(0, n)`, which cuts the date out of an
  ISO timestamp.
- `store_spec.dfy` (module `StoreSpec`): lists and tasks as datatypes. Each
  handler is a function from the array before to the array after. A handler
  that would throw a `TypeError` maps to `Err` instead. This module also holds
  the lemmas that state what each handler promises.
- `task_data.dfy` (module `Store`): class `TaskData` with the `lists` field
  that the handler methods update in place. Each method is proved to produce
  exactly what its `StoreSpec` function gives. Two client scenarios, for any
  non-blank texts, are also proved (their assertions verify): a task added, toggled and deleted, and
  the key collision below.

Keys are `int` and compared with `==`, as the source compares numbers.
Entries are searched in store order, and the first match wins. This matters
because keys can repeat.

Three behaviours of the code that a reader might not expect:

- Keys are not unique. The code gives a new list the key `length + 1`
  (App.js:130), and a new task the key `tasks.length + 1` (App.js:257).
  Deleting and then adding can therefore repeat a key.
  `StoreSpec.DeleteThenAddDuplicatesKey` proves this for every store of that
  shape, and `Store.DuplicateKeyScenario` shows keys 1, 2, then 2, 2.
- The Task screen looks its list up when it renders (App.js:241), and
  `addTask` first checks for blank text (App.js:248) and only then uses that
  lookup (`list.tasks`, App.js:249). Blank text is therefore a no-op even when
  no list has the key. With non-blank text and no such list, the handler
  throws (`Err(ListNotFound)`).
- `deleteTask` throws a `TypeError` when no list has the key, or when that
  list has no `tasks` yet (App.js:268-270). The model returns `Err` and
  leaves the store unchanged. A task key that is not there is not an error:
  the store stays as it was.
- The `Err(ListNotFound)` results of `AddTaskTo` and `DeleteTaskFrom` cannot
  be reached from the app: when no list has the key, rendering the Task screen
  already throws (`list.tasks`, App.js:299) before either button exists. The
  model covers the handlers on any store regardless.

## Model

| member | source | states |
|---|---|---|
| `JsArray.FindIndex` | App.js:122 | `find` gives the first position whose element the callback accepts; it is undefined exactly when no element is accepted |
| `JsArray.Filter` | App.js:137 | `filter` never grows the array, and a result as long as the input is the input itself |
| `JsArray.FilterMembers` | App.js:137 | `filter` keeps exactly the elements the callback accepts |
| `JsArray.FilterSelectsInOrder` | App.js:137 | the i-th element of a `filter` result is the element at the i-th accepted position of the input, and the accepted positions are increasing, so order is kept |
| `JsArray.FilterHeadIsFind` | App.js:268-269 | `filter(p)[0]` (how `addTask` and `deleteTask` reach the list) is the element `find(p)` returns, and the two are undefined together |
| `JsString.TrimIsStrippedSlice` | App.js:129 | `trim()` returns a contiguous middle part of the string, and everything it drops at either end is whitespace |
| `JsString.TrimmedEndsAreNotWhitespace` | App.js:129 | a non-empty result of `trim()` neither starts nor ends with whitespace, so what is dropped is the longest whitespace run at each end |
| `JsString.IsBlank` | App.js:129 | a title or text counts as blank (its trimmed form is the falsy `''`) exactly when every character is ECMAScript whitespace or a line terminator |
| `JsString.SliceTo` | App.js:123 | `slice(0, n)` is the prefix of length `n`, or the whole string when it is shorter |
| `StoreSpec.AddListTo` | App.js:128-134 | a blank title leaves the store unchanged; otherwise the store grows by exactly one, earlier entries stay as they were, and the new last entry has key old length + 1, the given (untrimmed) title, date `''` and no tasks |
| `StoreSpec.DeleteListKeepsOthersInOrder` | App.js:136-139 | `deleteList(k)` keeps exactly the lists whose key is not `k`, in their original order; with no list keyed `k` it changes nothing; applying it twice equals applying it once |
| `StoreSpec.ConfirmDateSetsFirstMatch` | App.js:121-126 | `handleConfirm` throws (with `ListNotFound`, and no other failure) exactly when no list has the key; otherwise it succeeds, and only the first list with the key changes, and only its date, which becomes the first 10 characters of the ISO string |
| `StoreSpec.AppendTask` | App.js:249-260 | adding a task grows the task array by one and keeps the old tasks; the new task comes last, with key old count + 1 and `completed == false`; a list with no `tasks` gets `[{key: 1, …}]` |
| `StoreSpec.AddTaskFailures` | App.js:247-256 | blank text changes nothing, even when no list has the key; `addTask` throws (with `ListNotFound`) exactly when the text is not blank and no list has the key, so it succeeds in every other case |
| `StoreSpec.AddTaskAppendsToFirstMatch` | App.js:247-265 | a successful `addTask` with non-blank text grows the first matching list's tasks by one uncompleted task keyed count + 1; all other lists and fields stay the same |
| `StoreSpec.DeleteTaskFailures` | App.js:267-272 | `deleteTask` throws `ListNotFound` exactly when no list has the key (`filter(...)[0]` is undefined), throws `TasksAbsent` exactly when the first such list has no `tasks`, and succeeds exactly when that list has a task array |
| `StoreSpec.DeleteAbsentTaskKeepsStore` | App.js:267-272 | deleting a task key the list does not hold succeeds and leaves the store exactly as it was |
| `StoreSpec.DeleteTaskFiltersFirstMatch` | App.js:267-272 | a successful `deleteTask` leaves the first matching list with exactly its tasks whose key is not the given one, in order; no other list and no other field changes |
| `StoreSpec.ToggleTaskFlipsOne` | App.js:274-286 | (intended behaviour, see Left out) a successful toggle flips `completed` on exactly one task, the first with the key in the first list with the key, and returns the new flag; nothing else changes |
| `StoreSpec.ToggleTaskSucceeds` | App.js:274-286 | (intended behaviour) the toggle succeeds exactly when the first list with the key has a task array holding a task with the task key |
| `StoreSpec.ToggleTaskTwice` | App.js:274-286 | (intended behaviour) toggling the same task twice gives back the original store, and the second call returns the flag's original value |
| `StoreSpec.ListsOnDateSelectsInOrder` | App.js:355 | the calendar's `filterData` holds exactly the lists whose date equals the selection, in store order; with the initial selection `''` those are the undated lists |
| `StoreSpec.DeleteThenAddDuplicatesKey` | App.js:128-139 | keys are not unique: if the last list has key `length` and exactly one earlier list has key `k`, deleting `k` and adding a list gives the new list the same key as the former last list |
| `Store.TaskData.constructor` | App.js:74 | the store starts as the given seed array |
| `Store.TaskData.AddList` | App.js:128-134 | updates `lists` in place to exactly `AddListTo` of the old array |
| `Store.TaskData.DeleteList` | App.js:136-139 | replaces `lists` with exactly `DeleteListFrom` of the old array |
| `Store.TaskData.HandleConfirm` | App.js:121-126 | sets `lists` to `ConfirmDate` of the old array, or reports `ListNotFound` and leaves it unchanged |
| `Store.TaskData.AddTask` | App.js:247-265 | sets `lists` to `AddTaskTo` of the old array, or reports its failure and leaves it unchanged |
| `Store.TaskData.DeleteTask` | App.js:267-272 | sets `lists` to `DeleteTaskFrom` of the old array, or reports its failure and leaves it unchanged |
| `Store.TaskData.ToggleTask` | App.js:274-286 | (intended behaviour) sets `lists` to `ToggleTaskIn` of the old array and returns the new flag, or reports the failure and leaves it unchanged |
| `Store.TaskData.CalendarFilter` | App.js:355 | reads the store without changing it, and returns exactly the lists dated `selected`, in store order (the i-th result is the list at the i-th position whose date matches) |

## Left out

- Push notifications are left out: handler setup, permission and token retrieval, listeners, and the fire-and-forget `schedulePushNotification()` calls after adding a list or task. They are asynchronous calls into Expo and never affect the store.
- Rendering, navigation, layout, styles and the `refreshFlatlist` re-render flags are left out, because they are UI only. So is clearing the text fields (`setList('')`, `setTask('')`), which is component state, not store state.
- The date-picker modal and `Date.prototype.toISOString` are left out. The ISO string is a parameter, and only `slice(0, 10)` is modelled.
- The seed file `data.json` is not part of this model. The constructor accepts any array of lists.
- Lists and tasks are values, not shared objects. Aliasing is therefore not captured: the `list` variable of the Task screen refers to the same object as the store entry, and the calendar's `Object.assign` copies still share their `tasks` arrays with the store.
- JavaScript strings are UTF-16 code units, and the model works on code points. Every character `trim` strips is in the Basic Multilingual Plane, and ISO dates are ASCII, so blankness and the date prefix agree.
- The `deleteList` button on the Calendar screen (App.js:385) is left out. `deleteList` is not in scope there, so pressing it is a runtime error, not a store operation.
- Store.TaskData.ToggleTask: models the evident intent, not the code. The source handler is marked "NOT WORKING". It indexes the object that `find` returns with `[0]` (App.js:278, 282), which gives `undefined` (or `find` itself gives `undefined`), so reading `.tasks` throws. It also reads and writes `complete` instead of `completed`. As written it only ever throws. The model flips `completed` of the first task with the key in the first list with the key.
- StoreSpec.ToggleTaskFlipsOne, StoreSpec.ToggleTaskSucceeds and StoreSpec.ToggleTaskTwice: these are stated for that intended toggle, not for the code as written.
- Store.TaskData.CalendarFilter: states membership and order, not the shallow copy. With values, a copy equals its original.
