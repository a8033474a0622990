# Task storage and task form of a to-do app, in Dafny

This project models two parts of a React Native to-do app.

- **The versioned task store** (`utils/storage.ts`). One key, `"tasks"`, holds the whole task list.
  - `loadTasks` sniffs the stored JSON in a fixed order: the v2 envelope `{version: 2, data: [...]}`, then a bare legacy array, then a `{tasks: [...]}` recovery shape, then `[]`. Every failure becomes `[]`.
  - `saveTasks` always writes the v2 envelope.
  - `migrateIfNeeded` rewrites a legacy array as the envelope and swallows every failure.
- **The task form** (`components/TaskModal.tsx`). It holds five pieces of state (`title`, `selectedCategory`, `newCategory`, `imageUri`, `imageUrlInput`) and has one handler per user action. Its `save` rule either raises one of two alerts or emits a trimmed payload.

Files and modules:

- `wrappers.dfy` (`Wrappers`): `Option` and `Outcome`.
- `json.dfy` (`JsonValue`): the values `JSON.parse` produces.
- `strings.dfy` (`Strings`): JavaScript's `trim`, specified by what it removes.
- `storage.dfy` (`Storage`): the store.
  - `Store` is a class over a `map<string, Text>`. `Text` is what is stored under a key, seen through `JSON.parse`: the empty string, text that does not parse, or a parsed `Json` value.
  - `getItem` gives an `Option<Text>`, where `None` means the key is absent.
  - `Decode` is `loadTasks` as a total function. `Saved` and `Migrated` are the values that `saveTasks` and `migrateIfNeeded` write.
  - `Run` replays a sequence of calls. It is used to state properties of the whole stored-shape state machine.
- `task_modal.dfy` (`TaskModal`): the form as a class with the five fields. There is one method per handler, and `Save` is the submit rule.

Modelling choices:

- `JSON.stringify` followed by `JSON.parse` is taken as the identity. The store holds parsed values.
- The host key-value service may fail. Whether its read or write succeeds is a parameter (`readOk`, `writeOk`) of each store method.
- JavaScript property access on a parsed value is `Storage.Get`. Reading a property of `null` throws (this is what `parsed.tasks` does on a parsed `null`). An object yields its own field. Any other value yields `undefined`.
- `loadTasks` returns the stored array elements unchanged, as the source's unchecked `as Task[]` cast does. `saveTasks` likewise accepts any array of JSON values, because the screens pass it what `loadTasks` returned, possibly after changing it.
  - The round trip states that loading after `saveTasks(tasks)` returns exactly `tasks`.
  - A well-typed task list `ts` is written as `TasksJson(ts)`. `TasksJsonInjective` shows that this value determines `ts`.
- `Run` replays a sequence of calls (`Op`) through `After`. `Store.Apply` shows that each method of `Store` changes the stored value exactly as `After` says, and changes no other key.
- The form's `initial` is a prop, not state. It is therefore a parameter of `Reset` and `Save`.

Edge cases of the code that the model keeps:

- `loadTasks` and `migrateIfNeeded` treat a stored empty string like an absent key (`!raw`).
- A parsed `null` reaches `parsed.tasks`, which throws. The exception is caught, so the result is still `[]`.
- `Reset` with an `initial` task does not clear `newCategory`. If a new category had been typed and `initial` carries a non-empty category, both category inputs are non-empty afterwards. `Save` then uses the listed category. The invariant `CategoriesExclusive` holds as follows:
  - `PressCategory`, `ChangeNewCategory` and `Reset` without `initial` establish it, whatever the state before.
  - `Reset` with `initial` establishes it exactly when the loaded category is empty or no new category was typed.
  - `ChangeTitle`, `PickImage`, `RemoveImage` and `ChangeImageUrl` leave both category fields alone, so they keep it only if it already held.

## Model

| member | source | states |
|---|---|---|
| `Storage.Store.LoadTasks` | utils/storage.ts:19-46 | returns the decode of the value under `"tasks"`; a failed read returns `[]`; it never raises |
| `Storage.Store.SaveTasks` | utils/storage.ts:48-52 | a successful write replaces only key `"tasks"`, with `{version: 2, data: tasks}` for any array `tasks`, whatever was there; a failed write changes nothing and is reported to the caller |
| `Storage.Store.MigrateIfNeeded` | utils/storage.ts:55-67 | when read and write succeed and a bare array is stored, only that key is rewritten, as the v2 envelope of the same array; in every other case, failures included, the store is unchanged |
| `Storage.Store.Apply` | utils/storage.ts:19-67 | running one load, save or migration on the store leaves under `"tasks"` exactly what `After` gives, and no other key changes |
| `Storage.TaskJson` | utils/storage.ts:3-10 | a task is written as an object with exactly the keys `id`, `title`, `category`, `done`, plus `image` unless the task has no image field; `title` and `category` are written as they are |
| `Storage.Get` | utils/storage.ts:37 | reading a property throws exactly on `null`; it is defined exactly for an own field of an object, and then it is that field |
| `Storage.LoadAttempt` | utils/storage.ts:21-41 | the body of the `try` raises exactly for text that does not parse and for a parsed `null` |
| `Storage.Decode` | utils/storage.ts:19-46 | a raised exception gives `[]`; a non-empty result comes only from a parsed array or object |
| `Storage.Saved` | utils/storage.ts:50-51 | what a save writes always passes the v2 envelope test |
| `Storage.Migrated` | utils/storage.ts:60-62 | an absent value stays absent; the value changes only when it was a legacy array, and it then becomes the v2 envelope |
| `Storage.LoadEmptyOrMalformed` | utils/storage.ts:21-24 | an absent key and an empty string load as `[]`; text that does not parse raises inside the `try` and loads as `[]` |
| `Storage.LoadNull` | utils/storage.ts:37 | a parsed `null` makes `parsed.tasks` throw, and the load still returns `[]` |
| `Storage.CurrentEnvelopeShape` | utils/storage.ts:27 | the v2 test holds exactly when the value is an object with `version` equal to 2 and an array-valued `data` |
| `Storage.DecodePrecedence` | utils/storage.ts:26-41 | the v2 envelope yields `data`; failing that, a bare array yields itself; failing that, an array-valued `tasks` yields `tasks`; otherwise `[]` |
| `Storage.DecodeFallsThrough` | utils/storage.ts:37-41 | an object whose `version` is not 2 or whose `data` is not an array yields its array-valued `tasks`, or `[]`, and never its `data` |
| `Storage.DecodeEnvelopeBeatsTasks` | utils/storage.ts:27-28 | an object carrying both a v2 envelope and a `tasks` array yields `data` |
| `Storage.TasksJson` | utils/storage.ts:50-51 | the written list has one JSON object per task, in order |
| `Storage.LoadAfterSave` | utils/storage.ts:27-51 | loading after `saveTasks(tasks)` returns exactly `tasks`, and the stored shape is the v2 envelope |
| `Storage.SaveWhatWasLoaded` | utils/storage.ts:19-52 | saving what a load returned, from any stored shape, writes the v2 envelope, and loading it again returns the same list |
| `Storage.TaskJsonInjective` | utils/storage.ts:3-10 | two tasks written as the same JSON object are the same task |
| `Storage.TasksJsonInjective` | utils/storage.ts:48-51 | two task lists written as the same JSON array are the same list, so the round trip recovers the saved list |
| `Storage.TypedRoundTrip` | utils/storage.ts:27-51 | loading after saving a well-typed task list `ts` returns the encoding of exactly `ts` and of no other list |
| `Storage.SaveOverwrites` | utils/storage.ts:48-52 | a successful save leaves the same value whatever was stored before, so saving twice equals saving once; a failed save leaves the old value |
| `Storage.MigratedCases` | utils/storage.ts:57-63 | an absent value stays absent; a bare array `A` becomes `{version: 2, data: A}`; any other value is kept |
| `Storage.MigrateIdempotent` | utils/storage.ts:55-63 | a second migration writes nothing, and the value a migration leaves is never the legacy shape |
| `Storage.MigratePreservesLoad` | utils/storage.ts:55-63 | migrating never changes what `loadTasks` returns |
| `Storage.LoadReturnsLastSave` | utils/storage.ts:19-67 | after any sequence of loads, saves and migrations, each of which may fail, `loadTasks` returns the array of the last successful save; with no successful save, it returns what it returned before |
| `Storage.CurrentIsTerminal` | utils/storage.ts:48-63 | once the v2 envelope is stored, no sequence of `loadTasks`, `saveTasks` and `migrateIfNeeded` calls takes the store out of that shape (direct writes to the key by other code are not such calls) |
| `Storage.LegacyOnlyUntilRewritten` | utils/storage.ts:48-63 | after a run of `loadTasks`, `saveTasks` and `migrateIfNeeded` calls only, a legacy array is stored only if it was stored before, unchanged, and no call in the run succeeded in rewriting the key |
| `Storage.BareArrayWriteIsLegacy` | utils/storage.ts:31-34 | a bare array written straight to the key, as the explore screen does, is the legacy shape again, and `loadTasks` still returns that array |
| `Strings.TrimStart` | components/TaskModal.tsx:66 | removes exactly the leading whitespace: the result is a suffix, the removed prefix is all whitespace, and the result does not start with whitespace |
| `Strings.TrimEnd` | components/TaskModal.tsx:66 | removes exactly the trailing whitespace: the result is a prefix, the removed suffix is all whitespace, and the result does not end with whitespace |
| `Strings.Trim` | components/TaskModal.tsx:71 | the result has no whitespace at either end and sits in the input between two all-whitespace parts; it is empty exactly when the input is all whitespace |
| `Strings.TrimmedIsFixpoint` | components/TaskModal.tsx:76 | a string with no whitespace at either end is its own trim |
| `Strings.TrimIdempotent` | components/TaskModal.tsx:76 | trimming twice gives the same as trimming once |
| `TaskModal.Form.constructor` | components/TaskModal.tsx:23-27 | all five fields start as `''`, with the image URI `null` |
| `TaskModal.Form.Reset` | components/TaskModal.tsx:29-42 | without `initial`, clears all five fields; with it, loads title, category and image (defaults `''`, `''`, `null`; the URL input gets `''` for no image) and keeps `newCategory`, so the category inputs stay exclusive exactly when the loaded category or the kept typed one is empty |
| `TaskModal.Form.ChangeTitle` | components/TaskModal.tsx:84 | sets the title and nothing else |
| `TaskModal.Form.PressCategory` | components/TaskModal.tsx:94-97 | selects the item, clears the typed category, and leaves the two category inputs mutually exclusive |
| `TaskModal.Form.ChangeNewCategory` | components/TaskModal.tsx:107 | sets the typed category; non-empty text clears the selection, empty text keeps it; either way the two category inputs are mutually exclusive afterwards |
| `TaskModal.Form.PickImage` | components/TaskModal.tsx:55-59 | a non-empty picked URI goes into both image fields; no URI or an empty one changes nothing |
| `TaskModal.Form.RemoveImage` | components/TaskModal.tsx:111 | clears both the image URI and the URL input, and nothing else |
| `TaskModal.Form.ChangeImageUrl` | components/TaskModal.tsx:116 | sets the URL input and nothing else |
| `TaskModal.Form.Save` | components/TaskModal.tsx:65-77 | rejects with the title alert exactly when the title is all whitespace; rejects with the category alert exactly when the title is not blank and the chosen category is blank (the listed one if non-empty, else the typed one); otherwise emits the id of `initial` unchanged, a non-empty trimmed title and category, and the trimmed URL input if non-empty, else the picked URI (possibly `null`) |

## Left out

- AsyncStorage and `async`/`await`: the store is a map field, and each call completes before the next starts.
- Cross-screen lost updates on the `"tasks"` key: the code does not coordinate concurrent writers.
- JSON text: `JSON.parse` and `JSON.stringify` are abstracted to the `Json` datatype. Duplicate keys, number formatting and floating-point rounding are not modelled. The stored value under a key is its parse result, one of `Blank`, `Malformed` or `Parsed`.
- `Storage.Get` covers only the keys the code reads (`version`, `data`, `tasks`). Inherited and array or string properties such as `length` are not modelled.
- Element validation of tasks: the code performs none (`as Task[]`), so decoded arrays are returned as they are.
- The task id is modelled as an integer. The code stores a JavaScript `number` taken from `Date.now()`.
- The image picker's dynamic import and permission request (components/TaskModal.tsx:47-53, 60-62) are foreign calls. `PickImage` receives only the URI the picker returned. A denied permission or a missing package shows an alert and leaves the state alone, like a pick that returns no URI.
- Rendering: the modal, the category list, images, styles, the `alert` calls (modelled as a `Rejected` result) and the stray text in the JSX.
- components/TaskItem.tsx, components/CategoryList.tsx and the screens `index.tsx`, `done.tsx` and `_layout.tsx` under app/(tabs)/ are not part of this model. They are rendering plus callers of the store.
- The explore screen, app/(tabs)/explore.tsx, is not part of this model. It does not go through utils/storage.ts.
  - It writes its task list straight to the `"tasks"` key as a bare array, the legacy shape (line 37).
  - It reads that key raw (lines 45-47).
  - So in the running app, a legacy array can follow a v2 save. `CurrentIsTerminal` and `LegacyOnlyUntilRewritten` cover runs of the three storage operations only. `BareArrayWriteIsLegacy` states what such a direct write leaves.
- Strings are Dafny strings, sequences of Unicode scalar values. JavaScript strings are UTF-16 code units, so lone surrogates cannot be represented. `trim` is unaffected, because every ECMAScript whitespace character lies in the Basic Multilingual Plane.
