# Todo-list store, modelled in Dafny

This project models the data core of an Ionic/Angular todo-list app. Users
create tasks, may put them in categories, mark them complete, and everything
is kept on the device. The model covers four parts:

- **`StorageService`** (`storage.dfy`): a read-through cache in front of the
  device's key-value storage. The storage is opened with `create()` the first
  time the service is used. A key missing from storage is cached as `null`.
- **`TaskService`** (`tasks.dfy`): the task registry. It holds the published
  task snapshot. Tasks are added at the front, updated by the first matching
  id, deleted by id, and uncategorised when their category is deleted. The
  stored list is sorted newest first when it is loaded. Every mutation writes
  the whole snapshot under `tasks`, then publishes it.
- **`CategoryService`** (`categories.dfy`): the category registry, with the
  same shape under `categories`. Categories are appended at the end, and the
  loaded list is not sorted.
- **`HomePage`** (`home.dfy`): the view logic of the home page. This covers
  the category selection and its toggle, the category filter, dropping a
  selection whose category is gone, the category-name lookup with its
  fallback label, and the task copies the page passes to the registry.

`cascade.dfy` models the categories page's delete handler: delete the
category, then clear it from the tasks. `scenarios.dfy` holds client code
that relies on the contracts across several calls.

Where the services change state in place, they are classes:

- `StorageService` has the fields `initialized`, `cache` and `medium`.
- The two registries each have a snapshot field.
- `HomePage` has the page fields.

The new snapshots are built by pure functions: prepend, positional replace,
order-preserving filter and per-task map. Each method's `ensures` ties the
new state to those functions. The functions' contracts and the lemmas state
what the source promises.

Two ghost counters in `StorageService` make "at most once" statable:

- `createCalls` is 1 exactly when `initialized` is true.
- `mediumReads` is the log of keys read from storage. It never repeats a key,
  and every key in it is cached.

Clock values are passed in as integer numbers of milliseconds: `now` for a
`Date.now()` reading and, where a task is created, `createdAt` for the
separate `new Date()` reading, so the two may differ. Dialog results are passed in as a
`DialogOutcome`. `String.prototype.trim` is `Text.Trim`, defined over the
WhiteSpace and LineTerminator code points of ECMA-262.

Deleting an id that is absent is not a no-op for storage: `deleteTask` and
`deleteCategory` write the unchanged snapshot anyway
(task.service.ts:80-82, category.service.ts:77-79). The model does the same.
An update of an absent id writes nothing.

## Model

| member | source | states |
|---|---|---|
| `Wrappers.Option.GetOr` | todolist/src/app/pages/home/home.page.ts:113 | `x ?? d`: the value when present, `d` when null |
| `Text.Trim` | todolist/src/app/core/services/task.service.ts:46 | the result has no leading or trailing whitespace and is no longer than the input |
| `Text.TrimEmptyIff` | todolist/src/app/pages/home/home.page.ts:63 | a title trims to the empty (falsy) string exactly when it is all whitespace |
| `Text.TrimMiddle` | todolist/src/app/core/services/task.service.ts:46 | trimming keeps the middle: the result is the slice of the input that starts after its leading whitespace and is followed by whitespace only |
| `Text.TrimIdempotent` | todolist/src/app/core/services/category.service.ts:46 | a stored (trimmed) name or title is unchanged by trimming again |
| `Sequences.Filter` | todolist/src/app/core/services/task.service.ts:80 | `filter` keeps exactly the passing elements, each with its original multiplicity, as a subsequence (order preserved) |
| `Storage.Read` | todolist/src/app/core/services/storage.service.ts:30 | the medium yields the stored entry when the key is present and null otherwise |
| `Storage.StorageService.constructor` | todolist/src/app/core/services/storage.service.ts:8-11 | a fresh store is not initialised, has an empty cache, and has made no `create()` call and no read |
| `Storage.StorageService.EnsureInitialized` | todolist/src/app/core/services/storage.service.ts:16-21 | afterwards the store is initialised; `create()` runs only if it was not, so along any sequence of calls that do not overlap it is called at most once |
| `Storage.StorageService.Get` | todolist/src/app/core/services/storage.service.ts:26-35 | returns the cached value when the key is cached, even if the medium has since changed, without reading the medium. Otherwise it reads the medium once (null when absent) and caches that value, null included. Never changes the medium |
| `Storage.StorageService.Set` | todolist/src/app/core/services/storage.service.ts:40-44 | writes `v` at the key in both the cache and the medium; every other key's cache and medium entry is unchanged; no medium read |
| `TaskRegistry.InsertByCreated` | todolist/src/app/core/services/task.service.ts:33-35 | inserting into a newest-first list gives a newest-first list with exactly one more occurrence of the task |
| `TaskRegistry.SortNewestFirst` | todolist/src/app/core/services/task.service.ts:33-35 | the loaded list is a permutation of the stored one, sorted by `created` from newest to oldest |
| `TaskRegistry.SortKeepsNewestFirst` | todolist/src/app/core/services/task.service.ts:33-35 | loading a list that is already newest first leaves its order unchanged |
| `TaskRegistry.NormalizeCategoryId` | todolist/src/app/core/services/task.service.ts:49 | the sentinel 0 never reaches a task; every other id (or null) is kept |
| `TaskRegistry.NewTask` | todolist/src/app/core/services/task.service.ts:44-50 | a new task has the id read from `Date.now()`, the creation time read from `new Date()`, and is not completed. Its title is the trimmed title, empty exactly when the typed one is blank, and its category is the normalised one |
| `TaskRegistry.FindTaskIndex` | todolist/src/app/core/services/task.service.ts:62 | `findIndex`: no index exactly when no task has the id; otherwise the first index whose task has it |
| `TaskRegistry.WithTrimmedTitle` | todolist/src/app/core/services/task.service.ts:67 | the stored copy differs from the caller's task only in its trimmed title |
| `TaskRegistry.ReplaceTask` | todolist/src/app/core/services/task.service.ts:62-69 | keeps the length. An absent id leaves the snapshot unchanged. Otherwise only the first matching position changes, to the supplied task with its title trimmed |
| `TaskRegistry.RemoveTask` | todolist/src/app/core/services/task.service.ts:80 | no task with the id remains, duplicates included. The survivors keep their order and multiplicity. An absent id leaves the snapshot as it was |
| `TaskRegistry.Uncategorized` | todolist/src/app/core/services/task.service.ts:91 | the copy has no category and differs from the task in nothing else |
| `TaskRegistry.ClearCategory` | todolist/src/app/core/services/task.service.ts:90-92 | keeps length and positions. No task is left in the category. Other tasks are identical, and matching tasks differ only in `categoryId` |
| `TaskRegistry.StoredTasks` | todolist/src/app/core/services/task.service.ts:32 | a stored task list as it is; null (or a value of the other kind) falls back to no tasks |
| `TaskRegistry.PrependKeepsNewestFirst` | todolist/src/app/core/services/task.service.ts:52 | prepending a task created no earlier than the others keeps the snapshot newest first |
| `TaskRegistry.RemoveKeepsNewestFirst` | todolist/src/app/core/services/task.service.ts:80 | deleting keeps a newest-first snapshot newest first |
| `TaskRegistry.ReplaceKeepsNewestFirst` | todolist/src/app/core/services/task.service.ts:65-69 | an update that keeps the task's `created` keeps a newest-first snapshot newest first |
| `TaskRegistry.ClearKeepsNewestFirst` | todolist/src/app/core/services/task.service.ts:90-92 | the category cascade keeps a newest-first snapshot newest first |
| `TaskRegistry.TaskService.constructor` | todolist/src/app/core/services/task.service.ts:11-15 | the subject starts with an empty snapshot over the shared store |
| `TaskRegistry.TaskService.LoadTasks` | todolist/src/app/core/services/task.service.ts:31-37 | publishes `[]` when storage holds null, otherwise a newest-first permutation of the stored tasks; the medium is read through the cache and not written |
| `TaskRegistry.TaskService.AddTask` | todolist/src/app/core/services/task.service.ts:42-55 | the new snapshot is the new task followed by the old snapshot, unchanged; storage holds exactly the published snapshot under `tasks`, and no other key changes; every write leaves the store initialised, so `create()` is not called again |
| `TaskRegistry.TaskService.UpdateTask` | todolist/src/app/core/services/task.service.ts:60-73 | the snapshot becomes `ReplaceTask` of the old one. A present id is persisted under `tasks`. An absent id leaves the store entirely untouched; every write leaves the store initialised, so `create()` is not called again |
| `TaskRegistry.TaskService.DeleteTask` | todolist/src/app/core/services/task.service.ts:78-83 | the snapshot becomes `RemoveTask` of the old one and is persisted under `tasks` even when nothing was removed; every write leaves the store initialised, so `create()` is not called again |
| `TaskRegistry.TaskService.HandleCategoryDeletion` | todolist/src/app/core/services/task.service.ts:88-95 | the snapshot becomes `ClearCategory` of the old one and is persisted under `tasks`; every write leaves the store initialised, so `create()` is not called again |
| `CategoryRegistry.NewCategory` | todolist/src/app/core/services/category.service.ts:44-47 | a new category has id = now and the trimmed name, empty exactly when the typed one is blank |
| `CategoryRegistry.FindCategoryIndex` | todolist/src/app/core/services/category.service.ts:59 | `findIndex`: no index exactly when no category has the id; otherwise the first index whose category has it |
| `CategoryRegistry.WithTrimmedName` | todolist/src/app/core/services/category.service.ts:64 | the stored copy keeps the id and carries the trimmed name |
| `CategoryRegistry.ReplaceCategory` | todolist/src/app/core/services/category.service.ts:59-66 | keeps the length. An absent id leaves the snapshot unchanged. Otherwise only the first matching position changes, to the supplied category with its name trimmed |
| `CategoryRegistry.RemoveCategory` | todolist/src/app/core/services/category.service.ts:77 | no category with the id remains. The survivors keep their order and multiplicity. An absent id leaves the snapshot as it was |
| `CategoryRegistry.RemoveCategoryIds` | todolist/src/app/core/services/category.service.ts:77 | after deleting `id`, every other id is present exactly when it was present before |
| `CategoryRegistry.StoredCategories` | todolist/src/app/core/services/category.service.ts:35 | a stored category list as it is; null (or a value of the other kind) falls back to no categories |
| `CategoryRegistry.CategoryService.constructor` | todolist/src/app/core/services/category.service.ts:11-15 | the subject starts with an empty snapshot over the shared store |
| `CategoryRegistry.CategoryService.GetCurrentCategories` | todolist/src/app/core/services/category.service.ts:27-29 | returns the current snapshot and changes nothing |
| `CategoryRegistry.CategoryService.LoadCategories` | todolist/src/app/core/services/category.service.ts:34-37 | publishes the stored list unchanged and unsorted, or `[]` when storage holds null; the medium is read through the cache and not written |
| `CategoryRegistry.CategoryService.AddCategory` | todolist/src/app/core/services/category.service.ts:42-52 | the new snapshot is the old one followed by the new category. Storage holds exactly the published snapshot under `categories`, and no other key changes; every write leaves the store initialised, so `create()` is not called again |
| `CategoryRegistry.CategoryService.UpdateCategory` | todolist/src/app/core/services/category.service.ts:57-70 | the snapshot becomes `ReplaceCategory` of the old one. A present id is persisted under `categories`. An absent id leaves the store entirely untouched; every write leaves the store initialised, so `create()` is not called again |
| `CategoryRegistry.CategoryService.DeleteCategory` | todolist/src/app/core/services/category.service.ts:75-80 | the snapshot becomes `RemoveCategory` of the old one and is persisted under `categories` even when nothing was removed; every write leaves the store initialised, so `create()` is not called again |
| `Home.FilterByCategory` | todolist/src/app/pages/home/home.page.ts:193-199 | for 0, all tasks in order. For any other id, exactly the tasks in that category, each as often as in the snapshot, in snapshot order; uncategorised tasks are excluded |
| `Home.SurvivingSelection` | todolist/src/app/pages/home/home.page.ts:46-48 | the selection is kept when some category has its id and becomes 0 otherwise; a nonzero result always names an existing category |
| `Home.Toggled` | todolist/src/app/pages/home/home.page.ts:159 | the copy has `completed` negated and every other field unchanged |
| `Home.Recategorized` | todolist/src/app/pages/home/home.page.ts:151-154 | the copy has no category exactly when 0 was chosen and is otherwise in the chosen category; other fields unchanged |
| `Home.Retitled` | todolist/src/app/pages/home/home.page.ts:133-136 | the copy carries the typed (untrimmed) title and every other field unchanged |
| `Home.ToggledSelection` | todolist/src/app/pages/home/home.page.ts:189-191 | the new selection is 0 or the tapped id. It is the tapped id exactly when that id is not the current selection (or is 0) |
| `Home.ToggleTwice` | todolist/src/app/pages/home/home.page.ts:189-191 | tapping the same chip twice restores the selection when that chip was selected, and leaves no selection otherwise |
| `Home.HomePage.constructor` | todolist/src/app/pages/home/home.page.ts:19-24 | the page starts empty, with selection 0, an empty input, and loading |
| `Home.HomePage.OnSnapshot` | todolist/src/app/pages/home/home.page.ts:41-50 | takes the new snapshots, stops loading, and resets the selection to 0 unless a category has its id. The shown tasks are then the new tasks filtered by that selection |
| `Home.HomePage.GetCategoryName` | todolist/src/app/pages/home/home.page.ts:58-60 | the name of the first category with the id; the fallback label when the id is null, no category has it, or its name is empty |
| `Home.HomePage.PromptCategorySelection` | todolist/src/app/pages/home/home.page.ts:74-114 | 0 when there are no categories. Otherwise null on cancel, and the confirmed value (0 when the dialog gave none) |
| `Home.HomePage.CategoryForNewTask` | todolist/src/app/pages/home/home.page.ts:66 | a nonzero selection is used as it is. With no selection the dialog decides, which gives 0 when there are no categories |
| `Home.HomePage.AddTask` | todolist/src/app/pages/home/home.page.ts:62-72 | a blank title or a cancelled dialog changes nothing. Otherwise the registry prepends the new task with the typed title and the chosen category, persists it, and the input is cleared; every write leaves the store initialised, so `create()` is not called again |
| `Home.HomePage.EditTask` | todolist/src/app/pages/home/home.page.ts:131-139 | a blank new title changes nothing; otherwise the registry is updated with the task carrying the new title, and when the id is present exactly the new snapshot is persisted under `tasks`. An absent id leaves registry and store untouched; every write leaves the store initialised, so `create()` is not called again |
| `Home.HomePage.ChangeCategory` | todolist/src/app/pages/home/home.page.ts:147-156 | a cancelled dialog changes nothing; otherwise the registry is updated with the task moved to the chosen category (0 → none), and when the id is present exactly the new snapshot is persisted under `tasks`. An absent id leaves registry and store untouched; every write leaves the store initialised, so `create()` is not called again |
| `Home.HomePage.ToggleTask` | todolist/src/app/pages/home/home.page.ts:158-160 | the registry is updated with the task with only `completed` negated; a present id persists exactly the new snapshot under `tasks`, an absent one leaves the store untouched; every write leaves the store initialised, so `create()` is not called again |
| `Home.HomePage.DeleteTask` | todolist/src/app/pages/home/home.page.ts:170-171 | the registry drops every task with the task's id and persists exactly the new snapshot under `tasks`; every write leaves the store initialised, so `create()` is not called again |
| `Home.HomePage.SelectCategory` | todolist/src/app/pages/home/home.page.ts:180-183 | toggles the selection and shows the tasks filtered by the new selection |
| `Home.HomePage.FilterTasks` | todolist/src/app/pages/home/home.page.ts:185-187 | the shown tasks become the snapshot filtered by the given category |
| `Home.HomePage.ToggleSelectedCategoryId` | todolist/src/app/pages/home/home.page.ts:189-191 | the selection becomes 0 when the tapped id is the current selection, and the tapped id otherwise |
| `Home.HomePage.UpdateFilteredTasks` | todolist/src/app/pages/home/home.page.ts:193-199 | the shown tasks become `FilterByCategory` of the snapshot |
| `CategoriesPage.DeleteThenCascadeKeepsReferences` | todolist/src/app/pages/categories/categories.page.ts:85-86 | if every task's category existed before, then after deleting a category and cascading, every task's category still exists |
| `CategoriesPage.DeleteWithoutCascadeDangles` | todolist/src/app/pages/categories/categories.page.ts:85 | deleting a category that a task refers to, without the cascade, leaves a dangling reference |
| `CategoriesPage.CascadeEmptiesFilter` | todolist/src/app/core/services/task.service.ts:90-92 | after the cascade, filtering by the deleted category shows no task |
| `CategoriesPage.DeleteCategory` | todolist/src/app/pages/categories/categories.page.ts:84-86 | both snapshots are updated, exactly the two keys are written to the shared store's cache and medium, and referential integrity is preserved; every write leaves the store initialised, so `create()` is not called again |
| `Scenarios.SetThenGet` | todolist/src/app/core/services/storage.service.ts:40-44 | a read right after a write returns the written value without reading the medium |
| `Scenarios.GetTwice` | todolist/src/app/core/services/storage.service.ts:29-34 | two reads of a key agree, read the medium at most once (never when cached), and `create()` has run exactly once when the calls do not overlap |
| `Scenarios.ReadAfterRestart` | todolist/src/app/core/services/storage.service.ts:43 | a value written is found by a fresh store over the same medium |
| `Scenarios.DeleteWithLateCascade` | todolist/src/app/pages/categories/categories.page.ts:85-86 | from empty storage: after adding a category and a task in it, deleting the category leaves the task in it; the cascade uncategorises it; the deleted category is gone from the returned snapshot, and `create()` has run exactly once |

## Left out

- Reactive plumbing (`BehaviorSubject`, `getTasks`, `getCategories`, `combineLatest`, subscriptions, `ngOnInit`/`ngOnDestroy`). The published value is the field `tasks` or `categories`. `HomePage.OnSnapshot` is the subscription handler, called by whoever delivers a new pair of snapshots. The model does not deliver snapshots to the page automatically after a mutation.
- Asynchrony and interleaving. Each method runs atomically, so the lost-update race between overlapping mutations and a crash between delete and cascade are not modelled. The constructors' un-awaited `loadTasks()`/`loadCategories()` are the separate methods `LoadTasks`/`LoadCategories`, which the owner calls after construction. In the app both registries are built in one synchronous pass, so both loads enter `ensureInitialized` before either sets the flag and `create()` can run twice; the model's at-most-once guarantee holds only for calls that do not overlap.
- Failures of the device storage (`create`, `get`, `set` rejecting). The medium is a total map, and no error propagates.
- Serialisation. A `Date` is an integer number of milliseconds. A value stored under a key that is not of that key's kind (a category list under `tasks`, say) is read as "no value"; TypeScript's `get<T>` does not check this at run time.
- TaskRegistry.TaskService.LoadTasks: the snapshot is pinned to `SortNewestFirst`, a stable insertion sort; `Array.prototype.sort` has been stable since ECMAScript 2019, so the pinned order is the one the app produces. `sort` also reorders, in place, the very array the cache holds under `tasks`, so the cache then holds the sorted list. The model's cache keeps the stored order, and the app never reads `tasks` from the cache again.
- Id collisions. Two tasks or categories created in the same millisecond get the same id; the model allows this and does not prevent it.
- UI work: alerts and their rendering, toasts, the router (`goToCategories`), `ViewChild`, `closeSlidingItems`, the `trackBy` helpers, and the dialog's radio defaults. The dialog is reduced to the `DialogOutcome` it returns.
- `HomePage` keeps the task registry as a field. It does not keep the category registry, which it uses only through its subscription.
- The categories page's `addCategory` and `editCategory` handlers and `app.component.ts` (it only awaits platform readiness).
- Text.Trim: the whitespace set is written out as a fixed list of code points (ECMA-262 WhiteSpace with the Unicode `Zs` characters, plus LineTerminator). It does not track later Unicode versions.
