# ng-crud-table: the data coordinator of the CRUD table, in Dafny

This project models the state-keeping core of the ng-crud-table Angular
control, in two generations of its table component.

- **The root component** (`crud-table.component.ts`, module `ClassicCrudTable`).
  It holds the loaded rows, the pager figures (`totalItems`, `itemsPerPage`,
  `currentPage`), the filters and the sort field and order. It also holds the
  edit draft `item`, the pre-edit snapshot `selectedItem`, the flags
  `newItem`, `onDetailView` and `loading`, and the error slot `errors`.
  Each backend call (`getItems`, `post`, `put`, `delete`) is a dispatch method
  that returns the `Request` handed to the backend service. The settle methods
  (`LoadSucceeded`, `PostSucceeded`, `PutSucceeded`, `DeleteSucceeded`,
  `CallFailed`) are the promise's `.then` and `.catch` continuations. They read
  the component's state when they run, as the JavaScript closures do.
- **Row matching** (module `Rows`). A row is an ordered list of (field, value)
  pairs. Two rows therefore have equal `JSON.stringify` images exactly when they
  are equal values. `FirstIndexOf` is `find` followed by `indexOf`. `SplicedOne`
  and `AssignedAt` are `splice(k, 1)` and `a[k] = v`, with JavaScript's
  negative-index behaviour:
  - a write at index -1 leaves the elements unchanged;
  - `splice(-1, 1)` removes the last row.
- **The newer wrapper** (`src/ng-crud-table/crud-table/crud-table.component.ts`,
  module `NgCrudTable`). It is a small state machine over a `DataManager`. The
  data manager's code is not part of this model, so it is a class of abstract
  fields:
  - `settings`, `messages`, `service`;
  - `detailView`, `errors`, the selected row `item`;
  - `filters`, `isGlobal`, `actionMenu`;
  - the counts of loads and filter events started.

  Subscriptions are handle objects with a `closed` flag.

`items` starts out undefined in the source and is assigned only by a successful
load, so the model keeps it as `Option<seq<Row>>`. If a post, put or delete
succeeds before any load has, its `.then` throws a TypeError on the undefined
array. The chained `.catch` then stores that error. The model records this as
`errors := Some(ItemsUndefined)`, after the steps that ran before the throw.

Behaviour of the code worth knowing:
- `filter` and `sort` keep the current page; only `pageChanged` moves it.
- An update or delete finds its row by structural equality with the pre-edit
  snapshot, not by a primary-key value. The first equal row wins.
- When no row equals the snapshot the index is -1. An update then leaves the
  rows as they were, and a delete removes the last row.
- The busy flag `loading` is only advisory. No call is rejected or queued.

## Model

| member | source | states |
|---|---|---|
| Rows.FirstIndexOf | crud-table.component.ts:147-151 | the located index is the smallest index whose row equals the target, and -1 exactly when no row equals it |
| Rows.FirstEqualRowWins | crud-table.component.ts:148 | of two equal rows the earlier is always found, so a later duplicate is never the located slot |
| Rows.SpliceStart | crud-table.component.ts:125 | `splice` counts a negative start back from the end, clamped to 0, and clamps a start past the end to the length |
| Rows.SplicedOne | crud-table.component.ts:125 | `splice(start, 1)` shortens the array by one exactly when the clamped start is inside it; elements before it stay, elements after it shift down by one |
| Rows.AssignedAt | crud-table.component.ts:108 | `a[k] = v` keeps the length and every other element, puts `v` at a non-negative `k`, and a negative `k` changes no element |
| Rows.SpliceMinusOneDropsLast | crud-table.component.ts:125 | `splice(-1, 1)` on a non-empty array removes its last element |
| Rows.SpliceInRangeRemovesIt | crud-table.component.ts:125 | splicing at an index inside the array removes exactly that element: the result plus that element is the original multiset |
| Rows.RemoveLocatedRow | crud-table.component.ts:123-127 | removing at the located index from a non-empty array removes exactly one row: the first row equal to the target, or the last row when none equals it |
| Rows.UpdateTradesElement | crud-table.component.ts:108 | overwriting one element removes that element from the multiset of rows and adds the new one |
| Rows.OverwriteLocatedRow | crud-table.component.ts:106-108 | writing at the located index replaces only the first row equal to the target and leaves the rows unchanged when none equals it |
| ClassicCrudTable.LowerAscii | crud-table.component.ts:55 | lower-casing keeps the length, leaves no upper-case ASCII letter, maps each upper-case letter to its lower-case form and keeps all other characters |
| ClassicCrudTable.NormalizedPrimaryKey | crud-table.component.ts:55 | the service's key is the configured key lower-cased when that key is truthy, and "id" when it is missing or empty |
| ClassicCrudTable.NormalizedPrimaryKeyIdempotent | crud-table.component.ts:55 | normalizing a normalized key gives the same key |
| ClassicCrudTable.NormalizedPrimaryKeyIgnoresCase | crud-table.component.ts:55 | two keys whose characters agree up to the case of ASCII letters normalize to the same key |
| ClassicCrudTable.AdapterFor | crud-table.component.ts:45-53 | "ords" selects Ords, "demo" selects Demo, and every other tag, "yii" included, selects Yii |
| ClassicCrudTable.AdapterForTag | crud-table.component.ts:45-53 | every service is selected by its own tag |
| ClassicCrudTable.Format | crud-table.component.ts:195-201 | a column whose format is not "date" shows its value unchanged; a "date" column shows the locale formatter's text |
| ClassicCrudTable.RowsAfterPut | crud-table.component.ts:106-108 | after a successful put, the first row equal to the snapshot is replaced by the stored row (one row out, one row in); with no equal row or no snapshot the rows are unchanged |
| ClassicCrudTable.RowsAfterDelete | crud-table.component.ts:123-127 | after a successful delete a non-empty array is one row shorter: the first row equal to the snapshot is removed, or the last row when no row equals the snapshot |
| ClassicCrudTable.CrudTableComponent.constructor | crud-table.component.ts:24-39 | before initialisation no rows are loaded, there are 10 rows per page and 0 in total, the page is 1, and there are no filters, no sort, no error and no busy flag |
| ClassicCrudTable.CrudTableComponent.NgOnInit | crud-table.component.ts:44-57 | the service is the one chosen by the tag, with the settings' URL and the normalized key; then the first load is dispatched |
| ClassicCrudTable.CrudTableComponent.GetItems | crud-table.component.ts:67-70 | starting a load sets `loading`, clears `errors`, and requests the current page, filters and sort; nothing else changes |
| ClassicCrudTable.CrudTableComponent.LoadSucceeded | crud-table.component.ts:71-76 | a successful load replaces the rows wholesale, takes the total count and page size from the metadata and clears `loading`; nothing else changes |
| ClassicCrudTable.CrudTableComponent.CallFailed | crud-table.component.ts:77-80 | a failed call stores the error and clears `loading`; rows, pager figures, page, filters and sort are unchanged |
| ClassicCrudTable.CrudTableComponent.PageChanged | crud-table.component.ts:83-86 | changing the page sets `currentPage` and loads that page |
| ClassicCrudTable.CrudTableComponent.Filter | crud-table.component.ts:180-183 | filtering replaces only the filters, keeps the current page and loads |
| ClassicCrudTable.CrudTableComponent.Sort | crud-table.component.ts:185-189 | sorting replaces only the sort field and order, keeps the current page and loads |
| ClassicCrudTable.CrudTableComponent.Save | crud-table.component.ts:88-116 | saving sets `loading`, clears `errors`, and posts the draft when `newItem` is set or puts it otherwise |
| ClassicCrudTable.CrudTableComponent.PostSucceeded | crud-table.component.ts:94-102 | a successful post makes the stored row the draft and appends exactly it to the rows; when no rows were ever loaded, the error slot gets the TypeError instead |
| ClassicCrudTable.CrudTableComponent.FindSelectedItemIndex | crud-table.component.ts:147-151 | the index is the first row equal to the snapshot, and -1 when there is no snapshot or no equal row |
| ClassicCrudTable.CrudTableComponent.PutSucceeded | crud-table.component.ts:104-113 | a successful put overwrites only the slot found from the pre-edit snapshot, not from the edited draft, and changes nothing else |
| ClassicCrudTable.CrudTableComponent.Delete | crud-table.component.ts:118-122 | deleting sets `loading`, clears `errors` and sends the current item |
| ClassicCrudTable.CrudTableComponent.DeleteSucceeded | crud-table.component.ts:123-132 | a successful delete splices one row at the snapshot's index (the last row when that index is -1), drops the item and leaves the detail view |
| ClassicCrudTable.CrudTableComponent.CloneItem | crud-table.component.ts:141-145 | cloning records the row as the snapshot and returns a row equal to it |
| ClassicCrudTable.CrudTableComponent.OnRowSelect | crud-table.component.ts:136-139 | selecting a row makes both the draft and the snapshot equal to it and clears `newItem` |
| ClassicCrudTable.CrudTableComponent.CreateItem | crud-table.component.ts:153-157 | creating sets `newItem` and an empty draft, and keeps the old snapshot |
| ClassicCrudTable.CrudTableComponent.UpdateItem | crud-table.component.ts:159-163 | editing makes both the draft and the snapshot equal to the row and clears `newItem` |
| ClassicCrudTable.CrudTableComponent.DeleteItem | crud-table.component.ts:165-168 | deleting a row selects it and dispatches the delete of that row; `newItem` is untouched |
| ClassicCrudTable.CrudTableComponent.ViewDetails | crud-table.component.ts:170-174 | viewing clears the error, selects the row and opens the detail view |
| ClassicCrudTable.CrudTableComponent.CloseDetails | crud-table.component.ts:176-178 | closing changes only `onDetailView`, which becomes false |
| ClassicCrudTable.CrudTableComponent.ModalTitle | crud-table.component.ts:191-193 | the title is "Добавить" exactly for a new row and "Редактировать" exactly otherwise |
| NgCrudTable.RowMenu | src/ng-crud-table/crud-table/crud-table.component.ts:105-120 | the row menu has exactly two entries: "view", disabled iff `singleRowView` is off, then "update", disabled iff `crud` is off |
| NgCrudTable.RowMenuEntriesAreHandled | src/ng-crud-table/crud-table/crud-table.component.ts:105-128 | each entry of the row menu is a command `onRowMenu` acts on: the first views, the second updates |
| NgCrudTable.CrudTableComponent.constructor | src/ng-crud-table/crud-table/crud-table.component.ts:51-66 | the component owns a fresh data manager and has no subscriptions |
| NgCrudTable.CrudTableComponent.SetSettings | src/ng-crud-table/crud-table/crud-table.component.ts:32-36 | after the setter runs, `clientSide` is false whatever the input said, and the other settings are the input's |
| NgCrudTable.CrudTableComponent.SetFilters | src/ng-crud-table/crud-table/crud-table.component.ts:56-58 | the filters setter replaces only the data manager's filters |
| NgCrudTable.CrudTableComponent.NgOnInit | src/ng-crud-table/crud-table/crud-table.component.ts:68-99 | initialisation hands over the data source and builds the row menu. It starts one load exactly when `initLoad` is set, and appends six fresh open subscriptions, one per channel, in registration order |
| NgCrudTable.CrudTableComponent.SubscribeChannels | src/ng-crud-table/crud-table/crud-table.component.ts:75-98 | the six subscriptions are fresh and open, cover the selection, filter, sort, page, edit and row-menu channels in that order, and are appended after the existing ones |
| NgCrudTable.CrudTableComponent.NgOnDestroy | src/ng-crud-table/crud-table/crud-table.component.ts:101-103 | teardown closes every registered subscription |
| NgCrudTable.CrudTableComponent.InitRowMenu | src/ng-crud-table/crud-table/crud-table.component.ts:105-120 | only the action menu changes, and it becomes the two-entry row menu |
| NgCrudTable.CrudTableComponent.OnRowMenu | src/ng-crud-table/crud-table/crud-table.component.ts:122-128 | "view" runs the view transition, "update" runs the update transition, and any other command changes nothing |
| NgCrudTable.CrudTableComponent.CreateAction | src/ng-crud-table/crud-table/crud-table.component.ts:130-134 | creating clears the item and sets `detailView` false |
| NgCrudTable.CrudTableComponent.ViewAction | src/ng-crud-table/crud-table/crud-table.component.ts:136-141 | viewing clears `errors`, selects the row and sets `detailView` true |
| NgCrudTable.CrudTableComponent.UpdateAction | src/ng-crud-table/crud-table/crud-table.component.ts:143-147 | updating selects the row, sets `detailView` false and keeps `errors` |
| NgCrudTable.CrudTableComponent.Refresh | src/ng-crud-table/crud-table/crud-table.component.ts:153-171 | refresh, and likewise a filter, page or sort event, starts exactly one load |
| NgCrudTable.CrudTableComponent.GlobalFilter | src/ng-crud-table/crud-table/crud-table.component.ts:181-185 | the global filter empties the filters, sets `isGlobal` and fires exactly one filter event |
| NgCrudTable.CrudTableComponent.OnClickGlobalSearch | src/ng-crud-table/crud-table/crud-table.component.ts:187-189 | clicking search runs the global filter |
| NgCrudTable.CrudTableComponent.OnKeyPressGlobalSearch | src/ng-crud-table/crud-table/crud-table.component.ts:191-195 | key code 13 (Enter) runs the global filter, and any other key changes nothing |

## Left out

- Backend services (Yii, ORDS, demo) and their HTTP traffic: modelled only as the `Request` values the component dispatches and the settle steps it receives.
- Promise scheduling: each call is a dispatch step plus a settle step, and overlapping requests are not interleaved. `loading` is kept as the plain flag it is.
- Modal dialogs (`childModal.show`/`hide`, `modalEditForm.open`): they are foreign calls with no effect on the modelled state.
- Locale date formatting in `format`: `new Date(v * 1000).toLocaleString('ru')` is the parameter `dateText`.
- Unicode `toLowerCase`: the model lower-cases ASCII letters only.
- JSON numbers are modelled as integers, and row values as flat scalars, not nested objects.
- `JSON.stringify` also drops fields whose value is `undefined`. Rows here have no undefined fields.
- Rows.AssignedAt: requires an index below the length. In JavaScript, `a[k] = v` with `k` past the end creates holes, which a sequence cannot hold. The component only writes at `findSelectedItemIndex()`, which is always below the length.
- The data manager's own code (`setSettings`, `setItem`, `clearItem`, `getItems`, `setService`, `dataService.onFilter`) is not part of this model. Its calls are recorded as abstract field updates or counters, and its constructor defaults are parameters.
- Event delivery on the data-service channels: a fired event does not run the subscribed handlers in the model. Subscriptions are handles with a `closed` flag.
- `columns` and `messages` setters, `onEditComplete`, `onSelectedRow`, `clear` and `refreshSelectedRow` of the newer component: each one only forwards to the data manager or to the `select` output, and none of those targets is part of this model.
- `onFilter`, `onPageChanged` and `onSort` have the body of `refresh` and are modelled by `Refresh`.
- `loadingShow` and `loadingHide` are inlined as assignments to `loading`.
