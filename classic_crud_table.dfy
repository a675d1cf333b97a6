/**
 * The CRUD table component of crud-table.component.ts: the rows it holds,
 * the paging, filter and sort parameters it sends to the backend, the row
 * being edited and its pre-edit snapshot, and the busy and error slots.
 *
 * Every backend call (`getItems`, `post`, `put`, `delete`) is split into a
 * dispatch step, which returns the request the component hands to its
 * backend service, and the settle steps that its `.then` and `.catch`
 * continuations perform. Settle steps read the component's state at the
 * moment they run, as the JavaScript closures do.
 */
module ClassicCrudTable {
  import opened Rows

  /** The three backend services the component can talk to. */
  datatype Adapter = Yii | Ords | Demo

  /** The `settings` input, restricted to what the component reads itself. */
  datatype Settings = Settings(adapterType: string, api: string, primaryKey: Option<string>)

  /** A column descriptor, restricted to its name and its display format. */
  datatype Column = Column(name: string, format: Option<string>)

  /** What the component configured on the chosen service in `ngOnInit`. */
  datatype ServiceConfig = ServiceConfig(adapter: Adapter, url: string, primaryKey: string)

  /** A page of rows as the backend returns it (`items` and `_meta`). */
  datatype Page = Page(items: seq<Row>, totalCount: int, perPage: int)

  /** A backend call as dispatched: its operation and its arguments. */
  datatype Request =
    | LoadCall(page: int, filters: map<string, Value>, sortField: Option<string>, sortOrder: Option<int>)
    | PostCall(body: Option<Row>)
    | PutCall(body: Option<Row>)
    | DeleteCall(body: Option<Row>)

  /** Every field of the component, for stating what a step leaves alone. */
  datatype TableState = TableState(
    service: Option<ServiceConfig>,
    items: Option<seq<Row>>,
    item: Option<Row>,
    selectedItem: Option<Row>,
    newItem: bool,
    errors: Option<Error>,
    onDetailView: bool,
    loading: bool,
    itemsPerPage: int,
    totalItems: int,
    currentPage: int,
    filters: map<string, Value>,
    sortField: Option<string>,
    sortOrder: Option<int>)

  /** Lower-cases the ASCII letters of a string and leaves every other character alone. */
  function LowerAscii(s: string): (r: string)
    ensures |r| == |s|
    ensures forall i :: 0 <= i < |s| ==> !('A' <= r[i] <= 'Z')
    ensures forall i :: 0 <= i < |s| && !('A' <= s[i] <= 'Z') ==> r[i] == s[i]
    ensures forall i :: 0 <= i < |s| && 'A' <= s[i] <= 'Z' ==> r[i] as int == s[i] as int + 32
  {
    seq(|s|, i requires 0 <= i < |s| => if 'A' <= s[i] <= 'Z' then (s[i] as int + 32) as char else s[i])
  }

  /** The primary key handed to the service: the configured one, lower-cased,
      when it is truthy (present and not empty), and "id" otherwise. */
  function NormalizedPrimaryKey(configured: Option<string>): (key: string)
    ensures configured.None? || configured == Some("") ==> key == "id"
    ensures configured.Some? && configured.value != "" ==> key == LowerAscii(configured.value)
  {
    if configured.Some? && configured.value != "" then LowerAscii(configured.value) else "id"
  }

  /** Normalizing an already normalized key changes nothing. */
  lemma NormalizedPrimaryKeyIdempotent(configured: Option<string>)
    ensures NormalizedPrimaryKey(Some(NormalizedPrimaryKey(configured))) == NormalizedPrimaryKey(configured)
  {
  }

  /** Keys that differ only in the case of ASCII letters select the same field. */
  lemma NormalizedPrimaryKeyIgnoresCase(a: string, b: string)
    requires |a| == |b|
    requires forall i :: 0 <= i < |a| ==>
      || a[i] == b[i]
      || ('A' <= a[i] <= 'Z' && b[i] as int == a[i] as int + 32)
      || ('A' <= b[i] <= 'Z' && a[i] as int == b[i] as int + 32)
    ensures NormalizedPrimaryKey(Some(a)) == NormalizedPrimaryKey(Some(b))
  {
    assert LowerAscii(a) == LowerAscii(b);
  }

  /** The service chosen by the `type` setting; an unknown tag falls back to Yii. */
  function AdapterFor(tag: string): (a: Adapter)
    ensures a == Ords <==> tag == "ords"
    ensures a == Demo <==> tag == "demo"
    ensures a == Yii <==> tag != "ords" && tag != "demo"
  {
    if tag == "yii" then Yii
    else if tag == "ords" then Ords
    else if tag == "demo" then Demo
    else Yii
  }

  /** The tag that names each service in the settings. */
  function AdapterTag(a: Adapter): string
  {
    match a
    case Yii => "yii"
    case Ords => "ords"
    case Demo => "demo"
  }

  /** Every service is reachable through its own tag. */
  lemma AdapterForTag(a: Adapter)
    ensures AdapterFor(AdapterTag(a)) == a
  {
  }

  /** `format`: a column whose format is not "date" shows its value unchanged;
      a "date" column shows what the locale formatter `dateText` makes of it. */
  function Format(value: Value, column: Column, dateText: Value -> Value): (shown: Value)
    ensures column.format != Some("date") ==> shown == value
    ensures column.format == Some("date") ==> shown == dateText(value)
  {
    if column.format.Some? && column.format.value == "date" then dateText(value) else value
  }

  /** The index `findSelectedItemIndex` reports for a snapshot: -1 when
      there is none. */
  function SnapshotIndex(rows: seq<Row>, snapshot: Option<Row>): int
  {
    if snapshot.None? then -1 else FirstIndexOf(rows, snapshot.value)
  }

  /** The rows after `items[findSelectedItemIndex()] = stored`: the first row
      equal to the snapshot is replaced by `stored`; with no such row the
      elements are left as they were. */
  function RowsAfterPut(rows: seq<Row>, snapshot: Option<Row>, stored: Row): (r: seq<Row>)
    ensures snapshot.None? || snapshot.value !in rows ==> r == rows
    ensures snapshot.Some? && snapshot.value in rows ==>
      var i := FirstIndexOf(rows, snapshot.value);
      && rows[i] == snapshot.value
      && r == rows[i := stored]
      && multiset(r) + multiset{snapshot.value} == multiset(rows) + multiset{stored}
  {
    if snapshot.Some? then
      OverwriteLocatedRow(rows, snapshot.value, stored);
      AssignedAt(rows, SnapshotIndex(rows, snapshot), stored)
    else
      AssignedAt(rows, SnapshotIndex(rows, snapshot), stored)
  }

  /** The rows after `items.splice(findSelectedItemIndex(), 1)`: exactly one
      row fewer unless there were none, namely the first row equal to the
      snapshot, or the last row when no row equals it. */
  function RowsAfterDelete(rows: seq<Row>, snapshot: Option<Row>): (r: seq<Row>)
    ensures rows == [] ==> r == []
    ensures rows != [] ==> |r| == |rows| - 1
    ensures rows != [] && (snapshot.None? || snapshot.value !in rows) ==> r == rows[..|rows| - 1]
    ensures snapshot.Some? && snapshot.value in rows ==>
      var i := FirstIndexOf(rows, snapshot.value);
      && rows[i] == snapshot.value
      && r == rows[..i] + rows[i + 1..]
      && multiset(r) + multiset{snapshot.value} == multiset(rows)
  {
    if rows == [] then
      SplicedOne(rows, SnapshotIndex(rows, snapshot))
    else if snapshot.Some? then
      RemoveLocatedRow(rows, snapshot.value);
      SplicedOne(rows, SnapshotIndex(rows, snapshot))
    else
      SpliceMinusOneDropsLast(rows);
      SplicedOne(rows, SnapshotIndex(rows, snapshot))
  }

  class CrudTableComponent {
    const settings: Settings

    var service: Option<ServiceConfig>
    var items: Option<seq<Row>>
    var item: Option<Row>
    var selectedItem: Option<Row>
    var newItem: bool
    var errors: Option<Error>
    var onDetailView: bool
    var loading: bool
    var itemsPerPage: int
    var totalItems: int
    var currentPage: int
    var filters: map<string, Value>
    var sortField: Option<string>
    var sortOrder: Option<int>

    /** All fields at once. */
    function State(): TableState
      reads this
    {
      TableState(service, items, item, selectedItem, newItem, errors, onDetailView, loading,
                 itemsPerPage, totalItems, currentPage, filters, sortField, sortOrder)
    }

    /** The component before `ngOnInit`: no rows loaded, ten rows per page,
        page 1, no filters and no sort. */
    constructor (settings: Settings)
      ensures this.settings == settings
      ensures State() == TableState(None, None, None, None, false, None, false, false, 10, 0, 1, map[], None, None)
    {
      this.settings := settings;
      service, items, item, selectedItem := None, None, None, None;
      newItem, errors, onDetailView, loading := false, None, false, false;
      itemsPerPage, totalItems, currentPage := 10, 0, 1;
      filters, sortField, sortOrder := map[], None, None;
    }

    /** `ngOnInit`: configure the service chosen by the settings, then dispatch the first load. */
    method NgOnInit() returns (req: Request)
      modifies this
      ensures service == Some(ServiceConfig(AdapterFor(settings.adapterType), settings.api,
                                            NormalizedPrimaryKey(settings.primaryKey)))
      ensures req == LoadCall(currentPage, filters, sortField, sortOrder)
      ensures State() == old(State()).(service := service, loading := true, errors := None)
    {
      service := Some(ServiceConfig(AdapterFor(settings.adapterType), settings.api,
                                    NormalizedPrimaryKey(settings.primaryKey)));
      req := GetItems();
    }

    /** `getItems`, dispatch: raise the busy flag, clear the error slot and
        request the current page with the current filters and sort. */
    method GetItems() returns (req: Request)
      modifies this
      ensures req == LoadCall(currentPage, filters, sortField, sortOrder)
      ensures State() == old(State()).(loading := true, errors := None)
    {
      loading := true;
      errors := None;
      req := LoadCall(currentPage, filters, sortField, sortOrder);
    }

    /** `getItems`, settled with a page: the rows are replaced wholesale and
        the pager figures come from the page's metadata. */
    method LoadSucceeded(page: Page)
      modifies this
      ensures items == Some(page.items) && totalItems == page.totalCount && itemsPerPage == page.perPage
      ensures !loading
      ensures State() == old(State()).(loading := false, items := Some(page.items),
                                       totalItems := page.totalCount, itemsPerPage := page.perPage)
    {
      loading := false;
      items := Some(page.items);
      totalItems := page.totalCount;
      itemsPerPage := page.perPage;
    }

    /** The `.catch` continuation of every backend call: lower the busy flag
        and store the error; rows, paging, filters and sort stay as they were. */
    method CallFailed(error: Error)
      modifies this
      ensures errors == Some(error) && !loading
      ensures items == old(items) && totalItems == old(totalItems) && itemsPerPage == old(itemsPerPage)
      ensures currentPage == old(currentPage) && filters == old(filters)
      ensures sortField == old(sortField) && sortOrder == old(sortOrder)
      ensures State() == old(State()).(loading := false, errors := Some(error))
    {
      loading := false;
      errors := Some(error);
    }

    /** `pageChanged`: move to page `page` and load it. */
    method PageChanged(page: int) returns (req: Request)
      modifies this
      ensures currentPage == page
      ensures req == LoadCall(page, filters, sortField, sortOrder)
      ensures State() == old(State()).(currentPage := page, loading := true, errors := None)
    {
      currentPage := page;
      req := GetItems();
    }

    /** `filter`: replace the filters and reload; the current page is kept. */
    method Filter(criteria: map<string, Value>) returns (req: Request)
      modifies this
      ensures filters == criteria && currentPage == old(currentPage)
      ensures req == LoadCall(old(currentPage), criteria, sortField, sortOrder)
      ensures State() == old(State()).(filters := criteria, loading := true, errors := None)
    {
      filters := criteria;
      req := GetItems();
    }

    /** `sort`: replace the sort field and order and reload; the current page is kept. */
    method Sort(field: string, order: int) returns (req: Request)
      modifies this
      ensures sortField == Some(field) && sortOrder == Some(order) && currentPage == old(currentPage)
      ensures req == LoadCall(old(currentPage), filters, Some(field), Some(order))
      ensures State() == old(State()).(sortField := Some(field), sortOrder := Some(order),
                                       loading := true, errors := None)
    {
      sortField := Some(field);
      sortOrder := Some(order);
      req := GetItems();
    }

    /** `save`, dispatch: post the draft when it is a new row, put it otherwise.
        Hiding the modal is not part of this model. */
    method Save() returns (req: Request)
      modifies this
      ensures req == if newItem then PostCall(item) else PutCall(item)
      ensures State() == old(State()).(loading := true, errors := None)
    {
      loading := true;
      errors := None;
      if newItem {
        req := PostCall(item);
      } else {
        req := PutCall(item);
      }
    }

    /** `save` of a new row, settled with the stored row: the stored row
        becomes the draft and is appended to the rows; when no rows were
        ever loaded the append throws and the chained `.catch` records it. */
    method PostSucceeded(stored: Row)
      modifies this
      ensures !loading && item == Some(stored)
      ensures old(items).Some? ==> items == Some(old(items).value + [stored])
      ensures old(items).Some? ==> State() == old(State()).(loading := false, item := Some(stored), items := items)
      ensures old(items).None? ==> State() == old(State()).(loading := false, item := Some(stored),
                                                            errors := Some(ItemsUndefined))
    {
      loading := false;
      item := Some(stored);
      if items.Some? {
        items := Some(items.value + [stored]);
      } else {
        loading := false;
        errors := Some(ItemsUndefined);
      }
    }

    /** `findSelectedItemIndex`: the first row structurally equal to the
        pre-edit snapshot, or -1 (also when there is no snapshot). */
    function FindSelectedItemIndex(): (i: int)
      reads this
      requires items.Some?
      ensures -1 <= i < |items.value|
      ensures i == -1 <==> selectedItem.None? || selectedItem.value !in items.value
      ensures 0 <= i ==> items.value[i] == selectedItem.value
      ensures forall j :: 0 <= j < i ==> items.value[j] != selectedItem.value
    {
      SnapshotIndex(items.value, selectedItem)
    }

    /** `save` of an existing row, settled with the stored row: the slot found
        by the pre-edit snapshot (not by the edited draft) is overwritten;
        index -1 leaves the elements unchanged. */
    method PutSucceeded(stored: Row)
      modifies this
      ensures !loading
      ensures old(items).Some? ==> items == Some(RowsAfterPut(old(items).value, old(selectedItem), stored))
      ensures old(items).Some? ==> State() == old(State()).(loading := false, items := items)
      ensures old(items).None? ==> State() == old(State()).(loading := false, errors := Some(ItemsUndefined))
    {
      loading := false;
      if items.Some? {
        var i := FindSelectedItemIndex();
        items := Some(AssignedAt(items.value, i, stored));
      } else {
        loading := false;
        errors := Some(ItemsUndefined);
      }
    }

    /** `delete`, dispatch: ask the backend to delete the current item.
        Hiding the modal is not part of this model. */
    method Delete() returns (req: Request)
      modifies this
      ensures req == DeleteCall(item)
      ensures State() == old(State()).(loading := true, errors := None)
    {
      loading := true;
      errors := None;
      req := DeleteCall(item);
    }

    /** `delete`, settled: `splice` one row at the snapshot's index (the last
        row when that index is -1), then drop the item and leave the detail view. */
    method DeleteSucceeded()
      modifies this
      ensures !loading
      ensures old(items).Some? ==> items == Some(RowsAfterDelete(old(items).value, old(selectedItem)))
      ensures old(items).Some? ==> State() == old(State()).(loading := false, items := items,
                                                            item := None, onDetailView := false)
      ensures old(items).None? ==> State() == old(State()).(loading := false, errors := Some(ItemsUndefined))
    {
      loading := false;
      if items.Some? {
        var i := FindSelectedItemIndex();
        items := Some(SplicedOne(items.value, i));
        item := None;
        onDetailView := false;
      } else {
        loading := false;
        errors := Some(ItemsUndefined);
      }
    }

    /** `cloneItem`: take a snapshot of `row` and return a copy of it. */
    method CloneItem(row: Row) returns (clone: Row)
      modifies this
      ensures clone == row && selectedItem == Some(row)
      ensures State() == old(State()).(selectedItem := Some(row))
    {
      selectedItem := Some(row);
      clone := row;
    }

    /** `onRowSelect`: edit an existing row. */
    method OnRowSelect(row: Row)
      modifies this
      ensures item == Some(row) && selectedItem == Some(row) && !newItem
      ensures State() == old(State()).(newItem := false, item := Some(row), selectedItem := Some(row))
    {
      newItem := false;
      var clone := CloneItem(row);
      item := Some(clone);
    }

    /** `createItem`: start a new, empty draft. Showing the modal is not part of this model. */
    method CreateItem()
      modifies this
      ensures newItem && item == Some([])
      ensures State() == old(State()).(newItem := true, item := Some([]))
    {
      newItem := true;
      item := Some([]);
    }

    /** `updateItem`: edit an existing row. Showing the modal is not part of this model. */
    method UpdateItem(row: Row)
      modifies this
      ensures item == Some(row) && selectedItem == Some(row) && !newItem
      ensures State() == old(State()).(newItem := false, item := Some(row), selectedItem := Some(row))
    {
      newItem := false;
      var clone := CloneItem(row);
      item := Some(clone);
    }

    /** `deleteItem`: select `row` and dispatch its deletion; `newItem` is left as it was. */
    method DeleteItem(row: Row) returns (req: Request)
      modifies this
      ensures req == DeleteCall(Some(row)) && item == Some(row) && selectedItem == Some(row)
      ensures State() == old(State()).(item := Some(row), selectedItem := Some(row),
                                       loading := true, errors := None)
    {
      var clone := CloneItem(row);
      item := Some(clone);
      req := Delete();
    }

    /** `viewDetails`: clear the error slot, select `row` and open the detail view. */
    method ViewDetails(row: Row)
      modifies this
      ensures item == Some(row) && selectedItem == Some(row) && onDetailView && errors.None?
      ensures State() == old(State()).(errors := None, item := Some(row), selectedItem := Some(row),
                                       onDetailView := true)
    {
      errors := None;
      var clone := CloneItem(row);
      item := Some(clone);
      onDetailView := true;
    }

    /** `closeDetails`: leave the detail view; the item stays selected. */
    method CloseDetails()
      modifies this
      ensures State() == old(State()).(onDetailView := false)
    {
      onDetailView := false;
    }

    /** `modalTitle`: "Добавить" (add) for a new row, "Редактировать" (edit) otherwise. */
    function ModalTitle(): (title: string)
      reads this
      ensures newItem <==> title == "Добавить"
      ensures !newItem <==> title == "Редактировать"
    {
      if newItem then "Добавить" else "Редактировать"
    }
  }

  /** Deleting a row that is no longer among the loaded rows removes the last row. */
  method DeleteWithStaleSnapshotScenario()
  {
    var a: Row := [("id", Num(1))];
    var b: Row := [("id", Num(2))];
    var gone: Row := [("id", Num(3))];
    var t := new CrudTableComponent(Settings("yii", "/api", None));
    t.LoadSucceeded(Page([a, b], 2, 10));
    var req := t.DeleteItem(gone);
    assert req == DeleteCall(Some(gone));
    assert t.items == Some([a, b]) && t.selectedItem == Some(gone);
    assert gone[0] != a[0] && gone[0] != b[0];
    t.DeleteSucceeded();
    assert [a, b][..1] == [a];
    assert t.items == Some([a]);
  }

  /** Of two equal rows, saving an edit of either overwrites the first. */
  method EditWithDuplicatesScenario()
  {
    var a: Row := [("name", Str("x"))];
    var b: Row := [("name", Str("y"))];
    var edited: Row := [("name", Str("z"))];
    var t := new CrudTableComponent(Settings("unknown", "/api", Some("ID")));
    var req := t.NgOnInit();
    assert LowerAscii("ID") == "id";
    assert t.service == Some(ServiceConfig(Yii, "/api", "id"));
    t.LoadSucceeded(Page([a, b, a], 3, 10));
    t.UpdateItem(a);
    req := t.Save();
    assert req == PutCall(Some(a));
    t.PutSucceeded(edited);
    assert AssignedAt([a, b, a], 0, edited) == [edited, b, a];
    // Of the two equal rows the first one is overwritten.
    assert t.items == Some([edited, b, a]);
  }
}
