/**
 * The CRUD table component of src/ng-crud-table/crud-table/crud-table.component.ts:
 * a thin state machine over a `DataManager` that owns the rows, the settings,
 * the selection and the filters. The data manager's own code is not part of
 * this model; it is kept as a class of abstract fields, and the calls the
 * component makes into it are modelled by their effect on those fields:
 * `setItem(i)` records row `i` as selected, `clearItem()` records no
 * selection, `getItems()` and `dataService.onFilter()` count the loads and
 * filter events they start, and `setSettings(s)` stores `s`.
 */
module NgCrudTable {
  import opened Rows

  /** The `settings` input, restricted to the flags this component and its
      data manager read. */
  datatype Settings = Settings(
    api: string,
    crud: bool,
    singleRowView: bool,
    clientSide: bool,
    initLoad: bool,
    sortable: bool,
    filter: bool)

  /** The user-visible titles the row menu shows. */
  datatype Messages = Messages(titleDetailView: string, titleUpdate: string)

  /** One entry of the per-row action menu (`text` is its `label`). */
  datatype MenuItem = MenuItem(text: string, icon: string, command: string, disabled: bool)

  /** What the row-menu channel delivers: the entry chosen and the row it was chosen on. */
  datatype RowMenuEvent = RowMenuEvent(menuItem: MenuItem, rowIndex: int)

  /** The row the data manager holds for the edit form. */
  datatype ItemSlot = NoItem | RowAt(index: int)

  /** The event channels of the data manager's data service. */
  datatype Channel = SelectionChannel | FilterChannel | SortChannel | PageChannel | EditChannel | RowMenuChannel

  /** What a row-menu command makes the component do. */
  datatype RowAction = ViewRow | UpdateRow | NoAction

  /** An opaque handle on the data source the component is given. */
  type DataSourceId = nat

  /** Every abstract field of the data manager, for stating what a step leaves alone. */
  datatype ManagerState = ManagerState(
    settings: Settings,
    messages: Messages,
    service: Option<DataSourceId>,
    detailView: bool,
    errors: Option<Error>,
    item: ItemSlot,
    filters: map<string, Value>,
    isGlobal: bool,
    actionMenu: seq<MenuItem>,
    loadsRequested: nat,
    filterEvents: nat)

  /** The per-row menu built by `initRowMenu`. */
  function RowMenu(settings: Settings, messages: Messages): (menu: seq<MenuItem>)
    ensures |menu| == 2
    ensures menu[0].command == "view" && menu[0].text == messages.titleDetailView
    ensures menu[0].disabled <==> !settings.singleRowView
    ensures menu[1].command == "update" && menu[1].text == messages.titleUpdate
    ensures menu[1].disabled <==> !settings.crud
  {
    [ MenuItem(messages.titleDetailView, "icon icon-rightwards", "view", !settings.singleRowView),
      MenuItem(messages.titleUpdate, "icon icon-pencil", "update", !settings.crud) ]
  }

  /** The action `onRowMenu` takes for a command. */
  function MenuAction(command: string): RowAction
  {
    if command == "view" then ViewRow
    else if command == "update" then UpdateRow
    else NoAction
  }

  /** Every entry of the row menu is one `onRowMenu` acts on: the first opens
      the detail view, the second the edit form. */
  lemma RowMenuEntriesAreHandled(settings: Settings, messages: Messages)
    ensures var menu := RowMenu(settings, messages);
      && MenuAction(menu[0].command) == ViewRow
      && MenuAction(menu[1].command) == UpdateRow
      && forall m :: m in menu ==> MenuAction(m.command) != NoAction
  {
  }

  /** The channels `ngOnInit` subscribes to, in the order it registers them. */
  function InitChannels(): seq<Channel>
  {
    [SelectionChannel, FilterChannel, SortChannel, PageChannel, EditChannel, RowMenuChannel]
  }

  /** The channel of each subscription. */
  function ChannelsOf(subs: seq<Subscription>): (channels: seq<Channel>)
    ensures |channels| == |subs|
    ensures forall k :: 0 <= k < |subs| ==> channels[k] == subs[k].channel
  {
    seq(|subs|, k requires 0 <= k < |subs| => subs[k].channel)
  }

  /** A handle on one subscription to a data-service channel. */
  class Subscription {
    const channel: Channel
    var closed: bool

    constructor (channel: Channel)
      ensures this.channel == channel && !closed
    {
      this.channel := channel;
      closed := false;
    }

    /** `unsubscribe`: the handle stops delivering events; closing twice is harmless. */
    method Unsubscribe()
      modifies this
      ensures closed
    {
      closed := true;
    }
  }

  /** The data manager, as far as this component sees it. */
  class DataManager {
    var settings: Settings
    var messages: Messages
    var service: Option<DataSourceId>
    var detailView: bool
    var errors: Option<Error>
    var item: ItemSlot
    var filters: map<string, Value>
    var isGlobal: bool
    var actionMenu: seq<MenuItem>
    var loadsRequested: nat
    var filterEvents: nat

    function State(): ManagerState
      reads this
    {
      ManagerState(settings, messages, service, detailView, errors, item, filters, isGlobal,
                   actionMenu, loadsRequested, filterEvents)
    }

    /** A fresh data manager; its default settings and messages are parameters. */
    constructor (settings: Settings, messages: Messages)
      ensures State() == ManagerState(settings, messages, None, false, None, NoItem, map[], false, [], 0, 0)
    {
      this.settings := settings;
      this.messages := messages;
      service, detailView, errors, item := None, false, None, NoItem;
      filters, isGlobal, actionMenu := map[], false, [];
      loadsRequested, filterEvents := 0, 0;
    }
  }

  class CrudTableComponent {
    const dataManager: DataManager
    var service: DataSourceId
    var subscriptions: seq<Subscription>

    /** The constructor creates the component's own data manager. */
    constructor (service: DataSourceId, defaults: Settings, messages: Messages)
      ensures fresh(dataManager)
      ensures dataManager.State() == ManagerState(defaults, messages, None, false, None, NoItem, map[], false, [], 0, 0)
      ensures this.service == service && subscriptions == []
    {
      dataManager := new DataManager(defaults, messages);
      this.service := service;
      subscriptions := [];
    }

    /** The `settings` setter: whatever the input says, the table pages on the server. */
    method SetSettings(val: Settings)
      modifies dataManager
      ensures !dataManager.settings.clientSide
      ensures dataManager.State() == old(dataManager.State()).(settings := val.(clientSide := false))
    {
      dataManager.settings := val;
      dataManager.settings := dataManager.settings.(clientSide := false);
    }

    /** The `filters` setter. */
    method SetFilters(val: map<string, Value>)
      modifies dataManager
      ensures dataManager.State() == old(dataManager.State()).(filters := val)
    {
      dataManager.filters := val;
    }

    /** `ngOnInit`: hand the data source to the data manager, build the row
        menu, load only when `initLoad` is set, and subscribe once to each of
        the six channels. */
    method NgOnInit()
      modifies this, dataManager
      ensures service == old(service)
      ensures dataManager.actionMenu == RowMenu(dataManager.settings, dataManager.messages)
      ensures dataManager.loadsRequested == old(dataManager.loadsRequested) + if dataManager.settings.initLoad then 1 else 0
      ensures dataManager.State() == old(dataManager.State()).(service := Some(service),
                actionMenu := dataManager.actionMenu, loadsRequested := dataManager.loadsRequested)
      ensures |subscriptions| == |old(subscriptions)| + 6
      ensures subscriptions[..|old(subscriptions)|] == old(subscriptions)
      ensures ChannelsOf(subscriptions[|old(subscriptions)|..]) == InitChannels()
      ensures forall k :: |old(subscriptions)| <= k < |subscriptions| ==> fresh(subscriptions[k]) && !subscriptions[k].closed
    {
      dataManager.service := Some(service);
      InitRowMenu();
      if dataManager.settings.initLoad {
        dataManager.loadsRequested := dataManager.loadsRequested + 1;
      }
      SubscribeChannels();
    }

    /** The six `subscribe` calls of `ngOnInit` and the pushes that register them. */
    method SubscribeChannels()
      modifies this
      ensures service == old(service)
      ensures |subscriptions| == |old(subscriptions)| + 6
      ensures subscriptions[..|old(subscriptions)|] == old(subscriptions)
      ensures ChannelsOf(subscriptions[|old(subscriptions)|..]) == InitChannels()
      ensures forall k :: |old(subscriptions)| <= k < |subscriptions| ==> fresh(subscriptions[k]) && !subscriptions[k].closed
    {
      var subSelection := new Subscription(SelectionChannel);
      var subFilter := new Subscription(FilterChannel);
      var subSort := new Subscription(SortChannel);
      var subPage := new Subscription(PageChannel);
      var subEdit := new Subscription(EditChannel);
      var subRowMenu := new Subscription(RowMenuChannel);
      var added := [subSelection, subFilter, subSort, subPage, subEdit, subRowMenu];
      assert ChannelsOf(added) == InitChannels();
      subscriptions := subscriptions + added;
      assert subscriptions[|old(subscriptions)|..] == added;
    }

    /** `ngOnDestroy`: every registered subscription is closed. */
    method NgOnDestroy()
      modifies set s | s in subscriptions
      ensures forall s :: s in subscriptions ==> s.closed
    {
      var i := 0;
      while i < |subscriptions|
        invariant 0 <= i <= |subscriptions|
        invariant forall k :: 0 <= k < i ==> subscriptions[k].closed
      {
        subscriptions[i].Unsubscribe();
        i := i + 1;
      }
    }

    /** `initRowMenu`: install the two-entry row menu. */
    method InitRowMenu()
      modifies dataManager
      ensures dataManager.State() == old(dataManager.State()).(
                actionMenu := RowMenu(dataManager.settings, dataManager.messages))
    {
      dataManager.actionMenu := RowMenu(dataManager.settings, dataManager.messages);
    }

    /** `onRowMenu`: "view" opens the row in the detail view, "update" in the
        edit form, and any other command does nothing. */
    method OnRowMenu(event: RowMenuEvent)
      modifies dataManager
      ensures MenuAction(event.menuItem.command) == ViewRow ==>
        dataManager.State() == old(dataManager.State()).(errors := None, item := RowAt(event.rowIndex), detailView := true)
      ensures MenuAction(event.menuItem.command) == UpdateRow ==>
        dataManager.State() == old(dataManager.State()).(item := RowAt(event.rowIndex), detailView := false)
      ensures MenuAction(event.menuItem.command) == NoAction ==>
        dataManager.State() == old(dataManager.State())
    {
      if event.menuItem.command == "view" {
        ViewAction(event.rowIndex);
      } else if event.menuItem.command == "update" {
        UpdateAction(event.rowIndex);
      }
    }

    /** `createAction`: clear the item and open the form for a new row.
        Opening the modal is not part of this model. */
    method CreateAction()
      modifies dataManager
      ensures dataManager.State() == old(dataManager.State()).(item := NoItem, detailView := false)
    {
      dataManager.item := NoItem;
      dataManager.detailView := false;
    }

    /** `viewAction`: clear the error, select the row and show it read-only. */
    method ViewAction(rowIndex: int)
      modifies dataManager
      ensures dataManager.State() == old(dataManager.State()).(errors := None, item := RowAt(rowIndex), detailView := true)
    {
      dataManager.errors := None;
      dataManager.item := RowAt(rowIndex);
      dataManager.detailView := true;
    }

    /** `updateAction`: select the row and show it for editing; the error slot is kept. */
    method UpdateAction(rowIndex: int)
      modifies dataManager
      ensures dataManager.State() == old(dataManager.State()).(item := RowAt(rowIndex), detailView := false)
    {
      dataManager.item := RowAt(rowIndex);
      dataManager.detailView := false;
    }

    /** `refresh`, and equally `onFilter`, `onPageChanged` and `onSort`: start one load. */
    method Refresh()
      modifies dataManager
      ensures dataManager.State() == old(dataManager.State()).(loadsRequested := old(dataManager.loadsRequested) + 1)
    {
      dataManager.loadsRequested := dataManager.loadsRequested + 1;
    }

    /** `globalFilter`: drop the per-column filters, switch to global search
        and fire one filter event. */
    method GlobalFilter()
      modifies dataManager
      ensures dataManager.filters == map[] && dataManager.isGlobal
      ensures dataManager.State() == old(dataManager.State()).(filters := map[], isGlobal := true,
                filterEvents := old(dataManager.filterEvents) + 1)
    {
      dataManager.filters := map[];
      dataManager.isGlobal := true;
      dataManager.filterEvents := dataManager.filterEvents + 1;
    }

    /** `onClickGlobalSearch`. */
    method OnClickGlobalSearch()
      modifies dataManager
      ensures dataManager.State() == old(dataManager.State()).(filters := map[], isGlobal := true,
                filterEvents := old(dataManager.filterEvents) + 1)
    {
      GlobalFilter();
    }

    /** `onKeyPressGlobalSearch`: only the Enter key (code 13) runs the global filter. */
    method OnKeyPressGlobalSearch(which: int)
      modifies dataManager
      ensures which == 13 ==> dataManager.State() == old(dataManager.State()).(filters := map[], isGlobal := true,
                filterEvents := old(dataManager.filterEvents) + 1)
      ensures which != 13 ==> dataManager.State() == old(dataManager.State())
    {
      if which == 13 {
        GlobalFilter();
      }
    }
  }

  /** Subscribing, then tearing down, closes the six handles. */
  method LifecycleScenario()
  {
    var messages := Messages("Details", "Edit");
    var t := new CrudTableComponent(7, Settings("/api", true, false, true, false, true, true), messages);
    t.SetSettings(Settings("/api", false, true, true, true, true, true));
    assert !t.dataManager.settings.clientSide;
    t.NgOnInit();
    assert t.dataManager.loadsRequested == 1;
    assert t.dataManager.actionMenu[0].disabled == false && t.dataManager.actionMenu[1].disabled;
    assert |t.subscriptions| == 6;
    t.NgOnDestroy();
    assert forall k :: 0 <= k < 6 ==> t.subscriptions[k].closed;
  }
}
