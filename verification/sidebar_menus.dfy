/**
 * Which menu entry is highlighted for the current path. Both sidebars use the same
 * rule: the home entry only on "/" itself, every other entry on its path as a prefix.
 */
module MenuPaths {
  import opened JsStrings

  const Home := "/"

  function IsActive(pathname: string, path: string): (r: bool)
    ensures path == Home ==> (r <==> pathname == Home)
    ensures path != Home ==> (r <==> |path| <= |pathname| && pathname[..|path|] == path)
  {
    if path == Home then pathname == Home else StartsWith(pathname, path)
  }

  /** A page below an entry's path keeps that entry highlighted. */
  lemma SubpageKeepsActive(path: string, rest: string)
    requires path != Home
    ensures IsActive(path + rest, path)
  {
    assert (path + rest)[..|path|] == path;
  }

  /** A path that differs from `path` within `path`'s length does not start with it. */
  lemma DifferAt(pathname: string, path: string, k: nat)
    requires k < |path| && k < |pathname| && pathname[k] != path[k]
    ensures !StartsWith(pathname, path)
  {
  }

  /** The home entry is not highlighted on any other page, although every path starts with "/". */
  lemma HomeOnlyAtRoot(pathname: string)
    requires pathname != Home && StartsWith(pathname, Home)
    ensures !IsActive(pathname, Home)
  {
  }
}

/** The browser's history as far as the menus change it. */
module Navigation {

  class Router {
    var history: seq<string>

    constructor(start: string)
      ensures history == [start]
    {
      history := [start];
    }

    /** `router.push(path)`. */
    method Push(path: string)
      modifies this
      ensures history == old(history) + [path]
    {
      history := history + [path];
    }

    function Current(): (p: string)
      reads this
      requires history != []
      ensures p in history
    {
      history[|history| - 1]
    }
  }
}

/** The full sidebar's menu: four entries, each navigating to its own path. */
module SidebarMenu {
  import opened MenuPaths
  import opened Navigation

  datatype MenuItem = MenuItem(labelText: string, path: string, modal: bool)

  const MenuItems: seq<MenuItem> := [
    MenuItem("홈", "/", false),
    MenuItem("방송인", "/streamers", false),
    MenuItem("내 활동", "/activity", false),
    MenuItem("일정 등록", "/schedule/create", true)
  ]

  /** The small edit icon marks the entries that open a form. */
  function ShowsEditIcon(item: MenuItem): (r: bool)
    ensures r <==> item.modal
  {
    item.modal
  }

  /** Only the schedule-create entry carries the edit icon. */
  lemma EditIconOnlyOnCreate(i: int)
    requires 0 <= i < |MenuItems|
    ensures ShowsEditIcon(MenuItems[i]) <==> MenuItems[i].path == "/schedule/create"
  {
  }

  /** On a page of one entry exactly that entry is highlighted. */
  lemma OneEntryActivePerPage(i: int, j: int)
    requires 0 <= i < |MenuItems| && 0 <= j < |MenuItems|
    ensures IsActive(MenuItems[i].path, MenuItems[j].path) <==> i == j
  {
    if i != j && i != 0 && j != 0 {
      var k := if (i == 1 && j == 3) || (i == 3 && j == 1) then 2 else 1;
      DifferAt(MenuItems[i].path, MenuItems[j].path, k);
    }
  }

  /** `handleNavigation`: a click pushes the entry's own path. */
  method HandleNavigation(router: Router, i: int)
    requires 0 <= i < |MenuItems|
    modifies router
    ensures router.history == old(router.history) + [MenuItems[i].path]
    ensures router.Current() == MenuItems[i].path
  {
    router.Push(MenuItems[i].path);
  }
}

/**
 * The narrow sidebar's menu: its entries navigate, except schedule creation, which
 * opens the editor and is disabled for a visitor who is not signed in.
 */
module MiniSidebarMenu {
  import opened MenuPaths
  import opened Navigation
  import opened ScheduleEditorStore

  datatype Action = Push(target: string) | OpenScheduleCreate

  datatype MiniItem = MiniItem(labelText: string, path: string, modal: bool, disabled: bool, action: Action, needAuth: bool)

  const MiniItems: seq<MiniItem> := [
    MiniItem("홈", "/", false, false, Push("/"), false),
    MiniItem("관심 일정", "/schedules", false, false, Push("/schedules"), false),
    MiniItem("스트리머", "/streamers", false, false, Push("/streamers"), false),
    MiniItem("일정 등록", "/schedule/create", true, false, OpenScheduleCreate, true)
  ]

  /** The button's `disabled`: set on the entry, or the entry needs a signed-in user and there is none. */
  function IsDisabled(item: MiniItem, isAuthenticated: bool): (r: bool)
    ensures r <==> item.disabled || (item.needAuth && !isAuthenticated)
  {
    item.disabled || (item.needAuth && !isAuthenticated)
  }

  /** Only schedule creation can be disabled, and it is exactly when nobody is signed in. */
  lemma OnlyCreateCanBeDisabled(i: int, isAuthenticated: bool)
    requires 0 <= i < |MiniItems|
    ensures IsDisabled(MiniItems[i], isAuthenticated) <==> i == 3 && !isAuthenticated
    ensures MiniItems[i].action.OpenScheduleCreate? <==> i == 3
  {
  }

  /** Every navigating entry goes to its own path. */
  lemma NavigatesToOwnPath(i: int)
    requires 0 <= i < |MiniItems| && MiniItems[i].action.Push?
    ensures MiniItems[i].action.target == MiniItems[i].path
  {
  }

  /**
   * A click: nothing on a disabled button; otherwise the entry's action, a push of its
   * path or the editor opened in create mode with nothing being edited.
   */
  method Click(i: int, isAuthenticated: bool, router: Router, editor: EditorStore)
    requires 0 <= i < |MiniItems|
    modifies router, editor
    ensures IsDisabled(MiniItems[i], isAuthenticated) ==>
      router.history == old(router.history) &&
      editor.isScheduleModalOpen == old(editor.isScheduleModalOpen) &&
      editor.modalMode == old(editor.modalMode) && editor.editingSchedule == old(editor.editingSchedule)
    ensures !IsDisabled(MiniItems[i], isAuthenticated) && MiniItems[i].action.Push? ==>
      router.history == old(router.history) + [MiniItems[i].path] &&
      editor.isScheduleModalOpen == old(editor.isScheduleModalOpen) &&
      editor.modalMode == old(editor.modalMode) && editor.editingSchedule == old(editor.editingSchedule)
    ensures !IsDisabled(MiniItems[i], isAuthenticated) && MiniItems[i].action.OpenScheduleCreate? ==>
      router.history == old(router.history) &&
      editor.isScheduleModalOpen && editor.modalMode == Create && editor.editingSchedule.None?
  {
    var item := MiniItems[i];
    if IsDisabled(item, isAuthenticated) {
      return;
    }
    match item.action
    case Push(target) =>
      router.Push(target);
    case OpenScheduleCreate =>
      editor.OpenScheduleCreate();
  }
}
