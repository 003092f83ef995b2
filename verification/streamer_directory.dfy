/**
 * The streamer directory table: its column count, the empty-result message, the row
 * numbers across pages and when the pager shows.
 */
module StreamerTable {
  import opened JsStrings

  const GenericEmpty := "스트리머를 찾을 수 없습니다"
  const EmptySuffix := "에 대한 스트리머를 찾을 수 없습니다"
  const PlatformSuffix := " 플랫폼"

  /** The verified tab shows seven columns, the pending tab five. */
  function ColumnCount(isVerified: bool): (n: int)
    ensures isVerified ==> n == 7
    ensures !isVerified ==> n == 5
  {
    if isVerified then 7 else 5
  }

  /** The parts of the empty message: the quoted search, then the platforms. */
  function EmptyParts(searchName: string, platforms: seq<string>): (parts: seq<string>)
    ensures |parts| == (if searchName != "" then 1 else 0) + (if |platforms| > 0 then 1 else 0)
    ensures forall i | 0 <= i < |parts| :: parts[i] != ""
  {
    (if searchName != "" then ["\"" + searchName + "\""] else []) +
    (if |platforms| > 0 then [Join(platforms, ", ") + PlatformSuffix] else [])
  }

  /** `getEmptyDescription`. */
  function EmptyDescription(searchName: string, platforms: seq<string>): (r: string)
  {
    var searchPart := Join(EmptyParts(searchName, platforms), " · ");
    if searchPart != "" then searchPart + EmptySuffix else GenericEmpty
  }

  lemma JoinNonEmpty(parts: seq<string>, sep: string)
    requires parts != [] && parts[0] != ""
    ensures Join(parts, sep) != ""
  {
  }

  /** The generic message shows exactly when there is neither a search nor a platform filter. */
  lemma EmptyDescriptionGenericIff(searchName: string, platforms: seq<string>)
    ensures EmptyDescription(searchName, platforms) == GenericEmpty <==> searchName == "" && platforms == []
  {
    var parts := EmptyParts(searchName, platforms);
    if parts != [] {
      JoinNonEmpty(parts, " · ");
      var searchPart := Join(parts, " · ");
      assert EmptyDescription(searchName, platforms) == searchPart + EmptySuffix;
      assert |searchPart + EmptySuffix| > |EmptySuffix| >= |GenericEmpty| - 1;
      assert (searchPart + EmptySuffix)[|searchPart + EmptySuffix| - |EmptySuffix|..] == EmptySuffix;
      assert |GenericEmpty| < |searchPart + EmptySuffix|;
    }
  }

  /** With only a search, the message quotes it. */
  lemma EmptyDescriptionSearchOnly(searchName: string)
    requires searchName != ""
    ensures EmptyDescription(searchName, []) == "\"" + searchName + "\"" + EmptySuffix
  {
  }

  /** With both, the quoted search and the platform list are joined by " · ". */
  lemma EmptyDescriptionBoth(searchName: string, platforms: seq<string>)
    requires searchName != "" && platforms != []
    ensures EmptyDescription(searchName, platforms) ==
      "\"" + searchName + "\"" + " · " + Join(platforms, ", ") + PlatformSuffix + EmptySuffix
  {
    var a := "\"" + searchName + "\"";
    var b := Join(platforms, ", ") + PlatformSuffix;
    var parts := EmptyParts(searchName, platforms);
    assert parts == [a, b];
    assert parts[1..] == [b];
    assert Join(parts, " · ") == a + " · " + b;
    assert a + " · " + b + EmptySuffix == a + " · " + Join(platforms, ", ") + PlatformSuffix + EmptySuffix;
  }

  /** The row number of the row at `index` on page `currentPage`. */
  function RowNumber(currentPage: int, pageSize: int, index: int): int {
    (currentPage - 1) * pageSize + index + 1
  }

  /** Rows on a page are numbered consecutively, and the next page carries on where a full page stopped. */
  lemma RowNumbersConsecutive(currentPage: int, pageSize: int, index: int)
    requires currentPage >= 1 && pageSize >= 1 && 0 <= index
    ensures RowNumber(currentPage, pageSize, index + 1) == RowNumber(currentPage, pageSize, index) + 1
    ensures RowNumber(currentPage + 1, pageSize, 0) == RowNumber(currentPage, pageSize, pageSize - 1) + 1
    ensures RowNumber(1, pageSize, 0) == 1
  {
  }

  /** The pager shows only when there is more than one page of results. */
  function ShowPagination(totalCount: int, pageSize: int): (r: bool)
    ensures r <==> totalCount > pageSize
  {
    totalCount > pageSize
  }

  /** The verification date cell: a dash when there is no date, else the date in the browser's format. */
  datatype VerifiedCell = Dash | LocaleDate(iso: string)

  function VerifiedAtCell(verifiedAt: string): (c: VerifiedCell)
    ensures c == Dash <==> verifiedAt == ""
    ensures c.LocaleDate? ==> c.iso == verifiedAt
  {
    if verifiedAt == "" then Dash else LocaleDate(verifiedAt)
  }
}

/**
 * The directory's data hook: one page of streamers fetched with the tab, the platform
 * filter and the search, the page being shown, and the detail dialog's selection.
 */
module StreamerList {
  import opened Wrappers
  import opened JsStrings
  import opened Services

  const PageSize := 15
  const UnknownError := "알 수 없는 오류가 발생했습니다."

  /** A streamer row as the list shows it (only the key fields are modelled). */
  datatype ListedStreamer = ListedStreamer(uuid: string, name: string, verifiedAt: string)

  datatype StreamerPage = StreamerPage(data: seq<ListedStreamer>, totalCount: int, page: int, size: int)

  /** The response as it may arrive: any field can be missing. */
  datatype RawPage = RawPage(data: Option<seq<ListedStreamer>>, totalCount: Option<int>, page: Option<int>, size: Option<int>)

  /** `x || fallback` on a number: a missing value or 0 takes the fallback. */
  function OrNumber(x: Option<int>, fallback: int): (r: int)
    ensures x.Some? && x.value != 0 ==> r == x.value
    ensures x.None? || x.value == 0 ==> r == fallback
  {
    if x.None? || x.value == 0 then fallback else x.value
  }

  /** The request body: platforms only when some are selected, the search only when it is not blank, trimmed. */
  function ListRequest(isVerified: bool, platforms: seq<string>, page: int, qName: string): (b: StreamerListRequest)
    ensures b.isVerified == isVerified && b.page == page && b.size == PageSize
    ensures b.platforms.Some? <==> platforms != []
    ensures b.platforms.Some? ==> b.platforms.value == platforms
    ensures b.qName.Some? <==> Trim(qName) != ""
    ensures b.qName.Some? ==> b.qName.value == Trim(qName) && b.qName.value != ""
  {
    StreamerListRequest(
      isVerified, page, PageSize,
      if |platforms| > 0 then Some(platforms) else None,
      if Trim(qName) != "" then Some(Trim(qName)) else None)
  }

  /** A successful answer, with the defaults for what is missing. */
  function Received(response: Option<RawPage>, page: int): (p: StreamerPage)
    ensures response.None? ==> p == StreamerPage([], 0, page, PageSize)
    ensures response.Some? && response.value.data.Some? ==> p.data == response.value.data.value
    ensures response.None? || response.value.data.None? ==> p.data == []
    ensures p.totalCount == (if response.Some? then OrNumber(response.value.totalCount, 0) else 0)
    ensures p.page == (if response.Some? then OrNumber(response.value.page, page) else page)
    ensures p.size == (if response.Some? then OrNumber(response.value.size, PageSize) else PageSize)
  {
    var content := response.GetOr(RawPage(None, None, None, None));
    StreamerPage(content.data.GetOr([]), OrNumber(content.totalCount, 0), OrNumber(content.page, page), OrNumber(content.size, PageSize))
  }

  class StreamerListState {
    var data: StreamerPage
    var isLoading: bool
    var error: Option<string>
    var currentPage: int
    var selectedStreamer: Option<ListedStreamer>
    var isDetailOpen: bool
    /** The page the request in flight asked for. */
    var requestedPage: int

    constructor()
      ensures data == StreamerPage([], 0, 1, PageSize) && !isLoading && error == None
      ensures currentPage == 1 && selectedStreamer == None && !isDetailOpen
    {
      data := StreamerPage([], 0, 1, PageSize);
      isLoading := false;
      error := None;
      currentPage := 1;
      selectedStreamer := None;
      isDetailOpen := false;
      requestedPage := 1;
    }

    /** `fetchStreamers(page, qName)` up to the request: loading starts and the error is cleared. */
    method BeginFetch(isVerified: bool, platforms: seq<string>, page: int, qName: string, net: Network)
      modifies this, net
      ensures isLoading && error == None && requestedPage == page
      ensures net.log == old(net.log) + [GetStreamerList(ListRequest(isVerified, platforms, page, qName))]
      ensures data == old(data) && currentPage == old(currentPage)
      ensures selectedStreamer == old(selectedStreamer) && isDetailOpen == old(isDetailOpen)
    {
      isLoading := true;
      error := None;
      requestedPage := page;
      net.Send(GetStreamerList(ListRequest(isVerified, platforms, page, qName)));
    }

    /** A filter or trigger change: the first page with the current search. */
    method Refetch(isVerified: bool, platforms: seq<string>, searchName: string, net: Network)
      modifies this, net
      ensures isLoading && error == None && requestedPage == 1
      ensures net.log == old(net.log) + [GetStreamerList(ListRequest(isVerified, platforms, 1, searchName))]
      ensures data == old(data) && currentPage == old(currentPage)
    {
      BeginFetch(isVerified, platforms, 1, searchName, net);
    }

    /** A page button: that page with the current search. */
    method HandlePageChange(isVerified: bool, platforms: seq<string>, page: int, searchName: string, net: Network)
      modifies this, net
      ensures isLoading && error == None && requestedPage == page
      ensures net.log == old(net.log) + [GetStreamerList(ListRequest(isVerified, platforms, page, searchName))]
      ensures data == old(data) && currentPage == old(currentPage)
    {
      BeginFetch(isVerified, platforms, page, searchName, net);
    }

    /**
     * The answer. On success the page is stored with its defaults and becomes the
     * current page; on failure the data is an empty first page, the error is set and
     * the current page stays. Loading ends either way.
     */
    method FinishFetch(succeeded: bool, response: Option<RawPage>, errorMessage: Option<string>)
      modifies this
      ensures !isLoading
      ensures succeeded ==> data == Received(response, old(requestedPage)) && currentPage == old(requestedPage) && error == old(error)
      ensures !succeeded ==>
        data == StreamerPage([], 0, 1, PageSize) && currentPage == old(currentPage) &&
        error == Some(errorMessage.GetOr(UnknownError))
      ensures selectedStreamer == old(selectedStreamer) && isDetailOpen == old(isDetailOpen)
    {
      if succeeded {
        data := Received(response, requestedPage);
        currentPage := requestedPage;
      } else {
        error := Some(errorMessage.GetOr(UnknownError));
        data := StreamerPage([], 0, 1, PageSize);
      }
      isLoading := false;
    }

    method OpenDetail(s: ListedStreamer)
      modifies this
      ensures selectedStreamer == Some(s) && isDetailOpen
      ensures data == old(data) && currentPage == old(currentPage)
    {
      selectedStreamer := Some(s);
      isDetailOpen := true;
    }

    /** Closing hides the dialog at once; the selection is cleared later by `SelectionTimerFired`. */
    method CloseDetail()
      modifies this
      ensures !isDetailOpen && selectedStreamer == old(selectedStreamer)
    {
      isDetailOpen := false;
    }

    method SelectionTimerFired()
      modifies this
      ensures selectedStreamer == None && isDetailOpen == old(isDetailOpen)
    {
      selectedStreamer := None;
    }
  }
}

/**
 * The streamer registration dialog's list of platform rows. The rows are objects: a
 * field edit copies the list but writes into the row object itself, which the previous
 * list shares.
 */
module RegisterStreamer {

  const MaxRows := 10

  /** The platform choices of the row selector. */
  const PlatformOptions: seq<(string, string)> := [("치지직", "chzzk"), ("youtube", "youtube"), ("숲", "soop")]

  class PlatformRow {
    var platformName: string
    var channelUrl: string

    constructor()
      ensures platformName == "" && channelUrl == ""
    {
      platformName := "";
      channelUrl := "";
    }
  }

  datatype Field = PlatformName | ChannelUrl

  class RegisterDialog {
    var platforms: seq<PlatformRow>

    /** No row object appears twice in the list. */
    ghost predicate Valid()
      reads this
    {
      forall i, j | 0 <= i < j < |platforms| :: platforms[i] != platforms[j]
    }

    /** The rows' values, in order. */
    function Contents(): (c: seq<(string, string)>)
      reads this, platforms
      ensures |c| == |platforms|
    {
      seq(|platforms|, i reads this, platforms requires 0 <= i < |platforms| =>
        (platforms[i].platformName, platforms[i].channelUrl))
    }

    /** The list starts with one empty row. */
    constructor()
      ensures Valid() && Contents() == [("", "")]
    {
      var row := new PlatformRow();
      platforms := [row];
    }

    /** Adds an empty row unless there are already ten. */
    method HandleAddPlatform()
      requires Valid()
      modifies this
      ensures Valid()
      ensures |old(platforms)| >= MaxRows ==> platforms == old(platforms)
      ensures |old(platforms)| < MaxRows ==> Contents() == old(Contents()) + [("", "")]
    {
      if |platforms| >= 10 {
        return;
      }
      var row := new PlatformRow();
      platforms := platforms + [row];
    }

    /** Deletes exactly the row at `index` and keeps the others in order; an index past the end deletes nothing. */
    method HandleRemovePlatform(index: int)
      requires Valid()
      modifies this
      ensures Valid()
      ensures 0 <= index < |old(platforms)| ==> Contents() == old(Contents())[..index] + old(Contents())[index + 1..]
      ensures !(0 <= index < |old(platforms)|) ==> platforms == old(platforms)
    {
      if 0 <= index < |platforms| {
        platforms := platforms[..index] + platforms[index + 1..];
      }
    }

    /** Writes one field of one row; every other row and the other field keep their values. */
    method HandleChangePlatform(index: int, field: Field, value: string)
      requires Valid() && 0 <= index < |platforms|
      modifies platforms[index]
      ensures Valid()
      ensures Contents() == old(Contents())[index :=
        if field.PlatformName? then (value, old(Contents())[index].1) else (old(Contents())[index].0, value)]
    {
      var row := platforms[index];
      if field.PlatformName? {
        row.platformName := value;
      } else {
        row.channelUrl := value;
      }
    }

    /** The delete buttons show only when more than one row is left. */
    function ShowRemoveButton(): (r: bool)
      reads this
      ensures r ==> |platforms| >= 2
      ensures |platforms| >= 2 ==> r
    {
      |platforms| > 1
    }

    /** The add button shows only while there are fewer rows than platform choices. */
    function ShowAddButton(): (r: bool)
      reads this
      ensures r <==> |platforms| < |PlatformOptions|
      ensures r ==> |platforms| < MaxRows
    {
      |platforms| < |PlatformOptions|
    }
  }
}

/**
 * The directory page: the tab, the search, the platform filter and the trigger that
 * makes the data hook fetch again.
 */
module StreamersPage {
  import opened PlatformFilter

  datatype Tab = Verified | Loading

  class StreamersPageState {
    var activeTab: Tab
    var searchName: string
    var selectedPlatforms: seq<Platform>
    var searchTrigger: int

    /** The page opens on the verified tab with no search and no platform filter. */
    constructor()
      ensures activeTab == Verified && searchName == "" && selectedPlatforms == [] && searchTrigger == 0
    {
      activeTab := Verified;
      searchName := "";
      selectedPlatforms := [];
      searchTrigger := 0;
    }

    /** What the data hook is asked for. */
    function IsVerified(): (r: bool)
      reads this
      ensures r <==> activeTab.Verified?
    {
      activeTab == Verified
    }

    method HandleSearch()
      modifies this
      ensures searchTrigger == old(searchTrigger) + 1
      ensures activeTab == old(activeTab) && searchName == old(searchName) && selectedPlatforms == old(selectedPlatforms)
    {
      searchTrigger := searchTrigger + 1;
    }

    method HandlePlatformChange(p: Platform)
      modifies this
      ensures selectedPlatforms == Toggle(old(selectedPlatforms), p)
      ensures p in selectedPlatforms <==> p !in old(selectedPlatforms)
      ensures forall q | q != p :: q in selectedPlatforms <==> q in old(selectedPlatforms)
      ensures searchTrigger == old(searchTrigger) + 1
      ensures activeTab == old(activeTab) && searchName == old(searchName)
    {
      ToggleFlips(selectedPlatforms, p);
      selectedPlatforms := Toggle(selectedPlatforms, p);
      searchTrigger := searchTrigger + 1;
    }

    /** The refresh button clears the search and the filter and fetches again. */
    method HandleRefresh()
      modifies this
      ensures searchName == "" && selectedPlatforms == [] && searchTrigger == old(searchTrigger) + 1
      ensures activeTab == old(activeTab)
    {
      searchName := "";
      selectedPlatforms := [];
      searchTrigger := searchTrigger + 1;
    }

    method HandleTabChange(tab: Tab)
      modifies this
      ensures activeTab == tab
      ensures searchName == old(searchName) && selectedPlatforms == old(selectedPlatforms) && searchTrigger == old(searchTrigger)
    {
      activeTab := tab;
    }

    method HandleSearchChange(value: string)
      modifies this
      ensures searchName == value
      ensures activeTab == old(activeTab) && selectedPlatforms == old(selectedPlatforms) && searchTrigger == old(searchTrigger)
    {
      searchName := value;
    }
  }
}
