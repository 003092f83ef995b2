/**
 * The streamer calendar: it shows one month of the schedules of the roster's active
 * streamers. Whenever the month, the active roster or the outside trigger changes it
 * asks for the whole-week range that covers the month; with no active streamer it
 * shows nothing and asks for nothing. The month navigation itself is not part of
 * this model.
 */
module StreamerScheduleView {
  import opened Wrappers
  import opened Services
  import opened Dates
  import opened Calendar
  import opened ScheduleBuckets
  import opened MyStreamers
  import opened ScheduleLikeStore

  /** The query for the month's whole-week range. */
  function RangeQuery(y: int, m: int, streamerUuids: Option<seq<string>>, platforms: Option<seq<string>>): (q: GetSchedulesDto)
    requires 1 <= m <= 12
    ensures q.startDate == FormatDateKey(GridStart(y, m)) && q.endDate == FormatDateKey(GridEnd(y, m))
    ensures q.streamerUuids == streamerUuids && q.platforms == platforms
  {
    GetSchedulesDto(FormatDateKey(GridStart(y, m)), FormatDateKey(GridEnd(y, m)), streamerUuids, platforms)
  }

  class StreamerSchedule {
    /** The shown month (of `currentDate`). */
    const year: int
    const month: int
    var schedulesData: seq<DaySchedules>
    var loading: bool

    constructor(y: int, m: int)
      requires 1 <= m <= 12
      ensures year == y && month == m && schedulesData == [] && !loading
    {
      year := y;
      month := m;
      schedulesData := [];
      loading := false;
    }

    /**
     * The load effect. Without an active streamer the data is cleared and no request is
     * made; otherwise the month's range is requested for the active streamers.
     */
    method BeginLoad(roster: MyStreamersStore, net: Network)
      requires 1 <= month <= 12
      modifies this, net
      ensures roster.GetScheduleFetchUuids() == [] ==>
        schedulesData == [] && loading == old(loading) && net.log == old(net.log)
      ensures roster.GetScheduleFetchUuids() != [] ==>
        schedulesData == old(schedulesData) && loading &&
        net.log == old(net.log) + [GetStreamerSchedules(RangeQuery(year, month, Some(roster.GetScheduleFetchUuids()), None))]
    {
      var uuids := roster.GetScheduleFetchUuids();
      if |uuids| == 0 {
        schedulesData := [];
        return;
      }
      loading := true;
      net.Send(GetStreamerSchedules(RangeQuery(year, month, Some(uuids), None)));
    }

    /** The answer: on success it replaces the data, on failure the data stays; loading ends either way. */
    method FinishLoad(succeeded: bool, data: seq<DaySchedules>)
      modifies this
      ensures !loading
      ensures schedulesData == if succeeded then data else old(schedulesData)
    {
      if succeeded {
        schedulesData := data;
      }
      loading := false;
    }

    /** The entries of one day cell, under the like overlay. */
    function ItemsForDate(dateKey: string, likes: LikeStore): (r: seq<Entry>)
      reads this, likes
      ensures (forall i | 0 <= i < |schedulesData| :: schedulesData[i].scheduleDate != dateKey) ==> r == []
    {
      SchedulesForDate(schedulesData, dateKey, likes.likedMap, likes.likeCountMap)
    }
  }
}

/**
 * The home calendar: every verified streamer's schedules for one month, filtered by
 * platform. The filter starts with every platform selected; the search box, the filter
 * and the refresh button each bump a trigger that reloads the month.
 */
module HomeScheduleView {
  import opened Wrappers
  import opened Services
  import opened Calendar
  import opened ScheduleBuckets
  import opened PlatformFilter
  import opened StreamerScheduleView
  import opened ScheduleLikeStore

  /** A calendar item: an entry with its uuid as the item id. */
  datatype CalendarItem = CalendarItem(id: string, entry: Entry)

  function WithIds(es: seq<Entry>): (r: seq<CalendarItem>)
    ensures |r| == |es|
    ensures forall i | 0 <= i < |es| :: r[i].entry == es[i] && r[i].id == es[i].item.uuid
  {
    seq(|es|, i requires 0 <= i < |es| => CalendarItem(es[i].item.uuid, es[i]))
  }

  class HomeSchedule {
    const year: int
    const month: int
    var searchName: string
    var selectedPlatforms: seq<Platform>
    var searchTrigger: int
    var schedulesData: seq<DaySchedules>
    var loading: bool

    /** The filter starts with all three platforms and the trigger at 0. */
    constructor(y: int, m: int)
      requires 1 <= m <= 12
      ensures year == y && month == m
      ensures searchName == "" && selectedPlatforms == AllPlatforms && searchTrigger == 0
      ensures schedulesData == [] && !loading
    {
      year := y;
      month := m;
      searchName := "";
      selectedPlatforms := AllPlatforms;
      searchTrigger := 0;
      schedulesData := [];
      loading := false;
    }

    method HandleSearchChange(value: string)
      modifies this
      ensures searchName == value && selectedPlatforms == old(selectedPlatforms) && searchTrigger == old(searchTrigger)
    {
      searchName := value;
    }

    method HandleSearch()
      modifies this
      ensures searchTrigger == old(searchTrigger) + 1
      ensures searchName == old(searchName) && selectedPlatforms == old(selectedPlatforms)
    {
      searchTrigger := searchTrigger + 1;
    }

    /** A platform checkbox: the platform's membership flips, the others stay, and the trigger is bumped. */
    method HandlePlatformChange(p: Platform)
      modifies this
      ensures selectedPlatforms == Toggle(old(selectedPlatforms), p)
      ensures p in selectedPlatforms <==> p !in old(selectedPlatforms)
      ensures forall q | q != p :: q in selectedPlatforms <==> q in old(selectedPlatforms)
      ensures searchTrigger == old(searchTrigger) + 1 && searchName == old(searchName)
    {
      ToggleFlips(selectedPlatforms, p);
      selectedPlatforms := Toggle(selectedPlatforms, p);
      searchTrigger := searchTrigger + 1;
    }

    method HandleRefresh()
      modifies this
      ensures searchTrigger == old(searchTrigger) + 1
      ensures searchName == old(searchName) && selectedPlatforms == old(selectedPlatforms)
    {
      searchTrigger := searchTrigger + 1;
    }

    /** The load effect: the month's range with the selected platforms, and no streamer filter. */
    method BeginLoad(net: Network)
      requires 1 <= month <= 12
      modifies this, net
      ensures loading && schedulesData == old(schedulesData)
      ensures net.log == old(net.log) + [GetStreamerSchedules(RangeQuery(year, month, None, Some(Names(selectedPlatforms))))]
    {
      loading := true;
      net.Send(GetStreamerSchedules(RangeQuery(year, month, None, Some(Names(selectedPlatforms)))));
    }

    method FinishLoad(succeeded: bool, data: seq<DaySchedules>)
      modifies this
      ensures !loading
      ensures schedulesData == if succeeded then data else old(schedulesData)
      ensures selectedPlatforms == old(selectedPlatforms) && searchTrigger == old(searchTrigger)
    {
      if succeeded {
        schedulesData := data;
      }
      loading := false;
    }

    /** The items of one day cell: the shared cell entries, each with its uuid as id. */
    function ItemsForDate(dateKey: string, likes: LikeStore): (r: seq<CalendarItem>)
      reads this, likes
      ensures |r| == |SchedulesForDate(schedulesData, dateKey, likes.likedMap, likes.likeCountMap)|
      ensures forall i | 0 <= i < |r| :: r[i].id == r[i].entry.item.uuid
      ensures (forall i | 0 <= i < |schedulesData| :: schedulesData[i].scheduleDate != dateKey) ==> r == []
    {
      WithIds(SchedulesForDate(schedulesData, dateKey, likes.likedMap, likes.likeCountMap))
    }
  }

  /** Clicking the same platform twice restores the home filter's platform set. */
  method PlatformClickedTwice(h: HomeSchedule, p: Platform)
    modifies h
    ensures forall q :: q in h.selectedPlatforms <==> q in old(h.selectedPlatforms)
    ensures h.searchTrigger == old(h.searchTrigger) + 2
  {
    ToggleTwice(h.selectedPlatforms, p);
    h.HandlePlatformChange(p);
    h.HandlePlatformChange(p);
  }
}
