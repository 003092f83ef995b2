/**
 * What the two calendars show in a day cell. The server answers with one record per
 * date holding three buckets (breaks, undecided times, scheduled streams); a cell shows
 * the record of its date key with the buckets concatenated in that order, each entry
 * tagged with its bucket, and with the like flag and count taken from the optimistic
 * like overlay where it has an entry.
 */
module ScheduleBuckets {
  import opened Wrappers

  /** One schedule of a bucket. The like fields are not in the response type; the view reads them anyway. */
  datatype ScheduleInfo = ScheduleInfo(
    uuid: string,
    startTime: Option<string>,
    title: string,
    streamerName: string,
    isLiked: Option<bool>,
    likeCount: Option<int>)

  datatype DaySchedules = DaySchedules(
    scheduleDate: string,
    breaks: seq<ScheduleInfo>,
    tbd: seq<ScheduleInfo>,
    scheduled: seq<ScheduleInfo>)

  const BreakTag := "break"
  const TbdTag := "tbd"
  const ScheduledTag := "scheduled"

  /** A cell entry: the schedule with its bucket's tag. */
  datatype Entry = Entry(item: ScheduleInfo, status: string)

  /** `schedulesData.find(d => d.scheduleDate === dateKey)`: the first record of that date. */
  function FindDay(data: seq<DaySchedules>, key: string): (r: Option<DaySchedules>)
    ensures r.None? <==> forall i | 0 <= i < |data| :: data[i].scheduleDate != key
    ensures r.Some? ==> exists i | 0 <= i < |data| ::
      data[i] == r.value && data[i].scheduleDate == key &&
      forall j | 0 <= j < i :: data[j].scheduleDate != key
  {
    if data == [] then None
    else if data[0].scheduleDate == key then Some(data[0])
    else
      var r := FindDay(data[1..], key);
      assert forall i | 1 <= i < |data| :: data[i] == data[1..][i - 1];
      r
  }

  /** `likedMap[uuid] ?? isLiked` and `likeCountMap[uuid] ?? likeCount`: the overlay wins where it has an entry. */
  function Override(x: ScheduleInfo, likedMap: map<string, bool>, likeCountMap: map<string, int>): (r: ScheduleInfo)
    ensures r.uuid == x.uuid && r.startTime == x.startTime && r.title == x.title && r.streamerName == x.streamerName
    ensures r.isLiked == (if x.uuid in likedMap then Some(likedMap[x.uuid]) else x.isLiked)
    ensures r.likeCount == (if x.uuid in likeCountMap then Some(likeCountMap[x.uuid]) else x.likeCount)
  {
    x.(isLiked := if x.uuid in likedMap then Some(likedMap[x.uuid]) else x.isLiked,
       likeCount := if x.uuid in likeCountMap then Some(likeCountMap[x.uuid]) else x.likeCount)
  }

  function Tagged(xs: seq<ScheduleInfo>, tag: string, likedMap: map<string, bool>, likeCountMap: map<string, int>): (r: seq<Entry>)
    ensures |r| == |xs|
    ensures forall i | 0 <= i < |xs| :: r[i] == Entry(Override(xs[i], likedMap, likeCountMap), tag)
  {
    seq(|xs|, i requires 0 <= i < |xs| => Entry(Override(xs[i], likedMap, likeCountMap), tag))
  }

  /** `getSchedulesForDate`. */
  function SchedulesForDate(data: seq<DaySchedules>, key: string, likedMap: map<string, bool>, likeCountMap: map<string, int>): (r: seq<Entry>)
  {
    match FindDay(data, key)
    case None => []
    case Some(d) => DayEntries(d, likedMap, likeCountMap)
  }

  /** A date with no record shows nothing. */
  lemma UnknownDateIsEmpty(data: seq<DaySchedules>, key: string, likedMap: map<string, bool>, likeCountMap: map<string, int>)
    requires forall i | 0 <= i < |data| :: data[i].scheduleDate != key
    ensures SchedulesForDate(data, key, likedMap, likeCountMap) == []
  {
  }

  /**
   * A date with a record shows every schedule of its three buckets exactly once: the
   * breaks first, then the undecided times, then the scheduled streams, each tagged with
   * its bucket and each the server's schedule under the overlay.
   */
  lemma BucketOrder(data: seq<DaySchedules>, key: string, likedMap: map<string, bool>, likeCountMap: map<string, int>)
    requires FindDay(data, key).Some?
    ensures var d := FindDay(data, key).value;
      var r := SchedulesForDate(data, key, likedMap, likeCountMap);
      var all := d.breaks + d.tbd + d.scheduled;
      |r| == |d.breaks| + |d.tbd| + |d.scheduled| &&
      (forall i | 0 <= i < |r| :: r[i].item == Override(all[i], likedMap, likeCountMap)) &&
      (forall i | 0 <= i < |r| ::
        r[i].status == (if i < |d.breaks| then BreakTag else if i < |d.breaks| + |d.tbd| then TbdTag else ScheduledTag))
  {
    var d := FindDay(data, key).value;
    assert SchedulesForDate(data, key, likedMap, likeCountMap) == DayEntries(d, likedMap, likeCountMap);
    DayEntriesOrder(d, likedMap, likeCountMap);
  }

  /** The entries of one day record, bucket after bucket. */
  function DayEntries(d: DaySchedules, likedMap: map<string, bool>, likeCountMap: map<string, int>): seq<Entry> {
    Tagged(d.breaks, BreakTag, likedMap, likeCountMap) +
    Tagged(d.tbd, TbdTag, likedMap, likeCountMap) +
    Tagged(d.scheduled, ScheduledTag, likedMap, likeCountMap)
  }

  lemma DayEntriesOrder(d: DaySchedules, likedMap: map<string, bool>, likeCountMap: map<string, int>)
    ensures var r := DayEntries(d, likedMap, likeCountMap);
      var all := d.breaks + d.tbd + d.scheduled;
      |r| == |d.breaks| + |d.tbd| + |d.scheduled| &&
      (forall i | 0 <= i < |r| :: r[i].item == Override(all[i], likedMap, likeCountMap)) &&
      (forall i | 0 <= i < |r| ::
        r[i].status == (if i < |d.breaks| then BreakTag else if i < |d.breaks| + |d.tbd| then TbdTag else ScheduledTag))
  {
    var a := Tagged(d.breaks, BreakTag, likedMap, likeCountMap);
    var b := Tagged(d.tbd, TbdTag, likedMap, likeCountMap);
    var c := Tagged(d.scheduled, ScheduledTag, likedMap, likeCountMap);
    var r := a + b + c;
    var all := d.breaks + d.tbd + d.scheduled;
    forall i | 0 <= i < |r|
      ensures r[i].item == Override(all[i], likedMap, likeCountMap)
      ensures r[i].status == (if i < |a| then BreakTag else if i < |a| + |b| then TbdTag else ScheduledTag)
    {
      Concat3(a, b, c, i);
      Concat3(d.breaks, d.tbd, d.scheduled, i);
      if i < |a| {
        assert r[i] == a[i];
      } else if i < |a| + |b| {
        assert r[i] == b[i - |a|];
      } else {
        assert r[i] == c[i - |a| - |b|];
      }
    }
  }

  lemma Concat3<T>(a: seq<T>, b: seq<T>, c: seq<T>, i: int)
    requires 0 <= i < |a| + |b| + |c|
    ensures (a + b + c)[i] == if i < |a| then a[i] else if i < |a| + |b| then b[i - |a|] else c[i - |a| - |b|]
  {
  }

  /** A schedule the overlay has no entry for is shown as the server sent it. */
  lemma UntouchedAsServerSent(x: ScheduleInfo, likedMap: map<string, bool>, likeCountMap: map<string, int>)
    requires x.uuid !in likedMap && x.uuid !in likeCountMap
    ensures Override(x, likedMap, likeCountMap) == x
  {
  }

  /** The tag every entry carries is one of the three bucket tags. */
  lemma TagsAreBucketTags(data: seq<DaySchedules>, key: string, likedMap: map<string, bool>, likeCountMap: map<string, int>, i: int)
    requires 0 <= i < |SchedulesForDate(data, key, likedMap, likeCountMap)|
    ensures SchedulesForDate(data, key, likedMap, likeCountMap)[i].status in {BreakTag, TbdTag, ScheduledTag}
  {
    BucketOrder(data, key, likedMap, likeCountMap);
  }
}

/**
 * The schedule card and the compact card of the home calendar: the badge colours and
 * label by status, the start time cut to "HH:MM", the search highlight, and the like
 * badge's initial values.
 */
module ScheduleCards {
  import opened Wrappers
  import opened JsStrings
  import opened ScheduleBuckets

  datatype StatusConfig = StatusConfig(
    labelText: string,
    colorScheme: string,
    bg: string,
    color: string,
    showIcon: bool,
    borderColor: Option<string>)

  /** `getStatusConfig`: one style per bucket tag and a fallback for anything else. */
  function GetStatusConfig(status: string): (c: StatusConfig)
    ensures status == ScheduledTag ==> c.labelText == "예정"
    ensures status == BreakTag ==> c.labelText == "휴방"
    ensures status == TbdTag ==> c.labelText == "시간미정"
    ensures status !in {ScheduledTag, BreakTag, TbdTag} ==> c.labelText == "기타"
    ensures c.showIcon <==> status == ScheduledTag
    ensures c.borderColor.Some? <==> status == BreakTag || status == TbdTag
  {
    if status == ScheduledTag then StatusConfig("예정", "blackAlpha", "black", "white", true, None)
    else if status == BreakTag then StatusConfig("휴방", "gray", "red.100", "red.600", false, Some("red.200"))
    else if status == TbdTag then StatusConfig("시간미정", "gray", "gray.200", "gray.600", false, Some("gray.300"))
    else StatusConfig("기타", "gray", "gray.200", "gray.600", false, None)
  }

  /** No entry of a calendar cell falls back to the catch-all style. */
  lemma CellEntriesNeverFallBack(data: seq<DaySchedules>, key: string, likedMap: map<string, bool>, likeCountMap: map<string, int>, i: int)
    requires 0 <= i < |SchedulesForDate(data, key, likedMap, likeCountMap)|
    ensures GetStatusConfig(SchedulesForDate(data, key, likedMap, likeCountMap)[i].status).labelText != "기타"
  {
    TagsAreBucketTags(data, key, likedMap, likeCountMap, i);
  }

  /**
   * `formatTime`: nothing for a missing or empty time; otherwise the first two
   * colon-separated fields joined by a colon. A time without a colon has no second
   * field, which the template literal prints as "undefined".
   */
  function FormatTime(t: Option<string>): (r: Option<string>)
    ensures r.None? <==> t.None? || t.value == ""
  {
    if t.None? || t.value == "" then None
    else
      var parts := Split(t.value, ':');
      Some(parts[0] + ":" + (if |parts| >= 2 then parts[1] else "undefined"))
  }

  /** "HH:MM:SS" becomes "HH:MM". */
  lemma FormatTimeDropsSeconds(h: string, m: string, s: string)
    requires ':' !in h && ':' !in m && ':' !in s
    ensures FormatTime(Some(h + ":" + m + ":" + s)) == Some(h + ":" + m)
  {
    assert h + ":" + m + ":" + s == h + [':'] + (m + [':'] + s);
    SplitCons(h, ':', m + [':'] + s);
    SplitCons(m, ':', s);
  }

  /** Formatting a formatted time changes nothing. */
  lemma FormatTimeIdempotent(t: string)
    requires t != ""
    ensures FormatTime(FormatTime(Some(t))) == FormatTime(Some(t))
  {
    var parts := Split(t, ':');
    var second := if |parts| >= 2 then parts[1] else "undefined";
    assert ':' !in second;
    assert parts[0] + ":" + second == parts[0] + [':'] + second;
    SplitCons(parts[0], ':', second);
    SplitNoSep(second, ':');
  }

  /** The badge: the start time for a scheduled stream that has one, else the status label. */
  function BadgeText(status: string, startTime: Option<string>): (r: string)
    ensures status == ScheduledTag && startTime.Some? && startTime.value != "" ==> Some(r) == FormatTime(startTime)
    ensures status != ScheduledTag || startTime.None? || startTime.value == "" ==> r == GetStatusConfig(status).labelText
  {
    if status == ScheduledTag && startTime.Some? && startTime.value != "" then FormatTime(startTime).value
    else GetStatusConfig(status).labelText
  }

  /** The like badge's initial values: a missing count is 0 and a missing flag is false. */
  function LikeBadgeDefaults(x: ScheduleInfo): (r: (int, bool))
    ensures r.0 == x.likeCount.GetOr(0) && r.1 == x.isLiked.GetOr(false)
    ensures x.likeCount.None? ==> r.0 == 0
    ensures x.isLiked.None? ==> !r.1
  {
    (x.likeCount.GetOr(0), x.isLiked.GetOr(false))
  }

  /** A card of a schedule the overlay knows starts its like badge from the overlay. */
  lemma BadgeStartsFromOverlay(x: ScheduleInfo, likedMap: map<string, bool>, likeCountMap: map<string, int>)
    requires x.uuid in likedMap && x.uuid in likeCountMap
    ensures LikeBadgeDefaults(Override(x, likedMap, likeCountMap)) == (likeCountMap[x.uuid], likedMap[x.uuid])
  {
  }

  /** `isSearchMatch`: a non-empty search that occurs in the streamer name, ignoring ASCII case. */
  predicate IsSearchMatch(streamerName: string, search: string) {
    search != "" && Includes(AsciiLower(streamerName), AsciiLower(search))
  }

  lemma LowerIdempotent(s: string)
    ensures AsciiLower(AsciiLower(s)) == AsciiLower(s)
  {
  }

  /** Lowercasing keeps an occurrence where it was. */
  lemma LowerKeepsOccurrence(s: string, sub: string, k: nat)
    requires OccursAt(s, sub, k)
    ensures OccursAt(AsciiLower(s), AsciiLower(sub), k)
  {
    assert forall i | 0 <= i < |sub| :: AsciiLower(s)[k + i] == LowerChar(sub[i]);
  }

  /** An empty search highlights nothing, a name containing the search is highlighted, and case does not matter. */
  lemma SearchMatchMeaning(streamerName: string, search: string)
    ensures search == "" ==> !IsSearchMatch(streamerName, search)
    ensures search != "" && Includes(streamerName, search) ==> IsSearchMatch(streamerName, search)
    ensures IsSearchMatch(AsciiLower(streamerName), search) == IsSearchMatch(streamerName, search)
    ensures IsSearchMatch(streamerName, AsciiLower(search)) == IsSearchMatch(streamerName, search)
  {
    LowerIdempotent(streamerName);
    LowerIdempotent(search);
    if search != "" && Includes(streamerName, search) {
      var k: nat :| k <= |streamerName| && OccursAt(streamerName, search, k);
      LowerKeepsOccurrence(streamerName, search, k);
    }
  }

  /** `highlightText` with an empty search term: the text as it is. */
  function HighlightEmpty(text: string, searchTerm: string): (r: Option<string>)
    ensures searchTerm == "" ==> r == Some(text)
    ensures searchTerm != "" ==> r.None?
  {
    if searchTerm == "" then Some(text) else None
  }
}
