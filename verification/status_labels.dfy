/**
 * The status picker of the schedule editor: the three statuses as buttons, their labels
 * and colours.
 */
module StatusSelector {
  import opened ScheduleEditorStore

  /** `getStatusLabel`: the three wire names get Korean labels; any other text is shown as it is. */
  function StatusLabel(status: string): (r: string)
    ensures status == "SCHEDULED" ==> r == "예정"
    ensures status == "BREAK" ==> r == "휴방"
    ensures status == "TIME_TBD" ==> r == "시간 미정"
    ensures status != "SCHEDULED" && status != "BREAK" && status != "TIME_TBD" ==> r == status
  {
    if status == "SCHEDULED" then "예정"
    else if status == "BREAK" then "휴방"
    else if status == "TIME_TBD" then "시간 미정"
    else status
  }

  /** Every status the editor can hold is translated, and the three labels differ. */
  lemma StatusLabelsDistinct(a: Status, b: Status)
    ensures StatusLabel(a.Name()) != a.Name()
    ensures StatusLabel(a.Name()) == StatusLabel(b.Name()) <==> a == b
  {
  }

  /** `getStatusColor`: a theme colour per status, neutral for anything else. */
  function StatusColor(status: string): (r: string)
    ensures status == "SCHEDULED" ==> r == "accent.live"
    ensures status == "BREAK" ==> r == "accent.break"
    ensures status == "TIME_TBD" ==> r == "accent.timeTbd"
    ensures status != "SCHEDULED" && status != "BREAK" && status != "TIME_TBD" ==> r == "neutral.400"
  {
    if status == "SCHEDULED" then "accent.live"
    else if status == "BREAK" then "accent.break"
    else if status == "TIME_TBD" then "accent.timeTbd"
    else "neutral.400"
  }

  /** The buttons, in order. */
  const StatusOptions: seq<Status> := [Scheduled, Break, TimeTbd]

  /** Each status is offered exactly once. */
  lemma OptionsCoverEachStatusOnce(s: Status)
    ensures s in StatusOptions
    ensures forall i, j | 0 <= i < j < |StatusOptions| :: StatusOptions[i] != StatusOptions[j]
  {
  }

  datatype ButtonStyle = ButtonStyle(solid: bool, bg: string, color: string)

  /** A button is solid, white on the status colour, when it is the selected status, else outlined. */
  function OptionStyle(option: Status, selected: Status): (b: ButtonStyle)
    ensures b.solid <==> option == selected
    ensures option == selected ==> b.bg == StatusColor(option.Name()) && b.color == "primary.white"
    ensures option != selected ==> b.bg == "primary.white" && b.color == "neutral.700"
  {
    if option == selected then ButtonStyle(true, StatusColor(option.Name()), "primary.white")
    else ButtonStyle(false, "primary.white", "neutral.700")
  }

  /** Exactly one button is solid, and it never falls back to the neutral colour. */
  lemma ExactlyOneSolid(selected: Status)
    ensures forall i | 0 <= i < |StatusOptions| :: OptionStyle(StatusOptions[i], selected).solid <==> StatusOptions[i] == selected
    ensures exists i | 0 <= i < |StatusOptions| :: OptionStyle(StatusOptions[i], selected).solid
    ensures OptionStyle(selected, selected).bg != "neutral.400"
  {
    assert StatusOptions[0] == Scheduled && StatusOptions[1] == Break && StatusOptions[2] == TimeTbd;
    var i := if selected.Scheduled? then 0 else if selected.Break? then 1 else 2;
    assert OptionStyle(StatusOptions[i], selected).solid;
  }
}

/** Date texts for display. */
module TimeUtils {
  import opened Wrappers
  import opened JsStrings
  import opened Dates

  /** `parts[i]` in a template literal: a missing element prints as "undefined". */
  function PartText(parts: seq<string>, i: nat): (r: string)
    ensures i < |parts| ==> r == parts[i]
    ensures i >= |parts| ==> r == "undefined"
  {
    if i < |parts| then parts[i] else "undefined"
  }

  /** `formatDateToKoreanDate`: the "-"-separated fields become year, month and day. */
  function FormatDateToKoreanDate(scheduleDate: string): string {
    var split := Split(scheduleDate, '-');
    PartText(split, 0) + "년 " + PartText(split, 1) + "월 " + PartText(split, 2) + "일"
  }

  /** The three fields of "Y-M-D" are copied as they are, in order, with no padding or normalisation. */
  lemma KoreanDateCopiesFields(y: string, m: string, d: string)
    requires '-' !in y && '-' !in m && '-' !in d
    ensures FormatDateToKoreanDate(y + "-" + m + "-" + d) == y + "년 " + m + "월 " + d + "일"
  {
    assert y + "-" + m + "-" + d == y + ['-'] + (m + ['-'] + d);
    SplitCons(y, '-', m + ['-'] + d);
    SplitCons(m, '-', d);
    SplitNoSep(d, '-');
  }

  lemma NoDash(s: string)
    requires AllDigits(s)
    ensures '-' !in s
  {
  }

  /** A calendar day key of a year from 0 on reads back as its year, padded month and padded day. */
  lemma KoreanDateOfDateKey(d: Date)
    requires d.year >= 0 && d.month >= 1 && d.day >= 1
    ensures FormatDateToKoreanDate(FormatDateKey(d)) ==
      Digits(d.year) + "년 " + Pad2(d.month) + "월 " + Pad2(d.day) + "일"
  {
    NoDash(Digits(d.year));
    NoDash(Pad2(d.month));
    NoDash(Pad2(d.day));
    KoreanDateCopiesFields(Digits(d.year), Pad2(d.month), Pad2(d.day));
  }

  /**
   * `formatUTCToKoreanDate` and `formatUTCToKoreanDateTime`: a missing or empty instant
   * gives ""; any other is formatted in the Seoul time zone by `zoned`.
   */
  function FormatUtc(utc: Option<string>, zoned: string -> string): (r: string)
    ensures utc.None? || utc.value == "" ==> r == ""
    ensures utc.Some? && utc.value != "" ==> r == zoned(utc.value)
  {
    if utc.None? || utc.value == "" then "" else zoned(utc.value)
  }
}
