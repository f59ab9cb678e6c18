/** The timetable page: which entry fills the cell of a weekday and an hour,
    the fixed grid of hours and weekdays, and the weekday labels. */
module SchedulePage {
  import opened Common

  /** A `schedules` row. Times are `"HH:MM"` text as the time input produces. */
  datatype ScheduleEntry = ScheduleEntry(
    id: string,
    courseName: string,
    professor: Option<string>,
    classroom: Option<string>,
    dayOfWeek: int,
    startTime: string,
    endTime: string,
    semester: Option<string>,
    year: Option<int>,
    userId: UserId)

  /** `parseInt(time.split(':')[0])`: the hour of a time text, `None` for `NaN`. */
  function HourOf(time: string): Option<int>
  {
    ParseInt(BeforeFirst(time, ':'))
  }

  /** A time without ':' is parsed whole; one starting with ':' has no hour. */
  lemma HourOfWithoutColon(time: string)
    ensures ':' !in time ==> HourOf(time) == ParseInt(time)
    ensures time != [] && time[0] == ':' ==> HourOf(time).None?
  {
    var head := BeforeFirst(time, ':');
    assert ':' !in time ==> head == time;
  }

  /** Only the text before the first ':' counts: the minutes never matter. */
  lemma HourIgnoresMinutes(hh: string, mm1: string, mm2: string)
    requires ':' !in hh
    ensures HourOf(hh + ":" + mm1) == HourOf(hh + ":" + mm2) == ParseInt(hh)
  {
    BeforeFirstOfJoin(hh, ':', mm1);
    BeforeFirstOfJoin(hh, ':', mm2);
  }

  /** A two-digit hour reads as its decimal value, so "09:30" is hour 9. */
  lemma TwoDigitHour(time: string)
    requires |time| >= 3 && IsDigit(time[0]) && IsDigit(time[1]) && time[2] == ':'
    ensures HourOf(time) == Some(10 * DigitValue(time[0]) + DigitValue(time[1]))
  {
    assert time == time[..2] + [':'] + time[3..];
    BeforeFirstOfJoin(time[..2], ':', time[3..]);
    TwoDigitValue(time[..2]);
  }

  /** The filter of `getScheduleForTimeSlot`: the entry is on that weekday and
      its start hour <= hour < its end hour. A `NaN` hour compares false, so an
      entry with an unreadable time occupies no cell. */
  predicate Occupies(e: ScheduleEntry, day: int, hour: int)
  {
    var s := HourOf(e.startTime);
    var t := HourOf(e.endTime);
    e.dayOfWeek == day && s.Some? && t.Some? && s.value <= hour && hour < t.value
  }

  /** An entry that ends no later than it starts occupies no cell at all. */
  lemma EmptyRangeOccupiesNothing(e: ScheduleEntry, day: int, hour: int)
    requires HourOf(e.startTime).Some? && HourOf(e.endTime).Some?
    requires HourOf(e.endTime).value <= HourOf(e.startTime).value
    ensures !Occupies(e, day, hour)
  {
  }

  /** `Array.find`: the index of the first entry that occupies the cell. */
  function FirstOccupant(entries: seq<ScheduleEntry>, day: int, hour: int): (r: Option<nat>)
    ensures r.Some? ==> r.value < |entries| && Occupies(entries[r.value], day, hour)
    ensures r.Some? ==> forall j :: 0 <= j < r.value ==> !Occupies(entries[j], day, hour)
    ensures r.None? ==> forall j :: 0 <= j < |entries| ==> !Occupies(entries[j], day, hour)
  {
    if entries == [] then None
    else if Occupies(entries[0], day, hour) then Some(0)
    else
      var rest := FirstOccupant(entries[1..], day, hour);
      assert forall j :: 1 <= j < |entries| ==> entries[j] == entries[1..][j - 1];
      if rest.None? then None else Some(rest.value + 1)
  }

  /** `getScheduleForTimeSlot(day, hour)`: the first entry in list order that
      occupies the cell, or nothing when no entry does. */
  function ScheduleForTimeSlot(entries: seq<ScheduleEntry>, day: int, hour: int): (r: Option<ScheduleEntry>)
    ensures r.Some? ==> r.value in entries && Occupies(r.value, day, hour)
    ensures r.None? <==> forall e :: e in entries ==> !Occupies(e, day, hour)
  {
    match FirstOccupant(entries, day, hour)
    case None => None
    case Some(i) => Some(entries[i])
  }

  /** Two entries claim the same cell: the earlier one is shown. */
  lemma EarlierEntryWins(entries: seq<ScheduleEntry>, i: nat, day: int, hour: int)
    requires i < |entries| && Occupies(entries[i], day, hour)
    requires forall j :: 0 <= j < i ==> !Occupies(entries[j], day, hour)
    ensures ScheduleForTimeSlot(entries, day, hour) == Some(entries[i])
  {
    var r := FirstOccupant(entries, day, hour);
    assert r.Some?;
    assert r.value == i;
  }

  /** Hours of the grid's rows, 9 to 18. */
  const TimeSlots: seq<int> := [9, 10, 11, 12, 13, 14, 15, 16, 17, 18]

  /** Weekdays of the grid's columns, Monday (1) to Friday (5). */
  const GridDays: seq<int> := [1, 2, 3, 4, 5]

  /** Weekday labels, Monday first. */
  const DayNames: seq<string> := ["월", "화", "수", "목", "금"]

  /** The grid: one row per hour of `TimeSlots`, one cell per weekday of `GridDays`. */
  function Grid(entries: seq<ScheduleEntry>): (g: seq<seq<Option<ScheduleEntry>>>)
    ensures |g| == |TimeSlots|
    ensures forall h :: 0 <= h < |g| ==> |g[h]| == |GridDays|
    ensures forall h, d :: 0 <= h < |TimeSlots| && 0 <= d < |GridDays| ==>
              g[h][d] == ScheduleForTimeSlot(entries, GridDays[d], TimeSlots[h])
  {
    seq(|TimeSlots|, h requires 0 <= h < |TimeSlots| =>
      seq(|GridDays|, d requires 0 <= d < |GridDays| => ScheduleForTimeSlot(entries, GridDays[d], TimeSlots[h])))
  }

  /** Every filled cell of the grid lies on a weekday 1..5 and an hour 9..18, and
      is filled by an entry occupying it, so nothing outside that range shows. */
  lemma GridCellsInRange(entries: seq<ScheduleEntry>, h: nat, d: nat)
    requires h < |TimeSlots| && d < |GridDays|
    ensures var g := Grid(entries);
            g[h][d].Some? ==> 1 <= g[h][d].value.dayOfWeek <= 5 &&
                              Occupies(g[h][d].value, d + 1, 9 + h) &&
                              HourOf(g[h][d].value.startTime).value <= 9 + h < HourOf(g[h][d].value.endTime).value
  {
    assert GridDays[d] == d + 1;
    assert TimeSlots[h] == 9 + h;
  }

  /** A slot that some entry occupies shows the first such entry in list order:
      the entry on weekday `d + 1` from hour `9 + h` on is in row `h`, column `d`. */
  lemma OccupiedSlotIsShown(entries: seq<ScheduleEntry>, h: nat, d: nat, i: nat)
    requires h < |TimeSlots| && d < |GridDays|
    requires i < |entries| && Occupies(entries[i], d + 1, 9 + h)
    requires forall j :: 0 <= j < i ==> !Occupies(entries[j], d + 1, 9 + h)
    ensures Grid(entries)[h][d] == Some(entries[i])
  {
    assert GridDays[d] == d + 1;
    assert TimeSlots[h] == 9 + h;
    EarlierEntryWins(entries, i, d + 1, 9 + h);
  }

  /** `days[day_of_week - 1]`: a label exactly for weekdays 1..5 (JavaScript
      gives `undefined` for any other index). */
  function DayLabel(dayOfWeek: int): (r: Option<string>)
    ensures r.Some? <==> 1 <= dayOfWeek <= 5
    ensures r.Some? ==> r.value == DayNames[dayOfWeek - 1]
  {
    if 1 <= dayOfWeek <= 5 then Some(DayNames[dayOfWeek - 1]) else None
  }
}
