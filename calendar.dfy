/** The offline calendar (tools/calendar_tool.py): a JSON object on disk mapping event
    ids `<date>_<time>_<title>` to event records. Adding assigns one id; deleting removes
    every event on a date whose title contains the given text; the two listings read
    the object and sort what they collect. The clock is a parameter. */
module Calendar {
  import opened Text
  import opened OrderedDict
  import opened Sorting
  import opened Dates
  import opened Outcomes

  /** The record `add_calendar_event` stores. */
  datatype Event = Event(title: string, date: string, time: string, durationMinutes: int, createdAt: string)

  type CalendarFile = JsonFile<Event>

  /** `datetime.now()`: today's date and the time elapsed since midnight. */
  datatype Clock = Clock(today: Day, sinceMidnight: nat)

  /** How `add_calendar_event` and `delete_calendar_event` read their date argument:
      "today" and "tomorrow" in any case become dates, anything else is kept as given.
      None is the OverflowError of asking for the day after 9999-12-31. */
  function ResolveDate(date: string, clock: Clock): (r: Option<string>)
    ensures Lower(date) == "today" ==> r.Some? && ParseDate(r.value) == Some(clock.today)
    ensures Lower(date) == "tomorrow" && r.Some? ==>
              ParseDate(r.value).Some? && Ordinal(ParseDate(r.value).value) == Ordinal(clock.today) + 1
    ensures Lower(date) == "tomorrow" && r.None? ==> clock.today == Date(9999, 12, 31)
    ensures Lower(date) != "today" && Lower(date) != "tomorrow" ==> r == Some(date)
  {
    if Lower(date) == "today" then
      FormatDateParses(clock.today);
      Some(FormatDate(clock.today))
    else if Lower(date) == "tomorrow" then
      match NextDay(clock.today)
      case None => None
      case Some(t) =>
        FormatDateParses(t);
        Some(FormatDate(t))
    else Some(date)
  }

  /** How `check_schedule` reads its date argument: like `ResolveDate`, except that a
      string `strptime` accepts is rewritten in its zero-padded form. */
  function CheckDate(date: string, clock: Clock): (r: Option<string>)
    ensures Lower(date) == "today" || Lower(date) == "tomorrow" ==> r == ResolveDate(date, clock)
    ensures Lower(date) != "today" && Lower(date) != "tomorrow" && ParseDate(date).Some? ==>
              r.Some? && r.value == FormatDate(ParseDate(date).value) && ParseDate(r.value) == ParseDate(date)
    ensures Lower(date) != "today" && Lower(date) != "tomorrow" && ParseDate(date).None? ==> r == Some(date)
  {
    if Lower(date) == "today" || Lower(date) == "tomorrow" then ResolveDate(date, clock)
    else match ParseDate(date)
      case Some(p) =>
        ParsedDateNormalises(date);
        Some(FormatDate(p))
      case None => Some(date)
  }

  /** `f"{event_date}_{time}_{title}"` */
  function EventId(date: string, time: string, title: string): string
  {
    date + "_" + time + "_" + title
  }

  /** An added event reads back under its id, and every other id reads as before. */
  lemma AddedEventReads(d: Dict<Event>, id: string, e: Event, other: string)
    ensures Get(Put(d, id, e), id) == Some(e)
    ensures other != id ==> Get(Put(d, id, e), other) == Get(d, other)
  {
    GetPutSame(d, id, e);
    if other != id {
      GetPutOther(d, id, e, other);
    }
  }

  // ---------------------------------------------------------------- check_schedule

  function ScheduleLine(e: Event): string
  {
    "• " + e.time + " - " + e.title + " (" + IntToString(e.durationMinutes) + " min)"
  }

  /** The lines the loop over `calendar.items()` collects for `date`, in dictionary order. */
  function ScheduleLines(d: Dict<Event>, date: string): (r: seq<string>)
  {
    if d == [] then []
    else
      var last := d[|d| - 1].1;
      ScheduleLines(d[..|d| - 1], date) + (if last.date == date then [ScheduleLine(last)] else [])
  }

  /** Every line of the schedule is that of an event on the date asked for. */
  lemma {:induction false} ScheduleLinesSound(d: Dict<Event>, date: string, x: string)
    requires x in ScheduleLines(d, date)
    ensures exists i :: 0 <= i < |d| && d[i].1.date == date && x == ScheduleLine(d[i].1)
  {
    var front := d[..|d| - 1];
    var last := d[|d| - 1].1;
    if x in ScheduleLines(front, date) {
      ScheduleLinesSound(front, date, x);
      var i :| 0 <= i < |front| && front[i].1.date == date && x == ScheduleLine(front[i].1);
      assert d[i] == front[i];
    } else {
      assert last.date == date && x == ScheduleLine(last);
    }
  }

  /** Every event on the date asked for has its line in the schedule. */
  lemma {:induction false} ScheduleLinesComplete(d: Dict<Event>, date: string, i: nat)
    requires i < |d| && d[i].1.date == date
    ensures ScheduleLine(d[i].1) in ScheduleLines(d, date)
  {
    var front := d[..|d| - 1];
    if i < |front| {
      ScheduleLinesComplete(front, date, i);
      assert front[i] == d[i];
    }
  }

  /** The schedule lists exactly the events whose date is the one asked for. */
  lemma ScheduleLinesIff(d: Dict<Event>, date: string, x: string)
    ensures x in ScheduleLines(d, date) <==> exists i :: 0 <= i < |d| && d[i].1.date == date && x == ScheduleLine(d[i].1)
  {
    if x in ScheduleLines(d, date) {
      ScheduleLinesSound(d, date, x);
    }
    if exists i :: 0 <= i < |d| && d[i].1.date == date && x == ScheduleLine(d[i].1) {
      var i :| 0 <= i < |d| && d[i].1.date == date && x == ScheduleLine(d[i].1);
      ScheduleLinesComplete(d, date, i);
    }
  }

  const ScheduleFailed := "❌ Failed to check schedule: "

  /** What `check_schedule` returns for the loaded calendar. */
  function CheckScheduleSpec(d: Dict<Event>, date: string, clock: Clock): (r: Answer)
    ensures CheckDate(date, clock).None? ==> r == Failed(ScheduleFailed)
    ensures CheckDate(date, clock).Some? && ScheduleLines(d, CheckDate(date, clock).value) == [] ==>
              r == Says("📅 No events scheduled for " + CheckDate(date, clock).value)
    ensures r.Failed? ==> r == Failed(ScheduleFailed)
    ensures r.Failed? <==> CheckDate(date, clock).None?
                           || (ScheduleLines(d, CheckDate(date, clock).value) != []
                               && ParseDate(CheckDate(date, clock).value).None?)
  {
    match CheckDate(date, clock)
    case None => Failed(ScheduleFailed)
    case Some(day) =>
      var lines := ScheduleLines(d, day);
      if lines == [] then Says("📅 No events scheduled for " + day)
      else match ParseDate(day)
        case None => Failed(ScheduleFailed)
        case Some(p) => Says("📅 Schedule for " + LongName(p) + ":\n" + Join(SortStrings(lines), "\n"))
  }

  /** `check_schedule`: collect the lines for the date, then sort them. */
  method CheckSchedule(d: Dict<Event>, date: string, clock: Clock) returns (a: Answer)
    ensures a == CheckScheduleSpec(d, date, clock)
  {
    var day := CheckDate(date, clock);
    if day.None? {
      return Failed(ScheduleFailed);
    }
    var events: seq<string> := [];
    var i := 0;
    while i < |d|
      invariant 0 <= i <= |d|
      invariant events == ScheduleLines(d[..i], day.value)
    {
      assert d[..i + 1][..i] == d[..i];
      if d[i].1.date == day.value {
        events := events + [ScheduleLine(d[i].1)];
      }
      i := i + 1;
    }
    assert d[..i] == d;
    if events == [] {
      return Says("📅 No events scheduled for " + day.value);
    }
    var parsed := ParseDate(day.value);
    if parsed.None? {
      return Failed(ScheduleFailed);
    }
    return Says("📅 Schedule for " + LongName(parsed.value) + ":\n" + Join(SortStrings(events), "\n"));
  }

  /** The schedule's lines come out sorted, and they are the date's events. */
  lemma ScheduleSorted(d: Dict<Event>, date: string, clock: Clock)
    requires CheckScheduleSpec(d, date, clock).Says? && ScheduleLines(d, CheckDate(date, clock).value) != []
    ensures var lines := ScheduleLines(d, CheckDate(date, clock).value);
            var p := ParseDate(CheckDate(date, clock).value).value;
            && LexAscending(SortStrings(lines)) && multiset(SortStrings(lines)) == multiset(lines)
            && CheckScheduleSpec(d, date, clock).text == "📅 Schedule for " + LongName(p) + ":\n" + Join(SortStrings(lines), "\n")
  {
  }

  /** An event stored under a date `strptime` rejects (say "friday", which adding
      accepts verbatim) cannot be shown: finding it makes the header's date parse fail. */
  lemma UnparsableDateFailsSchedule(d: Dict<Event>, date: string, clock: Clock, i: nat)
    requires Lower(date) != "today" && Lower(date) != "tomorrow" && ParseDate(date).None?
    requires i < |d| && d[i].1.date == date
    ensures CheckScheduleSpec(d, date, clock) == Failed(ScheduleFailed)
  {
    ScheduleLinesIff(d, date, ScheduleLine(d[i].1));
  }

  // ---------------------------------------------------------------- list_upcoming_events

  /** The ordinal of `now + timedelta(days=days)`'s date, or None for the OverflowError. */
  function FutureOrdinal(clock: Clock, days: int): (r: Option<int>)
    ensures r.Some? <==> 1 <= Ordinal(clock.today) + days <= MaxOrdinal
  {
    var f := Ordinal(clock.today) + days;
    if 1 <= f <= MaxOrdinal then Some(f) else None
  }

  /** `today <= event_date <= future_date` for an event date, which parses to midnight:
      a later day up to `days` ahead, or today itself only when it is exactly midnight. */
  predicate InWindow(clock: Clock, days: int, p: Day) {
    var t := Ordinal(clock.today);
    var e := Ordinal(p);
    (t < e || (t == e && clock.sinceMidnight == 0)) && e <= t + days
  }

  function UpcomingLine(p: Day, e: Event): string
  {
    "• " + ShortName(p) + " at " + e.time + " - " + e.title
  }

  /** The pair an event contributes when its date is in the window. */
  predicate Listed(e: Event, clock: Clock, days: int, item: (int, string)) {
    ParseDate(e.date).Some? && InWindow(clock, days, ParseDate(e.date).value)
    && item == (Ordinal(ParseDate(e.date).value), UpcomingLine(ParseDate(e.date).value, e))
  }

  /** One pass of the loop: parse the event's date (None is the ValueError) and append
      its pair when the date is in the window. */
  function UpcomingStep(items: seq<(int, string)>, e: Event, clock: Clock, days: int): (r: Option<seq<(int, string)>>)
    ensures r.Some? <==> ParseDate(e.date).Some?
    ensures r.Some? ==> forall item :: item in r.value <==> item in items || Listed(e, clock, days, item)
  {
    match ParseDate(e.date)
    case None => None
    case Some(p) => Some(items + if InWindow(clock, days, p) then [(Ordinal(p), UpcomingLine(p, e))] else [])
  }

  /** The (ordinal, line) pairs the loop collects, in dictionary order, or None when an
      event's date does not parse. */
  function UpcomingItems(d: Dict<Event>, clock: Clock, days: int): (r: Option<seq<(int, string)>>)
  {
    if d == [] then Some([])
    else
      match UpcomingItems(d[..|d| - 1], clock, days)
      case None => None
      case Some(items) => UpcomingStep(items, d[|d| - 1].1, clock, days)
  }

  /** Some event of `d` satisfies `p`, tested from the last entry back. */
  predicate SomeEvent(d: Dict<Event>, p: Event -> bool) {
    d != [] && (SomeEvent(d[..|d| - 1], p) || p(d[|d| - 1].1))
  }

  lemma {:induction false} SomeEventIff(d: Dict<Event>, p: Event -> bool)
    ensures SomeEvent(d, p) <==> exists i :: 0 <= i < |d| && p(d[i].1)
  {
    if d != [] {
      var front := d[..|d| - 1];
      SomeEventIff(front, p);
      if SomeEvent(front, p) {
        var i :| 0 <= i < |front| && p(front[i].1);
        assert d[i] == front[i];
      }
      if exists i :: 0 <= i < |d| && p(d[i].1) {
        var i :| 0 <= i < |d| && p(d[i].1);
        if i < |front| {
          assert front[i] == d[i];
        }
      }
    }
  }

  lemma {:induction false} UpcomingItemsListed(d: Dict<Event>, clock: Clock, days: int, item: (int, string))
    requires UpcomingItems(d, clock, days).Some?
    ensures item in UpcomingItems(d, clock, days).value <==> SomeEvent(d, e => Listed(e, clock, days, item))
  {
    if d != [] {
      var front := d[..|d| - 1];
      UpcomingItemsListed(front, clock, days, item);
      var items := UpcomingItems(front, clock, days).value;
      assert UpcomingItems(d, clock, days) == UpcomingStep(items, d[|d| - 1].1, clock, days);
    }
  }

  /** The collected items are exactly the events whose date falls in the window. */
  lemma UpcomingItemsIff(d: Dict<Event>, clock: Clock, days: int, item: (int, string))
    requires UpcomingItems(d, clock, days).Some?
    ensures item in UpcomingItems(d, clock, days).value <==> exists i :: 0 <= i < |d| && Listed(d[i].1, clock, days, item)
  {
    UpcomingItemsListed(d, clock, days, item);
    SomeEventIff(d, e => Listed(e, clock, days, item));
  }

  /** Every collected item lies in the window: strictly after today, unless it is exactly
      midnight, and no more than `days` ahead. */
  lemma UpcomingKeysInWindow(d: Dict<Event>, clock: Clock, days: int, item: (int, string))
    requires UpcomingItems(d, clock, days).Some? && item in UpcomingItems(d, clock, days).value
    ensures clock.sinceMidnight > 0 ==> Ordinal(clock.today) < item.0
    ensures Ordinal(clock.today) <= item.0 <= Ordinal(clock.today) + days
  {
    UpcomingItemsIff(d, clock, days, item);
  }

  /** The second components, in order. */
  function Texts(items: seq<(int, string)>): (r: seq<string>)
    ensures |r| == |items| && forall i :: 0 <= i < |items| ==> r[i] == items[i].1
  {
    seq(|items|, i requires 0 <= i < |items| => items[i].1)
  }

  const UpcomingFailed := "❌ Failed to list events: "

  /** What `list_upcoming_events` returns for the loaded calendar. */
  function UpcomingSpec(d: Dict<Event>, days: int, clock: Clock): Answer
  {
    if FutureOrdinal(clock, days).None? then Failed(UpcomingFailed)
    else match UpcomingItems(d, clock, days)
      case None => Failed(UpcomingFailed)
      case Some(items) =>
        var sorted := SortByKey(items);
        if sorted == [] then Says("📅 No upcoming events in the next " + IntToString(days) + " days")
        else Says("📅 Upcoming events (next " + IntToString(days) + " days):\n" + Join(Texts(sorted), "\n"))
  }

  /** `list_upcoming_events`: collect the events in the window, then sort them by date. */
  method ListUpcoming(d: Dict<Event>, days: int, clock: Clock) returns (a: Answer)
    ensures a == UpcomingSpec(d, days, clock)
  {
    if FutureOrdinal(clock, days).None? {
      return Failed(UpcomingFailed);
    }
    var events: seq<(int, string)> := [];
    var i := 0;
    while i < |d|
      invariant 0 <= i <= |d|
      invariant UpcomingItems(d[..i], clock, days) == Some(events)
    {
      assert d[..i + 1][..i] == d[..i];
      var next := UpcomingStep(events, d[i].1, clock, days);
      if next.None? {
        UpcomingStaysFailed(d, clock, days, i + 1, |d|);
        assert d[..|d|] == d;
        return Failed(UpcomingFailed);
      }
      events := next.value;
      i := i + 1;
    }
    assert d[..i] == d;
    var sorted := SortByKey(events);
    if sorted == [] {
      return Says("📅 No upcoming events in the next " + IntToString(days) + " days");
    }
    return Says("📅 Upcoming events (next " + IntToString(days) + " days):\n" + Join(Texts(sorted), "\n"));
  }

  /** Once an event's date fails to parse, the whole listing fails. */
  lemma {:induction false} UpcomingStaysFailed(d: Dict<Event>, clock: Clock, days: int, i: nat, j: nat)
    requires i <= j <= |d| && UpcomingItems(d[..i], clock, days).None?
    ensures UpcomingItems(d[..j], clock, days).None?
    decreases j - i
  {
    if i < j {
      assert d[..i + 1][..i] == d[..i];
      UpcomingStaysFailed(d, clock, days, i + 1, j);
    }
  }

  /** The listing is ordered by date, holds each event in the window once, and keeps
      same-day events in the order the calendar holds them. */
  lemma UpcomingOrdered(d: Dict<Event>, days: int, clock: Clock, day: int)
    requires UpcomingItems(d, clock, days).Some?
    ensures var items := UpcomingItems(d, clock, days).value;
            && KeyAscending(SortByKey(items)) && multiset(SortByKey(items)) == multiset(items)
            && WithKey(SortByKey(items), day) == WithKey(items, day)
  {
    SortByKeyStable(UpcomingItems(d, clock, days).value, day);
  }

  // ---------------------------------------------------------------- delete_calendar_event

  /** The deletion test: same date, and the title contains the given text, ignoring case. */
  predicate MatchesDeletion(e: Event, date: string, title: string) {
    e.date == date && Contains(Lower(e.title), Lower(title))
  }

  /** The ids the first loop collects, in dictionary order. */
  function MatchingIds(d: Dict<Event>, date: string, title: string): (r: seq<string>)
  {
    if d == [] then []
    else
      var last := d[|d| - 1];
      MatchingIds(d[..|d| - 1], date, title) + (if MatchesDeletion(last.1, date, title) then [last.0] else [])
  }

  lemma {:induction false} MatchingIdsIff(d: Dict<Event>, date: string, title: string, k: string)
    ensures k in MatchingIds(d, date, title) <==> exists i :: 0 <= i < |d| && d[i].0 == k && MatchesDeletion(d[i].1, date, title)
  {
    if d != [] {
      var front := d[..|d| - 1];
      MatchingIdsIff(front, date, title, k);
      forall i | 0 <= i < |front| ensures front[i] == d[i] { }
    }
  }

  /** The second loop: `del calendar[event_id]` for each id in turn. */
  function RemoveAll(d: Dict<Event>, ids: seq<string>): (r: Dict<Event>)
  {
    if ids == [] then d else Remove(RemoveAll(d, ids[..|ids| - 1]), ids[|ids| - 1])
  }

  lemma {:induction false} GetRemoveAll(d: Dict<Event>, ids: seq<string>, k: string)
    ensures Get(RemoveAll(d, ids), k) == if k in ids then None else Get(d, k)
  {
    if ids != [] {
      var front, last := ids[..|ids| - 1], ids[|ids| - 1];
      GetRemoveAll(d, front, k);
      GetRemove(RemoveAll(d, front), last, k);
      assert ids == front + [last];
      assert k in ids <==> k in front || k == last;
    }
  }

  lemma {:induction false} RemoveAllDistinct(d: Dict<Event>, ids: seq<string>)
    requires DistinctKeys(d)
    ensures DistinctKeys(RemoveAll(d, ids))
  {
    if ids != [] {
      RemoveAllDistinct(d, ids[..|ids| - 1]);
      RemoveDistinct(RemoveAll(d, ids[..|ids| - 1]), ids[|ids| - 1]);
    }
  }

  /** Deletion removes exactly the matching events: a matching id no longer reads, and
      every other id reads as before. */
  lemma DeleteRemovesExactlyMatches(d: Dict<Event>, date: string, title: string, k: string)
    requires DistinctKeys(d)
    ensures var after := RemoveAll(d, MatchingIds(d, date, title));
            Get(after, k) == if Get(d, k).Some? && MatchesDeletion(Get(d, k).value, date, title) then None else Get(d, k)
    ensures DistinctKeys(RemoveAll(d, MatchingIds(d, date, title)))
  {
    GetRemoveAll(d, MatchingIds(d, date, title), k);
    MatchingIdsIff(d, date, title, k);
    RemoveAllDistinct(d, MatchingIds(d, date, title));
    if k in MatchingIds(d, date, title) {
      var i :| 0 <= i < |d| && d[i].0 == k && MatchesDeletion(d[i].1, date, title);
      GetAt(d, i);
    } else if Get(d, k).Some? {
      var i :| 0 <= i < |d| && d[i] == (k, Get(d, k).value);
    }
  }

  /** The first loop of `delete_calendar_event`: the ids of the matching events. */
  method CollectMatching(calendar: Dict<Event>, date: string, title: string) returns (toDelete: seq<string>)
    ensures toDelete == MatchingIds(calendar, date, title)
  {
    toDelete := [];
    var i := 0;
    while i < |calendar|
      invariant 0 <= i <= |calendar|
      invariant toDelete == MatchingIds(calendar[..i], date, title)
    {
      assert calendar[..i + 1][..i] == calendar[..i];
      if MatchesDeletion(calendar[i].1, date, title) {
        toDelete := toDelete + [calendar[i].0];
      }
      i := i + 1;
    }
    assert calendar[..i] == calendar;
  }

  /** The second loop of `delete_calendar_event`: `del calendar[event_id]` for each id. */
  method DeleteIds(loaded: Dict<Event>, ids: seq<string>) returns (calendar: Dict<Event>)
    ensures calendar == RemoveAll(loaded, ids)
  {
    calendar := loaded;
    var j := 0;
    while j < |ids|
      invariant 0 <= j <= |ids|
      invariant calendar == RemoveAll(loaded, ids[..j])
    {
      assert ids[..j + 1][..j] == ids[..j];
      calendar := Remove(calendar, ids[j]);
      j := j + 1;
    }
    assert ids[..j] == ids;
  }

  /** The calendar file, as adding and deleting change it. */
  class CalendarStore {
    var file: CalendarFile

    constructor(f: CalendarFile)
      ensures file == f
    {
      file := f;
    }

    /** `add_calendar_event`: resolve the date, load, assign the id, save. */
    method AddEvent(title: string, date: string, time: string, durationMinutes: int, clock: Clock,
                    createdAt: string, saveOk: bool) returns (a: Answer)
      modifies this
      ensures ResolveDate(date, clock).None? ==> a == Failed("❌ Failed to add event: ") && file == old(file)
      ensures ResolveDate(date, clock).Some? ==>
        var day := ResolveDate(date, clock).value;
        var added := Put(LoadObject(old(file)), EventId(day, time, title), Event(title, day, time, durationMinutes, createdAt));
        if saveOk then file == Stored(added) && a == Says("✅ Added '" + title + "' to calendar on " + day + " at " + time)
        else file == old(file) && a == Says("❌ Failed to add event to calendar")
    {
      var day := ResolveDate(date, clock);
      if day.None? {
        return Failed("❌ Failed to add event: ");
      }
      var calendar := LoadObject(file);
      calendar := Put(calendar, EventId(day.value, time, title), Event(title, day.value, time, durationMinutes, createdAt));
      if saveOk {
        file := Stored(calendar);
        a := Says("✅ Added '" + title + "' to calendar on " + day.value + " at " + time);
      } else {
        a := Says("❌ Failed to add event to calendar");
      }
    }

    /** `delete_calendar_event`: collect the matching ids, delete them one by one, and save
        only when something was deleted. The success reply does not depend on the save. */
    method DeleteEvent(title: string, date: string, clock: Clock, saveOk: bool) returns (a: Answer)
      modifies this
      ensures ResolveDate(date, clock).None? ==> a == Failed("❌ Failed to delete event: ") && file == old(file)
      ensures ResolveDate(date, clock).Some? ==>
        var day := ResolveDate(date, clock).value;
        var ids := MatchingIds(LoadObject(old(file)), day, title);
        if ids == [] then file == old(file) && a == Says("❌ No events found matching '" + title + "' on " + day)
        else a == Says("✅ Deleted event(s) matching '" + title + "' on " + day)
             && file == if saveOk then Stored(RemoveAll(LoadObject(old(file)), ids)) else old(file)
    {
      var day := ResolveDate(date, clock);
      if day.None? {
        return Failed("❌ Failed to delete event: ");
      }
      var calendar := LoadObject(file);
      var toDelete := CollectMatching(calendar, day.value, title);
      calendar := DeleteIds(calendar, toDelete);
      if toDelete != [] {
        if saveOk {
          file := Stored(calendar);
        }
        a := Says("✅ Deleted event(s) matching '" + title + "' on " + day.value);
      } else {
        a := Says("❌ No events found matching '" + title + "' on " + day.value);
      }
    }
  }
}
