/** The development journal (tools/journal.py): a JSON object on disk mapping keys
    `day_<n>` to records of what was done that day. Logging a day loads the object,
    assigns one key and saves it; every query loads it afresh and reads the day numbers
    back out of the keys. */
module Journal {
  import opened Text
  import opened OrderedDict
  import opened Sorting
  import opened Outcomes

  /** The record `log_project_day` stores. */
  datatype Entry = Entry(day: int, date: string, accomplishments: string, timestamp: string)

  type JournalFile = JsonFile<Entry>

  /** `load_journal` */
  function Load(f: JournalFile): Dict<Entry>
  {
    LoadObject(f)
  }

  /** `f"day_{day_number}"` */
  function DayKey(n: int): string
  {
    "day_" + IntToString(n)
  }

  /** How a key reads as a day: not a day key, a day key whose number does not parse
      (`int()` raises), or the day number. */
  datatype KeyDay = NotADay | BadNumber | DayNumber(n: int)

  /** `key.split('_')[1]` of a key that starts with "day_". */
  function DayField(key: string): string
    requires StartsWith(key, "day_")
  {
    DayKeySplits(key);
    SplitOn(key, "_")[1]
  }

  lemma DayKeySplits(key: string)
    requires StartsWith(key, "day_")
    ensures |SplitOn(key, "_")| >= 2 && SplitOn(key, "_")[1] == SplitOn(key[4..], "_")[0]
  {
    assert key[..4] == "day_";
    assert !OccursAt(key, "_", 0) && !OccursAt(key, "_", 1) && !OccursAt(key, "_", 2);
    assert OccursAt(key, "_", 3);
    assert FindFrom(key, "_", 0) == Some(3);
  }

  function ClassifyKey(key: string): KeyDay
  {
    if !StartsWith(key, "day_") then NotADay
    else match ParseInt(DayField(key))
      case None => BadNumber
      case Some(n) => DayNumber(n)
  }

  /** A string with no underscore splits into itself. */
  lemma SplitWithoutUnderscore(s: string)
    requires forall i :: 0 <= i < |s| ==> s[i] != '_'
    ensures SplitOn(s, "_") == [s]
  {
    match FindFrom(s, "_", 0) {
      case None =>
      case Some(i) =>
        assert false;
    }
  }

  lemma IntToStringHasNoUnderscore(n: int)
    ensures forall i :: 0 <= i < |IntToString(n)| ==> IntToString(n)[i] != '_'
  {
    var digits := IntToString(n);
    var m: nat := if n < 0 then -n else n;
    assert forall i :: 0 <= i < |NatToString(m)| ==> IsDigit(NatToString(m)[i]);
    if n < 0 {
      assert digits == "-" + NatToString(m);
      assert forall i :: 1 <= i < |digits| ==> digits[i] == NatToString(m)[i - 1];
    }
  }

  /** The key written for day `n` reads back as day `n`. */
  lemma DayKeyReadsBack(n: int)
    ensures ClassifyKey(DayKey(n)) == DayNumber(n)
  {
    var digits := IntToString(n);
    var key := DayKey(n);
    assert key[..4] == "day_" && key[4..] == digits;
    DayKeySplits(key);
    IntToStringHasNoUnderscore(n);
    SplitWithoutUnderscore(digits);
    ParseIntToString(n);
  }

  /** The day numbers the list comprehension collects, in key order, or the first day
      key whose number does not parse. */
  datatype Numbers = Numbers(ns: seq<int>) | BadDayKey(key: string)

  function DayNumbers(d: Dict<Entry>): Numbers
  {
    if d == [] then Numbers([])
    else
      DayNumbersCons(d[0].0, DayNumbers(d[1..]))
  }

  /** How many keys start with "day_". */
  function CountDayKeys(d: Dict<Entry>): nat
  {
    if d == [] then 0 else (if StartsWith(d[0].0, "day_") then 1 else 0) + CountDayKeys(d[1..])
  }

  /** When every day key parses, one day number is collected per day key. */
  lemma {:induction false} DayNumbersCount(d: Dict<Entry>)
    requires DayNumbers(d).Numbers?
    ensures |DayNumbers(d).ns| == CountDayKeys(d)
  {
    if d != [] {
      DayNumbersCount(d[1..]);
    }
  }

  const NoDaysYet := "No project days logged yet. Start by saying: 'Today is day 1 of learning AI'"

  function DayReply(n: int): string
  {
    "We are on day " + IntToString(n) + " of learning AI, sir."
  }

  /** `get_project_day` on the loaded journal. */
  function ProjectDay(d: Dict<Entry>): (r: Answer)
    ensures d == [] ==> r == Says(NoDaysYet)
    ensures d != [] && DayNumbers(d) == Numbers([]) ==> r == Says("No project days found")
    ensures d != [] && DayNumbers(d).Numbers? && DayNumbers(d).ns != [] ==>
              exists m :: m in DayNumbers(d).ns && (forall x :: x in DayNumbers(d).ns ==> x <= m) && r == Says(DayReply(m))
    ensures d != [] && DayNumbers(d).BadDayKey? ==> r == Failed("Error retrieving day: ")
    ensures r.Failed? <==> d != [] && DayNumbers(d).BadDayKey?
  {
    if d == [] then Says(NoDaysYet)
    else match DayNumbers(d)
      case BadDayKey(_) => Failed("Error retrieving day: ")
      case Numbers(ns) => if ns == [] then Says("No project days found") else Says(DayReply(MaxOf(ns)))
  }

  /** Logging day `n` into a journal whose day keys all parse keeps them parsing and adds
      `n` to the day numbers (it was there already when the key was). */
  lemma {:induction false} DayNumbersPut(d: Dict<Entry>, n: int, e: Entry)
    requires DayNumbers(d).Numbers?
    ensures DayNumbers(Put(d, DayKey(n), e)).Numbers?
    ensures forall x :: x in DayNumbers(Put(d, DayKey(n), e)).ns <==> x in DayNumbers(d).ns || x == n
  {
    DayKeyReadsBack(n);
    var k := DayKey(n);
    if d == [] {
      assert Put(d, k, e) == [(k, e)];
    } else if d[0].0 == k {
      var p := [(k, e)] + d[1..];
      assert Put(d, k, e) == p;
      assert p[0].0 == k && p[1..] == d[1..];
      assert DayNumbers(d).ns == [n] + DayNumbers(d[1..]).ns;
      assert DayNumbers(p).ns == [n] + DayNumbers(d[1..]).ns;
    } else {
      var rest := Put(d[1..], k, e);
      DayNumbersPut(d[1..], n, e);
      var p := [d[0]] + rest;
      assert Put(d, k, e) == p;
      assert p[0] == d[0] && p[1..] == rest;
      assert DayNumbers(p) == DayNumbersCons(d[0].0, DayNumbers(rest));
      assert DayNumbers(d) == DayNumbersCons(d[0].0, DayNumbers(d[1..]));
    }
  }

  /** One step of `DayNumbers`: what the key in front adds to the rest's result. */
  function DayNumbersCons(key: string, rest: Numbers): Numbers
  {
    match ClassifyKey(key)
    case NotADay => rest
    case BadNumber => BadDayKey(key)
    case DayNumber(n) => if rest.BadDayKey? then rest else Numbers([n] + rest.ns)
  }

  /** After logging day `n`, the project day is the larger of `n` and every day already
      logged. */
  lemma LogThenProjectDay(d: Dict<Entry>, n: int, e: Entry)
    requires DayNumbers(d).Numbers?
    ensures var ns := DayNumbers(d).ns;
      ProjectDay(Put(d, DayKey(n), e)) == Says(DayReply(if ns == [] || n >= MaxOf(ns) then n else MaxOf(ns)))
  {
    DayNumbersPut(d, n, e);
    var ns := DayNumbers(d).ns;
    var after := DayNumbers(Put(d, DayKey(n), e)).ns;
    assert n in after;
    var m := if ns == [] || n >= MaxOf(ns) then n else MaxOf(ns);
    assert m in after;
    MaxOfUnique(after, m);
  }

  /** The length past which accomplishments are cut. */
  const ShortLimit := 100

  /** Accomplishments longer than 100 characters become their first 97 and "...". */
  function Shorten(a: string): (r: string)
    ensures |r| <= ShortLimit
    ensures |a| <= ShortLimit ==> r == a
    ensures |a| > ShortLimit ==> |r| == ShortLimit && r[..97] == a[..97] && r[97..] == "..."
  {
    if |a| > ShortLimit then a[..97] + "..." else a
  }

  /** `get_day_accomplishments` on the loaded journal. */
  function DayAccomplishments(d: Dict<Entry>, n: int): (r: Answer)
    ensures Get(d, DayKey(n)).None? ==> r == Says("No entry found for Day " + IntToString(n))
    ensures Get(d, DayKey(n)).Some? ==> r.Says? && |r.text| <= |"Archive entry " + IntToString(n) + ": "| + ShortLimit
    ensures Get(d, DayKey(n)).Some? ==>
      r == Says("Archive entry " + IntToString(n) + ": " + Shorten(Get(d, DayKey(n)).value.accomplishments))
  {
    match Get(d, DayKey(n))
    case None => Says("No entry found for Day " + IntToString(n))
    case Some(e) => Says("Archive entry " + IntToString(n) + ": " + Shorten(e.accomplishments))
  }

  /** A logged day reads back its accomplishments, cut to 100 characters. */
  lemma LogThenAccomplishments(d: Dict<Entry>, n: int, e: Entry)
    ensures DayAccomplishments(Put(d, DayKey(n), e), n)
         == Says("Archive entry " + IntToString(n) + ": " + Shorten(e.accomplishments))
  {
    GetPutSame(d, DayKey(n), e);
  }

  /** `get_today_summary` on the loaded journal, given today's date. */
  function TodaySummary(d: Dict<Entry>, today: string): (r: Answer)
    ensures d == [] ==> r == Says("No entries logged yet")
    ensures d != [] && DayNumbers(d).BadDayKey? ==> r == Failed("Error: ")
    ensures d != [] && DayNumbers(d) == Numbers([]) ==> r == Says("No entries found")
    ensures r.Failed? ==> r == Failed("Error: ")
    ensures d != [] && DayNumbers(d).Numbers? && DayNumbers(d).ns != [] ==>
      var latest := MaxOf(DayNumbers(d).ns);
      && latest in DayNumbers(d).ns
      && (forall x :: x in DayNumbers(d).ns ==> x <= latest)
      && (r.Says? <==> Get(d, DayKey(latest)).Some?)
      && (r.Says? && Get(d, DayKey(latest)).value.date == today ==>
            r.text == "Today we " + Get(d, DayKey(latest)).value.accomplishments)
      && (r.Says? && Get(d, DayKey(latest)).value.date != today ==>
            r.text == "On day " + IntToString(latest) + ", we " + Get(d, DayKey(latest)).value.accomplishments)
      && (r.Says? ==> (StartsWith(r.text, "Today we ") <==> Get(d, DayKey(latest)).value.date == today))
  {
    if d == [] then Says("No entries logged yet")
    else match DayNumbers(d)
      case BadDayKey(_) => Failed("Error: ")
      case Numbers(ns) =>
        if ns == [] then Says("No entries found")
        else
          var latest := MaxOf(ns);
          match Get(d, DayKey(latest))
          case None => Failed("Error: ")
          case Some(e) =>
            if e.date == today then Says("Today we " + e.accomplishments)
            else
              var s := "On day " + IntToString(latest) + ", we " + e.accomplishments;
              assert s[0] == 'O' && "Today we "[0] == 'T';
              Says(s)
  }

  /** Logging the latest day today makes the summary report it as today's work, and
      logging it on another date reports it by number. */
  lemma LogThenTodaySummary(d: Dict<Entry>, n: int, e: Entry, today: string)
    requires DayNumbers(d).Numbers?
    requires forall x :: x in DayNumbers(d).ns ==> x <= n
    ensures TodaySummary(Put(d, DayKey(n), e), today)
         == if e.date == today then Says("Today we " + e.accomplishments)
            else Says("On day " + IntToString(n) + ", we " + e.accomplishments)
  {
    DayNumbersPut(d, n, e);
    var after := DayNumbers(Put(d, DayKey(n), e)).ns;
    assert n in after;
    MaxOfUnique(after, n);
    GetPutSame(d, DayKey(n), e);
  }

  function SummaryHeader(count: nat): string
  {
    "🚀 AI Learning Journey - " + IntToString(count) + " days logged:\n\n"
  }

  function SummaryLine(n: int, e: Entry): string
  {
    "Day " + IntToString(n) + ": " + e.accomplishments + "\n"
  }

  /** The lines for `days` in order, or None when some day's key is missing (KeyError). */
  function SummaryLines(d: Dict<Entry>, days: seq<int>): Option<string>
  {
    if days == [] then Some("")
    else match SummaryLines(d, days[..|days| - 1])
      case None => None
      case Some(prefix) =>
        match Get(d, DayKey(days[|days| - 1]))
        case None => None
        case Some(e) => Some(prefix + SummaryLine(days[|days| - 1], e))
  }

  /** What `get_project_summary` returns for the loaded journal. */
  function ProjectSummarySpec(d: Dict<Entry>): (r: Answer)
    ensures d == [] ==> r == Says("No project history yet")
    ensures d != [] && DayNumbers(d).BadDayKey? ==> r == Failed("Error: ")
    ensures r.Failed? ==> r == Failed("Error: ")
    ensures d != [] && r.Says? ==>
              DayNumbers(d).Numbers? && StartsWith(r.text, SummaryHeader(|DayNumbers(d).ns|))
  {
    if d == [] then Says("No project history yet")
    else match DayNumbers(d)
      case BadDayKey(_) => Failed("Error: ")
      case Numbers(ns) =>
        var days := SortInts(ns);
        match SummaryLines(d, days)
        case None => Failed("Error: ")
        case Some(body) => Says(SummaryHeader(|days|) + body)
  }

  /** The summary's header counts every day key, and its lines follow the day numbers in
      ascending order. */
  lemma ProjectSummaryShape(d: Dict<Entry>)
    requires d != [] && DayNumbers(d).Numbers?
    ensures var days := SortInts(DayNumbers(d).ns);
      && Ascending(days) && multiset(days) == multiset(DayNumbers(d).ns)
      && (ProjectSummarySpec(d).Says? ==>
            ProjectSummarySpec(d).text == SummaryHeader(CountDayKeys(d)) + SummaryLines(d, days).value)
  {
    DayNumbersCount(d);
    var days := SortInts(DayNumbers(d).ns);
    assert |days| == |multiset(days)| == |multiset(DayNumbers(d).ns)|;
  }

  /** `get_project_summary`: the header, then one line per day in ascending order. */
  method ProjectSummary(d: Dict<Entry>) returns (a: Answer)
    ensures a == ProjectSummarySpec(d)
  {
    if d == [] {
      return Says("No project history yet");
    }
    var numbers := DayNumbers(d);
    if numbers.BadDayKey? {
      return Failed("Error: ");
    }
    var days := SortInts(numbers.ns);
    var lines := "";
    var i := 0;
    while i < |days|
      invariant 0 <= i <= |days|
      invariant SummaryLines(d, days[..i]) == Some(lines)
    {
      var entry := Get(d, DayKey(days[i]));
      LinesStep(d, days, i);
      if entry.None? {
        LinesStayMissing(d, days, i + 1, |days|);
        assert days[..|days|] == days;
        return Failed("Error: ");
      }
      lines := lines + SummaryLine(days[i], entry.value);
      i := i + 1;
    }
    assert days[..i] == days;
    return Says(SummaryHeader(|days|) + lines);
  }

  /** The lines for one more day are the lines so far and that day's line. */
  lemma LinesStep(d: Dict<Entry>, days: seq<int>, i: nat)
    requires i < |days|
    ensures SummaryLines(d, days[..i + 1])
         == match SummaryLines(d, days[..i])
            case None => None
            case Some(prefix) =>
              match Get(d, DayKey(days[i]))
              case None => None
              case Some(e) => Some(prefix + SummaryLine(days[i], e))
  {
    assert days[..i + 1][..i] == days[..i];
  }

  /** Once a day is missing, the lines for every longer prefix are missing too. */
  lemma {:induction false} LinesStayMissing(d: Dict<Entry>, days: seq<int>, i: nat, j: nat)
    requires i <= j <= |days| && SummaryLines(d, days[..i]).None?
    ensures SummaryLines(d, days[..j]).None?
    decreases j - i
  {
    if i < j {
      assert days[..i + 1][..i] == days[..i];
      LinesStayMissing(d, days, i + 1, j);
    }
  }

  /** The journal file, as `log_project_day` changes it. */
  class JournalStore {
    var file: JournalFile

    constructor(f: JournalFile)
      ensures file == f
    {
      file := f;
    }

    /** `log_project_day`: load, assign `day_<n>` to a new record stamped with `today` and
        `timestamp`, and save. When saving fails the file is left as it was. */
    method LogProjectDay(n: int, accomplishments: string, today: string, timestamp: string, saveOk: bool)
      returns (reply: string)
      modifies this
      ensures saveOk ==> file == Stored(Put(Load(old(file)), DayKey(n), Entry(n, today, accomplishments, timestamp)))
      ensures !saveOk ==> file == old(file)
      ensures reply == if saveOk then "Day " + IntToString(n) + " logged to neural archive." else "Memory write failed."
    {
      var journal := Load(file);
      journal := Put(journal, DayKey(n), Entry(n, today, accomplishments, timestamp));
      if saveOk {
        file := Stored(journal);
        reply := "Day " + IntToString(n) + " logged to neural archive.";
      } else {
        reply := "Memory write failed.";
      }
    }
  }

  /** Logging writes exactly its own key: the new record reads back under `day_<n>`, and
      every other key reads as before. */
  lemma LogWritesOneKey(f: JournalFile, n: int, e: Entry, other: string)
    ensures Get(Put(Load(f), DayKey(n), e), DayKey(n)) == Some(e)
    ensures other != DayKey(n) ==> Get(Put(Load(f), DayKey(n), e), other) == Get(Load(f), other)
  {
    GetPutSame(Load(f), DayKey(n), e);
    if other != DayKey(n) {
      GetPutOther(Load(f), DayKey(n), e, other);
    }
  }
}
