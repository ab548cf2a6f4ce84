/** The world clock (tools/time.py): a city name is looked up in a fixed table of
    city-to-time-zone entries, first exactly and then by substring in either direction,
    and the current time in the zone found is reported. Formatting the zone's current
    time is a parameter. */
module WorldClock {
  import opened Text
  import opened OrderedDict
  import opened Outcomes

  /** `CITY_TIMEZONES`, in declaration order. */
  const CityTimezones: Dict<string> := [
    ("new york", "America/New_York"),
    ("los angeles", "America/Los_Angeles"),
    ("chicago", "America/Chicago"),
    ("toronto", "America/Toronto"),
    ("vancouver", "America/Vancouver"),
    ("mexico city", "America/Mexico_City"),
    ("miami", "America/New_York"),
    ("san francisco", "America/Los_Angeles"),
    ("seattle", "America/Los_Angeles"),
    ("boston", "America/New_York"),
    ("washington", "America/New_York"),
    ("dc", "America/New_York"),
    ("denver", "America/Denver"),
    ("phoenix", "America/Phoenix"),
    ("las vegas", "America/Los_Angeles"),
    ("london", "Europe/London"),
    ("paris", "Europe/Paris"),
    ("berlin", "Europe/Berlin"),
    ("madrid", "Europe/Madrid"),
    ("rome", "Europe/Rome"),
    ("amsterdam", "Europe/Amsterdam"),
    ("brussels", "Europe/Brussels"),
    ("vienna", "Europe/Vienna"),
    ("zurich", "Europe/Zurich"),
    ("stockholm", "Europe/Stockholm"),
    ("oslo", "Europe/Oslo"),
    ("copenhagen", "Europe/Copenhagen"),
    ("helsinki", "Europe/Helsinki"),
    ("dublin", "Europe/Dublin"),
    ("lisbon", "Europe/Lisbon"),
    ("athens", "Europe/Athens"),
    ("moscow", "Europe/Moscow"),
    ("istanbul", "Europe/Istanbul"),
    ("prague", "Europe/Prague"),
    ("warsaw", "Europe/Warsaw"),
    ("tokyo", "Asia/Tokyo"),
    ("beijing", "Asia/Shanghai"),
    ("shanghai", "Asia/Shanghai"),
    ("hong kong", "Asia/Hong_Kong"),
    ("singapore", "Asia/Singapore"),
    ("seoul", "Asia/Seoul"),
    ("mumbai", "Asia/Kolkata"),
    ("delhi", "Asia/Kolkata"),
    ("bangalore", "Asia/Kolkata"),
    ("dubai", "Asia/Dubai"),
    ("bangkok", "Asia/Bangkok"),
    ("jakarta", "Asia/Jakarta"),
    ("manila", "Asia/Manila"),
    ("kuala lumpur", "Asia/Kuala_Lumpur"),
    ("tel aviv", "Asia/Jerusalem"),
    ("riyadh", "Asia/Riyadh"),
    ("karachi", "Asia/Karachi"),
    ("tehran", "Asia/Tehran"),
    ("sydney", "Australia/Sydney"),
    ("melbourne", "Australia/Melbourne"),
    ("brisbane", "Australia/Brisbane"),
    ("perth", "Australia/Perth"),
    ("auckland", "Pacific/Auckland"),
    ("wellington", "Pacific/Auckland"),
    ("cairo", "Africa/Cairo"),
    ("johannesburg", "Africa/Johannesburg"),
    ("cape town", "Africa/Johannesburg"),
    ("lagos", "Africa/Lagos"),
    ("nairobi", "Africa/Nairobi"),
    ("casablanca", "Africa/Casablanca"),
    ("sao paulo", "America/Sao_Paulo"),
    ("rio de janeiro", "America/Sao_Paulo"),
    ("buenos aires", "America/Argentina/Buenos_Aires"),
    ("santiago", "America/Santiago"),
    ("lima", "America/Lima"),
    ("bogota", "America/Bogota")
  ]

  /** `city_key in city_name or city_name in city_key` */
  predicate FuzzyMatch(key: string, name: string) {
    Contains(name, key) || Contains(key, name)
  }

  /** The first entry of `t` at or after `i` that matches `key` by substring. */
  function FirstFuzzy(t: Dict<string>, key: string, i: nat): (r: Option<nat>)
    ensures r.Some? ==> i <= r.value < |t| && FuzzyMatch(key, t[r.value].0)
    ensures r.Some? ==> forall j :: i <= j < r.value ==> !FuzzyMatch(key, t[j].0)
    ensures r.None? ==> forall j :: i <= j < |t| ==> !FuzzyMatch(key, t[j].0)
    decreases |t| - i
  {
    if i >= |t| then None
    else if FuzzyMatch(key, t[i].0) then Some(i)
    else FirstFuzzy(t, key, i + 1)
  }

  /** `city.lower().strip()` */
  function CityKey(city: string): string
  {
    Strip(Lower(city))
  }

  /** The zone the lookup in `get_time` settles on for `key` in table `t`: the exact
      entry, else the zone of the first entry that matches by substring, else none. */
  function ZoneIn(t: Dict<string>, key: string): (r: Option<string>)
    ensures key in Keys(t) ==> r == Get(t, key) && r.Some?
    ensures key !in Keys(t) ==> (r.Some? <==> exists j :: 0 <= j < |t| && FuzzyMatch(key, t[j].0))
    ensures key !in Keys(t) && r.Some? ==>
              exists j :: 0 <= j < |t| && FuzzyMatch(key, t[j].0) && r.value == t[j].1
                          && forall k :: 0 <= k < j ==> !FuzzyMatch(key, t[k].0)
  {
    match Get(t, key)
    case Some(zone) => Some(zone)
    case None =>
      match FirstFuzzy(t, key, 0)
      case None => None
      case Some(j) => Some(t[j].1)
  }

  function ZoneFor(city: string): Option<string>
  {
    ZoneIn(CityTimezones, CityKey(city))
  }

  function Apology(city: string): string
  {
    "Sorry, I don't have " + "timezone information for '" + city + "'. "
    + "Try cities like: New York, London, Tokyo, Sydney, Paris, Berlin, Singapore, Dubai, etc."
  }

  /** `get_time` over table `t`: `now(zone)` renders the current time and date in a
      zone. */
  function GetTimeIn(t: Dict<string>, city: string, now: string -> string): (r: Answer)
    ensures r.Says?
    ensures ZoneIn(t, CityKey(city)).None? ==> r.text == Apology(city)
    ensures ZoneIn(t, CityKey(city)).Some? ==> StartsWith(r.text, "The current time in " + Title(city) + " is ")
  {
    match ZoneIn(t, CityKey(city))
    case None => Says(Apology(city))
    case Some(zone) =>
      var head := "The current time in " + Title(city) + " is ";
      var reply := head + now(zone);
      assert reply[..|head|] == head;
      Says(reply)
  }

  /** The apology never reads as a time. */
  lemma ApologyIsNoTime(city: string, head: string)
    requires StartsWith(head, "The ")
    ensures !StartsWith(Apology(city), head)
  {
    assert Apology(city)[0] == 'S';
    assert head[0] == head[..4][0] == 'T';
  }

  /** `get_time` apologises exactly when the table has no zone for the city. */
  lemma GetTimeApologisesIffNoZone(t: Dict<string>, city: string, now: string -> string)
    ensures GetTimeIn(t, city, now).text == Apology(city) <==> ZoneIn(t, CityKey(city)).None?
  {
    var head := "The current time in " + Title(city) + " is ";
    assert StartsWith(head, "The ") by {
      assert head[..4] == "The ";
    }
    ApologyIsNoTime(city, head);
  }

  /** `get_time` */
  function GetTime(city: string, now: string -> string): (r: Answer)
    ensures r.Says?
    ensures r.text == Apology(city) <==> ZoneFor(city).None?
    ensures ZoneFor(city).Some? ==> StartsWith(r.text, "The current time in " + Title(city) + " is ")
  {
    GetTimeApologisesIffNoZone(CityTimezones, city, now);
    GetTimeIn(CityTimezones, city, now)
  }

  /** An empty key is no key of a table whose keys are all non-empty, yet it is inside
      every name, so a blank city gets the first entry's zone. */
  lemma BlankKeyGetsFirstZone(t: Dict<string>)
    requires |t| > 0
    requires forall j :: 0 <= j < |t| ==> t[j].0 != ""
    ensures ZoneIn(t, "") == Some(t[0].1)
  {
    assert "" !in Keys(t);
    ContainsEmpty(t[0].0);
    assert FuzzyMatch("", t[0].0);
    assert FirstFuzzy(t, "", 0) == Some(0);
  }

  /** A key that is an entry's key is answered by that entry even when an earlier entry
      would match it by substring. */
  lemma ExactKeyWins(t: Dict<string>, i: nat)
    requires DistinctKeys(t) && i < |t|
    ensures ZoneIn(t, t[i].0) == Some(t[i].1)
  {
    GetAt(t, i);
    assert t[i].0 in Keys(t) by {
      assert Keys(t)[i] == t[i].0;
    }
  }

  /** A key unrelated by substring to every name gets no zone. */
  lemma UnrelatedKeyHasNoZone(t: Dict<string>, key: string)
    requires forall j :: 0 <= j < |t| ==> !FuzzyMatch(key, t[j].0)
    ensures ZoneIn(t, key).None?
  {
    if key in Keys(t) {
      var j :| 0 <= j < |t| && Keys(t)[j] == key;
      ContainsSelf(key);
    }
  }
}
