/**
 * The SubsPlease schedule scraper. The loaded schedule table is a sequence
 * of `tr` rows; a `day-of-week` row sets the current day from its `h2`, and
 * an `all-schedule-item` row with a non-empty title and time, seen while a
 * day is set, yields a schedule entry keyed by its title (a later row with
 * the same title replaces an earlier one). `transform` is `match_similar`
 * writing the `schedule` field.
 */
module SubsPleaseScraper {
  import opened Wrappers
  import opened Keyed
  import opened Entities
  import opened Matcher

  /** `Day::from_str`: exactly the seven English day names, case-sensitive. */
  function DayFromStr(s: string): (r: Result<Day, string>)
    ensures r.Err? ==> r.error == "Invalid day."
  {
    match s
    case "Sunday" => Ok(Sunday)
    case "Monday" => Ok(Monday)
    case "Tuesday" => Ok(Tuesday)
    case "Wednesday" => Ok(Wednesday)
    case "Thursday" => Ok(Thursday)
    case "Friday" => Ok(Friday)
    case "Saturday" => Ok(Saturday)
    case _ => Err("Invalid day.")
  }

  /** The name each day is written with in the table. */
  function DayName(d: Day): string
  {
    match d
    case Sunday => "Sunday"
    case Monday => "Monday"
    case Tuesday => "Tuesday"
    case Wednesday => "Wednesday"
    case Thursday => "Thursday"
    case Friday => "Friday"
    case Saturday => "Saturday"
  }

  /** `from_str` accepts exactly the day names, and reads each back as its day. */
  lemma DayFromStrIsInverse(s: string, d: Day)
    ensures DayFromStr(DayName(d)) == Ok(d)
    ensures DayFromStr(s) == Ok(d) <==> s == DayName(d)
  {
  }

  /**
   * One `tr` element: its `class` attribute, and for each selector the inner
   * HTML of the first descendant it matches.
   */
  datatype Row = Row(classAttr: Option<string>, firstMatch: map<string, string>)

  /** `extract_inner_html`: "" when the selector does not parse or matches nothing. */
  function ExtractInnerHtml(validSelector: string -> bool, selector: string, row: Row): (s: string)
    ensures s != "" ==> validSelector(selector) && selector in row.firstMatch && s == row.firstMatch[selector]
  {
    if !validSelector(selector) then ""
    else if selector in row.firstMatch then row.firstMatch[selector]
    else ""
  }

  const DayOfWeek := "day-of-week"
  const ScheduleItem := "all-schedule-item"

  /** The `Ok` of `Result::ok()`. */
  function OkValue<T, E>(r: Result<T, E>): Option<T>
  {
    match r
    case Ok(v) => Some(v)
    case Err(_) => None
  }

  /** The current day after a row has been read. */
  function NextDay(day: Option<Day>, row: Row, validSelector: string -> bool): Option<Day>
  {
    if row.classAttr == Some(DayOfWeek) then OkValue(DayFromStr(ExtractInnerHtml(validSelector, "h2", row)))
    else day
  }

  /** The schedule entry a row yields, given the current day. */
  function ItemOf(day: Option<Day>, row: Row, validSelector: string -> bool): Option<ScheduleEntry>
  {
    if row.classAttr == Some(ScheduleItem) then
      var title := ExtractInnerHtml(validSelector, "a", row);
      var time := ExtractInnerHtml(validSelector, ".all-schedule-time", row);
      if title != "" && time != "" && day.Some? then Some(ScheduleEntry(title, day.value, time)) else None
    else None
  }

  /** The current day and the entries yielded, in order, after reading `rows`. */
  function Walk(rows: seq<Row>, validSelector: string -> bool): (Option<Day>, seq<ScheduleEntry>)
    decreases |rows|
  {
    if rows == [] then (None, [])
    else
      var n := |rows| - 1;
      var (day, items) := Walk(rows[..n], validSelector);
      var next := NextDay(day, rows[n], validSelector);
      match ItemOf(day, rows[n], validSelector)
      case Some(e) => (next, items + [e])
      case None => (next, items)
  }

  function ScheduleItems(rows: seq<Row>, validSelector: string -> bool): seq<ScheduleEntry>
  {
    Walk(rows, validSelector).1
  }

  /** `AnimeSchedule`: the entries indexed by title. */
  function Schedule(rows: seq<Row>, validSelector: string -> bool): map<string, ScheduleEntry>
  {
    IndexLast(ScheduleItems(rows, validSelector), ScheduleTitle)
  }

  /** `scrape`, given the loaded table (or the error loading it). */
  method Scrape(table: Result<seq<Row>, string>, validSelector: string -> bool)
    returns (r: Result<map<string, ScheduleEntry>, string>)
    ensures table.Err? ==> r == Err(table.error)
    ensures table.Ok? && !validSelector("tr") ==> r == Err("Could not parse selector.")
    ensures table.Ok? && validSelector("tr") ==> r == Ok(Schedule(table.value, validSelector))
  {
    if table.Err? {
      return Err(table.error);
    }
    var rows := table.value;
    var days: map<string, ScheduleEntry> := map[];
    var currentDay: Option<Day> := None;
    if !validSelector("tr") {
      return Err("Could not parse selector.");
    }
    ghost var items: seq<ScheduleEntry> := [];
    var i := 0;
    while i < |rows|
      invariant 0 <= i <= |rows|
      invariant (currentDay, items) == Walk(rows[..i], validSelector)
      invariant days == IndexLast(items, ScheduleTitle)
    {
      var element := rows[i];
      assert rows[..i + 1][..i] == rows[..i];
      if element.classAttr.Some? {
        var cls := element.classAttr.value;
        if cls == DayOfWeek {
          var day := ExtractInnerHtml(validSelector, "h2", element);
          currentDay := OkValue(DayFromStr(day));
        } else if cls == ScheduleItem {
          var title := ExtractInnerHtml(validSelector, "a", element);
          var time := ExtractInnerHtml(validSelector, ".all-schedule-time", element);
          if title != "" && time != "" && currentDay.Some? {
            ghost var prev := items;
            items := items + [ScheduleEntry(title, currentDay.value, time)];
            assert items[..|items| - 1] == prev;
            days := days[title := ScheduleEntry(title, currentDay.value, time)];
          }
        }
      }
      i := i + 1;
    }
    assert rows[..i] == rows;
    r := Ok(days);
  }

  /** Every entry has a non-empty title and time. */
  lemma {:induction false} ItemsWellFormed(rows: seq<Row>, validSelector: string -> bool)
    ensures forall e :: e in ScheduleItems(rows, validSelector) ==> e.title != "" && e.time != ""
    decreases |rows|
  {
    if rows != [] {
      ItemsWellFormed(rows[..|rows| - 1], validSelector);
    }
  }

  /**
   * The schedule is keyed by title, holds one entry per distinct title
   * yielded, and each title maps to the last entry yielded with it.
   */
  lemma ScheduleKeyedByTitle(rows: seq<Row>, validSelector: string -> bool)
    ensures forall k :: k in Schedule(rows, validSelector) ==>
      Schedule(rows, validSelector)[k].title == k && Schedule(rows, validSelector)[k] in ScheduleItems(rows, validSelector)
    ensures forall e :: e in ScheduleItems(rows, validSelector) ==> e.title in Schedule(rows, validSelector)
    ensures forall k :: k in Schedule(rows, validSelector) ==> k != ""
  {
    var items := ScheduleItems(rows, validSelector);
    IndexLastKeyed(items, ScheduleTitle);
    IndexLastValues(items, ScheduleTitle);
    IndexLastKeys(items, ScheduleTitle);
    ItemsWellFormed(rows, validSelector);
    forall e | e in items ensures e.title in Schedule(rows, validSelector) {
      var i :| 0 <= i < |items| && items[i] == e;
      assert ScheduleTitle(items[i]) == e.title;
    }
  }

  /** No row of `rows` is a day-of-week row. */
  predicate NoDayRows(rows: seq<Row>)
  {
    forall j :: 0 <= j < |rows| ==> rows[j].classAttr != Some(DayOfWeek)
  }

  /**
   * After a day-of-week row, the rows up to the next one see the day it
   * names: the entries they yield all carry that day, or none are yielded
   * when the heading is not a day name.
   */
  lemma {:induction false} ItemsCarryHeadingDay(pre: seq<Row>, heading: Row, post: seq<Row>, validSelector: string -> bool)
    requires heading.classAttr == Some(DayOfWeek) && NoDayRows(post)
    ensures var day := OkValue(DayFromStr(ExtractInnerHtml(validSelector, "h2", heading)));
      var before := ScheduleItems(pre + [heading], validSelector);
      var after := ScheduleItems(pre + [heading] + post, validSelector);
      && Walk(pre + [heading] + post, validSelector).0 == day
      && |before| <= |after| && after[..|before|] == before
      && (day.None? ==> after == before)
      && (forall j :: |before| <= j < |after| ==> after[j].day == day.value)
    decreases |post|
  {
    var rows := pre + [heading] + post;
    if post == [] {
      assert rows == pre + [heading];
    } else {
      var n := |post| - 1;
      var shorter := post[..n];
      assert rows[..|rows| - 1] == pre + [heading] + shorter;
      ItemsCarryHeadingDay(pre, heading, shorter, validSelector);
      assert post[n] == rows[|rows| - 1];
    }
  }

  /** Rows before the first day-of-week row yield nothing. */
  lemma {:induction false} NoDayNoItems(rows: seq<Row>, validSelector: string -> bool)
    requires NoDayRows(rows)
    ensures Walk(rows, validSelector) == (None, [])
    decreases |rows|
  {
    if rows != [] {
      var n := |rows| - 1;
      assert NoDayRows(rows[..n]);
      NoDayNoItems(rows[..n], validSelector);
      assert rows[n].classAttr != Some(DayOfWeek);
    }
  }

  /** The cache key the older snapshot stores the scraped schedule under. */
  const CacheKey := "subsplease_scraper:extract"

  /** The `skip_cache` part of the older snapshot's `ExtractOptions`. */
  datatype CacheOptions = CacheOptions(skipCache: Option<bool>)

  /** `skip_cache` defaults to false when no options, or no flag, are given. */
  function SkipCache(options: Option<CacheOptions>): (skip: bool)
    ensures skip <==> options.Some? && options.value.skipCache == Some(true)
  {
    match options
    case Some(o) => o.skipCache.GetOr(false)
    case None => false
  }

  /**
   * `extract` of the older snapshot. `getCached(skip)` is what the cache
   * returns for `CacheKey` when asked with that skip flag (the cache itself
   * is not part of this model); `stored` is the value written back under
   * `CacheKey`, if any.
   */
  method LegacyExtract(options: Option<CacheOptions>, getCached: bool -> Option<map<string, ScheduleEntry>>,
                       table: Result<seq<Row>, string>, validSelector: string -> bool)
    returns (r: Result<map<string, ScheduleEntry>, string>, stored: Option<map<string, ScheduleEntry>>)
    ensures var cached := getCached(SkipCache(options));
      cached.Some? ==> r == Ok(cached.value) && stored == None
    ensures var cached := getCached(SkipCache(options));
      cached.None? && table.Ok? && validSelector("tr") ==>
        r == Ok(Schedule(table.value, validSelector)) && stored == Some(Schedule(table.value, validSelector))
    ensures var cached := getCached(SkipCache(options));
      cached.None? && table.Err? ==> r == Err(table.error) && stored == None
    ensures var cached := getCached(SkipCache(options));
      cached.None? && table.Ok? && !validSelector("tr") ==> r == Err("Could not parse selector.") && stored == None
  {
    var skipCache := SkipCache(options);
    var cached := getCached(skipCache);
    if cached.Some? {
      return Ok(cached.value), None;
    }
    var data := Scrape(table, validSelector);
    if data.Err? {
      return data, None;
    }
    stored := Some(data.value);
    r := Ok(data.value);
  }

  /** Only the schedule changes, and only to an entry of the extras. */
  lemma TransformChangesOnlySchedule(media: Media, extras: seq<(string, ScheduleEntry)>, threshold: real, sim: Similarity)
    ensures var t := Enrich(media, Resolve(media, extras, threshold, sim), SetSchedule);
      t.(schedule := media.schedule) == media
      && (t.schedule != media.schedule ==> exists i :: 0 <= i < |extras| && t.schedule == Some(extras[i].1))
  {
    var found := Resolve(media, extras, threshold, sim);
    if found.Some? && IsCurrent(media) {
      var cands := Candidates(media);
      var hit := FirstKeyed(cands, extras);
      if hit.None? {
        ScanBestIsArgMax(Keys(extras), TitleOrEmpty(media), EnglishOrEmpty(media), threshold, sim);
      }
    }
  }

  function TestMedia(title: Option<string>, english: Option<string>): Media
  {
    Media(Some(1), Some("CURRENT"), title, english, Details(None, None, None, None, None, None, None, None), None, None, None)
  }

  function TestSchedules(): seq<(string, ScheduleEntry)>
  {
    [("gintama", ScheduleEntry("gintama", Saturday, "00:00")),
     ("naruto", ScheduleEntry("naruto", Monday, "00:00")),
     ("tamako market", ScheduleEntry("tamako market", Friday, "00:00"))]
  }

  /**
   * The second and third unit-test cases need no similarity at all: "naruto"
   * is an exact title hit, and "tamako market" an exact English-title hit on a
   * record without a title.
   */
  lemma ExactHitExamples(threshold: real, sim: Similarity)
    ensures Resolve(TestMedia(Some("naruto"), None), TestSchedules(), threshold, sim) == Some(TestSchedules()[1].1)
    ensures Resolve(TestMedia(None, Some("tamako market")), TestSchedules(), threshold, sim) == Some(TestSchedules()[2].1)
  {
    var xs := TestSchedules();
    assert xs[1].0 == "naruto";
    ExactTitleWins(TestMedia(Some("naruto"), None), xs, threshold, sim);
    assert HasKey(xs, "tamako market") by { assert xs[2].0 == "tamako market"; }
    assert !HasKey(xs, "") by {
      assert xs[0].0 != "" && xs[1].0 != "" && xs[2].0 != "";
    }
    EnglishTitleSecond(TestMedia(None, Some("tamako market")), xs, threshold, sim);
  }

  /**
   * The first unit-test case: "Gintama" is no key (keys are case-sensitive),
   * so the fuzzy stage decides, and picks "gintama" for any similarity under
   * which it clears the threshold and scores at least as high as the others.
   */
  lemma FuzzyExample(threshold: real, sim: Similarity)
    requires Top(sim, "Gintama", "Gin Tama", "gintama") > threshold
    requires Top(sim, "Gintama", "Gin Tama", "naruto") <= Top(sim, "Gintama", "Gin Tama", "gintama")
    requires Top(sim, "Gintama", "Gin Tama", "tamako market") <= Top(sim, "Gintama", "Gin Tama", "gintama")
    ensures Resolve(TestMedia(Some("Gintama"), Some("Gin Tama")), TestSchedules(), threshold, sim) == Some(TestSchedules()[0].1)
  {
    var m := TestMedia(Some("Gintama"), Some("Gin Tama"));
    var xs := TestSchedules();
    var keys := Keys(xs);
    assert keys == ["gintama", "naruto", "tamako market"];
    forall j | 0 <= j < |Candidates(m)| ensures !HasKey(xs, Candidates(m)[j]) {
      assert Candidates(m) == ["Gintama", "Gin Tama"];
      assert "Gintama" != "gintama" && "Gin Tama" != "gintama";
    }
    FuzzyPicksWinner(m, xs, threshold, sim, 0);
  }
}
