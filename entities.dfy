/**
 * The canonical record (`Media`) and the extra records that secondary sources
 * attach to it: a broadcast schedule entry, a latest episode/chapter, and an
 * alternative-titles entry.
 */
module Entities {
  import opened Wrappers

  datatype Day = Sunday | Monday | Tuesday | Wednesday | Thursday | Friday | Saturday

  /** `AnimeScheduleEntry`: one row of the broadcast schedule. */
  datatype ScheduleEntry = ScheduleEntry(title: string, day: Day, time: string)

  /** The title a schedule entry is matched by. */
  function ScheduleTitle(e: ScheduleEntry): string { e.title }

  /** `Latest`: the newest episode (or chapter) known for a title. */
  datatype Latest = Latest(title: string, episode: nat, url: string)

  /** `AltTitlesEntry`: the alternative titles registered for one media id. */
  datatype AltTitlesEntry = AltTitlesEntry(mediaId: nat, altTitles: seq<string>)

  datatype MediaType = Anime | Manga

  /** Descriptive metadata that no matcher reads or writes. */
  datatype Details = Details(
    mediaType: Option<MediaType>,
    format: Option<string>,
    season: Option<string>,
    seasonYear: Option<nat>,
    image: Option<string>,
    episodes: Option<nat>,
    score: Option<nat>,
    progress: Option<nat>)

  /**
   * One tracked anime/manga entry. `englishTitle` is the second title string;
   * the older snapshot calls the same field `alt_title`.
   */
  datatype Media = Media(
    mediaId: Option<nat>,
    status: Option<string>,
    title: Option<string>,
    englishTitle: Option<string>,
    details: Details,
    latest: Option<Latest>,
    schedule: Option<ScheduleEntry>,
    altTitles: Option<AltTitlesEntry>)

  /** `Media::default()`: every field `None`. */
  function DefaultMedia(): Media
  {
    Media(None, None, None, None, Details(None, None, None, None, None, None, None, None), None, None, None)
  }

  const Current: string := "CURRENT"

  /** Only entries whose status is exactly `Some("CURRENT")` are enriched. */
  predicate IsCurrent(m: Media)
  {
    m.status == Some(Current)
  }

  function TitleOrEmpty(m: Media): string { m.title.GetOr("") }

  function EnglishOrEmpty(m: Media): string { m.englishTitle.GetOr("") }

  /** The registered alternative titles, or none when no entry is attached. */
  function AltTitleList(m: Media): seq<string>
  {
    match m.altTitles
    case Some(entry) => entry.altTitles
    case None => []
  }

  /** The `set_media` of the schedule source: writes `schedule` only. */
  function SetSchedule(m: Media, e: ScheduleEntry): Media { m.(schedule := Some(e)) }

  /** The `set_media` of the latest-episode sources: writes `latest` only. */
  function SetLatest(m: Media, e: Latest): Media { m.(latest := Some(e)) }

  /** The `set_media` of the alternative-titles source: writes `altTitles` only. */
  function SetAltTitles(m: Media, e: AltTitlesEntry): Media { m.(altTitles := Some(e)) }
}
