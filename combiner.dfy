/**
 * `Combiner::combine` of the older snapshot: walks the anime slice in place
 * and gives every CURRENT entry the schedule entry the fuzzy scan keeps, or
 * clears its schedule when none clears the threshold. Always `Ok`.
 */
module Combiner {
  import opened Wrappers
  import opened Entities
  import opened Matcher

  /** The schedule the fuzzy scan keeps for `m`. */
  function ScheduleFor(m: Media, schedules: seq<ScheduleEntry>, threshold: real, sim: Similarity): Option<ScheduleEntry>
  {
    FuzzyChoice(TitleOrEmpty(m), EnglishOrEmpty(m), schedules, ScheduleTitle, threshold, sim)
  }

  /** One entry after `combine`. */
  function Combined(m: Media, schedules: seq<ScheduleEntry>, threshold: real, sim: Similarity): Media
  {
    if IsCurrent(m) then m.(schedule := ScheduleFor(m, schedules, threshold, sim)) else m
  }

  /** `combine` rewrites the slice in place and returns it. */
  method Combine(anime: array<Media>, schedules: seq<ScheduleEntry>, threshold: real, sim: Similarity)
    returns (r: Result<array<Media>, string>)
    modifies anime
    ensures r == Ok(anime)
    ensures forall i :: 0 <= i < anime.Length ==> anime[i] == Combined(old(anime[i]), schedules, threshold, sim)
  {
    var i := 0;
    while i < anime.Length
      invariant 0 <= i <= anime.Length
      invariant forall k :: 0 <= k < i ==> anime[k] == Combined(old(anime[k]), schedules, threshold, sim)
      invariant forall k :: i <= k < anime.Length ==> anime[k] == old(anime[k])
    {
      var entry := anime[i];
      if entry.status == Some(Current) {
        var pick := FuzzyPick(TitleOrEmpty(entry), EnglishOrEmpty(entry), schedules, ScheduleTitle, threshold, sim);
        anime[i] := entry.(schedule := pick);
      }
      i := i + 1;
    }
    r := Ok(anime);
  }

  /** Only the schedule of an entry can change. */
  lemma OnlyScheduleChanges(m: Media, schedules: seq<ScheduleEntry>, threshold: real, sim: Similarity)
    ensures Combined(m, schedules, threshold, sim).(schedule := m.schedule) == m
  {
  }

  /** An entry whose status is missing or not CURRENT is left as it is. */
  lemma NotCurrentUntouched(m: Media, schedules: seq<ScheduleEntry>, threshold: real, sim: Similarity)
    requires !IsCurrent(m)
    ensures Combined(m, schedules, threshold, sim) == m
  {
  }

  /**
   * A CURRENT entry for which nothing clears the threshold loses any schedule
   * it had; otherwise it carries the fuzzy winner.
   */
  lemma ScheduleOverwritten(m: Media, schedules: seq<ScheduleEntry>, threshold: real, sim: Similarity)
    requires IsCurrent(m)
    ensures NoneAbove(TitlesOf(schedules, ScheduleTitle), TitleOrEmpty(m), EnglishOrEmpty(m), threshold, sim) ==>
      Combined(m, schedules, threshold, sim).schedule == None
    ensures !NoneAbove(TitlesOf(schedules, ScheduleTitle), TitleOrEmpty(m), EnglishOrEmpty(m), threshold, sim) ==>
      exists j: nat :: IsFuzzyWinner(TitlesOf(schedules, ScheduleTitle), TitleOrEmpty(m), EnglishOrEmpty(m), threshold, sim, j)
        && Combined(m, schedules, threshold, sim).schedule == Some(schedules[j])
  {
    var ts := TitlesOf(schedules, ScheduleTitle);
    var c := ScheduleFor(m, schedules, threshold, sim);
    assert Combined(m, schedules, threshold, sim).schedule == c;
    if c.Some? {
      var j: nat :| IsFuzzyWinner(ts, TitleOrEmpty(m), EnglishOrEmpty(m), threshold, sim, j) && c.value == schedules[j];
    }
  }

  /**
   * The behaviour of the `test_combine` case, for any similarity under which
   * "gintama" clears the threshold and scores at least as high as the other
   * two titles.
   */
  lemma GintamaExample(threshold: real, sim: Similarity)
    requires Top(sim, "Gintama", "Gin Tama", "gintama") > threshold
    requires Top(sim, "Gintama", "Gin Tama", "naruto") <= Top(sim, "Gintama", "Gin Tama", "gintama")
    requires Top(sim, "Gintama", "Gin Tama", "tamako market") <= Top(sim, "Gintama", "Gin Tama", "gintama")
    ensures
      var media := Media(Some(1), Some("CURRENT"), Some("Gintama"), Some("Gin Tama"),
                         Details(None, None, None, None, None, None, None, None), None, None, None);
      var schedules := [ScheduleEntry("gintama", Saturday, "00:00"), ScheduleEntry("naruto", Monday, "00:00"),
                        ScheduleEntry("tamako market", Friday, "00:00")];
      Combined(media, schedules, threshold, sim).schedule == Some(schedules[0])
  {
    var media := Media(Some(1), Some("CURRENT"), Some("Gintama"), Some("Gin Tama"),
                       Details(None, None, None, None, None, None, None, None), None, None, None);
    var schedules := [ScheduleEntry("gintama", Saturday, "00:00"), ScheduleEntry("naruto", Monday, "00:00"),
                      ScheduleEntry("tamako market", Friday, "00:00")];
    var ts := TitlesOf(schedules, ScheduleTitle);
    assert ts == ["gintama", "naruto", "tamako market"];
    FuzzyChoiceOfWinner("Gintama", "Gin Tama", schedules, ScheduleTitle, threshold, sim, 0);
  }
}
