/**
 * The `Transform` trait of the older aggregator snapshot: a CURRENT record is
 * linked only by the fuzzy scan over the extras' titles, with no exact-title
 * stage; the chosen extra is handed to `set_media`, and the result is always `Ok`.
 */
module LegacyTransform {
  import opened Wrappers
  import opened Entities
  import opened Matcher

  /** The record `transform` returns inside `Ok`. */
  function Transformed<E>(m: Media, extras: seq<E>, titleOf: E -> string, threshold: real, sim: Similarity,
                          assign: (Media, E) -> Media): Media
  {
    if IsCurrent(m) then
      Enrich(m, FuzzyChoice(TitleOrEmpty(m), EnglishOrEmpty(m), extras, titleOf, threshold, sim), assign)
    else m
  }

  method Transform<E>(media: Media, extras: seq<E>, titleOf: E -> string, threshold: real, sim: Similarity,
                      assign: (Media, E) -> Media) returns (r: Result<Media, string>)
    ensures r == Ok(Transformed(media, extras, titleOf, threshold, sim, assign))
  {
    var m := media;
    if media.status == Some(Current) {
      var title := TitleOrEmpty(media);
      var altTitle := EnglishOrEmpty(media);
      var chosen := FuzzyPick(title, altTitle, extras, titleOf, threshold, sim);
      if chosen.Some? {
        m := assign(m, chosen.value);
      }
    }
    r := Ok(m);
  }

  /** Records that are not CURRENT pass through untouched. */
  lemma NotCurrentUnchanged<E>(m: Media, extras: seq<E>, titleOf: E -> string, threshold: real, sim: Similarity,
                               assign: (Media, E) -> Media)
    requires !IsCurrent(m)
    ensures Transformed(m, extras, titleOf, threshold, sim, assign) == m
  {
  }

  /** A CURRENT record receives the fuzzy winner's extra. */
  lemma WinnerAttached<E>(m: Media, extras: seq<E>, titleOf: E -> string, threshold: real, sim: Similarity,
                          assign: (Media, E) -> Media, j: nat)
    requires IsCurrent(m)
    requires IsFuzzyWinner(TitlesOf(extras, titleOf), TitleOrEmpty(m), EnglishOrEmpty(m), threshold, sim, j)
    ensures Transformed(m, extras, titleOf, threshold, sim, assign) == assign(m, extras[j])
  {
    FuzzyChoiceOfWinner(TitleOrEmpty(m), EnglishOrEmpty(m), extras, titleOf, threshold, sim, j);
  }

  /** When no extra clears the threshold, `set_media` is not called. */
  lemma BelowThresholdUnchanged<E>(m: Media, extras: seq<E>, titleOf: E -> string, threshold: real, sim: Similarity,
                                   assign: (Media, E) -> Media)
    requires NoneAbove(TitlesOf(extras, titleOf), TitleOrEmpty(m), EnglishOrEmpty(m), threshold, sim)
    ensures Transformed(m, extras, titleOf, threshold, sim, assign) == m
  {
  }

  /**
   * There is no exact-title stage: an extra carrying exactly the record's
   * title loses to a later extra that scores higher.
   */
  lemma ExactTitleNotPreferred<E>(m: Media, a: E, b: E, titleOf: E -> string, threshold: real, sim: Similarity,
                                  assign: (Media, E) -> Media)
    requires IsCurrent(m) && titleOf(a) == TitleOrEmpty(m)
    requires threshold < Top(sim, TitleOrEmpty(m), EnglishOrEmpty(m), titleOf(a)) < Top(sim, TitleOrEmpty(m), EnglishOrEmpty(m), titleOf(b))
    ensures Transformed(m, [a, b], titleOf, threshold, sim, assign) == assign(m, b)
  {
    var ts := TitlesOf([a, b], titleOf);
    assert ts[0] == titleOf(a) && ts[1] == titleOf(b);
    WinnerAttached(m, [a, b], titleOf, threshold, sim, assign, 1);
  }
}
