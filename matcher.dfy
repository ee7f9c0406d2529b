/**
 * `Similar::match_similar`: links one media entry to at most one extra record
 * of a keyed set. Only CURRENT entries are enriched. The strategies are tried
 * in a fixed order: the exact title, the exact English title, each registered
 * alternative title in list order, and finally a fuzzy scan that keeps the
 * highest similarity strictly above the threshold (the earliest key on ties).
 * The similarity measure is a parameter; nothing is assumed about it.
 */
module Matcher {
  import opened Wrappers
  import opened Keyed
  import opened Entities

  type Similarity = (string, string) -> real

  /** The better of the scores of key `k` against the two titles. */
  function Top(sim: Similarity, t1: string, t2: string, k: string): real
  {
    if sim(t1, k) >= sim(t2, k) then sim(t1, k) else sim(t2, k)
  }

  /** The `score_tuple` of the scan: an index into the keys and its score. */
  datatype Pick = Pick(index: nat, score: real)

  /** One `if score > threshold && score > score_tuple.0` test of the scan. */
  function Offer(p: Option<Pick>, i: nat, s: real, threshold: real): Option<Pick>
  {
    if s > threshold && (p.None? || s > p.value.score) then Some(Pick(i, s)) else p
  }

  /** The score tuple after scanning `keys` in order against both titles. */
  function ScanBest(keys: seq<string>, t1: string, t2: string, threshold: real, sim: Similarity): Option<Pick>
    decreases |keys|
  {
    if keys == [] then None
    else
      var n := |keys| - 1;
      var p := ScanBest(keys[..n], t1, t2, threshold, sim);
      Offer(Offer(p, n, sim(t1, keys[n]), threshold), n, sim(t2, keys[n]), threshold)
  }

  /** No key scores strictly above the threshold against either title. */
  ghost predicate NoneAbove(keys: seq<string>, t1: string, t2: string, threshold: real, sim: Similarity)
  {
    forall i :: 0 <= i < |keys| ==> Top(sim, t1, t2, keys[i]) <= threshold
  }

  /**
   * Key `j` clears the threshold, no key scores higher, and every earlier key
   * scores strictly lower: the candidate a left-to-right arg-max with strict
   * comparison keeps.
   */
  ghost predicate IsFuzzyWinner(keys: seq<string>, t1: string, t2: string, threshold: real, sim: Similarity, j: nat)
  {
    && j < |keys|
    && Top(sim, t1, t2, keys[j]) > threshold
    && (forall i :: 0 <= i < |keys| ==> Top(sim, t1, t2, keys[i]) <= Top(sim, t1, t2, keys[j]))
    && (forall i :: 0 <= i < j ==> Top(sim, t1, t2, keys[i]) < Top(sim, t1, t2, keys[j]))
  }

  /** The scan selects nothing exactly when nothing clears the threshold, and otherwise the fuzzy winner. */
  lemma {:induction false} ScanBestIsArgMax(keys: seq<string>, t1: string, t2: string, threshold: real, sim: Similarity)
    ensures ScanBest(keys, t1, t2, threshold, sim).None? <==> NoneAbove(keys, t1, t2, threshold, sim)
    ensures ScanBest(keys, t1, t2, threshold, sim).Some? ==>
      var p := ScanBest(keys, t1, t2, threshold, sim).value;
      IsFuzzyWinner(keys, t1, t2, threshold, sim, p.index) && p.score == Top(sim, t1, t2, keys[p.index])
    decreases |keys|
  {
    if keys != [] {
      var n := |keys| - 1;
      var pre := keys[..n];
      ScanBestIsArgMax(pre, t1, t2, threshold, sim);
      forall i | 0 <= i < n ensures pre[i] == keys[i] { }
    }
  }

  /** At most one key is the fuzzy winner. */
  lemma FuzzyWinnerUnique(keys: seq<string>, t1: string, t2: string, threshold: real, sim: Similarity, j1: nat, j2: nat)
    requires IsFuzzyWinner(keys, t1, t2, threshold, sim, j1)
    requires IsFuzzyWinner(keys, t1, t2, threshold, sim, j2)
    ensures j1 == j2
  {
  }

  /** The fuzzy loop of `match_similar` (and of the older transform, combiner and emitter). */
  method FuzzyScan(keys: seq<string>, t1: string, t2: string, threshold: real, sim: Similarity)
    returns (best: Option<Pick>)
    ensures best == ScanBest(keys, t1, t2, threshold, sim)
    ensures best.None? <==> NoneAbove(keys, t1, t2, threshold, sim)
    ensures best.Some? ==> IsFuzzyWinner(keys, t1, t2, threshold, sim, best.value.index)
  {
    best := None;
    var i := 0;
    while i < |keys|
      invariant 0 <= i <= |keys|
      invariant best == ScanBest(keys[..i], t1, t2, threshold, sim)
    {
      var score := sim(t1, keys[i]);
      var altScore := sim(t2, keys[i]);
      if score > threshold && (best.None? || score > best.value.score) {
        best := Some(Pick(i, score));
      }
      if altScore > threshold && (best.None? || altScore > best.value.score) {
        best := Some(Pick(i, altScore));
      }
      assert keys[..i + 1][..i] == keys[..i];
      i := i + 1;
    }
    assert keys[..i] == keys;
    ScanBestIsArgMax(keys, t1, t2, threshold, sim);
  }

  /** The exact-match candidates in the order they are tried. */
  function Candidates(m: Media): seq<string>
  {
    [TitleOrEmpty(m), EnglishOrEmpty(m)] + AltTitleList(m)
  }

  /** The position of the first candidate that is a key of `extras`. */
  function FirstKeyed<E>(cands: seq<string>, extras: seq<(string, E)>): (r: Option<nat>)
    ensures r.Some? ==> r.value < |cands| && HasKey(extras, cands[r.value])
    ensures r.Some? ==> forall j :: 0 <= j < r.value ==> !HasKey(extras, cands[j])
    ensures r.None? ==> forall j :: 0 <= j < |cands| ==> !HasKey(extras, cands[j])
    decreases |cands|
  {
    if cands == [] then None
    else if HasKey(extras, cands[0]) then Some(0)
    else match FirstKeyed(cands[1..], extras)
      case None => None
      case Some(i) => Some(i + 1)
  }

  lemma FirstKeyedAt<E>(cands: seq<string>, extras: seq<(string, E)>, i: nat)
    requires i < |cands| && HasKey(extras, cands[i])
    requires forall j :: 0 <= j < i ==> !HasKey(extras, cands[j])
    ensures FirstKeyed(cands, extras) == Some(i)
  {
  }

  /** The extra record `match_similar` attaches, if any. */
  function Resolve<E>(m: Media, extras: seq<(string, E)>, threshold: real, sim: Similarity): Option<E>
  {
    if !IsCurrent(m) then None
    else
      match FirstKeyed(Candidates(m), extras)
      case Some(i) => Some(Lookup(extras, Candidates(m)[i]))
      case None =>
        var keys := Keys(extras);
        ScanBestIsArgMax(keys, TitleOrEmpty(m), EnglishOrEmpty(m), threshold, sim);
        match ScanBest(keys, TitleOrEmpty(m), EnglishOrEmpty(m), threshold, sim)
        case Some(p) => Some(extras[p.index].1)
        case None => None
  }

  /** `set_media` applied when a record was found; otherwise the media as it was. */
  function Enrich<E>(m: Media, found: Option<E>, assign: (Media, E) -> Media): Media
  {
    match found
    case Some(e) => assign(m, e)
    case None => m
  }

  /** The enrichment field keeps its value unless a record was found. */
  ghost predicate NoExactHit<E>(m: Media, extras: seq<(string, E)>)
  {
    forall j :: 0 <= j < |Candidates(m)| ==> !HasKey(extras, Candidates(m)[j])
  }

  /**
   * `match_similar` on `media` borrowed mutably: `r` is the returned record and
   * `left` what `std::mem::take` leaves in the caller's place.
   */
  method MatchSimilar<E>(media: Media, extras: seq<(string, E)>, threshold: real, sim: Similarity, assign: (Media, E) -> Media)
    returns (r: Media, left: Media)
    requires DistinctKeys(extras)
    ensures r == Enrich(media, Resolve(media, extras, threshold, sim), assign)
    ensures left == DefaultMedia()
  {
    left := DefaultMedia();
    if media.status != Some(Current) {
      r := media;
      return;
    }
    var title := TitleOrEmpty(media);
    var english := EnglishOrEmpty(media);
    var alts := AltTitleList(media);
    ghost var cands := Candidates(media);
    assert cands[0] == title && cands[1] == english;
    if HasKey(extras, title) {
      FirstKeyedAt(cands, extras, 0);
      r := assign(media, Lookup(extras, title));
      return;
    }
    if HasKey(extras, english) {
      FirstKeyedAt(cands, extras, 1);
      r := assign(media, Lookup(extras, english));
      return;
    }
    var k := 0;
    while k < |alts|
      invariant 0 <= k <= |alts|
      invariant forall j :: 0 <= j < k ==> !HasKey(extras, alts[j])
    {
      if HasKey(extras, alts[k]) {
        assert cands[k + 2] == alts[k];
        forall j | 0 <= j < k + 2 ensures !HasKey(extras, cands[j]) {
          if j >= 2 { assert cands[j] == alts[j - 2]; }
        }
        FirstKeyedAt(cands, extras, k + 2);
        r := assign(media, Lookup(extras, alts[k]));
        return;
      }
      k := k + 1;
    }
    forall j | 0 <= j < |cands| ensures !HasKey(extras, cands[j]) {
      if j >= 2 { assert cands[j] == alts[j - 2]; }
    }
    var best := FuzzyScan(Keys(extras), title, english, threshold, sim);
    if best.Some? {
      r := assign(media, extras[best.value.index].1);
    } else {
      r := media;
    }
  }

  /**
   * `Transform::transform` of every source whose `transform` is
   * `match_similar`: the schedule scraper (`assign` writes `schedule`), the
   * RSS feed and MangaDex (`assign` writes `latest`). It always succeeds.
   */
  method Transform<E>(media: Media, extras: seq<(string, E)>, threshold: real, sim: Similarity,
                      assign: (Media, E) -> Media)
    returns (r: Result<Media, string>, left: Media)
    requires DistinctKeys(extras)
    ensures r == Ok(Enrich(media, Resolve(media, extras, threshold, sim), assign))
    ensures left == DefaultMedia()
  {
    var m;
    m, left := MatchSimilar(media, extras, threshold, sim, assign);
    r := Ok(m);
  }

  /** A record whose status is not CURRENT is never enriched. */
  lemma NotCurrentUnchanged<E>(m: Media, extras: seq<(string, E)>, threshold: real, sim: Similarity, assign: (Media, E) -> Media)
    requires !IsCurrent(m)
    ensures Enrich(m, Resolve(m, extras, threshold, sim), assign) == m
  {
  }

  /** An exact hit on the title wins, whatever the fuzzy scores; a missing title is looked up as "". */
  lemma ExactTitleWins<E>(m: Media, extras: seq<(string, E)>, threshold: real, sim: Similarity)
    requires IsCurrent(m) && HasKey(extras, TitleOrEmpty(m))
    ensures Resolve(m, extras, threshold, sim) == Some(Lookup(extras, TitleOrEmpty(m)))
  {
    FirstKeyedAt(Candidates(m), extras, 0);
  }

  /** The English title is tried only when the title is not a key; a missing one is looked up as "". */
  lemma EnglishTitleSecond<E>(m: Media, extras: seq<(string, E)>, threshold: real, sim: Similarity)
    requires IsCurrent(m) && !HasKey(extras, TitleOrEmpty(m)) && HasKey(extras, EnglishOrEmpty(m))
    ensures Resolve(m, extras, threshold, sim) == Some(Lookup(extras, EnglishOrEmpty(m)))
  {
    FirstKeyedAt(Candidates(m), extras, 1);
  }

  /** With neither title a key, the first alternative title (in list order) that is a key wins. */
  lemma AltTitlesInOrder<E>(m: Media, extras: seq<(string, E)>, threshold: real, sim: Similarity, k: nat)
    requires IsCurrent(m) && !HasKey(extras, TitleOrEmpty(m)) && !HasKey(extras, EnglishOrEmpty(m))
    requires k < |AltTitleList(m)| && HasKey(extras, AltTitleList(m)[k])
    requires forall j :: 0 <= j < k ==> !HasKey(extras, AltTitleList(m)[j])
    ensures Resolve(m, extras, threshold, sim) == Some(Lookup(extras, AltTitleList(m)[k]))
  {
    var cands := Candidates(m);
    var alts := AltTitleList(m);
    assert cands[k + 2] == alts[k];
    forall j | 0 <= j < k + 2 ensures !HasKey(extras, cands[j]) {
      if j >= 2 { assert cands[j] == alts[j - 2]; }
    }
    FirstKeyedAt(cands, extras, k + 2);
  }

  /** Without an exact hit, the fuzzy winner's record is attached. */
  lemma FuzzyPicksWinner<E>(m: Media, extras: seq<(string, E)>, threshold: real, sim: Similarity, j: nat)
    requires IsCurrent(m) && NoExactHit(m, extras)
    requires IsFuzzyWinner(Keys(extras), TitleOrEmpty(m), EnglishOrEmpty(m), threshold, sim, j)
    ensures Resolve(m, extras, threshold, sim) == Some(extras[j].1)
  {
    var keys := Keys(extras);
    var t1, t2 := TitleOrEmpty(m), EnglishOrEmpty(m);
    assert FirstKeyed(Candidates(m), extras).None?;
    ScanBestIsArgMax(keys, t1, t2, threshold, sim);
    assert !NoneAbove(keys, t1, t2, threshold, sim);
    var p := ScanBest(keys, t1, t2, threshold, sim).value;
    FuzzyWinnerUnique(keys, t1, t2, threshold, sim, p.index, j);
  }

  /**
   * Without an exact hit, a record is attached exactly when some key scores
   * strictly above the threshold; otherwise the field keeps its previous value.
   */
  lemma FuzzyMissKeepsField<E>(m: Media, extras: seq<(string, E)>, threshold: real, sim: Similarity, assign: (Media, E) -> Media)
    requires IsCurrent(m) && NoExactHit(m, extras)
    ensures Resolve(m, extras, threshold, sim).None? <==> NoneAbove(Keys(extras), TitleOrEmpty(m), EnglishOrEmpty(m), threshold, sim)
    ensures NoneAbove(Keys(extras), TitleOrEmpty(m), EnglishOrEmpty(m), threshold, sim) ==>
      Enrich(m, Resolve(m, extras, threshold, sim), assign) == m
  {
    assert FirstKeyed(Candidates(m), extras).None?;
    ScanBestIsArgMax(Keys(extras), TitleOrEmpty(m), EnglishOrEmpty(m), threshold, sim);
  }

  /**
   * A key scoring exactly the threshold is never the fuzzy pick, whatever
   * the other keys score: the bound is strict.
   */
  lemma ThresholdIsStrict(keys: seq<string>, t1: string, t2: string, threshold: real, sim: Similarity, j: nat)
    requires j < |keys| && Top(sim, t1, t2, keys[j]) == threshold
    ensures ScanBest(keys, t1, t2, threshold, sim).Some? ==> ScanBest(keys, t1, t2, threshold, sim).value.index != j
  {
    ScanBestIsArgMax(keys, t1, t2, threshold, sim);
  }
  /** The titles of a list of extra records, in order. */
  function TitlesOf<E>(extras: seq<E>, titleOf: E -> string): (ts: seq<string>)
    ensures |ts| == |extras| && forall i :: 0 <= i < |extras| ==> ts[i] == titleOf(extras[i])
  {
    seq(|extras|, i requires 0 <= i < |extras| => titleOf(extras[i]))
  }

  /** The record a fuzzy-only scan over `extras` keeps for the two titles. */
  function FuzzyChoice<E>(t1: string, t2: string, extras: seq<E>, titleOf: E -> string, threshold: real, sim: Similarity): (r: Option<E>)
    ensures r.None? <==> NoneAbove(TitlesOf(extras, titleOf), t1, t2, threshold, sim)
    ensures r.Some? ==> exists j: nat :: IsFuzzyWinner(TitlesOf(extras, titleOf), t1, t2, threshold, sim, j) && r.value == extras[j]
  {
    var keys := TitlesOf(extras, titleOf);
    ScanBestIsArgMax(keys, t1, t2, threshold, sim);
    match ScanBest(keys, t1, t2, threshold, sim)
    case Some(p) => Some(extras[p.index])
    case None => None
  }

  /** The fuzzy scan over extra records, returning the record kept. */
  method FuzzyPick<E>(t1: string, t2: string, extras: seq<E>, titleOf: E -> string, threshold: real, sim: Similarity)
    returns (r: Option<E>)
    ensures r == FuzzyChoice(t1, t2, extras, titleOf, threshold, sim)
  {
    var best := FuzzyScan(TitlesOf(extras, titleOf), t1, t2, threshold, sim);
    if best.Some? {
      r := Some(extras[best.value.index]);
    } else {
      r := None;
    }
  }

  /** The fuzzy choice is the record of the unique fuzzy winner. */
  lemma FuzzyChoiceOfWinner<E>(t1: string, t2: string, extras: seq<E>, titleOf: E -> string, threshold: real, sim: Similarity, j: nat)
    requires IsFuzzyWinner(TitlesOf(extras, titleOf), t1, t2, threshold, sim, j)
    ensures FuzzyChoice(t1, t2, extras, titleOf, threshold, sim) == Some(extras[j])
  {
    var keys := TitlesOf(extras, titleOf);
    ScanBestIsArgMax(keys, t1, t2, threshold, sim);
    var p := ScanBest(keys, t1, t2, threshold, sim).value;
    FuzzyWinnerUnique(keys, t1, t2, threshold, sim, p.index, j);
  }
}
