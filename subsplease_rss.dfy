/**
 * The SubsPlease RSS source. Each feed item's category, with every
 * " - 720" removed, names the show; the episode number is the digit run
 * right before the first " (720p)" in the item title (0 when absent or when
 * it does not fit in 64 bits). Per show, the item with the highest episode
 * is kept, the first one on ties. `transform` is `match_similar` writing the
 * `latest` field.
 */
module SubsPleaseRss {
  import opened Wrappers
  import opened Numerals
  import opened Keyed
  import opened Entities
  import opened Matcher

  /** One feed item; the publication date plays no part in the fold. */
  datatype RssItem = RssItem(title: string, link: string, category: string)

  const QualitySuffix := " - 720"
  const EpisodeMarker := " (720p)"

  /** `str::replace(s, pat, "")`: non-overlapping occurrences removed left to right. */
  function RemoveAll(s: string, pat: string): (r: string)
    requires pat != []
    ensures |r| <= |s|
    decreases |s|
  {
    if |s| < |pat| then s
    else if s[..|pat|] == pat then RemoveAll(s[|pat|..], pat)
    else [s[0]] + RemoveAll(s[1..], pat)
  }

  /** `s` contains `pat` at position `p`. */
  predicate OccursAt(s: string, pat: string, p: nat)
  {
    p + |pat| <= |s| && s[p..p + |pat|] == pat
  }

  /** `s` contains `pat` somewhere. */
  predicate Occurs(s: string, pat: string)
  {
    exists p: nat :: p <= |s| && OccursAt(s, pat, p)
  }

  /** No proper prefix of `pat` is also a suffix of it. */
  predicate Borderless(pat: string)
  {
    forall k :: 0 < k < |pat| ==> pat[k..] != pat[..|pat| - k]
  }

  lemma QualitySuffixBorderless()
    ensures Borderless(QualitySuffix)
  {
    var p := QualitySuffix;
    forall k | 0 < k < |p| ensures p[k..] != p[..|p| - k] {
      assert p[|p| - 1] == '0' && p[..|p| - k][|p| - k - 1] != '0';
    }
  }

  /** A string without the pattern is left as it is. */
  lemma {:induction false} RemoveAllAbsent(s: string, pat: string)
    requires pat != [] && !Occurs(s, pat)
    ensures RemoveAll(s, pat) == s
    decreases |s|
  {
    if |s| >= |pat| {
      assert !OccursAt(s, pat, 0);
      forall p: nat | OccursAt(s[1..], pat, p) ensures OccursAt(s, pat, p + 1) {
        assert s[1..][p..p + |pat|] == s[p + 1..p + 1 + |pat|];
      }
      RemoveAllAbsent(s[1..], pat);
    }
  }

  /** For a borderless pattern, a trailing occurrence is removed without touching the rest. */
  lemma {:induction false} RemoveAllTrailing(t: string, pat: string)
    requires pat != [] && Borderless(pat)
    ensures RemoveAll(t + pat, pat) == RemoveAll(t, pat)
    decreases |t|
  {
    var s := t + pat;
    if t == [] {
      assert s == pat;
      assert s[|pat|..] == [];
    } else if |t| >= |pat| && t[..|pat|] == pat {
      assert s[..|pat|] == pat;
      assert s[|pat|..] == t[|pat|..] + pat;
      RemoveAllTrailing(t[|pat|..], pat);
    } else {
      if |t| >= |pat| {
        assert s[..|pat|] == t[..|pat|];
      } else {
        var k := |t|;
        assert pat[k..] != pat[..|pat| - k];
        assert s[..|pat|][k..] == pat[..|pat| - k];
      }
      assert s[1..] == t[1..] + pat;
      RemoveAllTrailing(t[1..], pat);
    }
  }

  /** A category "<show> - 720" names the show, as long as the show's name has no " - 720" in it. */
  lemma CategoryNamesShow(show: string)
    requires !Occurs(show, QualitySuffix)
    ensures ShowKey(RssItem("", "", show + QualitySuffix)) == show
  {
    QualitySuffixBorderless();
    RemoveAllTrailing(show, QualitySuffix);
    RemoveAllAbsent(show, QualitySuffix);
  }

  /** The show an item belongs to. */
  function ShowKey(item: RssItem): string
  {
    RemoveAll(item.category, QualitySuffix)
  }

  /** `\d`, read as an ASCII digit. */
  predicate IsDigit(c: char) { '0' <= c <= '9' }

  /** The length of the digit run starting at position `p`. */
  function DigitRun(s: string, p: nat): (n: nat)
    requires p <= |s|
    ensures p + n <= |s|
    decreases |s| - p
  {
    if p < |s| && IsDigit(s[p]) then 1 + DigitRun(s, p + 1) else 0
  }

  /**
   * `(?P<episode>\d+) \(720p\)` matches starting at `p`: a digit there, and
   * the marker right after the digit run (a greedy `\d+` can only be followed
   * by a non-digit).
   */
  predicate MatchesAt(s: string, p: nat)
  {
    p < |s| && IsDigit(s[p]) &&
    var e := p + DigitRun(s, p);
    e + |EpisodeMarker| <= |s| && s[e..e + |EpisodeMarker|] == EpisodeMarker
  }

  /** The leftmost match at or after `p`. */
  function FirstMatch(s: string, p: nat): (r: Option<nat>)
    requires p <= |s|
    ensures r.Some? ==> p <= r.value < |s| && MatchesAt(s, r.value)
    ensures r.Some? ==> forall q :: p <= q < r.value ==> !MatchesAt(s, q)
    ensures r.None? ==> forall q :: p <= q < |s| ==> !MatchesAt(s, q)
    decreases |s| - p
  {
    if p == |s| then None
    else if MatchesAt(s, p) then Some(p)
    else FirstMatch(s, p + 1)
  }

  /** The episode number of an item title: 0 without a match, and 0 when `parse::<u64>` overflows. */
  function Episode(title: string): (e: nat)
    ensures e < U64Bound
  {
    match FirstMatch(title, 0)
    case None => 0
    case Some(p) =>
      var digits := title[p..p + DigitRun(title, p)];
      var v := Parse(digits, 10);
      if v < U64Bound then v else 0
  }

  /** Rendered decimals are non-empty runs of ASCII digits. */
  lemma DecimalDigits(n: nat)
    ensures 1 <= |Decimal(n)|
    ensures forall i :: 0 <= i < |Decimal(n)| ==> IsDigit(Decimal(n)[i])
  {
    RenderWellFormed(n, 10);
    forall i | 0 <= i < |Decimal(n)| ensures IsDigit(Decimal(n)[i]) {
      assert Decimal(n)[i] in "0123456789";
    }
  }

  lemma {:induction false} DigitRunIs(s: string, p: nat, k: nat)
    requires p + k < |s|
    requires forall i :: p <= i < p + k ==> IsDigit(s[i])
    requires !IsDigit(s[p + k])
    ensures DigitRun(s, p) == k
    decreases k
  {
    if k > 0 {
      DigitRunIs(s, p + 1, k - 1);
    }
  }

  /** The middle and the end of a three-part concatenation. */
  lemma ConcatParts(a: string, b: string, c: string)
    ensures |a + b + c| == |a| + |b| + |c|
    ensures (a + b + c)[|a|..|a| + |b|] == b
    ensures (a + b + c)[|a| + |b|..] == c
  {
  }

  /** A run of `k >= 1` digits at `p` with the marker right after it is a match at `p`. */
  lemma MatchAtRun(s: string, p: nat, k: nat)
    requires 1 <= k && p + k + |EpisodeMarker| <= |s|
    requires forall i :: p <= i < p + k ==> IsDigit(s[i])
    requires s[p + k..p + k + |EpisodeMarker|] == EpisodeMarker
    ensures DigitRun(s, p) == k && MatchesAt(s, p)
  {
    assert s[p + k] == ' ' by {
      assert s[p + k] == s[p + k..p + k + |EpisodeMarker|][0];
    }
    DigitRunIs(s, p, k);
  }

  /** A non-empty digit run followed by the marker is a match at the run's start. */
  lemma MatchAfterPrefix(prefix: string, d: string, rest: string)
    requires 1 <= |d| && forall i :: 0 <= i < |d| ==> IsDigit(d[i])
    ensures var s := prefix + d + (EpisodeMarker + rest);
      DigitRun(s, |prefix|) == |d| && MatchesAt(s, |prefix|)
      && s[|prefix|..|prefix| + |d|] == d
  {
    var tail := EpisodeMarker + rest;
    var s := prefix + d + tail;
    var p := |prefix|;
    var e := p + |d|;
    ConcatParts(prefix, d, tail);
    forall i | p <= i < e ensures IsDigit(s[i]) {
      assert s[i] == s[p..e][i - p];
    }
    assert s[e..e + |EpisodeMarker|] == EpisodeMarker by {
      assert s[e..e + |EpisodeMarker|] == s[e..][..|EpisodeMarker|];
      assert tail[..|EpisodeMarker|] == EpisodeMarker;
    }
    MatchAtRun(s, p, |d|);
  }



  /**
   * A title "<prefix><n> (720p)<rest>", with no digit in the prefix, has
   * episode `n` when `n` fits in 64 bits and episode 0 otherwise.
   */
  lemma EpisodeOfRendered(prefix: string, n: nat, rest: string)
    requires forall i :: 0 <= i < |prefix| ==> !IsDigit(prefix[i])
    ensures Episode(prefix + Decimal(n) + EpisodeMarker + rest) == if n < U64Bound then n else 0
  {
    var d := Decimal(n);
    var s := prefix + d + (EpisodeMarker + rest);
    assert s == prefix + d + EpisodeMarker + rest;
    var p := |prefix|;
    DecimalDigits(n);
    ParseRender(n, 10);
    MatchAfterPrefix(prefix, d, rest);
    forall q | 0 <= q < p ensures !MatchesAt(s, q) {
      assert s[q] == prefix[q];
    }
    assert FirstMatch(s, 0) == Some(p);
  }

  /** A title without any " (720p)" has episode 0. */
  lemma NoMarkerNoEpisode(title: string)
    requires !Occurs(title, EpisodeMarker)
    ensures Episode(title) == 0
  {
    var r := FirstMatch(title, 0);
    if r.Some? {
      var p := r.value;
      var e := p + DigitRun(title, p);
      assert OccursAt(title, EpisodeMarker, e);
    }
  }

  /** The entry an item would insert. */
  function LatestOf(item: RssItem): Latest
  {
    Latest(ShowKey(item), Episode(item.title), item.link)
  }

  /** The `latest` map after folding `items` in feed order. */
  function Fold(items: seq<RssItem>): map<string, Latest>
    decreases |items|
  {
    if items == [] then map[]
    else
      var n := |items| - 1;
      var m := Fold(items[..n]);
      var key := ShowKey(items[n]);
      if key !in m || m[key].episode < Episode(items[n].title) then m[key := LatestOf(items[n])] else m
  }

  /** `fetch`, given the parsed feed items (or the error fetching or parsing the feed). */
  method Fetch(rss: Result<seq<RssItem>, string>) returns (r: Result<map<string, Latest>, string>)
    ensures rss.Err? ==> r == Err(rss.error)
    ensures rss.Ok? ==> r == Ok(Fold(rss.value))
  {
    if rss.Err? {
      return Err(rss.error);
    }
    var items := rss.value;
    var latest: map<string, Latest> := map[];
    var i := 0;
    while i < |items|
      invariant 0 <= i <= |items|
      invariant latest == Fold(items[..i])
    {
      var item := items[i];
      assert items[..i + 1][..i] == items[..i];
      var title := RemoveAll(item.category, QualitySuffix);
      var episode := Episode(item.title);
      if title !in latest || latest[title].episode < episode {
        latest := latest[title := Latest(title, episode, item.link)];
      }
      i := i + 1;
    }
    assert items[..i] == items;
    r := Ok(latest);
  }

  /** Every show of the feed has an entry, with at least the episode of each of its items. */
  lemma {:induction false} FoldCoversItems(items: seq<RssItem>)
    ensures forall i :: 0 <= i < |items| ==> ShowKey(items[i]) in Fold(items)
    ensures forall i :: 0 <= i < |items| ==> Episode(items[i].title) <= Fold(items)[ShowKey(items[i])].episode
    decreases |items|
  {
    if items != [] {
      var n := |items| - 1;
      var pre := items[..n];
      FoldCoversItems(pre);
      forall i | 0 <= i < n ensures items[i] == pre[i] { }
    }
  }

  /**
   * Each entry is the first item of its show that carries the show's highest
   * episode: an item of the feed, and every earlier item of that show has a
   * strictly lower episode.
   */
  lemma {:induction false} FoldKeepsFirstMaximum(items: seq<RssItem>, k: string) returns (i: nat)
    requires k in Fold(items)
    ensures i < |items| && ShowKey(items[i]) == k && Fold(items)[k] == LatestOf(items[i])
    ensures forall j :: 0 <= j < i && ShowKey(items[j]) == k ==> Episode(items[j].title) < Fold(items)[k].episode
    decreases |items|
  {
    var n := |items| - 1;
    var pre := items[..n];
    var m := Fold(pre);
    var key := ShowKey(items[n]);
    if k == key && (key !in m || m[key].episode < Episode(items[n].title)) {
      i := n;
      if key in m {
        FoldCoversItems(pre);
        forall j | 0 <= j < n && ShowKey(items[j]) == k ensures Episode(items[j].title) < Fold(items)[k].episode {
          assert pre[j] == items[j];
        }
      } else {
        FoldCoversItems(pre);
        forall j | 0 <= j < n ensures ShowKey(items[j]) != k {
          assert pre[j] == items[j];
        }
      }
    } else {
      i := FoldKeepsFirstMaximum(pre, k);
      assert items[i] == pre[i];
      forall j | 0 <= j < i ensures items[j] == pre[j] { }
    }
  }

  /** Every entry is keyed by its own title, and there are no more entries than items. */
  lemma {:induction false} FoldKeyedBySize(items: seq<RssItem>)
    ensures forall k :: k in Fold(items) ==> Fold(items)[k].title == k
    ensures |Fold(items)| <= |items|
    decreases |items|
  {
    if items != [] {
      FoldKeyedBySize(items[..|items| - 1]);
    }
  }

  /**
   * `set_media` of the RSS feed and of MangaDex writes `latest` alone, and
   * only to an entry of the extras.
   */
  lemma TransformChangesOnlyLatest(media: Media, extras: seq<(string, Latest)>, threshold: real, sim: Similarity)
    ensures var t := Enrich(media, Resolve(media, extras, threshold, sim), SetLatest);
      t.(latest := media.latest) == media
      && (t.latest != media.latest ==> exists i :: 0 <= i < |extras| && t.latest == Some(extras[i].1))
  {
    var found := Resolve(media, extras, threshold, sim);
    if found.Some? && IsCurrent(media) {
      var cands := Candidates(media);
      var hit := FirstKeyed(cands, extras);
      if hit.None? {
        ScanBestIsArgMax(Keys(extras), TitleOrEmpty(media), EnglishOrEmpty(media), threshold, sim);
      }
    }
  }

  /**
   * The unit-test case: the only key "gintama" is not an exact title, so it
   * is attached exactly when it clears the threshold.
   */
  lemma GintamaExample(threshold: real, sim: Similarity)
    ensures
      var media := Media(Some(1), Some("CURRENT"), Some("Gintama"), Some("Gin Tama"),
                         Details(None, None, None, None, None, None, None, None), None, None, None);
      var entry := Latest("gintama", 1, "http:://www.test.nyaa");
      Enrich(media, Resolve(media, [("gintama", entry)], threshold, sim), SetLatest).latest
        == if Top(sim, "Gintama", "Gin Tama", "gintama") > threshold then Some(entry) else None
  {
    var media := Media(Some(1), Some("CURRENT"), Some("Gintama"), Some("Gin Tama"),
                       Details(None, None, None, None, None, None, None, None), None, None, None);
    var entry := Latest("gintama", 1, "http:://www.test.nyaa");
    var xs := [("gintama", entry)];
    assert Keys(xs) == ["gintama"];
    assert !HasKey(xs, "Gintama") && !HasKey(xs, "Gin Tama");
    assert Candidates(media) == ["Gintama", "Gin Tama"];
    FuzzyMissKeepsField(media, xs, threshold, sim, SetLatest);
    if Top(sim, "Gintama", "Gin Tama", "gintama") > threshold {
      FuzzyPicksWinner(media, xs, threshold, sim, 0);
    }
  }
}
