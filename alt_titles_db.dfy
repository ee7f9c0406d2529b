/**
 * The alternative-titles source. `extract` reads every document of the
 * `alt_titles` collection and indexes the readable ones by the decimal
 * rendering of their media id (a later document with the same id replaces an
 * earlier one; unreadable documents are skipped). `transform` attaches the
 * entry whose key is the record's own id, and never looks at titles.
 */
module AltTitlesDb {
  import opened Wrappers
  import opened Numerals
  import opened Keyed
  import opened Entities
  import Matcher

  /** `ExtractOptions` of the newer snapshot; the client type is left abstract. */
  datatype ExtractOptions<C> = ExtractOptions(mongodbClient: Option<C>)

  /** What reading the collection yields: the error of `find`, or the cursor's items in order. */
  type Found = Result<seq<Result<AltTitlesEntry, string>>, string>

  /** The key an entry is stored under: `media_id.to_string()`. */
  function EntryKey(e: AltTitlesEntry): string { Decimal(e.mediaId) }

  /** The readable items of a cursor, in order. */
  function Oks(items: seq<Result<AltTitlesEntry, string>>): (es: seq<AltTitlesEntry>)
    ensures |es| <= |items|
    ensures forall e :: e in es <==> Ok(e) in items
    decreases |items|
  {
    if items == [] then []
    else
      var n := |items| - 1;
      var pre := Oks(items[..n]);
      assert forall x :: x in items <==> x in items[..n] || x == items[n];
      match items[n]
      case Ok(e) => pre + [e]
      case Err(_) => pre
  }

  /** The index `extract` builds from a cursor. */
  function Index(items: seq<Result<AltTitlesEntry, string>>): map<string, AltTitlesEntry>
  {
    IndexLast(Oks(items), EntryKey)
  }

  function Collect(found: Found): Result<map<string, AltTitlesEntry>, string>
  {
    match found
    case Err(e) => Err(e)
    case Ok(items) => Ok(Index(items))
  }

  /** One more cursor item: kept when readable, skipped otherwise. */
  lemma OksSnoc(items: seq<Result<AltTitlesEntry, string>>, x: Result<AltTitlesEntry, string>)
    ensures Oks(items + [x]) == if x.Ok? then Oks(items) + [x.value] else Oks(items)
  {
    assert (items + [x])[..|items|] == items;
  }

  /** The `while let Some(item) = cursor.next()` loop shared by both snapshots. */
  method CollectCursor(items: seq<Result<AltTitlesEntry, string>>) returns (index: map<string, AltTitlesEntry>)
    ensures index == Index(items)
  {
    index := map[];
    ghost var oks: seq<AltTitlesEntry> := [];
    var i := 0;
    while i < |items|
      invariant 0 <= i <= |items|
      invariant oks == Oks(items[..i])
      invariant index == IndexLast(oks, EntryKey)
    {
      assert items[..i + 1] == items[..i] + [items[i]];
      OksSnoc(items[..i], items[i]);
      match items[i] {
        case Ok(altTitle) =>
          IndexLastSnoc(oks, altTitle, EntryKey);
          oks := oks + [altTitle];
          index := index[Decimal(altTitle.mediaId) := altTitle];
        case Err(_) =>
      }
      i := i + 1;
    }
    assert items[..i] == items;
  }

  /** `AltTitlesDB::extract` of the newer snapshot. */
  method Extract<C>(options: Option<ExtractOptions<C>>, find: C -> Found)
    returns (r: Result<map<string, AltTitlesEntry>, string>)
    ensures options.None? ==> r == Err("No options provided.")
    ensures options.Some? && options.value.mongodbClient.None? ==> r == Err("No mongodb client provided.")
    ensures options.Some? && options.value.mongodbClient.Some? ==> r == Collect(find(options.value.mongodbClient.value))
  {
    if options.None? {
      return Err("No options provided.");
    }
    if options.value.mongodbClient.None? {
      return Err("No mongodb client provided.");
    }
    var found := find(options.value.mongodbClient.value);
    if found.Err? {
      return Err(found.error);
    }
    var index := CollectCursor(found.value);
    r := Ok(index);
  }

  /** `AltTitlesDB::extract` of the older snapshot: the client is a field, so there is no options check. */
  method LegacyExtract(found: Found) returns (r: Result<map<string, AltTitlesEntry>, string>)
    ensures r == Collect(found)
  {
    if found.Err? {
      return Err(found.error);
    }
    var index := CollectCursor(found.value);
    r := Ok(index);
  }

  /** Every key is the decimal rendering of the id of the entry under it, and parses back to it. */
  lemma IndexKeyedById(items: seq<Result<AltTitlesEntry, string>>)
    ensures forall k :: k in Index(items) ==> EntryKey(Index(items)[k]) == k && Parse(k, 10) == Index(items)[k].mediaId
  {
    IndexLastKeyed(Oks(items), EntryKey);
    forall k | k in Index(items) ensures Parse(k, 10) == Index(items)[k].mediaId {
      ParseRender(Index(items)[k].mediaId, 10);
    }
  }

  /**
   * The index holds exactly the ids of the readable items, each entry is one
   * of those items, and there are no more keys than items.
   */
  lemma IndexContents(items: seq<Result<AltTitlesEntry, string>>)
    ensures forall e :: Ok(e) in items ==> EntryKey(e) in Index(items)
    ensures forall k :: k in Index(items) ==> Ok(Index(items)[k]) in items
    ensures |Index(items)| <= |items|
  {
    var oks := Oks(items);
    IndexLastKeys(oks, EntryKey);
    IndexLastValues(oks, EntryKey);
    IndexLastSize(oks, EntryKey);
    forall e | Ok(e) in items ensures EntryKey(e) in Index(items) {
      assert e in oks;
      var i :| 0 <= i < |oks| && oks[i] == e;
    }
  }

  /** The index of a cursor with one more item. */
  lemma IndexSnoc(items: seq<Result<AltTitlesEntry, string>>, x: Result<AltTitlesEntry, string>)
    ensures x.Ok? ==> Index(items + [x]) == Index(items)[EntryKey(x.value) := x.value]
    ensures x.Err? ==> Index(items + [x]) == Index(items)
  {
    var s := items + [x];
    assert s[..|s| - 1] == items;
    if x.Ok? {
      var oks := Oks(s);
      assert oks == Oks(items) + [x.value];
      assert oks[..|oks| - 1] == Oks(items);
    }
  }

  /** Of several readable items with the same id, the last one is kept. */
  lemma {:induction false} LastItemWins(items: seq<Result<AltTitlesEntry, string>>, i: nat, e: AltTitlesEntry)
    requires i < |items| && items[i] == Ok(e)
    requires forall j :: i < j < |items| && items[j].Ok? ==> items[j].value.mediaId != e.mediaId
    ensures EntryKey(e) in Index(items) && Index(items)[EntryKey(e)] == e
    decreases |items|
  {
    var n := |items| - 1;
    var pre := items[..n];
    assert items == pre + [items[n]];
    IndexSnoc(pre, items[n]);
    if i < n {
      assert pre[i] == items[i];
      LastItemWins(pre, i, e);
      if items[n].Ok? {
        assert EntryKey(items[n].value) != EntryKey(e) by {
          if EntryKey(items[n].value) == EntryKey(e) {
            RenderInjective(items[n].value.mediaId, e.mediaId, 10);
          }
        }
      }
    }
  }

  /** `get_similarity_threshold` of the older snapshot, which `transform` never reads. */
  const SimilarityThreshold: real := 1.0

  /**
   * Were the fuzzy scan run with this threshold, no similarity of at most 1,
   * as every normalised one is, would clear it.
   */
  lemma ThresholdAdmitsNoFuzzyHit<E>(t1: string, t2: string, extras: seq<E>, titleOf: E -> string, sim: Matcher.Similarity)
    requires forall a, b :: sim(a, b) <= 1.0
    ensures Matcher.FuzzyChoice(t1, t2, extras, titleOf, SimilarityThreshold, sim) == None
  {
  }

  /** The `transform` of either snapshot: an exact media-id lookup, titles are never consulted. */
  function ById(m: Media, extras: map<string, AltTitlesEntry>): Media
  {
    if IsCurrent(m) && m.mediaId.Some? && Decimal(m.mediaId.value) in extras then
      SetAltTitles(m, extras[Decimal(m.mediaId.value)])
    else m
  }

  /**
   * `transform` on a mutably borrowed record: `r` is the result and `left`
   * what `std::mem::take` leaves behind.
   */
  method Transform(media: Media, extras: map<string, AltTitlesEntry>) returns (r: Result<Media, string>, left: Media)
    ensures r == Ok(ById(media, extras))
    ensures left == DefaultMedia()
  {
    left := DefaultMedia();
    if media.status == Some(Current) {
      if media.mediaId.None? {
        r := Ok(media);
        return;
      }
      var mediaId := Decimal(media.mediaId.value);
      if mediaId in extras {
        r := Ok(SetAltTitles(media, extras[mediaId]));
        return;
      }
    }
    r := Ok(media);
  }

  /**
   * Over an index built by `extract`, an attached entry always carries the
   * record's own media id; only `alt_titles` changes, and titles play no part.
   */
  lemma ByIdAttachesOwnId(m: Media, items: seq<Result<AltTitlesEntry, string>>, other: Media)
    requires other == m.(title := other.title, englishTitle := other.englishTitle)
    ensures ById(m, Index(items)).(altTitles := m.altTitles) == m
    ensures ById(m, Index(items)).altTitles != m.altTitles ==> ById(m, Index(items)).altTitles.value.mediaId == m.mediaId.value
    ensures ById(other, Index(items)).altTitles == ById(m, Index(items)).altTitles
  {
    IndexKeyedById(items);
    if m.mediaId.Some? && Decimal(m.mediaId.value) in Index(items) {
      var e := Index(items)[Decimal(m.mediaId.value)];
      RenderInjective(e.mediaId, m.mediaId.value, 10);
    }
  }

  /** Extracting and then transforming attaches the last readable entry with the record's id. */
  lemma ExtractThenTransform(m: Media, items: seq<Result<AltTitlesEntry, string>>, i: nat, e: AltTitlesEntry)
    requires IsCurrent(m) && m.mediaId == Some(e.mediaId)
    requires i < |items| && items[i] == Ok(e)
    requires forall j :: i < j < |items| && items[j].Ok? ==> items[j].value.mediaId != e.mediaId
    ensures ById(m, Index(items)).altTitles == Some(e)
  {
    LastItemWins(items, i, e);
  }

  /** A record with no media id, or not CURRENT, is returned unchanged. */
  lemma ByIdUnchanged(m: Media, extras: map<string, AltTitlesEntry>)
    requires !IsCurrent(m) || m.mediaId.None?
    ensures ById(m, extras) == m
  {
  }

  /** The unit-test case: an entry keyed "1" is attached to the CURRENT record with id 1. */
  lemma GintamaExample()
    ensures
      var media := Media(Some(1), Some("CURRENT"), Some("Gintama"), None,
                         Details(None, None, None, None, None, None, None, None), None, None, None);
      var entry := AltTitlesEntry(1, ["Gin Tama"]);
      ById(media, map["1" := entry]).altTitles == Some(entry)
  {
    assert Decimal(1) == "1";
  }

  /** The extraction test case: one document with id 1 gives the single key "1". */
  lemma ExtractExample()
    ensures Index([Ok(AltTitlesEntry(1, ["alt", "title"]))]) == map["1" := AltTitlesEntry(1, ["alt", "title"])]
  {
    var items: seq<Result<AltTitlesEntry, string>> := [Ok(AltTitlesEntry(1, ["alt", "title"]))];
    assert items[..0] == [];
    assert Oks(items) == [AltTitlesEntry(1, ["alt", "title"])];
    assert Decimal(1) == "1";
    assert Oks(items)[..0] == [];
  }
}
