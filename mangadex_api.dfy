/**
 * The MangaDex source. The manga list's relationships of type "manga" with
 * attributes and a usable title (romanised Japanese preferred over English)
 * are grouped into request batches of at most `rate_limit` entries; for each
 * entry the chapter aggregate is fetched and its highest chapter number
 * (the last one scanned on ties) becomes the entry's `Latest`, keyed by
 * title. `transform` is `match_similar` writing the `latest` field.
 */
module MangaDexApi {
  import opened Wrappers
  import opened Numerals
  import opened Keyed
  import opened Entities
  import opened Matcher

  /** One relationship of the manga list; `attributes` is the title map by language code. */
  datatype Relationship = Relationship(id: string, kind: string, attributes: Option<map<string, string>>)

  datatype MangaList = MangaList(result: string, relationships: seq<Relationship>)

  /** A volume's chapters as (chapter number text, chapter id) pairs, in iteration order. */
  datatype Volume = Volume(chapters: seq<(string, string)>)

  datatype MangaAggregate = MangaAggregate(result: string, volumes: seq<Volume>)

  /** A parsed `f64`. */
  datatype F64 = Finite(value: real) | PosInf | NegInf | NaN

  const U64Max: nat := U64Bound - 1

  /** Rust's `f64 as u64`: rounds toward zero and saturates; NaN becomes 0. */
  function CastU64(x: F64): (n: nat)
    ensures n <= U64Max
    ensures x.Finite? && 0.0 <= x.value < U64Bound as real ==> n as real <= x.value < n as real + 1.0
  {
    match x
    case Finite(r) => if r < 0.0 then 0 else if r >= U64Bound as real then U64Max else r.Floor
    case PosInf => U64Max
    case NegInf => 0
    case NaN => 0
  }

  /** The title an entry is listed under: "ja-ro", else "en", else none (""). */
  function ChooseTitle(titles: map<string, string>): (t: string)
    ensures "ja-ro" in titles ==> t == titles["ja-ro"]
    ensures "ja-ro" !in titles && "en" in titles ==> t == titles["en"]
    ensures "ja-ro" !in titles && "en" !in titles ==> t == ""
  {
    if "ja-ro" in titles then titles["ja-ro"]
    else if "en" in titles then titles["en"]
    else ""
  }

  /** The (title, id) pairs that enter the batches, in list order. */
  function Listed(rels: seq<Relationship>): seq<(string, string)>
    decreases |rels|
  {
    if rels == [] then []
    else
      var n := |rels| - 1;
      var pre := Listed(rels[..n]);
      var rel := rels[n];
      if rel.kind == "manga" && rel.attributes.Some? && ChooseTitle(rel.attributes.value) != "" then
        pre + [(ChooseTitle(rel.attributes.value), rel.id)]
      else pre
  }

  /** Every listed pair has a non-empty title, chosen from a manga relationship with the same id. */
  lemma {:induction false} ListedSound(rels: seq<Relationship>, k: nat) returns (i: nat)
    requires k < |Listed(rels)|
    ensures Listed(rels)[k].0 != ""
    ensures i < |rels| && rels[i].kind == "manga" && rels[i].attributes.Some?
    ensures Listed(rels)[k] == (ChooseTitle(rels[i].attributes.value), rels[i].id)
    decreases |rels|
  {
    var n := |rels| - 1;
    var pre := Listed(rels[..n]);
    var rel := rels[n];
    if rel.kind == "manga" && rel.attributes.Some? && ChooseTitle(rel.attributes.value) != "" {
      assert Listed(rels) == pre + [(ChooseTitle(rel.attributes.value), rel.id)];
      if k == |pre| {
        return n;
      }
    } else {
      assert Listed(rels) == pre;
    }
    i := ListedSound(rels[..n], k);
    assert rels[..n][i] == rels[i];
  }

  function Flat<T>(bs: seq<seq<T>>): seq<T>
    decreases |bs|
  {
    if bs == [] then [] else Flat(bs[..|bs| - 1]) + bs[|bs| - 1]
  }

  lemma FlatSnoc<T>(bs: seq<seq<T>>, b: seq<T>)
    ensures Flat(bs + [b]) == Flat(bs) + b
  {
    assert (bs + [b])[..|bs|] == bs;
  }

  /**
   * The batching loop of `fetch`. With a positive rate limit every batch
   * holds 1..rate_limit entries and all but the last are full; with a rate
   * limit of 0 the first batch is empty and every later one is a singleton.
   * Either way the batches, concatenated, are the listed pairs in order.
   */
  method BuildBatches(rels: seq<Relationship>, rateLimit: nat) returns (batches: seq<seq<(string, string)>>)
    ensures Flat(batches) == Listed(rels)
    ensures rateLimit >= 1 ==> forall k :: 0 <= k < |batches| ==>
      1 <= |batches[k]| <= rateLimit && (k < |batches| - 1 ==> |batches[k]| == rateLimit)
    ensures rateLimit == 0 && Listed(rels) == [] ==> batches == []
    ensures rateLimit == 0 && Listed(rels) != [] ==>
      |batches| == |Listed(rels)| + 1 && batches[0] == [] && forall k :: 1 <= k < |batches| ==> |batches[k]| == 1
  {
    batches := [];
    var currentBatch: seq<(string, string)> := [];
    var i := 0;
    while i < |rels|
      invariant 0 <= i <= |rels|
      invariant Flat(batches) + currentBatch == Listed(rels[..i])
      invariant Listed(rels[..i]) == [] <==> batches == [] && currentBatch == []
      invariant rateLimit >= 1 ==> (forall k :: 0 <= k < |batches| ==> |batches[k]| == rateLimit)
      invariant rateLimit >= 1 ==> |currentBatch| <= rateLimit && (batches != [] ==> currentBatch != [])
      invariant rateLimit == 0 && batches != [] ==>
        batches[0] == [] && |currentBatch| == 1 && |batches| == |Listed(rels[..i])|
        && forall k :: 1 <= k < |batches| ==> |batches[k]| == 1
      invariant rateLimit == 0 ==> currentBatch == [] || batches != []
    {
      var rel := rels[i];
      assert rels[..i + 1][..i] == rels[..i];
      if rel.kind == "manga" && rel.attributes.Some? {
        var id := rel.id;
        var title := ChooseTitle(rel.attributes.value);
        if title != "" {
          if |currentBatch| < rateLimit {
            currentBatch := currentBatch + [(title, id)];
          } else {
            FlatSnoc(batches, currentBatch);
            batches := batches + [currentBatch];
            currentBatch := [(title, id)];
          }
        }
      }
      i := i + 1;
    }
    assert rels[..i] == rels;
    if currentBatch != [] {
      FlatSnoc(batches, currentBatch);
      batches := batches + [currentBatch];
    }
  }

  /** The url of a chapter page. */
  function ChapterUrl(id: string): (url: string)
    ensures |url| > 0
  {
    "https://mangadex.org/chapter/" + id
  }

  /** The chapters of all volumes, in iteration order. */
  function AllChapters(volumes: seq<Volume>): seq<(string, string)>
    decreases |volumes|
  {
    if volumes == [] then [] else AllChapters(volumes[..|volumes| - 1]) + volumes[|volumes| - 1].chapters
  }

  /** The `latest` tuple after scanning `chapters`; a later chapter replaces on `>=`. */
  function ScanChapters(chapters: seq<(string, string)>, parseF64: string -> Option<F64>): (nat, string)
    decreases |chapters|
  {
    if chapters == [] then (0, "")
    else
      var n := |chapters| - 1;
      var best := ScanChapters(chapters[..n], parseF64);
      match parseF64(chapters[n].0)
      case None => best
      case Some(f) => if CastU64(f) >= best.0 then (CastU64(f), ChapterUrl(chapters[n].1)) else best
  }

  /** The `(episode, url)` of one aggregate: nothing unless its result is "ok". */
  function LatestChapter(agg: MangaAggregate, parseF64: string -> Option<F64>): (nat, string)
  {
    if agg.result == "ok" then ScanChapters(AllChapters(agg.volumes), parseF64) else (0, "")
  }

  /** Chapter `k` has a parsable number. */
  ghost predicate Parsable(chapters: seq<(string, string)>, parseF64: string -> Option<F64>, k: int)
  {
    0 <= k < |chapters| && parseF64(chapters[k].0).Some?
  }

  function ChapterValue(chapters: seq<(string, string)>, parseF64: string -> Option<F64>, k: nat): nat
    requires k < |chapters| && parseF64(chapters[k].0).Some?
  {
    CastU64(parseF64(chapters[k].0).value)
  }

  /**
   * The episode is at least every parsable chapter number, and the url stays
   * "" (with episode 0) exactly when no chapter number parses.
   */
  lemma {:induction false} ScanChaptersBound(chapters: seq<(string, string)>, parseF64: string -> Option<F64>)
    ensures forall k :: Parsable(chapters, parseF64, k) ==> ChapterValue(chapters, parseF64, k) <= ScanChapters(chapters, parseF64).0
    ensures ScanChapters(chapters, parseF64).1 == "" <==> forall k :: 0 <= k < |chapters| ==> !Parsable(chapters, parseF64, k)
    ensures ScanChapters(chapters, parseF64).1 == "" ==> ScanChapters(chapters, parseF64).0 == 0
    decreases |chapters|
  {
    if chapters != [] {
      var n := |chapters| - 1;
      var pre := chapters[..n];
      ScanChaptersBound(pre, parseF64);
      forall k | 0 <= k < n
        ensures Parsable(chapters, parseF64, k) == Parsable(pre, parseF64, k)
        ensures Parsable(pre, parseF64, k) ==> ChapterValue(chapters, parseF64, k) == ChapterValue(pre, parseF64, k)
      {
        assert pre[k] == chapters[k];
      }
      var best := ScanChapters(pre, parseF64);
      if Parsable(chapters, parseF64, n) {
        if ChapterValue(chapters, parseF64, n) < best.0 {
          assert best.1 != "";
        }
      } else {
        assert ScanChapters(chapters, parseF64) == best;
      }
    }
  }

  /**
   * When some chapter number parses, the result is the last chapter that
   * carries the highest number.
   */
  lemma {:induction false} ScanChaptersWitness(chapters: seq<(string, string)>, parseF64: string -> Option<F64>) returns (k: nat)
    requires exists j :: Parsable(chapters, parseF64, j)
    ensures Parsable(chapters, parseF64, k)
    ensures ScanChapters(chapters, parseF64) == (ChapterValue(chapters, parseF64, k), ChapterUrl(chapters[k].1))
    ensures forall j :: k < j < |chapters| && Parsable(chapters, parseF64, j) ==> ChapterValue(chapters, parseF64, j) < ScanChapters(chapters, parseF64).0
    decreases |chapters|
  {
    var n := |chapters| - 1;
    var pre := chapters[..n];
    var best := ScanChapters(pre, parseF64);
    forall j | 0 <= j < n
      ensures Parsable(chapters, parseF64, j) == Parsable(pre, parseF64, j)
      ensures Parsable(pre, parseF64, j) ==> ChapterValue(chapters, parseF64, j) == ChapterValue(pre, parseF64, j)
    {
      assert pre[j] == chapters[j];
    }
    if Parsable(chapters, parseF64, n) && ChapterValue(chapters, parseF64, n) >= best.0 {
      k := n;
    } else {
      ScanChaptersBound(pre, parseF64);
      assert exists j :: Parsable(pre, parseF64, j) by {
        var j :| Parsable(chapters, parseF64, j);
        if j == n {
          assert best.0 > 0;
        } else {
          assert Parsable(pre, parseF64, j);
        }
      }
      k := ScanChaptersWitness(pre, parseF64);
    }
  }

  /** The inner chapter loop over one volume; `before` are the chapters scanned so far. */
  method ScanVolume(chapters: seq<(string, string)>, parseF64: string -> Option<F64>, start: (nat, string),
                    ghost before: seq<(string, string)>) returns (latest: (nat, string))
    requires start == ScanChapters(before, parseF64)
    ensures latest == ScanChapters(before + chapters, parseF64)
  {
    latest := start;
    var c := 0;
    assert before + chapters[..c] == before;
    while c < |chapters|
      invariant 0 <= c <= |chapters|
      invariant latest == ScanChapters(before + chapters[..c], parseF64)
    {
      ghost var seen := before + chapters[..c + 1];
      assert seen[..|seen| - 1] == before + chapters[..c];
      assert seen[|seen| - 1] == chapters[c];
      var chapter := parseF64(chapters[c].0);
      if chapter.Some? {
        var number := CastU64(chapter.value);
        if number >= latest.0 {
          latest := (number, ChapterUrl(chapters[c].1));
        }
      }
      c := c + 1;
    }
    assert chapters[..c] == chapters;
  }

  /** The chapter scan of `fetch` for one aggregate: a loop over volumes and their chapters. */
  method ScanAggregate(agg: MangaAggregate, parseF64: string -> Option<F64>) returns (latest: (nat, string))
    ensures latest == LatestChapter(agg, parseF64)
  {
    latest := (0, "");
    if agg.result == "ok" {
      var v := 0;
      while v < |agg.volumes|
        invariant 0 <= v <= |agg.volumes|
        invariant latest == ScanChapters(AllChapters(agg.volumes[..v]), parseF64)
      {
        assert agg.volumes[..v + 1][..v] == agg.volumes[..v];
        latest := ScanVolume(agg.volumes[v].chapters, parseF64, latest, AllChapters(agg.volumes[..v]));
        v := v + 1;
      }
      assert agg.volumes[..v] == agg.volumes;
    }
  }

  /** The `Latest` recorded for a listed title. */
  function LatestFor(title: string, agg: MangaAggregate, parseF64: string -> Option<F64>): Latest
  {
    Latest(title, LatestChapter(agg, parseF64).0, LatestChapter(agg, parseF64).1)
  }

  function LatestTitle(l: Latest): string { l.title }

  /**
   * The `Latest` values of the listed pairs in request order, or the first
   * error: a failed request aborts `fetch`.
   */
  function FetchAll(items: seq<(string, string)>, aggregate: string -> Result<MangaAggregate, string>,
                    parseF64: string -> Option<F64>): Result<seq<Latest>, string>
    decreases |items|
  {
    if items == [] then Ok([])
    else
      var n := |items| - 1;
      match FetchAll(items[..n], aggregate, parseF64)
      case Err(e) => Err(e)
      case Ok(done) =>
        match aggregate(items[n].1)
        case Err(e) => Err(e)
        case Ok(agg) => Ok(done + [LatestFor(items[n].0, agg, parseF64)])
  }

  lemma {:induction false} FetchAllSticky(a: seq<(string, string)>, b: seq<(string, string)>,
                                          aggregate: string -> Result<MangaAggregate, string>, parseF64: string -> Option<F64>)
    requires a <= b && FetchAll(a, aggregate, parseF64).Err?
    ensures FetchAll(b, aggregate, parseF64) == FetchAll(a, aggregate, parseF64)
    decreases |b|
  {
    if |b| > |a| {
      var n := |b| - 1;
      assert a <= b[..n];
      FetchAllSticky(a, b[..n], aggregate, parseF64);
    } else {
      assert a == b;
    }
  }

  /** One more successful request appends its `Latest`. */
  lemma FetchAllSnoc(items: seq<(string, string)>, x: (string, string), done: seq<Latest>, agg: MangaAggregate,
                     aggregate: string -> Result<MangaAggregate, string>, parseF64: string -> Option<F64>)
    requires FetchAll(items, aggregate, parseF64) == Ok(done) && aggregate(x.1) == Ok(agg)
    ensures FetchAll(items + [x], aggregate, parseF64) == Ok(done + [LatestFor(x.0, agg, parseF64)])
  {
    assert (items + [x])[..|items|] == items;
  }

  /** One more failed request fails the whole fetch with its error. */
  lemma FetchAllSnocErr(items: seq<(string, string)>, x: (string, string),
                        aggregate: string -> Result<MangaAggregate, string>, parseF64: string -> Option<F64>)
    requires FetchAll(items, aggregate, parseF64).Ok? && aggregate(x.1).Err?
    ensures FetchAll(items + [x], aggregate, parseF64) == Err(aggregate(x.1).error)
  {
    assert (items + [x])[..|items|] == items;
  }

  /** The map `fetch` returns, given every request succeeded. */
  function Collected(items: seq<(string, string)>, aggregate: string -> Result<MangaAggregate, string>,
                     parseF64: string -> Option<F64>): Result<map<string, Latest>, string>
  {
    match FetchAll(items, aggregate, parseF64)
    case Err(e) => Err(e)
    case Ok(ls) => Ok(IndexLast(ls, LatestTitle))
  }

  /**
   * The requests of one batch, in order, each result inserted under its
   * title; `before` are the pairs of the earlier batches and `done` their
   * results.
   */
  method FetchBatch(batch: seq<(string, string)>, aggregate: string -> Result<MangaAggregate, string>,
                    parseF64: string -> Option<F64>, latestSoFar: map<string, Latest>,
                    ghost before: seq<(string, string)>, ghost done: seq<Latest>)
    returns (r: Result<map<string, Latest>, string>, ghost doneAfter: seq<Latest>)
    requires FetchAll(before, aggregate, parseF64) == Ok(done) && latestSoFar == IndexLast(done, LatestTitle)
    ensures FetchAll(before + batch, aggregate, parseF64).Err? ==> r == Err(FetchAll(before + batch, aggregate, parseF64).error)
    ensures FetchAll(before + batch, aggregate, parseF64).Ok? ==>
      FetchAll(before + batch, aggregate, parseF64) == Ok(doneAfter) && r == Ok(IndexLast(doneAfter, LatestTitle))
  {
    var mangaLatest := latestSoFar;
    doneAfter := done;
    assert before + batch[..0] == before;
    for j := 0 to |batch|
      invariant FetchAll(before + batch[..j], aggregate, parseF64) == Ok(doneAfter)
      invariant mangaLatest == IndexLast(doneAfter, LatestTitle)
    {
      var (title, id) := batch[j];
      ghost var seen := before + batch[..j];
      assert before + batch[..j + 1] == seen + [batch[j]];
      var res := aggregate(id);
      if res.Err? {
        FetchAllSnocErr(seen, batch[j], aggregate, parseF64);
        assert before + batch[..j + 1] <= before + batch;
        FetchAllSticky(seen + [batch[j]], before + batch, aggregate, parseF64);
        return Err(res.error), doneAfter;
      }
      var latest := ScanAggregate(res.value, parseF64);
      var entry := Latest(title, latest.0, latest.1);
      assert entry == LatestFor(batch[j].0, res.value, parseF64);
      FetchAllSnoc(seen, batch[j], doneAfter, res.value, aggregate, parseF64);
      IndexLastSnoc(doneAfter, entry, LatestTitle);
      doneAfter := doneAfter + [entry];
      mangaLatest := mangaLatest[title := entry];
    }
    assert batch[..|batch|] == batch;
    r := Ok(mangaLatest);
  }

  /**
   * `fetch`, given the decoded manga list (or the error fetching it) and the
   * aggregate request for each manga id. Requests are issued, and their
   * results inserted, in batch order.
   */
  method Fetch(list: Result<MangaList, string>, rateLimit: nat, aggregate: string -> Result<MangaAggregate, string>,
               parseF64: string -> Option<F64>) returns (r: Result<map<string, Latest>, string>)
    ensures list.Err? ==> r == Err(list.error)
    ensures list.Ok? && list.value.result != "ok" ==> r == Err("Could not fetch manga list.")
    ensures list.Ok? && list.value.result == "ok" ==> r == Collected(Listed(list.value.relationships), aggregate, parseF64)
  {
    if list.Err? {
      return Err(list.error);
    }
    var results := list.value;
    var mangaLatest: map<string, Latest> := map[];
    if results.result != "ok" {
      return Err("Could not fetch manga list.");
    }
    var batches := BuildBatches(results.relationships, rateLimit);
    ghost var items := Listed(results.relationships);
    ghost var done: seq<Latest> := [];
    var b := 0;
    while b < |batches|
      invariant 0 <= b <= |batches|
      invariant FetchAll(Flat(batches[..b]), aggregate, parseF64) == Ok(done)
      invariant mangaLatest == IndexLast(done, LatestTitle)
    {
      assert batches[..b + 1] == batches[..b] + [batches[b]];
      FlatSnoc(batches[..b], batches[b]);
      var res;
      res, done := FetchBatch(batches[b], aggregate, parseF64, mangaLatest, Flat(batches[..b]), done);
      if res.Err? {
        PrefixOfListed(batches, b + 1, items);
        FetchAllSticky(Flat(batches[..b + 1]), items, aggregate, parseF64);
        return res;
      }
      mangaLatest := res.value;
      b := b + 1;
    }
    assert batches[..b] == batches;
    r := Ok(mangaLatest);
  }

  lemma PrefixOfListed<T>(batches: seq<seq<T>>, b: nat, items: seq<T>)
    requires b <= |batches| && Flat(batches) == items
    ensures Flat(batches[..b]) <= items
    decreases |batches|
  {
    if b < |batches| {
      var n := |batches| - 1;
      PrefixOfListed(batches[..n], b, Flat(batches[..n]));
      assert batches[..n][..b] == batches[..b];
    } else {
      assert batches[..b] == batches;
    }
  }

  /** Every entry of the result is keyed by its own title, and comes from a listed pair. */
  lemma CollectedKeyed(items: seq<(string, string)>, aggregate: string -> Result<MangaAggregate, string>,
                       parseF64: string -> Option<F64>)
    requires Collected(items, aggregate, parseF64).Ok?
    ensures forall k :: k in Collected(items, aggregate, parseF64).value ==>
      Collected(items, aggregate, parseF64).value[k].title == k
      && exists i :: 0 <= i < |items| && items[i].0 == k
  {
    var ls := FetchAll(items, aggregate, parseF64).value;
    FetchAllTitles(items, aggregate, parseF64);
    IndexLastKeyed(ls, LatestTitle);
    IndexLastKeys(ls, LatestTitle);
    forall k | k in Collected(items, aggregate, parseF64).value ensures exists i :: 0 <= i < |items| && items[i].0 == k {
      var i :| 0 <= i < |ls| && LatestTitle(ls[i]) == k;
    }
  }

  /** A successful run yields one `Latest` per listed pair, carrying the pair's title. */
  lemma {:induction false} FetchAllTitles(items: seq<(string, string)>, aggregate: string -> Result<MangaAggregate, string>,
                                          parseF64: string -> Option<F64>)
    requires FetchAll(items, aggregate, parseF64).Ok?
    ensures |FetchAll(items, aggregate, parseF64).value| == |items|
    ensures forall i :: 0 <= i < |items| ==> FetchAll(items, aggregate, parseF64).value[i].title == items[i].0
    decreases |items|
  {
    if items != [] {
      var n := |items| - 1;
      FetchAllTitles(items[..n], aggregate, parseF64);
      forall i | 0 <= i < n ensures items[..n][i] == items[i] { }
    }
  }
}
