/**
 * `models.AniListAPI.Fetch` (`api/v1/models/anilist.go`): fetches the user's
 * media lists and flattens them, list by list and entry by entry, into
 * `FlatMedia`. Decoding the "200 OK" body into lists is a parameter.
 */
module AniListModels {
  import opened Wrappers
  import opened ApiErrors
  import opened AniListSource

  datatype Title = Title(romaji: string, english: string)

  datatype ApiMedia = ApiMedia(id: int, mediaType: string, format: string, season: string, seasonYear: int,
                               title: Title, coverImage: string, episodes: int)

  datatype Entry = Entry(media: ApiMedia, status: string, score: int, progress: int)

  datatype MediaList = MediaList(name: string, status: string, entries: seq<Entry>)

  datatype Schedule = Schedule(title: string, day: string, time: string)
  datatype Latest = Latest(title: string, latest: int, url: string)
  datatype AltTitles = AltTitles(mediaId: int, altTitles: seq<string>)

  /** The flat record the API serves; Go leaves the last three fields at their zero values. */
  datatype FlatMedia = FlatMedia(
    mediaId: int, mediaType: string, status: string, format: string, season: string, seasonYear: int,
    title: string, englishTitle: string, image: string, episodes: int, score: int, progress: int,
    schedule: Schedule, latest: Latest, altTitles: map<string, AltTitles>)

  const ZeroSchedule: Schedule := Schedule("", "", "")
  const ZeroLatest: Latest := Latest("", 0, "")

  type ListDecoder = Bytes -> Result<seq<MediaList>, GoError>

  /** One list entry as a flat record. */
  function FlatOf(e: Entry): (f: FlatMedia)
    ensures f.mediaId == e.media.id && f.title == e.media.title.romaji && f.englishTitle == e.media.title.english
    ensures f.status == e.status && f.image == e.media.coverImage
    ensures f.schedule == ZeroSchedule && f.latest == ZeroLatest && f.altTitles == map[]
  {
    FlatMedia(e.media.id, e.media.mediaType, e.status, e.media.format, e.media.season, e.media.seasonYear,
              e.media.title.romaji, e.media.title.english, e.media.coverImage, e.media.episodes,
              e.score, e.progress, ZeroSchedule, ZeroLatest, map[])
  }

  function FlatEntries(entries: seq<Entry>): seq<FlatMedia>
    decreases |entries|
  {
    if |entries| == 0 then [] else FlatEntries(entries[..|entries| - 1]) + [FlatOf(entries[|entries| - 1])]
  }

  /** Every entry of every list, lists in order and entries in order within each. */
  function Flat(lists: seq<MediaList>): seq<FlatMedia>
    decreases |lists|
  {
    if |lists| == 0 then [] else Flat(lists[..|lists| - 1]) + FlatEntries(lists[|lists| - 1].entries)
  }

  /** The number of entries over all lists. */
  function TotalEntries(lists: seq<MediaList>): nat
    decreases |lists|
  {
    if |lists| == 0 then 0 else TotalEntries(lists[..|lists| - 1]) + |lists[|lists| - 1].entries|
  }

  lemma {:induction false} FlatEntriesAt(entries: seq<Entry>, j: nat)
    requires j < |entries|
    ensures |FlatEntries(entries)| == |entries|
    ensures FlatEntries(entries)[j] == FlatOf(entries[j])
    decreases |entries|
  {
    var n := |entries| - 1;
    if j < n {
      FlatEntriesAt(entries[..n], j);
    } else if n > 0 {
      FlatEntriesAt(entries[..n], 0);
    }
  }

  lemma {:induction false} FlatEntriesLength(entries: seq<Entry>)
    ensures |FlatEntries(entries)| == |entries|
    decreases |entries|
  {
    if |entries| > 0 {
      FlatEntriesLength(entries[..|entries| - 1]);
    }
  }

  /** The flattened slice holds exactly one record per entry. */
  lemma {:induction false} FlatLength(lists: seq<MediaList>)
    ensures |Flat(lists)| == TotalEntries(lists)
    decreases |lists|
  {
    if |lists| > 0 {
      FlatLength(lists[..|lists| - 1]);
      FlatEntriesLength(lists[|lists| - 1].entries);
    }
  }

  /**
   * Entry `j` of list `i` lands after the entries of the lists before it, at
   * offset `j`.
   */
  lemma {:induction false} FlatAt(lists: seq<MediaList>, i: nat, j: nat)
    requires i < |lists| && j < |lists[i].entries|
    ensures TotalEntries(lists[..i]) + j < |Flat(lists)|
    ensures Flat(lists)[TotalEntries(lists[..i]) + j] == FlatOf(lists[i].entries[j])
    decreases |lists|
  {
    var n := |lists| - 1;
    FlatLength(lists);
    FlatLength(lists[..n]);
    if i < n {
      assert lists[..n][..i] == lists[..i];
      FlatAt(lists[..n], i, j);
    } else {
      assert lists[..i] == lists[..n];
      FlatEntriesAt(lists[n].entries, j);
    }
  }

  /** The nested `for` loops of `Fetch`, appending to `flattened`. */
  method FlattenLists(lists: seq<MediaList>) returns (flattened: seq<FlatMedia>)
    ensures flattened == Flat(lists)
  {
    flattened := [];
    for i := 0 to |lists|
      invariant flattened == Flat(lists[..i])
    {
      assert lists[..i + 1][..i] == lists[..i];
      var entries := lists[i].entries;
      var before := flattened;
      for j := 0 to |entries|
        invariant flattened == before + FlatEntries(entries[..j])
      {
        assert entries[..j + 1][..j] == entries[..j];
        flattened := flattened + [FlatOf(entries[j])];
      }
      assert entries[..|entries|] == entries;
    }
    assert lists[..|lists|] == lists;
  }

  /** What `Fetch` returns for a media type and status filter. */
  function FetchResult(query: Result<string, GoError>, userId: int, mediaType: string, status: seq<string>,
                       transport: Transport, decodeError: ErrorDecoder, decodeLists: ListDecoder): (r: (seq<FlatMedia>, Option<GoError>))
    ensures r.1.Some? ==> r.0 == []
  {
    match ApiBody(Received(query, userId, mediaType, status, transport), decodeError, ModelsPackage)
    case Err(e) => ([], Some(e))
    case Ok(body) =>
      match decodeLists(body)
      case Err(e) => ([], Some(e))
      case Ok(lists) => (Flat(lists), None)
  }

  /** `models.AniListAPI.Fetch`. */
  method Fetch(query: Result<string, GoError>, userId: int, mediaType: string, status: seq<string>,
               transport: Transport, decodeError: ErrorDecoder, decodeLists: ListDecoder)
    returns (flat: seq<FlatMedia>, err: Option<GoError>)
    ensures (flat, err) == FetchResult(query, userId, mediaType, status, transport, decodeError, decodeLists)
  {
    if query.Err? {
      return [], Some(query.error);
    }
    var filter := status;
    if |filter| == 0 {
      filter := DefaultStatuses;
    }
    var sent := transport(Payload(query.value, Variables(userId, mediaType, filter)));
    if sent.Err? {
      return [], Some(sent.error);
    }
    var reply := sent.value;
    if reply.status != OkStatus {
      var decoded := decodeError(reply.body);
      if decoded.Err? {
        return [], Some(decoded.error);
      }
      return [], Some(AniListApiError(ModelsPackage, decoded.value));
    }
    var result := decodeLists(reply.body);
    if result.Err? {
      return [], Some(result.error);
    }
    flat := FlattenLists(result.value);
    err := None;
  }

  /**
   * A successful fetch holds one record per entry of the decoded lists, each
   * the flat form of its entry, in list then entry order.
   */
  lemma FetchFlattens(query: string, userId: int, mediaType: string, status: seq<string>,
                      transport: Transport, decodeError: ErrorDecoder, decodeLists: ListDecoder,
                      body: Bytes, lists: seq<MediaList>, i: nat, j: nat)
    requires transport(Request(query, userId, mediaType, status)) == Ok(Reply(OkStatus, body))
    requires decodeLists(body) == Ok(lists)
    requires i < |lists| && j < |lists[i].entries|
    ensures FetchResult(Ok(query), userId, mediaType, status, transport, decodeError, decodeLists).1.None?
    ensures |FetchResult(Ok(query), userId, mediaType, status, transport, decodeError, decodeLists).0| == TotalEntries(lists)
    ensures TotalEntries(lists[..i]) + j < TotalEntries(lists)
    ensures FetchResult(Ok(query), userId, mediaType, status, transport, decodeError, decodeLists).0[TotalEntries(lists[..i]) + j] ==
            FlatOf(lists[i].entries[j])
  {
    FlatLength(lists);
    FlatAt(lists, i, j);
  }

  /**
   * A rejected request yields the `models` package's AniList error, which
   * the middleware does not recognise: recorded without an abort, it
   * replies 500 "Whoops...".
   */
  lemma RejectedFetchRepliesWhoops(query: string, userId: int, mediaType: string, status: seq<string>,
                                   transport: Transport, decodeError: ErrorDecoder, decodeLists: ListDecoder)
    requires transport(Request(query, userId, mediaType, status)).Ok?
    requires transport(Request(query, userId, mediaType, status)).value.status != OkStatus
    requires decodeError(transport(Request(query, userId, mediaType, status)).value.body).Ok?
    ensures FetchResult(Ok(query), userId, mediaType, status, transport, decodeError, decodeLists).1.Some?
    ensures ResponseFor([Recorded(FetchResult(Ok(query), userId, mediaType, status, transport, decodeError, decodeLists).1.value)], None) ==
            Some(Response(500, 500, Whoops))
  {
  }
}
