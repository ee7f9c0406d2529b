/**
 * The `GET` handler of `anime.List` (`api/v1/anime/list.go`): always asks
 * AniList for the user's ANIME lists with all six statuses, aborts with the
 * AniList status when AniList rejects the request and with 500 on every
 * other error, and otherwise answers 200 with the lists.
 *
 * What the handler leaves on the gin context is an `Outcome`: the errors it
 * recorded, the status it aborted with, and the JSON reply it wrote.
 */
module AnimeList {
  import opened Wrappers
  import opened ApiErrors
  import opened AniListSource
  import opened AniListModels

  datatype Outcome = Outcome(recorded: seq<GoError>, aborted: Option<int>, reply: Option<(int, seq<MediaList>)>)

  /** The reply the client receives once the error middleware has run. */
  function ClientReply(o: Outcome): (r: Option<Response>)
    ensures r.None? <==> o.recorded == []
    ensures r.Some? && o.aborted.Some? ==> r.value.httpStatus == o.aborted.value
  {
    ResponseFor(o.recorded, o.aborted)
  }

  /**
   * `handleError`: records the error, then aborts with 500, which records it
   * a second time.
   */
  function HandleError(e: GoError): (o: Outcome)
    ensures o.recorded == [Recorded(e), Recorded(e)]
    ensures o.aborted == Some(500) && o.reply == None
  {
    Outcome([Recorded(e), Recorded(e)], Some(500), None)
  }

  /** The one payload `GET` posts. */
  function ListRequest(query: string, userId: int): Payload
  {
    Payload(query, Variables(userId, "ANIME", DefaultStatuses))
  }

  /** The handler, from the query file to the reply. */
  function Get(query: Result<string, GoError>, userId: int, transport: Transport,
               decodeError: ErrorDecoder, decodeLists: ListDecoder): (o: Outcome)
    ensures o.aborted.None? <==> o.reply.Some?
    ensures o.reply.Some? ==> o.reply.value.0 == 200 && o.recorded == []
    ensures o.aborted.Some? ==> |o.recorded| > 0
  {
    match query
    case Err(e) => HandleError(e)
    case Ok(q) =>
      match transport(ListRequest(q, userId))
      case Err(e) => HandleError(e)
      case Ok(reply) =>
        if reply.status != OkStatus then
          match decodeError(reply.body)
          case Err(e) => HandleError(e)
          case Ok(entries) =>
            var apiErr := AniListApiError(AnimePackage, entries);
            Outcome([Recorded(apiErr)], Some(ApiStatus(entries)), None)
        else
          match decodeLists(reply.body)
          case Err(e) => HandleError(e)
          case Ok(lists) => Outcome([], None, Some((200, lists)))
  }

  /**
   * Only the ANIME request with all six statuses matters: transports that
   * answer it alike give the same outcome.
   */
  lemma GetAsksForAllAnime(query: string, userId: int, t1: Transport, t2: Transport,
                           decodeError: ErrorDecoder, decodeLists: ListDecoder)
    requires t1(Payload(query, Variables(userId, "ANIME", DefaultStatuses))) ==
             t2(Payload(query, Variables(userId, "ANIME", DefaultStatuses)))
    ensures Get(Ok(query), userId, t1, decodeError, decodeLists) == Get(Ok(query), userId, t2, decodeError, decodeLists)
  {
  }

  /** A rejected request aborts with the status of AniList's first error entry. */
  lemma RejectedAbortsWithApiStatus(query: string, userId: int, transport: Transport,
                                    decodeError: ErrorDecoder, decodeLists: ListDecoder,
                                    reply: Reply, entries: seq<ErrorEntry>)
    requires transport(ListRequest(query, userId)) == Ok(reply) && reply.status != OkStatus
    requires decodeError(reply.body) == Ok(entries)
    ensures Get(Ok(query), userId, transport, decodeError, decodeLists).aborted == Some(First(entries).status)
    ensures Get(Ok(query), userId, transport, decodeError, decodeLists).recorded ==
            [GinError(AniListApiError(AnimePackage, entries))]
    ensures Get(Ok(query), userId, transport, decodeError, decodeLists).reply == None
  {
  }

  /**
   * The client then gets AniList's status on the header, which the abort
   * already wrote, but a JSON body 500 "Whoops...": the `anime` package's
   * AniList error is not the one the middleware recognises.
   */
  lemma RejectedRepliesWhoops(query: string, userId: int, transport: Transport,
                              decodeError: ErrorDecoder, decodeLists: ListDecoder,
                              reply: Reply, entries: seq<ErrorEntry>)
    requires transport(ListRequest(query, userId)) == Ok(reply) && reply.status != OkStatus
    requires decodeError(reply.body) == Ok(entries)
    ensures ClientReply(Get(Ok(query), userId, transport, decodeError, decodeLists)) ==
            Some(Response(First(entries).status, 500, Whoops))
  {
  }

  /**
   * A file, HTTP or JSON failure on any of `Get`'s paths (reading the query,
   * the request, decoding AniList's error or its lists) aborts with 500, and
   * the reply is 500 "Whoops...".
   */
  lemma FailureRepliesWhoops(query: Result<string, GoError>, userId: int, transport: Transport,
                             decodeError: ErrorDecoder, decodeLists: ListDecoder, text: string)
    requires
      || query == Err(PlainError(text))
      || (query.Ok? && transport(ListRequest(query.value, userId)) == Err(PlainError(text)))
      || (query.Ok? && transport(ListRequest(query.value, userId)).Ok?
          && transport(ListRequest(query.value, userId)).value.status != OkStatus
          && decodeError(transport(ListRequest(query.value, userId)).value.body) == Err(PlainError(text)))
      || (query.Ok? && transport(ListRequest(query.value, userId)).Ok?
          && transport(ListRequest(query.value, userId)).value.status == OkStatus
          && decodeLists(transport(ListRequest(query.value, userId)).value.body) == Err(PlainError(text)))
    ensures Get(query, userId, transport, decodeError, decodeLists) == HandleError(PlainError(text))
    ensures Get(query, userId, transport, decodeError, decodeLists).aborted == Some(500)
    ensures ClientReply(Get(query, userId, transport, decodeError, decodeLists)) == Some(Response(500, 500, Whoops))
  {
  }
}
