/**
 * The request half shared by the Go AniList clients, and `sources.AniListAPI`
 * (`api/v1/sources/anilist_api.go`), which hands back the reply body as is.
 *
 * Reading the GraphQL query file is a `Result` parameter; building and
 * sending the POST and reading the body is one `transport` parameter that
 * sees the payload; JSON decoding of an error reply is a parameter too.
 */
module AniListSource {
  import opened Wrappers
  import opened ApiErrors

  type Bytes = seq<bv8>

  /** The statuses asked for when the caller names none, in order. */
  const DefaultStatuses: seq<string> := ["CURRENT", "PLANNING", "COMPLETED", "DROPPED", "PAUSED", "REPEATING"]
  const OkStatus: string := "200 OK"

  datatype Variables = Variables(userId: int, mediaType: string, statusIn: seq<string>)
  datatype Payload = Payload(query: string, variables: Variables)

  /** An HTTP reply: its status line (`res.Status`) and body. */
  datatype Reply = Reply(status: string, body: Bytes)

  type Transport = Payload -> Result<Reply, GoError>
  type ErrorDecoder = Bytes -> Result<seq<ErrorEntry>, GoError>

  /** An empty status filter stands for all six statuses; any other is kept. */
  function StatusFilter(status: seq<string>): (filter: seq<string>)
    ensures |filter| > 0
    ensures |status| > 0 ==> filter == status
    ensures |status| == 0 ==> filter == DefaultStatuses
  {
    if |status| == 0 then DefaultStatuses else status
  }

  /** The payload posted for a user, a media type and a status filter. */
  function Request(query: string, userId: int, mediaType: string, status: seq<string>): Payload
  {
    Payload(query, Variables(userId, mediaType, StatusFilter(status)))
  }

  /** Reading the query and sending the request: the reply, or the first error. */
  function Received(query: Result<string, GoError>, userId: int, mediaType: string, status: seq<string>,
                    transport: Transport): Result<Reply, GoError>
  {
    match query
    case Err(e) => Err(e)
    case Ok(q) => transport(Request(q, userId, mediaType, status))
  }

  /**
   * A reply other than "200 OK" becomes the decoded AniList error of package
   * `pkg`, or the decoding error; a "200 OK" reply yields its body.
   */
  function ApiBody(received: Result<Reply, GoError>, decodeError: ErrorDecoder, pkg: Package): (r: Result<Bytes, GoError>)
    ensures received.Err? ==> r == Err(received.error)
    ensures received.Ok? && received.value.status == OkStatus ==> r == Ok(received.value.body)
    ensures received.Ok? && received.value.status != OkStatus ==>
      r.Err? && (decodeError(received.value.body).Ok? ==>
                   r.error == AniListApiError(pkg, decodeError(received.value.body).value))
  {
    match received
    case Err(e) => Err(e)
    case Ok(reply) =>
      if reply.status != OkStatus then
        match decodeError(reply.body)
        case Err(e) => Err(e)
        case Ok(entries) => Err(AniListApiError(pkg, entries))
      else Ok(reply.body)
  }

  /**
   * `sources.AniListAPI.Fetch`: the body of a "200 OK" reply unchanged, and
   * for every error the empty byte slice with the error.
   */
  function Fetch(query: Result<string, GoError>, userId: int, mediaType: string, status: seq<string>,
                 transport: Transport, decodeError: ErrorDecoder): (r: (Bytes, Option<GoError>))
    ensures r.1.Some? ==> r.0 == []
    ensures r.1.None? <==>
      (Received(query, userId, mediaType, status, transport).Ok? &&
       Received(query, userId, mediaType, status, transport).value.status == OkStatus)
    ensures r.1.None? ==> r.0 == Received(query, userId, mediaType, status, transport).value.body
  {
    match ApiBody(Received(query, userId, mediaType, status, transport), decodeError, SourcesPackage)
    case Err(e) => ([], Some(e))
    case Ok(body) => (body, None)
  }

  /**
   * What is sent is all that matters of the transport: two transports that
   * answer the payload for the defaulted filter alike give the same result.
   */
  lemma FetchSendsDefaultedFilter(query: string, userId: int, mediaType: string, status: seq<string>,
                                  t1: Transport, t2: Transport, decodeError: ErrorDecoder)
    requires t1(Payload(query, Variables(userId, mediaType, StatusFilter(status)))) ==
             t2(Payload(query, Variables(userId, mediaType, StatusFilter(status))))
    ensures Fetch(Ok(query), userId, mediaType, status, t1, decodeError) ==
            Fetch(Ok(query), userId, mediaType, status, t2, decodeError)
  {
  }

  /**
   * A rejected request surfaces as the `sources` AniList error, which the
   * middleware maps to the first entry's status.
   */
  lemma RejectedReplyStatus(query: string, userId: int, mediaType: string, status: seq<string>,
                            transport: Transport, decodeError: ErrorDecoder)
    requires transport(Request(query, userId, mediaType, status)).Ok?
    requires transport(Request(query, userId, mediaType, status)).value.status != OkStatus
    requires decodeError(transport(Request(query, userId, mediaType, status)).value.body).Ok?
    ensures Fetch(Ok(query), userId, mediaType, status, transport, decodeError).1.Some?
    ensures StatusOf(Recorded(Fetch(Ok(query), userId, mediaType, status, transport, decodeError).1.value)) ==
            First(decodeError(transport(Request(query, userId, mediaType, status)).value.body).value).status
  {
  }
}
