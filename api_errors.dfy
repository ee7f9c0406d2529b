/**
 * The Go API's errors and its error middleware (`api/error`): the text of
 * each error, the one-layer unwrapping of gin's error wrapper, the status an
 * error maps to, and the response `HandleErrors` writes for the errors a
 * request recorded.
 *
 * Each of the packages `models`, `sources` and `anime` declares its own
 * `AniListAPIError` with the same `First`, `Error` and `GetStatus`; the type
 * switch of `GetStatusFromError` only names the one from `sources`, so an
 * AniList error carries the package that declared it.
 */
module ApiErrors {
  import opened Wrappers

  /** One entry of the `errors` array of an AniList error reply. */
  datatype ErrorEntry = ErrorEntry(message: string, status: int)

  /** The Go package whose `AniListAPIError` type a value has. */
  datatype Package = ModelsPackage | SourcesPackage | AnimePackage

  /** The Go `error` values the API produces or records. */
  datatype GoError =
    | AniListApiError(pkg: Package, errors: seq<ErrorEntry>)
    | NotFoundError(mediaType: string, message: string)
    | GinError(err: GoError)    // gin's `*gin.Error` around the recorded error
    | PlainError(text: string)  // any other error: file, JSON, HTTP, XML, database

  const DefaultApiMessage: string := "Could not get AniList API error."
  const Whoops: string := "Whoops..."

  /** `AniListAPIError.First`: the first entry, or a default 500 entry when there is none. */
  function First(errors: seq<ErrorEntry>): (e: ErrorEntry)
    ensures |errors| > 0 ==> e == errors[0]
    ensures |errors| == 0 ==> e == ErrorEntry(DefaultApiMessage, 500)
  {
    if |errors| > 0 then errors[0] else ErrorEntry(DefaultApiMessage, 500)
  }

  /** `AniListAPIError.GetStatus`. */
  function ApiStatus(errors: seq<ErrorEntry>): int
  {
    First(errors).status
  }

  /** `Error()` of each kind of error; gin's wrapper shows the error it holds. */
  function Text(err: GoError): (t: string)
    ensures err.NotFoundError? ==> t == "Could not find " + err.mediaType + " " + err.message
    ensures err.AniListApiError? ==> t == First(err.errors).message
    decreases err
  {
    match err
    case AniListApiError(_, errors) => First(errors).message
    case NotFoundError(mediaType, message) => "Could not find " + mediaType + " " + message
    case GinError(inner) => Text(inner)
    case PlainError(text) => text
  }

  /** `UnwrapError`: strips exactly one gin wrapper. */
  function Unwrap(err: GoError): (u: GoError)
    ensures err.GinError? ==> u == err.err
    ensures !err.GinError? ==> u == err
  {
    match err
    case GinError(inner) => inner
    case _ => err
  }

  /**
   * `GetStatusFromError`: the AniList status for the `sources` package's
   * error, 404 for a not-found error, 500 for everything else.
   */
  function StatusOf(err: GoError): (status: int)
  {
    match Unwrap(err)
    case AniListApiError(SourcesPackage, errors) => ApiStatus(errors)
    case NotFoundError(_, _) => 404
    case _ => 500
  }

  /** The statuses, as the three cases of the type switch. */
  lemma StatusCases(err: GoError)
    ensures Unwrap(err).AniListApiError? && Unwrap(err).pkg == SourcesPackage ==>
      StatusOf(err) == First(Unwrap(err).errors).status
    ensures Unwrap(err).NotFoundError? ==> StatusOf(err) == 404
    ensures !(Unwrap(err).AniListApiError? && Unwrap(err).pkg == SourcesPackage) && !Unwrap(err).NotFoundError? ==>
      StatusOf(err) == 500
  {
  }

  /** A doubly wrapped error is unwrapped once only and maps to 500. */
  lemma DoubleWrappedIs500(err: GoError)
    ensures StatusOf(GinError(GinError(err))) == 500
  {
  }

  /** An AniList error of the `models` or `anime` package maps to 500 whatever its entries say. */
  lemma OtherPackagesAre500(pkg: Package, errors: seq<ErrorEntry>)
    requires pkg != SourcesPackage
    ensures StatusOf(GinError(AniListApiError(pkg, errors))) == 500
    ensures StatusOf(AniListApiError(pkg, errors)) == 500
  {
  }

  /**
   * The reply the client sees: the HTTP status line, and the JSON body's
   * `status` field and `data.message`.
   */
  datatype Response = Response(httpStatus: int, jsonStatus: int, message: string)

  /**
   * The reply for the last recorded error, if any. `committed` is the status
   * a handler's `AbortWithError` already wrote into the header; gin ignores a
   * second header, so `c.JSON` then only sets the body and the HTTP status
   * stays the committed one.
   */
  function ResponseFor(errors: seq<GoError>, committed: Option<int>): (r: Option<Response>)
    ensures r.None? <==> |errors| == 0
    ensures r.Some? ==> r.value.jsonStatus == StatusOf(errors[|errors| - 1])
    ensures r.Some? && committed.None? ==> r.value.httpStatus == r.value.jsonStatus
    ensures r.Some? && committed.Some? ==> r.value.httpStatus == committed.value
    ensures r.Some? ==> (r.value.message == Whoops <==> r.value.jsonStatus == 500 || Text(errors[|errors| - 1]) == Whoops)
  {
    if |errors| == 0 then None
    else
      var last := errors[|errors| - 1];
      var status := StatusOf(last);
      var header := if committed.Some? then committed.value else status;
      Some(Response(header, status, if status == 500 then Whoops else Text(last)))
  }

  /** Only the last recorded error decides the reply. */
  lemma LastErrorDecides(errors: seq<GoError>, last: GoError, committed: Option<int>)
    ensures ResponseFor(errors + [last], committed) == ResponseFor([last], committed)
  {
  }

  /** A 500 body always says "Whoops...", any other body the last error's text. */
  lemma MessageByStatus(errors: seq<GoError>, committed: Option<int>)
    requires |errors| > 0
    ensures StatusOf(errors[|errors| - 1]) == 500 ==> ResponseFor(errors, committed).value.message == Whoops
    ensures StatusOf(errors[|errors| - 1]) != 500 ==> ResponseFor(errors, committed).value.message == Text(errors[|errors| - 1])
  {
  }

  /** The texts of the recorded errors, in order. */
  function Texts(errors: seq<GoError>): (ts: seq<string>)
    ensures |ts| == |errors|
    ensures forall i :: 0 <= i < |errors| ==> ts[i] == Text(errors[i])
    decreases |errors|
  {
    if |errors| == 0 then [] else Texts(errors[..|errors| - 1]) + [Text(errors[|errors| - 1])]
  }

  /**
   * `HandleErrors`, after the handlers ran: logs every recorded error in
   * order, then writes the reply for the last one, or nothing; a status an
   * earlier abort committed stays on the header.
   */
  method HandleErrors(errors: seq<GoError>, committed: Option<int>) returns (logged: seq<string>, reply: Option<Response>)
    ensures logged == Texts(errors)
    ensures reply == ResponseFor(errors, committed)
  {
    logged := [];
    for i := 0 to |errors|
      invariant logged == Texts(errors[..i])
    {
      assert errors[..i + 1][..i] == errors[..i];
      logged := logged + [Text(errors[i])];
    }
    assert errors[..|errors|] == errors;
    if |errors| == 0 {
      reply := None;
      return;
    }
    var last := errors[|errors| - 1];
    var status := StatusOf(last);
    var message: string;
    if status == 500 {
      message := Whoops;
    } else {
      message := Text(last);
    }
    var header := status;
    if committed.Some? {
      header := committed.value;
    }
    reply := Some(Response(header, status, message));
  }

  /**
   * gin's `Context.Error`: the error recorded in `c.Errors`, wrapped in a gin
   * error unless it is one already.
   */
  function Recorded(err: GoError): (g: GoError)
    ensures g.GinError?
    ensures Unwrap(g) == (if err.GinError? then err.err else err)
  {
    if err.GinError? then err else GinError(err)
  }

  /** A not-found error recorded last gives the body 404 with its text. */
  lemma NotFoundReply(before: seq<GoError>, mediaType: string, message: string, committed: Option<int>)
    ensures ResponseFor(before + [Recorded(NotFoundError(mediaType, message))], committed) ==
      Some(Response(if committed.Some? then committed.value else 404, 404, "Could not find " + mediaType + " " + message))
  {
  }
}
