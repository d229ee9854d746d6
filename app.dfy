/** backend/app.js: which middleware a request reaches, and how an error that
    reached the end of the pipeline is turned into a response. */
module App {
  import opened Wrappers
  import opened HttpErrors
  import opened Routing
  import PlacesRoutes
  import UsersRoutes
  import FileUpload

  /** An error as the terminal handler receives it: an `HttpError`; a plain
      `Error`, which has no `code` (the upload filter's refusal, for one); or
      an error whose `code` is a string (multer's `MulterError`, Node's
      system errors). */
  datatype Thrown = Http(error: HttpError) | Plain(message: string) | Coded(message: string, code: string)

  /** What the last middleware raises for every request nothing answered. */
  const NOT_FOUND_ROUTE := HttpError("Could not find this route.", 404)

  const UNKNOWN_ERROR := "An unknown error occurred!"

  /** `/uploads/images/<name>`: a name directly below the upload directory,
      which is where `express.static` is mounted. */
  predicate StaticFile(path: seq<string>) {
    |path| == 3 && Is(path[0], FileUpload.DESTINATION[0]) && Is(path[1], FileUpload.DESTINATION[1])
  }

  /** Paths below one of the two API routers. */
  predicate Mounted(path: seq<string>) {
    |path| >= 2 && Is(path[0], "api") && (Is(path[1], "places") || Is(path[1], "users"))
  }

  /** The stages of a request for the path segments `path`, with `stored`
      the names of the files in `uploads/images`. The static middleware comes
      first and answers only reads of a stored file; the two routers are
      mounted at `/api/places` and `/api/users`; anything else reaches the
      not-found middleware. */
  function Dispatch(v: Verb, path: seq<string>, lib: EmailChecks, stored: set<string>): (chain: seq<Stage>)
    ensures |chain| >= 1 && Terminal(chain[|chain| - 1])
    ensures Reads(v) && StaticFile(path) && path[2] in stored ==> chain == [ServeFile]
    ensures !(Reads(v) && StaticFile(path) && path[2] in stored) && !Mounted(path) ==> chain == [Unmatched]
    ensures |path| >= 2 && Is(path[0], "api") && Is(path[1], "places") ==> chain == PlacesRoutes.Route(v, path[2..])
    ensures |path| >= 2 && Is(path[0], "api") && Is(path[1], "users") ==> chain == UsersRoutes.Route(v, path[2..], lib)
  {
    if Reads(v) && StaticFile(path) && path[2] in stored then [ServeFile]
    else if |path| >= 2 && Is(path[0], "api") && Is(path[1], "places") then PlacesRoutes.Route(v, path[2..])
    else if |path| >= 2 && Is(path[0], "api") && Is(path[1], "users") then UsersRoutes.Route(v, path[2..], lib)
    else [Unmatched]
  }

  /** An image saved by the upload middleware is served back under its
      stored name. */
  lemma UploadedImageIsServed(v: Verb, uuid: string, mime: string, lib: EmailChecks, stored: set<string>)
    requires Reads(v) && FileUpload.FileName(uuid, mime) in stored
    ensures Dispatch(v, FileUpload.DESTINATION + [FileUpload.FileName(uuid, mime)], lib, stored) == [ServeFile]
  {
    MatchesItself("uploads", "uploads");
    MatchesItself("images", "images");
  }

  /** The mount points are matched whatever the case of their letters. */
  lemma MountIgnoresCase(v: Verb, rest: seq<string>, lib: EmailChecks, stored: set<string>)
    ensures Dispatch(v, ["API", "Places"] + rest, lib, stored) == PlacesRoutes.Route(v, rest)
    ensures Dispatch(v, ["Api", "USERS"] + rest, lib, stored) == UsersRoutes.Route(v, rest, lib)
  {
    MatchesItself("api", "API");
    MatchesItself("api", "Api");
    MatchesItself("places", "Places");
    MatchesItself("users", "USERS");
    assert (["API", "Places"] + rest)[2..] == rest;
    assert (["Api", "USERS"] + rest)[2..] == rest;
  }

  /** The argument `res.status` receives: a number, or a string code. */
  datatype StatusArg = Number(n: int) | Text(s: string)

  /** `error.code || 500`: the code when it is set and not `0` or `""`. */
  function Status(e: Thrown): (status: StatusArg)
    ensures status.Number? ==> status.n != 0
    ensures status.Text? <==> e.Coded? && e.code != ""
    ensures e.Http? && e.error.code != 0 ==> status == Number(e.error.code)
    ensures e.Plain? || (e.Http? && e.error.code == 0) || (e.Coded? && e.code == "") ==> status == Number(500)
  {
    match e
    case Http(err) => if err.code != 0 then Number(err.code) else Number(500)
    case Plain(_) => Number(500)
    case Coded(_, code) => if code != "" then Text(code) else Number(500)
  }

  /** Node writes a status line only for a number from 100 to 999; for
      anything else writing the response throws. */
  predicate Writable(status: StatusArg) {
    status.Number? && 100 <= status.n <= 999
  }

  /** `error.message || "An unknown error occurred!"`. */
  function Message(e: Thrown): (message: string)
    ensures message != ""
    ensures var m := if e.Http? then e.error.message else e.message;
      message == if m != "" then m else UNKNOWN_ERROR
  {
    var m := match e case Http(err) => err.message case Plain(msg) => msg case Coded(msg, _) => msg;
    if m != "" then m else UNKNOWN_ERROR
  }

  /** The response that goes out: the handler's `{ message }` envelope, or
      Express's own 500 page when writing the envelope threw. */
  datatype Response = Json(status: int, message: string) | DefaultPage

  /** What the terminal handler does: the uploaded file it schedules for
      removal, and the response, or `None` when the response had already
      started and the error is passed on. */
  datatype Handling = Handling(unlink: Option<string>, response: Option<Response>)

  function HandleError(e: Thrown, uploadedFile: Option<string>, headerSent: bool): (h: Handling)
    ensures h.unlink == uploadedFile
    ensures headerSent <==> h.response == None
    // the envelope goes out exactly when the status can be written
    ensures h.response == Some(DefaultPage) <==> !headerSent && !Writable(Status(e))
    ensures h.response.Some? && h.response.value.Json? ==>
      h.response.value == Json(Status(e).n, Message(e))
  {
    Handling(uploadedFile,
      if headerSent then None
      else if Writable(Status(e)) then Some(Json(Status(e).n, Message(e)))
      else Some(DefaultPage))
  }

  /** A request that reaches the not-found middleware carries no upload, and
      is answered 404 with the route message. */
  lemma UnmatchedIsNotFound()
    ensures HandleError(Http(NOT_FOUND_ROUTE), None, false) == Handling(None, Some(Json(404, "Could not find this route.")))
  {
  }

  /** An upload refused by the mimetype filter ends as a 500 carrying the
      filter's message, and no file is removed because none was stored. */
  lemma RefusedUploadIs500(mime: string)
    requires !FileUpload.Filter(mime).accept
    ensures var e := Plain(FileUpload.Filter(mime).error.value);
      HandleError(e, None, false) == Handling(None, Some(Json(500, "Invalid mime type!")))
  {
  }

  /** A file sent under a field other than `image` makes multer raise
      `LIMIT_UNEXPECTED_FILE`; that string reaches `res.status`, so the
      envelope is never written and the client gets Express's 500 page. */
  lemma UnexpectedFieldGetsNoEnvelope()
    ensures HandleError(Coded("Unexpected field", "LIMIT_UNEXPECTED_FILE"), None, false)
      == Handling(None, Some(DefaultPage))
  {
  }
}
