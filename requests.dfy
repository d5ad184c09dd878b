/**
 * The request-side decisions of cmd/server/main.go that depend on nothing but
 * their inputs: reading a book id from the path, validating a decoded payload,
 * turning a payload error or a finished context into a response, and the
 * shape of requests and responses those decisions work on.
 */
module Requests {
  import opened Wrappers
  import opened Books
  import GoStrings

  // ---------------------------------------------------------------------------
  // Requests and responses

  /** What `ctx.Err()` reports when a handler looks at its request's context. */
  datatype CtxState = NoError | DeadlineExceeded | Canceled | OtherError

  /** A create or update body as JSON decoding fills it in. */
  datatype BookPayload = BookPayload(title: string, author: string, isbn: string, publishedYear: int)

  /** The outcome of reading the body and decoding it as JSON (both done by library code). */
  datatype Body = Unreadable | MalformedJson | Decoded(payload: BookPayload)

  /**
   * A request as the handlers see it. `ctx` is the state of its context when
   * a handler checks it (a client that went away shows as `Canceled`), and
   * `ctxErrAtMs` is when that error arrived; `elapsedMs` is how long the request
   * has been running at the check. All times count from the start of the
   * request, and `ctxErrAtMs` means nothing while `ctx` is `NoError`. An
   * error seen at the check arrived by then: see `Timely`.
   */
  datatype Request = Request(
    httpMethod: string, path: string, contentType: string, body: Body,
    ctx: CtxState, ctxErrAtMs: nat, elapsedMs: nat)

  /** The context's error, if any, arrived no later than the check that sees it. */
  predicate Timely(r: Request) {
    r.ctx != NoError ==> r.ctxErrAtMs <= r.elapsedMs
  }

  /** What a body written by the server holds; its JSON encoding is not modelled. */
  datatype Content =
    | BookJson(book: Book)
    | BookListJson(books: seq<Book>)
    | ErrorJson(message: string)
    | HealthJson
    | PlainText(text: string)

  /** One call on an `http.ResponseWriter`. */
  datatype Event = WriteHeader(code: int) | Write(content: Content)

  /**
   * A response: the writer calls in order, the `Location` header if one was
   * set, and whether the four CORS headers were set.
   */
  datatype Response = Response(events: seq<Event>, location: Option<string>, cors: bool)

  /** At most one status line, sent first, and it holds a three-digit code. */
  predicate WellFormed(events: seq<Event>) {
    && |events| > 0
    && (forall i :: 0 < i < |events| ==> events[i].Write?)
    && (events[0].WriteHeader? ==> 100 <= events[0].code <= 999)
  }

  /** `writeJSON`: the status line, then the encoded value. */
  function WriteJSON(status: int, content: Content): (r: seq<Event>)
    ensures 100 <= status <= 999 ==> WellFormed(r)
    ensures ClientStatus(r) == status
  {
    [WriteHeader(status), Write(content)]
  }

  /** `writeError`: a JSON object with an `error` message. */
  function WriteError(status: int, message: string): (r: seq<Event>)
    ensures 100 <= status <= 999 ==> WellFormed(r)
    ensures ClientStatus(r) == status
    ensures |r| == 2 && r[1] == Write(ErrorJson(message))
  {
    WriteJSON(status, ErrorJson(message))
  }

  /**
   * The status the client receives: net/http keeps the first `WriteHeader`
   * and answers 200 when the body, or nothing at all, comes first.
   */
  function ClientStatus(events: seq<Event>): int {
    if |events| > 0 && events[0].WriteHeader? then events[0].code else 200
  }

  // ---------------------------------------------------------------------------
  // extractID

  datatype IdError = MissingId | InvalidPath | InvalidId

  /** `n` slashes. */
  function Slashes(n: nat): (r: string)
    ensures |r| == n && forall c :: c in r ==> c == '/'
  {
    seq(n, _ => '/')
  }

  /**
   * `extractID`: the path (what follows "/api/books") must have at least two
   * characters and start with '/'; the rest, with every leading and trailing '/'
   * trimmed, is the id, which must be non-empty and free of '/'.
   */
  function ExtractID(path: string): (r: Result<string, IdError>)
    ensures r.Success? ==> r.value != "" && !GoStrings.ContainsSlash(r.value)
    ensures r == Failure(MissingId) <==> |path| < 2
    ensures r == Failure(InvalidPath) <==> |path| >= 2 && path[0] != '/'
  {
    if |path| < 2 then Failure(MissingId)
    else if path[0] != '/' then Failure(InvalidPath)
    else
      var id := GoStrings.TrimSlashes(path[1..]);
      if id == "" || GoStrings.ContainsSlash(id) then Failure(InvalidId) else Success(id)
  }

  /** Every slash-free id comes back out of "/" + id, with any number of extra slashes around it. */
  lemma ExtractIDInverse(id: string, before: nat, after: nat)
    requires id != "" && !GoStrings.ContainsSlash(id)
    ensures ExtractID("/" + Slashes(before) + id + Slashes(after)) == Success(id)
  {
    var path := "/" + Slashes(before) + id + Slashes(after);
    assert path[1..] == Slashes(before) + id + Slashes(after);
    assert !GoStrings.IsSlash(id[0]) && !GoStrings.IsSlash(id[|id| - 1]);
    GoStrings.TrimFuncPadding(Slashes(before), id, Slashes(after), GoStrings.IsSlash);
  }

  /** In particular "/" + id gives back id. */
  lemma ExtractSlashId(id: string)
    requires id != "" && !GoStrings.ContainsSlash(id)
    ensures ExtractID("/" + id) == Success(id)
  {
    var path := "/" + id;
    assert path[1..] == id;
    assert GoStrings.TrimmedBy(id, GoStrings.IsSlash) by {
      assert !GoStrings.IsSlash(id[0]) && !GoStrings.IsSlash(id[|id| - 1]);
    }
    GoStrings.TrimFuncIdentity(id, GoStrings.IsSlash);
  }

  /** A successful extraction is always of that form. */
  lemma ExtractIDSound(path: string)
    requires ExtractID(path).Success?
    ensures exists before: nat, after: nat ::
      path == "/" + Slashes(before) + ExtractID(path).value + Slashes(after)
  {
    var id := ExtractID(path).value;
    var i, j := SlashPadding(path[1..], id);
    Reassemble(path, Slashes(i), id, Slashes(j));
  }

  /** A string starting with '/' is "/" followed by the rest. */
  lemma Reassemble(path: string, before: string, id: string, after: string)
    requires |path| > 0 && path[0] == '/' && path[1..] == before + id + after
    ensures path == "/" + before + id + after
  {
    assert path == [path[0]] + path[1..];
  }

  /** Splits a string around its slash-trimmed middle. */
  lemma SlashPadding(rest: string, id: string) returns (i: nat, j: nat)
    requires id == GoStrings.TrimSlashes(rest)
    ensures rest == Slashes(i) + id + Slashes(j)
  {
    var left := GoStrings.TrimLeftFunc(rest, GoStrings.IsSlash);
    assert id == GoStrings.TrimRightFunc(left, GoStrings.IsSlash);
    i := |rest| - |left|;
    j := |left| - |id|;
    LeadingSlashes(rest);
    TrailingSlashes(left);
    Associate(rest, left, Slashes(i), id, Slashes(j));
  }

  lemma Associate(s: string, tail: string, pre: string, mid: string, post: string)
    requires s == pre + tail && tail == mid + post
    ensures s == pre + mid + post
  {
  }

  /** What `TrimLeftFunc` cuts off with `IsSlash` is a run of slashes. */
  lemma LeadingSlashes(s: string)
    ensures var left := GoStrings.TrimLeftFunc(s, GoStrings.IsSlash);
      s == Slashes(|s| - |left|) + left
  {
    var left := GoStrings.TrimLeftFunc(s, GoStrings.IsSlash);
    GoStrings.TrimLeftCut(s, GoStrings.IsSlash);
    OnlySlashes(s, 0, |s| - |left|);
    assert s == s[..|s| - |left|] + left;
  }

  /** What `TrimRightFunc` cuts off with `IsSlash` is a run of slashes. */
  lemma TrailingSlashes(s: string)
    ensures var kept := GoStrings.TrimRightFunc(s, GoStrings.IsSlash);
      s == kept + Slashes(|s| - |kept|)
  {
    var kept := GoStrings.TrimRightFunc(s, GoStrings.IsSlash);
    GoStrings.TrimRightCut(s, GoStrings.IsSlash);
    OnlySlashes(s, |kept|, |s|);
    assert s == kept + s[|kept|..];
  }

  /** A stretch of slashes is `Slashes` of its length. */
  lemma OnlySlashes(s: string, from: nat, to: nat)
    requires from <= to <= |s|
    requires forall k :: from <= k < to ==> GoStrings.IsSlash(s[k])
    ensures s[from..to] == Slashes(to - from)
  {
    var t := s[from..to];
    forall k | 0 <= k < |t| ensures t[k] == Slashes(to - from)[k] {
      assert t[k] == s[from + k];
    }
  }

  /** The cases of the unit test of `extractID`. */
  lemma ExtractIDExamples()
    ensures ExtractID("/5") == Success("5")
    ensures ExtractID("/5/more").Failure?
    ensures ExtractID("5").Failure?
    ensures ExtractID("/").Failure?
  {
    assert "/5"[1..] == "5";
    GoStrings.TrimLeftAt("5", GoStrings.IsSlash, 0);
    GoStrings.TrimRightAt("5", GoStrings.IsSlash, 1);
    assert !GoStrings.ContainsSlash("5");
    var rest := "5/more";
    assert "/5/more"[1..] == rest;
    GoStrings.TrimLeftAt(rest, GoStrings.IsSlash, 0);
    GoStrings.TrimRightAt(rest, GoStrings.IsSlash, |rest|);
    assert GoStrings.IsSlash(rest[1]);
  }

  // ---------------------------------------------------------------------------
  // readBookPayload and handlePayloadError

  datatype PayloadError = UnsupportedMediaType | ReadFailed | InvalidJson | InvalidPayload

  const JsonMediaType := "application/json"

  /**
   * The checks of `readBookPayload`, in order: the Content-Type must start with
   * "application/json" (before the body is touched), the body must be read and
   * decoded, then title, author and isbn are trimmed and title and author must
   * be non-empty.
   */
  function ReadBookPayload(contentType: string, body: Body): (r: Result<BookPayload, PayloadError>)
    ensures !GoStrings.HasPrefix(contentType, JsonMediaType) ==> r == Failure(UnsupportedMediaType)
    ensures r.Success? <==>
      && GoStrings.HasPrefix(contentType, JsonMediaType)
      && body.Decoded?
      && GoStrings.TrimSpace(body.payload.title) != ""
      && GoStrings.TrimSpace(body.payload.author) != ""
    ensures r.Success? ==>
      && r.value.title == GoStrings.TrimSpace(body.payload.title)
      && r.value.author == GoStrings.TrimSpace(body.payload.author)
      && r.value.isbn == GoStrings.TrimSpace(body.payload.isbn)
      && r.value.publishedYear == body.payload.publishedYear
    ensures r.Success? ==>
      && GoStrings.IsTrimmed(r.value.title)
      && GoStrings.IsTrimmed(r.value.author)
      && GoStrings.IsTrimmed(r.value.isbn)
  {
    if !GoStrings.HasPrefix(contentType, JsonMediaType) then Failure(UnsupportedMediaType)
    else match body
      case Unreadable => Failure(ReadFailed)
      case MalformedJson => Failure(InvalidJson)
      case Decoded(p) =>
        var trimmed := BookPayload(
          GoStrings.TrimSpace(p.title), GoStrings.TrimSpace(p.author),
          GoStrings.TrimSpace(p.isbn), p.publishedYear);
        GoStrings.TrimFuncTrimmed(p.title, GoStrings.IsSpace);
        GoStrings.TrimFuncTrimmed(p.author, GoStrings.IsSpace);
        GoStrings.TrimFuncTrimmed(p.isbn, GoStrings.IsSpace);
        if trimmed.title == "" || trimmed.author == "" then Failure(InvalidPayload)
        else Success(trimmed)
  }

  /** An accepted payload, sent again, is accepted unchanged. */
  lemma ReadBookPayloadFixpoint(contentType: string, p: BookPayload)
    requires ReadBookPayload(contentType, Decoded(p)).Success?
    ensures var q := ReadBookPayload(contentType, Decoded(p)).value;
      ReadBookPayload(contentType, Decoded(q)) == Success(q)
  {
    var q := ReadBookPayload(contentType, Decoded(p)).value;
    GoStrings.TrimFuncIdentity(q.title, GoStrings.IsSpace);
    GoStrings.TrimFuncIdentity(q.author, GoStrings.IsSpace);
    GoStrings.TrimFuncIdentity(q.isbn, GoStrings.IsSpace);
  }

  /** A JSON payload whose fields are already trimmed, with a title and an author, is accepted as it is. */
  lemma AcceptedAsIs(contentType: string, p: BookPayload)
    requires GoStrings.HasPrefix(contentType, JsonMediaType)
    requires p.title != "" && p.author != ""
    requires GoStrings.IsTrimmed(p.title) && GoStrings.IsTrimmed(p.author) && GoStrings.IsTrimmed(p.isbn)
    ensures ReadBookPayload(contentType, Decoded(p)) == Success(p)
  {
    GoStrings.TrimFuncIdentity(p.title, GoStrings.IsSpace);
    GoStrings.TrimFuncIdentity(p.author, GoStrings.IsSpace);
    GoStrings.TrimFuncIdentity(p.isbn, GoStrings.IsSpace);
  }

  /** `handlePayloadError`: 415 for a wrong media type, 400 for every other failure. */
  function HandlePayloadError(e: PayloadError): (r: seq<Event>)
    ensures ClientStatus(r) == (if e == UnsupportedMediaType then 415 else 400)
    ensures WellFormed(r) && |r| == 2 && r[1].Write? && r[1].content.ErrorJson?
  {
    match e
    case UnsupportedMediaType => WriteError(415, "content type must be application/json")
    case InvalidJson => WriteError(400, "invalid JSON payload")
    case InvalidPayload => WriteError(400, "title and author are required")
    case ReadFailed => WriteError(400, "invalid request body")
  }

  // ---------------------------------------------------------------------------
  // contextDone

  /**
   * `contextDone`: nothing when the context has no error; otherwise the error
   * response to send instead of the result: 504 when the deadline passed, 408
   * when the request was canceled or failed otherwise.
   */
  function ContextDone(ctx: CtxState): (r: Option<seq<Event>>)
    ensures r.None? <==> ctx == NoError
    ensures r.Some? ==> ClientStatus(r.value) == (if ctx == DeadlineExceeded then 504 else 408)
    ensures r.Some? ==> WellFormed(r.value)
  {
    match ctx
    case NoError => None
    case DeadlineExceeded => Some(WriteError(504, "request timed out"))
    case Canceled => Some(WriteError(408, "request canceled"))
    case OtherError => Some(WriteError(408, "request canceled"))
  }
}
