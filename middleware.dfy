/**
 * The middleware of cmd/server/main.go: `chain`, which wraps a handler in a
 * list of middlewares so that the first one listed is the outermost; the
 * timeout, logging and CORS middlewares; and `responseRecorder`, the writer
 * the logging middleware puts in front of the real one to learn the status.
 * A handler is a value of `Handler`, and `Serve` says what answering a
 * request through it does.
 */
module Middleware {
  import opened Wrappers
  import opened Memory
  import opened Requests
  import opened Server
  import Seed

  /** A handler: the multiplexer, possibly wrapped by middlewares. */
  datatype Handler =
    | Mux
    | Timeout(timeoutMs: nat, next: Handler)
    | Logging(next: Handler)
    | Cors(next: Handler)

  /** `application.timeout` as `main` sets it: ten seconds. */
  const RequestTimeoutMs: nat := 10_000

  /** `timeoutMiddleware`: wraps any handler in a timeout of `timeoutMs`. */
  function TimeoutMiddleware(timeoutMs: nat): (m: Handler -> Handler)
    ensures forall h :: m(h).Timeout? && m(h).timeoutMs == timeoutMs && m(h).next == h
  {
    h => Timeout(timeoutMs, h)
  }

  const LoggingMiddleware: Handler -> Handler := h => Logging(h)

  const CorsMiddleware: Handler -> Handler := h => Cors(h)

  // ---------------------------------------------------------------------------
  // chain

  /** `h` wrapped by `ms`, the first middleware outermost. */
  function Nest(h: Handler, ms: seq<Handler -> Handler>): Handler {
    if |ms| == 0 then h else ms[0](Nest(h, ms[1..]))
  }

  /** Wrapping in `ms + more` is wrapping in `more`, then in `ms`. */
  lemma {:induction false} NestAppend(h: Handler, ms: seq<Handler -> Handler>, more: seq<Handler -> Handler>)
    ensures Nest(h, ms + more) == Nest(Nest(h, more), ms)
  {
    if |ms| == 0 {
      assert ms + more == more;
    } else {
      assert (ms + more)[1..] == ms[1..] + more;
      NestAppend(h, ms[1..], more);
    }
  }

  /** `chain`: applies the middlewares from the last to the first. */
  method Chain(h: Handler, ms: seq<Handler -> Handler>) returns (r: Handler)
    ensures r == Nest(h, ms)
  {
    r := h;
    var i := |ms|;
    while i > 0
      invariant 0 <= i <= |ms|
      invariant r == Nest(h, ms[i..])
    {
      i := i - 1;
      NestAppend(h, [ms[i]], ms[i + 1..]);
      assert [ms[i]] + ms[i + 1..] == ms[i..];
      r := ms[i](r);
    }
  }

  /** The handler `main` gives the server. */
  const ServerHandler := Timeout(RequestTimeoutMs, Logging(Cors(Mux)))

  /** `main` chains timeout (as long as the application's), logging and CORS around the multiplexer. */
  method BuildServerHandler(app: Application) returns (h: Handler)
    ensures h == Timeout(app.timeoutMs, Logging(Cors(Mux)))
  {
    var ms := [TimeoutMiddleware(app.timeoutMs), LoggingMiddleware, CorsMiddleware];
    h := Chain(Mux, ms);
    assert ms[1..][1..][1..] == [];
    assert Nest(Mux, ms[1..][1..]) == Cors(Mux);
    assert Nest(Mux, ms[1..]) == Logging(Cors(Mux));
  }

  /**
   * `main`'s wiring: a repository seeded with `SeedData`, an application with
   * the ten-second timeout, and the handler chained around the multiplexer.
   */
  method SetUp() returns (app: Application, h: Handler)
    ensures fresh(app) && fresh(app.store)
    ensures app.store.Valid() && app.store.Model() == Seeded(Seed.SeedData())
    ensures app.timeoutMs == RequestTimeoutMs
    ensures h == ServerHandler
  {
    var store := new MemoryRepository(Seed.SeedData());
    app := new Application(store, RequestTimeoutMs);
    h := BuildServerHandler(app);
  }

  // ---------------------------------------------------------------------------
  // responseRecorder

  /** The recorded status after one more call: a header sets it, a body write defaults it to 200. */
  function StatusAfter(status: int, e: Event): int {
    match e
    case WriteHeader(code) => code
    case Write(_) => if status == 0 then 200 else status
  }

  /** The recorder's status after a sequence of calls, starting from 0. */
  function RecordedStatus(events: seq<Event>): int {
    if |events| == 0 then 0 else StatusAfter(RecordedStatus(events[..|events| - 1]), events[|events| - 1])
  }

  /** The status the logging middleware prints: 200 when nothing was written. */
  function LoggedStatus(recorded: int): (status: int)
    ensures status != 0
    ensures recorded != 0 ==> status == recorded
    ensures recorded == 0 ==> status == 200
  {
    if recorded == 0 then 200 else recorded
  }

  /** The recorder keeps the last header written, whatever bodies follow it. */
  lemma {:induction false} RecordedLastHeader(events: seq<Event>, i: nat)
    requires i < |events| && events[i].WriteHeader? && events[i].code != 0
    requires forall j :: i < j < |events| ==> events[j].Write?
    ensures RecordedStatus(events) == events[i].code
    decreases |events|
  {
    if i < |events| - 1 {
      var prefix := events[..|events| - 1];
      RecordedLastHeader(prefix, i);
      assert events[..|events| - 1][i] == events[i];
    } else {
      assert events[|events| - 1] == events[i];
    }
  }

  /** With bodies only, the recorder holds 200 once anything was written. */
  lemma {:induction false} RecordedBodiesOnly(events: seq<Event>)
    requires forall j :: 0 <= j < |events| ==> events[j].Write?
    ensures RecordedStatus(events) == if |events| == 0 then 0 else 200
  {
    if |events| > 0 {
      var prefix := events[..|events| - 1];
      assert forall j :: 0 <= j < |prefix| ==> prefix[j] == events[j];
      RecordedBodiesOnly(prefix);
    }
  }

  /** For a well-formed response the logged status is the one the client receives. */
  lemma LoggedIsClientStatus(events: seq<Event>)
    requires WellFormed(events)
    ensures LoggedStatus(RecordedStatus(events)) == ClientStatus(events)
  {
    if events[0].WriteHeader? {
      RecordedLastHeader(events, 0);
    } else {
      RecordedBodiesOnly(events);
    }
  }

  /** Go's `responseRecorder` around the real writer. */
  class ResponseRecorder {
    var status: int
    var size: int
    /** The calls passed on to the wrapped writer. */
    var forwarded: seq<Event>
    /** The byte counts the wrapped writer reported. */
    ghost var counts: seq<nat>

    ghost predicate Valid()
      reads this
    {
      status == RecordedStatus(forwarded) && size == Sum(counts)
    }

    constructor ()
      ensures Valid()
      ensures status == 0 && size == 0 && forwarded == [] && counts == []
    {
      status, size, forwarded, counts := 0, 0, [], [];
    }

    /** Records the code and passes it on. */
    method WriteHeader(code: int)
      requires Valid()
      modifies this
      ensures Valid()
      ensures forwarded == old(forwarded) + [Event.WriteHeader(code)] && counts == old(counts)
      ensures status == code && size == old(size)
    {
      status := code;
      forwarded := forwarded + [Event.WriteHeader(code)];
    }

    /**
     * Defaults the status to 200, passes the body on and adds the byte count
     * `n` the wrapped writer reports.
     */
    method Write(content: Content, n: nat) returns (written: nat)
      requires Valid()
      modifies this
      ensures Valid()
      ensures forwarded == old(forwarded) + [Event.Write(content)] && counts == old(counts) + [n]
      ensures status == (if old(status) == 0 then 200 else old(status)) && size == old(size) + n
      ensures written == n
    {
      if status == 0 {
        status := 200;
      }
      forwarded := forwarded + [Event.Write(content)];
      counts := counts + [n];
      SumAppend(old(counts), n);
      size := size + n;
      written := n;
    }
  }

  function Sum(xs: seq<nat>): nat {
    if |xs| == 0 then 0 else Sum(xs[..|xs| - 1]) + xs[|xs| - 1]
  }

  lemma SumAppend(xs: seq<nat>, x: nat)
    ensures Sum(xs + [x]) == Sum(xs) + x
  {
    assert (xs + [x])[..|xs|] == xs;
  }

  /** The status the logging middleware prints once the wrapped handler returns. */
  method StatusToLog(rr: ResponseRecorder) returns (status: int)
    requires rr.Valid()
    ensures status == LoggedStatus(RecordedStatus(rr.forwarded))
    ensures WellFormed(rr.forwarded) ==> status == ClientStatus(rr.forwarded)
  {
    status := rr.status;
    if status == 0 {
      status := 200;
    }
    if WellFormed(rr.forwarded) {
      LoggedIsClientStatus(rr.forwarded);
    }
  }

  // ---------------------------------------------------------------------------
  // Serving a request

  /** One log line: method, path and status (the size and duration are not modelled). */
  datatype LogEntry = LogEntry(httpMethod: string, path: string, status: int)

  /** What answering a request does: the store afterwards, the response and the log lines. */
  datatype Served = Served(store: Store, response: Response, log: seq<LogEntry>)

  /** The deadline of a `timeoutMs` timeout has passed, and no error of the parent came before it. */
  predicate DeadlineFirst(parent: CtxState, parentErrAtMs: nat, elapsedMs: nat, timeoutMs: nat) {
    elapsedMs >= timeoutMs && (parent == NoError || parentErrAtMs >= timeoutMs)
  }

  /**
   * The state of the context `context.WithTimeout` derives, seen at `elapsedMs`:
   * it keeps whichever error comes first, the parent's (which arrived at
   * `parentErrAtMs`) or its own deadline at `timeoutMs`. When both come at the
   * same instant the deadline is taken.
   */
  function WithTimeout(parent: CtxState, parentErrAtMs: nat, elapsedMs: nat, timeoutMs: nat): (c: CtxState)
    ensures c == NoError <==> parent == NoError && elapsedMs < timeoutMs
    ensures elapsedMs < timeoutMs ==> c == parent
    ensures parent != NoError && parentErrAtMs < timeoutMs ==> c == parent
    ensures elapsedMs >= timeoutMs && (parent == NoError || parentErrAtMs >= timeoutMs) ==> c == DeadlineExceeded
  {
    if DeadlineFirst(parent, parentErrAtMs, elapsedMs, timeoutMs) then DeadlineExceeded else parent
  }

  /** The request as the handler inside a `timeoutMs` timeout sees it. */
  function WithDeadline(r: Request, timeoutMs: nat): (d: Request)
    ensures Timely(r) ==> Timely(d)
    ensures d.ctx == NoError <==> r.ctx == NoError && r.elapsedMs < timeoutMs
    ensures d.httpMethod == r.httpMethod && d.path == r.path && d.contentType == r.contentType
    ensures d.body == r.body && d.elapsedMs == r.elapsedMs
  {
    r.(ctx := WithTimeout(r.ctx, r.ctxErrAtMs, r.elapsedMs, timeoutMs),
       ctxErrAtMs := if DeadlineFirst(r.ctx, r.ctxErrAtMs, r.elapsedMs, timeoutMs) then timeoutMs else r.ctxErrAtMs)
  }

  /** The preflight answer: the CORS headers and a bare 204. */
  const PreflightResponse := Response([WriteHeader(204)], None, true)

  /** Answering `r` with `h` from store `s`. */
  ghost function Serve(h: Handler, s: Store, r: Request): (o: Served)
    requires Inv(s) && Timely(r)
    ensures Inv(o.store)
    ensures WellFormed(o.response.events)
  {
    match h
    case Mux =>
      var out := Route(s, r);
      Served(out.store, out.response, [])
    case Timeout(t, next) =>
      Serve(next, s, WithDeadline(r, t))
    case Logging(next) =>
      var inner := Serve(next, s, r);
      var status := LoggedStatus(RecordedStatus(inner.response.events));
      inner.(log := inner.log + [LogEntry(r.httpMethod, r.path, status)])
    case Cors(next) =>
      if r.httpMethod == "OPTIONS" then Served(s, PreflightResponse, [])
      else
        var inner := Serve(next, s, r);
        inner.(response := inner.response.(cors := true))
  }

  /** The logging middleware appends exactly one line, carrying the status the client received. */
  lemma LoggingReportsClientStatus(h: Handler, s: Store, r: Request)
    requires Inv(s) && Timely(r)
    ensures var inner := Serve(h, s, r);
      Serve(Logging(h), s, r) ==
        inner.(log := inner.log + [LogEntry(r.httpMethod, r.path, ClientStatus(inner.response.events))])
  {
    LoggedIsClientStatus(Serve(h, s, r).response.events);
  }

  /**
   * A preflight request through the server's handler is answered 204 with the
   * CORS headers, reaches no handler, changes nothing and is still logged.
   */
  lemma PreflightAnswered(s: Store, r: Request)
    requires Inv(s) && Timely(r) && r.httpMethod == "OPTIONS"
    ensures Serve(ServerHandler, s, r) == Served(s, PreflightResponse, [LogEntry("OPTIONS", r.path, 204)])
  {
    var r' := WithDeadline(r, RequestTimeoutMs);
    LoggingReportsClientStatus(Cors(Mux), s, r');
  }

  /**
   * Any other request is routed with the timeout's context; the response gains
   * the CORS headers and one log line records its status.
   */
  lemma RequestServed(s: Store, r: Request)
    requires Inv(s) && Timely(r) && r.httpMethod != "OPTIONS"
    ensures var out := Route(s, WithDeadline(r, RequestTimeoutMs));
      Serve(ServerHandler, s, r) ==
        Served(out.store, out.response.(cors := true), [LogEntry(r.httpMethod, r.path, ClientStatus(out.response.events))])
  {
    var r' := WithDeadline(r, RequestTimeoutMs);
    LoggingReportsClientStatus(Cors(Mux), s, r');
  }

  /**
   * A listing still being handled when the ten seconds are up answers 504, and
   * 504 is what gets logged.
   */
  lemma SlowListTimesOut(s: Store, r: Request)
    requires Inv(s) && r.httpMethod == "GET" && r.path == CollectionPath
    requires r.ctx == NoError && r.elapsedMs >= RequestTimeoutMs
    ensures var o := Serve(ServerHandler, s, r);
      && ClientStatus(o.response.events) == 504
      && o.log == [LogEntry("GET", CollectionPath, 504)]
      && o.store == s
  {
    RequestServed(s, r);
  }

  /**
   * A listing whose client went away: if the client left before the ten
   * seconds were up the answer is 408, otherwise the deadline came first and
   * the answer is 504; the log records the same status.
   */
  lemma ListAfterDisconnect(s: Store, r: Request)
    requires Inv(s) && r.httpMethod == "GET" && r.path == CollectionPath
    requires r.ctx == Canceled && r.ctxErrAtMs <= r.elapsedMs
    ensures var status := if r.ctxErrAtMs < RequestTimeoutMs then 408 else 504;
      var o := Serve(ServerHandler, s, r);
      && ClientStatus(o.response.events) == status
      && o.log == [LogEntry("GET", CollectionPath, status)]
      && o.store == s
  {
    RequestServed(s, r);
  }
}
