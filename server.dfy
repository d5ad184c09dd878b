/**
 * The HTTP handlers of cmd/server/main.go. `Respond` is the order every handler
 * that calls the store follows; the `Handle...` functions say what each handler
 * does to the in-memory store and which response it writes; `Route` is the
 * request multiplexer with its three registered patterns. `Application` holds
 * the repository object, and its methods call it as the handlers do and are
 * proved to agree with those functions.
 */
module Server {
  import opened Wrappers
  import opened Books
  import opened Memory
  import opened Requests
  import GoStrings
  import Strconv

  const CollectionPath := "/api/books"
  const ItemPrefix := "/api/books/"
  const HealthPath := "/health"

  const NotFoundMessage := "book not found"
  const MethodNotAllowedMessage := "method not allowed"

  /** A handler's effect: the store it leaves and the response it writes. */
  datatype Outcome = Outcome(store: Store, response: Response)

  /** A response with neither `Location` nor CORS headers. */
  function Plain(events: seq<Event>): Response {
    Response(events, None, false)
  }

  /** The status of a handler whose store call succeeded: the context first, then `otherwise`. */
  function Lifecycle(ctx: CtxState, otherwise: int): int {
    if ctx == DeadlineExceeded then 504 else if ctx != NoError then 408 else otherwise
  }

  // ---------------------------------------------------------------------------
  // The order of checks after a store call

  /**
   * A store error answers 500; otherwise a finished context answers 504 or 408;
   * otherwise a missing book answers 404; only then is `success` sent.
   */
  function Respond(failed: bool, failure: string, ctx: CtxState, found: bool, success: Response): (r: Response)
    ensures ClientStatus(r.events) ==
      if failed then 500 else Lifecycle(ctx, if found then ClientStatus(success.events) else 404)
    ensures failed ==> r == Plain(WriteError(500, failure))
    ensures !failed && ctx != NoError ==> r == Plain(ContextDone(ctx).value)
    ensures !failed && ctx == NoError && !found ==> r == Plain(WriteError(404, NotFoundMessage))
    ensures !failed && ctx == NoError && found ==> r == success
    ensures WellFormed(success.events) ==> WellFormed(r.events)
    ensures !success.cors ==> !r.cors
  {
    if failed then Plain(WriteError(500, failure))
    else match ContextDone(ctx)
      case Some(events) => Plain(events)
      case None => if found then success else Plain(WriteError(404, NotFoundMessage))
  }

  /** Once the context is done, what the store returned makes no difference to the response. */
  lemma ContextOverridesResult(failure: string, ctx: CtxState, found1: bool, success1: Response,
                               found2: bool, success2: Response)
    requires ctx != NoError
    ensures Respond(false, failure, ctx, found1, success1) == Respond(false, failure, ctx, found2, success2)
    ensures Respond(false, failure, ctx, found1, success1).location.None?
  {
  }

  // ---------------------------------------------------------------------------
  // Handlers over the in-memory store (which never reports an error)

  /** The book a validated payload describes; the store assigns the id. */
  function PayloadBook(p: BookPayload): (b: Book)
    ensures b.id == ""
    ensures b.title == p.title && b.author == p.author && b.isbn == p.isbn && b.publishedYear == p.publishedYear
  {
    Book("", p.title, p.author, p.isbn, p.publishedYear)
  }

  /** `listBooks`: every stored book, ordered by id. */
  ghost function HandleList(s: Store, r: Request): (o: Outcome)
    requires Inv(s)
    ensures o.store == s
    ensures WellFormed(o.response.events) && !o.response.cors
    ensures ClientStatus(o.response.events) == Lifecycle(r.ctx, 200)
    ensures r.ctx == NoError ==> o.response.events == WriteJSON(200, BookListJson(Listing(s.books)))
  {
    Outcome(s, Respond(false, "failed to list books", r.ctx, true,
                       Plain(WriteJSON(200, BookListJson(Listing(s.books))))))
  }

  /** `getBook`: the stored book, or 404. */
  function HandleGet(s: Store, r: Request, id: string): (o: Outcome)
    ensures o.store == s
    ensures WellFormed(o.response.events) && !o.response.cors
    ensures ClientStatus(o.response.events) == Lifecycle(r.ctx, if id in s.books then 200 else 404)
    ensures r.ctx == NoError && id in s.books ==> o.response.events == WriteJSON(200, BookJson(s.books[id]))
  {
    var got := GetOp(s, id);
    Outcome(s, Respond(false, "failed to fetch book", r.ctx, got.found, Plain(WriteJSON(200, BookJson(got.book)))))
  }

  /**
   * `createBook`: an invalid payload answers 415 or 400 and leaves the store
   * alone; a valid one is stored whatever the context says, and the response is
   * 201 with the new book and its `Location`, unless the context is done.
   */
  function HandleCreate(s: Store, r: Request): (o: Outcome)
    ensures Inv(s) ==> Inv(o.store)
    ensures WellFormed(o.response.events) && !o.response.cors
    ensures ReadBookPayload(r.contentType, r.body).Failure? ==>
      var e := ReadBookPayload(r.contentType, r.body).error;
      o.store == s && o.response == Plain(HandlePayloadError(e))
    ensures ReadBookPayload(r.contentType, r.body).Success? ==>
      var p := ReadBookPayload(r.contentType, r.body).value;
      var c := CreateOp(s, PayloadBook(p));
      && o.store == c.store
      && ClientStatus(o.response.events) == Lifecycle(r.ctx, 201)
      && (r.ctx == NoError ==>
            o.response == Response(WriteJSON(201, BookJson(c.created)), Some(ItemPrefix + c.created.id), false))
  {
    match ReadBookPayload(r.contentType, r.body)
    case Failure(e) => Outcome(s, Plain(HandlePayloadError(e)))
    case Success(p) =>
      var c := CreateOp(s, PayloadBook(p));
      Outcome(c.store, Respond(false, "failed to create book", r.ctx, true,
        Response(WriteJSON(201, BookJson(c.created)), Some(ItemPrefix + c.created.id), false)))
  }

  /**
   * `updateBook`: an invalid payload answers 415 or 400; a valid one replaces the
   * stored book if there is one, whatever the context says; the answer is then
   * the context's, or 404, or 200 with the new book.
   */
  function HandleUpdate(s: Store, r: Request, id: string): (o: Outcome)
    ensures Inv(s) ==> Inv(o.store)
    ensures WellFormed(o.response.events) && !o.response.cors
    ensures ReadBookPayload(r.contentType, r.body).Failure? ==>
      var e := ReadBookPayload(r.contentType, r.body).error;
      o.store == s && o.response == Plain(HandlePayloadError(e))
    ensures ReadBookPayload(r.contentType, r.body).Success? ==>
      var p := ReadBookPayload(r.contentType, r.body).value;
      && o.store == UpdateOp(s, id, PayloadBook(p)).store
      && ClientStatus(o.response.events) == Lifecycle(r.ctx, if id in s.books then 200 else 404)
  {
    match ReadBookPayload(r.contentType, r.body)
    case Failure(e) => Outcome(s, Plain(HandlePayloadError(e)))
    case Success(p) =>
      var u := UpdateOp(s, id, PayloadBook(p));
      Outcome(u.store, Respond(false, "failed to update book", r.ctx, u.found, Plain(WriteJSON(200, BookJson(u.book)))))
  }

  /** `deleteBook`: the key is removed whatever the context says; the answer is the context's, or 404, or a bare 204. */
  function HandleDelete(s: Store, r: Request, id: string): (o: Outcome)
    ensures Inv(s) ==> Inv(o.store)
    ensures WellFormed(o.response.events) && !o.response.cors
    ensures o.store == DeleteOp(s, id).store
    ensures ClientStatus(o.response.events) == Lifecycle(r.ctx, if id in s.books then 204 else 404)
    ensures r.ctx == NoError && id in s.books ==> o.response.events == [WriteHeader(204)]
  {
    var d := DeleteOp(s, id);
    Outcome(d.store, Respond(false, "failed to delete book", r.ctx, d.found, Plain([WriteHeader(204)])))
  }

  /** `healthHandler`: a body with no explicit status for GET, 405 otherwise. */
  function Health(r: Request): (resp: Response)
    ensures WellFormed(resp.events) && !resp.cors
    ensures ClientStatus(resp.events) == if r.httpMethod == "GET" then 200 else 405
    ensures r.httpMethod == "GET" ==> resp.events == [Write(HealthJson)]
  {
    if r.httpMethod != "GET" then Plain(WriteError(405, MethodNotAllowedMessage))
    else Plain([Write(HealthJson)])
  }

  // ---------------------------------------------------------------------------
  // Routing

  /** `booksHandler`: GET lists, POST creates, any other method answers 405. */
  ghost function RouteCollection(s: Store, r: Request): (o: Outcome)
    requires Inv(s)
    ensures Inv(o.store)
    ensures WellFormed(o.response.events) && !o.response.cors
    ensures r.httpMethod == "GET" ==> o == HandleList(s, r)
    ensures r.httpMethod == "POST" ==> o == HandleCreate(s, r)
    ensures r.httpMethod !in {"GET", "POST"} ==> o == Outcome(s, Plain(WriteError(405, MethodNotAllowedMessage)))
  {
    if r.httpMethod == "GET" then HandleList(s, r)
    else if r.httpMethod == "POST" then HandleCreate(s, r)
    else Outcome(s, Plain(WriteError(405, MethodNotAllowedMessage)))
  }

  /**
   * `bookHandler`: a path without a valid id answers 404 before the method is
   * looked at; then GET reads, PUT updates, DELETE deletes, anything else is 405.
   */
  function RouteItem(s: Store, r: Request): (o: Outcome)
    ensures Inv(s) ==> Inv(o.store)
    ensures WellFormed(o.response.events) && !o.response.cors
    ensures var id := ExtractID(GoStrings.TrimPrefix(r.path, CollectionPath));
      && (id.Failure? ==> o == Outcome(s, Plain(WriteError(404, NotFoundMessage))))
      && (id.Success? && r.httpMethod == "GET" ==> o == HandleGet(s, r, id.value))
      && (id.Success? && r.httpMethod == "PUT" ==> o == HandleUpdate(s, r, id.value))
      && (id.Success? && r.httpMethod == "DELETE" ==> o == HandleDelete(s, r, id.value))
      && (id.Success? && r.httpMethod !in {"GET", "PUT", "DELETE"} ==>
            o == Outcome(s, Plain(WriteError(405, MethodNotAllowedMessage))))
  {
    match ExtractID(GoStrings.TrimPrefix(r.path, CollectionPath))
    case Failure(_) => Outcome(s, Plain(WriteError(404, NotFoundMessage)))
    case Success(id) =>
      if r.httpMethod == "GET" then HandleGet(s, r, id)
      else if r.httpMethod == "PUT" then HandleUpdate(s, r, id)
      else if r.httpMethod == "DELETE" then HandleDelete(s, r, id)
      else Outcome(s, Plain(WriteError(405, MethodNotAllowedMessage)))
  }

  /** What net/http answers for a path no pattern matches. */
  const NotFoundPage := [WriteHeader(404), Write(PlainText("404 page not found"))]

  /**
   * The multiplexer `main` builds: "/api/books" and "/health" match exactly,
   * "/api/books/" matches every path below it, anything else is net/http's 404.
   * Every answer is well formed and keeps the store invariant.
   */
  ghost function Route(s: Store, r: Request): (o: Outcome)
    requires Inv(s)
    ensures Inv(o.store)
    ensures WellFormed(o.response.events) && !o.response.cors
    ensures r.path == CollectionPath ==> o == RouteCollection(s, r)
    ensures r.path == HealthPath ==> o == Outcome(s, Health(r))
    ensures r.path != CollectionPath && r.path != HealthPath && GoStrings.HasPrefix(r.path, ItemPrefix) ==>
      o == RouteItem(s, r)
    ensures r.path != CollectionPath && r.path != HealthPath && !GoStrings.HasPrefix(r.path, ItemPrefix) ==>
      o == Outcome(s, Plain(NotFoundPage))
  {
    if r.path == CollectionPath then RouteCollection(s, r)
    else if r.path == HealthPath then Outcome(s, Health(r))
    else if GoStrings.HasPrefix(r.path, ItemPrefix) then RouteItem(s, r)
    else Outcome(s, Plain(NotFoundPage))
  }

  // ---------------------------------------------------------------------------
  // Properties of the handlers

  /** A rejected request (400, 404, 405 or 415) leaves the store exactly as it was. */
  lemma RejectedLeavesStore(s: Store, r: Request)
    requires Inv(s)
    requires ClientStatus(Route(s, r).response.events) in {400, 404, 405, 415}
    ensures Route(s, r).store == s
  {
    if r.path == CollectionPath {
      if r.httpMethod == "POST" {
        CreateRejected(s, r);
      }
    } else if r.path != HealthPath && GoStrings.HasPrefix(r.path, ItemPrefix) {
      ItemRejected(s, r);
    }
  }

  /** A create answered 400, 404, 405 or 415 was refused before the store was called. */
  lemma CreateRejected(s: Store, r: Request)
    requires ClientStatus(HandleCreate(s, r).response.events) in {400, 404, 405, 415}
    ensures HandleCreate(s, r).store == s
  {
  }

  lemma ItemRejected(s: Store, r: Request)
    requires ClientStatus(RouteItem(s, r).response.events) in {400, 404, 405, 415}
    ensures RouteItem(s, r).store == s
  {
    var id := ExtractID(GoStrings.TrimPrefix(r.path, CollectionPath));
    if id.Success? && r.httpMethod == "PUT" {
      UpdateRejected(s, r, id.value);
    } else if id.Success? && r.httpMethod == "DELETE" {
      DeleteRejected(s, r, id.value);
    }
  }

  /** An update answered 400, 404, 405 or 415 changed nothing: the payload was refused or the book was missing. */
  lemma UpdateRejected(s: Store, r: Request, id: string)
    requires ClientStatus(HandleUpdate(s, r, id).response.events) in {400, 404, 405, 415}
    ensures HandleUpdate(s, r, id).store == s
  {
    var payload := ReadBookPayload(r.contentType, r.body);
    if payload.Success? {
      var u := UpdateOp(s, id, PayloadBook(payload.value));
      assert HandleUpdate(s, r, id).store == u.store;
      assert ClientStatus(HandleUpdate(s, r, id).response.events) == Lifecycle(r.ctx, if id in s.books then 200 else 404);
      assert id !in s.books;
      assert u.store == s;
    }
  }

  /** A delete answered 404 found nothing to remove. */
  lemma DeleteRejected(s: Store, r: Request, id: string)
    requires ClientStatus(HandleDelete(s, r, id).response.events) in {400, 404, 405, 415}
    ensures HandleDelete(s, r, id).store == s
  {
    assert id !in s.books;
    assert DeleteOp(s, id).store.books == s.books;
  }

  /** Only a POST to the collection moves the id counter, and it moves it by one. */
  lemma CounterOnlyOnCreate(s: Store, r: Request)
    requires Inv(s)
    ensures var o := Route(s, r);
      o.store.nextID == s.nextID ||
      (r.httpMethod == "POST" && r.path == CollectionPath && o.store.nextID == s.nextID + 1)
  {
  }

  /** GET never changes the store. */
  lemma GetIsReadOnly(s: Store, r: Request)
    requires Inv(s) && r.httpMethod == "GET"
    ensures Route(s, r).store == s
  {
  }

  /**
   * A valid create whose context is already done is still stored: the client
   * sees 504 or 408 and no `Location`, yet the book exists and the counter moved.
   */
  lemma CreateAppliedDespiteTimeout(s: Store, r: Request)
    requires Inv(s) && r.httpMethod == "POST" && r.path == CollectionPath
    requires ReadBookPayload(r.contentType, r.body).Success? && r.ctx != NoError
    ensures var o := Route(s, r);
      && ClientStatus(o.response.events) in {504, 408}
      && o.response.location.None?
      && o.store.nextID == s.nextID + 1
      && |o.store.books.Keys| == |s.books.Keys| + 1
  {
    var c := CreateOp(s, PayloadBook(ReadBookPayload(r.contentType, r.body).value));
    assert c.store.books.Keys == s.books.Keys + {c.created.id};
  }

  /** The `Location` of a created book names it: a GET there, with time to spare, answers 200 with that book. */
  lemma LocationRoutesBack(s: Store, r: Request, next: Request)
    requires Inv(s)
    requires ClientStatus(HandleCreate(s, r).response.events) == 201
    requires HandleCreate(s, r).response.location == Some(next.path)
    requires next.httpMethod == "GET" && next.ctx == NoError
    ensures var after := HandleCreate(s, r).store;
      var created := CreateOp(s, PayloadBook(ReadBookPayload(r.contentType, r.body).value)).created;
      && created.id !in s.books
      && Route(after, next).store == after
      && Route(after, next).response.events == WriteJSON(200, BookJson(created))
  {
    var p := ReadBookPayload(r.contentType, r.body).value;
    var c := CreateOp(s, PayloadBook(p));
    var created := c.created;
    assert r.ctx == NoError;
    assert next.path == ItemPrefix + created.id;
    Strconv.AtoiAlphabet(created.id);
    assert !GoStrings.ContainsSlash(created.id);
    LocationId(created.id, next.path);
    assert Route(c.store, next) == RouteItem(c.store, next);
    assert RouteItem(c.store, next) == HandleGet(c.store, next, created.id);
  }

  /** The item path of an id reads back as that id. */
  lemma LocationId(id: string, path: string)
    requires id != "" && !GoStrings.ContainsSlash(id)
    requires path == ItemPrefix + id
    ensures path != CollectionPath && path != HealthPath && GoStrings.HasPrefix(path, ItemPrefix)
    ensures ExtractID(GoStrings.TrimPrefix(path, CollectionPath)) == Success(id)
  {
    ItemPath(id, path);
    ExtractSlashId(id);
  }

  /** An item path starts with the item prefix, is neither of the other two patterns, and is the collection path followed by "/" and the id. */
  lemma ItemPath(id: string, path: string)
    requires path == ItemPrefix + id
    ensures path != CollectionPath && path != HealthPath && GoStrings.HasPrefix(path, ItemPrefix)
    ensures GoStrings.TrimPrefix(path, CollectionPath) == "/" + id
  {
    assert ItemPrefix == CollectionPath + "/";
    assert path == CollectionPath + ("/" + id);
    AfterPrefix(path, ItemPrefix, id);
    AfterPrefix(path, CollectionPath, "/" + id);
    assert path != HealthPath by {
      assert path[1] == 'a' && HealthPath[1] == 'h';
    }
  }

  /** A string made of `prefix` and `rest` starts with `prefix`, and dropping it leaves `rest`. */
  lemma AfterPrefix(s: string, prefix: string, rest: string)
    requires s == prefix + rest
    ensures GoStrings.HasPrefix(s, prefix) && GoStrings.TrimPrefix(s, prefix) == rest
  {
    assert s[..|prefix|] == prefix;
    assert s[|prefix|..] == rest;
  }

  // ---------------------------------------------------------------------------
  // The application object

  /** `application`: the repository the handlers share and the per-request timeout. */
  class Application {
    const store: MemoryRepository
    const timeoutMs: nat

    constructor (store: MemoryRepository, timeoutMs: nat)
      ensures this.store == store && this.timeoutMs == timeoutMs
    {
      this.store := store;
      this.timeoutMs := timeoutMs;
    }

    method ListBooks(r: Request) returns (resp: Response)
      requires store.Valid()
      ensures Outcome(store.Model(), resp) == HandleList(store.Model(), r)
    {
      var books, err := store.List();
      resp := Respond(err, "failed to list books", r.ctx, true, Plain(WriteJSON(200, BookListJson(books))));
    }

    method GetBook(r: Request, id: string) returns (resp: Response)
      requires store.Valid()
      ensures Outcome(store.Model(), resp) == HandleGet(store.Model(), r, id)
    {
      var book, ok, err := store.Get(id);
      resp := Respond(err, "failed to fetch book", r.ctx, ok, Plain(WriteJSON(200, BookJson(book))));
    }

    method CreateBook(r: Request) returns (resp: Response)
      requires store.Valid()
      modifies store
      ensures store.Valid()
      ensures Outcome(store.Model(), resp) == HandleCreate(old(store.Model()), r)
    {
      var payload := ReadBookPayload(r.contentType, r.body);
      if payload.Failure? {
        return Plain(HandlePayloadError(payload.error));
      }
      var created, err := store.Create(PayloadBook(payload.value));
      resp := Respond(err, "failed to create book", r.ctx, true,
        Response(WriteJSON(201, BookJson(created)), Some(ItemPrefix + created.id), false));
    }

    method UpdateBook(r: Request, id: string) returns (resp: Response)
      requires store.Valid()
      modifies store
      ensures store.Valid()
      ensures Outcome(store.Model(), resp) == HandleUpdate(old(store.Model()), r, id)
    {
      var payload := ReadBookPayload(r.contentType, r.body);
      if payload.Failure? {
        return Plain(HandlePayloadError(payload.error));
      }
      var updated, ok, err := store.Update(id, PayloadBook(payload.value));
      resp := Respond(err, "failed to update book", r.ctx, ok, Plain(WriteJSON(200, BookJson(updated))));
    }

    method DeleteBook(r: Request, id: string) returns (resp: Response)
      requires store.Valid()
      modifies store
      ensures store.Valid()
      ensures Outcome(store.Model(), resp) == HandleDelete(old(store.Model()), r, id)
    {
      var deleted, err := store.Delete(id);
      resp := Respond(err, "failed to delete book", r.ctx, deleted, Plain([WriteHeader(204)]));
    }

    method BooksHandler(r: Request) returns (resp: Response)
      requires store.Valid()
      modifies store
      ensures store.Valid()
      ensures Outcome(store.Model(), resp) == RouteCollection(old(store.Model()), r)
    {
      if r.httpMethod == "GET" {
        resp := ListBooks(r);
      } else if r.httpMethod == "POST" {
        resp := CreateBook(r);
      } else {
        resp := Plain(WriteError(405, MethodNotAllowedMessage));
      }
    }

    method BookHandler(r: Request) returns (resp: Response)
      requires store.Valid()
      modifies store
      ensures store.Valid()
      ensures Outcome(store.Model(), resp) == RouteItem(old(store.Model()), r)
    {
      var id := ExtractID(GoStrings.TrimPrefix(r.path, CollectionPath));
      if id.Failure? {
        return Plain(WriteError(404, NotFoundMessage));
      }
      if r.httpMethod == "GET" {
        resp := GetBook(r, id.value);
      } else if r.httpMethod == "PUT" {
        resp := UpdateBook(r, id.value);
      } else if r.httpMethod == "DELETE" {
        resp := DeleteBook(r, id.value);
      } else {
        resp := Plain(WriteError(405, MethodNotAllowedMessage));
      }
    }

    /** The multiplexer dispatching to the three handlers. */
    method ServeMux(r: Request) returns (resp: Response)
      requires store.Valid()
      modifies store
      ensures store.Valid()
      ensures Outcome(store.Model(), resp) == Route(old(store.Model()), r)
    {
      if r.path == CollectionPath {
        resp := BooksHandler(r);
      } else if r.path == HealthPath {
        resp := Health(r);
      } else if GoStrings.HasPrefix(r.path, ItemPrefix) {
        resp := BookHandler(r);
      } else {
        resp := Plain(NotFoundPage);
      }
    }
  }
}
