# Book catalogue REST server: a verified model

This project models the core of a small Go REST server that keeps a catalogue
of books in memory.

- **Repository.** The in-memory repository (`internal/books/memory.go`) is a
  map from id to book plus a counter for the next id. It is modelled twice:
  - `Memory.Store`, a value with the functions `GetOp`, `CreateOp`,
    `UpdateOp` and `DeleteOp`, which state what each operation does;
  - the class `Memory.MemoryRepository`, whose fields the constructor and
    the methods update in place. Each method is proved to follow the
    corresponding function.
- **Repository invariant.** Every key that reads as an integer is below the
  counter. Every operation keeps it. It is why a create never overwrites a
  book.
- **HTTP layer.** The HTTP layer of `cmd/server/main.go` is modelled as
  follows:
  - reading the id from the path (`Requests.ExtractID`);
  - validating a create or update payload (`Requests.ReadBookPayload`);
  - mapping payload errors and finished contexts to status codes;
  - the order every store-calling handler follows (`Server.Respond`): store
    error 500, then context 504/408, then not found 404, then success;
  - the five handlers over the store, and the multiplexer's routing with its
    method switches;
  - the class `Server.Application`, whose methods call the repository object
    as the Go handlers do.
- **Requests.** A request carries its method, path, `Content-Type` and body,
  and its context's state when the handler checks it. It also carries two
  times, counted in milliseconds from the start of the request: when the
  parent context's error arrived, and when the handler checks the context.
  An error the check sees has arrived by then (`Requests.Timely`). The
  middleware's meaning is stated for such requests, and the timeout keeps
  the property.
- **Middleware** (`Middleware`):
  - `chain` is a backwards loop, and the first middleware it is given ends
    up outermost;
  - the timeout, logging and CORS middlewares are constructors of a
    `Handler` datatype, and `Serve` gives their meaning;
  - `responseRecorder` is a class whose status and size fields are updated
    in place.
- **Responses.** A response is the sequence of calls made on the
  `http.ResponseWriter` (`WriteHeader`, `Write`), plus the `Location` header
  and whether the CORS headers were set. `Requests.ClientStatus` is the
  status the client receives: net/http keeps the first `WriteHeader`, and a
  body written first means 200.
- **Go standard library.** The parts of it that the core relies on are
  written out in `Strconv` (`Atoi`, `Itoa`) and `GoStrings` (string `<`,
  `TrimSpace`, `Trim` with "/", `HasPrefix`, `TrimPrefix`).

Where the code and its documentation differ, the model follows the code:

- **Listing order.** `List` sorts ids by Go's string comparison, not by
  numeric value, so "10" is listed before "2" (`Scenarios.ListingIsStringOrder`).
- **Order of the middlewares.** `main` chains timeout, logging, CORS in that
  order, which makes timeout the outermost. An OPTIONS preflight therefore
  passes through the timeout and logging middlewares before CORS answers it,
  and it is logged with status 204 (`Middleware.PreflightAnswered`). It is
  not answered ahead of every other middleware.
- **Writes survive a timeout.** A create, update or delete changes the store
  before the handler looks at the context. When the client receives 504 or
  408, the change has still been made (`Server.CreateAppliedDespiteTimeout`).

## Model

| member | source | states |
|---|---|---|
| Strconv.NatToDecimal | internal/books/memory.go:66 | the decimal spelling of a natural number is a non-empty digit string with no leading zero whose value is that number |
| Strconv.Itoa | internal/books/memory.go:66 | the spelling is non-empty and starts with '-' exactly for negative numbers; after the sign it is a digit string whose value is the magnitude |
| Strconv.Atoi | internal/books/memory.go:27 | a non-empty digit string parses to its decimal value; only a non-empty string parses, and a negative result comes from a leading '-' |
| Strconv.AtoiItoa | internal/books/memory.go:27-28 | `Atoi` reads back every number `Itoa` writes, so the counter's key parses to the counter |
| Strconv.AtoiAlphabet | cmd/server/main.go:210 | a string `Atoi` accepts is non-empty and made of signs and digits only, so it contains no '/' |
| Strconv.ItoaInjective | internal/books/memory.go:66 | distinct numbers get distinct ids |
| GoStrings.LessIrreflexive | internal/books/memory.go:45-47 | no id sorts before itself |
| GoStrings.LessAsymmetric | internal/books/memory.go:45-47 | two ids are never each before the other |
| GoStrings.LessTransitive | internal/books/memory.go:45-47 | string order on ids is transitive |
| GoStrings.LessTotal | internal/books/memory.go:45-47 | any two different ids are ordered one way or the other |
| GoStrings.TrimLeftFunc | cmd/server/main.go:209 | the result is a suffix of the input that does not start with a cut character |
| GoStrings.TrimLeftCut | cmd/server/main.go:209 | every character the left trim drops is a cut character |
| GoStrings.TrimRightFunc | cmd/server/main.go:209 | the result is a prefix of the input that does not end with a cut character |
| GoStrings.TrimRightCut | cmd/server/main.go:209 | every character the right trim drops is a cut character |
| GoStrings.TrimFuncSplits | cmd/server/main.go:209 | trimming keeps a contiguous middle of the input, with both ends outside the cut set and only cut characters removed on either side |
| GoStrings.TrimFuncTrimmed | cmd/server/main.go:360-362 | neither end of a trimmed string is a cut character |
| GoStrings.TrimFuncIdentity | cmd/server/main.go:360-362 | trimming leaves a string unchanged if and only if neither of its ends is a cut character |
| GoStrings.TrimFuncIdempotent | cmd/server/main.go:360-362 | trimming twice is trimming once |
| GoStrings.TrimFuncPadding | cmd/server/main.go:209 | cut characters added around a trimmed non-empty string are removed again by trimming |
| GoStrings.TrimSpace | cmd/server/main.go:360-362 | the result is no longer than the input and neither of its ends is white space; the input comes back unchanged if and only if it was already trimmed |
| GoStrings.TrimPrefix | cmd/server/main.go:181 | with the prefix present the result is what follows it; otherwise the input is returned unchanged |
| Seed.SeedData | internal/books/seed.go:5-34 | four books with pairwise distinct ids, each with a non-empty, already trimmed title and author |
| Seed.SeedIdsDecimal | internal/books/seed.go:5-34 | the seed ids are "1" to "4" in order, the decimal spellings of 1 to 4 |
| Memory.Inv | internal/books/memory.go:27-28 | under the invariant, the id the counter spells is not yet a key, so the next create cannot overwrite a book |
| Memory.SeedStep | internal/books/memory.go:24-29 | one turn of the seeding loop stores the book under its id and leaves every other entry alone; the counter never goes down, ends above the id if the id parses, and either stays or becomes one past the id; the invariant is kept |
| Memory.Seeded | internal/books/memory.go:18-33 | the state seeding builds satisfies the repository invariant |
| Memory.GetOp | internal/books/memory.go:53-59 | found if and only if the id is a key; then the stored book, which carries that id; otherwise the zero book |
| Memory.CreateOp | internal/books/memory.go:62-71 | the caller's id is replaced by the decimal spelling of the old counter, which parses back to it; the counter rises by one; exactly that key is added, holding the returned book, and every other entry is unchanged; under the invariant the key was unused and the invariant holds afterwards |
| Memory.UpdateOp | internal/books/memory.go:74-85 | found if and only if the id is a key; a missing id changes nothing and returns the zero book; otherwise the book, with its id set to the path id, replaces that entry only; the keys and the counter are unchanged; the invariant is kept |
| Memory.DeleteOp | internal/books/memory.go:88-98 | found if and only if the id was a key; afterwards it is absent, every other entry is unchanged, the counter is unchanged and the invariant is kept |
| Memory.Insert | internal/books/memory.go:45-47 | inserting into a strictly sorted list by id keeps it sorted and adds exactly that book |
| Memory.SortByID | internal/books/memory.go:45-47 | sorting books with distinct ids gives the same books, strictly ascending by string id |
| Memory.Listing | internal/books/memory.go:36-50 | a map of books has a listing: each stored book once, ascending by string id |
| Memory.ListingExtend | internal/books/memory.go:41-47 | adding one stored book to a listing of the others lists them all |
| Memory.SortedSameElements | internal/books/memory.go:45-47 | two strictly sorted lists with the same books are equal |
| Memory.ListingUnique | internal/books/memory.go:36-50 | a map has only one listing, so what `List` returns does not depend on map iteration order |
| Memory.MemoryRepository.constructor | internal/books/memory.go:18-33 | the seeding loop builds exactly `Seeded(seed)`, which satisfies the invariant |
| Memory.MemoryRepository.List | internal/books/memory.go:36-50 | collects the map's values in any order and sorts them: each stored book exactly once, ascending by string id; no error; the state is unchanged |
| Memory.MemoryRepository.Get | internal/books/memory.go:53-59 | returns what `GetOp` states, with no error and no change |
| Memory.MemoryRepository.Create | internal/books/memory.go:62-71 | updates the fields as `CreateOp` states, keeps the invariant, and never overwrites an existing key; no error |
| Memory.MemoryRepository.Update | internal/books/memory.go:74-85 | updates the fields as `UpdateOp` states and keeps the invariant; no error |
| Memory.MemoryRepository.Delete | internal/books/memory.go:88-98 | updates the fields as `DeleteOp` states and keeps the invariant; no error |
| MemoryProperties.SeededKeys | internal/books/memory.go:24-25 | the seeded keys are exactly the ids of the seed books |
| MemoryProperties.SeededLastWins | internal/books/memory.go:24-25 | under an id, the map holds the last seed book with that id |
| MemoryProperties.SeededCounter | internal/books/memory.go:21-29 | the seeded counter is at least 1 and above every seed id that parses; it is 1, or one past such an id |
| MemoryProperties.CounterAbove | internal/books/memory.go:27-28 | the seeded counter lies above every seed id that parses |
| MemoryProperties.CounterReached | internal/books/memory.go:21-28 | the seeded counter is 1, or one past a seed id that parses |
| MemoryProperties.KeysSnoc | internal/books/memory.go:24-25 | storing one more seed book adds exactly its id to the ids of the books before it |
| MemoryProperties.AboveSnoc | internal/books/memory.go:27-28 | a counter that does not go down and ends above the new id stays above every id seen so far |
| MemoryProperties.ReachedSnoc | internal/books/memory.go:27-28 | a counter that either stays or becomes one past the new id is still 1 or one past a seed id |
| MemoryProperties.RunKeepsInv | internal/books/memory.go:62-98 | every sequence of creates, updates and deletes keeps the invariant |
| MemoryProperties.RunCounter | internal/books/memory.go:66-67 | after any sequence of writes the counter has risen by exactly the number of creates |
| MemoryProperties.IssuedConsecutive | internal/books/memory.go:66-67 | the ids that successive creates hand out parse to consecutive integers starting at the counter, so they strictly increase |
| MemoryProperties.IssuedDistinct | internal/books/memory.go:66-69 | no two creates ever receive the same id |
| MemoryProperties.NeverReissued | internal/books/memory.go:88-98 | an id present in a valid state is never handed out by a later create, even after it has been deleted |
| MemoryProperties.DeleteTwice | internal/books/memory.go:88-98 | a second delete of the same id reports not found and changes nothing |
| MemoryProperties.GetAfterCreate | internal/books/memory.go:62-71 | a get of the id a create assigned returns the created book |
| MemoryProperties.GetAfterUpdate | internal/books/memory.go:74-85 | a get after updating a present id returns the new book under the path id |
| MemoryProperties.GetAfterDelete | internal/books/memory.go:88-98 | a get after a delete finds nothing |
| Requests.WriteJSON | cmd/server/main.go:407-414 | a status line, then the body; the client receives that status, and a three-digit status gives a well-formed response |
| Requests.WriteError | cmd/server/main.go:401-404 | a status line and then the JSON error body with the message; the client receives that status, and a three-digit status gives a well-formed response |
| Requests.ExtractID | cmd/server/main.go:200-215 | fails with "missing id" if and only if the path is shorter than 2; fails with "invalid path" if and only if it is long enough but does not start with '/'; a result is non-empty and contains no '/' |
| Requests.ExtractIDInverse | cmd/server/main.go:200-215 | every non-empty id without '/' comes back from "/" + id, however many slashes surround it |
| Requests.ExtractSlashId | cmd/server/main.go:200-215 | "/" + id gives back id |
| Requests.ExtractIDSound | cmd/server/main.go:200-215 | every successful extraction comes from a path of that form |
| Requests.SlashPadding | cmd/server/main.go:209 | a string is its slash-trimmed middle with a run of slashes on each side |
| Requests.ExtractIDExamples | cmd/server/main_test.go:11-38 | "/5" gives "5"; "/5/more", "5" and "/" fail |
| Requests.ReadBookPayload | cmd/server/main.go:343-369 | a Content-Type without the "application/json" prefix fails as unsupported media type, whatever the body; success if and only if the prefix is present, the body decodes, and the trimmed title and author are non-empty; the accepted values are the trimmed fields, and each is trimmed |
| Requests.ReadBookPayloadFixpoint | cmd/server/main.go:360-366 | an accepted payload, sent again, is accepted unchanged |
| Requests.AcceptedAsIs | cmd/server/main.go:360-366 | a JSON payload whose fields are already trimmed and whose title and author are non-empty is accepted exactly as sent |
| Requests.HandlePayloadError | cmd/server/main.go:372-383 | 415 for an unsupported media type, 400 for every other failure, always with a JSON error body |
| Requests.ContextDone | cmd/server/main.go:386-399 | writes nothing if and only if the context has no error; 504 when the deadline passed, 408 when canceled or on any other error |
| Server.Respond | cmd/server/main.go:233-250 | a store error gives 500, else a finished context gives 504/408, else not found gives 404, else the success response; the exact response in each case |
| Server.ContextOverridesResult | cmd/server/main.go:240-247 | once the context is done, the store's answer makes no difference to the response, and no `Location` is sent |
| Server.PayloadBook | cmd/server/main.go:260-265 | the book built from a payload has an empty id and the payload's title, author, ISBN and year |
| Server.HandleList | cmd/server/main.go:218-230 | the store is unchanged; 200 with the listing, or the context's status |
| Server.HandleGet | cmd/server/main.go:233-250 | the store is unchanged; 200 with the stored book, 404 for a missing id, or the context's status |
| Server.HandleCreate | cmd/server/main.go:253-279 | an invalid payload answers 415/400 and leaves the store alone; a valid one is stored whatever the context; the response is 201 with the created book and `Location` "/api/books/<id>", or the context's status |
| Server.HandleUpdate | cmd/server/main.go:282-312 | an invalid payload answers 415/400 and leaves the store alone; a valid one is applied as `UpdateOp` states; the response is 200, 404 for a missing id, or the context's status |
| Server.HandleDelete | cmd/server/main.go:315-332 | the key is removed whatever the context; the response is a bare 204, 404 for a missing id, or the context's status |
| Server.Health | cmd/server/main.go:157-165 | GET writes the body with no explicit status, so the client receives 200; any other method gives 405 |
| Server.RouteCollection | cmd/server/main.go:168-177 | GET lists, POST creates, any other method gives 405 and leaves the store alone |
| Server.RouteItem | cmd/server/main.go:180-197 | a path without a valid id gives 404 before the method is looked at; GET reads, PUT updates, DELETE deletes; any other method gives 405 |
| Server.Route | cmd/server/main.go:72-75 | the three registered patterns are dispatched, and any other path gets net/http's 404 page; every response is well formed and the store invariant is kept |
| Server.RejectedLeavesStore | cmd/server/main.go:168-197 | a request answered 400, 404, 405 or 415 leaves the store exactly as it was |
| Server.CreateRejected | cmd/server/main.go:254-258 | a create answered 400, 404, 405 or 415 was refused before the store was called (a 408 can follow a write that was made) |
| Server.UpdateRejected | cmd/server/main.go:283-309 | an update answered 400, 404, 405 or 415 changed nothing |
| Server.DeleteRejected | cmd/server/main.go:316-329 | a delete answered 404 removed nothing |
| Server.ItemRejected | cmd/server/main.go:180-197 | an item request answered 400, 404, 405 or 415 changed nothing |
| Server.CounterOnlyOnCreate | cmd/server/main.go:168-197 | only a POST to the collection moves the id counter, and by exactly one |
| Server.GetIsReadOnly | cmd/server/main.go:218-250 | a GET never changes the store |
| Server.CreateAppliedDespiteTimeout | cmd/server/main.go:267-275 | a valid create whose context is done gets 504/408 and no `Location`, yet the book is stored and the counter moves |
| Server.LocationRoutesBack | cmd/server/main.go:277-278 | a GET at the `Location` of a 201 answers 200 with the created book, whose id was not in use before |
| Server.LocationId | cmd/server/main.go:181 | the item path of a non-empty id without '/' is routed to the item handler and reads back as that id |
| Server.ItemPath | cmd/server/main.go:181 | an item path matches only the item pattern, and is the collection path followed by "/" and the id |
| Server.Application.constructor | cmd/server/main.go:27-30 | the application holds the given repository and timeout |
| Server.Application.ListBooks | cmd/server/main.go:218-230 | calling the repository object gives exactly what `HandleList` states |
| Server.Application.GetBook | cmd/server/main.go:233-250 | calling the repository object gives exactly what `HandleGet` states |
| Server.Application.CreateBook | cmd/server/main.go:253-279 | the repository's new state and the response are what `HandleCreate` states, and the invariant is kept |
| Server.Application.UpdateBook | cmd/server/main.go:282-312 | the repository's new state and the response are what `HandleUpdate` states, and the invariant is kept |
| Server.Application.DeleteBook | cmd/server/main.go:315-332 | the repository's new state and the response are what `HandleDelete` states, and the invariant is kept |
| Server.Application.BooksHandler | cmd/server/main.go:168-177 | behaves as `RouteCollection` states |
| Server.Application.BookHandler | cmd/server/main.go:180-197 | behaves as `RouteItem` states |
| Server.Application.ServeMux | cmd/server/main.go:72-75 | behaves as `Route` states |
| Middleware.NestAppend | cmd/server/main.go:60-65 | wrapping in `ms + more` is wrapping in `more`, then in `ms` |
| Middleware.Chain | cmd/server/main.go:60-65 | the backwards loop wraps the handler so that the first middleware listed is the outermost |
| Middleware.TimeoutMiddleware | cmd/server/main.go:113-120 | the middleware wraps any handler in a timeout of the given length around that handler |
| Middleware.BuildServerHandler | cmd/server/main.go:80 | the server's handler, built from the application's timeout, is timeout around logging around CORS around the multiplexer |
| Middleware.SetUp | cmd/server/main.go:68-80 | start-up builds a fresh repository holding exactly the seeded state, with the invariant, an application with a ten-second timeout, and the server's handler |
| Middleware.RecordedLastHeader | cmd/server/main.go:43-46 | the recorder holds the last header code written, whatever bodies follow it |
| Middleware.RecordedBodiesOnly | cmd/server/main.go:49-52 | when only bodies are written, the recorder holds 200 once anything was written, and 0 otherwise |
| Middleware.LoggedStatus | cmd/server/main.go:130-133 | the logged status is never 0: it is the recorded status, or 200 when none was recorded |
| Middleware.LoggedIsClientStatus | cmd/server/main.go:130-133 | for a well-formed response, the logged status (0 read as 200) is the status the client receives |
| Middleware.ResponseRecorder.constructor | cmd/server/main.go:126 | a fresh recorder has status 0 and size 0 |
| Middleware.ResponseRecorder.WriteHeader | cmd/server/main.go:43-46 | records the code as the status and passes the call on; the size is unchanged |
| Middleware.ResponseRecorder.Write | cmd/server/main.go:49-57 | a status still 0 becomes 200; the body is passed on and the reported byte count is added to the size, which stays the sum of all counts |
| Middleware.SumAppend | cmd/server/main.go:55 | adding one more byte count adds it to the total size |
| Middleware.StatusToLog | cmd/server/main.go:130-133 | the logged status is the recorded one, with 0 read as 200; for a well-formed response it equals the client's status |
| Middleware.WithTimeout | cmd/server/main.go:115 | the derived context has no error if and only if the parent has none and the timeout has not elapsed; whichever error came first wins: a parent's error that arrived before the deadline is kept, and once the deadline has passed with no earlier parent error the context reports it |
| Middleware.WithDeadline | cmd/server/main.go:115-119 | the handler inside the timeout sees a request that differs only in its context: it has no error if and only if the parent had none and the timeout has not elapsed, and an error it sees arrived no later than the check |
| Middleware.Serve | cmd/server/main.go:113-154 | answering through any chain of middlewares keeps the store invariant and gives a well-formed response |
| Middleware.LoggingReportsClientStatus | cmd/server/main.go:123-137 | the logging middleware adds exactly one log line, which carries the status the client received, and changes nothing else |
| Middleware.PreflightAnswered | cmd/server/main.go:147-150 | an OPTIONS request through the server's handler is answered with a bare 204 and the CORS headers, reaches no handler, leaves the store alone and is logged as 204 |
| Middleware.RequestServed | cmd/server/main.go:140-154 | any other request is routed once with the timeout's context; the response gains the CORS headers and one log line records its status |
| Middleware.SlowListTimesOut | cmd/server/main.go:113-120 | a listing still running after ten seconds answers 504, and 504 is logged |
| Middleware.ListAfterDisconnect | cmd/server/main.go:113-120 | a listing whose client went away answers 408 if that happened before the ten-second deadline and 504 otherwise; that status is logged and the store is unchanged |
| Scenarios.SeededServer | internal/books/seed.go:5-34 | the seeded repository holds ids "1" to "4" and hands out "5" next |
| Scenarios.SeedFour | internal/books/memory.go:18-33 | seeding four books whose ids read as 1 to 4 stores exactly those ids and leaves the counter at 5 |
| Scenarios.FourKeys | internal/books/memory.go:24-25 | the ids of a four-book seed are the set of its four ids |
| Scenarios.FourCounter | internal/books/memory.go:27-28 | a counter above the ids 1 to 4 that is 1 or one past one of them is 5 |
| Scenarios.SamplePayloadAccepted | cmd/server/main_test.go:40-53 | the test's JSON body, with title "Go", author "Someone", ISBN "1" and year 2020, is accepted unchanged |
| Scenarios.CreateOnSeededServer | cmd/server/main.go:253-279 | on a store whose counter is 5, a valid POST to the collection answers 201 with `Location` "/api/books/5", and the counter becomes 6 |
| Scenarios.CreateAtFive | cmd/server/main.go:253-279 | the create handler on a store whose counter is 5 answers 201 at "/api/books/5" |
| Scenarios.PostReachesCreate | cmd/server/main.go:172-173 | a POST to the collection path is handled by the create handler |
| Scenarios.CreateAnswered | cmd/server/main.go:277-278 | a valid create with time to spare answers 201 at the item path of the new id |
| Scenarios.CreateFifth | internal/books/memory.go:66 | a store whose counter is 5 names its next book "5" |
| Scenarios.ListingIsStringOrder | internal/books/memory.go:45-47 | books with ids "2" and "10" are listed with "10" first |
| Scenarios.DeleteDoesNotFreeId | internal/books/memory.go:88-98 | after create, delete "2", create on the seeded state, the new ids are "5" and "6", the keys are "1", "3", "4", "5", "6", and the counter is 7 |
| Scenarios.ListedAfterDelete | internal/books/memory.go:36-50 | that state lists its books in the order "1", "3", "4", "5", "6" |
| Scenarios.FiveAscending | internal/books/memory.go:45-47 | the ids "1", "3", "4", "5", "6" in that order are strictly ascending in string order |
| Scenarios.FiveCovered | internal/books/memory.go:36-50 | those five books, each once and in ascending order, are a listing of the store |
| Scenarios.RunFromSeededState | internal/books/memory.go:62-98 | from any valid store with keys "1" to "4" and counter 5, create, delete "2", create hands out "5" then "6", keeps the invariant, and lists "1", "3", "4", "5", "6" |
| Scenarios.SeedDataScenario | internal/books/seed.go:5-34 | the same run from the state the server starts in, `NewMemoryRepository(SeedData())` |

## Left out

- Locking: the `sync.RWMutex` is not modelled. Each repository method is one atomic step, and concurrent requests are not modelled.
- The `Repository` interface (internal/books/book.go:14-20) is not modelled as an abstraction. The handlers are modelled over the in-memory store, which never reports an error. The 500 path is stated in `Server.Respond`, and the `Application` methods pass the store's error flag to it.
- JSON: encoding and decoding, `io.ReadAll` and the 1 MiB `io.LimitReader` are library code. A request body arrives already classified as unreadable, malformed or decoded, and a body the server writes is a `Content` value, not bytes.
- HTTP headers: the `Content-Type: application/json` response header and the four CORS header values are not modelled. A response records only whether the CORS headers were set.
- Process plumbing: `main`'s server start-up, `ListenAndServe`, the signal handling and `shutdown` are not modelled. `Middleware.BuildServerHandler` models the handler `main` builds, and `Server.Route` models the multiplexer it registers.
- Timing and cancellation:
  - Real timers and cancellation delivery are not modelled.
  - A request carries its parent context's state, the millisecond that state's error arrived, and the millisecond the handler checks its context.
  - `Middleware.WithTimeout` derives the state the handler sees.
- Logging: the log line keeps the method, path and status. Its format, the response size and the duration are not modelled.
- Unicode: Go compares and trims UTF-8 bytes, and the model works on Unicode scalar values. Go's `strings.TrimSpace` also treats invalid UTF-8 specially, which is not modelled.
- Strconv.Atoi: does not model the 64-bit range check, because integers are unbounded here. A numeral outside the 64-bit range parses instead of failing: every numeral from 9223372036854775808 upward (19 digits or more) and every one below -9223372036854775808. Only seed ids can be that long.
- Memory.CreateOp: the counter is an unbounded integer. In Go, `nextID++` (internal/books/memory.go:67) and `id + 1` (internal/books/memory.go:28) wrap around at `math.MaxInt64`. After that wrap, a create would hand out a negative id, and the invariant (every parsing key below the counter) would no longer hold. The model has no such wrap, so this case is not covered. It needs the counter to reach `math.MaxInt64`: about 2^63 creates from 1, or fewer after a seed id near `math.MaxInt64` (a seed id of 9223372036854775806 makes the second create hand out "-9223372036854775808").
- Memory.SeedStep: does not model the wrap of `id + 1` when a seed id is exactly `math.MaxInt64`, for the reason given for `Memory.CreateOp`.
- Middleware.WithTimeout: when the parent's error and the deadline arrive at the same instant, Go's outcome depends on which goroutine cancels first. The model takes the deadline in that case.
- Memory.MemoryRepository.List: the result is built and then sorted on a sequence (insertion sort). `sort.Slice`'s in-place algorithm is not modelled. Ids are distinct, so the order it produces is fully determined.
- net/http's `ServeMux` path cleaning and redirects are not modelled. A path is routed as it arrives, and a path matching no pattern gets the 404 page.
- Server.HandleUpdate: states the response status, and the exact body only through `Server.Respond`, not in its own contract.
