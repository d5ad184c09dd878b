/**
 * The in-memory book repository of internal/books/memory.go: a map from id to
 * book and a counter for the next id. `Store` is the repository's state as a
 * value and the `...Op` functions say what each operation does to it;
 * `MemoryRepository` is the object the server holds, whose methods update its
 * two fields in place and are proved to follow those functions. Each method is
 * one atomic step: the readers-writer lock is not modelled.
 */
module Memory {
  import opened Wrappers
  import opened Books
  import Strconv
  import GoStrings

  datatype Store = Store(books: map<string, Book>, nextID: int)

  /** A key that reads as an integer reads as one below the counter. */
  predicate BelowCounter(key: string, nextID: int) {
    Strconv.Atoi(key).Some? ==> Strconv.Atoi(key).value < nextID
  }

  /** Every stored book carries the key it is stored under. */
  predicate KeyedById(books: map<string, Book>) {
    forall k :: k in books ==> books[k].id == k
  }

  /** The repository invariant: it is why `Create` never overwrites an entry. */
  predicate Inv(s: Store)
    ensures Inv(s) ==> Strconv.Itoa(s.nextID) !in s.books
  {
    Strconv.AtoiItoa(s.nextID);
    && s.nextID >= 1
    && KeyedById(s.books)
    && (forall k :: k in s.books ==> BelowCounter(k, s.nextID))
  }

  // ---------------------------------------------------------------------------
  // Construction

  /** One turn of the seeding loop: store the book, then raise the counter past its id. */
  function SeedStep(s: Store, book: Book): (r: Store)
    ensures r.books.Keys == s.books.Keys + {book.id} && r.books[book.id] == book
    ensures forall k :: k in s.books && k != book.id ==> r.books[k] == s.books[k]
    ensures r.nextID >= s.nextID
    ensures Strconv.Atoi(book.id).Some? ==> Strconv.Atoi(book.id).value < r.nextID
    ensures r.nextID == s.nextID || Strconv.Atoi(book.id) == Some(r.nextID - 1)
    ensures Inv(s) ==> Inv(r)
  {
    var parsed := Strconv.Atoi(book.id);
    Store(s.books[book.id := book],
          if parsed.Some? && parsed.value >= s.nextID then parsed.value + 1 else s.nextID)
  }

  /** The state `NewMemoryRepository(seed)` builds: an empty map and counter 1, then every seed book in order. */
  function Seeded(seed: seq<Book>): (s: Store)
    ensures Inv(s)
  {
    if |seed| == 0 then Store(map[], 1)
    else SeedStep(Seeded(seed[..|seed| - 1]), seed[|seed| - 1])
  }

  // ---------------------------------------------------------------------------
  // Operations on the state

  datatype GetResult = GetResult(book: Book, found: bool)

  /** `Get`: the stored book and true, or the zero book and false. */
  function GetOp(s: Store, id: string): (r: GetResult)
    ensures r.found <==> id in s.books
    ensures r.found ==> r.book == s.books[id]
    ensures !r.found ==> r.book == ZeroBook
    ensures Inv(s) && r.found ==> r.book.id == id
  {
    if id in s.books then GetResult(s.books[id], true) else GetResult(ZeroBook, false)
  }

  datatype CreateResult = CreateResult(store: Store, created: Book)

  /**
   * `Create`: the caller's id is replaced by the decimal spelling of the
   * counter, the counter goes up by one and exactly that key is added; under the
   * invariant the key was not in use.
   */
  function CreateOp(s: Store, book: Book): (r: CreateResult)
    ensures r.created == book.(id := r.created.id)
    ensures r.created.id == Strconv.Itoa(s.nextID)
    ensures Strconv.Atoi(r.created.id) == Some(s.nextID)
    ensures r.store.nextID == s.nextID + 1
    ensures r.store.books.Keys == s.books.Keys + {r.created.id}
    ensures r.store.books[r.created.id] == r.created
    ensures forall k :: k in s.books && k != r.created.id ==> r.store.books[k] == s.books[k]
    ensures Inv(s) ==> r.created.id !in s.books && Inv(r.store)
  {
    var created := book.(id := Strconv.Itoa(s.nextID));
    Strconv.AtoiItoa(s.nextID);
    CreateResult(Store(s.books[created.id := created], s.nextID + 1), created)
  }

  datatype UpdateResult = UpdateResult(store: Store, book: Book, found: bool)

  /**
   * `Update`: on a missing id nothing changes and the zero book is returned;
   * otherwise the book, with its id forced to the path id, replaces the entry.
   */
  function UpdateOp(s: Store, id: string, book: Book): (r: UpdateResult)
    ensures r.found <==> id in s.books
    ensures !r.found ==> r.store == s && r.book == ZeroBook
    ensures r.store.books.Keys == s.books.Keys && r.store.nextID == s.nextID
    ensures r.found ==> r.book == book.(id := id) && r.store.books[id] == r.book
    ensures forall k :: k in s.books && k != id ==> r.store.books[k] == s.books[k]
    ensures Inv(s) ==> Inv(r.store)
  {
    if id !in s.books then UpdateResult(s, ZeroBook, false)
    else
      var updated := book.(id := id);
      UpdateResult(Store(s.books[id := updated], s.nextID), updated, true)
  }

  datatype DeleteResult = DeleteResult(store: Store, found: bool)

  /** `Delete`: reports whether the key was there; afterwards it is not, and nothing else moves. */
  function DeleteOp(s: Store, id: string): (r: DeleteResult)
    ensures r.found <==> id in s.books
    ensures id !in r.store.books && r.store.books.Keys == s.books.Keys - {id}
    ensures forall k :: k in r.store.books ==> r.store.books[k] == s.books[k]
    ensures r.store.nextID == s.nextID
    ensures Inv(s) ==> Inv(r.store)
  {
    DeleteResult(Store(s.books - {id}, s.nextID), id in s.books)
  }

  // ---------------------------------------------------------------------------
  // Listing: the stored books ordered by Go's string comparison of their ids

  predicate StrictlySortedByID(s: seq<Book>) {
    forall i, j :: 0 <= i < j < |s| ==> GoStrings.Less(s[i].id, s[j].id)
  }

  predicate DistinctIDs(s: seq<Book>) {
    forall i, j :: 0 <= i < j < |s| ==> s[i].id != s[j].id
  }

  /** `r` lists each book of `books` once, ascending by id as strings ("10" before "2"). */
  predicate IsListing(books: map<string, Book>, r: seq<Book>) {
    && |r| == |books|
    && StrictlySortedByID(r)
    && (forall x :: x in r ==> x.id in books && books[x.id] == x)
    && (forall k :: k in books ==> books[k] in r)
  }

  /** Everything in a sorted sequence lies above anything below its head. */
  lemma {:induction false} BelowHead(a: string, s: seq<Book>)
    requires StrictlySortedByID(s) && (|s| > 0 ==> GoStrings.Less(a, s[0].id))
    ensures forall x :: x in s ==> GoStrings.Less(a, x.id)
  {
    forall x | x in s
      ensures GoStrings.Less(a, x.id)
    {
      var j :| 0 <= j < |s| && s[j] == x;
      if j > 0 {
        GoStrings.LessTransitive(a, s[0].id, x.id);
      }
    }
  }

  /** One step of insertion sort by id. */
  function Insert(book: Book, s: seq<Book>): (r: seq<Book>)
    requires StrictlySortedByID(s)
    requires forall x :: x in s ==> x.id != book.id
    ensures StrictlySortedByID(r)
    ensures forall x :: x in r <==> x == book || x in s
    ensures |r| == |s| + 1
  {
    if |s| == 0 || GoStrings.Less(book.id, s[0].id) then
      BelowHead(book.id, s);
      [book] + s
    else
      var rest := Insert(book, s[1..]);
      GoStrings.LessTotal(book.id, s[0].id);
      assert StrictlySortedByID(s[1..]);
      assert forall x :: x in rest ==> GoStrings.Less(s[0].id, x.id) by {
        forall x | x in rest
          ensures GoStrings.Less(s[0].id, x.id)
        {
          if x != book {
            var j :| 0 <= j < |s[1..]| && s[1..][j] == x;
            assert s[j + 1] == x;
          }
        }
      }
      [s[0]] + rest
  }

  /**
   * The effect of `sort.Slice` with the comparator `ID < ID` on books with
   * distinct ids: the same books, strictly ascending by id.
   */
  function SortByID(s: seq<Book>): (r: seq<Book>)
    requires DistinctIDs(s)
    ensures StrictlySortedByID(r)
    ensures forall x :: x in r <==> x in s
    ensures |r| == |s|
  {
    if |s| == 0 then []
    else
      var init := s[..|s| - 1];
      assert DistinctIDs(init);
      assert forall x :: x in init ==> x.id != s[|s| - 1].id;
      Insert(s[|s| - 1], SortByID(init))
  }

  /** The result `List` returns on a state, fixed once the map is. */
  ghost function Listing(books: map<string, Book>): (r: seq<Book>)
    requires KeyedById(books)
    ensures IsListing(books, r)
    decreases |books|
  {
    if |books| == 0 then []
    else
      var k :| k in books;
      var rest := books - {k};
      assert rest.Keys == books.Keys - {k};
      ListingExtend(books, k, Listing(rest));
      Insert(books[k], Listing(rest))
  }

  /** Inserting the book under `k` into a listing of the other keys lists them all. */
  lemma ListingExtend(books: map<string, Book>, k: string, listed: seq<Book>)
    requires KeyedById(books) && k in books
    requires IsListing(books - {k}, listed)
    ensures forall x :: x in listed ==> x.id != books[k].id
    ensures IsListing(books, Insert(books[k], listed))
  {
    var r := Insert(books[k], listed);
    forall k' | k' in books
      ensures books[k'] in r
    {
      if k' != k {
        assert (books - {k})[k'] == books[k'];
      }
    }
  }

  /** Two strictly sorted sequences with the same elements are the same sequence. */
  lemma {:induction false} SortedSameElements(a: seq<Book>, b: seq<Book>)
    requires StrictlySortedByID(a) && StrictlySortedByID(b)
    requires forall x :: x in a <==> x in b
    requires |a| == |b|
    ensures a == b
  {
    if |a| > 0 {
      assert a[0] in b;
      var p :| 0 <= p < |b| && b[p] == a[0];
      if p > 0 {
        assert b[0] in a;
        var q :| 0 <= q < |a| && a[q] == b[0];
        GoStrings.LessIrreflexive(b[0].id);
        assert q > 0;
        GoStrings.LessAsymmetric(a[0].id, b[0].id);
      }
      assert a[0] == b[0];
      forall x
        ensures x in a[1..] <==> x in b[1..]
      {
        GoStrings.LessIrreflexive(x.id);
        if x in a[1..] {
          var i :| 1 <= i < |a| && a[i] == x;
          assert x in a && x in b;
          var j :| 0 <= j < |b| && b[j] == x;
          assert j != 0;
          assert b[1..][j - 1] == x;
        }
        if x in b[1..] {
          var i :| 1 <= i < |b| && b[i] == x;
          assert x in b && x in a;
          var j :| 0 <= j < |a| && a[j] == x;
          assert j != 0;
          assert a[1..][j - 1] == x;
        }
      }
      SortedSameElements(a[1..], b[1..]);
      assert a == [a[0]] + a[1..] && b == [b[0]] + b[1..];
    }
  }

  /** A map has exactly one listing, so `List`'s result is determined by the state alone. */
  lemma ListingUnique(books: map<string, Book>, a: seq<Book>, b: seq<Book>)
    requires IsListing(books, a) && IsListing(books, b)
    ensures a == b
  {
    SortedSameElements(a, b);
  }

  // ---------------------------------------------------------------------------
  // The repository object

  class MemoryRepository {
    var books: map<string, Book>
    var nextID: int

    function Model(): Store
      reads this
    {
      Store(books, nextID)
    }

    predicate Valid()
      reads this
    {
      Inv(Model())
    }

    /** `NewMemoryRepository(seed)`. */
    constructor (seed: seq<Book>)
      ensures Model() == Seeded(seed)
      ensures Valid()
    {
      books := map[];
      nextID := 1;
      new;
      for i := 0 to |seed|
        invariant Model() == Seeded(seed[..i])
      {
        var book := seed[i];
        books := books[book.id := book];
        var parsed := Strconv.Atoi(book.id);
        if parsed.Some? && parsed.value >= nextID {
          nextID := parsed.value + 1;
        }
        assert seed[..i + 1][..i] == seed[..i];
      }
      assert seed[..|seed|] == seed;
    }

    /**
     * `List`: gathers the values of the map in whatever order iteration yields
     * them, then sorts by id. Never fails and changes nothing.
     */
    method List() returns (result: seq<Book>, err: bool)
      requires Valid()
      ensures !err
      ensures IsListing(books, result)
      ensures result == Listing(books)
    {
      var collected: seq<Book> := [];
      var pending := books.Keys;
      while pending != {}
        invariant pending <= books.Keys
        invariant |collected| == |books| - |pending|
        invariant forall x :: x in collected ==> x.id in books && x.id !in pending && books[x.id] == x
        invariant forall k :: k in books && k !in pending ==> books[k] in collected
        invariant DistinctIDs(collected)
        decreases pending
      {
        var k :| k in pending;
        collected := collected + [books[k]];
        pending := pending - {k};
      }
      result := SortByID(collected);
      ListingUnique(books, result, Listing(books));
      err := false;
    }

    /** `Get`. */
    method Get(id: string) returns (book: Book, ok: bool, err: bool)
      ensures GetResult(book, ok) == GetOp(Model(), id)
      ensures !err
    {
      if id in books {
        book, ok := books[id], true;
      } else {
        book, ok := ZeroBook, false;
      }
      err := false;
    }

    /** `Create`. */
    method Create(book: Book) returns (created: Book, err: bool)
      requires Valid()
      modifies this
      ensures CreateResult(Model(), created) == CreateOp(old(Model()), book)
      ensures Valid() && created.id !in old(books)
      ensures !err
    {
      created := book.(id := Strconv.Itoa(nextID));
      nextID := nextID + 1;
      books := books[created.id := created];
      err := false;
    }

    /** `Update`. */
    method Update(id: string, book: Book) returns (updated: Book, ok: bool, err: bool)
      requires Valid()
      modifies this
      ensures UpdateResult(Model(), updated, ok) == UpdateOp(old(Model()), id, book)
      ensures Valid()
      ensures !err
    {
      if id !in books {
        return ZeroBook, false, false;
      }
      updated := book.(id := id);
      books := books[id := updated];
      return updated, true, false;
    }

    /** `Delete`. */
    method Delete(id: string) returns (deleted: bool, err: bool)
      requires Valid()
      modifies this
      ensures DeleteResult(Model(), deleted) == DeleteOp(old(Model()), id)
      ensures Valid()
      ensures !err
    {
      if id !in books {
        return false, false;
      }
      books := books - {id};
      return true, false;
    }
  }
}
