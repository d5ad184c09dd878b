/** Concrete runs of the model: the seeded server and the order of its listing. */
module Scenarios {
  import opened Wrappers
  import opened Books
  import opened Memory
  import opened Requests
  import opened Server
  import Seed
  import Strconv
  import GoStrings
  import MemoryProperties

  /** The seeded repository holds ids "1" to "4" and hands out "5" next. */
  lemma SeededServer()
    ensures var s := Seeded(Seed.SeedData());
      s.books.Keys == {"1", "2", "3", "4"} && s.nextID == 5
  {
    var seed := Seed.SeedData();
    var a, b, c, d := seed[0], seed[1], seed[2], seed[3];
    assert a.id == "1" && b.id == "2" && c.id == "3" && d.id == "4";
    OneDigit(a.id);
    OneDigit(b.id);
    OneDigit(c.id);
    OneDigit(d.id);
    SeedFour(seed);
  }

  /** Four books whose ids read as 1, 2, 3 and 4 seed exactly those keys and leave the counter at 5. */
  lemma SeedFour(seed: seq<Book>)
    requires |seed| == 4
    requires Strconv.Atoi(seed[0].id) == Some(1) && Strconv.Atoi(seed[1].id) == Some(2)
    requires Strconv.Atoi(seed[2].id) == Some(3) && Strconv.Atoi(seed[3].id) == Some(4)
    ensures Seeded(seed).books.Keys == {seed[0].id, seed[1].id, seed[2].id, seed[3].id}
    ensures Seeded(seed).nextID == 5
  {
    MemoryProperties.SeededKeys(seed);
    FourKeys(seed, Seeded(seed).books.Keys);
    MemoryProperties.SeededCounter(seed);
    FourCounter(seed, Seeded(seed).nextID);
  }

  /** The keys named by a seed of four books are those four ids. */
  lemma FourKeys(seed: seq<Book>, keys: set<string>)
    requires |seed| == 4
    requires MemoryProperties.IdsOf(seed, keys)
    ensures keys == {seed[0].id, seed[1].id, seed[2].id, seed[3].id}
  {
    var ids := {seed[0].id, seed[1].id, seed[2].id, seed[3].id};
    forall k | k in ids ensures k in keys {
      var i :| 0 <= i < 4 && seed[i].id == k;
    }
  }

  /** A counter above ids 1 to 4 and reached by one of them is 5. */
  lemma FourCounter(seed: seq<Book>, n: int)
    requires |seed| == 4
    requires Strconv.Atoi(seed[0].id) == Some(1) && Strconv.Atoi(seed[1].id) == Some(2)
    requires Strconv.Atoi(seed[2].id) == Some(3) && Strconv.Atoi(seed[3].id) == Some(4)
    requires forall i :: 0 <= i < |seed| && Strconv.Atoi(seed[i].id).Some? ==> Strconv.Atoi(seed[i].id).value < n
    requires MemoryProperties.Reached(seed, n)
    ensures n == 5
  {
    assert Strconv.Atoi(seed[3].id).value < n;
    var i :| 0 <= i < |seed| && Strconv.Atoi(seed[i].id) == Some(n - 1);
  }

  /** A one-digit id reads as its digit. */
  lemma OneDigit(id: string)
    requires |id| == 1 && Strconv.IsDigit(id[0])
    ensures Strconv.Atoi(id) == Some(Strconv.DigitValue(id[0]))
  {
    assert id[..0] == "";
    assert Strconv.AllDigits(id);
    assert Strconv.DecimalValue(id) == Strconv.DecimalValue(id[..0]) * 10 + Strconv.DigitValue(id[0]);
  }

  /** The body of the unit test of `readBookPayload`. */
  const SamplePayload := BookPayload("Go", "Someone", "1", 2020)

  /** That body, sent as JSON, is accepted with title "Go" and author "Someone". */
  lemma SamplePayloadAccepted()
    ensures ReadBookPayload(JsonMediaType, Decoded(SamplePayload)) == Success(SamplePayload)
    ensures SamplePayload.title == "Go" && SamplePayload.author == "Someone"
  {
    var p := SamplePayload;
    assert p.title[0] == 'G' && p.title[|p.title| - 1] == 'o';
    assert p.author[0] == 'S' && p.author[|p.author| - 1] == 'e';
    assert p.isbn[0] == '1';
    assert GoStrings.HasPrefix(JsonMediaType, JsonMediaType);
    AcceptedAsIs(JsonMediaType, p);
  }

  /**
   * The next valid create on a store whose counter is 5, as on the freshly
   * seeded server (`SeededServer`), is stored as "5" and announced at
   * "/api/books/5"; `SamplePayloadAccepted` gives one such request.
   */
  lemma CreateOnSeededServer(s: Store, r: Request)
    requires Inv(s) && s.nextID == 5
    requires r.httpMethod == "POST" && r.path == CollectionPath && r.ctx == NoError
    requires ReadBookPayload(r.contentType, r.body).Success?
    ensures ClientStatus(Route(s, r).response.events) == 201
    ensures Route(s, r).response.location == Some(ItemPrefix + "5")
    ensures Route(s, r).store.nextID == 6
  {
    PostReachesCreate(s, r);
    CreateAtFive(s, r);
  }

  lemma CreateAtFive(s: Store, r: Request)
    requires s.nextID == 5 && r.ctx == NoError
    requires ReadBookPayload(r.contentType, r.body).Success?
    ensures ClientStatus(HandleCreate(s, r).response.events) == 201
    ensures HandleCreate(s, r).response.location == Some(ItemPrefix + "5")
    ensures HandleCreate(s, r).store.nextID == 6
  {
    var p := ReadBookPayload(r.contentType, r.body).value;
    CreateFifth(s, PayloadBook(p));
    var id := CreateAnswered(s, r);
  }

  /** A POST to the collection path is handled by `createBook`. */
  lemma PostReachesCreate(s: Store, r: Request)
    requires Inv(s) && r.httpMethod == "POST" && r.path == CollectionPath
    ensures Route(s, r) == HandleCreate(s, r)
  {
    assert Route(s, r) == RouteCollection(s, r);
  }

  /** A valid create with time to spare answers 201 at the item path of the new id. */
  lemma CreateAnswered(s: Store, r: Request) returns (id: string)
    requires ReadBookPayload(r.contentType, r.body).Success? && r.ctx == NoError
    ensures id == CreateOp(s, PayloadBook(ReadBookPayload(r.contentType, r.body).value)).created.id
    ensures var o := HandleCreate(s, r);
      && ClientStatus(o.response.events) == 201
      && o.response.location == Some(ItemPrefix + id)
      && o.store.nextID == s.nextID + 1
  {
    id := CreateOp(s, PayloadBook(ReadBookPayload(r.contentType, r.body).value)).created.id;
  }

  /** A store whose counter is 5 names its next book "5". */
  lemma CreateFifth(s: Store, book: Book)
    requires s.nextID == 5
    ensures CreateOp(s, book).created.id == "5"
  {
    Strconv.AtoiItoa(5);
    assert Strconv.Itoa(5) == "5";
  }

  /** Ids are ordered as strings, so a listing puts "10" before "2". */
  lemma ListingIsStringOrder(a: Book, b: Book)
    requires a.id == "2" && b.id == "10"
    ensures Listing(map["2" := a, "10" := b]) == [b, a]
  {
    var books := map["2" := a, "10" := b];
    assert GoStrings.Less("10", "2");
    assert IsListing(books, [b, a]);
    ListingUnique(books, Listing(books), [b, a]);
  }

  /**
   * From the seeded state (keys "1" to "4", counter 5): a create gets "5";
   * deleting "2" does not free its id, so the next create gets "6"; the store
   * then holds "1", "3", "4", "5" and "6" and lists them in that order.
   */
  lemma DeleteDoesNotFreeId(s: Store, first: Book, second: Book)
    requires Inv(s) && s.books.Keys == {"1", "2", "3", "4"} && s.nextID == 5
    ensures var cs := [MemoryProperties.CreateCmd(first), MemoryProperties.DeleteCmd("2"), MemoryProperties.CreateCmd(second)];
      && MemoryProperties.Issued(s, cs) == ["5", "6"]
      && MemoryProperties.Run(s, cs).books.Keys == {"1", "3", "4", "5", "6"}
      && MemoryProperties.Run(s, cs).nextID == 7
  {
    var cs := [MemoryProperties.CreateCmd(first), MemoryProperties.DeleteCmd("2"), MemoryProperties.CreateCmd(second)];
    CreateFifth(s, first);
    var s1 := CreateOp(s, first).store;
    var s2 := DeleteOp(s1, "2").store;
    Strconv.AtoiItoa(6);
    assert Strconv.Itoa(6) == "6";
    assert CreateOp(s2, second).created.id == "6";
    var s3 := CreateOp(s2, second).store;
    assert cs[1..][1..][1..] == [];
    assert MemoryProperties.Run(s2, cs[1..][1..]) == s3;
    assert MemoryProperties.Run(s1, cs[1..]) == s3;
    assert MemoryProperties.Issued(s2, cs[1..][1..]) == ["6"];
    assert MemoryProperties.Issued(s1, cs[1..]) == ["6"];
  }

  /** Such a store lists its books as "1", "3", "4", "5", "6". */
  lemma ListedAfterDelete(books: map<string, Book>)
    requires KeyedById(books) && books.Keys == {"1", "3", "4", "5", "6"}
    ensures var l := Listing(books);
      |l| == 5 && l[0].id == "1" && l[1].id == "3" && l[2].id == "4" && l[3].id == "5" && l[4].id == "6"
  {
    var l := [books["1"], books["3"], books["4"], books["5"], books["6"]];
    FiveAscending(l);
    FiveCovered(books, l);
    ListingUnique(books, Listing(books), l);
  }

  /** Books with the one-digit ids "1", "3", "4", "5", "6" in that order are strictly ascending. */
  lemma FiveAscending(l: seq<Book>)
    requires |l| == 5
    requires l[0].id == "1" && l[1].id == "3" && l[2].id == "4" && l[3].id == "5" && l[4].id == "6"
    ensures StrictlySortedByID(l)
  {
    var digits := "13456";
    forall i, j | 0 <= i < j < |l|
      ensures GoStrings.Less(l[i].id, l[j].id)
    {
      assert l[i].id == [digits[i]] && l[j].id == [digits[j]];
      assert digits[i] < digits[j];
    }
  }

  /** The five books under those keys, each once. */
  lemma FiveCovered(books: map<string, Book>, l: seq<Book>)
    requires KeyedById(books) && books.Keys == {"1", "3", "4", "5", "6"}
    requires l == [books["1"], books["3"], books["4"], books["5"], books["6"]]
    requires StrictlySortedByID(l)
    ensures IsListing(books, l)
  {
    assert |books| == |books.Keys| == 5;
  }

  /**
   * The whole run on the server's real starting state: from
   * `NewMemoryRepository(SeedData())`, create, delete "2" and create again hand
   * out "5" and then "6", and the listing is then "1", "3", "4", "5", "6".
   */
  lemma SeedDataScenario(first: Book, second: Book)
    ensures var s := Seeded(Seed.SeedData());
      var cs := [MemoryProperties.CreateCmd(first), MemoryProperties.DeleteCmd("2"), MemoryProperties.CreateCmd(second)];
      && MemoryProperties.Issued(s, cs) == ["5", "6"]
      && Inv(MemoryProperties.Run(s, cs))
      && var l := Listing(MemoryProperties.Run(s, cs).books);
      |l| == 5 && l[0].id == "1" && l[1].id == "3" && l[2].id == "4" && l[3].id == "5" && l[4].id == "6"
  {
    SeededServer();
    RunFromSeededState(Seeded(Seed.SeedData()), first, second);
  }

  /** The same run from any valid store with the seeded keys and counter. */
  lemma RunFromSeededState(s: Store, first: Book, second: Book)
    requires Inv(s) && s.books.Keys == {"1", "2", "3", "4"} && s.nextID == 5
    ensures var cs := [MemoryProperties.CreateCmd(first), MemoryProperties.DeleteCmd("2"), MemoryProperties.CreateCmd(second)];
      && MemoryProperties.Issued(s, cs) == ["5", "6"]
      && Inv(MemoryProperties.Run(s, cs))
      && var l := Listing(MemoryProperties.Run(s, cs).books);
      |l| == 5 && l[0].id == "1" && l[1].id == "3" && l[2].id == "4" && l[3].id == "5" && l[4].id == "6"
  {
    var cs := [MemoryProperties.CreateCmd(first), MemoryProperties.DeleteCmd("2"), MemoryProperties.CreateCmd(second)];
    DeleteDoesNotFreeId(s, first, second);
    MemoryProperties.RunKeepsInv(s, cs);
    ListedAfterDelete(MemoryProperties.Run(s, cs).books);
  }
}
