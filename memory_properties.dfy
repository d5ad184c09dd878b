/**
 * What the in-memory repository promises over its whole life: what seeding
 * builds, that the invariant survives any sequence of writes, that ids are
 * handed out in increasing order and that an id once used is never handed out
 * again.
 */
module MemoryProperties {
  import opened Wrappers
  import opened Books
  import opened Memory
  import Strconv

  // ---------------------------------------------------------------------------
  // Seeding

  /** The seeded keys are exactly the ids of the seed books. */
  lemma {:induction false} SeededKeys(seed: seq<Book>)
    ensures IdsOf(seed, Seeded(seed).books.Keys)
  {
    if |seed| > 0 {
      var init := seed[..|seed| - 1];
      var last := seed[|seed| - 1];
      assert seed == init + [last];
      SeededKeys(init);
      SeededSnoc(init, last);
      KeysSnoc(init, last, Seeded(init).books.Keys);
    }
  }

  /** Seeding one more book is one more turn of the loop. */
  lemma SeededSnoc(init: seq<Book>, last: Book)
    ensures Seeded(init + [last]) == SeedStep(Seeded(init), last)
  {
    assert (init + [last])[..|init|] == init;
  }

  /** `keys` holds exactly the ids of the books of `seed`. */
  ghost predicate IdsOf(seed: seq<Book>, keys: set<string>) {
    forall k :: k in keys <==> exists i :: 0 <= i < |seed| && seed[i].id == k
  }

  /** The ids of `init` plus the id of `last` are the ids of `init + [last]`. */
  lemma KeysSnoc(init: seq<Book>, last: Book, keys: set<string>)
    requires IdsOf(init, keys)
    ensures IdsOf(init + [last], keys + {last.id})
  {
    var seed := init + [last];
    var after := keys + {last.id};
    forall k | k in after
      ensures exists i :: 0 <= i < |seed| && seed[i].id == k
    {
      if k == last.id {
        assert seed[|init|].id == k;
      } else {
        var i :| 0 <= i < |init| && init[i].id == k;
        assert seed[i].id == k;
      }
    }
    forall k | exists i :: 0 <= i < |seed| && seed[i].id == k
      ensures k in after
    {
      var i :| 0 <= i < |seed| && seed[i].id == k;
      if i < |init| {
        assert init[i].id == k;
      }
    }
  }

  /** A seed book that no later seed book shares an id with is what the map holds under that id. */
  lemma {:induction false} SeededLastWins(seed: seq<Book>, i: nat)
    requires i < |seed|
    requires forall j :: i < j < |seed| ==> seed[j].id != seed[i].id
    ensures seed[i].id in Seeded(seed).books && Seeded(seed).books[seed[i].id] == seed[i]
  {
    if i < |seed| - 1 {
      var init := seed[..|seed| - 1];
      SeededLastWins(init, i);
    }
  }

  /**
   * The seeded counter is 1 plus the largest seed id that reads as an integer
   * of at least 1, or 1 if there is none: it lies above every such id and is
   * either 1 or one past one of them.
   */
  lemma SeededCounter(seed: seq<Book>)
    ensures Seeded(seed).nextID >= 1
    ensures forall i :: 0 <= i < |seed| && Strconv.Atoi(seed[i].id).Some? ==>
      Strconv.Atoi(seed[i].id).value < Seeded(seed).nextID
    ensures Reached(seed, Seeded(seed).nextID)
  {
    CounterAbove(seed);
    CounterReached(seed);
  }

  /** The seeded counter lies above every seed id that parses. */
  lemma {:induction false} CounterAbove(seed: seq<Book>)
    ensures Above(seed, Seeded(seed).nextID)
  {
    if |seed| > 0 {
      var init := seed[..|seed| - 1];
      var last := seed[|seed| - 1];
      assert seed == init + [last];
      CounterAbove(init);
      SeededSnoc(init, last);
      AboveSnoc(init, last, Seeded(init).nextID, Seeded(seed).nextID);
    }
  }

  /** Every id of `seed` that parses reads as less than `n`. */
  predicate Above(seed: seq<Book>, n: int) {
    forall i :: 0 <= i < |seed| && Strconv.Atoi(seed[i].id).Some? ==> Strconv.Atoi(seed[i].id).value < n
  }

  /** One more seed book keeps a counter that does not go down above every id, if it lies above the new one. */
  lemma AboveSnoc(init: seq<Book>, last: Book, m: int, n: int)
    requires Above(init, m) && m <= n
    requires Strconv.Atoi(last.id).Some? ==> Strconv.Atoi(last.id).value < n
    ensures Above(init + [last], n)
  {
    var seed := init + [last];
    forall i | 0 <= i < |seed| && Strconv.Atoi(seed[i].id).Some?
      ensures Strconv.Atoi(seed[i].id).value < n
    {
      if i < |init| {
        assert seed[i] == init[i];
      }
    }
  }

  /** `n` is 1 or one past an id of `seed` that parses. */
  predicate Reached(seed: seq<Book>, n: int) {
    n == 1 || exists i :: 0 <= i < |seed| && Strconv.Atoi(seed[i].id) == Some(n - 1)
  }

  /** The seeded counter is 1 or one past a seed id. */
  lemma {:induction false} CounterReached(seed: seq<Book>)
    ensures Reached(seed, Seeded(seed).nextID)
  {
    if |seed| > 0 {
      var init := seed[..|seed| - 1];
      var last := seed[|seed| - 1];
      assert seed == init + [last];
      CounterReached(init);
      SeededSnoc(init, last);
      StepReached(init, last, Seeded(init));
    }
  }

  /** A seeding step from a reached counter leaves a reached counter. */
  lemma StepReached(init: seq<Book>, last: Book, before: Store)
    requires Reached(init, before.nextID)
    ensures Reached(init + [last], SeedStep(before, last).nextID)
  {
    ReachedSnoc(init, last, before.nextID, SeedStep(before, last).nextID);
  }

  /** One more seed book keeps the counter reached: unchanged, or one past the new id. */
  lemma ReachedSnoc(init: seq<Book>, last: Book, m: int, n: int)
    requires Reached(init, m)
    requires n == m || Strconv.Atoi(last.id) == Some(n - 1)
    ensures Reached(init + [last], n)
  {
    var seed := init + [last];
    if n != m {
      assert seed[|init|] == last;
    } else if n != 1 {
      var i :| 0 <= i < |init| && Strconv.Atoi(init[i].id) == Some(n - 1);
      assert seed[i] == init[i];
    }
  }

  // ---------------------------------------------------------------------------
  // Sequences of writes

  datatype Command = CreateCmd(book: Book) | UpdateCmd(id: string, book: Book) | DeleteCmd(id: string)

  /** The state after one write. */
  function Apply(s: Store, c: Command): Store {
    match c
    case CreateCmd(b) => CreateOp(s, b).store
    case UpdateCmd(id, b) => UpdateOp(s, id, b).store
    case DeleteCmd(id) => DeleteOp(s, id).store
  }

  /** The state after a sequence of writes, first to last. */
  function Run(s: Store, cs: seq<Command>): Store
    decreases |cs|
  {
    if |cs| == 0 then s else Run(Apply(s, cs[0]), cs[1..])
  }

  /** The ids the creates among `cs` hand out, in order. */
  function Issued(s: Store, cs: seq<Command>): seq<string>
    decreases |cs|
  {
    if |cs| == 0 then []
    else
      var rest := Issued(Apply(s, cs[0]), cs[1..]);
      if cs[0].CreateCmd? then [CreateOp(s, cs[0].book).created.id] + rest else rest
  }

  /** Every write keeps the invariant, so every reachable state satisfies it. */
  lemma {:induction false} RunKeepsInv(s: Store, cs: seq<Command>)
    requires Inv(s)
    ensures Inv(Run(s, cs))
    decreases |cs|
  {
    if |cs| > 0 {
      RunKeepsInv(Apply(s, cs[0]), cs[1..]);
    }
  }

  /** The counter never goes down; it goes up by one per create. */
  lemma {:induction false} RunCounter(s: Store, cs: seq<Command>)
    ensures Run(s, cs).nextID == s.nextID + |Issued(s, cs)|
    decreases |cs|
  {
    if |cs| > 0 {
      RunCounter(Apply(s, cs[0]), cs[1..]);
    }
  }

  /**
   * The ids handed out read back as consecutive integers from the counter on:
   * distinct and strictly increasing in issue order.
   */
  lemma {:induction false} IssuedConsecutive(s: Store, cs: seq<Command>)
    ensures CountsFrom(Issued(s, cs), s.nextID)
    decreases |cs|
  {
    if |cs| > 0 {
      var next := Apply(s, cs[0]);
      IssuedConsecutive(next, cs[1..]);
      if cs[0].CreateCmd? {
        Strconv.AtoiItoa(s.nextID);
        ConsecutiveCons(CreateOp(s, cs[0].book).created.id, Issued(next, cs[1..]), s.nextID);
      }
    }
  }

  /** The ids in `ids` read as `n`, `n + 1`, `n + 2` and so on. */
  predicate CountsFrom(ids: seq<string>, n: int) {
    forall i :: 0 <= i < |ids| ==> Strconv.Atoi(ids[i]) == Some(n + i)
  }

  /** An id reading as `n` in front of ids reading as `n + 1` onwards gives ids reading as `n` onwards. */
  lemma ConsecutiveCons(id: string, rest: seq<string>, n: int)
    requires Strconv.Atoi(id) == Some(n)
    requires CountsFrom(rest, n + 1)
    ensures CountsFrom([id] + rest, n)
  {
    forall i | 0 <= i < |[id] + rest|
      ensures Strconv.Atoi(([id] + rest)[i]) == Some(n + i)
    {
      if i > 0 {
        assert ([id] + rest)[i] == rest[i - 1];
      }
    }
  }

  /** Hence no two creates ever receive the same id. */
  lemma IssuedDistinct(s: Store, cs: seq<Command>)
    ensures forall i, j :: 0 <= i < j < |Issued(s, cs)| ==> Issued(s, cs)[i] != Issued(s, cs)[j]
  {
    IssuedConsecutive(s, cs);
  }

  /**
   * An id present in a valid state is never handed out by a later create,
   * whatever writes (deletes of it included) come in between.
   */
  lemma NeverReissued(s: Store, cs: seq<Command>, id: string, book: Book)
    requires Inv(s) && id in s.books
    ensures CreateOp(Run(s, cs), book).created.id != id
  {
    RunCounter(s, cs);
  }

  /** Deleting twice: the second delete finds nothing and changes nothing. */
  lemma DeleteTwice(s: Store, id: string)
    ensures var first := DeleteOp(s, id);
      DeleteOp(first.store, id) == DeleteResult(first.store, false)
  {
    var first := DeleteOp(s, id);
    assert first.store.books - {id} == first.store.books;
  }

  /** What a create stores is what a get of its id returns. */
  lemma GetAfterCreate(s: Store, book: Book)
    ensures var c := CreateOp(s, book);
      GetOp(c.store, c.created.id) == GetResult(c.created, true)
  {
  }

  /** An update on a present id is seen by a later get, under the path id. */
  lemma GetAfterUpdate(s: Store, id: string, book: Book)
    requires id in s.books
    ensures GetOp(UpdateOp(s, id, book).store, id) == GetResult(book.(id := id), true)
  {
  }

  /** After a delete the id is gone. */
  lemma GetAfterDelete(s: Store, id: string)
    ensures GetOp(DeleteOp(s, id).store, id) == GetResult(ZeroBook, false)
  {
  }
}
