/** The fixed catalogue the server starts with. */
module Seed {
  import opened Wrappers
  import opened Books
  import Strconv
  import GoStrings

  /**
   * `SeedData`: four books with pairwise distinct ids, each with a non-empty,
   * already trimmed title and author.
   */
  function SeedData(): (r: seq<Book>)
    ensures |r| == 4
    ensures forall i, j :: 0 <= i < j < |r| ==> r[i].id != r[j].id
    ensures forall i :: 0 <= i < |r| ==>
      r[i].title != "" && GoStrings.IsTrimmed(r[i].title) &&
      r[i].author != "" && GoStrings.IsTrimmed(r[i].author)
  {
    var r := [ Book("1", "The Go Programming Language", "Alan A. A. Donovan", "9780134190440", 2015),
      Book("2", "Introducing Go", "Caleb Doxsey", "9781491941959", 2016),
      Book("3", "Concurrency in Go", "Katherine Cox-Buday", "9781491941195", 2017),
      Book("4", "Go in Practice", "Matt Butcher", "9781633430075", 2016) ];
    Named(r[0]);
    Named(r[1]);
    Named(r[2]);
    Named(r[3]);
    r
  }

  /** A book whose title and author start and end in a letter has both non-empty and trimmed. */
  lemma Named(b: Book)
    requires |b.title| > 0 && Letter(b.title[0]) && Letter(b.title[|b.title| - 1])
    requires |b.author| > 0 && Letter(b.author[0]) && Letter(b.author[|b.author| - 1])
    ensures b.title != "" && GoStrings.IsTrimmed(b.title)
    ensures b.author != "" && GoStrings.IsTrimmed(b.author)
  {
    assert !GoStrings.IsSpace(b.title[0]) && !GoStrings.IsSpace(b.title[|b.title| - 1]);
    assert !GoStrings.IsSpace(b.author[0]) && !GoStrings.IsSpace(b.author[|b.author| - 1]);
  }

  /** An ASCII letter. */
  predicate Letter(c: char) {
    ('a' <= c <= 'z') || ('A' <= c <= 'Z')
  }

  /** The seed ids are the decimal spellings of 1, 2, 3 and 4, in that order. */
  lemma SeedIdsDecimal()
    ensures forall i :: 0 <= i < |SeedData()| ==>
      SeedData()[i].id == Strconv.Itoa(i + 1) && Strconv.Atoi(SeedData()[i].id) == Some(i + 1)
  {
    var r := SeedData();
    assert r[0].id == Strconv.Itoa(1) && r[1].id == Strconv.Itoa(2);
    assert r[2].id == Strconv.Itoa(3) && r[3].id == Strconv.Itoa(4);
    Strconv.AtoiItoa(1);
    Strconv.AtoiItoa(2);
    Strconv.AtoiItoa(3);
    Strconv.AtoiItoa(4);
  }
}
