/**
 * The entity the service stores. A `Book` is a plain value; the repository
 * interface of the Go code (List, Get, Create, Update, Delete, each with an
 * error result and, for Get, Update and Delete, a found flag) is given here by
 * the signatures of the methods of `Memory.MemoryRepository`.
 */
module Books {

  /** A book record: the id is a decimal string assigned by the store. */
  datatype Book = Book(id: string, title: string, author: string, isbn: string, publishedYear: int)

  /** Go's zero value `Book{}`, returned when a lookup finds nothing. */
  const ZeroBook := Book("", "", "", "", 0)
}
