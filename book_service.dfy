/** The example application's book service: an in-memory table of books
    keyed by id, shared by every service instance, with add, get, remove
    and update operations and a counter per changing operation. The table
    operations are first stated as functions on the table; the service's
    methods update the shared table in place and are proved against them. */
module BookServices {
  import opened Wrappers

  /** A book's id (a UUID in the application). */
  type BookId = nat

  /** The book types the default books use. */
  datatype BookType = Fantasy | Mystery | ScienceFiction

  /** `BookEntity`: its id, title and type. */
  datatype Book = Book(id: BookId, title: string, bookType: BookType)

  /** The `ValueError`s of the service. */
  datatype StoreError = AlreadyExists(id: BookId) | DoesNotExist(id: BookId)

  /** The table of books. */
  type Store = map<BookId, Book>

  /** Every book is filed under its own id. */
  predicate KeyedById(s: Store)
  {
    forall id :: id in s ==> s[id].id == id
  }

  // ---------------------------------------------------------------------
  // Building the table
  // ---------------------------------------------------------------------

  /** `build_default_book_store`: three books, whose fresh ids are given. */
  function DefaultBooks(first: BookId, second: BookId, third: BookId): seq<Book>
  {
    [Book(first, "Book 1", Fantasy), Book(second, "Book 2", Mystery), Book(third, "Book 3", ScienceFiction)]
  }

  /** `{book.id: book for book in books}`, built from the front: a later
      book with the same id replaces an earlier one. */
  function StoreOf(books: seq<Book>): (s: Store)
    ensures KeyedById(s)
    decreases |books|
  {
    if |books| == 0 then map[]
    else
      var last := books[|books| - 1];
      StoreOf(books[..|books| - 1])[last.id := last]
  }

  /** The table's keys are exactly the ids of the list. */
  lemma {:induction false} StoreOfKeys(books: seq<Book>)
    ensures forall i :: 0 <= i < |books| ==> books[i].id in StoreOf(books)
    ensures forall id :: id in StoreOf(books) ==> exists i :: 0 <= i < |books| && books[i].id == id
    decreases |books|
  {
    if |books| > 0 {
      var prefix := books[..|books| - 1];
      StoreOfKeys(prefix);
      assert forall i :: 0 <= i < |prefix| ==> prefix[i] == books[i];
    }
  }

  /** A book that no later book shares its id with is the one filed under
      that id. */
  lemma {:induction false} StoreOfLastWins(books: seq<Book>, i: nat)
    requires i < |books|
    requires forall j :: i < j < |books| ==> books[j].id != books[i].id
    ensures books[i].id in StoreOf(books) && StoreOf(books)[books[i].id] == books[i]
    decreases |books|
  {
    if i < |books| - 1 {
      var prefix := books[..|books| - 1];
      assert prefix[i] == books[i];
      StoreOfLastWins(prefix, i);
    }
  }

  /** With distinct ids no book is replaced: the table has one entry per
      book, each under its own id. */
  lemma {:induction false} StoreOfDistinct(books: seq<Book>)
    requires forall i, j :: 0 <= i < j < |books| ==> books[i].id != books[j].id
    ensures |StoreOf(books)| == |books|
    decreases |books|
  {
    if |books| > 0 {
      var prefix := books[..|books| - 1];
      StoreOfDistinct(prefix);
      StoreOfKeys(prefix);
      assert books[|books| - 1].id !in StoreOf(prefix);
    }
  }

  /** The default table holds the three default books when their ids
      differ. */
  lemma DefaultStore(first: BookId, second: BookId, third: BookId)
    requires first != second && second != third && first != third
    ensures var s := StoreOf(DefaultBooks(first, second, third));
            |s| == 3 && first in s && second in s && third in s &&
            s[first].title == "Book 1" && s[second].title == "Book 2" && s[third].title == "Book 3"
  {
    var books := DefaultBooks(first, second, third);
    StoreOfDistinct(books);
    StoreOfLastWins(books, 0);
    StoreOfLastWins(books, 1);
    StoreOfLastWins(books, 2);
  }

  // ---------------------------------------------------------------------
  // The operations on the table
  // ---------------------------------------------------------------------

  /** `add_book`: a new id is inserted and nothing else changes; an id
      already present is an error. */
  function AddBook(s: Store, book: Book): (r: Result<Store, StoreError>)
    ensures r.Failure? <==> book.id in s
    ensures r.Failure? ==> r.error == AlreadyExists(book.id)
    ensures r.Success? ==>
              r.value.Keys == s.Keys + {book.id} && |r.value| == |s| + 1 && r.value[book.id] == book &&
              forall id :: id in s ==> r.value[id] == s[id]
  {
    if book.id in s then Failure(AlreadyExists(book.id)) else Success(s[book.id := book])
  }

  /** `get_book`: the book filed under the id, or an error. */
  function GetBook(s: Store, id: BookId): (r: Result<Book, StoreError>)
    ensures r.Success? <==> id in s
    ensures r.Failure? ==> r.error == DoesNotExist(id)
    ensures r.Success? ==> r.value == s[id]
    ensures r.Success? && KeyedById(s) ==> r.value.id == id
  {
    if id !in s then Failure(DoesNotExist(id)) else Success(s[id])
  }

  /** `remove_book`: a present id is deleted and nothing else changes; an
      absent id is an error. */
  function RemoveBook(s: Store, id: BookId): (r: Result<Store, StoreError>)
    ensures r.Failure? <==> id !in s
    ensures r.Failure? ==> r.error == DoesNotExist(id)
    ensures r.Success? ==>
              r.value.Keys == s.Keys - {id} && |r.value| == |s| - 1 &&
              forall k :: k in r.value ==> r.value[k] == s[k]
  {
    if id !in s then Failure(DoesNotExist(id)) else Success(s - {id})
  }

  /** `update_book`: a present id is overwritten and nothing else changes;
      an absent id is an error. */
  function UpdateBook(s: Store, book: Book): (r: Result<Store, StoreError>)
    ensures r.Failure? <==> book.id !in s
    ensures r.Failure? ==> r.error == DoesNotExist(book.id)
    ensures r.Success? ==>
              r.value.Keys == s.Keys && |r.value| == |s| && r.value[book.id] == book &&
              forall id :: id in s && id != book.id ==> r.value[id] == s[id]
  {
    if book.id !in s then Failure(DoesNotExist(book.id)) else Success(s[book.id := book])
  }

  /** Every operation keeps each book under its own id. */
  lemma OperationsKeepKeyedById(s: Store, book: Book, id: BookId)
    requires KeyedById(s)
    ensures AddBook(s, book).Success? ==> KeyedById(AddBook(s, book).value)
    ensures RemoveBook(s, id).Success? ==> KeyedById(RemoveBook(s, id).value)
    ensures UpdateBook(s, book).Success? ==> KeyedById(UpdateBook(s, book).value)
  {
  }

  /** A book just added is the one found under its id, and removing it
      gives back the table as it was. */
  lemma AddThenGetAndRemove(s: Store, book: Book)
    requires book.id !in s
    ensures GetBook(AddBook(s, book).value, book.id) == Success(book)
    ensures RemoveBook(AddBook(s, book).value, book.id) == Success(s)
  {
    assert AddBook(s, book).value - {book.id} == s;
  }

  /** Removing a book and adding it back gives back the table. */
  lemma RemoveThenAdd(s: Store, book: Book)
    requires book.id in s && s[book.id] == book
    ensures AddBook(RemoveBook(s, book.id).value, book) == Success(s)
  {
    assert (s - {book.id})[book.id := book] == s;
  }

  /** Updating twice with the same book is updating once, and the book
      is then the one found under its id. */
  lemma UpdateIdempotent(s: Store, book: Book)
    requires book.id in s
    ensures UpdateBook(UpdateBook(s, book).value, book) == UpdateBook(s, book)
    ensures GetBook(UpdateBook(s, book).value, book.id) == Success(book)
  {
    assert s[book.id := book][book.id := book] == s[book.id := book];
  }

  // ---------------------------------------------------------------------
  // The service
  // ---------------------------------------------------------------------

  /** `BookService.book_store`: one table shared by every service. */
  class BookStore {
    var books: Store

    constructor()
      ensures books == map[]
    {
      books := map[];
    }
  }

  /** `build_book_store`: the table becomes that of the given books, or of
      the default books when none are given (an empty list stays empty). */
  method BuildBookStore(store: BookStore, books: Option<seq<Book>>, first: BookId, second: BookId, third: BookId)
    modifies store
    ensures store.books == StoreOf(if books.Some? then books.value else DefaultBooks(first, second, third))
  {
    var list := if books.Some? then books.value else DefaultBooks(first, second, third);
    store.books := StoreOf(list);
  }

  /** `BookService`: the shared table and the add, remove and update
      counters. */
  class BookService {
    const store: BookStore
    var added: nat
    var removed: nat
    var updated: nat

    predicate Valid()
      reads this, store
    {
      KeyedById(store.books)
    }

    /** `__init__`: the table is rebuilt with the default books only when it
        is empty. */
    constructor(store: BookStore, first: BookId, second: BookId, third: BookId)
      modifies store
      ensures this.store == store
      ensures old(store.books) == map[] ==> store.books == StoreOf(DefaultBooks(first, second, third))
      ensures old(store.books) != map[] ==> store.books == old(store.books)
      ensures old(store.books) == map[] || KeyedById(old(store.books)) ==> Valid()
      ensures added == 0 && removed == 0 && updated == 0
    {
      this.store := store;
      added, removed, updated := 0, 0, 0;
      new;
      if |store.books| == 0 {
        BuildBookStore(store, None, first, second, third);
      }
    }

    /** `add_book`: the counter rises only when the book is added. */
    method Add(book: Book) returns (r: Outcome<StoreError>)
      requires Valid()
      modifies this, store
      ensures Valid()
      ensures AddBook(old(store.books), book).Failure? ==>
                r == Fail(AddBook(old(store.books), book).error) &&
                store.books == old(store.books) && added == old(added)
      ensures AddBook(old(store.books), book).Success? ==>
                r == Pass && store.books == AddBook(old(store.books), book).value && added == old(added) + 1
      ensures removed == old(removed) && updated == old(updated)
    {
      if book.id in store.books {
        return Fail(AlreadyExists(book.id));
      }
      store.books := store.books[book.id := book];
      added := added + 1;
      r := Pass;
    }

    /** `get_book` */
    function Get(id: BookId): (r: Result<Book, StoreError>)
      requires Valid()
      reads this, store
      ensures r.Success? <==> id in store.books
      ensures r.Failure? ==> r.error == DoesNotExist(id)
      ensures r.Success? ==> r.value == store.books[id] && r.value.id == id
    {
      GetBook(store.books, id)
    }

    /** `get_all_books`: every book of the table exactly once. The order of
        the table's values is not modelled. */
    method GetAll() returns (r: seq<Book>)
      requires Valid()
      ensures |r| == |store.books|
      ensures forall i :: 0 <= i < |r| ==> r[i].id in store.books && store.books[r[i].id] == r[i]
      ensures forall i, j :: 0 <= i < j < |r| ==> r[i].id != r[j].id
      ensures forall id :: id in store.books ==> store.books[id] in r
    {
      var books := store.books;
      var pending := books.Keys;
      r := [];
      while pending != {}
        invariant pending <= books.Keys
        invariant |r| + |pending| == |books|
        invariant forall i :: 0 <= i < |r| ==> r[i].id in books && r[i].id !in pending && books[r[i].id] == r[i]
        invariant forall i, j :: 0 <= i < j < |r| ==> r[i].id != r[j].id
        invariant forall id :: id in books && id !in pending ==> books[id] in r
        decreases pending
      {
        var id :| id in pending;
        r := r + [books[id]];
        pending := pending - {id};
      }
    }

    /** `remove_book`: the counter rises only when the book is removed. */
    method Remove(id: BookId) returns (r: Outcome<StoreError>)
      requires Valid()
      modifies this, store
      ensures Valid()
      ensures RemoveBook(old(store.books), id).Failure? ==>
                r == Fail(RemoveBook(old(store.books), id).error) &&
                store.books == old(store.books) && removed == old(removed)
      ensures RemoveBook(old(store.books), id).Success? ==>
                r == Pass && store.books == RemoveBook(old(store.books), id).value && removed == old(removed) + 1
      ensures added == old(added) && updated == old(updated)
    {
      if id !in store.books {
        return Fail(DoesNotExist(id));
      }
      store.books := store.books - {id};
      removed := removed + 1;
      r := Pass;
    }

    /** `update_book`: the counter rises only when the book is updated. */
    method Update(book: Book) returns (r: Outcome<StoreError>)
      requires Valid()
      modifies this, store
      ensures Valid()
      ensures UpdateBook(old(store.books), book).Failure? ==>
                r == Fail(UpdateBook(old(store.books), book).error) &&
                store.books == old(store.books) && updated == old(updated)
      ensures UpdateBook(old(store.books), book).Success? ==>
                r == Pass && store.books == UpdateBook(old(store.books), book).value && updated == old(updated) + 1
      ensures added == old(added) && removed == old(removed)
    {
      if book.id !in store.books {
        return Fail(DoesNotExist(book.id));
      }
      store.books := store.books[book.id := book];
      updated := updated + 1;
      r := Pass;
    }
  }
}
