/** `by.polikarpov.dao.BookLendingDao`: the statements on the `book_lending`
    join table. Each row read is hydrated through the readers and books DAOs,
    and the first row that cannot be hydrated aborts the whole call. */
module BookLendingDao {
  import opened Base
  import opened Tables
  import opened ReadersEntity
  import opened BooksEntity
  import opened BookLendingEntity
  import ReadersDao
  import BooksDao

  // ---------------------------------------------------------------- what hydration throws

  /** What `BooksDao.findById(b)` inside a lending query ends in: "Not found
      book" when the row is missing, "Library not found" when its library is. */
  function BookError(books: map<int, BookRow>, library: map<int, JString>, b: int): Option<Failure> {
    if b !in books then Some(DaoError("Not found book"))
    else if books[b].libraryId !in library then Some(DaoError("Library not found"))
    else None
  }

  /** The failure of the first book id in `ids` that cannot be hydrated. */
  function FirstBookError(books: map<int, BookRow>, library: map<int, JString>, ids: seq<int>): (r: Option<Failure>)
    ensures r.None? <==> forall i :: 0 <= i < |ids| ==> BookError(books, library, ids[i]).None?
    ensures r.Some? ==> exists i :: 0 <= i < |ids| && r == BookError(books, library, ids[i]) &&
                                    forall j :: 0 <= j < i ==> BookError(books, library, ids[j]).None?
  {
    if ids == [] then None
    else if BookError(books, library, ids[0]).Some? then BookError(books, library, ids[0])
    else
      var rest := FirstBookError(books, library, ids[1..]);
      assert forall i :: 1 <= i < |ids| ==> ids[i] == ids[1..][i - 1];
      rest
  }

  /** What `builderBookLending` throws for one row: the reader is looked up
      first ("Not found reader"), then the book. */
  function RowError(readers: map<int, JString>, books: map<int, BookRow>, library: map<int, JString>, row: LendingRow): Option<Failure> {
    if row.readerId !in readers then Some(DaoError("Not found reader"))
    else BookError(books, library, row.bookId)
  }

  /** The failure of the first row of `rows` that cannot be hydrated. */
  function FirstRowError(readers: map<int, JString>, books: map<int, BookRow>, library: map<int, JString>, rows: seq<LendingRow>): (r: Option<Failure>)
    ensures r.None? <==> forall i :: 0 <= i < |rows| ==> RowError(readers, books, library, rows[i]).None?
    ensures r.Some? ==> exists i :: 0 <= i < |rows| && r == RowError(readers, books, library, rows[i]) &&
                                    forall j :: 0 <= j < i ==> RowError(readers, books, library, rows[j]).None?
  {
    if rows == [] then None
    else if RowError(readers, books, library, rows[0]).Some? then RowError(readers, books, library, rows[0])
    else
      var rest := FirstRowError(readers, books, library, rows[1..]);
      assert forall i :: 1 <= i < |rows| ==> rows[i] == rows[1..][i - 1];
      rest
  }

  /** Books taken from the catalog itself are never missing, so the anti-join
      query can only fail on a book whose library is missing. */
  lemma {:induction false} CatalogBooksOnlyMissLibraries(books: map<int, BookRow>, library: map<int, JString>, ids: seq<int>)
    requires forall k :: k in ids ==> k in books
    ensures FirstBookError(books, library, ids) in {None, Some(DaoError("Library not found"))}
  {
    if ids != [] && BookError(books, library, ids[0]).None? {
      CatalogBooksOnlyMissLibraries(books, library, ids[1..]);
    }
  }

  /** `l` holds lending row `row`, with its reader and its book hydrated. */
  ghost predicate Holds(l: BookLending, row: LendingRow, readers: map<int, JString>,
                        books: map<int, BookRow>, library: map<int, JString>)
    reads l, l.reader, l.book, if l.book == null then {} else l.book.Footprint()
  {
    l.reader != null && ReadersDao.Holds(l.reader, row.readerId, readers) &&
    l.book != null && BooksDao.Holds(l.book, row.bookId, books, library)
  }

  // ---------------------------------------------------------------- stubs

  /** `update` is not implemented: false, nothing changes. */
  method Update(entity: BookLending?) returns (r: bool)
    ensures !r
  {
    r := false;
  }

  /** `findById` is not implemented: always empty. */
  method FindById(id: Option<int>) returns (r: Option<BookLending>)
    ensures r.None?
  {
    r := None;
  }

  /** `delete(id)` is not implemented: false, nothing changes. */
  method DeleteById(id: Option<int>) returns (r: bool)
    ensures !r
  {
    r := false;
  }

  // ---------------------------------------------------------------- queries

  /** `builderBookLending`: the reader of the row, then its book. */
  method BuilderBookLending(db: Database, row: LendingRow) returns (r: Result<BookLending>)
    ensures r.Err? <==> RowError(db.readers, db.books, db.library, row).Some?
    ensures r.Err? ==> Some(r.failure) == RowError(db.readers, db.books, db.library, row)
    ensures r.Ok? ==> fresh(r.value) && Holds(r.value, row, db.readers, db.books, db.library)
  {
    var reader := ReadersDao.FindById(db, Some(row.readerId));
    if reader.value.None? {
      return Err(DaoError("Not found reader"));
    }
    var book := BooksDao.FindById(db, Some(row.bookId));
    if book.Err? {
      return Err(book.failure);
    }
    if book.value.None? {
      return Err(DaoError("Not found book"));
    }
    var l := new BookLending(reader.value.value, book.value.value);
    r := Ok(l);
  }

  /** `SELECT reader_id, book_id FROM book_lending`: one hydrated lending per
      row, in scan order, unless some row cannot be hydrated; then the first
      such row's failure. */
  method FindAll(db: Database) returns (r: Result<seq<BookLending>>)
    ensures r.Err? <==> FirstRowError(db.readers, db.books, db.library, db.bookLending).Some?
    ensures r.Err? ==> Some(r.failure) == FirstRowError(db.readers, db.books, db.library, db.bookLending)
    ensures r.Ok? ==>
              |r.value| == |db.bookLending| &&
              forall i :: 0 <= i < |r.value| ==> Holds(r.value[i], db.bookLending[i], db.readers, db.books, db.library)
  {
    var rows := db.bookLending;
    var lendings: seq<BookLending> := [];
    var i := 0;
    while i < |rows|
      invariant 0 <= i <= |rows|
      invariant |lendings| == i
      invariant forall j :: 0 <= j < i ==> RowError(db.readers, db.books, db.library, rows[j]).None?
      invariant forall j :: 0 <= j < i ==> Holds(lendings[j], rows[j], db.readers, db.books, db.library)
    {
      var l := BuilderBookLending(db, rows[i]);
      if l.Err? {
        return Err(l.failure);
      }
      lendings := lendings + [l.value];
      i := i + 1;
    }
    r := Ok(lendings);
  }

  /** The loop shared by `findByReaderId` and `findByNotReaderId`: each book id
      is looked up with `BooksDao.findById`, a missing one is "Not found book". */
  method LoadBooks(db: Database, ids: seq<int>) returns (r: Result<seq<Books>>)
    ensures r.Err? <==> FirstBookError(db.books, db.library, ids).Some?
    ensures r.Err? ==> Some(r.failure) == FirstBookError(db.books, db.library, ids)
    ensures r.Ok? ==>
              |r.value| == |ids| &&
              forall i :: 0 <= i < |ids| ==> BooksDao.Holds(r.value[i], ids[i], db.books, db.library)
  {
    var books: seq<Books> := [];
    var i := 0;
    while i < |ids|
      invariant 0 <= i <= |ids|
      invariant |books| == i
      invariant forall j :: 0 <= j < i ==> BookError(db.books, db.library, ids[j]).None?
      invariant forall j :: 0 <= j < i ==> BooksDao.Holds(books[j], ids[j], db.books, db.library)
    {
      var b := BooksDao.FindById(db, Some(ids[i]));
      if b.Err? {
        return Err(b.failure);
      }
      if b.value.None? {
        return Err(DaoError("Not found book"));
      }
      books := books + [b.value.value];
      i := i + 1;
    }
    r := Ok(books);
  }

  /** `SELECT book_id FROM book_lending WHERE reader_id = ?`, each hydrated:
      one book per lending row of the reader, duplicates included. */
  method FindByReaderId(db: Database, id: Option<int>) returns (r: Result<seq<Books>>)
    ensures id.None? ==> r == Err(NullPointer)
    ensures id.Some? ==> (r.Err? <==> FirstBookError(db.books, db.library, LentBookIds(db.bookLending, id.value)).Some?)
    ensures id.Some? && r.Err? ==> Some(r.failure) == FirstBookError(db.books, db.library, LentBookIds(db.bookLending, id.value))
    ensures r.Ok? ==>
              var ids := LentBookIds(db.bookLending, id.value);
              |r.value| == |ids| && forall i :: 0 <= i < |ids| ==> BooksDao.Holds(r.value[i], ids[i], db.books, db.library)
  {
    if id.None? {
      return Err(NullPointer);
    }
    r := LoadBooks(db, LentBookIds(db.bookLending, id.value));
  }

  /** `SELECT id FROM books WHERE id NOT IN (SELECT book_id FROM book_lending
      WHERE reader_id = ?)`, each hydrated: the catalog books the reader does
      not hold. Only a missing library can make it fail. */
  method FindByNotReaderId(db: Database, id: Option<int>) returns (r: Result<seq<Books>>)
    ensures id.None? ==> r == Err(NullPointer)
    ensures id.Some? ==> (r.Err? <==> FirstBookError(db.books, db.library, NotLentIds(db.books, db.bookLending, id.value)).Some?)
    ensures id.Some? && r.Err? ==> r.failure == DaoError("Library not found")
    ensures r.Ok? ==>
              var ids := NotLentIds(db.books, db.bookLending, id.value);
              |r.value| == |ids| && forall i :: 0 <= i < |ids| ==> BooksDao.Holds(r.value[i], ids[i], db.books, db.library)
  {
    if id.None? {
      return Err(NullPointer);
    }
    var ids := NotLentIds(db.books, db.bookLending, id.value);
    ReaderPartition(db.books, db.bookLending, id.value);
    CatalogBooksOnlyMissLibraries(db.books, db.library, ids);
    r := LoadBooks(db, ids);
  }

  /** `SELECT reader_id FROM book_lending WHERE book_id = ?`, each hydrated
      with `ReadersDao.findById`; a missing reader is reported as "Not found
      book". */
  method FindByBookId(db: Database, id: Option<int>) returns (r: Result<seq<Readers>>)
    ensures id.None? ==> r == Err(NullPointer)
    ensures id.Some? ==> (r.Ok? <==> forall p :: p in HolderIds(db.bookLending, id.value) ==> p in db.readers)
    ensures id.Some? && r.Err? ==> r.failure == DaoError("Not found book")
    ensures r.Ok? ==>
              var holders := HolderIds(db.bookLending, id.value);
              |r.value| == |holders| && forall i :: 0 <= i < |holders| ==> ReadersDao.Holds(r.value[i], holders[i], db.readers)
  {
    if id.None? {
      return Err(NullPointer);
    }
    var holders := HolderIds(db.bookLending, id.value);
    var readers: seq<Readers> := [];
    var i := 0;
    while i < |holders|
      invariant 0 <= i <= |holders|
      invariant |readers| == i
      invariant forall j :: 0 <= j < i ==> holders[j] in db.readers
      invariant forall j :: 0 <= j < i ==> ReadersDao.Holds(readers[j], holders[j], db.readers)
    {
      var found := ReadersDao.FindById(db, Some(holders[i]));
      if found.value.None? {
        var missing := holders[i];
        assert missing in holders && missing !in db.readers;
        return Err(DaoError("Not found book"));
      }
      readers := readers + [found.value.value];
      i := i + 1;
    }
    r := Ok(readers);
  }

  // ---------------------------------------------------------------- writes

  /** `INSERT INTO book_lending (reader_id, book_id) VALUES (?, ?)`: appends
      the pair with no duplicate check and returns the same object. A null
      reader, book or id throws before the statement runs. */
  method Save(db: Database, entity: BookLending) returns (r: Result<BookLending>)
    modifies db
    ensures r.Err? <==> entity.reader == null || entity.reader.id.None? || entity.book == null || entity.book.id.None?
    ensures r.Err? ==> r.failure == NullPointer && db.bookLending == old(db.bookLending)
    ensures r.Ok? ==>
              r.value == entity &&
              db.bookLending == old(db.bookLending) + [LendingRow(entity.reader.id.value, entity.book.id.value)]
    ensures db.library == old(db.library) && db.books == old(db.books) && db.readers == old(db.readers)
  {
    if entity.reader == null || entity.reader.id.None? || entity.book == null || entity.book.id.None? {
      return Err(NullPointer);
    }
    db.bookLending := db.bookLending + [LendingRow(entity.reader.id.value, entity.book.id.value)];
    r := Ok(entity);
  }

  /** `DELETE FROM book_lending WHERE reader_id = ? AND book_id = ?`: removes
      every row of the pair and answers whether any row went. */
  method Delete(db: Database, readerId: Option<int>, bookId: Option<int>) returns (r: Result<bool>)
    modifies db
    ensures readerId.None? || bookId.None? ==> r == Err(NullPointer) && db.bookLending == old(db.bookLending)
    ensures readerId.Some? && bookId.Some? ==>
              db.bookLending == RemovePair(old(db.bookLending), readerId.value, bookId.value) &&
              r == Ok(LendingRow(readerId.value, bookId.value) in old(db.bookLending)) &&
              (r.value <==> |db.bookLending| < |old(db.bookLending)|)
    ensures db.library == old(db.library) && db.books == old(db.books) && db.readers == old(db.readers)
  {
    if readerId.None? || bookId.None? {
      return Err(NullPointer);
    }
    RemovePairEffect(db.bookLending, readerId.value, bookId.value);
    r := Ok(LendingRow(readerId.value, bookId.value) in db.bookLending);
    db.bookLending := RemovePair(db.bookLending, readerId.value, bookId.value);
  }
}
