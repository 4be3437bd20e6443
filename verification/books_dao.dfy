/** `by.polikarpov.dao.BooksDao`: the statements on the `books` table. Every
    book read is hydrated with the Library row its `library_id` names. */
module BooksDao {
  import opened Base
  import opened Tables
  import opened LibraryEntity
  import opened BooksEntity
  import LibraryDao

  /** `b` holds row `k` of the books table together with the library row it names. */
  ghost predicate Holds(b: Books, k: int, books: map<int, BookRow>, library: map<int, JString>)
    reads b, b.library
  {
    k in books && b.id == Some(k) && b.title == books[k].title && b.author == books[k].author &&
    b.library != null && LibraryDao.Holds(b.library, books[k].libraryId, library)
  }

  /** Row `k` names a library that exists. */
  predicate Hydrates(books: map<int, BookRow>, library: map<int, JString>, k: int)
    requires k in books
  {
    books[k].libraryId in library
  }

  /** `UPDATE books SET title = ?, author = ?, library_id = ? WHERE id = ?`.
      A null library, library id or book id throws before the statement runs. */
  method Update(db: Database, entity: Books) returns (r: Result<bool>)
    modifies db
    ensures r.Err? <==> entity.library == null || entity.library.id.None? || entity.id.None?
    ensures r.Err? ==> r.failure == NullPointer
    ensures r.Ok? ==> r.value == (entity.id.value in old(db.books))
    ensures db.books == if r.Ok? && r.value
                        then old(db.books)[entity.id.value := BookRow(entity.title, entity.author, entity.library.id.value)]
                        else old(db.books)
    ensures db.library == old(db.library) && db.readers == old(db.readers) && db.bookLending == old(db.bookLending)
  {
    if entity.library == null || entity.library.id.None? || entity.id.None? {
      return Err(NullPointer);
    }
    var k := entity.id.value;
    var found := k in db.books;
    if found {
      db.books := db.books[k := BookRow(entity.title, entity.author, entity.library.id.value)];
    }
    r := Ok(found);
  }

  /** `builderBook`: looks up the library of row `k` and fails with
      "Library not found" when there is none. */
  method BuilderBook(db: Database, k: int) returns (r: Result<Books>)
    requires k in db.books
    ensures r.Err? <==> !Hydrates(db.books, db.library, k)
    ensures r.Err? ==> r.failure == DaoError("Library not found")
    ensures r.Ok? ==> fresh(r.value) && Holds(r.value, k, db.books, db.library)
  {
    var row := db.books[k];
    var found := LibraryDao.FindById(db, Some(row.libraryId));
    if found.value.None? {
      return Err(DaoError("Library not found"));
    }
    var b := new Books(row.title, row.author, found.value.value);
    b.SetId(Some(k));
    r := Ok(b);
  }

  /** The loop `while (result.next()) books.add(builderBook(result))` over the
      rows with keys `ids`: the first row without a library aborts the list. */
  method BuildAll(db: Database, ids: seq<int>) returns (r: Result<seq<Books>>)
    requires forall k :: k in ids ==> k in db.books
    ensures r.Err? <==> exists k :: k in ids && !Hydrates(db.books, db.library, k)
    ensures r.Err? ==> r.failure == DaoError("Library not found")
    ensures r.Ok? ==> |r.value| == |ids| && forall i :: 0 <= i < |ids| ==> Holds(r.value[i], ids[i], db.books, db.library)
    ensures r.Ok? ==> forall i, j :: 0 <= i < j < |ids| ==> r.value[i] != r.value[j]
  {
    var books: seq<Books> := [];
    var i := 0;
    while i < |ids|
      invariant 0 <= i <= |ids|
      invariant |books| == i
      invariant forall j :: 0 <= j < i ==> Hydrates(db.books, db.library, ids[j])
      invariant forall j :: 0 <= j < i ==> fresh(books[j]) && Holds(books[j], ids[j], db.books, db.library)
      invariant forall j, j' :: 0 <= j < j' < i ==> books[j] != books[j']
    {
      var b := BuilderBook(db, ids[i]);
      if b.Err? {
        return Err(b.failure);
      }
      books := books + [b.value];
      i := i + 1;
    }
    r := Ok(books);
  }

  /** The keys of `ids` whose row names library `libraryId`, in order. */
  function OfLibrary(ids: seq<int>, books: map<int, BookRow>, libraryId: int): (r: seq<int>)
    requires forall k :: k in ids ==> k in books
    ensures forall k :: k in r <==> k in ids && books[k].libraryId == libraryId
    ensures StrictlyIncreasing(ids) ==> StrictlyIncreasing(r)
  {
    if ids == [] then []
    else
      var rest := OfLibrary(ids[1..], books, libraryId);
      assert StrictlyIncreasing(ids) ==> forall j :: 0 <= j < |rest| ==> ids[0] < rest[j] by {
        if StrictlyIncreasing(ids) {
          forall j | 0 <= j < |rest| ensures ids[0] < rest[j] {
            assert rest[j] in ids[1..];
          }
        }
      }
      if books[ids[0]].libraryId == libraryId then [ids[0]] + rest else rest
  }

  /** `SELECT id, title, author, library_id FROM books ORDER BY id`: one book
      per row, by ascending id; a single book whose library is missing makes
      the whole call fail. */
  method FindAll(db: Database) returns (r: Result<seq<Books>>)
    ensures r.Err? <==> exists k :: k in db.books && !Hydrates(db.books, db.library, k)
    ensures r.Err? ==> r.failure == DaoError("Library not found")
    ensures r.Ok? ==>
              var ids := Ascending(db.books.Keys);
              |r.value| == |ids| && forall i :: 0 <= i < |ids| ==> Holds(r.value[i], ids[i], db.books, db.library)
  {
    r := BuildAll(db, Ascending(db.books.Keys));
  }

  /** `SELECT ... FROM books WHERE id = ?`: present exactly when the row
      exists, failing when its library is missing. */
  method FindById(db: Database, id: Option<int>) returns (r: Result<Option<Books>>)
    ensures id.None? ==> r == Err(NullPointer)
    ensures id.Some? && id.value !in db.books ==> r == Ok(None)
    ensures id.Some? && id.value in db.books && !Hydrates(db.books, db.library, id.value) ==> r == Err(DaoError("Library not found"))
    ensures r.Ok? && r.value.Some? ==> id.Some? && Holds(r.value.value, id.value, db.books, db.library)
    ensures id.Some? && id.value in db.books && Hydrates(db.books, db.library, id.value) ==> r.Ok? && r.value.Some?
  {
    if id.None? {
      return Err(NullPointer);
    }
    if id.value !in db.books {
      return Ok(None);
    }
    var b := BuilderBook(db, id.value);
    if b.Err? {
      return Err(b.failure);
    }
    r := Ok(Some(b.value));
  }

  /** `SELECT ... FROM books WHERE library_id = ?`: exactly the books of that
      library; it fails when there is such a book but no such library. The
      statement has no ORDER BY; the model scans by ascending id. */
  method FindAllByLibraryId(db: Database, libraryId: Option<int>) returns (r: Result<seq<Books>>)
    ensures libraryId.None? ==> r == Err(NullPointer)
    ensures libraryId.Some? ==>
              (r.Err? <==> libraryId.value !in db.library && exists k :: k in db.books && db.books[k].libraryId == libraryId.value)
    ensures libraryId.Some? && r.Err? ==> r.failure == DaoError("Library not found")
    ensures r.Ok? ==>
              var ids := OfLibrary(Ascending(db.books.Keys), db.books, libraryId.value);
              |r.value| == |ids| && forall i :: 0 <= i < |ids| ==> Holds(r.value[i], ids[i], db.books, db.library)
  {
    if libraryId.None? {
      return Err(NullPointer);
    }
    r := BuildAll(db, OfLibrary(Ascending(db.books.Keys), db.books, libraryId.value));
  }

  /** `INSERT INTO books (title, author, library_id) VALUES (?, ?, ?)`: a null
      library or library id throws; otherwise the generated key, one not in
      use, is written into the caller's object, which is returned. */
  method Save(db: Database, entity: Books) returns (r: Result<Books>)
    modifies db, entity
    ensures r.Err? <==> old(entity.library) == null || old(entity.library.id).None?
    ensures r.Err? ==> r.failure == NullPointer && db.books == old(db.books) && entity.id == old(entity.id)
    ensures entity.title == old(entity.title) && entity.author == old(entity.author) && entity.library == old(entity.library)
    ensures r.Ok? ==>
              r.value == entity && entity.id.Some? && entity.id.value !in old(db.books) &&
              db.books == old(db.books)[entity.id.value := BookRow(entity.title, entity.author, entity.library.id.value)]
    ensures db.library == old(db.library) && db.readers == old(db.readers) && db.bookLending == old(db.bookLending)
  {
    if entity.library == null || entity.library.id.None? {
      return Err(NullPointer);
    }
    var k := NextId(db.books.Keys);
    db.books := db.books[k := BookRow(entity.title, entity.author, entity.library.id.value)];
    entity.SetId(Some(k));
    r := Ok(entity);
  }

  /** `DELETE FROM books WHERE id = ?`: true exactly when the row existed. */
  method Delete(db: Database, id: Option<int>) returns (r: Result<bool>)
    modifies db
    ensures id.None? ==> r == Err(NullPointer) && db.books == old(db.books)
    ensures id.Some? ==> r == Ok(id.value in old(db.books)) && db.books == old(db.books) - {id.value}
    ensures db.library == old(db.library) && db.readers == old(db.readers) && db.bookLending == old(db.bookLending)
  {
    if id.None? {
      return Err(NullPointer);
    }
    r := Ok(id.value in db.books);
    db.books := db.books - {id.value};
  }

  /** `delete(readerId, bookId)` is not implemented for books: it answers
      false and touches nothing. */
  method DeletePair(readerId: Option<int>, bookId: Option<int>) returns (r: bool)
    ensures !r
  {
    r := false;
  }
}
