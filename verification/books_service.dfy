/** `by.polikarpov.service.BooksService`: BooksDto records in and out of the
    BooksDao, with existence guards in front of the writes. A record keeps the
    Library object the DAO hydrated the book with. */
module BooksService {
  import opened Base
  import opened Tables
  import opened LibraryEntity
  import opened BooksEntity
  import opened Dtos
  import LibraryDao
  import BooksDao

  /** The record `new BooksDto(id, title, author, library)` of a book. */
  function ToDto(b: Books): BooksDto
    reads b
  {
    BooksDto(b.id, b.title, b.author, b.library)
  }

  /** Record `d` carries row `k` of the books table and the library row it names. */
  ghost predicate DtoHolds(d: BooksDto, k: int, books: map<int, BookRow>, library: map<int, JString>)
    reads d.library
  {
    k in books && d.id == Some(k) && d.title == books[k].title && d.author == books[k].author &&
    d.library != null && LibraryDao.Holds(d.library, books[k].libraryId, library)
  }

  /** The records of a list of hydrated books, in order. */
  method ToDtos(books: seq<Books>) returns (dtos: seq<BooksDto>)
    ensures |dtos| == |books|
    ensures forall i :: 0 <= i < |books| ==> dtos[i] == ToDto(books[i])
  {
    dtos := seq(|books|, i requires 0 <= i < |books| reads books => ToDto(books[i]));
  }

  /** `getAll`: one record per book by ascending id, or the DAO's failure
      when some book names a missing library. */
  method GetAll(db: Database) returns (r: Result<seq<BooksDto>>)
    ensures r.Err? <==> exists k :: k in db.books && !BooksDao.Hydrates(db.books, db.library, k)
    ensures r.Err? ==> r.failure == DaoError("Library not found")
    ensures r.Ok? ==>
              var ids := Ascending(db.books.Keys);
              |r.value| == |ids| && forall i :: 0 <= i < |ids| ==> DtoHolds(r.value[i], ids[i], db.books, db.library)
  {
    var found := BooksDao.FindAll(db);
    if found.Err? {
      return Err(found.failure);
    }
    var dtos := ToDtos(found.value);
    r := Ok(dtos);
  }

  /** `getById`: the record of the book with that id, if there is one. */
  method GetById(db: Database, id: Option<int>) returns (r: Result<Option<BooksDto>>)
    ensures id.None? ==> r == Err(NullPointer)
    ensures id.Some? && id.value !in db.books ==> r == Ok(None)
    ensures id.Some? && id.value in db.books && !BooksDao.Hydrates(db.books, db.library, id.value) ==>
              r == Err(DaoError("Library not found"))
    ensures id.Some? && id.value in db.books && BooksDao.Hydrates(db.books, db.library, id.value) ==>
              r.Ok? && r.value.Some? && DtoHolds(r.value.value, id.value, db.books, db.library)
  {
    var found := BooksDao.FindById(db, id);
    if found.Err? {
      return Err(found.failure);
    }
    if found.value.None? {
      return Ok(None);
    }
    r := Ok(Some(ToDto(found.value.value)));
  }

  /** `getAllByLibraryId`: the records of exactly the books of that library. */
  method GetAllByLibraryId(db: Database, libraryId: Option<int>) returns (r: Result<seq<BooksDto>>)
    ensures libraryId.None? ==> r == Err(NullPointer)
    ensures libraryId.Some? ==>
              (r.Err? <==> libraryId.value !in db.library && exists k :: k in db.books && db.books[k].libraryId == libraryId.value)
    ensures libraryId.Some? && r.Err? ==> r.failure == DaoError("Library not found")
    ensures r.Ok? ==>
              var ids := BooksDao.OfLibrary(Ascending(db.books.Keys), db.books, libraryId.value);
              |r.value| == |ids| && forall i :: 0 <= i < |ids| ==> DtoHolds(r.value[i], ids[i], db.books, db.library)
  {
    var found := BooksDao.FindAllByLibraryId(db, libraryId);
    if found.Err? {
      return Err(found.failure);
    }
    var dtos := ToDtos(found.value);
    r := Ok(dtos);
  }

  /** `buildBook`: a new entity carrying the record's title, author and
      library, with a null id. */
  method BuildBook(dto: BooksDto) returns (b: Books)
    ensures fresh(b)
    ensures b.id == None && b.title == dto.title && b.author == dto.author && b.library == dto.library
  {
    b := new Books.Empty();
    b.SetTitle(dto.title);
    b.SetAuthor(dto.author);
    b.SetLibrary(dto.library);
  }

  /** `add`: inserts the record's title, author and library id under a key
      not in use; a record without a library or library id throws. */
  method Add(db: Database, dto: BooksDto) returns (c: Completion)
    modifies db
    ensures dto.library == null || dto.library.id.None? ==> c == Abrupt(NullPointer) && db.books == old(db.books)
    ensures dto.library != null && dto.library.id.Some? ==>
              c == Normal &&
              exists k :: k !in old(db.books) && db.books == old(db.books)[k := BookRow(dto.title, dto.author, dto.library.id.value)]
    ensures db.library == old(db.library) && db.readers == old(db.readers) && db.bookLending == old(db.bookLending)
  {
    var book := BuildBook(dto);
    var saved := BooksDao.Save(db, book);
    if saved.Err? {
      return Abrupt(saved.failure);
    }
    var k := book.id.value;
    assert k !in old(db.books) && db.books == old(db.books)[k := BookRow(dto.title, dto.author, dto.library.id.value)];
    c := Normal;
  }

  /** The message of the guard in `update`. */
  function UpdateMessage(dto: BooksDto): string {
    "Books " + Show(dto.title) + " does not exist"
  }

  /** The message of the guard in `delete`. */
  function DeleteMessage(id: int): string {
    "Books " + LongToString(id) + " does not exist"
  }

  /** `update`: a null or unknown id is refused with a message naming the
      title; the lookup itself fails when the stored book's library is
      missing; a record without a library or library id throws; otherwise the
      record's fields are stored under its id. */
  method Update(db: Database, dto: BooksDto) returns (c: Completion)
    modifies db
    ensures dto.id.None? || dto.id.value !in old(db.books) ==>
              c == Abrupt(IllegalArgument(UpdateMessage(dto))) && db.books == old(db.books)
    ensures dto.id.Some? && dto.id.value in old(db.books) && !BooksDao.Hydrates(old(db.books), old(db.library), dto.id.value) ==>
              c == Abrupt(DaoError("Library not found")) && db.books == old(db.books)
    ensures dto.id.Some? && dto.id.value in old(db.books) && BooksDao.Hydrates(old(db.books), old(db.library), dto.id.value) ==>
              if dto.library == null || dto.library.id.None?
              then c == Abrupt(NullPointer) && db.books == old(db.books)
              else c == Normal && db.books == old(db.books)[dto.id.value := BookRow(dto.title, dto.author, dto.library.id.value)]
    ensures db.library == old(db.library) && db.readers == old(db.readers) && db.bookLending == old(db.bookLending)
  {
    if dto.id.None? {
      return Abrupt(IllegalArgument(UpdateMessage(dto)));
    }
    var found := BooksDao.FindById(db, dto.id);
    if found.Err? {
      return Abrupt(found.failure);
    }
    if found.value.None? {
      return Abrupt(IllegalArgument(UpdateMessage(dto)));
    }
    var book := BuildBook(dto);
    book.SetId(dto.id);
    var updated := BooksDao.Update(db, book);
    if updated.Err? {
      return Abrupt(updated.failure);
    }
    c := Normal;
  }

  /** `delete`: a null id throws inside the lookup; an unknown id is refused
      with a message naming the id; the lookup fails when the book's library
      is missing; otherwise exactly that row goes. */
  method Delete(db: Database, id: Option<int>) returns (c: Completion)
    modifies db
    ensures id.None? ==> c == Abrupt(NullPointer) && db.books == old(db.books)
    ensures id.Some? && id.value !in old(db.books) ==>
              c == Abrupt(IllegalArgument(DeleteMessage(id.value))) && db.books == old(db.books)
    ensures id.Some? && id.value in old(db.books) && !BooksDao.Hydrates(old(db.books), old(db.library), id.value) ==>
              c == Abrupt(DaoError("Library not found")) && db.books == old(db.books)
    ensures id.Some? && id.value in old(db.books) && BooksDao.Hydrates(old(db.books), old(db.library), id.value) ==>
              c == Normal && db.books == old(db.books) - {id.value}
    ensures db.library == old(db.library) && db.readers == old(db.readers) && db.bookLending == old(db.bookLending)
  {
    var found := BooksDao.FindById(db, id);
    if found.Err? {
      return Abrupt(found.failure);
    }
    if found.value.None? {
      return Abrupt(IllegalArgument(DeleteMessage(id.value)));
    }
    var _ := BooksDao.Delete(db, id);
    c := Normal;
  }
}
