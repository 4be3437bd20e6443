/** `by.polikarpov.service.BookLendingService`: lending records in and out of
    the BookLendingDao. The composite delete guards the reader and the book
    separately, not the pair. */
module BookLendingService {
  import opened Base
  import opened Tables
  import opened ReadersEntity
  import opened BooksEntity
  import opened BookLendingEntity
  import opened Dtos
  import opened BookLendingDao
  import BooksService
  import ReadersService

  /** Record `d` carries lending row `row` with its reader and its book. */
  ghost predicate DtoHolds(d: BookLendingDto, row: LendingRow, readers: map<int, JString>,
                           books: map<int, BookRow>, library: map<int, JString>)
    reads if d.books.Some? then d.books.value.library else null
  {
    d.readers.Some? && row.readerId in readers && d.readers.value == ReadersDto(Some(row.readerId), readers[row.readerId]) &&
    d.books.Some? && BooksService.DtoHolds(d.books.value, row.bookId, books, library)
  }

  /** The record of one lending, each side copied field by field. */
  function ToDto(l: BookLending): BookLendingDto
    reads l, l.reader, l.book
  {
    BookLendingDto(
      if l.reader == null then None else Some(ReadersDto(l.reader.id, l.reader.readersName)),
      if l.book == null then None else Some(BooksService.ToDto(l.book)))
  }

  /** `getAll`: one record per lending row in scan order, or the failure of
      the first row that cannot be hydrated. */
  method GetAll(db: Database) returns (r: Result<seq<BookLendingDto>>)
    ensures r.Err? <==> FirstRowError(db.readers, db.books, db.library, db.bookLending).Some?
    ensures r.Err? ==> Some(r.failure) == FirstRowError(db.readers, db.books, db.library, db.bookLending)
    ensures r.Ok? ==>
              |r.value| == |db.bookLending| &&
              forall i :: 0 <= i < |r.value| ==> DtoHolds(r.value[i], db.bookLending[i], db.readers, db.books, db.library)
  {
    var found := BookLendingDao.FindAll(db);
    if found.Err? {
      return Err(found.failure);
    }
    var ls := found.value;
    var dtos := seq(|ls|, i requires 0 <= i < |ls| reads if 0 <= i < |ls| then {ls[i], ls[i].reader, ls[i].book} else {} => ToDto(ls[i]));
    r := Ok(dtos);
  }

  /** `getById` is not implemented: always empty. */
  method GetById(id: Option<int>) returns (r: Option<BookLendingDto>)
    ensures r.None?
  {
    r := None;
  }

  /** `update` is not implemented: it completes and changes nothing. */
  method Update(dto: BookLendingDto) returns (c: Completion)
    ensures c == Normal
  {
    c := Normal;
  }

  /** `delete(id)` is not implemented: it completes and changes nothing. */
  method DeleteById(id: Option<int>) returns (c: Completion)
    ensures c == Normal
  {
    c := Normal;
  }

  /** `buildBookLending`: a new lending whose reader and book are new
      entities copied field by field from the record's two sides; a missing
      side stays null. */
  method BuildBookLending(dto: BookLendingDto) returns (l: BookLending)
    ensures fresh(l)
    ensures dto.readers.None? ==> l.reader == null
    ensures dto.readers.Some? ==>
              l.reader != null && fresh(l.reader) &&
              l.reader.id == dto.readers.value.id && l.reader.readersName == dto.readers.value.readerName
    ensures dto.books.None? ==> l.book == null
    ensures dto.books.Some? ==>
              l.book != null && fresh(l.book) &&
              l.book.id == dto.books.value.id && l.book.title == dto.books.value.title &&
              l.book.author == dto.books.value.author && l.book.library == dto.books.value.library
  {
    l := new BookLending.Empty();
    if dto.readers.Some? {
      var reader := new Readers(dto.readers.value.readerName);
      reader.SetId(dto.readers.value.id);
      l.SetReader(reader);
    }
    if dto.books.Some? {
      var book := new Books(dto.books.value.title, dto.books.value.author, dto.books.value.library);
      book.SetId(dto.books.value.id);
      l.SetBook(book);
    }
  }

  /** `add`: appends one lending row of the record's reader id and book id;
      a missing side or id throws and nothing is written. */
  method Add(db: Database, dto: BookLendingDto) returns (c: Completion)
    modifies db
    ensures dto.readers.None? || dto.readers.value.id.None? || dto.books.None? || dto.books.value.id.None? ==>
              c == Abrupt(NullPointer) && db.bookLending == old(db.bookLending)
    ensures dto.readers.Some? && dto.readers.value.id.Some? && dto.books.Some? && dto.books.value.id.Some? ==>
              c == Normal &&
              db.bookLending == old(db.bookLending) + [LendingRow(dto.readers.value.id.value, dto.books.value.id.value)]
    ensures db.library == old(db.library) && db.books == old(db.books) && db.readers == old(db.readers)
  {
    var lending := BuildBookLending(dto);
    var saved := BookLendingDao.Save(db, lending);
    if saved.Err? {
      return Abrupt(saved.failure);
    }
    c := Normal;
  }

  /** The reader guard of `delete(readerId, bookId)` lets the call through:
      the reader's books load and there is at least one. */
  ghost predicate ReaderGuardPasses(rows: seq<LendingRow>, books: map<int, BookRow>, library: map<int, JString>, readerId: int) {
    FirstBookError(books, library, LentBookIds(rows, readerId)).None? && LentBookIds(rows, readerId) != []
  }

  /** The book guard of `delete(readerId, bookId)` lets the call through:
      the book's holders load and there is at least one. */
  ghost predicate BookGuardPasses(rows: seq<LendingRow>, readers: map<int, JString>, bookId: int) {
    (forall p :: p in HolderIds(rows, bookId) ==> p in readers) && HolderIds(rows, bookId) != []
  }

  /** The message of the reader guard. */
  function ReaderMessage(readerId: int): string {
    "Reader " + LongToString(readerId) + " does not exist"
  }

  /** The message of the book guard. */
  function BookMessage(bookId: int): string {
    "Book " + LongToString(bookId) + " does not exist"
  }

  /** `delete(readerId, bookId)`: the reader must hold some book, then the
      book must be held by someone; only then are the rows of the pair
      removed. A null id throws inside the lookup, and a lookup that cannot
      hydrate its rows fails with the DAO's message. */
  method Delete(db: Database, readerId: Option<int>, bookId: Option<int>) returns (c: Completion)
    modifies db
    ensures readerId.None? ==> c == Abrupt(NullPointer) && db.bookLending == old(db.bookLending)
    ensures readerId.Some? && FirstBookError(old(db.books), old(db.library), LentBookIds(old(db.bookLending), readerId.value)).Some? ==>
              c.Abrupt? &&
              Some(c.failure) == FirstBookError(old(db.books), old(db.library), LentBookIds(old(db.bookLending), readerId.value)) &&
              db.bookLending == old(db.bookLending)
    ensures readerId.Some? && LentBookIds(old(db.bookLending), readerId.value) == [] ==>
              c == Abrupt(IllegalArgument(ReaderMessage(readerId.value))) && db.bookLending == old(db.bookLending)
    ensures readerId.Some? && ReaderGuardPasses(old(db.bookLending), old(db.books), old(db.library), readerId.value) ==>
              if bookId.None? then
                c == Abrupt(NullPointer) && db.bookLending == old(db.bookLending)
              else if exists p :: p in HolderIds(old(db.bookLending), bookId.value) && p !in old(db.readers) then
                c == Abrupt(DaoError("Not found book")) && db.bookLending == old(db.bookLending)
              else if HolderIds(old(db.bookLending), bookId.value) == [] then
                c == Abrupt(IllegalArgument(BookMessage(bookId.value))) && db.bookLending == old(db.bookLending)
              else
                c == Normal && db.bookLending == RemovePair(old(db.bookLending), readerId.value, bookId.value)
    ensures db.library == old(db.library) && db.books == old(db.books) && db.readers == old(db.readers)
  {
    var lent := BookLendingDao.FindByReaderId(db, readerId);
    if lent.Err? {
      return Abrupt(lent.failure);
    }
    if |lent.value| == 0 {
      return Abrupt(IllegalArgument(ReaderMessage(readerId.value)));
    }
    var holders := BookLendingDao.FindByBookId(db, bookId);
    if holders.Err? {
      return Abrupt(holders.failure);
    }
    if |holders.value| == 0 {
      return Abrupt(IllegalArgument(BookMessage(bookId.value)));
    }
    var _ := BookLendingDao.Delete(db, readerId, bookId);
    c := Normal;
  }

  /** Deleting rows of a pair that was never lent leaves the table as it is. */
  lemma {:induction false} RemoveAbsentPair(rows: seq<LendingRow>, readerId: int, bookId: int)
    requires LendingRow(readerId, bookId) !in rows
    ensures RemovePair(rows, readerId, bookId) == rows
  {
    if rows != [] {
      assert rows[0] != LendingRow(readerId, bookId);
      assert LendingRow(readerId, bookId) !in rows[1..];
      RemoveAbsentPair(rows[1..], readerId, bookId);
      assert rows == [rows[0]] + rows[1..];
    }
  }

  /** The guards look at each side alone: when reader `r` holds some book
      `b2` and book `b1` is held by some reader `p`, deleting the pair
      `(r, b1)` passes both guards even though `r` never held `b1`, and
      removes nothing. */
  lemma GuardIsPerSide(rows: seq<LendingRow>, readers: map<int, JString>, books: map<int, BookRow>,
                       library: map<int, JString>, r: int, b1: int, b2: int, p: int)
    requires LendingRow(r, b2) in rows && LendingRow(p, b1) in rows && LendingRow(r, b1) !in rows
    requires FirstBookError(books, library, LentBookIds(rows, r)).None?
    requires forall q :: q in HolderIds(rows, b1) ==> q in readers
    ensures ReaderGuardPasses(rows, books, library, r) && BookGuardPasses(rows, readers, b1)
    ensures RemovePair(rows, r, b1) == rows
  {
    assert b2 in LentBookIds(rows, r);
    assert p in HolderIds(rows, b1);
    RemoveAbsentPair(rows, r, b1);
  }

  /** A pair that is lent, with its rows loadable, always passes both guards,
      and the delete then takes every row of that pair away. */
  lemma LentPairPassesGuards(rows: seq<LendingRow>, readers: map<int, JString>, books: map<int, BookRow>,
                             library: map<int, JString>, r: int, b: int)
    requires LendingRow(r, b) in rows
    requires FirstBookError(books, library, LentBookIds(rows, r)).None?
    requires forall q :: q in HolderIds(rows, b) ==> q in readers
    ensures ReaderGuardPasses(rows, books, library, r) && BookGuardPasses(rows, readers, b)
    ensures LendingRow(r, b) !in RemovePair(rows, r, b) && |RemovePair(rows, r, b)| < |rows|
  {
    assert b in LentBookIds(rows, r);
    assert r in HolderIds(rows, b);
    RemovePairEffect(rows, r, b);
  }

  /** `getByReaderId`: the records of the reader's books, one per lending
      row, duplicates included. */
  method GetByReaderId(db: Database, id: Option<int>) returns (r: Result<seq<BooksDto>>)
    ensures id.None? ==> r == Err(NullPointer)
    ensures id.Some? ==> (r.Err? <==> FirstBookError(db.books, db.library, LentBookIds(db.bookLending, id.value)).Some?)
    ensures id.Some? && r.Err? ==> Some(r.failure) == FirstBookError(db.books, db.library, LentBookIds(db.bookLending, id.value))
    ensures r.Ok? ==>
              var ids := LentBookIds(db.bookLending, id.value);
              |r.value| == |ids| && forall i :: 0 <= i < |ids| ==> BooksService.DtoHolds(r.value[i], ids[i], db.books, db.library)
  {
    var found := BookLendingDao.FindByReaderId(db, id);
    if found.Err? {
      return Err(found.failure);
    }
    var dtos := BooksService.ToDtos(found.value);
    r := Ok(dtos);
  }

  /** `getByNotReaderId`, called by the readers page: the records of the
      catalog books the reader does not hold, by ascending id. */
  method GetByNotReaderId(db: Database, id: Option<int>) returns (r: Result<seq<BooksDto>>)
    ensures id.None? ==> r == Err(NullPointer)
    ensures id.Some? ==> (r.Err? <==> FirstBookError(db.books, db.library, NotLentIds(db.books, db.bookLending, id.value)).Some?)
    ensures id.Some? && r.Err? ==> r.failure == DaoError("Library not found")
    ensures r.Ok? ==>
              var ids := NotLentIds(db.books, db.bookLending, id.value);
              |r.value| == |ids| && forall i :: 0 <= i < |ids| ==> BooksService.DtoHolds(r.value[i], ids[i], db.books, db.library)
  {
    var found := BookLendingDao.FindByNotReaderId(db, id);
    if found.Err? {
      return Err(found.failure);
    }
    var dtos := BooksService.ToDtos(found.value);
    r := Ok(dtos);
  }

  /** `getByBookId`: the records of the book's holders, one per lending row. */
  method GetByBookId(db: Database, id: Option<int>) returns (r: Result<seq<ReadersDto>>)
    ensures id.None? ==> r == Err(NullPointer)
    ensures id.Some? ==> (r.Ok? <==> forall p :: p in HolderIds(db.bookLending, id.value) ==> p in db.readers)
    ensures id.Some? && r.Err? ==> r.failure == DaoError("Not found book")
    ensures r.Ok? ==> r.value == ReadersService.Records(db.readers, HolderIds(db.bookLending, id.value))
  {
    var found := BookLendingDao.FindByBookId(db, id);
    if found.Err? {
      return Err(found.failure);
    }
    var ps := found.value;
    r := Ok(seq(|ps|, i requires 0 <= i < |ps| reads ps => ReadersDto(ps[i].id, ps[i].readersName)));
  }
}
