# Library lending app — a Dafny model

This project models the core of `by.polikarpov`, a small servlet application. It keeps four
tables: `library`, `books`, `readers` and `book_lending`.

The model follows the program's layers:

- **entities**: `Library`, `Readers`, `Books` and `BookLending`. They are mutable objects with
  setters, `equals`, `hashCode` and `toString`, and are modelled as classes.
- **DAOs**: each runs its fixed SQL statements against a `Database` object. Keyed tables are
  maps from `id`, and `book_lending` is a sequence of rows that may repeat. Each DAO method is
  a method over that object.
- **services**: they copy entities into the DTO records `LibraryDto`, `ReadersDto`, `BooksDto`
  and `BookLendingDto`, guard updates and deletes, and call the DAOs.
- **servlets**: they read request parameters, pick an action, call a service, and answer with
  a forward, a redirect, a 404 or an exception.

Java `null` is `None`. A call that throws returns `Err(failure)`, or `Abrupt(failure)` for a
`void` method. The failures are `DaoError(message)`, `IllegalArgument(message)`,
`NullPointer`, `NoSuchElement` and `NumberFormat`. Database keys generated on insert are only
known to be unused. The statements with `ORDER BY id` return rows by ascending key. For the others the model
scans `books` by ascending key and `book_lending` in the table's own row order.

Files: `base.dfy` (Java vocabulary: `Long` text, `String.hashCode`, `Objects.hash`),
`tables.dfy` (the tables and what the SQL statements select), `dtos.dfy`, one file per
entity, DAO, service and servlet, and `http.dfy` (request parameters and responses).

## Model

| member | source | states |
|---|---|---|
| Base.ParseLong | src/main/java/by/polikarpov/servlet/LibraryServlet.java:53 | `Long.parseLong` yields a value only for a non-empty text with a digit; the value lies in the `long` range |
| Base.ParseLongRoundTrip | src/main/java/by/polikarpov/servlet/ReadersServlet.java:158-162 | parsing the decimal text of any `long` gives that `long` back, so an id written into a redirect reads back as itself |
| Base.LongToStringInjective | src/main/java/by/polikarpov/service/LibraryService.java:101-106 | two different `long` values never print the same text |
| Base.ShowLongInjective | src/main/java/by/polikarpov/entity/Library.java:69-74 | two different `Long` references (null included) never print the same text |
| Base.StringHash | src/main/java/by/polikarpov/entity/Library.java:96-98 | `String.hashCode` computed in wrapped 32-bit arithmetic always lies in the `int` range |
| Base.HashStep | src/main/java/by/polikarpov/entity/Books.java:141-143 | each step of `Objects.hash` stays in the `int` range |
| Tables.Database.constructor | src/main/java/by/polikarpov/dao/LibraryDao.java:21-24 | a fresh database has four empty tables |
| Tables.Ascending | src/main/java/by/polikarpov/dao/LibraryDao.java:61-64 | `ORDER BY id` lists every key exactly once, in strictly increasing order |
| Tables.NextId | src/main/java/by/polikarpov/dao/LibraryDao.java:132-159 | the key generated for an insert is not already in use |
| Tables.LentBookIds | src/main/java/by/polikarpov/dao/BookLendingDao.java:96-100 | `book_id` of the reader's rows: exactly the ids of those rows, each as often as its row repeats |
| Tables.HolderIds | src/main/java/by/polikarpov/dao/BookLendingDao.java:166-170 | `reader_id` of the book's rows: exactly the ids of those rows, each as often as its row repeats |
| Tables.Without | src/main/java/by/polikarpov/dao/BookLendingDao.java:129-137 | `NOT IN`: keeps exactly the ids that are not excluded, and keeps them in increasing order |
| Tables.RemovePair | src/main/java/by/polikarpov/dao/BookLendingDao.java:228-232 | the pair delete removes every copy of that pair and keeps every other row as often as before |
| Tables.RemovePairEffect | src/main/java/by/polikarpov/dao/BookLendingDao.java:243-252 | the delete shrinks the table exactly when the pair was lent; afterwards the pair is gone and every other row remains |
| Tables.ReaderPartition | src/main/java/by/polikarpov/dao/BookLendingDao.java:96-164 | for one reader, each catalog book is either lent to them or returned by the anti-join, never both; the anti-join returns catalog ids only, in increasing order |
| LibraryEntity.Library.constructor | src/main/java/by/polikarpov/entity/Library.java:17-19 | the name is set and the id stays null |
| LibraryEntity.Library.Empty | src/main/java/by/polikarpov/entity/Library.java:24-25 | both fields are null |
| LibraryEntity.Library.SetId | src/main/java/by/polikarpov/entity/Library.java:41-43 | sets the id and leaves the name unchanged |
| LibraryEntity.Library.SetLibraryName | src/main/java/by/polikarpov/entity/Library.java:59-61 | sets the name and leaves the id unchanged |
| LibraryEntity.Library.Equals | src/main/java/by/polikarpov/entity/Library.java:83-88 | equal exactly when the other object is a Library with the same name; ids are ignored |
| LibraryEntity.Library.HashCode | src/main/java/by/polikarpov/entity/Library.java:96-98 | the hash is a 32-bit `int` |
| LibraryEntity.LibraryHash | src/main/java/by/polikarpov/entity/Library.java:96-98 | `Objects.hashCode` of a reference is an `int` |
| LibraryEntity.SameLibraryIsEquivalence | src/main/java/by/polikarpov/entity/Library.java:83-88 | `Objects.equals` on libraries is reflexive, symmetric and transitive, and decided by the name alone |
| LibraryEntity.HashCodeAgreesWithEquals | src/main/java/by/polikarpov/entity/Library.java:83-98 | equal libraries have equal hash codes |
| LibraryEntity.ToStringDeterminesFields | src/main/java/by/polikarpov/entity/Library.java:69-74 | equal texts come from libraries with the same id and the same printed name |
| LibraryEntity.ToStringExample | src/main/java/by/polikarpov/entity/Library.java:69-74 | library 1 named "Main Library" prints as `Library{id=1, LibraryName='Main Library'}` |
| ReadersEntity.Readers.constructor | src/main/java/by/polikarpov/entity/Readers.java:18-20 | the name is set and the id stays null |
| ReadersEntity.Readers.Empty | src/main/java/by/polikarpov/entity/Readers.java:25-26 | both fields are null |
| ReadersEntity.Readers.SetId | src/main/java/by/polikarpov/entity/Readers.java:42-44 | sets the id and leaves the name unchanged |
| ReadersEntity.Readers.SetReadersName | src/main/java/by/polikarpov/entity/Readers.java:60-62 | sets the name and leaves the id unchanged |
| ReadersEntity.Readers.Equals | src/main/java/by/polikarpov/entity/Readers.java:84-89 | equal exactly when the other object is a Readers with the same name |
| ReadersEntity.Readers.HashCode | src/main/java/by/polikarpov/entity/Readers.java:97-99 | the hash is a 32-bit `int` |
| ReadersEntity.ReadersHash | src/main/java/by/polikarpov/entity/Readers.java:97-99 | `Objects.hashCode` of a reference is an `int` |
| ReadersEntity.SameReadersIsEquivalence | src/main/java/by/polikarpov/entity/Readers.java:84-89 | `Objects.equals` on readers is an equivalence decided by the name alone |
| ReadersEntity.HashCodeAgreesWithEquals | src/main/java/by/polikarpov/entity/Readers.java:84-99 | equal readers have equal hash codes |
| ReadersEntity.ToStringDeterminesFields | src/main/java/by/polikarpov/entity/Readers.java:70-75 | equal texts come from readers with the same id and the same printed name |
| ReadersEntity.ToStringExample | src/main/java/by/polikarpov/entity/Readers.java:70-75 | reader 1 "John Doe" prints as `Readers{id=1, readersName='John Doe'}` |
| BooksEntity.Books.constructor | src/main/java/by/polikarpov/entity/Books.java:21-26 | title, author and library are set and the id stays null |
| BooksEntity.Books.Empty | src/main/java/by/polikarpov/entity/Books.java:31-32 | all fields are null |
| BooksEntity.Books.SetId | src/main/java/by/polikarpov/entity/Books.java:48-50 | sets the id and leaves every other field unchanged |
| BooksEntity.Books.SetTitle | src/main/java/by/polikarpov/entity/Books.java:66-68 | sets the title and leaves every other field unchanged |
| BooksEntity.Books.SetAuthor | src/main/java/by/polikarpov/entity/Books.java:84-86 | sets the author and leaves every other field unchanged |
| BooksEntity.Books.SetLibrary | src/main/java/by/polikarpov/entity/Books.java:102-104 | sets the library reference and leaves every other field unchanged |
| BooksEntity.Books.Equals | src/main/java/by/polikarpov/entity/Books.java:128-133 | equal exactly when title, author and library agree, the libraries compared by name and null only with null |
| BooksEntity.Books.HashCode | src/main/java/by/polikarpov/entity/Books.java:141-143 | the hash is a 32-bit `int` |
| BooksEntity.Books.ToString | src/main/java/by/polikarpov/entity/Books.java:112-119 | throws `NullPointerException` exactly when the library is null |
| BooksEntity.BooksHash | src/main/java/by/polikarpov/entity/Books.java:141-143 | `Objects.hashCode` of a reference is an `int` |
| BooksEntity.SameBooksIsEquivalence | src/main/java/by/polikarpov/entity/Books.java:128-133 | `Objects.equals` on books is reflexive, symmetric and transitive |
| BooksEntity.HashCodeAgreesWithEquals | src/main/java/by/polikarpov/entity/Books.java:128-143 | equal books have equal hash codes |
| BooksEntity.ToStringDeterminesId | src/main/java/by/polikarpov/entity/Books.java:112-119 | two books that print the same text have the same id |
| BookLendingEntity.BookLending.constructor | src/main/java/by/polikarpov/entity/BookLending.java:18-21 | the reader and book references are set |
| BookLendingEntity.BookLending.Empty | src/main/java/by/polikarpov/entity/BookLending.java:26-27 | both references are null |
| BookLendingEntity.BookLending.SetReader | src/main/java/by/polikarpov/entity/BookLending.java:43-45 | sets the reader and leaves the book unchanged |
| BookLendingEntity.BookLending.SetBook | src/main/java/by/polikarpov/entity/BookLending.java:61-63 | sets the book and leaves the reader unchanged |
| BookLendingEntity.BookLending.Equals | src/main/java/by/polikarpov/entity/BookLending.java:85-90 | equal exactly when the readers are equal by name and the books are equal as books |
| BookLendingEntity.BookLending.HashCode | src/main/java/by/polikarpov/entity/BookLending.java:98-100 | the hash is a 32-bit `int` |
| BookLendingEntity.BookLending.ToString | src/main/java/by/polikarpov/entity/BookLending.java:71-76 | throws `NullPointerException` exactly when the reader or the book is null |
| BookLendingEntity.HashCodeAgreesWithEquals | src/main/java/by/polikarpov/entity/BookLending.java:85-100 | equal lendings have equal hash codes |
| BookLendingEntity.ToStringDeterminesFields | src/main/java/by/polikarpov/entity/BookLending.java:71-76 | for reader names without a comma, equal texts come from lendings with the same printed reader name and book title |
| BookLendingEntity.ToStringExample | src/main/java/by/polikarpov/entity/BookLending.java:71-76 | a lending of "John Doe" and "Effective Java" prints as `BookLending{reader=John Doe, book=Effective Java}` |
| LibraryDao.Update | src/main/java/by/polikarpov/dao/LibraryDao.java:35-59 | a null id throws; otherwise the answer says whether the row existed, only that row's name changes, and the other tables are untouched |
| LibraryDao.BuilderLibrary | src/main/java/by/polikarpov/dao/LibraryDao.java:95-101 | a new object carrying the row's id and name |
| LibraryDao.BuildAll | src/main/java/by/polikarpov/dao/LibraryDao.java:74-86 | the read loop builds one distinct new object per key, in order, each holding its row |
| LibraryDao.FindAll | src/main/java/by/polikarpov/dao/LibraryDao.java:61-86 | one distinct freshly allocated object per row, each holding its row, ordered by ascending key |
| LibraryDao.FindById | src/main/java/by/polikarpov/dao/LibraryDao.java:103-130 | a null id throws; otherwise the result is present exactly when the row exists, and holds that row |
| LibraryDao.Save | src/main/java/by/polikarpov/dao/LibraryDao.java:132-159 | inserts the name under an unused key, writes the key into the caller's object and returns that object |
| LibraryDao.Delete | src/main/java/by/polikarpov/dao/LibraryDao.java:161-182 | a null id throws; otherwise removes exactly that row and answers whether it existed |
| LibraryDao.DeletePair | src/main/java/by/polikarpov/dao/LibraryDao.java:184-188 | the unimplemented pair delete always answers false |
| ReadersDao.Update | src/main/java/by/polikarpov/dao/ReadersDao.java:35-59 | a null id throws; otherwise the answer says whether the row existed, and only that row's name changes |
| ReadersDao.BuilderReaders | src/main/java/by/polikarpov/dao/ReadersDao.java:95-101 | a new object carrying the row's id and name |
| ReadersDao.BuildAll | src/main/java/by/polikarpov/dao/ReadersDao.java:74-86 | the read loop builds one distinct new object per key, in order, each holding its row |
| ReadersDao.FindAll | src/main/java/by/polikarpov/dao/ReadersDao.java:61-86 | one distinct freshly allocated object per row, each holding its row, ordered by ascending key |
| ReadersDao.FindById | src/main/java/by/polikarpov/dao/ReadersDao.java:103-130 | a null id throws; otherwise the result is present exactly when the row exists, and holds that row |
| ReadersDao.Save | src/main/java/by/polikarpov/dao/ReadersDao.java:132-159 | inserts the name under an unused key and writes the key into the caller's object |
| ReadersDao.Delete | src/main/java/by/polikarpov/dao/ReadersDao.java:161-182 | a null id throws; otherwise removes exactly that row and answers whether it existed |
| ReadersDao.DeletePair | src/main/java/by/polikarpov/dao/ReadersDao.java:184-188 | the unimplemented pair delete always answers false |
| BooksDao.Update | src/main/java/by/polikarpov/dao/BooksDao.java:36-64 | a null library, library id or id throws; otherwise the answer says whether the row existed, and only that row is rewritten |
| BooksDao.BuilderBook | src/main/java/by/polikarpov/dao/BooksDao.java:100-117 | fails with "Library not found" exactly when the row's library is missing; otherwise a new book holding the row and its library |
| BooksDao.BuildAll | src/main/java/by/polikarpov/dao/BooksDao.java:79-91 | the read loop fails exactly when some row lacks its library; otherwise one distinct book per key, in order |
| BooksDao.OfLibrary | src/main/java/by/polikarpov/dao/BooksDao.java:148-151 | `WHERE library_id = ?` keeps exactly the keys of that library, in increasing order |
| BooksDao.FindAll | src/main/java/by/polikarpov/dao/BooksDao.java:66-91 | fails exactly when some book's library is missing; otherwise every book by ascending key, each holding its row |
| BooksDao.FindById | src/main/java/by/polikarpov/dao/BooksDao.java:119-146 | a null id throws; a missing row is empty; a row without its library fails; otherwise the book holding the row |
| BooksDao.FindAllByLibraryId | src/main/java/by/polikarpov/dao/BooksDao.java:148-174 | a null id throws; fails exactly when the library is missing but has books; otherwise exactly that library's books |
| BooksDao.Save | src/main/java/by/polikarpov/dao/BooksDao.java:176-205 | a null library or library id throws and changes nothing; otherwise inserts under an unused key written into the caller's object |
| BooksDao.Delete | src/main/java/by/polikarpov/dao/BooksDao.java:207-228 | a null id throws; otherwise removes exactly that row and answers whether it existed |
| BooksDao.DeletePair | src/main/java/by/polikarpov/dao/BooksDao.java:230-234 | the unimplemented pair delete always answers false |
| BookLendingDao.FirstBookError | src/main/java/by/polikarpov/dao/BookLendingDao.java:109-127 | the failure of the first book id that cannot be loaded, or none exactly when every id loads |
| BookLendingDao.FirstRowError | src/main/java/by/polikarpov/dao/BookLendingDao.java:50-62 | the failure of the first lending row that cannot be hydrated, or none exactly when every row can |
| BookLendingDao.CatalogBooksOnlyMissLibraries | src/main/java/by/polikarpov/dao/BookLendingDao.java:129-164 | loading ids taken from the books table can only fail with "Library not found" |
| BookLendingDao.Update | src/main/java/by/polikarpov/dao/BookLendingDao.java:32-36 | the unimplemented update always answers false |
| BookLendingDao.FindById | src/main/java/by/polikarpov/dao/BookLendingDao.java:64-68 | the unimplemented lookup is always empty |
| BookLendingDao.DeleteById | src/main/java/by/polikarpov/dao/BookLendingDao.java:223-226 | the unimplemented delete always answers false |
| BookLendingDao.BuilderBookLending | src/main/java/by/polikarpov/dao/BookLendingDao.java:77-94 | looks up the reader first ("Not found reader") and then the book; fails exactly when one is missing; otherwise a new lending holding the row |
| BookLendingDao.FindAll | src/main/java/by/polikarpov/dao/BookLendingDao.java:38-62 | fails with the first bad row's failure exactly when one exists; otherwise one lending per row, in scan order |
| BookLendingDao.LoadBooks | src/main/java/by/polikarpov/dao/BookLendingDao.java:109-127 | fails with the first failing id's error exactly when one fails; otherwise one book per id, each holding its row |
| BookLendingDao.FindByReaderId | src/main/java/by/polikarpov/dao/BookLendingDao.java:96-127 | a null id throws; otherwise the reader's books, one per lending row with duplicates, or the first failure |
| BookLendingDao.FindByNotReaderId | src/main/java/by/polikarpov/dao/BookLendingDao.java:129-164 | a null id throws; otherwise the catalog books the reader does not hold; fails only with "Library not found" |
| BookLendingDao.FindByBookId | src/main/java/by/polikarpov/dao/BookLendingDao.java:166-197 | a null id throws; fails with "Not found book" exactly when some holder is missing; otherwise one reader per lending row |
| BookLendingDao.Save | src/main/java/by/polikarpov/dao/BookLendingDao.java:199-221 | a null side or id throws and changes nothing; otherwise appends exactly one row for the pair |
| BookLendingDao.Delete | src/main/java/by/polikarpov/dao/BookLendingDao.java:228-252 | a null id throws; otherwise removes every row of the pair and answers true exactly when a row went |
| LibraryService.Records | src/main/java/by/polikarpov/service/LibraryService.java:48-52 | one record per key, in the given order, each carrying its row |
| LibraryService.Listing | src/main/java/by/polikarpov/service/LibraryService.java:48-52 | every row appears once as a record, and ids are strictly ascending |
| LibraryService.GetAll | src/main/java/by/polikarpov/service/LibraryService.java:48-52 | the records of all rows by ascending id |
| LibraryService.GetById | src/main/java/by/polikarpov/service/LibraryService.java:61-65 | a null id throws; otherwise the record of the row, present exactly when it exists |
| LibraryService.BuildLibrary | src/main/java/by/polikarpov/service/LibraryService.java:114-118 | a new entity with the record's name and a null id |
| LibraryService.Add | src/main/java/by/polikarpov/service/LibraryService.java:73-76 | exactly one new row, holding the record's name, under an unused key |
| LibraryService.Update | src/main/java/by/polikarpov/service/LibraryService.java:85-92 | a null or unknown id is refused with "Library <name> does not exist" and nothing changes; otherwise that row gets the name |
| LibraryService.Delete | src/main/java/by/polikarpov/service/LibraryService.java:101-106 | a null id throws; an unknown id is refused with "Library <id> does not exist"; otherwise exactly that row goes |
| LibraryService.DeleteMessageNamesId | src/main/java/by/polikarpov/service/LibraryService.java:101-106 | different ids are refused with different messages |
| ReadersService.Records | src/main/java/by/polikarpov/service/ReadersService.java:49-53 | one record per key, in the given order, each carrying its row |
| ReadersService.Listing | src/main/java/by/polikarpov/service/ReadersService.java:49-53 | every row appears once as a record, and ids are strictly ascending |
| ReadersService.GetAll | src/main/java/by/polikarpov/service/ReadersService.java:49-53 | the records of all rows by ascending id |
| ReadersService.GetById | src/main/java/by/polikarpov/service/ReadersService.java:62-66 | a null id throws; otherwise the record of the row, present exactly when it exists |
| ReadersService.BuildReaders | src/main/java/by/polikarpov/service/ReadersService.java:115-119 | a new entity with the record's name and a null id |
| ReadersService.Add | src/main/java/by/polikarpov/service/ReadersService.java:74-77 | exactly one new row, holding the record's name, under an unused key |
| ReadersService.Update | src/main/java/by/polikarpov/service/ReadersService.java:86-93 | a null or unknown id is refused with "Readers <name> does not exist"; otherwise that row gets the name |
| ReadersService.Delete | src/main/java/by/polikarpov/service/ReadersService.java:102-107 | a null id throws; an unknown id is refused with "Readers <id> does not exist"; otherwise exactly that row goes |
| ReadersService.DeleteMessageNamesId | src/main/java/by/polikarpov/service/ReadersService.java:102-107 | different ids are refused with different messages |
| BooksService.ToDtos | src/main/java/by/polikarpov/service/BooksService.java:49-53 | one record per book, in order, each copying its book |
| BooksService.GetAll | src/main/java/by/polikarpov/service/BooksService.java:49-53 | the DAO's failure, or one record per book by ascending id |
| BooksService.GetById | src/main/java/by/polikarpov/service/BooksService.java:62-66 | a null id throws; a missing row is empty; a row without its library fails; otherwise its record |
| BooksService.GetAllByLibraryId | src/main/java/by/polikarpov/service/BooksService.java:74-78 | the records of exactly that library's books, or the DAO's failure |
| BooksService.BuildBook | src/main/java/by/polikarpov/service/BooksService.java:127-133 | a new entity with the record's title, author and library, and a null id |
| BooksService.Add | src/main/java/by/polikarpov/service/BooksService.java:86-89 | throws exactly when the library or its id is null; otherwise one new row under an unused key |
| BooksService.Update | src/main/java/by/polikarpov/service/BooksService.java:98-105 | a null or unknown id is refused; a stored book without its library fails; a null library throws; otherwise the row is rewritten |
| BooksService.Delete | src/main/java/by/polikarpov/service/BooksService.java:114-119 | a null id throws; an unknown id is refused; a book without its library fails; otherwise exactly that row goes |
| BookLendingService.GetAll | src/main/java/by/polikarpov/service/BookLendingService.java:30-34 | the first bad row's failure, or one record per lending row in scan order |
| BookLendingService.GetById | src/main/java/by/polikarpov/service/BookLendingService.java:37-39 | always empty |
| BookLendingService.Update | src/main/java/by/polikarpov/service/BookLendingService.java:48-49 | completes and changes nothing |
| BookLendingService.DeleteById | src/main/java/by/polikarpov/service/BookLendingService.java:52-53 | completes and changes nothing |
| BookLendingService.BuildBookLending | src/main/java/by/polikarpov/service/BookLendingService.java:84-89 | a new lending whose new reader and new book copy the record's fields; a missing side stays null |
| BookLendingService.Add | src/main/java/by/polikarpov/service/BookLendingService.java:42-45 | throws exactly when a side or its id is missing; otherwise appends exactly one row for the pair |
| BookLendingService.Delete | src/main/java/by/polikarpov/service/BookLendingService.java:55-63 | the reader must hold some book, then the book must have some holder; each failing guard or lookup is reported and nothing changes; otherwise the rows of the pair go |
| BookLendingService.RemoveAbsentPair | src/main/java/by/polikarpov/service/BookLendingService.java:55-63 | deleting a pair that was never lent leaves the table as it is |
| BookLendingService.GuardIsPerSide | src/main/java/by/polikarpov/service/BookLendingService.java:55-63 | the guards check each side separately, so a pair never lent passes both guards and deletes nothing |
| BookLendingService.LentPairPassesGuards | src/main/java/by/polikarpov/service/BookLendingService.java:55-63 | a lent pair whose rows can be loaded passes both guards, and the delete then removes it |
| BookLendingService.GetByReaderId | src/main/java/by/polikarpov/service/BookLendingService.java:65-74 | a null id throws; otherwise the reader's book records, one per lending row, or the first failure |
| BookLendingService.GetByNotReaderId | src/main/java/by/polikarpov/servlet/ReadersServlet.java:59 | a null id throws; otherwise records of the catalog books the reader does not hold, by ascending id |
| BookLendingService.GetByBookId | src/main/java/by/polikarpov/service/BookLendingService.java:76-82 | a null id throws; "Not found book" exactly when a holder is missing; otherwise the holders' records, one per row |
| Http.ParseParam | src/main/java/by/polikarpov/servlet/LibraryServlet.java:123 | a parameter parses only when it is present, and the value is a `long` |
| Http.ParseParamOfLong | src/main/java/by/polikarpov/servlet/ReadersServlet.java:158-162 | the decimal text of a `long` is a present parameter that parses back to it |
| LibraryServlet.RoutePut | src/main/java/by/polikarpov/servlet/LibraryServlet.java:118-130 | a missing id or name gives a 404 "Library's data not correct"; otherwise an update redirecting to the list when the id parses, and a parse failure when it does not |
| LibraryServlet.RouteDelete | src/main/java/by/polikarpov/servlet/LibraryServlet.java:141-149 | a missing id gives a 404 "Not exists library"; otherwise a delete of the parsed id when it parses, and a parse failure when it does not |
| LibraryServlet.RoutePost | src/main/java/by/polikarpov/servlet/LibraryServlet.java:91-107 | id and name go to the update, a name alone adds, an id alone goes to the delete, and nothing gives a 404 "Library name cannot be empty" |
| LibraryServlet.PostNeverRejectsAsPutOrDelete | src/main/java/by/polikarpov/servlet/LibraryServlet.java:91-149 | a POST never ends in the 404 of the update or delete handler |
| LibraryServlet.Perform | src/main/java/by/polikarpov/servlet/LibraryServlet.java:91-149 | each action's effect on the library table and its response, including the service's refusals |
| LibraryServlet.DoGet | src/main/java/by/polikarpov/servlet/LibraryServlet.java:50-80 | no id lists libraries; a bad id throws; otherwise the detail page, a 404 when the library is missing, or the books lookup's failure |
| BookServlet.RoutePut | src/main/java/by/polikarpov/servlet/BookServlet.java:125-141 | any missing parameter gives a 404 "Book's data not correct"; otherwise an update redirecting to the library's page when the id parses, and a parse failure when it does not |
| BookServlet.RouteDelete | src/main/java/by/polikarpov/servlet/BookServlet.java:152-161 | a missing id or library id gives a 404 "Not exists book"; otherwise a delete redirecting to the library's page when the id parses, and a parse failure when it does not |
| BookServlet.RoutePost | src/main/java/by/polikarpov/servlet/BookServlet.java:93-114 | all four update, title, author and library id add, an id and library id delete, otherwise a 404 "Book's data cannot be empty" |
| BookServlet.PostNeverRejectsAsPutOrDelete | src/main/java/by/polikarpov/servlet/BookServlet.java:93-161 | a POST never ends in the other handlers' 404, and every write it makes redirects to the library's page |
| BookServlet.GetLibrary | src/main/java/by/polikarpov/servlet/BookServlet.java:171-180 | a bad id throws; a missing library sends a 404 "Library not found" and then throws; otherwise a new Library holding the row |
| BookServlet.Perform | src/main/java/by/polikarpov/servlet/BookServlet.java:93-180 | each action's effect on the books table and its response |
| BookServlet.DoGet | src/main/java/by/polikarpov/servlet/BookServlet.java:54-82 | no id lists books; a bad id throws; otherwise the detail page, a 404, or the first lookup's failure |
| ReadersServlet.RoutePut | src/main/java/by/polikarpov/servlet/ReadersServlet.java:131-143 | a missing id or name gives a 404 "Reader not exists"; otherwise an update redirecting to the list when the id parses, and a parse failure when it does not |
| ReadersServlet.RouteDelete | src/main/java/by/polikarpov/servlet/ReadersServlet.java:154-168 | a missing id gives a 404; with a book id, takes that book back and redirects to the reader's page; otherwise deletes the reader; an id or book id that does not parse gives a parse failure |
| ReadersServlet.RoutePost | src/main/java/by/polikarpov/servlet/ReadersServlet.java:95-120 | id and name update, a name alone adds, a book to save lends it, an id alone goes to the delete handler, nothing gives a 404 |
| ReadersServlet.PostNeverRejectsAsPutOrDelete | src/main/java/by/polikarpov/servlet/ReadersServlet.java:95-168 | a POST never ends in the "Reader not exists" 404, and lends and returns redirect to the reader's page |
| ReadersServlet.ReaderPageAgrees | src/main/java/by/polikarpov/servlet/ReadersServlet.java:114-162 | lending and taking back a book redirect to the same reader page for the same id |
| ReadersServlet.Perform | src/main/java/by/polikarpov/servlet/ReadersServlet.java:95-168 | each action's effect on the readers and lending tables and its response; a lend looks up the reader and then the book; an un-lend fails on the first of a bad lent book, a reader holding nothing, a holder missing from `readers`, or a book nobody holds, and otherwise removes that pair |
| ReadersServlet.DoGet | src/main/java/by/polikarpov/servlet/ReadersServlet.java:53-84 | no id lists readers; a bad id throws; otherwise the lent and not-lent lookups' failures, the detail page, or a 404 |

## Left out

- JDBC itself is not modelled: connections, drivers, `SQLException` wrapping other than the messages the code raises, and reading back `getGeneratedKeys`. A generated key is any key not in use.
- The statements without `ORDER BY` (the `book_lending` scans, `WHERE library_id = ?` and the `NOT IN` anti-join) return rows in an order the database chooses. The model fixes scan order: the order of `book_lending`, and ascending id for `books`.
- No foreign key, cascade or uniqueness constraint is assumed on the tables, because the code does not rely on one.
- JSP rendering, request attributes and the I/O of `forward`, `sendRedirect` and `sendError` are not modelled. A response records only the page, location or status message.
- The singletons, the DAO and service setters used to swap in mocks, and the `Dao` and `Service` interfaces are not modelled. Each operation takes the database explicitly.
- Concurrency is not modelled: every call runs alone.
- `Long.parseLong` accepts only ASCII digits here. Java also accepts other Unicode decimal digits.
- `String.hashCode` treats each `char` as one code unit. Strings are not re-encoded as UTF-16.
- `BookLendingService.BuildBookLending`: the service passes DTO records where entities are expected. The model reads this as copying the record's fields into new `Readers` and `Books` objects.
- `BookLendingService.GetByNotReaderId`: `BookLendingService.java` defines no `getByNotReaderId`, although `ReadersServlet.java:59` calls it. The model supplies it as a pass-through to the DAO's `findByNotReaderId`, by analogy with `getByReaderId`.
- `BookLendingEntity.BookLending.HashCode`, `LibraryEntity.Library.HashCode`, `ReadersEntity.Readers.HashCode`, `BooksEntity.Books.HashCode`: the contracts only say the hash is an `int` and agrees with `equals`. The exact values are computed but not stated.
- `LibraryEntity.Library.Equals`, `ReadersEntity.Readers.Equals`, `BooksEntity.Books.Equals`, `BookLendingEntity.BookLending.Equals`: `getClass()` comparison is replaced by static typing, so an object of another class is never passed.
- `util/ConnectionManager.java`, `util/PropertiesUtil.java` and `JdbcRunner.java` are not part of this model. They only open connections and read settings.
- The entity tests call constructors that take an id (`src/test/java/by/polikarpov/entity/BooksTest.java:11-12`), which the entities do not declare. Only the declared constructors are modelled.
- Keys and `NextId` are unbounded integers, not limited to the range of `long`. No code does arithmetic on ids, and a database that has used up that range is not modelled.
