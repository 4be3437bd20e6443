/** `by.polikarpov.servlet.ReadersServlet` at `/readers`: the choice each
    handler makes from the request parameters, and what carrying it out does
    to the database and the response. Besides the readers themselves it
    lends a book to a reader and takes a lent book back. */
module ReadersServlet {
  import opened Base
  import opened Tables
  import opened Dtos
  import opened Http
  import opened BookLendingDao
  import ReadersService
  import BooksService
  import BooksDao
  import BookLendingService

  /** What `doPost`, `doPut` or `doDelete` decides to do. */
  datatype Action =
    | Update(dto: ReadersDto, location: string)                // readersService.update, then redirect
    | Add(dto: ReadersDto, location: string)                   // readersService.add, then redirect
    | Lend(readerParam: Param, bookParam: string, location: string)  // bookLendingService.add, then redirect
    | Unlend(readerId: int, bookId: int, location: string)     // bookLendingService.delete(r, b), then redirect
    | Delete(id: int, location: string)                        // readersService.delete, then redirect
    | Reject(message: string)                                  // sendError(404, message)
    | BadNumber                                                // Long.valueOf threw

  /** `doPut`: an id and a name, or a 404. */
  function RoutePut(ctx: string, id: Param, readerName: Param): (a: Action)
    ensures !(Present(id) && Present(readerName)) <==> a == Reject("Reader not exists")
    ensures a.Update? <==> Present(id) && Present(readerName) && ParseParam(id).Some?
    ensures a.Update? ==> a == Update(ReadersDto(ParseParam(id), readerName), ctx + "/readers")
    ensures Present(id) && Present(readerName) && ParseParam(id).None? ==> a == BadNumber
  {
    if !Present(id) || !Present(readerName) then Reject("Reader not exists")
    else if ParseParam(id).None? then BadNumber
    else Update(ReadersDto(ParseParam(id), readerName), ctx + "/readers")
  }

  /** `doDelete`: with a book id, take that book back from the reader and
      return to the reader's page; without one, delete the reader. */
  function RouteDelete(ctx: string, id: Param, bookId: Param): (a: Action)
    ensures !Present(id) <==> a == Reject("Reader not exists")
    ensures a.Unlend? <==> ParseParam(id).Some? && Present(bookId) && ParseParam(bookId).Some?
    ensures a.Unlend? ==>
              a == Unlend(ParseParam(id).value, ParseParam(bookId).value, ctx + "/readers?id=" + LongToString(ParseParam(id).value))
    ensures a.Delete? <==> ParseParam(id).Some? && !Present(bookId)
    ensures a.Delete? ==> a == Delete(ParseParam(id).value, ctx + "/readers")
    ensures Present(id) && (ParseParam(id).None? || (Present(bookId) && ParseParam(bookId).None?)) ==> a == BadNumber
  {
    if !Present(id) then Reject("Reader not exists")
    else if ParseParam(id).None? then BadNumber
    else if Present(bookId) then
      if ParseParam(bookId).None? then BadNumber
      else Unlend(ParseParam(id).value, ParseParam(bookId).value, ctx + "/readers?id=" + LongToString(ParseParam(id).value))
    else Delete(ParseParam(id).value, ctx + "/readers")
  }

  /** `doPost`: id and name update; a name alone adds; otherwise a book to
      lend lends it; otherwise an id goes to `doDelete`; nothing is a 404. */
  function RoutePost(ctx: string, id: Param, readerName: Param, bookIdSave: Param, bookId: Param): (a: Action)
    ensures Present(id) && Present(readerName) ==> a == RoutePut(ctx, id, readerName)
    ensures !Present(id) && Present(readerName) ==> a == Add(ReadersDto(None, readerName), ctx + "/readers")
    ensures !Present(readerName) && Present(bookIdSave) ==>
              a == Lend(id, bookIdSave.value, ctx + "/readers?id=" + Show(id))
    ensures !Present(readerName) && !Present(bookIdSave) && Present(id) ==> a == RouteDelete(ctx, id, bookId)
    ensures !Present(readerName) && !Present(bookIdSave) && !Present(id) ==> a == Reject("Reader's name cannot be empty")
  {
    if Present(id) && Present(readerName) then RoutePut(ctx, id, readerName)
    else if Present(readerName) then Add(ReadersDto(None, readerName), ctx + "/readers")
    else if Present(bookIdSave) then Lend(id, bookIdSave.value, ctx + "/readers?id=" + Show(id))
    else if Present(id) then RouteDelete(ctx, id, bookId)
    else Reject("Reader's name cannot be empty")
  }

  /** `doPost` never answers with the 404 of `doPut` or `doDelete`, and a
      lend or a take-back returns to the page of the reader it names. */
  lemma PostNeverRejectsAsPutOrDelete(ctx: string, id: Param, readerName: Param, bookIdSave: Param, bookId: Param)
    ensures RoutePost(ctx, id, readerName, bookIdSave, bookId) != Reject("Reader not exists")
    ensures RoutePost(ctx, id, readerName, bookIdSave, bookId).Lend? ==>
              RoutePost(ctx, id, readerName, bookIdSave, bookId).location == ctx + "/readers?id=" + Show(id)
    ensures RoutePost(ctx, id, readerName, bookIdSave, bookId).Unlend? ==>
              RoutePost(ctx, id, readerName, bookIdSave, bookId).location ==
                ctx + "/readers?id=" + LongToString(RoutePost(ctx, id, readerName, bookIdSave, bookId).readerId)
  {
  }

  /** The two redirects back to a reader's page agree whenever the id
      parameter is written canonically. */
  lemma ReaderPageAgrees(ctx: string, n: int)
    requires IsLong(n)
    ensures RoutePost(ctx, Some(LongToString(n)), None, None, Some("1")).Unlend?
    ensures RoutePost(ctx, Some(LongToString(n)), None, Some("1"), None).location ==
            RoutePost(ctx, Some(LongToString(n)), None, None, Some("1")).location
  {
    ParseParamOfLong(n);
    ParseParamOfLong(1);
    assert LongToString(1) == "1";
  }

  /** Carrying out an action through ReadersService and BookLendingService. */
  method Perform(db: Database, a: Action) returns (resp: Response)
    modifies db
    ensures a.Reject? ==> resp == NotFound(Some(a.message)) && db.readers == old(db.readers) && db.bookLending == old(db.bookLending)
    ensures a.BadNumber? ==> resp == Thrown(NumberFormat) && db.readers == old(db.readers) && db.bookLending == old(db.bookLending)
    ensures a.Add? ==>
              resp == Redirect(a.location) && db.bookLending == old(db.bookLending) &&
              exists k :: k !in old(db.readers) && db.readers == old(db.readers)[k := a.dto.readerName]
    ensures a.Update? && a.dto.id.Some? && a.dto.id.value in old(db.readers) ==>
              resp == Redirect(a.location) && db.readers == old(db.readers)[a.dto.id.value := a.dto.readerName] &&
              db.bookLending == old(db.bookLending)
    ensures a.Update? && (a.dto.id.None? || a.dto.id.value !in old(db.readers)) ==>
              resp == Thrown(IllegalArgument(ReadersService.UpdateMessage(a.dto))) &&
              db.readers == old(db.readers) && db.bookLending == old(db.bookLending)
    ensures a.Delete? && a.id in old(db.readers) ==>
              resp == Redirect(a.location) && db.readers == old(db.readers) - {a.id} && db.bookLending == old(db.bookLending)
    ensures a.Delete? && a.id !in old(db.readers) ==>
              resp == Thrown(IllegalArgument(ReadersService.DeleteMessage(a.id))) &&
              db.readers == old(db.readers) && db.bookLending == old(db.bookLending)
    ensures a.Lend? ==> db.readers == old(db.readers)
    ensures a.Lend? && ParseParam(a.readerParam).None? ==> resp == Thrown(NumberFormat) && db.bookLending == old(db.bookLending)
    ensures a.Lend? && ParseParam(a.readerParam).Some? ==>
              var r, b := ParseParam(a.readerParam).value, ParseLong(a.bookParam);
              if r !in old(db.readers) then resp == Thrown(NoSuchElement) && db.bookLending == old(db.bookLending)
              else if b.None? then resp == Thrown(NumberFormat) && db.bookLending == old(db.bookLending)
              else if b.value !in old(db.books) then resp == Thrown(NoSuchElement) && db.bookLending == old(db.bookLending)
              else if !BooksDao.Hydrates(old(db.books), old(db.library), b.value) then
                resp == Thrown(DaoError("Library not found")) && db.bookLending == old(db.bookLending)
              else resp == Redirect(a.location) && db.bookLending == old(db.bookLending) + [LendingRow(r, b.value)]
    ensures a.Unlend? ==> db.readers == old(db.readers)
    ensures a.Unlend? ==>
              var rows, lent, holders := old(db.bookLending), LentBookIds(old(db.bookLending), a.readerId), HolderIds(old(db.bookLending), a.bookId);
              if FirstBookError(old(db.books), old(db.library), lent).Some? then
                resp == Thrown(FirstBookError(old(db.books), old(db.library), lent).value) && db.bookLending == rows
              else if lent == [] then
                resp == Thrown(IllegalArgument(BookLendingService.ReaderMessage(a.readerId))) && db.bookLending == rows
              else if exists p :: p in holders && p !in old(db.readers) then
                resp == Thrown(DaoError("Not found book")) && db.bookLending == rows
              else if holders == [] then
                resp == Thrown(IllegalArgument(BookLendingService.BookMessage(a.bookId))) && db.bookLending == rows
              else
                resp == Redirect(a.location) && db.bookLending == RemovePair(rows, a.readerId, a.bookId)
    ensures db.library == old(db.library) && db.books == old(db.books)
  {
    match a
    case Reject(message) =>
      resp := NotFound(Some(message));
    case BadNumber =>
      resp := Thrown(NumberFormat);
    case Add(dto, location) =>
      ReadersService.Add(db, dto);
      resp := Redirect(location);
    case Update(dto, location) =>
      var c := ReadersService.Update(db, dto);
      resp := if c.Abrupt? then Thrown(c.failure) else Redirect(location);
    case Delete(id, location) =>
      var c := ReadersService.Delete(db, Some(id));
      resp := if c.Abrupt? then Thrown(c.failure) else Redirect(location);
    case Unlend(readerId, bookId, location) =>
      var c := BookLendingService.Delete(db, Some(readerId), Some(bookId));
      resp := if c.Abrupt? then Thrown(c.failure) else Redirect(location);
    case Lend(readerParam, bookParam, location) =>
      var r := ParseParam(readerParam);
      if r.None? {
        return Thrown(NumberFormat);
      }
      var reader := ReadersService.GetById(db, r);
      if reader.Err? || reader.value.None? {
        return Thrown(NoSuchElement);
      }
      var b := ParseLong(bookParam);
      if b.None? {
        return Thrown(NumberFormat);
      }
      var book := BooksService.GetById(db, b);
      if book.Err? {
        return Thrown(book.failure);
      }
      if book.value.None? {
        return Thrown(NoSuchElement);
      }
      var _ := BookLendingService.Add(db, BookLendingDto(Some(reader.value.value), Some(book.value.value)));
      resp := Redirect(location);
  }

  /** `doGet`: without an id the list of readers; with one, the reader's
      books and the books the reader does not hold are loaded first (either
      may fail), then the detail page or a bare 404. */
  method DoGet(db: Database, id: Param) returns (resp: Response)
    ensures id.None? ==> resp == Forward("WEB-INF/jsp/readers.jsp")
    ensures id.Some? && ParseParam(id).None? ==> resp == Thrown(NumberFormat)
    ensures ParseParam(id).Some? ==>
              var n := ParseParam(id).value;
              var lent := FirstBookError(db.books, db.library, LentBookIds(db.bookLending, n));
              if lent.Some? then resp == Thrown(lent.value)
              else if FirstBookError(db.books, db.library, NotLentIds(db.books, db.bookLending, n)).Some? then
                resp == Thrown(DaoError("Library not found"))
              else if n in db.readers then resp == Forward("/WEB-INF/jsp/readerDetail.jsp")
              else resp == NotFound(None)
  {
    if id.None? {
      var _ := ReadersService.GetAll(db);
      return Forward("WEB-INF/jsp/readers.jsp");
    }
    var n := ParseParam(id);
    if n.None? {
      return Thrown(NumberFormat);
    }
    var books := BookLendingService.GetByReaderId(db, n);
    if books.Err? {
      return Thrown(books.failure);
    }
    var booksNot := BookLendingService.GetByNotReaderId(db, n);
    if booksNot.Err? {
      return Thrown(booksNot.failure);
    }
    var reader := ReadersService.GetById(db, n);
    resp := if reader.Ok? && reader.value.Some? then Forward("/WEB-INF/jsp/readerDetail.jsp") else NotFound(None);
  }
}
