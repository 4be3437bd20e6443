/** `by.polikarpov.servlet.BookServlet` at `/books`: the choice each handler
    makes from the request parameters, and what carrying it out does to the
    database and the response. Every write redirects to the page of the
    library named by the `libraryId` parameter, as typed. */
module BookServlet {
  import opened Base
  import opened Tables
  import opened LibraryEntity
  import opened Dtos
  import opened Http
  import LibraryService
  import BooksService
  import BooksDao
  import BookLendingService

  /** What `doPost`, `doPut` or `doDelete` decides to do. */
  datatype Action =
    | Update(id: int, title: JString, author: JString, libraryId: string, location: string)
    | Add(title: JString, author: JString, libraryId: string, location: string)
    | Delete(id: int, location: string)
    | Reject(message: string)
    | BadNumber

  /** The page of a library, as a redirect target. */
  function LibraryPage(ctx: string, libraryId: string): string {
    ctx + "/libraries?id=" + libraryId
  }

  /** `doPut`: all four parameters or a 404. */
  function RoutePut(ctx: string, id: Param, title: Param, author: Param, libraryId: Param): (a: Action)
    ensures !(Present(id) && Present(title) && Present(author) && Present(libraryId)) <==> a == Reject("Book's data not correct")
    ensures a.Update? <==> Present(id) && Present(title) && Present(author) && Present(libraryId) && ParseParam(id).Some?
    ensures a.Update? ==> a == Update(ParseParam(id).value, title, author, libraryId.value, LibraryPage(ctx, libraryId.value))
    ensures Present(id) && Present(title) && Present(author) && Present(libraryId) && ParseParam(id).None? ==> a == BadNumber
  {
    if !Present(id) || !Present(title) || !Present(author) || !Present(libraryId) then Reject("Book's data not correct")
    else if ParseParam(id).None? then BadNumber
    else Update(ParseParam(id).value, title, author, libraryId.value, LibraryPage(ctx, libraryId.value))
  }

  /** `doDelete`: an id and a library id, or a 404. */
  function RouteDelete(ctx: string, id: Param, libraryId: Param): (a: Action)
    ensures !(Present(id) && Present(libraryId)) <==> a == Reject("Not exists book")
    ensures a.Delete? <==> Present(libraryId) && ParseParam(id).Some?
    ensures a.Delete? ==> a == Delete(ParseParam(id).value, LibraryPage(ctx, libraryId.value))
    ensures Present(id) && Present(libraryId) && ParseParam(id).None? ==> a == BadNumber
  {
    if !Present(id) || !Present(libraryId) then Reject("Not exists book")
    else if ParseParam(id).None? then BadNumber
    else Delete(ParseParam(id).value, LibraryPage(ctx, libraryId.value))
  }

  /** `doPost`: all four update; title, author and library id add; id and
      library id delete; anything else is a 404. */
  function RoutePost(ctx: string, id: Param, title: Param, author: Param, libraryId: Param): (a: Action)
    ensures Present(id) && Present(title) && Present(author) && Present(libraryId) ==>
              a == RoutePut(ctx, id, title, author, libraryId)
    ensures !Present(id) && Present(title) && Present(author) && Present(libraryId) ==>
              a == Add(title, author, libraryId.value, LibraryPage(ctx, libraryId.value))
    ensures Present(id) && !(Present(title) && Present(author)) && Present(libraryId) ==>
              a == RouteDelete(ctx, id, libraryId)
    ensures !Present(libraryId) || (!Present(id) && !(Present(title) && Present(author))) ==>
              a == Reject("Book's data cannot be empty")
  {
    if Present(id) && Present(title) && Present(author) && Present(libraryId) then RoutePut(ctx, id, title, author, libraryId)
    else if Present(title) && Present(author) && Present(libraryId) then Add(title, author, libraryId.value, LibraryPage(ctx, libraryId.value))
    else if Present(id) && Present(libraryId) then RouteDelete(ctx, id, libraryId)
    else Reject("Book's data cannot be empty")
  }

  /** `doPost` hands over to `doPut` and `doDelete` only when their own
      checks will pass, and every write it chooses goes back to the page of
      the library it was given. */
  lemma PostNeverRejectsAsPutOrDelete(ctx: string, id: Param, title: Param, author: Param, libraryId: Param)
    ensures RoutePost(ctx, id, title, author, libraryId) != Reject("Book's data not correct")
    ensures RoutePost(ctx, id, title, author, libraryId) != Reject("Not exists book")
    ensures RoutePost(ctx, id, title, author, libraryId).Update? || RoutePost(ctx, id, title, author, libraryId).Add? ||
            RoutePost(ctx, id, title, author, libraryId).Delete? ==>
              RoutePost(ctx, id, title, author, libraryId).location == LibraryPage(ctx, libraryId.value)
  {
  }

  /** `getLibrary`: the library named by the parameter, rebuilt from its
      record. An unknown library sends a 404 and then still fails on the
      empty Optional. */
  method GetLibrary(db: Database, libraryId: string) returns (r: Result<Library>, sent: Option<string>)
    ensures ParseLong(libraryId).None? ==> r == Err(NumberFormat) && sent == None
    ensures ParseLong(libraryId).Some? && ParseLong(libraryId).value !in db.library ==>
              r == Err(NoSuchElement) && sent == Some("Library not found")
    ensures ParseLong(libraryId).Some? && ParseLong(libraryId).value in db.library ==>
              sent == None && r.Ok? && fresh(r.value) &&
              r.value.id == ParseLong(libraryId) && r.value.libraryName == db.library[ParseLong(libraryId).value]
  {
    sent := None;
    var n := ParseLong(libraryId);
    if n.None? {
      return Err(NumberFormat), sent;
    }
    var found := LibraryService.GetById(db, n);
    if found.Err? || found.value.None? {
      sent := Some("Library not found");
      return Err(NoSuchElement), sent;
    }
    var dto := found.value.value;
    var library := new Library(dto.libraryName);
    library.SetId(dto.id);
    r := Ok(library);
  }

  /** Carrying out an action through BooksService. A write first resolves
      the library parameter with `getLibrary`. */
  method Perform(db: Database, a: Action) returns (resp: Response)
    modifies db
    ensures a.Reject? ==> resp == NotFound(Some(a.message)) && db.books == old(db.books)
    ensures a.BadNumber? ==> resp == Thrown(NumberFormat) && db.books == old(db.books)
    ensures (a.Update? || a.Add?) && ParseLong(a.libraryId).None? ==>
              resp == Thrown(NumberFormat) && db.books == old(db.books)
    ensures (a.Update? || a.Add?) && ParseLong(a.libraryId).Some? && ParseLong(a.libraryId).value !in old(db.library) ==>
              resp == NotFoundThenThrown("Library not found", NoSuchElement) && db.books == old(db.books)
    ensures a.Add? && ParseLong(a.libraryId).Some? && ParseLong(a.libraryId).value in old(db.library) ==>
              resp == Redirect(a.location) &&
              exists k :: k !in old(db.books) && db.books == old(db.books)[k := BookRow(a.title, a.author, ParseLong(a.libraryId).value)]
    ensures a.Update? && ParseLong(a.libraryId).Some? && ParseLong(a.libraryId).value in old(db.library) ==>
              if a.id !in old(db.books) then
                resp == Thrown(IllegalArgument(BooksService.UpdateMessage(BooksDto(Some(a.id), a.title, a.author, null)))) &&
                db.books == old(db.books)
              else if !BooksDao.Hydrates(old(db.books), old(db.library), a.id) then
                resp == Thrown(DaoError("Library not found")) && db.books == old(db.books)
              else
                resp == Redirect(a.location) &&
                db.books == old(db.books)[a.id := BookRow(a.title, a.author, ParseLong(a.libraryId).value)]
    ensures a.Delete? && a.id !in old(db.books) ==>
              resp == Thrown(IllegalArgument(BooksService.DeleteMessage(a.id))) && db.books == old(db.books)
    ensures a.Delete? && a.id in old(db.books) && !BooksDao.Hydrates(old(db.books), old(db.library), a.id) ==>
              resp == Thrown(DaoError("Library not found")) && db.books == old(db.books)
    ensures a.Delete? && a.id in old(db.books) && BooksDao.Hydrates(old(db.books), old(db.library), a.id) ==>
              resp == Redirect(a.location) && db.books == old(db.books) - {a.id}
    ensures db.library == old(db.library) && db.readers == old(db.readers) && db.bookLending == old(db.bookLending)
  {
    match a
    case Reject(message) =>
      resp := NotFound(Some(message));
    case BadNumber =>
      resp := Thrown(NumberFormat);
    case Delete(id, location) =>
      var c := BooksService.Delete(db, Some(id));
      resp := if c.Abrupt? then Thrown(c.failure) else Redirect(location);
    case Add(title, author, libraryId, location) =>
      var library, sent := GetLibrary(db, libraryId);
      if library.Err? {
        return if sent.Some? then NotFoundThenThrown(sent.value, library.failure) else Thrown(library.failure);
      }
      var _ := BooksService.Add(db, BooksDto(None, title, author, library.value));
      resp := Redirect(location);
    case Update(id, title, author, libraryId, location) =>
      var library, sent := GetLibrary(db, libraryId);
      if library.Err? {
        return if sent.Some? then NotFoundThenThrown(sent.value, library.failure) else Thrown(library.failure);
      }
      var c := BooksService.Update(db, BooksDto(Some(id), title, author, library.value));
      resp := if c.Abrupt? then Thrown(c.failure) else Redirect(location);
  }

  /** `doGet`: without a usable id the list of all books; with one, the
      book's readers are loaded first (and may fail), then the detail page
      or a bare 404. */
  method DoGet(db: Database, id: Param) returns (resp: Response)
    ensures !Present(id) ==>
              resp == if exists k :: k in db.books && !BooksDao.Hydrates(db.books, db.library, k)
                      then Thrown(DaoError("Library not found"))
                      else Forward("WEB-INF/jsp/books.jsp")
    ensures Present(id) && ParseParam(id).None? ==> resp == Thrown(NumberFormat)
    ensures ParseParam(id).Some? ==>
              var n := ParseParam(id).value;
              if exists p :: p in HolderIds(db.bookLending, n) && p !in db.readers then resp == Thrown(DaoError("Not found book"))
              else if n in db.books && !BooksDao.Hydrates(db.books, db.library, n) then resp == Thrown(DaoError("Library not found"))
              else if n in db.books then resp == Forward("/WEB-INF/jsp/bookDetail.jsp")
              else resp == NotFound(None)
  {
    if !Present(id) {
      var books := BooksService.GetAll(db);
      return if books.Err? then Thrown(books.failure) else Forward("WEB-INF/jsp/books.jsp");
    }
    var n := ParseParam(id);
    if n.None? {
      return Thrown(NumberFormat);
    }
    var readers := BookLendingService.GetByBookId(db, n);
    if readers.Err? {
      return Thrown(readers.failure);
    }
    var book := BooksService.GetById(db, n);
    if book.Err? {
      return Thrown(book.failure);
    }
    resp := if book.value.Some? then Forward("/WEB-INF/jsp/bookDetail.jsp") else NotFound(None);
  }
}
