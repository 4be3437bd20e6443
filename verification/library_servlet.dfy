/** `by.polikarpov.servlet.LibraryServlet` at `/libraries`: the choice each
    handler makes from the request parameters, and what carrying it out does
    to the database and the response. */
module LibraryServlet {
  import opened Base
  import opened Tables
  import opened Dtos
  import opened Http
  import LibraryService
  import BooksService

  /** What `doPost`, `doPut` or `doDelete` decides to do. */
  datatype Action =
    | Update(dto: LibraryDto, location: string)   // libraryService.update, then redirect
    | Add(dto: LibraryDto, location: string)      // libraryService.add, then redirect
    | Delete(id: int, location: string)           // libraryService.delete, then redirect
    | Reject(message: string)                     // sendError(404, message)
    | BadNumber                                   // Long.valueOf threw

  /** `doPut`: both parameters or a 404. */
  function RoutePut(ctx: string, id: Param, libraryName: Param): (a: Action)
    ensures !(Present(id) && Present(libraryName)) <==> a == Reject("Library's data not correct")
    ensures a.Update? <==> Present(id) && Present(libraryName) && ParseParam(id).Some?
    ensures a.Update? ==> a == Update(LibraryDto(ParseParam(id), libraryName), ctx + "/libraries")
    ensures Present(id) && Present(libraryName) && ParseParam(id).None? ==> a == BadNumber
  {
    if !Present(id) || !Present(libraryName) then Reject("Library's data not correct")
    else if ParseParam(id).None? then BadNumber
    else Update(LibraryDto(ParseParam(id), libraryName), ctx + "/libraries")
  }

  /** `doDelete`: an id or a 404. */
  function RouteDelete(ctx: string, id: Param): (a: Action)
    ensures !Present(id) <==> a == Reject("Not exists library")
    ensures a.Delete? <==> ParseParam(id).Some?
    ensures a.Delete? ==> a == Delete(ParseParam(id).value, ctx + "/libraries")
    ensures Present(id) && ParseParam(id).None? ==> a == BadNumber
  {
    if !Present(id) then Reject("Not exists library")
    else if ParseParam(id).None? then BadNumber
    else Delete(ParseParam(id).value, ctx + "/libraries")
  }

  /** `doPost`: id and name update, a name alone adds, an id alone deletes,
      and nothing at all is a 404. */
  function RoutePost(ctx: string, id: Param, libraryName: Param): (a: Action)
    ensures Present(id) && Present(libraryName) ==> a == RoutePut(ctx, id, libraryName)
    ensures !Present(id) && Present(libraryName) ==> a == Add(LibraryDto(None, libraryName), ctx + "/libraries")
    ensures Present(id) && !Present(libraryName) ==> a == RouteDelete(ctx, id)
    ensures !Present(id) && !Present(libraryName) ==> a == Reject("Library name cannot be empty")
  {
    if Present(id) && Present(libraryName) then RoutePut(ctx, id, libraryName)
    else if Present(libraryName) then Add(LibraryDto(None, libraryName), ctx + "/libraries")
    else if Present(id) then RouteDelete(ctx, id)
    else Reject("Library name cannot be empty")
  }

  /** `doPost` hands over to `doPut` and `doDelete` only when their own
      checks will pass, so it never answers with their 404 messages. */
  lemma PostNeverRejectsAsPutOrDelete(ctx: string, id: Param, libraryName: Param)
    ensures RoutePost(ctx, id, libraryName) != Reject("Library's data not correct")
    ensures RoutePost(ctx, id, libraryName) != Reject("Not exists library")
    ensures RoutePost(ctx, id, libraryName).Reject? ==> !Present(id) && !Present(libraryName)
  {
  }

  /** Carrying out an action through LibraryService. */
  method Perform(db: Database, a: Action) returns (resp: Response)
    modifies db
    ensures a.Reject? ==> resp == NotFound(Some(a.message)) && db.library == old(db.library)
    ensures a.BadNumber? ==> resp == Thrown(NumberFormat) && db.library == old(db.library)
    ensures a.Add? ==>
              resp == Redirect(a.location) &&
              exists k :: k !in old(db.library) && db.library == old(db.library)[k := a.dto.libraryName]
    ensures a.Update? && a.dto.id.Some? && a.dto.id.value in old(db.library) ==>
              resp == Redirect(a.location) && db.library == old(db.library)[a.dto.id.value := a.dto.libraryName]
    ensures a.Update? && (a.dto.id.None? || a.dto.id.value !in old(db.library)) ==>
              resp == Thrown(IllegalArgument(LibraryService.UpdateMessage(a.dto))) && db.library == old(db.library)
    ensures a.Delete? && a.id in old(db.library) ==>
              resp == Redirect(a.location) && db.library == old(db.library) - {a.id}
    ensures a.Delete? && a.id !in old(db.library) ==>
              resp == Thrown(IllegalArgument(LibraryService.DeleteMessage(a.id))) && db.library == old(db.library)
    ensures db.books == old(db.books) && db.readers == old(db.readers) && db.bookLending == old(db.bookLending)
  {
    match a
    case Reject(message) =>
      resp := NotFound(Some(message));
    case BadNumber =>
      resp := Thrown(NumberFormat);
    case Add(dto, location) =>
      LibraryService.Add(db, dto);
      resp := Redirect(location);
    case Update(dto, location) =>
      var c := LibraryService.Update(db, dto);
      resp := if c.Abrupt? then Thrown(c.failure) else Redirect(location);
    case Delete(id, location) =>
      var c := LibraryService.Delete(db, Some(id));
      resp := if c.Abrupt? then Thrown(c.failure) else Redirect(location);
  }

  /** `doGet`: without an id the list page; with one, the library's books are
      loaded first (and may fail), then the detail page or a bare 404. */
  method DoGet(db: Database, id: Param) returns (resp: Response)
    ensures id.None? ==> resp == Forward("WEB-INF/jsp/libraries.jsp")
    ensures id.Some? && ParseParam(id).None? ==> resp == Thrown(NumberFormat)
    ensures ParseParam(id).Some? ==>
              var n := ParseParam(id).value;
              if n !in db.library && exists k :: k in db.books && db.books[k].libraryId == n
              then resp == Thrown(DaoError("Library not found"))
              else if n in db.library then resp == Forward("/WEB-INF/jsp/libraryDetail.jsp")
              else resp == NotFound(None)
  {
    if id.None? {
      var _ := LibraryService.GetAll(db);
      return Forward("WEB-INF/jsp/libraries.jsp");
    }
    var n := ParseParam(id);
    if n.None? {
      return Thrown(NumberFormat);
    }
    var books := BooksService.GetAllByLibraryId(db, n);
    if books.Err? {
      return Thrown(books.failure);
    }
    var library := LibraryService.GetById(db, n);
    resp := if library.Ok? && library.value.Some? then Forward("/WEB-INF/jsp/libraryDetail.jsp") else NotFound(None);
  }
}
