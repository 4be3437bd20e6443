/** `by.polikarpov.dao.LibraryDao`: the statements on the `library` table. */
module LibraryDao {
  import opened Base
  import opened Tables
  import opened LibraryEntity

  /** `l` holds row `k` of the library table. */
  ghost predicate Holds(l: Library, k: int, table: map<int, JString>)
    reads l
  {
    k in table && l.id == Some(k) && l.libraryName == table[k]
  }

  /** `UPDATE library SET library_name = ? WHERE id = ?`. Unboxing a null id
      throws before the statement runs; otherwise the result says whether a
      row was updated. */
  method Update(db: Database, entity: Library) returns (r: Result<bool>)
    modifies db
    ensures entity.id.None? ==> r == Err(NullPointer)
    ensures entity.id.Some? ==> r == Ok(entity.id.value in old(db.library))
    ensures db.library == if entity.id.Some? && entity.id.value in old(db.library)
                          then old(db.library)[entity.id.value := entity.libraryName]
                          else old(db.library)
    ensures db.books == old(db.books) && db.readers == old(db.readers) && db.bookLending == old(db.bookLending)
  {
    if entity.id.None? {
      return Err(NullPointer);
    }
    var k := entity.id.value;
    var found := k in db.library;
    if found {
      db.library := db.library[k := entity.libraryName];
    }
    r := Ok(found);
  }

  /** `builderLibrary`: a new Library carrying one row. */
  method BuilderLibrary(id: int, libraryName: JString) returns (l: Library)
    ensures fresh(l)
    ensures l.id == Some(id) && l.libraryName == libraryName
  {
    l := new Library(libraryName);
    l.SetId(Some(id));
  }

  /** The read loop over the rows with keys `ids`: one new object per key,
      in that order. */
  method BuildAll(db: Database, ids: seq<int>) returns (libraries: seq<Library>)
    requires forall k :: k in ids ==> k in db.library
    ensures |libraries| == |ids|
    ensures forall i :: 0 <= i < |ids| ==> fresh(libraries[i]) && Holds(libraries[i], ids[i], db.library)
    ensures forall i, j :: 0 <= i < j < |libraries| ==> libraries[i] != libraries[j]
  {
    libraries := [];
    var i := 0;
    while i < |ids|
      invariant 0 <= i <= |ids|
      invariant |libraries| == i
      invariant forall j :: 0 <= j < i ==> fresh(libraries[j]) && Holds(libraries[j], ids[j], db.library)
      invariant forall j, j' :: 0 <= j < j' < i ==> libraries[j] != libraries[j']
    {
      var l := BuilderLibrary(ids[i], db.library[ids[i]]);
      libraries := libraries + [l];
      i := i + 1;
    }
  }

  /** `SELECT id, library_name FROM library ORDER BY id`: one new object per
      row, every row exactly once, by strictly ascending id. */
  method FindAll(db: Database) returns (libraries: seq<Library>)
    ensures |libraries| == |db.library|
    ensures forall i :: 0 <= i < |libraries| ==> Holds(libraries[i], Ascending(db.library.Keys)[i], db.library)
    ensures forall i, j :: 0 <= i < j < |libraries| ==> libraries[i] != libraries[j]
    ensures forall i :: 0 <= i < |libraries| ==> fresh(libraries[i])
  {
    libraries := BuildAll(db, Ascending(db.library.Keys));
  }

  /** `SELECT id, library_name FROM library WHERE id = ?`: present exactly when
      the row exists. A null id throws when it is unboxed. */
  method FindById(db: Database, id: Option<int>) returns (r: Result<Option<Library>>)
    ensures id.None? <==> r.Err?
    ensures r.Err? ==> r.failure == NullPointer
    ensures r.Ok? ==> (r.value.Some? <==> id.value in db.library)
    ensures r.Ok? && r.value.Some? ==> Holds(r.value.value, id.value, db.library)
  {
    if id.None? {
      return Err(NullPointer);
    }
    if id.value in db.library {
      var l := BuilderLibrary(id.value, db.library[id.value]);
      r := Ok(Some(l));
    } else {
      r := Ok(None);
    }
  }

  /** `INSERT INTO library (library_name) VALUES (?)`: the generated key, one
      not in use, is written into the caller's object, which is returned. */
  method Save(db: Database, entity: Library) returns (saved: Library)
    modifies db, entity
    ensures saved == entity
    ensures entity.id.Some? && entity.id.value !in old(db.library)
    ensures entity.libraryName == old(entity.libraryName)
    ensures db.library == old(db.library)[entity.id.value := entity.libraryName]
    ensures db.books == old(db.books) && db.readers == old(db.readers) && db.bookLending == old(db.bookLending)
  {
    var k := NextId(db.library.Keys);
    db.library := db.library[k := entity.libraryName];
    entity.SetId(Some(k));
    saved := entity;
  }

  /** `DELETE FROM library WHERE id = ?`: true exactly when the row existed. */
  method Delete(db: Database, id: Option<int>) returns (r: Result<bool>)
    modifies db
    ensures id.None? ==> r == Err(NullPointer) && db.library == old(db.library)
    ensures id.Some? ==> r == Ok(id.value in old(db.library)) && db.library == old(db.library) - {id.value}
    ensures db.books == old(db.books) && db.readers == old(db.readers) && db.bookLending == old(db.bookLending)
  {
    if id.None? {
      return Err(NullPointer);
    }
    r := Ok(id.value in db.library);
    db.library := db.library - {id.value};
  }

  /** `delete(readerId, bookId)` is not implemented for libraries: it answers
      false and touches nothing. */
  method DeletePair(readerId: Option<int>, bookId: Option<int>) returns (r: bool)
    ensures !r
  {
    r := false;
  }
}
