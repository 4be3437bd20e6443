/** `by.polikarpov.dao.ReadersDao`: the statements on the `readers` table. */
module ReadersDao {
  import opened Base
  import opened Tables
  import opened ReadersEntity

  /** `p` holds row `k` of the readers table. */
  ghost predicate Holds(p: Readers, k: int, table: map<int, JString>)
    reads p
  {
    k in table && p.id == Some(k) && p.readersName == table[k]
  }

  /** `UPDATE readers SET readers_name = ? WHERE id = ?`. Unboxing a null id
      throws before the statement runs; otherwise the result says whether a
      row was updated. */
  method Update(db: Database, entity: Readers) returns (r: Result<bool>)
    modifies db
    ensures entity.id.None? ==> r == Err(NullPointer)
    ensures entity.id.Some? ==> r == Ok(entity.id.value in old(db.readers))
    ensures db.readers == if entity.id.Some? && entity.id.value in old(db.readers)
                          then old(db.readers)[entity.id.value := entity.readersName]
                          else old(db.readers)
    ensures db.books == old(db.books) && db.library == old(db.library) && db.bookLending == old(db.bookLending)
  {
    if entity.id.None? {
      return Err(NullPointer);
    }
    var k := entity.id.value;
    var found := k in db.readers;
    if found {
      db.readers := db.readers[k := entity.readersName];
    }
    r := Ok(found);
  }

  /** `builderReaders`: a new Readers carrying one row. */
  method BuilderReaders(id: int, readersName: JString) returns (p: Readers)
    ensures fresh(p)
    ensures p.id == Some(id) && p.readersName == readersName
  {
    p := new Readers(readersName);
    p.SetId(Some(id));
  }

  /** The read loop over the rows with keys `ids`: one new object per key,
      in that order. */
  method BuildAll(db: Database, ids: seq<int>) returns (readers: seq<Readers>)
    requires forall k :: k in ids ==> k in db.readers
    ensures |readers| == |ids|
    ensures forall i :: 0 <= i < |ids| ==> fresh(readers[i]) && Holds(readers[i], ids[i], db.readers)
    ensures forall i, j :: 0 <= i < j < |readers| ==> readers[i] != readers[j]
  {
    readers := [];
    var i := 0;
    while i < |ids|
      invariant 0 <= i <= |ids|
      invariant |readers| == i
      invariant forall j :: 0 <= j < i ==> fresh(readers[j]) && Holds(readers[j], ids[j], db.readers)
      invariant forall j, j' :: 0 <= j < j' < i ==> readers[j] != readers[j']
    {
      var p := BuilderReaders(ids[i], db.readers[ids[i]]);
      readers := readers + [p];
      i := i + 1;
    }
  }

  /** `SELECT id, readers_name FROM readers ORDER BY id`: one new object per
      row, every row exactly once, by strictly ascending id. */
  method FindAll(db: Database) returns (readers: seq<Readers>)
    ensures |readers| == |db.readers|
    ensures forall i :: 0 <= i < |readers| ==> Holds(readers[i], Ascending(db.readers.Keys)[i], db.readers)
    ensures forall i, j :: 0 <= i < j < |readers| ==> readers[i] != readers[j]
    ensures forall i :: 0 <= i < |readers| ==> fresh(readers[i])
  {
    readers := BuildAll(db, Ascending(db.readers.Keys));
  }

  /** `SELECT id, readers_name FROM readers WHERE id = ?`: present exactly when
      the row exists. A null id throws when it is unboxed. */
  method FindById(db: Database, id: Option<int>) returns (r: Result<Option<Readers>>)
    ensures id.None? <==> r.Err?
    ensures r.Err? ==> r.failure == NullPointer
    ensures r.Ok? ==> (r.value.Some? <==> id.value in db.readers)
    ensures r.Ok? && r.value.Some? ==> Holds(r.value.value, id.value, db.readers)
  {
    if id.None? {
      return Err(NullPointer);
    }
    if id.value in db.readers {
      var p := BuilderReaders(id.value, db.readers[id.value]);
      r := Ok(Some(p));
    } else {
      r := Ok(None);
    }
  }

  /** `INSERT INTO readers (readers_name) VALUES (?)`: the generated key, one
      not in use, is written into the caller's object, which is returned. */
  method Save(db: Database, entity: Readers) returns (saved: Readers)
    modifies db, entity
    ensures saved == entity
    ensures entity.id.Some? && entity.id.value !in old(db.readers)
    ensures entity.readersName == old(entity.readersName)
    ensures db.readers == old(db.readers)[entity.id.value := entity.readersName]
    ensures db.books == old(db.books) && db.library == old(db.library) && db.bookLending == old(db.bookLending)
  {
    var k := NextId(db.readers.Keys);
    db.readers := db.readers[k := entity.readersName];
    entity.SetId(Some(k));
    saved := entity;
  }

  /** `DELETE FROM readers WHERE id = ?`: true exactly when the row existed. */
  method Delete(db: Database, id: Option<int>) returns (r: Result<bool>)
    modifies db
    ensures id.None? ==> r == Err(NullPointer) && db.readers == old(db.readers)
    ensures id.Some? ==> r == Ok(id.value in old(db.readers)) && db.readers == old(db.readers) - {id.value}
    ensures db.books == old(db.books) && db.library == old(db.library) && db.bookLending == old(db.bookLending)
  {
    if id.None? {
      return Err(NullPointer);
    }
    r := Ok(id.value in db.readers);
    db.readers := db.readers - {id.value};
  }

  /** `delete(readerId, bookId)` is not implemented for readers: it answers
      false and touches nothing. */
  method DeletePair(readerId: Option<int>, bookId: Option<int>) returns (r: bool)
    ensures !r
  {
    r := false;
  }
}
