/** `by.polikarpov.service.LibraryService`: LibraryDto records in and out of
    the LibraryDao, with existence guards in front of the writes. */
module LibraryService {
  import opened Base
  import opened Tables
  import opened LibraryEntity
  import opened Dtos
  import LibraryDao

  /** The records of the rows with keys `ids`, in that order. */
  function Records(table: map<int, JString>, ids: seq<int>): (r: seq<LibraryDto>)
    requires forall k :: k in ids ==> k in table
    ensures |r| == |ids|
    ensures forall i :: 0 <= i < |ids| ==> ids[i] in table && r[i] == LibraryDto(Some(ids[i]), table[ids[i]])
  {
    if ids == [] then []
    else
      var k := ids[0];
      assert k in ids && k in table;
      [LibraryDto(Some(k), table[k])] + Records(table, ids[1..])
  }

  /** What `getAll` answers for a library table: one record per row, every
      row once, by strictly ascending id. */
  function Listing(table: map<int, JString>): (r: seq<LibraryDto>)
    ensures |r| == |table|
    ensures forall i :: 0 <= i < |r| ==> r[i].id.Some? && r[i].id.value in table && r[i].libraryName == table[r[i].id.value]
    ensures forall i, j :: 0 <= i < j < |r| ==> r[i].id.value < r[j].id.value
    ensures forall k :: k in table ==> LibraryDto(Some(k), table[k]) in r
  {
    var ids := Ascending(table.Keys);
    var r := Records(table, ids);
    RecordsOfKeys(table, ids, r);
    r
  }

  /** The records of a strictly increasing list of all the keys list every row
      once, in that order. */
  lemma RecordsOfKeys(table: map<int, JString>, ids: seq<int>, r: seq<LibraryDto>)
    requires forall k :: k in ids <==> k in table
    requires StrictlyIncreasing(ids) && |ids| == |table|
    requires |r| == |ids|
    requires forall i :: 0 <= i < |ids| ==> ids[i] in table && r[i] == LibraryDto(Some(ids[i]), table[ids[i]])
    ensures forall i :: 0 <= i < |r| ==> r[i].id.Some? && r[i].id.value in table && r[i].libraryName == table[r[i].id.value]
    ensures forall i, j :: 0 <= i < j < |r| ==> r[i].id.value < r[j].id.value
    ensures forall k :: k in table ==> LibraryDto(Some(k), table[k]) in r
  {
    forall k | k in table ensures LibraryDto(Some(k), table[k]) in r {
      var i :| 0 <= i < |ids| && ids[i] == k;
      assert r[i] == LibraryDto(Some(k), table[k]);
    }
  }

  /** `getAll`: the DAO's libraries, each copied into a record, in order. */
  method GetAll(db: Database) returns (dtos: seq<LibraryDto>)
    ensures dtos == Listing(db.library)
  {
    var libraries := LibraryDao.FindAll(db);
    dtos := seq(|libraries|, i requires 0 <= i < |libraries| reads libraries => LibraryDto(libraries[i].id, libraries[i].libraryName));
    ghost var ids := Ascending(db.library.Keys);
    ghost var expected := Records(db.library, ids);
    forall i | 0 <= i < |dtos| ensures dtos[i] == expected[i] {
      assert libraries[i].id == Some(ids[i]);
    }
    assert dtos == expected;
  }

  /** `getById`: the record of the row with that id, if there is one. */
  method GetById(db: Database, id: Option<int>) returns (r: Result<Option<LibraryDto>>)
    ensures id.None? ==> r == Err(NullPointer)
    ensures id.Some? && id.value !in db.library ==> r == Ok(None)
    ensures id.Some? && id.value in db.library ==> r == Ok(Some(LibraryDto(id, db.library[id.value])))
  {
    var found := LibraryDao.FindById(db, id);
    if found.Err? {
      return Err(found.failure);
    }
    if found.value.None? {
      return Ok(None);
    }
    var l := found.value.value;
    r := Ok(Some(LibraryDto(l.id, l.libraryName)));
  }

  /** `buildLibrary`: a new entity carrying only the record's name. */
  method BuildLibrary(dto: LibraryDto) returns (l: Library)
    ensures fresh(l)
    ensures l.id == None && l.libraryName == dto.libraryName
  {
    l := new Library.Empty();
    l.SetLibraryName(dto.libraryName);
  }

  /** `add`: inserts one row with the record's name under a key not in use;
      the record's id plays no part. */
  method Add(db: Database, dto: LibraryDto)
    modifies db
    ensures exists k :: k !in old(db.library) && db.library == old(db.library)[k := dto.libraryName]
    ensures db.books == old(db.books) && db.readers == old(db.readers) && db.bookLending == old(db.bookLending)
  {
    var library := BuildLibrary(dto);
    var saved := LibraryDao.Save(db, library);
    var k := saved.id.value;
    assert k !in old(db.library) && db.library == old(db.library)[k := dto.libraryName];
  }

  /** The message of the guard in `update`. */
  function UpdateMessage(dto: LibraryDto): string {
    "Library " + Show(dto.libraryName) + " does not exist"
  }

  /** The message of the guard in `delete`. */
  function DeleteMessage(id: int): string {
    "Library " + LongToString(id) + " does not exist"
  }

  /** `update`: a null or unknown id is refused with a message naming the
      library and nothing is written; otherwise the record's name is stored
      under its id. */
  method Update(db: Database, dto: LibraryDto) returns (c: Completion)
    modifies db
    ensures dto.id.None? || dto.id.value !in old(db.library) ==>
              c == Abrupt(IllegalArgument(UpdateMessage(dto))) && db.library == old(db.library)
    ensures dto.id.Some? && dto.id.value in old(db.library) ==>
              c == Normal && db.library == old(db.library)[dto.id.value := dto.libraryName]
    ensures db.books == old(db.books) && db.readers == old(db.readers) && db.bookLending == old(db.bookLending)
  {
    if dto.id.None? {
      return Abrupt(IllegalArgument(UpdateMessage(dto)));
    }
    var found := LibraryDao.FindById(db, dto.id);
    if found.value.None? {
      return Abrupt(IllegalArgument(UpdateMessage(dto)));
    }
    var library := BuildLibrary(dto);
    library.SetId(dto.id);
    var _ := LibraryDao.Update(db, library);
    c := Normal;
  }

  /** `delete`: a null id throws inside the lookup; an unknown id is refused
      with a message naming the id; otherwise exactly that row goes. */
  method Delete(db: Database, id: Option<int>) returns (c: Completion)
    modifies db
    ensures id.None? ==> c == Abrupt(NullPointer) && db.library == old(db.library)
    ensures id.Some? && id.value !in old(db.library) ==>
              c == Abrupt(IllegalArgument(DeleteMessage(id.value))) && db.library == old(db.library)
    ensures id.Some? && id.value in old(db.library) ==>
              c == Normal && db.library == old(db.library) - {id.value}
    ensures db.books == old(db.books) && db.readers == old(db.readers) && db.bookLending == old(db.bookLending)
  {
    var found := LibraryDao.FindById(db, id);
    if found.Err? {
      return Abrupt(found.failure);
    }
    if found.value.None? {
      return Abrupt(IllegalArgument(DeleteMessage(id.value)));
    }
    var _ := LibraryDao.Delete(db, id);
    c := Normal;
  }

  /** Different ids are refused with different messages. */
  lemma DeleteMessageNamesId(x: int, y: int)
    requires DeleteMessage(x) == DeleteMessage(y)
    ensures x == y
  {
    var m := DeleteMessage(x);
    var sx, sy := LongToString(x), LongToString(y);
    assert |m| == 8 + |sx| + 15 == 8 + |sy| + 15;
    assert m[8..|m| - 15] == sx;
    assert m[8..|m| - 15] == sy;
    LongToStringInjective(x, y);
  }
}
