/** `by.polikarpov.service.ReadersService`: ReadersDto records in and out of
    the ReadersDao, with existence guards in front of the writes. */
module ReadersService {
  import opened Base
  import opened Tables
  import opened ReadersEntity
  import opened Dtos
  import ReadersDao

  /** The records of the rows with keys `ids`, in that order. */
  function Records(table: map<int, JString>, ids: seq<int>): (r: seq<ReadersDto>)
    requires forall k :: k in ids ==> k in table
    ensures |r| == |ids|
    ensures forall i :: 0 <= i < |ids| ==> ids[i] in table && r[i] == ReadersDto(Some(ids[i]), table[ids[i]])
  {
    if ids == [] then []
    else
      var k := ids[0];
      assert k in ids && k in table;
      [ReadersDto(Some(k), table[k])] + Records(table, ids[1..])
  }

  /** What `getAll` answers for a readers table: one record per row, every
      row once, by strictly ascending id. */
  function Listing(table: map<int, JString>): (r: seq<ReadersDto>)
    ensures |r| == |table|
    ensures forall i :: 0 <= i < |r| ==> r[i].id.Some? && r[i].id.value in table && r[i].readerName == table[r[i].id.value]
    ensures forall i, j :: 0 <= i < j < |r| ==> r[i].id.value < r[j].id.value
    ensures forall k :: k in table ==> ReadersDto(Some(k), table[k]) in r
  {
    var ids := Ascending(table.Keys);
    var r := Records(table, ids);
    RecordsOfKeys(table, ids, r);
    r
  }

  /** The records of a strictly increasing list of all the keys list every row
      once, in that order. */
  lemma RecordsOfKeys(table: map<int, JString>, ids: seq<int>, r: seq<ReadersDto>)
    requires forall k :: k in ids <==> k in table
    requires StrictlyIncreasing(ids) && |ids| == |table|
    requires |r| == |ids|
    requires forall i :: 0 <= i < |ids| ==> ids[i] in table && r[i] == ReadersDto(Some(ids[i]), table[ids[i]])
    ensures forall i :: 0 <= i < |r| ==> r[i].id.Some? && r[i].id.value in table && r[i].readerName == table[r[i].id.value]
    ensures forall i, j :: 0 <= i < j < |r| ==> r[i].id.value < r[j].id.value
    ensures forall k :: k in table ==> ReadersDto(Some(k), table[k]) in r
  {
    forall k | k in table ensures ReadersDto(Some(k), table[k]) in r {
      var i :| 0 <= i < |ids| && ids[i] == k;
      assert r[i] == ReadersDto(Some(k), table[k]);
    }
  }

  /** `getAll`: the DAO's readers, each copied into a record, in order. */
  method GetAll(db: Database) returns (dtos: seq<ReadersDto>)
    ensures dtos == Listing(db.readers)
  {
    var readers := ReadersDao.FindAll(db);
    dtos := seq(|readers|, i requires 0 <= i < |readers| reads readers => ReadersDto(readers[i].id, readers[i].readersName));
    ghost var ids := Ascending(db.readers.Keys);
    ghost var expected := Records(db.readers, ids);
    forall i | 0 <= i < |dtos| ensures dtos[i] == expected[i] {
      assert readers[i].id == Some(ids[i]);
    }
    assert dtos == expected;
  }

  /** `getById`: the record of the row with that id, if there is one. */
  method GetById(db: Database, id: Option<int>) returns (r: Result<Option<ReadersDto>>)
    ensures id.None? ==> r == Err(NullPointer)
    ensures id.Some? && id.value !in db.readers ==> r == Ok(None)
    ensures id.Some? && id.value in db.readers ==> r == Ok(Some(ReadersDto(id, db.readers[id.value])))
  {
    var found := ReadersDao.FindById(db, id);
    if found.Err? {
      return Err(found.failure);
    }
    if found.value.None? {
      return Ok(None);
    }
    var l := found.value.value;
    r := Ok(Some(ReadersDto(l.id, l.readersName)));
  }

  /** `buildReaders`: a new entity carrying only the record's name. */
  method BuildReaders(dto: ReadersDto) returns (l: Readers)
    ensures fresh(l)
    ensures l.id == None && l.readersName == dto.readerName
  {
    l := new Readers.Empty();
    l.SetReadersName(dto.readerName);
  }

  /** `add`: inserts one row with the record's name under a key not in use;
      the record's id plays no part. */
  method Add(db: Database, dto: ReadersDto)
    modifies db
    ensures exists k :: k !in old(db.readers) && db.readers == old(db.readers)[k := dto.readerName]
    ensures db.library == old(db.library) && db.books == old(db.books) && db.bookLending == old(db.bookLending)
  {
    var reader := BuildReaders(dto);
    var saved := ReadersDao.Save(db, reader);
    var k := saved.id.value;
    assert k !in old(db.readers) && db.readers == old(db.readers)[k := dto.readerName];
  }

  /** The message of the guard in `update`. */
  function UpdateMessage(dto: ReadersDto): string {
    "Readers " + Show(dto.readerName) + " does not exist"
  }

  /** The message of the guard in `delete`. */
  function DeleteMessage(id: int): string {
    "Readers " + LongToString(id) + " does not exist"
  }

  /** `update`: a null or unknown id is refused with a message naming the
      reader and nothing is written; otherwise the record's name is stored
      under its id. */
  method Update(db: Database, dto: ReadersDto) returns (c: Completion)
    modifies db
    ensures dto.id.None? || dto.id.value !in old(db.readers) ==>
              c == Abrupt(IllegalArgument(UpdateMessage(dto))) && db.readers == old(db.readers)
    ensures dto.id.Some? && dto.id.value in old(db.readers) ==>
              c == Normal && db.readers == old(db.readers)[dto.id.value := dto.readerName]
    ensures db.library == old(db.library) && db.books == old(db.books) && db.bookLending == old(db.bookLending)
  {
    if dto.id.None? {
      return Abrupt(IllegalArgument(UpdateMessage(dto)));
    }
    var found := ReadersDao.FindById(db, dto.id);
    if found.value.None? {
      return Abrupt(IllegalArgument(UpdateMessage(dto)));
    }
    var reader := BuildReaders(dto);
    reader.SetId(dto.id);
    var _ := ReadersDao.Update(db, reader);
    c := Normal;
  }

  /** `delete`: a null id throws inside the lookup; an unknown id is refused
      with a message naming the id; otherwise exactly that row goes. */
  method Delete(db: Database, id: Option<int>) returns (c: Completion)
    modifies db
    ensures id.None? ==> c == Abrupt(NullPointer) && db.readers == old(db.readers)
    ensures id.Some? && id.value !in old(db.readers) ==>
              c == Abrupt(IllegalArgument(DeleteMessage(id.value))) && db.readers == old(db.readers)
    ensures id.Some? && id.value in old(db.readers) ==>
              c == Normal && db.readers == old(db.readers) - {id.value}
    ensures db.library == old(db.library) && db.books == old(db.books) && db.bookLending == old(db.bookLending)
  {
    var found := ReadersDao.FindById(db, id);
    if found.Err? {
      return Abrupt(found.failure);
    }
    if found.value.None? {
      return Abrupt(IllegalArgument(DeleteMessage(id.value)));
    }
    var _ := ReadersDao.Delete(db, id);
    c := Normal;
  }

  /** Different ids are refused with different messages. */
  lemma DeleteMessageNamesId(x: int, y: int)
    requires DeleteMessage(x) == DeleteMessage(y)
    ensures x == y
  {
    var m := DeleteMessage(x);
    var sx, sy := LongToString(x), LongToString(y);
    assert |m| == 8 + |sx| + 15 == 8 + |sy| + 15;
    assert m[8..|m| - 15] == sx;
    assert m[8..|m| - 15] == sy;
    LongToStringInjective(x, y);
  }
}
