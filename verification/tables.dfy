/** The relational store behind the DAOs: the four tables
    library(id, library_name), books(id, title, author, library_id),
    readers(id, readers_name) and book_lending(reader_id, book_id), and what
    the fixed SQL statements of the DAOs select from them. */
module Tables {
  import opened Base

  /** A row of `books` without its key. */
  datatype BookRow = BookRow(title: JString, author: JString, libraryId: int)

  /** A row of `book_lending`; the table has no key, so rows may repeat. */
  datatype LendingRow = LendingRow(readerId: int, bookId: int)

  /** The database. Keyed tables are maps from `id`; `book_lending` is a bag
      kept in the order its rows are scanned. No foreign key, cascade or
      uniqueness constraint is assumed. */
  class Database {
    var library: map<int, JString>
    var books: map<int, BookRow>
    var readers: map<int, JString>
    var bookLending: seq<LendingRow>

    constructor ()
      ensures library == map[] && books == map[] && readers == map[] && bookLending == []
    {
      library, books, readers, bookLending := map[], map[], map[], [];
    }
  }

  // ---------------------------------------------------------------- ORDER BY id

  ghost predicate StrictlyIncreasing(s: seq<int>) {
    forall i, j :: 0 <= i < j < |s| ==> s[i] < s[j]
  }

  lemma HasMember(ids: set<int>)
    requires ids != {}
    ensures exists y :: y in ids
  {
    if forall y :: y !in ids {
      assert false;
    }
  }

  lemma {:induction false} LeastExists(ids: set<int>)
    requires ids != {}
    ensures exists m :: m in ids && forall x :: x in ids ==> m <= x
    decreases |ids|
  {
    HasMember(ids);
    var y :| y in ids;
    var rest := ids - {y};
    if rest == {} {
      assert ids == {y};
    } else {
      LeastExists(rest);
      var m :| m in rest && forall x :: x in rest ==> m <= x;
      var least := if y < m then y else m;
      assert forall x :: x in ids ==> x == y || x in rest;
      assert least in ids && forall x :: x in ids ==> least <= x;
    }
  }

  /** The smallest key of a non-empty key set. */
  function Least(ids: set<int>): (m: int)
    requires ids != {}
    ensures m in ids && forall x :: x in ids ==> m <= x
  {
    LeastExists(ids);
    var m :| m in ids && forall x :: x in ids ==> m <= x; m
  }

  /** The keys in the order `ORDER BY id` returns them. */
  function Ascending(ids: set<int>): (r: seq<int>)
    ensures |r| == |ids|
    ensures forall x :: x in r <==> x in ids
    ensures StrictlyIncreasing(r)
    decreases ids
  {
    if ids == {} then []
    else
      var m := Least(ids);
      var rest := Ascending(ids - {m});
      assert forall j :: 0 <= j < |rest| ==> m < rest[j] by {
        forall j | 0 <= j < |rest| ensures m < rest[j] {
          assert rest[j] in ids - {m};
        }
      }
      [m] + rest
  }

  /** A key the database may generate for an insert: greater than every key in use. */
  function NextId(ids: set<int>): (k: int)
    ensures k !in ids
    ensures forall x :: x in ids ==> x < k
  {
    if ids == {} then 1
    else
      var s := Ascending(ids);
      assert forall x :: x in ids ==> x <= s[|s| - 1] by {
        forall x | x in ids ensures x <= s[|s| - 1] {
          var j :| 0 <= j < |s| && s[j] == x;
        }
      }
      s[|s| - 1] + 1
  }

  // ---------------------------------------------------------------- book_lending queries

  /** `SELECT book_id FROM book_lending WHERE reader_id = ?`: one entry per
      matching row, duplicates included, in scan order. */
  function LentBookIds(rows: seq<LendingRow>, readerId: int): (r: seq<int>)
    ensures |r| <= |rows|
    ensures forall b :: b in r <==> LendingRow(readerId, b) in rows
    ensures forall b :: multiset(r)[b] == multiset(rows)[LendingRow(readerId, b)]
  {
    if rows == [] then []
    else
      var rest := LentBookIds(rows[1..], readerId);
      assert rows == [rows[0]] + rows[1..];
      if rows[0].readerId == readerId then [rows[0].bookId] + rest else rest
  }

  /** `SELECT reader_id FROM book_lending WHERE book_id = ?`. */
  function HolderIds(rows: seq<LendingRow>, bookId: int): (r: seq<int>)
    ensures |r| <= |rows|
    ensures forall p :: p in r <==> LendingRow(p, bookId) in rows
    ensures forall p :: multiset(r)[p] == multiset(rows)[LendingRow(p, bookId)]
  {
    if rows == [] then []
    else
      var rest := HolderIds(rows[1..], bookId);
      assert rows == [rows[0]] + rows[1..];
      if rows[0].bookId == bookId then [rows[0].readerId] + rest else rest
  }

  /** The entries of `ids` that do not occur in `excluded`, in their order. */
  function Without(ids: seq<int>, excluded: seq<int>): (r: seq<int>)
    ensures |r| <= |ids|
    ensures forall x :: x in r <==> x in ids && x !in excluded
    ensures StrictlyIncreasing(ids) ==> StrictlyIncreasing(r)
  {
    if ids == [] then []
    else
      var rest := Without(ids[1..], excluded);
      assert StrictlyIncreasing(ids) ==> forall j :: 0 <= j < |rest| ==> ids[0] < rest[j] by {
        if StrictlyIncreasing(ids) {
          forall j | 0 <= j < |rest| ensures ids[0] < rest[j] {
            assert rest[j] in ids[1..];
          }
        }
      }
      if ids[0] in excluded then rest else [ids[0]] + rest
  }

  /** `SELECT id FROM books WHERE id NOT IN (SELECT book_id FROM book_lending
      WHERE reader_id = ?)`. The statement has no ORDER BY; the model scans
      `books` by ascending id. */
  function NotLentIds(books: map<int, BookRow>, rows: seq<LendingRow>, readerId: int): seq<int> {
    Without(Ascending(books.Keys), LentBookIds(rows, readerId))
  }

  /** The rows left by `DELETE FROM book_lending WHERE reader_id = ? AND book_id = ?`. */
  function RemovePair(rows: seq<LendingRow>, readerId: int, bookId: int): (r: seq<LendingRow>)
    ensures |r| <= |rows|
    ensures forall x :: multiset(r)[x] == if x == LendingRow(readerId, bookId) then 0 else multiset(rows)[x]
  {
    if rows == [] then []
    else
      var rest := RemovePair(rows[1..], readerId, bookId);
      assert rows == [rows[0]] + rows[1..];
      if rows[0] == LendingRow(readerId, bookId) then rest else [rows[0]] + rest
  }

  /** The delete removes at least one row exactly when the pair was lent, and
      keeps every other row. */
  lemma RemovePairEffect(rows: seq<LendingRow>, readerId: int, bookId: int)
    ensures |RemovePair(rows, readerId, bookId)| < |rows| <==> LendingRow(readerId, bookId) in rows
    ensures LendingRow(readerId, bookId) !in RemovePair(rows, readerId, bookId)
    ensures forall x :: x in rows && x != LendingRow(readerId, bookId) ==> x in RemovePair(rows, readerId, bookId)
  {
    var r := RemovePair(rows, readerId, bookId);
    var pair := LendingRow(readerId, bookId);
    assert |multiset(rows)| == |multiset(r)| + multiset(rows)[pair] by {
      assert multiset(rows) == multiset(r) + multiset{}[pair := multiset(rows)[pair]];
    }
    assert forall x :: x in rows <==> multiset(rows)[x] > 0;
    assert forall x :: x in r <==> multiset(r)[x] > 0;
  }

  /** The lending queries for one reader split the catalog: every book id is
      either the book_id of one of the reader's rows or returned by the
      anti-join, never both; the anti-join only returns catalog ids, and so do
      the reader's rows when every row names an existing book. */
  lemma {:induction false} ReaderPartition(books: map<int, BookRow>, rows: seq<LendingRow>, readerId: int)
    ensures forall k :: k in books ==> (k in LentBookIds(rows, readerId) <==> k !in NotLentIds(books, rows, readerId))
    ensures forall k :: k in NotLentIds(books, rows, readerId) ==> k in books
    ensures (forall row :: row in rows ==> row.bookId in books) ==>
              forall k :: k in LentBookIds(rows, readerId) ==> k in books
    ensures StrictlyIncreasing(NotLentIds(books, rows, readerId))
  {
  }
}
