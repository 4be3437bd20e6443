/** `by.polikarpov.entity.BookLending`: a mutable pair of a reader and a book. */
module BookLendingEntity {
  import opened Base
  import opened ReadersEntity
  import opened BooksEntity

  class BookLending {
    var reader: Readers?
    var book: Books?

    /** `new BookLending(reader, book)`. */
    constructor (reader: Readers?, book: Books?)
      ensures this.reader == reader && this.book == book
    {
      this.reader := reader;
      this.book := book;
    }

    /** `new BookLending()`: both references null. */
    constructor Empty()
      ensures reader == null && book == null
    {
      reader := null;
      book := null;
    }

    method SetReader(reader: Readers?)
      modifies this
      ensures this.reader == reader && book == old(book)
    {
      this.reader := reader;
    }

    method SetBook(book: Books?)
      modifies this
      ensures this.book == book && reader == old(reader)
    {
      this.book := book;
    }

    /** The objects `equals`, `hashCode` and `toString` read. */
    function Footprint(): set<object>
      reads this, book
    {
      {this} + (if reader == null then {} else {reader}) + (if book == null then {} else book.Footprint())
    }

    /** `equals`: readers equal by name and books equal by title, author and
        library name. */
    predicate Equals(o: BookLending?)
      reads Footprint(), if o == null then {} else o.Footprint()
      ensures Equals(o) <==>
                o != null &&
                (reader == null <==> o.reader == null) &&
                (reader != null && o.reader != null ==> reader.readersName == o.reader.readersName) &&
                SameBooks(book, o.book)
    {
      this == o || (o != null && SameReaders(reader, o.reader) && SameBooks(book, o.book))
    }

    /** `hashCode`: `Objects.hash(reader, book)`. */
    function HashCode(): (h: int)
      reads Footprint()
      ensures IsInt(h)
    {
      HashStep(HashStep(1, ReadersHash(reader)), BooksHash(book))
    }

    /** `toString`; it dereferences both the reader and the book. */
    function ToString(): (r: Result<string>)
      reads this, reader, book
      ensures r.Err? <==> reader == null || book == null
      ensures r.Err? ==> r.failure == NullPointer
    {
      if reader == null || book == null then Err(NullPointer)
      else Ok("BookLending{reader=" + Show(reader.readersName) + ", book=" + Show(book.title) + "}")
    }
  }

  /** Equal lendings have equal hash codes. */
  lemma HashCodeAgreesWithEquals(a: BookLending, b: BookLending)
    requires a.Equals(b)
    ensures a.HashCode() == b.HashCode()
  {
    BooksEntity.HashCodeAgreesWithEquals(a.book, b.book);
  }

  /** Two lendings that print the same text name the same reader and the same
      book title, as long as the reader names hold no comma (the text has no
      escaping, so a comma in a name could shift the `, book=` separator). */
  lemma ToStringDeterminesFields(a: BookLending, b: BookLending)
    requires a.ToString().Ok? && a.ToString() == b.ToString()
    requires ',' !in Show(a.reader.readersName) && ',' !in Show(b.reader.readersName)
    ensures Show(a.reader.readersName) == Show(b.reader.readersName)
    ensures Show(a.book.title) == Show(b.book.title)
  {
    TwoFieldsDetermined("BookLending{reader=", Show(a.reader.readersName), Show(a.book.title),
                        Show(b.reader.readersName), Show(b.book.title), ", book=", "}");
  }

  /** A lending of "John Doe" and "Effective Java". */
  lemma ToStringExample(l: BookLending)
    requires l.reader != null && l.reader.readersName == Some("John Doe")
    requires l.book != null && l.book.title == Some("Effective Java")
    ensures l.ToString() == Ok("BookLending{reader=John Doe, book=Effective Java}")
  {
    assert "BookLending{reader=" + "John Doe" == "BookLending{reader=John Doe";
    assert "BookLending{reader=John Doe" + ", book=" == "BookLending{reader=John Doe, book=";
    assert "BookLending{reader=John Doe, book=" + "Effective Java" == "BookLending{reader=John Doe, book=Effective Java";
    assert "BookLending{reader=John Doe, book=Effective Java" + "}" == "BookLending{reader=John Doe, book=Effective Java}";
  }
}
