/** `by.polikarpov.entity.Books`: a mutable record of a book and the library
    holding it. */
module BooksEntity {
  import opened Base
  import opened LibraryEntity

  class Books {
    var id: Option<int>
    var title: JString
    var author: JString
    var library: Library?

    /** `new Books(title, author, library)`: the id stays null. */
    constructor (title: JString, author: JString, library: Library?)
      ensures id == None && this.title == title && this.author == author && this.library == library
    {
      id := None;
      this.title := title;
      this.author := author;
      this.library := library;
    }

    /** `new Books()`: all four fields null. */
    constructor Empty()
      ensures id == None && title == None && author == None && library == null
    {
      id := None;
      title := None;
      author := None;
      library := null;
    }

    method SetId(id: Option<int>)
      modifies this
      ensures this.id == id
      ensures title == old(title) && author == old(author) && library == old(library)
    {
      this.id := id;
    }

    method SetTitle(title: JString)
      modifies this
      ensures this.title == title
      ensures id == old(id) && author == old(author) && library == old(library)
    {
      this.title := title;
    }

    method SetAuthor(author: JString)
      modifies this
      ensures this.author == author
      ensures id == old(id) && title == old(title) && library == old(library)
    {
      this.author := author;
    }

    method SetLibrary(library: Library?)
      modifies this
      ensures this.library == library
      ensures id == old(id) && title == old(title) && author == old(author)
    {
      this.library := library;
    }

    /** The objects `equals`, `hashCode` and `toString` read. */
    function Footprint(): set<object>
      reads this
    {
      if library == null then {this} else {this, library}
    }

    /** `equals`: same title, same author and equal libraries (so the same
        library name), whatever the ids. */
    predicate Equals(o: Books?)
      reads Footprint(), if o == null then {} else o.Footprint()
      ensures Equals(o) <==>
                o != null && title == o.title && author == o.author &&
                (library == null <==> o.library == null) &&
                (library != null && o.library != null ==> library.libraryName == o.library.libraryName)
    {
      this == o || (o != null && title == o.title && author == o.author && SameLibrary(library, o.library))
    }

    /** `hashCode`: `Objects.hash(title, author, library)`. */
    function HashCode(): (h: int)
      reads Footprint()
      ensures IsInt(h)
    {
      HashStep(HashStep(HashStep(1, HashOf(title)), HashOf(author)), LibraryHash(library))
    }

    /** `toString`; it dereferences the library, so a book without one
        throws a NullPointerException. */
    function ToString(): (r: Result<string>)
      reads Footprint()
      ensures r.Err? <==> library == null
      ensures r.Err? ==> r.failure == NullPointer
    {
      if library == null then Err(NullPointer)
      else
        var rest := ", title='" + Show(title) + "', author='" + Show(author) +
                    "', library=" + Show(library.libraryName) + "}";
        Ok("Books{id=" + ShowLong(id) + rest)
    }
  }

  /** `Objects.equals(a, b)` for two Books references. */
  predicate SameBooks(a: Books?, b: Books?)
    reads if a == null then {} else a.Footprint(), if b == null then {} else b.Footprint()
  {
    if a == null then b == null else a.Equals(b)
  }

  /** `Objects.hashCode(b)` of a Books reference. */
  function BooksHash(b: Books?): (h: int)
    reads if b == null then {} else b.Footprint()
    ensures IsInt(h)
  {
    if b == null then 0 else b.HashCode()
  }

  /** Book equality is an equivalence on references. */
  lemma SameBooksIsEquivalence(a: Books?, b: Books?, c: Books?)
    ensures SameBooks(a, a)
    ensures SameBooks(a, b) ==> SameBooks(b, a)
    ensures SameBooks(a, b) && SameBooks(b, c) ==> SameBooks(a, c)
  {
  }

  /** Equal books have equal hash codes. */
  lemma HashCodeAgreesWithEquals(a: Books?, b: Books?)
    requires SameBooks(a, b)
    ensures BooksHash(a) == BooksHash(b)
  {
  }

  /** The text of a book gives back its id: two books with different ids never
      print the same. */
  lemma ToStringDeterminesId(a: Books, b: Books)
    requires a.ToString().Ok? && a.ToString() == b.ToString()
    ensures a.id == b.id
  {
    var rest1 := ", title='" + Show(a.title) + "', author='" + Show(a.author) + "', library=" + Show(a.library.libraryName) + "}";
    var rest2 := ", title='" + Show(b.title) + "', author='" + Show(b.author) + "', library=" + Show(b.library.libraryName) + "}";
    ShowLongHasNoComma(a.id);
    ShowLongHasNoComma(b.id);
    FieldBeforeComma("Books{id=", ShowLong(a.id), rest1, ShowLong(b.id), rest2);
    ShowLongInjective(a.id, b.id);
  }
}
