/** `by.polikarpov.entity.Library`: a mutable record of an id and a name. */
module LibraryEntity {
  import opened Base

  class Library {
    var id: Option<int>
    var libraryName: JString

    /** `new Library(libraryName)`: the id stays null. */
    constructor (libraryName: JString)
      ensures id == None && this.libraryName == libraryName
    {
      id := None;
      this.libraryName := libraryName;
    }

    /** `new Library()`: both fields null. */
    constructor Empty()
      ensures id == None && libraryName == None
    {
      id := None;
      libraryName := None;
    }

    method SetId(id: Option<int>)
      modifies this
      ensures this.id == id && libraryName == old(libraryName)
    {
      this.id := id;
    }

    method SetLibraryName(libraryName: JString)
      modifies this
      ensures this.libraryName == libraryName && id == old(id)
    {
      this.libraryName := libraryName;
    }

    /** `equals`: another Library with the same name, whatever the ids. */
    predicate Equals(o: Library?)
      reads this, o
      ensures Equals(o) <==> o != null && o.libraryName == libraryName
    {
      this == o || (o != null && libraryName == o.libraryName)
    }

    /** `hashCode`: `Objects.hash(LibraryName)`. */
    function HashCode(): (h: int)
      reads this
      ensures IsInt(h)
    {
      HashStep(1, HashOf(libraryName))
    }

    /** `toString`. */
    function ToString(): string
      reads this
    {
      "Library{id=" + ShowLong(id) + ", LibraryName='" + Show(libraryName) + "'}"
    }
  }

  /** `Objects.equals(a, b)` for two Library references. */
  predicate SameLibrary(a: Library?, b: Library?)
    reads a, b
  {
    if a == null then b == null else a.Equals(b)
  }

  /** `Objects.hashCode(l)` of a Library reference. */
  function LibraryHash(l: Library?): (h: int)
    reads l
    ensures IsInt(h)
  {
    if l == null then 0 else l.HashCode()
  }

  /** Library equality is an equivalence on references, decided by the name alone. */
  lemma SameLibraryIsEquivalence(a: Library?, b: Library?, c: Library?)
    ensures SameLibrary(a, a)
    ensures SameLibrary(a, b) ==> SameLibrary(b, a)
    ensures SameLibrary(a, b) && SameLibrary(b, c) ==> SameLibrary(a, c)
    ensures SameLibrary(a, b) <==>
              ((a == null && b == null) || (a != null && b != null && a.libraryName == b.libraryName))
  {
  }

  /** Equal libraries have equal hash codes. */
  lemma HashCodeAgreesWithEquals(a: Library?, b: Library?)
    requires SameLibrary(a, b)
    ensures LibraryHash(a) == LibraryHash(b)
  {
  }

  /** The text of a library gives back its id and its name: no two libraries
      that differ in either print the same. */
  lemma ToStringDeterminesFields(a: Library, b: Library)
    requires a.ToString() == b.ToString()
    ensures a.id == b.id && Show(a.libraryName) == Show(b.libraryName)
  {
    ShowLongHasNoComma(a.id);
    ShowLongHasNoComma(b.id);
    TwoFieldsDetermined("Library{id=", ShowLong(a.id), Show(a.libraryName), ShowLong(b.id), Show(b.libraryName), ", LibraryName='", "'}");
    ShowLongInjective(a.id, b.id);
  }

  /** The text of library 1, "Main Library". */
  lemma ToStringExample(l: Library)
    requires l.id == Some(1) && l.libraryName == Some("Main Library")
    ensures l.ToString() == "Library{id=1, LibraryName='Main Library'}"
  {
  }
}
