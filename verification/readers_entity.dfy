/** `by.polikarpov.entity.Readers`: a mutable record of an id and a name. */
module ReadersEntity {
  import opened Base

  class Readers {
    var id: Option<int>
    var readersName: JString

    /** `new Readers(readersName)`: the id stays null. */
    constructor (readersName: JString)
      ensures id == None && this.readersName == readersName
    {
      id := None;
      this.readersName := readersName;
    }

    /** `new Readers()`: both fields null. */
    constructor Empty()
      ensures id == None && readersName == None
    {
      id := None;
      readersName := None;
    }

    method SetId(id: Option<int>)
      modifies this
      ensures this.id == id && readersName == old(readersName)
    {
      this.id := id;
    }

    method SetReadersName(readersName: JString)
      modifies this
      ensures this.readersName == readersName && id == old(id)
    {
      this.readersName := readersName;
    }

    /** `equals`: another Readers with the same name, whatever the ids. */
    predicate Equals(o: Readers?)
      reads this, o
      ensures Equals(o) <==> o != null && o.readersName == readersName
    {
      this == o || (o != null && readersName == o.readersName)
    }

    /** `hashCode`: `Objects.hash(readersName)`. */
    function HashCode(): (h: int)
      reads this
      ensures IsInt(h)
    {
      HashStep(1, HashOf(readersName))
    }

    /** `toString`. */
    function ToString(): string
      reads this
    {
      "Readers{id=" + ShowLong(id) + ", readersName='" + Show(readersName) + "'}"
    }
  }

  /** `Objects.equals(a, b)` for two Readers references. */
  predicate SameReaders(a: Readers?, b: Readers?)
    reads a, b
  {
    if a == null then b == null else a.Equals(b)
  }

  /** `Objects.hashCode(r)` of a Readers reference. */
  function ReadersHash(r: Readers?): (h: int)
    reads r
    ensures IsInt(h)
  {
    if r == null then 0 else r.HashCode()
  }

  /** Readers equality is an equivalence on references, decided by the name alone. */
  lemma SameReadersIsEquivalence(a: Readers?, b: Readers?, c: Readers?)
    ensures SameReaders(a, a)
    ensures SameReaders(a, b) ==> SameReaders(b, a)
    ensures SameReaders(a, b) && SameReaders(b, c) ==> SameReaders(a, c)
    ensures SameReaders(a, b) <==>
              ((a == null && b == null) || (a != null && b != null && a.readersName == b.readersName))
  {
  }

  /** Equal readers have equal hash codes. */
  lemma HashCodeAgreesWithEquals(a: Readers?, b: Readers?)
    requires SameReaders(a, b)
    ensures ReadersHash(a) == ReadersHash(b)
  {
  }

  /** The text of a reader gives back its id and its name: no two readers
      that differ in either print the same. */
  lemma ToStringDeterminesFields(a: Readers, b: Readers)
    requires a.ToString() == b.ToString()
    ensures a.id == b.id && Show(a.readersName) == Show(b.readersName)
  {
    ShowLongHasNoComma(a.id);
    ShowLongHasNoComma(b.id);
    TwoFieldsDetermined("Readers{id=", ShowLong(a.id), Show(a.readersName), ShowLong(b.id), Show(b.readersName), ", readersName='", "'}");
    ShowLongInjective(a.id, b.id);
  }

  /** The text of reader 1, "John Doe". */
  lemma ToStringExample(r: Readers)
    requires r.id == Some(1) && r.readersName == Some("John Doe")
    ensures r.ToString() == "Readers{id=1, readersName='John Doe'}"
  {
  }
}
