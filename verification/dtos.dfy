/** `by.polikarpov.dto`: the immutable records the services hand to the
    servlets. A record field may be null, so every reference is optional. */
module Dtos {
  import opened Base
  import opened LibraryEntity

  /** `LibraryDto(Long id, String libraryName)`. */
  datatype LibraryDto = LibraryDto(id: Option<int>, libraryName: JString)

  /** `ReadersDto(Long id, String readerName)`. */
  datatype ReadersDto = ReadersDto(id: Option<int>, readerName: JString)

  /** `BooksDto(Long id, String title, String author, Library library)`: the
      library stays a reference to a mutable entity. */
  datatype BooksDto = BooksDto(id: Option<int>, title: JString, author: JString, library: Library?)

  /** `BookLendingDto(ReadersDto readers, BooksDto books)`. */
  datatype BookLendingDto = BookLendingDto(readers: Option<ReadersDto>, books: Option<BooksDto>)
}
