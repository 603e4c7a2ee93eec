/** The book service: creating a book from a request body and listing the stored
    books, over an in-memory book collection that stands for the database. */
module BookService {
  import opened Envelopes
  import opened JsValues

  /** The request body of a create call (`IBook`); fields the body lacks are `Undefined`. */
  datatype BookInput = BookInput(title: JsValue, author: JsValue, description: JsValue, genre: JsValue)

  /** A stored book document: its generated `_id` and the four fields the service sets. */
  datatype Book = Book(id: string, title: JsValue, author: JsValue, description: JsValue, genre: seq<string>)

  /** Why the database rejected a `save`: failed schema validation (required, trim,
      genre enumeration), an `_id` that is already stored, or an unreachable database. */
  datatype DbError = ValidationFailed | DuplicateKey | Unavailable

  /** The `data` part of a book-service envelope: the new id, the stored books, the
      error a `save` threw, or the `TypeError` a genre's `String(g)` threw. */
  datatype BookData = Created(id: string) | BookList(books: seq<Book>) | Error(error: DbError) | ConversionError

  /** What `locateBook` resolves to: `null`, the array of all books, or one book. */
  datatype Located = NullResult | AllBooks(books: seq<Book>) | Found(book: Book)

  const MissingFieldsMessage := "Must give Author, Genre and Title of the book."
  const CreatedMessage := "Book created on database sucessfully."
  const InternalErrorMessage := "Internal Server Error."
  const NotFoundMessage := "No books found."
  const RetrievedMessage := "Books retrieved successfully."

  /** The guard of create: no body, or a falsy author, genre or title. */
  predicate MissingRequired(data: Option<BookInput>)
  {
    data.None? || !Truthy(data.value.author) || !Truthy(data.value.genre) || !Truthy(data.value.title)
  }

  /** Genre normalisation: an array maps element-wise to `String(g).trim()`, any other
      value becomes a one-element list. It is defined where no `String(g)` throws. */
  function NormaliseGenres(genre: JsValue): seq<string>
    requires Stringifiable(genre)
  {
    match genre
    case Arr(es) => seq(|es|, i requires 0 <= i < |es| => Trim(ToJsString(es[i])))
    case _ => [Trim(ToJsString(genre))]
  }

  /** `data.description || data.title`. */
  function DescriptionOf(data: BookInput): JsValue
  {
    if Truthy(data.description) then data.description else data.title
  }

  /** The document `new Book({...})` builds for a validated body and a generated id. */
  function NewBook(data: BookInput, id: string): Book
    requires Stringifiable(data.genre)
  {
    Book(id, data.title, data.author, DescriptionOf(data), NormaliseGenres(data.genre))
  }

  /** Genre normalisation keeps length and order, converts and trims every element,
      and wraps a scalar into a one-element list; no result has whitespace at either end. */
  lemma NormaliseGenresShape(genre: JsValue)
    requires Stringifiable(genre)
    ensures genre.Arr? ==> |NormaliseGenres(genre)| == |genre.elems|
    ensures genre.Arr? ==> forall i :: 0 <= i < |genre.elems| ==>
              NormaliseGenres(genre)[i] == Trim(ToJsString(genre.elems[i]))
    ensures !genre.Arr? ==> NormaliseGenres(genre) == [Trim(ToJsString(genre))]
    ensures forall i :: 0 <= i < |NormaliseGenres(genre)| ==> IsTrimmed(NormaliseGenres(genre)[i])
  {
    var r := NormaliseGenres(genre);
    forall i | 0 <= i < |r|
      ensures IsTrimmed(r[i])
    {
      if genre.Arr? {
        TrimShape(ToJsString(genre.elems[i]));
      } else {
        TrimShape(ToJsString(genre));
      }
    }
  }

  /** The genre list as an array of strings, as it would come back in a later body. */
  function AsStringArray(gs: seq<string>): (v: JsValue)
    ensures v.Arr? && |v.elems| == |gs|
    ensures forall i :: 0 <= i < |gs| ==> v.elems[i] == Str(gs[i])
  {
    Arr(seq(|gs|, i requires 0 <= i < |gs| => Str(gs[i])))
  }

  /** A string array normalises element-wise to the trimmed strings. */
  lemma NormaliseStringArray(gs: seq<string>)
    ensures Stringifiable(AsStringArray(gs))
    ensures |NormaliseGenres(AsStringArray(gs))| == |gs|
    ensures forall i :: 0 <= i < |gs| ==> NormaliseGenres(AsStringArray(gs))[i] == Trim(gs[i])
  {
    var v := AsStringArray(gs);
    forall i | 0 <= i < |gs|
      ensures ToJsString(v.elems[i]) == gs[i]
    {
      assert v.elems[i] == Str(gs[i]);
    }
  }

  /** Normalising an already normalised genre list changes nothing. */
  lemma NormaliseGenresIdempotent(genre: JsValue)
    requires Stringifiable(genre)
    ensures Stringifiable(AsStringArray(NormaliseGenres(genre)))
    ensures NormaliseGenres(AsStringArray(NormaliseGenres(genre))) == NormaliseGenres(genre)
  {
    var r := NormaliseGenres(genre);
    NormaliseGenresShape(genre);
    NormaliseStringArray(r);
    var again := NormaliseGenres(AsStringArray(r));
    forall i | 0 <= i < |r|
      ensures again[i] == r[i]
    {
      TrimOfTrimmed(r[i]);
    }
  }

  /** A single space on each side of a word is exactly what `trim` removes. */
  lemma TrimPadded(word: string)
    requires word != [] && IsTrimmed(word)
    ensures Trim([' '] + word + [' ']) == word
  {
    var padded := [' '] + word + [' '];
    assert LeadingSpace(padded) == 1 by {
      assert padded[1..] == word + [' '] && (word + [' '])[0] == word[0];
    }
    var t := padded[1..];
    assert t == word + [' '];
    assert TrailingStart(t) == |word| by {
      assert t[..|t| - 1] == word;
      assert TrailingStart(word) == |word|;
    }
    assert t[..|word|] == word;
  }

  /** A two-element string array normalises to its two trimmed elements. */
  lemma NormalisePair(a: string, b: string)
    ensures NormaliseGenres(Arr([Str(a), Str(b)])) == [Trim(a), Trim(b)]
  {
    var g := Arr([Str(a), Str(b)]);
    assert g.elems[0] == Str(a) && g.elems[1] == Str(b);
  }

  lemma FantasyIsTrimmed()
    ensures Trim("Fantasy") == "Fantasy"
  {
    assert IsTrimmed("Fantasy");
    TrimOfTrimmed("Fantasy");
  }

  lemma SciFiTrims()
    ensures Trim(" Sci-Fi ") == "Sci-Fi"
  {
    assert IsTrimmed("Sci-Fi");
    TrimPadded("Sci-Fi");
    assert " Sci-Fi " == [' '] + "Sci-Fi" + [' '];
  }

  /** `["Fantasy", " Sci-Fi "]` is stored as `["Fantasy", "Sci-Fi"]`. */
  lemma NormaliseGenresExample()
    ensures NormaliseGenres(Arr([Str("Fantasy"), Str(" Sci-Fi ")])) == ["Fantasy", "Sci-Fi"]
  {
    NormalisePair("Fantasy", " Sci-Fi ");
    FantasyIsTrimmed();
    SciFiTrims();
  }

  /** A plain object converts to "[object Object]", but one with its own `toString`
      entry, alone or inside a genre array, makes `String(g)` throw. */
  lemma ObjectGenres(x: string)
    ensures Stringifiable(Object(false)) && NormaliseGenres(Object(false)) == ["[object Object]"]
    ensures !Stringifiable(Object(true)) && !Stringifiable(Arr([Str(x), Object(true)]))
  {
    assert Arr([Str(x), Object(true)]).elems[1] == Object(true);
    ObjectTextIsTrimmed();
  }

  lemma ObjectTextIsTrimmed()
    ensures Trim("[object Object]") == "[object Object]"
  {
    var t := "[object Object]";
    assert t[0] == '[' && t[|t| - 1] == ']';
    TrimOfTrimmed(t);
  }

  /** An empty genre array is truthy, so it passes the required-field guard; the book
      is then stored with no genre at all. */
  lemma EmptyGenreArrayPassesGuard(title: JsValue, author: JsValue, description: JsValue)
    requires Truthy(title) && Truthy(author)
    ensures !MissingRequired(Some(BookInput(title, author, description, Arr([]))))
    ensures NormaliseGenres(Arr([])) == []
  {
  }

  /** The stored document copies title and author, defaults the description to the
      title, and since the title is truthy after the guard, so is the description. */
  lemma NewBookFields(data: BookInput, id: string)
    requires !MissingRequired(Some(data)) && Stringifiable(data.genre)
    ensures NewBook(data, id).id == id
    ensures NewBook(data, id).title == data.title && NewBook(data, id).author == data.author
    ensures Truthy(data.description) ==> NewBook(data, id).description == data.description
    ensures !Truthy(data.description) ==> NewBook(data, id).description == data.title
    ensures Truthy(NewBook(data, id).description)
    ensures NewBook(data, id).genre == NormaliseGenres(data.genre)
  {
  }

  /** The book collection of the database, with the validity test of ObjectId strings
      (`Types.ObjectId.isValid`) left abstract. */
  class BookStore {
    var books: seq<Book>
    const idIsValid: string -> bool

    /** Document ids are unique: the collection's `_id` index. */
    ghost predicate Valid()
      reads this
    {
      forall i, j :: 0 <= i < j < |books| ==> books[i].id != books[j].id
    }

    predicate IdTaken(id: string)
      reads this
    {
      exists i :: 0 <= i < |books| && books[i].id == id
    }

    constructor (isValid: string -> bool)
      ensures Valid() && books == [] && idIsValid == isValid
    {
      books := [];
      idIsValid := isValid;
    }

    /** `Book.findById(id)`: a linear scan for the document with that id. */
    method FindById(id: string) returns (r: Option<Book>)
      ensures r.Some? ==> r.value in books && r.value.id == id
      ensures r.None? ==> forall b :: b in books ==> b.id != id
    {
      var i := 0;
      while i < |books|
        invariant 0 <= i <= |books|
        invariant forall k :: 0 <= k < i ==> books[k].id != id
      {
        if books[i].id == id {
          return Some(books[i]);
        }
        i := i + 1;
      }
      return None;
    }

    /** `book.save()`: appends the document unless the database raises `fault` or the id
        is already stored; returns the error the call throws. */
    method Save(b: Book, fault: Option<DbError>) returns (err: Option<DbError>)
      requires Valid()
      modifies this
      ensures Valid()
      ensures err == (if fault.Some? then fault else if old(IdTaken(b.id)) then Some(DuplicateKey) else None)
      ensures books == (if err.None? then old(books) + [b] else old(books))
    {
      if fault.Some? {
        return fault;
      }
      var existing := FindById(b.id);
      if existing.Some? {
        return Some(DuplicateKey);
      }
      books := books + [b];
      return None;
    }

    /** `locateBook(id)`. `queryFails` says whether the query the branch runs throws. */
    method LocateBook(id: string, queryFails: bool) returns (r: Located)
      requires Valid()
      ensures id == "" ==> r == (if queryFails then NullResult else AllBooks(books))
      ensures id != "" && !idIsValid(id) ==> r == NullResult
      ensures id != "" && idIsValid(id) && queryFails ==> r == NullResult
      ensures id != "" && idIsValid(id) && !queryFails ==>
                (r.Found? && r.book in books && r.book.id == id) ||
                (r == NullResult && forall b :: b in books ==> b.id != id)
    {
      if id == "" {
        if queryFails {
          return NullResult;
        }
        return AllBooks(books);
      }
      if !idIsValid(id) {
        return NullResult;
      }
      if queryFails {
        return NullResult;
      }
      var found := FindById(id);
      if found.Some? {
        return Found(found.value);
      }
      return NullResult;
    }

    /** `createBookService(data)`: the guard, the genre conversion, the document, the
        save and its outcome. `newId` is the `_id` Mongoose generates for the document;
        `fault` is the error the database raises on save, if any. */
    method CreateBookService(data: Option<BookInput>, newId: string, fault: Option<DbError>)
      returns (r: Envelope<BookData>)
      requires Valid()
      modifies this
      ensures Valid()
      ensures MissingRequired(data) ==>
                r == Envelope(400, MissingFieldsMessage, None) && books == old(books)
      ensures !MissingRequired(data) && !Stringifiable(data.value.genre) ==>
                r == Envelope(500, InternalErrorMessage, Some(ConversionError)) && books == old(books)
      ensures !MissingRequired(data) && Stringifiable(data.value.genre) && fault.Some? ==>
                r == Envelope(500, InternalErrorMessage, Some(Error(fault.value))) && books == old(books)
      ensures !MissingRequired(data) && Stringifiable(data.value.genre) && fault.None? && old(IdTaken(newId)) ==>
                r == Envelope(500, InternalErrorMessage, Some(Error(DuplicateKey))) && books == old(books)
      ensures !MissingRequired(data) && Stringifiable(data.value.genre) && fault.None? && !old(IdTaken(newId)) ==>
                r == Envelope(201, CreatedMessage, Some(Created(newId))) &&
                books == old(books) + [NewBook(data.value, newId)]
      ensures r.status == 201 <==> books != old(books)
    {
      if MissingRequired(data) {
        return Envelope(400, MissingFieldsMessage, None);
      }
      var body := data.value;
      if !Stringifiable(body.genre) {
        return Envelope(500, InternalErrorMessage, Some(ConversionError));
      }
      var genres := NormaliseGenres(body.genre);
      var book := Book(newId, body.title, body.author, DescriptionOf(body), genres);
      var err := Save(book, fault);
      if err.Some? {
        return Envelope(500, InternalErrorMessage, Some(Error(err.value)));
      }
      return Envelope(201, CreatedMessage, Some(Created(book.id)));
    }

    /** `listBooksService()`: `locateBook()` with no id. A failing query is swallowed by
        `locateBook` and reported as 404, never as 500; an empty collection is 200. */
    method ListBooksService(queryFails: bool) returns (r: Envelope<BookData>)
      requires Valid()
      ensures queryFails ==> r == Envelope(404, NotFoundMessage, None)
      ensures !queryFails ==> r == Envelope(200, RetrievedMessage, Some(BookList(books)))
      ensures r.status != 500
    {
      var located := LocateBook("", queryFails);
      if located.NullResult? {
        return Envelope(404, NotFoundMessage, None);
      }
      return Envelope(200, RetrievedMessage, Some(BookList(located.books)));
    }
  }

  /** A client of the store: creating a valid book and then listing shows it last. */
  method CreateThenList(store: BookStore, data: BookInput, newId: string) returns (created: Envelope<BookData>, listed: Envelope<BookData>)
    requires store.Valid() && !MissingRequired(Some(data)) && Stringifiable(data.genre) && !store.IdTaken(newId)
    modifies store
    ensures created.status == 201 && listed.status == 200
    ensures listed.data.Some? && listed.data.value.BookList?
    ensures var bs := listed.data.value.books; |bs| > 0 && bs[|bs| - 1] == NewBook(data, newId)
  {
    created := store.CreateBookService(Some(data), newId, None);
    listed := store.ListBooksService(false);
  }
}
