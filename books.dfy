/** The lending library: books with a two-state availability machine, and a
    registry of books keyed by title that lends them out, lists them and
    exports or replaces its whole contents as records. */
module Books {
  import opened Wrappers

  /** The five fields a book is exported and imported with. They are also
      the whole observable state of a book: `renter` is `None` for both
      JavaScript `null` and `undefined`, which the source compares loosely. */
  datatype BookRecord = BookRecord(
    title: string,
    author: string,
    description: Option<string>,
    isAvailable: bool,
    renter: Option<string>)

  /** An available book has nobody renting it. */
  predicate Consistent(b: BookRecord) {
    b.isAvailable ==> b.renter == None
  }

  /** Borrowing and returning never touch the bibliographic fields. */
  predicate SameBook(a: BookRecord, b: BookRecord) {
    a.title == b.title && a.author == b.author && a.description == b.description
  }

  /** What a borrow or return reports, and the book state it leaves behind. */
  datatype Step = Step(ok: bool, after: BookRecord)

  /** `Book.borrow`: only an available book can be borrowed; it then becomes
      unavailable and remembers its renter, which may be `None`. */
  function BorrowStep(b: BookRecord, renter: Option<string>): (s: Step)
    ensures s.ok <==> b.isAvailable
    ensures s.ok ==> !s.after.isAvailable && s.after.renter == renter
    ensures !s.ok ==> s.after == b
    ensures SameBook(s.after, b)
  {
    if !b.isAvailable then Step(false, b)
    else Step(true, b.(isAvailable := false, renter := renter))
  }

  /** `Book.return`: returning an available book succeeds and changes
      nothing; a rented book goes back only when the one returning it is
      its renter, and is then available with no renter. */
  function ReturnStep(b: BookRecord, renter: Option<string>): (s: Step)
    ensures b.isAvailable ==> s.ok && s.after == b
    ensures !b.isAvailable ==> (s.ok <==> b.renter == renter)
    ensures !s.ok ==> s.after == b
    ensures !b.isAvailable && s.ok ==> s.after.isAvailable && s.after.renter == None
    ensures SameBook(s.after, b)
  {
    if b.isAvailable then Step(true, b)
    else if b.renter != renter then Step(false, b)
    else Step(true, b.(isAvailable := true, renter := None))
  }

  /** A borrow followed by a return by the same renter brings the book back
      to an available state with no renter, bibliographic fields intact. */
  lemma BorrowThenReturn(b: BookRecord, renter: Option<string>)
    requires b.isAvailable
    ensures BorrowStep(b, renter).ok
    ensures var back := ReturnStep(BorrowStep(b, renter).after, renter);
      back.ok && back.after.isAvailable && back.after.renter == None && SameBook(back.after, b)
    ensures Consistent(b) ==> ReturnStep(BorrowStep(b, renter).after, renter).after == b
  {
  }

  /** Both transitions keep "available implies no renter". */
  lemma StepsKeepConsistent(b: BookRecord, renter: Option<string>)
    requires Consistent(b)
    ensures Consistent(BorrowStep(b, renter).after)
    ensures Consistent(ReturnStep(b, renter).after)
  {
  }

  const NoDescription := "No description was added."
  const AvailableNote := "Book available for rent"

  /** How a renter is printed when a template interpolates it. */
  function RenterText(renter: Option<string>): string {
    match renter
    case Some(name) => name
    case None => "null"
  }

  /** `bookDetail`: the four lines it prints. An empty description is
      falsy in the source and prints the placeholder too. */
  function DetailLines(b: BookRecord): (lines: seq<string>)
    ensures |lines| == 4 && lines[0] == b.title
    ensures lines[1] == "A book by " + b.author + "."
    ensures lines[2] == NoDescription <==> b.description in {None, Some(""), Some(NoDescription)}
    ensures b.description.Some? && b.description.value != "" ==> lines[2] == b.description.value
    ensures lines[3] == AvailableNote <==> b.isAvailable
    ensures !b.isAvailable ==> lines[3] == "Book rented by " + RenterText(b.renter)
  {
    var rented := "Book rented by " + RenterText(b.renter);
    assert rented[5] == 'r' && AvailableNote[5] == 'a';
    [ b.title,
      "A book by " + b.author + ".",
      if b.description.None? || b.description.value == "" then NoDescription else b.description.value,
      if b.isAvailable then AvailableNote else rented ]
  }

  class Book {
    var title: string
    var author: string
    var description: Option<string>
    var isAvailable: bool
    var renter: Option<string>

    /** A new book is available and has no renter. */
    constructor (title: string, author: string, description: Option<string>)
      ensures Json() == BookRecord(title, author, description, true, None)
    {
      this.title := title;
      this.author := author;
      this.isAvailable := true;
      this.description := description;
      this.renter := None;
    }

    /** The `json` getter, at record level. */
    function Json(): BookRecord
      reads this
    {
      BookRecord(title, author, description, isAvailable, renter)
    }

    /** The `json` setter: every field is overwritten from the record. */
    method SetJson(data: BookRecord)
      modifies this
      ensures Json() == data
    {
      title, author, description, isAvailable, renter :=
        data.title, data.author, data.description, data.isAvailable, data.renter;
    }

    method Borrow(renter: Option<string>) returns (ok: bool)
      modifies this
      ensures Step(ok, Json()) == BorrowStep(old(Json()), renter)
    {
      if !isAvailable {
        return false;
      }
      isAvailable := false;
      this.renter := renter;
      return true;
    }

    method Return(renter: Option<string>) returns (ok: bool)
      modifies this
      ensures Step(ok, Json()) == ReturnStep(old(Json()), renter)
    {
      if isAvailable {
        return true;
      }
      if this.renter != renter {
        return false;
      }
      isAvailable := true;
      this.renter := None;
      return true;
    }

    function BookDetail(): seq<string>
      reads this
    {
      DetailLines(Json())
    }
  }

  /** The property name a book is stored under. Books added one by one are
      stored under their title; an import stores an array, so its books sit
      under their positions. */
  datatype Key = Title(title: string) | Position(index: nat)

  datatype Entry = Entry(key: Key, book: Book)

  /** Property names of one object are unique. */
  ghost predicate KeysDistinct(entries: seq<Entry>) {
    forall i, j :: 0 <= i < j < |entries| ==> entries[i].key != entries[j].key
  }

  /** Property lookup: the book stored under `key`, if any. */
  function Find(entries: seq<Entry>, key: Key): (r: Option<Book>)
    ensures r.None? <==> forall i :: 0 <= i < |entries| ==> entries[i].key != key
    ensures r.Some? ==> exists i :: 0 <= i < |entries| && entries[i] == Entry(key, r.value)
  {
    if entries == [] then None
    else if entries[0].key == key then Some(entries[0].book)
    else
      var r := Find(entries[1..], key);
      assert r.Some? ==> exists i :: 0 <= i < |entries[1..]| && entries[1..][i] == Entry(key, r.value);
      r
  }

  /** Under distinct keys the book found is the one stored under the key. */
  lemma FindUnique(entries: seq<Entry>, key: Key)
    requires KeysDistinct(entries)
    requires Find(entries, key).Some?
    ensures forall i :: 0 <= i < |entries| && entries[i].key == key ==>
      entries[i].book == Find(entries, key).value
  {
  }

  /** A key not yet stored, once appended, finds the book stored with it. */
  lemma {:induction false} FindAppended(entries: seq<Entry>, key: Key, book: Book)
    requires Find(entries, key) == None
    ensures Find(entries + [Entry(key, book)], key) == Some(book)
  {
    if entries != [] {
      assert (entries + [Entry(key, book)])[1..] == entries[1..] + [Entry(key, book)];
      FindAppended(entries[1..], key, book);
    }
  }

  /** Keys 0, 1, 2, ... in order: what an import stores. */
  ghost predicate Positional(entries: seq<Entry>) {
    forall i :: 0 <= i < |entries| ==> entries[i].key == Position(i)
  }

  lemma PositionalKeys(entries: seq<Entry>, title: string)
    requires Positional(entries)
    ensures KeysDistinct(entries)
    ensures Find(entries, Title(title)) == None
  {
  }

  function Objects(entries: seq<Entry>): set<Book> {
    if entries == [] then {} else {entries[0].book} + Objects(entries[1..])
  }

  lemma {:induction false} ObjectsOf(entries: seq<Entry>, o: Book)
    ensures o in Objects(entries) <==> exists j :: 0 <= j < |entries| && entries[j].book == o
  {
    if entries != [] {
      ObjectsOf(entries[1..], o);
      if o in Objects(entries[1..]) {
        var j :| 0 <= j < |entries[1..]| && entries[1..][j].book == o;
        assert entries[j + 1].book == o;
      }
    }
  }

  /** The stored books already exist, so allocating or updating something
      else leaves their records alone. */
  lemma ObjectsAllocated(entries: seq<Entry>)
    ensures forall o :: o in Objects(entries) ==> allocated(o)
  {
    forall o | o in Objects(entries) ensures allocated(o) {
      ObjectsOf(entries, o);
    }
  }

  /** The records of the stored books, in enumeration order. */
  function RecordsOf(entries: seq<Entry>): (records: seq<BookRecord>)
    reads Objects(entries)
    ensures |records| == |entries|
  {
    if entries == [] then [] else [entries[0].book.Json()] + RecordsOf(entries[1..])
  }

  lemma {:induction false} RecordsOfAppend(entries: seq<Entry>, e: Entry)
    ensures Objects(entries + [e]) == Objects(entries) + {e.book}
    ensures RecordsOf(entries + [e]) == RecordsOf(entries) + [e.book.Json()]
  {
    if entries != [] {
      assert (entries + [e])[1..] == entries[1..] + [e];
      RecordsOfAppend(entries[1..], e);
    }
  }

  /** The books that are available, in enumeration order. */
  function Available(books: seq<BookRecord>): (r: seq<BookRecord>)
    ensures forall i :: 0 <= i < |r| ==> r[i].isAvailable
  {
    if books == [] then []
    else (if books[0].isAvailable then [books[0]] else []) + Available(books[1..])
  }

  /** The books that are rented out, in enumeration order. */
  function Rented(books: seq<BookRecord>): (r: seq<BookRecord>)
    ensures forall i :: 0 <= i < |r| ==> !r[i].isAvailable
  {
    if books == [] then []
    else (if books[0].isAvailable then [] else [books[0]]) + Rented(books[1..])
  }

  /** A single book goes to exactly the group its flag names. */
  lemma GroupsOfOne(book: BookRecord)
    ensures Available([book]) == (if book.isAvailable then [book] else [])
    ensures Rented([book]) == (if book.isAvailable then [] else [book])
  {
    assert [book][1..] == [];
  }

  /** Each group keeps the books' enumeration order: grouping a split
      collection groups each part and concatenates the results. */
  lemma {:induction false} GroupsOfAppend(a: seq<BookRecord>, b: seq<BookRecord>)
    ensures Available(a + b) == Available(a) + Available(b)
    ensures Rented(a + b) == Rented(a) + Rented(b)
  {
    if a == [] {
      assert a + b == b;
    } else {
      assert (a + b)[0] == a[0];
      assert (a + b)[1..] == a[1..] + b;
      GroupsOfAppend(a[1..], b);
    }
  }

  /** Every book is in exactly one of the two groups. */
  lemma {:induction false} AvailableRentedPartition(books: seq<BookRecord>)
    ensures multiset(Available(books) + Rented(books)) == multiset(books)
    ensures |Available(books)| + |Rented(books)| == |books|
  {
    if books != [] {
      AvailableRentedPartition(books[1..]);
      assert books == [books[0]] + books[1..];
    }
  }

  const AvailableHeading := "== Available Books to Rent =="
  const RentedHeading := "==  Unavailable/Rented Books =="

  function AvailableLine(b: BookRecord): string {
    b.title + " by " + b.author
  }

  function RentedLine(b: BookRecord): string {
    b.title + " by " + b.author + ": Rented by " + RenterText(b.renter)
  }

  /** `listAvailableBooks`: a heading, then one line per available book. */
  function AvailableListing(books: seq<BookRecord>): seq<string> {
    var avail := Available(books);
    [AvailableHeading] + seq(|avail|, i requires 0 <= i < |avail| => AvailableLine(avail[i]))
  }

  /** `listAllBooks`: the available listing, then a second heading and one
      line per rented book naming its renter. */
  function FullListing(books: seq<BookRecord>): seq<string> {
    var rented := Rented(books);
    AvailableListing(books) + [RentedHeading]
      + seq(|rented|, i requires 0 <= i < |rented| => RentedLine(rented[i]))
  }

  /** The full listing starts with the available listing and has one line
      per book besides its two headings. */
  lemma {:induction false} FullListingCoversEveryBook(books: seq<BookRecord>)
    ensures AvailableListing(books) <= FullListing(books)
    ensures |FullListing(books)| == |books| + 2
    ensures FullListing(books)[|Available(books)| + 1] == RentedHeading
  {
    AvailableRentedPartition(books);
  }

  class Library {
    var entries: seq<Entry>

    ghost predicate Valid()
      reads this
    {
      KeysDistinct(entries)
    }

    constructor ()
      ensures Valid() && entries == []
    {
      entries := [];
    }

    function Books(): set<Book>
      reads this
    {
      Objects(entries)
    }

    /** The `json` getter, at record level: one record per stored book, in
        enumeration order. */
    function Json(): seq<BookRecord>
      reads this, Books()
    {
      RecordsOf(entries)
    }

    /** The `json` setter: the registry is replaced wholesale by fresh books
        loaded from the records, stored under their positions. */
    method SetJson(data: seq<BookRecord>)
      modifies this
      ensures Valid()
      ensures Json() == data
      ensures |entries| == |data|
      ensures Positional(entries)
      ensures forall i :: 0 <= i < |entries| ==> fresh(entries[i].book)
      ensures forall title :: FindBookByTitle(title) == None
    {
      var loaded: seq<Entry> := [];
      var i := 0;
      while i < |data|
        invariant 0 <= i <= |data|
        invariant |loaded| == i
        invariant Positional(loaded)
        invariant forall j :: 0 <= j < i ==> fresh(loaded[j].book)
        invariant RecordsOf(loaded) == data[..i]
      {
        ObjectsAllocated(loaded);
        var b := LoadBook(data[i]);
        ObjectsOf(loaded, b);
        RecordsOfAppend(loaded, Entry(Position(i), b));
        loaded := loaded + [Entry(Position(i), b)];
        i := i + 1;
      }
      assert data[..i] == data;
      ObjectsAllocated(loaded);
      entries := loaded;
      forall title: string ensures FindBookByTitle(title) == None {
        PositionalKeys(entries, title);
      }
      PositionalKeys(entries, "");
    }

    /** One element of an import: `new Book()` leaves every field to be
        overwritten by the book's own setter. */
    static method LoadBook(data: BookRecord) returns (b: Book)
      ensures fresh(b)
      ensures b.Json() == data
    {
      b := new Book("", "", None);
      b.SetJson(data);
    }

    function FindBookByTitle(title: string): Option<Book>
      reads this
    {
      Find(entries, Title(title))
    }

    /** `addBook` refuses a title already stored; otherwise the book is
        stored under its title at the end of the enumeration order. */
    method AddBook(book: Book) returns (ok: bool)
      requires Valid()
      modifies this
      ensures Valid()
      ensures ok <==> old(FindBookByTitle(book.title)) == None
      ensures !ok ==> entries == old(entries)
      ensures ok ==> entries == old(entries) + [Entry(Title(book.title), book)]
      ensures ok ==> FindBookByTitle(book.title) == Some(book)
      ensures ok ==> Json() == old(Json()) + [book.Json()]
    {
      if FindBookByTitle(book.title).Some? {
        return false;
      }
      RecordsOfAppend(entries, Entry(Title(book.title), book));
      FindAppended(entries, Title(book.title), book);
      entries := entries + [Entry(Title(book.title), book)];
      return true;
    }

    /** The books a call naming `title` may change: the one stored under it. */
    function Shelved(title: string): set<Book>
      reads this
    {
      match FindBookByTitle(title)
      case Some(b) => {b}
      case None => {}
    }

    /** `borrowBook` fails for an unknown title and otherwise does what the
        book's own borrow does. */
    method BorrowBook(title: string, renter: Option<string>) returns (ok: bool)
      modifies Shelved(title)
      ensures FindBookByTitle(title) == None ==> !ok
      ensures FindBookByTitle(title).Some? ==>
        var b := FindBookByTitle(title).value;
        Step(ok, b.Json()) == BorrowStep(old(b.Json()), renter)
    {
      var found := FindBookByTitle(title);
      if found.None? {
        return false;
      }
      if !found.value.isAvailable {
        return false;
      }
      ok := found.value.Borrow(renter);
    }

    /** `returnBook` fails for an unknown title and, unlike the book's own
        return, for a book that is not rented out; otherwise it does what
        the book's own return does. */
    method ReturnBook(title: string, renter: Option<string>) returns (ok: bool)
      modifies Shelved(title)
      ensures FindBookByTitle(title) == None ==> !ok
      ensures FindBookByTitle(title).Some? && old(FindBookByTitle(title).value.isAvailable) ==>
        !ok && FindBookByTitle(title).value.Json() == old(FindBookByTitle(title).value.Json())
      ensures FindBookByTitle(title).Some? && !old(FindBookByTitle(title).value.isAvailable) ==>
        var b := FindBookByTitle(title).value;
        Step(ok, b.Json()) == ReturnStep(old(b.Json()), renter)
    {
      var found := FindBookByTitle(title);
      if found.None? {
        return false;
      }
      if found.value.isAvailable {
        return false;
      }
      ok := found.value.Return(renter);
    }

    function ListAvailableBooks(): seq<string>
      reads this, Books()
    {
      AvailableListing(Json())
    }

    function ListAllBooks(): seq<string>
      reads this, Books()
    {
      FullListing(Json())
    }
  }

  /** A lending session replayed against the contracts: a book is added,
      lent, refused back from someone else, returned by its renter, and
      after an export and re-import it is listed the same but can no longer
      be found by title. */
  method DemoLending() {
    var library := new Library();
    var dune := new Book("Dune", "Herbert", None);
    var ok := library.AddBook(dune);
    assert ok && library.FindBookByTitle("Dune") == Some(dune);
    ok := library.BorrowBook("Dune", Some("alice"));
    assert ok && !dune.isAvailable && dune.renter == Some("alice");
    ok := library.ReturnBook("Dune", Some("bob"));
    assert !ok && dune.renter == Some("alice");
    ok := library.ReturnBook("Dune", Some("alice"));
    assert ok && dune.isAvailable && dune.renter == None;
    ok := library.ReturnBook("Dune", Some("alice"));
    assert !ok;

    var again := new Book("Dune", "Someone else", None);
    ok := library.AddBook(again);
    assert !ok;

    var data := library.Json();
    var listing := library.ListAllBooks();
    library.SetJson(data);
    assert library.Json() == data && library.ListAllBooks() == listing;
    assert library.FindBookByTitle("Dune") == None;
  }
}
