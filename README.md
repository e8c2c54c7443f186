# Lending library and shopping cart, modelled in Dafny

This project models the two in-memory registries of the BookDB and ShopCart
demos.

**Lending library** (`books.dfy`, module `Books`).
- A `Book` has a title, an author, an optional description, an availability
  flag and an optional renter. `Borrow` and `Return` drive its two-state
  availability machine. Each is specified by a pure step function on
  `BookRecord`: `BorrowStep` or `ReturnStep`.
- `BookRecord` has the same five fields as the book's JSON export. It is also
  the whole observable state of a book.
- A `Library` stores books in an ordered association list of `(Key, Book)`.
  The list order is the enumeration order of the JavaScript object.
  - A book added with `AddBook` is stored under `Title(title)`.
  - An import (`SetJson`) replaces the whole list with fresh books stored
    under `Position(0)`, `Position(1)`, …, because the source stores a parsed
    array there.
  - So lookups by title do not see imported books, and `AddBook` does not
    notice that an imported book has the same title.
- The listings are functions over the exported records. `ListAvailableBooks`
  gives a heading and one line per available book. `ListAllBooks` adds a
  second heading and one line per rented book.

**Shopping cart** (`shopping.dfy`, module `Shopping`).
- A `Product` has a constant name and price and a mutable integer stock.
  `TakeItems` is guarded. `LoadItems` is not.
- A `ShoppingCart` keeps its dictionary as a key sequence plus a map from
  `ProductKey(name, price)` to `Option<int>`. The key sequence is in
  first-insertion order since the last checkout. `None` is the `undefined`
  that `removeProduct` writes instead of deleting the entry.
- `Reserve` and `Release` are the pure cart-side transitions of `AddProduct`
  and `RemoveProduct`.
- `Price` and `CartStr` are the source's accumulating loops. They are proved
  against `CartTotal` and `CartText`. The total is `Option<int>`, and `None`
  stands for JavaScript's NaN.

`DemoLending`, `DemoCheckout`, `DemoBill` and `DemoRemove` replay sessions against the
contracts. They follow the demo at the end of `shopping.js` and a session of
the console driver.

The model keeps these behaviours of the code as written:
- `removeProduct` leaves an `undefined` entry rather than deleting it. As a
  result the cart still prints lines after a removal, and its total becomes
  NaN.
- An import keys books by position, not by title.
- An import takes already-parsed records. It does not raise a parse error.

Integers are unbounded. Prices, quantities and stock are integers.

Assumptions:
- Titles are never canonical array-index strings such as `"1984"`. JavaScript
  would enumerate those first (section 10.1.11.1 of ECMA-262, 2022 edition),
  and on an imported array they would find the book at that position.
- Titles are never inherited property names (`"toString"`, `"constructor"`,
  `"length"` on an array), which the source's lookup would mistake for a
  stored book.
- Cart keys start with `{`, so plain insertion order always holds for them.

## Model

| member | source | states |
|---|---|---|
| `Books.BorrowStep` | books.js:70-75 | succeeds exactly when the book is available; on success the book is unavailable and holds the given renter (possibly none); on failure nothing changes; title, author and description never change |
| `Books.ReturnStep` | books.js:77-83 | an available book returns true and is unchanged; a rented book is returned exactly when the returner equals its renter (null and undefined alike), and is then available with no renter; a refused return changes nothing |
| `Books.BorrowThenReturn` | books.js:70-83 | borrowing an available book and returning it by the same renter succeeds twice and leaves it available, with no renter and the same bibliographic fields; from a consistent book it restores exactly the original state |
| `Books.StepsKeepConsistent` | books.js:70-83 | borrow and return preserve "available implies no renter" |
| `Books.DetailLines` | books.js:85-90 | `bookDetail` prints four lines: the title, "A book by <author>.", the description or the placeholder when it is missing or empty, and the availability note exactly when the book is available (otherwise who rents it) |
| `Books.Book.constructor` | books.js:28-34 | a new book is available with no renter and the given title, author and description |
| `Books.Book.SetJson` | books.js:56-68 | the `json` getter (`Books.Book.Json`) gives the five fields as one record; the setter overwrites all five from the record, so the getter then returns that record |
| `Books.Book.Borrow` | books.js:70-75 | result and new state are those of `BorrowStep` on the old state |
| `Books.Book.Return` | books.js:77-83 | result and new state are those of `ReturnStep` on the old state |
| `Books.FindUnique` | books.js:110-118 | since a title is stored at most once, the book found under a key is the one stored under it |
| `Books.Find` | books.js:116-118 | property lookup finds nothing exactly when no entry has the key, and otherwise returns a book stored under that key |
| `Books.FindAppended` | books.js:110-118 | once a book is stored under a key that was absent, looking that key up returns that book |
| `Books.PositionalKeys` | books.js:102-108 | entries keyed 0, 1, 2, … (what an import stores) have distinct keys, and no title lookup finds any of them |
| `Books.RecordsOf` | books.js:98-100 | the export has one record per stored book |
| `Books.RecordsOfAppend` | books.js:98-100 | storing one more book appends exactly its record to the export |
| `Books.Available` | books.js:132-137 | every book in the available group is available |
| `Books.Rented` | books.js:144-147 | every book in the rented group is rented out |
| `Books.GroupsOfAppend` | books.js:132-148 | each group keeps the collection order: grouping a concatenation concatenates the groups |
| `Books.GroupsOfOne` | books.js:134-145 | a single book lands in exactly the group its availability names |
| `Books.AvailableRentedPartition` | books.js:139-148 | the available and rented groups together are a permutation of the stored books, so every book is listed exactly once |
| `Books.FullListingCoversEveryBook` | books.js:132-148 | the available listing is a prefix of the full listing; the full listing has one line per book plus its two headings, and the second heading comes right after the available books |
| `Books.Library.constructor` | books.js:94-96 | a new library stores nothing |
| `Books.Library.SetJson` | books.js:102-108 | an import replaces the whole collection with fresh books under positions 0, 1, 2, …; exporting right afterwards gives back exactly the imported records (hence the same listings), and no title lookup finds an imported book |
| `Books.Library.AddBook` | books.js:110-114 | fails and changes nothing exactly when the title is already stored under its title; otherwise stores the book last under its title, after which `FindBookByTitle` returns it and the export gains its record at the end |
| `Books.Library.BorrowBook` | books.js:120-124 | fails for an unknown title and otherwise yields the stored book's own `BorrowStep` result and state; no other book changes |
| `Books.Library.ReturnBook` | books.js:126-130 | fails for an unknown title, fails without change for a book that is available (unlike the book's own return), and otherwise yields the book's own `ReturnStep` result and state; no other book changes |
| `Shopping.Taken` | shopping.js:42-46 | taking fails exactly when the stock is below the quantity; otherwise what is left is never negative and, with the quantity loaded back, is the original stock |
| `Shopping.Product.constructor` | shopping.js:23-27 | a product starts with the given name, price and stock |
| `Shopping.Product.TakeItems` | shopping.js:42-46 | result and new stock are those of `Taken`; a refused take leaves the stock alone |
| `Shopping.Product.LoadItems` | shopping.js:48-51 | always succeeds and adds the quantity to the stock |
| `Shopping.Product.StockReport` | shopping.js:53-55 | the report is the name, the price and "x" followed by the stock, separated by tabs; both numbers read back as themselves |
| `Shopping.IntTextRoundTrip` | shopping.js:53-55 | an integer's decimal text reads back as that integer and holds no tab |
| `Shopping.SharedKey` | shopping.js:66-68 | two products get the same cart key exactly when their names and prices are equal |
| `Shopping.Reserve` | shopping.js:94-104 | the entry, restarting from 0 when missing or removed, grows by the quantity; a new key goes last and an existing or removed key keeps its place; every other entry is unchanged |
| `Shopping.Release` | shopping.js:106-115 | the entry becomes undefined and the key sequence is unchanged; every other entry is unchanged |
| `Shopping.Copy` | shopping.js:70-72 | the deep copy holds exactly the entries whose value is defined, with the same values |
| `Shopping.Total` | shopping.js:74-80 | the running total is NaN exactly when some key has no quantity in the copy |
| `Shopping.TotalNaNIffRemoved` | shopping.js:74-80 | the cart's total is NaN exactly when some entry has been removed |
| `Shopping.ReserveAddsToTotal` | shopping.js:94-104 | on a cart with a numeric total, a reservation raises the total by exactly price × quantity |
| `Shopping.ReleaseMakesTotalNaN` | shopping.js:106-115 | after a removal the total is NaN |
| `Shopping.CartTextEmptyIff` | shopping.js:82-92 | the empty-cart message is printed exactly when the cart has no keys, removed entries counting as keys |
| `Shopping.ShoppingCart.constructor` | shopping.js:61-63 | a new cart has no keys |
| `Shopping.ShoppingCart.Price` | shopping.js:74-80 | the loop computes the cart's total, summed over the keys in order |
| `Shopping.ShoppingCart.CartStr` | shopping.js:82-92 | the loop computes the cart's text: the empty message, or one line per key and a total line |
| `Shopping.ShoppingCart.AddProduct` | shopping.js:94-104 | succeeds exactly when the stock covers the quantity; on success the stock drops by it and the cart becomes `Reserve` of the old cart; on failure neither the product nor the cart changes; stock plus reserved quantity is unchanged either way |
| `Shopping.ShoppingCart.RemoveProduct` | shopping.js:106-115 | fails without change when the entry is missing or already removed; otherwise the whole reserved quantity goes back to the stock and the cart becomes `Release` of the old cart; stock plus reserved quantity is unchanged |
| `Shopping.ShoppingCart.DoCheckout` | shopping.js:117-123 | prints the bill heading, the old cart's text and "User Charged $<old total>.", then leaves the cart with no keys; it modifies no product |

## Left out

- The interactive console driver (`prompt-sync` menu loop), clipboard access and the async wrapper (books.js:151-257): they are I/O. `DemoLending` replays one such session instead.
- Printing. `bookDetail`, the listings and `doCheckout` return the lines they would print. `ShoppingCart.DoCheckout` returns its three lines.
- The JSON text. `JSON.stringify`/`JSON.parse` are runtime library calls, so the codec is modelled at record level. A book exports a `BookRecord`, and the library exports the sequence of its books' records. The double encoding, escaping and parse errors are not modelled: an import takes records that already parsed.
- Books.Book.SetJson: a parsed object missing a field would leave that field `undefined`; records here always carry all five fields.
- The difference between `null` and `undefined`. The renter compares them loosely, so both are `None`. `RenterText` prints `None` as `null`.
- Floating point. Prices, quantities and stock are integers, and NaN is `None`. `IntText` prints integers only.
- The field initialisers of `Product` (shopping.js:19-21): the constructor always overwrites them.
- Getters that only read a private field (`title`, `author`, `stock`, …): the fields themselves are the model.
- Key order for array-index-like titles and inherited property names: see the assumptions above.
- Books.Library.BorrowBook and Books.Library.ReturnBook: the contracts do not say that the same `Book` object cannot be stored twice. The source allows this after a title is changed through the book's `json` setter. Every slot holding that object changes together.
