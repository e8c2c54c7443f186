/** The shopping cart: products with a stock count, and a cart that reserves
    quantities of them under a (name, price) key, prices and prints itself,
    and is emptied at checkout. */
module Shopping {
  import opened Wrappers

  /** Decimal text of a natural number. */
  function NatText(n: nat): string
    decreases n
  {
    if n < 10 then [('0' as int + n) as char] else NatText(n / 10) + NatText(n % 10)
  }

  /** How a template literal prints an integer. */
  function IntText(i: int): string {
    if i < 0 then "-" + NatText(-i) else NatText(i)
  }

  /** The number a string of decimal digits denotes. */
  function NatValue(s: string): int {
    if s == [] then 0 else NatValue(s[..|s| - 1]) * 10 + (s[|s| - 1] as int - '0' as int)
  }

  /** The number an optionally signed decimal text denotes. */
  function IntValue(s: string): int {
    if |s| > 0 && s[0] == '-' then -NatValue(s[1..]) else NatValue(s)
  }

  lemma {:induction false} NatTextRoundTrip(n: nat)
    ensures |NatText(n)| > 0
    ensures forall i :: 0 <= i < |NatText(n)| ==> '0' <= NatText(n)[i] <= '9'
    ensures NatValue(NatText(n)) == n
  {
    if n >= 10 {
      NatTextRoundTrip(n / 10);
      NatTextRoundTrip(n % 10);
      var a, d := NatText(n / 10), NatText(n % 10);
      assert (a + d)[..|a + d| - 1] == a;
    }
  }

  /** The printed integer reads back as the same number and holds no tab,
      so the fields of a tab-separated report stay apart. */
  lemma IntTextRoundTrip(i: int)
    ensures IntValue(IntText(i)) == i
    ensures '\t' !in IntText(i)
  {
    if i < 0 {
      NatTextRoundTrip(-i);
      assert IntText(i)[1..] == NatText(-i);
    } else {
      NatTextRoundTrip(i);
    }
  }

  /** `takeItems` refuses to take more than is in stock; otherwise it leaves
      the rest, which is never negative and is what `loadItems` of the same
      quantity restores. */
  function Taken(stock: int, qty: int): (rest: Option<int>)
    ensures rest.None? <==> stock < qty
    ensures rest.Some? ==> rest.value >= 0 && rest.value + qty == stock
  {
    if stock < qty then None else Some(stock - qty)
  }

  class Product {
    const name: string
    const price: int
    var stock: int

    constructor (name: string, price: int, stock: int)
      ensures this.name == name && this.price == price && this.stock == stock
    {
      this.name := name;
      this.price := price;
      this.stock := stock;
    }

    method TakeItems(qty: int) returns (ok: bool)
      modifies this
      ensures Taken(old(stock), qty) == if ok then Some(stock) else None
      ensures !ok ==> stock == old(stock)
    {
      if stock < qty {
        return false;
      }
      stock := stock - qty;
      return true;
    }

    method LoadItems(qty: int) returns (ok: bool)
      modifies this
      ensures ok && stock == old(stock) + qty
    {
      stock := stock + qty;
      return true;
    }

    /** `getStockReport`: name, price and "x" followed by the stock,
        separated by tabs. */
    function StockReport(): (report: string)
      reads this
      ensures report == name + "\t" + IntText(price) + "\tx" + IntText(stock)
      ensures IntValue(IntText(price)) == price && IntValue(IntText(stock)) == stock
    {
      IntTextRoundTrip(price);
      IntTextRoundTrip(stock);
      name + "\t" + IntText(price) + "\tx" + IntText(stock)
    }
  }

  /** A cart entry's key: the product's name and price, compared by value. */
  datatype ProductKey = ProductKey(name: string, price: int)

  function KeyOf(p: Product): ProductKey {
    ProductKey(p.name, p.price)
  }

  /** Two products with the same name and price share one cart entry. */
  lemma SharedKey(p: Product, q: Product)
    ensures KeyOf(p) == KeyOf(q) <==> p.name == q.name && p.price == q.price
  {
  }

  /** The cart's dictionary: its keys in enumeration order (first insertion
      since the last checkout) and the value under each key, where `None` is
      the `undefined` that `removeProduct` leaves behind. */
  datatype CartState = CartState(keys: seq<ProductKey>, items: map<ProductKey, Option<int>>)

  ghost predicate WellFormed(c: CartState) {
    && (forall i, j :: 0 <= i < j < |c.keys| ==> c.keys[i] != c.keys[j])
    && (forall k :: k in c.items <==> k in c.keys)
  }

  const EmptyCart := CartState([], map[])

  /** Reading an entry: a missing key and a removed one both read as `undefined`. */
  function Quantity(c: CartState, k: ProductKey): Option<int> {
    if k in c.items then c.items[k] else None
  }

  /** The cart side of a successful `addProduct`: an entry that is missing
      or removed restarts from 0, then grows by `qty`; a new key goes last,
      a removed one keeps its place. */
  function Reserve(c: CartState, k: ProductKey, qty: int): (r: CartState)
    requires WellFormed(c)
    ensures WellFormed(r)
    ensures r.keys == if k in c.keys then c.keys else c.keys + [k]
    ensures Quantity(r, k) == Some(Quantity(c, k).GetOr(0) + qty)
    ensures forall other :: other != k ==> Quantity(r, other) == Quantity(c, other)
  {
    var start :=
      if Quantity(c, k).Some? then c
      else CartState(if k in c.items then c.keys else c.keys + [k], c.items[k := Some(0)]);
    start.(items := start.items[k := Some(start.items[k].value + qty)])
  }

  /** The cart side of a successful `removeProduct`: the entry becomes
      `undefined` but its key stays where it was. */
  function Release(c: CartState, k: ProductKey): (r: CartState)
    requires WellFormed(c)
    requires Quantity(c, k).Some?
    ensures WellFormed(r)
    ensures r.keys == c.keys
    ensures Quantity(r, k) == None
    ensures forall other :: other != k ==> Quantity(r, other) == Quantity(c, other)
  {
    c.(items := c.items[k := None])
  }

  /** The `items` getter: a JSON deep copy, which drops every entry whose
      value is `undefined`. */
  function Copy(c: CartState): (m: map<ProductKey, int>)
    ensures forall k :: k in m <==> Quantity(c, k).Some?
    ensures forall k :: k in m ==> Quantity(c, k) == Some(m[k])
  {
    map k | k in c.items && c.items[k].Some? :: c.items[k].value
  }

  /** Indexing the copy: `undefined` when the key is not in it. */
  function Lookup(copy: map<ProductKey, int>, k: ProductKey): Option<int> {
    if k in copy then Some(copy[k]) else None
  }

  /** Addition where `None` is NaN: it absorbs everything it meets. */
  function Plus(a: Option<int>, b: Option<int>): Option<int> {
    if a.Some? && b.Some? then Some(a.value + b.value) else None
  }

  /** One key's contribution: price times quantity, NaN for `undefined`. */
  function Term(k: ProductKey, qty: Option<int>): Option<int> {
    if qty.Some? then Some(k.price * qty.value) else None
  }

  /** The running total of the `price` getter after the given keys, reading
      quantities from the copy; it is NaN exactly when some key has no
      quantity there. */
  function Total(keys: seq<ProductKey>, copy: map<ProductKey, int>): (t: Option<int>)
    ensures t.None? <==> exists i :: 0 <= i < |keys| && keys[i] !in copy
  {
    if keys == [] then Some(0)
    else
      var init := keys[..|keys| - 1];
      var t := Plus(Total(init, copy), Term(keys[|keys| - 1], Lookup(copy, keys[|keys| - 1])));
      assert forall i :: 0 <= i < |init| ==> init[i] == keys[i];
      t
  }

  function CartTotal(c: CartState): Option<int> {
    Total(c.keys, Copy(c))
  }

  /** The total is not a number exactly when some entry has been removed. */
  lemma TotalNaNIffRemoved(c: CartState)
    requires WellFormed(c)
    ensures CartTotal(c).None? <==> exists k :: k in c.keys && Quantity(c, k) == None
  {
  }

  /** Changing the quantity of a key not among `keys` leaves their total alone. */
  lemma {:induction false} TotalIgnoresOtherKeys(keys: seq<ProductKey>, copy: map<ProductKey, int>, k: ProductKey, v: int)
    requires k !in keys
    ensures Total(keys, copy[k := v]) == Total(keys, copy)
  {
    if keys != [] {
      TotalIgnoresOtherKeys(keys[..|keys| - 1], copy, k, v);
    }
  }

  /** A key new to `keys`, appended with quantity `v`, adds its price
      times `v` to the total. */
  lemma TotalAppend(keys: seq<ProductKey>, copy: map<ProductKey, int>, k: ProductKey, v: int)
    requires k !in keys
    ensures Total(keys + [k], copy[k := v]) == Plus(Total(keys, copy), Some(k.price * v))
  {
    var m := copy[k := v];
    assert (keys + [k])[..|keys|] == keys;
    assert Total(keys + [k], m) == Plus(Total(keys, m), Term(k, Lookup(m, k)));
    TotalIgnoresOtherKeys(keys, copy, k, v);
  }

  /** Changing the quantity of a key that occurs once among `keys` moves a
      numeric total by the price times the change. */
  lemma {:induction false} TotalUpdate(keys: seq<ProductKey>, copy: map<ProductKey, int>, k: ProductKey, v: int)
    requires forall i, j :: 0 <= i < j < |keys| ==> keys[i] != keys[j]
    requires k in keys && k in copy
    requires Total(keys, copy).Some?
    ensures Total(keys, copy[k := v]) == Some(Total(keys, copy).value + k.price * (v - copy[k]))
  {
    var n := |keys|;
    var init := keys[..n - 1];
    if keys[n - 1] == k {
      assert k !in init by {
        forall i | 0 <= i < |init| ensures init[i] != k {
          assert init[i] == keys[i];
        }
      }
      TotalIgnoresOtherKeys(init, copy, k, v);
      assert k.price * v == k.price * copy[k] + k.price * (v - copy[k]);
    } else {
      assert k in init by {
        var i :| 0 <= i < n && keys[i] == k;
        assert init[i] == k;
      }
      assert Total(init, copy).Some?;
      TotalUpdate(init, copy, k, v);
    }
  }

  /** What a reservation does to the copy the total reads: the key's
      quantity is set to its new value. */
  lemma CopyAfterReserve(c: CartState, k: ProductKey, qty: int)
    requires WellFormed(c)
    ensures Copy(Reserve(c, k, qty)) == Copy(c)[k := Quantity(c, k).GetOr(0) + qty]
  {
  }

  /** Reserving under a key already in the cart moves a numeric total by
      the price times the quantity added. */
  lemma ReserveKnownKey(c: CartState, k: ProductKey, qty: int)
    requires WellFormed(c)
    requires CartTotal(c).Some?
    requires k in c.keys
    ensures CartTotal(Reserve(c, k, qty)) == Some(CartTotal(c).value + k.price * qty)
  {
    TotalNaNIffRemoved(c);
    var q := Quantity(c, k).value;
    var copy := Copy(c);
    assert copy[k] == q;
    var r := Reserve(c, k, qty);
    CopyAfterReserve(c, k, qty);
    assert CartTotal(r) == Total(c.keys, copy[k := q + qty]);
    TotalUpdate(c.keys, copy, k, q + qty);
    assert q + qty - copy[k] == qty;
  }

  /** Reserving under a new key adds its line at the end of the total. */
  lemma ReserveNewKey(c: CartState, k: ProductKey, qty: int)
    requires WellFormed(c)
    requires CartTotal(c).Some?
    requires k !in c.keys
    ensures CartTotal(Reserve(c, k, qty)) == Some(CartTotal(c).value + k.price * qty)
  {
    CopyAfterReserve(c, k, qty);
    TotalAppend(c.keys, Copy(c), k, qty);
  }

  /** After a successful `addProduct` on a cart whose total is a number, the
      total grows by exactly the price times the quantity added. */
  lemma ReserveAddsToTotal(c: CartState, k: ProductKey, qty: int)
    requires WellFormed(c)
    requires CartTotal(c).Some?
    ensures CartTotal(Reserve(c, k, qty)) == Some(CartTotal(c).value + k.price * qty)
  {
    if k in c.keys {
      ReserveKnownKey(c, k, qty);
    } else {
      ReserveNewKey(c, k, qty);
    }
  }

  /** After a successful `removeProduct` the total is not a number. */
  lemma ReleaseMakesTotalNaN(c: CartState, k: ProductKey)
    requires WellFormed(c)
    requires Quantity(c, k).Some?
    ensures CartTotal(Release(c, k)) == None
  {
  }

  const EmptyCartText := "Your cart is empty!"

  function QuantityText(qty: Option<int>): string {
    match qty
    case Some(q) => IntText(q)
    case None => "undefined"
  }

  function TotalText(t: Option<int>): string {
    match t
    case Some(v) => IntText(v)
    case None => "NaN"
  }

  /** One bill line of `cartStr`. */
  function ItemLine(k: ProductKey, qty: Option<int>): string {
    k.name + " - $" + IntText(k.price) + "\tx" + QuantityText(qty) + "\n"
  }

  /** The bill lines for the given keys, in order. */
  function ItemLines(keys: seq<ProductKey>, copy: map<ProductKey, int>): string {
    if keys == [] then ""
    else ItemLines(keys[..|keys| - 1], copy) + ItemLine(keys[|keys| - 1], Lookup(copy, keys[|keys| - 1]))
  }

  /** `cartStr`: the empty-cart message, or one line per key and a total line. */
  function CartText(c: CartState): string {
    if c.keys == [] then EmptyCartText
    else ItemLines(c.keys, Copy(c)) + "Total Price: $" + TotalText(CartTotal(c))
  }

  /** The empty-cart message is printed exactly when the cart has no keys;
      a removed entry still counts as a key. */
  lemma CartTextEmptyIff(c: CartState)
    ensures CartText(c) == EmptyCartText <==> c.keys == []
  {
  }

  class ShoppingCart {
    var keys: seq<ProductKey>
    var items: map<ProductKey, Option<int>>

    function State(): CartState
      reads this
    {
      CartState(keys, items)
    }

    ghost predicate Valid()
      reads this
    {
      WellFormed(State())
    }

    constructor ()
      ensures Valid() && State() == EmptyCart
    {
      keys := [];
      items := map[];
    }

    /** The `items` getter. */
    function Items(): map<ProductKey, int>
      reads this
    {
      Copy(State())
    }

    /** The `price` getter: one pass over the keys, adding price times the
        quantity read back from the copy. */
    method Price() returns (price: Option<int>)
      ensures price == CartTotal(State())
    {
      price := Some(0);
      var i := 0;
      while i < |keys|
        invariant 0 <= i <= |keys|
        invariant price == Total(keys[..i], Items())
      {
        var key := keys[i];
        price := Plus(price, Term(key, Lookup(Items(), key)));
        assert keys[..i + 1][..i] == keys[..i];
        i := i + 1;
      }
      assert keys[..i] == keys;
    }

    /** The `cartStr` getter. */
    method CartStr() returns (str: string)
      ensures str == CartText(State())
    {
      if |keys| == 0 {
        return EmptyCartText;
      }
      str := "";
      var i := 0;
      while i < |keys|
        invariant 0 <= i <= |keys|
        invariant str == ItemLines(keys[..i], Items())
      {
        var key := keys[i];
        str := str + ItemLine(key, Lookup(Items(), key));
        assert keys[..i + 1][..i] == keys[..i];
        i := i + 1;
      }
      assert keys[..i] == keys;
      var price := Price();
      str := str + "Total Price: $" + TotalText(price);
    }

    /** `addProduct`: the quantity is taken from the product's stock first;
        only if that succeeds does the cart entry grow by it. Stock plus
        reserved quantity is the same before and after. */
    method AddProduct(product: Product, qty: int) returns (ok: bool)
      requires Valid()
      modifies this, product
      ensures Valid()
      ensures ok <==> old(product.stock) >= qty
      ensures ok ==> product.stock == old(product.stock) - qty
      ensures ok ==> State() == Reserve(old(State()), KeyOf(product), qty)
      ensures !ok ==> product.stock == old(product.stock) && State() == old(State())
      ensures product.stock + Quantity(State(), KeyOf(product)).GetOr(0)
           == old(product.stock) + old(Quantity(State(), KeyOf(product))).GetOr(0)
    {
      ok := product.TakeItems(qty);
      if ok {
        var key := KeyOf(product);
        if Quantity(State(), key).None? {
          if key !in items {
            keys := keys + [key];
          }
          items := items[key := Some(0)];
        }
        items := items[key := Some(items[key].value + qty)];
      }
    }

    /** `removeProduct`: fails for a missing or already removed entry;
        otherwise the whole reserved quantity goes back to the product's
        stock and the entry becomes `undefined`, keeping its key. */
    method RemoveProduct(product: Product) returns (ok: bool)
      requires Valid()
      modifies this, product
      ensures Valid()
      ensures ok <==> old(Quantity(State(), KeyOf(product))).Some?
      ensures ok ==> product.stock == old(product.stock) + old(Quantity(State(), KeyOf(product))).value
      ensures ok ==> State() == Release(old(State()), KeyOf(product))
      ensures !ok ==> product.stock == old(product.stock) && State() == old(State())
      ensures product.stock + Quantity(State(), KeyOf(product)).GetOr(0)
           == old(product.stock) + old(Quantity(State(), KeyOf(product))).GetOr(0)
    {
      var key := KeyOf(product);
      if Quantity(State(), key).None? {
        return false;
      }
      var _ := product.LoadItems(items[key].value);
      items := items[key := None];
      return true;
    }

    /** `doCheckout`: prints the bill and the amount charged, then forgets
        every entry. No product gets its stock back. */
    method DoCheckout() returns (printed: seq<string>)
      requires Valid()
      modifies this
      ensures Valid() && State() == EmptyCart
      ensures printed == [" ==== BILL ==== ", CartText(old(State())),
                          "User Charged $" + TotalText(CartTotal(old(State()))) + "."]
    {
      var bill := CartStr();
      var price := Price();
      printed := [" ==== BILL ==== ", bill, "User Charged $" + TotalText(price) + "."];
      keys := [];
      items := map[];
    }
  }

  /** The apples of the demo at the end of shopping.js, replayed against
      the contracts: two reservations, a refused oversized one, and the
      total they add up to. */
  method DemoCheckout() {
    var apple := new Product("Apple", 2, 10);
    var cart := new ShoppingCart();
    ghost var s0 := cart.State();
    var ok := cart.AddProduct(apple, 3);
    ghost var s1 := cart.State();
    ok := cart.AddProduct(apple, 3);
    assert apple.stock == 4;
    ok := cart.AddProduct(apple, 300);
    assert !ok && apple.stock == 4;
    ReserveAddsToTotal(s0, KeyOf(apple), 3);
    ReserveAddsToTotal(s1, KeyOf(apple), 3);
    var total := cart.Price();
    assert total == Some(12);
  }

  /** Checking out charges the cart, empties it and restocks nothing. */
  method DemoBill() {
    var apple := new Product("Apple", 2, 10);
    var cart := new ShoppingCart();
    var ok := cart.AddProduct(apple, 3);
    var printed := cart.DoCheckout();
    assert cart.State() == EmptyCart && apple.stock == 7 && |printed| == 3;
  }

  /** The second cart of the same demo: after a removal the reserved
      quantity is back in stock, the entry's key is still there, and the
      cart's total is NaN. */
  method DemoRemove() {
    var apple := new Product("Apple", 2, 34);
    var cart := new ShoppingCart();
    var ok := cart.AddProduct(apple, 34);
    assert ok && apple.stock == 0;
    ghost var before := cart.State();
    ok := cart.RemoveProduct(apple);
    assert ok && apple.stock == 34 && cart.keys == [KeyOf(apple)];
    ReleaseMakesTotalNaN(before, KeyOf(apple));
    var total := cart.Price();
    assert total == None;
    ok := cart.RemoveProduct(apple);
    assert !ok;
  }
}
