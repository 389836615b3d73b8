/**
 A model of the shopping-cart state container of a mobile marketplace app.

 The cart is an ordered list of product lines. Three list transformations
 produce the next list: adding a product (a new line with quantity 1, or one
 more of an existing line), incrementing a line and decrementing a line (a
 line whose quantity drops to 0 leaves the cart). The provider class at the
 end holds the current list and mirrors it into a key-value store after every
 operation.
 */
module Cart {

  datatype Option<T> = None | Some(value: T)

  /** One line of the cart. `price` is carried along and never computed with. */
  datatype Product = Product(id: string, title: string, imageUrl: string, price: real, quantity: int)

  /** What addToCart receives: a product without a quantity. */
  datatype ProductInfo = ProductInfo(id: string, title: string, imageUrl: string, price: real)

  // ---------------------------------------------------------------------------
  // Properties of a cart list
  // ---------------------------------------------------------------------------

  predicate HasId(products: seq<Product>, id: string) {
    exists i :: 0 <= i < |products| && products[i].id == id
  }

  /** No line of the cart has a quantity of 0 or less. */
  predicate AllPositive(products: seq<Product>) {
    forall i :: 0 <= i < |products| ==> products[i].quantity > 0
  }

  /** No two lines of the cart carry the same id. */
  predicate UniqueIds(products: seq<Product>) {
    forall i, j :: 0 <= i < j < |products| ==> products[i].id != products[j].id
  }

  /** The invariant the three operations keep. */
  predicate ValidCart(products: seq<Product>) {
    UniqueIds(products) && AllPositive(products)
  }

  /** `p` and `q` are the same line except, possibly, for the quantity. */
  predicate SameLine(p: Product, q: Product) {
    p.id == q.id && p.title == q.title && p.imageUrl == q.imageUrl && p.price == q.price
  }

  // ---------------------------------------------------------------------------
  // The building blocks: find, map and filter over the list
  // ---------------------------------------------------------------------------

  /** The first line whose id is `id`, as `Array.prototype.find` gives it. */
  function Find(products: seq<Product>, id: string): (r: Option<Product>)
    ensures r.Some? <==> HasId(products, id)
    ensures r.Some? ==> exists k :: 0 <= k < |products| && products[k] == r.value && r.value.id == id &&
                                    forall j :: 0 <= j < k ==> products[j].id != id
  {
    if |products| == 0 then None
    else if products[0].id == id then Some(products[0])
    else
      var r := Find(products[1..], id);
      assert HasId(products[1..], id) <==> HasId(products, id) by {
        if HasId(products, id) {
          var i :| 0 <= i < |products| && products[i].id == id;
          assert products[1..][i - 1].id == id;
        }
      }
      assert r.Some? ==> exists k :: 0 <= k < |products| && products[k] == r.value && r.value.id == id &&
                                     forall j :: 0 <= j < k ==> products[j].id != id by {
        if r.Some? {
          var k :| 0 <= k < |products[1..]| && products[1..][k] == r.value && r.value.id == id &&
                   forall j :: 0 <= j < k ==> products[1..][j].id != id;
          assert products[k + 1] == r.value;
          assert forall j :: 0 <= j < k + 1 ==> products[j].id != id by {
            forall j | 0 <= j < k + 1 ensures products[j].id != id {
              if j > 0 { assert products[j] == products[1..][j - 1]; }
            }
          }
        }
      }
      r
  }

  /** The per-line step of the source's `map` callbacks: the line with id `id`
      gets `delta` added to its quantity, every other line is returned as is. */
  function Adjust(p: Product, id: string, delta: int): (r: Product)
    ensures SameLine(r, p)
    ensures r.quantity == p.quantity + (if p.id == id then delta else 0)
  {
    if p.id == id then p.(quantity := p.quantity + delta) else p
  }

  /** `Array.prototype.map` with `Adjust`: every line is adjusted on its own,
      in place, so length and order are those of the input. */
  function AdjustAll(products: seq<Product>, id: string, delta: int): (r: seq<Product>)
    ensures |r| == |products|
    ensures forall i :: 0 <= i < |products| ==> r[i] == Adjust(products[i], id, delta)
  {
    if |products| == 0 then []
    else [Adjust(products[0], id, delta)] + AdjustAll(products[1..], id, delta)
  }

  /** `Array.prototype.filter` keeping the lines whose quantity is above 0. */
  function KeepInCart(products: seq<Product>): (r: seq<Product>)
    ensures AllPositive(r)
    ensures |r| <= |products|
    ensures forall p :: p in r <==> p in products && p.quantity > 0
    ensures AllPositive(products) ==> r == products
  {
    if |products| == 0 then []
    else
      var rest := KeepInCart(products[1..]);
      assert forall p :: p in products <==> p == products[0] || p in products[1..];
      if products[0].quantity > 0 then [products[0]] + rest else rest
  }

  // ---------------------------------------------------------------------------
  // The three list transformations
  // ---------------------------------------------------------------------------

  /** The list addToCart produces: one more of an existing line, or a new line
      with quantity 1 at the end. On a match the incoming title, image and price
      are ignored. */
  function Added(products: seq<Product>, product: ProductInfo): (r: seq<Product>)
    ensures !HasId(products, product.id) ==>
              |r| == |products| + 1 && r[..|products|] == products &&
              r[|products|] == Product(product.id, product.title, product.imageUrl, product.price, 1)
    ensures HasId(products, product.id) ==>
              |r| == |products| &&
              forall i :: 0 <= i < |products| ==>
                SameLine(r[i], products[i]) &&
                r[i].quantity == products[i].quantity + (if products[i].id == product.id then 1 else 0)
  {
    if Find(products, product.id).Some? then AdjustAll(products, product.id, 1)
    else products + [Product(product.id, product.title, product.imageUrl, product.price, 1)]
  }

  /** The list increment produces: every line with id `id` gains one unit. */
  function Incremented(products: seq<Product>, id: string): (r: seq<Product>)
    ensures |r| == |products|
    ensures forall i :: 0 <= i < |products| ==>
              SameLine(r[i], products[i]) &&
              r[i].quantity == products[i].quantity + (if products[i].id == id then 1 else 0)
    ensures !HasId(products, id) ==> r == products
  {
    AdjustAll(products, id, 1)
  }

  /** The list decrement produces: every line with id `id` loses one unit, then
      every line whose quantity is no longer above 0 is dropped. */
  function Decremented(products: seq<Product>, id: string): (r: seq<Product>)
    ensures AllPositive(r)
    ensures |r| <= |products|
    ensures forall p :: p in r ==> p.quantity > 0 && exists i :: 0 <= i < |products| && p == Adjust(products[i], id, -1)
    ensures forall i :: 0 <= i < |products| && Adjust(products[i], id, -1).quantity > 0 ==> Adjust(products[i], id, -1) in r
  {
    var adjusted := AdjustAll(products, id, -1);
    var r := KeepInCart(adjusted);
    assert forall i :: 0 <= i < |products| && Adjust(products[i], id, -1).quantity > 0 ==> Adjust(products[i], id, -1) in r by {
      forall i | 0 <= i < |products| && Adjust(products[i], id, -1).quantity > 0 ensures Adjust(products[i], id, -1) in r {
        assert adjusted[i] in adjusted;
      }
    }
    assert forall p :: p in r ==> exists i :: 0 <= i < |products| && p == Adjust(products[i], id, -1) by {
      forall p | p in r ensures exists i :: 0 <= i < |products| && p == Adjust(products[i], id, -1) {
        var i :| 0 <= i < |adjusted| && adjusted[i] == p;
      }
    }
    r
  }

  // ---------------------------------------------------------------------------
  // Lemmas about the filter
  // ---------------------------------------------------------------------------

  /** The filter keeps the relative order of the lines it keeps. */
  lemma {:induction false} KeepInCartAppend(a: seq<Product>, b: seq<Product>)
    ensures KeepInCart(a + b) == KeepInCart(a) + KeepInCart(b)
  {
    if |a| == 0 {
      assert a + b == b;
    } else {
      assert (a + b)[1..] == a[1..] + b;
      KeepInCartAppend(a[1..], b);
    }
  }

  /** The filter never makes two lines share an id. */
  lemma {:induction false} KeepInCartUniqueIds(products: seq<Product>)
    requires UniqueIds(products)
    ensures UniqueIds(KeepInCart(products))
  {
    if |products| > 0 {
      var tail := products[1..];
      assert UniqueIds(tail) by {
        forall i, j | 0 <= i < j < |tail| ensures tail[i].id != tail[j].id {
          assert tail[i] == products[i + 1] && tail[j] == products[j + 1];
        }
      }
      KeepInCartUniqueIds(tail);
      var rest := KeepInCart(tail);
      if products[0].quantity > 0 {
        forall j | 0 <= j < |rest| ensures products[0].id != rest[j].id {
          assert rest[j] in rest;
          var k :| 0 <= k < |tail| && tail[k] == rest[j];
          assert products[k + 1] == rest[j];
        }
        ConsUniqueIds(products[0], rest);
      }
    }
  }

  lemma ConsUniqueIds(p: Product, rest: seq<Product>)
    requires UniqueIds(rest)
    requires forall j :: 0 <= j < |rest| ==> p.id != rest[j].id
    ensures UniqueIds([p] + rest)
  {
    var r := [p] + rest;
    forall i, j | 0 <= i < j < |r| ensures r[i].id != r[j].id {
      assert r[j] == rest[j - 1];
      if i > 0 { assert r[i] == rest[i - 1]; }
    }
  }

  // ---------------------------------------------------------------------------
  // What each operation does to a valid cart
  // ---------------------------------------------------------------------------

  /** On a cart with unique ids, mapping over the line at index `k` touches
      that line only. */
  lemma AdjustAllUnique(products: seq<Product>, k: nat, delta: int)
    requires UniqueIds(products)
    requires k < |products|
    ensures AdjustAll(products, products[k].id, delta) ==
              products[..k] + [products[k].(quantity := products[k].quantity + delta)] + products[k + 1..]
  {
    var p := products[k];
    var adjusted := AdjustAll(products, p.id, delta);
    var expected := products[..k] + [p.(quantity := p.quantity + delta)] + products[k + 1..];
    forall i | 0 <= i < |products| ensures adjusted[i] == expected[i] {
      if i < k {
        assert products[i].id != p.id;
      } else if i > k {
        assert products[i].id != p.id;
      }
    }
  }

  lemma AllPositiveSlices(products: seq<Product>, k: nat)
    requires AllPositive(products)
    requires k < |products|
    ensures AllPositive(products[..k]) && AllPositive(products[k + 1..])
  {
    var before, after := products[..k], products[k + 1..];
    forall i | 0 <= i < |before| ensures before[i].quantity > 0 { assert before[i] == products[i]; }
    forall i | 0 <= i < |after| ensures after[i].quantity > 0 { assert after[i] == products[k + 1 + i]; }
  }

  /** The filter over three consecutive parts, the outer two already positive. */
  lemma KeepInCartMiddle(before: seq<Product>, q: Product, after: seq<Product>)
    requires AllPositive(before) && AllPositive(after)
    ensures KeepInCart(before + [q] + after) ==
              if q.quantity > 0 then before + [q] + after else before + after
  {
    KeepInCartAppend(before + [q], after);
    KeepInCartAppend(before, [q]);
    var kept := KeepInCart([q]);
    assert kept == if q.quantity > 0 then [q] else [] by {
      assert [q][1..] == [];
    }
    assert KeepInCart(before) == before;
    assert KeepInCart(after) == after;
    if q.quantity > 0 {
      assert KeepInCart(before + [q] + after) == before + [q] + after;
    } else {
      assert before + [] == before;
      assert KeepInCart(before + [q] + after) == before + after;
    }
  }

  /** On a valid cart, decrementing a line present at index `k` drops exactly
      that line when its quantity was 1, and otherwise lowers its quantity by
      exactly 1; every other line stays where it was, unchanged. */
  lemma DecrementedPresent(products: seq<Product>, k: nat)
    requires ValidCart(products)
    requires k < |products|
    ensures var p := products[k];
            Decremented(products, p.id) ==
              if p.quantity == 1 then products[..k] + products[k + 1..]
              else products[..k] + [p.(quantity := p.quantity - 1)] + products[k + 1..]
  {
    var p := products[k];
    AdjustAllUnique(products, k, -1);
    AllPositiveSlices(products, k);
    KeepInCartMiddle(products[..k], p.(quantity := p.quantity - 1), products[k + 1..]);
  }

  /** With every quantity at least 1, decrementing an id not in the cart
      leaves the cart as it was. */
  lemma DecrementedAbsent(products: seq<Product>, id: string)
    requires AllPositive(products)
    requires !HasId(products, id)
    ensures Decremented(products, id) == products
  {
    assert AdjustAll(products, id, -1) == products;
  }

  /** On an id already in the cart, addToCart does what increment does. */
  lemma AddedExistingIsIncremented(products: seq<Product>, product: ProductInfo)
    requires HasId(products, product.id)
    ensures Added(products, product) == Incremented(products, product.id)
  {
  }

  // ---------------------------------------------------------------------------
  // The cart invariant is preserved
  // ---------------------------------------------------------------------------

  lemma AddedValid(products: seq<Product>, product: ProductInfo)
    requires ValidCart(products)
    ensures ValidCart(Added(products, product))
  {
    var r := Added(products, product);
    if !HasId(products, product.id) {
      forall i, j | 0 <= i < j < |r| ensures r[i].id != r[j].id {
        if j == |products| {
          assert r[i] == products[i];
        } else {
          assert r[i] == products[i] && r[j] == products[j];
        }
      }
      forall i | 0 <= i < |r| ensures r[i].quantity > 0 {
        if i < |products| { assert r[i] == products[i]; }
      }
    }
  }

  lemma IncrementedValid(products: seq<Product>, id: string)
    requires ValidCart(products)
    ensures ValidCart(Incremented(products, id))
  {
  }

  lemma DecrementedValid(products: seq<Product>, id: string)
    requires ValidCart(products)
    ensures ValidCart(Decremented(products, id))
  {
    var adjusted := AdjustAll(products, id, -1);
    assert UniqueIds(adjusted) by {
      forall i, j | 0 <= i < j < |adjusted| ensures adjusted[i].id != adjusted[j].id {
        assert adjusted[i].id == products[i].id && adjusted[j].id == products[j].id;
      }
    }
    KeepInCartUniqueIds(adjusted);
  }

  // ---------------------------------------------------------------------------
  // Round trips
  // ---------------------------------------------------------------------------

  /** With every quantity at least 1, increment followed by decrement of the
      same id gives back the cart it started from, whether the id is present or
      not. */
  lemma IncrementThenDecrement(products: seq<Product>, id: string)
    requires AllPositive(products)
    ensures Decremented(Incremented(products, id), id) == products
  {
    var up := Incremented(products, id);
    var down := AdjustAll(up, id, -1);
    assert down == products by {
      forall i | 0 <= i < |products| ensures down[i] == products[i] {
        assert SameLine(up[i], products[i]);
      }
    }
  }

  /** With every quantity at least 1, adding a product not yet in the cart and
      then decrementing it gives back the cart it started from. */
  lemma AddNewThenDecrement(products: seq<Product>, product: ProductInfo)
    requires AllPositive(products)
    requires !HasId(products, product.id)
    ensures Decremented(Added(products, product), product.id) == products
  {
    var added := Added(products, product);
    var last := Product(product.id, product.title, product.imageUrl, product.price, 1);
    assert added == products + [last];
    var down := AdjustAll(added, product.id, -1);
    assert down == products + [last.(quantity := 0)] by {
      forall i | 0 <= i < |products| ensures down[i] == products[i] {
        assert added[i] == products[i];
      }
    }
    KeepInCartAppend(products, [last.(quantity := 0)]);
    assert KeepInCart([last.(quantity := 0)]) == [] by {
      assert [last.(quantity := 0)][1..] == [];
    }
  }

  // ---------------------------------------------------------------------------
  // The provider: current list plus its persisted copy
  // ---------------------------------------------------------------------------

  /** The key under which the cart is persisted. */
  const StorageKey: string := "@GoMarketplace:products"

  /** The provider's state: `products` is what consumers see, `storage` the
      key-value store the cart is persisted in (a missing key is an empty read). */
  class CartProvider {
    var products: seq<Product>
    var storage: map<string, seq<Product>>

    /** The persisted copy under the cart's key is the current list. */
    ghost predicate Persisted()
      reads this
    {
      StorageKey in storage && storage[StorageKey] == products
    }

    /** A fresh provider starts with an empty cart, whatever the store holds. */
    constructor (store: map<string, seq<Product>>)
      ensures products == [] && storage == store
    {
      products := [];
      storage := store;
    }

    /** The load on mount: a present payload replaces the list wholesale; an
        absent one leaves it alone. Nothing is written. */
    method LoadProducts()
      modifies this
      ensures storage == old(storage)
      ensures StorageKey in storage ==> products == storage[StorageKey] && Persisted()
      ensures StorageKey !in storage ==> products == old(products)
    {
      if StorageKey in storage {
        products := storage[StorageKey];
      }
    }

    method AddToCart(product: ProductInfo)
      modifies this
      ensures products == Added(old(products), product)
      ensures storage == old(storage)[StorageKey := products]
      ensures Persisted()
      ensures ValidCart(old(products)) ==> ValidCart(products)
    {
      var addProducts := Added(products, product);
      if ValidCart(products) {
        AddedValid(products, product);
      }
      products := addProducts;
      storage := storage[StorageKey := addProducts];
    }

    method Increment(id: string)
      modifies this
      ensures products == Incremented(old(products), id)
      ensures storage == old(storage)[StorageKey := products]
      ensures Persisted()
      ensures ValidCart(old(products)) ==> ValidCart(products)
    {
      var incrementedProducts := Incremented(products, id);
      if ValidCart(products) {
        IncrementedValid(products, id);
      }
      products := incrementedProducts;
      storage := storage[StorageKey := incrementedProducts];
    }

    method Decrement(id: string)
      modifies this
      ensures products == Decremented(old(products), id)
      ensures storage == old(storage)[StorageKey := products]
      ensures Persisted()
      ensures AllPositive(products)
      ensures ValidCart(old(products)) ==> ValidCart(products)
    {
      var decrementedProducts := Decremented(products, id);
      if ValidCart(products) {
        DecrementedValid(products, id);
      }
      products := decrementedProducts;
      storage := storage[StorageKey := decrementedProducts];
    }
  }

  /** A session: a cart persisted earlier is loaded as it is; a fresh cart is
      then added to, incremented and decremented back to empty. */
  method SessionScenario()
  {
    var shirt := Product("p1", "Shirt", "u", 10.0, 3);
    var cart := new CartProvider(map[StorageKey := [shirt]]);
    assert cart.products == [];
    cart.LoadProducts();
    assert cart.products == [shirt];

    var empty := new CartProvider(map[]);
    empty.LoadProducts();
    assert empty.products == [];
    var info := ProductInfo("p1", "Shirt", "u", 10.0);
    empty.AddToCart(info);
    assert empty.products == [Product("p1", "Shirt", "u", 10.0, 1)];
    empty.Increment("p1");
    assert empty.products[0].quantity == 2;
    empty.Decrement("p1");
    empty.Decrement("p1");
    DecrementedPresent([Product("p1", "Shirt", "u", 10.0, 1)], 0);
    assert empty.products == [];
    assert empty.storage[StorageKey] == [];
  }
}
