/**
 * The client-side cart (front/src/app/products/data-access/cart.service.ts):
 * the new carts that `addToCart`, `removeFromCart` and
 * `updateCartItemQuantity` build, the two folds `getTotal` and
 * `getCartItemsCount`, and the service class that publishes each new cart and
 * keeps a stored copy of it.
 */
module Cart {
  import opened Wrappers
  import opened ProductModel

  /** `interface CartItem extends Product { quantity: number }`. A product
      already has a `quantity`, so a cart item has exactly a product's shape;
      its `quantity` is how many of it the cart holds. */
  type CartItem = Product

  // HasItem, DistinctIds and IndexOf mirror Catalog.HasId, Catalog.UniqueIds
  // and Catalog.FindIndex over cart items: the front end and the back end
  // share no code, and each of them writes its own lookup by id.

  predicate HasItem(cart: seq<CartItem>, id: int)
  {
    exists i :: 0 <= i < |cart| && cart[i].id == id
  }

  /** No product appears in two items. */
  predicate DistinctIds(cart: seq<CartItem>)
  {
    forall i, j :: 0 <= i < j < |cart| ==> cart[i].id != cart[j].id
  }

  /** Every item holds at least one unit. */
  predicate AllPositive(cart: seq<CartItem>)
  {
    forall i :: 0 <= i < |cart| ==> cart[i].quantity >= 1
  }

  /** `cart.find(item => item.id === id)`, as an index: the first item of
      that product, or -1. */
  function IndexOf(cart: seq<CartItem>, id: int): (r: int)
    ensures -1 <= r < |cart|
    ensures r == -1 <==> !HasItem(cart, id)
    ensures r >= 0 ==> cart[r].id == id && forall j :: 0 <= j < r ==> cart[j].id != id
  {
    if |cart| == 0 then -1
    else if cart[0].id == id then 0
    else
      var k := IndexOf(cart[1..], id);
      assert forall i :: 1 <= i < |cart| ==> cart[i] == cart[1..][i - 1];
      if k == -1 then -1 else k + 1
  }

  /** `reduce((count, item) => count + item.quantity, 0)` */
  function Count(cart: seq<CartItem>): (n: int)
    ensures AllPositive(cart) ==> n >= |cart|
  {
    if cart == [] then 0
    else
      var init := cart[..|cart| - 1];
      assert forall i :: 0 <= i < |init| ==> init[i] == cart[i];
      Count(init) + cart[|cart| - 1].quantity
  }

  /** `reduce((total, item) => total + item.price * item.quantity, 0)`, in
      exact arithmetic. */
  function Total(cart: seq<CartItem>): (t: real)
    ensures (forall i :: 0 <= i < |cart| ==> cart[i].price >= 0.0 && cart[i].quantity >= 0) ==> t >= 0.0
  {
    if cart == [] then 0.0
    else
      var init := cart[..|cart| - 1];
      var last := cart[|cart| - 1];
      assert forall i :: 0 <= i < |init| ==> init[i] == cart[i];
      assert last.price >= 0.0 && last.quantity >= 0 ==> last.price * (last.quantity as real) >= 0.0;
      Total(init) + last.price * (last.quantity as real)
  }

  /** The cart `addToCart(product)` publishes: one more unit of an item
      already there, or a new item with quantity 1 at the end. */
  function AddItem(cart: seq<CartItem>, product: Product): (r: seq<CartItem>)
    ensures !HasItem(cart, product.id) ==>
      && |r| == |cart| + 1
      && r[..|cart|] == cart
      && r[|cart|] == product.(quantity := 1)
    ensures HasItem(cart, product.id) ==>
      var k := IndexOf(cart, product.id);
      && |r| == |cart|
      && r[k] == cart[k].(quantity := cart[k].quantity + 1)
      && forall i :: 0 <= i < |cart| && i != k ==> r[i] == cart[i]
  {
    var k := IndexOf(cart, product.id);
    if k >= 0 then cart[k := cart[k].(quantity := cart[k].quantity + 1)]
    else cart + [product.(quantity := 1)]
  }

  /** `cart.filter(item => item.id !== id)` */
  function Without(cart: seq<CartItem>, id: int): (r: seq<CartItem>)
    ensures |r| <= |cart|
    ensures !HasItem(r, id)
    ensures !HasItem(cart, id) ==> r == cart
  {
    if cart == [] then []
    else
      var rest := Without(cart[1..], id);
      assert !HasItem(cart, id) ==> !HasItem(cart[1..], id) by {
        if HasItem(cart[1..], id) {
          var i :| 0 <= i < |cart[1..]| && cart[1..][i].id == id;
          assert cart[i + 1].id == id;
        }
      }
      if cart[0].id == id then
        rest
      else
        assert forall i :: 1 <= i < |[cart[0]] + rest| ==> ([cart[0]] + rest)[i] == rest[i - 1];
        [cart[0]] + rest
  }

  /** `cart.map(item => item.id === id ? {...item, quantity} : item)` */
  function SetQuantity(cart: seq<CartItem>, id: int, quantity: int): (r: seq<CartItem>)
    ensures |r| == |cart|
    ensures forall i :: 0 <= i < |cart| ==>
      r[i] == if cart[i].id == id then cart[i].(quantity := quantity) else cart[i]
  {
    if cart == [] then []
    else
      var head := if cart[0].id == id then cart[0].(quantity := quantity) else cart[0];
      [head] + SetQuantity(cart[1..], id, quantity)
  }

  /** Changing one item's quantity changes the count by the difference. */
  lemma {:induction false} CountUpdate(cart: seq<CartItem>, k: nat, x: CartItem)
    requires k < |cart|
    ensures Count(cart[k := x]) == Count(cart) - cart[k].quantity + x.quantity
    decreases |cart|
  {
    var n := |cart|;
    var updated := cart[k := x];
    assert Count(updated) == Count(updated[..n - 1]) + updated[n - 1].quantity;
    assert Count(cart) == Count(cart[..n - 1]) + cart[n - 1].quantity;
    if k == n - 1 {
      assert updated[..n - 1] == cart[..n - 1];
    } else {
      assert updated[..n - 1] == cart[..n - 1][k := x];
      CountUpdate(cart[..n - 1], k, x);
    }
  }

  /** Every `addToCart` raises `getCartItemsCount` by exactly one, whichever
      branch it takes. */
  lemma AddItemCount(cart: seq<CartItem>, product: Product)
    ensures Count(AddItem(cart, product)) == Count(cart) + 1
  {
    var r := AddItem(cart, product);
    if HasItem(cart, product.id) {
      var k := IndexOf(cart, product.id);
      assert r == cart[k := cart[k].(quantity := cart[k].quantity + 1)];
      CountUpdate(cart, k, cart[k].(quantity := cart[k].quantity + 1));
    } else {
      assert r[..|r| - 1] == cart;
    }
  }

  /** Adding the same new product twice gives one item of quantity 2, not
      two items. */
  lemma AddTwiceMakesQuantityTwo(cart: seq<CartItem>, product: Product)
    requires !HasItem(cart, product.id)
    ensures var r := AddItem(AddItem(cart, product), product);
      && |r| == |cart| + 1
      && r[..|cart|] == cart
      && r[|cart|] == product.(quantity := 2)
  {
    var once := AddItem(cart, product);
    assert once[|cart|].id == product.id;
    assert HasItem(once, product.id);
    assert IndexOf(once, product.id) == |cart|;
    var twice := AddItem(once, product);
    assert twice[..|cart|] == cart by {
      forall i | 0 <= i < |cart| ensures twice[i] == cart[i] {
        assert once[i] == cart[i];
      }
    }
  }

  lemma AddItemKeepsDistinct(cart: seq<CartItem>, product: Product)
    requires DistinctIds(cart)
    ensures DistinctIds(AddItem(cart, product))
  {
    var r := AddItem(cart, product);
    if !HasItem(cart, product.id) {
      forall i, j | 0 <= i < j < |r| ensures r[i].id != r[j].id {
        assert r[i] == cart[i];
        if j < |cart| {
          assert r[j] == cart[j];
        }
      }
    } else {
      assert forall i :: 0 <= i < |r| ==> r[i].id == cart[i].id;
    }
  }

  lemma AddItemKeepsPositive(cart: seq<CartItem>, product: Product)
    requires AllPositive(cart)
    ensures AllPositive(AddItem(cart, product))
  {
    var r := AddItem(cart, product);
    if !HasItem(cart, product.id) {
      forall i | 0 <= i < |r| ensures r[i].quantity >= 1 {
        if i < |cart| {
          assert r[i] == cart[i];
        }
      }
    }
  }

  /** `filter` distributes over concatenation. */
  lemma {:induction false} WithoutAppend(a: seq<CartItem>, b: seq<CartItem>, id: int)
    ensures Without(a + b, id) == Without(a, id) + Without(b, id)
  {
    if a == [] {
      assert a + b == b;
    } else {
      assert (a + b)[1..] == a[1..] + b;
      WithoutAppend(a[1..], b, id);
    }
  }

  /** The tail of a cart with distinct ids has distinct ids. */
  lemma DistinctTail(cart: seq<CartItem>)
    requires DistinctIds(cart) && cart != []
    ensures DistinctIds(cart[1..])
  {
    var tail := cart[1..];
    forall i, j | 0 <= i < j < |tail| ensures tail[i].id != tail[j].id {
      assert tail[i] == cart[i + 1] && tail[j] == cart[j + 1];
    }
  }

  /** `removeFromCart` keeps exactly the items of other products: each
      remaining item was in the cart, and each item of another product
      remains. */
  lemma {:induction false} WithoutMembers(cart: seq<CartItem>, id: int)
    ensures forall i :: 0 <= i < |Without(cart, id)| ==> Without(cart, id)[i] in cart
    ensures forall i :: 0 <= i < |cart| && cart[i].id != id ==> cart[i] in Without(cart, id)
  {
    if cart != [] {
      var tail := cart[1..];
      WithoutMembers(tail, id);
      var rest := Without(tail, id);
      var r := Without(cart, id);
      assert forall i :: 1 <= i < |cart| ==> cart[i] == tail[i - 1];
      if cart[0].id != id {
        assert r == [cart[0]] + rest;
        assert forall i :: 1 <= i < |r| ==> r[i] == rest[i - 1];
      }
    }
  }

  /** In a cart with distinct ids, the first item's product is not in the tail. */
  lemma HeadNotInTail(cart: seq<CartItem>)
    requires DistinctIds(cart) && cart != []
    ensures !HasItem(cart[1..], cart[0].id)
  {
    var tail := cart[1..];
    forall i | 0 <= i < |tail| ensures tail[i].id != cart[0].id {
      assert tail[i] == cart[i + 1];
    }
  }

  /** Putting an item of a new product in front keeps ids distinct. */
  lemma DistinctCons(x: CartItem, rest: seq<CartItem>)
    requires DistinctIds(rest) && !HasItem(rest, x.id)
    ensures DistinctIds([x] + rest)
  {
    var r := [x] + rest;
    forall i, j | 0 <= i < j < |r| ensures r[i].id != r[j].id {
      assert r[j] == rest[j - 1];
      if i > 0 {
        assert r[i] == rest[i - 1];
      }
    }
  }

  /** Filtering never brings in a product that was not in the cart. */
  lemma {:induction false} WithoutKeepsAbsent(cart: seq<CartItem>, id: int, other: int)
    requires !HasItem(cart, other)
    ensures !HasItem(Without(cart, id), other)
  {
    if cart != [] {
      var tail := cart[1..];
      assert !HasItem(tail, other) by {
        forall i | 0 <= i < |tail| ensures tail[i].id != other {
          assert tail[i] == cart[i + 1];
        }
      }
      WithoutKeepsAbsent(tail, id, other);
      var rest := Without(tail, id);
      if cart[0].id != id {
        assert Without(cart, id) == [cart[0]] + rest;
        forall i | 0 <= i < |rest| + 1 ensures ([cart[0]] + rest)[i].id != other {
          if i > 0 {
            assert ([cart[0]] + rest)[i] == rest[i - 1];
          }
        }
      }
    }
  }

  /** Filtering out the product of exactly one item splices that item out. */
  lemma WithoutSingleItem(cart: seq<CartItem>, id: int, k: nat)
    requires k < |cart| && cart[k].id == id
    requires forall i :: 0 <= i < |cart| && i != k ==> cart[i].id != id
    ensures Without(cart, id) == cart[..k] + cart[k + 1..]
  {
    var before, after := cart[..k], cart[k + 1..];
    assert cart == before + ([cart[k]] + after);
    WithoutAppend(before, [cart[k]] + after, id);
    WithoutAppend([cart[k]], after, id);
    assert !HasItem(before, id) by {
      forall i | 0 <= i < |before| ensures before[i].id != id {
        assert before[i] == cart[i];
      }
    }
    assert !HasItem(after, id) by {
      forall i | 0 <= i < |after| ensures after[i].id != id {
        assert after[i] == cart[k + 1 + i];
      }
    }
    assert Without([cart[k]], id) == [];
  }

  /** With distinct ids, `removeFromCart` of a present product splices out
      its one item and keeps the others in order. */
  lemma WithoutIsSplice(cart: seq<CartItem>, id: int)
    requires DistinctIds(cart) && HasItem(cart, id)
    ensures var k := IndexOf(cart, id);
      Without(cart, id) == cart[..k] + cart[k + 1..]
  {
    var k := IndexOf(cart, id);
    forall i | 0 <= i < |cart| && i != k ensures cart[i].id != id {
      if i < k {
        assert cart[i].id != cart[k].id;
      } else {
        assert cart[k].id != cart[i].id;
      }
    }
    WithoutSingleItem(cart, id, k);
  }

  lemma {:induction false} WithoutKeepsDistinct(cart: seq<CartItem>, id: int)
    requires DistinctIds(cart)
    ensures DistinctIds(Without(cart, id))
  {
    if cart != [] {
      var tail := cart[1..];
      DistinctTail(cart);
      WithoutKeepsDistinct(tail, id);
      if cart[0].id != id {
        HeadNotInTail(cart);
        WithoutKeepsAbsent(tail, id, cart[0].id);
        DistinctCons(cart[0], Without(tail, id));
      }
    }
  }

  lemma WithoutKeepsPositive(cart: seq<CartItem>, id: int)
    requires AllPositive(cart)
    ensures AllPositive(Without(cart, id))
  {
    var r := Without(cart, id);
    WithoutMembers(cart, id);
    forall i | 0 <= i < |r| ensures r[i].quantity >= 1 {
      assert r[i] in cart;
      var m :| 0 <= m < |cart| && cart[m] == r[i];
    }
  }

  /** `updateCartItemQuantity` never changes ids, so distinct ids stay distinct. */
  lemma SetQuantityKeepsDistinct(cart: seq<CartItem>, id: int, quantity: int)
    requires DistinctIds(cart)
    ensures DistinctIds(SetQuantity(cart, id, quantity))
  {
    var r := SetQuantity(cart, id, quantity);
    assert forall i :: 0 <= i < |r| ==> r[i].id == cart[i].id;
  }

  /** `updateCartItemQuantity` with a quantity of at least one keeps every
      quantity positive. */
  lemma SetQuantityKeepsPositive(cart: seq<CartItem>, id: int, quantity: int)
    requires AllPositive(cart) && quantity >= 1
    ensures AllPositive(SetQuantity(cart, id, quantity))
  {
    var r := SetQuantity(cart, id, quantity);
    assert forall i :: 0 <= i < |r| ==> r[i].quantity >= 1;
  }

  /** The service itself does not remove an item whose quantity drops to zero
      or below: that is left to its caller. */
  lemma SetQuantityCanEmptyAnItem(cart: seq<CartItem>, id: int, quantity: int)
    requires HasItem(cart, id) && quantity <= 0
    ensures HasItem(SetQuantity(cart, id, quantity), id)
    ensures !AllPositive(SetQuantity(cart, id, quantity))
  {
    var i :| 0 <= i < |cart| && cart[i].id == id;
    var r := SetQuantity(cart, id, quantity);
    assert r[i].id == id && r[i].quantity == quantity;
  }

  /** Two items at 10 x 2 and 5 x 3 come to a total of 35. */
  lemma TotalOfTwoItems(a: CartItem, b: CartItem)
    requires a.price == 10.0 && a.quantity == 2 && b.price == 5.0 && b.quantity == 3
    ensures Total([a, b]) == 35.0
  {
    assert [a, b][..1] == [a];
    assert [a][..0] == [];
    assert Total([a]) == 20.0;
  }

  /**
   * `CartService`: the cart last published through `cartItemsSubject`, and
   * the copy kept under the key `local_cart` of the browser's storage.
   */
  class CartService {
    /** `cartItemsSubject.value`, the snapshot subscribers last received. */
    var items: seq<CartItem>
    /** The stored cart, already parsed; `None` while the key holds nothing. */
    var stored: Option<seq<CartItem>>

    /** The stored copy is the published cart. */
    predicate Saved()
      reads this
    {
      stored == Some(items)
    }

    /** Starts from the empty cart, then `loadCart` publishes the stored cart
        if there is one. */
    constructor (storage: Option<seq<CartItem>>)
      ensures stored == storage
      ensures items == if storage.Some? then storage.value else []
    {
      stored := storage;
      items := [];
      if storage.Some? {
        items := storage.value;
      }
    }

    /** Store the cart, then publish it. */
    method SaveCart(cart: seq<CartItem>)
      modifies this
      ensures items == cart && Saved()
    {
      stored := Some(cart);
      items := cart;
    }

    method AddToCart(product: Product)
      modifies this
      ensures items == AddItem(old(items), product) && Saved()
    {
      var currentCart := items;
      var k := IndexOf(currentCart, product.id);
      if k >= 0 {
        currentCart := currentCart[k := currentCart[k].(quantity := currentCart[k].quantity + 1)];
        SaveCart(currentCart);
      } else {
        SaveCart(currentCart + [product.(quantity := 1)]);
      }
    }

    method RemoveFromCart(productId: int)
      modifies this
      ensures items == Without(old(items), productId) && Saved()
    {
      var updatedCart := Without(items, productId);
      SaveCart(updatedCart);
    }

    method UpdateCartItemQuantity(productId: int, quantity: int)
      modifies this
      ensures items == SetQuantity(old(items), productId, quantity) && Saved()
    {
      var updatedCart := SetQuantity(items, productId, quantity);
      SaveCart(updatedCart);
    }

    method ClearCart()
      modifies this
      ensures items == [] && Saved()
      ensures GetTotal() == 0.0 && GetCartItemsCount() == 0
    {
      SaveCart([]);
    }

    /** `getTotal()`: the total of the published cart. */
    function GetTotal(): (t: real)
      reads this
      ensures items == [] ==> t == 0.0
      ensures (forall i :: 0 <= i < |items| ==> items[i].price >= 0.0 && items[i].quantity >= 0) ==> t >= 0.0
    {
      Total(items)
    }

    /** `getCartItemsCount()`: the units in the published cart. */
    function GetCartItemsCount(): (n: int)
      reads this
      ensures items == [] ==> n == 0
      ensures AllPositive(items) ==> n >= |items|
    {
      Count(items)
    }
  }
}
