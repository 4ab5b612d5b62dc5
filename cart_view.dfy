/**
 * The cart page (front/src/app/products/features/cart/cart.component.ts): the
 * quantity rule of its input box, the actions a user can take on the cart,
 * and the component class that forwards them to the cart service and shows
 * the cart the service publishes.
 */
module CartView {
  import opened Wrappers
  import opened ProductModel
  import opened Cart

  /** The cart `updateQuantity(id, quantity)` leaves: a positive quantity is
      set on the product's items, anything else removes them. */
  function ApplyQuantity(cart: seq<CartItem>, id: int, quantity: int): (r: seq<CartItem>)
    ensures quantity > 0 ==>
      && |r| == |cart|
      && (forall i :: 0 <= i < |cart| && cart[i].id == id ==> r[i] == cart[i].(quantity := quantity))
      && (forall i :: 0 <= i < |cart| && cart[i].id != id ==> r[i] == cart[i])
    ensures quantity <= 0 ==>
      && !HasItem(r, id)
      && (forall i :: 0 <= i < |r| ==> r[i] in cart)
      && (forall i :: 0 <= i < |cart| && cart[i].id != id ==> cart[i] in r)
  {
    if quantity > 0 then SetQuantity(cart, id, quantity)
    else
      WithoutMembers(cart, id);
      Without(cart, id)
  }

  /** The carts the page keeps: one item per product, each holding at least
      one unit. */
  predicate Consistent(cart: seq<CartItem>)
  {
    DistinctIds(cart) && AllPositive(cart)
  }

  lemma ApplyQuantityKeepsConsistent(cart: seq<CartItem>, id: int, quantity: int)
    requires Consistent(cart)
    ensures Consistent(ApplyQuantity(cart, id, quantity))
  {
    if quantity > 0 {
      SetQuantityKeepsDistinct(cart, id, quantity);
      SetQuantityKeepsPositive(cart, id, quantity);
    } else {
      WithoutKeepsDistinct(cart, id);
      WithoutKeepsPositive(cart, id);
    }
  }

  /** What a user can do to the cart: add a product (from the product list),
      type into a quantity box (`None` when the box is missing or its text
      does not parse as an integer), remove an item, or empty the cart. */
  datatype Action =
    | Add(product: Product)
    | QuantityChange(id: int, input: Option<int>)
    | Remove(id: int)
    | Clear

  /** The cart after one action. */
  function Apply(cart: seq<CartItem>, action: Action): (r: seq<CartItem>)
    ensures action.Add? ==> HasItem(r, action.product.id)
    ensures action.Remove? ==> !HasItem(r, action.id)
    ensures action.QuantityChange? && action.input.Some? && action.input.value <= 0 ==>
      !HasItem(r, action.id)
    ensures action.QuantityChange? && action.input.None? ==> r == cart
    ensures action.Clear? ==> r == []
  {
    match action
    case Add(product) => AddItem(cart, product)
    case QuantityChange(id, input) =>
      if input.Some? then ApplyQuantity(cart, id, input.value) else cart
    case Remove(id) => Without(cart, id)
    case Clear => []
  }

  /** The cart after a run of actions, in order. */
  function Run(cart: seq<CartItem>, actions: seq<Action>): (r: seq<CartItem>)
    ensures |actions| > 0 && actions[|actions| - 1].Clear? ==> r == []
    ensures |actions| > 0 && actions[|actions| - 1].Remove? ==>
      !HasItem(r, actions[|actions| - 1].id)
    decreases |actions|
  {
    if actions == [] then cart else Run(Apply(cart, actions[0]), actions[1..])
  }

  lemma ApplyKeepsConsistent(cart: seq<CartItem>, action: Action)
    requires Consistent(cart)
    ensures Consistent(Apply(cart, action))
  {
    match action
    case Add(product) =>
      AddItemKeepsDistinct(cart, product);
      AddItemKeepsPositive(cart, product);
    case QuantityChange(id, input) =>
      if input.Some? {
        ApplyQuantityKeepsConsistent(cart, id, input.value);
      }
    case Remove(id) =>
      WithoutKeepsDistinct(cart, id);
      WithoutKeepsPositive(cart, id);
    case Clear =>
  }

  /** Driven only through the page, a cart never holds two items of one
      product nor an item with fewer than one unit. */
  lemma {:induction false} RunKeepsConsistent(cart: seq<CartItem>, actions: seq<Action>)
    requires Consistent(cart)
    ensures Consistent(Run(cart, actions))
    decreases |actions|
  {
    if actions != [] {
      ApplyKeepsConsistent(cart, actions[0]);
      RunKeepsConsistent(Apply(cart, actions[0]), actions[1..]);
    }
  }

  /** Setting a quantity to 0 and then removing the product leaves no item
      of it. */
  lemma ZeroThenRemoveLeavesNoItem(cart: seq<CartItem>, id: int)
    ensures !HasItem(Without(SetQuantity(cart, id, 0), id), id)
  {
  }

  /**
   * `ProductCartComponent`: `cartItems` is the cart shown on the page, which
   * the subscription made in `ngOnInit` replaces with every cart the service
   * publishes.
   */
  class ProductCartComponent {
    var cartItems: seq<CartItem>
    const cartService: CartService
    /** Whether `ngOnInit` has subscribed the page to the service's cart. */
    var subscribed: bool

    /** The page is subscribed and shows the cart the service last
        published. */
    ghost predicate Subscribed()
      reads this, cartService
    {
      subscribed && cartItems == cartService.items
    }

    constructor (service: CartService)
      ensures cartService == service && cartItems == [] && !subscribed
    {
      cartService := service;
      cartItems := [];
      subscribed := false;
    }

    /** Subscribing delivers the current cart at once. */
    method NgOnInit()
      modifies this
      ensures Subscribed()
    {
      subscribed := true;
      cartItems := cartService.items;
    }

    /** The subscription, if there is one, delivers the cart the service has
        just published. */
    method Refresh()
      modifies this
      ensures subscribed == old(subscribed)
      ensures subscribed ==> Subscribed()
      ensures !subscribed ==> cartItems == old(cartItems)
    {
      if subscribed {
        cartItems := cartService.items;
      }
    }

    method RemoveFromCart(productId: int)
      modifies this, cartService
      ensures cartService.items == Without(old(cartService.items), productId)
      ensures cartService.Saved()
      ensures subscribed == old(subscribed)
      ensures subscribed ==> Subscribed()
      ensures !subscribed ==> cartItems == old(cartItems)
    {
      cartService.RemoveFromCart(productId);
      Refresh();
    }

    method UpdateQuantity(productId: int, quantity: int)
      modifies this, cartService
      ensures cartService.items == ApplyQuantity(old(cartService.items), productId, quantity)
      ensures cartService.Saved()
      ensures subscribed == old(subscribed)
      ensures subscribed ==> Subscribed()
      ensures !subscribed ==> cartItems == old(cartItems)
    {
      if quantity > 0 {
        cartService.UpdateCartItemQuantity(productId, quantity);
        Refresh();
      } else {
        RemoveFromCart(productId);
      }
    }

    /** `input` is `parseInt` of the box's text, `None` when there is no box
        or the text is not a number. */
    method HandleQuantityChange(itemId: int, input: Option<int>)
      modifies this, cartService
      ensures subscribed == old(subscribed)
      ensures input.None? ==>
        && cartService.items == old(cartService.items)
        && cartService.stored == old(cartService.stored)
        && cartItems == old(cartItems)
      ensures input.Some? ==>
        && cartService.items == ApplyQuantity(old(cartService.items), itemId, input.value)
        && cartService.Saved()
        && (subscribed ==> Subscribed())
        && (!subscribed ==> cartItems == old(cartItems))
    {
      if input.Some? {
        UpdateQuantity(itemId, input.value);
      }
    }

    method ClearCart()
      modifies this, cartService
      ensures cartService.items == [] && cartService.Saved()
      ensures subscribed == old(subscribed)
      ensures subscribed ==> Subscribed()
      ensures !subscribed ==> cartItems == old(cartItems)
    {
      cartService.ClearCart();
      Refresh();
    }

    /** The `total` getter: the total of the cart on the page, once
        subscribed. */
    function Total(): (t: real)
      reads this, cartService
      ensures Subscribed() ==> t == Cart.Total(cartItems)
    {
      cartService.GetTotal()
    }
  }
}
