/** The page-level state of script.js and the handlers that change it:
    the global `cart` and `booksData`, the browser's storage slot 'cart',
    the total shown in #cartTotal and the disabled flag of the checkout
    form's submit button. */
module Storefront {
  import opened Wrappers
  import opened CartEngine

  /** Both endpoints are Apps Script deployments on this origin. */
  const APPS_SCRIPT_ORIGIN: string := "https://script.google.com"

  /** The catalog (GET) endpoint. */
  const CATALOG_API_ENDPOINT: string :=
    APPS_SCRIPT_ORIGIN + "/macros/s/AKfycbziBJMiEM0s_deX7L8-JFde6FjZXQYVu6J-1cPa7b3KBNhYSOsUz-9Nczo2LcTrUouj0g/exec"

  /** The order (POST) endpoint. */
  const ORDER_API_ENDPOINT: string :=
    APPS_SCRIPT_ORIGIN + "/macros/s/AKfycbwkbb81y8szLipovLlQxDrjfy-y-ETpLNuZjHJXokjm8dKd6Px12HqBrtvbCvEvA-7U/exec"

  /** The body POSTed to the order endpoint: the cart array as it stands. */
  datatype Order = Order(cart: seq<CartItem>, customerPhone: string, deliveryAddress: string, orderTotal: Amount)

  /** What the order endpoint's `fetch` and `response.json()` produce:
      a reply whose `success` is truthy, one whose `success` is falsy, or
      a thrown error (transport failure, or a body that is not JSON). */
  datatype Reply = OrderPlaced(orderId: string) | OrderFailed(message: string) | NetworkError

  /** What the shopper is told. */
  datatype Outcome = Invalid | Placed(orderId: string) | Declined(message: string) | NetworkFailure

  class Page {
    var cart: seq<CartItem>
    var booksData: seq<Book>
    /** localStorage's 'cart' slot; None when nothing was ever stored. */
    var storage: Option<seq<CartItem>>
    /** The amount #cartTotal displays, as the submit handler parses it back. */
    var shownTotal: Amount
    var submitDisabled: bool

    /** The displayed total is the total of the cart in memory, and the
        storage slot holds what `JSON.parse` can give back: no NaN price. */
    ghost predicate Valid()
      reads this
    {
      && shownTotal == Total(cart)
      && (storage.Some? ==> AllPriced(storage.value))
    }

    /** Script load (the global initialisers) followed by the first
        updateCart of the DOMContentLoaded listener. */
    constructor Load(stored: Option<seq<CartItem>>)
      requires stored.Some? ==> AllPriced(stored.value)
      ensures Valid()
      ensures cart == Loaded(stored) && booksData == []
      ensures storage == stored && !submitDisabled
    {
      cart := Loaded(stored);
      booksData := [];
      storage := stored;
      shownTotal := Num(0);
      submitDisabled := false;
      new;
      UpdateCart();
      StringifiedKeepsPriced(cart);
    }

    /** The catalog fetch stored its records in `booksData`. */
    method ReceiveCatalog(books: seq<Book>)
      requires Valid()
      modifies this
      ensures Valid()
      ensures booksData == books
      ensures cart == old(cart) && storage == old(storage) && submitDisabled == old(submitDisabled)
    {
      booksData := books;
    }

    /** Recomputes the displayed total and writes a non-empty cart to storage. */
    method UpdateCart()
      requires storage.Some? ==> AllPriced(storage.value)
      modifies this
      ensures Valid()
      ensures storage == Persisted(old(storage), cart)
      ensures cart == old(cart) && booksData == old(booksData) && submitDisabled == old(submitDisabled)
    {
      var total := Num(0);
      if |cart| == 0 {
        shownTotal := Num(0);
        return;
      }
      for i := 0 to |cart|
        invariant total == Total(cart[..i])
      {
        assert cart[..i + 1][..i] == cart[..i];
        total := Plus(total, Times(cart[i].price, cart[i].quantity));
      }
      assert cart[..|cart|] == cart;
      shownTotal := total;
      StringifiedKeepsPriced(cart);
      storage := Some(Stringified(cart));
    }

    method AddToCart(bookId: string)
      requires Valid()
      modifies this
      ensures Valid()
      ensures cart == Added(old(cart), booksData, bookId)
      ensures storage == (if Lookup(booksData, bookId).None? then old(storage) else Persisted(old(storage), cart))
      ensures booksData == old(booksData) && submitDisabled == old(submitDisabled)
    {
      var book := Lookup(booksData, bookId);
      if book.None? {
        return;
      }
      var existingItem := FirstIndex(CartIds(cart), bookId);
      if existingItem.Some? {
        var k := existingItem.value;
        cart := cart[k := cart[k].(quantity := cart[k].quantity + 1)];
      } else {
        cart := cart + [CartItem(book.value.bookId, book.value.title, book.value.price, 1)];
      }
      UpdateCart();
    }

    method RemoveFromCart(bookId: string)
      requires Valid()
      modifies this
      ensures Valid()
      ensures cart == Removed(old(cart), bookId)
      ensures storage == Persisted(old(storage), cart)
      ensures booksData == old(booksData) && submitDisabled == old(submitDisabled)
    {
      var existingItem := FirstIndex(CartIds(cart), bookId);
      if existingItem.Some? && cart[existingItem.value].quantity > 1 {
        var k := existingItem.value;
        cart := cart[k := cart[k].(quantity := cart[k].quantity - 1)];
      } else {
        cart := Without(cart, bookId);
      }
      UpdateCart();
    }

    /** Empties the cart; the storage slot keeps the last cart written. */
    method ClearCart()
      requires Valid()
      modifies this
      ensures Valid()
      ensures cart == [] && shownTotal == Num(0)
      ensures storage == old(storage)
      ensures booksData == old(booksData) && submitDisabled == old(submitDisabled)
    {
      cart := [];
      UpdateCart();
    }

    /** The checkout form's submit handler, with the endpoint's answer given
        as `reply`. `sent` is the request made, if any. */
    method Submit(customerPhone: string, deliveryAddress: string, reply: Reply)
      returns (sent: Option<Order>, outcome: Outcome)
      requires Valid()
      modifies this
      ensures Valid()
      ensures booksData == old(booksData)
      ensures !Admits(old(cart), customerPhone, deliveryAddress, Total(old(cart))) ==>
        && sent == None && outcome == Invalid
        && cart == old(cart) && storage == old(storage) && submitDisabled == old(submitDisabled)
      ensures Admits(old(cart), customerPhone, deliveryAddress, Total(old(cart))) ==>
        && sent == Some(Order(old(cart), customerPhone, deliveryAddress, Total(old(cart))))
        && !submitDisabled
        && storage == old(storage)
        && (reply.OrderPlaced? ==> outcome == Placed(reply.orderId) && cart == [])
        && (reply.OrderFailed? ==> outcome == Declined(reply.message) && cart == old(cart))
        && (reply.NetworkError? ==> outcome == NetworkFailure && cart == old(cart))
    {
      var orderTotal := shownTotal;
      if |cart| == 0 || customerPhone == "" || deliveryAddress == "" || orderTotal.NaN? || orderTotal == Num(0) {
        return None, Invalid;
      }
      sent := Some(Order(cart, customerPhone, deliveryAddress, orderTotal));
      submitDisabled := true;
      match reply {
        case OrderPlaced(orderId) =>
          outcome := Placed(orderId);
          ClearCart();
        case OrderFailed(message) =>
          outcome := Declined(message);
        case NetworkError =>
          outcome := NetworkFailure;
      }
      submitDisabled := false;
    }
  }
}
