/** The values of the storefront's cart (script.js) and the pure rules that
    decide what each cart operation does to them: the `find` over the
    catalog and the cart, the increment-or-push of addToCart, the
    decrement-or-filter of removeFromCart, the running total of updateCart,
    the storage slot that updateCart writes, and the checkout guard.
    The class in storefront.dfy performs these steps on the page's state. */
module CartEngine {
  import opened Wrappers

  /** A JavaScript number as the cart uses it: a whole number of paise, or NaN
      (what `parseFloat` yields for a price that is not numeric). */
  datatype Amount = Num(paise: int) | NaN

  /** `a + b`: NaN absorbs everything. */
  function Plus(a: Amount, b: Amount): Amount {
    if a.Num? && b.Num? then Num(a.paise + b.paise) else NaN
  }

  /** `a * n` for a quantity n. */
  function Times(a: Amount, n: int): Amount {
    if a.Num? then Num(a.paise * n) else NaN
  }

  /** One record of the catalog (`booksData`), with PRICE_INR already parsed. */
  datatype Book = Book(bookId: string, title: string, author: string, price: Amount, coverUrl: string)

  /** One element of the global `cart` array. */
  datatype CartItem = CartItem(bookId: string, title: string, price: Amount, quantity: int)

  function BookIds(catalog: seq<Book>): seq<string> {
    seq(|catalog|, i requires 0 <= i < |catalog| => catalog[i].bookId)
  }

  function CartIds(cart: seq<CartItem>): seq<string> {
    seq(|cart|, i requires 0 <= i < |cart| => cart[i].bookId)
  }

  /** Where `Array.prototype.find` stops: the first position holding `id`. */
  function FirstIndex(ids: seq<string>, id: string): (r: Option<nat>)
    ensures r.Some? ==> r.value < |ids| && ids[r.value] == id && id !in ids[..r.value]
    ensures r.None? <==> id !in ids
  {
    if ids == [] then None
    else if ids[0] == id then Some(0)
    else
      match FirstIndex(ids[1..], id)
      case None =>
        assert ids == [ids[0]] + ids[1..];
        None
      case Some(k) =>
        assert ids[..k + 1] == [ids[0]] + ids[1..][..k];
        Some(k + 1)
  }

  /** `booksData.find(b => b.BOOK_ID === bookId)`. */
  function Lookup(catalog: seq<Book>, id: string): (r: Option<Book>)
    ensures r.None? <==> forall b :: b in catalog ==> b.bookId != id
    ensures r.Some? ==> exists k :: 0 <= k < |catalog| && catalog[k] == r.value && r.value.bookId == id &&
                                    forall j :: 0 <= j < k ==> catalog[j].bookId != id
  {
    match FirstIndex(BookIds(catalog), id)
    case None =>
      assert forall b :: b in catalog ==> b.bookId in BookIds(catalog) by {
        forall b | b in catalog ensures b.bookId in BookIds(catalog) {
          var k :| 0 <= k < |catalog| && catalog[k] == b;
          assert BookIds(catalog)[k] == b.bookId;
        }
      }
      None
    case Some(k) =>
      assert forall j :: 0 <= j < k ==> catalog[j].bookId != id by {
        forall j | 0 <= j < k ensures catalog[j].bookId != id {
          assert BookIds(catalog)[..k][j] == catalog[j].bookId;
        }
      }
      Some(catalog[k])
  }

  /** A cart as the page keeps it: no book twice, and no quantity below one. */
  ghost predicate WellFormed(cart: seq<CartItem>) {
    && (forall i, j :: 0 <= i < j < |cart| ==> cart[i].bookId != cart[j].bookId)
    && (forall i :: 0 <= i < |cart| ==> cart[i].quantity >= 1)
  }

  /** The cart after addToCart(id) against `catalog`: unknown ids change
      nothing, a present id has its first item's quantity raised by one,
      and otherwise the catalog's record is appended with quantity 1. */
  function Added(cart: seq<CartItem>, catalog: seq<Book>, id: string): seq<CartItem> {
    match Lookup(catalog, id)
    case None => cart
    case Some(book) =>
      match FirstIndex(CartIds(cart), id)
      case Some(k) => cart[k := cart[k].(quantity := cart[k].quantity + 1)]
      case None => cart + [CartItem(book.bookId, book.title, book.price, 1)]
  }

  /** `cart.filter(item => item.bookId !== id)`. */
  function Without(cart: seq<CartItem>, id: string): seq<CartItem> {
    if cart == [] then []
    else (if cart[0].bookId == id then [] else [cart[0]]) + Without(cart[1..], id)
  }

  /** The cart after removeFromCart(id): the first item with that id loses
      one unit when it has more than one, and otherwise every item with
      that id is filtered out. */
  function Removed(cart: seq<CartItem>, id: string): seq<CartItem> {
    match FirstIndex(CartIds(cart), id)
    case Some(k) =>
      if cart[k].quantity > 1 then cart[k := cart[k].(quantity := cart[k].quantity - 1)]
      else Without(cart, id)
    case None => Without(cart, id)
  }

  /** The three commands the page offers on the cart. */
  datatype CartOp = Add(id: string) | Remove(id: string) | Clear

  function Step(cart: seq<CartItem>, catalog: seq<Book>, op: CartOp): seq<CartItem> {
    match op
    case Add(id) => Added(cart, catalog, id)
    case Remove(id) => Removed(cart, id)
    case Clear => []
  }

  function Run(cart: seq<CartItem>, catalog: seq<Book>, ops: seq<CartOp>): seq<CartItem>
    decreases |ops|
  {
    if ops == [] then cart else Run(Step(cart, catalog, ops[0]), catalog, ops[1..])
  }

  /** `item.price * item.quantity`. */
  function LineTotal(item: CartItem): Amount {
    Times(item.price, item.quantity)
  }

  /** The `total` of updateCart after its `forEach` has visited `cart` in order,
      starting from 0. It reads the price stored in each item, never the catalog. */
  function Total(cart: seq<CartItem>): Amount {
    if cart == [] then Num(0)
    else Plus(Total(cart[..|cart| - 1]), LineTotal(cart[|cart| - 1]))
  }

  ghost predicate AllPriced(cart: seq<CartItem>) {
    forall i :: 0 <= i < |cart| ==> cart[i].price.Num?
  }

  /** Reference sum of price × quantity over a cart whose prices are all numbers. */
  ghost function Subtotal(cart: seq<CartItem>): int
    requires AllPriced(cart)
  {
    if cart == [] then 0
    else cart[0].price.paise * cart[0].quantity + Subtotal(cart[1..])
  }

  /** The guard of the checkout form: a non-empty cart, a phone number, an
      address, and a total that is neither NaN nor zero. */
  predicate Admits(cart: seq<CartItem>, phone: string, address: string, orderTotal: Amount) {
    !(|cart| == 0 || phone == "" || address == "" || orderTotal.NaN? || orderTotal == Num(0))
  }

  /** One item as `JSON.parse` reads back what `JSON.stringify` wrote: a NaN
      price is written as `null`, and `null * quantity` is 0, so the item
      comes back priced at 0. Every other field survives unchanged. */
  function Revived(item: CartItem): CartItem {
    if item.price.NaN? then item.(price := Num(0)) else item
  }

  /** `JSON.stringify(cart)`, as the next `JSON.parse` reads it back. */
  function Stringified(cart: seq<CartItem>): seq<CartItem> {
    seq(|cart|, i requires 0 <= i < |cart| => Revived(cart[i]))
  }

  /** `JSON.parse(localStorage.getItem('cart')) || []`. */
  function Loaded(stored: Option<seq<CartItem>>): seq<CartItem> {
    stored.GetOr([])
  }

  /** The storage slot after updateCart ran on `cart`: a non-empty cart is
      written and reloads as its JSON copy (itself when every price is a
      number); an empty cart returns before the write, so the slot keeps
      what it held. */
  function Persisted(stored: Option<seq<CartItem>>, cart: seq<CartItem>): (r: Option<seq<CartItem>>)
    ensures cart != [] ==> Loaded(r) == Stringified(cart)
    ensures cart != [] && AllPriced(cart) ==> Loaded(r) == cart
    ensures cart == [] ==> Loaded(r) == Loaded(stored)
  {
    if cart == [] then stored else Some(Stringified(cart))
  }

  // ---------------------------------------------------------------------
  // addToCart

  lemma AddUnknownIsNoOp(cart: seq<CartItem>, catalog: seq<Book>, id: string)
    requires forall b :: b in catalog ==> b.bookId != id
    ensures Added(cart, catalog, id) == cart
  {
  }

  lemma AddExistingIncrements(cart: seq<CartItem>, catalog: seq<Book>, id: string, k: nat)
    requires exists b :: b in catalog && b.bookId == id
    requires k < |cart| && cart[k].bookId == id
    requires forall j :: 0 <= j < k ==> cart[j].bookId != id
    ensures |Added(cart, catalog, id)| == |cart|
    ensures Added(cart, catalog, id)[k] == cart[k].(quantity := cart[k].quantity + 1)
    ensures forall j :: 0 <= j < |cart| && j != k ==> Added(cart, catalog, id)[j] == cart[j]
  {
    FirstAt(cart, id, k);
  }

  lemma AddNewAppends(cart: seq<CartItem>, catalog: seq<Book>, id: string, b: nat)
    requires b < |catalog| && catalog[b].bookId == id
    requires forall j :: 0 <= j < b ==> catalog[j].bookId != id
    requires forall i :: 0 <= i < |cart| ==> cart[i].bookId != id
    ensures Added(cart, catalog, id) == cart + [CartItem(id, catalog[b].title, catalog[b].price, 1)]
  {
    var r := Lookup(catalog, id);
    assert catalog[b] in catalog;
    var k :| 0 <= k < |catalog| && catalog[k] == r.value && r.value.bookId == id &&
             forall j :: 0 <= j < k ==> catalog[j].bookId != id;
    assert k == b;
    assert id !in CartIds(cart);
  }

  lemma AddPreservesWellFormed(cart: seq<CartItem>, catalog: seq<Book>, id: string)
    requires WellFormed(cart)
    ensures WellFormed(Added(cart, catalog, id))
  {
    match Lookup(catalog, id)
    case None =>
    case Some(book) =>
      match FirstIndex(CartIds(cart), id)
      case Some(k) =>
      case None =>
        assert forall i :: 0 <= i < |cart| ==> cart[i].bookId != id by {
          forall i | 0 <= i < |cart| ensures cart[i].bookId != id {
            assert CartIds(cart)[i] == cart[i].bookId;
          }
        }
  }

  /** When `k` holds the first item with `id`, `find` stops there. */
  lemma FirstAt(cart: seq<CartItem>, id: string, k: nat)
    requires k < |cart| && cart[k].bookId == id
    requires forall j :: 0 <= j < k ==> cart[j].bookId != id
    ensures FirstIndex(CartIds(cart), id) == Some(k)
  {
    var ids := CartIds(cart);
    assert ids[k] == id;
    var r := FirstIndex(ids, id);
    assert r.Some?;
  }

  // ---------------------------------------------------------------------
  // removeFromCart

  lemma {:induction false} WithoutAbsent(cart: seq<CartItem>, id: string)
    requires forall i :: 0 <= i < |cart| ==> cart[i].bookId != id
    ensures Without(cart, id) == cart
  {
    if cart != [] {
      WithoutAbsent(cart[1..], id);
    }
  }

  /** The filter keeps exactly the items whose id differs. */
  lemma {:induction false} WithoutMembers(cart: seq<CartItem>, id: string, x: CartItem)
    ensures x in Without(cart, id) <==> x in cart && x.bookId != id
  {
    if cart != [] {
      WithoutMembers(cart[1..], id, x);
      assert cart == [cart[0]] + cart[1..];
    }
  }

  lemma {:induction false} WithoutSingle(cart: seq<CartItem>, id: string, k: nat)
    requires k < |cart| && cart[k].bookId == id
    requires forall j :: 0 <= j < |cart| && j != k ==> cart[j].bookId != id
    ensures Without(cart, id) == cart[..k] + cart[k + 1..]
  {
    var rest := cart[1..];
    if k == 0 {
      assert forall j :: 0 <= j < |rest| ==> rest[j].bookId != id by {
        forall j | 0 <= j < |rest| ensures rest[j].bookId != id {
          assert rest[j] == cart[j + 1];
        }
      }
      WithoutAbsent(rest, id);
    } else {
      assert forall j :: 0 <= j < |rest| && j != k - 1 ==> rest[j].bookId != id by {
        forall j | 0 <= j < |rest| && j != k - 1 ensures rest[j].bookId != id {
          assert rest[j] == cart[j + 1];
        }
      }
      WithoutSingle(rest, id, k - 1);
      calc {
        Without(cart, id);
        [cart[0]] + Without(rest, id);
        [cart[0]] + (rest[..k - 1] + rest[k..]);
        { assert cart[..k] == [cart[0]] + rest[..k - 1];
          assert cart[k + 1..] == rest[k..]; }
        cart[..k] + cart[k + 1..];
      }
    }
  }

  lemma RemoveDecrements(cart: seq<CartItem>, id: string, k: nat)
    requires k < |cart| && cart[k].bookId == id && cart[k].quantity > 1
    requires forall j :: 0 <= j < k ==> cart[j].bookId != id
    ensures Removed(cart, id) == cart[k := cart[k].(quantity := cart[k].quantity - 1)]
  {
    FirstAt(cart, id, k);
  }

  lemma RemoveDeletes(cart: seq<CartItem>, id: string, k: nat)
    requires WellFormed(cart)
    requires k < |cart| && cart[k].bookId == id && cart[k].quantity <= 1
    ensures Removed(cart, id) == cart[..k] + cart[k + 1..]
  {
    FirstAt(cart, id, k);
    WithoutSingle(cart, id, k);
  }

  lemma RemoveAbsentIsNoOp(cart: seq<CartItem>, id: string)
    requires forall i :: 0 <= i < |cart| ==> cart[i].bookId != id
    ensures Removed(cart, id) == cart
  {
    assert id !in CartIds(cart) by {
      forall i | 0 <= i < |cart| ensures CartIds(cart)[i] != id {
      }
    }
    WithoutAbsent(cart, id);
  }

  lemma RemovePreservesWellFormed(cart: seq<CartItem>, id: string)
    requires WellFormed(cart)
    ensures WellFormed(Removed(cart, id))
  {
    match FirstIndex(CartIds(cart), id)
    case Some(k) =>
      if cart[k].quantity <= 1 {
        assert CartIds(cart)[k] == cart[k].bookId;
        WithoutSingle(cart, id, k);
        DeleteAtPreservesWellFormed(cart, k);
      }
    case None =>
      forall i | 0 <= i < |cart| ensures cart[i].bookId != id {
        assert CartIds(cart)[i] == cart[i].bookId;
      }
      WithoutAbsent(cart, id);
  }

  lemma DeleteAtPreservesWellFormed(cart: seq<CartItem>, k: nat)
    requires WellFormed(cart) && k < |cart|
    ensures WellFormed(cart[..k] + cart[k + 1..])
  {
    var r := cart[..k] + cart[k + 1..];
    forall i | 0 <= i < |r| ensures r[i] == cart[if i < k then i else i + 1] {
    }
  }

  // ---------------------------------------------------------------------
  // Sequences of operations

  lemma {:induction false} RunPreservesWellFormed(cart: seq<CartItem>, catalog: seq<Book>, ops: seq<CartOp>)
    requires WellFormed(cart)
    ensures WellFormed(Run(cart, catalog, ops))
    decreases |ops|
  {
    if ops != [] {
      var next := Step(cart, catalog, ops[0]);
      match ops[0] {
        case Add(id) => AddPreservesWellFormed(cart, catalog, id);
        case Remove(id) => RemovePreservesWellFormed(cart, id);
        case Clear =>
      }
      RunPreservesWellFormed(next, catalog, ops[1..]);
    }
  }

  lemma ClearEmpties(cart: seq<CartItem>, catalog: seq<Book>, ops: seq<CartOp>)
    ensures Run(cart, catalog, ops + [Clear]) == []
  {
    RunAppend(cart, catalog, ops, [Clear]);
  }

  lemma {:induction false} RunAppend(cart: seq<CartItem>, catalog: seq<Book>, ops: seq<CartOp>, more: seq<CartOp>)
    ensures Run(cart, catalog, ops + more) == Run(Run(cart, catalog, ops), catalog, more)
    decreases |ops|
  {
    if ops != [] {
      assert (ops + more)[1..] == ops[1..] + more;
      RunAppend(Step(cart, catalog, ops[0]), catalog, ops[1..], more);
    } else {
      assert ops + more == more;
    }
  }

  /** From an empty cart, two additions of one catalog book give one line of
      quantity 2, and two removals give the empty cart again. */
  lemma AddTwiceRemoveTwice(book: Book)
    ensures Run([], [book], [Add(book.bookId), Add(book.bookId)]) == [CartItem(book.bookId, book.title, book.price, 2)]
    ensures Run([], [book], [Add(book.bookId), Add(book.bookId), Remove(book.bookId), Remove(book.bookId)]) == []
  {
    var id := book.bookId;
    var one := [CartItem(id, book.title, book.price, 1)];
    var two := [CartItem(id, book.title, book.price, 2)];
    var a, r := Add(id), Remove(id);
    AddNewAppends([], [book], id, 0);
    assert Step([], [book], a) == one;
    assert [book][0] in [book];
    AddExistingIncrements(one, [book], id, 0);
    assert Step(one, [book], a) == two;
    RemoveDecrements(two, id, 0);
    assert Step(two, [book], r) == one;
    RemoveDeletes(one, id, 0);
    assert Step(one, [book], r) == [];
    assert [a, a][1..] == [a] && [a][1..] == [];
    assert [a, a, r, r][1..] == [a, r, r] && [a, r, r][1..] == [r, r] && [r, r][1..] == [r] && [r][1..] == [];
    assert Run([], [book], [a, a]) == Run(one, [book], [a]) == two;
    assert Run(two, [book], [r, r]) == Run(one, [book], [r]) == [];
    assert Run([], [book], [a, a, r, r]) == Run(one, [book], [a, r, r]) == Run(two, [book], [r, r]);
  }

  // ---------------------------------------------------------------------
  // The total

  lemma {:induction false} SubtotalSnoc(cart: seq<CartItem>)
    requires AllPriced(cart) && cart != []
    ensures Subtotal(cart) == Subtotal(cart[..|cart| - 1]) + cart[|cart| - 1].price.paise * cart[|cart| - 1].quantity
  {
    if |cart| > 1 {
      SubtotalSnoc(cart[1..]);
      assert cart[1..][..|cart| - 2] == cart[..|cart| - 1][1..];
    }
  }

  lemma {:induction false} TotalIsSubtotal(cart: seq<CartItem>)
    requires AllPriced(cart)
    ensures Total(cart) == Num(Subtotal(cart))
  {
    if cart != [] {
      TotalIsSubtotal(cart[..|cart| - 1]);
      SubtotalSnoc(cart);
    }
  }

  lemma {:induction false} TotalWithNaN(cart: seq<CartItem>, k: nat)
    requires k < |cart| && cart[k].price.NaN?
    ensures Total(cart) == NaN
  {
    if k < |cart| - 1 {
      TotalWithNaN(cart[..|cart| - 1], k);
    }
  }

  lemma EmptyTotal()
    ensures Total([]) == Num(0)
  {
  }

  lemma {:induction false} PositiveTotal(cart: seq<CartItem>)
    requires cart != []
    requires forall i :: 0 <= i < |cart| ==> cart[i].price.Num? && cart[i].price.paise > 0 && cart[i].quantity >= 1
    ensures Total(cart).Num? && Total(cart).paise > 0
  {
    var last := cart[|cart| - 1];
    assert last.price.paise * last.quantity >= last.price.paise by {
      PositiveProduct(last.price.paise, last.quantity);
    }
    if |cart| > 1 {
      PositiveTotal(cart[..|cart| - 1]);
    }
  }

  lemma PositiveProduct(p: int, q: int)
    requires p > 0 && q >= 1
    ensures p * q >= p
  {
  }

  // ---------------------------------------------------------------------
  // The checkout guard

  lemma GuardOnPositivePrices(cart: seq<CartItem>, phone: string, address: string)
    requires forall i :: 0 <= i < |cart| ==> cart[i].price.Num? && cart[i].price.paise > 0 && cart[i].quantity >= 1
    ensures Admits(cart, phone, address, Total(cart)) <==> cart != [] && phone != "" && address != ""
  {
    if cart != [] {
      PositiveTotal(cart);
    }
  }

  lemma GuardRejectsNaNPrice(cart: seq<CartItem>, phone: string, address: string, k: nat)
    requires k < |cart| && cart[k].price.NaN?
    ensures !Admits(cart, phone, address, Total(cart))
  {
    TotalWithNaN(cart, k);
  }

  /** With every price a number, the guard refuses exactly the empty cart,
      a missing phone or address, and a sum of exactly 0: the sign of the
      sum plays no part. */
  lemma GuardOnPricedCarts(cart: seq<CartItem>, phone: string, address: string)
    requires AllPriced(cart)
    ensures Admits(cart, phone, address, Total(cart)) <==>
      cart != [] && phone != "" && address != "" && Subtotal(cart) != 0
  {
    TotalIsSubtotal(cart);
  }

  /** Only a zero total is refused: a cart of negative prices passes. */
  lemma NegativeTotalPassesGuard(cart: seq<CartItem>, phone: string, address: string)
    requires cart != [] && phone != "" && address != ""
    requires forall i :: 0 <= i < |cart| ==> cart[i].price.Num? && cart[i].price.paise < 0 && cart[i].quantity >= 1
    ensures Total(cart).Num? && Total(cart).paise < 0
    ensures Admits(cart, phone, address, Total(cart))
  {
    NegativeTotal(cart);
  }

  lemma {:induction false} NegativeTotal(cart: seq<CartItem>)
    requires cart != []
    requires forall i :: 0 <= i < |cart| ==> cart[i].price.Num? && cart[i].price.paise < 0 && cart[i].quantity >= 1
    ensures Total(cart).Num? && Total(cart).paise < 0
  {
    var last := cart[|cart| - 1];
    assert last.price.paise * last.quantity <= last.price.paise by {
      NegativeProduct(last.price.paise, last.quantity);
    }
    if |cart| > 1 {
      NegativeTotal(cart[..|cart| - 1]);
    }
  }

  lemma NegativeProduct(p: int, q: int)
    requires p < 0 && q >= 1
    ensures p * q <= p
  {
  }

  // ---------------------------------------------------------------------
  // Storage

  /** Clearing a cart never reaches storage: the next page load restores
      the last non-empty cart that was written. */
  lemma ClearedCartComesBack(stored: Option<seq<CartItem>>, cart: seq<CartItem>)
    requires cart != [] && AllPriced(cart)
    ensures Loaded(Persisted(Persisted(stored, cart), [])) == cart
  {
  }

  /** The JSON round trip changes prices only, and only NaN ones. */
  lemma StringifiedKeepsPriced(cart: seq<CartItem>)
    ensures |Stringified(cart)| == |cart|
    ensures forall i :: 0 <= i < |cart| ==> Stringified(cart)[i] == cart[i].(price := Stringified(cart)[i].price)
    ensures forall i :: 0 <= i < |cart| && cart[i].price.Num? ==> Stringified(cart)[i] == cart[i]
    ensures CartIds(Stringified(cart)) == CartIds(cart)
    ensures AllPriced(Stringified(cart))
    ensures WellFormed(cart) ==> WellFormed(Stringified(cart))
    ensures AllPriced(cart) ==> Stringified(cart) == cart
  {
  }

  /** A cart holding a NaN price is refused at checkout, but once it has
      gone through storage and a page load its total is a number, the NaN
      line counting 0; from then on the guard decides on that number. */
  lemma ReloadForgetsNaN(stored: Option<seq<CartItem>>, cart: seq<CartItem>, phone: string, address: string, k: nat)
    requires k < |cart| && cart[k].price.NaN?
    ensures !Admits(cart, phone, address, Total(cart))
    ensures var reloaded := Loaded(Persisted(stored, cart));
      && Total(reloaded).Num?
      && (Admits(reloaded, phone, address, Total(reloaded)) <==> phone != "" && address != "" && Total(reloaded) != Num(0))
  {
    GuardRejectsNaNPrice(cart, phone, address, k);
    var reloaded := Loaded(Persisted(stored, cart));
    StringifiedKeepsPriced(cart);
    TotalIsSubtotal(reloaded);
  }

  /** The total of a two-item cart, unfolded. */
  lemma TotalOfTwo(a: CartItem, b: CartItem)
    ensures Total([a, b]) == Plus(Plus(Num(0), LineTotal(a)), LineTotal(b))
  {
    var s := [a, b];
    assert s[..1] == [a] && s[1] == b;
    assert Total(s) == Plus(Total([a]), LineTotal(b));
    assert [a][..0] == [];
    assert Total([a]) == Plus(Num(0), LineTotal(a));
  }

  /** The two books of `ReloadAdmitsNaNCart`. */
  const unpriced: CartItem := CartItem("B1", "Unpriced", NaN, 1)
  const priced: CartItem := CartItem("B2", "Priced", Num(25000), 1)

  lemma UnpricedPairTotal()
    ensures Total([unpriced, priced]) == NaN
  {
    TotalOfTwo(unpriced, priced);
  }

  lemma UnpricedPairReloads(stored: Option<seq<CartItem>>)
    ensures Loaded(Persisted(stored, [unpriced, priced])) == [unpriced.(price := Num(0)), priced]
  {
    assert Stringified([unpriced, priced]) == [unpriced.(price := Num(0)), priced];
  }

  lemma RevivedPairTotal()
    ensures Total([unpriced.(price := Num(0)), priced]) == Num(25000)
  {
    TotalOfTwo(unpriced.(price := Num(0)), priced);
  }

  /** A NaN-priced book next to a priced one: refused before the reload,
      admitted after it. */
  lemma ReloadAdmitsNaNCart(stored: Option<seq<CartItem>>, phone: string, address: string)
    requires phone != "" && address != ""
    ensures !Admits([unpriced, priced], phone, address, Total([unpriced, priced]))
    ensures var reloaded := Loaded(Persisted(stored, [unpriced, priced]));
      Admits(reloaded, phone, address, Total(reloaded))
  {
    UnpricedPairTotal();
    UnpricedPairReloads(stored);
    RevivedPairTotal();
  }
}
