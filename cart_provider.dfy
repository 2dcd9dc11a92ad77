/**
 * The pure cores of the cart provider: the initial state, the derived totals
 * computed by the summary effect, the merge-or-append upsert of
 * addProductToCart, the order snapshot built by createOrder, and the
 * provider's operations as transitions of the cart state.
 */
module CartProvider {
  import opened Wrappers
  import opened CartTypes
  import opened CartReducer

  /** The state the provider starts from: not loaded, empty, zero totals, no address. */
  const CART_INITIAL_STATE: CartState := CartState(false, [], 0, 0.0, 0.0, 0.0, None)

  // ---------------------------------------------------------------------------
  // Derived totals
  // ---------------------------------------------------------------------------

  /** The sum of the quantities of the lines (the first `reduce` of the summary effect). */
  function NumberOfItems(cart: seq<CartProduct>): (n: int)
    ensures cart == [] ==> n == 0
    ensures (forall i :: 0 <= i < |cart| ==> cart[i].quantity >= 0) ==> n >= 0
  {
    if cart == [] then 0 else cart[0].quantity + NumberOfItems(cart[1..])
  }

  /** What one line costs: unit price times quantity. */
  function LineTotal(p: CartProduct): real {
    p.price * (p.quantity as real)
  }

  /** The sum of price times quantity over the lines (the second `reduce`). */
  function SubTotal(cart: seq<CartProduct>): (r: real)
    ensures cart == [] ==> r == 0.0
  {
    if cart == [] then 0.0 else LineTotal(cart[0]) + SubTotal(cart[1..])
  }

  /** The summed quantity of the lines with key `k`. */
  function QuantityOf(cart: seq<CartProduct>, k: LineKey): int {
    if cart == [] then 0
    else (if Key(cart[0]) == k then cart[0].quantity else 0) + QuantityOf(cart[1..], k)
  }

  /** Both sums are 0 on an empty cart, one line's value on a single line, and add up over concatenation. */
  lemma {:induction false} TotalsConcat(a: seq<CartProduct>, b: seq<CartProduct>)
    ensures NumberOfItems([]) == 0 && SubTotal([]) == 0.0
    ensures forall x :: NumberOfItems([x]) == x.quantity && SubTotal([x]) == LineTotal(x)
    ensures NumberOfItems(a + b) == NumberOfItems(a) + NumberOfItems(b)
    ensures SubTotal(a + b) == SubTotal(a) + SubTotal(b)
  {
    forall x ensures NumberOfItems([x]) == x.quantity && SubTotal([x]) == LineTotal(x) {
      assert [x][1..] == [];
    }
    if a == [] {
      assert a + b == b;
    } else {
      assert (a + b)[1..] == a[1..] + b;
      TotalsConcat(a[1..], b);
    }
  }

  /**
   * Both sums agree with the left fold `reduce` performs: the sum over all
   * but the last line plus the last line's value.
   */
  lemma TotalsFoldLeft(cart: seq<CartProduct>)
    requires cart != []
    ensures NumberOfItems(cart) == NumberOfItems(cart[..|cart| - 1]) + cart[|cart| - 1].quantity
    ensures SubTotal(cart) == SubTotal(cart[..|cart| - 1]) + LineTotal(cart[|cart| - 1])
  {
    assert cart == cart[..|cart| - 1] + [cart[|cart| - 1]];
    TotalsConcat(cart[..|cart| - 1], [cart[|cart| - 1]]);
  }

  /** Lines with non-negative prices and quantities have a non-negative count and subtotal. */
  lemma {:induction false} TotalsNonNegative(cart: seq<CartProduct>)
    requires forall i :: 0 <= i < |cart| ==> cart[i].price >= 0.0 && cart[i].quantity >= 0
    ensures NumberOfItems(cart) >= 0 && SubTotal(cart) >= 0.0
  {
    if cart != [] {
      assert forall i :: 0 <= i < |cart[1..]| ==> cart[1..][i] == cart[i + 1];
      TotalsNonNegative(cart[1..]);
      assert LineTotal(cart[0]) >= 0.0 by {
        var q := cart[0].quantity as real;
        assert cart[0].price >= 0.0 && q >= 0.0;
      }
    }
  }

  /** Replacing one line changes each sum by the difference between the new and the old line. */
  lemma {:induction false} TotalsUpdate(cart: seq<CartProduct>, j: nat, x: CartProduct)
    requires j < |cart|
    ensures NumberOfItems(cart[j := x]) == NumberOfItems(cart) - cart[j].quantity + x.quantity
    ensures SubTotal(cart[j := x]) == SubTotal(cart) - LineTotal(cart[j]) + LineTotal(x)
  {
    if j == 0 {
      assert cart[j := x][1..] == cart[1..];
    } else {
      assert cart[j := x][1..] == cart[1..][j - 1 := x];
      TotalsUpdate(cart[1..], j - 1, x);
    }
  }

  /** The per-key quantity adds up over concatenation. */
  lemma {:induction false} QuantityOfConcat(a: seq<CartProduct>, b: seq<CartProduct>, k: LineKey)
    ensures QuantityOf(a + b, k) == QuantityOf(a, k) + QuantityOf(b, k)
  {
    if a == [] {
      assert a + b == b;
    } else {
      assert (a + b)[1..] == a[1..] + b;
      QuantityOfConcat(a[1..], b, k);
    }
  }

  /** Replacing one line by one with the same key changes that key's quantity by the difference. */
  lemma {:induction false} QuantityOfUpdate(cart: seq<CartProduct>, j: nat, x: CartProduct, k: LineKey)
    requires j < |cart| && Key(x) == Key(cart[j])
    ensures QuantityOf(cart[j := x], k) ==
      QuantityOf(cart, k) + (if Key(x) == k then x.quantity - cart[j].quantity else 0)
  {
    if j == 0 {
      assert cart[j := x][1..] == cart[1..];
    } else {
      assert cart[j := x][1..] == cart[1..][j - 1 := x];
      QuantityOfUpdate(cart[1..], j - 1, x, k);
    }
  }

  /**
   * The order summary dispatched by the summary effect. The tax rate is the
   * configured NEXT_PUBLIC_TAX_RATE (0 when unset), passed in.
   */
  function ComputeSummary(cart: seq<CartProduct>, taxRate: real): (s: OrderSummary)
    ensures s.numberOfItems == NumberOfItems(cart) && s.subTotal == SubTotal(cart)
    ensures s.tax == s.subTotal * taxRate
    ensures s.total == s.subTotal + s.tax
    ensures taxRate == 0.0 ==> s.tax == 0.0 && s.total == s.subTotal
    ensures cart == [] ==> s == OrderSummary(0, 0.0, 0.0, 0.0)
  {
    var subTotal := SubTotal(cart);
    OrderSummary(NumberOfItems(cart), subTotal, subTotal * taxRate, subTotal * (taxRate + 1.0))
  }

  /** The four derived fields are those the summary effect computes from the cart. */
  predicate TotalsConsistent(state: CartState, taxRate: real) {
    var s := ComputeSummary(state.cart, taxRate);
    state.numberOfItems == s.numberOfItems && state.subTotal == s.subTotal &&
    state.tax == s.tax && state.total == s.total
  }

  /** The summary effect: recomputes the totals from the cart and dispatches them. */
  function RefreshSummary(state: CartState, taxRate: real): (next: CartState)
    ensures TotalsConsistent(next, taxRate)
    ensures next.numberOfItems == NumberOfItems(state.cart) && next.subTotal == SubTotal(state.cart)
    ensures next.tax == next.subTotal * taxRate && next.total == next.subTotal + next.tax
    ensures next.cart == state.cart && next.isLoaded == state.isLoaded
    ensures next.shippingAddress == state.shippingAddress
  {
    Reduce(state, UpdateOrderSummary(ComputeSummary(state.cart, taxRate)))
  }

  /** The initial state is unloaded and empty, and its zero totals agree with any tax rate. */
  lemma InitialStateIsEmpty(taxRate: real)
    ensures !CART_INITIAL_STATE.isLoaded && CART_INITIAL_STATE.cart == []
    ensures CART_INITIAL_STATE.numberOfItems == 0 && CART_INITIAL_STATE.subTotal == 0.0
    ensures CART_INITIAL_STATE.tax == 0.0 && CART_INITIAL_STATE.total == 0.0
    ensures CART_INITIAL_STATE.shippingAddress.None?
    ensures TotalsConsistent(CART_INITIAL_STATE, taxRate)
  {
  }

  // ---------------------------------------------------------------------------
  // The merge-or-append upsert of addProductToCart
  // ---------------------------------------------------------------------------

  /** Some line of the cart has this product id (the first `some`). */
  predicate HasProductId(cart: seq<CartProduct>, id: string) {
    exists i :: 0 <= i < |cart| && cart[i].id == id
  }

  /** Some line of the cart has this product's id and size (the second `some`). */
  predicate HasLine(cart: seq<CartProduct>, p: CartProduct) {
    exists i :: 0 <= i < |cart| && SameLine(cart[i], p)
  }

  /** A line after `product.quantity` more of it has been added. */
  function Accumulated(line: CartProduct, product: CartProduct): CartProduct {
    line.(quantity := line.quantity + product.quantity)
  }

  /** The accumulating `map`: every line with the product's id and size gains its quantity. */
  function AccumulateLines(cart: seq<CartProduct>, product: CartProduct): (r: seq<CartProduct>)
    ensures |r| == |cart|
    ensures forall i :: 0 <= i < |cart| ==>
      r[i] == if SameLine(cart[i], product) then Accumulated(cart[i], product) else cart[i]
  {
    if cart == [] then []
    else
      var first := if SameLine(cart[0], product) then Accumulated(cart[0], product) else cart[0];
      [first] + AccumulateLines(cart[1..], product)
  }

  /**
   * The new cart addProductToCart dispatches: appended when no line has the
   * product's id, appended when no line has its id and size, merged otherwise.
   * The two tests amount to one: the product is appended exactly when its
   * (id, size) key is absent.
   */
  function UpsertLine(cart: seq<CartProduct>, product: CartProduct): (r: seq<CartProduct>)
    ensures !HasProductId(cart, product.id) ==> r == cart + [product]
    ensures !HasLine(cart, product) ==> r == cart + [product]
    ensures HasLine(cart, product) ==> (
      && |r| == |cart|
      && forall i :: 0 <= i < |cart| ==>
           r[i] == if SameLine(cart[i], product) then Accumulated(cart[i], product) else cart[i])
  {
    if !HasProductId(cart, product.id) then cart + [product]
    else if !HasLine(cart, product) then cart + [product]
    else AccumulateLines(cart, product)
  }

  /** With no duplicate keys, accumulating touches only the one line with the product's key. */
  lemma AccumulateSingleLine(cart: seq<CartProduct>, product: CartProduct, j: nat)
    requires NoDuplicateLines(cart) && j < |cart| && SameLine(cart[j], product)
    ensures AccumulateLines(cart, product) == cart[j := Accumulated(cart[j], product)]
  {
    var r := AccumulateLines(cart, product);
    forall i | 0 <= i < |cart| && i != j ensures r[i] == cart[i] {
      assert Key(cart[i]) != Key(cart[j]);
    }
  }

  /** With no duplicate keys, upserting a held key updates that one line in place. */
  lemma UpsertMergesAt(cart: seq<CartProduct>, product: CartProduct, j: nat)
    requires NoDuplicateLines(cart) && j < |cart| && SameLine(cart[j], product)
    ensures UpsertLine(cart, product) == cart[j := Accumulated(cart[j], product)]
  {
    assert cart[j].id == product.id;
    assert HasLine(cart, product);
    AccumulateSingleLine(cart, product, j);
  }

  /** Upserting keeps the cart free of duplicate (id, size) keys. */
  lemma UpsertKeepsNoDuplicates(cart: seq<CartProduct>, product: CartProduct)
    requires NoDuplicateLines(cart)
    ensures NoDuplicateLines(UpsertLine(cart, product))
  {
    var r := UpsertLine(cart, product);
    if HasLine(cart, product) {
      forall i, j | 0 <= i < j < |r| ensures Key(r[i]) != Key(r[j]) {
        assert Key(r[i]) == Key(cart[i]) && Key(r[j]) == Key(cart[j]);
      }
    } else {
      forall i, j | 0 <= i < j < |r| ensures Key(r[i]) != Key(r[j]) {
        if j < |cart| {
          assert r[i] == cart[i] && r[j] == cart[j];
        } else {
          assert r[i] == cart[i] && r[j] == product;
          assert !SameLine(cart[i], product);
        }
      }
    }
  }

  /** Accumulating changes quantities only, so the keys stay the same. */
  lemma {:induction false} AccumulateKeepsKeys(cart: seq<CartProduct>, product: CartProduct)
    ensures KeySet(AccumulateLines(cart, product)) == KeySet(cart)
  {
    if cart != [] {
      AccumulateKeepsKeys(cart[1..], product);
      var r := AccumulateLines(cart, product);
      assert r[1..] == AccumulateLines(cart[1..], product);
      assert Key(r[0]) == Key(cart[0]);
    }
  }

  /** Upserting adds the product's key to the cart's keys and no other. */
  lemma UpsertKeys(cart: seq<CartProduct>, product: CartProduct)
    ensures KeySet(UpsertLine(cart, product)) == KeySet(cart) + {Key(product)}
  {
    if HasLine(cart, product) {
      var j :| 0 <= j < |cart| && SameLine(cart[j], product);
      assert cart[j].id == product.id;
      assert UpsertLine(cart, product) == AccumulateLines(cart, product);
      AccumulateKeepsKeys(cart, product);
      KeySetMember(cart, Key(product));
    } else {
      KeySetConcat(cart, [product]);
      assert KeySet([product]) == {Key(product)} by {
        assert [product][1..] == [];
      }
    }
  }

  /**
   * On a cart without duplicate keys, upserting raises the number of items by
   * exactly the product's quantity, and the quantity of the product's key by
   * the same amount while every other key keeps its quantity.
   */
  lemma UpsertAddsQuantity(cart: seq<CartProduct>, product: CartProduct, k: LineKey)
    requires NoDuplicateLines(cart)
    ensures NumberOfItems(UpsertLine(cart, product)) == NumberOfItems(cart) + product.quantity
    ensures QuantityOf(UpsertLine(cart, product), k) ==
      QuantityOf(cart, k) + (if Key(product) == k then product.quantity else 0)
  {
    if HasLine(cart, product) {
      var j :| 0 <= j < |cart| && SameLine(cart[j], product);
      AccumulateSingleLine(cart, product, j);
      TotalsUpdate(cart, j, Accumulated(cart[j], product));
      QuantityOfUpdate(cart, j, Accumulated(cart[j], product), k);
    } else {
      TotalsConcat(cart, [product]);
      QuantityOfConcat(cart, [product], k);
      assert QuantityOf([product], k) == if Key(product) == k then product.quantity else 0 by {
        assert [product][1..] == [];
      }
    }
  }

  /** An appended product adds its own line total to the subtotal. */
  lemma UpsertSubTotalAppended(cart: seq<CartProduct>, product: CartProduct)
    requires !HasLine(cart, product)
    ensures SubTotal(UpsertLine(cart, product)) == SubTotal(cart) + LineTotal(product)
  {
    TotalsConcat(cart, [product]);
  }

  /** The merged line keeps its own price: the subtotal grows by that price times the added quantity. */
  lemma UpsertSubTotalMerged(cart: seq<CartProduct>, product: CartProduct, j: nat)
    requires NoDuplicateLines(cart) && j < |cart| && SameLine(cart[j], product)
    ensures SubTotal(UpsertLine(cart, product)) ==
      SubTotal(cart) + cart[j].price * (product.quantity as real)
  {
    AccumulateSubTotalAt(cart, product, j);
    UpsertMergesAt(cart, product, j);
  }

  /** Adding to line `j` raises the subtotal by that line's price times the added quantity. */
  lemma AccumulateSubTotalAt(cart: seq<CartProduct>, product: CartProduct, j: nat)
    requires j < |cart|
    ensures SubTotal(cart[j := Accumulated(cart[j], product)]) ==
      SubTotal(cart) + cart[j].price * (product.quantity as real)
  {
    AccumulatedLineTotal(cart[j], product);
    TotalsUpdate(cart, j, Accumulated(cart[j], product));
  }

  /** Adding to a line's quantity adds that many times its price to its line total. */
  lemma AccumulatedLineTotal(line: CartProduct, product: CartProduct)
    ensures LineTotal(Accumulated(line, product)) == LineTotal(line) + line.price * (product.quantity as real)
  {
    var q, d := line.quantity as real, product.quantity as real;
    assert ((line.quantity + product.quantity) as real) == q + d;
    assert line.price * (q + d) == line.price * q + line.price * d;
  }

  /** addProductToCart called once per product, in order. */
  function AddAll(cart: seq<CartProduct>, products: seq<CartProduct>): seq<CartProduct>
    decreases |products|
  {
    if products == [] then cart else AddAll(UpsertLine(cart, products[0]), products[1..])
  }

  /**
   * Successive adds merge by key: no key is duplicated, the cart holds one
   * line per distinct (id, size) key of the cart and the products added, and
   * each key's quantity is its quantity before plus the quantities added for it.
   */
  lemma {:induction false} AddAllMergesByKey(cart: seq<CartProduct>, products: seq<CartProduct>)
    requires NoDuplicateLines(cart)
    decreases |products|
    ensures NoDuplicateLines(AddAll(cart, products))
    ensures KeySet(AddAll(cart, products)) == KeySet(cart) + KeySet(products)
    ensures |AddAll(cart, products)| == |KeySet(cart) + KeySet(products)|
    ensures forall k :: QuantityOf(AddAll(cart, products), k) == QuantityOf(cart, k) + QuantityOf(products, k)
  {
    if products == [] {
      DistinctKeysCount(cart);
    } else {
      var next := UpsertLine(cart, products[0]);
      UpsertKeepsNoDuplicates(cart, products[0]);
      UpsertKeys(cart, products[0]);
      AddAllMergesByKey(next, products[1..]);
      forall k ensures QuantityOf(AddAll(cart, products), k) == QuantityOf(cart, k) + QuantityOf(products, k) {
        UpsertAddsQuantity(cart, products[0], k);
      }
    }
  }

  // ---------------------------------------------------------------------------
  // createOrder
  // ---------------------------------------------------------------------------

  /** The order snapshot posted to the order endpoint. */
  datatype Order = Order(
    orderItems: seq<CartProduct>,
    shippingAddress: ShippingAddress,
    numberOfItems: int,
    subTotal: real,
    tax: real,
    total: real,
    isPaid: bool)

  const MISSING_ADDRESS_MESSAGE := "No hay dirección de entrega"
  const UNCONTROLLED_ERROR_MESSAGE := "Error no controlado, hable con el administrador"

  /**
   * The body createOrder builds, or the error it throws first when there is
   * no shipping address.
   */
  function OrderBody(state: CartState): (r: Result<Order, string>)
    ensures r.Failure? <==> state.shippingAddress.None?
    ensures r.Failure? ==> r.error == MISSING_ADDRESS_MESSAGE
    ensures r.Success? ==>
      r.value.orderItems == state.cart && Some(r.value.shippingAddress) == state.shippingAddress &&
      r.value.numberOfItems == state.numberOfItems && r.value.subTotal == state.subTotal &&
      r.value.tax == state.tax && r.value.total == state.total && !r.value.isPaid
  {
    match state.shippingAddress
    case None => Failure(MISSING_ADDRESS_MESSAGE)
    case Some(address) =>
      Success(Order(state.cart, address, state.numberOfItems, state.subTotal, state.tax, state.total, false))
  }

  /** How the POST to the order endpoint ended. */
  datatype OrderOutcome =
    | Created(orderId: string)        // the endpoint answered with the new order's id
    | TransportError(message: string) // an HTTP client error, with its message
    | UnclassifiedError               // anything else

  /** The tagged result createOrder returns. */
  datatype OrderReply = OrderReply(hasError: bool, message: string)

  /** What a createOrder call that did not throw leaves behind. */
  datatype Submission = Submission(posted: Order, state: CartState, reply: OrderReply)

  /**
   * createOrder: throws before posting anything when the address is missing;
   * otherwise posts the snapshot and, on success only, completes the order.
   */
  function CreateOrder(state: CartState, outcome: OrderOutcome): (r: Result<Submission, string>)
    ensures state.shippingAddress.None? ==> r == Failure(MISSING_ADDRESS_MESSAGE)
    ensures state.shippingAddress.Some? ==> r.Success? && OrderBody(state) == Success(r.value.posted)
    ensures r.Success? && outcome.Created? ==>
      r.value.reply == OrderReply(false, outcome.orderId) &&
      r.value.state.cart == [] && r.value.state.numberOfItems == 0 &&
      r.value.state.subTotal == 0.0 && r.value.state.total == 0.0 && r.value.state.tax == 0.0 &&
      r.value.state.shippingAddress == state.shippingAddress && r.value.state.isLoaded == state.isLoaded
    ensures r.Success? && outcome.TransportError? ==>
      r.value.reply == OrderReply(true, outcome.message) && r.value.state == state
    ensures r.Success? && outcome.UnclassifiedError? ==>
      r.value.reply == OrderReply(true, UNCONTROLLED_ERROR_MESSAGE) && r.value.state == state
  {
    match OrderBody(state)
    case Failure(e) => Failure(e)
    case Success(body) =>
      match outcome
      case Created(id) => Success(Submission(body, Reduce(state, OrderComplete), OrderReply(false, id)))
      case TransportError(message) => Success(Submission(body, state, OrderReply(true, message)))
      case UnclassifiedError => Success(Submission(body, state, OrderReply(true, UNCONTROLLED_ERROR_MESSAGE)))
  }

  // ---------------------------------------------------------------------------
  // The provider as a state machine
  // ---------------------------------------------------------------------------

  /** What the `cart` cookie held when the provider mounted. */
  datatype StoredCart = NoCookie | Malformed | Parsed(items: seq<CartProduct>)

  /** The payload of the LoadCart dispatch: the parsed lines, or none when missing or unparsable. */
  function StoredItems(stored: StoredCart): (items: seq<CartProduct>)
    ensures stored.Parsed? ==> items == stored.items
    ensures !stored.Parsed? ==> items == []
  {
    match stored
    case Parsed(items) => items
    case _ => []
  }

  /** Everything that drives the provider's state. */
  datatype Event =
    | CookiesRead(stored: StoredCart)
    | AddressCookiesRead(address: ShippingAddress)
    | AddProduct(product: CartProduct)
    | UpdateQuantity(product: CartProduct)
    | RemoveProduct(product: CartProduct)
    | SetAddress(address: ShippingAddress)
    | PlaceOrder(outcome: OrderOutcome)

  /**
   * One event, followed by the summary effect whenever it gave the state a
   * new cart. A createOrder that throws or fails leaves the state as it was.
   */
  function Handle(state: CartState, e: Event, taxRate: real): (next: CartState)
    ensures next.isLoaded <==> state.isLoaded || e.CookiesRead?
    ensures e.CookiesRead? ==> next.cart == StoredItems(e.stored)
    ensures e.AddProduct? ==> next.cart == UpsertLine(state.cart, e.product)
    ensures e.UpdateQuantity? ==> next.cart == ReplaceLines(state.cart, e.product)
    ensures e.RemoveProduct? ==> next.cart == RemoveLines(state.cart, e.product)
    ensures e.AddressCookiesRead? || e.SetAddress? ==> next == state.(shippingAddress := Some(e.address))
    ensures !(e.AddressCookiesRead? || e.SetAddress?) ==> next.shippingAddress == state.shippingAddress
    ensures e.PlaceOrder? && (state.shippingAddress.None? || !e.outcome.Created?) ==> next == state
    ensures e.PlaceOrder? && state.shippingAddress.Some? && e.outcome.Created? ==>
      next.cart == [] && next.numberOfItems == 0 && next.subTotal == 0.0 && next.tax == 0.0 && next.total == 0.0
  {
    match e
    case CookiesRead(stored) => RefreshSummary(Reduce(state, LoadCart(StoredItems(stored))), taxRate)
    case AddressCookiesRead(a) => Reduce(state, LoadAddress(a))
    case AddProduct(p) => RefreshSummary(Reduce(state, UpdateCart(UpsertLine(state.cart, p))), taxRate)
    case UpdateQuantity(p) => RefreshSummary(Reduce(state, ChangeCartQuantity(p)), taxRate)
    case RemoveProduct(p) => RefreshSummary(Reduce(state, RemoveFromCart(p)), taxRate)
    case SetAddress(a) => Reduce(state, UpdateShippingAddress(a))
    case PlaceOrder(outcome) =>
      match CreateOrder(state, outcome)
      case Failure(_) => state
      case Success(s) => if outcome.Created? then RefreshSummary(s.state, taxRate) else s.state
  }

  /** Some event of the run reads the cart cookie. */
  predicate ReadsCookies(events: seq<Event>) {
    exists i :: 0 <= i < |events| && events[i].CookiesRead?
  }

  /** A run reads the cookie when its first event or the rest of it does. */
  lemma ReadsCookiesCons(events: seq<Event>)
    requires events != []
    ensures ReadsCookies(events) <==> events[0].CookiesRead? || ReadsCookies(events[1..])
  {
    if ReadsCookies(events) && !events[0].CookiesRead? {
      var i :| 0 <= i < |events| && events[i].CookiesRead?;
      assert events[1..][i - 1] == events[i];
    }
    if ReadsCookies(events[1..]) {
      var i :| 0 <= i < |events[1..]| && events[1..][i].CookiesRead?;
      assert events[i + 1] == events[1..][i];
    }
  }

  /** The events in order. The cart counts as loaded afterwards exactly when it was before or some event read the cookie. */
  function Run(state: CartState, events: seq<Event>, taxRate: real): (next: CartState)
    ensures next.isLoaded <==> state.isLoaded || ReadsCookies(events)
    decreases |events|
  {
    if events == [] then state
    else
      ReadsCookiesCons(events);
      Run(Handle(state, events[0], taxRate), events[1..], taxRate)
  }

  /** Every event leaves the four totals in agreement with the cart, given they were before. */
  lemma HandleKeepsTotalsConsistent(state: CartState, e: Event, taxRate: real)
    requires TotalsConsistent(state, taxRate)
    ensures TotalsConsistent(Handle(state, e, taxRate), taxRate)
  {
  }

  /** Any run of events keeps the totals in agreement with the cart. */
  lemma {:induction false} RunKeepsTotalsConsistent(state: CartState, events: seq<Event>, taxRate: real)
    requires TotalsConsistent(state, taxRate)
    ensures TotalsConsistent(Run(state, events, taxRate), taxRate)
    decreases |events|
  {
    if events != [] {
      HandleKeepsTotalsConsistent(state, events[0], taxRate);
      RunKeepsTotalsConsistent(Handle(state, events[0], taxRate), events[1..], taxRate);
    }
  }

  /**
   * Every event keeps the (id, size) keys unique, given they were and, for
   * the cookie read, given the stored lines have unique keys.
   */
  lemma HandleKeepsNoDuplicates(state: CartState, e: Event, taxRate: real)
    requires NoDuplicateLines(state.cart)
    requires e.CookiesRead? ==> NoDuplicateLines(StoredItems(e.stored))
    ensures NoDuplicateLines(Handle(state, e, taxRate).cart)
  {
    match e
    case AddProduct(p) => UpsertKeepsNoDuplicates(state.cart, p);
    case UpdateQuantity(p) => ReplaceKeepsNoDuplicates(state.cart, p);
    case RemoveProduct(p) => RemoveKeepsNoDuplicates(state.cart, p);
    case _ =>
  }

  /** Any run keeps the keys unique when every cookie it reads holds unique keys. */
  lemma {:induction false} RunKeepsNoDuplicates(state: CartState, events: seq<Event>, taxRate: real)
    requires NoDuplicateLines(state.cart)
    requires forall i :: 0 <= i < |events| && events[i].CookiesRead? ==> NoDuplicateLines(StoredItems(events[i].stored))
    ensures NoDuplicateLines(Run(state, events, taxRate).cart)
    decreases |events|
  {
    if events != [] {
      HandleKeepsNoDuplicates(state, events[0], taxRate);
      var rest := events[1..];
      forall i | 0 <= i < |rest| && rest[i].CookiesRead?
        ensures NoDuplicateLines(StoredItems(rest[i].stored))
      {
        assert rest[i] == events[i + 1];
      }
      RunKeepsNoDuplicates(Handle(state, events[0], taxRate), rest, taxRate);
    }
  }

  /** From the initial state, any run of events keeps the totals a function of the cart. */
  lemma RunFromInitialState(events: seq<Event>, taxRate: real)
    ensures TotalsConsistent(Run(CART_INITIAL_STATE, events, taxRate), taxRate)
  {
    InitialStateIsEmpty(taxRate);
    RunKeepsTotalsConsistent(CART_INITIAL_STATE, events, taxRate);
  }

  /**
   * Adding a product to a cart without duplicate keys and with up-to-date
   * totals raises numberOfItems by exactly the product's quantity.
   */
  lemma AddProductRaisesItemCount(state: CartState, product: CartProduct, taxRate: real)
    requires NoDuplicateLines(state.cart) && TotalsConsistent(state, taxRate)
    ensures Handle(state, AddProduct(product), taxRate).numberOfItems == state.numberOfItems + product.quantity
    ensures NoDuplicateLines(Handle(state, AddProduct(product), taxRate).cart)
  {
    UpsertAddsQuantity(state.cart, product, Key(product));
    UpsertKeepsNoDuplicates(state.cart, product);
  }

  /**
   * On a cart holding the same key twice (possible only through the cookie),
   * one add accumulates into both lines, so the count rises by twice the
   * product's quantity.
   */
  lemma ScenarioDuplicateLinesBothAccumulate()
    ensures var m := CartProduct("A", "", 10.0, Some("M"), "", "", "", 1);
      var c := UpsertLine([m, m], m);
      c == [m.(quantity := 2), m.(quantity := 2)] && NumberOfItems(c) == NumberOfItems([m, m]) + 2
  {
    var m := CartProduct("A", "", 10.0, Some("M"), "", "", "", 1);
    assert HasLine([m, m], m);
    var c := UpsertLine([m, m], m);
    assert c == [m.(quantity := 2), m.(quantity := 2)];
    TotalsConcat([m], [m]);
    TotalsConcat([m.(quantity := 2)], [m.(quantity := 2)]);
  }

  // The add-product scenario: A/M once, A/M twice more, then A/L once.

  /** Adding A/M to the empty cart gives one line, 1 item, subtotal 10. */
  lemma ScenarioFirstAdd()
    ensures var m := CartProduct("A", "", 10.0, Some("M"), "", "", "", 1);
      var c := UpsertLine([], m);
      c == [m] && NumberOfItems(c) == 1 && SubTotal(c) == 10.0
  {
    var m := CartProduct("A", "", 10.0, Some("M"), "", "", "", 1);
    TotalsConcat([], [m]);
  }

  /** Adding 2 more of A/M merges into that line: 3 items, subtotal 30. */
  lemma ScenarioSameSizeMerges()
    ensures var m := CartProduct("A", "", 10.0, Some("M"), "", "", "", 1);
      var c := UpsertLine([m], m.(quantity := 2));
      c == [m.(quantity := 3)] && NumberOfItems(c) == 3 && SubTotal(c) == 30.0
  {
    var m := CartProduct("A", "", 10.0, Some("M"), "", "", "", 1);
    UpsertMergesAt([m], m.(quantity := 2), 0);
    TotalsConcat([], [m.(quantity := 3)]);
  }

  /** Adding A/L next appends a second line: 4 items, subtotal 40. */
  lemma ScenarioOtherSizeAppends()
    ensures var m := CartProduct("A", "", 10.0, Some("M"), "", "", "", 3);
      var l := m.(size := Some("L"), quantity := 1);
      var c := UpsertLine([m], l);
      c == [m, l] && NumberOfItems(c) == 4 && SubTotal(c) == 40.0
  {
    var m := CartProduct("A", "", 10.0, Some("M"), "", "", "", 3);
    var l := m.(size := Some("L"), quantity := 1);
    assert Some("M") != Some("L") by {
      assert "M"[0] != "L"[0];
    }
    assert !HasLine([m], l);
    TotalsConcat([m], [l]);
  }
}
