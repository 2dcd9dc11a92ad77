/**
 * The cart reducer: a pure transition function from a cart state and one of
 * eight actions to the next cart state. Every case copies the state and
 * replaces some of its fields.
 */
module CartReducer {
  import opened Wrappers
  import opened CartTypes

  /** The payload of "Update order summary": the four derived fields. */
  datatype OrderSummary = OrderSummary(numberOfItems: int, subTotal: real, tax: real, total: real)

  /** The eight actions the reducer accepts. */
  datatype CartAction =
    | LoadCart(items: seq<CartProduct>)              // LoadCart from cookies | storage
    | UpdateCart(items: seq<CartProduct>)            // Update products in cart
    | ChangeCartQuantity(product: CartProduct)       // Change product cart quantity
    | RemoveFromCart(product: CartProduct)           // Remove product in cart
    | LoadAddress(address: ShippingAddress)          // Load Address from cookies
    | UpdateShippingAddress(address: ShippingAddress) // Update Shipping Address
    | UpdateOrderSummary(summary: OrderSummary)      // Update order summary
    | OrderComplete                                  // Order complete

  /**
   * The `map` of the quantity-change case: a line with the payload's id and
   * size is replaced by the payload itself, every other line is kept.
   */
  function ReplaceLines(cart: seq<CartProduct>, p: CartProduct): (r: seq<CartProduct>)
    ensures |r| == |cart|
    ensures forall i :: 0 <= i < |cart| ==> r[i] == if SameLine(cart[i], p) then p else cart[i]
  {
    if cart == [] then []
    else [if SameLine(cart[0], p) then p else cart[0]] + ReplaceLines(cart[1..], p)
  }

  /** The `filter` of the remove case: the lines whose id and size are not both the payload's. */
  function RemoveLines(cart: seq<CartProduct>, p: CartProduct): (r: seq<CartProduct>)
    ensures |r| == |cart| - Occurrences(cart, Key(p))
    ensures forall x :: x in r <==> x in cart && !SameLine(x, p)
  {
    if cart == [] then []
    else (if SameLine(cart[0], p) then [] else [cart[0]]) + RemoveLines(cart[1..], p)
  }

  /** A quantity change keeps every line's key, so it keeps keys unique. */
  lemma ReplaceKeepsNoDuplicates(cart: seq<CartProduct>, p: CartProduct)
    requires NoDuplicateLines(cart)
    ensures NoDuplicateLines(ReplaceLines(cart, p))
  {
    var r := ReplaceLines(cart, p);
    forall i, j | 0 <= i < j < |r| ensures Key(r[i]) != Key(r[j]) {
      assert Key(r[i]) == Key(cart[i]) && Key(r[j]) == Key(cart[j]);
    }
  }

  /** Removing keeps a subsequence of the lines, so it keeps keys unique. */
  lemma {:induction false} RemoveKeepsNoDuplicates(cart: seq<CartProduct>, p: CartProduct)
    requires NoDuplicateLines(cart)
    ensures NoDuplicateLines(RemoveLines(cart, p))
  {
    if cart != [] {
      var rest := cart[1..];
      assert NoDuplicateLines(rest) by {
        forall i, j | 0 <= i < j < |rest| ensures Key(rest[i]) != Key(rest[j]) {
          assert rest[i] == cart[i + 1] && rest[j] == cart[j + 1];
        }
      }
      RemoveKeepsNoDuplicates(rest, p);
      var tail := RemoveLines(rest, p);
      if !SameLine(cart[0], p) {
        var r := [cart[0]] + tail;
        assert RemoveLines(cart, p) == r;
        forall i, j | 0 <= i < j < |r| ensures Key(r[i]) != Key(r[j]) {
          if i == 0 {
            assert r[j] == tail[j - 1] && r[j] in rest;
            var k :| 0 <= k < |rest| && rest[k] == r[j];
            assert rest[k] == cart[k + 1];
          } else {
            assert r[i] == tail[i - 1] && r[j] == tail[j - 1];
          }
        }
      } else {
        assert RemoveLines(cart, p) == tail;
      }
    }
  }

  /**
   * The reducer. Across its cases: only loading sets the loaded flag and
   * nothing clears it; only the two address actions touch the address; the
   * address and summary actions keep the cart; only the summary and order
   * complete actions touch the totals.
   */
  function Reduce(state: CartState, action: CartAction): (next: CartState)
    ensures next.isLoaded <==> state.isLoaded || action.LoadCart?
    ensures !(action.LoadAddress? || action.UpdateShippingAddress?) ==> next.shippingAddress == state.shippingAddress
    ensures action.LoadAddress? || action.UpdateShippingAddress? || action.UpdateOrderSummary? ==>
      next.cart == state.cart
    ensures !(action.UpdateOrderSummary? || action.OrderComplete?) ==> SameTotals(next, state)
  {
    match action
    case LoadCart(items) => state.(isLoaded := true, cart := items)
    case UpdateCart(items) => state.(cart := items)
    case ChangeCartQuantity(p) => state.(cart := ReplaceLines(state.cart, p))
    case RemoveFromCart(p) => state.(cart := RemoveLines(state.cart, p))
    case UpdateOrderSummary(s) =>
      state.(numberOfItems := s.numberOfItems, subTotal := s.subTotal, tax := s.tax, total := s.total)
    case UpdateShippingAddress(a) => state.(shippingAddress := Some(a))
    case LoadAddress(a) => state.(shippingAddress := Some(a))
    case OrderComplete =>
      state.(cart := [], numberOfItems := 0, subTotal := 0.0, tax := 0.0, total := 0.0)
  }

  /** Loading sets the loaded flag and the cart to exactly the payload; totals and address stay. */
  lemma LoadCartReplacesCart(state: CartState, items: seq<CartProduct>)
    ensures var next := Reduce(state, LoadCart(items));
      next.isLoaded && next.cart == items &&
      SameTotals(next, state) && next.shippingAddress == state.shippingAddress
    ensures Reduce(Reduce(state, LoadCart(items)), LoadCart(items)) == Reduce(state, LoadCart(items))
  {
  }

  /** "Update products in cart" replaces the cart and nothing else. */
  lemma UpdateCartReplacesCart(state: CartState, items: seq<CartProduct>)
    ensures var next := Reduce(state, UpdateCart(items));
      next.cart == items && next.isLoaded == state.isLoaded &&
      SameTotals(next, state) && next.shippingAddress == state.shippingAddress
  {
  }

  /**
   * A quantity change keeps the number of lines, leaves every line with another
   * key as it was and replaces each matching line by the payload (so its
   * quantity becomes the payload's, 0 included); nothing but the cart changes.
   */
  lemma ChangeQuantitySetsMatchingLines(state: CartState, p: CartProduct)
    ensures var next := Reduce(state, ChangeCartQuantity(p));
      |next.cart| == |state.cart| &&
      (forall i :: 0 <= i < |state.cart| && !SameLine(state.cart[i], p) ==> next.cart[i] == state.cart[i]) &&
      (forall i :: 0 <= i < |state.cart| && SameLine(state.cart[i], p) ==>
         next.cart[i] == p && next.cart[i].quantity == p.quantity) &&
      next.isLoaded == state.isLoaded && SameTotals(next, state) &&
      next.shippingAddress == state.shippingAddress
  {
  }

  /** A quantity change for a key the cart does not hold leaves the state as it was. */
  lemma ChangeQuantityAbsentIsNoOp(state: CartState, p: CartProduct)
    requires Occurrences(state.cart, Key(p)) == 0
    ensures Reduce(state, ChangeCartQuantity(p)) == state
  {
    var next := Reduce(state, ChangeCartQuantity(p));
    assert next.cart == state.cart;
  }

  /** Setting the quantity of a held line to 0 keeps that line, with quantity 0. */
  lemma ChangeQuantityToZeroKeepsLine(state: CartState, p: CartProduct, i: nat)
    requires i < |state.cart| && SameLine(state.cart[i], p) && p.quantity == 0
    ensures var next := Reduce(state, ChangeCartQuantity(p));
      |next.cart| == |state.cart| && next.cart[i].quantity == 0 && SameLine(next.cart[i], state.cart[i])
  {
  }

  /** Removing distributes over concatenation: the kept lines stay in their order. */
  lemma {:induction false} RemoveLinesConcat(a: seq<CartProduct>, b: seq<CartProduct>, p: CartProduct)
    ensures RemoveLines(a + b, p) == RemoveLines(a, p) + RemoveLines(b, p)
  {
    if a != [] {
      assert (a + b)[1..] == a[1..] + b;
      RemoveLinesConcat(a[1..], b, p);
    } else {
      assert a + b == b;
    }
  }

  /** Removing a key the cart does not hold leaves the cart as it was. */
  lemma {:induction false} RemoveLinesAbsent(cart: seq<CartProduct>, p: CartProduct)
    requires Occurrences(cart, Key(p)) == 0
    ensures RemoveLines(cart, p) == cart
  {
    if cart != [] {
      assert Key(cart[0]) != Key(p);
      RemoveLinesAbsent(cart[1..], p);
    }
  }

  /**
   * Removing keeps exactly the lines with another key, in their order (the
   * result on a single line and on a concatenation), changes nothing but the
   * cart, and is a no-op when the key is absent.
   */
  lemma RemoveKeepsOtherLines(state: CartState, p: CartProduct)
    ensures var next := Reduce(state, RemoveFromCart(p));
      (forall x :: x in next.cart <==> x in state.cart && !SameLine(x, p)) &&
      |next.cart| == |state.cart| - Occurrences(state.cart, Key(p)) &&
      next.isLoaded == state.isLoaded && SameTotals(next, state) &&
      next.shippingAddress == state.shippingAddress
    ensures forall x :: RemoveLines([x], p) == if SameLine(x, p) then [] else [x]
    ensures Occurrences(state.cart, Key(p)) == 0 ==> Reduce(state, RemoveFromCart(p)) == state
  {
    forall x ensures RemoveLines([x], p) == if SameLine(x, p) then [] else [x] {
      assert [x][1..] == [];
    }
    if Occurrences(state.cart, Key(p)) == 0 {
      RemoveLinesAbsent(state.cart, p);
    }
  }

  /** "Update order summary" overwrites the four totals and nothing else. */
  lemma UpdateSummarySetsTotals(state: CartState, s: OrderSummary)
    ensures var next := Reduce(state, UpdateOrderSummary(s));
      next.numberOfItems == s.numberOfItems && next.subTotal == s.subTotal &&
      next.tax == s.tax && next.total == s.total &&
      next.cart == state.cart && next.isLoaded == state.isLoaded &&
      next.shippingAddress == state.shippingAddress
  {
  }

  /** Both address actions set the address unconditionally and change nothing else. */
  lemma AddressActionsOverwrite(state: CartState, a: ShippingAddress)
    ensures var next := Reduce(state, UpdateShippingAddress(a));
      next.shippingAddress == Some(a) && next.cart == state.cart &&
      next.isLoaded == state.isLoaded && SameTotals(next, state)
    ensures Reduce(state, LoadAddress(a)) == Reduce(state, UpdateShippingAddress(a))
  {
  }

  /** Completing an order empties the cart and zeroes the totals; flag and address stay. */
  lemma OrderCompleteClearsCart(state: CartState)
    ensures var next := Reduce(state, OrderComplete);
      next.cart == [] && next.numberOfItems == 0 && next.subTotal == 0.0 &&
      next.tax == 0.0 && next.total == 0.0 &&
      next.isLoaded == state.isLoaded && next.shippingAddress == state.shippingAddress
  {
  }
}
