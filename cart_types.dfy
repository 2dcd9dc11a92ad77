/**
 * The records the cart state store works on: cart lines, the shipping
 * address and the cart state itself, with the (id, size) key that
 * identifies a cart line.
 */
module CartTypes {
  import opened Wrappers

  /** A size label such as "M" or "XL". */
  type Size = string

  /** One line of the cart: a product variant with the quantity wanted. */
  datatype CartProduct = CartProduct(
    id: string,
    image: string,
    price: real,
    size: Option<Size>,
    slug: string,
    title: string,
    gender: string,
    quantity: int)

  /** Delivery details; the second address line is optional. */
  datatype ShippingAddress = ShippingAddress(
    firstName: string,
    lastName: string,
    address: string,
    address2: Option<string>,
    zip: string,
    city: string,
    country: string,
    phone: string)

  /** The state held by the cart provider. */
  datatype CartState = CartState(
    isLoaded: bool,
    cart: seq<CartProduct>,
    numberOfItems: int,
    subTotal: real,
    tax: real,
    total: real,
    shippingAddress: Option<ShippingAddress>)

  /** What identifies a cart line: the product id together with the size. */
  datatype LineKey = LineKey(id: string, size: Option<Size>)

  function Key(p: CartProduct): LineKey {
    LineKey(p.id, p.size)
  }

  /** Both `_id` and `size` agree (the tests the reducer and the provider make). */
  predicate SameLine(a: CartProduct, b: CartProduct) {
    a.id == b.id && a.size == b.size
  }

  /** The four derived fields of two states agree. */
  predicate SameTotals(a: CartState, b: CartState) {
    a.numberOfItems == b.numberOfItems && a.subTotal == b.subTotal &&
    a.tax == b.tax && a.total == b.total
  }

  /** No two lines of the cart share an (id, size) key. */
  predicate NoDuplicateLines(cart: seq<CartProduct>) {
    forall i, j :: 0 <= i < j < |cart| ==> Key(cart[i]) != Key(cart[j])
  }

  /** The number of lines of the cart whose key is `k`. */
  function Occurrences(cart: seq<CartProduct>, k: LineKey): (n: nat)
    ensures n <= |cart|
    ensures n == 0 <==> forall i :: 0 <= i < |cart| ==> Key(cart[i]) != k
  {
    if cart == [] then 0
    else (if Key(cart[0]) == k then 1 else 0) + Occurrences(cart[1..], k)
  }

  /** The keys of all lines of the cart. */
  function KeySet(cart: seq<CartProduct>): set<LineKey> {
    if cart == [] then {} else {Key(cart[0])} + KeySet(cart[1..])
  }

  /** A key is in the key set exactly when some line carries it. */
  lemma {:induction false} KeySetMember(cart: seq<CartProduct>, k: LineKey)
    ensures k in KeySet(cart) <==> exists i :: 0 <= i < |cart| && Key(cart[i]) == k
  {
    if cart != [] {
      KeySetMember(cart[1..], k);
      if k in KeySet(cart[1..]) {
        var i :| 0 <= i < |cart[1..]| && Key(cart[1..][i]) == k;
        assert Key(cart[i + 1]) == k;
      }
      if exists i :: 0 <= i < |cart| && Key(cart[i]) == k {
        var i :| 0 <= i < |cart| && Key(cart[i]) == k;
        if i > 0 {
          assert Key(cart[1..][i - 1]) == k;
        }
      }
    }
  }

  /** The keys of a concatenation are the keys of its parts. */
  lemma {:induction false} KeySetConcat(a: seq<CartProduct>, b: seq<CartProduct>)
    ensures KeySet(a + b) == KeySet(a) + KeySet(b)
  {
    if a == [] {
      assert a + b == b;
    } else {
      assert (a + b)[1..] == a[1..] + b;
      KeySetConcat(a[1..], b);
    }
  }

  /** A cart without duplicate keys has as many lines as distinct keys. */
  lemma {:induction false} DistinctKeysCount(cart: seq<CartProduct>)
    requires NoDuplicateLines(cart)
    ensures |KeySet(cart)| == |cart|
  {
    if cart != [] {
      var rest := cart[1..];
      assert NoDuplicateLines(rest) by {
        forall i, j | 0 <= i < j < |rest| ensures Key(rest[i]) != Key(rest[j]) {
          assert rest[i] == cart[i + 1] && rest[j] == cart[j + 1];
        }
      }
      DistinctKeysCount(rest);
      assert Key(cart[0]) !in KeySet(rest) by {
        KeySetMember(rest, Key(cart[0]));
        forall i | 0 <= i < |rest| ensures Key(rest[i]) != Key(cart[0]) {
          assert rest[i] == cart[i + 1];
        }
      }
    }
  }
}
