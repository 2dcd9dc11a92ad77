/**
 * The catalog read helpers: the rewrite of relative image names into
 * absolute URLs and its lifting over a product and a list of products. The
 * database queries themselves are inputs here: each helper receives what the
 * query returned.
 */
module DbProducts {
  import opened Wrappers

  /** A catalog product, as read from the document store. */
  datatype Product = Product(
    id: string,
    description: string,
    images: seq<string>,
    inStock: int,
    price: real,
    sizes: seq<string>,
    slug: string,
    tags: seq<string>,
    title: string,
    kind: string,
    gender: string)

  /** The marker whose presence makes an image name count as absolute. */
  const ABSOLUTE_MARKER := "http"

  /** The path segment put between the host and a relative image name. */
  const PRODUCTS_PATH := "products/"

  // ---------------------------------------------------------------------------
  // Substring search
  // ---------------------------------------------------------------------------

  /** `sub` occurs in `s` starting at position `i`. */
  predicate OccursAt(s: string, sub: string, i: int) {
    0 <= i && i + |sub| <= |s| && s[i..i + |sub|] == sub
  }

  /**
   * String `includes`: does `sub` occur somewhere in `s`? The empty string
   * occurs in every string, and a match needs `sub` no longer than `s`.
   */
  function Includes(s: string, sub: string): (r: bool)
    ensures sub == [] ==> r
    ensures r ==> |sub| <= |s|
    decreases |s|
  {
    if |s| < |sub| then false
    else if s[..|sub|] == sub then true
    else Includes(s[1..], sub)
  }

  /** Includes answers exactly whether some position of `s` starts an occurrence of `sub`. */
  lemma {:induction false} IncludesIffOccurs(s: string, sub: string)
    ensures Includes(s, sub) <==> exists i :: OccursAt(s, sub, i)
    decreases |s|
  {
    if |s| < |sub| {
      assert forall i :: !OccursAt(s, sub, i);
    } else if s[..|sub|] == sub {
      assert OccursAt(s, sub, 0);
    } else {
      IncludesIffOccurs(s[1..], sub);
      forall i ensures OccursAt(s[1..], sub, i) <==> OccursAt(s, sub, i + 1) {
        if 0 <= i && i + |sub| <= |s[1..]| {
          assert s[1..][i..i + |sub|] == s[i + 1..i + 1 + |sub|];
        }
      }
      if exists i :: OccursAt(s, sub, i) {
        var i :| OccursAt(s, sub, i);
        assert i != 0;
        assert OccursAt(s[1..], sub, i - 1);
      }
    }
  }

  /** Text after an occurrence does not hide it. */
  lemma IncludesExtended(a: string, b: string, sub: string)
    requires Includes(a, sub)
    ensures Includes(a + b, sub)
  {
    IncludesIffOccurs(a, sub);
    var i :| OccursAt(a, sub, i);
    assert (a + b)[i..i + |sub|] == a[i..i + |sub|];
    assert OccursAt(a + b, sub, i);
    IncludesIffOccurs(a + b, sub);
  }

  // ---------------------------------------------------------------------------
  // Image normalisation
  // ---------------------------------------------------------------------------

  /**
   * The rewrite applied to each image: a name containing "http" is kept,
   * any other becomes HOST_NAME + "products/" + name. The host is the
   * configured HOST_NAME, passed in.
   */
  function NormalizeImage(host: string, image: string): (r: string)
    ensures Includes(image, ABSOLUTE_MARKER) ==> r == image
    ensures !Includes(image, ABSOLUTE_MARKER) ==> r == host + PRODUCTS_PATH + image
    ensures |image| <= |r| && r[|r| - |image|..] == image
  {
    if Includes(image, ABSOLUTE_MARKER) then image else host + PRODUCTS_PATH + image
  }

  /** With a host that itself contains "http", every result is absolute and a second pass changes nothing. */
  lemma NormalizeImageIdempotent(host: string, image: string)
    requires Includes(host, ABSOLUTE_MARKER)
    ensures Includes(NormalizeImage(host, image), ABSOLUTE_MARKER)
    ensures NormalizeImage(host, NormalizeImage(host, image)) == NormalizeImage(host, image)
  {
    if !Includes(image, ABSOLUTE_MARKER) {
      IncludesExtended(host, PRODUCTS_PATH + image, ABSOLUTE_MARKER);
      assert host + PRODUCTS_PATH + image == host + (PRODUCTS_PATH + image);
    }
  }

  /** The inner `map` over a product's images: same length, same order, each image rewritten. */
  function NormalizeImages(host: string, images: seq<string>): (r: seq<string>)
    ensures |r| == |images|
    ensures forall i :: 0 <= i < |images| ==> r[i] == NormalizeImage(host, images[i])
  {
    if images == [] then [] else [NormalizeImage(host, images[0])] + NormalizeImages(host, images[1..])
  }

  /** The reassignment of `product.images`: the images are rewritten and no other field changes. */
  function NormalizeProduct(host: string, p: Product): (r: Product)
    ensures r.images == NormalizeImages(host, p.images)
    ensures r.(images := p.images) == p
  {
    p.(images := NormalizeImages(host, p.images))
  }

  /** The outer `map` over the products a query returned: same length and order, only images rewritten. */
  function NormalizeProducts(host: string, products: seq<Product>): (r: seq<Product>)
    ensures |r| == |products|
    ensures forall i :: 0 <= i < |products| ==>
      r[i].images == NormalizeImages(host, products[i].images) && r[i].(images := products[i].images) == products[i]
  {
    if products == [] then []
    else [NormalizeProduct(host, products[0])] + NormalizeProducts(host, products[1..])
  }

  // ---------------------------------------------------------------------------
  // The query helpers, around the database calls
  // ---------------------------------------------------------------------------

  /** getProductBySlug, given what the lookup by slug found: null stays null, a product is normalised. */
  function GetProductBySlug(host: string, found: Option<Product>): (r: Option<Product>)
    ensures r.None? <==> found.None?
    ensures found.Some? ==> r.value.images == NormalizeImages(host, found.value.images)
    ensures found.Some? ==> r.value.(images := found.value.images) == found.value
  {
    match found
    case None => None
    case Some(p) => Some(NormalizeProduct(host, p))
  }

  /** Lower-cases one ASCII letter and leaves every other character alone. */
  function LowerChar(c: char): char {
    if 'A' <= c <= 'Z' then (c as int - 'A' as int + 'a' as int) as char else c
  }

  /** The lower-casing of the search term. */
  function LowerCase(s: string): (r: string)
    ensures |r| == |s|
    ensures forall i :: 0 <= i < |s| ==> r[i] == LowerChar(s[i])
    ensures forall i :: 0 <= i < |r| ==> !('A' <= r[i] <= 'Z')
  {
    if s == [] then [] else [LowerChar(s[0])] + LowerCase(s[1..])
  }

  /** Lower-casing twice is lower-casing once. */
  lemma LowerCaseIdempotent(s: string)
    ensures LowerCase(LowerCase(s)) == LowerCase(s)
  {
  }

  /**
   * getProductsByTerm: the text search (a parameter) receives the
   * lower-cased term, and every product it returns is normalised, in order.
   */
  function GetProductsByTerm(host: string, term: string, search: string -> seq<Product>): (r: seq<Product>)
    ensures |r| == |search(LowerCase(term))|
    ensures forall i :: 0 <= i < |r| ==>
      var p := search(LowerCase(term))[i];
      r[i].images == NormalizeImages(host, p.images) && r[i].(images := p.images) == p
  {
    NormalizeProducts(host, search(LowerCase(term)))
  }
}
