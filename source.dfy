/**
 * The legacy data the migrator reads: `product` posts with their meta and terms,
 * the Velocity term taxonomy, the Velocity order table and WooCommerce `shop_order`
 * posts with their line items. It is read-only for the migrator.
 */
module Source {
  import opened Wrappers
  import opened Php
  import opened Rules
  import opened Wp

  /** A source term: a `category-product` (Velocity) or `product_cat` (WooCommerce) term. */
  datatype SourceTerm = SourceTerm(name: string, slug: string, parent: int, taxonomy: string)

  /** A `product` post: its fields, its meta (every value of every key), the ids of the
      terms it is attached to, and its thumbnail attachment id (0 when it has none). */
  datatype SourceProduct = SourceProduct(
    id: int, title: string, content: string, excerpt: string, status: string, author: int,
    date: string, meta: map<string, seq<Value>>, termIds: seq<int>, thumbnail: nat)

  /** The decoded `detail` column of a Velocity order; a field is None when it is not set
      (or is null), and `products` is None unless `produk.products` is an array. */
  datatype Detail = Detail(
    nama: Option<Value>, email: Option<Value>, hp: Option<Value>, alamat: Option<Value>,
    subdistrict: Option<Value>, ongkir: Option<Value>, products: Option<seq<DetailItem>>)

  /** A row of the Velocity order table; `status` is None for a NULL column. */
  datatype OrderRow = OrderRow(
    id: Value, invoice: Value, status: Option<string>, date: Value, buyer: int,
    detail: Detail, resi: Value, pembayaran: Value, total: Value)

  /** A `shop_order` post: id, post status, post date, meta, and for each `line_item` row
      its item-meta rows (key, value) in table order. */
  datatype WooOrder = WooOrder(
    id: int, status: string, date: string, meta: map<string, seq<Value>>,
    lineItems: seq<seq<(string, Value)>>)

  /** Everything the migrator reads. `orderTable` is None when the Velocity order table does
      not exist; otherwise it holds the rows in the order `ORDER BY id DESC` returns them. */
  datatype Legacy = Legacy(
    products: seq<SourceProduct>, terms: map<int, SourceTerm>,
    orderTable: Option<seq<OrderRow>>, wooOrders: seq<WooOrder>)

  /** `get_post_meta($id, $key, true)`: the first value, '' when there is none. */
  function Single(meta: map<string, seq<Value>>, key: string): Value {
    if key in meta && meta[key] != [] then meta[key][0] else Str("")
  }

  /** `get_post_meta($id, $key, false)`: every value, in order. */
  function Multi(meta: map<string, seq<Value>>, key: string): seq<Value> {
    if key in meta then meta[key] else []
  }

  /** The products the `product` query with `post_status => any` returns, in order. */
  function ListedProducts(ps: seq<SourceProduct>): (r: seq<SourceProduct>)
    ensures |r| <= |ps|
    ensures forall q :: q in r <==> q in ps && Visible(q.status)
    decreases |ps|
  {
    if ps == [] then []
    else
      var init := ps[..|ps| - 1];
      assert ps == init + [ps[|ps| - 1]];
      ListedProducts(init) + (if Visible(ps[|ps| - 1].status) then [ps[|ps| - 1]] else [])
  }

  /** The orders the `shop_order` query with `post_status => any` returns, in order. */
  function ListedOrders(os: seq<WooOrder>): (r: seq<WooOrder>)
    ensures |r| <= |os|
    ensures forall o :: o in r <==> o in os && Visible(o.status)
    decreases |os|
  {
    if os == [] then []
    else
      var init := os[..|os| - 1];
      assert os == init + [os[|os| - 1]];
      ListedOrders(init) + (if Visible(os[|os| - 1].status) then [os[|os| - 1]] else [])
  }

  /** The listing keeps the posts' order: one more post is listed after the others
      exactly when it is visible. */
  lemma ListedProductsSnoc(ps: seq<SourceProduct>, p: SourceProduct)
    ensures ListedProducts(ps + [p]) == ListedProducts(ps) + (if Visible(p.status) then [p] else [])
  {
    assert (ps + [p])[..|ps|] == ps;
  }

  /** When every product is visible, the listing is the products themselves. */
  lemma {:induction false} ListedAllProducts(ps: seq<SourceProduct>)
    requires forall i :: 0 <= i < |ps| ==> Visible(ps[i].status)
    ensures ListedProducts(ps) == ps
    decreases |ps|
  {
    if ps != [] {
      var init := ps[..|ps| - 1];
      ListedAllProducts(init);
      assert ps == init + [ps[|ps| - 1]];
    }
  }

  /** One more order is listed after the others exactly when it is visible. */
  lemma ListedOrdersSnoc(os: seq<WooOrder>, o: WooOrder)
    ensures ListedOrders(os + [o]) == ListedOrders(os) + (if Visible(o.status) then [o] else [])
  {
    assert (os + [o])[..|os|] == os;
  }

  /** When every order is visible, the listing is the orders themselves. */
  lemma {:induction false} ListedAllOrders(os: seq<WooOrder>)
    requires forall i :: 0 <= i < |os| ==> Visible(os[i].status)
    ensures ListedOrders(os) == os
    decreases |os|
  {
    if os != [] {
      var init := os[..|os| - 1];
      ListedAllOrders(init);
      assert os == init + [os[|os| - 1]];
    }
  }

  /** `get_the_terms($id, $taxonomy)`: the product's terms of that taxonomy, as term ids. */
  function TermsOf(terms: map<int, SourceTerm>, p: SourceProduct, taxonomy: string): (ids: seq<int>)
    ensures forall id :: id in ids <==> id in p.termIds && id in terms && terms[id].taxonomy == taxonomy
    decreases |p.termIds|
  {
    if p.termIds == [] then []
    else
      var init := p.termIds[..|p.termIds| - 1];
      var id := p.termIds[|p.termIds| - 1];
      assert p.termIds == init + [id];
      TermsOf(terms, p.(termIds := init), taxonomy) +
        (if id in terms && terms[id].taxonomy == taxonomy then [id] else [])
  }

  /** The taxonomy parent terms are looked up in, for both source variants. */
  const ParentTaxonomy: string := "category-product"

  /** Whether the term reconciler follows a term's parent: the parent is set and is a term
      of the parent taxonomy. */
  predicate FollowsParent(src: map<int, SourceTerm>, t: SourceTerm) {
    t.parent != 0 && t.parent in src && src[t.parent].taxonomy == ParentTaxonomy
  }

  /** The parent links the term reconciler follows have no cycle: `rank` decreases from a
      term to a parent it follows. Without this the reconciler would not terminate. */
  ghost predicate Ranked(terms: map<int, SourceTerm>, rank: map<int, nat>) {
    forall id :: RankedAt(terms, rank, id)
  }

  /** Term `id`, if it exists, is ranked above the parent it follows. */
  ghost predicate RankedAt(terms: map<int, SourceTerm>, rank: map<int, nat>, id: int) {
    id in terms ==>
      id in rank && (FollowsParent(terms, terms[id]) ==> terms[id].parent in rank && rank[terms[id].parent] < rank[id])
  }
}
