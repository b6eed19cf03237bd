/**
 * Order migration, as functions of the store: the Velocity order table read in pages
 * (`migrate_orders`) and the WooCommerce `shop_order` posts (`migrate_woocommerce_orders`),
 * each order becoming a `store_order` post whose business status lives in its meta.
 */
module Orders {
  import opened Wrappers
  import opened Php
  import opened Rules
  import opened Wp
  import opened Source
  import opened Products

  /** The page size of the order-table query. */
  const PageSize: nat := 50

  const OrderDateFormat: string := "Y-m-d H:i:s"

  /** `isset($detail[$k]) ? $detail[$k] : ''`. */
  function Field(v: Option<Value>): Value {
    v.GetOr(Str(""))
  }

  // ---------------------------------------------------------------------------
  // One Velocity order

  /** The post a Velocity order becomes: titled after its invoice, always published, owned by
      the buyer when the buyer id is positive and by user 1 otherwise. */
  function VelocityOrderData(env: Env, row: OrderRow): (d: PostData)
    ensures d.postType == "store_order" && d.status == "publish"
    ensures d.author > 0
  {
    PostData("store_order", "Order " + ConcatString(row.invoice), "", "", "publish",
             if row.buyer > 0 then row.buyer else 1, env.formatDate(OrderDateFormat, row.date))
  }

  /** The first writes: the invoice and order id the order came from, and its business status. */
  function VelocityHeader(m: map<string, Meta>, row: OrderRow): map<string, Meta> {
    m["_velocity_original_invoice" := Plain(row.invoice)]
     ["_velocity_original_order_id" := Plain(row.id)]
     ["_store_order_status" := Plain(Str(VelocityStatus(row.status).Name()))]
  }

  /** The customer fields, '' where the detail does not set them. */
  function CustomerMeta(m: map<string, Meta>, d: Detail): map<string, Meta> {
    m["_store_order_customer_name" := Plain(Field(d.nama))]
     ["_store_order_email" := Plain(Field(d.email))]
     ["_store_order_phone" := Plain(Field(d.hp))]
     ["_store_order_address" := Plain(Field(d.alamat))]
  }

  /** The location names, written when the detail sets a subdistrict the lookup resolves. */
  function LocationMeta(env: Env, m: map<string, Meta>, d: Detail): map<string, Meta> {
    if d.subdistrict.None? then m
    else
      match env.location(d.subdistrict.value)
      case None => m
      case Some(loc) =>
        m["_store_order_subdistrict_name" := Plain(loc.subdistrict)]
         ["_store_order_city_name" := Plain(loc.city)]
         ["_store_order_province_name" := Plain(loc.province)]
         ["_store_order_postal_code" := Plain(loc.postal)]
  }

  /** The shipping fields parsed from `ongkir`; an array there makes `explode` throw. */
  function ShippingMeta(m: map<string, Meta>, d: Detail): (out: MetaOutcome)
    ensures out.thrown.Some? <==> Field(d.ongkir).Arr?
    ensures out.thrown.Some? ==> out == MetaOutcome(m, Some(Thrown(ExplodeTypeError, 441)))
  {
    match StringArg(Field(d.ongkir))
    case None => MetaOutcome(m, Some(Thrown(ExplodeTypeError, 441)))
    case Some(text) =>
      var sh := ParseShipping(text);
      MetaOutcome(m["_store_order_shipping_courier" := Plain(Str(sh.courier))]
                   ["_store_order_shipping_service" := Plain(Str(sh.service))]
                   ["_store_order_shipping_cost" := Money(sh.cost)], None)
  }

  /** The tracking number and the payment method, copied as they are. */
  function PaymentMeta(m: map<string, Meta>, row: OrderRow): map<string, Meta> {
    m["_store_order_tracking_number" := Plain(row.resi)]["_store_order_payment_method" := Plain(row.pembayaran)]
  }

  /** `(float) get_post_meta(...)` of a stored meta value. */
  function MetaReal(x: Meta): real {
    match x
    case Plain(v) => ToReal(v)
    case Money(a) => a
    case OptionList(o) => if o == [] then 0.0 else 1.0
    case Gallery(g) => if g == [] then 0.0 else 1.0
    case Items(items) => if items == [] then 0.0 else 1.0
  }

  /** `get_new_product_id`: the migrated product recording a Velocity product id, or 0. */
  function VelocityProductId(s: StoreState, oldId: Value): (pid: nat)
    ensures pid <= |s.posts|
    ensures pid == 0 <==> forall i :: 0 <= i < |s.posts| ==> !PostMatches(s.posts[i], "store_product", "_velocity_original_id", oldId)
    ensures pid != 0 ==> PostMatches(s.posts[pid - 1], "store_product", "_velocity_original_id", oldId)
  {
    FindPost(s, "store_product", "_velocity_original_id", oldId)
  }

  /** One Velocity order line, its product resolved against the store and its price taken
      from the migrated product when the item has none. */
  function VelocityLine(s: StoreState, item: DetailItem): LineItem {
    var pid := VelocityProductId(s, VelocityOldProductId(item));
    VelocityLineItem(item, pid, MetaReal(MetaValue(s, pid, "_store_price")))
  }

  /** `line` applied to each row of `rows`, in order: an order's item loop. */
  function Lines<T>(line: T -> LineItem, rows: seq<T>): (lines: seq<LineItem>)
    ensures |lines| == |rows|
    decreases |rows|
  {
    if rows == [] then [] else Lines(line, rows[..|rows| - 1]) + [line(rows[|rows| - 1])]
  }

  lemma LinesSnoc<T>(line: T -> LineItem, rows: seq<T>, i: nat)
    requires i < |rows|
    ensures Lines(line, rows[..i + 1]) == Lines(line, rows[..i]) + [line(rows[i])]
  {
    assert rows[..i + 1][..i] == rows[..i];
  }

  lemma {:induction false} LinesAt<T>(line: T -> LineItem, rows: seq<T>, j: nat)
    requires j < |rows|
    ensures Lines(line, rows)[j] == line(rows[j])
    decreases |rows|
  {
    if j < |rows| - 1 {
      LinesAt(line, rows[..|rows| - 1], j);
    }
  }

  /** The items of a Velocity order: one line per detail product, in order. */
  function VelocityItems(s: StoreState, items: seq<DetailItem>): seq<LineItem> {
    Lines(item => VelocityLine(s, item), items)
  }

  /** One more detail product adds its line at the end. */
  lemma VelocityItemsSnoc(s: StoreState, items: seq<DetailItem>, i: nat)
    requires i < |items|
    ensures VelocityItems(s, items[..i + 1]) == VelocityItems(s, items[..i]) + [VelocityLine(s, items[i])]
  {
    LinesSnoc(item => VelocityLine(s, item), items, i);
  }

  /** There is one line per detail product, and line `j` is the line of product `j`. */
  lemma VelocityItemsAt(s: StoreState, items: seq<DetailItem>, j: nat)
    requires j < |items|
    ensures |VelocityItems(s, items)| == |items|
    ensures VelocityItems(s, items)[j] == VelocityLine(s, items[j])
  {
    LinesAt(item => VelocityLine(s, item), items, j);
  }

  /** The meta writes of a Velocity order on post `id` of `s`, stopping at the exception
      an array `ongkir` raises. The items are resolved against the store as it is when they
      are built. */
  function VelocityOrderMeta(env: Env, s: StoreState, id: int, row: OrderRow): (out: MetaOutcome)
    ensures out.thrown.Some? <==> Field(row.detail.ongkir).Arr?
  {
    var m1 := LocationMeta(env, CustomerMeta(VelocityHeader(MetaOf(s, id), row), row.detail), row.detail);
    var out := ShippingMeta(m1, row.detail);
    if out.thrown.Some? then out
    else
      var m2 := PaymentMeta(out.meta, row);
      var items := if row.detail.products.Some? then VelocityItems(WithMeta(s, id, m2), row.detail.products.value) else [];
      MetaOutcome(m2["_store_order_items" := Items(items)]["_store_order_total" := Money(ToReal(row.total))], None)
  }

  /** One row of the order table: skipped when a migrated order records its invoice;
      otherwise inserted and, when the insert succeeded, given its meta. */
  function VelocityOrderStep(env: Env, s: StoreState, row: OrderRow): Step {
    if FindPost(s, "store_order", "_velocity_original_invoice", row.invoice) != 0 then Step(s, false, None)
    else
      var (s1, id) := AfterInsertPost(env, s, VelocityOrderData(env, row));
      if id == 0 then Step(s1, false, None)
      else
        var out := VelocityOrderMeta(env, s1, id, row);
        Step(WithMeta(s1, id, out.meta), out.thrown.None?, out.thrown)
  }

  /** The rows in table order after `start`, stopping at the first exception: a stage that
      has thrown is left as it is. */
  function VelocityOrdersFrom(env: Env, start: Stage, rows: seq<OrderRow>): Stage
    decreases |rows|
  {
    if rows == [] then start
    else VelocityOrdersNext(env, VelocityOrdersFrom(env, start, rows[..|rows| - 1]), rows[|rows| - 1])
  }

  /** One row after `prev`: nothing once `prev` has thrown, otherwise the row's step. */
  function VelocityOrdersNext(env: Env, prev: Stage, row: OrderRow): Stage {
    if prev.thrown.Some? then prev
    else
      var step := VelocityOrderStep(env, prev.state, row);
      Stage(step.state, prev.count + (if step.counted then 1 else 0), step.thrown)
  }

  /** The rows in table order from the store `s`, nothing counted yet. */
  function VelocityOrdersStage(env: Env, s: StoreState, rows: seq<OrderRow>): Stage {
    VelocityOrdersFrom(env, Stage(s, 0, None), rows)
  }

  /** `migrate_orders`: nothing when the order table does not exist, otherwise every row. */
  function VelocityOrders(env: Env, s: StoreState, table: Option<seq<OrderRow>>): Stage {
    match table
    case None => Stage(s, 0, None)
    case Some(rows) => VelocityOrdersStage(env, s, rows)
  }

  // ---------------------------------------------------------------------------
  // One WooCommerce order

  /** The post a WooCommerce order becomes: titled after its id, always published, owned by
      user 1, dated as the source order. */
  function WooOrderData(o: WooOrder): (d: PostData)
    ensures d.postType == "store_order" && d.status == "publish" && d.author == 1
  {
    PostData("store_order", "Order #" + IntToString(o.id), "", "", "publish", 1, o.date)
  }

  /** The first writes: the source order id and the business status of its post status. */
  function WooHeader(m: map<string, Meta>, o: WooOrder): map<string, Meta> {
    m["_woocommerce_original_order_id" := Plain(Int(o.id))]
     ["_store_order_status" := Plain(Str(WooStatus(o.status).Name()))]
  }

  /** `trim($a . ' ' . $b)`. */
  function JoinTrimmed(a: Value, b: Value): string {
    Trim(ConcatString(a) + " " + ConcatString(b))
  }

  /** The billing fields: the joined name and address, and the others as they are. */
  function WooCustomerMeta(m: map<string, Meta>, o: WooOrder): map<string, Meta> {
    var meta := o.meta;
    m["_store_order_customer_name" := Plain(Str(JoinTrimmed(Single(meta, "_billing_first_name"), Single(meta, "_billing_last_name"))))]
     ["_store_order_email" := Plain(Single(meta, "_billing_email"))]
     ["_store_order_phone" := Plain(Single(meta, "_billing_phone"))]
     ["_store_order_address" := Plain(Str(JoinTrimmed(Single(meta, "_billing_address_1"), Single(meta, "_billing_address_2"))))]
     ["_store_order_city_name" := Plain(Single(meta, "_billing_city"))]
     ["_store_order_province_name" := Plain(Single(meta, "_billing_state"))]
     ["_store_order_postal_code" := Plain(Single(meta, "_billing_postcode"))]
  }

  /** The shipping method as courier, an empty service, the shipping total as cost, and the
      payment method. */
  function WooShippingMeta(m: map<string, Meta>, o: WooOrder): map<string, Meta> {
    m["_store_order_shipping_courier" := Plain(Single(o.meta, "_shipping_method"))]
     ["_store_order_shipping_service" := Plain(Str(""))]
     ["_store_order_shipping_cost" := Money(ToReal(Single(o.meta, "_shipping_total")))]
     ["_store_order_payment_method" := Plain(Single(o.meta, "_payment_method"))]
  }

  /** `get_new_product_id_from_woo`: the migrated product recording a WooCommerce product id,
      or 0. */
  function WooProductId(s: StoreState, oldId: int): (pid: nat)
    ensures pid <= |s.posts|
    ensures pid == 0 <==> forall i :: 0 <= i < |s.posts| ==> !PostMatches(s.posts[i], "store_product", "_woocommerce_original_id", Int(oldId))
    ensures pid != 0 ==> PostMatches(s.posts[pid - 1], "store_product", "_woocommerce_original_id", Int(oldId))
  {
    FindPost(s, "store_product", "_woocommerce_original_id", Int(oldId))
  }

  /** One WooCommerce line from its item-meta rows, its product resolved against the store. */
  function WooLine(s: StoreState, rows: seq<(string, Value)>): LineItem {
    var meta := ItemMeta(rows);
    WooLineItem(meta, WooProductId(s, WooOldProductId(meta)))
  }

  /** The items of a WooCommerce order: one line per `line_item` row, in order. */
  function WooItems(s: StoreState, lineItems: seq<seq<(string, Value)>>): seq<LineItem> {
    Lines(meta => WooLine(s, meta), lineItems)
  }

  /** One more `line_item` row adds its line at the end. */
  lemma WooItemsSnoc(s: StoreState, lineItems: seq<seq<(string, Value)>>, i: nat)
    requires i < |lineItems|
    ensures WooItems(s, lineItems[..i + 1]) == WooItems(s, lineItems[..i]) + [WooLine(s, lineItems[i])]
  {
    LinesSnoc(meta => WooLine(s, meta), lineItems, i);
  }

  /** There is one line per `line_item` row, and line `j` is the line of row `j`. */
  lemma WooItemsAt(s: StoreState, lineItems: seq<seq<(string, Value)>>, j: nat)
    requires j < |lineItems|
    ensures |WooItems(s, lineItems)| == |lineItems|
    ensures WooItems(s, lineItems)[j] == WooLine(s, lineItems[j])
  {
    LinesAt(meta => WooLine(s, meta), lineItems, j);
  }

  /** The meta writes of a WooCommerce order on post `id` of `s`; the items are resolved
      against the store as it is when they are built. */
  function WooOrderMeta(s: StoreState, id: int, o: WooOrder): map<string, Meta> {
    var m := WooShippingMeta(WooCustomerMeta(WooHeader(MetaOf(s, id), o), o), o);
    var items := WooItems(WithMeta(s, id, m), o.lineItems);
    m["_store_order_items" := Items(items)]["_store_order_total" := Money(ToReal(Single(o.meta, "_order_total")))]
  }

  /** One WooCommerce order: skipped when a migrated order records its id; otherwise
      inserted and, when the insert succeeded, given its meta and counted. */
  function WooOrderStep(env: Env, s: StoreState, o: WooOrder): Step {
    if FindPost(s, "store_order", "_woocommerce_original_order_id", Int(o.id)) != 0 then Step(s, false, None)
    else
      var (s1, id) := AfterInsertPost(env, s, WooOrderData(o));
      if id == 0 then Step(s1, false, None)
      else Step(WithMeta(s1, id, WooOrderMeta(s1, id, o)), true, None)
  }

  /** `migrate_woocommerce_orders` over the listed orders; nothing in it throws. */
  function WooOrdersStage(env: Env, s: StoreState, os: seq<WooOrder>): (st: Stage)
    ensures st.thrown.None?
    decreases |os|
  {
    if os == [] then Stage(s, 0, None)
    else
      var prev := WooOrdersStage(env, s, os[..|os| - 1]);
      var step := WooOrderStep(env, prev.state, os[|os| - 1]);
      Stage(step.state, prev.count + (if step.counted then 1 else 0), None)
  }

  /** One more row: the order stage over `rows[..i + 1]` is the row's step after the stage
      over `rows[..i]`, when that did not throw. */
  lemma VelocityOrdersFromSnoc(env: Env, start: Stage, rows: seq<OrderRow>, i: nat)
    requires i < |rows|
    requires VelocityOrdersFrom(env, start, rows[..i]).thrown.None?
    ensures var prev := VelocityOrdersFrom(env, start, rows[..i]);
      var step := VelocityOrderStep(env, prev.state, rows[i]);
      VelocityOrdersFrom(env, start, rows[..i + 1]) == Stage(step.state, prev.count + (if step.counted then 1 else 0), step.thrown)
  {
    assert rows[..i + 1][..i] == rows[..i];
  }

  /** Once a prefix of the rows has thrown, the rest of the rows change nothing. */
  lemma {:induction false} VelocityOrdersFromStops(env: Env, start: Stage, rows: seq<OrderRow>, i: nat)
    requires i <= |rows|
    requires VelocityOrdersFrom(env, start, rows[..i]).thrown.Some?
    ensures VelocityOrdersFrom(env, start, rows) == VelocityOrdersFrom(env, start, rows[..i])
    decreases |rows|
  {
    if i < |rows| {
      var init := rows[..|rows| - 1];
      assert init[..i] == rows[..i];
      VelocityOrdersFromStops(env, start, init, i);
    } else {
      assert rows[..i] == rows;
    }
  }

  lemma VelocityOrdersStageStops(env: Env, s: StoreState, rows: seq<OrderRow>, i: nat)
    requires i <= |rows|
    requires VelocityOrdersStage(env, s, rows[..i]).thrown.Some?
    ensures VelocityOrdersStage(env, s, rows) == VelocityOrdersStage(env, s, rows[..i])
  {
    VelocityOrdersFromStops(env, Stage(s, 0, None), rows, i);
  }

  lemma VelocityOrdersFromOneMore(env: Env, start: Stage, rows: seq<OrderRow>, row: OrderRow)
    ensures VelocityOrdersFrom(env, start, rows + [row]) == VelocityOrdersNext(env, VelocityOrdersFrom(env, start, rows), row)
  {
    assert (rows + [row])[..|rows|] == rows;
  }

  /** The rows of `a` and then those of `b` are the rows of `a + b`. */
  lemma {:induction false} VelocityOrdersFromAppend(env: Env, start: Stage, a: seq<OrderRow>, b: seq<OrderRow>)
    ensures VelocityOrdersFrom(env, start, a + b) == VelocityOrdersFrom(env, VelocityOrdersFrom(env, start, a), b)
    decreases |b|
  {
    if b == [] {
      assert a + b == a;
    } else {
      var init, last := b[..|b| - 1], b[|b| - 1];
      VelocityOrdersFromAppend(env, start, a, init);
      assert a + b == (a + init) + [last];
      assert b == init + [last];
      VelocityOrdersFromOneMore(env, start, a + init, last);
      VelocityOrdersFromOneMore(env, VelocityOrdersFrom(env, start, a), init, last);
    }
  }

  /** A prefix of the order table that throws is the whole order stage. */
  lemma VelocityOrdersThrown(env: Env, s: StoreState, table: Option<seq<OrderRow>>, end: nat, st: Stage)
    requires table.Some? && end <= |table.value|
    requires VelocityOrdersStage(env, s, table.value[..end]) == st && st.thrown.Some?
    ensures VelocityOrders(env, s, table) == st
  {
    VelocityOrdersStageStops(env, s, table.value, end);
  }

  /** One more WooCommerce order: its step after the stage over the orders before it. */
  lemma WooOrdersStageSnoc(env: Env, s: StoreState, os: seq<WooOrder>, i: nat)
    requires i < |os|
    ensures var prev := WooOrdersStage(env, s, os[..i]);
      var step := WooOrderStep(env, prev.state, os[i]);
      WooOrdersStage(env, s, os[..i + 1]) == Stage(step.state, prev.count + (if step.counted then 1 else 0), None)
  {
    assert os[..i + 1][..i] == os[..i];
  }

  // ---------------------------------------------------------------------------
  // Pages of the order table

  /** `LIMIT 50 OFFSET offset`. */
  function Page(rows: seq<OrderRow>, offset: nat): (page: seq<OrderRow>)
    ensures page == [] <==> offset >= |rows|
    ensures |page| <= PageSize
    ensures offset < |rows| ==>
      offset + |page| == (if offset + PageSize <= |rows| then offset + PageSize else |rows|)
    ensures forall j :: 0 <= j < |page| ==> page[j] == rows[offset + j]
  {
    if offset >= |rows| then []
    else if offset + PageSize <= |rows| then rows[offset..offset + PageSize]
    else rows[offset..]
  }

  /** How many rows the pages before `offset` hold. */
  function Consumed(rows: seq<OrderRow>, offset: nat): (n: nat)
    ensures n <= |rows| && (n == offset || (n == |rows| && offset > |rows|))
  {
    if offset <= |rows| then offset else |rows|
  }

  /** The offsets the paging loop reads: 0, 50, 100, … up to the first that is past the end. */
  function PageOffsets(n: nat): (offsets: seq<nat>)
    ensures |offsets| == (n + PageSize - 1) / PageSize + 1
    ensures forall k :: 0 <= k < |offsets| ==> offsets[k] == k * PageSize
  {
    seq((n + PageSize - 1) / PageSize + 1, k => k * PageSize)
  }

  /** Every offset but the last reads a non-empty page, and the last reads an empty one:
      the loop stops exactly after the table is exhausted. */
  lemma PagingStops(rows: seq<OrderRow>)
    ensures var offsets := PageOffsets(|rows|);
      && (forall k :: 0 <= k < |offsets| - 1 ==> Page(rows, offsets[k]) != [])
      && Page(rows, offsets[|offsets| - 1]) == []
  {
    var offsets := PageOffsets(|rows|);
    var last := |offsets| - 1;
    forall k | 0 <= k < last
      ensures Page(rows, offsets[k]) != []
    {
      assert k * PageSize < |rows|;
    }
    assert last * PageSize >= |rows|;
  }

  /** Reading the page at `offset` after the rows before it reads on from where they end. */
  lemma PageAppend(rows: seq<OrderRow>, offset: nat)
    requires offset < |rows|
    ensures rows[..offset] + Page(rows, offset) == rows[..if offset + PageSize <= |rows| then offset + PageSize else |rows|]
  {
  }

  /** The order stage over the rows up to the end of the page at `offset` is the page's rows
      after the stage over the rows before it. */
  lemma VelocityOrdersPage(env: Env, s: StoreState, rows: seq<OrderRow>, offset: nat)
    requires offset < |rows|
    ensures VelocityOrdersStage(env, s, rows[..Consumed(rows, offset + PageSize)]) ==
      VelocityOrdersFrom(env, VelocityOrdersStage(env, s, rows[..Consumed(rows, offset)]), Page(rows, offset))
  {
    PageAppend(rows, offset);
    VelocityOrdersFromAppend(env, Stage(s, 0, None), rows[..offset], Page(rows, offset));
  }

  // ---------------------------------------------------------------------------
  // What one Velocity order leaves

  /** The keys each group of order writes sets. */
  predicate CustomerKey(k: string) {
    k in {"_store_order_customer_name", "_store_order_email", "_store_order_phone", "_store_order_address"}
  }

  predicate LocationKey(k: string) {
    k in {"_store_order_subdistrict_name", "_store_order_city_name", "_store_order_province_name", "_store_order_postal_code"}
  }

  predicate ShippingKey(k: string) {
    k in {"_store_order_shipping_courier", "_store_order_shipping_service", "_store_order_shipping_cost"}
  }

  predicate PaymentKey(k: string) {
    k in {"_store_order_tracking_number", "_store_order_payment_method"}
  }

  lemma CustomerKeeps(m: map<string, Meta>, d: Detail, k: string)
    requires !CustomerKey(k)
    ensures Keeps(m, CustomerMeta(m, d), k)
  {
  }

  lemma LocationKeeps(env: Env, m: map<string, Meta>, d: Detail, k: string)
    requires !LocationKey(k)
    ensures Keeps(m, LocationMeta(env, m, d), k)
  {
  }

  lemma ShippingKeeps(m: map<string, Meta>, d: Detail, k: string)
    requires !ShippingKey(k)
    ensures Keeps(m, ShippingMeta(m, d).meta, k)
  {
  }

  lemma PaymentKeeps(m: map<string, Meta>, row: OrderRow, k: string)
    requires !PaymentKey(k)
    ensures Keeps(m, PaymentMeta(m, row), k)
  {
  }

  /** The writes after the header keep what the header wrote under `k`. */
  lemma AfterHeaderKeeps(env: Env, s: StoreState, id: int, row: OrderRow, k: string)
    requires !CustomerKey(k) && !LocationKey(k) && !ShippingKey(k) && !PaymentKey(k)
    requires k != "_store_order_items" && k != "_store_order_total"
    ensures var m0 := VelocityHeader(MetaOf(s, id), row);
      Keeps(m0, VelocityOrderMeta(env, s, id, row).meta, k)
  {
    var m0 := VelocityHeader(MetaOf(s, id), row);
    var mc := CustomerMeta(m0, row.detail);
    var m1 := LocationMeta(env, mc, row.detail);
    CustomerKeeps(m0, row.detail, k);
    LocationKeeps(env, mc, row.detail, k);
    ShippingKeeps(m1, row.detail, k);
    var out := ShippingMeta(m1, row.detail);
    if out.thrown.None? {
      PaymentKeeps(out.meta, row, k);
    }
  }

  /** The meta of a Velocity order always records its invoice and its business status:
      both are written before anything that can throw, and nothing after rewrites them. */
  lemma VelocityOrderRecords(env: Env, s: StoreState, id: int, row: OrderRow)
    ensures var r := VelocityOrderMeta(env, s, id, row).meta;
      && "_velocity_original_invoice" in r && r["_velocity_original_invoice"] == Plain(row.invoice)
      && "_store_order_status" in r && r["_store_order_status"] == Plain(Str(VelocityStatus(row.status).Name()))
  {
    AfterHeaderKeeps(env, s, id, row, "_velocity_original_invoice");
    AfterHeaderKeeps(env, s, id, row, "_store_order_status");
  }

  /** An order is written even when its detail lists no products: its items are then empty. */
  lemma VelocityOrderWithoutProducts(env: Env, s: StoreState, id: int, row: OrderRow)
    requires row.detail.products.None? && !Field(row.detail.ongkir).Arr?
    ensures var r := VelocityOrderMeta(env, s, id, row).meta;
      "_store_order_items" in r && r["_store_order_items"] == Items([])
  {
  }

  /** An order whose invoice is not yet migrated and whose insert succeeds becomes a new
      published `store_order` post at the end of the store; it is counted exactly when its
      meta migration does not throw. */
  lemma NewVelocityOrder(env: Env, s: StoreState, row: OrderRow)
    requires FindPost(s, "store_order", "_velocity_original_invoice", row.invoice) == 0
    requires env.acceptPost(VelocityOrderData(env, row))
    ensures var st := VelocityOrderStep(env, s, row);
      var s1 := s.(posts := s.posts + [Post(VelocityOrderData(env, row), map[], [])]);
      && st.state.posts == s.posts + [Post(VelocityOrderData(env, row), VelocityOrderMeta(env, s1, |s1.posts|, row).meta, [])]
      && st.state.terms == s.terms
      && (st.thrown.Some? <==> Field(row.detail.ongkir).Arr?)
      && st.counted == st.thrown.None?
  {
    var s1 := AfterInsertPost(env, s, VelocityOrderData(env, row)).0;
    var n := |s1.posts|;
    var st := VelocityOrderStep(env, s, row);
    assert st.state == WithMeta(s1, n, VelocityOrderMeta(env, s1, n, row).meta);
    assert st.state.posts == st.state.posts[..|s.posts|] + [st.state.posts[|s.posts|]];
  }

  /** One order step only adds: it keeps every post and term, adds one post exactly when it
      counts or throws, and never both. */
  lemma VelocityOrderStepShape(env: Env, s: StoreState, row: OrderRow)
    ensures var st := VelocityOrderStep(env, s, row);
      && Extends(s, st.state)
      && |st.state.posts| == |s.posts| + (if st.counted || st.thrown.Some? then 1 else 0)
      && !(st.counted && st.thrown.Some?)
  {
    if FindPost(s, "store_order", "_velocity_original_invoice", row.invoice) == 0 && env.acceptPost(VelocityOrderData(env, row)) {
      NewVelocityOrder(env, s, row);
      var st := VelocityOrderStep(env, s, row);
      assert st.state.posts[..|s.posts|] == s.posts;
    }
    assert s.posts[..|s.posts|] == s.posts && s.terms[..|s.terms|] == s.terms;
  }

  /** The order stage only adds to the store; its count is the number of posts it added, plus
      the one left by an order that threw. */
  lemma {:induction false} VelocityOrdersGrowth(env: Env, s: StoreState, rows: seq<OrderRow>)
    ensures var st := VelocityOrdersStage(env, s, rows);
      && Extends(s, st.state)
      && |st.state.posts| == |s.posts| + st.count + (if st.thrown.Some? then 1 else 0)
    decreases |rows|
  {
    if rows == [] {
      assert s.posts[..|s.posts|] == s.posts && s.terms[..|s.terms|] == s.terms;
    } else {
      var prev := VelocityOrdersStage(env, s, rows[..|rows| - 1]);
      VelocityOrdersGrowth(env, s, rows[..|rows| - 1]);
      if prev.thrown.None? {
        VelocityOrderStepShape(env, prev.state, rows[|rows| - 1]);
        ExtendsTransitive(s, prev.state, VelocityOrderStep(env, prev.state, rows[|rows| - 1]).state);
      }
    }
  }

  /** A scalar stored under a key matches a query for that key and value. */
  lemma ScalarMatches(v: Value)
    requires !v.Arr?
    ensures Passes(Plain(v), QueryFilter(v))
  {
  }

  /** A row needs nothing more: a migrated order records its invoice, or the store refuses
      its insert. */
  predicate RowSettled(env: Env, t: StoreState, row: OrderRow) {
    FindPost(t, "store_order", "_velocity_original_invoice", row.invoice) != 0 ||
    !env.acceptPost(VelocityOrderData(env, row))
  }

  lemma RowSettledStable(env: Env, s: StoreState, t: StoreState, rows: seq<OrderRow>)
    requires forall row :: row in rows ==> RowSettled(env, s, row)
    requires Extends(s, t)
    ensures forall row :: row in rows ==> RowSettled(env, t, row)
  {
    forall row | row in rows
      ensures RowSettled(env, t, row)
    {
      if FindPost(s, "store_order", "_velocity_original_invoice", row.invoice) != 0 {
        FindPostStable(s, t, "store_order", "_velocity_original_invoice", row.invoice);
      }
    }
  }

  /** A settled row's step changes nothing and is not counted. */
  lemma RowSettledStep(env: Env, s: StoreState, row: OrderRow)
    requires RowSettled(env, s, row)
    ensures VelocityOrderStep(env, s, row) == Step(s, false, None)
  {
  }

  /** A row whose step does not throw is settled afterwards. The invoice column is a string
      or NULL, never an array. */
  lemma RowStepSettles(env: Env, s: StoreState, row: OrderRow)
    requires !row.invoice.Arr?
    requires VelocityOrderStep(env, s, row).thrown.None?
    ensures RowSettled(env, VelocityOrderStep(env, s, row).state, row)
  {
    if FindPost(s, "store_order", "_velocity_original_invoice", row.invoice) == 0 && env.acceptPost(VelocityOrderData(env, row)) {
      NewVelocityOrder(env, s, row);
      var s1 := s.(posts := s.posts + [Post(VelocityOrderData(env, row), map[], [])]);
      VelocityOrderRecords(env, s1, |s1.posts|, row);
      ScalarMatches(row.invoice);
      var t := VelocityOrderStep(env, s, row).state;
      assert PostMatches(t.posts[|s.posts|], "store_order", "_velocity_original_invoice", row.invoice);
    }
  }

  /** After an order stage that did not throw, every row is settled. */
  lemma {:induction false} VelocityOrdersSettle(env: Env, s: StoreState, rows: seq<OrderRow>)
    requires forall row :: row in rows ==> !row.invoice.Arr?
    requires VelocityOrdersStage(env, s, rows).thrown.None?
    ensures forall row :: row in rows ==> RowSettled(env, VelocityOrdersStage(env, s, rows).state, row)
    decreases |rows|
  {
    if rows != [] {
      var init := rows[..|rows| - 1];
      var last := rows[|rows| - 1];
      var prev := VelocityOrdersStage(env, s, init);
      VelocityOrdersSettle(env, s, init);
      VelocityOrderStepShape(env, prev.state, last);
      RowStepSettles(env, prev.state, last);
      var step := VelocityOrderStep(env, prev.state, last);
      assert VelocityOrdersStage(env, s, rows).state == step.state;
      RowSettledStable(env, prev.state, step.state, init);
      InitLast(rows);
    }
  }

  /** An order stage over rows that are all settled changes nothing and counts nothing. */
  lemma {:induction false} SettledRows(env: Env, s: StoreState, rows: seq<OrderRow>)
    requires forall row :: row in rows ==> RowSettled(env, s, row)
    ensures VelocityOrdersStage(env, s, rows) == Stage(s, 0, None)
    decreases |rows|
  {
    if rows != [] {
      assert forall row :: row in rows[..|rows| - 1] ==> row in rows;
      SettledRows(env, s, rows[..|rows| - 1]);
      RowSettledStep(env, s, rows[|rows| - 1]);
    }
  }

  /** Running the Velocity order stage a second time over the same table migrates nothing. */
  lemma VelocityOrdersIdempotent(env: Env, s: StoreState, rows: seq<OrderRow>)
    requires forall row :: row in rows ==> !row.invoice.Arr?
    requires VelocityOrdersStage(env, s, rows).thrown.None?
    ensures var t := VelocityOrdersStage(env, s, rows).state;
      VelocityOrdersStage(env, t, rows) == Stage(t, 0, None)
  {
    VelocityOrdersSettle(env, s, rows);
    SettledRows(env, VelocityOrdersStage(env, s, rows).state, rows);
  }

  // ---------------------------------------------------------------------------
  // What one WooCommerce order leaves

  predicate WooCustomerKey(k: string) {
    CustomerKey(k) || k in {"_store_order_city_name", "_store_order_province_name", "_store_order_postal_code"}
  }

  predicate WooShippingKey(k: string) {
    ShippingKey(k) || k == "_store_order_payment_method"
  }

  lemma WooCustomerKeeps(m: map<string, Meta>, o: WooOrder, k: string)
    requires !WooCustomerKey(k)
    ensures Keeps(m, WooCustomerMeta(m, o), k)
  {
  }

  lemma WooShippingKeeps(m: map<string, Meta>, o: WooOrder, k: string)
    requires !WooShippingKey(k)
    ensures Keeps(m, WooShippingMeta(m, o), k)
  {
  }

  /** The writes after the WooCommerce header keep what it wrote under `k`. */
  lemma WooAfterHeaderKeeps(s: StoreState, id: int, o: WooOrder, k: string)
    requires !WooCustomerKey(k) && !WooShippingKey(k)
    requires k != "_store_order_items" && k != "_store_order_total"
    ensures var m0 := WooHeader(MetaOf(s, id), o);
      Keeps(m0, WooOrderMeta(s, id, o), k)
  {
    var m0 := WooHeader(MetaOf(s, id), o);
    WooCustomerKeeps(m0, o, k);
    WooShippingKeeps(WooCustomerMeta(m0, o), o, k);
  }

  /** The meta of a WooCommerce order records the source order id and its business status. */
  lemma WooOrderRecords(s: StoreState, id: int, o: WooOrder)
    ensures var r := WooOrderMeta(s, id, o);
      && "_woocommerce_original_order_id" in r && r["_woocommerce_original_order_id"] == Plain(Int(o.id))
      && "_store_order_status" in r && r["_store_order_status"] == Plain(Str(WooStatus(o.status).Name()))
  {
    WooRecordsId(s, id, o);
    WooRecordsStatus(s, id, o);
  }

  lemma WooRecordsId(s: StoreState, id: int, o: WooOrder)
    ensures var r := WooOrderMeta(s, id, o);
      "_woocommerce_original_order_id" in r && r["_woocommerce_original_order_id"] == Plain(Int(o.id))
  {
    WooAfterHeaderKeeps(s, id, o, "_woocommerce_original_order_id");
  }

  lemma WooRecordsStatus(s: StoreState, id: int, o: WooOrder)
    ensures var r := WooOrderMeta(s, id, o);
      "_store_order_status" in r && r["_store_order_status"] == Plain(Str(WooStatus(o.status).Name()))
  {
    WooAfterHeaderKeeps(s, id, o, "_store_order_status");
  }

  /** A WooCommerce order not yet migrated whose insert succeeds becomes a new published
      `store_order` post at the end of the store, and is counted. */
  lemma NewWooOrder(env: Env, s: StoreState, o: WooOrder)
    requires FindPost(s, "store_order", "_woocommerce_original_order_id", Int(o.id)) == 0
    requires env.acceptPost(WooOrderData(o))
    ensures var st := WooOrderStep(env, s, o);
      var s1 := s.(posts := s.posts + [Post(WooOrderData(o), map[], [])]);
      && st.state.posts == s.posts + [Post(WooOrderData(o), WooOrderMeta(s1, |s1.posts|, o), [])]
      && st.state.terms == s.terms
      && st.counted && st.thrown.None?
  {
    var s1 := AfterInsertPost(env, s, WooOrderData(o)).0;
    var n := |s1.posts|;
    var st := WooOrderStep(env, s, o);
    assert st.state == WithMeta(s1, n, WooOrderMeta(s1, n, o));
    assert st.state.posts == st.state.posts[..|s.posts|] + [st.state.posts[|s.posts|]];
  }

  /** One WooCommerce order step only adds: one post exactly when it counts. */
  lemma WooOrderStepShape(env: Env, s: StoreState, o: WooOrder)
    ensures var st := WooOrderStep(env, s, o);
      && Extends(s, st.state)
      && |st.state.posts| == |s.posts| + (if st.counted then 1 else 0)
  {
    if FindPost(s, "store_order", "_woocommerce_original_order_id", Int(o.id)) == 0 && env.acceptPost(WooOrderData(o)) {
      NewWooOrder(env, s, o);
      var st := WooOrderStep(env, s, o);
      assert st.state.posts[..|s.posts|] == s.posts;
    }
    assert s.posts[..|s.posts|] == s.posts && s.terms[..|s.terms|] == s.terms;
  }

  /** The WooCommerce order stage only adds to the store, one post per order it counts. */
  lemma {:induction false} WooOrdersGrowth(env: Env, s: StoreState, os: seq<WooOrder>)
    ensures var st := WooOrdersStage(env, s, os);
      Extends(s, st.state) && |st.state.posts| == |s.posts| + st.count
    decreases |os|
  {
    if os == [] {
      assert s.posts[..|s.posts|] == s.posts && s.terms[..|s.terms|] == s.terms;
    } else {
      var prev := WooOrdersStage(env, s, os[..|os| - 1]);
      WooOrdersGrowth(env, s, os[..|os| - 1]);
      WooOrderStepShape(env, prev.state, os[|os| - 1]);
      ExtendsTransitive(s, prev.state, WooOrderStep(env, prev.state, os[|os| - 1]).state);
    }
  }

  /** A WooCommerce order needs nothing more: a migrated order records its id, or the store
      refuses its insert. */
  predicate WooSettled(env: Env, t: StoreState, o: WooOrder) {
    FindPost(t, "store_order", "_woocommerce_original_order_id", Int(o.id)) != 0 ||
    !env.acceptPost(WooOrderData(o))
  }

  lemma WooSettledStable(env: Env, s: StoreState, t: StoreState, os: seq<WooOrder>)
    requires forall o :: o in os ==> WooSettled(env, s, o)
    requires Extends(s, t)
    ensures forall o :: o in os ==> WooSettled(env, t, o)
  {
    forall o | o in os
      ensures WooSettled(env, t, o)
    {
      if FindPost(s, "store_order", "_woocommerce_original_order_id", Int(o.id)) != 0 {
        FindPostStable(s, t, "store_order", "_woocommerce_original_order_id", Int(o.id));
      }
    }
  }

  /** A settled order's step changes nothing and is not counted. */
  lemma WooSettledStep(env: Env, s: StoreState, o: WooOrder)
    requires WooSettled(env, s, o)
    ensures WooOrderStep(env, s, o) == Step(s, false, None)
  {
  }

  /** Every order is settled after its step. */
  lemma WooStepSettles(env: Env, s: StoreState, o: WooOrder)
    ensures WooSettled(env, WooOrderStep(env, s, o).state, o)
  {
    if FindPost(s, "store_order", "_woocommerce_original_order_id", Int(o.id)) == 0 && env.acceptPost(WooOrderData(o)) {
      NewWooOrder(env, s, o);
      var s1 := s.(posts := s.posts + [Post(WooOrderData(o), map[], [])]);
      WooOrderRecords(s1, |s1.posts|, o);
      ScalarMatches(Int(o.id));
      var t := WooOrderStep(env, s, o).state;
      assert PostMatches(t.posts[|s.posts|], "store_order", "_woocommerce_original_order_id", Int(o.id));
    }
  }

  /** After the WooCommerce order stage every listed order is settled. */
  lemma {:induction false} WooOrdersSettle(env: Env, s: StoreState, os: seq<WooOrder>)
    ensures forall o :: o in os ==> WooSettled(env, WooOrdersStage(env, s, os).state, o)
    decreases |os|
  {
    if os != [] {
      var init := os[..|os| - 1];
      var last := os[|os| - 1];
      var prev := WooOrdersStage(env, s, init);
      WooOrdersSettle(env, s, init);
      WooOrderStepShape(env, prev.state, last);
      WooStepSettles(env, prev.state, last);
      var step := WooOrderStep(env, prev.state, last);
      assert WooOrdersStage(env, s, os).state == step.state;
      WooSettledStable(env, prev.state, step.state, init);
      InitLast(os);
    }
  }

  /** A WooCommerce order stage over settled orders changes nothing and counts nothing. */
  lemma {:induction false} SettledWooOrders(env: Env, s: StoreState, os: seq<WooOrder>)
    requires forall o :: o in os ==> WooSettled(env, s, o)
    ensures WooOrdersStage(env, s, os) == Stage(s, 0, None)
    decreases |os|
  {
    if os != [] {
      assert forall o :: o in os[..|os| - 1] ==> o in os;
      SettledWooOrders(env, s, os[..|os| - 1]);
      WooSettledStep(env, s, os[|os| - 1]);
    }
  }

  /** Running the WooCommerce order stage a second time over the same orders migrates
      nothing. */
  lemma WooOrdersIdempotent(env: Env, s: StoreState, os: seq<WooOrder>)
    ensures var t := WooOrdersStage(env, s, os).state;
      WooOrdersStage(env, t, os) == Stage(t, 0, None)
  {
    WooOrdersSettle(env, s, os);
    SettledWooOrders(env, WooOrdersStage(env, s, os).state, os);
  }

  // ---------------------------------------------------------------------------
  // The success test of `wp_insert_post`

  /** The Velocity row as written: `! is_wp_error` also lets through the 0 of a refused
      insert, so the meta writes go to post 0 and the row is counted unless they throw. */
  function VelocityOrderStepAsWritten(env: Env, s: StoreState, row: OrderRow): Step {
    if FindPost(s, "store_order", "_velocity_original_invoice", row.invoice) != 0 then Step(s, false, None)
    else
      var (s1, id) := AfterInsertPost(env, s, VelocityOrderData(env, row));
      var out := VelocityOrderMeta(env, s1, id, row);
      Step(WithMeta(s1, id, out.meta), out.thrown.None?, out.thrown)
  }

  /** The WooCommerce order as written: the same test, so a refused insert is counted. */
  function WooOrderStepAsWritten(env: Env, s: StoreState, o: WooOrder): Step {
    if FindPost(s, "store_order", "_woocommerce_original_order_id", Int(o.id)) != 0 then Step(s, false, None)
    else
      var (s1, id) := AfterInsertPost(env, s, WooOrderData(o));
      Step(WithMeta(s1, id, WooOrderMeta(s1, id, o)), true, None)
  }

  /** As written, a Velocity row whose insert the store refuses adds no post, yet it is
      counted, or throws when its `ongkir` is an array. */
  lemma RefusedOrderCounted(env: Env, s: StoreState, row: OrderRow)
    requires FindPost(s, "store_order", "_velocity_original_invoice", row.invoice) == 0
    requires !env.acceptPost(VelocityOrderData(env, row))
    ensures var st := VelocityOrderStepAsWritten(env, s, row);
      && st.state == s
      && (st.counted <==> !Field(row.detail.ongkir).Arr?)
      && (st.thrown.Some? <==> Field(row.detail.ongkir).Arr?)
  {
  }

  /** As written, a WooCommerce order whose insert the store refuses adds no post and is
      counted. */
  lemma RefusedWooOrderCounted(env: Env, s: StoreState, o: WooOrder)
    requires FindPost(s, "store_order", "_woocommerce_original_order_id", Int(o.id)) == 0
    requires !env.acceptPost(WooOrderData(o))
    ensures WooOrderStepAsWritten(env, s, o) == Step(s, true, None)
  {
  }

  /** With the corrected test, an order whose insert the store refuses writes nothing, is
      not counted and throws nothing, whatever its `ongkir`. */
  lemma RefusedOrderNotCounted(env: Env, s: StoreState, row: OrderRow, o: WooOrder)
    requires !env.acceptPost(VelocityOrderData(env, row)) && !env.acceptPost(WooOrderData(o))
    ensures VelocityOrderStep(env, s, row) == Step(s, false, None)
    ensures WooOrderStep(env, s, o) == Step(s, false, None)
  {
  }
}
