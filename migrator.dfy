/**
 * The migration run: the product stage of the chosen source, then its order stage, with
 * the first exception caught and reported as the run's only error.
 */
module Migrator {
  import opened Wrappers
  import opened Php
  import opened Rules
  import opened Wp
  import opened Source
  import opened Taxonomy
  import opened Products
  import opened Orders

  /** What `run` returns: the two counts and the error messages. */
  datatype RunResult = RunResult(products: nat, orders: nat, errors: seq<string>)

  /** The error entry of a caught exception: its message, the file and the line. */
  function ErrorEntry(env: Env, t: Thrown): (entry: string)
    ensures |t.message| < |entry| && entry[..|t.message|] == t.message
  {
    t.message + " in " + env.runnerFile + ":" + IntToString(t.line)
  }

  /** Only the exact source name "woocommerce" selects WooCommerce; anything else is Velocity. */
  function SourceVariant(source: string): (v: Variant)
    ensures v.WooCommerce? <==> source == "woocommerce"
  {
    if source == "woocommerce" then WooCommerce else Velocity
  }

  /** The order stage of a source. */
  function OrdersStage(env: Env, legacy: Legacy, v: Variant, s: StoreState): Stage {
    match v
    case Velocity => VelocityOrders(env, s, legacy.orderTable)
    case WooCommerce => WooOrdersStage(env, s, ListedOrders(legacy.wooOrders))
  }

  /** `run($source)`: the store after the run and the run's result. A product stage that
      throws loses both counts; an order stage that throws loses the order count. */
  function Migration(env: Env, legacy: Legacy, ghost rank: map<int, nat>, source: string, s: StoreState)
    : (r: (StoreState, RunResult))
    requires Ranked(legacy.terms, rank)
    ensures |r.1.errors| <= 1
  {
    var v := SourceVariant(source);
    var ps := ProductsStage(env, legacy.terms, rank, v, s, ListedProducts(legacy.products));
    if ps.thrown.Some? then (ps.state, RunResult(0, 0, [ErrorEntry(env, ps.thrown.value)]))
    else
      var os := OrdersStage(env, legacy, v, ps.state);
      if os.thrown.Some? then (os.state, RunResult(ps.count, 0, [ErrorEntry(env, os.thrown.value)]))
      else (os.state, RunResult(ps.count, os.count, []))
  }

  // ---------------------------------------------------------------------------
  // Properties of a run

  /** Any source name but "woocommerce" runs the Velocity migration. */
  lemma DefaultSource(env: Env, legacy: Legacy, rank: map<int, nat>, source: string, s: StoreState)
    requires Ranked(legacy.terms, rank) && source != "woocommerce"
    ensures Migration(env, legacy, rank, source, s) == Migration(env, legacy, rank, "velocity", s)
  {
  }

  /** The order stage only adds to the store; without an exception its count is the number
      of posts it added, and an exception leaves one more post behind. */
  lemma OrdersGrowth(env: Env, legacy: Legacy, v: Variant, s: StoreState)
    ensures var os := OrdersStage(env, legacy, v, s);
      && Extends(s, os.state)
      && |os.state.posts| == |s.posts| + os.count + (if os.thrown.Some? then 1 else 0)
  {
    match v
    case Velocity =>
      if legacy.orderTable.Some? {
        VelocityOrdersGrowth(env, s, legacy.orderTable.value);
      } else {
        assert s.posts[..|s.posts|] == s.posts && s.terms[..|s.terms|] == s.terms;
      }
    case WooCommerce =>
      WooOrdersGrowth(env, s, ListedOrders(legacy.wooOrders));
  }

  /** A run only adds to the store. Without an error the counts are exactly the posts it
      added; with an error some added post is not counted: the record that threw, and for
      a product-stage exception every product before it. */
  lemma RunGrowth(env: Env, legacy: Legacy, rank: map<int, nat>, source: string, s: StoreState)
    requires Ranked(legacy.terms, rank)
    ensures var (t, r) := Migration(env, legacy, rank, source, s);
      && Extends(s, t)
      && (r.errors == [] ==> |t.posts| == |s.posts| + r.products + r.orders)
      && (r.errors != [] ==> |t.posts| > |s.posts| + r.products + r.orders)
  {
    var v := SourceVariant(source);
    var ps := ProductsStage(env, legacy.terms, rank, v, s, ListedProducts(legacy.products));
    StageGrowth(env, legacy.terms, rank, v, s, ListedProducts(legacy.products));
    if ps.thrown.None? {
      OrdersGrowth(env, legacy, v, ps.state);
      ExtendsTransitive(s, ps.state, OrdersStage(env, legacy, v, ps.state).state);
    }
  }

  /** The invoice column holds strings or NULL, never an array. */
  predicate ScalarInvoices(legacy: Legacy) {
    legacy.orderTable.Some? ==> forall row :: row in legacy.orderTable.value ==> !row.invoice.Arr?
  }

  /** After an order stage without an exception, a second one over the same source
      changes nothing and counts nothing. */
  lemma OrdersIdempotent(env: Env, legacy: Legacy, v: Variant, s: StoreState)
    requires ScalarInvoices(legacy)
    requires OrdersStage(env, legacy, v, s).thrown.None?
    ensures var t := OrdersStage(env, legacy, v, s).state;
      OrdersStage(env, legacy, v, t) == Stage(t, 0, None)
  {
    match v
    case Velocity =>
      if legacy.orderTable.Some? {
        VelocityOrdersIdempotent(env, s, legacy.orderTable.value);
      }
    case WooCommerce =>
      WooOrdersIdempotent(env, s, ListedOrders(legacy.wooOrders));
  }

  /** A run that reports no error can be repeated: the second run migrates nothing, leaves
      the store as it is and reports no error. */
  lemma RunIdempotent(env: Env, legacy: Legacy, rank: map<int, nat>, source: string, s: StoreState)
    requires Ranked(legacy.terms, rank) && ScalarInvoices(legacy)
    requires Migration(env, legacy, rank, source, s).1.errors == []
    ensures var t := Migration(env, legacy, rank, source, s).0;
      Migration(env, legacy, rank, source, t) == (t, RunResult(0, 0, []))
  {
    var v := SourceVariant(source);
    var listed := ListedProducts(legacy.products);
    var ps := ProductsStage(env, legacy.terms, rank, v, s, listed);
    var os := OrdersStage(env, legacy, v, ps.state);
    var t := os.state;
    StageSettles(env, legacy.terms, rank, v, s, listed);
    OrdersGrowth(env, legacy, v, ps.state);
    AllSettledStable(env, v, ps.state, t, listed);
    SettledStage(env, legacy.terms, rank, v, t, listed);
    OrdersIdempotent(env, legacy, v, ps.state);
  }

  // ---------------------------------------------------------------------------
  // The runner

  /** `set_post_thumbnail` on a post whose meta is tracked as a map. */
  lemma ThumbnailWrite(env: Env, s0: StoreState, id: int, m: map<string, Meta>, thumb: int)
    ensures AfterSetThumbnail(env, WithMeta(s0, id, m), id, thumb) == WithMeta(s0, id, ThumbnailMeta(env, m, thumb))
  {
    if thumb != 0 && env.isImage(thumb) {
      MetaWrite(s0, id, m, "_thumbnail_id", Plain(Int(thumb)));
    }
  }

  /** The migrator: the legacy data it reads and the database it writes. `rank` witnesses
      that the source category hierarchy has no cycle. */
  class Runner {
    const db: Database
    const legacy: Legacy
    ghost const rank: map<int, nat>

    ghost predicate Valid() {
      Ranked(legacy.terms, rank)
    }

    constructor (db: Database, legacy: Legacy, ghost rank: map<int, nat>)
      requires Ranked(legacy.terms, rank)
      ensures this.db == db && this.legacy == legacy && this.rank == rank && Valid()
    {
      this.db := db;
      this.legacy := legacy;
      this.rank := rank;
    }

    /** The priced-option parser of `migrate_product_meta`: every string row, and every
        string inside an array row, split on '='; rows with at least two pieces give an option. */
    method CollectAdvancedOptions(rows: seq<Value>) returns (options: seq<AdvancedOption>)
      ensures options == AdvancedOptions(rows)
    {
      options := [];
      for i := 0 to |rows|
        invariant options == AdvancedOptions(rows[..i])
      {
        assert rows[..i + 1][..i] == rows[..i];
        var row := rows[i];
        if row.Arr? {
          var nested := CollectNestedOptions(row.items);
          options := options + nested;
          continue;
        }
        if !row.Str? {
          continue;
        }
        var parts := Explode('=', row.s);
        if |parts| >= 2 {
          options := options + [AdvancedOption(Trim(parts[0]), Trim(parts[1]))];
        }
      }
      assert rows[..|rows|] == rows;
    }

    /** The inner loop over an array row: its string elements parsed in order. */
    method CollectNestedOptions(subs: seq<Value>) returns (options: seq<AdvancedOption>)
      ensures options == NestedOptions(subs)
    {
      options := [];
      for j := 0 to |subs|
        invariant options == NestedOptions(subs[..j])
      {
        assert subs[..j + 1][..j] == subs[..j];
        var sub := subs[j];
        if sub.Str? {
          var parts := Explode('=', sub.s);
          if |parts| >= 2 {
            options := options + [AdvancedOption(Trim(parts[0]), Trim(parts[1]))];
          }
        }
      }
      assert subs[..|subs|] == subs;
    }

    /** The gallery loop: each id whose attachment URL (looked up by the id cast to int)
        resolves, keyed by id, in order; a resolving array id cannot be a key and throws. */
    method CollectGallery(ids: seq<Value>) returns (g: seq<(Value, string)>, thrown: Option<Thrown>)
      ensures thrown.Some? <==> GalleryKeyThrows(db.env.attachmentUrl, ids)
      ensures thrown.Some? ==> thrown.value == Thrown(IllegalOffsetError, 239)
      ensures thrown.None? ==> g == GalleryOf(db.env.attachmentUrl, ids)
    {
      g := [];
      for i := 0 to |ids|
        invariant g == GalleryOf(db.env.attachmentUrl, ids[..i])
        invariant forall j :: 0 <= j < i ==> !IllegalGalleryKey(db.env.attachmentUrl, ids[j])
      {
        assert ids[..i + 1][..i] == ids[..i];
        var url := db.env.attachmentUrl(ToInt(ids[i]));
        if url.Some? {
          if ids[i].Arr? {
            return g, Some(Thrown(IllegalOffsetError, 239));
          }
          g := Put(g, ids[i], url.value);
        }
      }
      assert ids[..|ids|] == ids;
      return g, None;
    }

    /** The field-copy loop: each source value that is not '' written under its target key. */
    method CopyMetaFields(p: SourceProduct, id: int, fields: seq<(string, string)>,
                          ghost s0: StoreState, ghost m: map<string, Meta>)
      requires db.State() == WithMeta(s0, id, m)
      modifies db
      ensures db.State() == WithMeta(s0, id, CopyFields(m, p.meta, fields))
    {
      ghost var cur := m;
      for k := 0 to |fields|
        invariant cur == CopyFields(m, p.meta, fields[..k])
        invariant db.State() == WithMeta(s0, id, cur)
      {
        assert fields[..k + 1][..k] == fields[..k];
        var (from, to) := fields[k];
        var value := Single(p.meta, from);
        if value != Str("") {
          db.WriteMeta(id, to, Plain(value), s0, cur);
          cur := cur[to := Plain(value)];
        }
      }
      assert fields[..|fields|] == fields;
    }

    /** `migrate_product_meta`: the field copy, the flash-sale date (an array there makes
        `strtotime` throw), provenance and type, then the options. */
    method MigrateProductMeta(p: SourceProduct, newId: int) returns (thrown: Option<Thrown>)
      modifies db
      ensures var out := VelocityMeta(db.env, MetaOf(old(db.State()), newId), p);
        db.State() == WithMeta(old(db.State()), newId, out.meta) && thrown == out.thrown
    {
      ghost var s0 := db.State();
      ghost var m := MetaOf(s0, newId);
      WithOwnMeta(s0, newId);
      CopyMetaFields(p, newId, VelocityFields, s0, m);
      m := CopyFields(m, p.meta, VelocityFields);
      var flash := Single(p.meta, "flashsale");
      if Truthy(flash) {
        if flash.Arr? {
          return Some(Thrown(StrtotimeTypeError, 113));
        }
        var date := db.env.formatDate(FlashsaleFormat, flash);
        db.WriteMeta(newId, "_store_flashsale_until", Plain(Str(date)), s0, m);
        m := m["_store_flashsale_until" := Plain(Str(date))];
      }
      db.WriteMeta(newId, "_velocity_original_id", Plain(Int(p.id)), s0, m);
      m := m["_velocity_original_id" := Plain(Int(p.id))];
      db.WriteMeta(newId, "_store_product_type", Plain(Str("physical")), s0, m);
      m := m["_store_product_type" := Plain(Str("physical"))];
      WriteOptions(p, newId, s0, m);
      return None;
    }

    /** The option writes that end `migrate_product_meta`: a truthy option name, a non-empty
        list of standard options, a truthy second option name, and the priced options when
        any row parses. */
    method WriteOptions(p: SourceProduct, newId: int, ghost s0: StoreState, ghost m: map<string, Meta>)
      requires db.State() == WithMeta(s0, newId, m)
      modifies db
      ensures db.State() == WithMeta(s0, newId, OptionsMeta(m, p))
    {
      ghost var cur := m;
      var nama := Single(p.meta, "namaopsi");
      if Truthy(nama) {
        db.WriteMeta(newId, "_store_option_name", Plain(nama), s0, cur);
        cur := cur["_store_option_name" := Plain(nama)];
      }
      var standard := Multi(p.meta, "opsistandart");
      if standard != [] {
        db.WriteMeta(newId, "_store_options", Plain(Arr(standard)), s0, cur);
        cur := cur["_store_options" := Plain(Arr(standard))];
      }
      var nama2 := Single(p.meta, "namaopsi2");
      if Truthy(nama2) {
        db.WriteMeta(newId, "_store_option2_name", Plain(nama2), s0, cur);
        cur := cur["_store_option2_name" := Plain(nama2)];
      }
      var rows := Multi(p.meta, "opsiharga");
      if rows != [] {
        var options := CollectAdvancedOptions(rows);
        if options != [] {
          db.WriteMeta(newId, "_store_advanced_options", OptionList(options), s0, cur);
        }
      }
    }

    /** `ensure_target_term`: the target term for source term `id`, found by name, or
        created under its reconciled parent; 0 for a missing term or a refused insert. */
    method EnsureTargetTerm(id: int) returns (tid: nat)
      requires Valid()
      modifies db
      ensures db.posts == old(db.posts)
      ensures (db.terms, tid) == EnsureTerm(db.env, legacy.terms, rank, old(db.terms), id)
      decreases if id in legacy.terms && id in rank then rank[id] + 1 else 0
    {
      if id !in legacy.terms {
        return 0;
      }
      assert RankedAt(legacy.terms, rank, id);
      var t := legacy.terms[id];
      var existing := db.TermExists(t.name);
      if existing != 0 {
        return existing;
      }
      var parentId := 0;
      if FollowsParent(legacy.terms, t) {
        parentId := EnsureTargetTerm(t.parent);
      }
      tid := db.InsertTerm(t.name, t.slug, if parentId > 0 then parentId else 0);
    }

    /** One more term reconciled: the reconciler's step on the next id. */
    static lemma ReconcileSnoc(env: Env, src: map<int, SourceTerm>, rank: map<int, nat>,
                               tgt: seq<TargetTerm>, ids: seq<int>, k: nat)
      requires Ranked(src, rank) && k < |ids|
      ensures var (t1, acc) := Reconcile(env, src, rank, tgt, ids[..k]);
        var (t2, x) := EnsureTerm(env, src, rank, t1, ids[k]);
        Reconcile(env, src, rank, tgt, ids[..k + 1]) == (t2, acc + (if x != 0 then [x] else []))
    {
      assert ids[..k + 1][..k] == ids[..k];
    }

    /** `migrate_product_taxonomies` (and the same block of the WooCommerce loop): each of
        the product's source terms reconciled, and the non-zero ids set as its categories. */
    method MigrateProductTaxonomies(v: Variant, p: SourceProduct, newId: int)
      requires Valid()
      modifies db
      ensures db.State() == CategoriesStep(db.env, legacy.terms, rank, v, old(db.State()), newId, p)
    {
      var ids := TermsOf(legacy.terms, p, ProductTaxonomy(v));
      var newIds := ReconcileTerms(ids);
      if newIds != [] {
        db.SetCategories(newId, newIds);
      }
    }

    /** The term loop of `migrate_product_taxonomies`: each term reconciled in turn, the
        non-zero target ids collected in order. */
    method ReconcileTerms(ids: seq<int>) returns (newIds: seq<int>)
      requires Valid()
      modifies db
      ensures db.posts == old(db.posts)
      ensures (db.terms, newIds) == Reconcile(db.env, legacy.terms, rank, old(db.terms), ids)
    {
      newIds := [];
      ghost var terms0 := db.terms;
      for k := 0 to |ids|
        invariant db.posts == old(db.posts)
        invariant db.terms == Reconcile(db.env, legacy.terms, rank, terms0, ids[..k]).0
        invariant newIds == Reconcile(db.env, legacy.terms, rank, terms0, ids[..k]).1
      {
        ReconcileSnoc(db.env, legacy.terms, rank, terms0, ids, k);
        ghost var before := db.terms;
        var tid := EnsureTargetTerm(ids[k]);
        assert (db.terms, tid) == EnsureTerm(db.env, legacy.terms, rank, before, ids[k]);
        if tid != 0 {
          newIds := newIds + [tid];
        }
      }
      assert ids[..|ids|] == ids;
    }

    /** `migrate_product_images`: the thumbnail, then the gallery of the `gallery` ids (a
        single array value unwrapped) that have a URL; a resolving array id throws. */
    method MigrateProductImages(p: SourceProduct, newId: int) returns (thrown: Option<Thrown>)
      modifies db
      ensures var out := VelocityImagesMeta(db.env, MetaOf(old(db.State()), newId), p);
        db.State() == WithMeta(old(db.State()), newId, out.meta) && thrown == out.thrown
    {
      ghost var s0 := db.State();
      ghost var m := MetaOf(s0, newId);
      WithOwnMeta(s0, newId);
      if p.thumbnail != 0 {
        db.SetThumbnail(newId, p.thumbnail);
        ThumbnailWrite(db.env, s0, newId, m, p.thumbnail);
      }
      m := ThumbnailMeta(db.env, m, p.thumbnail);
      var ids := Multi(p.meta, "gallery");
      if |ids| == 1 && ids[0].Arr? {
        ids := ids[0].items;
      }
      thrown := None;
      if ids != [] {
        var g;
        g, thrown := CollectGallery(ids);
        if thrown.None? && g != [] {
          db.WriteMeta(newId, "_store_gallery_ids", Gallery(g), s0, m);
        }
      }
    }

    /** `migrate_products`: every listed product is migrated in turn and counted when its
        migration went through. An exception ends the loop. */
    method MigrateProducts() returns (count: nat, thrown: Option<Thrown>)
      requires Valid()
      modifies db
      ensures Stage(db.State(), count, thrown) ==
        ProductsStage(db.env, legacy.terms, rank, Velocity, old(db.State()), ListedProducts(legacy.products))
    {
      var ps := ListedProducts(legacy.products);
      ghost var s0 := db.State();
      count, thrown := 0, None;
      for i := 0 to |ps|
        invariant thrown.None?
        invariant Stage(db.State(), count, None) == ProductsStage(db.env, legacy.terms, rank, Velocity, s0, ps[..i])
      {
        ProductsStageSnoc(db.env, legacy.terms, rank, Velocity, s0, ps, i);
        var counted: bool;
        counted, thrown := MigrateProduct(ps[i]);
        if thrown.Some? {
          assert ProductsStage(db.env, legacy.terms, rank, Velocity, s0, ps[..i + 1]) == Stage(db.State(), count, thrown);
          ProductsStageStops(db.env, legacy.terms, rank, Velocity, s0, ps, i + 1);
          return;
        }
        if counted {
          count := count + 1;
        }
      }
      assert ps[..|ps|] == ps;
    }

    /** The body of the `migrate_products` loop for one product: skipped when a migrated
        product records its id; otherwise inserted and, when the insert succeeded, given its
        meta, categories and images. */
    method MigrateProduct(p: SourceProduct) returns (counted: bool, thrown: Option<Thrown>)
      requires Valid()
      modifies db
      ensures thrown.Some? ==> !counted
      ensures Step(db.State(), counted, thrown) ==
        ProductStep(db.env, legacy.terms, rank, Velocity, old(db.State()), p)
    {
      var existing := db.FindPostId("store_product", "_velocity_original_id", Int(p.id));
      if existing != 0 {
        return false, None;
      }
      var newId := db.InsertPost(ProductData(p));
      if newId == 0 {
        return false, None;
      }
      thrown := MigrateProductMeta(p, newId);
      if thrown.Some? {
        return false, thrown;
      }
      MigrateProductTaxonomies(Velocity, p, newId);
      thrown := MigrateProductImages(p, newId);
      counted := thrown.None?;
    }

    /** The meta writes of the WooCommerce product loop before its terms: the field copy,
        the stock when stock is managed and set, then type and provenance. */
    method WriteWooMeta(p: SourceProduct, newId: int)
      modifies db
      ensures db.State() == WithMeta(old(db.State()), newId, WooMeta(MetaOf(old(db.State()), newId), p))
    {
      ghost var s0 := db.State();
      ghost var m := MetaOf(s0, newId);
      WithOwnMeta(s0, newId);
      CopyMetaFields(p, newId, WooFields, s0, m);
      m := CopyFields(m, p.meta, WooFields);
      var manage := Single(p.meta, "_manage_stock");
      if manage == Str("yes") {
        var stock := Single(p.meta, "_stock");
        if stock != Str("") {
          db.WriteMeta(newId, "_store_stock", Plain(stock), s0, m);
          m := m["_store_stock" := Plain(stock)];
        }
      }
      db.WriteMeta(newId, "_store_product_type", Plain(Str("physical")), s0, m);
      m := m["_store_product_type" := Plain(Str("physical"))];
      db.WriteMeta(newId, "_woocommerce_original_id", Plain(Int(p.id)), s0, m);
    }

    /** The images of the WooCommerce product loop: the thumbnail, then the gallery of the
        comma-separated `_product_image_gallery` ids that have a URL; an array there makes
        `explode` throw. */
    method MigrateWooImages(p: SourceProduct, newId: int) returns (thrown: Option<Thrown>)
      modifies db
      ensures var out := WooImagesMeta(db.env, MetaOf(old(db.State()), newId), p);
        db.State() == WithMeta(old(db.State()), newId, out.meta) && thrown == out.thrown
    {
      ghost var s0 := db.State();
      ghost var m := MetaOf(s0, newId);
      WithOwnMeta(s0, newId);
      if p.thumbnail != 0 {
        db.SetThumbnail(newId, p.thumbnail);
        ThumbnailWrite(db.env, s0, newId, m, p.thumbnail);
      }
      m := ThumbnailMeta(db.env, m, p.thumbnail);
      var gallery := Single(p.meta, "_product_image_gallery");
      if !Truthy(gallery) {
        return None;
      }
      var text := StringArg(gallery);
      if text.None? {
        return Some(Thrown(ExplodeTypeError, 324));
      }
      var ids := WooGalleryIds(text.value);
      if ids != [] {
        var g, t := CollectGallery(IntValues(ids));
        assert t.None?;
        if g != [] {
          db.WriteMeta(newId, "_store_gallery_ids", Gallery(g), s0, m);
        }
      }
      return None;
    }

    /** The body of the `migrate_woocommerce_products` loop for one product: skipped when a
        migrated product records its id; otherwise inserted and, when the insert succeeded,
        given its meta, categories and images, and counted unless the gallery threw. */
    method MigrateWooCommerceProduct(p: SourceProduct) returns (counted: bool, thrown: Option<Thrown>)
      requires Valid()
      modifies db
      ensures thrown.Some? ==> !counted
      ensures Step(db.State(), counted, thrown) ==
        ProductStep(db.env, legacy.terms, rank, WooCommerce, old(db.State()), p)
    {
      var existing := db.FindPostId("store_product", "_woocommerce_original_id", Int(p.id));
      if existing != 0 {
        return false, None;
      }
      var newId := db.InsertPost(ProductData(p));
      if newId == 0 {
        return false, None;
      }
      WriteWooMeta(p, newId);
      MigrateProductTaxonomies(WooCommerce, p, newId);
      thrown := MigrateWooImages(p, newId);
      counted := thrown.None?;
    }

    /** `migrate_woocommerce_products`: every listed product is migrated in turn and counted
        when its migration went through. An exception ends the loop. */
    method MigrateWooCommerceProducts() returns (count: nat, thrown: Option<Thrown>)
      requires Valid()
      modifies db
      ensures Stage(db.State(), count, thrown) ==
        ProductsStage(db.env, legacy.terms, rank, WooCommerce, old(db.State()), ListedProducts(legacy.products))
    {
      var ps := ListedProducts(legacy.products);
      ghost var s0 := db.State();
      count, thrown := 0, None;
      for i := 0 to |ps|
        invariant thrown.None?
        invariant Stage(db.State(), count, None) == ProductsStage(db.env, legacy.terms, rank, WooCommerce, s0, ps[..i])
      {
        ProductsStageSnoc(db.env, legacy.terms, rank, WooCommerce, s0, ps, i);
        var counted: bool;
        counted, thrown := MigrateWooCommerceProduct(ps[i]);
        if thrown.Some? {
          assert ProductsStage(db.env, legacy.terms, rank, WooCommerce, s0, ps[..i + 1]) == Stage(db.State(), count, thrown);
          ProductsStageStops(db.env, legacy.terms, rank, WooCommerce, s0, ps, i + 1);
          return;
        }
        if counted {
          count := count + 1;
        }
      }
      assert ps[..|ps|] == ps;
    }

    /** `get_new_product_id`: the migrated product recording the Velocity product id, 0 when
        there is none. */
    method GetNewProductId(oldId: Value) returns (pid: nat)
      ensures pid == VelocityProductId(db.State(), oldId)
    {
      pid := db.FindPostId("store_product", "_velocity_original_id", oldId);
    }

    /** One line of a Velocity order: the product resolved, the quantity, the unit price
        (explicit, else the migrated product's stored price), the subtotal and the options. */
    method BuildVelocityLine(item: DetailItem) returns (line: LineItem)
      ensures line == VelocityLine(db.State(), item)
    {
      var pid := GetNewProductId(VelocityOldProductId(item));
      var qty := if item.jumlah.Some? then ToInt(item.jumlah.value) else 1;
      var price := 0.0;
      if item.harga.Some? {
        price := ToReal(item.harga.value);
      } else if pid != 0 {
        var stored := db.GetMeta(pid, "_store_price");
        price := MetaReal(stored);
      }
      var options: map<string, Value> := map[];
      if item.keterangan.Some? {
        options := options["Info" := item.keterangan.value];
      }
      line := LineItem(pid, qty, price, LineSubtotal(price, qty), options);
    }

    /** The item loop of `migrate_orders`: one line per detail product, in order. */
    method CollectVelocityItems(items: seq<DetailItem>) returns (lines: seq<LineItem>)
      ensures lines == VelocityItems(db.State(), items)
    {
      ghost var s := db.State();
      lines := [];
      for i := 0 to |items|
        invariant lines == VelocityItems(s, items[..i])
      {
        VelocityItemsSnoc(s, items, i);
        var line := BuildVelocityLine(items[i]);
        lines := lines + [line];
      }
      assert items[..|items|] == items;
    }

    /** The header, customer and location writes of a Velocity order. */
    method WriteVelocityCustomer(row: OrderRow, id: int, ghost s0: StoreState, ghost m: map<string, Meta>)
      requires db.State() == WithMeta(s0, id, m)
      modifies db
      ensures db.State() == WithMeta(s0, id, LocationMeta(db.env, CustomerMeta(VelocityHeader(m, row), row.detail), row.detail))
    {
      ghost var cur := m;
      var status := VelocityStatus(row.status).Name();
      db.WriteMeta(id, "_velocity_original_invoice", Plain(row.invoice), s0, cur);
      cur := cur["_velocity_original_invoice" := Plain(row.invoice)];
      db.WriteMeta(id, "_velocity_original_order_id", Plain(row.id), s0, cur);
      cur := cur["_velocity_original_order_id" := Plain(row.id)];
      db.WriteMeta(id, "_store_order_status", Plain(Str(status)), s0, cur);
      cur := cur["_store_order_status" := Plain(Str(status))];
      var d := row.detail;
      db.WriteMeta(id, "_store_order_customer_name", Plain(Field(d.nama)), s0, cur);
      cur := cur["_store_order_customer_name" := Plain(Field(d.nama))];
      db.WriteMeta(id, "_store_order_email", Plain(Field(d.email)), s0, cur);
      cur := cur["_store_order_email" := Plain(Field(d.email))];
      db.WriteMeta(id, "_store_order_phone", Plain(Field(d.hp)), s0, cur);
      cur := cur["_store_order_phone" := Plain(Field(d.hp))];
      db.WriteMeta(id, "_store_order_address", Plain(Field(d.alamat)), s0, cur);
      cur := cur["_store_order_address" := Plain(Field(d.alamat))];
      if d.subdistrict.Some? {
        var loc := db.env.location(d.subdistrict.value);
        if loc.Some? {
          var l := loc.value;
          db.WriteMeta(id, "_store_order_subdistrict_name", Plain(l.subdistrict), s0, cur);
          cur := cur["_store_order_subdistrict_name" := Plain(l.subdistrict)];
          db.WriteMeta(id, "_store_order_city_name", Plain(l.city), s0, cur);
          cur := cur["_store_order_city_name" := Plain(l.city)];
          db.WriteMeta(id, "_store_order_province_name", Plain(l.province), s0, cur);
          cur := cur["_store_order_province_name" := Plain(l.province)];
          db.WriteMeta(id, "_store_order_postal_code", Plain(l.postal), s0, cur);
        }
      }
    }

    /** The meta writes of a Velocity order: header, customer and location, then shipping
        (an array `ongkir` makes `explode` throw), tracking and payment, the items resolved
        against the store as it is then, and the total. */
    method WriteVelocityOrderMeta(row: OrderRow, id: int) returns (thrown: Option<Thrown>)
      modifies db
      ensures var out := VelocityOrderMeta(db.env, old(db.State()), id, row);
        db.State() == WithMeta(old(db.State()), id, out.meta) && thrown == out.thrown
    {
      ghost var s0 := db.State();
      ghost var m := MetaOf(s0, id);
      WithOwnMeta(s0, id);
      var d := row.detail;
      WriteVelocityCustomer(row, id, s0, m);
      m := LocationMeta(db.env, CustomerMeta(VelocityHeader(m, row), d), d);
      var text := StringArg(Field(d.ongkir));
      if text.None? {
        return Some(Thrown(ExplodeTypeError, 441));
      }
      var sh := ParseShipping(text.value);
      db.WriteMeta(id, "_store_order_shipping_courier", Plain(Str(sh.courier)), s0, m);
      m := m["_store_order_shipping_courier" := Plain(Str(sh.courier))];
      db.WriteMeta(id, "_store_order_shipping_service", Plain(Str(sh.service)), s0, m);
      m := m["_store_order_shipping_service" := Plain(Str(sh.service))];
      db.WriteMeta(id, "_store_order_shipping_cost", Money(sh.cost), s0, m);
      m := m["_store_order_shipping_cost" := Money(sh.cost)];
      db.WriteMeta(id, "_store_order_tracking_number", Plain(row.resi), s0, m);
      m := m["_store_order_tracking_number" := Plain(row.resi)];
      db.WriteMeta(id, "_store_order_payment_method", Plain(row.pembayaran), s0, m);
      m := m["_store_order_payment_method" := Plain(row.pembayaran)];
      var items := [];
      if d.products.Some? {
        items := CollectVelocityItems(d.products.value);
      }
      db.WriteMeta(id, "_store_order_items", Items(items), s0, m);
      m := m["_store_order_items" := Items(items)];
      db.WriteMeta(id, "_store_order_total", Money(ToReal(row.total)), s0, m);
      return None;
    }

    /** The body of the `migrate_orders` row loop: skipped when a migrated order records the
        invoice; otherwise inserted and, when the insert succeeded, given its meta and
        counted unless the shipping parse threw. */
    method MigrateOrder(row: OrderRow) returns (counted: bool, thrown: Option<Thrown>)
      modifies db
      ensures thrown.Some? ==> !counted
      ensures Step(db.State(), counted, thrown) == VelocityOrderStep(db.env, old(db.State()), row)
    {
      var existing := db.FindPostId("store_order", "_velocity_original_invoice", row.invoice);
      if existing != 0 {
        return false, None;
      }
      var id := db.InsertPost(VelocityOrderData(db.env, row));
      if id == 0 {
        return false, None;
      }
      thrown := WriteVelocityOrderMeta(row, id);
      counted := thrown.None?;
    }

    /** The `foreach` over one page of the order table: each row migrated in turn after the
        stage the earlier pages left, an exception ending the page. */
    method MigrateOrderPage(page: seq<OrderRow>, count0: nat) returns (count: nat, thrown: Option<Thrown>)
      modifies db
      ensures Stage(db.State(), count, thrown) == VelocityOrdersFrom(db.env, Stage(old(db.State()), count0, None), page)
    {
      ghost var start := Stage(db.State(), count0, None);
      count, thrown := count0, None;
      for i := 0 to |page|
        invariant thrown.None?
        invariant Stage(db.State(), count, None) == VelocityOrdersFrom(db.env, start, page[..i])
      {
        VelocityOrdersFromSnoc(db.env, start, page, i);
        var counted: bool;
        counted, thrown := MigrateOrder(page[i]);
        if thrown.Some? {
          assert VelocityOrdersFrom(db.env, start, page[..i + 1]) == Stage(db.State(), count, thrown);
          VelocityOrdersFromStops(db.env, start, page, i + 1);
          return;
        }
        if counted {
          count := count + 1;
        }
      }
      assert page[..|page|] == page;
    }

    /** One round of the paging loop of `migrate_orders`: the page at `offset` read and,
        when it is not empty, migrated. */
    method MigrateNextPage(rows: seq<OrderRow>, offset: nat, ghost s0: StoreState, count0: nat)
      returns (count: nat, thrown: Option<Thrown>, more: bool)
      requires Stage(db.State(), count0, None) == VelocityOrdersStage(db.env, s0, rows[..Consumed(rows, offset)])
      modifies db
      ensures !more ==> offset >= |rows| && count == count0 && thrown.None? && db.State() == old(db.State())
      ensures more ==> offset < |rows|
      ensures more ==>
        Stage(db.State(), count, thrown) == VelocityOrdersStage(db.env, s0, rows[..Consumed(rows, offset + PageSize)])
    {
      var page := Page(rows, offset);
      if page == [] {
        return count0, None, false;
      }
      VelocityOrdersPage(db.env, s0, rows, offset);
      count, thrown := MigrateOrderPage(page, count0);
      more := true;
    }

    /** `migrate_orders`: nothing when the order table does not exist; otherwise the table
        read 50 rows at a time until a page comes back empty, every row migrated in turn.
        An exception ends the loop. */
    method MigrateOrders() returns (count: nat, thrown: Option<Thrown>)
      modifies db
      ensures Stage(db.State(), count, thrown) == VelocityOrders(db.env, old(db.State()), legacy.orderTable)
    {
      if legacy.orderTable.None? {
        return 0, None;
      }
      var rows := legacy.orderTable.value;
      ghost var s0 := db.State();
      count, thrown := 0, None;
      var offset: nat := 0;
      while true
        invariant thrown.None?
        invariant Stage(db.State(), count, None) == VelocityOrdersStage(db.env, s0, rows[..Consumed(rows, offset)])
        decreases |rows| - Consumed(rows, offset) + (if offset <= |rows| then 1 else 0)
      {
        var more: bool;
        count, thrown, more := MigrateNextPage(rows, offset, s0, count);
        if !more {
          assert rows[..|rows|] == rows;
          return;
        }
        if thrown.Some? {
          VelocityOrdersThrown(db.env, s0, legacy.orderTable, Consumed(rows, offset + PageSize), Stage(db.State(), count, thrown));
          return;
        }
        offset := offset + PageSize;
      }
    }

    /** `get_new_product_id_from_woo`: the migrated product recording the WooCommerce product
        id, 0 when there is none. */
    method GetNewProductIdFromWoo(oldId: int) returns (pid: nat)
      ensures pid == WooProductId(db.State(), oldId)
    {
      pid := db.FindPostId("store_product", "_woocommerce_original_id", Int(oldId));
    }

    /** The item-meta loop: the rows of the selected keys (the query's `IN` filter), each
        assigned over the ones before it. */
    method CollectItemMeta(rows: seq<(string, Value)>) returns (meta: map<string, Value>)
      ensures meta == ItemMeta(rows)
    {
      meta := map[];
      for i := 0 to |rows|
        invariant meta == ItemMeta(rows[..i])
      {
        assert rows[..i + 1][..i] == rows[..i];
        var (k, v) := rows[i];
        if k in ItemMetaKeys {
          meta := meta[k := v];
        }
      }
      assert rows[..|rows|] == rows;
    }

    /** One line of a WooCommerce order from its item-meta rows. */
    method BuildWooLine(rows: seq<(string, Value)>) returns (line: LineItem)
      ensures line == WooLine(db.State(), rows)
    {
      var meta := CollectItemMeta(rows);
      var oldPid := if IsSet(meta, "_product_id") then ToInt(meta["_product_id"]) else 0;
      var qty := if IsSet(meta, "_qty") then ToInt(meta["_qty"]) else 1;
      var lineTotal := if IsSet(meta, "_line_total") then ToReal(meta["_line_total"]) else 0.0;
      var price := if qty > 0 then lineTotal / qty as real else 0.0;
      var pid := GetNewProductIdFromWoo(oldPid);
      line := LineItem(pid, qty, price, lineTotal, map[]);
    }

    /** The line-item loop of `migrate_woocommerce_orders`: one line per `line_item` row, in
        order. */
    method CollectWooItems(lineItems: seq<seq<(string, Value)>>) returns (lines: seq<LineItem>)
      ensures lines == WooItems(db.State(), lineItems)
    {
      ghost var s := db.State();
      lines := [];
      for i := 0 to |lineItems|
        invariant lines == WooItems(s, lineItems[..i])
      {
        WooItemsSnoc(s, lineItems, i);
        var line := BuildWooLine(lineItems[i]);
        lines := lines + [line];
      }
      assert lineItems[..|lineItems|] == lineItems;
    }

    /** The header and billing writes of a WooCommerce order. */
    method WriteWooCustomer(o: WooOrder, id: int, ghost s0: StoreState, ghost m: map<string, Meta>)
      requires db.State() == WithMeta(s0, id, m)
      modifies db
      ensures db.State() == WithMeta(s0, id, WooCustomerMeta(WooHeader(m, o), o))
    {
      ghost var cur := m;
      var status := WooStatus(o.status).Name();
      db.WriteMeta(id, "_woocommerce_original_order_id", Plain(Int(o.id)), s0, cur);
      cur := cur["_woocommerce_original_order_id" := Plain(Int(o.id))];
      db.WriteMeta(id, "_store_order_status", Plain(Str(status)), s0, cur);
      cur := cur["_store_order_status" := Plain(Str(status))];
      var name := JoinTrimmed(Single(o.meta, "_billing_first_name"), Single(o.meta, "_billing_last_name"));
      var address := JoinTrimmed(Single(o.meta, "_billing_address_1"), Single(o.meta, "_billing_address_2"));
      db.WriteMeta(id, "_store_order_customer_name", Plain(Str(name)), s0, cur);
      cur := cur["_store_order_customer_name" := Plain(Str(name))];
      db.WriteMeta(id, "_store_order_email", Plain(Single(o.meta, "_billing_email")), s0, cur);
      cur := cur["_store_order_email" := Plain(Single(o.meta, "_billing_email"))];
      db.WriteMeta(id, "_store_order_phone", Plain(Single(o.meta, "_billing_phone")), s0, cur);
      cur := cur["_store_order_phone" := Plain(Single(o.meta, "_billing_phone"))];
      db.WriteMeta(id, "_store_order_address", Plain(Str(address)), s0, cur);
      cur := cur["_store_order_address" := Plain(Str(address))];
      db.WriteMeta(id, "_store_order_city_name", Plain(Single(o.meta, "_billing_city")), s0, cur);
      cur := cur["_store_order_city_name" := Plain(Single(o.meta, "_billing_city"))];
      db.WriteMeta(id, "_store_order_province_name", Plain(Single(o.meta, "_billing_state")), s0, cur);
      cur := cur["_store_order_province_name" := Plain(Single(o.meta, "_billing_state"))];
      db.WriteMeta(id, "_store_order_postal_code", Plain(Single(o.meta, "_billing_postcode")), s0, cur);
    }

    /** The meta writes of a WooCommerce order: header and billing, shipping and payment, the
        items resolved against the store as it is then, and the total. */
    method WriteWooOrderMeta(o: WooOrder, id: int)
      modifies db
      ensures db.State() == WithMeta(old(db.State()), id, WooOrderMeta(old(db.State()), id, o))
    {
      ghost var s0 := db.State();
      ghost var m := MetaOf(s0, id);
      WithOwnMeta(s0, id);
      WriteWooCustomer(o, id, s0, m);
      m := WooCustomerMeta(WooHeader(m, o), o);
      var shippingTotal := ToReal(Single(o.meta, "_shipping_total"));
      db.WriteMeta(id, "_store_order_shipping_courier", Plain(Single(o.meta, "_shipping_method")), s0, m);
      m := m["_store_order_shipping_courier" := Plain(Single(o.meta, "_shipping_method"))];
      db.WriteMeta(id, "_store_order_shipping_service", Plain(Str("")), s0, m);
      m := m["_store_order_shipping_service" := Plain(Str(""))];
      db.WriteMeta(id, "_store_order_shipping_cost", Money(shippingTotal), s0, m);
      m := m["_store_order_shipping_cost" := Money(shippingTotal)];
      db.WriteMeta(id, "_store_order_payment_method", Plain(Single(o.meta, "_payment_method")), s0, m);
      m := m["_store_order_payment_method" := Plain(Single(o.meta, "_payment_method"))];
      var items := CollectWooItems(o.lineItems);
      db.WriteMeta(id, "_store_order_items", Items(items), s0, m);
      m := m["_store_order_items" := Items(items)];
      db.WriteMeta(id, "_store_order_total", Money(ToReal(Single(o.meta, "_order_total"))), s0, m);
    }

    /** The body of the `migrate_woocommerce_orders` loop for one order: skipped when a
        migrated order records its id; otherwise inserted and, when the insert succeeded,
        given its meta and counted. */
    method MigrateWooCommerceOrder(o: WooOrder) returns (counted: bool)
      modifies db
      ensures Step(db.State(), counted, None) == WooOrderStep(db.env, old(db.State()), o)
    {
      var existing := db.FindPostId("store_order", "_woocommerce_original_order_id", Int(o.id));
      if existing != 0 {
        return false;
      }
      var id := db.InsertPost(WooOrderData(o));
      if id == 0 {
        return false;
      }
      WriteWooOrderMeta(o, id);
      counted := true;
    }

    /** `migrate_woocommerce_orders`: every listed `shop_order` migrated in turn and counted
        when its insert succeeded. */
    method MigrateWooCommerceOrders() returns (count: nat)
      modifies db
      ensures Stage(db.State(), count, None) == WooOrdersStage(db.env, old(db.State()), ListedOrders(legacy.wooOrders))
    {
      var os := ListedOrders(legacy.wooOrders);
      ghost var s0 := db.State();
      count := 0;
      for i := 0 to |os|
        invariant Stage(db.State(), count, None) == WooOrdersStage(db.env, s0, os[..i])
      {
        WooOrdersStageSnoc(db.env, s0, os, i);
        var counted := MigrateWooCommerceOrder(os[i]);
        if counted {
          count := count + 1;
        }
      }
      assert os[..|os|] == os;
    }

    /** `run($source)`: "woocommerce" runs the WooCommerce stages, anything else the Velocity
        ones; the first exception is caught and reported with its file and line, and the
        counts of the stages that did not finish stay 0. */
    method Run(source: string) returns (r: RunResult)
      requires Valid()
      modifies db
      ensures (db.State(), r) == Migration(db.env, legacy, rank, source, old(db.State()))
    {
      var products: nat;
      var thrown: Option<Thrown>;
      if source == "woocommerce" {
        products, thrown := MigrateWooCommerceProducts();
        if thrown.Some? {
          return RunResult(0, 0, [ErrorEntry(db.env, thrown.value)]);
        }
        var orders := MigrateWooCommerceOrders();
        return RunResult(products, orders, []);
      }
      products, thrown := MigrateProducts();
      if thrown.Some? {
        return RunResult(0, 0, [ErrorEntry(db.env, thrown.value)]);
      }
      var orders: nat;
      orders, thrown := MigrateOrders();
      if thrown.Some? {
        return RunResult(products, 0, [ErrorEntry(db.env, thrown.value)]);
      }
      return RunResult(products, orders, []);
    }
  }
}