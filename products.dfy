/**
 * Product migration, as functions of the store: which meta a migrated product receives
 * (`migrate_product_meta`, `migrate_product_images` and their WooCommerce counterparts),
 * one product's migration step, and the whole product stage.
 */
module Products {
  import opened Wrappers
  import opened Php
  import opened Rules
  import opened Wp
  import opened Source
  import opened Taxonomy

  /** The source `run` migrates from. */
  datatype Variant = Velocity | WooCommerce

  /** The meta a sequence of writes leaves on a post, and the exception that cut it short. */
  datatype MetaOutcome = MetaOutcome(meta: map<string, Meta>, thrown: Option<Thrown>)

  /** One source record's migration: the store after it, whether it was counted, and the
      exception it raised. */
  datatype Step = Step(state: StoreState, counted: bool, thrown: Option<Thrown>)

  /** A whole stage: the store after it, its count, and the exception that ended it. */
  datatype Stage = Stage(state: StoreState, count: nat, thrown: Option<Thrown>)

  const StrtotimeTypeError: string := "strtotime(): Argument #1 ($datetime) must be of type string, array given"
  const ExplodeTypeError: string := "explode(): Argument #2 ($string) must be of type string, array given"
  const IllegalOffsetError: string := "Illegal offset type"
  const FlashsaleFormat: string := "Y-m-d\\TH:i"

  /** The source taxonomy each variant reads a product's categories from. */
  function ProductTaxonomy(v: Variant): string {
    if v.Velocity? then "category-product" else "product_cat"
  }

  /** The meta key recording a migrated product's source id. */
  function ProductProvenance(v: Variant): string {
    if v.Velocity? then "_velocity_original_id" else "_woocommerce_original_id"
  }

  /** The Velocity meta keys copied as they are, source key first. */
  const VelocityFields: seq<(string, string)> := [
    ("sku", "_store_sku"), ("harga", "_store_price"), ("harga_promo", "_store_sale_price"),
    ("minorder", "_store_min_order"), ("berat", "_store_weight_kg"), ("stok", "_store_stock"),
    ("label", "_store_label")]

  /** The WooCommerce meta keys copied as they are, source key first. */
  const WooFields: seq<(string, string)> := [
    ("_sku", "_store_sku"), ("_price", "_store_price"), ("_sale_price", "_store_sale_price"),
    ("_weight", "_store_weight_kg")]

  // ---------------------------------------------------------------------------
  // Copying fields

  predicate DistinctTargets(fields: seq<(string, string)>) {
    forall i, j :: 0 <= i < j < |fields| ==> fields[i].1 != fields[j].1
  }

  /** Key `k` is in `r` exactly when it is in `m`, with the same value. */
  predicate Keeps(m: map<string, Meta>, r: map<string, Meta>, k: string) {
    (k in r <==> k in m) && (k in m ==> r[k] == m[k])
  }

  /** The copy rule for field `f`: the target key holds the source value when that value is
      not '', and is left as it was otherwise. */
  predicate Copied(r: map<string, Meta>, m: map<string, Meta>, meta: map<string, seq<Value>>, f: (string, string)) {
    if Single(meta, f.0) != Str("") then f.1 in r && r[f.1] == Plain(Single(meta, f.0)) else Keeps(m, r, f.1)
  }

  /** The field-copy loop: each source value that is not '' written under its target key. */
  function CopyFields(m: map<string, Meta>, meta: map<string, seq<Value>>, fields: seq<(string, string)>)
    : map<string, Meta>
    decreases |fields|
  {
    if fields == [] then m
    else
      var (from, to) := fields[|fields| - 1];
      var r := CopyFields(m, meta, fields[..|fields| - 1]);
      if Single(meta, from) != Str("") then r[to := Plain(Single(meta, from))] else r
  }

  /** A key that is no field's target is left alone by the copy. */
  lemma {:induction false} CopyFieldsKeeps(m: map<string, Meta>, meta: map<string, seq<Value>>,
                                           fields: seq<(string, string)>, k: string)
    requires forall i :: 0 <= i < |fields| ==> fields[i].1 != k
    ensures Keeps(m, CopyFields(m, meta, fields), k)
    decreases |fields|
  {
    if fields != [] {
      var init := fields[..|fields| - 1];
      assert forall i :: 0 <= i < |init| ==> init[i] == fields[i];
      CopyFieldsKeeps(m, meta, init, k);
    }
  }

  /** With distinct targets, every field obeys the copy rule. */
  lemma {:induction false} CopyFieldsCopied(m: map<string, Meta>, meta: map<string, seq<Value>>,
                                            fields: seq<(string, string)>, i: nat)
    requires DistinctTargets(fields) && i < |fields|
    ensures Copied(CopyFields(m, meta, fields), m, meta, fields[i])
    decreases |fields|
  {
    var init := fields[..|fields| - 1];
    assert forall j :: 0 <= j < |init| ==> init[j] == fields[j];
    if i == |fields| - 1 {
      CopyFieldsKeeps(m, meta, init, fields[i].1);
    } else {
      CopyFieldsCopied(m, meta, init, i);
    }
  }

  // ---------------------------------------------------------------------------
  // Velocity products

  /** `strtotime` is handed an array: the flash-sale value is truthy and an array. */
  predicate FlashsaleThrows(p: SourceProduct) {
    Truthy(Single(p.meta, "flashsale")) && Single(p.meta, "flashsale").Arr?
  }

  /** The keys `migrate_product_meta` writes after the field copy. */
  predicate RestKey(k: string) {
    k == "_store_flashsale_until" || k == "_velocity_original_id" || k == "_store_product_type" ||
    k == "_store_option_name" || k == "_store_options" || k == "_store_option2_name" ||
    k == "_store_advanced_options"
  }

  /** The keys the image migration writes. */
  predicate ImageKey(k: string) {
    k == "_thumbnail_id" || k == "_store_gallery_ids"
  }

  /** The option names and lists of `migrate_product_meta`: a truthy option name, a non-empty
      list of standard options, and the priced options when any row parses. */
  function OptionsMeta(m: map<string, Meta>, p: SourceProduct): map<string, Meta> {
    var nama := Single(p.meta, "namaopsi");
    var m1 := if Truthy(nama) then m["_store_option_name" := Plain(nama)] else m;
    var standard := Multi(p.meta, "opsistandart");
    var m2 := if standard != [] then m1["_store_options" := Plain(Arr(standard))] else m1;
    var nama2 := Single(p.meta, "namaopsi2");
    var m3 := if Truthy(nama2) then m2["_store_option2_name" := Plain(nama2)] else m2;
    var options := AdvancedOptions(Multi(p.meta, "opsiharga"));
    if options != [] then m3["_store_advanced_options" := OptionList(options)] else m3
  }

  /** The writes of `migrate_product_meta` after the field copy: the flash-sale date, the
      provenance and type, then the options. An array flash-sale value throws before
      anything after it is written. */
  function VelocityRest(env: Env, m: map<string, Meta>, p: SourceProduct): (out: MetaOutcome)
    ensures out.thrown.Some? <==> FlashsaleThrows(p)
    ensures out.thrown.Some? ==> out == MetaOutcome(m, Some(Thrown(StrtotimeTypeError, 113)))
  {
    var flash := Single(p.meta, "flashsale");
    if Truthy(flash) && flash.Arr? then MetaOutcome(m, Some(Thrown(StrtotimeTypeError, 113)))
    else
      var m1 := if Truthy(flash) then m["_store_flashsale_until" := Plain(Str(env.formatDate(FlashsaleFormat, flash)))] else m;
      var m2 := m1["_velocity_original_id" := Plain(Int(p.id))]["_store_product_type" := Plain(Str("physical"))];
      MetaOutcome(OptionsMeta(m2, p), None)
  }

  /** The keys the option writes may touch. */
  predicate OptionKey(k: string) {
    k == "_store_option_name" || k == "_store_options" || k == "_store_option2_name" || k == "_store_advanced_options"
  }

  lemma OptionsKeeps(m: map<string, Meta>, p: SourceProduct, k: string)
    requires !OptionKey(k)
    ensures Keeps(m, OptionsMeta(m, p), k)
  {
  }

  /** The writes after the field copy touch no other key. */
  lemma RestKeeps(env: Env, m: map<string, Meta>, p: SourceProduct, k: string)
    requires !RestKey(k)
    ensures Keeps(m, VelocityRest(env, m, p).meta, k)
  {
    if !FlashsaleThrows(p) {
      var flash := Single(p.meta, "flashsale");
      var m1 := if Truthy(flash) then m["_store_flashsale_until" := Plain(Str(env.formatDate(FlashsaleFormat, flash)))] else m;
      var m2 := m1["_velocity_original_id" := Plain(Int(p.id))]["_store_product_type" := Plain(Str("physical"))];
      OptionsKeeps(m2, p, k);
    }
  }

  /** A Velocity product that does not throw records its source id and the physical type. */
  lemma RestProvenance(env: Env, m: map<string, Meta>, p: SourceProduct)
    requires !FlashsaleThrows(p)
    ensures var r := VelocityRest(env, m, p).meta;
      && "_velocity_original_id" in r && r["_velocity_original_id"] == Plain(Int(p.id))
      && "_store_product_type" in r && r["_store_product_type"] == Plain(Str("physical"))
  {
    var flash := Single(p.meta, "flashsale");
    var m1 := if Truthy(flash) then m["_store_flashsale_until" := Plain(Str(env.formatDate(FlashsaleFormat, flash)))] else m;
    var m2 := m1["_velocity_original_id" := Plain(Int(p.id))]["_store_product_type" := Plain(Str("physical"))];
    OptionsKeeps(m2, p, "_velocity_original_id");
    OptionsKeeps(m2, p, "_store_product_type");
  }

  /** The option names are copied only when truthy, the standard options only when there
      are any, and the priced options only when any row parses. */
  lemma OptionsWrites(m: map<string, Meta>, p: SourceProduct)
    ensures var r := OptionsMeta(m, p);
      && (Truthy(Single(p.meta, "namaopsi")) ==> r["_store_option_name"] == Plain(Single(p.meta, "namaopsi")))
      && (!Truthy(Single(p.meta, "namaopsi")) ==> Keeps(m, r, "_store_option_name"))
      && (Truthy(Single(p.meta, "namaopsi2")) ==> r["_store_option2_name"] == Plain(Single(p.meta, "namaopsi2")))
      && (!Truthy(Single(p.meta, "namaopsi2")) ==> Keeps(m, r, "_store_option2_name"))
      && (Multi(p.meta, "opsistandart") != [] ==> r["_store_options"] == Plain(Arr(Multi(p.meta, "opsistandart"))))
      && (Multi(p.meta, "opsistandart") == [] ==> Keeps(m, r, "_store_options"))
      && (AdvancedOptions(Multi(p.meta, "opsiharga")) != [] ==>
            r["_store_advanced_options"] == OptionList(AdvancedOptions(Multi(p.meta, "opsiharga"))))
      && (AdvancedOptions(Multi(p.meta, "opsiharga")) == [] ==> Keeps(m, r, "_store_advanced_options"))
  {
  }

  /** A truthy, non-array flash-sale value is stored reformatted. */
  lemma RestFlashsale(env: Env, m: map<string, Meta>, p: SourceProduct)
    requires Truthy(Single(p.meta, "flashsale")) && !FlashsaleThrows(p)
    ensures VelocityRest(env, m, p).meta["_store_flashsale_until"] ==
      Plain(Str(env.formatDate(FlashsaleFormat, Single(p.meta, "flashsale"))))
  {
    var flash := Single(p.meta, "flashsale");
    var m1 := m["_store_flashsale_until" := Plain(Str(env.formatDate(FlashsaleFormat, flash)))];
    var m2 := m1["_velocity_original_id" := Plain(Int(p.id))]["_store_product_type" := Plain(Str("physical"))];
    OptionsKeeps(m2, p, "_store_flashsale_until");
  }

  /** `migrate_product_meta`: the field copy, then the remaining writes. */
  function VelocityMeta(env: Env, m: map<string, Meta>, p: SourceProduct): (out: MetaOutcome)
    ensures out.thrown.Some? <==> FlashsaleThrows(p)
  {
    VelocityRest(env, CopyFields(m, p.meta, VelocityFields), p)
  }

  /** `set_post_thumbnail` on the meta of the new post. */
  function ThumbnailMeta(env: Env, m: map<string, Meta>, thumb: int): map<string, Meta> {
    if thumb != 0 && env.isImage(thumb) then m["_thumbnail_id" := Plain(Int(thumb))] else m
  }

  /** The gallery meta written when the gallery has any resolvable image. */
  function GalleryMeta(env: Env, m: map<string, Meta>, ids: seq<Value>): map<string, Meta> {
    var g := GalleryOf(env.attachmentUrl, ids);
    if g == [] then m else m["_store_gallery_ids" := Gallery(g)]
  }

  /** The Velocity gallery loop meets an array id that resolves, and stops there. */
  predicate VelocityGalleryThrows(env: Env, p: SourceProduct) {
    GalleryKeyThrows(env.attachmentUrl, NormalizeGalleryIds(Multi(p.meta, "gallery")))
  }

  /** `migrate_product_images`: the thumbnail, then the gallery of the (unwrapped) `gallery`
      ids that have a URL; an array id that resolves throws before the gallery is written. */
  function VelocityImagesMeta(env: Env, m: map<string, Meta>, p: SourceProduct): (out: MetaOutcome)
    ensures out.thrown.Some? <==> VelocityGalleryThrows(env, p)
    ensures out.thrown.Some? ==>
      out == MetaOutcome(ThumbnailMeta(env, m, p.thumbnail), Some(Thrown(IllegalOffsetError, 239)))
  {
    var m1 := ThumbnailMeta(env, m, p.thumbnail);
    var ids := NormalizeGalleryIds(Multi(p.meta, "gallery"));
    if ids == [] then MetaOutcome(m1, None)
    else if GalleryKeyThrows(env.attachmentUrl, ids) then MetaOutcome(m1, Some(Thrown(IllegalOffsetError, 239)))
    else MetaOutcome(GalleryMeta(env, m1, ids), None)
  }

  lemma VelocityImagesKeeps(env: Env, m: map<string, Meta>, p: SourceProduct, k: string)
    requires !ImageKey(k)
    ensures Keeps(m, VelocityImagesMeta(env, m, p).meta, k)
  {
  }

  // ---------------------------------------------------------------------------
  // WooCommerce products

  /** The meta writes of the WooCommerce product loop before its terms: the field copy, the
      stock when stock is managed and set, then type and provenance. */
  function WooMeta(m: map<string, Meta>, p: SourceProduct): map<string, Meta> {
    var m1 := CopyFields(m, p.meta, WooFields);
    var stock := Single(p.meta, "_stock");
    var m2 := if Single(p.meta, "_manage_stock") == Str("yes") && stock != Str("") then m1["_store_stock" := Plain(stock)] else m1;
    m2["_store_product_type" := Plain(Str("physical"))]["_woocommerce_original_id" := Plain(Int(p.id))]
  }

  /** The stock is copied exactly when stock is managed and set; type and provenance are
      always written. */
  lemma WooMetaWrites(m: map<string, Meta>, p: SourceProduct)
    ensures var r := WooMeta(m, p);
      && ("_store_stock" in r <==>
            "_store_stock" in CopyFields(m, p.meta, WooFields) ||
            (Single(p.meta, "_manage_stock") == Str("yes") && Single(p.meta, "_stock") != Str("")))
      && (Single(p.meta, "_manage_stock") == Str("yes") && Single(p.meta, "_stock") != Str("") ==>
            r["_store_stock"] == Plain(Single(p.meta, "_stock")))
      && "_woocommerce_original_id" in r && r["_woocommerce_original_id"] == Plain(Int(p.id))
      && "_store_product_type" in r && r["_store_product_type"] == Plain(Str("physical"))
  {
  }

  /** Integer ids as PHP values. */
  function IntValues(ids: seq<int>): (vs: seq<Value>)
    ensures |vs| == |ids| && forall i :: 0 <= i < |ids| ==> vs[i] == Int(ids[i])
  {
    seq(|ids|, i requires 0 <= i < |ids| => Int(ids[i]))
  }

  /** `_product_image_gallery` makes `explode` throw: it is truthy and an array. */
  predicate GalleryThrows(p: SourceProduct) {
    Truthy(Single(p.meta, "_product_image_gallery")) && Single(p.meta, "_product_image_gallery").Arr?
  }

  /** The WooCommerce gallery: the comma-separated ids of `_product_image_gallery` that have a
      URL; an array there makes `explode` throw. */
  function WooGallery(env: Env, m: map<string, Meta>, gallery: Value): (out: MetaOutcome)
    ensures out.thrown.Some? <==> Truthy(gallery) && gallery.Arr?
    ensures out.thrown.Some? ==> out.thrown.value == Thrown(ExplodeTypeError, 324)
  {
    if !Truthy(gallery) then MetaOutcome(m, None)
    else
      match StringArg(gallery)
      case None => MetaOutcome(m, Some(Thrown(ExplodeTypeError, 324)))
      case Some(text) =>
        var ids := WooGalleryIds(text);
        if ids == [] then MetaOutcome(m, None) else MetaOutcome(GalleryMeta(env, m, IntValues(ids)), None)
  }

  /** The WooCommerce images: the thumbnail, then the gallery. */
  function WooImagesMeta(env: Env, m: map<string, Meta>, p: SourceProduct): (out: MetaOutcome)
    ensures out.thrown.Some? <==> GalleryThrows(p)
    ensures out.thrown.Some? ==> out.thrown.value == Thrown(ExplodeTypeError, 324)
  {
    WooGallery(env, ThumbnailMeta(env, m, p.thumbnail), Single(p.meta, "_product_image_gallery"))
  }

  lemma WooGalleryKeeps(env: Env, m: map<string, Meta>, gallery: Value, k: string)
    requires k != "_store_gallery_ids"
    ensures Keeps(m, WooGallery(env, m, gallery).meta, k)
  {
  }

  lemma WooImagesKeeps(env: Env, m: map<string, Meta>, p: SourceProduct, k: string)
    requires !ImageKey(k)
    ensures Keeps(m, WooImagesMeta(env, m, p).meta, k)
  {
    WooGalleryKeeps(env, ThumbnailMeta(env, m, p.thumbnail), Single(p.meta, "_product_image_gallery"), k);
  }

  // ---------------------------------------------------------------------------
  // Steps and stages

  /** The post a migrated product is created with. */
  function ProductData(p: SourceProduct): PostData {
    PostData("store_product", p.title, p.content, p.excerpt, p.status, p.author, p.date)
  }

  /** The product's categories: its source terms reconciled, and the non-zero ids set on the
      new post when there is any. */
  function CategoriesStep(env: Env, src: map<int, SourceTerm>, ghost rank: map<int, nat>,
                          v: Variant, s: StoreState, newId: int, p: SourceProduct): StoreState
    requires Ranked(src, rank)
  {
    var (terms, ids) := Reconcile(env, src, rank, s.terms, TermsOf(src, p, ProductTaxonomy(v)));
    var s1 := s.(terms := terms);
    if ids != [] then AfterSetCategories(s1, newId, ids) else s1
  }

  /** The Velocity product loop after `wp_insert_post` returned `newId`: the meta (which may
      throw), then the categories and the images (which may throw). */
  function VelocityAfterInsert(env: Env, src: map<int, SourceTerm>, ghost rank: map<int, nat>,
                               s: StoreState, newId: int, p: SourceProduct): Step
    requires Ranked(src, rank)
  {
    var out := VelocityMeta(env, MetaOf(s, newId), p);
    var s1 := WithMeta(s, newId, out.meta);
    if out.thrown.Some? then Step(s1, false, out.thrown)
    else
      var s2 := CategoriesStep(env, src, rank, Velocity, s1, newId, p);
      var img := VelocityImagesMeta(env, MetaOf(s2, newId), p);
      Step(WithMeta(s2, newId, img.meta), img.thrown.None?, img.thrown)
  }

  /** The WooCommerce product loop after `wp_insert_post` returned `newId`: the meta, the
      categories, then the images (which may throw). */
  function WooAfterInsert(env: Env, src: map<int, SourceTerm>, ghost rank: map<int, nat>,
                          s: StoreState, newId: int, p: SourceProduct): Step
    requires Ranked(src, rank)
  {
    var s1 := WithMeta(s, newId, WooMeta(MetaOf(s, newId), p));
    var s2 := CategoriesStep(env, src, rank, WooCommerce, s1, newId, p);
    var out := WooImagesMeta(env, MetaOf(s2, newId), p);
    Step(WithMeta(s2, newId, out.meta), out.thrown.None?, out.thrown)
  }

  /** Everything the product loop does after `wp_insert_post` returned `newId`. */
  function AfterInsert(env: Env, src: map<int, SourceTerm>, ghost rank: map<int, nat>,
                       v: Variant, s: StoreState, newId: int, p: SourceProduct): Step
    requires Ranked(src, rank)
  {
    match v
    case Velocity => VelocityAfterInsert(env, src, rank, s, newId, p)
    case WooCommerce => WooAfterInsert(env, src, rank, s, newId, p)
  }

  /** One product: skipped when a migrated product already records its id; otherwise
      inserted and, when the insert succeeded, given its meta, categories and images. */
  function ProductStep(env: Env, src: map<int, SourceTerm>, ghost rank: map<int, nat>,
                       v: Variant, s: StoreState, p: SourceProduct): Step
    requires Ranked(src, rank)
  {
    if FindPost(s, "store_product", ProductProvenance(v), Int(p.id)) != 0 then Step(s, false, None)
    else
      var (s1, newId) := AfterInsertPost(env, s, ProductData(p));
      if newId == 0 then Step(s1, false, None)
      else AfterInsert(env, src, rank, v, s1, newId, p)
  }

  /** The product loop as the source writes it: the success test cannot see a refused
      insert, so the migration goes ahead with post id 0 and is counted. */
  function ProductStepAsWritten(env: Env, src: map<int, SourceTerm>, ghost rank: map<int, nat>,
                                v: Variant, s: StoreState, p: SourceProduct): Step
    requires Ranked(src, rank)
  {
    if FindPost(s, "store_product", ProductProvenance(v), Int(p.id)) != 0 then Step(s, false, None)
    else
      var (s1, newId) := AfterInsertPost(env, s, ProductData(p));
      AfterInsert(env, src, rank, v, s1, newId, p)
  }

  /** The product stage over the listed products, stopping at the first exception. */
  function ProductsStage(env: Env, src: map<int, SourceTerm>, ghost rank: map<int, nat>,
                         v: Variant, s: StoreState, ps: seq<SourceProduct>): Stage
    requires Ranked(src, rank)
    decreases |ps|
  {
    if ps == [] then Stage(s, 0, None)
    else
      var prev := ProductsStage(env, src, rank, v, s, ps[..|ps| - 1]);
      if prev.thrown.Some? then prev
      else
        var step := ProductStep(env, src, rank, v, prev.state, ps[|ps| - 1]);
        Stage(step.state, prev.count + (if step.counted then 1 else 0), step.thrown)
  }

  /** The stage over one more product: the previous stage followed by that product's step. */
  lemma ProductsStageSnoc(env: Env, src: map<int, SourceTerm>, rank: map<int, nat>,
                          v: Variant, s: StoreState, ps: seq<SourceProduct>, i: nat)
    requires Ranked(src, rank) && i < |ps|
    requires ProductsStage(env, src, rank, v, s, ps[..i]).thrown.None?
    ensures var prev := ProductsStage(env, src, rank, v, s, ps[..i]);
      var step := ProductStep(env, src, rank, v, prev.state, ps[i]);
      ProductsStage(env, src, rank, v, s, ps[..i + 1]) ==
        Stage(step.state, prev.count + (if step.counted then 1 else 0), step.thrown)
  {
    assert ps[..i + 1][..i] == ps[..i];
  }

  /** Once a prefix of the products has thrown, the stage ends there. */
  lemma {:induction false} ProductsStageStops(env: Env, src: map<int, SourceTerm>, rank: map<int, nat>,
                                              v: Variant, s: StoreState, ps: seq<SourceProduct>, i: nat)
    requires Ranked(src, rank) && i <= |ps|
    requires ProductsStage(env, src, rank, v, s, ps[..i]).thrown.Some?
    ensures ProductsStage(env, src, rank, v, s, ps) == ProductsStage(env, src, rank, v, s, ps[..i])
    decreases |ps|
  {
    if i < |ps| {
      var init := ps[..|ps| - 1];
      assert init[..i] == ps[..i];
      ProductsStageStops(env, src, rank, v, s, init, i);
    } else {
      assert ps[..i] == ps;
    }
  }

  // ---------------------------------------------------------------------------
  // What one product's migration leaves

  /** The meta a freshly inserted product ends with. */
  function NewProductMeta(env: Env, v: Variant, p: SourceProduct): map<string, Meta> {
    match v
    case Velocity =>
      var out := VelocityMeta(env, map[], p);
      if out.thrown.Some? then out.meta else VelocityImagesMeta(env, out.meta, p).meta
    case WooCommerce => WooImagesMeta(env, WooMeta(map[], p), p).meta
  }

  /** Migrating the product raises an exception. */
  predicate ProductThrows(env: Env, v: Variant, p: SourceProduct) {
    if v.Velocity? then FlashsaleThrows(p) || VelocityGalleryThrows(env, p) else GalleryThrows(p)
  }

  /** The product's categories are reconciled: always for WooCommerce, and for Velocity
      unless the meta migration threw first. */
  predicate CategoriesReached(v: Variant, p: SourceProduct) {
    v.WooCommerce? || !FlashsaleThrows(p)
  }

  /** The terms and category ids reconciling the product's categories gives. */
  function ProductCategories(env: Env, src: map<int, SourceTerm>, ghost rank: map<int, nat>,
                             v: Variant, terms: seq<TargetTerm>, p: SourceProduct): (seq<TargetTerm>, seq<int>)
    requires Ranked(src, rank)
  {
    Reconcile(env, src, rank, terms, TermsOf(src, p, ProductTaxonomy(v)))
  }

  /** The store after a successful insert: the new post is the last one, with no meta and
      no categories yet. */
  predicate Inserted(s: StoreState) {
    s.posts != [] && s.posts[|s.posts| - 1].meta == map[] && s.posts[|s.posts| - 1].categories == []
  }

  /** What migrating the product leaves, with the new post as the last post of `s`: the
      post's meta and categories, the terms, and the outcome. */
  predicate Leaves(env: Env, src: map<int, SourceTerm>, rank: map<int, nat>,
                   v: Variant, s: StoreState, p: SourceProduct, st: Step)
    requires Ranked(src, rank) && s.posts != []
  {
    var n := |s.posts|;
    var (terms, ids) := ProductCategories(env, src, rank, v, s.terms, p);
    && |st.state.posts| == n && st.state.posts[..n - 1] == s.posts[..n - 1]
    && st.state.posts[n - 1] ==
         Post(s.posts[n - 1].data, NewProductMeta(env, v, p), if CategoriesReached(v, p) then ids else [])
    && st.state.terms == (if CategoriesReached(v, p) then terms else s.terms)
    && (st.thrown.Some? <==> ProductThrows(env, v, p))
    && st.counted == !ProductThrows(env, v, p)
  }

  lemma VelocityShape(env: Env, src: map<int, SourceTerm>, rank: map<int, nat>, s: StoreState, p: SourceProduct)
    requires Ranked(src, rank) && Inserted(s)
    ensures Leaves(env, src, rank, Velocity, s, p, VelocityAfterInsert(env, src, rank, s, |s.posts|, p))
  {
    if FlashsaleThrows(p) {
      VelocityShapeThrown(env, src, rank, s, p);
    } else {
      VelocityShapeRuns(env, src, rank, s, p);
    }
  }

  lemma VelocityShapeThrown(env: Env, src: map<int, SourceTerm>, rank: map<int, nat>, s: StoreState, p: SourceProduct)
    requires Ranked(src, rank) && Inserted(s) && FlashsaleThrows(p)
    ensures Leaves(env, src, rank, Velocity, s, p, VelocityAfterInsert(env, src, rank, s, |s.posts|, p))
  {
    var n := |s.posts|;
    assert MetaOf(s, n) == map[];
    MetaOfWithMeta(s, n, VelocityMeta(env, map[], p).meta);
  }

  lemma VelocityShapeRuns(env: Env, src: map<int, SourceTerm>, rank: map<int, nat>, s: StoreState, p: SourceProduct)
    requires Ranked(src, rank) && Inserted(s) && !FlashsaleThrows(p)
    ensures Leaves(env, src, rank, Velocity, s, p, VelocityAfterInsert(env, src, rank, s, |s.posts|, p))
  {
    var n := |s.posts|;
    var ids := ProductCategories(env, src, rank, Velocity, s.terms, p).1;
    assert MetaOf(s, n) == map[];
    var out := VelocityMeta(env, map[], p);
    var s1 := WithMeta(s, n, out.meta);
    MetaOfWithMeta(s, n, out.meta);
    var s2 := CategoriesStep(env, src, rank, Velocity, s1, n, p);
    assert MetaOf(s2, n) == out.meta;
    assert s2.posts[n - 1] == Post(s.posts[n - 1].data, out.meta, ids);
    var img := VelocityImagesMeta(env, out.meta, p);
    assert VelocityAfterInsert(env, src, rank, s, n, p) == Step(WithMeta(s2, n, img.meta), img.thrown.None?, img.thrown);
  }

  lemma WooShape(env: Env, src: map<int, SourceTerm>, rank: map<int, nat>, s: StoreState, p: SourceProduct)
    requires Ranked(src, rank) && Inserted(s)
    ensures Leaves(env, src, rank, WooCommerce, s, p, WooAfterInsert(env, src, rank, s, |s.posts|, p))
  {
    var n := |s.posts|;
    var ids := ProductCategories(env, src, rank, WooCommerce, s.terms, p).1;
    assert MetaOf(s, n) == map[];
    var s1 := WithMeta(s, n, WooMeta(map[], p));
    MetaOfWithMeta(s, n, WooMeta(map[], p));
    var s2 := CategoriesStep(env, src, rank, WooCommerce, s1, n, p);
    assert MetaOf(s2, n) == WooMeta(map[], p);
    assert s2.posts[n - 1] == Post(s.posts[n - 1].data, WooMeta(map[], p), ids);
  }

  /** After a successful insert, the new post (the last one) receives its meta and categories,
      the terms grow by the reconciled ones, and nothing else changes. */
  lemma AfterInsertShape(env: Env, src: map<int, SourceTerm>, rank: map<int, nat>,
                         v: Variant, s: StoreState, p: SourceProduct)
    requires Ranked(src, rank) && Inserted(s)
    ensures Leaves(env, src, rank, v, s, p, AfterInsert(env, src, rank, v, s, |s.posts|, p))
  {
    match v
    case Velocity => VelocityShape(env, src, rank, s, p);
    case WooCommerce => WooShape(env, src, rank, s, p);
  }

  /** A product whose id a migrated product already records is skipped without any write. */
  lemma SkipMigrated(env: Env, src: map<int, SourceTerm>, rank: map<int, nat>,
                     v: Variant, s: StoreState, p: SourceProduct)
    requires Ranked(src, rank)
    requires FindPost(s, "store_product", ProductProvenance(v), Int(p.id)) != 0
    ensures ProductStep(env, src, rank, v, s, p) == Step(s, false, None)
  {
  }

  /** A refused insert writes nothing and is not counted. */
  lemma RefusedNotCounted(env: Env, src: map<int, SourceTerm>, rank: map<int, nat>,
                          v: Variant, s: StoreState, p: SourceProduct)
    requires Ranked(src, rank)
    requires !env.acceptPost(ProductData(p))
    ensures ProductStep(env, src, rank, v, s, p) == Step(s, false, None)
  {
  }

  /** A product that is not yet migrated and whose insert succeeds becomes a new post at the
      end of the store with the product's fields, its meta and its categories; the step is
      counted exactly when it does not throw. */
  lemma NewProduct(env: Env, src: map<int, SourceTerm>, rank: map<int, nat>,
                   v: Variant, s: StoreState, p: SourceProduct)
    requires Ranked(src, rank)
    requires FindPost(s, "store_product", ProductProvenance(v), Int(p.id)) == 0
    requires env.acceptPost(ProductData(p))
    ensures var st := ProductStep(env, src, rank, v, s, p);
      var (terms, ids) := ProductCategories(env, src, rank, v, s.terms, p);
      && st.state.posts ==
           s.posts + [Post(ProductData(p), NewProductMeta(env, v, p), if CategoriesReached(v, p) then ids else [])]
      && st.state.terms == (if CategoriesReached(v, p) then terms else s.terms)
      && (st.thrown.Some? <==> ProductThrows(env, v, p))
      && st.counted == !ProductThrows(env, v, p)
  {
    var s1 := AfterInsertPost(env, s, ProductData(p)).0;
    assert s1 == s.(posts := s.posts + [Post(ProductData(p), map[], [])]);
    AfterInsertShape(env, src, rank, v, s1, p);
    var st := ProductStep(env, src, rank, v, s, p);
    assert st == AfterInsert(env, src, rank, v, s1, |s1.posts|, p);
    assert s1.posts[..|s.posts|] == s.posts;
    assert st.state.posts == st.state.posts[..|s.posts|] + [st.state.posts[|s.posts|]];
  }

  /** One step only adds: it keeps every existing post and term, adds one post exactly when
      it counts or throws, and never both. */
  lemma StepShape(env: Env, src: map<int, SourceTerm>, rank: map<int, nat>,
                  v: Variant, s: StoreState, p: SourceProduct)
    requires Ranked(src, rank)
    ensures var st := ProductStep(env, src, rank, v, s, p);
      && Extends(s, st.state)
      && |st.state.posts| == |s.posts| + (if st.counted || st.thrown.Some? then 1 else 0)
      && !(st.counted && st.thrown.Some?)
  {
    if FindPost(s, "store_product", ProductProvenance(v), Int(p.id)) == 0 && env.acceptPost(ProductData(p)) {
      NewProduct(env, src, rank, v, s, p);
      var st := ProductStep(env, src, rank, v, s, p);
      assert st.state.posts[..|s.posts|] == s.posts;
      if CategoriesReached(v, p) {
        var terms := ProductCategories(env, src, rank, v, s.terms, p).0;
        assert Grows(s.terms, terms);
      } else {
        assert st.state.terms[..|s.terms|] == s.terms;
      }
    } else {
      assert s.posts[..|s.posts|] == s.posts && s.terms[..|s.terms|] == s.terms;
    }
  }

  // ---------------------------------------------------------------------------
  // The meta a new product ends with

  /** The value of field `f` a new product ends with: its source value when that is not '',
      and nothing otherwise. */
  predicate CopiedFresh(r: map<string, Meta>, meta: map<string, seq<Value>>, f: (string, string)) {
    (f.1 in r <==> Single(meta, f.0) != Str("")) && (f.1 in r ==> r[f.1] == Plain(Single(meta, f.0)))
  }

  lemma VelocityTargets(i: nat)
    requires i < |VelocityFields|
    ensures DistinctTargets(VelocityFields)
    ensures !RestKey(VelocityFields[i].1) && !ImageKey(VelocityFields[i].1)
  {
  }

  lemma WooTargets(i: nat)
    requires i < |WooFields|
    ensures DistinctTargets(WooFields)
    ensures !ImageKey(WooFields[i].1)
    ensures WooFields[i].1 != "_store_stock" && WooFields[i].1 != "_store_product_type"
    ensures WooFields[i].1 != "_woocommerce_original_id"
  {
  }

  /** Each mapped Velocity field of a new product holds its source value exactly when that
      value is not '', whatever else the migration does. */
  lemma VelocityFieldCopy(env: Env, p: SourceProduct, i: nat)
    requires i < |VelocityFields|
    ensures CopiedFresh(NewProductMeta(env, Velocity, p), p.meta, VelocityFields[i])
  {
    var f := VelocityFields[i];
    VelocityTargets(i);
    var m1 := CopyFields(map[], p.meta, VelocityFields);
    CopyFieldsCopied(map[], p.meta, VelocityFields, i);
    var out := VelocityRest(env, m1, p);
    RestKeeps(env, m1, p, f.1);
    VelocityImagesKeeps(env, out.meta, p, f.1);
  }

  /** Each mapped WooCommerce field of a new product holds its source value exactly when that
      value is not ''. */
  lemma WooFieldCopy(env: Env, p: SourceProduct, i: nat)
    requires i < |WooFields|
    ensures CopiedFresh(NewProductMeta(env, WooCommerce, p), p.meta, WooFields[i])
  {
    var f := WooFields[i];
    WooTargets(i);
    CopyFieldsCopied(map[], p.meta, WooFields, i);
    WooImagesKeeps(env, WooMeta(map[], p), p, f.1);
  }

  /** A new WooCommerce product has a stock exactly when stock is managed and set, and then
      it is the source stock. */
  lemma WooStock(env: Env, p: SourceProduct)
    ensures var r := NewProductMeta(env, WooCommerce, p);
      var managed := Single(p.meta, "_manage_stock") == Str("yes") && Single(p.meta, "_stock") != Str("");
      && ("_store_stock" in r <==> managed)
      && (managed ==> r["_store_stock"] == Plain(Single(p.meta, "_stock")))
  {
    assert forall i :: 0 <= i < |WooFields| ==> WooFields[i].1 != "_store_stock";
    CopyFieldsKeeps(map[], p.meta, WooFields, "_store_stock");
    WooMetaWrites(map[], p);
    WooImagesKeeps(env, WooMeta(map[], p), p, "_store_stock");
  }

  /** A new product records its source id under the variant's provenance key and has the
      physical type, unless the Velocity meta migration threw before writing them. */
  lemma NewProductProvenance(env: Env, v: Variant, p: SourceProduct)
    requires v.Velocity? ==> !FlashsaleThrows(p)
    ensures var r := NewProductMeta(env, v, p);
      && ProductProvenance(v) in r && r[ProductProvenance(v)] == Plain(Int(p.id))
      && "_store_product_type" in r && r["_store_product_type"] == Plain(Str("physical"))
  {
    match v
    case Velocity =>
      var m1 := CopyFields(map[], p.meta, VelocityFields);
      RestProvenance(env, m1, p);
      var r := VelocityRest(env, m1, p).meta;
      VelocityImagesKeeps(env, r, p, "_velocity_original_id");
      VelocityImagesKeeps(env, r, p, "_store_product_type");
    case WooCommerce =>
      WooMetaWrites(map[], p);
      WooImagesKeeps(env, WooMeta(map[], p), p, "_woocommerce_original_id");
      WooImagesKeeps(env, WooMeta(map[], p), p, "_store_product_type");
  }

  /** A new Velocity product has an option name exactly when the source name is truthy,
      and priced options exactly when some row parses. */
  lemma VelocityOptions(env: Env, p: SourceProduct)
    requires !FlashsaleThrows(p)
    ensures var r := NewProductMeta(env, Velocity, p);
      var nama := Single(p.meta, "namaopsi");
      var nama2 := Single(p.meta, "namaopsi2");
      var options := AdvancedOptions(Multi(p.meta, "opsiharga"));
      && ("_store_option_name" in r <==> Truthy(nama))
      && (Truthy(nama) ==> r["_store_option_name"] == Plain(nama))
      && ("_store_option2_name" in r <==> Truthy(nama2))
      && (Truthy(nama2) ==> r["_store_option2_name"] == Plain(nama2))
      && ("_store_advanced_options" in r <==> options != [])
      && (options != [] ==> r["_store_advanced_options"] == OptionList(options))
  {
    var m1 := CopyFields(map[], p.meta, VelocityFields);
    assert forall i :: 0 <= i < |VelocityFields| ==> !OptionKey(VelocityFields[i].1);
    CopyFieldsKeeps(map[], p.meta, VelocityFields, "_store_option_name");
    CopyFieldsKeeps(map[], p.meta, VelocityFields, "_store_option2_name");
    CopyFieldsKeeps(map[], p.meta, VelocityFields, "_store_advanced_options");
    var flash := Single(p.meta, "flashsale");
    var m2 := if Truthy(flash) then m1["_store_flashsale_until" := Plain(Str(env.formatDate(FlashsaleFormat, flash)))] else m1;
    var m3 := m2["_velocity_original_id" := Plain(Int(p.id))]["_store_product_type" := Plain(Str("physical"))];
    OptionsWrites(m3, p);
    var r := VelocityRest(env, m1, p).meta;
    assert r == OptionsMeta(m3, p);
    VelocityImagesKeeps(env, r, p, "_store_option_name");
    VelocityImagesKeeps(env, r, p, "_store_option2_name");
    VelocityImagesKeeps(env, r, p, "_store_advanced_options");
  }

  // ---------------------------------------------------------------------------
  // The product stage

  /** The stage only adds to the store; its count is the number of posts it added, plus the
      one left by a product that threw. */
  lemma {:induction false} StageGrowth(env: Env, src: map<int, SourceTerm>, rank: map<int, nat>,
                                       v: Variant, s: StoreState, ps: seq<SourceProduct>)
    requires Ranked(src, rank)
    ensures var st := ProductsStage(env, src, rank, v, s, ps);
      && Extends(s, st.state)
      && |st.state.posts| == |s.posts| + st.count + (if st.thrown.Some? then 1 else 0)
    decreases |ps|
  {
    if ps == [] {
      assert s.posts[..|s.posts|] == s.posts && s.terms[..|s.terms|] == s.terms;
    } else {
      var prev := ProductsStage(env, src, rank, v, s, ps[..|ps| - 1]);
      StageGrowth(env, src, rank, v, s, ps[..|ps| - 1]);
      if prev.thrown.None? {
        StepShape(env, src, rank, v, prev.state, ps[|ps| - 1]);
        var step := ProductStep(env, src, rank, v, prev.state, ps[|ps| - 1]);
        ExtendsTransitive(s, prev.state, step.state);
      }
    }
  }

  /** A product needs nothing more: a migrated product records its id, or the store refuses
      its insert. */
  predicate Settled(env: Env, v: Variant, t: StoreState, q: SourceProduct) {
    FindPost(t, "store_product", ProductProvenance(v), Int(q.id)) != 0 || !env.acceptPost(ProductData(q))
  }

  lemma SettledStable(env: Env, v: Variant, s: StoreState, t: StoreState, q: SourceProduct)
    requires Settled(env, v, s, q) && Extends(s, t)
    ensures Settled(env, v, t, q)
  {
    if FindPost(s, "store_product", ProductProvenance(v), Int(q.id)) != 0 {
      FindPostStable(s, t, "store_product", ProductProvenance(v), Int(q.id));
    }
  }

  /** A settled product's step changes nothing and is not counted. */
  lemma SettledStep(env: Env, src: map<int, SourceTerm>, rank: map<int, nat>,
                    v: Variant, s: StoreState, q: SourceProduct)
    requires Ranked(src, rank) && Settled(env, v, s, q)
    ensures ProductStep(env, src, rank, v, s, q) == Step(s, false, None)
  {
    if FindPost(s, "store_product", ProductProvenance(v), Int(q.id)) != 0 {
      SkipMigrated(env, src, rank, v, s, q);
    } else {
      RefusedNotCounted(env, src, rank, v, s, q);
    }
  }

  /** A listed product whose step does not throw is settled afterwards: the new post is a
      visible `store_product` carrying the provenance key the next query asks for. */
  lemma StepSettles(env: Env, src: map<int, SourceTerm>, rank: map<int, nat>,
                    v: Variant, s: StoreState, q: SourceProduct)
    requires Ranked(src, rank) && Visible(q.status)
    requires ProductStep(env, src, rank, v, s, q).thrown.None?
    ensures Settled(env, v, ProductStep(env, src, rank, v, s, q).state, q)
  {
    var key := ProductProvenance(v);
    if FindPost(s, "store_product", key, Int(q.id)) == 0 && env.acceptPost(ProductData(q)) {
      NewProduct(env, src, rank, v, s, q);
      NewProductProvenance(env, v, q);
      var t := ProductStep(env, src, rank, v, s, q).state;
      var post := t.posts[|s.posts|];
      assert post.data == ProductData(q) && post.meta == NewProductMeta(env, v, q);
      assert PostMatches(post, "store_product", key, Int(q.id));
    }
  }

  /** After a stage that did not throw, every listed product is settled. */
  lemma {:induction false} StageSettles(env: Env, src: map<int, SourceTerm>, rank: map<int, nat>,
                                        v: Variant, s: StoreState, ps: seq<SourceProduct>)
    requires Ranked(src, rank)
    requires forall q :: q in ps ==> Visible(q.status)
    requires ProductsStage(env, src, rank, v, s, ps).thrown.None?
    ensures forall q :: q in ps ==> Settled(env, v, ProductsStage(env, src, rank, v, s, ps).state, q)
    decreases |ps|
  {
    if ps != [] {
      var init := ps[..|ps| - 1];
      var last := ps[|ps| - 1];
      var prev := ProductsStage(env, src, rank, v, s, init);
      StageSettles(env, src, rank, v, s, init);
      StepShape(env, src, rank, v, prev.state, last);
      StepSettles(env, src, rank, v, prev.state, last);
      var step := ProductStep(env, src, rank, v, prev.state, last);
      assert ProductsStage(env, src, rank, v, s, ps).state == step.state;
      AllSettledStable(env, v, prev.state, step.state, init);
      InitLast(ps);
    }
  }

  /** Every element of a non-empty sequence is in its front or is its last element. */
  lemma InitLast<T>(xs: seq<T>)
    requires xs != []
    ensures forall x :: x in xs ==> x in xs[..|xs| - 1] || x == xs[|xs| - 1]
  {
    assert xs == xs[..|xs| - 1] + [xs[|xs| - 1]];
  }

  lemma AllSettledStable(env: Env, v: Variant, s: StoreState, t: StoreState, qs: seq<SourceProduct>)
    requires forall q :: q in qs ==> Settled(env, v, s, q)
    requires Extends(s, t)
    ensures forall q :: q in qs ==> Settled(env, v, t, q)
  {
    forall q | q in qs
      ensures Settled(env, v, t, q)
    {
      SettledStable(env, v, s, t, q);
    }
  }

  /** A stage over products that are all settled changes nothing and counts nothing. */
  lemma {:induction false} SettledStage(env: Env, src: map<int, SourceTerm>, rank: map<int, nat>,
                                        v: Variant, s: StoreState, ps: seq<SourceProduct>)
    requires Ranked(src, rank)
    requires forall q :: q in ps ==> Settled(env, v, s, q)
    ensures ProductsStage(env, src, rank, v, s, ps) == Stage(s, 0, None)
    decreases |ps|
  {
    if ps != [] {
      assert forall q :: q in ps[..|ps| - 1] ==> q in ps;
      SettledStage(env, src, rank, v, s, ps[..|ps| - 1]);
      SettledStep(env, src, rank, v, s, ps[|ps| - 1]);
    }
  }

  /** Running the product stage a second time over the same listed products migrates
      nothing: the migration is idempotent. */
  lemma StageIdempotent(env: Env, src: map<int, SourceTerm>, rank: map<int, nat>,
                        v: Variant, s: StoreState, ps: seq<SourceProduct>)
    requires Ranked(src, rank)
    requires forall q :: q in ps ==> Visible(q.status)
    requires ProductsStage(env, src, rank, v, s, ps).thrown.None?
    ensures var t := ProductsStage(env, src, rank, v, s, ps).state;
      ProductsStage(env, src, rank, v, t, ps) == Stage(t, 0, None)
  {
    StageSettles(env, src, rank, v, s, ps);
    SettledStage(env, src, rank, v, ProductsStage(env, src, rank, v, s, ps).state, ps);
  }

  // ---------------------------------------------------------------------------
  // The success test of `wp_insert_post`

  /** As written, a product whose insert the store refuses is still counted, and its terms are
      still reconciled; the corrected step neither writes nor counts it. */
  lemma RefusedInsertCounted(env: Env, src: map<int, SourceTerm>, rank: map<int, nat>,
                             v: Variant, s: StoreState, p: SourceProduct)
    requires Ranked(src, rank)
    requires FindPost(s, "store_product", ProductProvenance(v), Int(p.id)) == 0
    requires !env.acceptPost(ProductData(p)) && !ProductThrows(env, v, p)
    ensures ProductStepAsWritten(env, src, rank, v, s, p).counted
    ensures ProductStepAsWritten(env, src, rank, v, s, p).state.posts == s.posts
    ensures ProductStep(env, src, rank, v, s, p) == Step(s, false, None)
  {
    assert MetaOf(s, 0) == map[];
  }
}
