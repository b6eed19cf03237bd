# wp-store-import migrator, modelled in Dafny

This project models `Runner`, the migration engine of the wp-store-import WordPress plugin
(`src/Migrator/Runner.php`). `Runner::run($source)` copies a legacy shop into the plugin's own
"Store" schema and returns `{products, orders, errors}`. The legacy shop is either the custom
Velocity theme (`product` posts with Indonesian meta keys and a `wp_order` table whose `detail`
column is JSON) or WooCommerce (`product` and `shop_order` posts with their line-item tables).
The copy has these parts:

- Products become `store_product` posts. Their meta is mapped field by field, with special
  handling for the flash-sale date, the option lists and the WooCommerce stock. Their
  categories are reconciled into the `store_product_cat` taxonomy, parents first. Their
  thumbnail and gallery are carried over.
- Orders become `store_order` posts. The status is mapped, the customer and location fields
  are copied, the shipping descriptor `"JNE - REG - 15.000"` is parsed, and the items are
  resolved to the migrated products, with a price fallback for Velocity.
- Every migrated record stores the id it came from (`_velocity_original_id`,
  `_woocommerce_original_id`, `_velocity_original_invoice`, `_woocommerce_original_order_id`).
  A record whose provenance is already present is skipped, so a second run creates nothing.

The model has these layers:

| module | file | what it holds |
|---|---|---|
| `Php` | php.dfy | PHP semantics the migrator relies on: truthiness, `trim`, `explode`, the leading-number casts `(int)`/`(float)`, integer-to-string, and the `TypeError` PHP 8 raises for an array passed where a string is expected |
| `Rules` | rules.dfy | the pure rules: `label=price` option rows, the shipping descriptor, the two status maps, the gallery array, the WooCommerce gallery id list, and the Velocity and WooCommerce line items |
| `Wp` | wp.dfy | the WordPress back end as a value `StoreState` (posts with meta and categories, the target terms) and the `Database` class whose methods (`FindPostId`, `InsertPost`, `UpdateMeta`, …) change it in place; the collaborators the migrator cannot see are the parameters in `Env` |
| `Source` | source.dfy | the read-only legacy data (`Legacy`): products, source terms, the optional order table, WooCommerce orders |
| `Taxonomy` | taxonomy.dfy | `ensure_target_term` and the per-product term loop as functions, with their lemmas |
| `Products` | products.dfy | one product step and the product stage as functions, with shape, provenance and idempotence lemmas |
| `Orders` | orders.dfy | one order step and the order stage for both variants, paging of the order table, and the same kind of lemmas |
| `Migrator` | migrator.dfy | the `Runner` class, whose methods carry the loops of the PHP code and are each proved equal to the function that specifies them; `Migration` is the whole `run` |

Exceptions are values: a step returns `thrown: Option<Thrown>`, and `Thrown` records the
error class and the source line that raises it. The first exception ends the stage, and
`run` turns it into its single error entry, as the `try`/`catch` around both stages does.

When the plugin's design notes and the code disagree, the model follows the code, with one
exception:
- A product or order whose insert is refused is counted by the code (see Findings). The
  as-written steps (`Products.ProductStepAsWritten`, `Orders.VelocityOrderStepAsWritten`,
  `Orders.WooOrderStepAsWritten`) record this. `run` itself (`Migrator.Migration`,
  `Migrator.Runner.Run`) uses the corrected guard, which skips a refused insert.
- Parent terms are looked up in `category-product` for both variants, so a WooCommerce
  `product_cat` parent is never followed (`Source.ParentTaxonomy`).
- The meta copy can fail. `strtotime` on an array flash-sale value, and `explode` on an array
  shipping descriptor or gallery value, throw a `TypeError` that ends the run with partial
  results. So does a Velocity gallery id that is an array and whose URL resolves: it cannot
  be an array key (line 239).
- An exception in the product stage leaves `products` at 0, because the assignment to
  `$results['products']` never happens.

## Model

| member | source | states |
|---|---|---|
| Migrator.Runner.Run | src/Migrator/Runner.php:8-34 | the new store state and the result are exactly `Migration` of the old state: the source selects the variant, products then orders, and an exception becomes the one error entry with the counts reached so far |
| Migrator.SourceVariant | src/Migrator/Runner.php:22-28 | the WooCommerce routines run if and only if the source is exactly `"woocommerce"` |
| Migrator.DefaultSource | src/Migrator/Runner.php:8-28 | any source other than `"woocommerce"` migrates exactly as `"velocity"` does |
| Migrator.ErrorEntry | src/Migrator/Runner.php:29-31 | the error entry starts with the exception's message and is longer than it (the ` in file:line` suffix) |
| Migrator.Migration | src/Migrator/Runner.php:8-34 | a run records at most one error |
| Migrator.OrdersStage | src/Migrator/Runner.php:24-27 | the order stage of a run: `VelocityOrders` over the optional order table, or `WooOrdersStage` over the listed orders (defines the stage; `OrdersGrowth` and `OrdersIdempotent` state its properties) |
| Migrator.RunGrowth | src/Migrator/Runner.php:8-34 | a run only adds posts and terms, and a clean run adds exactly one post per counted product and order (one more when it threw) |
| Migrator.OrdersGrowth | src/Migrator/Runner.php:22-28 | the order stage of either variant only adds posts, one per counted order plus one when it threw |
| Migrator.OrdersIdempotent | src/Migrator/Runner.php:370-380 | when no invoice is an array, running the order stage again over its own result creates and counts nothing |
| Migrator.RunIdempotent | src/Migrator/Runner.php:8-34 | a second `run` over the state a clean run produced changes nothing and reports `{0, 0, []}` |
| Migrator.ThumbnailWrite | src/Migrator/Runner.php:224-227 | setting the thumbnail on a post whose meta is tracked is a meta write of `_thumbnail_id` when the attachment is an image, and no write otherwise |
| Migrator.Runner.constructor | src/Migrator/Runner.php:8-14 | the runner holds the database, the legacy data and the term ranking it was given |
| Migrator.Runner.MigrateProducts | src/Migrator/Runner.php:36-87 | the loop leaves the store and count of `ProductsStage` over the listed Velocity products, stopping at the first exception |
| Migrator.Runner.MigrateProduct | src/Migrator/Runner.php:50-81 | one product: skipped when already migrated, otherwise inserted and migrated exactly as `ProductStep`, the meta and the images each able to throw; a throwing product is not counted |
| Migrator.Runner.MigrateProductMeta | src/Migrator/Runner.php:89-174 | the meta of the new post becomes `VelocityMeta` of its old meta, and the method throws exactly when that does |
| Migrator.Runner.CopyMetaFields | src/Migrator/Runner.php:102-107 | each mapped field whose value is not `''` is copied to its new key, in map order |
| Migrator.Runner.WriteOptions | src/Migrator/Runner.php:123-173 | the option name, options, second option name and advanced options are written as `OptionsMeta` says |
| Migrator.Runner.CollectAdvancedOptions | src/Migrator/Runner.php:140-169 | the accumulated list equals `AdvancedOptions` of the `opsiharga` values |
| Migrator.Runner.CollectNestedOptions | src/Migrator/Runner.php:143-155 | the inner loop over a nested row appends exactly `NestedOptions` of it |
| Migrator.Runner.MigrateProductTaxonomies | src/Migrator/Runner.php:176-191 | the terms and the post's categories become `CategoriesStep` of the old state |
| Migrator.Runner.ReconcileTerms | src/Migrator/Runner.php:180-186 | the term loop leaves the terms and the non-zero id list of `Reconcile`, and no post changes |
| Migrator.Runner.EnsureTargetTerm | src/Migrator/Runner.php:193-220 | the returned term id and the new terms are those of `EnsureTerm`, and no post changes |
| Migrator.Runner.ReconcileSnoc | src/Migrator/Runner.php:181-186 | reconciling one more term extends the reconciled list by that term's id when it is non-zero |
| Migrator.Runner.MigrateProductImages | src/Migrator/Runner.php:222-247 | the new post's meta becomes `VelocityImagesMeta`: the thumbnail when set, then the gallery of the ids that have a URL when non-empty, and the method throws "Illegal offset type" exactly when a resolving gallery id is an array, before the gallery is written |
| Migrator.Runner.CollectGallery | src/Migrator/Runner.php:235-241 | the loop throws "Illegal offset type" (line 239) exactly when some id is an array whose URL, looked up by the id cast to int, resolves; otherwise the gallery array equals `GalleryOf` the ids |
| Migrator.Runner.MigrateWooCommerceProducts | src/Migrator/Runner.php:249-344 | the loop leaves the store and count of `ProductsStage` over the listed WooCommerce products |
| Migrator.Runner.MigrateWooCommerceProduct | src/Migrator/Runner.php:261-339 | one WooCommerce product migrated exactly as `ProductStep`; a throwing product is not counted |
| Migrator.Runner.WriteWooMeta | src/Migrator/Runner.php:284-304 | the meta becomes `WooMeta`: mapped fields, managed stock, type and provenance |
| Migrator.Runner.MigrateWooImages | src/Migrator/Runner.php:318-337 | the meta becomes `WooImagesMeta`, and the method throws exactly when the gallery value is an array |
| Migrator.Runner.MigrateOrders | src/Migrator/Runner.php:346-519 | the paged loop leaves the store and count of `VelocityOrders`: nothing without the table, else every row in table order until the first exception |
| Migrator.Runner.MigrateNextPage | src/Migrator/Runner.php:360-365 | an empty page ends the loop with nothing changed and is only read past the end; otherwise the state is the stage over one more page of rows |
| Migrator.Runner.MigrateOrderPage | src/Migrator/Runner.php:367-514 | the `foreach` over a page leaves the store and count of `VelocityOrdersFrom` of the page after the stage the page started from, stopping at the first exception |
| Migrator.Runner.MigrateOrder | src/Migrator/Runner.php:368-513 | one row migrated exactly as `VelocityOrderStep`; a throwing row is not counted |
| Migrator.Runner.WriteVelocityOrderMeta | src/Migrator/Runner.php:410-510 | the new order's meta becomes `VelocityOrderMeta`, and the method throws exactly when the shipping descriptor is an array |
| Migrator.Runner.WriteVelocityCustomer | src/Migrator/Runner.php:410-436 | the header, customer and location writes produce `LocationMeta(CustomerMeta(VelocityHeader(m)))` |
| Migrator.Runner.CollectVelocityItems | src/Migrator/Runner.php:460-503 | the item list equals `VelocityItems` of the detail's products against the current store |
| Orders.VelocityItemsAt | src/Migrator/Runner.php:460-503 | there is one line per detail product and line `j` is the line built from product `j` |
| Orders.VelocityItemsSnoc | src/Migrator/Runner.php:460-503 | one more detail product appends its line and changes no earlier line |
| Orders.LinesAt | src/Migrator/Runner.php:460-503 | an item loop gives, at position `j`, the line of row `j` |
| Migrator.Runner.BuildVelocityLine | src/Migrator/Runner.php:462-501 | one item line equals `VelocityLine`, reading the stored price only when the item has none and the product was found |
| Migrator.Runner.GetNewProductId | src/Migrator/Runner.php:536-551 | returns the first migrated product recording the Velocity id, or 0 |
| Migrator.Runner.MigrateWooCommerceOrders | src/Migrator/Runner.php:553-664 | the loop leaves the store and count of `WooOrdersStage` over the listed `shop_order` posts |
| Migrator.Runner.MigrateWooCommerceOrder | src/Migrator/Runner.php:569-659 | one WooCommerce order migrated exactly as `WooOrderStep` |
| Migrator.Runner.WriteWooOrderMeta | src/Migrator/Runner.php:601-657 | the new order's meta becomes `WooOrderMeta` |
| Migrator.Runner.WriteWooCustomer | src/Migrator/Runner.php:601-620 | the header and billing writes produce `WooCustomerMeta(WooHeader(m))` |
| Migrator.Runner.CollectWooItems | src/Migrator/Runner.php:628-655 | the item list equals `WooItems` of the order's line-item rows |
| Orders.WooItemsAt | src/Migrator/Runner.php:628-655 | there is one line per `line_item` row and line `j` is the line built from row `j` |
| Orders.WooItemsSnoc | src/Migrator/Runner.php:628-655 | one more `line_item` row appends its line and changes no earlier line |
| Migrator.Runner.BuildWooLine | src/Migrator/Runner.php:634-653 | one line equals `WooLine` of its item-meta rows |
| Migrator.Runner.CollectItemMeta | src/Migrator/Runner.php:634-641 | the meta array built from the selected rows equals `ItemMeta` |
| Migrator.Runner.GetNewProductIdFromWoo | src/Migrator/Runner.php:666-680 | returns the first migrated product recording the WooCommerce id, or 0 |
| Wp.Database.FindPostId | src/Migrator/Runner.php:53-60 | the provenance lookup returns `FindPost`: the first visible post of the type whose meta matches, or 0 |
| Wp.Database.TermExists | src/Migrator/Runner.php:198-201 | `term_exists` by name returns the first target term with that name, or 0 |
| Wp.Database.GetMeta | src/Migrator/Runner.php:481 | `get_post_meta($new_pid, '_store_price', true)` returns the stored value, `''` when absent |
| Wp.Database.InsertPost | src/Migrator/Runner.php:74 | an accepted insert appends the post with the next id; a refused one returns 0 and changes nothing |
| Wp.Database.WriteMeta | src/Migrator/Runner.php:105 | a meta write on a tracked post updates that post's meta at that key only |
| Wp.QueryFilter | src/Migrator/Runner.php:53-58 | an empty `meta_value` (null, `''`, empty array) drops the value filter |
| Wp.FindIn | src/Migrator/Runner.php:53-60 | the lookup result is 0 exactly when no post matches, and otherwise the first matching post |
| Wp.TermIndex | src/Migrator/Runner.php:198 | the name lookup is 0 exactly when no term has the name, and otherwise the first term with it |
| Wp.AfterInsertPost | src/Migrator/Runner.php:74 | a refused insert leaves the state as it was; an accepted one appends exactly the new post, whose id is the new length |
| Wp.AfterInsertTerm | src/Migrator/Runner.php:215-219 | a refused term insert gives 0 and no term; an accepted one appends the term with its slug and parent |
| Wp.FindPostStable | src/Migrator/Runner.php:53-62 | once a post records a provenance, later states find the same post |
| Wp.FindPostIgnores | src/Migrator/Runner.php:370-380 | posts that do not match the lookup, changed or added, do not change its result |
| Wp.MetaWrite | src/Migrator/Runner.php:105 | a meta write on a post whose meta is `m` leaves it with `m[key := value]` |
| Wp.WithMetaTwice | src/Migrator/Runner.php:410-510 | two whole-meta writes to one post are the last one |
| Php.Trim | src/Migrator/Runner.php:149-150 | `trim` returns a slice of the input with no edge whitespace and strips only whitespace |
| Php.TrimIdempotent | src/Migrator/Runner.php:442-444 | trimming twice is trimming once |
| Php.TrimPadding | src/Migrator/Runner.php:605 | whitespace padding around a trimmed text is removed and nothing else |
| Php.Explode | src/Migrator/Runner.php:162 | `explode` returns at least one part, and no part contains the delimiter |
| Php.JoinExplode | src/Migrator/Runner.php:162 | joining the parts of `explode` with the delimiter gives back the string |
| Php.ExplodeJoin | src/Migrator/Runner.php:441 | exploding delimiter-free parts joined by the delimiter gives back the parts |
| Php.ExplodeSplit | src/Migrator/Runner.php:146-147 | when the delimiter occurs, `explode` is the text before its first occurrence followed by the parts of the text after it |
| Php.ExplodeFirst | src/Migrator/Runner.php:146-147 | there are at least two parts if and only if the delimiter occurs, and the first part is the text before it |
| Php.ExplodeThree | src/Migrator/Runner.php:441-444 | a three-piece descriptor explodes into exactly its three pieces |
| Php.IntRoundTrip | src/Migrator/Runner.php:324 | `(int)` of an integer's decimal text is that integer |
| Php.RealOfDigits | src/Migrator/Runner.php:445 | `(float)` of a digit string is its decimal value |
| Php.SameMetaValueIntText | src/Migrator/Runner.php:56 | a stored integer id and its decimal text compare equal in a meta query |
| Rules.ParseOptionRow | src/Migrator/Runner.php:162-167 | a row yields an option if and only if it contains `=`; the label and price are the trimmed first and second pieces |
| Rules.ParseSimpleRow | src/Migrator/Runner.php:162-167 | `name=price` with clean parts parses back to `{name, price}` |
| Rules.OptionRowExtraEquals | src/Migrator/Runner.php:162-167 | pieces after a second `=` are ignored |
| Rules.MalformedRowDropped | src/Migrator/Runner.php:163 | a row without `=` adds no option |
| Rules.SimpleRowAppended | src/Migrator/Runner.php:164-167 | a clean `name=price` row appends exactly its option, after the earlier ones |
| Rules.ParsedOptionsAppend | src/Migrator/Runner.php:141-169 | parsing concatenated rows concatenates the results: options stay in encounter order |
| Rules.NestedOptionsFlatten | src/Migrator/Runner.php:143-155 | a nested row contributes the options of its string members, as if they were top-level rows |
| Rules.AdvancedOptionsFlatten | src/Migrator/Runner.php:138-169 | the advanced options are the parsed options of the flattened string rows; non-strings are skipped |
| Rules.ParsedOptionsOrigin | src/Migrator/Runner.php:141-169 | every option comes from some row that contains `=` |
| Rules.NestedOptions | src/Migrator/Runner.php:143-155 | the options of a nested row: its string elements parsed in order, other elements skipped (properties in `NestedOptionsFlatten`) |
| Rules.AdvancedOptions | src/Migrator/Runner.php:138-169 | all priced options of the `opsiharga` values in encounter order (properties in `AdvancedOptionsFlatten` and `ParsedOptionsAppend`) |
| Rules.RemoveSeparators | src/Migrator/Runner.php:445 | the cost text loses its `.` and `,` and gains no character |
| Rules.ParseShipping | src/Migrator/Runner.php:440-445 | the courier is the trimmed text before the first `-`; without a `-` the service is empty and the cost 0 |
| Rules.ZeroCost | src/Migrator/Runner.php:444-445 | the default cost text `'0'` gives cost 0 |
| Rules.ShippingCostWhole | src/Migrator/Runner.php:445 | the parsed cost is never negative and always whole |
| Rules.ShippingIgnoresExtraPieces | src/Migrator/Runner.php:441-444 | pieces after the third `-` do not change the shipping |
| Rules.ShippingOfDescriptor | src/Migrator/Runner.php:439-445 | `"JNE - REG - 15.000"`-shaped descriptors parse to courier, service and the grouped number's value |
| Rules.StatusNamesDistinct | src/Migrator/Runner.php:385-397 | distinct business statuses have distinct stored names |
| Rules.VelocityStatus | src/Migrator/Runner.php:385-397 | the Velocity status map, NULL and unknown texts giving pending (read backwards in `VelocityStatusInverse`) |
| Rules.WooStatus | src/Migrator/Runner.php:582-591 | the WooCommerce status map, unknown statuses giving pending (read backwards in `WooStatusInverse`) |
| Rules.VelocityStatusInverse | src/Migrator/Runner.php:385-397 | the Velocity map, read backwards: which texts give each status, unknown and null giving pending |
| Rules.WooStatusInverse | src/Migrator/Runner.php:582-591 | the WooCommerce map, read backwards: which post statuses give each status, unknown giving pending |
| Rules.Put | src/Migrator/Runner.php:239 | assigning an array key keeps a present key in place with its new value and appends a new one |
| Rules.GalleryOf | src/Migrator/Runner.php:235-241 | the gallery's keys are exactly the ids whose URL (looked up by the id cast to int) resolves, each once, each mapped to its URL |
| Rules.GalleryLookup | src/Migrator/Runner.php:236-241 | an id is in the gallery if and only if it was listed and its int cast has a URL, and its entry is that URL |
| Rules.NonZeroIds | src/Migrator/Runner.php:324 | the `array_filter`ed ids are non-zero and no more than the pieces |
| Rules.WooGalleryRoundTrip | src/Migrator/Runner.php:324 | a gallery stored as comma-joined ids gives back those ids without the zeros |
| Rules.VelocityLineItem | src/Migrator/Runner.php:462-501 | a Velocity line: quantity defaults to 1, price is the item's, else the stored price when found, else 0, subtotal is their product, options hold `Info` only when set |
| Rules.VelocityLineDefaults | src/Migrator/Runner.php:463-484 | an item with neither quantity nor price is one unit at the product's stored price |
| Rules.ItemMeta | src/Migrator/Runner.php:638-641 | the item meta array has exactly the selected keys that occur |
| Rules.ItemMetaLastWins | src/Migrator/Runner.php:639-641 | for a repeated key, the last row's value wins |
| Rules.WooLineItem | src/Migrator/Runner.php:642-653 | a WooCommerce line: quantity defaults to 1, subtotal is the line total, price times quantity gives back the total when the quantity is positive, and price is 0 otherwise |
| Rules.DivideBack | src/Migrator/Runner.php:645 | the unit price `total / qty` multiplied back gives the total |
| Source.ListedProducts | src/Migrator/Runner.php:38-44 | the product query lists exactly the visible `product` posts and no more posts than there are |
| Source.ListedOrders | src/Migrator/Runner.php:555-561 | the order query lists exactly the visible `shop_order` posts and no more posts than there are |
| Source.ListedProductsSnoc | src/Migrator/Runner.php:38-48 | the listing keeps the posts' order: one more product is listed after the others exactly when it is visible |
| Source.ListedAllProducts | src/Migrator/Runner.php:38-48 | when every product is visible the listing is the products themselves, in their order |
| Source.ListedOrdersSnoc | src/Migrator/Runner.php:555-567 | one more order is listed after the others exactly when it is visible |
| Source.ListedAllOrders | src/Migrator/Runner.php:555-567 | when every order is visible the listing is the orders themselves, in their order |
| Source.TermsOf | src/Migrator/Runner.php:178 | `get_the_terms` gives exactly the product's terms of that taxonomy |
| Taxonomy.EnsureTerm | src/Migrator/Runner.php:193-220 | terms only grow, and a non-zero result is a target term with the source term's name |
| Taxonomy.Reconcile | src/Migrator/Runner.php:180-186 | terms only grow, and every collected id is a valid target term |
| Taxonomy.MissingTerm | src/Migrator/Runner.php:195-197 | a missing source term gives 0 and creates nothing |
| Taxonomy.ExistingName | src/Migrator/Runner.php:198-201 | a name already in the target gives that term and creates nothing |
| Taxonomy.ParentNotFollowed | src/Migrator/Runner.php:202-215 | without a followed parent the term is inserted at the top level |
| Taxonomy.ParentFollowed | src/Migrator/Runner.php:202-215 | with a followed parent, the parent is reconciled first and the term is inserted under it |
| Taxonomy.TermIndexStable | src/Migrator/Runner.php:198 | once a name is in the target, the name lookup gives the same term in any later state |
| Taxonomy.EnsureTermSettles | src/Migrator/Runner.php:193-220 | after a successful reconciliation, reconciling the same term again creates nothing and gives the same id |
| Taxonomy.EnsureTermWellParented | src/Migrator/Runner.php:202-215 | every term's parent is 0 or an earlier term, and reconciling one term keeps it so |
| Taxonomy.ReconcileWellParented | src/Migrator/Runner.php:180-186 | reconciling a product's terms keeps every parent link pointing to an earlier term |
| Taxonomy.ReconcileNames | src/Migrator/Runner.php:180-186 | every collected term carries the name of one of the product's source terms |
| Products.CopyFieldsKeeps | src/Migrator/Runner.php:102-107 | keys outside the map's targets are untouched by the copy |
| Products.CopyFieldsCopied | src/Migrator/Runner.php:102-107 | each mapped field ends up copied when its value is not `''`, and untouched otherwise |
| Products.CopyFields | src/Migrator/Runner.php:102-107 | the field-copy loop: each source value that is not `''` written under its target key, in map order (properties in `CopyFieldsKeeps` and `CopyFieldsCopied`) |
| Products.VelocityMeta | src/Migrator/Runner.php:89-174 | the product meta throws if and only if the flash-sale value is a truthy array |
| Products.VelocityRest | src/Migrator/Runner.php:109-173 | the writes after the field copy throw exactly when the flash-sale value is a truthy array, and then leave the meta as it was |
| Products.OptionsMeta | src/Migrator/Runner.php:123-173 | the option writes: a truthy option name, a non-empty standard list, a truthy second name, the parsed options when any (properties in `OptionsKeeps` and `OptionsWrites`) |
| Products.OptionsKeeps | src/Migrator/Runner.php:123-173 | the options writes touch only the four option keys |
| Products.OptionsWrites | src/Migrator/Runner.php:123-137 | each option name is written when truthy, and left as it was otherwise |
| Products.RestKeeps | src/Migrator/Runner.php:109-173 | the writes after the field map touch only their own keys |
| Products.RestProvenance | src/Migrator/Runner.php:117-121 | the provenance is the source id and the type is `physical` |
| Products.RestFlashsale | src/Migrator/Runner.php:110-115 | a truthy flash-sale value is stored in the `Y-m-d\TH:i` format |
| Products.ThumbnailMeta | src/Migrator/Runner.php:224-227 | `_thumbnail_id` is set exactly when the thumbnail id is non-zero and an image |
| Products.GalleryMeta | src/Migrator/Runner.php:235-245 | `_store_gallery_ids` holds `GalleryOf` the ids when that is non-empty, and nothing is written otherwise |
| Products.VelocityImagesMeta | src/Migrator/Runner.php:222-247 | the Velocity image writes throw exactly when a resolving gallery id is an array, and then leave only the thumbnail written |
| Products.VelocityImagesKeeps | src/Migrator/Runner.php:222-247 | the image writes touch only the thumbnail and gallery keys |
| Products.WooMetaWrites | src/Migrator/Runner.php:284-304 | the stock is written if and only if a mapped field gave it or the stock is managed and set; provenance and type are always written |
| Products.WooMeta | src/Migrator/Runner.php:284-304 | the WooCommerce meta before the terms: mapped fields, managed stock, type and provenance (properties in `WooMetaWrites` and `WooStock`) |
| Products.IntValues | src/Migrator/Runner.php:327 | the id list becomes the integer values, one for one |
| Products.WooGallery | src/Migrator/Runner.php:322-337 | the gallery throws if and only if the value is a truthy array |
| Products.WooImagesMeta | src/Migrator/Runner.php:318-337 | the image writes throw if and only if the gallery value is a truthy array |
| Products.WooImagesKeeps | src/Migrator/Runner.php:318-337 | the image writes touch only the thumbnail and gallery keys |
| Products.ProductData | src/Migrator/Runner.php:64-72 | the post a product becomes: a `store_product` with the source's title, content, excerpt, status, author and date |
| Products.CategoriesStep | src/Migrator/Runner.php:176-191 | the terms after `Reconcile` of the product's terms, and the non-zero ids set as the post's categories when there is any (properties in `NewProduct` and `StepShape`) |
| Products.VelocityAfterInsert | src/Migrator/Runner.php:77-80 | after the insert: the meta, which may throw; then the categories and the images, which may throw; counted when nothing threw (stated by `VelocityShape`) |
| Products.WooAfterInsert | src/Migrator/Runner.php:284-337 | after the insert: the meta, the categories, then the images, which may throw; counted when nothing threw (stated by `WooShape`) |
| Products.AfterInsert | src/Migrator/Runner.php:76-80 | the variant's writes after a successful insert (stated by `AfterInsertShape`) |
| Products.ProductStep | src/Migrator/Runner.php:50-81 | one product with the corrected insert test: skipped when migrated, not counted when refused, otherwise `AfterInsert` (stated by `SkipMigrated`, `RefusedNotCounted`, `NewProduct` and `StepShape`) |
| Products.ProductStepAsWritten | src/Migrator/Runner.php:74-80 | one product as written: a refused insert goes on to the writes on post 0 (stated by `RefusedInsertCounted`) |
| Products.ProductsStage | src/Migrator/Runner.php:36-87 | the listed products in order, each step after the last, stopping at the first exception (stated by `ProductsStageSnoc`, `ProductsStageStops`, `StageGrowth` and `StageIdempotent`) |
| Products.ProductsStageSnoc | src/Migrator/Runner.php:48-82 | one more listed product extends the stage by that product's step |
| Products.ProductsStageStops | src/Migrator/Runner.php:29-31 | after an exception the rest of the products are not migrated |
| Products.SkipMigrated | src/Migrator/Runner.php:60-62 | an already-migrated product changes nothing and is not counted |
| Products.RefusedNotCounted | src/Migrator/Runner.php:74-76 | with the corrected guard, a refused insert changes nothing and is not counted |
| Products.NewProduct | src/Migrator/Runner.php:64-81 | a new product is appended as one post with its data, `NewProductMeta` and its reconciled categories |
| Products.StepShape | src/Migrator/Runner.php:50-81 | a step only adds, at most one post, exactly when counted or thrown, never both |
| Products.VelocityTargets | src/Migrator/Runner.php:92-100 | the Velocity map has distinct targets, none of them a later key |
| Products.WooTargets | src/Migrator/Runner.php:284-289 | the WooCommerce map has distinct targets, none of them a later key |
| Products.VelocityFieldCopy | src/Migrator/Runner.php:102-107 | every Velocity field is present on the new product if and only if its source value is not `''` |
| Products.WooFieldCopy | src/Migrator/Runner.php:290-295 | every WooCommerce field is present on the new product if and only if its source value is not `''` |
| Products.WooStock | src/Migrator/Runner.php:296-302 | a new WooCommerce product has a stock if and only if the stock is managed and set, and it is that stock |
| Products.NewProductProvenance | src/Migrator/Runner.php:118-121 | a new product records its source id under its variant's key and has type `physical` |
| Products.VelocityOptions | src/Migrator/Runner.php:123-173 | a new Velocity product has each option key if and only if the source gives it a value, and that value |
| Products.StageGrowth | src/Migrator/Runner.php:36-87 | the product stage only adds, one post per counted product plus one when it threw |
| Products.SettledStep | src/Migrator/Runner.php:60-62 | a settled product is skipped |
| Products.StepSettles | src/Migrator/Runner.php:50-81 | a visible product is settled after its step |
| Products.StageSettles | src/Migrator/Runner.php:36-87 | after a clean stage every listed product is settled |
| Products.SettledStage | src/Migrator/Runner.php:36-87 | a stage over settled products changes nothing |
| Products.StageIdempotent | src/Migrator/Runner.php:36-87 | a second product stage over the same source migrates nothing |
| Products.RefusedInsertCounted | src/Migrator/Runner.php:74-80 | as written, a refused insert is still counted, with no post added |
| Orders.VelocityOrderData | src/Migrator/Runner.php:399-405 | the order post is a published `store_order` owned by a positive author |
| Orders.VelocityHeader | src/Migrator/Runner.php:410-414 | the invoice, the order id and the mapped status (stated by `VelocityOrderRecords`) |
| Orders.CustomerMeta | src/Migrator/Runner.php:417-425 | the four customer fields, `''` where the detail does not set them (properties in `CustomerKeeps`) |
| Orders.LocationMeta | src/Migrator/Runner.php:427-436 | the four location names, written only when the subdistrict is set and the lookup resolves (properties in `LocationKeeps`) |
| Orders.PaymentMeta | src/Migrator/Runner.php:451-454 | the tracking number and payment method as they are (properties in `PaymentKeeps`) |
| Orders.ShippingMeta | src/Migrator/Runner.php:439-449 | the shipping writes throw if and only if the descriptor is an array |
| Orders.VelocityProductId | src/Migrator/Runner.php:536-551 | the product id is 0 exactly when no product records the Velocity id, and otherwise one that does |
| Orders.VelocityLine | src/Migrator/Runner.php:462-501 | one Velocity item line, its product resolved against the store and its price falling back to the stored one (properties in `Rules.VelocityLineItem`) |
| Orders.VelocityOrderMeta | src/Migrator/Runner.php:410-510 | the order meta throws if and only if the shipping descriptor is an array |
| Orders.VelocityOrderStep | src/Migrator/Runner.php:368-513 | one row: skipped when its invoice is recorded, not counted when the insert is refused, otherwise its meta, counted unless it throws (stated by `NewVelocityOrder`, `VelocityOrderStepShape` and `RefusedOrderNotCounted`) |
| Orders.VelocityOrdersNext | src/Migrator/Runner.php:367-513 | one row after a stage: nothing once the stage has thrown, else the row's step added (stated by `VelocityOrdersFromOneMore`) |
| Orders.VelocityOrdersFrom | src/Migrator/Runner.php:367-514 | the rows in table order after a starting stage, stopping at the first exception (stated by `VelocityOrdersFromSnoc`, `VelocityOrdersFromStops` and `VelocityOrdersFromAppend`) |
| Orders.VelocityOrdersStage | src/Migrator/Runner.php:358-515 | the rows from the store, nothing counted yet (stated by `VelocityOrdersGrowth` and `VelocityOrdersIdempotent`) |
| Orders.VelocityOrders | src/Migrator/Runner.php:346-519 | nothing without the order table, otherwise every row (stated by `Migrator.Runner.MigrateOrders`) |
| Orders.WooOrderData | src/Migrator/Runner.php:592-598 | the order post is a published `store_order` owned by user 1 |
| Orders.WooHeader | src/Migrator/Runner.php:601-602 | the source order id and the mapped status (stated by `WooOrderRecords`) |
| Orders.WooCustomerMeta | src/Migrator/Runner.php:603-620 | the seven billing fields, name and address joined and trimmed (properties in `WooCustomerKeeps`) |
| Orders.WooShippingMeta | src/Migrator/Runner.php:621-627 | shipping method, empty service, shipping total and payment method (properties in `WooShippingKeeps`) |
| Orders.WooProductId | src/Migrator/Runner.php:666-680 | the product id is 0 exactly when no product records the WooCommerce id, and otherwise one that does |
| Orders.WooLine | src/Migrator/Runner.php:634-653 | one WooCommerce line from its item-meta rows, its product resolved against the store (properties in `Rules.WooLineItem`) |
| Orders.WooOrderMeta | src/Migrator/Runner.php:601-657 | all WooCommerce order writes, items resolved against the store as it is then (stated by `WooAfterHeaderKeeps` and `WooOrderRecords`) |
| Orders.WooOrderStep | src/Migrator/Runner.php:569-659 | one order: skipped when its id is recorded, not counted when the insert is refused, otherwise its meta and counted (stated by `NewWooOrder`, `WooOrderStepShape` and `RefusedOrderNotCounted`) |
| Orders.WooOrdersStage | src/Migrator/Runner.php:553-664 | the WooCommerce order stage never throws |
| Orders.VelocityOrdersStageStops | src/Migrator/Runner.php:29-31 | after an exception the remaining rows are not migrated |
| Orders.VelocityOrdersFromSnoc | src/Migrator/Runner.php:367-514 | from any starting stage, one more row extends the stage by that row's step |
| Orders.VelocityOrdersFromStops | src/Migrator/Runner.php:29-31 | from any starting stage, the rows after an exception are not migrated |
| Orders.VelocityOrdersFromOneMore | src/Migrator/Runner.php:367-514 | one more row after any rows is `VelocityOrdersNext` of the stage they leave |
| Orders.VelocityOrdersFromAppend | src/Migrator/Runner.php:358-515 | migrating the rows of `a` and then those of `b` is migrating `a + b` in one go |
| Orders.VelocityOrdersPage | src/Migrator/Runner.php:358-515 | the stage up to the end of a page is that page's rows after the stage over the rows before it |
| Orders.VelocityOrdersThrown | src/Migrator/Runner.php:29-31 | a stage that threw on a prefix of the table is the stage of the whole table |
| Orders.WooOrdersStageSnoc | src/Migrator/Runner.php:567-660 | one more order extends the stage by that order's step |
| Orders.Page | src/Migrator/Runner.php:361 | a page is the next at most 50 rows from the offset, empty exactly when the offset is past the end |
| Orders.Consumed | src/Migrator/Runner.php:358-515 | the rows consumed by the paging loop are the offset, capped at the table size |
| Orders.PageOffsets | src/Migrator/Runner.php:358-515 | the loop reads at offsets 0, 50, 100, …, one page more than the table needs |
| Orders.PagingStops | src/Migrator/Runner.php:360-365 | every offset but the last gives a non-empty page and the last gives an empty one |
| Orders.PageAppend | src/Migrator/Runner.php:361-367 | the rows before an offset followed by its page are the rows before the next offset |
| Orders.CustomerKeeps | src/Migrator/Runner.php:417-425 | the customer writes touch only their four keys |
| Orders.LocationKeeps | src/Migrator/Runner.php:428-436 | the location writes touch only their four keys |
| Orders.ShippingKeeps | src/Migrator/Runner.php:439-449 | the shipping writes touch only their three keys |
| Orders.PaymentKeeps | src/Migrator/Runner.php:451-454 | the tracking and payment writes touch only their two keys |
| Orders.AfterHeaderKeeps | src/Migrator/Runner.php:416-510 | the writes after the header touch only their own keys |
| Orders.VelocityOrderRecords | src/Migrator/Runner.php:410-414 | a Velocity order records its invoice and its mapped status |
| Orders.VelocityOrderWithoutProducts | src/Migrator/Runner.php:457-505 | without a product list the items are stored as an empty list |
| Orders.NewVelocityOrder | src/Migrator/Runner.php:399-513 | a new accepted order is appended as one post with its data and `VelocityOrderMeta`, and counted unless it throws |
| Orders.VelocityOrderStepShape | src/Migrator/Runner.php:367-513 | a step only adds, at most one post, exactly when counted or thrown, never both |
| Orders.VelocityOrdersGrowth | src/Migrator/Runner.php:346-519 | the order stage only adds, one post per counted order plus one when it threw |
| Orders.ScalarMatches | src/Migrator/Runner.php:371-376 | a scalar invoice matches itself in the provenance lookup |
| Orders.RowSettledStable | src/Migrator/Runner.php:370-380 | settled rows stay settled as the store grows |
| Orders.RowSettledStep | src/Migrator/Runner.php:378-380 | a settled row is skipped |
| Orders.RowStepSettles | src/Migrator/Runner.php:367-513 | a scalar-invoice row is settled after its clean step |
| Orders.VelocityOrdersSettle | src/Migrator/Runner.php:346-519 | after a clean stage every row is settled |
| Orders.SettledRows | src/Migrator/Runner.php:370-380 | a stage over settled rows changes nothing |
| Orders.VelocityOrdersIdempotent | src/Migrator/Runner.php:346-519 | a second Velocity order stage over the same rows migrates nothing |
| Orders.WooCustomerKeeps | src/Migrator/Runner.php:603-620 | the billing writes touch only their seven keys |
| Orders.WooShippingKeeps | src/Migrator/Runner.php:621-627 | the shipping and payment writes touch only their four keys |
| Orders.WooAfterHeaderKeeps | src/Migrator/Runner.php:603-657 | the writes after the header touch only their own keys |
| Orders.WooOrderRecords | src/Migrator/Runner.php:601-602 | a WooCommerce order records its source id and its mapped status |
| Orders.NewWooOrder | src/Migrator/Runner.php:592-658 | a new accepted order is appended as one post with its data and `WooOrderMeta`, and counted |
| Orders.WooOrderStepShape | src/Migrator/Runner.php:569-659 | a step only adds, one post exactly when counted |
| Orders.WooOrdersGrowth | src/Migrator/Runner.php:553-664 | the stage only adds, one post per counted order |
| Orders.WooSettledStable | src/Migrator/Runner.php:570-580 | settled orders stay settled as the store grows |
| Orders.WooSettledStep | src/Migrator/Runner.php:578-580 | a settled order is skipped |
| Orders.WooStepSettles | src/Migrator/Runner.php:569-659 | every order is settled after its step |
| Orders.WooOrdersSettle | src/Migrator/Runner.php:553-664 | after the stage every listed order is settled |
| Orders.SettledWooOrders | src/Migrator/Runner.php:570-580 | a stage over settled orders changes nothing |
| Orders.WooOrdersIdempotent | src/Migrator/Runner.php:553-664 | a second WooCommerce order stage migrates nothing |
| Orders.VelocityOrderStepAsWritten | src/Migrator/Runner.php:407-513 | one row as written: a refused insert goes on to the meta writes on post 0 (stated by `RefusedOrderCounted`) |
| Orders.WooOrderStepAsWritten | src/Migrator/Runner.php:599-659 | one order as written: a refused insert goes on to the writes on post 0 (stated by `RefusedWooOrderCounted`) |
| Orders.RefusedOrderCounted | src/Migrator/Runner.php:407-449 | as written, a Velocity row whose insert is refused adds no post yet is counted, or throws at line 441 exactly when its `ongkir` is an array |
| Orders.RefusedWooOrderCounted | src/Migrator/Runner.php:599-658 | as written, a WooCommerce order whose insert is refused adds no post and is counted |
| Orders.RefusedOrderNotCounted | src/Migrator/Runner.php:407-409 | with the corrected test, a refused order of either variant writes nothing, is not counted and throws nothing |
| Wp.Database.UpdateMeta | src/Migrator/Runner.php:105 | `update_post_meta` sets the key on an existing post and changes nothing for an id that names no post |
| Wp.Database.SetThumbnail | src/Migrator/Runner.php:224-227 | `set_post_thumbnail` writes `_thumbnail_id` exactly when the id is non-zero and an image |
| Wp.Database.SetCategories | src/Migrator/Runner.php:187-189 | `wp_set_object_terms` replaces the post's categories with the ids |
| Wp.Database.InsertTerm | src/Migrator/Runner.php:215-219 | `wp_insert_term` is `AfterInsertTerm` on the terms and leaves every post as it was |

## Left out

- I/O and WordPress internals are outside the model. The database is the `StoreState` value
  behind `Wp.Database`. `wp_insert_post`, `wp_insert_term`, `wp_get_attachment_url`,
  `set_post_thumbnail`'s image test, `date(strtotime(...))` and the `get_location_details`
  query are the oracles in `Env`. The location query is not modelled beyond its result.
- `set_time_limit`, `wp_reset_postdata` and the global post loop (`the_post`) have no effect
  on the migrated data and are not modelled.
- The source post fields `get_the_title`, `get_the_content`, `get_the_excerpt`,
  `get_post_status`, the author and the date are taken as given strings. WordPress filters on
  them are not modelled.
- `json_decode` of the order `detail` is not modelled. The row holds the decoded detail,
  with a field absent when PHP's `isset` fails.
- The `SHOW TABLES` check is the presence of `Legacy.orderTable`. The `ORDER BY id DESC`
  order is the order of its rows.
- Numeric casts read an optional sign, digits and a fraction. Exponents, hexadecimal text and
  PHP's float rounding are not modelled. Money is `real`, and integers are unbounded, so
  64-bit overflow is not modelled.
- `WP_Query`'s own ordering is not modelled. The first match is the earliest-inserted matching
  post, and meta values compare by their string form. The `=` meta comparison runs under the
  database's collation, which is usually case-insensitive. The source therefore skips a
  Velocity invoice that differs from a migrated one only in letter case, while the model
  migrates it again.
- `term_exists` matches the name exactly. Slug matching, sanitising and case-insensitive
  collation are not modelled.
- PHP array key normalisation is not modelled (e.g. the string `"5"` becoming the key `5` in
  the gallery array). Only the array key, which PHP refuses, is modelled.
- Migrator.Runner.CollectGallery: the `TypeError` message is PHP 8.0-8.2's "Illegal offset
  type". PHP 8.3 words it differently. A float, boolean or null id, which PHP turns into an
  int or `""` key, keeps its own value as the key.
- Migrator.Runner.MigrateProductImages: the gallery keys are not normalised, so two ids that
  PHP would merge into one key (e.g. `"5"` and `5`) are two entries in the model.
- Migrator.Migration, Migrator.Runner.Run: these use the corrected insert test. As written,
  the source counts a refused record. It still reconciles and creates its terms, and it still
  throws on an array flash-sale, gallery or `ongkir` value. The as-written steps record this
  per record. The whole run is not modelled as written.
- Database errors from `$wpdb` are not modelled. `wp_insert_post` reports failure as 0, which
  is what it does without `$wp_error`.
- `$subtotal_accumulated` (Runner.php:458, 485) is computed and never used, so it is not
  modelled.
- Concurrency between two runs is not modelled. A run is one sequential pass.
- Migrator.RunIdempotent: proved only when no Velocity invoice is an array
  (`ScalarInvoices`). An array invoice gives a meta query that never matches its stored
  value, so such a row is migrated again on every run.
- Products.StageIdempotent: proved only for listed (visible) products, which are the ones
  the stage receives.

## Findings

| source | as written | input that shows it | evidently intended | confidence | as-written member | corrected member |
|---|---|---|---|---|---|---|
| src/Migrator/Runner.php:76 | `wp_insert_post` without `$wp_error` returns 0 on failure, and `! is_wp_error(0)` is true. A refused insert is still migrated onto post 0 and counted. The same test guards lines 283, 409 and 600. | a listed product or order with no migrated copy whose insert the store refuses | a refused insert is skipped and not counted | not executed | Products.RefusedInsertCounted, Orders.RefusedOrderCounted, Orders.RefusedWooOrderCounted | Products.RefusedNotCounted, Orders.RefusedOrderNotCounted |
