/**
 * The pure transformation rules of the migrator: advanced-option rows,
 * the shipping descriptor, the two status maps, gallery ids and the
 * per-line pricing of order items.
 */
module Rules {
  import opened Wrappers
  import opened Php

  // ---------------------------------------------------------------------------
  // Advanced options: `opsiharga` rows of the form "label=price"

  datatype AdvancedOption = AdvancedOption(name: string, price: string)

  /** One row split on '=': label and price are the trimmed first two pieces;
      a row without '=' gives nothing. */
  function ParseOptionRow(row: string): (r: Option<AdvancedOption>)
    ensures r.Some? <==> '=' in row
    ensures r.Some? ==> r.value.name == Trim(row[..IndexOf('=', row)])
    ensures r.Some? ==>
      var rest := row[IndexOf('=', row) + 1..];
      r.value.price == Trim(rest[..IndexOf('=', rest)])
  {
    var parts := Explode('=', row);
    ExplodeFirst('=', row);
    if |parts| >= 2 then
      var rest := row[IndexOf('=', row) + 1..];
      ExplodeFirst('=', rest);
      assert parts[1] == parts[1..][0];
      Some(AdvancedOption(Trim(parts[0]), Trim(parts[1])))
    else None
  }

  /** The options one string row contributes: zero or one. */
  function StringOptions(s: string): seq<AdvancedOption> {
    match ParseOptionRow(s)
    case Some(o) => [o]
    case None => []
  }

  /** The options of a nested row: its string elements, in order; other elements are skipped. */
  function NestedOptions(subs: seq<Value>): seq<AdvancedOption>
    decreases |subs|
  {
    if subs == [] then []
    else
      var last := subs[|subs| - 1];
      NestedOptions(subs[..|subs| - 1]) + (if last.Str? then StringOptions(last.s) else [])
  }

  /** The options of one row of the multi-valued meta: a string, or an array nested one level. */
  function RowOptions(row: Value): seq<AdvancedOption> {
    match row
    case Str(s) => StringOptions(s)
    case Arr(subs) => NestedOptions(subs)
    case _ => []
  }

  /** All advanced options of the `opsiharga` values, in encounter order. */
  function AdvancedOptions(rows: seq<Value>): seq<AdvancedOption>
    decreases |rows|
  {
    if rows == [] then []
    else AdvancedOptions(rows[..|rows| - 1]) + RowOptions(rows[|rows| - 1])
  }

  /** The strings the parser looks at: each string row, and each string inside
      an array row, in encounter order. */
  function OptionStrings(rows: seq<Value>): seq<string>
    decreases |rows|
  {
    if rows == [] then []
    else
      var last := rows[|rows| - 1];
      OptionStrings(rows[..|rows| - 1]) +
        (match last
         case Str(s) => [s]
         case Arr(subs) => TopStrings(subs)
         case _ => [])
  }

  /** The string elements of a sequence of values. */
  function TopStrings(vs: seq<Value>): seq<string>
    decreases |vs|
  {
    if vs == [] then []
    else TopStrings(vs[..|vs| - 1]) + (if vs[|vs| - 1].Str? then [vs[|vs| - 1].s] else [])
  }

  /** The rows of `strs` that contain '=', parsed, in order. */
  function ParsedOptions(strs: seq<string>): (opts: seq<AdvancedOption>)
    ensures |opts| <= |strs|
    decreases |strs|
  {
    if strs == [] then []
    else ParsedOptions(strs[..|strs| - 1]) + StringOptions(strs[|strs| - 1])
  }

  lemma ParsedOptionsAppend(a: seq<string>, b: seq<string>)
    ensures ParsedOptions(a + b) == ParsedOptions(a) + ParsedOptions(b)
    decreases |b|
  {
    if b != [] {
      assert (a + b)[..|a + b| - 1] == a + b[..|b| - 1];
      ParsedOptionsAppend(a, b[..|b| - 1]);
    } else {
      assert a + b == a;
    }
  }

  lemma {:induction false} NestedOptionsFlatten(subs: seq<Value>)
    ensures NestedOptions(subs) == ParsedOptions(TopStrings(subs))
    decreases |subs|
  {
    if subs != [] {
      var init := subs[..|subs| - 1];
      var last := subs[|subs| - 1];
      NestedOptionsFlatten(init);
      ParsedOptionsAppend(TopStrings(init), if last.Str? then [last.s] else []);
      if last.Str? {
        assert ParsedOptions([last.s]) == StringOptions(last.s) by {
          assert [last.s][..0] == [];
        }
      }
    }
  }

  /** Parsing the rows is parsing, in order, the strings found at the top level or
      one level down: nesting is flattened once, non-strings and deeper arrays are skipped. */
  lemma {:induction false} AdvancedOptionsFlatten(rows: seq<Value>)
    ensures AdvancedOptions(rows) == ParsedOptions(OptionStrings(rows))
    decreases |rows|
  {
    if rows != [] {
      var init := rows[..|rows| - 1];
      var last := rows[|rows| - 1];
      AdvancedOptionsFlatten(init);
      match last {
        case Str(s) =>
          ParsedOptionsAppend(OptionStrings(init), [s]);
          assert [s][..0] == [];
        case Arr(subs) =>
          ParsedOptionsAppend(OptionStrings(init), TopStrings(subs));
          NestedOptionsFlatten(subs);
        case _ =>
          assert OptionStrings(rows) == OptionStrings(init) + [];
          assert OptionStrings(init) + [] == OptionStrings(init);
      }
    }
  }

  /** Each parsed option comes from a string that contains '=' (a malformed row is dropped). */
  lemma {:induction false} ParsedOptionsOrigin(strs: seq<string>, k: nat)
    requires k < |ParsedOptions(strs)|
    ensures exists j :: 0 <= j < |strs| && '=' in strs[j] && ParseOptionRow(strs[j]) == Some(ParsedOptions(strs)[k])
    decreases |strs|
  {
    var init := strs[..|strs| - 1];
    if k < |ParsedOptions(init)| {
      ParsedOptionsOrigin(init, k);
      var j :| 0 <= j < |init| && '=' in init[j] && ParseOptionRow(init[j]) == Some(ParsedOptions(init)[k]);
      assert strs[j] == init[j];
    } else {
      var j := |strs| - 1;
      assert '=' in strs[j] && ParseOptionRow(strs[j]) == Some(ParsedOptions(strs)[k]);
    }
  }

  /** A row "name=price" with nothing to trim parses to that pair. */
  lemma ParseSimpleRow(name: string, price: string)
    requires name != [] && '=' !in name && !IsTrimSpace(name[0]) && !IsTrimSpace(name[|name| - 1])
    requires price != [] && '=' !in price && !IsTrimSpace(price[0]) && !IsTrimSpace(price[|price| - 1])
    ensures ParseOptionRow(name + "=" + price) == Some(AdvancedOption(name, price))
  {
    ExplodeAt('=', name, price);
    ExplodeWithout('=', price);
    TrimUnchanged(name);
    TrimUnchanged(price);
  }

  /** A row without '=' contributes nothing. */
  lemma MalformedRowDropped(rows: seq<Value>, bad: string)
    requires '=' !in bad
    ensures AdvancedOptions(rows + [Str(bad)]) == AdvancedOptions(rows)
  {
    assert (rows + [Str(bad)])[..|rows|] == rows;
    assert StringOptions(bad) == [];
  }

  /** One well-formed row after others contributes its pair. */
  lemma SimpleRowAppended(rows: seq<Value>, name: string, price: string)
    requires name != [] && '=' !in name && !IsTrimSpace(name[0]) && !IsTrimSpace(name[|name| - 1])
    requires price != [] && '=' !in price && !IsTrimSpace(price[0]) && !IsTrimSpace(price[|price| - 1])
    ensures AdvancedOptions(rows + [Str(name + "=" + price)]) == AdvancedOptions(rows) + [AdvancedOption(name, price)]
  {
    ParseSimpleRow(name, price);
    assert (rows + [Str(name + "=" + price)])[..|rows|] == rows;
  }

  /** A row with more than one '=' keeps only the first two pieces: "a=b=c" has price "b". */
  lemma OptionRowExtraEquals(name: string, price: string, extra: string)
    requires name != [] && '=' !in name && !IsTrimSpace(name[0]) && !IsTrimSpace(name[|name| - 1])
    requires price != [] && '=' !in price && !IsTrimSpace(price[0]) && !IsTrimSpace(price[|price| - 1])
    ensures ParseOptionRow(name + "=" + price + "=" + extra) == Some(AdvancedOption(name, price))
  {
    assert name + "=" + price + "=" + extra == name + ['='] + (price + ['='] + extra);
    ExplodeAt('=', name, price + ['='] + extra);
    ExplodeAt('=', price, extra);
    TrimUnchanged(name);
    TrimUnchanged(price);
  }

  // ---------------------------------------------------------------------------
  // Shipping descriptor "COURIER - SERVICE - COST"

  datatype Shipping = Shipping(courier: string, service: string, cost: real)

  /** `str_replace(['.', ','], '', $s)`. */
  function RemoveSeparators(s: string): (r: string)
    ensures '.' !in r && ',' !in r
    ensures forall c :: c in r ==> c in s
    decreases |s|
  {
    if s == [] then []
    else (if s[0] == '.' || s[0] == ',' then [] else [s[0]]) + RemoveSeparators(s[1..])
  }

  /** The default cost text "0" reads as zero. */
  lemma ZeroCost()
    ensures StringToReal(RemoveSeparators("0")) == 0.0
  {
    ReadAllDigits("0");
  }

  /** The cost piece: trimmed, '.' and ',' removed, cast to a number. */
  function CostOf(piece: string): real {
    StringToReal(RemoveSeparators(Trim(piece)))
  }

  /** The pieces of a descriptor read as trimmed courier and service ("" when absent) and
      the cost of the third piece. A missing third piece stands for the text "0", which
      `ZeroCost` shows reads as 0. Pieces after the third are ignored. */
  function ShippingOfPieces(parts: seq<string>): Shipping
    requires parts != []
  {
    var courier := Trim(parts[0]);
    var service := if |parts| > 1 then Trim(parts[1]) else "";
    var cost := if |parts| > 2 then CostOf(parts[2]) else 0.0;
    Shipping(courier, service, cost)
  }

  /** The `ongkir` descriptor "COURIER - SERVICE - COST" split on '-'. */
  function ParseShipping(descriptor: string): (r: Shipping)
    ensures r.courier == Trim(descriptor[..IndexOf('-', descriptor)])
    ensures '-' !in descriptor ==> r.service == "" && r.cost == 0.0
  {
    ExplodeFirst('-', descriptor);
    ShippingOfPieces(Explode('-', descriptor))
  }

  lemma SkipNumericSpaceSuffix(s: string)
    ensures SkipNumericSpace(s) == s[|s| - |SkipNumericSpace(s)|..]
    decreases |s|
  {
    if s != [] && IsNumericSpace(s[0]) {
      SkipNumericSpaceSuffix(s[1..]);
    }
  }

  /** A text without '-' or '.' reads as a non-negative whole number. */
  lemma UnsignedWhole(s: string)
    requires '-' !in s && '.' !in s
    ensures StringToReal(s) >= 0.0
    ensures StringToReal(s) == ReadNumeral(s).whole as real
  {
    var t := SkipNumericSpace(s);
    SkipNumericSpaceSuffix(s);
    if t != [] {
      assert t[0] == s[|s| - |t|];
    }
    var signed := t != [] && (t[0] == '-' || t[0] == '+');
    var u := if signed then t[1..] else t;
    var w := DigitRun(u);
    var rest := u[w..];
    if rest != [] {
      assert rest[0] == u[w];
      assert u[w] in t;
      assert t[|t| - |u| + w] == u[w];
      assert s[|s| - |u| + w] == u[w];
    }
  }

  /** The shipping cost is never negative and always a whole number: the pieces
      hold no '-' and the separators are stripped before the cast. */
  lemma ShippingCostWhole(descriptor: string)
    ensures ParseShipping(descriptor).cost >= 0.0
    ensures ParseShipping(descriptor).cost.Floor as real == ParseShipping(descriptor).cost
  {
    var parts := Explode('-', descriptor);
    if |parts| > 2 {
      assert forall c :: c in Trim(parts[2]) ==> c in parts[2];
      UnsignedWhole(RemoveSeparators(Trim(parts[2])));
    }
  }

  /** Pieces after the third are ignored. */
  lemma ShippingIgnoresExtraPieces(a: string, b: string, c: string, more: string)
    requires '-' !in a && '-' !in b && '-' !in c
    ensures ParseShipping(a + "-" + b + "-" + c + "-" + more) == ParseShipping(a + "-" + b + "-" + c)
  {
    var long := a + "-" + b + "-" + c + "-" + more;
    var short := a + "-" + b + "-" + c;
    assert long == a + ['-'] + (b + ['-'] + (c + ['-'] + more));
    assert short == a + ['-'] + (b + ['-'] + c);
    ExplodeAt('-', a, b + ['-'] + (c + ['-'] + more));
    ExplodeAt('-', b, c + ['-'] + more);
    ExplodeAt('-', c, more);
    ExplodeAt('-', a, b + ['-'] + c);
    ExplodeAt('-', b, c);
    ExplodeWithout('-', c);
    var p := Explode('-', long);
    var q := Explode('-', short);
    assert |p| > 2 && |q| == 3;
    assert p[0] == q[0] && p[1] == q[1] && p[2] == q[2];
  }

  /** Digits with '.' or ',' group separators: separators between digit groups. */
  predicate GroupedDigits(s: string) {
    s != [] && IsDigit(s[0]) && IsDigit(s[|s| - 1]) &&
    forall i :: 0 <= i < |s| ==> IsDigit(s[i]) || s[i] == '.' || s[i] == ','
  }

  /** Removing the separators of grouped digits leaves the digits. */
  lemma {:induction false} RemoveSeparatorsDigits(s: string)
    requires forall i :: 0 <= i < |s| ==> IsDigit(s[i]) || s[i] == '.' || s[i] == ','
    ensures AllDigits(RemoveSeparators(s))
    ensures s != [] && IsDigit(s[0]) ==> RemoveSeparators(s) != []
    decreases |s|
  {
    if s != [] {
      RemoveSeparatorsDigits(s[1..]);
    }
  }

  lemma DescriptorShape(courier: string, service: string, cost: string)
    ensures courier + " - " + service + " - " + cost
         == (courier + " ") + ['-'] + (" " + service + " ") + ['-'] + (" " + cost)
  {
    var x, y := courier + " ", " " + service + " ";
    assert courier + " - " == x + ['-'] + [' '];
    assert courier + " - " + service + " - " == x + ['-'] + y + ['-'] + [' '];
  }

  /** The pieces of "COURIER - SERVICE - COST" keep the spaces around the dashes. */
  lemma DescriptorPieces(courier: string, service: string, cost: string)
    requires '-' !in courier && '-' !in service && '-' !in cost
    ensures Explode('-', courier + " - " + service + " - " + cost)
         == [courier + " ", " " + service + " ", " " + cost]
  {
    DescriptorShape(courier, service, cost);
    ExplodeThree('-', courier + " ", " " + service + " ", " " + cost);
  }

  /** The cost piece " COST" of grouped digits reads as the digits without separators. */
  lemma GroupedCost(cost: string)
    requires GroupedDigits(cost)
    ensures AllDigits(RemoveSeparators(cost))
    ensures CostOf(" " + cost) == DigitsValue(RemoveSeparators(cost)) as real
  {
    TrimPadding(" ", cost, "");
    assert " " + cost + "" == " " + cost;
    RemoveSeparatorsDigits(cost);
    RealOfDigits(RemoveSeparators(cost));
  }

  /** The padded pieces of a well-formed descriptor read as courier, service and cost. */
  lemma PaddedPieces(courier: string, service: string, cost: string)
    requires courier != [] && !IsTrimSpace(courier[0]) && !IsTrimSpace(courier[|courier| - 1])
    requires service != [] && !IsTrimSpace(service[0]) && !IsTrimSpace(service[|service| - 1])
    requires GroupedDigits(cost)
    ensures AllDigits(RemoveSeparators(cost))
    ensures ShippingOfPieces([courier + " ", " " + service + " ", " " + cost])
         == Shipping(courier, service, DigitsValue(RemoveSeparators(cost)) as real)
  {
    var parts := [courier + " ", " " + service + " ", " " + cost];
    assert Trim(parts[0]) == courier by {
      TrimPadding("", courier, " ");
      assert "" + courier + " " == parts[0];
    }
    assert Trim(parts[1]) == service by {
      TrimPadding(" ", service, " ");
    }
    GroupedCost(cost);
  }

  /** A well-formed descriptor "COURIER - SERVICE - COST" gives the courier, the service
      and the cost read with its '.' and ',' group separators dropped. */
  lemma ShippingOfDescriptor(courier: string, service: string, cost: string)
    requires courier != [] && '-' !in courier && !IsTrimSpace(courier[0]) && !IsTrimSpace(courier[|courier| - 1])
    requires service != [] && '-' !in service && !IsTrimSpace(service[0]) && !IsTrimSpace(service[|service| - 1])
    requires GroupedDigits(cost)
    ensures AllDigits(RemoveSeparators(cost))
    ensures ParseShipping(courier + " - " + service + " - " + cost)
         == Shipping(courier, service, DigitsValue(RemoveSeparators(cost)) as real)
  {
    assert '-' !in cost by {
      assert forall i :: 0 <= i < |cost| ==> cost[i] != '-';
    }
    DescriptorPieces(courier, service, cost);
    PaddedPieces(courier, service, cost);
  }

  // ---------------------------------------------------------------------------
  // Order status

  /** The business status of a store order. */
  datatype OrderStatus = Pending | AwaitingPayment | Processing | Shipped | Completed | Cancelled {
    /** The value stored in `_store_order_status`. */
    function Name(): string {
      match this
      case Pending => "pending"
      case AwaitingPayment => "awaiting_payment"
      case Processing => "processing"
      case Shipped => "shipped"
      case Completed => "completed"
      case Cancelled => "cancelled"
    }
  }

  /** Distinct statuses are stored as distinct names. */
  lemma StatusNamesDistinct(a: OrderStatus, b: OrderStatus)
    requires a != b
    ensures a.Name() != b.Name()
  {
  }

  /** The Velocity status labels (Runner.php:385-393). */
  const VelocityStatusMap: map<string, OrderStatus> := map[
    "Transaksi Baru" := Pending,
    "Menunggu Pembayaran" := Pending,
    "Lunas" := Processing,
    "Proses" := Processing,
    "Dikirim" := Shipped,
    "Selesai" := Completed,
    "Batal" := Cancelled
  ]

  /** The WooCommerce post statuses (Runner.php:582-590). */
  const WooStatusMap: map<string, OrderStatus> := map[
    "wc-pending" := Pending,
    "wc-on-hold" := AwaitingPayment,
    "wc-processing" := Processing,
    "wc-completed" := Completed,
    "wc-cancelled" := Cancelled,
    "wc-failed" := Cancelled,
    "wc-refunded" := Cancelled
  ]

  /** A Velocity order's status column (None when NULL) mapped to a business status;
      anything not in the table is pending. */
  function VelocityStatus(text: Option<string>): OrderStatus {
    if text.Some? && text.value in VelocityStatusMap then VelocityStatusMap[text.value] else Pending
  }

  /** A WooCommerce post status mapped to a business status; anything not in the table is pending. */
  function WooStatus(postStatus: string): OrderStatus {
    if postStatus in WooStatusMap then WooStatusMap[postStatus] else Pending
  }

  /** The Velocity map, read backwards: which labels give each status. It never gives awaiting_payment. */
  lemma VelocityStatusInverse(text: Option<string>)
    ensures VelocityStatus(text) != AwaitingPayment
    ensures VelocityStatus(text) == Processing <==> text == Some("Lunas") || text == Some("Proses")
    ensures VelocityStatus(text) == Shipped <==> text == Some("Dikirim")
    ensures VelocityStatus(text) == Completed <==> text == Some("Selesai")
    ensures VelocityStatus(text) == Cancelled <==> text == Some("Batal")
    ensures VelocityStatus(text) == Pending <==>
      text.None? || text.value !in {"Lunas", "Proses", "Dikirim", "Selesai", "Batal"}
  {
  }

  /** The WooCommerce map, read backwards. It never gives shipped. */
  lemma WooStatusInverse(postStatus: string)
    ensures WooStatus(postStatus) != Shipped
    ensures WooStatus(postStatus) == AwaitingPayment <==> postStatus == "wc-on-hold"
    ensures WooStatus(postStatus) == Processing <==> postStatus == "wc-processing"
    ensures WooStatus(postStatus) == Completed <==> postStatus == "wc-completed"
    ensures WooStatus(postStatus) == Cancelled <==>
      postStatus in {"wc-cancelled", "wc-failed", "wc-refunded"}
    ensures WooStatus(postStatus) == Pending <==>
      postStatus !in {"wc-on-hold", "wc-processing", "wc-completed", "wc-cancelled", "wc-failed", "wc-refunded"}
  {
  }

  // ---------------------------------------------------------------------------
  // Galleries

  /** The multi-valued `gallery` meta, with one level of accidental nesting removed:
      a single value that is itself an array stands for its elements. */
  function NormalizeGalleryIds(values: seq<Value>): seq<Value> {
    if |values| == 1 && values[0].Arr? then values[0].items else values
  }

  /** The keys of an ordered PHP array held as key/value pairs. */
  function KeysOf(g: seq<(Value, string)>): set<Value> {
    set p | p in g :: p.0
  }

  predicate DistinctKeys(g: seq<(Value, string)>) {
    forall i, j :: 0 <= i < j < |g| ==> g[i].0 != g[j].0
  }

  /** Position of key `k` in `g`, or `|g|` when it is absent. */
  function KeyIndex(g: seq<(Value, string)>, k: Value): (i: nat)
    ensures i <= |g|
    ensures i < |g| ==> g[i].0 == k
    ensures forall j :: 0 <= j < i ==> g[j].0 != k
    decreases |g|
  {
    if g == [] then 0
    else if g[0].0 == k then 0
    else
      var i := KeyIndex(g[1..], k);
      assert forall j :: 1 <= j < i + 1 ==> g[j] == g[1..][j - 1];
      i + 1
  }

  /** `$a[$k] = $v` on an ordered PHP array: an existing key keeps its position and
      takes the new value; a new key is appended. */
  function Put(g: seq<(Value, string)>, k: Value, v: string): (r: seq<(Value, string)>)
    requires DistinctKeys(g)
    ensures DistinctKeys(r)
    ensures KeysOf(r) == KeysOf(g) + {k}
    ensures k in KeysOf(g) ==>
      |r| == |g| && forall i :: 0 <= i < |g| ==> r[i] == (if g[i].0 == k then (k, v) else g[i])
    ensures k !in KeysOf(g) ==> r == g + [(k, v)]
  {
    var i := KeyIndex(g, k);
    if i < |g| then
      var r := g[i := (k, v)];
      assert k in KeysOf(g) by { assert g[i] in g; }
      assert forall j :: 0 <= j < |g| && j != i ==> g[j].0 != k;
      assert KeysOf(r) == KeysOf(g) by {
        forall x | x in KeysOf(r) ensures x in KeysOf(g) {
          var p :| p in r && p.0 == x;
          var j :| 0 <= j < |r| && r[j] == p;
          assert g[j].0 == x;
          assert g[j] in g;
        }
        forall x | x in KeysOf(g) ensures x in KeysOf(r) {
          var p :| p in g && p.0 == x;
          var j :| 0 <= j < |g| && g[j] == p;
          assert r[j].0 == x;
          assert r[j] in r;
        }
      }
      r
    else
      var r := g + [(k, v)];
      assert k !in KeysOf(g) by {
        forall p | p in g ensures p.0 != k {
          var j :| 0 <= j < |g| && g[j] == p;
        }
      }
      assert KeysOf(r) == KeysOf(g) + {k} by {
        forall x | x in KeysOf(r) ensures x in KeysOf(g) + {k} {
          var p :| p in r && p.0 == x;
          var j :| 0 <= j < |r| && r[j] == p;
          if j < |g| { assert g[j] in g; }
        }
        assert r[|g|] in r;
        forall x | x in KeysOf(g) ensures x in KeysOf(r) {
          var p :| p in g && p.0 == x;
          var j :| 0 <= j < |g| && g[j] == p;
          assert r[j] in r;
        }
      }
      r
  }

  /** The gallery built from ids: each id whose attachment URL (looked up by the id cast to
      int) resolves, mapped to that URL. */
  function GalleryOf(url: int -> Option<string>, ids: seq<Value>): (g: seq<(Value, string)>)
    ensures DistinctKeys(g)
    ensures forall i :: 0 <= i < |g| ==> url(ToInt(g[i].0)) == Some(g[i].1)
    ensures KeysOf(g) == set x | x in ids && url(ToInt(x)).Some?
    decreases |ids|
  {
    if ids == [] then []
    else
      var init := ids[..|ids| - 1];
      var g := GalleryOf(url, init);
      var id := ids[|ids| - 1];
      assert ids == init + [id];
      assert (set x | x in ids && url(ToInt(x)).Some?)
          == (set x | x in init && url(ToInt(x)).Some?) + (if url(ToInt(id)).Some? then {id} else {});
      if url(ToInt(id)).Some? then Put(g, id, url(ToInt(id)).value) else g
  }

  /** A gallery id is kept exactly when it resolves, with its URL. */
  lemma GalleryLookup(url: int -> Option<string>, ids: seq<Value>, id: Value)
    ensures id in KeysOf(GalleryOf(url, ids)) <==> id in ids && url(ToInt(id)).Some?
    ensures forall i :: 0 <= i < |GalleryOf(url, ids)| && GalleryOf(url, ids)[i].0 == id ==>
      url(ToInt(id)) == Some(GalleryOf(url, ids)[i].1)
  {
    if id in ids && url(ToInt(id)).Some? {
      assert id in set x | x in ids && url(ToInt(x)).Some?;
    }
  }

  /** An id that resolves but cannot be an array key: storing it under its own value
      raises PHP's "Illegal offset type" error. */
  predicate IllegalGalleryKey(url: int -> Option<string>, id: Value) {
    id.Arr? && url(ToInt(id)).Some?
  }

  /** Some id of the gallery loop stops it with "Illegal offset type". */
  predicate GalleryKeyThrows(url: int -> Option<string>, ids: seq<Value>) {
    exists i :: 0 <= i < |ids| && IllegalGalleryKey(url, ids[i])
  }

  /** The decoded WooCommerce gallery: the comma-separated pieces, trimmed and cast to int, zeros dropped. */
  function WooGalleryIds(gallery: string): (ids: seq<int>)
    ensures forall i :: 0 <= i < |ids| ==> ids[i] != 0
  {
    NonZeroIds(Explode(',', gallery))
  }

  /** `array_filter(array_map('intval', array_map('trim', $pieces)))`. */
  function NonZeroIds(pieces: seq<string>): (ids: seq<int>)
    ensures |ids| <= |pieces|
    ensures forall i :: 0 <= i < |ids| ==> ids[i] != 0
    decreases |pieces|
  {
    if pieces == [] then []
    else
      var n := StringToInt(Trim(pieces[|pieces| - 1]));
      NonZeroIds(pieces[..|pieces| - 1]) + (if n != 0 then [n] else [])
  }

  function DecimalTexts(ns: seq<int>): (ts: seq<string>)
    ensures |ts| == |ns|
    ensures forall i :: 0 <= i < |ts| ==> ts[i] == IntToString(ns[i])
    decreases |ns|
  {
    if ns == [] then [] else DecimalTexts(ns[..|ns| - 1]) + [IntToString(ns[|ns| - 1])]
  }

  function NonZero(ns: seq<int>): seq<int>
    decreases |ns|
  {
    if ns == [] then [] else NonZero(ns[..|ns| - 1]) + (if ns[|ns| - 1] != 0 then [ns[|ns| - 1]] else [])
  }

  lemma NatToStringEdges(n: nat)
    ensures NatToString(n)[0] != '-' && !IsTrimSpace(NatToString(n)[0])
    ensures !IsTrimSpace(NatToString(n)[|NatToString(n)| - 1])
  {
    assert IsDigit(NatToString(n)[0]);
    assert IsDigit(NatToString(n)[|NatToString(n)| - 1]);
  }

  lemma IntToStringPlain(i: int)
    ensures ',' !in IntToString(i)
    ensures Trim(IntToString(i)) == IntToString(i)
  {
    var s := IntToString(i);
    var ds := NatToString(if i < 0 then -i else i);
    assert forall k :: 0 <= k < |ds| ==> IsDigit(ds[k]);
    NatToStringEdges(if i < 0 then -i else i);
    if i < 0 {
      assert s == "-" + ds;
      assert forall k :: 1 <= k < |s| ==> s[k] == ds[k - 1];
    }
    assert ',' !in s;
    TrimUnchanged(s);
  }

  lemma {:induction false} NonZeroIdsOfTexts(ns: seq<int>)
    ensures NonZeroIds(DecimalTexts(ns)) == NonZero(ns)
    decreases |ns|
  {
    if ns != [] {
      var init := ns[..|ns| - 1];
      NonZeroIdsOfTexts(init);
      var ts := DecimalTexts(ns);
      assert ts[..|ts| - 1] == DecimalTexts(init);
      IntToStringPlain(ns[|ns| - 1]);
      IntRoundTrip(ns[|ns| - 1]);
    }
  }

  /** Writing ids as a comma-separated list and decoding it gives back the non-zero ids, in order. */
  lemma WooGalleryRoundTrip(ns: seq<int>)
    requires ns != []
    ensures WooGalleryIds(Join(DecimalTexts(ns), ',')) == NonZero(ns)
  {
    var ts := DecimalTexts(ns);
    forall i | 0 <= i < |ts| ensures ',' !in ts[i] {
      IntToStringPlain(ns[i]);
    }
    ExplodeJoin(',', ts);
    NonZeroIdsOfTexts(ns);
  }

  // ---------------------------------------------------------------------------
  // Order line items

  /** A stored order line: target product id (0 if unresolved), quantity, unit price, subtotal, options. */
  datatype LineItem = LineItem(productId: int, qty: int, price: real, subtotal: real, options: map<string, Value>)

  /** One entry of a Velocity order's `produk.products` list; None where a key is not set. */
  datatype DetailItem = DetailItem(id: Option<Value>, jumlah: Option<Value>, harga: Option<Value>, keterangan: Option<Value>)

  /** The Velocity product id of an item, 0 when absent. */
  function VelocityOldProductId(item: DetailItem): Value {
    item.id.GetOr(Int(0))
  }

  /** `$price * $qty`: the amount of a line. */
  function LineSubtotal(price: real, qty: int): real {
    price * qty as real
  }

  /** A Velocity line. The quantity is the cast `jumlah`, 1 when it is not set; the unit
      price is the explicit `harga`, else the migrated product's stored price when the product
      resolved, else 0; the subtotal is price times quantity; `keterangan` becomes the "Info" option. */
  function VelocityLineItem(item: DetailItem, newPid: int, storedPrice: real): (li: LineItem)
    ensures li.productId == newPid
    ensures li.qty == (if item.jumlah.Some? then ToInt(item.jumlah.value) else 1)
    ensures item.harga.Some? ==> li.price == ToReal(item.harga.value)
    ensures item.harga.None? && newPid != 0 ==> li.price == storedPrice
    ensures item.harga.None? && newPid == 0 ==> li.price == 0.0
    ensures li.subtotal == LineSubtotal(li.price, li.qty)
    ensures item.keterangan.Some? ==> li.options == map["Info" := item.keterangan.value]
    ensures item.keterangan.None? ==> li.options == map[]
  {
    var qty := if item.jumlah.Some? then ToInt(item.jumlah.value) else 1;
    var price :=
      if item.harga.Some? then ToReal(item.harga.value)
      else if newPid != 0 then storedPrice
      else 0.0;
    var options := if item.keterangan.Some? then map["Info" := item.keterangan.value] else map[];
    LineItem(newPid, qty, price, LineSubtotal(price, qty), options)
  }

  /** An item with neither quantity nor price, whose product resolved, is one unit at the stored price. */
  lemma VelocityLineDefaults(item: DetailItem, newPid: int, storedPrice: real)
    requires item.jumlah.None? && item.harga.None? && newPid != 0
    ensures VelocityLineItem(item, newPid, storedPrice).qty == 1
    ensures VelocityLineItem(item, newPid, storedPrice).subtotal == storedPrice
  {
  }

  /** The item-meta keys the WooCommerce item query selects. */
  const ItemMetaKeys: set<string> := {"_product_id", "_variation_id", "_qty", "_line_total", "_line_subtotal"}

  /** The keys of `rows` the item query selects. */
  function SelectedKeys(rows: seq<(string, Value)>): set<string> {
    set i | 0 <= i < |rows| && rows[i].0 in ItemMetaKeys :: rows[i].0
  }

  /** `$meta[$key] = $value` over the selected item-meta rows: the last row of each key wins. */
  function ItemMeta(rows: seq<(string, Value)>): (m: map<string, Value>)
    ensures m.Keys == SelectedKeys(rows)
    decreases |rows|
  {
    if rows == [] then map[]
    else
      var init := rows[..|rows| - 1];
      var (k, v) := rows[|rows| - 1];
      assert SelectedKeys(rows) == SelectedKeys(init) + (if k in ItemMetaKeys then {k} else {}) by {
        assert forall i :: 0 <= i < |init| ==> init[i] == rows[i];
      }
      if k in ItemMetaKeys then ItemMeta(init)[k := v] else ItemMeta(init)
  }

  /** A selected key holds the value of its last row. */
  lemma {:induction false} ItemMetaLastWins(rows: seq<(string, Value)>, i: nat)
    requires i < |rows| && rows[i].0 in ItemMetaKeys
    requires forall j :: i < j < |rows| ==> rows[j].0 != rows[i].0
    ensures ItemMeta(rows)[rows[i].0] == rows[i].1
    decreases |rows|
  {
    if i < |rows| - 1 {
      var init := rows[..|rows| - 1];
      assert init[i] == rows[i];
      ItemMetaLastWins(init, i);
    }
  }

  /** `isset($meta[$k])`: the key is present and its value is not NULL. */
  predicate IsSet(meta: map<string, Value>, k: string) {
    k in meta && meta[k] != Null
  }

  /** The WooCommerce product id of an item, 0 when unset. */
  function WooOldProductId(meta: map<string, Value>): int {
    if IsSet(meta, "_product_id") then ToInt(meta["_product_id"]) else 0
  }

  /** Dividing a total by a positive quantity and multiplying back gives the total. */
  lemma DivideBack(total: real, qty: int)
    requires qty > 0
    ensures LineSubtotal(total / qty as real, qty) == total
  {
  }

  /** A WooCommerce line. The quantity is the cast `_qty`, 1 when unset; the subtotal is the
      stored `_line_total` (0 when unset); the unit price is that total shared over a positive
      quantity, and 0 otherwise. */
  function WooLineItem(meta: map<string, Value>, newPid: int): (li: LineItem)
    ensures li.productId == newPid
    ensures li.qty == (if IsSet(meta, "_qty") then ToInt(meta["_qty"]) else 1)
    ensures li.subtotal == (if IsSet(meta, "_line_total") then ToReal(meta["_line_total"]) else 0.0)
    ensures li.qty > 0 ==> LineSubtotal(li.price, li.qty) == li.subtotal
    ensures li.qty <= 0 ==> li.price == 0.0
    ensures !IsSet(meta, "_qty") ==> li.price == li.subtotal
    ensures li.options == map[]
  {
    var qty := if IsSet(meta, "_qty") then ToInt(meta["_qty"]) else 1;
    var lineTotal := if IsSet(meta, "_line_total") then ToReal(meta["_line_total"]) else 0.0;
    var price := if qty > 0 then lineTotal / qty as real else 0.0;
    if qty > 0 then DivideBack(lineTotal, qty); LineItem(newPid, qty, price, lineTotal, map[])
    else LineItem(newPid, qty, price, lineTotal, map[])
  }
}
