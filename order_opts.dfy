/** The order summary the `order` action builds from an order payload
    (webhooks_controller.rb, `discount_code` and `order_opts`). Every
    piece is an expression over the payload; a piece that indexes a value
    Ruby cannot index raises, and the whole summary raises with it. */
module OrderOpts {
  import opened Json

  /** The nine keys of `order_opts`; every summary has all of them. */
  const OrderKeys: set<string> :=
    {"shopify_id", "items", "item_variants", "discount_code", "shopper_country",
     "referring_site", "orders_count", "total", "cart_token"}

  /** The four keys of each `item_variants` entry. */
  const VariantKeys: set<string> := {"variant_id", "quantity", "price", "discount"}

  /** `payload['discount_codes'] && payload['discount_codes'][0]` guarding
      `payload['discount_codes'][0]['code']`, else nil. */
  function DiscountCode(payload: Value): (r: Result<Value>)
    ensures Index(payload, "discount_codes").Raise? ==> r.Raise?
    ensures var codes := Index(payload, "discount_codes");
            codes.Ok? && !Truthy(codes.value) ==> r == Ok(Null)
    ensures var codes := Index(payload, "discount_codes");
            codes.Ok? && codes.value.Arr? ==>
              if |codes.value.elems| == 0 || !Truthy(codes.value.elems[0]) then r == Ok(Null)
              else r == Index(codes.value.elems[0], "code")
  {
    var codes :- Index(payload, "discount_codes");
    if !Truthy(codes) then Ok(Null)
    else
      var first :- At0(codes);
      if !Truthy(first) then Ok(Null) else Index(first, "code")
  }

  /** What `.map` enumerates for `payload['line_items'] || []`: an Array's
      elements; an empty Hash gives nothing, and a non-empty Hash yields
      [key, value] pairs, which refuse a String index; nothing else has `map`. */
  function Enumerate(v: Value): (r: Result<seq<Value>>)
    ensures r.Ok? <==> v.Arr? || v == Obj(map[])
    ensures v.Arr? ==> r == Ok(v.elems)
    ensures v == Obj(map[]) ==> r == Ok([])
    ensures r.Raise? ==> r.error == (if v.Obj? then TypeError else NoMethodError)
  {
    match v
    case Arr(xs) => Ok(xs)
    case Obj(m) => if |m| == 0 then Ok([]) else Raise(TypeError)
    case _ => Raise(NoMethodError)
  }

  /** The line items the order action iterates over. */
  function LineItems(payload: Value): (r: Result<seq<Value>>)
    ensures Index(payload, "line_items") == Ok(Null) ==> r == Ok([])
    ensures forall xs :: Index(payload, "line_items") == Ok(Arr(xs)) ==> r == Ok(xs)
  {
    var li :- Index(payload, "line_items");
    Enumerate(if Truthy(li) then li else Arr([]))
  }

  /** `items.map { |l| l[key] }`: stops at the first element that raises. */
  function MapIndex(items: seq<Value>, key: string): (r: Result<seq<Value>>)
    ensures r.Ok? <==> forall i :: 0 <= i < |items| ==> Index(items[i], key).Ok?
    ensures r.Ok? ==> |r.value| == |items|
    ensures r.Ok? ==> forall i :: 0 <= i < |items| ==> Index(items[i], key) == Ok(r.value[i])
  {
    if items == [] then Ok([])
    else
      var head :- Index(items[0], key);
      var tail :- MapIndex(items[1..], key);
      Ok([head] + tail)
  }

  /** Ruby's `compact`: the nils are dropped, everything else is kept. */
  function Compact(xs: seq<Value>): (r: seq<Value>)
    ensures Null !in r
    ensures multiset(r) == multiset(xs)[Null := 0]
  {
    if xs == [] then []
    else
      assert xs == [xs[0]] + xs[1..];
      (if xs[0] == Null then [] else [xs[0]]) + Compact(xs[1..])
  }

  predicate AllInts(s: seq<Value>) {
    forall i :: 0 <= i < |s| ==> s[i].Int?
  }

  /** Integers in ascending order. */
  predicate SortedInts(s: seq<Value>) {
    AllInts(s) && forall i, j :: 0 <= i < j < |s| ==> s[i].n <= s[j].n
  }

  /** Integers no smaller than `m`. */
  predicate AtLeast(s: seq<Value>, m: int) {
    forall i :: 0 <= i < |s| ==> s[i].Int? && m <= s[i].n
  }

  lemma SortedCons(a: Value, s: seq<Value>)
    requires a.Int? && SortedInts(s) && AtLeast(s, a.n)
    ensures SortedInts([a] + s)
  {
    var r := [a] + s;
    forall i, j | 0 <= i < j < |r| ensures r[i].n <= r[j].n {
      if i > 0 {
        assert r[i] == s[i - 1] && r[j] == s[j - 1];
      } else {
        assert r[j] == s[j - 1];
      }
    }
  }

  function Insert(x: Value, s: seq<Value>): (r: seq<Value>)
    requires x.Int? && SortedInts(s)
    ensures SortedInts(r)
    ensures forall m :: AtLeast(s, m) && m <= x.n ==> AtLeast(r, m)
    ensures multiset(r) == multiset(s) + multiset{x}
  {
    if s == [] || x.n <= s[0].n then
      assert AtLeast(s, x.n);
      SortedCons(x, s);
      [x] + s
    else
      assert AtLeast(s[1..], s[0].n);
      var rest := Insert(x, s[1..]);
      assert AtLeast(rest, s[0].n);
      SortedCons(s[0], rest);
      assert s == [s[0]] + s[1..];
      assert multiset([s[0]] + rest) == multiset{s[0]} + multiset(rest);
      [s[0]] + rest
  }

  /** Ruby's `sort` on a list of integers. */
  function SortInts(s: seq<Value>): (r: seq<Value>)
    requires AllInts(s)
    ensures SortedInts(r)
    ensures multiset(r) == multiset(s)
  {
    if s == [] then []
    else
      assert s == [s[0]] + s[1..];
      Insert(s[0], SortInts(s[1..]))
  }

  /** Ruby's `sort` of product ids: integers come out in ascending order; a
      list of fewer than two elements needs no comparison; any other list
      is taken to hold two values Ruby cannot compare. */
  function SortIds(ids: seq<Value>): (r: Result<seq<Value>>)
    ensures r.Ok? <==> AllInts(ids) || |ids| <= 1
    ensures r.Raise? ==> r.error == ArgumentError
    ensures r.Ok? ==> multiset(r.value) == multiset(ids)
    ensures r.Ok? && AllInts(ids) ==> SortedInts(r.value)
  {
    if AllInts(ids) then Ok(SortInts(ids))
    else if |ids| <= 1 then Ok(ids)
    else Raise(ArgumentError)
  }

  /** `l['product_id']` for every line item. */
  function ProductIds(payload: Value): (r: Result<seq<Value>>)
    ensures r.Ok? <==> LineItems(payload).Ok?
                       && forall i :: 0 <= i < |LineItems(payload).value| ==>
                            Index(LineItems(payload).value[i], "product_id").Ok?
    ensures r.Ok? ==> |r.value| == |LineItems(payload).value|
    ensures r.Ok? ==> forall i :: 0 <= i < |r.value| ==>
              Index(LineItems(payload).value[i], "product_id") == Ok(r.value[i])
  {
    var li :- LineItems(payload);
    MapIndex(li, "product_id")
  }

  /** The `items` entry: the product ids of the line items with the nils
      dropped, sorted ascending; no line items give the empty list. */
  function Items(payload: Value): (r: Result<Value>)
    ensures Index(payload, "line_items") == Ok(Null) ==> r == Ok(Arr([]))
    ensures r.Ok? <==> ProductIds(payload).Ok?
                       && (AllInts(Compact(ProductIds(payload).value))
                           || |Compact(ProductIds(payload).value)| <= 1)
    ensures r.Ok? ==> r.value.Arr? && Null !in r.value.elems
    ensures r.Ok? ==> multiset(r.value.elems) == multiset(ProductIds(payload).value)[Null := 0]
    ensures r.Ok? && AllInts(Compact(ProductIds(payload).value)) ==> SortedInts(r.value.elems)
  {
    var ids :- ProductIds(payload);
    var sorted :- SortIds(Compact(ids));
    assert Null !in multiset(sorted);
    Ok(Arr(sorted))
  }

  /** One `item_variants` entry:
      `{variant_id:, quantity:, price:, discount: l['discount_allocations']}`. */
  function Variant(l: Value): (r: Result<Value>)
    ensures r.Ok? <==> Index(l, "variant_id").Ok?
    ensures r.Ok? ==> r.value.Obj? && r.value.fields.Keys == VariantKeys
    ensures r.Ok? ==> Index(l, "variant_id") == Ok(r.value.fields["variant_id"])
    ensures r.Ok? ==> Index(l, "quantity") == Ok(r.value.fields["quantity"])
    ensures r.Ok? ==> Index(l, "price") == Ok(r.value.fields["price"])
    ensures r.Ok? ==> Index(l, "discount_allocations") == Ok(r.value.fields["discount"])
  {
    var variantId :- Index(l, "variant_id");
    // the later lookups have the same receiver, so they cannot raise
    IndexFailsByClass(l, "variant_id", "quantity");
    IndexFailsByClass(l, "variant_id", "price");
    IndexFailsByClass(l, "variant_id", "discount_allocations");
    Ok(Obj(map["variant_id" := variantId,
               "quantity" := Index(l, "quantity").value,
               "price" := Index(l, "price").value,
               "discount" := Index(l, "discount_allocations").value]))
  }

  /** `line_items.map { |l| {...} }`: one entry per line item, in order. */
  function ItemVariants(li: seq<Value>): (r: Result<seq<Value>>)
    ensures r.Ok? <==> forall i :: 0 <= i < |li| ==> Variant(li[i]).Ok?
    ensures r.Ok? ==> |r.value| == |li|
    ensures r.Ok? ==> forall i :: 0 <= i < |li| ==> Variant(li[i]) == Ok(r.value[i])
  {
    if li == [] then Ok([])
    else
      var head :- Variant(li[0]);
      var tail :- ItemVariants(li[1..]);
      Ok([head] + tail)
  }

  /** The `item_variants` entry of the summary. */
  function ItemVariantsOf(payload: Value): (r: Result<Value>)
    ensures r.Ok? ==> LineItems(payload).Ok? && r.value.Arr?
    ensures r.Ok? ==> |r.value.elems| == |LineItems(payload).value|
    ensures r.Ok? ==> forall i :: 0 <= i < |r.value.elems| ==>
              r.value.elems[i].Obj? && r.value.elems[i].fields.Keys == VariantKeys
              && Variant(LineItems(payload).value[i]) == Ok(r.value.elems[i])
  {
    var li :- LineItems(payload);
    var variants :- ItemVariants(li);
    Ok(Arr(variants))
  }

  /** `payload[block].present? ? payload[block][key] : nil`, the shape of
      `shopper_country` and `orders_count`. */
  function PresentOrNil(payload: Value, block: string, key: string): (r: Result<Value>)
    ensures Index(payload, block).Raise? ==> r.Raise?
    ensures Index(payload, block).Ok? && Blank(Index(payload, block).value) ==> r == Ok(Null)
    ensures Index(payload, block).Ok? && Present(Index(payload, block).value) ==>
              r == Index(Index(payload, block).value, key)
  {
    var b :- Index(payload, block);
    if Present(b) then Index(b, key) else Ok(Null)
  }

  /** `order_opts`: a hash with always the same nine keys; a missing
      optional block is an explicit nil, never a missing key. */
  function Build(payload: Value): (r: Result<Value>)
    ensures r.Ok? <==> DiscountCode(payload).Ok? && Items(payload).Ok? && ItemVariantsOf(payload).Ok?
                       && PresentOrNil(payload, "billing_address", "country_code").Ok?
                       && PresentOrNil(payload, "customer", "orders_count").Ok?
    ensures r.Ok? ==> r.value.Obj? && r.value.fields.Keys == OrderKeys
    ensures r.Ok? ==> Index(payload, "id") == Ok(r.value.fields["shopify_id"])
    ensures r.Ok? ==> Items(payload) == Ok(r.value.fields["items"])
    ensures r.Ok? ==> ItemVariantsOf(payload) == Ok(r.value.fields["item_variants"])
    ensures r.Ok? ==> DiscountCode(payload) == Ok(r.value.fields["discount_code"])
    ensures r.Ok? ==> PresentOrNil(payload, "billing_address", "country_code")
                        == Ok(r.value.fields["shopper_country"])
    ensures r.Ok? ==> Index(payload, "referring_site") == Ok(r.value.fields["referring_site"])
    ensures r.Ok? ==> PresentOrNil(payload, "customer", "orders_count")
                        == Ok(r.value.fields["orders_count"])
    ensures r.Ok? ==> Index(payload, "total_price") == Ok(r.value.fields["total"])
    ensures r.Ok? ==> Index(payload, "cart_token") == Ok(r.value.fields["cart_token"])
  {
    var discountCode :- DiscountCode(payload);
    // `payload['discount_codes']` returned, so the plain lookups on the
    // same receiver below cannot raise
    IndexFailsByClass(payload, "discount_codes", "id");
    IndexFailsByClass(payload, "discount_codes", "referring_site");
    IndexFailsByClass(payload, "discount_codes", "total_price");
    IndexFailsByClass(payload, "discount_codes", "cart_token");
    var items :- Items(payload);
    var itemVariants :- ItemVariantsOf(payload);
    var shopperCountry :- PresentOrNil(payload, "billing_address", "country_code");
    var ordersCount :- PresentOrNil(payload, "customer", "orders_count");
    Ok(Summary(Index(payload, "id").value, items, itemVariants, discountCode, shopperCountry,
               Index(payload, "referring_site").value, ordersCount,
               Index(payload, "total_price").value, Index(payload, "cart_token").value))
  }

  /** The `order_opts` hash literal. */
  function Summary(shopifyId: Value, items: Value, itemVariants: Value, discountCode: Value,
                   shopperCountry: Value, referringSite: Value, ordersCount: Value,
                   total: Value, cartToken: Value): (v: Value)
    ensures v.Obj? && v.fields.Keys == OrderKeys
    ensures v.fields["shopify_id"] == shopifyId && v.fields["items"] == items
    ensures v.fields["item_variants"] == itemVariants && v.fields["discount_code"] == discountCode
    ensures v.fields["shopper_country"] == shopperCountry
    ensures v.fields["referring_site"] == referringSite && v.fields["orders_count"] == ordersCount
    ensures v.fields["total"] == total && v.fields["cart_token"] == cartToken
  {
    Obj(map[
      "shopify_id" := shopifyId,
      "items" := items,
      "item_variants" := itemVariants,
      "discount_code" := discountCode,
      "shopper_country" := shopperCountry,
      "referring_site" := referringSite,
      "orders_count" := ordersCount,
      "total" := total,
      "cart_token" := cartToken])
  }

  /** An order whose line items have product ids 5, 3 and nil. */
  const SampleOrder: Value :=
    Obj(map["line_items" := Arr([Obj(map["product_id" := Int(5)]),
                                 Obj(map["product_id" := Int(3)]),
                                 Obj(map["product_id" := Null])])])

  lemma SampleProductIds()
    ensures ProductIds(SampleOrder) == Ok([Int(5), Int(3), Null])
  {
    var li := SampleOrder.fields["line_items"].elems;
    assert LineItems(SampleOrder) == Ok(li);
    var ids := MapIndex(li, "product_id");
    assert Index(li[0], "product_id") == Ok(Int(5));
    assert Index(li[1], "product_id") == Ok(Int(3));
    assert Index(li[2], "product_id") == Ok(Null);
    assert ids.Ok? && |ids.value| == 3;
    assert ids.value == [Int(5), Int(3), Null];
  }

  lemma SampleCompact()
    ensures Compact([Int(5), Int(3), Null]) == [Int(5), Int(3)]
  {
    assert [Int(5), Int(3), Null][1..] == [Int(3), Null];
    assert [Int(3), Null][1..] == [Null];
    assert Compact([Null]) == [];
    assert Compact([Int(3), Null]) == [Int(3)];
  }

  lemma SampleSort()
    ensures SortIds([Int(5), Int(3)]) == Ok([Int(3), Int(5)])
  {
    assert [Int(5), Int(3)][1..] == [Int(3)];
    assert SortInts([Int(3)]) == [Int(3)];
    assert Insert(Int(5), [Int(3)]) == [Int(3), Int(5)];
  }

  /** Product ids 5, 3 and nil give `items == [3, 5]`. */
  lemma ItemsDropNilsAndSort()
    ensures Items(SampleOrder) == Ok(Arr([Int(3), Int(5)]))
  {
    SampleProductIds();
    SampleCompact();
    SampleSort();
  }

  /** An order without discount codes, billing address or customer still
      has all nine keys, with those three entries nil; one without line
      items has empty `items` and `item_variants`. */
  lemma MissingBlocksAreNil(payload: Value)
    requires payload.Obj?
    requires "discount_codes" !in payload.fields && "billing_address" !in payload.fields
    requires "customer" !in payload.fields && "line_items" !in payload.fields
    ensures Build(payload).Ok?
    ensures var opts := Build(payload).value;
            && opts.fields.Keys == OrderKeys
            && opts.fields["discount_code"] == Null
            && opts.fields["shopper_country"] == Null
            && opts.fields["orders_count"] == Null
            && opts.fields["items"] == Arr([])
            && opts.fields["item_variants"] == Arr([])
  {
  }
}
