/** The RetailCRM plugin's order push: on a payment transition it makes
    sure the customer exists in the CRM, creates CRM products for the order
    lines whose offer the CRM does not know, and sends the order.

    The remote answers (the customer lookup, the fetched offers, the
    created products) are parameters, and so are the clock's readings.
    Collections arrive with their parents already attached. */
module RetailcrmPlugin {
  import opened Wrappers
  import opened Seqs
  import opened Strings

  /** The slug of the collection whose children are brands. */
  const BrandSlug: string := "brand"
  /** What a template literal renders for an absent value. */
  const Undefined: string := "undefined"

  datatype Collection = Collection(slug: string, name: string, parent: Option<Collection>)

  datatype ProductVariant = ProductVariant(
    name: string, sku: string, productId: string, priceWithTax: int, collections: seq<Collection>)

  datatype OrderLine = OrderLine(variant: ProductVariant, quantity: int)

  // ---------------------------------------------------------------------
  // Brands and offer identities.

  /** A brand collection: not the brand root itself, with parent slug `brand`. */
  predicate IsBrandCollection(c: Collection) {
    c.slug != BrandSlug && c.parent.Some? && c.parent.value.slug == BrandSlug
  }

  /** `findBrandCollection`: the first brand collection in list order, or null. */
  function FindBrandCollection(collections: seq<Collection>): (r: Option<Collection>)
    ensures r.None? <==> forall k :: 0 <= k < |collections| ==> !IsBrandCollection(collections[k])
    ensures r.Some? ==> IsBrandCollection(r.value) && r.value.parent.Some?
    ensures r.Some? ==> exists k :: 0 <= k < |collections| && collections[k] == r.value &&
                          forall j :: 0 <= j < k ==> !IsBrandCollection(collections[j])
  {
    match FirstIndex(collections, IsBrandCollection)
    case None => None
    case Some(k) => Some(collections[k])
  }

  /** `${brand?.slug}` for the variant's brand. */
  function BrandSlugOf(v: ProductVariant): string {
    match FindBrandCollection(v.collections)
    case Some(brand) => brand.slug
    case None => Undefined
  }

  /** `${brand?.name}` for the variant's brand. */
  function BrandNameOf(v: ProductVariant): string {
    match FindBrandCollection(v.collections)
    case Some(brand) => brand.name
    case None => Undefined
  }

  /** `computeOfferExternalId`: `${brand?.slug}-${sku}`, lower-cased. */
  function OfferExternalId(v: ProductVariant): (id: string)
    ensures id == Lower(BrandSlugOf(v)) + "-" + Lower(v.sku)
  {
    LowerConcat(BrandSlugOf(v) + "-", v.sku);
    LowerConcat(BrandSlugOf(v), "-");
    Lower(BrandSlugOf(v) + "-" + v.sku)
  }

  /** Offer external ids have no upper-case letter. */
  lemma OfferExternalIdLowered(v: ProductVariant)
    ensures IsLowered(OfferExternalId(v))
  {
    LowerIdempotent(BrandSlugOf(v) + "-" + v.sku);
  }

  /** Without a brand collection the offer external id begins with "undefined-". */
  lemma OfferExternalIdWithoutBrand(v: ProductVariant)
    requires FindBrandCollection(v.collections).None?
    ensures StartsWith(OfferExternalId(v), Undefined + "-")
  {
    assert BrandSlugOf(v) == Undefined;
    UndefinedIsLowered();
    var prefix := Undefined + "-";
    var id := OfferExternalId(v);
    assert id == prefix + Lower(v.sku);
    assert id[..|prefix|] == prefix;
  }

  lemma UndefinedIsLowered()
    ensures Lower(Undefined) == Undefined
  {
    assert IsLowered(Undefined) by {
      forall i | 0 <= i < |Undefined| ensures !IsUpper(Undefined[i]) {
        assert 'a' <= Undefined[i] <= 'z';
      }
    }
    LowerOfLowered(Undefined);
  }

  // ---------------------------------------------------------------------
  // Which lines need products created.

  /** An offer of the CRM's inventory, or of a created product. */
  datatype CrmOffer = CrmOffer(id: int, externalId: Option<string>)

  /** `offers.findIndex(offer => offer.externalId === offerExternalId) === -1`. */
  predicate NeedsProduct(line: OrderLine, offers: seq<CrmOffer>) {
    var id := OfferExternalId(line.variant);
    FirstIndex(offers, (o: CrmOffer) => o.externalId == Some(id)).None?
  }

  /** A line needs a product exactly when no fetched offer carries its offer external id. */
  lemma NeedsProductIff(line: OrderLine, offers: seq<CrmOffer>)
    ensures NeedsProduct(line, offers) <==>
              forall k :: 0 <= k < |offers| ==> offers[k].externalId != Some(OfferExternalId(line.variant))
  {
  }

  /** `NeedsProduct` against fixed offers, as the filter's callback. */
  function NeedsProductIn(offers: seq<CrmOffer>): OrderLine -> bool {
    (line: OrderLine) => NeedsProduct(line, offers)
  }

  /** `productsToCreate`: the lines whose offer the CRM does not have, in order. */
  function ProductsToCreate(lines: seq<OrderLine>, offers: seq<CrmOffer>): seq<OrderLine> {
    Filter(lines, NeedsProductIn(offers))
  }

  /** The filter keeps exactly the lines that need a product. */
  lemma ProductsToCreateMembers(lines: seq<OrderLine>, offers: seq<CrmOffer>)
    ensures forall l :: l in ProductsToCreate(lines, offers) <==> l in lines && NeedsProduct(l, offers)
  {
    FilterMembers(lines, NeedsProductIn(offers));
  }

  /** The filter keeps a single line exactly when it needs a product. */
  lemma ProductsToCreateSingle(l: OrderLine, offers: seq<CrmOffer>)
    ensures ProductsToCreate([l], offers) == if NeedsProduct(l, offers) then [l] else []
  {
    FilterSingle(l, NeedsProductIn(offers));
  }

  /** The filter distributes over concatenation; with ProductsToCreateSingle
      this pins it down as "the lines that need a product, in their order". */
  lemma ProductsToCreateConcat(a: seq<OrderLine>, b: seq<OrderLine>, offers: seq<CrmOffer>)
    ensures ProductsToCreate(a + b, offers) == ProductsToCreate(a, offers) + ProductsToCreate(b, offers)
  {
    FilterConcat(a, b, NeedsProductIn(offers));
  }

  // ---------------------------------------------------------------------
  // Creating the missing products.

  /** The body of one product in `ProductsBatchCreate`. */
  datatype ProductCreateInput = ProductCreateInput(externalId: string, name: string, catalogId: int)

  predicate IsDateChar(c: char) { IsDigitChar(c) || c == '-' }
  predicate IsTimeChar(c: char) { IsDigitChar(c) || c == ':' }

  /** The string begins with a match of `^[\d-]{10}T[\d:]{5}`. */
  predicate HasMinutePrefix(s: string) {
    && |s| >= 16
    && (forall i :: 0 <= i < 10 ==> IsDateChar(s[i]))
    && s[10] == 'T'
    && (forall i :: 11 <= i < 16 ==> IsTimeChar(s[i]))
  }

  /** The date of a created product: the timestamp cut to its
      `^[\d-]{10}T[\d:]{5}` match when it has one, otherwise unchanged. */
  function TruncateTimestamp(iso: string): (r: string)
    ensures HasMinutePrefix(iso) ==> |r| == 16 && r == iso[..16] && HasMinutePrefix(r)
    ensures !HasMinutePrefix(iso) ==> r == iso
  {
    if HasMinutePrefix(iso) then iso[..16] else iso
  }

  /** Cutting twice cuts no further. */
  lemma TruncateTimestampIdempotent(iso: string)
    ensures TruncateTimestamp(TruncateTimestamp(iso)) == TruncateTimestamp(iso)
  {
    if HasMinutePrefix(iso) {
      var r := iso[..16];
      assert r[..16] == r;
    }
  }

  /** What `Date.prototype.toISOString` returns for a year 0000 to 9999:
      `YYYY-MM-DDTHH:mm:ss.sssZ`. */
  predicate IsIsoString(s: string) {
    && |s| == 24
    && (forall i :: 0 <= i < 24 && i !in {4, 7, 10, 13, 16, 19, 23} ==> IsDigitChar(s[i]))
    && s[4] == '-' && s[7] == '-' && s[10] == 'T' && s[13] == ':' && s[16] == ':'
    && s[19] == '.' && s[23] == 'Z'
  }

  /** Every `toISOString()` value is cut to its `YYYY-MM-DDTHH:mm` prefix:
      seconds and milliseconds are dropped. */
  lemma IsoStringTruncated(iso: string)
    requires IsIsoString(iso)
    ensures TruncateTimestamp(iso) == iso[..16]
    ensures TruncateTimestamp(iso)[10] == 'T' && TruncateTimestamp(iso)[13] == ':'
  {
    assert forall i :: 0 <= i < 10 ==> IsDateChar(iso[i]) by {
      forall i | 0 <= i < 10 ensures IsDateChar(iso[i]) {
        if i != 4 && i != 7 { assert IsDigitChar(iso[i]); }
      }
    }
    assert forall i :: 11 <= i < 16 ==> IsTimeChar(iso[i]) by {
      forall i | 11 <= i < 16 ensures IsTimeChar(iso[i]) {
        if i != 13 { assert IsDigitChar(iso[i]); }
      }
    }
  }

  const TemporaryMark: string := "[ВРЕМЕННО] "

  /** `${brand?.slug}-${productId}` lower-cased: the key by which a created
      product is matched back to its line. */
  function ProductKey(line: OrderLine): string {
    Lower(BrandSlugOf(line.variant) + "-" + line.variant.productId)
  }

  /** The product created for a line: `${brand?.slug}-${productId}-${date}`
      lower-cased, named `[ВРЕМЕННО] ${brand?.name} / ${sku}`. */
  function ProductCreateInputFor(line: OrderLine, now: string, catalogId: int): ProductCreateInput {
    var v := line.variant;
    ProductCreateInput(Lower(BrandSlugOf(v) + "-" + v.productId + "-" + TruncateTimestamp(now)),
                       TemporaryMark + BrandNameOf(v) + " / " + v.sku, catalogId)
  }

  /** The external id sent for a line begins with that line's key. */
  lemma CreatedIdStartsWithKey(line: OrderLine, now: string, catalogId: int)
    ensures var id := ProductCreateInputFor(line, now, catalogId).externalId;
      id != "" && StartsWith(id, ProductKey(line))
  {
    var v := line.variant;
    var key := BrandSlugOf(v) + "-" + v.productId;
    var rest := "-" + TruncateTimestamp(now);
    assert BrandSlugOf(v) + "-" + v.productId + "-" + TruncateTimestamp(now) == key + rest;
    LowerPrefix(key, rest);
  }

  /** A product as the `Products` query returns it. */
  datatype CrmProduct = CrmProduct(externalId: Option<string>, offers: seq<CrmOffer>)

  /** The `find` predicate: the product's external id is present, non-empty
      and starts with the line's key. */
  predicate CreatedFor(product: CrmProduct, line: OrderLine) {
    product.externalId.Some? && product.externalId.value != "" &&
    StartsWith(product.externalId.value, ProductKey(line))
  }

  /** The index of the first pending line the product was created for. */
  function MatchIndex(pending: seq<OrderLine>, product: CrmProduct): Option<nat> {
    FirstIndex(pending, (l: OrderLine) => CreatedFor(product, l))
  }

  /** The SKU of that line. */
  function MatchedSku(pending: seq<OrderLine>, product: CrmProduct): Option<string> {
    match MatchIndex(pending, product)
    case None => None
    case Some(k) => Some(pending[k].variant.sku)
  }

  /** A product whose external id is the one sent for pending line k is
      matched to line k or to an earlier line. */
  lemma MatchNoLaterThanOwnLine(pending: seq<OrderLine>, k: nat, now: string, catalogId: int, offers: seq<CrmOffer>)
    requires k < |pending|
    ensures var product := CrmProduct(Some(ProductCreateInputFor(pending[k], now, catalogId).externalId), offers);
      MatchIndex(pending, product).Some? && MatchIndex(pending, product).value <= k
  {
    CreatedIdStartsWithKey(pending[k], now, catalogId);
  }

  /** As written, two pending lines with the same brand and product id
      (two variants of one product) are told apart by nothing: the product
      created for the later line is matched to the earlier one. */
  lemma SameKeyLinesShareMatch(pending: seq<OrderLine>, j: nat, k: nat, now: string, catalogId: int, offers: seq<CrmOffer>)
    requires j < k < |pending|
    requires ProductKey(pending[j]) == ProductKey(pending[k])
    ensures var product := CrmProduct(Some(ProductCreateInputFor(pending[k], now, catalogId).externalId), offers);
      MatchIndex(pending, product).Some? && MatchIndex(pending, product).value <= j
  {
    CreatedIdStartsWithKey(pending[k], now, catalogId);
  }

  /** `startsWith` has no delimiter after the key: under one brand, a line
      whose product id extends another's (`12` after `1`) has a key that
      extends the other's (`undefined-12` after `undefined-1`). */
  lemma ProductIdPrefixKey(a: OrderLine, b: OrderLine)
    requires BrandSlugOf(a.variant) == BrandSlugOf(b.variant)
    requires StartsWith(b.variant.productId, a.variant.productId)
    ensures StartsWith(ProductKey(b), ProductKey(a))
  {
    var ida, idb := a.variant.productId, b.variant.productId;
    var ka := BrandSlugOf(a.variant) + "-" + ida;
    var rest := idb[|ida|..];
    assert idb == ida + rest;
    assert BrandSlugOf(b.variant) + "-" + idb == ka + rest;
    LowerConcat(ka, rest);
  }

  /** So the product created for pending line k is matched to an earlier
      line j of the same brand whenever line j's product id is a prefix of
      line k's, not only when the two are equal. */
  lemma ProductIdPrefixSharesMatch(pending: seq<OrderLine>, j: nat, k: nat, now: string, catalogId: int, offers: seq<CrmOffer>)
    requires j < k < |pending|
    requires BrandSlugOf(pending[j].variant) == BrandSlugOf(pending[k].variant)
    requires StartsWith(pending[k].variant.productId, pending[j].variant.productId)
    ensures var product := CrmProduct(Some(ProductCreateInputFor(pending[k], now, catalogId).externalId), offers);
      MatchIndex(pending, product).Some? && MatchIndex(pending, product).value <= j
  {
    ProductIdPrefixKey(pending[j], pending[k]);
    CreatedIdStartsWithKey(pending[k], now, catalogId);
    var id := ProductCreateInputFor(pending[k], now, catalogId).externalId;
    var kj, kk := ProductKey(pending[j]), ProductKey(pending[k]);
    assert id[..|kj|] == id[..|kk|][..|kj|];
    assert CreatedFor(CrmProduct(Some(id), offers), pending[j]);
  }

  datatype CustomerLookup = CustomerFound | CrmError(statusCode: int) | TransportError

  datatype PluginError =
    | CustomerUndefined                           // 'order.customer is undefined!'
    | CustomerLookupFailed(lookup: CustomerLookup) // rethrown lookup failure
    | OfferMissing                                // `product.offers[0].id` on a product without offers

  /** The `find` of the loop body, as a function of the product: the SKU of
      the first pending line the product was created for. */
  function Matcher(pending: seq<OrderLine>): CrmProduct -> Option<string> {
    (product: CrmProduct) => MatchedSku(pending, product)
  }

  /** One iteration of the `createdProductsMap` loop. */
  function MapStep(m: map<string, int>, matchSku: CrmProduct -> Option<string>, product: CrmProduct): Result<map<string, int>, PluginError> {
    match matchSku(product)
    case None => Success(m)
    case Some(sku) =>
      if |product.offers| == 0 then Failure(OfferMissing)
      else Success(m[sku := product.offers[0].id])
  }

  /** The map after the loop has run over `products`, front to back. */
  function CreatedMap(matchSku: CrmProduct -> Option<string>, products: seq<CrmProduct>): Result<map<string, int>, PluginError>
    decreases |products|
  {
    if products == [] then Success(map[])
    else
      match CreatedMap(matchSku, products[..|products| - 1])
      case Failure(e) => Failure(e)
      case Success(m) => MapStep(m, matchSku, products[|products| - 1])
  }

  /** The loop fails exactly when some product matched to a line has no
      offer, and then with OfferMissing. */
  lemma {:induction false} CreatedMapFailure(matchSku: CrmProduct -> Option<string>, products: seq<CrmProduct>)
    ensures CreatedMap(matchSku, products).Failure? <==>
              exists k :: 0 <= k < |products| && matchSku(products[k]).Some? && |products[k].offers| == 0
    ensures CreatedMap(matchSku, products).Failure? ==> CreatedMap(matchSku, products).error == OfferMissing
    decreases |products|
  {
    if products != [] {
      var n := |products|;
      var init := products[..n - 1];
      CreatedMapFailure(matchSku, init);
      assert forall k :: 0 <= k < n - 1 ==> init[k] == products[k];
      if CreatedMap(matchSku, products).Failure? && CreatedMap(matchSku, init).Success? {
        assert matchSku(products[n - 1]).Some? && |products[n - 1].offers| == 0;
      }
    }
  }

  /** Without failure, a SKU is a key of the map exactly when some product
      was matched to a line with that SKU. */
  lemma {:induction false} CreatedMapKeys(matchSku: CrmProduct -> Option<string>, products: seq<CrmProduct>, sku: string)
    requires CreatedMap(matchSku, products).Success?
    ensures sku in CreatedMap(matchSku, products).value <==>
              exists k :: 0 <= k < |products| && matchSku(products[k]) == Some(sku)
    decreases |products|
  {
    if products != [] {
      var n := |products|;
      var init := products[..n - 1];
      assert forall k :: 0 <= k < n - 1 ==> init[k] == products[k];
      CreatedMapKeys(matchSku, init, sku);
      if exists k :: 0 <= k < n && matchSku(products[k]) == Some(sku) {
        var k :| 0 <= k < n && matchSku(products[k]) == Some(sku);
        if k < n - 1 {
          assert matchSku(init[k]) == Some(sku);
        }
      }
    }
  }

  /** The products matched to a line with the given SKU. */
  function MatchesSku(matchSku: CrmProduct -> Option<string>, sku: string): CrmProduct -> bool {
    (product: CrmProduct) => matchSku(product) == Some(sku)
  }

  /** The value bound to a SKU is the first offer id of the LAST product
      matched to a line with that SKU: later products overwrite. */
  lemma {:induction false} CreatedMapValues(matchSku: CrmProduct -> Option<string>, products: seq<CrmProduct>, sku: string)
    requires CreatedMap(matchSku, products).Success?
    requires sku in CreatedMap(matchSku, products).value
    ensures var k := LastIndex(products, MatchesSku(matchSku, sku));
      && k.Some? && |products[k.value].offers| > 0
      && CreatedMap(matchSku, products).value[sku] == products[k.value].offers[0].id
    decreases |products|
  {
    var n := |products|;
    var init := products[..n - 1];
    if matchSku(products[n - 1]) != Some(sku) {
      assert LastIndex(products, MatchesSku(matchSku, sku)) == LastIndex(init, MatchesSku(matchSku, sku));
      var m0 := CreatedMap(matchSku, init).value;
      assert sku in m0 && CreatedMap(matchSku, products).value[sku] == m0[sku];
      CreatedMapValues(matchSku, init, sku);
      var k := LastIndex(init, MatchesSku(matchSku, sku)).value;
      assert init[k] == products[k];
    }
  }

  /** One more product extends the map by one loop step. */
  lemma CreatedMapStep(matchSku: CrmProduct -> Option<string>, products: seq<CrmProduct>, i: nat, m: map<string, int>)
    requires i < |products|
    requires CreatedMap(matchSku, products[..i]) == Success(m)
    ensures CreatedMap(matchSku, products[..i + 1]) == MapStep(m, matchSku, products[i])
  {
    assert products[..i + 1][..i] == products[..i];
  }

  /** Once the loop has failed, the rest of the products change nothing:
      the `throw` ends the loop. */
  lemma {:induction false} CreatedMapStaysFailed(matchSku: CrmProduct -> Option<string>, products: seq<CrmProduct>, n: nat)
    requires n <= |products|
    requires CreatedMap(matchSku, products[..n]).Failure?
    ensures CreatedMap(matchSku, products) == CreatedMap(matchSku, products[..n])
    decreases |products|
  {
    if n == |products| {
      assert products[..n] == products;
    } else {
      var init := products[..|products| - 1];
      assert init[..n] == products[..n];
      CreatedMapStaysFailed(matchSku, init, n);
    }
  }

  /** `createdProductsMap`, built by the `for (const product of products)`
      loop: the map CreatedMap describes, so it fails exactly as
      CreatedMapFailure says and binds what CreatedMapKeys and
      CreatedMapValues say. */
  method BuildCreatedProductsMap(pending: seq<OrderLine>, products: seq<CrmProduct>) returns (r: Result<map<string, int>, PluginError>)
    ensures r == CreatedMap(Matcher(pending), products)
  {
    var matchSku := Matcher(pending);
    var m: map<string, int> := map[];
    var i := 0;
    while i < |products|
      invariant i <= |products|
      invariant CreatedMap(matchSku, products[..i]) == Success(m)
    {
      var product := products[i];
      CreatedMapStep(matchSku, products, i, m);
      var orderLine := matchSku(product);
      if orderLine.Some? {
        if |product.offers| == 0 {
          CreatedMapStaysFailed(matchSku, products, i + 1);
          return Failure(OfferMissing);
        }
        m := m[orderLine.value := product.offers[0].id];
      }
      i := i + 1;
    }
    assert products[..i] == products;
    r := Success(m);
  }

  // ---------------------------------------------------------------------
  // The `OrderCreate` payload.

  datatype Customer = Customer(
    id: string, firstName: Option<string>, lastName: Option<string>,
    phoneNumber: Option<string>, emailAddress: Option<string>)

  datatype Address = Address(streetLine1: Option<string>, streetLine2: Option<string>)

  datatype Payment = Payment(amount: int, paymentMethod: string)

  datatype CustomFieldValue = StringField(s: string) | OtherField

  datatype Order = Order(
    code: string, customer: Option<Customer>, lines: seq<OrderLine>, shippingAddress: Address,
    shippingMethodCode: Option<string>, payments: seq<Payment>,
    customFields: Option<map<string, CustomFieldValue>>)

  datatype OfferRef = OfferById(id: int) | OfferByExternalId(externalId: string)

  datatype OrderItem = OrderItem(
    productName: string, initialPrice: int, quantity: int, offer: OfferRef, comment: Option<string>)

  datatype OrderPayment = OrderPayment(amount: int, paymentType: string, status: string)

  datatype OrderCreatePayload = OrderCreatePayload(
    number: string, externalId: string, status: string,
    firstName: Option<string>, lastName: Option<string>, phone: Option<string>, email: Option<string>,
    shipped: bool, customerExternalId: string, items: seq<OrderItem>,
    deliveryCode: Option<string>, deliveryAddress: string,
    payments: seq<OrderPayment>, customFields: map<string, string>)

  /** `Math.ceil(minor / 100)`: the least whole number of major units that
      covers the amount. */
  function MajorUnits(minor: int): (major: int)
    ensures 100 * (major - 1) < minor <= 100 * major
  {
    (minor + 99) / 100
  }

  /** The order items, line by line: the price in major units rounded up,
      the created product's offer id when the SKU was created, else the
      computed offer external id. */
  function OrderItems(lines: seq<OrderLine>, created: map<string, int>, comment: Option<string>): (items: seq<OrderItem>)
    ensures |items| == |lines|
    ensures forall i :: 0 <= i < |lines| ==>
              && items[i].productName == lines[i].variant.name
              && items[i].quantity == lines[i].quantity
              && items[i].comment == comment
              && 100 * (items[i].initialPrice - 1) < lines[i].variant.priceWithTax <= 100 * items[i].initialPrice
              && (lines[i].variant.sku in created ==> items[i].offer == OfferById(created[lines[i].variant.sku]))
              && (lines[i].variant.sku !in created ==> items[i].offer == OfferByExternalId(OfferExternalId(lines[i].variant)))
  {
    seq(|lines|, i requires 0 <= i < |lines| =>
      var v := lines[i].variant;
      OrderItem(v.name, MajorUnits(v.priceWithTax), lines[i].quantity,
                if v.sku in created then OfferById(created[v.sku]) else OfferByExternalId(OfferExternalId(v)),
                comment))
  }

  /** `payments`: nothing without a first payment, otherwise one unpaid
      entry for the first payment's amount in major units rounded up. */
  function OrderPayments(payments: seq<Payment>): (r: seq<OrderPayment>)
    ensures r == [] <==> payments == []
    ensures |r| <= 1
    ensures r != [] ==> r[0].status == "not-paid" && r[0].paymentType == payments[0].paymentMethod
                        && 100 * (r[0].amount - 1) < payments[0].amount <= 100 * r[0].amount
  {
    if payments == [] then []
    else [OrderPayment(MajorUnits(payments[0].amount), payments[0].paymentMethod, "not-paid")]
  }

  /** `customFields`: `roistat` is copied only when it is a string. */
  function OrderCustomFields(customFields: Option<map<string, CustomFieldValue>>): (r: map<string, string>)
    ensures r.Keys <= {"roistat"}
    ensures "roistat" in r <==> customFields.Some? && "roistat" in customFields.value && customFields.value["roistat"].StringField?
    ensures "roistat" in r ==> r["roistat"] == customFields.value["roistat"].s
  {
    var fields := if customFields.Some? then customFields.value else map[];
    if "roistat" in fields && fields["roistat"].StringField? then map["roistat" := fields["roistat"].s] else map[]
  }

  /** `s || ''` for an optional string. */
  function OrEmpty(s: Option<string>): string {
    if s.Some? then s.value else ""
  }

  /** The `OrderCreate` body for an order with a customer. */
  function OrderCreate(order: Order, customer: Customer, created: map<string, int>): OrderCreatePayload {
    OrderCreatePayload(
      order.code, order.code, "new-site",
      customer.firstName, customer.lastName, customer.phoneNumber, customer.emailAddress,
      false, customer.id,
      OrderItems(order.lines, created, order.shippingAddress.streetLine2),
      order.shippingMethodCode, OrEmpty(order.shippingAddress.streetLine1),
      OrderPayments(order.payments), OrderCustomFields(order.customFields))
  }

  /** The consequence of SameKeyLinesShareMatch: when two pending lines j < k
      share a key and no other pending line has line k's SKU, no product of
      any `Products` answer (the one created for line k included) is
      matched to line k, so line k's SKU is missing from the created map;
      every item with that SKU falls back to its offer external id, which no
      fetched offer carries: the order names an offer the CRM does not know. */
  lemma SameKeyLaterSkuUnmapped(lines: seq<OrderLine>, fetched: seq<CrmOffer>, products: seq<CrmProduct>,
                                j: nat, k: nat, comment: Option<string>)
    requires var pending := ProductsToCreate(lines, fetched);
      && j < k < |pending|
      && ProductKey(pending[j]) == ProductKey(pending[k])
      && (forall m :: 0 <= m < |pending| && m != k ==> pending[m].variant.sku != pending[k].variant.sku)
    requires CreatedOffers(lines, fetched, products).Success?
    ensures var pending := ProductsToCreate(lines, fetched);
      var created := CreatedOffers(lines, fetched, products).value;
      && pending[k].variant.sku !in created
      && (forall i :: 0 <= i < |lines| && lines[i].variant.sku == pending[k].variant.sku ==>
            OrderItems(lines, created, comment)[i].offer == OfferByExternalId(OfferExternalId(lines[i].variant)))
      && forall n :: 0 <= n < |fetched| ==> fetched[n].externalId != Some(OfferExternalId(pending[k].variant))
  {
    var pending := ProductsToCreate(lines, fetched);
    var sku := pending[k].variant.sku;
    var matchSku := Matcher(pending);
    assert CreatedOffers(lines, fetched, products) == CreatedMap(matchSku, products);
    forall n | 0 <= n < |products| ensures matchSku(products[n]) != Some(sku) {
      LaterSkuNeverMatched(pending, j, k, products[n]);
    }
    CreatedMapKeys(matchSku, products, sku);
    ProductsToCreateMembers(lines, fetched);
    assert pending[k] in pending;
    NeedsProductIff(pending[k], fetched);
  }

  /** No product is matched to line k when an earlier line shares its key
      and no other line has its SKU. */
  lemma LaterSkuNeverMatched(pending: seq<OrderLine>, j: nat, k: nat, product: CrmProduct)
    requires j < k < |pending|
    requires ProductKey(pending[j]) == ProductKey(pending[k])
    requires forall m :: 0 <= m < |pending| && m != k ==> pending[m].variant.sku != pending[k].variant.sku
    ensures MatchedSku(pending, product) != Some(pending[k].variant.sku)
  {
  }

  // ---------------------------------------------------------------------
  // The whole push for one order, and the event filter.

  datatype CustomerCreateInput = CustomerCreateInput(
    externalId: string, firstName: string, lastName: string, phones: seq<string>, email: string)

  /** `CustomerCreate` body: missing names, phone and email become ''. */
  function CustomerCreateInputFor(c: Customer): CustomerCreateInput {
    CustomerCreateInput(c.id, OrEmpty(c.firstName), OrEmpty(c.lastName), [OrEmpty(c.phoneNumber)], OrEmpty(c.emailAddress))
  }

  /** The requests a successful order push sends after the lookups: the
      customer to create if any, the products to create, and the order.  A
      push that fails with OfferMissing has sent the first two already. */
  datatype OrderSync = OrderSync(
    customerCreate: Option<CustomerCreateInput>, productsToCreate: seq<ProductCreateInput>, order: OrderCreatePayload)

  /** The created map of a push: empty when no line needs a product (the
      products are then neither created nor fetched). */
  function CreatedOffers(lines: seq<OrderLine>, offers: seq<CrmOffer>, products: seq<CrmProduct>): Result<map<string, int>, PluginError> {
    var pending := ProductsToCreate(lines, offers);
    if |pending| == 0 then Success(map[]) else CreatedMap(Matcher(pending), products)
  }

  /** `createOrder`: no customer is an error; a lookup answered 404 creates
      the customer, any other lookup failure is rethrown; products are
      created, and the created map built, only when some line needs it.
      `clock(i)` is what `new Date().toISOString()` returns while the i-th
      pending line is mapped. */
  function SyncOrder(order: Order, lookup: CustomerLookup, offers: seq<CrmOffer>, products: seq<CrmProduct>,
                     clock: nat -> string, catalogId: int): (r: Result<OrderSync, PluginError>)
    ensures order.customer.None? ==> r == Failure(CustomerUndefined)
    ensures order.customer.Some? && lookup != CustomerFound && lookup != CrmError(404) ==> r == Failure(CustomerLookupFailed(lookup))
    ensures r.Success? ==> order.customer.Some? && (r.value.customerCreate.Some? <==> lookup == CrmError(404))
    ensures r.Success? && r.value.customerCreate.Some? ==> r.value.customerCreate.value.externalId == order.customer.value.id
    ensures r.Success? && lookup == CrmError(404) ==> r.value.customerCreate == Some(CustomerCreateInputFor(order.customer.value))
    ensures r.Success? ==> |r.value.productsToCreate| == |ProductsToCreate(order.lines, offers)|
    ensures r.Success? ==> forall i :: 0 <= i < |r.value.productsToCreate| ==>
              r.value.productsToCreate[i] == ProductCreateInputFor(ProductsToCreate(order.lines, offers)[i], clock(i), catalogId)
    ensures r.Success? ==> && r.value.order.number == order.code && r.value.order.externalId == order.code
                           && r.value.order.status == "new-site" && !r.value.order.shipped
                           && r.value.order.customerExternalId == order.customer.value.id
                           && r.value.order.firstName == order.customer.value.firstName
                           && r.value.order.lastName == order.customer.value.lastName
                           && r.value.order.phone == order.customer.value.phoneNumber
                           && r.value.order.email == order.customer.value.emailAddress
                           && r.value.order.deliveryCode == order.shippingMethodCode
                           && r.value.order.deliveryAddress == OrEmpty(order.shippingAddress.streetLine1)
    ensures r.Success? ==> && CreatedOffers(order.lines, offers, products).Success?
                           && r.value.order.items == OrderItems(order.lines, CreatedOffers(order.lines, offers, products).value,
                                                                order.shippingAddress.streetLine2)
    ensures r.Success? ==> r.value.order.payments == OrderPayments(order.payments)
    ensures r.Success? ==> r.value.order.customFields == OrderCustomFields(order.customFields)
    ensures order.customer.Some? && (lookup == CustomerFound || lookup == CrmError(404)) ==>
              (r.Failure? <==> CreatedOffers(order.lines, offers, products).Failure?)
    ensures r.Failure? && order.customer.Some? && (lookup == CustomerFound || lookup == CrmError(404)) ==>
              r == Failure(OfferMissing) && |ProductsToCreate(order.lines, offers)| > 0
  {
    if order.customer.None? then Failure(CustomerUndefined)
    else
      var customer := order.customer.value;
      if lookup != CustomerFound && lookup != CrmError(404) then Failure(CustomerLookupFailed(lookup))
      else
        var customerCreate := if lookup == CrmError(404) then Some(CustomerCreateInputFor(customer)) else None;
        var pending := ProductsToCreate(order.lines, offers);
        var inputs := seq(|pending|, i requires 0 <= i < |pending| => ProductCreateInputFor(pending[i], clock(i), catalogId));
        CreatedMapFailure(Matcher(pending), products);
        match CreatedOffers(order.lines, offers, products)
        case Failure(e) => Failure(e)
        case Success(created) => Success(OrderSync(customerCreate, inputs, OrderCreate(order, customer, created)))
  }

  /** Once the customer is known or to be created, the push fails exactly
      when some line needs a product and a fetched product matched to a
      pending line has no offer. */
  lemma SyncOrderFailsIff(order: Order, lookup: CustomerLookup, offers: seq<CrmOffer>, products: seq<CrmProduct>,
                          clock: nat -> string, catalogId: int)
    requires order.customer.Some? && (lookup == CustomerFound || lookup == CrmError(404))
    ensures var pending := ProductsToCreate(order.lines, offers);
      SyncOrder(order, lookup, offers, products, clock, catalogId).Failure? <==>
        |pending| > 0 && exists n :: 0 <= n < |products| && MatchedSku(pending, products[n]).Some? && |products[n].offers| == 0
  {
    var pending := ProductsToCreate(order.lines, offers);
    CreatedMapFailure(Matcher(pending), products);
  }

  /** An item whose line did not need a product and whose SKU is not in the
      created map names an offer the CRM returned. */
  lemma ItemOfferKnown(order: Order, lookup: CustomerLookup, offers: seq<CrmOffer>, products: seq<CrmProduct>,
                       clock: nat -> string, catalogId: int, i: nat)
    requires SyncOrder(order, lookup, offers, products, clock, catalogId).Success?
    requires i < |order.lines|
    ensures var item := SyncOrder(order, lookup, offers, products, clock, catalogId).value.order.items[i];
      item.offer.OfferByExternalId? && !NeedsProduct(order.lines[i], offers) ==>
        exists k :: 0 <= k < |offers| && offers[k].externalId == Some(item.offer.externalId)
  {
    var pending := ProductsToCreate(order.lines, offers);
    var line := order.lines[i];
    var created := CreatedOffers(order.lines, offers, products);
    var payload := SyncOrder(order, lookup, offers, products, clock, catalogId).value.order;
    assert created.Success? && payload == OrderCreate(order, order.customer.value, created.value);
    var item := payload.items[i];
    if item.offer.OfferByExternalId? && !NeedsProduct(line, offers) {
      assert item.offer.externalId == OfferExternalId(line.variant);
      NeedsProductIff(line, offers);
    }
  }

  /** An item that refers to an offer by id takes it from a created product
      matched to a line with the item's SKU. */
  lemma ItemOfferCreated(order: Order, lookup: CustomerLookup, offers: seq<CrmOffer>, products: seq<CrmProduct>,
                         clock: nat -> string, catalogId: int, i: nat)
    requires SyncOrder(order, lookup, offers, products, clock, catalogId).Success?
    requires i < |order.lines|
    ensures var item := SyncOrder(order, lookup, offers, products, clock, catalogId).value.order.items[i];
      item.offer.OfferById? ==>
        exists k :: 0 <= k < |products| && MatchedSku(ProductsToCreate(order.lines, offers), products[k]) == Some(order.lines[i].variant.sku)
                    && |products[k].offers| > 0 && item.offer.id == products[k].offers[0].id
  {
    var pending := ProductsToCreate(order.lines, offers);
    var sku := order.lines[i].variant.sku;
    var created := CreatedOffers(order.lines, offers, products);
    var payload := SyncOrder(order, lookup, offers, products, clock, catalogId).value.order;
    assert created.Success? && payload == OrderCreate(order, order.customer.value, created.value);
    if payload.items[i].offer.OfferById? {
      assert sku in created.value;
      assert |pending| > 0;
      CreatedMapValues(Matcher(pending), products, sku);
      var k := LastIndex(products, MatchesSku(Matcher(pending), sku)).value;
      assert MatchesSku(Matcher(pending), sku)(products[k]);
    }
  }

  /** The states that start a push. */
  predicate TriggersSync(toState: string) {
    toState == "PaymentSettled" || toState == "PaymentAuthorized"
  }

  /** The event handler: a push for `PaymentSettled` and `PaymentAuthorized`,
      nothing for any other target state. */
  function OnOrderStateTransition(toState: string, order: Order, lookup: CustomerLookup, offers: seq<CrmOffer>,
                                  products: seq<CrmProduct>, clock: nat -> string, catalogId: int): (r: Option<Result<OrderSync, PluginError>>)
    ensures r.Some? <==> toState in {"PaymentSettled", "PaymentAuthorized"}
    ensures r.Some? ==> r.value == SyncOrder(order, lookup, offers, products, clock, catalogId)
    ensures r.Some? && order.customer.None? ==> r.value == Failure(CustomerUndefined)
  {
    if TriggersSync(toState) then Some(SyncOrder(order, lookup, offers, products, clock, catalogId)) else None
  }
}
