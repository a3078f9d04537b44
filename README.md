# Short order codes and the RetailCRM order push, in Dafny

This project models three pieces of a set of e-commerce plugins and proves
properties of them.

- **The short order-code strategy** (`OrderCode`, `order_code.dfy`).
  - A code is `R` followed by six random decimal digits.
  - Once `init` has bound a database connection, `generate` is meant to
    re-draw a candidate while an order with that code already exists.
  - It is meant to give up after 25 candidates with "Couldn't generate a
    valid order code".
  - As written, it never re-draws: the loop body never runs (see
    `GenerateAsWritten` and "## Findings").
  - The strategy is a class with a `connection` field. `Generate` is a
    method whose loop keeps the step-by-step function `RetryFrom` fixed;
    `RetryFromRetry` proves that function equal to the specification
    function `Retry`. The properties of the loop are proved about `Retry`.
- **The RetailCRM client** (`RetailcrmApi`, `retailcrm_api.dfy`).
  - The `isRetailcrmResponse` type guard.
  - The unwrap rule: `data` on success, `errorMsg` on failure, and
    "Unknown Error" for anything else.
  - The endpoint table: path, method and body key.
  - The base URL and the API-key header.
- **The plugin's order push** (`RetailcrmPlugin`, `retailcrm_plugin.dfy`).
  - The brand-collection lookup and the offer external id.
  - The filter for the lines that need a CRM product.
  - The created-products map, built by a loop.
  - The `OrderCreate` payload and the event filter on the target state.

Helper modules:
- `Wrappers`: Option and Result.
- `Seqs`: first and last match, and filter.
- `Strings`: ASCII `toLowerCase` and `startsWith`.

The random source is the parameter `rng: nat -> Token`: `rng(k)` is what
the k-th `nanoId()` call returns. `NanoId` relates a token to the alphabet
picks that produce it.

The order table is the list of codes the request context sees. Its `count`
query is `CountOrders`.

Remote answers (the customer lookup, the fetched offers, the fetched
products), the clock's readings and the catalog id are parameters of the
push.

The loop at `index.ts:30` (`for (let i = 0; i++; )`) is modelled as the code
has it. The condition `i++` is 0 on its first test, so the body never runs.
`GenerateAsWritten` models this.
`ShortOrderCodeStrategy.Generate` models the intended loop: a counter from
0, one query per iteration, and an error once the counter reaches 25.

The key match at `plugin.ts:186-188` is a bare `startsWith` with no
delimiter after the key. Under one brand, the key `undefined-1` is a prefix
of `undefined-12-…`, so the product created for product id `12` is matched
to an earlier pending line with product id `1` (ProductIdPrefixSharesMatch).
That line's SKU can then be bound to the other product's offer, and the
later line's SKU is never bound. The model computes this as the code does.

## Model

| member | source | states |
|---|---|---|
| OrderCode.AlphabetIsDecimal | packages/vendure-order-code-strategy/src/index.ts:12 | The alphabet's k-th character is the decimal digit k. |
| OrderCode.NanoId | packages/vendure-order-code-strategy/src/index.ts:12 | `nanoId()` returns six decimal digits; digit i is the i-th random pick. |
| OrderCode.NanoIdBijective | packages/vendure-order-code-strategy/src/index.ts:12 | Every six-digit token comes from exactly one sequence of picks. Reading the picks back from a token inverts `nanoId`. |
| OrderCode.CandidateShape | packages/vendure-order-code-strategy/src/index.ts:12-16 | Every candidate is `R` and six characters from `0`..`9`, so seven characters in all. |
| OrderCode.ParseOrderCode | packages/vendure-order-code-strategy/src/index.ts:14-16 | A string parses to a token exactly when it has the shape of an order code. |
| OrderCode.ParseCreateId | packages/vendure-order-code-strategy/src/index.ts:14-16 | Parsing `createId()`'s result gives back its token. |
| OrderCode.CreateIdParse | packages/vendure-order-code-strategy/src/index.ts:14-16 | Every well-shaped code is `createId()` of the token it parses to. |
| OrderCode.CreateIdInjective | packages/vendure-order-code-strategy/src/index.ts:14-16 | Distinct tokens give distinct codes. |
| OrderCode.CreateId | packages/vendure-order-code-strategy/src/index.ts:14-16 | `createId(prefix)`: the prefix followed by a token. No contract: ParseCreateId, CreateIdParse and CreateIdInjective state its properties. |
| OrderCode.CountZeroIff | packages/vendure-order-code-strategy/src/index.ts:36-39 | The count of orders with a code is 0 exactly when no order has that code. |
| OrderCode.CountOrders | packages/vendure-order-code-strategy/src/index.ts:36-38 | The `count({ where: { code } })` query: the number of orders with exactly that code. No contract: CountZeroIff states its property. |
| OrderCode.Retry | packages/vendure-order-code-strategy/src/index.ts:31-46 | The intended loop from counter i. No contract: RetryQueries, RetryExhausted and RetryAccepts state its properties. |
| OrderCode.IntendedGenerate | packages/vendure-order-code-strategy/src/index.ts:26-50 | The intended `generate`: the first candidate, unqueried, without a connection; otherwise Retry from 0. No contract: GenerateSpec and GenerateSummary state its properties. |
| OrderCode.RetryQueries | packages/vendure-order-code-strategy/src/index.ts:31-46 | From counter i, the loop queries candidates i, i+1, … in draw order. A fresh code replaces each colliding one. There are at most 25 − i queries. |
| OrderCode.RetryExhausted | packages/vendure-order-code-strategy/src/index.ts:31-34 | The loop throws exactly when every remaining candidate collides. It then has made all 25 − i queries, and the message is "Couldn't generate a valid order code". |
| OrderCode.RetryAccepts | packages/vendure-order-code-strategy/src/index.ts:36-45 | An accepted code is the last one queried, and no order has it. Every candidate queried before it collided. |
| OrderCode.GenerateSpec | packages/vendure-order-code-strategy/src/index.ts:26-50 | With a connection: at most 25 queries, in draw order. A returned code is a well-shaped code no order has. The error comes exactly when the first 25 candidates all collide, after 25 queries. |
| OrderCode.GenerateSummary | packages/vendure-order-code-strategy/src/index.ts:27-49 | Either way at most 25 queries. A returned code is well shaped, and with a connection it is not an existing order's code. |
| OrderCode.FirstCandidateFree | packages/vendure-order-code-strategy/src/index.ts:36-41 | A free first candidate is returned after exactly one query. |
| OrderCode.ThirdCandidateScenario | packages/vendure-order-code-strategy/src/index.ts:36-46 | With tokens 000001, 000002, 000003 and orders R000001 and R000002, the call returns R000003 after querying all three. |
| OrderCode.GenerateAsWritten | packages/vendure-order-code-strategy/src/index.ts:26-50 | As written, the call returns the first candidate and queries nothing, with or without a connection. |
| OrderCode.AsWrittenLoop | packages/vendure-order-code-strategy/src/index.ts:30-46 | The loop as written, with `i++` as its condition and no update clause. No contract: GenerateAsWritten states what it does from 0. |
| OrderCode.AsWrittenReturnsExistingCode | packages/vendure-order-code-strategy/src/index.ts:30 | As written, a first candidate that is already an order's code is returned anyway. The intended loop never returns an existing code. |
| OrderCode.ShortOrderCodeStrategy.constructor | packages/vendure-order-code-strategy/src/index.ts:19 | No connection is bound before `init`. |
| OrderCode.ShortOrderCodeStrategy.Init | packages/vendure-order-code-strategy/src/index.ts:22-24 | `init` binds the injector's connection. |
| OrderCode.RetryFromRetry | packages/vendure-order-code-strategy/src/index.ts:30-46 | The loop run step by step from counter i, after the codes already queried, gives Retry's result, and its queries are those codes followed by Retry's. |
| OrderCode.ShortOrderCodeStrategy.Generate | packages/vendure-order-code-strategy/src/index.ts:26-50 | The loop computes the intended `generate`. Without a connection, the first candidate is returned with no query. Otherwise the result is `Retry` from 0. There are at most 25 queries. A returned code is well shaped, and with a connection no order has it. The method changes no state. |
| RetailcrmApi.IsRetailcrmResponseIff | packages/vendure-plugin-retailcrm/src/retailcrm-api.ts:21-23 | The guard holds exactly for a non-null, non-array object with a `success` key. `null` and arrays are objects to `typeof` but never pass. |
| RetailcrmApi.IsRetailcrmResponse | packages/vendure-plugin-retailcrm/src/retailcrm-api.ts:21-23 | `typeof res === 'object' && res != null && 'success' in res` on a parsed JSON value. No contract: IsRetailcrmResponseIff states what it accepts. |
| RetailcrmApi.Message | packages/vendure-plugin-retailcrm/src/retailcrm-api.ts:49-51 | The message of a rejection: "Unknown Error", `errorMsg` when it is a string, or "" when it is absent. |
| RetailcrmApi.Unwrap | packages/vendure-plugin-retailcrm/src/retailcrm-api.ts:44-52 | "Unknown Error" exactly for non-envelopes. Success only for a truthy `success`, with the `data` field. Otherwise an error carrying the `errorMsg` field. |
| RetailcrmApi.UnwrapEnvelopes | packages/vendure-plugin-retailcrm/src/retailcrm-api.ts:45-49 | `{success: true, data}` yields `data` unchanged. `{success: false, errorMsg}` yields an error whose message is `errorMsg`. |
| RetailcrmApi.UnwrapNonEnvelope | packages/vendure-plugin-retailcrm/src/retailcrm-api.ts:51 | Any value that is not an object with a `success` key yields "Unknown Error". |
| RetailcrmApi.EndpointRoundTrip | packages/vendure-plugin-retailcrm/src/retailcrm-api.ts:55-69 | Each helper's request (path, method, one-key body) identifies the helper and its argument. |
| RetailcrmApi.RequestOfInjective | packages/vendure-plugin-retailcrm/src/retailcrm-api.ts:55-69 | No two helper calls send the same request. |
| RetailcrmApi.RequestOf | packages/vendure-plugin-retailcrm/src/retailcrm-api.ts:55-69 | The request each helper makes. No contract: EndpointRoundTrip and RequestOfInjective state its properties. |
| RetailcrmApi.Send | packages/vendure-plugin-retailcrm/src/retailcrm-api.ts:26-42 | The URL is the account's base URL followed by the helper's path. The only header the client configures is `X-API-KEY`, with the API key. The method and form are the helper's. |
| RetailcrmApi.BaseUrlShape | packages/vendure-plugin-retailcrm/src/retailcrm-api.ts:27 | The base URL is `https://`, then the account name, then `.retailcrm.ru/api/v5/`. |
| RetailcrmPlugin.FindBrandCollection | packages/vendure-plugin-retailcrm/src/plugin.ts:252-263 | Null exactly when no collection qualifies. Otherwise the first collection, in list order, that is not `brand` and whose parent exists with slug `brand`. |
| RetailcrmPlugin.OfferExternalId | packages/vendure-plugin-retailcrm/src/plugin.ts:247-250 | The id is the lower-cased brand slug (or "undefined"), then `-`, then the lower-cased SKU. |
| RetailcrmPlugin.OfferExternalIdLowered | packages/vendure-plugin-retailcrm/src/plugin.ts:249 | Offer external ids contain no upper-case letter. |
| RetailcrmPlugin.OfferExternalIdWithoutBrand | packages/vendure-plugin-retailcrm/src/plugin.ts:247-250 | Without a brand collection, the id starts with `undefined-`. |
| RetailcrmPlugin.NeedsProductIff | packages/vendure-plugin-retailcrm/src/plugin.ts:145-146 | A line needs a product exactly when no fetched offer carries its offer external id. |
| RetailcrmPlugin.ProductsToCreate | packages/vendure-plugin-retailcrm/src/plugin.ts:144-147 | The `filter` of the order lines by NeedsProduct. No contract: ProductsToCreateMembers, ProductsToCreateSingle and ProductsToCreateConcat state its properties. |
| RetailcrmPlugin.ProductsToCreateMembers | packages/vendure-plugin-retailcrm/src/plugin.ts:144-147 | The filter keeps exactly the lines that need a product. |
| RetailcrmPlugin.ProductsToCreateSingle | packages/vendure-plugin-retailcrm/src/plugin.ts:144-147 | A single line is kept exactly when it needs a product. |
| RetailcrmPlugin.ProductsToCreateConcat | packages/vendure-plugin-retailcrm/src/plugin.ts:144-147 | The filter distributes over concatenation, so it keeps the lines in their order. |
| RetailcrmPlugin.TruncateTimestamp | packages/vendure-plugin-retailcrm/src/plugin.ts:159-163 | A timestamp that begins with a match of `^[\d-]{10}T[\d:]{5}` is cut to those 16 characters; any other is unchanged. |
| RetailcrmPlugin.TruncateTimestampIdempotent | packages/vendure-plugin-retailcrm/src/plugin.ts:159-163 | Cutting a cut date changes nothing. |
| RetailcrmPlugin.IsoStringTruncated | packages/vendure-plugin-retailcrm/src/plugin.ts:159-163 | A `toISOString()` value `YYYY-MM-DDTHH:mm:ss.sssZ` is cut to `YYYY-MM-DDTHH:mm`. |
| RetailcrmPlugin.ProductCreateInputFor | packages/vendure-plugin-retailcrm/src/plugin.ts:156-171 | The product sent for a pending line: external id `${brand?.slug}-${productId}-${date}` lower-cased, name `[ВРЕМЕННО] ${brand?.name} / ${sku}`, and the catalog id. No contract: CreatedIdStartsWithKey and SyncOrder state its properties. |
| RetailcrmPlugin.CreatedIdStartsWithKey | packages/vendure-plugin-retailcrm/src/plugin.ts:165-188 | The external id sent for a line is non-empty and starts with that line's lower-cased `brand-productId` key. |
| RetailcrmPlugin.MatchNoLaterThanOwnLine | packages/vendure-plugin-retailcrm/src/plugin.ts:181-190 | A product created for pending line k is matched to line k or to an earlier line. |
| RetailcrmPlugin.MatchedSku | packages/vendure-plugin-retailcrm/src/plugin.ts:182-190 | The SKU of the first pending line whose key prefixes the product's external id. No contract: MatchNoLaterThanOwnLine and SameKeyLinesShareMatch state its properties. |
| RetailcrmPlugin.MapStep | packages/vendure-plugin-retailcrm/src/plugin.ts:191-193 | One loop iteration: no change without a match; otherwise `set(sku, offers[0].id)`, or the missing-offer error. No contract: CreatedMapStep and the CreatedMap lemmas state its properties. |
| RetailcrmPlugin.CreatedMap | packages/vendure-plugin-retailcrm/src/plugin.ts:181-194 | The map after the loop, front to back. No contract: CreatedMapFailure, CreatedMapKeys and CreatedMapValues state its properties. |
| RetailcrmPlugin.SameKeyLinesShareMatch | packages/vendure-plugin-retailcrm/src/plugin.ts:181-190 | Two pending lines with the same brand and product id: the later line's product is matched to the earlier line. |
| RetailcrmPlugin.SameKeyLaterSkuUnmapped | packages/vendure-plugin-retailcrm/src/plugin.ts:181-219 | Two pending lines j < k share a key, and no other pending line has line k's SKU. For every `Products` answer on which the loop succeeds, including one holding the product created for line k, line k's SKU is not in the created map. Its items fall back to the offer external id, which no fetched offer carries because the line was pending. |
| RetailcrmPlugin.LaterSkuNeverMatched | packages/vendure-plugin-retailcrm/src/plugin.ts:182-190 | Under the same conditions, no product is matched to a line with line k's SKU. |
| RetailcrmPlugin.ProductIdPrefixKey | packages/vendure-plugin-retailcrm/src/plugin.ts:186-188 | Under one brand, a line whose product id extends another's has a key that extends the other's. |
| RetailcrmPlugin.ProductIdPrefixSharesMatch | packages/vendure-plugin-retailcrm/src/plugin.ts:181-190 | The product created for pending line k is matched to an earlier line j of the same brand whenever line j's product id is a prefix of line k's, not only when they are equal. |
| RetailcrmPlugin.CreatedMapFailure | packages/vendure-plugin-retailcrm/src/plugin.ts:181-194 | The loop fails exactly when a matched product has no offer, and then with the missing-offer error. |
| RetailcrmPlugin.CreatedMapKeys | packages/vendure-plugin-retailcrm/src/plugin.ts:181-194 | A SKU is a key exactly when some product was matched to a pending line with that SKU. |
| RetailcrmPlugin.CreatedMapValues | packages/vendure-plugin-retailcrm/src/plugin.ts:191-193 | A SKU is bound to the first offer id of the last product matched to it; later products overwrite. |
| RetailcrmPlugin.CreatedMapStep | packages/vendure-plugin-retailcrm/src/plugin.ts:181-194 | One more product extends the map by one `set` step. |
| RetailcrmPlugin.CreatedMapStaysFailed | packages/vendure-plugin-retailcrm/src/plugin.ts:192 | After a throw, the remaining products change nothing. |
| RetailcrmPlugin.BuildCreatedProductsMap | packages/vendure-plugin-retailcrm/src/plugin.ts:149-194 | The map the loop builds, or the error it throws, is the one `CreatedMap` describes. |
| RetailcrmPlugin.MajorUnits | packages/vendure-plugin-retailcrm/src/plugin.ts:211 | `Math.ceil(x / 100)`: the least whole number of major units that covers the amount. |
| RetailcrmPlugin.OrderItems | packages/vendure-plugin-retailcrm/src/plugin.ts:209-221 | One item per line with its name, quantity and comment. The price is rounded up to major units. The offer is the created offer id when the SKU is in the map, else the offer external id. |
| RetailcrmPlugin.OrderPayments | packages/vendure-plugin-retailcrm/src/plugin.ts:228-236 | Empty exactly when there is no payment. Otherwise one `not-paid` entry, with the first payment's method and amount rounded up. |
| RetailcrmPlugin.OrderCustomFields | packages/vendure-plugin-retailcrm/src/plugin.ts:237-242 | `roistat` is present exactly when it is a string, with the same value, and there is no other key. |
| RetailcrmPlugin.OrderCreate | packages/vendure-plugin-retailcrm/src/plugin.ts:199-243 | The `OrderCreate` body. No contract: SyncOrder states its fields. |
| RetailcrmPlugin.CustomerCreateInputFor | packages/vendure-plugin-retailcrm/src/plugin.ts:98-104 | The `CustomerCreate` body: the id, then names, phone and email, each defaulting to the empty string. No contract: SyncOrder ties the created customer to it. |
| RetailcrmPlugin.SyncOrder | packages/vendure-plugin-retailcrm/src/plugin.ts:88-243 | The push for one order. No customer is an error. A 404 lookup creates the customer, with the body CustomerCreateInputFor gives; any other failed lookup is rethrown. Product input i is ProductCreateInputFor of pending line i, with the clock's i-th reading. The payload carries the order code, status `new-site`, `shipped` false, the customer's id and contact fields, the delivery code and address. Its items, payments and custom fields are OrderItems (over the created map), OrderPayments and OrderCustomFields. Once the lookup succeeds or answers 404, the push fails exactly when the created map fails, and then with OfferMissing while some line is pending. |
| RetailcrmPlugin.SyncOrderFailsIff | packages/vendure-plugin-retailcrm/src/plugin.ts:144-194 | Once the lookup succeeds or answers 404, the push fails exactly when some line needs a product and a fetched product matched to a pending line has no offer. |
| RetailcrmPlugin.ItemOfferKnown | packages/vendure-plugin-retailcrm/src/plugin.ts:213-219 | An item naming an offer by external id, for a line that needed no product, names an offer the CRM returned. |
| RetailcrmPlugin.ItemOfferCreated | packages/vendure-plugin-retailcrm/src/plugin.ts:213-216 | An item naming an offer by id takes it from a created product matched to a line with the item's SKU. |
| RetailcrmPlugin.OnOrderStateTransition | packages/vendure-plugin-retailcrm/src/plugin.ts:66-80 | A push happens exactly for `PaymentSettled` and `PaymentAuthorized`, and its outcome is SyncOrder's for the same order and answers. Without a customer, the push fails with the missing-customer error. |

## Left out

- Randomness: `nanoid` is the parameter `rng`, not a random generator.
- Database: the TypeORM `count` query is `CountOrders` over the codes the request context sees.
- Concurrency:
  - The check-then-act race between concurrent `generate` calls is not modelled.
  - `Promise.all` is not modelled.
  - Each step is modelled in program order.
- Logging: `Logger` calls and the event-bus subscription plumbing carry no logic and are not modelled.
- Collection parents: the `collectionService` lookups of collections and parents are database calls. Collections arrive with their parents already attached.
- The clock: `clock(i)` is the value `new Date().toISOString()` returns while the i-th pending line is mapped. Each line has its own reading, as in the source, but the readings are arbitrary strings: they are not required to be increasing or ISO-shaped.
- The catalog id: the `Sites` answer is reduced to the parameter `catalogId`.
- HTTP and JSON:
  - The `got` transport and JSON parsing are left out, and so is form encoding. `got` encodes its `form` option through `URLSearchParams`, which renders a nested object or array value as `[object Object]`; so, as written, the bodies of the three POST helpers (`customer`, `order`, `products`) would not reach the CRM intact. The model keeps each body as the value the helper passes.
  - A parsed body is a `Json` value with integer numbers.
  - The `Inventories` offer fetch, the `Sites` catalog lookup, and the customer-create, batch-create and product-fetch calls are assumed to succeed; their remote failures are not modelled.
  - HTTP status codes: `got` rejects every 4xx or 5xx response before `.json()` resolves. So a `{success: false, errorMsg}` body sent with an error status never reaches the unwrap rule. RetailcrmApi.Unwrap and UnwrapEnvelopes describe bodies of successful responses only.
  - Headers: `got` adds its own default headers (user agent, accept, encoding, content type). RetailcrmApi.Send gives only the headers the client configures.
- Plugin setup: the constructor's check of the static options is not modelled. Neither is the `createRetailcrmApi` client library it calls.
- Out of scope: `retailcrm.service.ts` (an older, superseded integration), `retailcrm.plugin.ts` and `retailcrm-plugin-options.ts` (option holders and types) and `prettier.config.js`.
- Strings.Lower: models `toLowerCase` on ASCII letters only. Other Unicode case mappings are not modelled.
- RetailcrmApi.Message: when `errorMsg` is neither a string nor absent, the `String()` rendering of it is not modelled (the result is None).
- RetailcrmPlugin.SyncOrder:
  - the delivery code is the shipping method code of the first shipping line, taken as an optional string;
  - `String(customer.id)` is the customer's id string;
  - a push that fails with OfferMissing has already sent the customer-create request (after a 404) and the batch-create request, so the CRM keeps that customer and the `[ВРЕМЕННО]` products with no order; the Failure does not record those requests.
- RetailcrmApi.HasKey: an array's keys are `length` and its index spellings. Inherited prototype properties are not modelled.

## Findings

| source | as written | input that shows it | evidently intended | confidence | as-written member | corrected member |
|---|---|---|---|---|---|---|
| packages/vendure-order-code-strategy/src/index.ts:30 | `for (let i = 0; i++; )` tests `i++`, which is 0 (falsy) on the first test, so the retry body never runs. The first candidate is returned unchecked even with a connection. | A connection is bound and the first drawn code equals an existing order's code. | A counter from 0, incremented once per iteration. The body checks each candidate and returns the first free one, or throws after 25. | not executed | OrderCode.GenerateAsWritten | OrderCode.ShortOrderCodeStrategy.Generate |
