/** The thin RetailCRM REST client: the response envelope
    `{ success: true, data }` / `{ success: false, errorMsg }`, the rule that
    unwraps it, and the four endpoint helpers.  The HTTP transport and JSON
    parsing are not modelled: a parsed response body is a Json value. */
module RetailcrmApi {
  import opened Wrappers
  import opened Strings

  /** A parsed JSON body.  Numbers are integers here. */
  datatype Json =
    | JNull
    | JBool(b: bool)
    | JNumber(n: int)
    | JString(s: string)
    | JArray(items: seq<Json>)
    | JObject(fields: map<string, Json>)

  /** `typeof v` for a parsed JSON value: null and arrays are "object" too. */
  function TypeOf(v: Json): string {
    match v
    case JNull => "object"
    case JBool(_) => "boolean"
    case JNumber(_) => "number"
    case JString(_) => "string"
    case JArray(_) => "object"
    case JObject(_) => "object"
  }

  /** A property name that denotes an array index. */
  predicate IsIndexKey(key: string) {
    |key| > 0 && forall i :: 0 <= i < |key| ==> IsDigitChar(key[i])
  }

  /** The decimal spelling of a natural number. */
  function NatToString(n: nat): (s: string)
    ensures IsIndexKey(s)
    decreases n
  {
    if n < 10 then [('0' as int + n) as char]
    else NatToString(n / 10) + [('0' as int + n % 10) as char]
  }

  /** `key in v` for an object: its own keys, and for an array `length` and
      the spellings of its indices. */
  predicate HasKey(v: Json, key: string)
    requires TypeOf(v) == "object" && v != JNull
  {
    match v
    case JObject(fields) => key in fields
    case JArray(items) => key == "length" || exists k: nat :: k < |items| && NatToString(k) == key
  }

  /** `isRetailcrmResponse(res)`: `typeof res === 'object' && res != null && 'success' in res`. */
  predicate IsRetailcrmResponse(res: Json) {
    TypeOf(res) == "object" && res != JNull && HasKey(res, "success")
  }

  /** The guard holds exactly for objects with a `success` key: `null` and
      arrays are objects to `typeof`, but never pass. */
  lemma IsRetailcrmResponseIff(res: Json)
    ensures IsRetailcrmResponse(res) <==> res.JObject? && "success" in res.fields
  {
    if res.JArray? {
      assert !IsIndexKey("success") by {
        assert !IsDigitChar("success"[0]);
      }
      assert "success" != "length" by {
        assert "success"[0] != "length"[0];
      }
    }
  }

  /** JavaScript truthiness of a JSON value. */
  predicate Truthy(v: Json) {
    match v
    case JNull => false
    case JBool(b) => b
    case JNumber(n) => n != 0
    case JString(s) => s != ""
    case JArray(_) => true
    case JObject(_) => true
  }

  /** `res.key`: the value under `key`, or undefined. */
  function Field(fields: map<string, Json>, key: string): Option<Json> {
    if key in fields then Some(fields[key]) else None
  }

  /** The error an `api` call rejects with. */
  datatype ApiError =
    | ResponseError(errorMsg: Option<Json>)  // `new Error(res.errorMsg)`
    | UnknownError                           // `new Error('Unknown Error')`

  /** The `message` of the error, where String() of `errorMsg` is a plain
      string: a string, an absent value (""), or the Unknown Error. */
  function Message(e: ApiError): (m: Option<string>)
    ensures e == UnknownError ==> m == Some("Unknown Error")
    ensures e == ResponseError(None) ==> m == Some("")
    ensures forall s :: e == ResponseError(Some(JString(s))) ==> m == Some(s)
  {
    match e
    case UnknownError => Some("Unknown Error")
    case ResponseError(None) => Some("")
    case ResponseError(Some(JString(s))) => Some(s)
    case ResponseError(Some(_)) => None
  }

  /** The unwrap rule in `api`: a response whose `success` is truthy
      resolves to its `data` (undefined when absent); any other envelope
      rejects with its `errorMsg`; a non-envelope rejects with Unknown Error. */
  function Unwrap(res: Json): (r: Result<Option<Json>, ApiError>)
    ensures r == Failure(UnknownError) <==> !IsRetailcrmResponse(res)
    ensures r.Success? ==> res.JObject? && "success" in res.fields && Truthy(res.fields["success"])
    ensures r.Success? ==> r.value == Field(res.fields, "data")
    ensures r.Failure? && r.error.ResponseError? ==>
              res.JObject? && !Truthy(res.fields["success"]) && r.error.errorMsg == Field(res.fields, "errorMsg")
  {
    IsRetailcrmResponseIff(res);
    if IsRetailcrmResponse(res) then
      if Truthy(res.fields["success"]) then Success(Field(res.fields, "data"))
      else Failure(ResponseError(Field(res.fields, "errorMsg")))
    else Failure(UnknownError)
  }

  /** The envelopes the server sends: `{ success: true, data }` and
      `{ success: false, errorMsg }`. */
  function SuccessEnvelope(data: Json): Json {
    JObject(map["success" := JBool(true), "data" := data])
  }

  function FailureEnvelope(errorMsg: string): Json {
    JObject(map["success" := JBool(false), "errorMsg" := JString(errorMsg)])
  }

  /** A success envelope yields its data unchanged; a failure envelope an
      error whose message is its errorMsg. */
  lemma UnwrapEnvelopes(data: Json, errorMsg: string)
    ensures Unwrap(SuccessEnvelope(data)) == Success(Some(data))
    ensures Unwrap(FailureEnvelope(errorMsg)).Failure?
    ensures Message(Unwrap(FailureEnvelope(errorMsg)).error) == Some(errorMsg)
  {
    assert "data" != "success" by { assert "data"[0] != "success"[0]; }
    assert "errorMsg" != "success" by { assert "errorMsg"[0] != "success"[0]; }
    IsRetailcrmResponseIff(SuccessEnvelope(data));
    IsRetailcrmResponseIff(FailureEnvelope(errorMsg));
  }

  /** Every value that is not an object with a `success` key is Unknown Error. */
  lemma UnwrapNonEnvelope(res: Json)
    requires !res.JObject? || "success" !in res.fields
    ensures Unwrap(res) == Failure(UnknownError)
    ensures Message(Unwrap(res).error) == Some("Unknown Error")
  {
    IsRetailcrmResponseIff(res);
  }

  // ---------------------------------------------------------------------
  // The client: base URL, API key header and the endpoint helpers.

  datatype RetailcrmApiOptions = RetailcrmApiOptions(shopName: string, accountName: string, apiKey: string)

  datatype HttpMethod = Get | Post

  /** What a helper passes to `api`: a path, a method and a form body. */
  datatype ApiRequest = ApiRequest(url: string, httpMethod: HttpMethod, body: Option<map<string, Json>>)

  /** The four helpers of the client, with their arguments. */
  datatype Endpoint =
    | GetCustomerById(customerId: string)
    | CreateCustomer(customer: Json)
    | EditStoreProductsBatch(products: Json)
    | CreateOrder(order: Json)

  const CustomersPath: string := "customers/"

  /** The request each helper makes. */
  function RequestOf(e: Endpoint): ApiRequest {
    match e
    case GetCustomerById(id) => ApiRequest(CustomersPath + id, Get, None)
    case CreateCustomer(customer) => ApiRequest("customers/create", Post, Some(map["customer" := customer]))
    case EditStoreProductsBatch(products) => ApiRequest("store/products/batch/edit", Post, Some(map["products" := products]))
    case CreateOrder(order) => ApiRequest("orders/create", Post, Some(map["order" := order]))
  }

  /** Which helper, if any, made a request. */
  function EndpointOf(r: ApiRequest): Option<Endpoint> {
    match r.httpMethod
    case Get =>
      if r.body.None? && |CustomersPath| <= |r.url| && r.url[..|CustomersPath|] == CustomersPath
      then Some(GetCustomerById(r.url[|CustomersPath|..]))
      else None
    case Post =>
      if r.body.None? then None
      else if r.url == "customers/create" && r.body.value.Keys == {"customer"} then Some(CreateCustomer(r.body.value["customer"]))
      else if r.url == "store/products/batch/edit" && r.body.value.Keys == {"products"} then Some(EditStoreProductsBatch(r.body.value["products"]))
      else if r.url == "orders/create" && r.body.value.Keys == {"order"} then Some(CreateOrder(r.body.value["order"]))
      else None
  }

  /** The endpoint table: `customers/<id>` GET without a body;
      `customers/create`, `store/products/batch/edit` and `orders/create`
      POST with a one-key body `{customer}`, `{products}`, `{order}`.
      Each request identifies its helper and arguments. */
  lemma EndpointRoundTrip(e: Endpoint)
    ensures EndpointOf(RequestOf(e)) == Some(e)
  {
    match e
    case GetCustomerById(id) =>
      assert (CustomersPath + id)[..|CustomersPath|] == CustomersPath;
      assert (CustomersPath + id)[|CustomersPath|..] == id;
    case CreateCustomer(c) =>
    case EditStoreProductsBatch(p) =>
      assert "store/products/batch/edit" != "customers/create" by {
        assert "store/products/batch/edit"[0] != "customers/create"[0];
      }
    case CreateOrder(o) =>
      assert "orders/create" != "customers/create" by {
        assert "orders/create"[0] != "customers/create"[0];
      }
      assert "orders/create" != "store/products/batch/edit" by {
        assert "orders/create"[0] != "store/products/batch/edit"[0];
      }
  }

  /** No two helper calls send the same request: `getCustomerById('create')`
      and `createCustomer` share a path but not a method. */
  lemma RequestOfInjective(e1: Endpoint, e2: Endpoint)
    requires RequestOf(e1) == RequestOf(e2)
    ensures e1 == e2
  {
    EndpointRoundTrip(e1);
    EndpointRoundTrip(e2);
  }

  /** The request as the client configures it: the full URL, the method,
      the headers it sets and the form.  Headers `got` adds by itself are
      not part of it. */
  datatype HttpRequest = HttpRequest(url: string, httpMethod: HttpMethod, headers: map<string, string>, form: Option<map<string, Json>>)

  /** `prefixUrl` of the client. */
  function BaseUrl(accountName: string): string {
    "https://" + accountName + ".retailcrm.ru/api/v5/"
  }

  /** A helper call as the client configures it: the base URL of the
      account before the path, and the API key in the `X-API-KEY` header. */
  function Send(options: RetailcrmApiOptions, e: Endpoint): (h: HttpRequest)
    ensures h.headers.Keys == {"X-API-KEY"} && h.headers["X-API-KEY"] == options.apiKey
    ensures |h.url| == |BaseUrl(options.accountName)| + |RequestOf(e).url|
    ensures h.url[..|BaseUrl(options.accountName)|] == BaseUrl(options.accountName)
    ensures h.url[|BaseUrl(options.accountName)|..] == RequestOf(e).url
    ensures h.httpMethod == RequestOf(e).httpMethod && h.form == RequestOf(e).body
  {
    var r := RequestOf(e);
    HttpRequest(BaseUrl(options.accountName) + r.url, r.httpMethod, map["X-API-KEY" := options.apiKey], r.body)
  }

  /** The base URL names the account between `https://` and `.retailcrm.ru/api/v5/`. */
  lemma BaseUrlShape(accountName: string)
    ensures var u := BaseUrl(accountName);
      && |u| == |accountName| + 29
      && u[..8] == "https://"
      && u[8..8 + |accountName|] == accountName
      && u[8 + |accountName|..] == ".retailcrm.ru/api/v5/"
  {
    var u := BaseUrl(accountName);
    assert u == "https://" + (accountName + ".retailcrm.ru/api/v5/");
    assert u[8..] == accountName + ".retailcrm.ru/api/v5/";
    assert u[8..][..|accountName|] == accountName;
    assert u[8..][|accountName|..] == ".retailcrm.ru/api/v5/";
  }
}
