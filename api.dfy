/**
 * The request layer of the jQuery pages: the fetch options for JSON and
 * upload requests, the rule that turns a response into its payload or an
 * error message, and the endpoint of every API call. The stored token is a
 * parameter (the token store is not part of this model); `JSON.stringify`
 * is foreign, so a JSON body holds the payload it serialises.
 */
module Api {
  import opened Common

  const ApiBaseUrl := "http://localhost:8080/api"
  const JsonType := "application/json"
  const HttpErrorPrefix := "HTTP error "

  const Get := "GET"
  const Post := "POST"
  const Put := "PUT"
  const Delete := "DELETE"

  /** A request payload: its fields, in insertion order. */
  datatype Payload = Payload(fields: seq<(string, string)>)

  /** A `FormData` value: its entries, in insertion order. */
  datatype FormData = FormData(entries: seq<(string, string)>)

  datatype Body = JsonBody(payload: Payload) | FormBody(form: FormData)

  datatype Header = Header(name: string, value: string)

  datatype FetchOptions = FetchOptions(httpMethod: string, headers: seq<Header>, body: Option<Body>)

  /** The value of the first header called `name`, as a property lookup on `headers`. */
  function HeaderValue(headers: seq<Header>, name: string): (r: Option<string>)
    ensures r.Some? <==> exists i :: 0 <= i < |headers| && headers[i].name == name
    ensures r.Some? ==> exists i :: 0 <= i < |headers| && headers[i] == Header(name, r.value)
  {
    if headers == [] then None
    else if headers[0].name == name then Some(headers[0].value)
    else
      var r := HeaderValue(headers[1..], name);
      assert forall i :: 1 <= i < |headers| ==> headers[i] == headers[1..][i - 1];
      r
  }

  lemma HeaderValueAppend(a: seq<Header>, b: seq<Header>, name: string)
    ensures HeaderValue(a + b, name) == if HeaderValue(a, name).Some? then HeaderValue(a, name) else HeaderValue(b, name)
    decreases |a|
  {
    if a != [] {
      HeaderValueAppend(a[1..], b, name);
      assert (a + b)[1..] == a[1..] + b;
    } else {
      assert a + b == b;
    }
  }

  /** Headers named neither in `fixed` nor `Authorization` are absent from `fixed` followed by the token header. */
  lemma NoOtherHeader(fixed: seq<Header>, token: Option<string>, n: string)
    requires forall i :: 0 <= i < |fixed| ==> fixed[i].name != n
    requires n != "Authorization"
    ensures HeaderValue(fixed + AuthHeaders(token), n) == None
  {
    HeaderValueAppend(fixed, AuthHeaders(token), n);
  }

  /** `Authorization: Bearer <token>` when a (truthy) token is stored. */
  function AuthHeaders(token: Option<string>): (r: seq<Header>)
    ensures HeaderValue(r, "Authorization").Some? <==> Present(token)
    ensures Present(token) ==> HeaderValue(r, "Authorization") == Some("Bearer " + token.value)
  {
    if Present(token) then [Header("Authorization", "Bearer " + token.value)] else []
  }

  /** The `headers` object of `createFetchOptions`: JSON content type and accept, then the token header. */
  function JsonHeaders(token: Option<string>): (h: seq<Header>)
    ensures HeaderValue(h, "Content-Type") == Some(JsonType)
    ensures HeaderValue(h, "Accept") == Some(JsonType)
    ensures HeaderValue(h, "Authorization") == HeaderValue(AuthHeaders(token), "Authorization")
    ensures forall n :: n != "Content-Type" && n != "Accept" && n != "Authorization" ==> HeaderValue(h, n) == None
  {
    var fixed := [Header("Content-Type", JsonType), Header("Accept", JsonType)];
    HeaderValueAppend(fixed, AuthHeaders(token), "Content-Type");
    HeaderValueAppend(fixed, AuthHeaders(token), "Accept");
    HeaderValueAppend(fixed, AuthHeaders(token), "Authorization");
    forall n | n != "Content-Type" && n != "Accept" && n != "Authorization"
      ensures HeaderValue(fixed + AuthHeaders(token), n) == None
    {
      NoOtherHeader(fixed, token, n);
    }
    fixed + AuthHeaders(token)
  }

  /** `createFetchOptions(httpMethod, data = null)` */
  function CreateFetchOptions(httpMethod: string, data: Option<Payload>, token: Option<string>): (o: FetchOptions)
    ensures o.httpMethod == httpMethod
    ensures HeaderValue(o.headers, "Content-Type") == Some(JsonType)
    ensures HeaderValue(o.headers, "Accept") == Some(JsonType)
    ensures HeaderValue(o.headers, "Authorization") == HeaderValue(AuthHeaders(token), "Authorization")
    ensures forall n :: n != "Content-Type" && n != "Accept" && n != "Authorization" ==> HeaderValue(o.headers, n) == None
    ensures o.body.Some? <==> data.Some? && (httpMethod == Post || httpMethod == Put)
    ensures o.body.Some? ==> o.body.value == JsonBody(data.value)
  {
    var body := if data.Some? && (httpMethod == Post || httpMethod == Put) then Some(JsonBody(data.value)) else None;
    FetchOptions(httpMethod, JsonHeaders(token), body)
  }

  /** `uploadFile(endpoint, formData)`'s options: only `Accept`, so the browser sets the multipart type. */
  function UploadOptions(form: FormData, token: Option<string>): (o: FetchOptions)
    ensures o.httpMethod == Post
    ensures HeaderValue(o.headers, "Accept") == Some(JsonType)
    ensures HeaderValue(o.headers, "Content-Type") == None
    ensures HeaderValue(o.headers, "Authorization") == HeaderValue(AuthHeaders(token), "Authorization")
    ensures o.body == Some(FormBody(form))
    ensures forall n :: n != "Accept" && n != "Authorization" ==> HeaderValue(o.headers, n) == None
  {
    var fixed := [Header("Accept", JsonType)];
    HeaderValueAppend(fixed, AuthHeaders(token), "Content-Type");
    HeaderValueAppend(fixed, AuthHeaders(token), "Accept");
    HeaderValueAppend(fixed, AuthHeaders(token), "Authorization");
    forall n | n != "Accept" && n != "Authorization"
      ensures HeaderValue(fixed + AuthHeaders(token), n) == None
    {
      NoOtherHeader(fixed, token, n);
    }
    FetchOptions(Post, fixed + AuthHeaders(token), Some(FormBody(form)))
  }

  /** JSON requests and uploads send the same `Authorization` header, present iff a token is stored. */
  lemma AuthorizationIffToken(httpMethod: string, data: Option<Payload>, form: FormData, token: Option<string>)
    ensures var json := CreateFetchOptions(httpMethod, data, token);
            var upload := UploadOptions(form, token);
            HeaderValue(json.headers, "Authorization") == HeaderValue(upload.headers, "Authorization")
            && (HeaderValue(json.headers, "Authorization").Some? <==> Present(token))
  {
  }

  /** GET and DELETE requests never carry a body, whatever data is passed. */
  lemma ReadsCarryNoBody(data: Option<Payload>, token: Option<string>)
    ensures CreateFetchOptions(Get, data, token).body == None
    ensures CreateFetchOptions(Delete, data, token).body == None
  {
  }

  /**
   * `handleResponse(response)` after the payload was parsed: the payload when
   * the status is OK, otherwise an error with the payload's `message` or
   * `HTTP error <status>`.
   */
  function HandleResponse<T>(ok: bool, status: nat, data: T, message: Option<string>): (r: Result<T, string>)
    ensures r.Ok? <==> ok
    ensures ok ==> r.value == data
    ensures !ok && Present(message) ==> r.error == message.value
    ensures !ok && !Present(message) ==> r.error == HttpErrorPrefix + NatToString(status)
    ensures r.Err? ==> r.error != ""
  {
    if ok then Ok(data) else Err(StringOr(message, HttpErrorPrefix + NatToString(status)))
  }

  /** The fallback message names the status in decimal. */
  lemma NotFoundMessage<T>(data: T)
    ensures HandleResponse(false, 404, data, None) == Err(HttpErrorPrefix + "404")
  {
    assert DigitChar(4) == '4' && DigitChar(0) == '0';
    assert NatToString(4) == "4";
    assert NatToString(40) == "40";
    assert NatToString(404) == "404";
  }

  // ===================== endpoints =====================

  datatype Resource = Menus | Categories | Orders | Tables | Reservations | Payments | Users

  function ResourcePath(r: Resource): string
  {
    match r
    case Menus => "/menus"
    case Categories => "/categories"
    case Orders => "/orders"
    case Tables => "/tables"
    case Reservations => "/reservations"
    case Payments => "/payments"
    case Users => "/users"
  }

  /** One call of the endpoint groups; optional arguments are `None` when omitted. */
  datatype Call =
    | GetAll(resource: Resource)
    | GetById(resource: Resource, id: string)
    | Create(resource: Resource, data: Payload)
    | Update(resource: Resource, id: string, data: Payload)
    | Remove(resource: Resource, id: string)
    | UpdateStatus(resource: Resource, id: string, status: string)
    | GetByDateRange(resource: Resource, startDate: string, endDate: string)
    | GetToday(resource: Resource)
    | UploadMenuImage(id: string, form: FormData)
    | MenusByCategory(categoryId: string)
    | UpdateCategoryOrder(data: Payload)
    | PaymentByOrder(orderId: string)
    | DashboardSummary
    | OrderStats(period: string)
    | RevenueStats(period: string)
    | TopItems(limit: Option<string>)
    | RecentOrders(limit: Option<string>)
    | ChangePassword(id: string, data: Payload)
    | GetProfile
    | UpdateProfile(data: Payload)
    | SalesByCategory(startDate: string, endDate: string)
    | SalesByItem(startDate: string, endDate: string)
    | SalesByTime(startDate: string, endDate: string, groupBy: Option<string>)
    | TableOccupancy(startDate: string, endDate: string)
    | ExportData(kind: string, startDate: string, endDate: string)

  /** Whether the endpoint groups offer the call: not every resource has every operation. */
  predicate Offered(c: Call)
  {
    match c
    case GetAll(_) => true
    case GetById(_, _) => true
    case Create(_, _) => true
    case Update(_, _, _) => true
    case Remove(r, _) => r !in {Orders, Payments}
    case UpdateStatus(r, _, _) => r in {Menus, Orders, Reservations}
    case GetByDateRange(r, _, _) => r in {Orders, Reservations, Payments}
    case GetToday(r) => r in {Orders, Reservations}
    case _ => true
  }

  function DateQuery(startDate: string, endDate: string): string
  {
    "?startDate=" + startDate + "&endDate=" + endDate
  }

  const DefaultDashboardLimit := "5"
  const DefaultGroupBy := "day"

  function Endpoint(c: Call): string
  {
    match c
    case GetAll(r) => ResourcePath(r)
    case GetById(r, id) => ResourcePath(r) + "/" + id
    case Create(r, _) => ResourcePath(r)
    case Update(r, id, _) => ResourcePath(r) + "/" + id
    case Remove(r, id) => ResourcePath(r) + "/" + id
    case UpdateStatus(r, id, _) => ResourcePath(r) + "/" + id + "/status"
    case GetByDateRange(r, s, e) => ResourcePath(r) + DateQuery(s, e)
    case GetToday(r) => ResourcePath(r) + "/today"
    case UploadMenuImage(id, _) => "/menus/" + id + "/image"
    case MenusByCategory(id) => "/categories/" + id + "/menus"
    case UpdateCategoryOrder(_) => "/categories/order"
    case PaymentByOrder(id) => "/orders/" + id + "/payment"
    case DashboardSummary => "/dashboard/summary"
    case OrderStats(p) => "/dashboard/orders?period=" + p
    case RevenueStats(p) => "/dashboard/revenue?period=" + p
    case TopItems(l) => "/dashboard/top-items?limit=" + (if l.Some? then l.value else DefaultDashboardLimit)
    case RecentOrders(l) => "/dashboard/recent-orders?limit=" + (if l.Some? then l.value else DefaultDashboardLimit)
    case ChangePassword(id, _) => "/users/" + id + "/change-password"
    case GetProfile => "/users/profile"
    case UpdateProfile(_) => "/users/profile"
    case SalesByCategory(s, e) => "/analytics/sales-by-category" + DateQuery(s, e)
    case SalesByItem(s, e) => "/analytics/sales-by-item" + DateQuery(s, e)
    case SalesByTime(s, e, g) =>
      "/analytics/sales-by-time" + DateQuery(s, e) + "&groupBy=" + (if g.Some? then g.value else DefaultGroupBy)
    case TableOccupancy(s, e) => "/analytics/table-occupancy" + DateQuery(s, e)
    case ExportData(k, s, e) => "/analytics/export?type=" + k + "&startDate=" + s + "&endDate=" + e
  }

  function MethodOf(c: Call): string
  {
    match c
    case Create(_, _) => Post
    case UploadMenuImage(_, _) => Post
    case Update(_, _, _) => Put
    case UpdateStatus(_, _, _) => Put
    case UpdateCategoryOrder(_) => Put
    case ChangePassword(_, _) => Put
    case UpdateProfile(_) => Put
    case Remove(_, _) => Delete
    case _ => Get
  }

  /** The data a call passes to `post`/`put`; a status update sends `{ status }`. */
  function DataOf(c: Call): Option<Payload>
  {
    match c
    case Create(_, d) => Some(d)
    case Update(_, _, d) => Some(d)
    case UpdateStatus(_, _, s) => Some(Payload([("status", s)]))
    case UpdateCategoryOrder(d) => Some(d)
    case ChangePassword(_, d) => Some(d)
    case UpdateProfile(d) => Some(d)
    case _ => None
  }

  /** The options `fetchApi` receives for a call. */
  function RequestOptions(c: Call, token: Option<string>): FetchOptions
  {
    match c
    case UploadMenuImage(_, form) => UploadOptions(form, token)
    case _ => CreateFetchOptions(MethodOf(c), DataOf(c), token)
  }

  /** `${API_BASE_URL}${endpoint}` */
  function RequestUrl(c: Call): (url: string)
    ensures StartsWith(url, ApiBaseUrl)
  {
    var url := ApiBaseUrl + Endpoint(c);
    assert url[..|ApiBaseUrl|] == ApiBaseUrl;
    url
  }

  /** A call sends a body exactly when it writes: POST and PUT carry one, GET and DELETE never do. */
  lemma BodyIffWrite(c: Call, token: Option<string>)
    ensures RequestOptions(c, token).body.Some? <==> MethodOf(c) == Post || MethodOf(c) == Put
    ensures RequestOptions(c, token).httpMethod == MethodOf(c)
  {
  }

  /** Every request carries the stored token's `Authorization` header, or none without a token. */
  lemma EveryRequestAuthorized(c: Call, token: Option<string>)
    ensures HeaderValue(RequestOptions(c, token).headers, "Authorization").Some? <==> Present(token)
  {
  }

  /** Resource operations address the collection, or the item under it. */
  lemma ItemEndpoints(r: Resource, id: string)
    ensures Endpoint(GetById(r, id)) == ResourcePath(r) + "/" + id
    ensures Endpoint(Update(r, id, Payload([]))) == Endpoint(GetById(r, id))
    ensures Endpoint(Remove(r, id)) == Endpoint(GetById(r, id))
    ensures Endpoint(UpdateStatus(r, id, "")) == Endpoint(GetById(r, id)) + "/status"
    ensures Endpoint(Create(r, Payload([]))) == Endpoint(GetAll(r))
  {
  }

  /** Date-range lookups append both dates as query parameters to the collection. */
  lemma DateRangeQuery(r: Resource, s: string, e: string)
    ensures Endpoint(GetByDateRange(r, s, e)) == ResourcePath(r) + "?startDate=" + s + "&endDate=" + e
    ensures RequestUrl(GetByDateRange(r, s, e)) == ApiBaseUrl + ResourcePath(r) + "?startDate=" + s + "&endDate=" + e
  {
  }

  /** The omitted top-items limit is 5. */
  lemma DefaultTopItemsLimit()
    ensures Endpoint(TopItems(None)) == Endpoint(TopItems(Some(DefaultDashboardLimit)))
  {
  }

  /** The omitted recent-orders limit is 5. */
  lemma DefaultRecentOrdersLimit()
    ensures Endpoint(RecentOrders(None)) == Endpoint(RecentOrders(Some(DefaultDashboardLimit)))
  {
  }

  /** The omitted sales-by-time grouping is by day. */
  lemma DefaultGrouping(s: string, e: string)
    ensures Endpoint(SalesByTime(s, e, None)) == Endpoint(SalesByTime(s, e, Some(DefaultGroupBy)))
  {
  }

  /** Orders and payments cannot be deleted, and tables have no status endpoint. */
  lemma MissingOperations(id: string, status: string, s: string, e: string)
    ensures !Offered(Remove(Orders, id)) && !Offered(Remove(Payments, id))
    ensures !Offered(UpdateStatus(Tables, id, status)) && !Offered(UpdateStatus(Categories, id, status))
    ensures !Offered(GetByDateRange(Menus, s, e)) && !Offered(GetToday(Payments))
  {
  }
}
