/** The BigCommerce client of src/lib/bigcommerce.ts: it fetches the orders awaiting
    shipment (status 9), turns the transport's empty-response signals into an empty list,
    and gives each order its age in whole hours and an overdue flag. */
module BigCommerce {
  import opened Wrappers
  import opened Text
  import opened Seqs

  datatype BillingAddress = BillingAddress(firstName: string, lastName: string, company: string, email: string)

  /** An order as the store returns it. `dateCreated` is the text the store sends and
      `createdMs` the instant it denotes, in milliseconds. */
  datatype Order = Order(
    id: int,
    customerId: int,
    dateCreated: string,
    createdMs: int,
    status: string,
    statusId: int,
    totalIncTax: string,
    billing: BillingAddress,
    itemsTotal: int,
    customerMessage: Option<string>)

  /** An order with its two derived fields; `order` holds every field of the original. */
  datatype OrderWithAge = OrderWithAge(order: Order, hoursOpen: int, isOverdue: bool)

  /** The store's configuration: an unset environment variable is the empty string. */
  datatype StoreConfig = StoreConfig(storeHash: string, accessToken: string, thresholdHours: Option<int>)

  /** What came back from the HTTP request. */
  datatype HttpResponse = HttpResponse(status: int, statusText: string, text: string)

  /** The three inputs from outside: the request's outcome (`Failure` when `fetch` itself
      rejects), `JSON.parse` of the body (`Failure` with the
      text of the exception when it throws) and the clock, whose
      `k`-th reading is the `now` taken while enriching the `k`-th order. */
  datatype Upstream = Upstream(
    response: Result<HttpResponse, string>,
    parse: string -> Result<seq<Order>, string>,
    clock: nat -> int)

  datatype FetchError =
    | NotConfigured
    | ApiError(status: int, statusText: string)
    | TransportFailure(description: string)
    | InvalidJson(description: string)
  {
    /** What `String(error)` gives for the error, as reported by the check route. */
    function Describe(): string {
      match this
      case NotConfigured => "Error: BigCommerce credentials not configured"
      case ApiError(status, text) => "Error: BigCommerce API error: " + IntToString(status) + " " + text
      case TransportFailure(d) => d
      case InvalidJson(d) => d
    }
  }

  const MS_PER_HOUR: int := 1000 * 60 * 60
  const DEFAULT_THRESHOLD_HOURS: int := 24
  const NO_CONTENT: int := 204

  /** `response.ok`. */
  predicate IsOk(status: int) {
    200 <= status <= 299
  }

  predicate HasCredentials(config: StoreConfig) {
    config.storeHash != "" && config.accessToken != ""
  }

  /** `THRESHOLD_HOURS`, or 24 when it is unset. */
  function ThresholdHours(config: StoreConfig): int {
    config.thresholdHours.GetOr(DEFAULT_THRESHOLD_HOURS)
  }

  /** `Math.floor((now - created) / 3600000)`: the number of whole hours elapsed, rounded
      down, so a creation time in the future gives a negative age. */
  function HoursOpen(nowMs: int, createdMs: int): (h: int)
    ensures h * MS_PER_HOUR <= nowMs - createdMs < (h + 1) * MS_PER_HOUR
    ensures nowMs >= createdMs ==> h >= 0
    ensures nowMs < createdMs ==> h < 0
  {
    (nowMs - createdMs) / MS_PER_HOUR
  }

  function WithAge(o: Order, nowMs: int, threshold: int): OrderWithAge {
    var h := HoursOpen(nowMs, o.createdMs);
    OrderWithAge(o, h, h >= threshold)
  }

  /** `orders.map(...)`: one enriched order per order, in the same order, each with its own
      clock reading. */
  function Enrich(orders: seq<Order>, clock: nat -> int, threshold: int): (r: seq<OrderWithAge>)
    ensures |r| == |orders|
    ensures forall k :: 0 <= k < |r| ==> r[k].order == orders[k]
    ensures forall k :: 0 <= k < |r| ==> r[k].hoursOpen == HoursOpen(clock(k), orders[k].createdMs)
    ensures forall k :: 0 <= k < |r| ==> (r[k].isOverdue <==> r[k].hoursOpen >= threshold)
  {
    var r := seq(|orders|, k requires 0 <= k < |orders| => WithAge(orders[k], clock(k), threshold));
    assert forall k :: 0 <= k < |r| ==> r[k] == WithAge(orders[k], clock(k), threshold);
    r
  }

  /** Whether the body counts as empty: `!text || text.trim() === ''`. */
  predicate IsEmptyBody(text: string) {
    Trim(text) == ""
  }

  /** `fetchAwaitingShipmentOrders()`. */
  function FetchAwaitingShipmentOrders(config: StoreConfig, up: Upstream): (r: Result<seq<OrderWithAge>, FetchError>)
    ensures !HasCredentials(config) ==> r == Failure(NotConfigured)
    ensures HasCredentials(config) && up.response.Failure? ==> r == Failure(TransportFailure(up.response.error))
    ensures HasCredentials(config) && up.response.Success? ==>
      var resp := up.response.value;
      && (resp.status == NO_CONTENT ==> r == Success([]))
      && (resp.status != NO_CONTENT && !IsOk(resp.status) ==> r == Failure(ApiError(resp.status, resp.statusText)))
      && (IsOk(resp.status) && IsBlank(resp.text) ==> r == Success([]))
      && (resp.status != NO_CONTENT && IsOk(resp.status) && !IsBlank(resp.text) ==>
            match up.parse(resp.text)
            case Failure(d) => r == Failure(InvalidJson(d))
            case Success(orders) => r == Success(Enrich(orders, up.clock, ThresholdHours(config)))
          )
  {
    if !HasCredentials(config) then Failure(NotConfigured)
    else match up.response
      case Failure(e) => Failure(TransportFailure(e))
      case Success(resp) =>
        if resp.status == NO_CONTENT then Success([])
        else if !IsOk(resp.status) then Failure(ApiError(resp.status, resp.statusText))
        else if IsEmptyBody(resp.text) then Success([])
        else match up.parse(resp.text)
          case Failure(d) => Failure(InvalidJson(d))
          case Success(orders) => Success(Enrich(orders, up.clock, ThresholdHours(config)))
  }

  /** Missing credentials are reported whatever the store would have answered: the
      request is never consulted. */
  lemma ConfigErrorBeforeFetch(config: StoreConfig, up1: Upstream, up2: Upstream)
    requires !HasCredentials(config)
    ensures FetchAwaitingShipmentOrders(config, up1) == FetchAwaitingShipmentOrders(config, up2) == Failure(NotConfigured)
  {
  }

  predicate IsOverdue(o: OrderWithAge) {
    o.isOverdue
  }

  /** `getOrdersExceedingThreshold()`: the overdue orders of a successful fetch, in fetch
      order; a failed fetch fails the same way. */
  function GetOrdersExceedingThreshold(config: StoreConfig, up: Upstream): (r: Result<seq<OrderWithAge>, FetchError>)
    ensures FetchAwaitingShipmentOrders(config, up).Failure? ==> r == FetchAwaitingShipmentOrders(config, up)
    ensures r.Success? ==> FetchAwaitingShipmentOrders(config, up).Success?
    ensures r.Success? ==> forall o :: o in r.value <==> o in FetchAwaitingShipmentOrders(config, up).value && o.isOverdue
    ensures r.Success? ==> r.value == Filter(FetchAwaitingShipmentOrders(config, up).value, IsOverdue)
  {
    match FetchAwaitingShipmentOrders(config, up)
    case Failure(e) => Failure(e)
    case Success(orders) => Success(Filter(orders, IsOverdue))
  }

  /** The overdue orders keep their relative fetch order. */
  lemma OverdueKeepsOrder(config: StoreConfig, up: Upstream)
    requires GetOrdersExceedingThreshold(config, up).Success?
    ensures IsSubsequence(GetOrdersExceedingThreshold(config, up).value, FetchAwaitingShipmentOrders(config, up).value)
  {
    FilterIsSubsequence(FetchAwaitingShipmentOrders(config, up).value, IsOverdue);
  }
}
