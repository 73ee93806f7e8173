/** The live-map feed, `GET /api/sales-map/orders` in src/app/api/sales-map/orders/route.ts:
    it asks the UK store for the orders created since a cursor, projects them to the few
    fields the map needs, and moves the cursor forward once a 2xx body has been parsed. */
module SalesMapFeed {
  import opened Wrappers
  import BigCommerce

  const MS_PER_DAY: int := 24 * 60 * 60 * 1000

  /** `d.setHours(0, 0, 0, 0)` for the instant `t`, where `utcOffset` is the local time
      zone's offset from UTC in milliseconds: the last local midnight at or before `t`. */
  function StartOfDay(t: int, utcOffset: int): (r: int)
    ensures r <= t < r + MS_PER_DAY
    ensures (r + utcOffset) % MS_PER_DAY == 0
  {
    t - (t + utcOffset) % MS_PER_DAY
  }

  datatype RawAddress = RawAddress(
    firstName: string, lastName: string, street1: string,
    zip: Option<string>, city: Option<string>, country: Option<string>)

  /** An order as the store returns it, with the fields the projection reads and some it
      drops. */
  datatype RawOrder = RawOrder(
    id: int, customerId: int, dateCreated: string, status: string, totalIncTax: string,
    billing: Option<RawAddress>)

  datatype FeedAddress = FeedAddress(zip: Option<string>, city: Option<string>, country: Option<string>)

  /** An order as the feed returns it; `billing` is `None` where the JSON has `null`. */
  datatype FeedOrder = FeedOrder(id: int, dateCreated: string, status: string, total: string, billing: Option<FeedAddress>)

  /** The parsed response body: `response.json()` throwing; a falsy JSON value (`null`,
      `false`, `0` or `""`), which `orders || []` turns into an empty list; a value the
      projection throws on (a truthy value that is not an array, or an array holding
      `null`); or the orders. */
  datatype Body = Malformed(error: string) | Falsy | Unprojectable(error: string) | Orders(orders: seq<RawOrder>)

  /** What the request produced: `fetch` rejecting, or a status and a body. */
  datatype Reply = Threw(error: string) | Reply(status: int, body: Body)

  datatype FeedResponse =
    | FeedError(error: string)
    | FeedBatch(orders: seq<FeedOrder>, count: nat, lastCheck: int)
  {
    /** The `orders` field of the JSON answer: empty on every error. */
    function Orders(): seq<FeedOrder> {
      if FeedBatch? then orders else []
    }
  }

  const NOT_CONFIGURED: string := "BigCommerce credentials not configured"
  const API_ERROR: string := "API error"

  /** Keeps id, creation date, status and total, renames `total_inc_tax` to `total`, and
      keeps only zip, city and country of a billing address that is present. */
  function Project(o: RawOrder): (r: FeedOrder)
    ensures r.id == o.id && r.dateCreated == o.dateCreated && r.status == o.status
    ensures r.total == o.totalIncTax
    ensures r.billing.None? <==> o.billing.None?
    ensures o.billing.Some? ==>
      r.billing.value == FeedAddress(o.billing.value.zip, o.billing.value.city, o.billing.value.country)
  {
    FeedOrder(o.id, o.dateCreated, o.status, o.totalIncTax,
      match o.billing
      case None => None
      case Some(a) => Some(FeedAddress(a.zip, a.city, a.country)))
  }

  /** `(orders || []).map(project)`: same length and order. */
  function ProjectAll(s: seq<RawOrder>): (r: seq<FeedOrder>)
    ensures |r| == |s|
    ensures forall i :: 0 <= i < |s| ==> r[i] == Project(s[i])
  {
    if s == [] then [] else [Project(s[0])] + ProjectAll(s[1..])
  }

  /** Whether the request got as far as a parsed body: credentials present, a 2xx status
      and `response.json()` returning. The cursor is reset at that point, before the
      projection that can still fail. */
  predicate BodyParsed(storeHash: string, accessToken: string, reply: Reply) {
    storeHash != "" && accessToken != "" && reply.Reply? && BigCommerce.IsOk(reply.status) && !reply.body.Malformed?
  }

  /** One request's answer and the cursor after it. */
  datatype Poll = Poll(response: FeedResponse, cursor: int)

  /** The route as a function of the cursor: `upstream(c)` is what the store answers to a
      request for the orders created since `c`, and `now` the clock when the body has been
      read. */
  function PollOnce(cursor: int, storeHash: string, accessToken: string, upstream: int -> Reply, now: int): (p: Poll)
    ensures p.cursor == (if BodyParsed(storeHash, accessToken, upstream(cursor)) then now else cursor)
    ensures p.response.FeedBatch? ==> p.cursor == now
    ensures storeHash == "" || accessToken == "" ==> p.response == FeedError(NOT_CONFIGURED)
    ensures storeHash != "" && accessToken != "" ==>
      match upstream(cursor)
      case Threw(e) => p.response == FeedError(e)
      case Reply(status, body) =>
        if !BigCommerce.IsOk(status) then p.response == FeedError(API_ERROR)
        else match body
          case Malformed(e) => p.response == FeedError(e)
          case Falsy => p.response == FeedBatch([], 0, now)
          case Unprojectable(e) => p.response == FeedError(e)
          case Orders(raw) => p.response == FeedBatch(ProjectAll(raw), |raw|, now)
    ensures p.response.FeedBatch? ==> p.response.count == |p.response.orders| && p.response.lastCheck == now
  {
    if storeHash == "" || accessToken == "" then Poll(FeedError(NOT_CONFIGURED), cursor)
    else match upstream(cursor)
      case Threw(e) => Poll(FeedError(e), cursor)
      case Reply(status, body) =>
        if !BigCommerce.IsOk(status) then Poll(FeedError(API_ERROR), cursor)
        else match body
          case Malformed(e) => Poll(FeedError(e), cursor)
          case Falsy => Poll(FeedBatch([], 0, now), now)
          case Unprojectable(e) => Poll(FeedError(e), now)
          case Orders(raw) => Poll(FeedBatch(ProjectAll(raw), |raw|, now), now)
  }

  /** The cursor after a series of requests. */
  function Replay(cursor: int, storeHash: string, accessToken: string, replies: seq<int -> Reply>, times: seq<int>): int
    requires |replies| == |times|
    decreases |replies|
  {
    if replies == [] then cursor
    else Replay(PollOnce(cursor, storeHash, accessToken, replies[0], times[0]).cursor,
                storeHash, accessToken, replies[1..], times[1..])
  }

  /** The cursor moves only once a body has been parsed, and then to that read's time: a
      sequence of polls that all fail before that point leaves it where it was. */
  lemma {:induction false} FailedPollsKeepCursor(
    cursor: int, storeHash: string, accessToken: string, replies: seq<int -> Reply>, times: seq<int>)
    requires |replies| == |times|
    requires forall k :: 0 <= k < |replies| ==> !BodyParsed(storeHash, accessToken, replies[k](cursor))
    ensures Replay(cursor, storeHash, accessToken, replies, times) == cursor
  {
    if replies != [] {
      FailedPollsKeepCursor(cursor, storeHash, accessToken, replies[1..], times[1..]);
    }
  }

  /** An answer that fails after parsing still moves the cursor: the orders created since
      the old cursor are not asked for again. */
  lemma LateFailureMovesCursor(cursor: int, storeHash: string, accessToken: string, upstream: int -> Reply, now: int)
    requires storeHash != "" && accessToken != ""
    requires upstream(cursor).Reply? && BigCommerce.IsOk(upstream(cursor).status) && upstream(cursor).body.Unprojectable?
    ensures var p := PollOnce(cursor, storeHash, accessToken, upstream, now);
      p.response == FeedError(upstream(cursor).body.error) && p.cursor == now
  {
  }

  /** The module-level `lastCheckTime` of the route. */
  class OrdersFeed {
    var lastCheckTime: int

    /** The module is loaded at `loadTime`: the cursor starts at that day's local midnight. */
    constructor (loadTime: int, utcOffset: int)
      ensures lastCheckTime == StartOfDay(loadTime, utcOffset)
    {
      lastCheckTime := StartOfDay(loadTime, utcOffset);
    }

    method Get(storeHash: string, accessToken: string, upstream: int -> Reply, now: int) returns (resp: FeedResponse)
      modifies this
      ensures var p := PollOnce(old(lastCheckTime), storeHash, accessToken, upstream, now);
        resp == p.response && lastCheckTime == p.cursor
    {
      if storeHash == "" || accessToken == "" {
        return FeedError(NOT_CONFIGURED);
      }
      var reply := upstream(lastCheckTime);
      if reply.Threw? {
        return FeedError(reply.error);
      }
      if !BigCommerce.IsOk(reply.status) {
        return FeedError(API_ERROR);
      }
      if reply.body.Malformed? {
        return FeedError(reply.body.error);
      }
      lastCheckTime := now;
      if reply.body.Unprojectable? {
        return FeedError(reply.body.error);
      }
      var raw := if reply.body.Falsy? then [] else reply.body.orders;
      var processed := ProjectAll(raw);
      resp := FeedBatch(processed, |processed|, lastCheckTime);
    }
  }
}
