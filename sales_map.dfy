/** The live sales map of src/app/sales-map/page.tsx: every poll of the feed hands its
    orders, one at a time, to `processOrder`, which remembers the order id, geocodes the
    billing postcode through a cache and, when a location is found, drops a marker and
    bumps the two counters. */
module SalesMap {
  import opened Wrappers
  import opened Text
  import opened SalesMapFeed

  datatype Coords = Coords(lat: real, lng: real, area: string)

  /** The `result` object of the postcode service; a missing or `null` district or region
      is `None`. */
  datatype GeoResult = GeoResult(latitude: real, longitude: real, adminDistrict: Option<string>, region: Option<string>)

  /** What a lookup of one postcode produced: `fetch` or `response.json()` throwing, or the
      parsed body with its `status` field and its `result` (`None` when it is falsy). */
  datatype GeoReply = GeoThrew(error: string) | GeoBody(status: int, result: Option<GeoResult>)

  /** A marker on the map: position, the area in its popup and the `HH:MM` time. */
  datatype Marker = Marker(lat: real, lng: real, area: string, time: string)

  const CONNECTING: string := "Connecting..."
  const LIVE: string := "Live"
  const RECONNECTING: string := "Reconnecting..."
  const FALLBACK_AREA: string := "UK"

  /** JavaScript truthiness of an optional string: present and non-empty. */
  predicate Truthy(s: Option<string>) {
    s.Some? && s.value != ""
  }

  /** `admin_district || region || 'UK'`. */
  function AreaOf(g: GeoResult): (area: string)
    ensures area != ""
    ensures Truthy(g.adminDistrict) ==> area == g.adminDistrict.value
    ensures !Truthy(g.adminDistrict) && Truthy(g.region) ==> area == g.region.value
    ensures !Truthy(g.adminDistrict) && !Truthy(g.region) ==> area == FALLBACK_AREA
  {
    if Truthy(g.adminDistrict) then g.adminDistrict.value
    else if Truthy(g.region) then g.region.value
    else FALLBACK_AREA
  }

  /** The coordinates a reply yields: only a body whose `status` is 200 and which holds a
      result gives any. */
  function CoordsOf(reply: GeoReply): (c: Option<Coords>)
    ensures c.Some? <==> reply.GeoBody? && reply.status == 200 && reply.result.Some?
    ensures c.Some? ==>
      && c.value.lat == reply.result.value.latitude
      && c.value.lng == reply.result.value.longitude
      && c.value.area == AreaOf(reply.result.value)
  {
    match reply
    case GeoThrew(_) => None
    case GeoBody(status, result) =>
      if status == 200 && result.Some? then
        Some(Coords(result.value.latitude, result.value.longitude, AreaOf(result.value)))
      else None
  }

  /** `postcode.replace(/\s+/g, '').toUpperCase()`: the cache key and the text looked up.
      It is the postcode's characters other than white space, in order, each upper-cased. */
  function NormalizePostcode(postcode: string): (clean: string)
    ensures NoWhitespace(clean)
    ensures |clean| == |StripWhitespace(postcode)| <= |postcode|
    ensures forall i :: 0 <= i < |clean| ==> clean[i] == UpperChar(StripWhitespace(postcode)[i])
  {
    ToUpper(StripWhitespace(postcode))
  }

  /** Normalising twice is normalising once: a cache key is its own key. */
  lemma NormalizeIdempotent(postcode: string)
    ensures NormalizePostcode(NormalizePostcode(postcode)) == NormalizePostcode(postcode)
  {
    var stripped := StripWhitespace(postcode);
    ToUpperProperties(stripped);
    StripWhitespaceKeeps(ToUpper(stripped));
  }

  /** White space anywhere in a postcode does not change its key, so `SW1A 1AA` and
      `SW1A1AA` share one cache entry and one lookup. */
  lemma NormalizeIgnoresWhitespace(before: string, c: char, after: string)
    requires IsWhitespace(c)
    ensures NormalizePostcode(before + [c] + after) == NormalizePostcode(before + after)
  {
    StripWhitespaceAppend(before + [c], after);
    StripWhitespaceAppend(before, [c]);
    StripWhitespaceSingleton(c);
    StripWhitespaceAppend(before, after);
    assert StripWhitespace(before) + [] == StripWhitespace(before);
  }

  /** Letter case does not change the key either: `sw1a 1aa` and `SW1A 1AA` share it. */
  lemma NormalizeIgnoresCase(postcode: string)
    ensures NormalizePostcode(ToUpper(postcode)) == NormalizePostcode(postcode)
  {
    StripToUpperCommute(postcode);
    ToUpperProperties(StripWhitespace(postcode));
  }

  /** The cache holds only what the service answers: every entry is the coordinates the
      service gives for its key. */
  predicate CacheConsistent(cache: map<string, Coords>, geocode: string -> GeoReply) {
    forall key :: key in cache ==> CoordsOf(geocode(key)) == Some(cache[key])
  }

  datatype LookupResult = LookupResult(coords: Option<Coords>, cache: map<string, Coords>)

  /** `postcodeToLatLng(postcode)` on a cache: `geocode(k)` is what the service answers for
      the normalised postcode `k`. A cached key is answered without a request; a successful
      answer is added to the cache; a failure adds nothing. */
  function Lookup(cache: map<string, Coords>, postcode: string, geocode: string -> GeoReply): (r: LookupResult)
    ensures postcode == "" ==> r == LookupResult(None, cache)
    ensures postcode != "" && NormalizePostcode(postcode) in cache ==>
      r == LookupResult(Some(cache[NormalizePostcode(postcode)]), cache)
    ensures r.coords.None? ==> r.cache == cache
    ensures r.coords.Some? ==> r.cache == cache[NormalizePostcode(postcode) := r.coords.value]
  {
    if postcode == "" then LookupResult(None, cache)
    else
      var clean := NormalizePostcode(postcode);
      if clean in cache then LookupResult(Some(cache[clean]), cache)
      else match CoordsOf(geocode(clean))
        case None => LookupResult(None, cache)
        case Some(c) => LookupResult(Some(c), cache[clean := c])
  }

  /** The cache is transparent: as long as it is consistent, a lookup answers what the
      service answers for the normalised postcode, and the cache stays consistent. */
  lemma LookupTransparent(cache: map<string, Coords>, postcode: string, geocode: string -> GeoReply)
    requires CacheConsistent(cache, geocode)
    ensures var r := Lookup(cache, postcode, geocode);
      && r.coords == (if postcode == "" then None else CoordsOf(geocode(NormalizePostcode(postcode))))
      && CacheConsistent(r.cache, geocode)
  {
  }

  /** `order.billing_address?.zip`, with `undefined` as the empty string (both are falsy). */
  function Postcode(o: FeedOrder): (p: string)
    ensures p != "" <==> o.billing.Some? && Truthy(o.billing.value.zip)
  {
    if o.billing.Some? && o.billing.value.zip.Some? then o.billing.value.zip.value else ""
  }

  /** Everything the page keeps between polls. */
  datatype MapState = MapState(
    known: set<int>,
    cache: map<string, Coords>,
    todayCount: nat,
    monthCount: nat,
    markers: seq<Marker>,
    status: string)

  const INITIAL: MapState := MapState({}, map[], 0, 0, [], CONNECTING)

  /** `processOrder(order)`: `localeTime` is `toLocaleTimeString('en-GB', …)` of the
      creation date. The id is remembered before the lookup, whatever the lookup gives. */
  function Step(st: MapState, o: FeedOrder, geocode: string -> GeoReply, localeTime: string -> string): (r: MapState)
    ensures r.known == st.known + {o.id}
    ensures r.status == st.status
    ensures o.id in st.known ==> r == st
  {
    if o.id in st.known then st
    else
      var st1 := st.(known := st.known + {o.id});
      var postcode := Postcode(o);
      if postcode == "" then st1
      else
        var res := Lookup(st1.cache, postcode, geocode);
        match res.coords
        case None => st1.(cache := res.cache)
        case Some(c) =>
          st1.(cache := res.cache,
               todayCount := st1.todayCount + 1,
               monthCount := st1.monthCount + 1,
               markers := st1.markers + [Marker(c.lat, c.lng, c.area, localeTime(o.dateCreated))])
  }

  /** A sale is shown for an order exactly when its id is new, it has a postcode and the
      service locates that postcode. */
  predicate IsNewSale(st: MapState, o: FeedOrder, geocode: string -> GeoReply) {
    && o.id !in st.known
    && Postcode(o) != ""
    && CoordsOf(geocode(NormalizePostcode(Postcode(o)))).Some?
  }

  /** With a consistent cache, each counter goes up by one exactly for a new sale and
      stays put otherwise, and a marker is dropped at the located position. */
  lemma StepCountsNewSales(st: MapState, o: FeedOrder, geocode: string -> GeoReply, localeTime: string -> string)
    requires CacheConsistent(st.cache, geocode)
    ensures var r := Step(st, o, geocode, localeTime);
      && r.todayCount == st.todayCount + (if IsNewSale(st, o, geocode) then 1 else 0)
      && r.monthCount == st.monthCount + (if IsNewSale(st, o, geocode) then 1 else 0)
      && (IsNewSale(st, o, geocode) ==>
            var c := CoordsOf(geocode(NormalizePostcode(Postcode(o)))).value;
            r.markers == st.markers + [Marker(c.lat, c.lng, c.area, localeTime(o.dateCreated))])
      && (!IsNewSale(st, o, geocode) ==> r.markers == st.markers)
      && CacheConsistent(r.cache, geocode)
  {
    if o.id !in st.known && Postcode(o) != "" {
      LookupTransparent(st.cache, Postcode(o), geocode);
    }
  }

  /** The orders of one poll, processed in order. */
  function Run(st: MapState, batch: seq<FeedOrder>, geocode: string -> GeoReply, localeTime: string -> string): MapState
    decreases |batch|
  {
    if batch == [] then st
    else Step(Run(st, batch[..|batch| - 1], geocode, localeTime), batch[|batch| - 1], geocode, localeTime)
  }

  function IdSet(batch: seq<FeedOrder>): set<int> {
    set o | o in batch :: o.id
  }

  lemma IdSetSnoc(init: seq<FeedOrder>, last: FeedOrder)
    ensures IdSet(init + [last]) == IdSet(init) + {last.id}
  {
    assert forall o :: o in init + [last] <==> o in init || o == last;
  }

  /** After a poll the page knows exactly the ids it knew and those of the poll. */
  lemma {:induction false} RunKnownIds(st: MapState, batch: seq<FeedOrder>, geocode: string -> GeoReply, localeTime: string -> string)
    ensures Run(st, batch, geocode, localeTime).known == st.known + IdSet(batch)
    decreases |batch|
  {
    if batch != [] {
      var init, last := batch[..|batch| - 1], batch[|batch| - 1];
      RunKnownIds(st, init, geocode, localeTime);
      assert IdSet(batch) == IdSet(init) + {last.id} by {
        assert batch == init + [last];
        IdSetSnoc(init, last);
      }
    }
  }

  /** The status is left as it was by processing orders. */
  lemma {:induction false} RunKeepsStatus(st: MapState, batch: seq<FeedOrder>, geocode: string -> GeoReply, localeTime: string -> string)
    ensures Run(st, batch, geocode, localeTime).status == st.status
    decreases |batch|
  {
    if batch != [] {
      RunKeepsStatus(st, batch[..|batch| - 1], geocode, localeTime);
    }
  }

  /** Orders whose ids are all known change nothing: the feed's cursor is inclusive, so
      orders delivered again by a later poll are not counted twice. */
  lemma {:induction false} RunAlreadyKnown(st: MapState, batch: seq<FeedOrder>, geocode: string -> GeoReply, localeTime: string -> string)
    requires forall o :: o in batch ==> o.id in st.known
    ensures Run(st, batch, geocode, localeTime) == st
    decreases |batch|
  {
    if batch != [] {
      var init := batch[..|batch| - 1];
      assert forall o :: o in init ==> o in batch;
      RunAlreadyKnown(st, init, geocode, localeTime);
      assert batch[|batch| - 1] in batch;
    }
  }

  /** Processing the same poll twice is processing it once. */
  lemma RunIdempotent(st: MapState, batch: seq<FeedOrder>, geocode: string -> GeoReply, localeTime: string -> string)
    ensures Run(Run(st, batch, geocode, localeTime), batch, geocode, localeTime) == Run(st, batch, geocode, localeTime)
  {
    var r := Run(st, batch, geocode, localeTime);
    RunKnownIds(st, batch, geocode, localeTime);
    assert forall o :: o in batch ==> o.id in IdSet(batch);
    RunAlreadyKnown(r, batch, geocode, localeTime);
  }

  /** An order whose id already occurred earlier in the same batch is skipped. */
  lemma DuplicateInBatchIgnored(st: MapState, batch: seq<FeedOrder>, o: FeedOrder, geocode: string -> GeoReply, localeTime: string -> string)
    requires o.id in IdSet(batch)
    ensures Run(st, batch + [o], geocode, localeTime) == Run(st, batch, geocode, localeTime)
  {
    var b := batch + [o];
    assert b[..|b| - 1] == batch;
    RunKnownIds(st, batch, geocode, localeTime);
  }

  /** What the page keeps true: the two counters agree, they count the markers, there are
      no more sales than known orders, and the cache is consistent with the service. */
  predicate MapInvariant(st: MapState, geocode: string -> GeoReply) {
    && st.todayCount == st.monthCount == |st.markers|
    && st.todayCount <= |st.known|
    && CacheConsistent(st.cache, geocode)
  }

  lemma InitialInvariant(geocode: string -> GeoReply)
    ensures MapInvariant(INITIAL, geocode)
  {
  }

  lemma StepInvariant(st: MapState, o: FeedOrder, geocode: string -> GeoReply, localeTime: string -> string)
    requires MapInvariant(st, geocode)
    ensures MapInvariant(Step(st, o, geocode, localeTime), geocode)
  {
    StepCountsNewSales(st, o, geocode, localeTime);
    if IsNewSale(st, o, geocode) {
      assert |st.known + {o.id}| == |st.known| + 1;
    }
  }

  lemma {:induction false} RunInvariant(st: MapState, batch: seq<FeedOrder>, geocode: string -> GeoReply, localeTime: string -> string)
    requires MapInvariant(st, geocode)
    ensures MapInvariant(Run(st, batch, geocode, localeTime), geocode)
    decreases |batch|
  {
    if batch != [] {
      RunInvariant(st, batch[..|batch| - 1], geocode, localeTime);
      StepInvariant(Run(st, batch[..|batch| - 1], geocode, localeTime), batch[|batch| - 1], geocode, localeTime);
    }
  }

  /** A poll adds no more sales than it brings new order ids. */
  lemma {:induction false} RunCountsAtMostNewIds(st: MapState, batch: seq<FeedOrder>, geocode: string -> GeoReply, localeTime: string -> string)
    ensures var r := Run(st, batch, geocode, localeTime);
      r.todayCount - st.todayCount <= |r.known - st.known|
    decreases |batch|
  {
    if batch != [] {
      var init := batch[..|batch| - 1];
      var o := batch[|batch| - 1];
      var mid := Run(st, init, geocode, localeTime);
      var r := Step(mid, o, geocode, localeTime);
      RunCountsAtMostNewIds(st, init, geocode, localeTime);
      RunKnownIds(st, init, geocode, localeTime);
      assert mid.known - st.known <= r.known - st.known;
      if o.id in mid.known {
        assert r == mid;
      } else if r.todayCount != mid.todayCount {
        assert o.id !in st.known;
        assert r.known - st.known == (mid.known - st.known) + {o.id};
        assert |r.known - st.known| == |mid.known - st.known| + 1;
      } else {
        SubsetCardinality(mid.known - st.known, r.known - st.known);
      }
    }
  }

  lemma SubsetCardinality(a: set<int>, b: set<int>)
    requires a <= b
    ensures |a| <= |b|
  {
    assert b == a + (b - a);
  }

  /** `fetchOrders()`: `feed` is the `orders` of the feed's answer, `None` when the request
      or its JSON throws. */
  function FetchOrdersStep(st: MapState, feed: Option<seq<FeedOrder>>, geocode: string -> GeoReply, localeTime: string -> string)
    : (r: MapState)
    ensures r.status == RECONNECTING <==> feed.None?
    ensures feed.None? ==> r == st.(status := RECONNECTING)
    ensures feed.Some? ==> r.status == LIVE && r.known == st.known + IdSet(feed.value)
  {
    RunKeepsStatus(st.(status := LIVE), feed.GetOr([]), geocode, localeTime);
    RunKnownIds(st.(status := LIVE), feed.GetOr([]), geocode, localeTime);
    match feed
    case None => st.(status := RECONNECTING)
    case Some(orders) => Run(st.(status := LIVE), orders, geocode, localeTime)
  }

  /** The feed reports its own failures inside a normal answer with no orders, so the page
      shows "Live" and changes nothing else when the store is unreachable or misconfigured. */
  lemma FeedErrorsShowLive(st: MapState, resp: FeedResponse, geocode: string -> GeoReply, localeTime: string -> string)
    requires resp.FeedError?
    ensures FetchOrdersStep(st, Some(resp.Orders()), geocode, localeTime) == st.(status := LIVE)
  {
  }

  /** The React state and refs of `SalesMapPage`. */
  class SalesMapPage {
    var knownOrderIds: set<int>
    var postcodeCache: map<string, Coords>
    var todayCount: nat
    var monthCount: nat
    var markers: seq<Marker>
    var status: string

    function State(): MapState
      reads this
    {
      MapState(knownOrderIds, postcodeCache, todayCount, monthCount, markers, status)
    }

    constructor ()
      ensures State() == INITIAL
    {
      knownOrderIds := {};
      postcodeCache := map[];
      todayCount := 0;
      monthCount := 0;
      markers := [];
      status := CONNECTING;
    }

    method PostcodeToLatLng(postcode: string, geocode: string -> GeoReply) returns (coords: Option<Coords>)
      modifies this
      ensures LookupResult(coords, postcodeCache) == Lookup(old(postcodeCache), postcode, geocode)
      ensures knownOrderIds == old(knownOrderIds) && todayCount == old(todayCount) && monthCount == old(monthCount)
      ensures markers == old(markers) && status == old(status)
    {
      if postcode == "" {
        return None;
      }
      var clean := NormalizePostcode(postcode);
      if clean in postcodeCache {
        return Some(postcodeCache[clean]);
      }
      coords := CoordsOf(geocode(clean));
      if coords.Some? {
        postcodeCache := postcodeCache[clean := coords.value];
      }
    }

    method ProcessOrder(o: FeedOrder, geocode: string -> GeoReply, localeTime: string -> string)
      modifies this
      ensures State() == Step(old(State()), o, geocode, localeTime)
    {
      if o.id in knownOrderIds {
        return;
      }
      knownOrderIds := knownOrderIds + {o.id};
      var postcode := Postcode(o);
      if postcode != "" {
        var coords := PostcodeToLatLng(postcode, geocode);
        if coords.Some? {
          var c := coords.value;
          markers := markers + [Marker(c.lat, c.lng, c.area, localeTime(o.dateCreated))];
          todayCount := todayCount + 1;
          monthCount := monthCount + 1;
        }
      }
    }

    method FetchOrders(feed: Option<seq<FeedOrder>>, geocode: string -> GeoReply, localeTime: string -> string)
      modifies this
      ensures State() == FetchOrdersStep(old(State()), feed, geocode, localeTime)
    {
      if feed.None? {
        status := RECONNECTING;
        return;
      }
      var orders := feed.value;
      status := LIVE;
      ghost var start := State();
      var i := 0;
      while i < |orders|
        invariant 0 <= i <= |orders|
        invariant State() == Run(start, orders[..i], geocode, localeTime)
      {
        assert orders[..i + 1][..i] == orders[..i];
        ProcessOrder(orders[i], geocode, localeTime);
        i := i + 1;
      }
      assert orders[..i] == orders;
    }
  }
}
