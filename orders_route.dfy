/** The dashboard's query endpoint, `GET /api/orders?store=uk|us` in
    src/app/api/orders/route.ts: it validates the store, fetches three order lists, sorts
    two of them in place, counts the overdue and the stuck incomplete orders and collects
    the orders carrying a customer comment, each order id at most once. */
module OrdersRoute {
  import opened Wrappers
  import opened Text
  import opened Seqs
  import opened Sorting
  import BigCommerce

  datatype Region = UK | US

  /** `searchParams.get('store') || 'uk'`, then the check against `uk` and `us`; `None`
      stands for the 400 answer. */
  function ParseStore(param: Option<string>): (r: Option<Region>)
    ensures param == None || param == Some("") ==> r == Some(UK)
    ensures r == Some(UK) <==> param == None || param == Some("") || param == Some("uk")
    ensures r == Some(US) <==> param == Some("us")
  {
    var store := match param
      case None => "uk"
      case Some(s) => if s == "" then "uk" else s;
    if store == "uk" then Some(UK) else if store == "us" then Some(US) else None
  }

  /** An order as the route sees it in the three fetched lists: the fields the route reads.
      `customerMessage` is `None` when the store sends no message at all. */
  datatype Listed = Listed(id: int, hoursOpen: int, minutesOpen: int, isOverdue: bool, customerMessage: Option<string>)

  /** A store's three lists, each fetched for the validated region; a `Failure` is a
      rejected fetch. */
  datatype Fetchers = Fetchers(
    awaiting: Region -> Result<seq<Listed>, string>,
    recent: Region -> Result<seq<Listed>, string>,
    incomplete: Region -> Result<seq<Listed>, string>)

  const INCOMPLETE_ALERT_MINUTES: int := 15

  function HoursKey(o: Listed): int { o.hoursOpen }
  function MinutesKey(o: Listed): int { o.minutesOpen }
  predicate IsOverdue(o: Listed) { o.isOverdue }
  predicate IsIncompleteAlert(o: Listed) { o.minutesOpen >= INCOMPLETE_ALERT_MINUTES }

  /** The order carries a customer message that is not blank. */
  predicate HasComment(o: Listed) {
    o.customerMessage.Some? && !IsBlank(o.customerMessage.value)
  }

  /** HasComment is the route's test `o.customer_message && o.customer_message.trim() !== ''`,
      an absent message being falsy. */
  lemma HasCommentIsTrimTest(o: Listed)
    ensures HasComment(o) <==> o.customerMessage.Some? && Trim(o.customerMessage.value) != ""
  {
  }

  function Ids(s: seq<Listed>): set<int> {
    if s == [] then {} else {s[0].id} + Ids(s[1..])
  }

  predicate DistinctIds(s: seq<Listed>) {
    forall i, j :: 0 <= i < j < |s| ==> s[i].id != s[j].id
  }

  /** No earlier element of `s` has the id of `s[i]`. */
  predicate FirstAt(s: seq<Listed>, i: int)
    requires 0 <= i < |s|
  {
    forall j :: 0 <= j < i ==> s[j].id != s[i].id
  }

  /** The filter with the `seenIds` set: an id is marked seen at its first occurrence,
      whether or not that occurrence has a comment, and a seen id is always skipped. */
  function Dedup(s: seq<Listed>, seen: set<int>): seq<Listed>
    decreases |s|
  {
    if s == [] then []
    else if s[0].id in seen then Dedup(s[1..], seen)
    else (if HasComment(s[0]) then [s[0]] else []) + Dedup(s[1..], seen + {s[0].id})
  }

  /** `ordersWithComments` for the concatenated lists. */
  function OrdersWithComments(all: seq<Listed>): seq<Listed> {
    Dedup(all, {})
  }

  /** Every selected order comes from the input, carries a comment, has an id not seen
      before, and no id is selected twice. */
  lemma DedupSound(s: seq<Listed>, seen: set<int>)
    ensures forall x :: x in Dedup(s, seen) ==> x in s && x.id !in seen && HasComment(x)
    ensures DistinctIds(Dedup(s, seen))
  {
    DedupMembers(s, seen);
    DedupDistinct(s, seen);
  }

  /** Every selected order comes from the input, carries a comment and has an id not
      seen before. */
  lemma {:induction false} DedupMembers(s: seq<Listed>, seen: set<int>)
    ensures forall x :: x in Dedup(s, seen) ==> x in s && x.id !in seen && HasComment(x)
    decreases |s|
  {
    if s != [] {
      var h, t := s[0], s[1..];
      var seen' := if h.id in seen then seen else seen + {h.id};
      DedupMembers(t, seen');
      var rest := Dedup(t, seen');
      forall x | x in rest ensures x in s && x.id !in seen && HasComment(x) {
        assert x in t && x.id !in seen';
      }
      if h.id !in seen && HasComment(h) {
        assert Dedup(s, seen) == [h] + rest;
      } else {
        assert Dedup(s, seen) == rest;
      }
    }
  }

  /** No id is selected twice. */
  lemma {:induction false} DedupDistinct(s: seq<Listed>, seen: set<int>)
    ensures DistinctIds(Dedup(s, seen))
    decreases |s|
  {
    if s != [] {
      var h, t := s[0], s[1..];
      if h.id in seen {
        DedupDistinct(t, seen);
        assert Dedup(s, seen) == Dedup(t, seen);
      } else {
        var seen' := seen + {h.id};
        var rest := Dedup(t, seen');
        DedupDistinct(t, seen');
        DedupMembers(t, seen');
        if HasComment(h) {
          var r := [h] + rest;
          assert Dedup(s, seen) == r;
          forall i, j | 0 <= i < j < |r| ensures r[i].id != r[j].id {
            assert r[j] == rest[j - 1] && r[j] in rest;
            if i > 0 {
              assert r[i] == rest[i - 1];
            }
          }
        } else {
          assert Dedup(s, seen) == rest;
        }
      }
    }
  }

  /** The selection keeps the order of the input. */
  lemma {:induction false} DedupSubsequence(s: seq<Listed>, seen: set<int>)
    ensures IsSubsequence(Dedup(s, seen), s)
    decreases |s|
  {
    if s != [] {
      var seen' := if s[0].id in seen then seen else seen + {s[0].id};
      DedupSubsequence(s[1..], seen');
      var rest := Dedup(s[1..], seen');
      if s[0].id !in seen && HasComment(s[0]) {
        assert Dedup(s, seen) == [s[0]] + rest;
      } else {
        assert Dedup(s, seen) == rest;
        if rest != [] {
          SkipHead(rest, s);
        }
      }
    }
  }

  /** Every first occurrence of an unseen id that carries a comment is selected. */
  lemma {:induction false} DedupComplete(s: seq<Listed>, seen: set<int>, i: int)
    requires 0 <= i < |s| && FirstAt(s, i) && s[i].id !in seen && HasComment(s[i])
    ensures s[i] in Dedup(s, seen)
    decreases |s|
  {
    if i > 0 {
      var seen' := if s[0].id in seen then seen else seen + {s[0].id};
      assert s[1..][i - 1] == s[i];
      DedupComplete(s[1..], seen', i - 1);
    }
  }

  /** An order selected for an id is that id's first occurrence: a later duplicate is never
      selected, and an id whose first occurrence has no comment is not selected at all. */
  lemma {:induction false} DedupOnlyFirst(s: seq<Listed>, seen: set<int>, i: int, x: Listed)
    requires 0 <= i < |s| && FirstAt(s, i)
    requires x in Dedup(s, seen) && x.id == s[i].id
    ensures x == s[i]
    decreases |s|
  {
    if s[0].id in seen {
      assert Dedup(s, seen) == Dedup(s[1..], seen);
      if i == 0 {
        DedupSound(s, seen);
        assert false;
      }
      assert s[1..][i - 1] == s[i];
      DedupOnlyFirst(s[1..], seen, i - 1, x);
    } else {
      var seen' := seen + {s[0].id};
      var rest := Dedup(s[1..], seen');
      if x != s[0] {
        assert x in rest;
        if i == 0 {
          DedupSound(s[1..], seen');
          assert false;
        }
        assert s[1..][i - 1] == s[i];
        DedupOnlyFirst(s[1..], seen', i - 1, x);
      } else if i > 0 {
        assert false;
      }
    }
  }

  /** Splitting the input splits the selection: the second part is filtered with every id
      of the first part marked seen. */
  lemma {:induction false} DedupAppend(a: seq<Listed>, b: seq<Listed>, seen: set<int>)
    ensures Dedup(a + b, seen) == Dedup(a, seen) + Dedup(b, seen + Ids(a))
    decreases |a|
  {
    if a == [] {
      assert a + b == b;
      assert seen + Ids(a) == seen;
    } else {
      var h := a[0];
      assert (a + b)[0] == h;
      assert (a + b)[1..] == a[1..] + b;
      assert Ids(a) == {h.id} + Ids(a[1..]);
      if h.id in seen {
        DedupAppend(a[1..], b, seen);
        assert seen + Ids(a[1..]) == seen + Ids(a);
      } else {
        var seen' := seen + {h.id};
        DedupAppend(a[1..], b, seen');
        assert seen' + Ids(a[1..]) == seen + Ids(a);
        var x, y := Dedup(a[1..], seen'), Dedup(b, seen' + Ids(a[1..]));
        var head := if HasComment(h) then [h] else [];
        assert Dedup(a + b, seen) == head + (x + y);
        assert head + (x + y) == (head + x) + y;
      }
    }
  }

  /** Orders whose ids have all been seen contribute nothing. */
  lemma {:induction false} DedupAllSeen(s: seq<Listed>, seen: set<int>)
    requires Ids(s) <= seen
    ensures Dedup(s, seen) == []
    decreases |s|
  {
    if s != [] {
      DedupAllSeen(s[1..], seen);
    }
  }

  /** Repeating a list collapses: the lists of A, A again, then B give the same comments as
      A then B. */
  lemma RepeatedListCollapses(a: seq<Listed>, b: seq<Listed>)
    ensures OrdersWithComments(a + a + b) == OrdersWithComments(a + b)
  {
    assert a + a + b == a + (a + b);
    assert {} + Ids(a) == Ids(a) == Ids(a) + Ids(a);
    DedupAppend(a, a + b, {});
    DedupAppend(a, b, Ids(a));
    DedupAllSeen(a, Ids(a));
    DedupAppend(a, b, {});
    calc {
      OrdersWithComments(a + a + b);
      Dedup(a, {}) + Dedup(a + b, Ids(a));
      Dedup(a, {}) + (Dedup(a, Ids(a)) + Dedup(b, Ids(a)));
      { assert Dedup(a, Ids(a)) == []; }
      Dedup(a, {}) + Dedup(b, Ids(a));
      OrdersWithComments(a + b);
    }
  }

  /** The loop of the route: one pass, keeping the `seenIds` set. */
  method SelectOrdersWithComments(all: seq<Listed>) returns (r: seq<Listed>)
    ensures r == OrdersWithComments(all)
  {
    var seenIds: set<int> := {};
    r := [];
    var i := 0;
    assert all[0..] == all;
    while i < |all|
      invariant 0 <= i <= |all|
      invariant r + Dedup(all[i..], seenIds) == OrdersWithComments(all)
    {
      var o := all[i];
      assert all[i..][0] == o && all[i..][1..] == all[i + 1..];
      if o.id !in seenIds {
        seenIds := seenIds + {o.id};
        if HasComment(o) {
          r := r + [o];
        }
      }
      i := i + 1;
    }
  }

  datatype DashboardResponse =
    | InvalidStore
    | FetchFailed
    | Dashboard(
        store: Region,
        orders: seq<Listed>,
        recentOrders: seq<Listed>,
        incompleteOrders: seq<Listed>,
        incompleteAlerts: nat,
        ordersWithComments: seq<Listed>,
        total: nat,
        overdue: nat,
        thresholdHours: int,
        lastChecked: string)
  {
    function Status(): int {
      match this
      case InvalidStore => 400
      case FetchFailed => 500
      case Dashboard(_, _, _, _, _, _, _, _, _, _) => 200
    }

    function Error(): string {
      match this
      case InvalidStore => "Invalid store parameter"
      case FetchFailed => "Failed to fetch orders"
      case Dashboard(_, _, _, _, _, _, _, _, _, _) => ""
    }
  }

  /** `GET`: `thresholdSetting` is the parsed `THRESHOLD_HOURS` and `lastChecked` the time
      of the answer, as text. */
  method Get(storeParam: Option<string>, fetchers: Fetchers, thresholdSetting: Option<int>, lastChecked: string)
    returns (resp: DashboardResponse)
    ensures ParseStore(storeParam).None? ==> resp == InvalidStore
    ensures ParseStore(storeParam).Some? ==>
      var store := ParseStore(storeParam).value;
      var awaiting, recent, incomplete := fetchers.awaiting(store), fetchers.recent(store), fetchers.incomplete(store);
      if awaiting.Failure? || recent.Failure? || incomplete.Failure? then resp == FetchFailed
      else
        var orders := SortDesc(awaiting.value, HoursKey);
        var stuck := SortDesc(incomplete.value, MinutesKey);
        resp == Dashboard(
          store, orders, recent.value, stuck,
          Count(incomplete.value, IsIncompleteAlert),
          OrdersWithComments(orders + recent.value + stuck),
          |awaiting.value|,
          Count(awaiting.value, IsOverdue),
          thresholdSetting.GetOr(BigCommerce.DEFAULT_THRESHOLD_HOURS),
          lastChecked)
  {
    var parsed := ParseStore(storeParam);
    if parsed.None? {
      return InvalidStore;
    }
    var store := parsed.value;
    var awaiting, recent, incomplete := fetchers.awaiting(store), fetchers.recent(store), fetchers.incomplete(store);
    if awaiting.Failure? || recent.Failure? || incomplete.Failure? {
      return FetchFailed;
    }
    var fetched, stuckFetched := awaiting.value, incomplete.value;
    var orders := new Listed[|fetched|](k requires 0 <= k < |fetched| => fetched[k]);
    var incompleteOrders := new Listed[|stuckFetched|](k requires 0 <= k < |stuckFetched| => stuckFetched[k]);
    assert orders[..] == fetched;
    assert incompleteOrders[..] == stuckFetched;
    SortInPlace(orders, HoursKey);
    SortInPlace(incompleteOrders, MinutesKey);
    SortDescCount(fetched, HoursKey, IsOverdue);
    SortDescCount(stuckFetched, MinutesKey, IsIncompleteAlert);
    var overdueCount := Count(orders[..], IsOverdue);
    var withComments := SelectOrdersWithComments(orders[..] + recent.value + incompleteOrders[..]);
    var incompleteAlerts := Count(incompleteOrders[..], IsIncompleteAlert);
    resp := Dashboard(
      store, orders[..], recent.value, incompleteOrders[..], incompleteAlerts, withComments,
      orders.Length, overdueCount, thresholdSetting.GetOr(BigCommerce.DEFAULT_THRESHOLD_HOURS), lastChecked);
  }

  /** The sorted awaiting list is a stable, descending-by-hours permutation of the fetched
      one, and the sorted incomplete list likewise by minutes. */
  lemma DashboardListsSorted(resp: DashboardResponse, awaiting: seq<Listed>, incomplete: seq<Listed>)
    requires resp.Dashboard?
    requires resp.orders == SortDesc(awaiting, HoursKey) && resp.incompleteOrders == SortDesc(incomplete, MinutesKey)
    ensures multiset(resp.orders) == multiset(awaiting) && SortedDesc(resp.orders, HoursKey)
    ensures multiset(resp.incompleteOrders) == multiset(incomplete) && SortedDesc(resp.incompleteOrders, MinutesKey)
    ensures forall h :: Filter(resp.orders, KeyIs(HoursKey, h)) == Filter(awaiting, KeyIs(HoursKey, h))
    ensures forall m :: Filter(resp.incompleteOrders, KeyIs(MinutesKey, m)) == Filter(incomplete, KeyIs(MinutesKey, m))
  {
    SortDescPermutes(awaiting, HoursKey);
    SortDescSorted(awaiting, HoursKey);
    SortDescPermutes(incomplete, MinutesKey);
    SortDescSorted(incomplete, MinutesKey);
    forall h ensures Filter(resp.orders, KeyIs(HoursKey, h)) == Filter(awaiting, KeyIs(HoursKey, h)) {
      SortDescStable(awaiting, HoursKey, h);
    }
    forall m ensures Filter(resp.incompleteOrders, KeyIs(MinutesKey, m)) == Filter(incomplete, KeyIs(MinutesKey, m)) {
      SortDescStable(incomplete, MinutesKey, m);
    }
  }

  /** The comment list of a dashboard: ids unique, a subsequence of the three lists in
      order, every element commented, and an order listed exactly when it is the first
      occurrence of its id and carries a comment. */
  lemma CommentsCharacterised(all: seq<Listed>)
    ensures var r := OrdersWithComments(all);
      && DistinctIds(r)
      && IsSubsequence(r, all)
      && (forall x :: x in r ==> HasComment(x))
      && (forall i :: 0 <= i < |all| && FirstAt(all, i) && HasComment(all[i]) ==> all[i] in r)
      && (forall i, x :: 0 <= i < |all| && FirstAt(all, i) && x in r && x.id == all[i].id ==> x == all[i])
  {
    DedupSound(all, {});
    DedupSubsequence(all, {});
    forall i | 0 <= i < |all| && FirstAt(all, i) && HasComment(all[i]) ensures all[i] in OrdersWithComments(all) {
      DedupComplete(all, {}, i);
    }
    forall i, x | 0 <= i < |all| && FirstAt(all, i) && x in OrdersWithComments(all) && x.id == all[i].id
      ensures x == all[i]
    {
      DedupOnlyFirst(all, {}, i, x);
    }
  }
}
