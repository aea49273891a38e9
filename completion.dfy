/** Completing an order (src/App.jsx, `handleComplete`): the status
    endpoint is chosen by the order's `_source` tag, and on success every
    order carrying the ID leaves both tabs. */
module Completion {
  import opened Wrappers
  import opened Lists
  import opened Orders
  import opened Sorting
  import opened Pipeline

  const ApiBase: string := "https://jamjambackendsettlo.vercel.app/api"
  const StatusSuffix: string := "/status"

  /** The feed that owns an order and serves its status endpoint. */
  datatype Feed = RestaurantFeed | BarFeed

  /** `source === 'restaurant'`; any other tag, or none, means the bar feed. */
  function FeedOf(source: Option<string>): Feed {
    if source == Some(RestaurantTag) then RestaurantFeed else BarFeed
  }

  function FeedPrefix(feed: Feed): string {
    match feed
    case RestaurantFeed => ApiBase + "/restaurant-orders/"
    case BarFeed => ApiBase + "/bar-orders/"
  }

  /** `url` is the status endpoint of some order of `feed`. */
  predicate HasShape(url: string, feed: Feed) {
    var prefix := FeedPrefix(feed);
    |url| >= |prefix| + |StatusSuffix| &&
    url[..|prefix|] == prefix && url[|url| - |StatusSuffix|..] == StatusSuffix
  }

  /** Reads the feed and the order ID back out of a status endpoint. */
  function ParseEndpoint(url: string): Option<(Feed, string)> {
    if HasShape(url, RestaurantFeed) then
      Some((RestaurantFeed, url[|FeedPrefix(RestaurantFeed)|..|url| - |StatusSuffix|]))
    else if HasShape(url, BarFeed) then
      Some((BarFeed, url[|FeedPrefix(BarFeed)|..|url| - |StatusSuffix|]))
    else None
  }

  lemma EndpointShape(orderId: string, feed: Feed)
    ensures var url := FeedPrefix(feed) + orderId + StatusSuffix;
      HasShape(url, feed) &&
      url[|FeedPrefix(feed)|..|url| - |StatusSuffix|] == orderId &&
      (feed == BarFeed ==> !HasShape(url, RestaurantFeed))
  {
    var prefix := FeedPrefix(feed);
    var url := prefix + orderId + StatusSuffix;
    assert url[..|prefix|] == prefix;
    assert url[|url| - |StatusSuffix|..] == StatusSuffix;
    assert url[|prefix|..|url| - |StatusSuffix|] == orderId;
    if feed == BarFeed {
      var k := |ApiBase| + 1;
      assert url[k] == prefix[k] == 'b';
      assert FeedPrefix(RestaurantFeed)[k] == 'r';
      if |url| >= |FeedPrefix(RestaurantFeed)| + |StatusSuffix| {
        assert url[..|FeedPrefix(RestaurantFeed)|][k] == 'b';
      }
    }
  }

  /** The PATCH target: `/restaurant-orders/{id}/status` for an order tagged
      'restaurant', `/bar-orders/{id}/status` for every other order. The
      endpoint names its feed and its order unambiguously. */
  function Endpoint(orderId: string, source: Option<string>): (url: string)
    ensures ParseEndpoint(url) == Some((FeedOf(source), orderId))
    ensures FeedOf(source) == RestaurantFeed <==> source == Some(RestaurantTag)
  {
    EndpointShape(orderId, FeedOf(source));
    FeedPrefix(FeedOf(source)) + orderId + StatusSuffix
  }

  /** Two completions hit the same endpoint only for the same order of the
      same feed. */
  lemma EndpointInjective(a: string, s: Option<string>, b: string, t: Option<string>)
    requires Endpoint(a, s) == Endpoint(b, t)
    ensures a == b && FeedOf(s) == FeedOf(t)
  {
    assert ParseEndpoint(Endpoint(a, s)) == ParseEndpoint(Endpoint(b, t));
  }

  function KeepsOtherIds(orderId: string): Order -> bool {
    (o: Order) => o.orderId != orderId
  }

  lemma {:induction false} RemovedIds(s: seq<Order>, orderId: string)
    ensures IdSet(Filter(s, KeepsOtherIds(orderId))) == IdSet(s) - {orderId}
  {
    if s != [] {
      RemovedIds(s[1..], orderId);
      FilterCons(s[0], s[1..], KeepsOtherIds(orderId));
      assert s == [s[0]] + s[1..];
      assert IdSet(s) == {s[0].orderId} + IdSet(s[1..]);
      if s[0].orderId == orderId {
        assert Filter(s, KeepsOtherIds(orderId)) == Filter(s[1..], KeepsOtherIds(orderId));
      } else {
        var rest := Filter(s[1..], KeepsOtherIds(orderId));
        assert Filter(s, KeepsOtherIds(orderId)) == [s[0]] + rest;
        assert IdSet([s[0]] + rest) == {s[0].orderId} + IdSet(rest) by {
          assert ([s[0]] + rest)[1..] == rest;
        }
      }
    }
  }

  /** `prev.filter((o) => o.orderId !== orderId)`: every order carrying the
      ID is gone, every other order stays, as often as before and in the
      same order. */
  function WithoutOrder(s: seq<Order>, orderId: string): (r: seq<Order>)
    ensures forall o :: o in r <==> o in s && o.orderId != orderId
    ensures forall o: Order :: multiset(r)[o] == if o.orderId == orderId then 0 else multiset(s)[o]
    ensures IdSet(r) == IdSet(s) - {orderId}
  {
    var r := Filter(s, KeepsOtherIds(orderId));
    FilterCountAll(s, KeepsOtherIds(orderId));
    RemovedIds(s, orderId);
    r
  }

  /** Removal distributes over concatenation, so the kept orders keep their
      relative order. */
  lemma WithoutOrderConcat(a: seq<Order>, b: seq<Order>, orderId: string)
    ensures WithoutOrder(a + b, orderId) == WithoutOrder(a, orderId) + WithoutOrder(b, orderId)
  {
    FilterConcat(a, b, KeepsOtherIds(orderId));
  }

  /** Removing an ID from a newest-first tab leaves it newest first. */
  lemma WithoutOrderKeepsSorted(s: seq<Order>, orderId: string, key: Stamp)
    requires Sorted(s, key)
    ensures Sorted(WithoutOrder(s, orderId), key)
  {
    FilterKeepsSorted(s, KeepsOtherIds(orderId), key);
  }

  /** Removing the same ID twice is removing it once; removing an ID that
      is not shown changes nothing. */
  lemma WithoutOrderIdempotent(s: seq<Order>, orderId: string)
    ensures WithoutOrder(WithoutOrder(s, orderId), orderId) == WithoutOrder(s, orderId)
    ensures orderId !in IdSet(s) ==> WithoutOrder(s, orderId) == s
  {
    FilterIdempotent(s, KeepsOtherIds(orderId));
    if orderId !in IdSet(s) {
      IdSetMembers(s);
      forall i | 0 <= i < |s| ensures KeepsOtherIds(orderId)(s[i]) {
        assert s[i] in s;
      }
      FilterKeepsAll(s, KeepsOtherIds(orderId));
    }
  }
}
