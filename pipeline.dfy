/** One poll's pipeline (src/App.jsx, the body of `fetchOrders` after the
    two responses arrived): filter both feeds to active orders, split each
    bar order by item category, merge the restaurant orders with the bar
    kitchen parts, sort both tabs newest first, and find the order IDs that
    were not on screen at the previous poll. */
module Pipeline {
  import opened Wrappers
  import opened Lists
  import opened Orders
  import opened Sorting

  /** `{ ...o, _source: 'restaurant' }` */
  function AsRestaurant(o: Order): Order {
    o.(source := Some(RestaurantTag))
  }

  /** Tags every restaurant order with its feed, keeping the list's order. */
  function TagRestaurant(s: seq<Order>): (r: seq<Order>)
    ensures |r| == |s|
    ensures forall i :: 0 <= i < |s| ==> r[i].orderId == s[i].orderId && r[i].source == Some(RestaurantTag)
    ensures forall i :: 0 <= i < |s| ==> r[i].(source := s[i].source) == s[i]
    ensures forall d :: d in r <==> exists o :: o in s && d == AsRestaurant(o)
  {
    var r := seq(|s|, i requires 0 <= i < |s| => AsRestaurant(s[i]));
    assert forall i :: 0 <= i < |s| ==> r[i] == AsRestaurant(s[i]);
    r
  }

  /** The kitchen tab before sorting: every active restaurant order, then
      the kitchen part of every active bar order. */
  function KitchenInput(restaurantData: seq<Order>, barData: seq<Order>): seq<Order> {
    TagRestaurant(FilterActive(restaurantData)) + FilterMap(FilterActive(barData), KitchenPart)
  }

  /** The bar tab before sorting: the drink part of every active bar order. */
  function BarInput(barData: seq<Order>): seq<Order> {
    FilterMap(FilterActive(barData), DrinkPart)
  }

  /** The kitchen tab after a successful poll: a newest-first permutation
      of its input, by `createdAt || timestamp`. */
  function KitchenView(restaurantData: seq<Order>, barData: seq<Order>): (r: seq<Order>)
    ensures Sorted(r, CreatedAtOrTimestamp)
    ensures multiset(r) == multiset(KitchenInput(restaurantData, barData))
  {
    SortNewestFirst(KitchenInput(restaurantData, barData), CreatedAtOrTimestamp)
  }

  /** The bar tab after a successful poll: a newest-first permutation of its
      input, by `createdAt` alone. */
  function BarView(barData: seq<Order>): (r: seq<Order>)
    ensures Sorted(r, CreatedAtOnly)
    ensures multiset(r) == multiset(BarInput(barData))
  {
    SortNewestFirst(BarInput(barData), CreatedAtOnly)
  }

  /** Kitchen orders that share an instant keep the merge order: the
      restaurant orders first, in feed order, then the bar kitchen parts. */
  lemma KitchenViewTies(restaurantData: seq<Order>, barData: seq<Order>, t: Option<int>)
    ensures Filter(KitchenView(restaurantData, barData), HasStamp(CreatedAtOrTimestamp, t)) ==
      Filter(TagRestaurant(FilterActive(restaurantData)), HasStamp(CreatedAtOrTimestamp, t)) +
      Filter(FilterMap(FilterActive(barData), KitchenPart), HasStamp(CreatedAtOrTimestamp, t))
  {
    SortStable(KitchenInput(restaurantData, barData), CreatedAtOrTimestamp, t);
    FilterConcat(TagRestaurant(FilterActive(restaurantData)),
                 FilterMap(FilterActive(barData), KitchenPart), HasStamp(CreatedAtOrTimestamp, t));
  }

  /** Bar orders that share a `createdAt` keep their feed order. */
  lemma BarViewTies(barData: seq<Order>, t: Option<int>)
    ensures Filter(BarView(barData), HasStamp(CreatedAtOnly, t)) ==
      Filter(FilterMap(FilterActive(barData), DrinkPart), HasStamp(CreatedAtOnly, t))
  {
    SortStable(BarInput(barData), CreatedAtOnly, t);
  }

  /** The set of order IDs of a list: `new Set(list.map((o) => o.orderId))`. */
  function IdSet(s: seq<Order>): (r: set<string>)
    ensures |r| <= |s|
  {
    if s == [] then {} else {s[0].orderId} + IdSet(s[1..])
  }

  /** An ID is in the set exactly when some order of the list carries it. */
  lemma {:induction false} IdSetMembers(s: seq<Order>)
    ensures forall id :: id in IdSet(s) <==> exists o :: o in s && o.orderId == id
  {
    if s != [] {
      IdSetMembers(s[1..]);
      assert forall o :: o in s <==> o == s[0] || o in s[1..];
    }
  }

  lemma {:induction false} IdSetSnoc(s: seq<Order>, o: Order)
    ensures IdSet(s + [o]) == IdSet(s) + {o.orderId}
  {
    if s == [] {
      assert s + [o] == [o];
    } else {
      assert (s + [o])[0] == s[0];
      assert (s + [o])[1..] == s[1..] + [o];
      IdSetSnoc(s[1..], o);
    }
  }

  /** The IDs on screen now that were not in the matching snapshot. */
  function NewIdSet(kitchen: seq<Order>, bar: seq<Order>, prevKitchenIds: set<string>, prevBarIds: set<string>): set<string> {
    (IdSet(kitchen) - prevKitchenIds) + (IdSet(bar) - prevBarIds)
  }

  lemma NewIdSetMembers(kitchen: seq<Order>, bar: seq<Order>, prevKitchenIds: set<string>, prevBarIds: set<string>)
    ensures forall id :: id in NewIdSet(kitchen, bar, prevKitchenIds, prevBarIds) <==>
      ((exists o :: o in kitchen && o.orderId == id) && id !in prevKitchenIds) ||
      ((exists o :: o in bar && o.orderId == id) && id !in prevBarIds)
  {
    IdSetMembers(kitchen);
    IdSetMembers(bar);
  }

  /** One round of the splitting loop: the parts of one more order go at
      the end of the two lists. */
  lemma SplitStep(s: seq<Order>, i: int)
    requires 0 <= i < |s|
    ensures var kitchenItems := Filter(ItemsOf(s[i]), IsKitchenItem);
      FilterMap(s[..i + 1], KitchenPart)
      == if |kitchenItems| > 0 then FilterMap(s[..i], KitchenPart) + [BarCopy(s[i], kitchenItems)]
         else FilterMap(s[..i], KitchenPart)
    ensures var drinkItems := Filter(ItemsOf(s[i]), IsDrinkItem);
      FilterMap(s[..i + 1], DrinkPart)
      == if |drinkItems| > 0 then FilterMap(s[..i], DrinkPart) + [BarCopy(s[i], drinkItems)]
         else FilterMap(s[..i], DrinkPart)
  {
    assert s[..i + 1] == s[..i] + [s[i]];
    FilterMapSnoc(s[..i], s[i], KitchenPart);
    FilterMapSnoc(s[..i], s[i], DrinkPart);
  }

  /** The `forEach` loop over the active bar orders: pushes each order's
      kitchen part and drink part, when present, onto two result lists. */
  method SplitBarOrders(activeBarRaw: seq<Order>) returns (barKitchenOrders: seq<Order>, barDrinkOrders: seq<Order>)
    ensures barKitchenOrders == FilterMap(activeBarRaw, KitchenPart)
    ensures barDrinkOrders == FilterMap(activeBarRaw, DrinkPart)
  {
    barKitchenOrders, barDrinkOrders := [], [];
    var i := 0;
    while i < |activeBarRaw|
      invariant 0 <= i <= |activeBarRaw|
      invariant barKitchenOrders == FilterMap(activeBarRaw[..i], KitchenPart)
      invariant barDrinkOrders == FilterMap(activeBarRaw[..i], DrinkPart)
    {
      var order := activeBarRaw[i];
      var kitchenItems := Filter(ItemsOf(order), IsKitchenItem);
      var drinkItems := Filter(ItemsOf(order), IsDrinkItem);
      if |kitchenItems| > 0 {
        barKitchenOrders := barKitchenOrders + [BarCopy(order, kitchenItems)];
      }
      if |drinkItems| > 0 {
        barDrinkOrders := barDrinkOrders + [BarCopy(order, drinkItems)];
      }
      SplitStep(activeBarRaw, i);
      i := i + 1;
    }
    assert activeBarRaw[..i] == activeBarRaw;
  }

  /** One `forEach` loop of the change detector: adds to `acc` the ID of
      every order of `orders` that is not in the snapshot `seen`. */
  method AddUnseenIds(acc: set<string>, orders: seq<Order>, seen: set<string>) returns (r: set<string>)
    ensures r == acc + (IdSet(orders) - seen)
  {
    r := acc;
    var i := 0;
    while i < |orders|
      invariant 0 <= i <= |orders|
      invariant r == acc + (IdSet(orders[..i]) - seen)
    {
      var o := orders[i];
      assert orders[..i + 1] == orders[..i] + [o];
      IdSetSnoc(orders[..i], o);
      if o.orderId !in seen {
        r := r + {o.orderId};
      }
      i := i + 1;
    }
    assert orders[..i] == orders;
  }

  /** The aggregation step of a poll: filters both feeds to active orders,
      splits the bar orders, merges the kitchen tab and sorts both tabs. */
  method BuildTabs(restaurantData: seq<Order>, barData: seq<Order>) returns (allKitchen: seq<Order>, allBar: seq<Order>)
    ensures allKitchen == KitchenView(restaurantData, barData)
    ensures allBar == BarView(barData)
  {
    var activeRestaurant := FilterActive(restaurantData);
    var activeBarRaw := FilterActive(barData);
    var barKitchenOrders, barDrinkOrders := SplitBarOrders(activeBarRaw);
    allKitchen := SortNewestFirst(TagRestaurant(activeRestaurant) + barKitchenOrders, CreatedAtOrTimestamp);
    allBar := SortNewestFirst(barDrinkOrders, CreatedAtOnly);
  }

  /** The change detector: an ID is new when an order carrying it is on the
      kitchen tab and the ID was not in the kitchen snapshot, or on the bar
      tab and not in the bar snapshot. */
  method DetectNewIds(allKitchen: seq<Order>, allBar: seq<Order>, prevKitchenIds: set<string>, prevBarIds: set<string>)
    returns (newIds: set<string>)
    ensures newIds == NewIdSet(allKitchen, allBar, prevKitchenIds, prevBarIds)
  {
    newIds := AddUnseenIds({}, allKitchen, prevKitchenIds);
    newIds := AddUnseenIds(newIds, allBar, prevBarIds);
  }

  /** An order is on the kitchen tab exactly when it is an active restaurant
      order tagged 'restaurant', or the kitchen part of an active bar order. */
  lemma KitchenViewMembers(restaurantData: seq<Order>, barData: seq<Order>, d: Order)
    ensures d in KitchenView(restaurantData, barData) <==>
      (exists o :: o in restaurantData && IsActive(o) && d == AsRestaurant(o)) ||
      (exists o :: o in barData && IsActive(o) && KitchenPart(o) == Some(d))
  {
    var activeRestaurant := FilterActive(restaurantData);
    var activeBar := FilterActive(barData);
    var input := KitchenInput(restaurantData, barData);
    assert d in KitchenView(restaurantData, barData) <==> d in input by {
      assert d in KitchenView(restaurantData, barData) <==> d in multiset(input);
    }
    assert d in input <==> d in TagRestaurant(activeRestaurant) || d in FilterMap(activeBar, KitchenPart);
    assert d in TagRestaurant(activeRestaurant) <==>
      exists o :: o in restaurantData && IsActive(o) && d == AsRestaurant(o);
    FilterMapMembers(activeBar, KitchenPart);
    assert d in FilterMap(activeBar, KitchenPart) <==>
      exists o :: o in barData && IsActive(o) && KitchenPart(o) == Some(d);
  }

  /** An order is on the bar tab exactly when it is the drink part of an
      active bar order. */
  lemma BarViewMembers(barData: seq<Order>, d: Order)
    ensures d in BarView(barData) <==> exists o :: o in barData && IsActive(o) && DrinkPart(o) == Some(d)
  {
    FilterMapMembers(FilterActive(barData), DrinkPart);
    assert d in BarView(barData) <==> d in multiset(BarInput(barData));
  }

  /** What each tab shows: only active orders; on the kitchen tab, orders
      tagged with either feed, where a bar-tagged one holds only kitchen
      items; on the bar tab, bar-tagged orders holding only, and at least
      one, non-kitchen items. */
  lemma ViewsShowActiveOrders(restaurantData: seq<Order>, barData: seq<Order>)
    ensures forall d :: d in KitchenView(restaurantData, barData) ==>
      IsActive(d) && (d.source == Some(RestaurantTag) || d.source == Some(BarTag))
    ensures forall d :: d in KitchenView(restaurantData, barData) && d.source == Some(BarTag) ==>
      ItemsOf(d) != [] && forall it :: it in ItemsOf(d) ==> IsKitchenItem(it)
    ensures forall d :: d in BarView(barData) ==>
      IsActive(d) && d.source == Some(BarTag) && ItemsOf(d) != [] &&
      forall it :: it in ItemsOf(d) ==> !IsKitchenItem(it)
  {
    forall d | d in KitchenView(restaurantData, barData)
      ensures IsActive(d) && (d.source == Some(RestaurantTag) || d.source == Some(BarTag))
      ensures d.source == Some(BarTag) ==> ItemsOf(d) != [] && forall it :: it in ItemsOf(d) ==> IsKitchenItem(it)
    {
      KitchenViewMembers(restaurantData, barData, d);
      if exists o :: o in restaurantData && IsActive(o) && d == AsRestaurant(o) {
        var o :| o in restaurantData && IsActive(o) && d == AsRestaurant(o);
        assert d.source == Some(RestaurantTag);
      } else {
        var o :| o in barData && IsActive(o) && KitchenPart(o) == Some(d);
        ItemsPartition(ItemsOf(o));
        assert ItemsOf(d) == KitchenItems(ItemsOf(o));
        var it :| it in ItemsOf(o) && IsKitchenItem(it);
        assert it in ItemsOf(d);
      }
    }
    forall d | d in BarView(barData)
      ensures IsActive(d) && d.source == Some(BarTag) && ItemsOf(d) != []
      ensures forall it :: it in ItemsOf(d) ==> !IsKitchenItem(it)
    {
      BarViewMembers(barData, d);
      var o :| o in barData && IsActive(o) && DrinkPart(o) == Some(d);
      ItemsPartition(ItemsOf(o));
      assert ItemsOf(d) == DrinkItems(ItemsOf(o));
      var it :| it in ItemsOf(o) && IsDrinkItem(it);
      assert it in ItemsOf(d);
    }
  }

  /** The part of `ViewsShowActiveOrders` that a poll's state keeps. */
  lemma TabsShowActiveOrders(restaurantData: seq<Order>, barData: seq<Order>)
    ensures forall d :: d in KitchenView(restaurantData, barData) ==> IsActive(d)
    ensures forall d :: d in BarView(barData) ==> IsActive(d) && d.source == Some(BarTag)
  {
    ViewsShowActiveOrders(restaurantData, barData);
  }

  /** An active bar order with both kinds of item is shown twice under one
      ID: its kitchen items on the kitchen tab and its other items on the
      bar tab, both tagged 'bar'. */
  lemma MixedBarOrderShownTwice(restaurantData: seq<Order>, barData: seq<Order>, o: Order)
    requires o in barData && IsActive(o)
    requires exists it :: it in ItemsOf(o) && IsKitchenItem(it)
    requires exists it :: it in ItemsOf(o) && !IsKitchenItem(it)
    ensures exists d :: (d in KitchenView(restaurantData, barData) && d.orderId == o.orderId &&
                         d.source == Some(BarTag) && ItemsOf(d) == KitchenItems(ItemsOf(o)))
    ensures exists e :: (e in BarView(barData) && e.orderId == o.orderId &&
                         e.source == Some(BarTag) && ItemsOf(e) == DrinkItems(ItemsOf(o)))
    ensures o.orderId in IdSet(KitchenView(restaurantData, barData)) * IdSet(BarView(barData))
  {
    assert KitchenPart(o).Some? && DrinkPart(o).Some?;
    var d := KitchenPart(o).value;
    KitchenViewMembers(restaurantData, barData, d);
    assert d in KitchenView(restaurantData, barData);
    var e := DrinkPart(o).value;
    BarViewMembers(barData, e);
    assert e in BarView(barData);
    IdSetMembers(KitchenView(restaurantData, barData));
    IdSetMembers(BarView(barData));
    assert o.orderId in IdSet(KitchenView(restaurantData, barData));
    assert o.orderId in IdSet(BarView(barData));
  }

  /** Polling again on the same data finds nothing new: the snapshots a
      successful poll leaves are the ID sets of the tabs it shows. */
  lemma RepollFindsNothing(restaurantData: seq<Order>, barData: seq<Order>)
    ensures NewIdSet(KitchenView(restaurantData, barData), BarView(barData),
                     IdSet(KitchenView(restaurantData, barData)), IdSet(BarView(barData))) == {}
  {
  }
}
