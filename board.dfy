/** The state the `App` component keeps between polls (src/App.jsx): the
    two tabs, the two ID snapshots of the previous poll, the highlighted
    IDs and the error banner, with the operations that update them. */
module Board {
  import opened Wrappers
  import opened Lists
  import opened Orders
  import opened Sorting
  import opened Pipeline
  import opened Completion

  /** The message of the error thrown when a feed answers with a failure. */
  const FetchFailedMessage: string := "Failed to fetch orders"

  /** What every displayed state satisfies: both tabs are newest first and
      show only active orders, the bar tab only bar-tagged ones, and every ID
      on a tab is in that tab's snapshot. */
  ghost predicate TabsInvariant(kitchen: seq<Order>, bar: seq<Order>,
                                kitchenIds: set<string>, barIds: set<string>)
  {
    && Sorted(kitchen, CreatedAtOrTimestamp)
    && Sorted(bar, CreatedAtOnly)
    && (forall o :: o in kitchen ==> IsActive(o))
    && (forall o :: o in bar ==> IsActive(o) && o.source == Some(BarTag))
    && IdSet(kitchen) <= kitchenIds
    && IdSet(bar) <= barIds
  }

  /** A successful poll establishes the invariant. */
  lemma PollEstablishesInvariant(restaurantData: seq<Order>, barData: seq<Order>)
    ensures var kitchen, bar := KitchenView(restaurantData, barData), BarView(barData);
      TabsInvariant(kitchen, bar, IdSet(kitchen), IdSet(bar))
  {
    TabsShowActiveOrders(restaurantData, barData);
  }

  /** A completion keeps the invariant. */
  lemma CompletionKeepsInvariant(kitchen: seq<Order>, bar: seq<Order>,
                                 kitchenIds: set<string>, barIds: set<string>, orderId: string)
    requires TabsInvariant(kitchen, bar, kitchenIds, barIds)
    ensures TabsInvariant(WithoutOrder(kitchen, orderId), WithoutOrder(bar, orderId), kitchenIds, barIds)
  {
    WithoutOrderKeepsSorted(kitchen, orderId, CreatedAtOrTimestamp);
    WithoutOrderKeepsSorted(bar, orderId, CreatedAtOnly);
  }

  class KotBoard {
    var kitchenOrders: seq<Order>
    var barOrders: seq<Order>
    var prevKitchenIds: set<string>
    var prevBarIds: set<string>
    var newOrderIds: set<string>
    var error: Option<string>
    var loading: bool

    /** The board's state satisfies the tab invariant (completions remove
        orders but leave the snapshots, so a snapshot may hold more IDs). */
    ghost predicate Valid()
      reads this
    {
      TabsInvariant(kitchenOrders, barOrders, prevKitchenIds, prevBarIds)
    }

    /** The state before the first poll: empty tabs and snapshots, no
        error, and the loading indicator on. */
    constructor ()
      ensures Valid()
      ensures kitchenOrders == [] && barOrders == []
      ensures prevKitchenIds == {} && prevBarIds == {}
      ensures newOrderIds == {} && error == None && loading
    {
      kitchenOrders, barOrders := [], [];
      prevKitchenIds, prevBarIds := {}, {};
      newOrderIds := {};
      error := None;
      loading := true;
    }

    /** One run of `fetchOrders`. `restaurantOk` and `barOk` are the `ok`
        flags of the two responses and the two sequences their bodies. When
        both are ok the tabs and the snapshots are rebuilt from the data and
        the error is cleared; on a later poll the IDs missing from the
        snapshots are highlighted, and `beep` says whether there were any.
        When either response failed nothing but the error changes. */
    method Poll(isInitial: bool, restaurantOk: bool, barOk: bool,
                restaurantData: seq<Order>, barData: seq<Order>) returns (beep: bool)
      requires Valid()
      modifies this
      ensures Valid()
      ensures loading == (old(loading) && !isInitial)
      ensures restaurantOk && barOk ==>
        && kitchenOrders == KitchenView(restaurantData, barData)
        && barOrders == BarView(barData)
        && prevKitchenIds == IdSet(kitchenOrders)
        && prevBarIds == IdSet(barOrders)
        && error == None
        && beep == (!isInitial && NewIdSet(kitchenOrders, barOrders, old(prevKitchenIds), old(prevBarIds)) != {})
        && newOrderIds == (if beep then NewIdSet(kitchenOrders, barOrders, old(prevKitchenIds), old(prevBarIds))
                           else old(newOrderIds))
      ensures !(restaurantOk && barOk) ==>
        && kitchenOrders == old(kitchenOrders)
        && barOrders == old(barOrders)
        && prevKitchenIds == old(prevKitchenIds)
        && prevBarIds == old(prevBarIds)
        && newOrderIds == old(newOrderIds)
        && error == Some(FetchFailedMessage)
        && !beep
    {
      beep := false;
      if !restaurantOk || !barOk {
        error := Some(FetchFailedMessage);
      } else {
        var allKitchen, allBar := BuildTabs(restaurantData, barData);
        PollEstablishesInvariant(restaurantData, barData);
        var newIds := {};
        if !isInitial {
          newIds := DetectNewIds(allKitchen, allBar, prevKitchenIds, prevBarIds);
          beep := |newIds| > 0;
        }
        Show(allKitchen, allBar, newIds, beep);
      }
      if isInitial {
        loading := false;
      }
    }

    /** Puts freshly built tabs on the board and takes their snapshots;
        `newIds` becomes the highlighted set when `highlight` holds. */
    method Show(kitchen: seq<Order>, bar: seq<Order>, newIds: set<string>, highlight: bool)
      requires TabsInvariant(kitchen, bar, IdSet(kitchen), IdSet(bar))
      modifies this
      ensures Valid()
      ensures kitchenOrders == kitchen && barOrders == bar
      ensures prevKitchenIds == IdSet(kitchen) && prevBarIds == IdSet(bar)
      ensures newOrderIds == (if highlight then newIds else old(newOrderIds))
      ensures error == None && loading == old(loading)
    {
      kitchenOrders, barOrders := kitchen, bar;
      prevKitchenIds, prevBarIds := IdSet(kitchen), IdSet(bar);
      if highlight {
        newOrderIds := newIds;
      }
      error := None;
    }

    /** The timer that ends a highlight: clears every highlighted ID. */
    method ExpireHighlights()
      requires Valid()
      modifies this`newOrderIds
      ensures Valid()
      ensures newOrderIds == {}
    {
      newOrderIds := {};
    }

    /** Replaces the two tabs, keeping the snapshots. */
    method Retain(kitchen: seq<Order>, bar: seq<Order>)
      requires TabsInvariant(kitchen, bar, prevKitchenIds, prevBarIds)
      modifies this`kitchenOrders, this`barOrders
      ensures Valid()
      ensures kitchenOrders == kitchen && barOrders == bar
    {
      kitchenOrders, barOrders := kitchen, bar;
    }

    /** The outcome of `handleComplete`: `endpoint` is where the status
        update goes, chosen by the order's tag, and `ok` whether it
        succeeded. On success every order carrying the ID leaves both tabs
        and the rest stay in order; on failure nothing changes. The
        snapshots, highlights and error banner are never touched. */
    method Complete(orderId: string, source: Option<string>, ok: bool) returns (endpoint: string)
      requires Valid()
      modifies this`kitchenOrders, this`barOrders
      ensures Valid()
      ensures endpoint == Endpoint(orderId, source)
      ensures kitchenOrders == if ok then WithoutOrder(old(kitchenOrders), orderId) else old(kitchenOrders)
      ensures barOrders == if ok then WithoutOrder(old(barOrders), orderId) else old(barOrders)
      ensures ok ==> orderId !in IdSet(kitchenOrders) && orderId !in IdSet(barOrders)
    {
      endpoint := Endpoint(orderId, source);
      if ok {
        CompletionKeepsInvariant(kitchenOrders, barOrders, prevKitchenIds, prevBarIds, orderId);
        Retain(WithoutOrder(kitchenOrders, orderId), WithoutOrder(barOrders, orderId));
      }
    }
  }

  /** Two successful, non-initial polls on the same data: the second shows
      the same tabs and finds nothing new, so it does not beep. */
  method PollTwice(board: KotBoard, restaurantData: seq<Order>, barData: seq<Order>)
    returns (firstBeep: bool, secondBeep: bool)
    requires board.Valid()
    modifies board
    ensures board.Valid()
    ensures board.kitchenOrders == KitchenView(restaurantData, barData)
    ensures board.barOrders == BarView(barData)
    ensures !secondBeep
  {
    firstBeep := board.Poll(false, true, true, restaurantData, barData);
    ghost var kitchenIds, barIds := board.prevKitchenIds, board.prevBarIds;
    assert kitchenIds == IdSet(KitchenView(restaurantData, barData));
    assert barIds == IdSet(BarView(barData));
    RepollFindsNothing(restaurantData, barData);
    secondBeep := board.Poll(false, true, true, restaurantData, barData);
  }
}
