/** Worked examples of the pipeline on concrete feeds: a bar order with one
    kitchen item and one drink is shown on both tabs and leaves both on
    completion; a restaurant order is shown on the kitchen tab only. */
module Scenarios {
  import opened Wrappers
  import opened Lists
  import opened Orders
  import opened Sorting
  import opened Pipeline
  import opened Completion

  const Fries: Item := Item(Some("Fries"), None, None, 1, Some("kitchen"), None)
  const Beer: Item := Item(Some("Beer"), None, None, 2, Some("drink"), None)
  const Soup: Item := Item(Some("Soup"), None, None, 2, Some("kitchen"), None)

  const B1: Order := Order("B1", "preparing", Some([Fries, Beer]), Some(100), None, None, None, None, None)
  const R1: Order := Order("R1", "pending", Some([Soup]), Some(200), None, None, None, None, None)

  lemma FriesIsKitchenBeerIsNot()
    ensures IsKitchenItem(Fries) && IsKitchenItem(Soup) && !IsKitchenItem(Beer)
  {
    assert ToLower("kitchen") == "kitchen";
    assert ToLower("drink") == "drink";
  }

  /** What the tabs show of B1 and R1. */
  const B1Kitchen: Order := B1.(items := Some([Fries]), source := Some(BarTag))
  const B1Drinks: Order := B1.(items := Some([Beer]), source := Some(BarTag))
  const R1Tagged: Order := R1.(source := Some(RestaurantTag))

  /** The bar order B1 splits into two derived orders, Fries for the
      kitchen and Beer for the bar, both tagged 'bar'; R1 has no drink
      part. */
  lemma SplitScenario()
    ensures KitchenPart(B1) == Some(B1Kitchen) && DrinkPart(B1) == Some(B1Drinks)
    ensures DrinkPart(R1) == None
  {
    FriesIsKitchenBeerIsNot();
    assert [Fries, Beer] == [Fries] + [Beer];
    FilterCons(Fries, [Beer], IsKitchenItem);
    FilterSingleton(Beer, IsKitchenItem);
    FilterCons(Fries, [Beer], IsDrinkItem);
    FilterSingleton(Beer, IsDrinkItem);
    FilterSingleton(Soup, IsDrinkItem);
    assert ItemsOf(B1) == [Fries, Beer];
    assert KitchenItems(ItemsOf(B1)) == [Fries];
    assert DrinkItems(ItemsOf(B1)) == [Beer];
  }

  /** Before sorting, the kitchen tab holds R1 tagged 'restaurant', then
      B1's kitchen part. */
  lemma KitchenInputScenario()
    ensures KitchenInput([R1], [B1]) == [R1Tagged, B1Kitchen]
  {
    SplitScenario();
    FilterSingleton(B1, IsActive);
    FilterSingleton(R1, IsActive);
    FilterMapSingleton(B1, KitchenPart);
  }

  /** R1, created at 200, sorts before B1's part, created at 100. */
  lemma KitchenSortScenario()
    ensures SortNewestFirst([R1Tagged, B1Kitchen], CreatedAtOrTimestamp) == [R1Tagged, B1Kitchen]
  {
    var input := [R1Tagged, B1Kitchen];
    assert input[1..] == [B1Kitchen];
    assert [B1Kitchen][1..] == [];
    var rest := SortNewestFirst([B1Kitchen], CreatedAtOrTimestamp);
    assert rest == [B1Kitchen];
    assert NewerOrSame(TimeOf(R1Tagged, CreatedAtOrTimestamp), TimeOf(B1Kitchen, CreatedAtOrTimestamp));
  }

  /** The kitchen tab shows R1, the newer order, before B1's kitchen part. */
  lemma KitchenScenario()
    ensures KitchenView([R1], [B1]) == [R1Tagged, B1Kitchen]
  {
    KitchenInputScenario();
    KitchenSortScenario();
  }

  /** The bar tab shows B1's drink part alone; R1 never reaches it. */
  lemma BarScenario()
    ensures BarView([B1]) == [B1Drinks]
    ensures BarView([R1]) == []
  {
    SplitScenario();
    FilterSingleton(B1, IsActive);
    FilterSingleton(R1, IsActive);
    FilterMapSingleton(B1, DrinkPart);
    FilterMapSingleton(R1, DrinkPart);
    assert BarInput([B1]) == [B1Drinks];
    assert [B1Drinks][1..] == [];
  }

  /** Completing B1 sends the status update to the bar feed. */
  lemma CompleteEndpointScenario()
    ensures Endpoint("B1", Some(BarTag)) == ApiBase + "/bar-orders/B1/status"
  {
    assert FeedOf(Some(BarTag)) == BarFeed;
  }

  lemma RemoveB1Scenario()
    ensures WithoutOrder([R1Tagged, B1Kitchen], "B1") == [R1Tagged]
    ensures WithoutOrder([B1Drinks], "B1") == []
  {
    var p := KeepsOtherIds("B1");
    assert [R1Tagged, B1Kitchen] == [R1Tagged] + [B1Kitchen];
    FilterCons(R1Tagged, [B1Kitchen], p);
    FilterSingleton(B1Kitchen, p);
    FilterSingleton(B1Drinks, p);
    assert p(R1Tagged) && !p(B1Kitchen) && !p(B1Drinks);
  }

  /** After the update succeeds both derived orders of B1 leave the tabs,
      and R1 stays. */
  lemma CompleteMixedOrderScenario()
    ensures WithoutOrder(KitchenView([R1], [B1]), "B1") == [R1Tagged]
    ensures WithoutOrder(BarView([B1]), "B1") == []
  {
    KitchenScenario();
    BarScenario();
    RemoveB1Scenario();
  }
}
