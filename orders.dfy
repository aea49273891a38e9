/** The records the two order feeds deliver, the active-status filter, and
    the classifier that splits a bar order into its kitchen part and its
    drink part (src/App.jsx, `filterActive` and the first half of
    `fetchOrders`). */
module Orders {
  import opened Wrappers
  import opened Lists

  /** A text field of a JSON record as JavaScript's `||` sees it: `None` is
      an absent or null field, `Some("")` is present but falsy. */
  predicate Truthy(s: Option<string>) {
    s.Some? && s.value != ""
  }

  /** One line of an order. */
  datatype Item = Item(
    name: Option<string>,
    displayName: Option<string>,
    itemName: Option<string>,
    quantity: int,
    category: Option<string>,
    servingType: Option<string>)

  /** An order as a feed returns it, or a copy derived from one. Instants are
      milliseconds since the epoch; `None` is an absent, null or empty date
      field. `source` is the `_source` tag that routes a completion. */
  datatype Order = Order(
    orderId: string,
    status: string,
    items: Option<seq<Item>>,
    createdAt: Option<int>,
    timestamp: Option<int>,
    tableNo: Option<string>,
    orderType: Option<string>,
    customerName: Option<string>,
    source: Option<string>)

  const RestaurantTag: string := "restaurant"
  const BarTag: string := "bar"

  // ---------------------------------------------------------------------
  // Active filter

  /** The two statuses that are still being worked on. */
  predicate IsActive(o: Order) {
    o.status == "pending" || o.status == "preparing"
  }

  /** The orders that are pending or preparing, in their original order,
      each as often as it occurs in the feed. */
  function FilterActive(orders: seq<Order>): (r: seq<Order>)
    ensures forall o :: o in r <==> o in orders && (o.status == "pending" || o.status == "preparing")
    ensures forall o :: multiset(r)[o] == if IsActive(o) then multiset(orders)[o] else 0
  {
    FilterCountAll(orders, IsActive);
    Filter(orders, IsActive)
  }

  /** Filtering a concatenation of feeds filters each feed: the kept orders
      stay in their original relative order. */
  lemma FilterActiveConcat(a: seq<Order>, b: seq<Order>)
    ensures FilterActive(a + b) == FilterActive(a) + FilterActive(b)
  {
    FilterConcat(a, b, IsActive);
  }

  // ---------------------------------------------------------------------
  // Item classification

  /** One character of JavaScript's `toLowerCase`, for the ASCII letters. */
  function LowerChar(c: char): char {
    if 'A' <= c <= 'Z' then (c as int + 32) as char else c
  }

  const LowerLetters: string := "abcdefghijklmnopqrstuvwxyz"

  /** JavaScript's `toLowerCase` on ASCII text: each capital letter becomes
      the lower-case letter at the same place in the alphabet, and every
      other character is kept. */
  function ToLower(s: string): (r: string)
    ensures |r| == |s|
    ensures forall i :: 0 <= i < |r| ==> !('A' <= r[i] <= 'Z')
    ensures forall i :: 0 <= i < |s| && 'A' <= s[i] <= 'Z' ==> r[i] == LowerLetters[s[i] as int - 'A' as int]
    ensures forall i :: 0 <= i < |s| && !('A' <= s[i] <= 'Z') ==> r[i] == s[i]
  {
    seq(|s|, i requires 0 <= i < |s| => LowerChar(s[i]))
  }

  /** `item.category || ''`: a category that JavaScript reads as false (an
      absent, null or empty one) reads as the empty text. */
  function CategoryText(item: Item): (r: string)
    ensures Truthy(item.category) ==> r == item.category.value
    ensures !Truthy(item.category) ==> r == ""
  {
    if item.category.Some? then item.category.value else ""
  }

  /** The categories whose items are cooked in the kitchen. */
  const KitchenCategories: seq<string> := ["kitchen"]

  predicate IsKitchenItem(item: Item) {
    ToLower(CategoryText(item)) in KitchenCategories
  }

  predicate IsDrinkItem(item: Item) {
    !(ToLower(CategoryText(item)) in KitchenCategories)
  }

  /** The item list of an order: `order.items || []`. */
  function ItemsOf(o: Order): (r: seq<Item>)
    ensures o.items.Some? ==> r == o.items.value
    ensures o.items.None? ==> r == []
  {
    if o.items.Some? then o.items.value else []
  }

  function KitchenItems(items: seq<Item>): seq<Item> {
    Filter(items, IsKitchenItem)
  }

  function DrinkItems(items: seq<Item>): seq<Item> {
    Filter(items, IsDrinkItem)
  }

  /** An item is a kitchen item exactly when its category, ignoring ASCII
      case, is "kitchen"; an item without a category is a drink item. */
  lemma KitchenItemIff(item: Item)
    ensures IsKitchenItem(item) <==> ToLower(CategoryText(item)) == "kitchen"
    ensures IsDrinkItem(item) <==> !IsKitchenItem(item)
    ensures !Truthy(item.category) ==> IsDrinkItem(item)
  {
    if !Truthy(item.category) {
      assert CategoryText(item) == "";
      assert |ToLower(CategoryText(item))| == 0;
    }
  }

  /** Every category spelling of "kitchen" counts, whatever its case. */
  lemma UpperCaseKitchenIsKitchen(item: Item)
    requires item.category == Some("KITCHEN") || item.category == Some("Kitchen")
    ensures IsKitchenItem(item)
  {
    var t := ToLower(CategoryText(item));
    assert t[0] == 'k' && t[1] == 'i' && t[2] == 't' && t[3] == 'c';
    assert t[4] == 'h' && t[5] == 'e' && t[6] == 'n';
    assert t == "kitchen";
  }

  /** The category texts of kitchen items are exactly the spellings of
      "kitchen" in any mix of ASCII capitals and small letters. */
  lemma KitchenSpellings(item: Item)
    ensures IsKitchenItem(item) <==>
      var c := CategoryText(item);
      |c| == 7 && forall i :: 0 <= i < 7 ==> c[i] == "kitchen"[i] || c[i] == "KITCHEN"[i]
  {
    var c := CategoryText(item);
    KitchenItemIff(item);
    if |c| == 7 {
      forall i | 0 <= i < 7
        ensures ToLower(c)[i] == "kitchen"[i] <==> c[i] == "kitchen"[i] || c[i] == "KITCHEN"[i]
      {
        assert "KITCHEN"[i] as int == "kitchen"[i] as int - 32;
      }
      if forall i :: 0 <= i < 7 ==> c[i] == "kitchen"[i] || c[i] == "KITCHEN"[i] {
        assert ToLower(c) == "kitchen";
      }
    }
  }

  /** The kitchen items and the drink items of a list partition it: each
      item is in exactly one of the two, and each holds only items of its
      kind. That each keeps the list's order is `Lists.Filter`'s own
      contract with `Lists.FilterConcat`. */
  lemma {:induction false} ItemsPartition(items: seq<Item>)
    ensures multiset(KitchenItems(items)) + multiset(DrinkItems(items)) == multiset(items)
    ensures |KitchenItems(items)| + |DrinkItems(items)| == |items|
    ensures forall it :: it in KitchenItems(items) <==> it in items && IsKitchenItem(it)
    ensures forall it :: it in DrinkItems(items) <==> it in items && !IsKitchenItem(it)
  {
    FilterPartition(items, IsKitchenItem, IsDrinkItem);
  }

  // ---------------------------------------------------------------------
  // Splitting one bar order

  /** A copy of `o` with `items` replaced and tagged as coming from the bar
      feed: the spread `{ ...order, items, _source: 'bar' }`. */
  function BarCopy(o: Order, items: seq<Item>): Order {
    o.(items := Some(items), source := Some(BarTag))
  }

  /** The derived order for the kitchen tab, present when the order has at
      least one kitchen item. */
  function KitchenPart(o: Order): (r: Option<Order>)
    ensures r.Some? <==> exists it :: it in ItemsOf(o) && IsKitchenItem(it)
    ensures r.Some? ==> r.value.orderId == o.orderId && r.value.status == o.status
    ensures r.Some? ==> r.value.(items := o.items, source := o.source) == o
    ensures r.Some? ==> ItemsOf(r.value) == KitchenItems(ItemsOf(o)) && r.value.source == Some(BarTag)
  {
    var kitchenItems := KitchenItems(ItemsOf(o));
    assert |kitchenItems| > 0 ==> kitchenItems[0] in kitchenItems;
    if |kitchenItems| > 0 then Some(BarCopy(o, kitchenItems)) else None
  }

  /** The derived order for the bar tab, present when the order has at least
      one item that is not a kitchen item. */
  function DrinkPart(o: Order): (r: Option<Order>)
    ensures r.Some? <==> exists it :: it in ItemsOf(o) && IsDrinkItem(it)
    ensures r.Some? ==> r.value.orderId == o.orderId && r.value.status == o.status
    ensures r.Some? ==> r.value.(items := o.items, source := o.source) == o
    ensures r.Some? ==> ItemsOf(r.value) == DrinkItems(ItemsOf(o)) && r.value.source == Some(BarTag)
  {
    var drinkItems := DrinkItems(ItemsOf(o));
    assert |drinkItems| > 0 ==> drinkItems[0] in drinkItems;
    if |drinkItems| > 0 then Some(BarCopy(o, drinkItems)) else None
  }

  /** A bar order yields at least one derived order exactly when it has
      items, and the items of its parts are together exactly its items. */
  lemma SplitCoversItems(o: Order)
    ensures KitchenPart(o).Some? || DrinkPart(o).Some? <==> ItemsOf(o) != []
    ensures multiset(ItemsOf(o)) ==
      multiset(if KitchenPart(o).Some? then ItemsOf(KitchenPart(o).value) else [])
      + multiset(if DrinkPart(o).Some? then ItemsOf(DrinkPart(o).value) else [])
  {
    var items := ItemsOf(o);
    ItemsPartition(items);
    if items != [] {
      assert items[0] in items;
    }
    if KitchenItems(items) != [] {
      assert KitchenItems(items)[0] in KitchenItems(items);
    }
    if DrinkItems(items) != [] {
      assert DrinkItems(items)[0] in DrinkItems(items);
    }
  }

  // ---------------------------------------------------------------------
  // Item display name

  /** `item.name || item.displayName || item.itemName`: the first of the
      three name fields that is present and non-empty, else the last one as
      it is. */
  function DisplayName(item: Item): (r: Option<string>)
    ensures Truthy(r) <==> Truthy(item.name) || Truthy(item.displayName) || Truthy(item.itemName)
    ensures r == item.name || r == item.displayName || r == item.itemName
    ensures Truthy(item.name) ==> r == item.name
    ensures !Truthy(item.name) && Truthy(item.displayName) ==> r == item.displayName
  {
    if Truthy(item.name) then item.name
    else if Truthy(item.displayName) then item.displayName
    else item.itemName
  }
}
