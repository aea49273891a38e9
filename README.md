# Kitchen order board: a verified model of its order pipeline

The `App` component in src/App.jsx runs a kitchen order ticket board for a
restaurant with a bar. Every five seconds it reads two feeds, the restaurant
orders and the bar orders. It keeps the orders that are still being worked
on (`pending` or `preparing`) and shows them on two tabs:

- The **kitchen tab** shows the active restaurant orders, tagged
  `_source: 'restaurant'`. It also shows the kitchen part of every active bar
  order: a copy holding only the items whose category, lower-cased, is
  `kitchen`.
- The **bar tab** shows the drink part of every active bar order: a copy
  holding the other items.

Both kinds of derived copy carry `_source: 'bar'`. The kitchen tab is
sorted newest first by `createdAt || timestamp`, the bar tab by `createdAt`
alone.

After each non-initial poll the board highlights, and beeps for, the order
IDs that were not in the last poll's ID snapshot of their tab. It then
replaces both snapshots. Completing an order sends a status update to the
endpoint of the feed that owns it. On success, every card carrying that ID
leaves both tabs.

The project models this with the imperative parts imperative:

- `Pipeline.SplitBarOrders` is the `forEach` loop that pushes the derived
  orders.
- `Pipeline.DetectNewIds` and `Pipeline.AddUnseenIds` are the loops that
  collect new IDs.
- `Board.KotBoard` is a class whose fields are the component's state and
  refs: the two tabs, two snapshots, the highlighted IDs, the error banner
  and the loading flag. `Poll` and `Complete` update those fields.

The expressions are pure functions: `filterActive`, the item filters, the
merge, the stable sort, the endpoint choice, the removal filter and
`formatTimeAgo`. Each method is proved against a specification function:

- `Pipeline.KitchenView` and `Pipeline.BarView`;
- `Pipeline.NewIdSet`;
- `Completion.WithoutOrder`.

Lemmas connect those functions to what the code promises: partition,
permutation, order, membership, routing and "nothing else changes".

Modules and files:

| file | module | contents |
|---|---|---|
| wrappers.dfy | Wrappers | `Option` |
| lists.dfy | Lists | `Array.prototype.filter` and the push-if-present loop shape |
| orders.dfy | Orders | records, status filter, item classifier, the two derived parts, display name |
| sorting.dfy | Sorting | the two sort keys and a stable newest-first sort |
| pipeline.dfy | Pipeline | the poll's aggregation and change detection |
| completion.dfy | Completion | endpoint routing and removal from the tabs |
| board.dfy | Board | the component's state as a class |
| relative_time.dfy | RelativeTime | the age on each card |
| scenarios.dfy | Scenarios | concrete feeds worked through the pipeline |

## Model

| member | source | states |
|---|---|---|
| Orders.FilterActive | src/App.jsx:20-21 | An order is kept exactly when it is in the input and its status is `pending` or `preparing`. Every kept order occurs as often as in the input, and every other order not at all. |
| Orders.FilterActiveConcat | src/App.jsx:20-21 | Filtering a concatenation is the concatenation of the filtered halves, so kept orders keep their relative order. |
| Orders.ToLower | src/App.jsx:45 | The lower-cased text has the same length and contains no ASCII capital. Each capital becomes the small letter at the same place in the alphabet, and every other character is unchanged. |
| Orders.CategoryText | src/App.jsx:45 | A category JavaScript reads as true is used as it is. An absent, null or empty one reads as the empty text. |
| Orders.ItemsOf | src/App.jsx:44 | An order's item list is used as it is, and a missing list reads as the empty list. |
| Orders.KitchenItemIff | src/App.jsx:39-49 | Membership in the one-entry category list is equality of the lower-cased category with `kitchen`, and the drink test is the kitchen test's negation, so every item is exactly one of the two. An item with a missing, null or empty category is a drink item. |
| Orders.UpperCaseKitchenIsKitchen | src/App.jsx:45 | The categories `KITCHEN` and `Kitchen` count as kitchen. |
| Orders.KitchenSpellings | src/App.jsx:39-45 | An item is a kitchen item exactly when its category has seven characters, each being the small or the capital letter of `kitchen` at that place. |
| Orders.ItemsPartition | src/App.jsx:43-49 | The kitchen items and the drink items together are the order's items as a multiset, and their lengths add up. Each list holds exactly the items of its kind. |
| Orders.KitchenPart | src/App.jsx:43-57 | The kitchen copy exists exactly when the order has a kitchen item. It equals the order except that `items` holds exactly the kitchen items and `_source` is `bar`, so ID, status and every other field are kept. |
| Orders.DrinkPart | src/App.jsx:47-64 | The drink copy exists exactly when the order has a non-kitchen item. It equals the order except that `items` holds exactly the drink items and `_source` is `bar`. |
| Orders.SplitCoversItems | src/App.jsx:43-65 | A bar order yields some derived order exactly when it has items. The items of its two copies are together exactly its items. |
| Orders.DisplayName | src/App.jsx:274 | The shown name is `name`, else `displayName`, else `itemName`, taking the first that is present and non-empty. It is truthy exactly when one of the three is. |
| Sorting.TimeOf | src/App.jsx:71-74 | The kitchen tab's date is `createdAt`, or `timestamp` when `createdAt` is missing. The bar tab's date is `createdAt` alone. An order has no date exactly when the dates its tab reads are all missing. |
| Sorting.SortNewestFirst | src/App.jsx:68-75 | The result is a permutation of the input in which every order is at least as new as every later one. Orders without a date come last. |
| Sorting.SortStable | src/App.jsx:68-75 | Orders that share an instant appear in the sorted list in their input order, as in JavaScript's stable `sort`. |
| Pipeline.TagRestaurant | src/App.jsx:69 | Same length. The order at each position is the input order at that position with only `_source` replaced, by `restaurant`. The result holds exactly the tagged copies of the input orders. |
| Pipeline.KitchenView | src/App.jsx:67-71 | The kitchen tab is a permutation of the tagged active restaurant orders followed by the kitchen parts of the active bar orders. It is sorted newest first by `createdAt`, or `timestamp` when that is missing. |
| Pipeline.BarView | src/App.jsx:73-75 | The bar tab is a permutation of the drink parts of the active bar orders, sorted newest first by `createdAt` alone. |
| Pipeline.KitchenViewTies | src/App.jsx:67-71 | Among kitchen orders with the same instant, the restaurant orders come first in feed order, then the bar kitchen parts in feed order. |
| Pipeline.BarViewTies | src/App.jsx:73-75 | Bar-tab orders with the same `createdAt` keep their feed order. |
| Pipeline.KitchenViewMembers | src/App.jsx:35-71 | An order is on the kitchen tab exactly when it is the tagged copy of an active restaurant order or the kitchen part of an active bar order. |
| Pipeline.BarViewMembers | src/App.jsx:36-75 | An order is on the bar tab exactly when it is the drink part of an active bar order. |
| Pipeline.ViewsShowActiveOrders | src/App.jsx:35-75 | Every card on either tab is active. Kitchen cards are tagged `restaurant` or `bar`, and a bar-tagged kitchen card holds at least one item, all of them kitchen items. Bar cards are tagged `bar` and hold at least one item, none of them kitchen items. |
| Pipeline.MixedBarOrderShownTwice | src/App.jsx:43-64 | An active bar order with both kinds of item is on the kitchen tab with exactly its kitchen items and on the bar tab with exactly its other items. Both copies carry its ID and the `bar` tag. |
| Pipeline.IdSetMembers | src/App.jsx:104-105 | An ID is in the snapshot of a list exactly when some order of the list carries it. |
| Pipeline.NewIdSetMembers | src/App.jsx:80-86 | An ID is new exactly when a kitchen card carries it and the kitchen snapshot lacks it, or a bar card carries it and the bar snapshot lacks it. |
| Pipeline.SplitBarOrders | src/App.jsx:43-65 | The loop's two result lists are exactly the present kitchen parts and the present drink parts of the active bar orders, in feed order. |
| Pipeline.AddUnseenIds | src/App.jsx:81-86 | One loop adds to the accumulated set exactly the IDs of the list that are not in the snapshot. |
| Pipeline.DetectNewIds | src/App.jsx:80-86 | The two loops compute exactly the new-ID set. |
| Pipeline.BuildTabs | src/App.jsx:35-75 | The aggregation step computes exactly the two tabs. |
| Pipeline.RepollFindsNothing | src/App.jsx:79-105 | Against its own ID snapshots a pair of tabs yields no new ID. This is set algebra alone; that a second poll on the same data finds nothing and does not beep is `Board.PollTwice`, from `Poll`'s snapshot ensures. |
| Completion.Endpoint | src/App.jsx:133-136 | The status endpoint parses back to the feed and the order ID. The feed is the restaurant feed exactly when the tag is `restaurant`; any other tag, or none, means the bar feed. |
| Completion.EndpointInjective | src/App.jsx:133-136 | Two completions hit the same endpoint only for the same order ID on the same feed. |
| Completion.RemovedIds | src/App.jsx:147-148 | Filtering out an ID removes exactly that ID from the list's ID set. |
| Completion.WithoutOrder | src/App.jsx:147-148 | An order remains exactly when it was there and carries another ID, as often as before. The remaining ID set is the old one minus that ID. |
| Completion.WithoutOrderConcat | src/App.jsx:147-148 | Removal distributes over concatenation, so the remaining cards keep their order. |
| Completion.WithoutOrderKeepsSorted | src/App.jsx:147-148 | Removing an ID from a newest-first tab leaves it newest first. |
| Completion.WithoutOrderIdempotent | src/App.jsx:147-148 | Removing an ID twice is removing it once, and removing an ID no card carries changes nothing. |
| Board.PollEstablishesInvariant | src/App.jsx:104-108 | The tabs of a successful poll, with their fresh ID snapshots, satisfy the board invariant: sorted, active only, bar tab bar-tagged, IDs within the snapshots. |
| Board.CompletionKeepsInvariant | src/App.jsx:147-148 | Removing an ID from both tabs keeps the board invariant with the snapshots unchanged. |
| Board.KotBoard.constructor | src/App.jsx:9-17 | The state starts with empty tabs, snapshots and highlights, no error, and loading on. |
| Board.KotBoard.Poll | src/App.jsx:23-115 | Keeps the invariant, and `loading` turns off after the initial poll. When both responses are ok: the tabs are the derived views, the snapshots become their ID sets and the error is cleared. It beeps exactly on a non-initial poll with a non-empty new-ID set, which then becomes the highlighted set; otherwise the highlights are unchanged. When either response fails: tabs, snapshots and highlights are unchanged, the error is set and there is no beep. |
| Board.KotBoard.Show | src/App.jsx:104-109 | Installs new tabs and their snapshots and clears the error. The highlights are replaced only when asked, and the invariant is kept. |
| Board.KotBoard.ExpireHighlights | src/App.jsx:100 | The highlight timer empties the highlighted set and keeps the invariant. |
| Board.KotBoard.Retain | src/App.jsx:147-148 | Replaces the two tabs, keeping the snapshots and the invariant. |
| Board.KotBoard.Complete | src/App.jsx:130-154 | The endpoint is chosen by the tag. On success both tabs are exactly the old tabs without the ID, and no card carries the ID. On failure both tabs are unchanged. Snapshots, highlights and error are never touched, and the invariant is kept. |
| Board.PollTwice | src/App.jsx:79-105 | Two successful non-initial polls on the same data show the derived tabs, and the second one does not beep. |
| RelativeTime.ElapsedSeconds | src/App.jsx:157-159 | The elapsed whole seconds are the elapsed milliseconds divided by 1000, rounded down. |
| RelativeTime.TimeAgo | src/App.jsx:156-163 | Below 60 s: whole seconds elapsed, rounded down. Below one hour: whole minutes, 1 to 59, bracketing the elapsed time. From one hour on: hours of at least 1 and leftover minutes of 0 to 59, together bracketing the elapsed time to the minute. A date in the future shows as negative seconds. |
| RelativeTime.OrderAge | src/App.jsx:292 | The age is the age of `createdAt` when it is present. Otherwise it is the age of `timestamp`, and the no-date label exactly when both are missing. |
| RelativeTime.TimeAgoMonotone | src/App.jsx:156-163 | A later clock never shows a younger bucket, and the elapsed seconds never decrease. |
| RelativeTime.NatTextRoundTrip | src/App.jsx:160-162 | The decimal digits written into the label read back as the number. |
| RelativeTime.NatTextInjective | src/App.jsx:160-162 | Different numbers are written differently. |
| RelativeTime.IntText | src/App.jsx:160-162 | A number is written as its digits without leading zeros, with a leading minus sign when negative, and reads back as the number. |
| RelativeTime.Amount | src/App.jsx:160-162 | The amount ends in the letter of its smallest unit: `s` for seconds, `m` for minutes and for hours with minutes. |
| RelativeTime.AmountRoundTrip | src/App.jsx:160-162 | Every amount reads back to the age it was written from, including negative numbers and the no-date text. |
| RelativeTime.Label | src/App.jsx:160-162 | Each label ends in ` ago`, preceded by `s` exactly for a seconds label. |
| RelativeTime.LabelRoundTrip | src/App.jsx:160-162 | Every label reads back to the age it was written from. |
| RelativeTime.LabelInjective | src/App.jsx:160-162 | Different ages never show the same label. |
| RelativeTime.FormatTimeAgo | src/App.jsx:292 | A card's label reads back to the card's age, `OrderAge` of `createdAt || timestamp`. It ends in ` ago`, a card without a date reads `NaNh NaNm ago`, and a dated card shows seconds exactly while it is under a minute old. |
| RelativeTime.SameLabelSameAge | src/App.jsx:292 | Two cards that show the same label at the same instant have the same age, to the unit shown. |
| RelativeTime.LabelExamples | src/App.jsx:156-163 | 90 s reads `1m ago`, 2 h 5 min reads `2h 5m ago`, and 0.5 s reads `0s ago`. |
| Scenarios.SplitScenario | src/App.jsx:43-64 | The bar order B1, holding Fries (kitchen) and Beer (drink), splits into a kitchen copy with only Fries and a drink copy with only Beer, both tagged `bar`. The restaurant order R1 has no drink part. |
| Scenarios.KitchenScenario | src/App.jsx:67-71 | With feeds [R1] and [B1], the kitchen tab is R1, which is newer, followed by B1's kitchen copy. |
| Scenarios.BarScenario | src/App.jsx:73-75 | The bar tab is B1's drink copy alone, and a restaurant-only order never reaches the bar tab. |
| Scenarios.CompleteEndpointScenario | src/App.jsx:133-136 | Completing B1 targets `/bar-orders/B1/status`. |
| Scenarios.CompleteMixedOrderScenario | src/App.jsx:146-148 | After completing B1, both of its copies are gone and R1 remains. |

## Left out

- HTTP and JSON are not modelled: `fetch`, `res.json()`, `Promise.all` and the status `PATCH` request. A poll receives the two `ok` flags and the two decoded bodies as parameters, and a completion receives the `ok` flag of its request.
- A rejected `fetch` is modelled as a response that is not ok. A body that is not JSON, or not an array, is not modelled at all. In both cases the source shows the error's own message; the model always shows `Failed to fetch orders`.
- Timers and scheduling are left out: the five-second poll interval, the one-second clock, `useEffect` and `setTimeout`. Clearing the highlights is the separate method `ExpireHighlights`, and the clock is the `nowMs` parameter of `RelativeTime.TimeAgo`.
- The `AudioContext` beep, a browser API whose failures are swallowed, is left out. `Poll` returns whether it beeps.
- `alert`, the `completingId` state that disables the button in flight, the active-tab switch and all JSX rendering are left out. The name fallback (line 274) and the age label (line 292) are the only modelled parts of the rendering.
- The unused `allIds` list (line 78) is not modelled.
- Dates are not parsed: an instant is an integer number of milliseconds, and `None` stands for an absent or empty date.
- RelativeTime.OrderAge: a date that is JSON `null` is not told apart from an absent one. In JavaScript `new Date(null)` is the epoch, so a card whose `createdAt` and `timestamp` are both `null` shows the hours since 1970 (src/App.jsx:158 and line 292), and sorts as the oldest order. The model's `NoDate` label `NaNh NaNm ago` is right only for absent or empty dates.
- `formatTime` and its locale formatting are left out.
- Sorting.NewerOrSame: the source's comparator subtracts two dates. When one is missing the result is NaN, and the browser's ordering is then unspecified. The model instead puts orders without a date after every dated order.
- Orders.ToLower: lower-cases ASCII letters only, while JavaScript's `toLowerCase` also maps other Unicode letters. No non-ASCII spelling of `kitchen` is recognised.
- Orders.CategoryText: a category present but not a string, which would make `toLowerCase` throw and the poll fail, is not modelled. A category is either a text or absent.
- RelativeTime.TimeAgo: with a missing date the source computes NaN and prints `NaNh NaNm ago`. The model represents that case as the `NoDate` label with the same text, instead of modelling NaN arithmetic.
- Three behaviours of src/App.jsx are kept as written:
  - the only kitchen category is `kitchen`;
  - the bar tab is sorted by `createdAt` alone;
  - a poll that finds no new ID leaves the highlighted set as it was (only the highlight timer empties it).
