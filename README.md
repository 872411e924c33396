# Shopping list: the item-list state of the two screens

A Dafny model of the list logic of a React Native shopping-list app. The user
types a name and a price and adds the item. Items can be marked bought, deleted
one by one or cleared all at once. A total of what is still to buy is shown
below the list. The repository has two screens that do this slightly
differently, and both are modelled:

- `app/index.tsx` (module `IndexScreen`). The flag is called `purchased`. A
  price must be positive. The list can be searched by name, case-insensitively.
  The total is rendered over the search result.
- `src/screens/HomeScreen.js` (module `HomeScreen`). The flag is called
  `bought`. Any numeric price is accepted, zero and negative ones included.
  There is no search, and the total covers the whole list.

Both render `src/components/Summary.js` (module `Summary`). It sums the prices
of the entries whose `bought` field is not true.

Layout:

- `optional.dfy`: `Option`, standing for `NaN` and for a missing field.
- `seqs.dfy`: `Filter`, `Map` and `Sum`, the models of `Array.prototype.filter`,
  `map` and `reduce((sum, x) => sum + f(x), 0)`, with the facts about them that
  the screen properties rest on: a filter keeps each passing element as often as
  it occurs and in order, filtering is idempotent, sums split over concatenation.
- `text.dfy`: `toLowerCase` (ASCII letters) and `includes`.
- `summary.dfy`: the Summary component.
- `index_screen.dfy`, `home_screen.dfy`: each screen has pure functions for
  add, toggle, delete, search and the totals, with lemmas about them. Each also
  has a `Screen` class holding the `useState` variables (`items`, `itemName`,
  `itemPrice`, plus `searchText` in `index.tsx`). Its methods reassign those
  variables as the setters do, and their `ensures` tie the new state to the pure
  functions.

Ids come from `Date.now().toString()`, so the methods that add an item take the
id as a parameter. Each `Screen` is constructed with a `number` function: the
host's reading of the price text as a number, with `None` where JavaScript gives
`NaN`. `index.tsx` applies `Number` to the text. `HomeScreen.js` tests
`isNaN(itemPrice)` and stores `parseFloat(itemPrice)`.

Behaviour of the code worth noting:

- Toggling an id that is not on the list is not an error. The list is left
  unchanged (`ToggleAbsent`).
- `HomeScreen.js` accepts prices of zero or below.
- `index.tsx` renders a total that includes purchased items (see Findings).

## Model

| member | source | states |
|---|---|---|
| `IndexScreen.Add` | app/index.tsx:51-53 | Rejected (None) exactly when the name is empty, the price is NaN or the price is ≤ 0. Otherwise the list grows by one, the earlier items are unchanged, and the new last item has the given id, name and price and is not purchased. Adding keeps every price positive. |
| `IndexScreen.Toggle` | app/index.tsx:59-61 | Same length. Every item keeps its id, name and price. `purchased` is flipped exactly on the items whose id matches. |
| `IndexScreen.ToggleTwice` | app/index.tsx:60 | Toggling the same id twice restores the list. |
| `IndexScreen.ToggleAbsent` | app/index.tsx:60 | Toggling an id no item carries leaves the list unchanged. |
| `IndexScreen.Delete` | app/index.tsx:64-66 | Every item with a different id is kept as many times as it occurs, items with the id are dropped, and the result is an order-preserving subsequence of the list. |
| `IndexScreen.DeleteAbsent` | app/index.tsx:65 | Deleting an id no item carries leaves the list unchanged. |
| `IndexScreen.DeleteTwice` | app/index.tsx:65 | Deleting twice is the same as deleting once. |
| `IndexScreen.MutationsKeepPricesPositive` | app/index.tsx:52-70 | Add, toggle, delete and clear all keep the invariant that every price is positive. |
| `IndexScreen.Matches` | app/index.tsx:83 | An item matches exactly when the lower-cased search text occurs at some index of the lower-cased name. An empty search text matches every item. |
| `IndexScreen.Search` | app/index.tsx:83 | `filteredItems` keeps every matching item as many times as it occurs in `items` and drops every other item. It is an order-preserving subsequence of `items`. |
| `IndexScreen.SearchEmptyText` | app/index.tsx:83 | An empty search text yields the whole list, in order. |
| `IndexScreen.SearchExample` | app/index.tsx:83 | Searching "milk" among Milk, Bread and milkshake gives Milk and milkshake, in that order. |
| `IndexScreen.UnpurchasedTotal` | app/index.tsx:84 | `totalPrice` lies between 0 and the sum of all the given prices when every price is positive. |
| `IndexScreen.RenderedTotal` | app/index.tsx:142 | The total rendered by Summary.js over `filteredItems` is the sum of the prices of ALL filtered items, purchased or not. |
| `IndexScreen.RenderedTotalCountsPurchased` | app/index.tsx:142 | The rendered total equals `totalPrice` plus the prices of the purchased items shown. |
| `IndexScreen.RenderedTotalExample` | app/index.tsx:142 | With one purchased item priced 10, the rendered total is 10 while `totalPrice` is 0. |
| `IndexScreen.DisplayedTotal` | app/index.tsx:84 | The corrected total equals what Summary.js computes when the purchased flag reaches it as `bought`. It is ≥ 0 when every price is positive. |
| `IndexScreen.FlaggedSummaryIsTotalPrice` | app/index.tsx:84 | `totalPrice` (filter not purchased, sum prices) equals Summary.js applied to the items with `purchased` passed as `bought`. |
| `IndexScreen.PurchaseLowersDisplayedTotal` | app/index.tsx:84 | Marking an unpurchased item purchased lowers the corrected total by exactly its price. |
| `IndexScreen.Screen.constructor` | app/index.tsx:15-18 | The screen starts with an empty list and empty inputs. The positive-price invariant holds. |
| `IndexScreen.Screen.AddItem` | app/index.tsx:51-56 | On rejection, items and both inputs are unchanged. On success, the new item is appended and both inputs are reset to "". The search text is untouched, and the positive-price invariant is kept. |
| `IndexScreen.Screen.ToggleItem` | app/index.tsx:59-61 | `items` becomes `Toggle(old items, id)`. The inputs are unchanged and the invariant is kept. |
| `IndexScreen.Screen.DeleteItem` | app/index.tsx:64-66 | `items` becomes `Delete(old items, id)`. The inputs are unchanged and the invariant is kept. |
| `IndexScreen.Screen.ClearAll` | app/index.tsx:69-71 | `items` becomes empty. The inputs are unchanged. |
| `IndexScreen.Screen.FilteredItems` | app/index.tsx:83 | The shown list is `Search(items, searchText)`. It holds exactly the matching items of `items`, in order, and is `items` itself when the search text is empty. |
| `IndexScreen.Screen.TotalPrice` | app/index.tsx:84 | `totalPrice` of the filtered items equals Summary.js applied with `purchased` passed as `bought`. It lies between 0 and the sum of the filtered prices. This is the total the corrected wiring shows. |
| `IndexScreen.Screen.SummaryShown` | app/index.tsx:142 | What the screen renders as written is the sum of all filtered prices. This is `totalPrice` plus the prices of the purchased items shown. |
| `HomeScreen.Add` | src/screens/HomeScreen.js:42-48 | Rejected (None) exactly when the name is empty, the price text is empty or the price is NaN. Otherwise exactly one item is appended, not bought, and the earlier items are unchanged. |
| `HomeScreen.AcceptsNonPositivePrice` | src/screens/HomeScreen.js:43 | Zero and negative prices are accepted and stored as given. |
| `HomeScreen.Toggle` | src/screens/HomeScreen.js:54-56 | Same length. Every item keeps its id, name and price. `bought` is flipped exactly on the items whose id matches. |
| `HomeScreen.ToggleTwice` | src/screens/HomeScreen.js:55 | Toggling the same id twice restores the list. |
| `HomeScreen.ToggleAbsent` | src/screens/HomeScreen.js:55 | Toggling an id no item carries leaves the list unchanged. |
| `HomeScreen.Delete` | src/screens/HomeScreen.js:59-61 | Every item with a different id is kept as many times as it occurs, items with the id are dropped, and the result is an order-preserving subsequence of the list. |
| `HomeScreen.DeleteAbsent` | src/screens/HomeScreen.js:60 | Deleting an id no item carries leaves the list unchanged. |
| `HomeScreen.DeleteTwice` | src/screens/HomeScreen.js:60 | Deleting twice is the same as deleting once. |
| `HomeScreen.SummaryTotal` | src/screens/HomeScreen.js:93 | Summary.js over the screen's items is the sum of the prices of the items not bought. |
| `HomeScreen.SummaryIsUnboughtSum` | src/screens/HomeScreen.js:93 | Mapping items to Summary entries and totalling them is the same as summing the prices of the unbought items. |
| `HomeScreen.BuyingLowersSummary` | src/screens/HomeScreen.js:55 | Marking an unbought item bought lowers the summary by exactly its price. |
| `HomeScreen.Screen.constructor` | src/screens/HomeScreen.js:8-10 | The screen starts with empty inputs and an empty list. |
| `HomeScreen.Screen.AddItem` | src/screens/HomeScreen.js:42-51 | On rejection, items and both inputs are unchanged. On success, the new item is appended and both inputs are reset to "". |
| `HomeScreen.Screen.ToggleBought` | src/screens/HomeScreen.js:54-56 | `items` becomes `Toggle(old items, id)`. The inputs are unchanged. |
| `HomeScreen.Screen.DeleteItem` | src/screens/HomeScreen.js:59-61 | `items` becomes `Delete(old items, id)`. The inputs are unchanged. |
| `HomeScreen.Screen.ClearAll` | src/screens/HomeScreen.js:64-66 | `items` becomes empty. The inputs are unchanged. |
| `HomeScreen.Screen.ShownTotal` | src/screens/HomeScreen.js:93 | The summary covers the whole `items` list, with no filtering: the sum of prices of the items not bought. |
| `Summary.Total` | src/components/Summary.js:6-8 | When every entry is bought the total is 0. When no entry has a `bought` field, it is the plain sum of the prices. |
| `Summary.TotalEmpty` | src/components/Summary.js:8 | The total of no entries is 0. |
| `Summary.TotalSingle` | src/components/Summary.js:6-8 | One entry contributes its price exactly when it is not bought. |
| `Summary.TotalConcat` | src/components/Summary.js:6-8 | The total of `a + b` is the total of `a` plus the total of `b`. |
| `Summary.TotalOfThree` | src/components/Summary.js:6-8 | The total around one entry splits into the part before, the entry's contribution and the part after. |
| `Summary.TotalSkipsBought` | src/components/Summary.js:7 | A bought entry contributes nothing, wherever it stands. |
| `Summary.TotalMarkBought` | src/components/Summary.js:7-8 | Marking an unbought entry bought lowers the total by exactly its price. |
| `Summary.TotalWithoutFlags` | src/components/Summary.js:7 | When no entry has a `bought` field, the total is the plain sum of all prices. |
| `Summary.TotalNonNegative` | src/components/Summary.js:6-8 | With non-negative prices the total is ≥ 0. |
| `Summary.TotalExample` | src/components/Summary.js:6-8 | Prices 10, 20 (bought) and 5 total 15. |
| `Text.LowerChar` | app/index.tsx:83 | A lower-cased character is never an upper-case letter. It is a lower-case letter exactly when the input was a letter of either case. |
| `Text.Lower` | app/index.tsx:83 | `toLowerCase` keeps the length and lower-cases each character in place. |
| `Text.Includes` | app/index.tsx:83 | A prefix is always included, and an included text is never longer than the string. |
| `Text.IncludesIffOccurs` | app/index.tsx:83 | `includes` holds exactly when the text occurs at some index of the string. |
| `Text.IncludesEmpty` | app/index.tsx:83 | Every string includes the empty string. |
| `Seqs.Filter` | src/components/Summary.js:7 | `filter` keeps only elements of the input that pass the test, keeps every one that does, and is never longer than its input. |
| `Seqs.FilterMultiset` | src/components/Summary.js:7 | `filter` keeps each passing element exactly as often as it occurs and drops the others. |
| `Seqs.FilterIsSubsequence` | src/components/Summary.js:7 | `filter` keeps the order: the result is a subsequence of its input. |
| `Seqs.Map` | app/index.tsx:60 | `map` keeps the length and applies the function at every position. |
| `Seqs.Sum` | src/components/Summary.js:8 | `reduce` with `+` from 0 is ≥ 0 when every summand is. |

## Findings

| source | as written | input that shows it | evidently intended | confidence | as-written member | corrected member |
|---|---|---|---|---|---|---|
| app/index.tsx:142 | Summary.js is imported under the name `TotalSummary` (line 5) and rendered with `filteredItems`. It keeps the items whose `bought` field is falsy. These items have no `bought` field, so every filtered item is summed, purchased or not, and `totalPrice` (line 84) is never shown. | one purchased item priced 10 that matches the search: the screen shows 10, `totalPrice` is 0. In the code as written no item can become purchased. `toggleItem` is handed to ItemCard as `onToggle` (line 138), but ItemCard calls its `toggleBought` prop. Items added at line 53 start with `purchased: false`, and the `'shoppingItems'` store is written only by this screen (line 42). So the wrong total is masked until the toggle wiring is fixed, and it shows as soon as it is. | show `totalPrice`, the sum over filtered items not purchased, as TotalSummary.tsx's `total` prop would | high that the total is wrong once an item can be purchased, not executed | `IndexScreen.RenderedTotalExample` | `IndexScreen.DisplayedTotal` |

`IndexScreen.RenderedTotal` and `IndexScreen.RenderedTotalCountsPurchased` state the as-written behaviour for every list. `IndexScreen.Screen.SummaryShown` gives what the screen renders as written. `IndexScreen.Screen.TotalPrice` uses the corrected `DisplayedTotal`.

## Left out

- Loading and saving through AsyncStorage (`app/index.tsx:24-48`, `src/screens/HomeScreen.js:13-39`, `src/utils/storage.js`): asynchronous I/O against an opaque store, with a JSON round trip through `JSON.stringify`/`JSON.parse`.
- Id generation with `Date.now()`: the id is a parameter of `AddItem`. Id uniqueness is not claimed. Two adds in the same millisecond get the same id, and toggle and delete then act on every item that carries it; the contracts of `Toggle` and `Delete` say exactly that.
- Parsing price text as a number (`Number`, `isNaN`, `parseFloat`): each `Screen` takes this as its `number` function.
- HomeScreen.Screen.AddItem: one `number` reading serves both the `isNaN` test and the stored `parseFloat` value, so the model never stores a NaN price. In the code the two readings differ on some texts. A text of only whitespace such as `" "` passes `!itemPrice`, and `isNaN(" ")` is false because `Number(" ")` is 0. But `parseFloat(" ")` is NaN, so `HomeScreen.js:43,47` stores an item priced NaN and Summary then shows NaN. Hexadecimal, binary and octal literals (`"0x10"`, `"0b11"`, `"0o7"`) pass `isNaN` with their numeric value, while `parseFloat` reads only their leading `0`. Prices are `real`, which has no NaN, so neither case is modelled.
- Floating-point arithmetic: prices and totals are `real`, so rounding and the order of the `reduce` additions are not modelled.
- `toLowerCase` beyond ASCII: `Text.LowerChar` lower-cases 'A'..'Z' only.
- Presentation: the dark-mode switch and its animation (`app/index.tsx:19-21`, `74-81`), all JSX and styles, `ItemCard.js`, `TotalSummary.tsx`, `flatlist.js`, and the `alert` in `HomeScreen.js:44`. Editing a text box is a plain assignment to the `Screen` field (`itemName`, `itemPrice`, `searchText`). ItemCard.js is not part of this model. Note that `index.tsx` hands it `onToggle`/`onDelete` while it reads `toggleBought`/`deleteItem`. So the UI as written never reaches `toggleItem` or `deleteItem`. The model still gives both as the screen defines them.
