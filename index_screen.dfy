/**
 * The shopping-list screen of app/index.tsx: items carry a `purchased` flag,
 * only positive prices are accepted, the list can be searched by name, and
 * the screen shows a total below the (filtered) list.
 */
module IndexScreen {

  import opened Optional
  import opened Seqs
  import opened Text
  import Summary

  datatype Item = Item(id: string, name: string, price: real, purchased: bool)

  function Price(it: Item): real
  {
    it.price
  }

  predicate NotPurchased(it: Item)
  {
    !it.purchased
  }

  predicate IsPurchased(it: Item)
  {
    it.purchased
  }

  /** The invariant the screen keeps: every price on the list is positive. */
  predicate AllPositive(items: seq<Item>)
  {
    forall i :: 0 <= i < |items| ==> items[i].price > 0.0
  }

  /**
   * `addItem`: `price` is `Number(itemPrice)`, `None` for `NaN`. An empty name,
   * a `NaN` price or a price `<= 0` is rejected; otherwise the new item goes
   * to the end of the list, not purchased.
   */
  function Add(items: seq<Item>, id: string, name: string, price: Option<real>): (r: Option<seq<Item>>)
    ensures r.Some? <==> name != "" && price.Some? && price.value > 0.0
    ensures r.Some? ==> |r.value| == |items| + 1 && r.value[..|items|] == items
    ensures r.Some? ==> r.value[|items|] == Item(id, name, price.value, false)
    ensures r.Some? && AllPositive(items) ==> AllPositive(r.value)
  {
    if name == "" || price.None? || price.value <= 0.0 then None
    else Some(items + [Item(id, name, price.value, false)])
  }

  /** The item as `toggleItem(id)` leaves it. */
  function Flip(it: Item, id: string): Item
  {
    if it.id == id then it.(purchased := !it.purchased) else it
  }

  /** `toggleItem`: flips `purchased` on every item whose id is `id`, touches nothing else. */
  function Toggle(items: seq<Item>, id: string): (r: seq<Item>)
    ensures |r| == |items|
    ensures forall i :: 0 <= i < |items| ==>
      r[i].id == items[i].id && r[i].name == items[i].name && r[i].price == items[i].price &&
      (r[i].purchased <==> (if items[i].id == id then !items[i].purchased else items[i].purchased))
  {
    Map((it: Item) => Flip(it, id), items)
  }

  /** `deleteItem`: keeps exactly the items whose id is not `id`. */
  function Delete(items: seq<Item>, id: string): (r: seq<Item>)
    ensures forall i :: 0 <= i < |r| ==> r[i] in items && r[i].id != id
    ensures forall i :: 0 <= i < |items| && items[i].id != id ==> items[i] in r
    ensures forall x :: multiset(r)[x] == if x.id != id then multiset(items)[x] else 0
    ensures IsSubsequence(r, items)
  {
    FilterMultiset((it: Item) => it.id != id, items);
    FilterIsSubsequence((it: Item) => it.id != id, items);
    Filter((it: Item) => it.id != id, items)
  }

  /** The search test of line 83: the lower-cased name includes the lower-cased search text. */
  predicate Matches(it: Item, searchText: string): (m: bool)
    ensures m <==> exists i :: OccursAt(Lower(it.name), Lower(searchText), i)
    ensures searchText == "" ==> m
  {
    var name, text := Lower(it.name), Lower(searchText);
    IncludesIffOccurs(name, text);
    Includes(name, text)
  }

  /** `filteredItems`: the items whose name matches the search text. */
  function Search(items: seq<Item>, searchText: string): (r: seq<Item>)
    ensures forall i :: 0 <= i < |r| ==> r[i] in items && Matches(r[i], searchText)
    ensures forall i :: 0 <= i < |items| && Matches(items[i], searchText) ==> items[i] in r
    ensures forall x :: multiset(r)[x] == if Matches(x, searchText) then multiset(items)[x] else 0
    ensures IsSubsequence(r, items)
  {
    FilterMultiset((it: Item) => Matches(it, searchText), items);
    FilterIsSubsequence((it: Item) => Matches(it, searchText), items);
    Filter((it: Item) => Matches(it, searchText), items)
  }

  /** `totalPrice` (line 84): the sum of the prices of the given items that are not purchased. */
  function UnpurchasedTotal(items: seq<Item>): (r: real)
    ensures AllPositive(items) ==> 0.0 <= r <= Sum(Price, items)
  {
    SumSplit(Price, NotPurchased, IsPurchased, items);
    PricesOfPositive(Filter(NotPurchased, items), items);
    PricesOfPositive(Filter(IsPurchased, items), items);
    Sum(Price, Filter(NotPurchased, items))
  }

  /** A part of a list with positive prices has a non-negative price sum. */
  lemma PricesOfPositive(part: seq<Item>, items: seq<Item>)
    requires forall i :: 0 <= i < |part| ==> part[i] in items
    ensures AllPositive(items) ==> Sum(Price, part) >= 0.0
  {
    if AllPositive(items) {
      forall i | 0 <= i < |part| ensures Price(part[i]) >= 0.0 {
        var j :| 0 <= j < |items| && items[j] == part[i];
      }
    }
  }

  /** What Summary.js reads from an item of this screen: it has no `bought` field. */
  function AsWrittenEntry(it: Item): Summary.Entry
  {
    Summary.Entry(it.price, None)
  }

  /**
   * The total the screen renders as written: Summary.js, imported under the
   * name `TotalSummary`, applied to `filteredItems`. Its filter on the
   * missing `bought` field keeps every item, purchased or not.
   */
  function RenderedTotal(filtered: seq<Item>): (r: real)
    ensures r == Sum(Price, filtered)
  {
    var entries := Map(AsWrittenEntry, filtered);
    Summary.TotalWithoutFlags(entries);
    SumMap(Summary.Price, AsWrittenEntry, Price, filtered);
    Summary.Total(entries)
  }

  /** The entry this screen's item would be for Summary.js if its flag reached it under the name `bought`. */
  function FlaggedEntry(it: Item): Summary.Entry
  {
    Summary.Entry(it.price, Some(it.purchased))
  }

  /**
   * The total the screen evidently means to show: `totalPrice` of the
   * filtered items, which is what Summary.js computes once the purchased
   * flag reaches it as `bought`.
   */
  function DisplayedTotal(filtered: seq<Item>): (r: real)
    ensures r == Summary.Total(Map(FlaggedEntry, filtered))
    ensures AllPositive(filtered) ==> r >= 0.0
  {
    FlaggedSummaryIsTotalPrice(filtered);
    UnpurchasedTotal(filtered)
  }

  lemma FlaggedSummaryIsTotalPrice(filtered: seq<Item>)
    ensures Summary.Total(Map(FlaggedEntry, filtered)) == UnpurchasedTotal(filtered)
  {
    var kept := Filter(NotPurchased, filtered);
    FilterMap(Summary.NotBought, FlaggedEntry, NotPurchased, filtered);
    assert Filter(Summary.NotBought, Map(FlaggedEntry, filtered)) == Map(FlaggedEntry, kept);
    SumMap(Summary.Price, FlaggedEntry, Price, kept);
  }

  // ---- toggle ----

  lemma ToggleTwice(items: seq<Item>, id: string)
    ensures Toggle(Toggle(items, id), id) == items
  {
  }

  /** An id that no item carries is not an error: the list comes back unchanged. */
  lemma ToggleAbsent(items: seq<Item>, id: string)
    requires forall i :: 0 <= i < |items| ==> items[i].id != id
    ensures Toggle(items, id) == items
  {
  }

  // ---- delete ----

  lemma DeleteAbsent(items: seq<Item>, id: string)
    requires forall i :: 0 <= i < |items| ==> items[i].id != id
    ensures Delete(items, id) == items
  {
    FilterKeepsAll((it: Item) => it.id != id, items);
  }

  lemma DeleteTwice(items: seq<Item>, id: string)
    ensures Delete(Delete(items, id), id) == Delete(items, id)
  {
    FilterIdempotent((it: Item) => it.id != id, items);
  }

  // ---- the positive-price invariant ----

  /** Add, toggle, delete and clear all keep every price positive. */
  lemma MutationsKeepPricesPositive(items: seq<Item>, id: string, name: string, price: Option<real>)
    requires AllPositive(items)
    ensures Add(items, id, name, price).Some? ==> AllPositive(Add(items, id, name, price).value)
    ensures AllPositive(Toggle(items, id))
    ensures AllPositive(Delete(items, id))
    ensures AllPositive([])
  {
  }

  // ---- search ----

  lemma SearchEmptyText(items: seq<Item>)
    ensures Search(items, "") == items
  {
    forall i | 0 <= i < |items| ensures Matches(items[i], "") {
      IncludesEmpty(Lower(items[i].name));
    }
    FilterKeepsAll((it: Item) => Matches(it, ""), items);
  }

  /** Searching "milk" among Milk, Bread and milkshake keeps Milk and milkshake, in that order. */
  lemma SearchExample()
    ensures Search([Item("1", "Milk", 30.0, false), Item("2", "Bread", 25.0, false), Item("3", "milkshake", 45.0, false)], "milk")
         == [Item("1", "Milk", 30.0, false), Item("3", "milkshake", 45.0, false)]
  {
    var milk, bread, shake := Item("1", "Milk", 30.0, false), Item("2", "Bread", 25.0, false), Item("3", "milkshake", 45.0, false);
    ExampleMatches();
    FilterOfThree((it: Item) => Matches(it, "milk"), milk, bread, shake);
  }

  lemma FilterOfThree(p: Item -> bool, a: Item, b: Item, c: Item)
    requires p(a) && !p(b) && p(c)
    ensures Filter(p, [a, b, c]) == [a, c]
  {
    assert [a, b, c][1..] == [b, c] && [b, c][1..] == [c] && [c][1..] == [];
    assert Filter(p, [c]) == [c];
    assert Filter(p, [b, c]) == [c];
    assert Filter(p, [a, b, c]) == [a] + [c];
  }

  lemma ExampleMatches()
    ensures Matches(Item("1", "Milk", 30.0, false), "milk")
    ensures !Matches(Item("2", "Bread", 25.0, false), "milk")
    ensures Matches(Item("3", "milkshake", 45.0, false), "milk")
  {
    LowerOfLower("milk");
    MilkMatches();
    BreadDoesNotMatch();
    MilkshakeMatches();
  }

  lemma MilkMatches()
    requires Lower("milk") == "milk"
    ensures Includes(Lower("Milk"), Lower("milk"))
  {
    LowerMilk();
  }

  lemma BreadDoesNotMatch()
    requires Lower("milk") == "milk"
    ensures !Includes(Lower("Bread"), Lower("milk"))
  {
    LowerBread();
    MissingFirstChar("bread", "milk");
  }

  lemma MilkshakeMatches()
    requires Lower("milk") == "milk"
    ensures Includes(Lower("milkshake"), Lower("milk"))
  {
    LowerOfLower("milkshake");
    assert "milk" <= "milkshake";
  }

  lemma LowerMilk()
    ensures Lower("Milk") == "milk"
  {
    var l := Lower("Milk");
    assert l[0] == 'm' && l[1] == 'i' && l[2] == 'l' && l[3] == 'k';
  }

  lemma LowerBread()
    ensures Lower("Bread") == "bread"
  {
    var l := Lower("Bread");
    assert l[0] == 'b' && l[1] == 'r' && l[2] == 'e' && l[3] == 'a' && l[4] == 'd';
  }

  /** A string already in lower case is its own lower case. */
  lemma LowerOfLower(s: string)
    requires forall i :: 0 <= i < |s| ==> 'a' <= s[i] <= 'z'
    ensures Lower(s) == s
  {
  }

  // ---- totals ----

  /** The rendered total exceeds `totalPrice` by exactly the prices of the purchased items shown. */
  lemma RenderedTotalCountsPurchased(filtered: seq<Item>)
    ensures RenderedTotal(filtered) == UnpurchasedTotal(filtered) + Sum(Price, Filter(IsPurchased, filtered))
  {
    SumSplit(Price, NotPurchased, IsPurchased, filtered);
  }

  /** One purchased item at 10 is enough: the screen shows 10 where `totalPrice` is 0. */
  lemma RenderedTotalExample()
    ensures RenderedTotal([Item("1", "Milk", 10.0, true)]) == 10.0
    ensures UnpurchasedTotal([Item("1", "Milk", 10.0, true)]) == 0.0
  {
    var it := Item("1", "Milk", 10.0, true);
    SumCons(Price, it, []);
    assert Filter(NotPurchased, [it]) == [];
  }

  /** Purchasing an item that was not purchased lowers the displayed total by exactly its price. */
  lemma PurchaseLowersDisplayedTotal(a: seq<Item>, it: Item, b: seq<Item>)
    requires !it.purchased
    ensures DisplayedTotal(a + [it.(purchased := true)] + b) == DisplayedTotal(a + [it] + b) - it.price
  {
    MapThree(a, it, b);
    MapThree(a, it.(purchased := true), b);
    assert FlaggedEntry(it.(purchased := true)) == FlaggedEntry(it).(bought := Some(true));
    Summary.TotalMarkBought(Map(FlaggedEntry, a), FlaggedEntry(it), Map(FlaggedEntry, b));
  }

  lemma MapThree(a: seq<Item>, it: Item, b: seq<Item>)
    ensures Map(FlaggedEntry, a + [it] + b) == Map(FlaggedEntry, a) + [FlaggedEntry(it)] + Map(FlaggedEntry, b)
  {
  }

  /**
   * The screen: the list and the three text inputs held in state. The
   * methods assign the state the way `setItems`, `setItemName` and
   * `setItemPrice` do.
   */
  class Screen {
    /** `Number` applied to the price text, `None` where it gives `NaN`. */
    const number: string -> Option<real>
    var items: seq<Item>
    var itemName: string
    var itemPrice: string
    var searchText: string

    ghost predicate Valid()
      reads this
    {
      AllPositive(items)
    }

    constructor(number: string -> Option<real>)
      ensures Valid()
      ensures this.number == number
      ensures items == [] && itemName == "" && itemPrice == "" && searchText == ""
    {
      this.number := number;
      items, itemName, itemPrice, searchText := [], "", "", "";
    }

    /** `addItem`, with `id` standing for `Date.now().toString()`. */
    method AddItem(id: string)
      requires Valid()
      modifies this
      ensures Valid()
      ensures searchText == old(searchText)
      ensures Add(old(items), id, old(itemName), number(old(itemPrice))).None? ==>
        items == old(items) && itemName == old(itemName) && itemPrice == old(itemPrice)
      ensures Add(old(items), id, old(itemName), number(old(itemPrice))).Some? ==>
        items == old(items) + [Item(id, old(itemName), number(old(itemPrice)).value, false)] &&
        itemName == "" && itemPrice == ""
    {
      var price := number(itemPrice);
      if itemName == "" || price.None? || price.value <= 0.0 {
        return;
      }
      items := items + [Item(id, itemName, price.value, false)];
      itemName := "";
      itemPrice := "";
    }

    method ToggleItem(id: string)
      requires Valid()
      modifies this
      ensures Valid()
      ensures items == Toggle(old(items), id)
      ensures itemName == old(itemName) && itemPrice == old(itemPrice) && searchText == old(searchText)
    {
      items := Toggle(items, id);
    }

    method DeleteItem(id: string)
      requires Valid()
      modifies this
      ensures Valid()
      ensures items == Delete(old(items), id)
      ensures itemName == old(itemName) && itemPrice == old(itemPrice) && searchText == old(searchText)
    {
      items := Delete(items, id);
    }

    method ClearAll()
      requires Valid()
      modifies this
      ensures Valid()
      ensures items == []
      ensures itemName == old(itemName) && itemPrice == old(itemPrice) && searchText == old(searchText)
    {
      items := [];
    }

    /** `filteredItems` (line 83): the items whose name matches the search text, each as often as it occurs, in order. */
    function FilteredItems(): (r: seq<Item>)
      reads this
      ensures r == Search(items, searchText)
      ensures forall i :: 0 <= i < |r| ==> r[i] in items && Matches(r[i], searchText)
      ensures forall i :: 0 <= i < |items| && Matches(items[i], searchText) ==> items[i] in r
      ensures IsSubsequence(r, items)
      ensures searchText == "" ==> r == items
    {
      if searchText == "" then SearchEmptyText(items); Search(items, searchText)
      else Search(items, searchText)
    }

    /**
     * `totalPrice` (line 84) over the filtered items. The screen as written
     * computes it but renders SummaryShown instead; with the wiring corrected
     * this is the total below the list.
     */
    function TotalPrice(): (r: real)
      reads this
      requires Valid()
      ensures r == UnpurchasedTotal(FilteredItems())
      ensures r == Summary.Total(Map(FlaggedEntry, FilteredItems()))
      ensures 0.0 <= r <= Sum(Price, FilteredItems())
    {
      DisplayedTotal(FilteredItems())
    }

    /** What line 142 renders as written: Summary.js over `filteredItems`, purchased items included. */
    function SummaryShown(): (r: real)
      reads this
      ensures r == Sum(Price, FilteredItems())
      ensures r == UnpurchasedTotal(FilteredItems()) + Sum(Price, Filter(IsPurchased, FilteredItems()))
    {
      RenderedTotalCountsPurchased(FilteredItems());
      RenderedTotal(FilteredItems())
    }
  }
}
