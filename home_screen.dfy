/**
 * The shopping-list screen of src/screens/HomeScreen.js: items carry a
 * `bought` flag, any numeric price is accepted (zero and negative ones
 * included), there is no search, and Summary.js totals the whole list.
 */
module HomeScreen {

  import opened Optional
  import opened Seqs
  import Summary

  datatype Item = Item(id: string, name: string, price: real, bought: bool)

  function Price(it: Item): real
  {
    it.price
  }

  predicate NotBought(it: Item)
  {
    !it.bought
  }

  /**
   * `addItem`: `priceText` is `itemPrice` and `price` its numeric reading,
   * `None` where `isNaN(itemPrice)` holds. An empty name, an empty price text
   * or a `NaN` price is rejected; any other price, whatever its sign, is
   * appended at the end as a new item that is not bought.
   */
  function Add(items: seq<Item>, id: string, name: string, priceText: string, price: Option<real>): (r: Option<seq<Item>>)
    ensures r.Some? <==> name != "" && priceText != "" && price.Some?
    ensures r.Some? ==> |r.value| == |items| + 1 && r.value[..|items|] == items
    ensures r.Some? ==> r.value[|items|] == Item(id, name, price.value, false)
  {
    if name == "" || priceText == "" || price.None? then None
    else Some(items + [Item(id, name, price.value, false)])
  }

  /** The item as `toggleBought(id)` leaves it. */
  function Flip(it: Item, id: string): Item
  {
    if it.id == id then it.(bought := !it.bought) else it
  }

  /** `toggleBought`: flips `bought` on every item whose id is `id`, touches nothing else. */
  function Toggle(items: seq<Item>, id: string): (r: seq<Item>)
    ensures |r| == |items|
    ensures forall i :: 0 <= i < |items| ==>
      r[i].id == items[i].id && r[i].name == items[i].name && r[i].price == items[i].price &&
      (r[i].bought <==> (if items[i].id == id then !items[i].bought else items[i].bought))
  {
    Map((it: Item) => Flip(it, id), items)
  }

  /** `deleteItem`: keeps exactly the items whose id is not `id`. */
  function Delete(items: seq<Item>, id: string): (r: seq<Item>)
    ensures forall i :: 0 <= i < |r| ==> r[i] in items && r[i].id != id
    ensures forall i :: 0 <= i < |items| && items[i].id != id ==> items[i] in r
    ensures forall x :: multiset(r)[x] == if x.id != id then multiset(items)[x] else 0
    ensures IsSubsequence(r, items)
  {
    FilterMultiset((it: Item) => it.id != id, items);
    FilterIsSubsequence((it: Item) => it.id != id, items);
    Filter((it: Item) => it.id != id, items)
  }

  /** What Summary.js reads from an item of this screen: price and `bought`. */
  function AsEntry(it: Item): Summary.Entry
  {
    Summary.Entry(it.price, Some(it.bought))
  }

  /** `<Summary items={items} />`: the sum of the prices of the items not bought. */
  function SummaryTotal(items: seq<Item>): (r: real)
    ensures r == Sum(Price, Filter(NotBought, items))
  {
    SummaryIsUnboughtSum(items);
    Summary.Total(Map(AsEntry, items))
  }

  lemma SummaryIsUnboughtSum(items: seq<Item>)
    ensures Summary.Total(Map(AsEntry, items)) == Sum(Price, Filter(NotBought, items))
  {
    var kept := Filter(NotBought, items);
    FilterMap(Summary.NotBought, AsEntry, NotBought, items);
    assert Filter(Summary.NotBought, Map(AsEntry, items)) == Map(AsEntry, kept);
    SumMap(Summary.Price, AsEntry, Price, kept);
  }

  /** Zero and negative prices pass the check of `addItem`. */
  lemma AcceptsNonPositivePrice(items: seq<Item>, id: string, name: string, priceText: string, price: real)
    requires name != "" && priceText != "" && price <= 0.0
    ensures Add(items, id, name, priceText, Some(price)).Some?
    ensures Add(items, id, name, priceText, Some(price)).value[|items|].price == price
  {
  }

  lemma ToggleTwice(items: seq<Item>, id: string)
    ensures Toggle(Toggle(items, id), id) == items
  {
  }

  /** An id that no item carries is not an error: the list comes back unchanged. */
  lemma ToggleAbsent(items: seq<Item>, id: string)
    requires forall i :: 0 <= i < |items| ==> items[i].id != id
    ensures Toggle(items, id) == items
  {
  }

  lemma DeleteAbsent(items: seq<Item>, id: string)
    requires forall i :: 0 <= i < |items| ==> items[i].id != id
    ensures Delete(items, id) == items
  {
    FilterKeepsAll((it: Item) => it.id != id, items);
  }

  lemma DeleteTwice(items: seq<Item>, id: string)
    ensures Delete(Delete(items, id), id) == Delete(items, id)
  {
    FilterIdempotent((it: Item) => it.id != id, items);
  }

  /** Buying an item that was not bought lowers the summary by exactly its price. */
  lemma BuyingLowersSummary(a: seq<Item>, it: Item, b: seq<Item>)
    requires !it.bought
    ensures SummaryTotal(a + [it.(bought := true)] + b) == SummaryTotal(a + [it] + b) - it.price
  {
    MapThree(a, it, b);
    MapThree(a, it.(bought := true), b);
    assert AsEntry(it.(bought := true)) == AsEntry(it).(bought := Some(true));
    Summary.TotalMarkBought(Map(AsEntry, a), AsEntry(it), Map(AsEntry, b));
    SummaryIsUnboughtSum(a + [it.(bought := true)] + b);
    SummaryIsUnboughtSum(a + [it] + b);
  }

  lemma MapThree(a: seq<Item>, it: Item, b: seq<Item>)
    ensures Map(AsEntry, a + [it] + b) == Map(AsEntry, a) + [AsEntry(it)] + Map(AsEntry, b)
  {
  }

  /**
   * The screen: the list and the two text inputs held in state. The methods
   * assign the state the way `setItems`, `setItemName` and `setItemPrice` do.
   */
  class Screen {
    /** The numeric reading of the price text (`isNaN` and `parseFloat`), `None` where it is `NaN`. */
    const number: string -> Option<real>
    var itemName: string
    var itemPrice: string
    var items: seq<Item>

    constructor(number: string -> Option<real>)
      ensures this.number == number
      ensures items == [] && itemName == "" && itemPrice == ""
    {
      this.number := number;
      itemName, itemPrice, items := "", "", [];
    }

    /** `addItem`, with `id` standing for `Date.now().toString()`. */
    method AddItem(id: string)
      modifies this
      ensures Add(old(items), id, old(itemName), old(itemPrice), number(old(itemPrice))).None? ==>
        items == old(items) && itemName == old(itemName) && itemPrice == old(itemPrice)
      ensures Add(old(items), id, old(itemName), old(itemPrice), number(old(itemPrice))).Some? ==>
        items == old(items) + [Item(id, old(itemName), number(old(itemPrice)).value, false)] &&
        itemName == "" && itemPrice == ""
    {
      var price := number(itemPrice);
      if itemName == "" || itemPrice == "" || price.None? {
        return;
      }
      items := items + [Item(id, itemName, price.value, false)];
      itemName := "";
      itemPrice := "";
    }

    method ToggleBought(id: string)
      modifies this
      ensures items == Toggle(old(items), id)
      ensures itemName == old(itemName) && itemPrice == old(itemPrice)
    {
      items := Toggle(items, id);
    }

    method DeleteItem(id: string)
      modifies this
      ensures items == Delete(old(items), id)
      ensures itemName == old(itemName) && itemPrice == old(itemPrice)
    {
      items := Delete(items, id);
    }

    method ClearAll()
      modifies this
      ensures items == []
      ensures itemName == old(itemName) && itemPrice == old(itemPrice)
    {
      items := [];
    }

    /** The total below the list: Summary.js over the whole list, nothing filtered out first. */
    function ShownTotal(): (r: real)
      reads this
      ensures r == Sum(Price, Filter(NotBought, items))
    {
      SummaryTotal(items)
    }
  }
}
