/**
 * The Summary component (src/components/Summary.js): the total price of the
 * entries it is given that are not marked bought.
 */
module Summary {

  import opened Optional
  import opened Seqs

  /**
   * What the component reads from one entry of its `items` prop: the price
   * and the `bought` field, `None` when the entry has no such field.
   */
  datatype Entry = Entry(price: real, bought: Option<bool>)

  function Price(e: Entry): real
  {
    e.price
  }

  /** `!item.bought`: a missing field is `undefined`, which is falsy, so it passes too. */
  predicate NotBought(e: Entry)
  {
    e.bought != Some(true)
  }

  /** `items.filter(item => !item.bought).reduce((sum, item) => sum + item.price, 0)` */
  function Total(items: seq<Entry>): (r: real)
    ensures (forall i :: 0 <= i < |items| ==> items[i].bought == Some(true)) ==> r == 0.0
    ensures (forall i :: 0 <= i < |items| ==> items[i].bought == None) ==> r == Sum(Price, items)
  {
    if forall i :: 0 <= i < |items| ==> items[i].bought == None then
      FilterKeepsAll(NotBought, items);
      Sum(Price, Filter(NotBought, items))
    else
      Sum(Price, Filter(NotBought, items))
  }

  lemma TotalEmpty()
    ensures Total([]) == 0.0
  {
  }

  /** One entry adds its price exactly when it is not bought. */
  lemma TotalSingle(e: Entry)
    ensures Total([e]) == if e.bought == Some(true) then 0.0 else e.price
  {
    assert Filter(NotBought, [e]) == (if NotBought(e) then [e] else []) + Filter(NotBought, []);
    SumCons(Price, e, []);
  }

  lemma TotalConcat(a: seq<Entry>, b: seq<Entry>)
    ensures Total(a + b) == Total(a) + Total(b)
  {
    FilterConcat(NotBought, a, b);
    SumConcat(Price, Filter(NotBought, a), Filter(NotBought, b));
  }

  lemma TotalOfThree(a: seq<Entry>, e: Entry, b: seq<Entry>)
    ensures Total(a + [e] + b) == Total(a) + (if e.bought == Some(true) then 0.0 else e.price) + Total(b)
  {
    TotalConcat(a + [e], b);
    TotalConcat(a, [e]);
    TotalSingle(e);
  }

  /** A bought entry contributes nothing, wherever it stands. */
  lemma TotalSkipsBought(a: seq<Entry>, e: Entry, b: seq<Entry>)
    requires e.bought == Some(true)
    ensures Total(a + [e] + b) == Total(a + b)
  {
    TotalOfThree(a, e, b);
    TotalConcat(a, b);
  }

  /** Marking an entry that was not bought as bought lowers the total by exactly its price. */
  lemma TotalMarkBought(a: seq<Entry>, e: Entry, b: seq<Entry>)
    requires e.bought != Some(true)
    ensures Total(a + [e.(bought := Some(true))] + b) == Total(a + [e] + b) - e.price
  {
    TotalOfThree(a, e, b);
    TotalOfThree(a, e.(bought := Some(true)), b);
  }

  /** With no entry carrying a `bought` field, the filter keeps everything: the total is the plain sum. */
  lemma TotalWithoutFlags(items: seq<Entry>)
    requires forall i :: 0 <= i < |items| ==> items[i].bought == None
    ensures Total(items) == Sum(Price, items)
  {
  }

  lemma TotalNonNegative(items: seq<Entry>)
    requires forall i :: 0 <= i < |items| ==> items[i].price >= 0.0
    ensures Total(items) >= 0.0
  {
    var kept := Filter(NotBought, items);
    forall i | 0 <= i < |kept| ensures Price(kept[i]) >= 0.0 {
      assert kept[i] in items;
    }
  }

  /** Three entries, the middle one bought: the total is 10 + 5. */
  lemma TotalExample()
    ensures Total([Entry(10.0, Some(false)), Entry(20.0, Some(true)), Entry(5.0, Some(false))]) == 15.0
  {
    var e1, e2, e3 := Entry(10.0, Some(false)), Entry(20.0, Some(true)), Entry(5.0, Some(false));
    TotalOfThree([e1], e2, [e3]);
    TotalSingle(e1);
    TotalSingle(e3);
    assert [e1] + [e2] + [e3] == [e1, e2, e3];
  }
}
