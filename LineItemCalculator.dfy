/** The estimate calculator: line items, the running total, and the three
    list edits (change one field, add a blank row, remove a row). Each edit
    reports a new list together with the total over exactly that list.
    Money is counted in integer cents. */
module LineItemCalculator {

  /** A line item as plain data, as it travels in requests and responses. */
  datatype Item = Item(description: string, quantity: int, unitPrice: int)

  /** The row that "+ Add Line Item" appends and the editor shows when the
      list is empty. */
  const Blank := Item("", 1, 0)

  /** The subtotal shown in a row. */
  function Subtotal(item: Item): int {
    item.quantity * item.unitPrice
  }

  /** `items.reduce((sum, item) => sum + item.quantity * item.unit_price, 0)`:
      a left fold starting at 0. */
  function Sum(items: seq<Item>): int {
    if items == [] then 0 else Sum(items[..|items| - 1]) + Subtotal(items[|items| - 1])
  }

  /** The total as one would write it by hand: first row's subtotal plus the rest. */
  function SumOfRows(items: seq<Item>): int {
    if items == [] then 0 else Subtotal(items[0]) + SumOfRows(items[1..])
  }

  /** The subtotal column of the calculator's table, one entry per row. */
  function Subtotals(items: seq<Item>): (r: seq<int>)
    ensures |r| == |items|
    ensures forall i :: 0 <= i < |items| ==> r[i] == items[i].quantity * items[i].unitPrice
  {
    seq(|items|, i requires 0 <= i < |items| => Subtotal(items[i]))
  }

  function SumInts(s: seq<int>): int {
    if s == [] then 0 else s[0] + SumInts(s[1..])
  }

  /** The fold over a concatenation is the sum of the folds. */
  lemma {:induction false} SumAppend(a: seq<Item>, b: seq<Item>)
    ensures Sum(a + b) == Sum(a) + Sum(b)
  {
    if b == [] {
      assert a + b == a;
    } else {
      assert (a + b)[..|a + b| - 1] == a + b[..|b| - 1];
      assert (a + b)[|a + b| - 1] == b[|b| - 1];
      SumAppend(a, b[..|b| - 1]);
    }
  }

  /** The fold agrees with the row-by-row sum: the total is the sum of
      quantity times unit price over all items, 0 for none. */
  lemma {:induction false} SumIsSumOfRows(items: seq<Item>)
    ensures Sum(items) == SumOfRows(items)
  {
    if items != [] {
      SumIsSumOfRows(items[1..]);
      SumAppend([items[0]], items[1..]);
      assert [items[0]] + items[1..] == items;
      assert Sum([items[0]]) == Subtotal(items[0]) by {
        assert [items[0]][..0] == [];
      }
    }
  }

  /** The displayed row subtotals add up to the displayed total. */
  lemma {:induction false} TotalIsSumOfSubtotals(items: seq<Item>)
    ensures SumInts(Subtotals(items)) == Sum(items)
  {
    SumIsSumOfRows(items);
    RowsAndSubtotals(items);
  }

  lemma {:induction false} RowsAndSubtotals(items: seq<Item>)
    ensures SumInts(Subtotals(items)) == SumOfRows(items)
  {
    if items != [] {
      RowsAndSubtotals(items[1..]);
      assert Subtotals(items)[1..] == Subtotals(items[1..]);
    }
  }

  /** Removing row i takes exactly its subtotal off the total. */
  lemma SumRemove(items: seq<Item>, i: nat)
    requires i < |items|
    ensures Sum(items[..i] + items[i + 1..]) == Sum(items) - Subtotal(items[i])
  {
    var a, b := items[..i], items[i + 1..];
    assert items[..i + 1] == a + [items[i]];
    assert items == items[..i + 1] + b;
    SumAppend(a + [items[i]], b);
    SumAppend(a, [items[i]]);
    SumAppend(a, b);
    assert Sum([items[i]]) == Subtotal(items[i]) by {
      assert [items[i]][..0] == [];
    }
  }

  /** Replacing row i changes the total by the difference of the subtotals. */
  lemma SumReplace(items: seq<Item>, i: nat, x: Item)
    requires i < |items|
    ensures Sum(items[i := x]) == Sum(items) - Subtotal(items[i]) + Subtotal(x)
  {
    assert items == items[..i] + [items[i]] + items[i + 1..];
    assert items[i := x] == items[..i] + [x] + items[i + 1..];
    SumAppend(items[..i] + [items[i]], items[i + 1..]);
    SumAppend(items[..i], [items[i]]);
    SumAppend(items[..i] + [x], items[i + 1..]);
    SumAppend(items[..i], [x]);
  }

  /** `items.filter((_, i) => i !== index)`: keeps every position but index. */
  function Without<T>(s: seq<T>, index: int): (r: seq<T>)
    ensures 0 <= index < |s| ==> r == s[..index] + s[index + 1..]
    ensures !(0 <= index < |s|) ==> r == s
  {
    if s == [] then []
    else (if index == 0 then [] else [s[0]]) + Without(s[1..], index - 1)
  }

  /** The three fields `handleItemChange` is called with, each with its value. */
  datatype Change = Description(text: string) | Quantity(count: int) | UnitPrice(price: int)

  /** The item after `item[field] = value`. */
  function Apply(item: Item, change: Change): Item {
    match change
    case Description(t) => item.(description := t)
    case Quantity(q) => item.(quantity := q)
    case UnitPrice(p) => item.(unitPrice := p)
  }

  /** The rows after `handleItemChange(index, field, value)`, as values: row
      index changed, every other row as it was, and the total moved by the
      difference of the two subtotals. */
  function ChangeRow(items: seq<Item>, index: nat, change: Change): (r: seq<Item>)
    requires index < |items|
    ensures |r| == |items| && r[index] == Apply(items[index], change)
    ensures forall k :: 0 <= k < |items| && k != index ==> r[k] == items[k]
    ensures Sum(r) == Sum(items) - Subtotal(items[index]) + Subtotal(r[index])
  {
    SumReplace(items, index, Apply(items[index], change));
    items[index := Apply(items[index], change)]
  }

  /** A change writes its own field and leaves the other two as they were. */
  lemma ApplyChangesOneField(item: Item, change: Change)
    ensures Apply(item, change).description == (if change.Description? then change.text else item.description)
    ensures Apply(item, change).quantity == (if change.Quantity? then change.count else item.quantity)
    ensures Apply(item, change).unitPrice == (if change.UnitPrice? then change.price else item.unitPrice)
  {
  }

  /** A line-item object of the calculator's list; the list shares these
      objects with whoever passed it in. */
  class LineItem {
    var description: string
    var quantity: int
    var unitPrice: int

    constructor (item: Item)
      ensures Value() == item
    {
      description, quantity, unitPrice := item.description, item.quantity, item.unitPrice;
    }

    function Value(): Item
      reads this
    {
      Item(description, quantity, unitPrice)
    }

    /** `(item as any)[field] = value` */
    method Set(change: Change)
      modifies this
      ensures Value() == Apply(old(Value()), change)
    {
      match change
      case Description(t) => description := t;
      case Quantity(q) => quantity := q;
      case UnitPrice(p) => unitPrice := p;
    }
  }

  /** The values the objects hold right now. */
  function Snapshot(items: seq<LineItem>): (r: seq<Item>)
    reads items
    ensures |r| == |items|
    ensures forall i {:trigger r[i]} :: 0 <= i < |items| ==> r[i] == items[i].Value()
  {
    if items == [] then [] else Snapshot(items[..|items| - 1]) + [items[|items| - 1].Value()]
  }

  /** The total the calculator shows for a list of objects. */
  function Total(items: seq<LineItem>): int
    reads items
  {
    Sum(Snapshot(items))
  }

  /** No object appears twice in the list. */
  predicate Distinct(items: seq<LineItem>) {
    forall i, j :: 0 <= i < j < |items| ==> items[i] != items[j]
  }

  lemma SnapshotWithout(items: seq<LineItem>, index: int)
    ensures Snapshot(Without(items, index)) == Without(Snapshot(items), index)
  {
    var l, r := Snapshot(Without(items, index)), Without(Snapshot(items), index);
    assert |l| == |r|;
    if 0 <= index < |items| {
      forall k | 0 <= k < |l| ensures l[k] == r[k] {
        if k < index { assert l[k] == items[k].Value(); }
        else { assert l[k] == items[k + 1].Value(); }
      }
    }
  }

  lemma DistinctWithout(items: seq<LineItem>, index: int)
    requires Distinct(items)
    ensures Distinct(Without(items, index))
  {
    if 0 <= index < |items| {
      var r := Without(items, index);
      forall i, j | 0 <= i < j < |r| ensures r[i] != r[j] {
        var i' := if i < index then i else i + 1;
        var j' := if j < index then j else j + 1;
        assert r[i] == items[i'] && r[j] == items[j'];
      }
    }
  }

  /** `handleItemChange(index, field, value)`: `[...items]` copies the list of
      references only, so the write lands in the object the caller's list
      holds too; the reported list is the caller's list, object for object. */
  method HandleItemChange(items: seq<LineItem>, index: nat, change: Change)
    returns (newItems: seq<LineItem>, total: int)
    requires index < |items|
    modifies items[index]
    ensures newItems == items
    ensures items[index].Value() == Apply(old(items[index].Value()), change)
    ensures Distinct(items) ==> Snapshot(newItems) == ChangeRow(old(Snapshot(items)), index, change)
    ensures Distinct(items) ==> total == old(Total(items)) - Subtotal(old(items[index].Value())) + Subtotal(items[index].Value())
    ensures total == Total(newItems)
  {
    ghost var before := Snapshot(items);
    newItems := items;
    newItems[index].Set(change);
    total := Total(newItems);
    if Distinct(items) {
      assert Snapshot(newItems) == before[index := items[index].Value()];
      assert Snapshot(newItems) == ChangeRow(before, index, change);
    }
  }

  /** `addItem()`: the list with one fresh blank row at the end; the total
      does not move. */
  method AddItem(items: seq<LineItem>) returns (newItems: seq<LineItem>, total: int)
    ensures |newItems| == |items| + 1 && newItems[..|items|] == items
    ensures fresh(newItems[|items|])
    ensures Snapshot(newItems) == Snapshot(items) + [Blank]
    ensures Distinct(items) ==> Distinct(newItems)
    ensures total == Total(newItems) == Total(items)
  {
    var row := new LineItem(Blank);
    newItems := items + [row];
    assert Snapshot(newItems) == Snapshot(items) + [Blank];
    SumAppend(Snapshot(items), [Blank]);
    total := Total(newItems);
  }

  /** `removeItem(index)`: every row but position index, in order; the total
      loses exactly that row's subtotal. An index outside the list leaves
      the list as it is. */
  method RemoveItem(items: seq<LineItem>, index: int) returns (newItems: seq<LineItem>, total: int)
    ensures 0 <= index < |items| ==> newItems == items[..index] + items[index + 1..]
    ensures !(0 <= index < |items|) ==> newItems == items
    ensures Distinct(items) ==> Distinct(newItems)
    ensures total == Total(newItems)
    ensures 0 <= index < |items| ==> total == Total(items) - Subtotal(items[index].Value())
    ensures Snapshot(newItems) == Without(Snapshot(items), index)
  {
    newItems := Without(items, index);
    total := Total(newItems);
    SnapshotWithout(items, index);
    if Distinct(items) {
      DistinctWithout(items, index);
    }
    if 0 <= index < |items| {
      SumRemove(Snapshot(items), index);
    }
  }
}
