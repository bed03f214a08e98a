/** The cart state container: an ordered list of line items keyed by product
    id, the transitions the provider applies to it, the two totals, and the
    provider object that holds the list, its loading flag and the saves it
    issues to device storage. */
module Cart {
  import opened Lists

  /** One line of the cart: the product's id, name, price and image as they
      were when it was added, and how many. Prices are exact decimals. */
  datatype CartItem = CartItem(id: string, name: string, price: real, image: string, quantity: int)

  /** What `addToCart` is given: a line item without its quantity. */
  datatype ItemInfo = ItemInfo(id: string, name: string, price: real, image: string)

  /** Which confirmation dialog `addToCart` shows: "Added to Cart" for a new
      line, or "Cart Updated" with the quantity the line now has. */
  datatype Notice = Added(name: string) | QuantityUpdated(name: string, quantity: int)

  datatype AddResult = AddResult(items: seq<CartItem>, notice: Notice)

  /** The quantity `addToCart` uses when the caller gives none. */
  const DEFAULT_QUANTITY: int := 1

  // ---------------------------------------------------------------------
  // Invariants of the line-item list

  ghost predicate UniqueIds(items: seq<CartItem>) {
    forall i, j :: 0 <= i < j < |items| ==> items[i].id != items[j].id
  }

  predicate PositiveQuantities(items: seq<CartItem>) {
    forall k :: 0 <= k < |items| ==> items[k].quantity >= 1
  }

  ghost predicate NoLineWithId(items: seq<CartItem>, id: string) {
    forall k :: 0 <= k < |items| ==> items[k].id != id
  }

  // ---------------------------------------------------------------------
  // Transitions: each is a pure function of the old list

  function HasId(id: string): CartItem -> bool {
    (item: CartItem) => item.id == id
  }

  function NotId(id: string): CartItem -> bool {
    (item: CartItem) => item.id != id
  }

  /** `{...item, quantity}` */
  function LineFor(info: ItemInfo, quantity: int): CartItem {
    CartItem(info.id, info.name, info.price, info.image, quantity)
  }

  /** `items.map(i => i.id === id ? change(i) : i)` */
  function MapWhereId(items: seq<CartItem>, id: string, change: CartItem -> CartItem): (r: seq<CartItem>)
    ensures |r| == |items|
    ensures forall k :: 0 <= k < |items| && items[k].id != id ==> r[k] == items[k]
    ensures forall k :: 0 <= k < |items| && items[k].id == id ==> r[k] == change(items[k])
  {
    seq(|items|, k requires 0 <= k < |items| => if items[k].id == id then change(items[k]) else items[k])
  }

  function IncreaseBy(quantity: int): CartItem -> CartItem {
    (item: CartItem) => item.(quantity := item.quantity + quantity)
  }

  function SetTo(quantity: int): CartItem -> CartItem {
    (item: CartItem) => item.(quantity := quantity)
  }

  /** `addToCart(item, quantity)`: merge into the line with the same id, or
      append a new line at the end. */
  function AfterAdd(items: seq<CartItem>, info: ItemInfo, quantity: int): (r: AddResult)
    ensures r.notice.name == info.name
    ensures r.notice.Added? <==> NoLineWithId(items, info.id)
    ensures r.notice.Added? ==> |r.items| == |items| + 1
    ensures r.notice.QuantityUpdated? ==> |r.items| == |items|
    ensures exists k :: 0 <= k < |r.items| && r.items[k].id == info.id
  {
    match Find(items, HasId(info.id))
    case Some(existing) =>
      var merged := MapWhereId(items, info.id, IncreaseBy(quantity));
      assert exists k :: 0 <= k < |merged| && merged[k].id == info.id by {
        var k :| 0 <= k < |items| && items[k] == existing && HasId(info.id)(items[k]);
        assert merged[k].id == info.id;
      }
      AddResult(merged, QuantityUpdated(info.name, existing.quantity + quantity))
    case None =>
      var appended := items + [LineFor(info, quantity)];
      assert appended[|items|].id == info.id;
      AddResult(appended, Added(info.name))
  }

  /** `removeFromCart(id)`: drop every line with that id, keep the others in order. */
  function AfterRemove(items: seq<CartItem>, id: string): (r: seq<CartItem>)
    ensures NoLineWithId(r, id)
    ensures |r| <= |items|
  {
    Filter(items, NotId(id))
  }

  /** `updateQuantity(id, quantity)`: below 1 it removes, otherwise it
      overwrites the quantity of the lines with that id. */
  function AfterUpdate(items: seq<CartItem>, id: string, quantity: int): (r: seq<CartItem>)
    ensures quantity < 1 ==> NoLineWithId(r, id) && |r| <= |items|
    ensures quantity >= 1 ==> |r| == |items|
    ensures quantity >= 1 ==> forall k :: 0 <= k < |items| ==>
              r[k] == if items[k].id == id then items[k].(quantity := quantity) else items[k]
  {
    if quantity < 1 then AfterRemove(items, id)
    else MapWhereId(items, id, SetTo(quantity))
  }

  // ---------------------------------------------------------------------
  // The two folds, left to right as `reduce` runs them

  /** `getItemCount`: the sum of the quantities (not the number of lines). */
  function ItemCount(items: seq<CartItem>): int {
    if items == [] then 0
    else ItemCount(items[..|items| - 1]) + items[|items| - 1].quantity
  }

  /** `getSubtotal`: the sum of price times quantity. */
  function Subtotal(items: seq<CartItem>): real {
    if items == [] then 0.0
    else Subtotal(items[..|items| - 1]) + LineTotal(items[|items| - 1])
  }

  function LineTotal(item: CartItem): real {
    item.price * item.quantity as real
  }

  // ---------------------------------------------------------------------
  // Lemmas about the folds

  lemma {:induction false} TotalsAppend(a: seq<CartItem>, b: seq<CartItem>)
    ensures ItemCount(a + b) == ItemCount(a) + ItemCount(b)
    ensures Subtotal(a + b) == Subtotal(a) + Subtotal(b)
    decreases |b|
  {
    if b == [] {
      assert a + b == a;
    } else {
      var b' := b[..|b| - 1];
      assert (a + b)[..|a + b| - 1] == a + b';
      assert (a + b)[|a + b| - 1] == b[|b| - 1];
      TotalsAppend(a, b');
    }
  }

  /** Splitting the list around line `k`. */
  lemma TotalsAround(items: seq<CartItem>, k: nat)
    requires k < |items|
    ensures ItemCount(items) == ItemCount(items[..k]) + items[k].quantity + ItemCount(items[k + 1..])
    ensures Subtotal(items) == Subtotal(items[..k]) + LineTotal(items[k]) + Subtotal(items[k + 1..])
  {
    var front, line, back := items[..k], items[k], items[k + 1..];
    assert items == (front + [line]) + back;
    TotalsAppend(front + [line], back);
    assert (front + [line])[..|front + [line]| - 1] == front;
  }

  /** Replacing line `k` changes each total by the difference between the two lines. */
  lemma TotalsAfterLineChange(items: seq<CartItem>, k: nat, line: CartItem)
    requires k < |items|
    ensures ItemCount(items[k := line]) == ItemCount(items) - items[k].quantity + line.quantity
    ensures Subtotal(items[k := line]) == Subtotal(items) - LineTotal(items[k]) + LineTotal(line)
  {
    var r := items[k := line];
    TotalsAround(items, k);
    TotalsAround(r, k);
    assert r[..k] == items[..k] && r[k + 1..] == items[k + 1..];
  }

  /** With every quantity at least 1, the item count is at least the number of lines. */
  lemma {:induction false} ItemCountAtLeastLines(items: seq<CartItem>)
    requires PositiveQuantities(items)
    ensures ItemCount(items) >= |items|
  {
    if items != [] {
      ItemCountAtLeastLines(items[..|items| - 1]);
    }
  }

  /** Non-negative prices and quantities give a non-negative subtotal. */
  lemma {:induction false} SubtotalNonNegative(items: seq<CartItem>)
    requires forall k :: 0 <= k < |items| ==> items[k].price >= 0.0 && items[k].quantity >= 0
    ensures Subtotal(items) >= 0.0
  {
    if items != [] {
      SubtotalNonNegative(items[..|items| - 1]);
    }
  }

  /** Both totals of the cleared cart are zero. */
  lemma ClearedTotals()
    ensures ItemCount([]) == 0 && Subtotal([]) == 0.0
  {
  }

  // ---------------------------------------------------------------------
  // Lemmas about the transitions

  /** With unique ids, a line with id `id` at `k` is the first match. */
  lemma FirstMatch(items: seq<CartItem>, id: string, k: nat)
    requires UniqueIds(items) && k < |items| && items[k].id == id
    ensures Find(items, HasId(id)) == Some(items[k])
  {
    var r := Find(items, HasId(id));
    assert HasId(id)(items[k]);
    var j :| 0 <= j < |items| && items[j] == r.value && HasId(id)(items[j])
             && forall i :: 0 <= i < j ==> !HasId(id)(items[i]);
    assert j == k;
  }

  /** Adding an id already at line `k` adds `quantity` to that line only,
      and the dialog reports the resulting quantity. */
  lemma AddToExistingLine(items: seq<CartItem>, info: ItemInfo, quantity: int, k: nat)
    requires UniqueIds(items) && k < |items| && items[k].id == info.id
    ensures AfterAdd(items, info, quantity).items
            == items[k := items[k].(quantity := items[k].quantity + quantity)]
    ensures AfterAdd(items, info, quantity).notice
            == QuantityUpdated(info.name, items[k].quantity + quantity)
  {
    FirstMatch(items, info.id, k);
    var r := AfterAdd(items, info, quantity).items;
    forall j | 0 <= j < |items|
      ensures r[j] == items[k := items[k].(quantity := items[k].quantity + quantity)][j]
    {
      if j != k { assert items[j].id != info.id; }
    }
  }

  /** Adding an id the cart does not hold appends one line at the end. */
  lemma AddNewLine(items: seq<CartItem>, info: ItemInfo, quantity: int)
    requires NoLineWithId(items, info.id)
    ensures AfterAdd(items, info, quantity)
            == AddResult(items + [CartItem(info.id, info.name, info.price, info.image, quantity)], Added(info.name))
  {
  }

  lemma AddKeepsIdsUnique(items: seq<CartItem>, info: ItemInfo, quantity: int)
    requires UniqueIds(items)
    ensures UniqueIds(AfterAdd(items, info, quantity).items)
  {
    var r := AfterAdd(items, info, quantity).items;
    if Find(items, HasId(info.id)).None? {
      assert forall k :: 0 <= k < |items| ==> !HasId(info.id)(items[k]);
      assert forall i :: 0 <= i < |items| ==> r[i].id == items[i].id;
    } else {
      assert forall i :: 0 <= i < |items| ==> r[i].id == items[i].id;
    }
  }

  /** Adding at least 1 keeps every quantity at least 1. */
  lemma AddKeepsQuantitiesPositive(items: seq<CartItem>, info: ItemInfo, quantity: int)
    requires PositiveQuantities(items) && quantity >= 1
    ensures PositiveQuantities(AfterAdd(items, info, quantity).items)
  {
  }

  lemma LineTotalIncrease(item: CartItem, quantity: int)
    ensures LineTotal(item.(quantity := item.quantity + quantity))
            == LineTotal(item) + item.price * quantity as real
  {
    assert (item.quantity + quantity) as real == item.quantity as real + quantity as real;
  }

  /** Raising line `k` by `quantity` raises the totals by that quantity and its price. */
  lemma RaiseLineTotals(items: seq<CartItem>, k: nat, quantity: int)
    requires k < |items|
    ensures ItemCount(items[k := items[k].(quantity := items[k].quantity + quantity)]) == ItemCount(items) + quantity
    ensures Subtotal(items[k := items[k].(quantity := items[k].quantity + quantity)])
            == Subtotal(items) + items[k].price * quantity as real
  {
    TotalsAfterLineChange(items, k, items[k].(quantity := items[k].quantity + quantity));
    LineTotalIncrease(items[k], quantity);
  }

  /** Adding to the line at `k` charges the price kept in that line. */
  lemma AddToExistingLineTotals(items: seq<CartItem>, info: ItemInfo, quantity: int, k: nat)
    requires UniqueIds(items) && k < |items| && items[k].id == info.id
    ensures ItemCount(AfterAdd(items, info, quantity).items) == ItemCount(items) + quantity
    ensures Subtotal(AfterAdd(items, info, quantity).items)
            == Subtotal(items) + items[k].price * quantity as real
  {
    AddToExistingLine(items, info, quantity, k);
    RaiseLineTotals(items, k, quantity);
  }

  /** A new line adds its own price times its quantity. */
  lemma AddNewLineTotals(items: seq<CartItem>, info: ItemInfo, quantity: int)
    requires NoLineWithId(items, info.id)
    ensures ItemCount(AfterAdd(items, info, quantity).items) == ItemCount(items) + quantity
    ensures Subtotal(AfterAdd(items, info, quantity).items)
            == Subtotal(items) + info.price * quantity as real
  {
    var line := LineFor(info, quantity);
    var r := AfterAdd(items, info, quantity).items;
    assert r == items + [line] by {
      AddNewLine(items, info, quantity);
    }
    AppendLineTotals(items, line);
    assert LineTotal(line) == info.price * quantity as real;
  }

  /** Appending a line adds its quantity and its line total. */
  lemma AppendLineTotals(items: seq<CartItem>, line: CartItem)
    ensures ItemCount(items + [line]) == ItemCount(items) + line.quantity
    ensures Subtotal(items + [line]) == Subtotal(items) + LineTotal(line)
  {
    assert (items + [line])[..|items|] == items;
  }

  /** With unique ids, adding `quantity` raises the item count by `quantity`
      whether it merges or appends. */
  lemma AddItemCount(items: seq<CartItem>, info: ItemInfo, quantity: int)
    requires UniqueIds(items)
    ensures ItemCount(AfterAdd(items, info, quantity).items) == ItemCount(items) + quantity
  {
    var found := Find(items, HasId(info.id));
    if found.None? {
      assert forall k :: 0 <= k < |items| ==> !HasId(info.id)(items[k]);
      AddNewLineTotals(items, info, quantity);
    } else {
      var k :| 0 <= k < |items| && items[k] == found.value && HasId(info.id)(items[k]);
      AddToExistingLineTotals(items, info, quantity, k);
    }
  }

  /** Removing an id the cart does not hold changes nothing. */
  lemma RemoveAbsent(items: seq<CartItem>, id: string)
    requires NoLineWithId(items, id)
    ensures AfterRemove(items, id) == items
  {
    FilterKeepsAll(items, NotId(id));
  }

  /** With unique ids, removing the id at line `k` deletes exactly that line. */
  lemma RemovePresent(items: seq<CartItem>, id: string, k: nat)
    requires UniqueIds(items) && k < |items| && items[k].id == id
    ensures AfterRemove(items, id) == items[..k] + items[k + 1..]
  {
    var front, line, back := items[..k], [items[k]], items[k + 1..];
    assert items == (front + line) + back;
    var keep := NotId(id);
    assert forall j :: 0 <= j < |front| ==> keep(front[j]) by {
      forall j | 0 <= j < |front| ensures keep(front[j]) { assert front[j] == items[j]; }
    }
    assert forall j :: 0 <= j < |back| ==> keep(back[j]) by {
      forall j | 0 <= j < |back| ensures keep(back[j]) { assert back[j] == items[k + 1 + j]; }
    }
    FilterKeepsAll(front, keep);
    FilterKeepsAll(back, keep);
    assert Filter(line, keep) == [] by {
      assert line[1..] == [];
    }
    FilterAppend(front, line, keep);
    assert Filter(front + line, keep) == front;
    FilterAppend(front + line, back, keep);
    assert Filter(items, keep) == front + back;
  }

  /** Removal keeps every other line, as often as it occurred, in its order. */
  lemma RemoveKeepsOthers(items: seq<CartItem>, id: string)
    ensures IsSubsequence(AfterRemove(items, id), items)
    ensures forall x :: multiset(AfterRemove(items, id))[x] == if x.id != id then multiset(items)[x] else 0
  {
    FilterIsSubsequence(items, NotId(id));
    FilterCounts(items, NotId(id));
  }

  /** Every line of the result of a removal was a line of its input. */
  lemma RemovedFrom(items: seq<CartItem>, id: string, i: nat)
    requires i < |AfterRemove(items, id)|
    ensures AfterRemove(items, id)[i] in items
  {
    var r := AfterRemove(items, id);
    RemoveKeepsOthers(items, id);
    assert multiset(r)[r[i]] > 0;
  }

  /** Removal keeps ids pairwise distinct. */
  lemma RemoveKeepsIdsUnique(items: seq<CartItem>, id: string)
    requires UniqueIds(items)
    ensures UniqueIds(AfterRemove(items, id))
  {
    var r := AfterRemove(items, id);
    var found := Find(items, HasId(id));
    if found.None? {
      assert NoLineWithId(items, id) by {
        assert forall k :: 0 <= k < |items| ==> !HasId(id)(items[k]);
      }
      RemoveAbsent(items, id);
    } else {
      var k :| 0 <= k < |items| && items[k] == found.value && HasId(id)(items[k]);
      RemovePresent(items, id, k);
      assert forall i :: 0 <= i < |r| ==> r[i] == items[if i < k then i else i + 1];
    }
  }

  /** Removal keeps every quantity at least 1, even when ids repeat. */
  lemma RemoveKeepsQuantitiesPositive(items: seq<CartItem>, id: string)
    requires PositiveQuantities(items)
    ensures PositiveQuantities(AfterRemove(items, id))
  {
    var r := AfterRemove(items, id);
    forall i | 0 <= i < |r| ensures r[i].quantity >= 1 {
      RemovedFrom(items, id, i);
      var k :| 0 <= k < |items| && items[k] == r[i];
    }
  }

  /** Removing then asking for the totals: with unique ids, they drop by that line's share. */
  lemma RemoveTotals(items: seq<CartItem>, id: string, k: nat)
    requires UniqueIds(items) && k < |items| && items[k].id == id
    ensures ItemCount(AfterRemove(items, id)) == ItemCount(items) - items[k].quantity
    ensures Subtotal(AfterRemove(items, id)) == Subtotal(items) - LineTotal(items[k])
  {
    RemovePresent(items, id, k);
    TotalsAround(items, k);
    TotalsAppend(items[..k], items[k + 1..]);
  }

  /** A quantity below 1 is a removal. */
  lemma UpdateBelowOneRemoves(items: seq<CartItem>, id: string, quantity: int)
    requires quantity < 1
    ensures AfterUpdate(items, id, quantity) == AfterRemove(items, id)
  {
  }

  /** A quantity of at least 1 overwrites only the line with that id. */
  lemma UpdatePresent(items: seq<CartItem>, id: string, quantity: int, k: nat)
    requires UniqueIds(items) && k < |items| && items[k].id == id && quantity >= 1
    ensures AfterUpdate(items, id, quantity) == items[k := items[k].(quantity := quantity)]
  {
    var r := AfterUpdate(items, id, quantity);
    forall j | 0 <= j < |items| ensures r[j] == items[k := items[k].(quantity := quantity)][j] {
      if j != k { assert items[j].id != id; }
    }
  }

  /** Updating an id the cart does not hold never inserts a line. */
  lemma UpdateAbsent(items: seq<CartItem>, id: string, quantity: int)
    requires NoLineWithId(items, id)
    ensures AfterUpdate(items, id, quantity) == items
  {
    if quantity < 1 {
      RemoveAbsent(items, id);
    } else {
      assert forall j :: 0 <= j < |items| ==> AfterUpdate(items, id, quantity)[j] == items[j];
    }
  }

  /** `updateQuantity` keeps ids pairwise distinct, whatever quantity it is given. */
  lemma UpdateKeepsIdsUnique(items: seq<CartItem>, id: string, quantity: int)
    requires UniqueIds(items)
    ensures UniqueIds(AfterUpdate(items, id, quantity))
  {
    if quantity < 1 {
      RemoveKeepsIdsUnique(items, id);
    } else {
      var r := AfterUpdate(items, id, quantity);
      assert forall i :: 0 <= i < |items| ==> r[i].id == items[i].id;
    }
  }

  /** `updateQuantity` keeps every quantity at least 1, whatever quantity it is
      given and even when ids repeat: below 1 the lines go, otherwise they get it. */
  lemma UpdateKeepsQuantitiesPositive(items: seq<CartItem>, id: string, quantity: int)
    requires PositiveQuantities(items)
    ensures PositiveQuantities(AfterUpdate(items, id, quantity))
  {
    if quantity < 1 {
      RemoveKeepsQuantitiesPositive(items, id);
    }
  }

  /** With unique ids, changing the quantity of the line at `k` moves the item
      count by the difference, and a quantity below 1 takes the whole line out. */
  lemma UpdateItemCount(items: seq<CartItem>, id: string, quantity: int, k: nat)
    requires UniqueIds(items) && k < |items| && items[k].id == id
    ensures ItemCount(AfterUpdate(items, id, quantity))
            == ItemCount(items) - items[k].quantity + (if quantity < 1 then 0 else quantity)
  {
    if quantity < 1 {
      RemoveTotals(items, id, k);
    } else {
      UpdatePresent(items, id, quantity, k);
      TotalsAfterLineChange(items, k, items[k].(quantity := quantity));
    }
  }

  /** The minus button of the cart screen sends `quantity - 1`; at quantity 1
      this deletes the line. */
  lemma MinusAtOneDeletesLine(items: seq<CartItem>, k: nat)
    requires UniqueIds(items) && k < |items| && items[k].quantity == 1
    ensures AfterUpdate(items, items[k].id, items[k].quantity - 1) == items[..k] + items[k + 1..]
  {
    RemovePresent(items, items[k].id, k);
  }

  /** The effect of `addToCart(info, qs[0]); addToCart(info, qs[1]); ...`. */
  function AddEach(items: seq<CartItem>, info: ItemInfo, qs: seq<int>): seq<CartItem> {
    if qs == [] then items
    else AfterAdd(AddEach(items, info, qs[..|qs| - 1]), info, qs[|qs| - 1]).items
  }

  function Sum(qs: seq<int>): int {
    if qs == [] then 0 else Sum(qs[..|qs| - 1]) + qs[|qs| - 1]
  }

  /** Repeated adds of an id the cart does not hold end in one line, at the
      end, whose quantity is the sum of the quantities added. */
  lemma {:induction false} AddRepeatedly(items: seq<CartItem>, info: ItemInfo, qs: seq<int>)
    requires UniqueIds(items) && NoLineWithId(items, info.id) && qs != []
    ensures AddEach(items, info, qs) == items + [LineFor(info, Sum(qs))]
  {
    var n := |qs|;
    if n == 1 {
      assert qs[..0] == [];
      AddNewLine(items, info, qs[0]);
    } else {
      var before := AddEach(items, info, qs[..n - 1]);
      AddRepeatedly(items, info, qs[..n - 1]);
      assert before == items + [LineFor(info, Sum(qs[..n - 1]))];
      assert UniqueIds(before);
      AddToExistingLine(before, info, qs[n - 1], |items|);
    }
  }

  /** Adding product 5 (29.99) once and then twice gives one line of 3, 89.97. */
  lemma AddSameProductTwice()
    ensures var info := ItemInfo("5", "Magnetic Iron PLA Composite", 29.99, "iron.jpg");
            var r := AddEach([], info, [1, 2]);
            |r| == 1 && r[0].quantity == 3 && Subtotal(r) == 89.97
  {
    var info := ItemInfo("5", "Magnetic Iron PLA Composite", 29.99, "iron.jpg");
    AddRepeatedly([], info, [1, 2]);
    assert [1, 2][..1] == [1];
    assert [1, 2][..1][..0] == [];
  }

  /** Adding products 1 and 2 and removing product 1 leaves one unit of product 2. */
  lemma AddTwoRemoveFirst(one: ItemInfo, two: ItemInfo)
    requires one.id != two.id
    ensures var r := AfterRemove(AfterAdd(AfterAdd([], one, 1).items, two, 1).items, one.id);
            r == [LineFor(two, 1)] && ItemCount(r) == 1
  {
    var after := AfterAdd(AfterAdd([], one, 1).items, two, 1).items;
    AddNewLine([], one, 1);
    AddNewLine([LineFor(one, 1)], two, 1);
    assert after == [LineFor(one, 1), LineFor(two, 1)];
    RemovePresent(after, one.id, 0);
    assert [LineFor(two, 1)][..0] == [];
  }

  // ---------------------------------------------------------------------
  // The provider

  /** What the initial read of device storage produced. */
  datatype LoadOutcome = Stored(items: seq<CartItem>) | NothingStored | ReadFailed

  function ResolveQuantity(quantity: Option<int>): int {
    match quantity
    case Some(q) => q
    case None => DEFAULT_QUANTITY
  }

  /** The state the cart provider holds: the line items, whether the initial
      load is still pending, and every list it has handed to `saveCart`, in order. */
  class CartStore {
    var items: seq<CartItem>
    var isLoading: bool
    var saves: seq<seq<CartItem>>

    /** Nothing is saved before the load completes; afterwards the last save
        is the current list. */
    ghost predicate Valid()
      reads this
    {
      && (isLoading ==> saves == [])
      && (!isLoading ==> saves != [] && saves[|saves| - 1] == items)
    }

    constructor ()
      ensures Valid()
      ensures items == [] && isLoading && saves == []
    {
      items := [];
      isLoading := true;
      saves := [];
    }

    /** The save effect, run whenever `items` or `isLoading` changes. */
    method SaveEffect()
      modifies this`saves
      ensures saves == if isLoading then old(saves) else old(saves) + [items]
    {
      if !isLoading {
        saves := saves + [items];
      }
    }

    /** `loadCart`: take the stored list if there is one; in every case the
        loading flag drops, and that change makes the effect save. */
    method LoadCart(outcome: LoadOutcome)
      requires Valid() && isLoading
      modifies this
      ensures Valid() && !isLoading
      ensures items == if outcome.Stored? then outcome.items else old(items)
      ensures saves == [items]
    {
      if outcome.Stored? {
        items := outcome.items;
      }
      isLoading := false;
      SaveEffect();
    }

    method AddToCart(info: ItemInfo, quantity: Option<int>) returns (notice: Notice)
      requires Valid()
      modifies this
      ensures Valid() && isLoading == old(isLoading)
      ensures AfterAdd(old(items), info, ResolveQuantity(quantity)) == AddResult(items, notice)
      ensures saves == if isLoading then old(saves) else old(saves) + [items]
      ensures old(UniqueIds(items)) ==> UniqueIds(items)
      ensures old(PositiveQuantities(items)) && ResolveQuantity(quantity) >= 1 ==> PositiveQuantities(items)
    {
      var q := ResolveQuantity(quantity);
      if UniqueIds(items) { AddKeepsIdsUnique(items, info, q); }
      if PositiveQuantities(items) && q >= 1 { AddKeepsQuantitiesPositive(items, info, q); }
      var r := AfterAdd(items, info, q);
      items, notice := r.items, r.notice;
      SaveEffect();
    }

    method RemoveFromCart(id: string)
      requires Valid()
      modifies this
      ensures Valid() && isLoading == old(isLoading)
      ensures items == AfterRemove(old(items), id)
      ensures saves == if isLoading then old(saves) else old(saves) + [items]
      ensures old(UniqueIds(items)) ==> UniqueIds(items)
      ensures old(PositiveQuantities(items)) ==> PositiveQuantities(items)
    {
      if UniqueIds(items) { RemoveKeepsIdsUnique(items, id); }
      if PositiveQuantities(items) { RemoveKeepsQuantitiesPositive(items, id); }
      items := AfterRemove(items, id);
      SaveEffect();
    }

    method UpdateQuantity(id: string, quantity: int)
      requires Valid()
      modifies this
      ensures Valid() && isLoading == old(isLoading)
      ensures items == AfterUpdate(old(items), id, quantity)
      ensures saves == if isLoading then old(saves) else old(saves) + [items]
      ensures old(UniqueIds(items)) ==> UniqueIds(items)
      ensures old(PositiveQuantities(items)) ==> PositiveQuantities(items)
    {
      if quantity < 1 {
        RemoveFromCart(id);
        return;
      }
      if UniqueIds(items) { UpdateKeepsIdsUnique(items, id, quantity); }
      if PositiveQuantities(items) { UpdateKeepsQuantitiesPositive(items, id, quantity); }
      items := MapWhereId(items, id, SetTo(quantity));
      SaveEffect();
    }

    method ClearCart()
      requires Valid()
      modifies this
      ensures Valid() && isLoading == old(isLoading)
      ensures items == [] && ItemCount(items) == 0 && Subtotal(items) == 0.0
      ensures saves == if isLoading then old(saves) else old(saves) + [[]]
    {
      items := [];
      SaveEffect();
    }

    /** Relaunching the app: a fresh provider whose load finds the last saved
        list ends up with the same line items. */
    static method Relaunch(previous: CartStore) returns (next: CartStore)
      requires previous.Valid() && !previous.isLoading
      ensures fresh(next) && next.Valid() && !next.isLoading
      ensures next.items == previous.items
    {
      next := new CartStore();
      next.LoadCart(Stored(previous.saves[|previous.saves| - 1]));
    }

    /** `getItemCount`; it is at least the number of lines when every quantity is at least 1. */
    function GetItemCount(): (n: int)
      reads this
      ensures PositiveQuantities(items) ==> n >= |items|
    {
      if PositiveQuantities(items) then ItemCountAtLeastLines(items); ItemCount(items)
      else ItemCount(items)
    }

    /** `getSubtotal`; it is never negative when no price or quantity is. */
    function GetSubtotal(): (s: real)
      reads this
      ensures (forall k :: 0 <= k < |items| ==> items[k].price >= 0.0 && items[k].quantity >= 0) ==> s >= 0.0
    {
      if forall k :: 0 <= k < |items| ==> items[k].price >= 0.0 && items[k].quantity >= 0 then
        SubtotalNonNegative(items); Subtotal(items)
      else Subtotal(items)
    }
  }
}
