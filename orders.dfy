/**
 * The order aggregate: the status enumeration, order lines (`OrderItem`), orders and the
 * process-wide counter their identifiers come from. Lines and orders are objects, shared
 * by reference between the table list, the edit window and the menu window.
 */
module Orders {
  import opened Wrappers
  import opened Lists
  import opened NetText
  import opened Schedule
  import opened MenuItems

  datatype OrderStatus = AwaitingConfirmation | Confirmed | NotConfirmed | Preparing | Ready | Completed

  /** Every value of the status enumeration, in declaration order: the choices the status dialog offers. */
  const AllStatuses: seq<OrderStatus> :=
    [AwaitingConfirmation, Confirmed, NotConfirmed, Preparing, Ready, Completed]

  /** The dialog offers every status, each once, so no status is unreachable from any other. */
  lemma AllStatusesOffered(s: OrderStatus)
    ensures s in AllStatuses
    ensures forall i, j :: 0 <= i < j < |AllStatuses| ==> AllStatuses[i] != AllStatuses[j]
  {
  }

  // ----- the contents of a line, as a value -----

  /** What an order line holds at one moment: the menu item it refers to, the quantity and the notes. */
  datatype LineValue = LineValue(item: MenuItem, quantity: int, notes: string)

  /**
   * `OrderItem.TotalPrice`: the item's price times the quantity, so one portion costs the
   * item's price and no portions cost nothing.
   */
  function LineTotal(v: LineValue): (t: int)
    ensures v.quantity == 1 ==> t == v.item.price
    ensures v.quantity == 0 ==> t == 0
  {
    v.item.price * v.quantity
  }

  function Quantity(v: LineValue): int
  {
    v.quantity
  }

  /** The sum of `f` over the lines. */
  function SumBy(vs: seq<LineValue>, f: LineValue -> int): int
  {
    if vs == [] then 0 else f(vs[0]) + SumBy(vs[1..], f)
  }

  /** No negative term makes a sum negative, and terms of at least one make it at least the count. */
  lemma {:induction false} SumByBounds(vs: seq<LineValue>, f: LineValue -> int)
    ensures (forall i :: 0 <= i < |vs| ==> f(vs[i]) >= 0) ==> SumBy(vs, f) >= 0
    ensures (forall i :: 0 <= i < |vs| ==> f(vs[i]) >= 1) ==> SumBy(vs, f) >= |vs|
  {
    if vs != [] {
      SumByBounds(vs[1..], f);
      assert forall i :: 0 <= i < |vs| - 1 ==> vs[1..][i] == vs[i + 1];
    }
  }

  /**
   * The order's total cost: the sum of its line totals; nothing for no lines, the line's
   * own total for one, and never negative when no line total is.
   */
  function Total(vs: seq<LineValue>): (t: int)
    ensures vs == [] ==> t == 0
    ensures |vs| == 1 ==> t == LineTotal(vs[0])
    ensures (forall i :: 0 <= i < |vs| ==> LineTotal(vs[i]) >= 0) ==> t >= 0
  {
    assert |vs| == 1 ==> vs[1..] == [];
    SumByBounds(vs, LineTotal);
    SumBy(vs, LineTotal)
  }

  /** The number of portions in an order: the sum of its quantities, at least one per line when every quantity is positive. */
  function ItemCount(vs: seq<LineValue>): (c: int)
    ensures vs == [] ==> c == 0
    ensures QuantitiesPositive(vs) ==> c >= |vs|
  {
    SumByBounds(vs, Quantity);
    SumBy(vs, Quantity)
  }

  lemma {:induction false} SumByAppend(a: seq<LineValue>, b: seq<LineValue>, f: LineValue -> int)
    ensures SumBy(a + b, f) == SumBy(a, f) + SumBy(b, f)
  {
    if a == [] {
      assert a + b == b;
    } else {
      assert (a + b)[0] == a[0];
      assert (a + b)[1..] == a[1..] + b;
      SumByAppend(a[1..], b, f);
    }
  }

  /** Removing a line takes exactly its share out of a sum. */
  lemma {:induction false} SumByRemoveAt(vs: seq<LineValue>, i: nat, f: LineValue -> int)
    requires i < |vs|
    ensures SumBy(RemoveAt(vs, i), f) == SumBy(vs, f) - f(vs[i])
  {
    if i == 0 {
      assert RemoveAt(vs, 0) == vs[1..];
    } else {
      var r := RemoveAt(vs, i);
      SumByRemoveAt(vs[1..], i - 1, f);
      assert r[0] == vs[0];
      assert r[1..] == RemoveAt(vs[1..], i - 1);
    }
  }

  /** Replacing a line changes a sum by the difference between the new and the old line. */
  lemma {:induction false} SumByUpdate(vs: seq<LineValue>, i: nat, v: LineValue, f: LineValue -> int)
    requires i < |vs|
    ensures SumBy(vs[i := v], f) == SumBy(vs, f) - f(vs[i]) + f(v)
  {
    if i == 0 {
      assert vs[0 := v][1..] == vs[1..];
    } else {
      SumByUpdate(vs[1..], i - 1, v, f);
      assert vs[i := v][1..] == vs[1..][i - 1 := v];
    }
  }

  /** Raising one line's quantity by one adds one portion and that item's price. */
  lemma BumpLineSums(vs: seq<LineValue>, i: nat)
    requires i < |vs|
    ensures var bumped := vs[i := vs[i].(quantity := vs[i].quantity + 1)];
      ItemCount(bumped) == ItemCount(vs) + 1 && Total(bumped) == Total(vs) + vs[i].item.price
  {
    var v := vs[i].(quantity := vs[i].quantity + 1);
    SumByUpdate(vs, i, v, Quantity);
    SumByUpdate(vs, i, v, LineTotal);
    assert LineTotal(v) == LineTotal(vs[i]) + vs[i].item.price;
  }

  predicate QuantitiesPositive(vs: seq<LineValue>)
  {
    forall i :: 0 <= i < |vs| ==> vs[i].quantity >= 1
  }

  // ----- the quantity rules both windows apply -----

  /**
   * The quantity a line keeps after its quantity box loses focus: the typed number when it
   * parses as an integer above zero, and otherwise the old quantity (never a clamped value).
   */
  function CommittedQuantity(current: int, text: string): (q: int)
    ensures q == current || (q > 0 && TryParseInt(text) == Some(q))
    ensures TryParseInt(text).Some? && TryParseInt(text).value > 0 ==> q == TryParseInt(text).value
    ensures (TryParseInt(text).Some? && TryParseInt(text).value > 0) || q == current
  {
    match TryParseInt(text)
    case Some(n) => if n > 0 then n else current
    case None => current
  }

  /** Leaving the box with the text it shows keeps the quantity. */
  lemma CommitShownQuantity(q: int)
    requires 1 <= q <= Int32Max
    ensures CommittedQuantity(q, NatToString(q)) == q
  {
    ParseShownInt(q);
  }

  /** The quantity box's input filter: a typed fragment goes in only when every character is a digit. */
  function AcceptsQuantityInput(input: string): (ok: bool)
    ensures ok <==> forall i :: 0 <= i < |input| ==> IsDigit(input[i])
  {
    AllDigits(input)
  }

  /** Typing accepted fragments into a box of digits leaves a box of digits. */
  lemma TypingKeepsDigits(text: string, caret: nat, input: string)
    requires caret <= |text| && AllDigits(text) && AcceptsQuantityInput(input)
    ensures AllDigits(Insert(text, caret, input))
  {
    var r := Insert(text, caret, input);
    forall i | 0 <= i < |r| ensures IsDigit(r[i]) {
      if i < caret {
        assert r[i] == text[i];
      } else if i < caret + |input| {
        assert r[i] == input[i - caret];
      } else {
        assert r[i] == text[i - |input|];
      }
    }
  }

  /**
   * A box of digits is committed when its number is in range and above zero; an empty box,
   * one holding only zeros and one whose number does not fit in 32 bits keep the old quantity.
   */
  lemma CommitTypedDigits(current: int, text: string)
    requires AllDigits(text)
    ensures text != [] && 0 < DigitsValue(text) <= Int32Max ==>
      CommittedQuantity(current, text) == DigitsValue(text)
    ensures text == [] || DigitsValue(text) == 0 || DigitsValue(text) > Int32Max ==>
      CommittedQuantity(current, text) == current
  {
    if text != [] {
      ParseDigits(text);
    }
  }

  /** What the minus button does to a line. */
  datatype MinusOutcome = Decrement | RemoveLine | KeepLine

  /**
   * The minus button's rule: above one it decrements; at one it removes the line only
   * when the user confirms; otherwise it leaves the line alone.
   */
  function MinusStep(quantity: int, confirmed: bool): (o: MinusOutcome)
    ensures o == Decrement <==> quantity > 1
    ensures o == RemoveLine <==> quantity == 1 && confirmed
  {
    if quantity > 1 then Decrement
    else if quantity == 1 && confirmed then RemoveLine
    else KeepLine
  }

  /** The minus button never takes a positive quantity below one. */
  lemma MinusKeepsPositive(quantity: int, confirmed: bool)
    requires quantity >= 1
    ensures MinusStep(quantity, confirmed) == Decrement ==> quantity - 1 >= 1
    ensures MinusStep(quantity, confirmed) == KeepLine ==> quantity == 1 && !confirmed
  {
  }

  // ----- lines and orders as objects -----

  /** An order line (`OrderItem`): a reference to a menu item, a quantity and free-text notes. */
  class OrderItem {
    var item: MenuItem
    var quantity: int
    var notes: string

    constructor (item: MenuItem, quantity: int, notes: string := "")
      ensures this.item == item && this.quantity == quantity && this.notes == notes
    {
      this.item := item;
      this.quantity := quantity;
      this.notes := notes;
    }

    function Value(): LineValue
      reads this
    {
      LineValue(item, quantity, notes)
    }

    /** `TotalPrice`: the line's contents priced as `LineTotal`. */
    function TotalPrice(): (t: int)
      reads this
      ensures t == LineTotal(Value())
      ensures quantity == 1 ==> t == item.price
      ensures quantity == 0 ==> t == 0
    {
      LineTotal(Value())
    }
  }

  /** The contents of a list of lines, position by position. */
  function Lines(items: seq<OrderItem>): (vs: seq<LineValue>)
    reads items
    ensures |vs| == |items|
    ensures forall i :: 0 <= i < |items| ==> vs[i] == items[i].Value()
  {
    if items == [] then [] else [items[0].Value()] + Lines(items[1..])
  }

  lemma LinesAppend(a: seq<OrderItem>, b: seq<OrderItem>)
    ensures Lines(a + b) == Lines(a) + Lines(b)
  {
    var l, r := Lines(a + b), Lines(a) + Lines(b);
    forall i | 0 <= i < |l|
      ensures l[i] == r[i]
    {
      if i < |a| {
        assert (a + b)[i] == a[i];
      } else {
        assert (a + b)[i] == b[i - |a|];
      }
    }
  }

  /** Lines none of whose fields changed keep their contents. */
  twostate lemma LinesUnchanged(items: seq<OrderItem>)
    requires forall i :: 0 <= i < |items| ==> unchanged(items[i])
    ensures Lines(items) == old(Lines(items))
  {
  }

  /** Lists whose lines hold the same contents, position by position, have the same contents. */
  lemma LinesPointwise(a: seq<OrderItem>, b: seq<OrderItem>)
    requires |a| == |b|
    requires forall j :: 0 <= j < |a| ==> a[j].Value() == b[j].Value()
    ensures Lines(a) == Lines(b)
  {
  }

  /** Removing the line at a position removes its contents at that position. */
  lemma LinesRemoveAt(items: seq<OrderItem>, k: nat)
    requires k < |items|
    ensures Lines(RemoveAt(items, k)) == RemoveAt(Lines(items), k)
  {
    var l, r := Lines(RemoveAt(items, k)), RemoveAt(Lines(items), k);
    forall j | 0 <= j < |l|
      ensures l[j] == r[j]
    {
      if j < k {
        assert RemoveAt(items, k)[j] == items[j];
      } else {
        assert RemoveAt(items, k)[j] == items[j + 1];
      }
    }
  }

  /** Removing a line object removes its contents at the same position. */
  lemma LinesRemoveFirst(items: seq<OrderItem>, x: OrderItem)
    requires x in items
    ensures Lines(RemoveFirst(items, x)) == RemoveAt(Lines(items), IndexOf(items, x))
  {
    RemoveFirstIsRemoveAt(items, x, IndexOf(items, x));
    LinesRemoveAt(items, IndexOf(items, x));
  }

  /**
   * The counter behind `Order`'s static `_nextOrderId`: it starts at 1 and each order
   * construction takes its current value. `issued` records the values taken so far.
   */
  class IdCounter {
    var next: int
    ghost var issued: seq<int>

    /** The values handed out are strictly increasing and all below the next one. */
    ghost predicate Valid()
      reads this
    {
      && (forall i, j :: 0 <= i < j < |issued| ==> issued[i] < issued[j])
      && (forall i :: 0 <= i < |issued| ==> issued[i] < next)
    }

    constructor ()
      ensures Valid() && next == 1 && issued == []
    {
      next := 1;
      issued := [];
    }
  }

  /** An order: identifier, table, status, scheduled date-time, lines, and the cached total cost. */
  class Order {
    var orderId: int
    var tableNumber: int
    var status: OrderStatus
    var items: seq<OrderItem>
    var totalCost: int
    var orderDateTime: DateTime

    /**
     * `new Order(tableNumber)`: takes the next identifier, starts awaiting confirmation
     * with no lines and a zero total. `now` is the date-time the order is scheduled for
     * at creation.
     */
    constructor (counter: IdCounter, tableNumber: int, now: DateTime)
      requires counter.Valid()
      modifies counter
      ensures counter.Valid()
      ensures orderId == old(counter.next) && counter.next == old(counter.next) + 1
      ensures counter.issued == old(counter.issued) + [orderId]
      ensures this.tableNumber == tableNumber && status == AwaitingConfirmation
      ensures items == [] && totalCost == 0 && orderDateTime == now
    {
      orderId := counter.next;
      this.tableNumber := tableNumber;
      status := AwaitingConfirmation;
      items := [];
      orderDateTime := now;
      new;
      counter.next := counter.next + 1;
      counter.issued := counter.issued + [orderId];
      CalculateTotalCost();
    }

    /** The cached total equals the sum of the line totals. */
    predicate TotalIsCurrent()
      reads this, items
    {
      totalCost == Total(Lines(items))
    }

    /** `CalculateTotalCost()`: recomputes the cached total from the lines. */
    method CalculateTotalCost()
      modifies this`totalCost
      ensures TotalIsCurrent()
    {
      totalCost := Total(Lines(items));
    }

    /** `AddItem(item)`: appends the line, with no check for duplicates, and recomputes the total. */
    method AddItem(x: OrderItem)
      modifies this`items, this`totalCost
      ensures items == old(items) + [x]
      ensures TotalIsCurrent()
      ensures totalCost == Total(Lines(old(items))) + x.TotalPrice()
    {
      items := items + [x];
      CalculateTotalCost();
      LinesAppend(old(items), [x]);
      assert Lines([x]) == [x.Value()];
      SumByAppend(Lines(old(items)), [x.Value()], LineTotal);
    }

    /**
     * `RemoveItem(item)`: removes the first line that is this very object, if any, and
     * recomputes the total.
     */
    method RemoveItem(x: OrderItem)
      modifies this`items, this`totalCost
      ensures items == RemoveFirst(old(items), x)
      ensures TotalIsCurrent()
      ensures x in old(items) ==> totalCost == Total(Lines(old(items))) - x.TotalPrice()
    {
      items := RemoveFirst(items, x);
      CalculateTotalCost();
      if x in old(items) {
        LinesRemoveFirst(old(items), x);
        SumByRemoveAt(Lines(old(items)), IndexOf(old(items), x), LineTotal);
      }
    }
  }
}
