/**
 * The menu window: the dedup-by-name add rule, the add-or-stepper choice and the
 * summary line, and the window's handlers as a class over the order it edits (a scratch
 * order when it picks lines for a new order, the edited order itself otherwise).
 */
module MenuWindow {
  import opened Wrappers
  import opened Lists
  import opened MenuItems
  import opened Orders
  import opened Schedule

  /** The position of the first line whose item has the given name, or none (the add handler's lookup). */
  function FindByName(vs: seq<LineValue>, name: string): (r: Option<nat>)
    ensures r.None? <==> forall i :: 0 <= i < |vs| ==> vs[i].item.name != name
    ensures r.Some? ==> r.value < |vs| && vs[r.value].item.name == name
    ensures r.Some? ==> forall i :: 0 <= i < r.value ==> vs[i].item.name != name
  {
    if vs == [] then None
    else if vs[0].item.name == name then Some(0)
    else match FindByName(vs[1..], name)
      case None => None
      case Some(k) => Some(k + 1)
  }

  /**
   * The add button's rule on the order's contents: a line that already has the item's
   * name gets one more portion; otherwise a line for the item with quantity 1 and empty
   * notes goes at the end.
   */
  function AddByName(vs: seq<LineValue>, item: MenuItem): (r: seq<LineValue>)
    ensures |r| == if FindByName(vs, item.name).Some? then |vs| else |vs| + 1
  {
    match FindByName(vs, item.name)
    case Some(k) => vs[k := vs[k].(quantity := vs[k].quantity + 1)]
    case None => vs + [LineValue(item, 1, "")]
  }

  /** The add rule changes no line's item or notes, and leaves the lines of other names as they were. */
  lemma AddByNameKeepsOthers(vs: seq<LineValue>, item: MenuItem)
    ensures var r := AddByName(vs, item);
      forall i :: 0 <= i < |vs| ==> r[i].item == vs[i].item && r[i].notes == vs[i].notes
    ensures var r := AddByName(vs, item);
      forall i :: 0 <= i < |vs| && vs[i].item.name != item.name ==> r[i] == vs[i]
  {
  }

  /** At most one line per item name. */
  predicate DistinctNames(vs: seq<LineValue>)
  {
    forall i, j :: 0 <= i < j < |vs| ==> vs[i].item.name != vs[j].item.name
  }

  /** A name that is already ordered bumps its first line and adds no line. */
  lemma AddExistingName(vs: seq<LineValue>, item: MenuItem, k: nat)
    requires k < |vs| && vs[k].item.name == item.name
    requires forall i :: 0 <= i < k ==> vs[i].item.name != item.name
    ensures AddByName(vs, item) == vs[k := vs[k].(quantity := vs[k].quantity + 1)]
  {
    assert FindByName(vs, item.name) == Some(k);
  }

  /** A name not yet ordered appends one line with quantity 1 and empty notes. */
  lemma AddNewName(vs: seq<LineValue>, item: MenuItem)
    requires forall i :: 0 <= i < |vs| ==> vs[i].item.name != item.name
    ensures AddByName(vs, item) == vs + [LineValue(item, 1, "")]
  {
  }

  /** Adding keeps "at most one line per item name". */
  lemma AddByNameKeepsDistinct(vs: seq<LineValue>, item: MenuItem)
    requires DistinctNames(vs)
    ensures DistinctNames(AddByName(vs, item))
  {
  }

  /** Any sequence of adds from lines with distinct names keeps them distinct. */
  lemma {:induction false} AddAllKeepsDistinct(vs: seq<LineValue>, adds: seq<MenuItem>)
    requires DistinctNames(vs)
    ensures DistinctNames(AddAll(vs, adds))
    decreases |adds|
  {
    if adds != [] {
      AddByNameKeepsDistinct(vs, adds[0]);
      AddAllKeepsDistinct(AddByName(vs, adds[0]), adds[1..]);
    }
  }

  /** Pressing the add button for each item in turn. */
  function AddAll(vs: seq<LineValue>, adds: seq<MenuItem>): seq<LineValue>
    decreases |adds|
  {
    if adds == [] then vs else AddAll(AddByName(vs, adds[0]), adds[1..])
  }

  /** Adding keeps every quantity at one or more. */
  lemma AddByNameKeepsPositive(vs: seq<LineValue>, item: MenuItem)
    requires QuantitiesPositive(vs)
    ensures QuantitiesPositive(AddByName(vs, item))
  {
  }

  /** After an add, the item is ordered, so its row shows the stepper rather than the add button. */
  lemma AddedItemShowsStepper(vs: seq<LineValue>, item: MenuItem)
    ensures !ShowsAddButton(AddByName(vs, item), item)
  {
    match FindByName(vs, item.name)
    case Some(k) =>
      assert AddByName(vs, item)[k].item.name == item.name;
    case None =>
      assert AddByName(vs, item)[|vs|].item.name == item.name;
  }

  /**
   * One add raises the summary's item count by one and its cost by the price of the item
   * on the bumped line (the new item's price when a line is appended).
   */
  lemma AddByNameSummary(vs: seq<LineValue>, item: MenuItem)
    ensures ItemCount(AddByName(vs, item)) == ItemCount(vs) + 1
    ensures FindByName(vs, item.name).None? ==> Total(AddByName(vs, item)) == Total(vs) + item.price
    ensures FindByName(vs, item.name).Some? ==>
      Total(AddByName(vs, item)) == Total(vs) + vs[FindByName(vs, item.name).value].item.price
  {
    match FindByName(vs, item.name)
    case Some(k) =>
      BumpLineSums(vs, k);
    case None =>
      var v := LineValue(item, 1, "");
      SumByAppend(vs, [v], Quantity);
      SumByAppend(vs, [v], LineTotal);
  }

  /** The row for a menu item offers "add" exactly when no line of the order has its name. */
  function ShowsAddButton(vs: seq<LineValue>, item: MenuItem): (r: bool)
    ensures r <==> forall i :: 0 <= i < |vs| ==> vs[i].item.name != item.name
  {
    FindByName(vs, item.name).None?
  }

  /** The summary line: how many portions the order holds and what they cost. */
  datatype Summary = Summary(totalItems: int, totalCost: int)

  /**
   * `UpdateOrderSummary`: the portions and their cost; an empty order shows nothing, and
   * every line counts at least one portion.
   */
  function OrderSummary(vs: seq<LineValue>): (s: Summary)
    ensures vs == [] ==> s == Summary(0, 0)
    ensures QuantitiesPositive(vs) ==> s.totalItems >= |vs|
  {
    Summary(ItemCount(vs), Total(vs))
  }

  /** The summary's cost is the order's cached total whenever that total is current. */
  lemma SummaryShowsTotal(o: Orders.Order)
    requires o.TotalIsCurrent()
    ensures OrderSummary(Lines(o.items)).totalCost == o.totalCost
  {
  }

  /** The summary counts one portion more after the plus button and one fewer after a decrement. */
  lemma StepSummary(vs: seq<LineValue>, k: nat, delta: int)
    requires k < |vs|
    ensures var r := vs[k := vs[k].(quantity := vs[k].quantity + delta)];
      OrderSummary(r).totalItems == OrderSummary(vs).totalItems + delta
      && OrderSummary(r).totalCost == OrderSummary(vs).totalCost + delta * vs[k].item.price
  {
    var v := vs[k].(quantity := vs[k].quantity + delta);
    SumByUpdate(vs, k, v, Quantity);
    SumByUpdate(vs, k, v, LineTotal);
    assert LineTotal(v) == LineTotal(vs[k]) + delta * vs[k].item.price;
  }

  /** The menu window's state and handlers. */
  class MenuSession {
    /** The order the window edits: a scratch `Order(0)` in new-order mode. */
    const currentOrder: Orders.Order
    const isNewOrderMode: bool
    var selectedOrderItems: seq<OrderItem>
    var dialogResult: Option<bool>

    /** `new MenuWindow()`: picks lines for a new order into a scratch order for table 0. */
    constructor NewOrder(counter: IdCounter, now: DateTime)
      requires counter.Valid()
      modifies counter
      ensures fresh(currentOrder) && isNewOrderMode
      ensures currentOrder.tableNumber == 0 && currentOrder.items == [] && currentOrder.totalCost == 0
      ensures currentOrder.orderId == old(counter.next)
      ensures counter.Valid() && counter.next == old(counter.next) + 1
      ensures counter.issued == old(counter.issued) + [currentOrder.orderId]
      ensures selectedOrderItems == [] && dialogResult == None
    {
      currentOrder := new Orders.Order(counter, 0, now);
      isNewOrderMode := true;
      selectedOrderItems := [];
      dialogResult := None;
    }

    /**
     * `new MenuWindow(existingOrder, parent)`: chains to the parameterless constructor, so
     * it still builds a scratch order and consumes an identifier, then edits
     * `existingOrder` directly.
     */
    constructor ForExistingOrder(existingOrder: Orders.Order, counter: IdCounter, now: DateTime)
      requires counter.Valid()
      modifies counter
      ensures currentOrder == existingOrder && !isNewOrderMode
      ensures counter.Valid() && counter.next == old(counter.next) + 1
      ensures selectedOrderItems == [] && dialogResult == None
    {
      var scratch := new Orders.Order(counter, 0, now);
      currentOrder := existingOrder;
      isNewOrderMode := false;
      selectedOrderItems := [];
      dialogResult := None;
    }

    /**
     * The parent edit window's `DisplayOrderItems`, which recomputes the order's total;
     * a new-order window has no parent.
     */
    method RefreshParent()
      modifies currentOrder`totalCost
      ensures Lines(currentOrder.items) == old(Lines(currentOrder.items))
      ensures !isNewOrderMode ==> currentOrder.TotalIsCurrent()
      ensures isNewOrderMode ==> currentOrder.totalCost == old(currentOrder.totalCost)
    {
      if !isNewOrderMode {
        currentOrder.CalculateTotalCost();
      }
    }

    /** `AddToOrderButton_Click`: bump the line with the item's name, or append a new line. */
    method AddToOrder(item: MenuItem)
      modifies currentOrder`items, currentOrder`totalCost, currentOrder.items
      ensures FindByName(old(Lines(currentOrder.items)), item.name).Some? ==>
        currentOrder.items == old(currentOrder.items)
      ensures FindByName(old(Lines(currentOrder.items)), item.name).None? ==>
        (|currentOrder.items| == |old(currentOrder.items)| + 1
        && currentOrder.items[..|old(currentOrder.items)|] == old(currentOrder.items)
        && fresh(currentOrder.items[|old(currentOrder.items)|]))
      ensures Distinct(old(currentOrder.items)) ==>
        Lines(currentOrder.items) == AddByName(old(Lines(currentOrder.items)), item)
      ensures !isNewOrderMode ==> currentOrder.TotalIsCurrent()
      ensures isNewOrderMode ==> currentOrder.totalCost == old(currentOrder.totalCost)
    {
      var position := FindByName(Lines(currentOrder.items), item.name);
      if position.Some? {
        BumpNamed(currentOrder.items[position.value], item, position.value);
      } else {
        AppendNamed(item);
      }
      RefreshParent();
    }

    /** One more portion on `line`, the first line with the item's name, at position `k`. */
    method BumpNamed(line: OrderItem, item: MenuItem, ghost k: nat)
      requires k < |currentOrder.items| && currentOrder.items[k] == line
      requires FindByName(Lines(currentOrder.items), item.name) == Some(k)
      modifies line`quantity
      ensures line.quantity == old(line.quantity) + 1
      ensures Distinct(currentOrder.items) ==>
        Lines(currentOrder.items) == AddByName(old(Lines(currentOrder.items)), item)
    {
      ghost var before := Lines(currentOrder.items);
      line.quantity := line.quantity + 1;
      if Distinct(currentOrder.items) {
        assert forall i :: 0 <= i < |currentOrder.items| && i != k ==> currentOrder.items[i] != line;
        assert forall i :: 0 <= i < |currentOrder.items| ==>
          Lines(currentOrder.items)[i] == before[k := before[k].(quantity := before[k].quantity + 1)][i];
      }
    }

    /** A new one-portion line for the item at the end, when no line has its name; the total is not recomputed. */
    method AppendNamed(item: MenuItem)
      requires FindByName(Lines(currentOrder.items), item.name).None?
      modifies currentOrder`items
      ensures |currentOrder.items| == |old(currentOrder.items)| + 1
      ensures currentOrder.items[..|old(currentOrder.items)|] == old(currentOrder.items)
      ensures fresh(currentOrder.items[|old(currentOrder.items)|])
      ensures Lines(currentOrder.items) == AddByName(old(Lines(currentOrder.items)), item)
    {
      var line := new OrderItem(item, 1);
      currentOrder.items := currentOrder.items + [line];
      LinesAppend(old(currentOrder.items), [line]);
      assert Lines([line]) == [LineValue(item, 1, "")];
    }

    /** `QuantityPlusButton_Click`: one more portion. */
    method Plus(x: OrderItem)
      modifies x`quantity, currentOrder`totalCost
      ensures x.quantity == old(x.quantity) + 1
      ensures !isNewOrderMode ==> currentOrder.TotalIsCurrent()
      ensures isNewOrderMode ==> currentOrder.totalCost == old(currentOrder.totalCost)
    {
      x.quantity := x.quantity + 1;
      RefreshParent();
    }

    /**
     * `QuantityMinusButton_Click`: above one, one portion fewer; at one, the line goes
     * (through `RemoveItemFromOrder`) only when the user confirms.
     */
    method Minus(x: OrderItem, confirmed: bool) returns (outcome: MinusOutcome)
      modifies x`quantity, currentOrder`items, currentOrder`totalCost
      ensures outcome == MinusStep(old(x.quantity), confirmed)
      ensures outcome == Decrement ==>
        x.quantity == old(x.quantity) - 1 && currentOrder.items == old(currentOrder.items)
      ensures outcome == RemoveLine ==>
        x.quantity == old(x.quantity) && currentOrder.items == RemoveFirst(old(currentOrder.items), x)
      ensures outcome == KeepLine ==>
        x.quantity == old(x.quantity) && currentOrder.items == old(currentOrder.items)
        && currentOrder.totalCost == old(currentOrder.totalCost)
      ensures outcome != KeepLine && !isNewOrderMode ==> currentOrder.TotalIsCurrent()
      ensures isNewOrderMode ==> currentOrder.totalCost == old(currentOrder.totalCost)
    {
      outcome := MinusStep(x.quantity, confirmed);
      match outcome
      case Decrement =>
        x.quantity := x.quantity - 1;
        RefreshParent();
      case RemoveLine =>
        RemoveItemFromOrder(x);
      case KeepLine =>
    }

    /** `QuantityTextBox_LostFocus`: the typed quantity when it is a whole number above zero. */
    method QuantityText(x: OrderItem, text: string)
      modifies x`quantity, currentOrder`totalCost
      ensures x.quantity == CommittedQuantity(old(x.quantity), text)
      ensures !isNewOrderMode ==> currentOrder.TotalIsCurrent()
      ensures isNewOrderMode ==> currentOrder.totalCost == old(currentOrder.totalCost)
    {
      x.quantity := CommittedQuantity(x.quantity, text);
      RefreshParent();
    }

    /**
     * `RemoveItemFromOrder`, also behind the remove button, which asks nothing: drops the
     * first line that is this very object, without recomputing the order's own total.
     */
    method RemoveItemFromOrder(x: OrderItem)
      modifies currentOrder`items, currentOrder`totalCost
      ensures currentOrder.items == RemoveFirst(old(currentOrder.items), x)
      ensures !isNewOrderMode ==> currentOrder.TotalIsCurrent()
      ensures isNewOrderMode ==> currentOrder.totalCost == old(currentOrder.totalCost)
    {
      currentOrder.items := RemoveFirst(currentOrder.items, x);
      RefreshParent();
    }

    /**
     * `ConfirmSelectionButton_Click`: in new-order mode the scratch order's lines, in
     * order, become the selection; the dialog closes with success.
     */
    method Confirm()
      modifies this`selectedOrderItems, this`dialogResult
      ensures isNewOrderMode ==> selectedOrderItems == currentOrder.items
      ensures !isNewOrderMode ==> selectedOrderItems == old(selectedOrderItems)
      ensures dialogResult == Some(true)
    {
      if isNewOrderMode {
        selectedOrderItems := currentOrder.items;
      }
      dialogResult := Some(true);
    }

    /**
     * `CancelButton_Click`: the dialog closes without success and nothing is undone, so
     * edits to an existing order stay.
     */
    method Cancel()
      modifies this`dialogResult
      ensures dialogResult == Some(false)
    {
      dialogResult := Some(false);
    }
  }
}
