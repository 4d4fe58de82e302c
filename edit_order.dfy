/**
 * The edit-order window: a snapshot deep copy taken on opening, line editing on the
 * order itself with the total recomputed after each change, the date and time boxes,
 * save (guarded by the order's date-time check) and cancel (rollback to the snapshot).
 */
module EditOrder {
  import opened Wrappers
  import opened Lists
  import opened Orders
  import opened Schedule
  import opened MenuWindow

  /**
   * The line-copying loop of the deep copy: a new line object for each source line, with
   * its item, quantity and notes, gathered in the same order.
   */
  method CopyLines(source: seq<OrderItem>) returns (copies: seq<OrderItem>)
    ensures Lines(copies) == Lines(source)
    ensures forall i :: 0 <= i < |copies| ==> fresh(copies[i])
  {
    copies := [];
    var i := 0;
    while i < |source|
      invariant 0 <= i <= |source| && |copies| == i
      invariant forall j :: 0 <= j < i ==> fresh(copies[j]) && copies[j].Value() == source[j].Value()
    {
      var line := new OrderItem(source[i].item, source[i].quantity, source[i].notes);
      copies := copies + [line];
      i := i + 1;
    }
    LinesPointwise(copies, source);
  }

  /**
   * `DeepCopyOrder`: a new order (which takes an identifier from the counter) given the
   * original's identifier, table and status, and copies of its lines; the total is
   * recomputed. The copy's date-time is not taken from the original.
   */
  method DeepCopyOrder(original: Order, counter: IdCounter, now: DateTime) returns (copy: Order)
    requires counter.Valid()
    modifies counter
    ensures fresh(copy)
    ensures copy.orderId == original.orderId && copy.tableNumber == original.tableNumber
    ensures copy.status == original.status
    ensures Lines(copy.items) == Lines(original.items)
    ensures forall i :: 0 <= i < |copy.items| ==> fresh(copy.items[i])
    ensures copy.TotalIsCurrent()
    ensures counter.Valid() && counter.next == old(counter.next) + 1
  {
    copy := CopyHeader(original, counter, now);
    var copies := CopyLines(original.items);
    label Copied:
    SetLines(copy, copies);
    LinesUnchanged@Copied(copies);
    LinesUnchanged@Copied(original.items);
  }

  /** The last part of `DeepCopyOrder`: the copies become the new order's lines and its total is recomputed. */
  method SetLines(copy: Order, copies: seq<OrderItem>)
    modifies copy`items, copy`totalCost
    ensures copy.items == copies && copy.TotalIsCurrent()
  {
    copy.items := copies;
    copy.CalculateTotalCost();
  }

  /** The first part of `DeepCopyOrder`: a new order with the original's identifier, table and status, and no lines. */
  method CopyHeader(original: Order, counter: IdCounter, now: DateTime) returns (copy: Order)
    requires counter.Valid()
    modifies counter
    ensures fresh(copy)
    ensures copy.orderId == original.orderId && copy.tableNumber == original.tableNumber
    ensures copy.status == original.status && copy.items == [] && copy.totalCost == 0
    ensures counter.Valid() && counter.next == old(counter.next) + 1
  {
    copy := new Order(counter, original.tableNumber, now);
    copy.orderId := original.orderId;
    copy.status := original.status;
  }

  /** The edit window's snapshot of the order it opens with: a deep copy that shares no line with the order. */
  method TakeSnapshot(orderToEdit: Order, counter: IdCounter, now: DateTime) returns (copy: Order)
    requires counter.Valid()
    modifies counter
    ensures fresh(copy)
    ensures Lines(copy.items) == Lines(orderToEdit.items) && copy.status == orderToEdit.status
    ensures forall i :: 0 <= i < |copy.items| ==> copy.items[i] !in orderToEdit.items
    ensures counter.Valid() && counter.next == old(counter.next) + 1
  {
    copy := DeepCopyOrder(orderToEdit, counter, now);
  }

  /** The edit window's state and handlers. */
  class EditSession {
    /** The order being edited, changed in place. */
    const current: Order
    /** `_originalOrderCopy`. */
    const snapshot: Order
    var dialogResult: Option<bool>
    /** The order's lines and status when the window opened. */
    ghost const original: seq<LineValue>
    ghost const originalStatus: OrderStatus

    /** The snapshot still holds the opening contents and shares no line with the edited order. */
    ghost predicate Valid()
      reads current, current.items, snapshot, snapshot.items
    {
      && current != snapshot
      && Lines(snapshot.items) == original
      && snapshot.status == originalStatus
      && (forall i :: 0 <= i < |snapshot.items| ==> snapshot.items[i] !in current.items)
    }

    /** `new EditOrderWindow(orderToEdit)`: takes the snapshot, then shows the lines and total. */
    constructor (orderToEdit: Order, counter: IdCounter, now: DateTime)
      requires counter.Valid()
      modifies counter, orderToEdit`totalCost
      ensures Valid()
      ensures current == orderToEdit && fresh(snapshot) && dialogResult == None
      ensures original == Lines(orderToEdit.items) && originalStatus == orderToEdit.status
      ensures current.TotalIsCurrent()
      ensures counter.Valid() && counter.next == old(counter.next) + 1
    {
      current := orderToEdit;
      var copy := TakeSnapshot(orderToEdit, counter, now);
      ghost var lines := Lines(orderToEdit.items);
      label Copied:
      snapshot := copy;
      originalStatus := orderToEdit.status;
      dialogResult := None;
      original := lines;
      new;
      LinesUnchanged@Copied(current.items);
      UpdateTotalCost();
    }

    /** `UpdateTotalCost`, which `DisplayOrderItems` ends with. */
    method UpdateTotalCost()
      requires Valid()
      modifies current`totalCost
      ensures Valid()
      ensures current.TotalIsCurrent()
      ensures Lines(current.items) == old(Lines(current.items))
    {
      current.CalculateTotalCost();
    }

    /** `QuantityPlusButton_Click`: one more portion, then the total is recomputed. */
    method Plus(x: OrderItem)
      requires Valid() && x in current.items
      modifies x`quantity, current`totalCost
      ensures Valid()
      ensures x.quantity == old(x.quantity) + 1
      ensures current.TotalIsCurrent()
    {
      assert x !in snapshot.items;
      x.quantity := x.quantity + 1;
      UpdateTotalCost();
    }

    /**
     * `QuantityMinusButton_Click`: above one, one portion fewer; at one, the line is
     * removed when the user confirms; the total is recomputed only when something changed.
     */
    method Minus(x: OrderItem, confirmed: bool) returns (outcome: MinusOutcome)
      requires Valid() && x in current.items
      modifies x`quantity, current`items, current`totalCost
      ensures Valid()
      ensures outcome == MinusStep(old(x.quantity), confirmed)
      ensures outcome == Decrement ==>
        x.quantity == old(x.quantity) - 1 && current.items == old(current.items)
      ensures outcome == RemoveLine ==>
        x.quantity == old(x.quantity) && current.items == RemoveFirst(old(current.items), x)
      ensures outcome != KeepLine ==> current.TotalIsCurrent()
      ensures outcome == KeepLine ==>
        x.quantity == old(x.quantity) && current.items == old(current.items)
        && current.totalCost == old(current.totalCost)
    {
      assert x !in snapshot.items;
      outcome := MinusStep(x.quantity, confirmed);
      match outcome
      case Decrement =>
        x.quantity := x.quantity - 1;
        UpdateTotalCost();
      case RemoveLine =>
        RemoveKeepsValid(x);
        UpdateTotalCost();
      case KeepLine =>
    }

    /** `_currentOrder.RemoveItem(x)`: the snapshot is untouched and its lines stay out of the order. */
    method RemoveKeepsValid(x: OrderItem)
      requires Valid()
      modifies current`items, current`totalCost
      ensures Valid()
      ensures current.items == RemoveFirst(old(current.items), x)
      ensures current.TotalIsCurrent()
    {
      current.RemoveItem(x);
      forall i | 0 <= i < |snapshot.items|
        ensures snapshot.items[i] !in current.items
      {
        if snapshot.items[i] in current.items {
          RemoveFirstShrinks(old(current.items), x, snapshot.items[i]);
        }
      }
    }

    /**
     * `QuantityTextBox_LostFocus`: the typed quantity when it is a whole number above zero,
     * the old one otherwise; the total is recomputed either way.
     */
    method QuantityText(x: OrderItem, text: string)
      requires Valid() && x in current.items
      modifies x`quantity, current`totalCost
      ensures Valid()
      ensures x.quantity == CommittedQuantity(old(x.quantity), text)
      ensures current.TotalIsCurrent()
    {
      assert x !in snapshot.items;
      x.quantity := CommittedQuantity(x.quantity, text);
      UpdateTotalCost();
    }

    /** `NotesTextBox_TextChanged`: the line's notes become the box's text; the total is not touched. */
    method SetNotes(x: OrderItem, text: string)
      requires Valid() && x in current.items
      modifies x`notes
      ensures Valid()
      ensures x.notes == text
    {
      assert x !in snapshot.items;
      x.notes := text;
    }

    /** `RemoveItemButton_Click`: removes the line only when the user confirms. */
    method RemoveWithConfirmation(x: OrderItem, confirmed: bool)
      requires Valid()
      modifies current`items, current`totalCost
      ensures Valid()
      ensures confirmed ==> current.items == RemoveFirst(old(current.items), x) && current.TotalIsCurrent()
      ensures !confirmed ==> current.items == old(current.items) && current.totalCost == old(current.totalCost)
    {
      if confirmed {
        RemoveKeepsValid(x);
        UpdateTotalCost();
      }
    }

    /**
     * `AddPositionButton_Click`: opens the menu window on this very order; what the user
     * does there is the menu window's handlers.
     */
    method AddPosition(counter: IdCounter, now: DateTime) returns (menu: MenuSession)
      requires Valid() && counter.Valid()
      modifies counter
      ensures Valid()
      ensures fresh(menu) && menu.currentOrder == current && !menu.isNewOrderMode
      ensures counter.Valid() && counter.next == old(counter.next) + 1
    {
      menu := new MenuSession.ForExistingOrder(current, counter, now);
    }

    /**
     * `SaveChangesButton_Click`: closes with success exactly when the date-time check
     * `isValid` (`IsValidOrderDateTime`) accepts the order's date-time; otherwise nothing
     * changes and the window stays open.
     */
    method Save(isValid: DateTime -> bool) returns (closed: bool)
      modifies this`dialogResult
      ensures closed == isValid(current.orderDateTime)
      ensures closed ==> dialogResult == Some(true)
      ensures !closed ==> dialogResult == old(dialogResult)
    {
      if !isValid(current.orderDateTime) {
        return false;
      }
      Close(true);
      closed := true;
    }

    /** Setting the window's dialog result and closing it: nothing of the order changes. */
    method Close(result: bool)
      modifies this`dialogResult
      ensures dialogResult == Some(result)
      ensures Valid() == old(Valid())
      ensures Lines(current.items) == old(Lines(current.items))
    {
      dialogResult := Some(result);
    }

    /**
     * `CancelButton_Click`: the order's lines become fresh copies of the snapshot's, its
     * status the snapshot's, and the total is recomputed; the date-time is left as edited.
     */
    method Cancel()
      requires Valid()
      modifies current`items, current`status, current`totalCost, this`dialogResult
      ensures Valid()
      ensures Lines(current.items) == original
      ensures forall i :: 0 <= i < |current.items| ==> fresh(current.items[i])
      ensures current.status == originalStatus
      ensures current.TotalIsCurrent()
      ensures dialogResult == Some(false)
    {
      RestoreSnapshot();
      UpdateTotalCost();
      Close(false);
    }

    /** The rollback itself: the lines are emptied and refilled with a copy of each snapshot line, and the snapshot's status comes back. */
    method RestoreSnapshot()
      requires Valid()
      modifies current`items, current`status
      ensures Valid()
      ensures Lines(current.items) == original
      ensures forall i :: 0 <= i < |current.items| ==> fresh(current.items[i])
      ensures current.status == originalStatus
    {
      var restored := CopyLines(snapshot.items);
      label Copied:
      current.items := restored;
      current.status := snapshot.status;
      LinesUnchanged@Copied(restored);
      LinesUnchanged@Copied(snapshot.items);
    }

    /**
     * `DatePicker_SelectedDateChanged`: a picked date no later than `maxDate` (one year
     * from now) replaces the date and keeps the time of day; a later one is refused.
     */
    method OnDateSelected(selected: Option<DateTime>, maxDate: DateTime) returns (applied: bool)
      requires Valid()
      modifies current`orderDateTime
      ensures Valid()
      ensures applied <==> selected.Some? && !selected.value.After(maxDate)
      ensures applied ==> current.orderDateTime == WithDate(old(current.orderDateTime), selected.value)
      ensures !applied ==> current.orderDateTime == old(current.orderDateTime)
    {
      applied := false;
      if selected.Some? {
        if selected.value.After(maxDate) {
          return;
        }
        current.orderDateTime := WithDate(current.orderDateTime, selected.value);
        applied := true;
      }
    }

    /**
     * `TimeTextBox_TextChanged`: an accepted "HH:mm" entry sets the time of day to
     * hours:minutes:00 on the same date; every other entry leaves the date-time alone.
     */
    method OnTimeTextChanged(text: string) returns (entry: TimeEntry)
      requires Valid()
      modifies current`orderDateTime
      ensures Valid()
      ensures entry == ParseTimeText(text)
      ensures entry.Accepted? ==>
        current.orderDateTime == WithTime(old(current.orderDateTime), entry.hours, entry.minutes)
      ensures !entry.Accepted? ==> current.orderDateTime == old(current.orderDateTime)
    {
      entry := ParseTimeText(text);
      if entry.Accepted? {
        SetTimeOfDay(entry.hours, entry.minutes);
      }
    }

    /** The time box's update of the order: the same day at hours:minutes:00. */
    method SetTimeOfDay(hours: int, minutes: int)
      requires Valid()
      modifies current`orderDateTime
      ensures Valid()
      ensures current.orderDateTime == WithTime(old(current.orderDateTime), hours, minutes)
    {
      current.orderDateTime := WithTime(current.orderDateTime, hours, minutes);
    }
  }
}
