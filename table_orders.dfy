/**
 * The table-orders window: the shared book of orders per table, opening a table's list,
 * creating an order from the menu window's selection, deleting an order, changing its
 * status, and the status names the window shows.
 */
module TableOrders {
  import opened Wrappers
  import opened Lists
  import opened Orders
  import opened Schedule
  import opened MenuWindow

  /** `GetOrderStatusDisplayName`: the Ukrainian label of each status. */
  function StatusDisplayName(status: OrderStatus): (name: string)
    ensures name != []
  {
    match status
    case AwaitingConfirmation => "Очікує підтвердження"
    case Confirmed => "Підтверджено"
    case NotConfirmed => "Не підтверджено"
    case Preparing => "Готується"
    case Ready => "Готове"
    case Completed => "Закрито"
  }

  /** Different statuses get different labels, so the label tells the status. */
  lemma StatusDisplayNameInjective(a: OrderStatus, b: OrderStatus)
    requires StatusDisplayName(a) == StatusDisplayName(b)
    ensures a == b
  {
  }

  /**
   * `_allTableOrders`: every table's list of orders, shared by all table windows and
   * loaded once; `loaded` is what the data file held.
   */
  class OrderBook {
    var tables: map<int, seq<Order>>

    constructor (loaded: map<int, seq<Order>>)
      ensures tables == loaded
    {
      tables := loaded;
    }
  }

  /** One table's window over the shared book. */
  class TableOrdersView {
    const tableNumber: int
    const book: OrderBook

    /** The book has a list for this table. */
    predicate Valid()
      reads book
    {
      tableNumber in book.tables
    }

    /**
     * `new TableOrdersWindow(tableNumber)` on a loaded book: a table the book lacks gets
     * an empty list; a known table keeps its list; no other table changes.
     */
    constructor (book: OrderBook, tableNumber: int)
      modifies book
      ensures this.book == book && this.tableNumber == tableNumber && Valid()
      ensures old(tableNumber in book.tables) ==> book.tables == old(book.tables)
      ensures old(tableNumber !in book.tables) ==> book.tables == old(book.tables)[tableNumber := []]
    {
      this.book := book;
      this.tableNumber := tableNumber;
      new;
      if tableNumber !in book.tables {
        book.tables := book.tables[tableNumber := []];
      }
    }

    /**
     * `CreateNewOrderButton_Click`, once the menu window it opened has closed: `menu` is
     * that window, built by `MenuSession.NewOrder`, whose scratch order already took an
     * identifier from `counter`. On success, a new order for this table with the window's
     * selected lines in that order, its total their sum, appended to this table's list; it
     * takes the next identifier, above the scratch order's.
     */
    method CreateNewOrder(menu: MenuSession, counter: IdCounter, now: DateTime)
      returns (newOrder: Order?)
      requires Valid() && counter.Valid() && menu.isNewOrderMode
      requires menu.currentOrder.orderId in counter.issued
      modifies book, counter
      ensures Valid() && counter.Valid()
      ensures menu.dialogResult == Some(true) ==>
        newOrder != null && fresh(newOrder)
        && newOrder.tableNumber == tableNumber && newOrder.status == AwaitingConfirmation
        && newOrder.orderId == old(counter.next) && counter.next == old(counter.next) + 1
        && newOrder.orderId > menu.currentOrder.orderId
        && newOrder.items == menu.selectedOrderItems && newOrder.TotalIsCurrent()
        && book.tables == old(book.tables)[tableNumber := old(book.tables[tableNumber]) + [newOrder]]
      ensures menu.dialogResult != Some(true) ==>
        newOrder == null && book.tables == old(book.tables) && counter.next == old(counter.next)
    {
      if menu.dialogResult != Some(true) {
        return null;
      }
      var order := OrderWithLines(tableNumber, menu.selectedOrderItems, counter, now);
      book.tables := book.tables[tableNumber := book.tables[tableNumber] + [order]];
      newOrder := order;
    }

    /**
     * `DeleteOrder`: when the user confirms, the order's first occurrence leaves this
     * table's list and every other order stays, in the same relative order.
     */
    method DeleteOrder(order: Order, confirmed: bool)
      requires Valid()
      modifies book
      ensures Valid()
      ensures confirmed ==>
        book.tables == old(book.tables)[tableNumber := RemoveFirst(old(book.tables[tableNumber]), order)]
      ensures !confirmed ==> book.tables == old(book.tables)
    {
      if confirmed {
        book.tables := book.tables[tableNumber := RemoveFirst(book.tables[tableNumber], order)];
      }
    }

    /**
     * The status dialog's confirm handler: any of the statuses the dialog lists may be
     * chosen; it becomes the order's status only when the user confirms.
     */
    method ChangeStatus(order: Order, newStatus: OrderStatus, confirmed: bool)
      modifies order`status
      ensures confirmed ==> order.status == newStatus
      ensures !confirmed ==> order.status == old(order.status)
    {
      if confirmed {
        order.status := newStatus;
      }
    }
  }

  /** `new Order(tableNumber)` followed by `AddItem` of each selected line in turn. */
  method OrderWithLines(tableNumber: int, selected: seq<OrderItem>, counter: IdCounter, now: DateTime)
    returns (order: Order)
    requires counter.Valid()
    modifies counter
    ensures fresh(order)
    ensures order.tableNumber == tableNumber && order.status == AwaitingConfirmation
    ensures order.orderId == old(counter.next) && counter.next == old(counter.next) + 1
    ensures counter.Valid() && counter.issued == old(counter.issued) + [order.orderId]
    ensures order.items == selected && order.TotalIsCurrent()
  {
    order := new Order(counter, tableNumber, now);
    AddEach(order, selected);
  }

  /** The handler's loop that adds each selected line to the new order, in turn. */
  method AddEach(order: Order, selected: seq<OrderItem>)
    requires order.TotalIsCurrent()
    modifies order`items, order`totalCost
    ensures order.items == old(order.items) + selected
    ensures order.TotalIsCurrent()
  {
    ghost var start := order.items;
    var i := 0;
    while i < |selected|
      invariant 0 <= i <= |selected|
      invariant order.items == start + selected[..i] && order.TotalIsCurrent()
    {
      order.AddItem(selected[i]);
      PrefixStep(start, selected, i);
      i := i + 1;
    }
    assert selected[..|selected|] == selected;
  }

  /** Deleting leaves exactly the other orders: one occurrence fewer of the deleted one, all others kept. */
  lemma DeleteKeepsOthers(orders: seq<Order>, gone: Order)
    ensures multiset(RemoveFirst(orders, gone)) == multiset(orders) - multiset{gone}
    ensures IsSubsequence(RemoveFirst(orders, gone), orders)
  {
    RemoveFirstMultiset(orders, gone);
    RemoveFirstSubsequence(orders, gone);
  }
}
