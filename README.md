# Cursova order model

Cursova is a WPF desk application for a restaurant. Each table has a
list of orders. An order holds lines (a menu item, a quantity and free-text
notes), a status, a scheduled date-time and a cached total cost. The
application's logic lives in window event handlers. This project lifts those
handlers into Dafny methods over classes that hold the same state:

- `Orders`: `OrderStatus`, `OrderItem` (a class), `Order` (a class with the
  cached total) and `IdCounter` (the static `_nextOrderId`). The model also
  gives a line's contents as a value, `LineValue`, with the sums `Total` (the
  line totals, `Item.Price * Quantity`) and `ItemCount` (the quantities). It
  adds the quantity-box rules and the minus-button rule that both windows share.
- `TableOrders`: the book of orders per table (`_allTableOrders`), the table
  window (open, create, delete, change status) and the status labels.
- `EditOrder`: the edit window, with its deep-copy snapshot, line editing,
  save, rollback on cancel, and the date and time boxes.
- `MenuWindow`: the menu dialog. Its add button merges lines by item name;
  its stepper, remove, summary, confirm and cancel handlers act on the order
  it edits.
- `MenuItems` and `MenuCatalog`: `MenuItemForOrder` with its three tagged
  variants, and `GetItemsByCategory`.
- `NetText`, `Schedule`, `Lists`, `Wrappers`: the .NET behaviour the handlers
  rely on. This covers `int.TryParse`, `string.Trim`, `string.Split`, the
  "HH:mm" format, `List<T>.Remove` (first element equal by reference), and the
  date-time arithmetic reduced to day, minute of day and ticks.

Message-box answers are `confirmed: bool` parameters. `DateTime.Now` is a
`now` parameter. `DateTime.Now.AddYears(1)` is a `maxDate` parameter. The
order's `IsValidOrderDateTime()` check, whose rule is not part of this model,
is an `isValid: DateTime -> bool` parameter applied to the order's date-time.

## Model

| member | source | states |
|---|---|---|
| Orders.AllStatusesOffered | Cursova/TableOrdersWindow.xaml.cs:319 | the status dialog lists each of the six statuses exactly once, so any status can be chosen from any other |
| Orders.OrderItem.constructor | Cursova/TableOrdersWindow.xaml.cs:30-35 | a line stores the item, the quantity and the notes as given; the notes default to empty |
| Orders.IdCounter.constructor | Cursova/TableOrdersWindow.xaml.cs:40 | the counter starts at 1 and has issued nothing |
| Orders.Order.constructor | Cursova/TableOrdersWindow.xaml.cs:52-59 | a new order takes the counter's value as its id and advances the counter by one; ids issued stay strictly increasing; it has the given table, is awaiting confirmation, has no lines and a zero total |
| Orders.Order.CalculateTotalCost | Cursova/TableOrdersWindow.xaml.cs:73-76 | afterwards the cached total equals the sum of the line totals |
| Orders.Order.AddItem | Cursova/TableOrdersWindow.xaml.cs:61-65 | the line goes at the end with no duplicate check; earlier lines stay; the total becomes the old sum plus the line's price times quantity |
| Orders.Order.RemoveItem | Cursova/TableOrdersWindow.xaml.cs:67-71 | the first line that is the same object leaves; an absent line changes nothing; the total becomes the old sum minus that line's total |
| Orders.CommittedQuantity | Cursova/EditOrderWindow.xaml.cs:349-357 | whenever the text parses to a number above zero that number replaces the quantity; in every other case, including a number outside 32 bits, the old quantity stays (never a clamped value) |
| Orders.CommitShownQuantity | Cursova/EditOrderWindow.xaml.cs:355 | leaving the box with the text it was reset to keeps the quantity |
| Orders.AcceptsQuantityInput | Cursova/EditOrderWindow.xaml.cs:338-341 | typed text is let through exactly when every character is a digit |
| Orders.TypingKeepsDigits | Cursova/EditOrderWindow.xaml.cs:338-341 | typing accepted fragments into a box of digits leaves a box of digits |
| Orders.CommitTypedDigits | Cursova/EditOrderWindow.xaml.cs:343-360 | any box of digits: one whose number is above zero and fits in 32 bits commits that number; an empty box, one of zeros, and one whose number overflows 32 bits keep the old quantity |
| Orders.MinusStep | Cursova/EditOrderWindow.xaml.cs:312-336 | the minus button decrements exactly when the quantity is above one, and removes the line exactly when the quantity is one and the user confirms |
| Orders.MinusKeepsPositive | Cursova/EditOrderWindow.xaml.cs:318-334 | from a quantity of one or more, a decrement never goes below one, and the line is kept only at one after a refusal |
| Orders.LineTotal | Cursova/TableOrdersWindow.xaml.cs:36 | a line's total is its item's price times its quantity: one portion costs the price, no portions cost nothing |
| Orders.OrderItem.TotalPrice | Cursova/TableOrdersWindow.xaml.cs:36 | the line object's `TotalPrice` is the total of its contents: the item's price when it has one portion, nothing when it has none |
| Orders.Total | Cursova/TableOrdersWindow.xaml.cs:75 | the order's total is the sum of its line totals: 0 with no lines, the line's own total with one, and never negative when no line total is |
| Orders.ItemCount | Cursova/MenuWindow.xaml.cs:304 | the portion count is the sum of the quantities: 0 with no lines, and at least one per line when every quantity is positive |
| Orders.BumpLineSums | Cursova/MenuWindow.xaml.cs:187-191 | one more portion on a line adds one to the portion count and that item's price to the total |
| Lists.RemoveFirst | Cursova/TableOrdersWindow.xaml.cs:69 | `List.Remove` leaves a list without the element unchanged, and shortens one that has it by one |
| Lists.RemoveFirstIsRemoveAt | Cursova/TableOrdersWindow.xaml.cs:69 | when the element first occurs at position k, `Remove` is `RemoveAt(k)` |
| Lists.RemoveFirstMultiset | Cursova/TableOrdersWindow.xaml.cs:290 | `Remove` takes away exactly one occurrence of the element when there is one, and nothing else |
| Lists.RemoveFirstSubsequence | Cursova/TableOrdersWindow.xaml.cs:290 | `Remove` keeps the other elements in their relative order |
| TableOrders.StatusDisplayName | Cursova/TableOrdersWindow.xaml.cs:241-253 | every status has a non-empty Ukrainian label |
| TableOrders.StatusDisplayNameInjective | Cursova/TableOrdersWindow.xaml.cs:241-253 | different statuses get different labels |
| TableOrders.OrderBook.constructor | Cursova/TableOrdersWindow.xaml.cs:93-96 | the book holds what was loaded |
| TableOrders.TableOrdersView.constructor | Cursova/TableOrdersWindow.xaml.cs:93-105 | a table missing from the book gets an empty list; a known table keeps its list; no other table changes |
| TableOrders.TableOrdersView.CreateNewOrder | Cursova/TableOrdersWindow.xaml.cs:119-129 | given the closed new-order menu window (built by `MenuWindow.MenuSession.NewOrder`, which already took the scratch id), when its dialog result is true exactly one new order goes at the end of this table's list, with this table, the next id (above the scratch order's), the window's selected lines in selection order and a total equal to their sum; otherwise the book and the counter stay as the window left them |
| TableOrders.OrderWithLines | Cursova/TableOrdersWindow.xaml.cs:121-125 | a new order for the table holds the selected lines in order, and its total is their sum |
| TableOrders.AddEach | Cursova/TableOrdersWindow.xaml.cs:122-125 | adding each selected line in turn appends them all, in order, and keeps the total current |
| TableOrders.TableOrdersView.DeleteOrder | Cursova/TableOrdersWindow.xaml.cs:282-295 | only when confirmed, the order's first occurrence leaves this table's list; the other tables are untouched |
| TableOrders.DeleteKeepsOthers | Cursova/TableOrdersWindow.xaml.cs:290 | deleting leaves one occurrence fewer of the deleted order, every other order, and their relative order |
| TableOrders.TableOrdersView.ChangeStatus | Cursova/TableOrdersWindow.xaml.cs:339-353 | the chosen status, any of the six, becomes the order's status only when confirmed |
| EditOrder.CopyLines | Cursova/EditOrderWindow.xaml.cs:113-116 | the copies are new line objects with the same item, quantity and notes, in the same order |
| EditOrder.DeepCopyOrder | Cursova/EditOrderWindow.xaml.cs:105-119 | the copy is a new order with the same id, table and status, fresh lines equal in content and order, and a current total; it uses up one id from the counter |
| EditOrder.EditSession.constructor | Cursova/EditOrderWindow.xaml.cs:17-21 | the window edits the given order in place and keeps a separate snapshot of its lines and status that shares no line object with it; the total is recomputed |
| EditOrder.EditSession.UpdateTotalCost | Cursova/EditOrderWindow.xaml.cs:295-299 | the order's total becomes the sum of its lines, and nothing else changes |
| EditOrder.EditSession.Plus | Cursova/EditOrderWindow.xaml.cs:301-310 | the quantity rises by one, the total is then current, and the snapshot is untouched |
| EditOrder.EditSession.Minus | Cursova/EditOrderWindow.xaml.cs:312-336 | above one the quantity drops by one; at one the line is removed only when confirmed; the total is recomputed whenever something changed; the snapshot is untouched |
| EditOrder.EditSession.QuantityText | Cursova/EditOrderWindow.xaml.cs:343-360 | the quantity becomes the committed quantity of the text, and the total is recomputed |
| EditOrder.EditSession.SetNotes | Cursova/EditOrderWindow.xaml.cs:362-370 | the line's notes become the text, and the snapshot is untouched |
| EditOrder.EditSession.RemoveWithConfirmation | Cursova/EditOrderWindow.xaml.cs:372-389 | only when confirmed, the first line that is this object leaves and the total is recomputed |
| EditOrder.EditSession.AddPosition | Cursova/EditOrderWindow.xaml.cs:391-395 | the menu dialog opens in edit mode on this very order, taking one id for its scratch order |
| EditOrder.EditSession.Save | Cursova/EditOrderWindow.xaml.cs:397-406 | the window closes with success exactly when the date-time check accepts the order's own date-time; otherwise nothing changes |
| EditOrder.EditSession.Cancel | Cursova/EditOrderWindow.xaml.cs:408-420 | the order's lines become fresh copies with the contents they had when the window opened, the status is restored, the total is recomputed and the window closes without success |
| EditOrder.EditSession.RestoreSnapshot | Cursova/EditOrderWindow.xaml.cs:410-415 | the lines are cleared and refilled with fresh copies of the snapshot's lines, and the snapshot's status comes back |
| EditOrder.EditSession.OnDateSelected | Cursova/EditOrderWindow.xaml.cs:422-440 | a picked date no later than one year ahead replaces the date and keeps the time of day; a later date or no date leaves the date-time alone |
| EditOrder.EditSession.OnTimeTextChanged | Cursova/EditOrderWindow.xaml.cs:442-484 | an accepted entry sets the time of day to hours:minutes:00 on the same date; any other entry leaves the date-time alone |
| Schedule.ParseTimeText | Cursova/EditOrderWindow.xaml.cs:446-478 | text shorter than five characters (counted as Unicode scalar values) is ignored; an accepted entry has hours 0-23 and minutes 0-59, and its trimmed text holds exactly one ':' |
| Schedule.ParseTimeTextAccepts | Cursova/EditOrderWindow.xaml.cs:446-478 | an entry is accepted as hours h and minutes m exactly when it has five or more characters, its trimmed text splits at ':' into two pieces, they parse as h and m, and h is 0-23 and m is 0-59 |
| Schedule.ParseLooseTime | Cursova/EditOrderWindow.xaml.cs:446-482 | the entry "1:034", which the keystroke filter lets through, passes every check and is read as 01:34 |
| Schedule.WithDate | Cursova/EditOrderWindow.xaml.cs:437 | the picked date with the order's whole time of day: the day is the picked one, the minute of the day and the seconds and ticks within it stay, and picking the current day changes nothing |
| Schedule.WithTime | Cursova/EditOrderWindow.xaml.cs:480-482 | the time of day is replaced on the same day with zero seconds, and hours 0-23 with minutes 0-59 give a valid date-time |
| Schedule.FormatHHmm | Cursova/EditOrderWindow.xaml.cs:47 | the "HH:mm" text is five characters: two digits whose value is the hour, ':', and two digits whose value is the minute |
| Schedule.ParseFormattedTime | Cursova/EditOrderWindow.xaml.cs:446-482 | the "HH:mm" text the box shows for a date-time is accepted as that date-time's hours and minutes |
| Schedule.WithTimeShowsTime | Cursova/EditOrderWindow.xaml.cs:480-482 | setting the time keeps the day and gives exactly the hours and minutes with zero seconds |
| Schedule.DateAndTimeCommute | Cursova/EditOrderWindow.xaml.cs:437 | replacing the date and replacing the time of day are independent, in either order |
| Schedule.AcceptsTimeInput | Cursova/EditOrderWindow.xaml.cs:55-77 | typed text goes in exactly when it starts with a digit or ':', is not a ':' typed into text that already has one, and does not make the text longer than five |
| Schedule.TypingKeepsTimeShape | Cursova/EditOrderWindow.xaml.cs:55-77 | typing one character at a time keeps the box at five or fewer digits and colons, with at most one colon |
| NetText.TryParseInt | Cursova/EditOrderWindow.xaml.cs:349 | `int.TryParse` succeeds only with a value inside the 32-bit range |
| NetText.ParseDigits | Cursova/EditOrderWindow.xaml.cs:349 | a non-empty run of digits parses to its value when that fits in 32 bits, and fails when it does not |
| NetText.Trim | Cursova/EditOrderWindow.xaml.cs:449 | `Trim()` removes exactly the white space at the two ends: the result is a contiguous part of the text with only white space before and after it, it neither starts nor ends with white space, and all-white text trims to empty text |
| NetText.Split | Cursova/EditOrderWindow.xaml.cs:458 | `Split(':')` gives one more piece than there are separators, and no piece holds the separator |
| NetText.NatToString | Cursova/EditOrderWindow.xaml.cs:355 | `ToString()` of a non-negative number is a non-empty run of digits whose value is that number, with no leading zero |
| NetText.ParseShownInt | Cursova/EditOrderWindow.xaml.cs:355 | a non-negative quantity's `ToString()` parses back to the same quantity |
| NetText.JoinSplit | Cursova/EditOrderWindow.xaml.cs:458 | `Split(':')` loses nothing: joining the pieces with ':' gives the text back |
| NetText.SplitAroundSeparator | Cursova/EditOrderWindow.xaml.cs:458 | text with one ':' splits into the piece before it and the piece after it |
| MenuWindow.FindByName | Cursova/MenuWindow.xaml.cs:187 | gives the first line with the item's name, or none exactly when no line has that name |
| MenuWindow.AddByName | Cursova/MenuWindow.xaml.cs:187-196 | the add rule keeps the number of lines when a line has the item's name, and adds exactly one line when none has |
| MenuWindow.AddByNameKeepsOthers | Cursova/MenuWindow.xaml.cs:187-196 | the add rule changes no line's item or notes, and the lines of other names stay exactly as they were |
| MenuWindow.AddExistingName | Cursova/MenuWindow.xaml.cs:187-191 | adding an item whose name first occurs at line k is exactly one more portion on line k, with every other line unchanged |
| MenuWindow.AddNewName | Cursova/MenuWindow.xaml.cs:192-196 | adding a new name appends one line with quantity 1 and empty notes |
| MenuWindow.AddByNameKeepsDistinct | Cursova/MenuWindow.xaml.cs:180-202 | one add keeps at most one line per item name |
| MenuWindow.AddAllKeepsDistinct | Cursova/MenuWindow.xaml.cs:180-202 | starting from distinct names, any sequence of adds keeps at most one line per item name |
| MenuWindow.AddByNameKeepsPositive | Cursova/MenuWindow.xaml.cs:187-196 | adding keeps every quantity at one or more |
| MenuWindow.ShowsAddButton | Cursova/MenuWindow.xaml.cs:117-130 | an item's row offers the add button exactly when no line has its name |
| MenuWindow.AddedItemShowsStepper | Cursova/MenuWindow.xaml.cs:117-171 | after an add, the item's row shows the stepper and the remove button, not the add button |
| MenuWindow.AddByNameSummary | Cursova/MenuWindow.xaml.cs:302-307 | one add raises the summary count by one, and its cost by the price on the bumped or appended line |
| MenuWindow.OrderSummary | Cursova/MenuWindow.xaml.cs:302-307 | the summary of an empty order is zero portions at zero cost, and it counts at least one portion per line when every quantity is positive |
| MenuWindow.SummaryShowsTotal | Cursova/MenuWindow.xaml.cs:302-307 | the summary's cost equals the order's cached total whenever that total is current |
| MenuWindow.StepSummary | Cursova/MenuWindow.xaml.cs:302-307 | changing one line's quantity by d changes the summary count by d and its cost by d times the item's price |
| MenuWindow.MenuSession.NewOrder | Cursova/MenuWindow.xaml.cs:20-27 | the new-order dialog works on a fresh scratch order for table 0, which takes the next id and records it as issued (so the table window may then create the real order); the selection starts empty |
| MenuWindow.MenuSession.ForExistingOrder | Cursova/MenuWindow.xaml.cs:29-37 | the edit-mode dialog works on the given order, yet still takes one id for the scratch order of the chained constructor |
| MenuWindow.MenuSession.RefreshParent | Cursova/MenuWindow.xaml.cs:200 | in edit mode the parent window recomputes the order's total; in new-order mode there is no parent and the total stays; lines never change |
| MenuWindow.MenuSession.AddToOrder | Cursova/MenuWindow.xaml.cs:180-202 | a known name bumps that line and adds none; a new name appends one fresh line; on lines that are distinct objects the contents become the merge-by-name result; in edit mode the total is then current |
| MenuWindow.MenuSession.Plus | Cursova/MenuWindow.xaml.cs:204-223 | the quantity rises by one; in edit mode the total is then current |
| MenuWindow.MenuSession.Minus | Cursova/MenuWindow.xaml.cs:225-257 | above one the quantity drops by one; at one the line is removed only when confirmed, and otherwise nothing changes |
| MenuWindow.MenuSession.QuantityText | Cursova/MenuWindow.xaml.cs:264-282 | the quantity becomes the committed quantity of the text |
| MenuWindow.MenuSession.RemoveItemFromOrder | Cursova/MenuWindow.xaml.cs:284-300 | the remove button drops the line with no confirmation; in edit mode the total is then current |
| MenuWindow.MenuSession.Confirm | Cursova/MenuWindow.xaml.cs:309-317 | in new-order mode the selection becomes the scratch order's lines in order; in edit mode it stays as it was; the dialog succeeds |
| MenuWindow.MenuSession.Cancel | Cursova/MenuWindow.xaml.cs:319-323 | the dialog fails and nothing is undone |
| MenuItems.KindTag | Cursova/MenuItemForOrder.cs:6-8 | each variant's discriminator is a non-empty, capitalised word |
| MenuItems.KindOfTag | Cursova/MenuItemForOrder.cs:6-8 | a discriminator names a variant only when it is that variant's tag |
| MenuItems.KindTagRoundTrip | Cursova/MenuItemForOrder.cs:6-8 | each variant is read back from its own tag, so the three tags are distinct |
| MenuItems.EmptyMenuItem | Cursova/MenuItemForOrder.cs:22-26 | the parameterless constructor gives an empty allergen list |
| MenuItems.NewMenuItem | Cursova/MenuItemForOrder.cs:28-38 | name, price, description and weight are stored as given; the allergens are the given list's contents, or empty when none is given |
| MenuCatalog.ItemsByCategory | Cursova/MenuManager.cs:31-34 | every result has the category; every catalog item with the category is in the result; the result is no longer than the catalog |
| MenuCatalog.ItemsByCategoryKeepsOrder | Cursova/MenuManager.cs:33 | the result is a subsequence of the catalog, so catalog order is kept |
| MenuCatalog.ItemsByCategoryCounts | Cursova/MenuManager.cs:33 | each matching item appears as often as in the catalog, and nothing else appears |

## Left out

- Loading and saving (`JsonDataManager`, `SaveOrders`, the menu's load-then-save): file I/O and JSON serialisation. The book's contents are a constructor parameter, and each save is a no-op on the state.
- `MenuManager`'s commented-out edit operations: they are not compiled.
- Window layout and drawing (`DisplayOrders`, `DisplayOrderItems`, `CreateMenuItemUI`, the context menu, the dialogs): user interface only. The add-or-stepper choice of `CreateMenuItemUI` is kept as `ShowsAddButton`. `DisplayOrderItems`'s effect on state, the total recompute, is kept as `UpdateTotalCost`.
- `TableOrdersWindow.EditOrder`: it only opens the edit window and, on success, saves and redraws.
- The events a handler causes by resetting its own control. After a refused date, the picker is set to today, and the follow-up event moves the order to today. After a refused time entry, or when the time box loses focus with bad text, the box is set to the current "HH:mm", and the follow-up event sets that time of day. These are user-interface event plumbing.
- The time box's LostFocus handler: it only resets the box's text, which matters only through the follow-up event above.
- `IsValidOrderDateTime`: its rule is not part of this model, so `Save` takes the check as a function parameter and applies it to the order's date-time.
- The order's date-time: the `Order` class shown has no `OrderDateTime`, though the edit window uses one. The model adds the field and starts it at `now`.
- `DateTime.Now.AddYears(1)`: calendar arithmetic, taken as the `maxDate` parameter.
- Currency formatting (`:C`) and `MenuItemForOrder.ToString`: culture-dependent display text.
- `WeightGrams` is a `double` that is only displayed; it is kept as a `real` and never computed with.
- Prices are `decimal`; they are modelled as `int` minor units, without decimal overflow.
- Orders.Order.constructor: the static counter is an `int` that would wrap after 2^31 - 1 orders; the model's counter is unbounded.
- Orders.OrderItem.constructor: quantities are 32-bit in the source, and `Quantity++` could wrap; the model uses unbounded integers.
- NetText.TryParseInt: the current culture's signs are taken to be '+' and '-'. Digits are exactly ASCII '0' to '9', as `int.TryParse` accepts, so there is no gap for digits. `int.TryParse` also accepts trailing '\0' characters after the digits or the trailing white space ("12\0" reads as 12); the model rejects any text with a '\0' in it.
- Orders.ItemCount: the source sums the quantities with checked `int` arithmetic, so a total above 2^31 - 1 throws `OverflowException` when the summary is shown; the model's sum is unbounded, and MenuWindow.OrderSummary and the summary lemmas inherit that.
- Schedule.ParseTimeText: the length test counts Unicode scalar values, while .NET's `Length` counts UTF-16 code units; the two differ only on pasted text holding characters outside the Basic Multilingual Plane, where the source may reject with a message an entry the model ignores as too short.
- Schedule.AcceptsTimeInput: the five-character limit also counts Unicode scalar values rather than UTF-16 code units, so after a paste of non-BMP text the model can let through a keystroke that the source refuses.
- Schedule.FormatHHmm: the ':' in the "HH:mm" format is the current culture's time separator; the model takes it to be ':', which is also the character the time handler splits on.
- Orders.AcceptsQuantityInput: admits ASCII digits only, while the source's `char.IsDigit` also lets other Unicode decimal digits through.
- Schedule.AcceptsTimeInput: admits ASCII digits and ':' only, while the source's `char.IsDigit` also lets other Unicode decimal digits through.
- TableOrders.TableOrdersView.CreateNewOrder: covers the handler from the moment the menu window has closed. Building that window (line 118, `MenuWindow.MenuSession.NewOrder`) already took one id for its scratch order, so over the whole click the counter advances by one on cancel and by two on success. The user's work inside the dialog is not part of this method.
- MenuItems.EmptyMenuItem: the parameterless constructor leaves name and description `null`; the model uses empty text.
- `GetCategory`: the `Dish`, `Drink` and `Dessert` subclasses that implement it are not part of this model; the category of each variant is a parameter of `ItemsByCategory`.
- Menu items are held by value. The source shares `MenuItemForOrder` objects by reference, but nothing shown changes an item after construction, so that makes no difference here.
- The `default` branch of the status-name switch: it cannot be reached for the six declared statuses.
- `[JsonConstructor]` and the ids that deserialisation might consume: library behaviour.
- MenuWindow.MenuSession.AddToOrder: the statement that the contents become the merge-by-name result holds only when the order's lines are distinct objects. Nothing shows that a line object is never added twice.
- MenuWindow.MenuSession.ForExistingOrder: the parent edit window is assumed to be present exactly in edit mode, and to edit the same order.
- EditOrder.EditSession.AddPosition: the model does not follow the menu dialog's later edits back into the snapshot invariant. Those edits go through the menu dialog's own handlers, which do not touch the snapshot's lines.
