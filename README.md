# Restaurant admin pages: business rules in Dafny

This project models the rules inside the admin pages of a restaurant ordering web app.
The pages are written in React and TypeScript. The model covers:

- **Orders page.** Unpaid orders are grouped into one group per table, each with a running
  total. The selected table's group is looked up by table id. The earliest unpaid order of
  that table is handed to the payment dialog. The selection is dropped after a refresh when
  no returned order sits at that table.
- **Cash payment dialog.** A keypad builds the amount text. That text is read as an exact
  decimal. Paid and due are compared in whole cents. The change, its colour and the
  settlement record posted on submit are also modelled.
- **Menu page.** This covers the category tabs and the sort by id, image paths turned into
  asset URLs, and the checks before an item is added or edited or an image is accepted. It
  also covers resolving a returned item's category, and the append, delete-by-id and
  replace-by-id updates on the item list.
- **Category page.** A name is blank when JavaScript's `trim` would leave nothing. The page
  appends, replaces by id and deletes by id on the category list, and updates the add and
  edit dialog state.
- **Sales report page.** The category id-to-name table is built by a fold. Pie slices fall
  back to "Unknown". The chart size depends on the window width. The first three detail rows
  are shown, and the rest only when expanded, with a toggle caption; rows and toggle belong
  to monthly reports, a yearly report shows only the pie, and a custom report's content
  shows none of these. A custom report needs both ends of the date range.

All money is integer cents. Network responses, the clock and object URLs are parameters of
the methods that use them. Each page's mutable state is a class. The methods of a class
state the whole new state in terms of pure functions, and the properties are lemmas about
those functions.

Modules:

- `Wrappers`: `Option`.
- `Feedback`: toast messages and server replies.
- `Digits`: digit strings.
- `IdLists`: filter, map and find by `_id`, shared by the menu and category pages.
- `AdminOrders`, `PaymentModal`, `MenuManagement`, `CategoryManagement`, `SalesReport`: one
  module per source file.

## Model

| member | source | states |
|---|---|---|
| AdminOrders.GroupOrders | src/pages/Admin/AdminOrders.tsx:80-96 | The loop over the fetched orders builds the same map as the reduce. A table has a group iff it has an unpaid order. The group holds exactly those orders, in fetch order, with their summed total. |
| AdminOrders.GroupedIsUnpaidPerTable | src/pages/Admin/AdminOrders.tsx:81-94 | The reduce, told without a fold. Table t is keyed iff some unpaid order has tableId t. Its group is (t, the unpaid orders of t in input order, their sum starting from 0). |
| AdminOrders.NoPaidOrderGrouped | src/pages/Admin/AdminOrders.tsx:82-90 | Every order in a group is unpaid, carries that group's table id, and came from the input. |
| AdminOrders.UnpaidOrderGrouped | src/pages/Admin/AdminOrders.tsx:83-91 | Every unpaid input order is in the group of its own table. |
| AdminOrders.GroupsAreNonEmpty | src/pages/Admin/AdminOrders.tsx:83-90 | Every group has at least one order, so `orders[0]` exists. |
| AdminOrders.AllPaidMeansNoGroups | src/pages/Admin/AdminOrders.tsx:81-95 | Empty input, or input whose orders are all paid, gives no groups. |
| AdminOrders.GroupKeepsFetchOrder | src/pages/Admin/AdminOrders.tsx:90 | Two unpaid orders of one table keep their relative input order inside the group. |
| AdminOrders.UnpaidAtHead | src/pages/Admin/AdminOrders.tsx:90 | The first order of a table's group is the earliest unpaid order of that table in the input. |
| AdminOrders.FindGroupIsLookup | src/pages/Admin/AdminOrders.tsx:95-99 | `find` by table id over any listing of the groups returns the group keyed by that id, or nothing. So `Object.values` order does not matter. |
| AdminOrders.SelectedTableOrders | src/pages/Admin/AdminOrders.tsx:98-100 | Nothing unless a non-empty table id is selected and has an unpaid order. Otherwise it is that table's non-empty group of unpaid orders, totalled. |
| AdminOrders.PaymentTargetFor | src/pages/Admin/AdminOrders.tsx:368-377 | The payment dialog gets the selected table's total and id. Its order id is the earliest unpaid order at that table. |
| AdminOrders.SelectionAfterFetch | src/pages/Admin/AdminOrders.tsx:58-60 | The selection becomes empty iff it was set and no fetched order, paid or not, has that table id. Otherwise it is unchanged. |
| AdminOrders.SelectionSurvivesWithoutGroup | src/pages/Admin/AdminOrders.tsx:58-60 | A table whose only order came back paid stays selected, yet has no group. |
| AdminOrders.OrdersPage.constructor | src/pages/Admin/AdminOrders.tsx:39-43 | No orders, no selection, no error. |
| AdminOrders.OrdersPage.SelectTable | src/pages/Admin/AdminOrders.tsx:130 | Clicking a table selects it and changes nothing else. |
| AdminOrders.OrdersPage.OrdersFetched | src/pages/Admin/AdminOrders.tsx:56-60 | The list is replaced and the selection follows SelectionAfterFetch. |
| AdminOrders.OrdersPage.FetchFailed | src/pages/Admin/AdminOrders.tsx:61-62 | Only the error message is recorded. |
| AdminOrders.OrdersPage.GroupedOrders | src/pages/Admin/AdminOrders.tsx:80-96 | The groups of the current orders. |
| PaymentModal.PressKey | src/components/PaymentModal.tsx:26-33 | The text only grows, by at most two characters, and its old text is a prefix. Keypad text stays well formed: keypad characters, at most one point, no leading point. |
| PaymentModal.Backspace | src/components/PaymentModal.tsx:40-43 | Removes exactly the last character; empty stays empty; keeps the text well formed. |
| PaymentModal.BackspaceUndoesKey | src/components/PaymentModal.tsx:26-43 | Backspace after a key press restores the text. The exception is a point on empty text, which leaves "0". |
| PaymentModal.RunKeepsWellFormed | src/components/PaymentModal.tsx:26-43 | Over any sequence of keypad presses, deletes and clears, the text stays well formed. |
| PaymentModal.KeypadExample | src/components/PaymentModal.tsx:26-41 | "." gives "0.", a second "." does nothing, "5" appends, and backspace drops it. |
| PaymentModal.ParseAmount | src/components/PaymentModal.tsx:46 | Keypad text is NaN exactly when empty. |
| PaymentModal.ReadIntegerPart | src/components/PaymentModal.tsx:46 | Digits without a point read as their positional value. |
| PaymentModal.ReadPositional | src/components/PaymentModal.tsx:46 | "a.b" reads as the digits of a and b over 10 to the power of the length of b. |
| PaymentModal.RoundDiv | src/components/PaymentModal.tsx:48 | `Math.round(n/d)` is within half a unit of n/d, with halves rounded up. |
| PaymentModal.RoundDivUnique | src/components/PaymentModal.tsx:48 | It is the only integer with that property. |
| PaymentModal.ChangeIsCentsDifference | src/components/PaymentModal.tsx:67 | The rounded change in cents equals the rounded paid cents minus the due cents. |
| PaymentModal.CentsExact | src/components/PaymentModal.tsx:48 | With at most two decimals, rounding to cents is exact. |
| PaymentModal.ChangeTextColor | src/components/PaymentModal.tsx:87-92 | Gray iff the text is empty. Red iff the text is non-empty and the paid cents are below the due cents. Otherwise green. |
| PaymentModal.SubmitDecision | src/components/PaymentModal.tsx:45-71 | Refused with the "must be greater than or equal" error iff the text is non-empty and paid cents are below due cents. Otherwise the body carries the order, table, total, parsed amount, change (paid minus due), method, time and "success". The change is never negative when text was typed. |
| PaymentModal.RedIffRejected | src/components/PaymentModal.tsx:48-54 | For typed text, red colour and refusal coincide. |
| PaymentModal.EmptyAmountIsSent | src/components/PaymentModal.tsx:46-71 | Empty text is not refused: a request goes out with NaN amount and change. |
| PaymentModal.ExactPaymentExample | src/components/PaymentModal.tsx:48-51 | "10.1" against 10.10 due is accepted with zero change and shown green. |
| PaymentModal.ShortPaymentExample | src/components/PaymentModal.tsx:48-54 | "9.98" against 9.99 due is refused. |
| PaymentModal.SumOfTenthsExample | src/components/PaymentModal.tsx:48-51 | 0.10 + 0.20 due and "0.3" typed is accepted. |
| PaymentModal.PaymentModal.constructor | src/components/PaymentModal.tsx:21-23 | Empty text, method "cash", no error. |
| PaymentModal.PaymentModal.NumberClick | src/components/PaymentModal.tsx:26-33 | The text becomes PressKey of the old text; the error is kept. |
| PaymentModal.PaymentModal.ClearAll | src/components/PaymentModal.tsx:35-38 | Text and error both become empty. |
| PaymentModal.PaymentModal.DeleteLast | src/components/PaymentModal.tsx:40-43 | The text becomes Backspace of the old text; the error is cleared. |
| PaymentModal.PaymentModal.ChooseCash | src/components/PaymentModal.tsx:185 | The method becomes "cash". |
| PaymentModal.PaymentModal.Submit | src/components/PaymentModal.tsx:45-82 | Follows SubmitDecision: a refusal sets the error and sends nothing. Otherwise the body is sent. A response that is not ok sets "Payment failed", and a `fetch` that throws sets its own message. |
| Digits.NatToString | src/pages/Admin/SalesReport.tsx:405 | A non-empty digit string with no leading zero. |
| Digits.NatToStringRoundTrip | src/pages/Admin/SalesReport.tsx:405 | Reading the printed number back gives the number. |
| IdLists.RemoveById | src/pages/Admin/MenuManagement.tsx:174 | Never longer than the input, and no record left has that id. |
| IdLists.RemoveByIdMembers | src/pages/Admin/MenuManagement.tsx:174 | Keeps exactly the records of the input whose id differs. |
| IdLists.RemoveByIdAppend | src/pages/Admin/MenuManagement.tsx:174 | Removal distributes over concatenation, so survivors keep their order. |
| IdLists.RemoveByIdAbsent | src/pages/Admin/MenuManagement.tsx:174 | A list without that id is unchanged. |
| IdLists.RemoveByIdLength | src/pages/Admin/MenuManagement.tsx:174 | The length drops by exactly the number of records with that id. |
| IdLists.KeepById | src/pages/Admin/MenuManagement.tsx:79-84 | Keeps exactly the records with that id, as a sub-multiset, with that count. |
| IdLists.ReplaceById | src/pages/Admin/MenuManagement.tsx:247-249 | Same length. Records with that id become the new one; the others stay in place. |
| IdLists.ReplaceThenRemove | src/pages/Admin/MenuManagement.tsx:247-249 | When the new record keeps the id, replacement touches nothing that removal of that id would keep. |
| IdLists.FirstIndexOf | src/pages/Admin/MenuManagement.tsx:129-131 | The first position with that id, or the length. |
| IdLists.FindById | src/pages/Admin/MenuManagement.tsx:129-131 | Nothing iff no record has the id; otherwise the first record with it. |
| MenuManagement.NormalizeCategory | src/pages/Admin/MenuManagement.tsx:261-265 | The category becomes a bare id with the same id value; nothing else changes; a bare id is kept. |
| MenuManagement.IdLessEqTotal | src/pages/Admin/MenuManagement.tsx:87 | The id order is total. |
| MenuManagement.IdLessEqTransitive | src/pages/Admin/MenuManagement.tsx:87 | The id order is transitive. |
| MenuManagement.Insert | src/pages/Admin/MenuManagement.tsx:87 | Inserting into a sorted list gives a sorted list with one more copy of the item. |
| MenuManagement.SortById | src/pages/Admin/MenuManagement.tsx:87 | The sort gives an ascending-by-id permutation of its input. |
| MenuManagement.FilteredItems | src/pages/Admin/MenuManagement.tsx:73-88 | Sorted by id. On "all" it is a permutation of every item; otherwise a permutation of exactly the items whose category id is the tab. |
| MenuManagement.NormalizeKeepsTab | src/pages/Admin/MenuManagement.tsx:77-84 | Normalising an item's category does not move it between tabs. |
| MenuManagement.NormalizeSlashes | src/pages/Admin/MenuManagement.tsx:189 | Same length; every backslash becomes a slash; other characters stay. |
| MenuManagement.ImageUrl | src/pages/Admin/MenuManagement.tsx:184-192 | "" for an empty path and the object URL for a file. Otherwise the base, a slash, then the path less one leading slash or backslash. |
| MenuManagement.ImageUrlPathChars | src/pages/Admin/MenuManagement.tsx:189-191 | After the base and slash, each path character appears with backslashes turned into slashes. |
| MenuManagement.ImageUrlIgnoresSlashStyle | src/pages/Admin/MenuManagement.tsx:189 | Backslash and slash spellings of a path give the same URL. |
| MenuManagement.ImageUrlDropsLeadingSlash | src/pages/Admin/MenuManagement.tsx:190 | "/x" and "x" give the same URL. |
| MenuManagement.ImageUrlKeepsSecondSlash | src/pages/Admin/MenuManagement.tsx:190 | Only one leading slash goes: "//x" keeps one. |
| MenuManagement.ImageUploadError | src/pages/Admin/MenuManagement.tsx:271-277 | Accepted iff the MIME type starts with "image/" and the size is at most 5 MiB. Otherwise the matching message. |
| MenuManagement.AddItemError | src/pages/Admin/MenuManagement.tsx:93-114 | Accepted iff the name is non-empty, the price is non-zero, the category is non-empty and the image is a file. A filled stored path gets "Please upload an image". |
| MenuManagement.BlankItemRefused | src/pages/Admin/MenuManagement.tsx:143-151 | The reset form is always refused. |
| MenuManagement.FormOf | src/pages/Admin/MenuManagement.tsx:98-114 | The form carries the category's id, and the image only when it is a file. |
| MenuManagement.ResolveCategory | src/pages/Admin/MenuManagement.tsx:129-139 | Only the category may change, and its id never does. When the returned key is listed, the category becomes the `{_id, name}` of the first listed category with that id. Without a match it is left as returned. |
| MenuManagement.ResolveCategoryIdempotent | src/pages/Admin/MenuManagement.tsx:129-139 | Resolving twice is resolving once. |
| MenuManagement.AddedItemShowsUnderItsTab | src/pages/Admin/MenuManagement.tsx:73-88 | An added item shows on the "all" tab and on the tab of the category id it was returned with, and on no other tab, whether or not that id resolved. |
| MenuManagement.MenuPage.constructor | src/pages/Admin/MenuManagement.tsx:24-40 | Empty lists, tab "all", blank form, nothing edited, dialogs closed. |
| MenuManagement.MenuPage.ItemsFetched | src/pages/Admin/MenuManagement.tsx:49 | The item list is replaced. |
| MenuManagement.MenuPage.CategoriesFetched | src/pages/Admin/MenuManagement.tsx:65-66 | The category list is replaced. |
| MenuManagement.MenuPage.OpenAdd | src/pages/Admin/MenuManagement.tsx:347 | Only the add dialog opens. |
| MenuManagement.MenuPage.CloseAdd | src/pages/Admin/MenuManagement.tsx:474 | Only the add dialog closes; the typed form is kept. |
| MenuManagement.MenuPage.CloseEdit | src/pages/Admin/MenuManagement.tsx:487-490 | The edit dialog closes and the edited item is forgotten; nothing else changes. |
| MenuManagement.MenuPage.SelectTab | src/pages/Admin/MenuManagement.tsx:324-336 | Only the tab changes. |
| MenuManagement.MenuPage.VisibleItems | src/pages/Admin/MenuManagement.tsx:73-88 | Returns FilteredItems. On "all" the state list itself becomes the sorted list; otherwise it is unchanged. |
| MenuManagement.MenuPage.AddItem | src/pages/Admin/MenuManagement.tsx:91-157 | A refused form leaves the list unchanged. A failed reply shows the server's message or "Failed to add item". Success appends the resolved item, resets the form and closes the dialog. |
| MenuManagement.MenuPage.DeleteItem | src/pages/Admin/MenuManagement.tsx:159-182 | Only a confirmed, successful delete removes the records with that id. |
| MenuManagement.MenuPage.EditItem | src/pages/Admin/MenuManagement.tsx:194-258 | An empty id gives "Invalid item ID" and no change. Success replaces the records with that id by the resolved item and closes the dialog. |
| MenuManagement.MenuPage.EditClick | src/pages/Admin/MenuManagement.tsx:261-267 | Edits the normalised item and opens the dialog. |
| MenuManagement.MenuPage.ImageUpload | src/pages/Admin/MenuManagement.tsx:269-296 | A refused file changes nothing. An accepted one becomes the image of the item being edited, or else of the new item. |
| CategoryManagement.TextStart | src/pages/Admin/CategoryManagement.tsx:41 | The first position from i on that is not white space, or the length. Everything skipped is white space. |
| CategoryManagement.TextEnd | src/pages/Admin/CategoryManagement.tsx:41 | Just after the last position of a range that is not white space, or the range start. Everything after it is white space. |
| CategoryManagement.Trim | src/pages/Admin/CategoryManagement.tsx:41 | The slice of the input between a white-space prefix and a white-space suffix, with no white space at either end. It is empty iff the input is all white space. |
| CategoryManagement.TrimIdempotent | src/pages/Admin/CategoryManagement.tsx:41 | Trimming twice is trimming once. |
| CategoryManagement.NameError | src/pages/Admin/CategoryManagement.tsx:41-44 | Accepted iff some character is not white space. |
| CategoryManagement.PaddedNamePasses | src/pages/Admin/CategoryManagement.tsx:41-51 | "  Drinks " passes; " \t " does not. |
| CategoryManagement.DeleteUndoesAdd | src/pages/Admin/CategoryManagement.tsx:115 | Deleting the id of a freshly appended category with a new id restores the list. |
| CategoryManagement.CategoryPage.constructor | src/pages/Admin/CategoryManagement.tsx:13-18 | Empty list and name, nothing edited, dialogs closed. |
| CategoryManagement.CategoryPage.Loaded | src/pages/Admin/CategoryManagement.tsx:29-30 | The list is replaced. |
| CategoryManagement.CategoryPage.OpenAdd | src/pages/Admin/CategoryManagement.tsx:136 | Opens the add dialog. |
| CategoryManagement.CategoryPage.ChangeNewName | src/pages/Admin/CategoryManagement.tsx:203 | Only the typed name changes. |
| CategoryManagement.CategoryPage.AddCategory | src/pages/Admin/CategoryManagement.tsx:39-65 | A blank name is refused and nothing is sent or changed. Otherwise the untrimmed name is sent. A failure keeps the state; success appends exactly the created category, empties the name and closes the dialog. |
| CategoryManagement.CategoryPage.CancelAdd | src/pages/Admin/CategoryManagement.tsx:193-196 | Closes the dialog and empties the name. |
| CategoryManagement.CategoryPage.OpenEdit | src/pages/Admin/CategoryManagement.tsx:165-168 | Edits that category and opens the dialog. |
| CategoryManagement.CategoryPage.ChangeEditingName | src/pages/Admin/CategoryManagement.tsx:222-224 | Renames the edited category; with none, nothing changes. |
| CategoryManagement.CategoryPage.EditCategory | src/pages/Admin/CategoryManagement.tsx:67-98 | Refused with no edited category or a blank name. Success replaces the records with the edited id by the reply and clears the editing state. |
| CategoryManagement.CategoryPage.CancelEdit | src/pages/Admin/CategoryManagement.tsx:212-215 | Closes the dialog and forgets the edited category. |
| CategoryManagement.CategoryPage.DeleteCategory | src/pages/Admin/CategoryManagement.tsx:100-123 | Only a confirmed, successful delete removes the records with that id. |
| SalesReport.CategoryMapKeys | src/pages/Admin/SalesReport.tsx:83-86 | The table's keys are exactly the record ids. |
| SalesReport.CategoryMapLastWins | src/pages/Admin/SalesReport.tsx:83-86 | Each id names the last record carrying it. |
| SalesReport.SliceName | src/pages/Admin/SalesReport.tsx:164 | Never empty. "Unknown" exactly when the id is unmapped, maps to "", or maps to "Unknown"; otherwise the mapped name. |
| SalesReport.PrepareCategoryData | src/pages/Admin/SalesReport.tsx:162-167 | One slice per entry, in order, valued at the entry's amount and named by SliceName. |
| SalesReport.SliceNamesFromRecords | src/pages/Admin/SalesReport.tsx:83-86 | Over a table from records, an id no record has is "Unknown". An id whose last record has a non-empty name shows that name. |
| SalesReport.SlicesKeepTotal | src/pages/Admin/SalesReport.tsx:162-167 | The slices add up to the entries' amounts. |
| SalesReport.ChartDimensions | src/pages/Admin/SalesReport.tsx:170-182 | 500 by 300 from 768 up. Below 768 the width less 48. Height 280 iff under 400, else 300. The chart always leaves 48 pixels. |
| SalesReport.ChartHeightMonotone | src/pages/Admin/SalesReport.tsx:175 | A wider window never gets a shorter chart. |
| SalesReport.VisibleDetails | src/pages/Admin/SalesReport.tsx:368-383 | A prefix of the rows. All of them when expanded, else the first min(3, n). |
| SalesReport.ToggleIffRowsHidden | src/pages/Admin/SalesReport.tsx:398 | The toggle appears iff collapsing hides a row. |
| SalesReport.ToggleLabel | src/pages/Admin/SalesReport.tsx:405 | "Collapse" exactly when expanded. |
| SalesReport.ToggleLabelCountsHidden | src/pages/Admin/SalesReport.tsx:405 | Collapsed, the caption's number reads back as the count of hidden rows. |
| SalesReport.CustomRange | src/pages/Admin/SalesReport.tsx:153-158 | A request iff the range and both its ends are present, with those ends. |
| SalesReport.ReportPage.constructor | src/pages/Admin/SalesReport.tsx:57-74 | Empty table, entries and rows, a monthly report, collapsed. |
| SalesReport.ReportPage.CategoriesFetched | src/pages/Admin/SalesReport.tsx:82-87 | The loop builds CategoryMap of the records. |
| SalesReport.ReportPage.ReportLoaded | src/pages/Admin/SalesReport.tsx:104-105 | The report type, entries and rows are replaced; the expanded flag is kept. |
| SalesReport.ReportPage.ToggleExpanded | src/pages/Admin/SalesReport.tsx:402 | Flips the expanded flag only. |
| SalesReport.ReportPage.Render | src/pages/Admin/SalesReport.tsx:202-506 | A monthly report shows the slices, the visible rows and, for more than three rows, the toggle caption. A yearly one shows only the slices. A custom one shows no slices, rows or toggle. |

## Left out

- Network calls, JSON parsing and HTTP status codes are not modelled. Each response is an input: ok or not, the returned record, and the server's message.
- Loading and refreshing flags are not modelled, and neither are the order and races of overlapping requests.
- Binary floating point is not modelled. Order totals and prices are integer cents, and the typed amount is read exactly. For inputs such as "1.005", `Math.round(x * 100)` on a double can differ from the exact rounding modelled here.
- `parseFloat` is modelled only on keypad text. The amount and change sent for empty text are NaN, modelled as `None`.
- The payment dialog's `change` field is in cents here; the source divides by 100 again.
- After a successful payment the parent's refresh callback runs. That callback is `OrdersPage.OrdersFetched`; the chaining between the two pages is not modelled.
- The `Object.values` and `Object.entries` key order is not modelled: integer-like keys first, ascending, then insertion order. Grouping is a map, and `FindGroupIsLookup` shows that order does not matter for the lookup. Report entries are given as a sequence in enumeration order.
- Table or category ids that collide with JavaScript object prototype keys, such as "constructor", are not modelled.
- `localeCompare` collation is not modelled: ids are compared by code point. `SortById` is a stable insertion sort, but stability is not stated in its contract.
- `URL.createObjectURL` is not modelled; the object URL is a parameter. Also not modelled: the `new Date()` timestamp (a parameter), `toFixed`, date formatting (the custom range takes already formatted ends), and `toLocaleDateString`.
- Menu items are modelled without JavaScript's loose typing: a missing or null category or image, and a NaN price from the item form, are not modelled.
- Fetch failures that only show a message are not modelled; the lists are then unchanged.
- `OrdersPage.SelectTable` does not model the re-fetch: `fetchOrders` depends on the selected table id, so every selection change fetches the orders again. The model treats that fetch as a separate `OrdersFetched` call.
- Not modelled: authentication, routing, the top bar, the sign-up page, the item form modal, and chart rendering.
